/**
 The stored assessments of a candidate. A row is identified by the usable evidence, the prompt and the
 model it was computed with; the versions of the policy and of the score are constants. Rows are added and
 never changed.
 */
module AssessmentRows {
  import opened Common
  import opened CandidateEvidence
  import CandidateScoring
  import CandidateAssessment

  /** How the facts of a candidate were obtained. */
  datatype Provenance = FromModel(model: string) | FromPerson | FromCountryEvidence

  /** The prompt and the model of a row: those of the provenance once facts have been extracted. */
  datatype Version = EvidenceOnly | Extracted(provenance: Provenance)

  function VersionOf(extracted: bool, p: Provenance): Version {
    if extracted then Extracted(p) else EvidenceOnly
  }

  /** The signals and the answer of the gate; the score is a function of the signals. */
  datatype Computation = Computation(input: CandidateScoring.ScoreInput, gate: CandidateScoring.GateResult)

  function Compute(s: CandidateAssessment.Subject, t: CandidateAssessment.Target,
      evidence: seq<CandidateAssessment.Evidence>): Computation {
    Computation(CandidateAssessment.SignalsOf(s, t, CandidateAssessment.Usable(evidence)),
                CandidateScoring.GateOf(CandidateAssessment.FactsOf(s, t)))
  }

  function ScoreOf(k: Computation): CandidateScoring.Scoring {
    CandidateScoring.ScoreCandidate(k.input)
  }

  datatype AssessmentRow = AssessmentRow(version: Version, bundle: multiset<Content>, computed: Computation, at: Time)

  predicate IsVersion(row: AssessmentRow, version: Version, bundle: multiset<Content>) {
    row.version == version && row.bundle == bundle
  }

  function FindVersion(rows: seq<AssessmentRow>, version: Version, bundle: multiset<Content>): (r: Option<nat>)
    ensures r.Some? ==> r.value < |rows| && IsVersion(rows[r.value], version, bundle)
    ensures r.None? ==> forall i :: 0 <= i < |rows| ==> !IsVersion(rows[i], version, bundle)
  {
    if rows == [] then None
    else if IsVersion(rows[|rows| - 1], version, bundle) then Some(|rows| - 1)
    else FindVersion(rows[..|rows| - 1], version, bundle)
  }

  /** The row of the greatest time; of equal times the one stored last. */
  function Latest(rows: seq<AssessmentRow>): (r: Option<nat>)
    ensures r.Some? <==> rows != []
    ensures r.Some? ==> r.value < |rows| && forall i :: 0 <= i < |rows| ==> rows[i].at <= rows[r.value].at
  {
    if rows == [] then None
    else
      var last := |rows| - 1;
      var before := Latest(rows[..last]);
      if before.Some? && rows[before.value].at > rows[last].at then before else Some(last)
  }

  // ---------------------------------------------------------------------------
  // What an assessment writes into the row of its candidate
  // ---------------------------------------------------------------------------

  datatype Columns = Columns(priority: Option<int>, band: Option<CandidateScoring.Band>, coverage: int, confidence: int)

  const NO_COLUMNS := Columns(None, None, 0, 0)

  function ColumnsOf(k: Computation): Columns {
    match ScoreOf(k)
    case Refused => NO_COLUMNS
    case Scored(r) => Columns(r.priority, Some(r.band), r.coverage, if r.quality.Some? then r.quality.value else 0)
  }

  predicate EligibleColumns(columns: Columns) {
    columns.priority.Some? && 80 <= columns.priority.value <= 92 && columns.band == Some(CandidateScoring.BandB)
  }

  lemma {:induction false} EligibleHasColumns(s: CandidateAssessment.Subject, t: CandidateAssessment.Target,
      evidence: seq<CandidateAssessment.Evidence>)
    requires Compute(s, t, evidence).gate.disposition.Eligible?
    ensures EligibleColumns(ColumnsOf(Compute(s, t, evidence)))
  {
    CandidateAssessment.EligiblePriority(s, t, evidence);
  }

  lemma {:induction false} ComputedIsScored(s: CandidateAssessment.Subject, t: CandidateAssessment.Target,
      evidence: seq<CandidateAssessment.Evidence>)
    ensures ScoreOf(Compute(s, t, evidence)).Scored?
  {
    CandidateAssessment.CoverageAtMost65(s, t, evidence);
  }

  // ---------------------------------------------------------------------------
  // Rows are added and never changed
  // ---------------------------------------------------------------------------

  predicate UniqueVersions(rows: seq<AssessmentRow>) {
    forall i, j :: 0 <= i < j < |rows| ==> !IsVersion(rows[i], rows[j].version, rows[j].bundle)
  }

  predicate VersionsOk(rows: seq<AssessmentRow>) {
    UniqueVersions(rows) && forall i :: 0 <= i < |rows| ==> ScoreOf(rows[i].computed).Scored?
  }

  predicate VersionsKept(before: seq<AssessmentRow>, after: seq<AssessmentRow>) {
    before <= after && (VersionsOk(before) ==> VersionsOk(after))
  }

  lemma {:induction false} NewVersionKept(rows: seq<AssessmentRow>, row: AssessmentRow)
    requires FindVersion(rows, row.version, row.bundle).None? && ScoreOf(row.computed).Scored?
    ensures VersionsKept(rows, rows + [row])
  {
  }
}
