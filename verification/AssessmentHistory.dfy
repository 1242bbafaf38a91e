/** What every history keeps of the evidence and the assessments of a candidate: what the columns of an eligible
    candidate say, when the stored assessments say the same, and what a new lead takes from either. */
module AssessmentHistory {
  import opened Common
  import opened AcquisitionRows
  import opened CandidateEvidence
  import opened AssessmentRows
  import opened CandidateRows
  import opened CandidateLifecycle
  import opened CandidateHistory
  import CandidateScoring
  import CandidateAssessment

  // ---------------------------------------------------------------------------
  // Records are never lost
  // ---------------------------------------------------------------------------

  lemma {:induction false} BulkKeepsRecords(s: State, ids: seq<nat>, d: Decision, k: nat)
    requires (forall i :: 0 <= i < |ids| ==> ids[i] < |s.candidates|) && k < |s.candidates|
    ensures BulkApplied(s, ids, d).Some? ==>
              var c' := BulkApplied(s, ids, d).value.candidates[k];
              c'.evidence == s.candidates[k].evidence && c'.assessments == s.candidates[k].assessments
  {
    if ids != [] { BulkKeepsRecords(s, ids[..|ids| - 1], d, k); }
  }

  lemma {:induction false} ChangedKeepsRecords(c: Candidate, a: Action)
    requires Upserting(a) || Changing(a)
    ensures RecordsKept(c, Changed(c, a))
  {
    match a
    case DiscoverHit(_, hit, _) => RowKept(c.evidence, RowOfHit(hit));
    case ImportUrl(_, _, imported, target) => ImportKeepsRecords(c, imported, target);
    case ConvertRadar(_, _, _, _, _, row) => RowKept(c.evidence, row);
    case SaveEvidence(_, row) => RowKept(c.evidence, row);
    case Assess(_, target, model, at) => AssessKeepsRecords(c, target, model, at);
    case OverrideCountry(_, confirmation, target) => OverrideKeepsRecords(c, confirmation, target);
    case _ => SameKept(c.evidence);
  }

  predicate SameRecords(s: State, s': State, id: nat) {
    id < |s.candidates| && id < |s'.candidates|
    && s'.candidates[id].evidence == s.candidates[id].evidence
    && s'.candidates[id].assessments == s.candidates[id].assessments
  }

  lemma {:induction false} PromoteKeepsRecords(s: State, id: nat, k: nat)
    requires id < |s.candidates| && k < |s.candidates| && PromoteIn(s, id).Promotion?
    ensures SameRecords(s, PromoteIn(s, id).state, k)
  {
  }

  lemma {:induction false} ReviewKeepsRecords(s: State, id: nat, d: Decision, k: nat)
    requires k < |s.candidates| && Reviewed(s, id, d).Some?
    ensures SameRecords(s, Reviewed(s, id, d).value, k)
  {
    if d.Accept? { PromoteKeepsRecords(Accepting(s, id, d.stamp), id, k); }
  }

  lemma {:induction false} PromotionsKeepRecords(s: State, a: Action, id: nat)
    requires Promoting(a) && id < |NextPromotion(s, a).candidates|
    ensures SameRecords(s, NextPromotion(s, a), id)
  {
    PromotionsAddNoRow(s, a);
    match a
    case Review(k, d) => if Reviewed(s, k, d).Some? { ReviewKeepsRecords(s, k, d, id); }
    case BulkReview(ids, d) => if BulkReviewed(s, ids, d).Some? { BulkKeepsRecords(s, Distinct(ids), d, id); }
    case Promote(k) => if k < |s.candidates| && PromoteIn(s, k).Promotion? { PromoteKeepsRecords(s, k, id); }
  }

  predicate WellKept(c: Candidate) {
    UniqueContent(c.evidence) && VersionsOk(c.assessments)
  }

  lemma {:induction false} UpsertKeepsRecords(s: State, a: Action, id: nat)
    requires Upserting(a) && id < |NextUpsert(s, a).candidates|
    ensures if id < |s.candidates| then RecordsKept(s.candidates[id], NextUpsert(s, a).candidates[id])
            else WellKept(NextUpsert(s, a).candidates[id])
  {
    UpsertedRow(s, a, id);
    if id < |s.candidates| {
      ChangedKeepsRecords(s.candidates[id], a);
      SameKept(s.candidates[id].evidence);
    } else {
      InitialOk(a);
      ChangedKeepsRecords(InitialOf(a), a);
    }
  }

  lemma {:induction false} ChangeKeepsRecords(s: State, a: Action, id: nat)
    requires Changing(a) && id < |NextChange(s, a).candidates|
    ensures id < |s.candidates| && RecordsKept(s.candidates[id], NextChange(s, a).candidates[id])
  {
    ChangedRow(s, a, id);
    ChangedKeepsRecords(s.candidates[id], a);
    SameKept(s.candidates[id].evidence);
  }

  lemma {:induction false} StepKeepsRecords(s: State, a: Action, id: nat)
    requires id < |Next(s, a).candidates|
    ensures if id < |s.candidates| then RecordsKept(s.candidates[id], Next(s, a).candidates[id])
            else WellKept(Next(s, a).candidates[id])
  {
    if Upserting(a) {
      UpsertKeepsRecords(s, a, id);
    } else if Changing(a) {
      ChangeKeepsRecords(s, a, id);
    } else if Promoting(a) {
      PromotionsKeepRecords(s, a, id);
      SameKept(s.candidates[id].evidence);
    } else {
      assert NextCrm(s, a).candidates == s.candidates;
      SameKept(s.candidates[id].evidence);
    }
  }

  lemma {:induction false} ReachableWellKept(actions: seq<Action>, id: nat)
    requires id < |Run(actions).candidates|
    ensures WellKept(Run(actions).candidates[id])
    decreases |actions|
  {
    if actions != [] {
      var front, last := actions[..|actions| - 1], actions[|actions| - 1];
      StepKeepsRecords(Run(front), last, id);
      if id < |Run(front).candidates| { ReachableWellKept(front, id); }
    }
  }

  /** In every reachable state no candidate has two rows of evidence with the same content or two assessments of the
      same version, so the unique constraints on them never fire; and from any earlier state on, evidence is only
      added and claims only gained, while assessments are added and never changed. */
  lemma {:induction false} RecordsAreKept(actions: seq<Action>, n: nat, id: nat)
    requires n <= |actions| && id < |Run(actions).candidates|
    ensures UniqueContent(Run(actions).candidates[id].evidence)
    ensures UniqueVersions(Run(actions).candidates[id].assessments)
    ensures id < |Run(actions[..n]).candidates| ==>
              var before, after := Run(actions[..n]).candidates[id], Run(actions).candidates[id];
              Grows(before.evidence, after.evidence) && before.assessments <= after.assessments
    decreases |actions|
  {
    ReachableWellKept(actions, id);
    if n == |actions| {
      assert actions[..n] == actions;
    } else {
      var front, last := actions[..|actions| - 1], actions[|actions| - 1];
      assert front[..n] == actions[..n];
      if id < |Run(front[..n]).candidates| {
        DecidedForever(front, n, id);
        RecordsAreKept(front, n, id);
        StepKeepsRecords(Run(front), last, id);
        GrowsTwice(Run(front[..n]).candidates[id].evidence, Run(front).candidates[id].evidence,
            Run(actions).candidates[id].evidence);
      }
    }
  }

  // ---------------------------------------------------------------------------
  // Columns of eligible candidates and scores of leads
  // ---------------------------------------------------------------------------

  predicate TakesScores(scores: LeadScores, c: Candidate) {
    var latest := Latest(c.assessments);
    && scores.priority == c.columns.priority && scores.band == c.columns.band
    && latest.Some? && scores.assessment == latest
    && var score := ScoreOf(c.assessments[latest.value].computed);
       score.Scored? && scores.fit == score.result.fit && scores.intent == score.result.intent
       && scores.quality == score.result.quality
  }

  lemma {:induction false} ScoresForTakes(c: Candidate)
    requires WellKept(c) && c.assessments != []
    ensures TakesScores(ScoresFor(c), c)
  {
  }

  /** In every reachable state the columns of an eligible candidate hold a priority from 80 to 92 in band B. The lead
      that its promotion adds takes priority and band from them, and the other scores from the latest stored
      assessment, whichever that is. */
  lemma {:induction false} EligibleAreScored(actions: seq<Action>, id: nat)
    requires id < |Run(actions).candidates| && Run(actions).candidates[id].status.Eligible?
    ensures var s := Run(actions); var c := s.candidates[id]; var p := PromoteIn(s, id);
            && EligibleColumns(c.columns)
            && (p.Promotion? && p.createdLead ==>
                  p.lead < |p.state.leads| && IsFrom(p.state.leads[p.lead], id)
                  && TakesScores(p.state.leads[p.lead].value.scores, c))
  {
    InvRun(actions);
    ReachableWellKept(actions, id);
    var s := Run(actions);
    assert CandidateOk(s.candidates[id]);
    ScoresForTakes(s.candidates[id]);
  }

  // ---------------------------------------------------------------------------
  // Which stored assessment is the current one
  // ---------------------------------------------------------------------------

  /** Whether the stored assessment of the version says what was computed. */
  predicate StoredIsCurrent(c: Candidate, target: Target, p: Provenance) {
    var stored := StoredVersion(c, p);
    stored.Some? && c.assessments[stored.value].computed == ComputationOf(c, target)
  }

  lemma {:induction false} ConcludedKeepsFacts(c: Candidate, target: Target, p: Provenance, at: Time)
    ensures var c' := Concluded(c, target, p, at);
            && ComputationOf(c', target) == ComputationOf(c, target)
            && VersionOf(c'.extracted, p) == VersionOf(c.extracted, p) && c'.evidence == c.evidence
            && c'.columns == ColumnsOf(ComputationOf(c, target))
            && c'.assessments == WithAssessment(c, target, p, at).assessments
  {
  }

  lemma {:induction false} FoundLast(rows: seq<AssessmentRow>, row: AssessmentRow)
    ensures FindVersion(rows + [row], row.version, row.bundle) == Some(|rows|)
  {
  }

  /** The columns always say what was computed. The assessment stored for it says so as well exactly if none of that
      version was stored before, or the stored one was computed from the same signals with the same answer. */
  lemma {:induction false} StoredIsCurrentIff(c: Candidate, target: Target, p: Provenance, at: Time)
    ensures var c' := Concluded(c, target, p, at);
            && c'.columns == ColumnsOf(ComputationOf(c', target))
            && (StoredIsCurrent(c', target, p) <==> StoredVersion(c, p).None? || StoredIsCurrent(c, target, p))
  {
    ConcludedKeepsFacts(c, target, p, at);
    if StoredVersion(c, p).None? {
      FoundLast(c.assessments,
        AssessmentRow(VersionOf(c.extracted, p), Bundle(c.evidence), ComputationOf(c, target), at));
    }
  }

  /** An import that commits leaves the stored assessment of its version current. */
  lemma {:induction false} CommittedImportIsCurrent(c: Candidate, f: Import, target: Target)
    requires !ImportRefused(c, f, target)
    ensures StoredIsCurrent(Imported(c, f, target), target, f.provenance)
  {
    StoredIsCurrentIff(WithImport(c, f), target, f.provenance, f.at);
  }

  /** So does a country override that commits. */
  lemma {:induction false} CommittedOverrideIsCurrent(c: Candidate, k: Confirmation, target: Target)
    requires !OverrideRefused(c, k, target)
    ensures StoredIsCurrent(Overridden(c, k, target), target, FromCountryEvidence)
  {
    StoredIsCurrentIff(WithCountry(c, k), target, FromCountryEvidence, k.at);
  }

  predicate LatestSays(rows: seq<AssessmentRow>, k: Computation) {
    rows != [] && rows[Latest(rows).value].computed == k
  }

  lemma {:induction false} LatestWithOne(rows: seq<AssessmentRow>, row: AssessmentRow)
    ensures Latest(rows + [row]) ==
            if rows != [] && rows[Latest(rows).value].at > row.at then Latest(rows) else Some(|rows|)
  {
    assert (rows + [row])[..|rows|] == rows;
  }

  /** What a reader of the latest assessment sees after a conclusion: it is the current one exactly if a new row was
      stored at no earlier a time than every other, or the latest row already said the same. */
  lemma {:induction false} LatestIsCurrentIff(c: Candidate, target: Target, p: Provenance, at: Time)
    ensures var c', k, rows := Concluded(c, target, p, at), ComputationOf(c, target), c.assessments;
            LatestSays(c'.assessments, k) <==>
            || (StoredVersion(c, p).None? && forall i :: 0 <= i < |rows| ==> rows[i].at <= at)
            || LatestSays(rows, k)
  {
    ConcludedKeepsFacts(c, target, p, at);
    var rows := c.assessments;
    if StoredVersion(c, p).None? {
      LatestWithOne(rows, AssessmentRow(VersionOf(c.extracted, p), Bundle(c.evidence), ComputationOf(c, target), at));
    }
  }

  // ---------------------------------------------------------------------------
  // Eligible candidates whose jobs overlooked nothing
  // ---------------------------------------------------------------------------

  /** The job computes something else than the stored assessment of the version, which it leaves. */
  predicate Overlooks(c: Candidate, a: Action) {
    a.Assess? && Conflicts(c, a.target, FromModel(a.model))
  }

  predicate Overlooked(s: State, a: Action, id: nat) {
    a.Assess? && a.candidate == id && id < |s.candidates| && Overlooks(s.candidates[id], a)
  }

  predicate Supports(row: AssessmentRow, columns: Columns) {
    row.computed.gate.disposition.Eligible? && ColumnsOf(row.computed) == columns
  }

  /** Some stored assessment found the candidate eligible and gives exactly its columns. */
  predicate Backed(c: Candidate) {
    exists i :: 0 <= i < |c.assessments| && Supports(c.assessments[i], c.columns)
  }

  lemma {:induction false} ConcludedIsBacked(c: Candidate, target: Target, p: Provenance, at: Time)
    requires !Conflicts(c, target, p) && !Decided(c.status)
    ensures Concluded(c, target, p, at).status.Eligible? ==> Backed(Concluded(c, target, p, at))
  {
    var c' := Concluded(c, target, p, at);
    StoredIsCurrentIff(c, target, p, at);
    ConcludedKeepsFacts(c, target, p, at);
    var row := c'.assessments[StoredVersion(c', p).value];
    assert row.computed == ComputationOf(c, target);
    assert c'.status.Eligible? ==> Supports(row, c'.columns);
  }

  lemma {:induction false} DecidedIsNotEligible(c: Candidate, target: Target, p: Provenance, at: Time)
    requires Decided(c.status)
    ensures !Concluded(c, target, p, at).status.Eligible?
  {
  }

  lemma {:induction false} ConcludedStaysBacked(c: Candidate, target: Target, p: Provenance, at: Time)
    requires !Conflicts(c, target, p)
    ensures Concluded(c, target, p, at).status.Eligible? ==> Backed(Concluded(c, target, p, at))
  {
    if Decided(c.status) { DecidedIsNotEligible(c, target, p, at); } else { ConcludedIsBacked(c, target, p, at); }
  }

  lemma {:induction false} ImportStaysBacked(c: Candidate, f: Import, target: Target)
    requires c.status.Eligible? ==> Backed(c)
    ensures Imported(c, f, target).status.Eligible? ==> Backed(Imported(c, f, target))
  {
    if !ImportRefused(c, f, target) { ConcludedStaysBacked(WithImport(c, f), target, f.provenance, f.at); }
  }

  lemma {:induction false} OverrideStaysBacked(c: Candidate, k: Confirmation, target: Target)
    requires c.status.Eligible? ==> Backed(c)
    ensures Overridden(c, k, target).status.Eligible? ==> Backed(Overridden(c, k, target))
  {
    if !OverrideRefused(c, k, target) { ConcludedStaysBacked(WithCountry(c, k), target, FromCountryEvidence, k.at); }
  }

  /** The other changes neither assess a candidate nor make one eligible. */
  lemma {:induction false} PlainChange(c: Candidate, a: Action)
    requires (Upserting(a) || Changing(a)) && !a.ImportUrl? && !a.Assess? && !a.OverrideCountry?
    ensures Changed(c, a).assessments == c.assessments && Changed(c, a).columns == c.columns
    ensures Changed(c, a).status.Eligible? ==> c.status.Eligible?
  {
  }

  lemma {:induction false} ChangedStaysBacked(c: Candidate, a: Action)
    requires (Upserting(a) || Changing(a)) && !Overlooks(c, a) && (c.status.Eligible? ==> Backed(c))
    ensures Changed(c, a).status.Eligible? ==> Backed(Changed(c, a))
  {
    if a.ImportUrl? {
      ImportStaysBacked(c, a.imported, a.target);
    } else if a.Assess? {
      ConcludedStaysBacked(c, a.target, FromModel(a.model), a.at);
    } else if a.OverrideCountry? {
      OverrideStaysBacked(c, a.confirmation, a.target);
    } else {
      PlainChange(c, a);
    }
  }

  lemma {:induction false} BulkMakesNoneEligible(s: State, ids: seq<nat>, d: Decision, k: nat)
    requires (forall i :: 0 <= i < |ids| ==> ids[i] < |s.candidates|) && k < |s.candidates|
    ensures BulkApplied(s, ids, d).Some? && BulkApplied(s, ids, d).value.candidates[k].status.Eligible? ==>
              BulkApplied(s, ids, d).value.candidates[k] == s.candidates[k]
  {
    if ids != [] { BulkMakesNoneEligible(s, ids[..|ids| - 1], d, k); }
  }

  lemma {:induction false} PromotionsMakeNoneEligible(s: State, a: Action, id: nat)
    requires Promoting(a) && id < |s.candidates|
    ensures id < |NextPromotion(s, a).candidates|
    ensures NextPromotion(s, a).candidates[id].status.Eligible? ==>
              NextPromotion(s, a).candidates[id] == s.candidates[id]
  {
    if a.BulkReview? && BulkReviewed(s, a.ids, a.decision).Some? {
      BulkMakesNoneEligible(s, Distinct(a.ids), a.decision, id);
    }
  }

  predicate EligibleIsBacked(s: State, id: nat) {
    id < |s.candidates| && s.candidates[id].status.Eligible? ==> Backed(s.candidates[id])
  }

  lemma {:induction false} UpsertKeepsBacked(s: State, a: Action, id: nat)
    requires Upserting(a) && EligibleIsBacked(s, id)
    ensures EligibleIsBacked(NextUpsert(s, a), id)
  {
    if id < |NextUpsert(s, a).candidates| { UpsertedRow(s, a, id); }
    if id < |s.candidates| {
      ChangedStaysBacked(s.candidates[id], a);
    } else {
      InitialOk(a);
      ChangedStaysBacked(InitialOf(a), a);
    }
  }

  lemma {:induction false} ChangeKeepsBacked(s: State, a: Action, id: nat)
    requires Changing(a) && EligibleIsBacked(s, id) && !Overlooked(s, a, id)
    ensures EligibleIsBacked(NextChange(s, a), id)
  {
    if id < |s.candidates| {
      ChangedRow(s, a, id);
      if a.candidate == id { ChangedStaysBacked(s.candidates[id], a); }
    }
  }

  lemma {:induction false} StepKeepsBacked(s: State, a: Action, id: nat)
    requires EligibleIsBacked(s, id) && !Overlooked(s, a, id)
    ensures EligibleIsBacked(Next(s, a), id)
  {
    if Upserting(a) {
      UpsertKeepsBacked(s, a, id);
    } else if Changing(a) {
      ChangeKeepsBacked(s, a, id);
    } else if Promoting(a) {
      PromotionsAddNoRow(s, a);
      if id < |s.candidates| { PromotionsMakeNoneEligible(s, a, id); }
    } else {
      assert NextCrm(s, a).candidates == s.candidates;
    }
  }

  predicate OverlookedAt(actions: seq<Action>, k: nat, id: nat)
    requires k < |actions|
  {
    Overlooked(Run(actions[..k]), actions[k], id)
  }

  lemma {:induction false} EarlierOverlooked(actions: seq<Action>, k: nat, id: nat)
    requires k + 1 < |actions|
    ensures OverlookedAt(actions, k, id) <==> OverlookedAt(actions[..|actions| - 1], k, id)
  {
    assert actions[..|actions| - 1][..k] == actions[..k];
  }

  /** In every run in which no job overlooked a differing assessment of the candidate, an eligible candidate has a
      stored assessment that found it eligible and gives exactly its columns. */
  lemma {:induction false} EligibleAreBacked(actions: seq<Action>, id: nat)
    requires forall k :: 0 <= k < |actions| ==> !OverlookedAt(actions, k, id)
    ensures EligibleIsBacked(Run(actions), id)
    decreases |actions|
  {
    if actions != [] {
      var front, n := actions[..|actions| - 1], |actions| - 1;
      forall k | 0 <= k < |front| ensures !OverlookedAt(front, k, id) {
        EarlierOverlooked(actions, k, id);
      }
      EligibleAreBacked(front, id);
      assert !OverlookedAt(actions, n, id);
      StepKeepsBacked(Run(front), actions[n], id);
    }
  }

  // ---------------------------------------------------------------------------
  // A job that overlooks an assessment
  // ---------------------------------------------------------------------------

  function Only(c: Candidate): State {
    EMPTY.(candidates := [c])
  }

  lemma {:induction false} OnlyChanges(actions: seq<Action>, c: Candidate, a: Action)
    requires Run(actions) == Only(c) && Changing(a) && a.candidate == 0
    ensures Run(actions + [a]) == Only(Changed(c, a))
  {
    RunExtends(actions, a);
    assert [c][0 := Changed(c, a)] == [Changed(c, a)];
  }

  /** What one verification of a page stores, and the assessment it asks for. */
  datatype Visit = Visit(page: EvidenceRow, paths: seq<string>, email: string, facts: Facts, at: Time)

  function Verified(c: Candidate, v: Visit): Candidate {
    WithVerifiedFacts(WithPage(WithEvidence(c, v.page), None, v.paths, v.email), v.facts)
  }

  function WithVerification(actions: seq<Action>, v: Visit): seq<Action> {
    actions + [SaveEvidence(0, v.page)] + [VerifyPage(0, None, v.paths, v.email)] + [VerifyFacts(0, v.facts)]
  }

  lemma {:induction false} VerificationRuns(actions: seq<Action>, c: Candidate, v: Visit)
    requires Run(actions) == Only(c)
    ensures Run(WithVerification(actions, v)) == Only(Verified(c, v))
  {
    var a1, a2, a3 := SaveEvidence(0, v.page), VerifyPage(0, None, v.paths, v.email), VerifyFacts(0, v.facts);
    var c1 := Changed(c, a1);
    OnlyChanges(actions, c, a1);
    OnlyChanges(actions + [a1], c1, a2);
    OnlyChanges(actions + [a1] + [a2], Changed(c1, a2), a3);
  }

  function WithVisit(actions: seq<Action>, v: Visit, t: Target, model: string): seq<Action> {
    WithVerification(actions, v) + [Assess(0, t, model, v.at)]
  }

  lemma {:induction false} VisitRuns(actions: seq<Action>, c: Candidate, v: Visit, t: Target, model: string)
    requires Run(actions) == Only(c)
    ensures Run(WithVisit(actions, v, t, model)) == Only(Assessed(Verified(c, v), t, model, v.at))
  {
    VerificationRuns(actions, c, v);
    OnlyChanges(WithVerification(actions, v), Verified(c, v), Assess(0, t, model, v.at));
  }

  function SubjectOf(f: Facts): Subject {
    CandidateAssessment.Subject(f.companyName, f.domain,
      if f.countryCode.Some? then CandidateScoring.Confirmed else CandidateScoring.UnknownCountry,
      if f.countryCode.Some? then f.countryCode.value else "",
      f.buyerType, f.productTerms, f.claims, f.contactPaths, f.email)
  }

  lemma {:induction false} VisitFindsFacts(c: Candidate, v: Visit)
    ensures var c' := Verified(c, v);
            && c'.extracted && c'.evidence == WithRow(c.evidence, v.page) && c'.crmDomain == v.facts.crmDomain
            && c'.status == c.status && c'.assessments == c.assessments && c'.promotedLead == c.promotedLead
    ensures v.facts.countryCode.Some? ==> Verified(c, v).subject == SubjectOf(v.facts)
    ensures v.facts.countryCode.None? && c.subject.country.UnknownCountry? ==>
              Verified(c, v).subject
              == CandidateAssessment.WithUnknownCountry(SubjectOf(v.facts), c.subject.countryCode)
  {
  }

  /** The assessment of a company whose country was not known. */
  predicate KeptRow(row: AssessmentRow, f: Facts) {
    && row.computed.gate
       == CandidateScoring.GateResult(CandidateScoring.NeedsEvidence, [CandidateScoring.CountryUnknown])
    && ScoreOf(row.computed).Scored?
    && ScoreOf(row.computed).result.fit == Some(if f.productTerms != [] then 83 else 85)
  }

  function FitNow(c: Candidate, t: Target): Option<int> {
    match ScoreOf(ComputationOf(c, t))
    case Refused => None
    case Scored(r) => r.fit
  }

  /** The first conclusion about an undecided candidate. */
  lemma {:induction false} FirstConclusion(c: Candidate, t: Target, p: Provenance, at: Time)
    requires c.assessments == [] && !Decided(c.status)
    ensures var c', k := Concluded(c, t, p, at), ComputationOf(c, t);
            && c'.assessments == [AssessmentRow(VersionOf(c.extracted, p), Bundle(c.evidence), k, at)]
            && c'.status == StatusOf(k.gate.disposition)
            && c'.code == (if k.gate.reasons == [] then EligibleCode else Because(k.gate.reasons[0]))
            && c'.evidence == c.evidence && c'.promotedLead == c.promotedLead && c'.extracted == c.extracted
  {
  }

  /** A visit that finds no country, of a candidate without assessments. */
  lemma {:induction false} FirstVisit(c: Candidate, v: Visit, f: Facts, t: Target, model: string)
    requires c.assessments == [] && c.status.Verifying? && c.subject.country.UnknownCountry?
    requires f.countryCode.Some? && v.facts == f.(countryCode := None)
    requires CandidateAssessment.EligibleSubject(SubjectOf(f), t) && !t.excluded
    ensures var c1, e := Assessed(Verified(c, v), t, model, v.at), WithRow(c.evidence, v.page);
            && c1.status.NeedsEvidence? && c1.evidence == e && c1.promotedLead == c.promotedLead
            && |c1.assessments| == 1
            && IsVersion(c1.assessments[0], Extracted(FromModel(model)), Bundle(e))
            && KeptRow(c1.assessments[0], f)
  {
    var verified := Verified(c, v);
    VisitFindsFacts(c, v);
    FirstConclusion(verified, t, FromModel(model), v.at);
    var code := c.subject.countryCode;
    assert CandidateAssessment.WithUnknownCountry(SubjectOf(v.facts), code)
        == CandidateAssessment.WithUnknownCountry(SubjectOf(f), code);
    CandidateAssessment.CountryMakesEligible(SubjectOf(f), t, Read(verified.evidence), code);
  }

  /** The next visit finds the country on the same page. */
  lemma {:induction false} SecondVisit(c: Candidate, v: Visit, t: Target, model: string)
    requires c.status.Verifying? && |c.assessments| == 1 && FindContent(c.evidence, v.page.url, v.page.hash).Some?
    requires IsVersion(c.assessments[0], Extracted(FromModel(model)), Bundle(c.evidence))
    requires v.facts.countryCode.Some?
    requires CandidateAssessment.EligibleSubject(SubjectOf(v.facts), t) && !t.excluded
    ensures var c2 := Assessed(Verified(c, v), t, model, v.at);
            && c2.status.Eligible? && EligibleColumns(c2.columns) && c2.assessments == c.assessments
            && c2.promotedLead == c.promotedLead && c2.crmDomain == v.facts.crmDomain
            && FitNow(c2, t) == Some(if v.facts.productTerms != [] then 87 else 92)
  {
    var verified := Verified(c, v);
    VisitFindsFacts(c, v);
    ConcludedKeepsFacts(verified, t, FromModel(model), v.at);
    CandidateAssessment.CountryMakesEligible(SubjectOf(v.facts), t, Read(verified.evidence), "");
    EligibleHasColumns(SubjectOf(v.facts), t, Read(verified.evidence));
    assert StoredVersion(verified, FromModel(model)) == Some(0);
  }

  lemma {:induction false} FirstHit(mission: string, hit: Hit)
    requires hit.isCompany
    ensures var c := HitStored(NewFromHit(mission, hit), hit, true);
            && Run([] + [DiscoverHit(mission, hit, true)]) == Only(c)
            && c.status.Verifying? && c.assessments == [] && c.subject.country.UnknownCountry? && c.promotedLead.None?
  {
    var none: seq<Action> := [];
    var a := DiscoverHit(mission, hit, true);
    RunExtends(none, a);
    assert FindByKey(EMPTY.candidates, mission, hit.key) == None;
    assert Changed(InitialOf(a), a) == HitStored(NewFromHit(mission, hit), hit, true);
  }

  lemma {:induction false} NewLeadOf(c: Candidate)
    requires c.status.Eligible? && c.promotedLead.None? && c.crmDomain != ""
    ensures Next(Only(c), Promote(0)).leads == [Some(NewLead(c, 0, 0))]
  {
    FirstPromotion(c);
  }

  /** A company is found and its page verified, without a country; then the same page is verified again and tells the
      country. */
  function TwoVisits(mission: string, hit: Hit, v: Visit, w: Visit, t: Target, model: string): seq<Action> {
    WithVisit(WithVisit([] + [DiscoverHit(mission, hit, true)], v, t, model) + [Retry(0)], w, t, model)
  }

  function AfterFirst(mission: string, hit: Hit, v: Visit, t: Target, model: string): Candidate {
    Assessed(Verified(HitStored(NewFromHit(mission, hit), hit, true), v), t, model, v.at)
  }

  function AfterSecond(mission: string, hit: Hit, v: Visit, w: Visit, t: Target, model: string): Candidate {
    Assessed(Verified(Retried(AfterFirst(mission, hit, v, t, model)), w), t, model, w.at)
  }

  lemma {:induction false} TwoVisitsRun(mission: string, hit: Hit, v: Visit, w: Visit, t: Target, model: string)
    requires hit.isCompany
    ensures Run(TwoVisits(mission, hit, v, w, t, model)) == Only(AfterSecond(mission, hit, v, w, t, model))
  {
    var start := [] + [DiscoverHit(mission, hit, true)];
    FirstHit(mission, hit);
    VisitRuns(start, HitStored(NewFromHit(mission, hit), hit, true), v, t, model);
    var c1 := AfterFirst(mission, hit, v, t, model);
    OnlyChanges(WithVisit(start, v, t, model), c1, Retry(0));
    VisitRuns(WithVisit(start, v, t, model) + [Retry(0)], Retried(c1), w, t, model);
  }

  predicate SecondTellsCountry(v: Visit, w: Visit, t: Target) {
    && w.page == v.page && w.facts.countryCode.Some? && v.facts == w.facts.(countryCode := None)
    && CandidateAssessment.EligibleSubject(SubjectOf(w.facts), t) && !t.excluded
  }

  predicate Overlooking(c: Candidate, f: Facts, t: Target) {
    && c.status.Eligible? && EligibleColumns(c.columns) && c.promotedLead.None? && c.crmDomain == f.crmDomain
    && FitNow(c, t) == Some(if f.productTerms != [] then 87 else 92)
    && |c.assessments| == 1 && KeptRow(c.assessments[0], f)
  }

  lemma {:induction false} TwoVisitsEnd(mission: string, hit: Hit, v: Visit, w: Visit, t: Target, model: string)
    requires hit.isCompany && SecondTellsCountry(v, w, t)
    ensures Overlooking(AfterSecond(mission, hit, v, w, t, model), w.facts, t)
  {
    FirstHit(mission, hit);
    FirstVisit(HitStored(NewFromHit(mission, hit), hit, true), v, w.facts, t, model);
    SecondVisit(Retried(AfterFirst(mission, hit, v, t, model)), w, t, model);
  }

  lemma {:induction false} OneIsLatest(rows: seq<AssessmentRow>)
    requires |rows| == 1
    ensures Latest(rows) == Some(0)
  {
    assert rows[..0] == [];
  }

  lemma {:induction false} NotBacked(c: Candidate)
    requires |c.assessments| == 1 && !c.assessments[0].computed.gate.disposition.Eligible?
    ensures !Backed(c)
  {
  }

  lemma {:induction false} ScoresOfOne(c: Candidate)
    requires |c.assessments| == 1 && ScoreOf(c.assessments[0].computed).Scored?
    ensures ScoresFor(c).priority == c.columns.priority
    ensures ScoresFor(c).fit == ScoreOf(c.assessments[0].computed).result.fit
  {
    OneIsLatest(c.assessments);
  }

  /** In that run the candidate is eligible with a priority from 80 to 92, but its only stored assessment is the first
      one, which asked for its country. The lead of its promotion takes the priority from the columns and the fit from
      that assessment, four or seven points below the fit it was found eligible with. */
  lemma {:induction false} OverlookedAssessmentReachesLead(mission: string, hit: Hit, v: Visit, w: Visit, t: Target,
      model: string)
    requires hit.isCompany && SecondTellsCountry(v, w, t) && w.facts.crmDomain != ""
    ensures var actions := TwoVisits(mission, hit, v, w, t, model);
            var s, leads := Run(actions), Run(actions + [Promote(0)]).leads;
            && |s.candidates| == 1 && Overlooking(s.candidates[0], w.facts, t) && !Backed(s.candidates[0])
            && |leads| == 1 && IsFrom(leads[0], 0)
            && leads[0].value.scores.priority == s.candidates[0].columns.priority
            && leads[0].value.scores.fit == Some(if w.facts.productTerms != [] then 83 else 85)
  {
    var c := AfterSecond(mission, hit, v, w, t, model);
    TwoVisitsRun(mission, hit, v, w, t, model);
    TwoVisitsEnd(mission, hit, v, w, t, model);
    RunExtends(TwoVisits(mission, hit, v, w, t, model), Promote(0));
    NewLeadOf(c);
    NotBacked(c);
    ScoresOfOne(c);
  }

  // ---------------------------------------------------------------------------
  // A country override that is refused
  // ---------------------------------------------------------------------------

  /** The confirmed page is stored as valid already, so it leaves the version of the evidence as it was. */
  lemma {:induction false} OverrideVersion(c: Candidate, k: Confirmation)
    requires UniqueContent(c.evidence) && |c.assessments| == 1
    requires IsVersion(c.assessments[0], EvidenceOnly, Bundle(c.evidence)) && !c.extracted
    ensures StoredVersion(WithCountry(c, k), FromCountryEvidence)
         == if ValidContent(c.evidence, k.url, k.hash) then Some(0) else None
  {
    CountryPageChangesBundleIff(c.evidence, k.url, k.hash);
  }

  lemma {:induction false} ConfirmedIsCompared(c: Candidate, k: Confirmation, u: Target)
    ensures ComputationOf(WithCountry(c, k), u).input.countryMatch.Some?
  {
  }

  /** Waits for its country after an assessment of its evidence alone. */
  predicate AwaitsCountry(c: Candidate) {
    && CanOverride(c) && |c.assessments| == 1 && !c.extracted
    && IsVersion(c.assessments[0], EvidenceOnly, Bundle(c.evidence))
    && c.assessments[0].computed.input.countryMatch.None?
  }

  lemma {:induction false} OverrideRefusedIff(c: Candidate, k: Confirmation, u: Target)
    requires AwaitsCountry(c) && UniqueContent(c.evidence)
    ensures OverrideRefused(c, k, u) <==> ValidContent(c.evidence, k.url, k.hash)
  {
    OverrideVersion(c, k);
    ConfirmedIsCompared(c, k, u);
  }

  lemma {:induction false} UnextractedGate(s: Subject, t: Target)
    requires s.country.UnknownCountry? && s.buyerType == "" && s.companyName != "" && s.domain != "" && !t.excluded
    ensures var gate := CandidateScoring.GateOf(CandidateAssessment.FactsOf(s, t));
            && gate.disposition.NeedsEvidence? && gate.reasons != []
            && gate.reasons[0] == CandidateScoring.CountryUnknown
  {
    var f := CandidateAssessment.FactsOf(s, t);
    var gate := CandidateScoring.GateOf(f);
    CandidateScoring.GateOfAnswers(f);
    assert forall r :: CandidateScoring.Rejecting(r) ==> !CandidateScoring.Applies(f, r);
    assert CandidateScoring.Applies(f, CandidateScoring.CountryUnknown);
    assert CandidateScoring.CountryUnknown in gate.reasons;
    assert gate.reasons[0] in gate.reasons;
  }

  lemma {:induction false} UnextractedAssessed(c: Candidate, t: Target, model: string, at: Time)
    requires !c.extracted && c.assessments == [] && c.status.Verifying?
    requires c.subject.country.UnknownCountry? && c.subject.buyerType == "" && c.subject.companyName != ""
        && c.subject.domain != "" && !t.excluded
    ensures AwaitsCountry(Assessed(c, t, model, at)) && Assessed(c, t, model, at).evidence == c.evidence
  {
    UnextractedGate(c.subject, t);
    FirstConclusion(c, t, FromModel(model), at);
  }

  /** Discovered, and its page stored and read for contacts, before any company facts could be extracted. */
  function Unextracted(mission: string, hit: Hit, v: Visit): Candidate {
    WithPage(WithEvidence(HitStored(NewFromHit(mission, hit), hit, true), v.page), None, v.paths, v.email)
  }

  lemma {:induction false} UnextractedFacts(mission: string, hit: Hit, v: Visit)
    requires hit.isCompany && !(hit.url == v.page.url && hit.hash == v.page.hash)
    ensures var c := Unextracted(mission, hit, v);
            && !c.extracted && c.assessments == [] && c.status.Verifying? && c.evidence == [RowOfHit(hit), v.page]
            && c.subject.country.UnknownCountry? && c.subject.buyerType == "" && c.subject.companyName == hit.title
            && c.subject.domain == hit.domain && UniqueContent(c.evidence)
  {
    assert WithRow([], RowOfHit(hit)) == [RowOfHit(hit)];
    assert [RowOfHit(hit)][..0] == [];
    assert FindContent([RowOfHit(hit)], v.page.url, v.page.hash) == None;
  }

  function FailedVisit(mission: string, hit: Hit, v: Visit, t: Target, model: string): seq<Action> {
    [] + [DiscoverHit(mission, hit, true)] + [SaveEvidence(0, v.page)] + [VerifyPage(0, None, v.paths, v.email)]
    + [Assess(0, t, model, v.at)]
  }

  lemma {:induction false} UnextractedRuns(mission: string, hit: Hit, v: Visit, t: Target, model: string)
    requires hit.isCompany
    ensures Run(FailedVisit(mission, hit, v, t, model)) == Only(Assessed(Unextracted(mission, hit, v), t, model, v.at))
  {
    var start := [] + [DiscoverHit(mission, hit, true)];
    var c0 := HitStored(NewFromHit(mission, hit), hit, true);
    var a1, a2 := SaveEvidence(0, v.page), VerifyPage(0, None, v.paths, v.email);
    FirstHit(mission, hit);
    OnlyChanges(start, c0, a1);
    OnlyChanges(start + [a1], WithEvidence(c0, v.page), a2);
    OnlyChanges(start + [a1] + [a2], Unextracted(mission, hit, v), Assess(0, t, model, v.at));
  }

  lemma {:induction false} ConcludedKeepsSubject(c: Candidate, target: Target, p: Provenance, at: Time)
    ensures Concluded(c, target, p, at).subject == c.subject
  {
  }

  lemma {:induction false} OverriddenIff(c: Candidate, k: Confirmation, u: Target)
    requires AwaitsCountry(c) && UniqueContent(c.evidence)
    ensures if ValidContent(c.evidence, k.url, k.hash) then Overridden(c, k, u) == c
            else Overridden(c, k, u).subject.country.Confirmed?
  {
    OverrideRefusedIff(c, k, u);
    ConcludedKeepsSubject(WithCountry(c, k), u, FromCountryEvidence, k.at);
  }

  /** The page is the only valid evidence of that candidate. */
  lemma {:induction false} OnlyThePageIsValid(row: EvidenceRow, page: EvidenceRow, url: string, hash: string)
    requires !row.validation.Valid? && page.validation.Valid?
    ensures ValidContent([row, page], url, hash) <==> page.url == url && page.hash == hash
  {
    assert [row, page][1] == page;
  }

  predicate ConfirmsUnless(s: State, s': State, known: bool) {
    && |s.candidates| == |s'.candidates| == 1 && CanOverride(s.candidates[0])
    && if known then s' == s else s'.candidates[0].subject.country.Confirmed?
  }

  lemma {:induction false} OverrideRuns(actions: seq<Action>, c: Candidate, k: Confirmation, u: Target)
    requires Run(actions) == Only(c) && AwaitsCountry(c) && UniqueContent(c.evidence)
    ensures ConfirmsUnless(Run(actions), Run(actions + [OverrideCountry(0, k, u)]),
                           ValidContent(c.evidence, k.url, k.hash))
  {
    OnlyChanges(actions, c, OverrideCountry(0, k, u));
    OverriddenIff(c, k, u);
  }

  /** A page was stored for a discovered company, but nothing could be extracted from it and the assessment asked for
      the country. A person who then confirms the country by a page is refused exactly if it is that page. */
  lemma {:induction false} SamePageOverrideIff(mission: string, hit: Hit, v: Visit, t: Target, model: string,
      k: Confirmation, u: Target)
    requires hit.isCompany && hit.title != "" && hit.domain != "" && !t.excluded && v.page.validation.Valid?
        && !(hit.url == v.page.url && hit.hash == v.page.hash)
    ensures var actions := FailedVisit(mission, hit, v, t, model);
            ConfirmsUnless(Run(actions), Run(actions + [OverrideCountry(0, k, u)]),
                           v.page.url == k.url && v.page.hash == k.hash)
  {
    var c0 := Unextracted(mission, hit, v);
    UnextractedRuns(mission, hit, v, t, model);
    UnextractedFacts(mission, hit, v);
    UnextractedAssessed(c0, t, model, v.at);
    OnlyThePageIsValid(RowOfHit(hit), v.page, k.url, k.hash);
    OverrideRuns(FailedVisit(mission, hit, v, t, model), Assessed(c0, t, model, v.at), k, u);
  }
}
