/**
 The rows of candidates and what a transaction does to one of them: its facts, its evidence,
 its assessment and its review. Regular expressions, fetched pages and clocks are parameters.
 */
module CandidateRows {
  import opened Common
  import opened AcquisitionRows
  import opened CandidateEvidence
  import opened AssessmentRows
  import CandidateScoring
  import CandidateAssessment

  // ---------------------------------------------------------------------------
  // Rows
  // ---------------------------------------------------------------------------

  type Subject = CandidateAssessment.Subject

  type Target = CandidateAssessment.Target

  datatype Code =
    | NoCode
    | EligibleCode
    | CountryConfirmedCode
    | NonCompanyCode
    | Because(reason: CandidateScoring.Reason)
    | OtherCode

  /** Who decided, when, and with which note. */
  datatype Stamp = Stamp(author: string, at: Time, note: string)

  /** `extracted` says whether company facts have been extracted; crmEmail and crmDomain are what normalisation finds
      in the stored contact, domain and website. */
  datatype Candidate = Candidate(
    mission: string,
    key: string,
    isCompany: bool,
    status: CandidateStatus,
    code: Code,
    subject: Subject,
    extracted: bool,
    crmEmail: string,
    crmDomain: string,
    evidence: seq<EvidenceRow>,
    columns: Columns,
    assessments: seq<AssessmentRow>,
    decisionReason: Code,
    stamp: Option<Stamp>,
    promotedLead: Option<nat>)

  predicate HasKey(c: Candidate, mission: string, key: string) {
    c.mission == mission && c.key == key
  }

  function FindByKey(candidates: seq<Candidate>, mission: string, key: string): (r: Option<nat>)
    ensures r.Some? ==> r.value < |candidates| && HasKey(candidates[r.value], mission, key)
    ensures r.None? ==> forall i :: 0 <= i < |candidates| ==> !HasKey(candidates[i], mission, key)
  {
    if candidates == [] then None
    else if HasKey(candidates[|candidates| - 1], mission, key) then Some(|candidates| - 1)
    else FindByKey(candidates[..|candidates| - 1], mission, key)
  }

  // ---------------------------------------------------------------------------
  // What a transaction does to one candidate
  // ---------------------------------------------------------------------------

  datatype Facts = Facts(
    companyName: string,
    domain: string,
    countryCode: Option<string>,
    buyerType: string,
    productTerms: seq<string>,
    claims: seq<string>,
    contactPaths: seq<string>,
    email: string,
    crmEmail: string,
    crmDomain: string)

  /** What an import found, how its facts were obtained, and when it was stored. */
  datatype Import = Import(facts: Facts, pages: seq<Page>, provenance: Provenance, at: Time)

  predicate Decided(s: CandidateStatus) {
    s.Accepted? || s.Promoted? || s.Rejected?
  }

  function StatusOf(d: CandidateScoring.Disposition): CandidateStatus {
    match d
    case Eligible => Eligible
    case NeedsEvidence => NeedsEvidence
    case Rejected => Rejected
  }

  /** The automated decision is written only unless a human decision already won. */
  function Gated(c: Candidate, gate: CandidateScoring.GateResult): Candidate {
    if Decided(c.status) then c
    else c.(status := StatusOf(gate.disposition),
            code := if gate.reasons == [] then EligibleCode else Because(gate.reasons[0]))
  }

  /** What an assessment computes from the stored facts and evidence. */
  function ComputationOf(c: Candidate, target: Target): Computation {
    Compute(c.subject, target, Read(c.evidence))
  }

  /** The stored assessment of the same evidence, prompt and model. */
  function StoredVersion(c: Candidate, p: Provenance): Option<nat> {
    FindVersion(c.assessments, VersionOf(c.extracted, p), Bundle(c.evidence))
  }

  /** Nothing is stored beside an assessment of the same version. */
  function WithAssessment(c: Candidate, target: Target, p: Provenance, at: Time): Candidate {
    if StoredVersion(c, p).Some? then c
    else
      var row := AssessmentRow(VersionOf(c.extracted, p), Bundle(c.evidence), ComputationOf(c, target), at);
      c.(assessments := c.assessments + [row])
  }

  /** The columns are written in any case. */
  function Concluded(c: Candidate, target: Target, p: Provenance, at: Time): Candidate {
    var k := ComputationOf(c, target);
    Gated(WithAssessment(c, target, p, at).(columns := ColumnsOf(k)), k.gate)
  }

  /** The assessment job does not compare what it computes with a stored assessment of the same version. */
  function Assessed(c: Candidate, target: Target, model: string, at: Time): Candidate {
    Concluded(c, target, FromModel(model), at)
  }

  /** The other writers do, and refuse to conclude if the two differ. */
  predicate Conflicts(c: Candidate, target: Target, p: Provenance) {
    var stored := StoredVersion(c, p);
    stored.Some? && c.assessments[stored.value].computed != ComputationOf(c, target)
  }

  /** The facts of an imported page replace the stored ones, the country included. */
  function WithFacts(c: Candidate, f: Facts): Candidate {
    c.(subject := CandidateAssessment.Subject(f.companyName, f.domain,
         if f.countryCode.Some? then CandidateScoring.Confirmed else CandidateScoring.UnknownCountry,
         if f.countryCode.Some? then f.countryCode.value else "",
         f.buyerType, f.productTerms, f.claims, f.contactPaths, f.email),
       extracted := true, crmEmail := f.crmEmail, crmDomain := f.crmDomain)
  }

  function WithImport(c: Candidate, found: Import): Candidate {
    var c' := WithFacts(c, found.facts);
    c'.(evidence := WithImportedPages(c'.evidence, found.pages))
  }

  predicate ImportRefused(c: Candidate, found: Import, target: Target) {
    Conflicts(WithImport(c, found), target, found.provenance)
  }

  /** A refused import is rolled back. */
  function Imported(c: Candidate, found: Import, target: Target): Candidate {
    if ImportRefused(c, found, target) then c
    else Concluded(WithImport(c, found), target, found.provenance, found.at)
  }

  /** The facts of a verification never take a confirmed country back. */
  function WithVerifiedFacts(c: Candidate, f: Facts): Candidate {
    var s := c.subject;
    c.(subject := CandidateAssessment.Subject(f.companyName, f.domain,
         if f.countryCode.Some? then CandidateScoring.Confirmed else s.country,
         if f.countryCode.Some? then f.countryCode.value else s.countryCode,
         f.buyerType, f.productTerms, f.claims, f.contactPaths, f.email),
       extracted := true, crmEmail := f.crmEmail, crmDomain := f.crmDomain)
  }

  function WithPage(c: Candidate, countryCode: Option<string>, contactPaths: seq<string>, crmEmail: string): Candidate {
    var s := c.subject.(contactPaths := contactPaths);
    c.(subject := if countryCode.Some?
        then s.(country := CandidateScoring.Confirmed, countryCode := countryCode.value) else s,
       crmEmail := crmEmail)
  }

  predicate CountryOpen(code: Code) {
    code == Because(CandidateScoring.CountryUnknown) || code == Because(CandidateScoring.CountryConflicting)
  }

  predicate CanOverride(c: Candidate) {
    c.status.NeedsEvidence? && CountryOpen(c.code)
  }

  /** The country a person has confirmed, with the page that shows it. */
  datatype Confirmation = Confirmation(countryCode: string, url: string, hash: string, at: Time)

  function WithCountry(c: Candidate, k: Confirmation): Candidate {
    c.(subject := c.subject.(country := CandidateScoring.Confirmed, countryCode := k.countryCode),
       code := CountryConfirmedCode, status := Verifying, decisionReason := NoCode,
       evidence := WithCountryPage(c.evidence, k.url, k.hash))
  }

  predicate OverrideRefused(c: Candidate, k: Confirmation, target: Target) {
    !CanOverride(c) || Conflicts(WithCountry(c, k), target, FromCountryEvidence)
  }

  function Overridden(c: Candidate, k: Confirmation, target: Target): Candidate {
    if OverrideRefused(c, k, target) then c else Concluded(WithCountry(c, k), target, FromCountryEvidence, k.at)
  }

  function WithEvidence(c: Candidate, row: EvidenceRow): Candidate {
    c.(evidence := WithRow(c.evidence, row))
  }

  function Claimed(c: Candidate, budgetLeft: bool): Candidate {
    if budgetLeft && c.status.Discovered? && c.isCompany then c.(status := Verifying) else c
  }

  function IdentityDoubted(c: Candidate): Candidate {
    c.(isCompany := false)
  }

  function Retried(c: Candidate): Candidate {
    if c.status.NeedsEvidence? then c.(status := Verifying) else c
  }

  function Repaired(c: Candidate): Candidate {
    if c.status.Discovered? || c.status.Verifying? then c.(status := NeedsEvidence) else c
  }

  datatype Hit = Hit(
    key: string,
    isCompany: bool,
    title: string,
    domain: string,
    countryCode: string,
    crmDomain: string,
    url: string,
    hash: string)

  /** A search result is stored as unverified evidence of a low tier. */
  function RowOfHit(hit: Hit): EvidenceRow {
    EvidenceRow(hit.url, hit.hash, {}, CandidateAssessment.TierD, CandidateAssessment.Unverified)
  }

  function HitStored(c: Candidate, hit: Hit, budgetLeft: bool): Candidate {
    Claimed(WithEvidence(c, RowOfHit(hit)), budgetLeft)
  }

  function NewFromHit(mission: string, hit: Hit): Candidate {
    Candidate(mission, hit.key, hit.isCompany, if hit.isCompany then Discovered else NeedsEvidence,
      if hit.isCompany then NoCode else NonCompanyCode,
      CandidateAssessment.Subject(hit.title, hit.domain, CandidateScoring.UnknownCountry, hit.countryCode, "", [],
          [], [], ""),
      false, "", hit.crmDomain, [], NO_COLUMNS, [], NoCode, None, None)
  }

  function NewFromImport(mission: string, key: string): Candidate {
    Candidate(mission, key, true, Verifying, NoCode,
      CandidateAssessment.Subject("", "", CandidateScoring.UnknownCountry, "", "", [], [], [], ""), false, "", "",
      [], NO_COLUMNS, [], NoCode, None, None)
  }

  function NewFromRadar(mission: string, key: string, companyName: string, domain: string,
      crmDomain: string): Candidate {
    Candidate(mission, key, true, NeedsEvidence, NoCode,
      CandidateAssessment.Subject(companyName, domain, CandidateScoring.UnknownCountry, "", "", [], [], [], ""),
      false, "", crmDomain, [], NO_COLUMNS, [], OtherCode, None, None)
  }

  function Signed(c: Candidate, reason: Code, stamp: Stamp): Candidate {
    c.(decisionReason := reason, stamp := Some(stamp))
  }

  // ---------------------------------------------------------------------------
  // What every change of a candidate keeps
  // ---------------------------------------------------------------------------

  predicate CandidateOk(c: Candidate) {
    && (c.status.Promoted? <==> c.promotedLead.Some?)
    && !c.status.Accepted?
    && (c.status.Eligible? ==>
          c.subject.country.Confirmed? && c.code == EligibleCode && EligibleColumns(c.columns) && c.assessments != [])
    && (c.subject.country.Confirmed? || c.subject.country.UnknownCountry?)
  }

  lemma {:induction false} EligibleIsConfirmed(s: Subject, target: Target)
    requires CandidateScoring.GateOf(CandidateAssessment.FactsOf(s, target)).disposition.Eligible?
    ensures s.country.Confirmed? && CandidateScoring.GateOf(CandidateAssessment.FactsOf(s, target)).reasons == []
  {
    var f := CandidateAssessment.FactsOf(s, target);
    CandidateScoring.GateOfAnswers(f);
    assert !CandidateScoring.Applies(f, CandidateScoring.CountryUnknown);
    assert !CandidateScoring.Applies(f, CandidateScoring.CountryConflicting);
    assert !CandidateScoring.Applies(f, CandidateScoring.WrongCountry);
  }

  lemma {:induction false} GatedOk(c: Candidate, gate: CandidateScoring.GateResult)
    requires Decided(c.status) ==> CandidateOk(c)
    requires c.promotedLead.Some? ==> Decided(c.status)
    requires c.subject.country.Confirmed? || c.subject.country.UnknownCountry?
    requires gate.disposition.Eligible? ==>
               c.subject.country.Confirmed? && gate.reasons == [] && EligibleColumns(c.columns) && c.assessments != []
    ensures CandidateOk(Gated(c, gate))
  {
  }

  /** An assessment makes a candidate eligible only with a confirmed country, and then with columns that say so. */
  lemma {:induction false} ConcludedOk(c: Candidate, target: Target, p: Provenance, at: Time)
    requires Decided(c.status) ==> CandidateOk(c)
    requires c.promotedLead.Some? ==> Decided(c.status)
    requires c.subject.country.Confirmed? || c.subject.country.UnknownCountry?
    ensures CandidateOk(Concluded(c, target, p, at))
  {
    var k := ComputationOf(c, target);
    var written := WithAssessment(c, target, p, at).(columns := ColumnsOf(k));
    if k.gate.disposition.Eligible? {
      EligibleIsConfirmed(c.subject, target);
      EligibleHasColumns(c.subject, target, Read(c.evidence));
    }
    assert written.subject == c.subject && written.status == c.status && written.assessments != [];
    GatedOk(written, k.gate);
  }

  /** A change that keeps the lead of a candidate and does not decide or undo a decision. */
  predicate Undecided(c: Candidate, c': Candidate) {
    c'.promotedLead == c.promotedLead
        && (if Decided(c.status) then c'.status == c.status else !c'.status.Accepted? && !c'.status.Promoted?)
  }

  predicate KeepsDecision(c: Candidate, c': Candidate) {
    HasKey(c', c.mission, c.key) && c'.promotedLead == c.promotedLead && Undecided(c, c')
  }

  lemma {:induction false} GatedKeeps(c: Candidate, gate: CandidateScoring.GateResult)
    ensures KeepsDecision(c, Gated(c, gate))
  {
  }

  lemma {:induction false} ConcludedKeeps(c: Candidate, target: Target, p: Provenance, at: Time)
    ensures KeepsDecision(c, Concluded(c, target, p, at))
  {
    var k := ComputationOf(c, target);
    var written := WithAssessment(c, target, p, at).(columns := ColumnsOf(k));
    assert written.status == c.status && HasKey(written, c.mission, c.key);
    assert written.promotedLead == c.promotedLead;
    GatedKeeps(written, k.gate);
  }

  lemma {:induction false} ImportedOk(c: Candidate, found: Import, target: Target)
    requires CandidateOk(c)
    ensures CandidateOk(Imported(c, found, target))
  {
    if !ImportRefused(c, found, target) {
      ConcludedOk(WithImport(c, found), target, found.provenance, found.at);
    }
  }

  lemma {:induction false} ImportedKeeps(c: Candidate, found: Import, target: Target)
    ensures KeepsDecision(c, Imported(c, found, target))
  {
    ConcludedKeeps(WithImport(c, found), target, found.provenance, found.at);
  }

  lemma {:induction false} OverriddenOk(c: Candidate, k: Confirmation, target: Target)
    requires CandidateOk(c)
    ensures CandidateOk(Overridden(c, k, target))
  {
    if !OverrideRefused(c, k, target) { ConcludedOk(WithCountry(c, k), target, FromCountryEvidence, k.at); }
  }

  lemma {:induction false} OverriddenKeeps(c: Candidate, k: Confirmation, target: Target)
    ensures KeepsDecision(c, Overridden(c, k, target))
  {
    if !OverrideRefused(c, k, target) { ConcludedKeeps(WithCountry(c, k), target, FromCountryEvidence, k.at); }
  }

  // ---------------------------------------------------------------------------
  // Evidence and assessments are never lost
  // ---------------------------------------------------------------------------

  predicate RecordsKept(c: Candidate, c': Candidate) {
    Kept(c.evidence, c'.evidence) && VersionsKept(c.assessments, c'.assessments)
  }

  lemma {:induction false} ConcludedKeepsRecords(c: Candidate, target: Target, p: Provenance, at: Time)
    ensures Concluded(c, target, p, at).evidence == c.evidence
    ensures VersionsKept(c.assessments, Concluded(c, target, p, at).assessments)
  {
    if StoredVersion(c, p).None? {
      ComputedIsScored(c.subject, target, Read(c.evidence));
      NewVersionKept(c.assessments,
        AssessmentRow(VersionOf(c.extracted, p), Bundle(c.evidence), ComputationOf(c, target), at));
    }
  }

  lemma {:induction false} ImportKeepsRecords(c: Candidate, found: Import, target: Target)
    ensures RecordsKept(c, Imported(c, found, target))
  {
    if ImportRefused(c, found, target) {
      SameKept(c.evidence);
    } else {
      ImportedPagesKept(c.evidence, found.pages);
      ConcludedKeepsRecords(WithImport(c, found), target, found.provenance, found.at);
    }
  }

  lemma {:induction false} OverrideKeepsRecords(c: Candidate, k: Confirmation, target: Target)
    ensures RecordsKept(c, Overridden(c, k, target))
  {
    if OverrideRefused(c, k, target) {
      SameKept(c.evidence);
    } else {
      CountryPageKept(c.evidence, k.url, k.hash);
      ConcludedKeepsRecords(WithCountry(c, k), target, FromCountryEvidence, k.at);
    }
  }

  lemma {:induction false} AssessKeepsRecords(c: Candidate, target: Target, model: string, at: Time)
    ensures RecordsKept(c, Assessed(c, target, model, at))
  {
    SameKept(c.evidence);
    ConcludedKeepsRecords(c, target, FromModel(model), at);
  }
}
