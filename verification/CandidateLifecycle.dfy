/**
 The life of a candidate in one tenant: discovery, verification, assessment, import by URL,
 conversion from a competitor relationship, retry, country override, repair, review and
 promotion into the CRM, together with what the CRM does to leads and companies by itself.
 Theorems about every history of these actions are in `CandidateHistory`.
 Every action is one committed transaction; a transaction that fails changes nothing.
 Rows are never renumbered: the id of a row is its position.
 */
module CandidateLifecycle {
  import opened Common
  import opened AcquisitionRows
  import opened CandidateEvidence
  import opened AssessmentRows
  import opened CandidateRows
  import CandidateScoring
  import CandidateAssessment

  // ---------------------------------------------------------------------------
  // Rows
  // ---------------------------------------------------------------------------

  /** The scores of a lead, and the assessment they refer to. */
  datatype LeadScores = LeadScores(
    fit: Option<int>,
    intent: Option<int>,
    quality: Option<int>,
    priority: Option<int>,
    band: Option<CandidateScoring.Band>,
    assessment: Option<nat>)

  const NO_SCORES := LeadScores(None, None, None, None, None, None)

  datatype Lead = Lead(email: string, company: Option<nat>, candidate: Option<nat>, scores: LeadScores)

  /** The entry that a promotion writes into the history of a lead. */
  datatype Activity = Activity(lead: nat, candidate: nat)

  datatype State = State(
    candidates: seq<Candidate>,
    companies: map<string, nat>,
    leads: seq<Option<Lead>>,
    activities: seq<Activity>)

  const EMPTY := State([], map[], [], [])

  function LeadAt(leads: seq<Option<Lead>>, id: nat): Option<Lead> {
    if id < |leads| then leads[id] else None
  }

  predicate HasEmail(lead: Option<Lead>, email: string) {
    lead.Some? && lead.value.email == email
  }

  predicate IsFrom(lead: Option<Lead>, candidate: nat) {
    lead.Some? && lead.value.candidate == Some(candidate)
  }

  function FindByEmail(leads: seq<Option<Lead>>, email: string): (r: Option<nat>)
    ensures r.Some? ==> r.value < |leads| && HasEmail(leads[r.value], email)
    ensures r.None? ==> forall i :: 0 <= i < |leads| ==> !HasEmail(leads[i], email)
  {
    if leads == [] then None
    else if HasEmail(leads[|leads| - 1], email) then Some(|leads| - 1)
    else FindByEmail(leads[..|leads| - 1], email)
  }

  function FindByCandidate(leads: seq<Option<Lead>>, candidate: nat): (r: Option<nat>)
    ensures r.Some? ==> r.value < |leads| && IsFrom(leads[r.value], candidate)
    ensures r.None? ==> forall i :: 0 <= i < |leads| ==> !IsFrom(leads[i], candidate)
  {
    if leads == [] then None
    else if IsFrom(leads[|leads| - 1], candidate) then Some(|leads| - 1)
    else FindByCandidate(leads[..|leads| - 1], candidate)
  }

  // ---------------------------------------------------------------------------
  // Promotion and review
  // ---------------------------------------------------------------------------

  /** A new lead takes the priority and the band from the columns of its candidate, and everything else from the
      latest stored assessment. */
  function ScoresFor(c: Candidate): LeadScores {
    var empty := NO_SCORES.(priority := c.columns.priority, band := c.columns.band);
    match Latest(c.assessments)
    case None => empty
    case Some(k) =>
      match ScoreOf(c.assessments[k].computed)
      case Refused => empty.(assessment := Some(k))
      case Scored(r) => empty.(fit := r.fit, intent := r.intent, quality := r.quality, assessment := Some(k))
  }

  function NewLead(c: Candidate, id: nat, company: nat): Lead {
    Lead(c.crmEmail, Some(company), Some(id), ScoresFor(c))
  }

  datatype Promotion = Refused | Promotion(state: State, lead: nat, createdCompany: bool, createdLead: bool)

  predicate Linked(leads: seq<Option<Lead>>, c: Candidate) {
    c.promotedLead.Some? && LeadAt(leads, c.promotedLead.value).Some?
  }

  function LeadFor(leads: seq<Option<Lead>>, c: Candidate, id: nat): Option<nat> {
    if c.crmEmail != "" then FindByEmail(leads, c.crmEmail) else FindByCandidate(leads, id)
  }

  function PromoteIn(s: State, id: nat): Promotion
    requires id < |s.candidates|
  {
    var c := s.candidates[id];
    if !(c.status.Eligible? || c.status.Accepted? || c.status.Promoted?) then Refused
    else if Linked(s.leads, c) then Promotion(s, c.promotedLead.value, false, false)
    else if c.crmDomain == "" then Refused
    else
      var createdCompany := c.crmDomain !in s.companies;
      var companies := if createdCompany then s.companies[c.crmDomain := |s.companies|] else s.companies;
      var found := LeadFor(s.leads, c, id);
      var leads := if found.Some? then s.leads
                   else s.leads + [Some(NewLead(c, id, companies[c.crmDomain]))];
      var lead := if found.Some? then found.value else |s.leads|;
      Promotion(State(s.candidates[id := c.(status := Promoted, promotedLead := Some(lead))], companies, leads,
                      s.activities + [Activity(lead, id)]), lead, createdCompany, found.None?)
  }

  datatype Decision =
    | Accept(reason: Code, stamp: Stamp)
    | Reject(reason: Code, stamp: Stamp)
    | RequestEvidence(reason: Code, stamp: Stamp)

  predicate ValidDecision(d: Decision) {
    (d.Reject? ==> d.reason != NoCode) && (d.Accept? ==> !CountryOpen(d.reason))
  }

  function Updated(s: State, id: nat, c: Candidate): State
    requires id < |s.candidates|
  {
    s.(candidates := s.candidates[id := c])
  }

  function Accepting(s: State, id: nat, stamp: Stamp): State
    requires id < |s.candidates|
  {
    s.(candidates := s.candidates[id := Signed(s.candidates[id], NoCode, stamp).(status := Accepted)])
  }

  predicate CountryUnresolved(c: Candidate) {
    c.subject.country.UnknownCountry? || c.subject.country.Conflicting? || CountryOpen(c.code)
  }

  predicate Rejectable(s: CandidateStatus) {
    s.Eligible? || s.NeedsEvidence?
  }

  /** One review; None if it is refused and rolled back. */
  function Reviewed(s: State, id: nat, d: Decision): Option<State> {
    if !ValidDecision(d) || id >= |s.candidates| then None
    else
      var c := s.candidates[id];
      match d
      case Accept(_, stamp) =>
        if CountryUnresolved(c) || !c.status.Eligible? then None
        else (match PromoteIn(Accepting(s, id, stamp), id) case Refused => None case Promotion(s', _, _, _) => Some(s'))
      case Reject(reason, stamp) =>
        if !Rejectable(c.status) then None else Some(Updated(s, id, Signed(c, reason, stamp).(status := Rejected)))
      case RequestEvidence(reason, stamp) =>
        if !(c.status.Verifying? || c.status.Eligible?) || reason == NoCode then None
        else Some(Updated(s, id, Signed(c, reason, stamp).(status := NeedsEvidence, code := reason)))
  }

  /** The ids, each once, in the order of their first occurrence. */
  function Distinct(ids: seq<nat>): (r: seq<nat>)
    ensures forall id :: id in r <==> id in ids
    ensures forall i, j :: 0 <= i < j < |r| ==> r[i] != r[j]
  {
    if ids == [] then []
    else
      var front := Distinct(ids[..|ids| - 1]);
      if ids[|ids| - 1] in front then front else front + [ids[|ids| - 1]]
  }

  predicate BulkAcceptable(c: Candidate) {
    c.status.Eligible? && c.subject.country.Confirmed? && !CountryOpen(c.code)
  }

  predicate BulkAllowed(s: State, ids: seq<nat>, d: Decision) {
    && ids != [] && |ids| <= (if d.Accept? then 20 else 100) && ValidDecision(d) && !d.RequestEvidence?
    && (forall i :: 0 <= i < |ids| ==> ids[i] < |s.candidates|)
    && (forall i :: 0 <= i < |ids| ==> if d.Accept? then BulkAcceptable(s.candidates[ids[i]])
                                       else Rejectable(s.candidates[ids[i]].status))
  }

  function BulkStep(s: State, id: nat, d: Decision): (r: Option<State>)
    requires id < |s.candidates|
    ensures r.Some? ==> |r.value.candidates| == |s.candidates|
  {
    if d.Accept? then
      (match PromoteIn(Accepting(s, id, d.stamp), id) case Refused => None case Promotion(s', _, _, _) => Some(s'))
    else Some(Updated(s, id, Signed(s.candidates[id], d.reason, d.stamp).(status := Rejected)))
  }

  /** The loop of the bulk review, without the checks each single review makes. */
  function BulkApplied(s: State, ids: seq<nat>, d: Decision): Option<State>
    requires forall i :: 0 <= i < |ids| ==> ids[i] < |s.candidates|
    ensures BulkApplied(s, ids, d).Some? ==> |BulkApplied(s, ids, d).value.candidates| == |s.candidates|
  {
    if ids == [] then Some(s)
    else
      match BulkApplied(s, ids[..|ids| - 1], d)
      case None => None
      case Some(s1) => BulkStep(s1, ids[|ids| - 1], d)
  }

  function BulkReviewed(s: State, ids: seq<nat>, d: Decision): Option<State> {
    var distinct := Distinct(ids);
    if BulkAllowed(s, distinct, d) then BulkApplied(s, distinct, d) else None
  }

  // ---------------------------------------------------------------------------
  // Steps and runs
  // ---------------------------------------------------------------------------

  datatype Action =
    | DiscoverHit(mission: string, hit: Hit, budgetLeft: bool)
    | VerifyPage(candidate: nat, found: Option<string>, contactPaths: seq<string>, crmEmail: string)
    | VerifyIdentity(candidate: nat)
    | SaveEvidence(candidate: nat, row: EvidenceRow)
    | VerifyFacts(candidate: nat, facts: Facts)
    | Assess(candidate: nat, target: Target, model: string, at: Time)
    | ImportUrl(mission: string, key: string, imported: Import, target: Target)
    | ConvertRadar(mission: string, key: string, companyName: string, domain: string, crmDomain: string,
        row: EvidenceRow)
    | Retry(candidate: nat)
    | OverrideCountry(candidate: nat, confirmation: Confirmation, target: Target)
    | Repair(candidate: nat)
    | Review(candidate: nat, decision: Decision)
    | BulkReview(ids: seq<nat>, decision: Decision)
    | Promote(candidate: nat)
    | DeleteLead(lead: nat)
    | AddLead(email: string)
    | EditLead(lead: nat, email: string)
    | AddCompany(domain: string)

  /** Actions that find or add the candidate of a key and change it. */
  predicate Upserting(a: Action) {
    a.DiscoverHit? || a.ImportUrl? || a.ConvertRadar?
  }

  /** Actions that change a stored candidate. */
  predicate Changing(a: Action) {
    || a.VerifyPage? || a.VerifyIdentity? || a.SaveEvidence? || a.VerifyFacts? || a.Assess? || a.Retry?
    || a.OverrideCountry? || a.Repair?
  }

  predicate Promoting(a: Action) {
    a.Review? || a.BulkReview? || a.Promote?
  }

  /** What the CRM does by itself. */
  predicate Outside(a: Action) {
    a.DeleteLead? || a.AddLead? || a.EditLead? || a.AddCompany?
  }

  function Changed(c: Candidate, a: Action): Candidate
    requires Upserting(a) || Changing(a)
  {
    match a
    case DiscoverHit(_, hit, budgetLeft) => HitStored(c, hit, budgetLeft)
    case ImportUrl(_, _, imported, target) => Imported(c, imported, target)
    case ConvertRadar(_, _, _, _, _, row) => WithEvidence(c, row)
    case VerifyPage(_, found, paths, email) => WithPage(c, found, paths, email)
    case VerifyIdentity(_) => IdentityDoubted(c)
    case SaveEvidence(_, row) => WithEvidence(c, row)
    case VerifyFacts(_, facts) => WithVerifiedFacts(c, facts)
    case Assess(_, target, model, at) => Assessed(c, target, model, at)
    case Retry(_) => Retried(c)
    case OverrideCountry(_, confirmation, target) => Overridden(c, confirmation, target)
    case Repair(_) => Repaired(c)
  }

  function KeyOf(a: Action): string
    requires Upserting(a)
  {
    if a.DiscoverHit? then a.hit.key else a.key
  }

  function InitialOf(a: Action): Candidate
    requires Upserting(a)
  {
    match a
    case DiscoverHit(mission, hit, _) => NewFromHit(mission, hit)
    case ImportUrl(mission, key, _, _) => NewFromImport(mission, key)
    case ConvertRadar(mission, key, name, domain, crmDomain, _) => NewFromRadar(mission, key, name, domain, crmDomain)
  }

  function NextUpsert(s: State, a: Action): State
    requires Upserting(a)
  {
    match FindByKey(s.candidates, a.mission, KeyOf(a))
    case Some(id) => Updated(s, id, Changed(s.candidates[id], a))
    case None => s.(candidates := s.candidates + [Changed(InitialOf(a), a)])
  }

  function NextChange(s: State, a: Action): State
    requires Changing(a)
  {
    if a.candidate < |s.candidates| then Updated(s, a.candidate, Changed(s.candidates[a.candidate], a)) else s
  }

  /** An upsert changes or adds one row. */
  lemma {:induction false} UpsertedRow(s: State, a: Action, id: nat)
    requires Upserting(a) && id < |NextUpsert(s, a).candidates|
    ensures var row := NextUpsert(s, a).candidates[id];
            if id < |s.candidates| then row == s.candidates[id] || row == Changed(s.candidates[id], a)
            else row == Changed(InitialOf(a), a)
    ensures |s.candidates| <= |NextUpsert(s, a).candidates|
  {
    match FindByKey(s.candidates, a.mission, KeyOf(a))
    case Some(k) => assert NextUpsert(s, a).candidates == s.candidates[k := Changed(s.candidates[k], a)];
    case None => assert NextUpsert(s, a).candidates == s.candidates + [Changed(InitialOf(a), a)];
  }

  lemma {:induction false} ChangedRow(s: State, a: Action, id: nat)
    requires Changing(a) && id < |s.candidates|
    ensures |NextChange(s, a).candidates| == |s.candidates|
    ensures NextChange(s, a).candidates[id]
        == if id == a.candidate then Changed(s.candidates[id], a) else s.candidates[id]
  {
  }

  function Or(o: Option<State>, s: State): State {
    if o.Some? then o.value else s
  }

  function AfterPromotion(s: State, id: nat): State {
    if id < |s.candidates| && PromoteIn(s, id).Promotion? then PromoteIn(s, id).state else s
  }

  function NextPromotion(s: State, a: Action): State
    requires Promoting(a)
  {
    match a
    case Review(id, d) => Or(Reviewed(s, id, d), s)
    case BulkReview(ids, d) => Or(BulkReviewed(s, ids, d), s)
    case Promote(id) => AfterPromotion(s, id)
  }

  function Without(activities: seq<Activity>, lead: nat): seq<Activity> {
    if activities == [] then []
    else
      var front := Without(activities[..|activities| - 1], lead);
      if activities[|activities| - 1].lead == lead then front else front + [activities[|activities| - 1]]
  }

  function NextCrm(s: State, a: Action): State
    requires Outside(a)
  {
    match a
    case DeleteLead(lead) =>
      if LeadAt(s.leads, lead).Some?
      then s.(leads := s.leads[lead := None], activities := Without(s.activities, lead)) else s
    case AddLead(email) => s.(leads := s.leads + [Some(Lead(email, None, None, NO_SCORES))])
    case EditLead(lead, email) =>
      if LeadAt(s.leads, lead).Some? then s.(leads := s.leads[lead := Some(s.leads[lead].value.(email := email))])
      else s
    case AddCompany(domain) =>
      if domain in s.companies then s else s.(companies := s.companies[domain := |s.companies|])
  }

  function Next(s: State, a: Action): State {
    if Upserting(a) then NextUpsert(s, a)
    else if Changing(a) then NextChange(s, a)
    else if Promoting(a) then NextPromotion(s, a)
    else NextCrm(s, a)
  }

  function Run(actions: seq<Action>): State {
    if actions == [] then EMPTY else Next(Run(actions[..|actions| - 1]), actions[|actions| - 1])
  }

  // ---------------------------------------------------------------------------
  // The invariant
  // ---------------------------------------------------------------------------

  ghost predicate CandidatesOk(candidates: seq<Candidate>) {
    && (forall i :: 0 <= i < |candidates| ==> CandidateOk(candidates[i]))
    && (forall i, j :: 0 <= i < j < |candidates| ==> !HasKey(candidates[i], candidates[j].mission, candidates[j].key))
  }

  function CountFor(activities: seq<Activity>, id: nat): nat {
    if activities == [] then 0
    else CountFor(activities[..|activities| - 1], id) + if activities[|activities| - 1].candidate == id then 1 else 0
  }

  /** A lead made from a candidate is the one that candidate points to. */
  predicate LeadOk(candidates: seq<Candidate>, lead: Option<Lead>, id: nat) {
    lead.Some? && lead.value.candidate.Some? ==>
      lead.value.candidate.value < |candidates| && candidates[lead.value.candidate.value].promotedLead == Some(id)
  }

  predicate ActivityOk(s: State, a: Activity) {
    a.candidate < |s.candidates| && s.candidates[a.candidate].promotedLead == Some(a.lead)
        && LeadAt(s.leads, a.lead).Some?
  }

  predicate LinkOk(s: State, id: nat)
    requires id < |s.candidates|
  {
    && (s.candidates[id].promotedLead.Some? ==> s.candidates[id].promotedLead.value < |s.leads|)
    && CountFor(s.activities, id) == if Linked(s.leads, s.candidates[id]) then 1 else 0
  }

  ghost predicate LinksOk(s: State) {
    && (forall i :: 0 <= i < |s.leads| ==> LeadOk(s.candidates, s.leads[i], i))
    && (forall i :: 0 <= i < |s.activities| ==> ActivityOk(s, s.activities[i]))
    && (forall id :: 0 <= id < |s.candidates| ==> LinkOk(s, id))
  }

  ghost predicate Inv(s: State) {
    CandidatesOk(s.candidates) && LinksOk(s)
  }

  lemma {:induction false} CountZero(activities: seq<Activity>, id: nat)
    requires forall i :: 0 <= i < |activities| ==> activities[i].candidate != id
    ensures CountFor(activities, id) == 0
  {
    if activities != [] { CountZero(activities[..|activities| - 1], id); }
  }

  lemma {:induction false} UpdateKeeps(s: State, id: nat, c: Candidate)
    requires Inv(s) && id < |s.candidates| && CandidateOk(c)
    requires HasKey(c, s.candidates[id].mission, s.candidates[id].key)
        && c.promotedLead == s.candidates[id].promotedLead
    ensures Inv(Updated(s, id, c))
  {
    var s' := Updated(s, id, c);
    forall i | 0 <= i < |s'.leads| ensures LeadOk(s'.candidates, s'.leads[i], i) {
      assert LeadOk(s.candidates, s.leads[i], i);
    }
    forall i | 0 <= i < |s'.activities| ensures ActivityOk(s', s'.activities[i]) {
      assert ActivityOk(s, s.activities[i]);
    }
    forall k | 0 <= k < |s'.candidates| ensures LinkOk(s', k) {
      assert LinkOk(s, k);
    }
  }

  lemma {:induction false} AppendKeeps(s: State, c: Candidate)
    requires Inv(s) && CandidateOk(c) && c.promotedLead.None? && FindByKey(s.candidates, c.mission, c.key).None?
    ensures Inv(s.(candidates := s.candidates + [c]))
  {
    var s' := s.(candidates := s.candidates + [c]);
    forall i | 0 <= i < |s'.leads| ensures LeadOk(s'.candidates, s'.leads[i], i) {
      assert LeadOk(s.candidates, s.leads[i], i);
    }
    forall i | 0 <= i < |s'.activities| ensures ActivityOk(s', s'.activities[i]) {
      assert ActivityOk(s, s.activities[i]);
    }
    forall k | 0 <= k < |s'.candidates| ensures LinkOk(s', k) {
      if k < |s.candidates| {
        assert LinkOk(s, k);
      } else {
        forall i | 0 <= i < |s.activities| ensures s.activities[i].candidate != k {
          assert ActivityOk(s, s.activities[i]);
        }
        CountZero(s.activities, k);
      }
    }
  }

  /** A candidate whose lead does not exist has left no lead and no history entry behind. */
  lemma {:induction false} UnlinkedIsBlank(s: State, id: nat)
    requires Inv(s) && id < |s.candidates| && !Linked(s.leads, s.candidates[id])
    ensures forall i :: 0 <= i < |s.leads| ==> !IsFrom(s.leads[i], id)
    ensures forall i :: 0 <= i < |s.activities| ==> s.activities[i].candidate != id
  {
    forall i | 0 <= i < |s.leads| ensures !IsFrom(s.leads[i], id) {
      assert LeadOk(s.candidates, s.leads[i], i);
    }
    forall i | 0 <= i < |s.activities| ensures s.activities[i].candidate != id {
      assert ActivityOk(s, s.activities[i]);
    }
  }

  lemma {:induction false} PromotionKeepsRows(s: State, id: nat)
    requires Inv(s) && id < |s.candidates| && PromoteIn(s, id).Promotion? && !Linked(s.leads, s.candidates[id])
    ensures var s' := PromoteIn(s, id).state;
            && (forall i :: 0 <= i < |s'.leads| ==> LeadOk(s'.candidates, s'.leads[i], i))
            && (forall i :: 0 <= i < |s'.activities| ==> ActivityOk(s', s'.activities[i]))
  {
    var s' := PromoteIn(s, id).state;
    UnlinkedIsBlank(s, id);
    forall i | 0 <= i < |s'.leads| ensures LeadOk(s'.candidates, s'.leads[i], i) {
      if i < |s.leads| { assert LeadOk(s.candidates, s.leads[i], i) && !IsFrom(s.leads[i], id); }
    }
    forall i | 0 <= i < |s'.activities| ensures ActivityOk(s', s'.activities[i]) {
      if i < |s.activities| { assert ActivityOk(s, s.activities[i]); }
    }
  }

  lemma {:induction false} PromotionKeepsLinks(s: State, id: nat, k: nat)
    requires Inv(s) && id < |s.candidates| && PromoteIn(s, id).Promotion? && !Linked(s.leads, s.candidates[id])
        && k < |s.candidates|
    ensures LinkOk(PromoteIn(s, id).state, k)
  {
    var s' := PromoteIn(s, id).state;
    UnlinkedIsBlank(s, id);
    CountZero(s.activities, id);
    assert s'.activities[..|s'.activities| - 1] == s.activities;
    assert LinkOk(s, k);
  }

  lemma {:induction false} PromoteKeeps(s: State, id: nat)
    requires Inv(s) && id < |s.candidates| && PromoteIn(s, id).Promotion?
    ensures Inv(PromoteIn(s, id).state)
  {
    if !Linked(s.leads, s.candidates[id]) {
      PromotionKeepsRows(s, id);
      forall k | 0 <= k < |s.candidates| ensures LinkOk(PromoteIn(s, id).state, k) {
        PromotionKeepsLinks(s, id, k);
      }
    }
  }

  lemma {:induction false} WithoutMembers(activities: seq<Activity>, lead: nat)
    ensures forall i :: 0 <= i < |Without(activities, lead)| ==>
              Without(activities, lead)[i] in activities && Without(activities, lead)[i].lead != lead
  {
    if activities != [] { WithoutMembers(activities[..|activities| - 1], lead); }
  }

  lemma {:induction false} WithoutCount(activities: seq<Activity>, lead: nat, id: nat, owned: bool)
    requires forall i ::
        0 <= i < |activities| && activities[i].candidate == id
        ==> (owned <==> activities[i].lead == lead)
    ensures CountFor(Without(activities, lead), id) == if owned then 0 else CountFor(activities, id)
  {
    if activities != [] {
      var front := activities[..|activities| - 1];
      WithoutCount(front, lead, id, owned);
      var kept := Without(front, lead);
      var last := activities[|activities| - 1];
      assert (kept + [last])[..|kept|] == kept;
    }
  }

  lemma {:induction false} DeleteKeeps(s: State, lead: nat)
    requires Inv(s) && LeadAt(s.leads, lead).Some?
    ensures Inv(NextCrm(s, DeleteLead(lead)))
  {
    var s' := NextCrm(s, DeleteLead(lead));
    forall i | 0 <= i < |s'.leads| ensures LeadOk(s'.candidates, s'.leads[i], i) {
      assert LeadOk(s.candidates, s.leads[i], i);
    }
    WithoutMembers(s.activities, lead);
    forall i | 0 <= i < |s'.activities| ensures ActivityOk(s', s'.activities[i]) {
      var j :| 0 <= j < |s.activities| && s.activities[j] == s'.activities[i];
      assert ActivityOk(s, s.activities[j]);
    }
    forall k | 0 <= k < |s'.candidates| ensures LinkOk(s', k) {
      assert LinkOk(s, k);
      var owned := s.candidates[k].promotedLead == Some(lead);
      forall i | 0 <= i < |s.activities| && s.activities[i].candidate == k
          ensures owned <==> s.activities[i].lead == lead {
        assert ActivityOk(s, s.activities[i]);
      }
      WithoutCount(s.activities, lead, k, owned);
    }
  }

  lemma {:induction false} LeadsKeep(s: State, leads: seq<Option<Lead>>)
    requires Inv(s) && |leads| >= |s.leads|
    requires forall i :: 0 <= i < |s.leads| ==> leads[i].Some? == s.leads[i].Some?
    requires forall i :: 0 <= i < |s.leads| && leads[i].Some? ==> leads[i].value.candidate == s.leads[i].value.candidate
    requires forall i :: |s.leads| <= i < |leads| && leads[i].Some? ==> leads[i].value.candidate == None
    ensures Inv(s.(leads := leads))
  {
    var s' := s.(leads := leads);
    forall i | 0 <= i < |s'.leads| ensures LeadOk(s'.candidates, s'.leads[i], i) {
      if i < |s.leads| { assert LeadOk(s.candidates, s.leads[i], i); }
    }
    forall i | 0 <= i < |s'.activities| ensures ActivityOk(s', s'.activities[i]) {
      assert ActivityOk(s, s.activities[i]);
    }
    forall k | 0 <= k < |s'.candidates| ensures LinkOk(s', k) {
      assert LinkOk(s, k);
    }
  }

  lemma {:induction false} CompaniesKeep(s: State, companies: map<string, nat>)
    requires Inv(s)
    ensures Inv(s.(companies := companies))
  {
    var s' := s.(companies := companies);
    forall i | 0 <= i < |s'.activities| ensures ActivityOk(s', s'.activities[i]) {
      assert ActivityOk(s, s.activities[i]);
    }
    forall k | 0 <= k < |s'.candidates| ensures LinkOk(s', k) {
      assert LinkOk(s, k);
    }
  }

  // ---------------------------------------------------------------------------
  // Every step keeps the invariant
  // ---------------------------------------------------------------------------

  lemma {:induction false} ChangedOk(c: Candidate, a: Action)
    requires (Upserting(a) || Changing(a)) && CandidateOk(c)
    ensures CandidateOk(Changed(c, a))
  {
    match a
    case ImportUrl(_, _, imported, target) => ImportedOk(c, imported, target);
    case Assess(_, target, model, at) => ConcludedOk(c, target, FromModel(model), at);
    case OverrideCountry(_, confirmation, target) => OverriddenOk(c, confirmation, target);
    case _ =>
  }

  lemma {:induction false} ChangedKeeps(c: Candidate, a: Action)
    requires Upserting(a) || Changing(a)
    ensures HasKey(Changed(c, a), c.mission, c.key) && Changed(c, a).promotedLead == c.promotedLead
    ensures Undecided(c, Changed(c, a))
  {
    match a
    case ImportUrl(_, _, imported, target) => ImportedKeeps(c, imported, target);
    case Assess(_, target, model, at) => ConcludedKeeps(c, target, FromModel(model), at);
    case OverrideCountry(_, confirmation, target) => OverriddenKeeps(c, confirmation, target);
    case _ =>
  }

  lemma {:induction false} InitialOk(a: Action)
    requires Upserting(a)
    ensures var c := InitialOf(a);
            && CandidateOk(c) && HasKey(c, a.mission, KeyOf(a))
            && c.promotedLead.None? && c.evidence == [] && c.assessments == []
  {
  }

  lemma {:induction false} UpsertKeeps(s: State, a: Action)
    requires Inv(s) && Upserting(a)
    ensures Inv(NextUpsert(s, a))
  {
    match FindByKey(s.candidates, a.mission, KeyOf(a))
    case Some(id) =>
      var c := s.candidates[id];
      ChangedOk(c, a);
      ChangedKeeps(c, a);
      UpdateKeeps(s, id, Changed(c, a));
    case None =>
      InitialOk(a);
      ChangedOk(InitialOf(a), a);
      ChangedKeeps(InitialOf(a), a);
      AppendKeeps(s, Changed(InitialOf(a), a));
  }

  lemma {:induction false} ChangeKeeps(s: State, a: Action)
    requires Inv(s) && Changing(a)
    ensures Inv(NextChange(s, a))
  {
    if a.candidate < |s.candidates| {
      var c := s.candidates[a.candidate];
      ChangedOk(c, a);
      ChangedKeeps(c, a);
      UpdateKeeps(s, a.candidate, Changed(c, a));
    }
  }

  /** A promotion with the signature of the person who accepted. */
  function SignedPromotion(p: Promotion, id: nat, stamp: Stamp): Promotion
    requires p.Promotion? ==> id < |p.state.candidates|
  {
    match p
    case Refused => Refused
    case Promotion(s, lead, newCompany, newLead) =>
      Promotion(Updated(s, id, Signed(s.candidates[id], NoCode, stamp)), lead, newCompany, newLead)
  }

  /** Accepting an eligible candidate is promoting it and signing: the accepted status is overwritten in the same
      transaction. */
  lemma {:induction false} AcceptIsPromote(s: State, id: nat, stamp: Stamp)
    requires id < |s.candidates| && s.candidates[id].status.Eligible? && s.candidates[id].promotedLead.None?
    ensures PromoteIn(Accepting(s, id, stamp), id) == SignedPromotion(PromoteIn(s, id), id, stamp)
  {
    var c := s.candidates[id];
    var found := LeadFor(s.leads, c, id);
    var lead := if found.Some? then found.value else |s.leads|;
    var promoted := c.(status := Promoted, promotedLead := Some(lead));
    var accepted := Signed(c, NoCode, stamp).(status := Accepted);
    var signed := Signed(promoted, NoCode, stamp);
    assert s.candidates[id := accepted][id := signed] == s.candidates[id := signed];
    assert s.candidates[id := promoted][id := signed] == s.candidates[id := signed];
  }

  lemma {:induction false} AcceptKeeps(s: State, id: nat, stamp: Stamp)
    requires Inv(s) && id < |s.candidates| && s.candidates[id].status.Eligible?
    requires PromoteIn(Accepting(s, id, stamp), id).Promotion?
    ensures Inv(PromoteIn(Accepting(s, id, stamp), id).state)
  {
    assert CandidateOk(s.candidates[id]);
    AcceptIsPromote(s, id, stamp);
    PromoteKeeps(s, id);
    var promoted := PromoteIn(s, id).state;
    UpdateKeeps(promoted, id, Signed(promoted.candidates[id], NoCode, stamp));
  }

  lemma {:induction false} ReviewKeeps(s: State, id: nat, d: Decision)
    requires Inv(s) && Reviewed(s, id, d).Some?
    ensures Inv(Reviewed(s, id, d).value)
  {
    var c := s.candidates[id];
    match d
    case Accept(_, stamp) =>
      AcceptKeeps(s, id, stamp);
    case Reject(reason, stamp) => UpdateKeeps(s, id, Signed(c, reason, stamp).(status := Rejected));
    case RequestEvidence(reason, stamp) =>
        UpdateKeeps(s, id, Signed(c, reason, stamp).(status := NeedsEvidence, code := reason));
  }

  lemma {:induction false} BulkAllowedFront(s: State, ids: seq<nat>, d: Decision)
    requires ids != [] && BulkAllowed(s, ids, d)
    ensures ids[..|ids| - 1] != [] ==> BulkAllowed(s, ids[..|ids| - 1], d)
  {
  }

  /** The bulk review is the single reviews one after the other. */
  function Sequential(s: State, ids: seq<nat>, d: Decision): Option<State> {
    if ids == [] then Some(s)
    else
      match Sequential(s, ids[..|ids| - 1], d)
      case None => None
      case Some(s1) => Reviewed(s1, ids[|ids| - 1], d)
  }

  /** A turn of the bulk loop is the single review of that candidate. */
  lemma {:induction false} BulkStepIsReview(s: State, id: nat, d: Decision)
    requires Inv(s) && id < |s.candidates| && ValidDecision(d) && !d.RequestEvidence?
    requires if d.Accept? then BulkAcceptable(s.candidates[id]) else Rejectable(s.candidates[id].status)
    ensures BulkStep(s, id, d) == Reviewed(s, id, d)
    ensures BulkStep(s, id, d).Some? ==> Inv(BulkStep(s, id, d).value)
  {
    if Reviewed(s, id, d).Some? { ReviewKeeps(s, id, d); }
  }

  lemma {:induction false} BulkStepLeavesOthers(s: State, id: nat, d: Decision, k: nat)
    requires id < |s.candidates| && k < |s.candidates| && k != id
    ensures BulkStep(s, id, d).Some? ==> BulkStep(s, id, d).value.candidates[k] == s.candidates[k]
  {
  }

  lemma {:induction false} BulkIsSequential(s: State, ids: seq<nat>, d: Decision)
    requires Inv(s) && (ids != [] ==> BulkAllowed(s, ids, d))
    requires forall i, j :: 0 <= i < j < |ids| ==> ids[i] != ids[j]
    ensures BulkApplied(s, ids, d) == Sequential(s, ids, d)
    ensures BulkApplied(s, ids, d).Some? ==>
              Inv(BulkApplied(s, ids, d).value) &&
              forall k :: 0 <= k < |s.candidates| && k !in ids
                  ==> BulkApplied(s, ids, d).value.candidates[k] == s.candidates[k]
  {
    if ids != [] {
      var front, id := ids[..|ids| - 1], ids[|ids| - 1];
      BulkAllowedFront(s, ids, d);
      BulkIsSequential(s, front, d);
      if BulkApplied(s, front, d).Some? {
        var s1 := BulkApplied(s, front, d).value;
        assert id !in front && s1.candidates[id] == s.candidates[id];
        BulkStepIsReview(s1, id, d);
        forall k | 0 <= k < |s.candidates| && k !in ids && BulkStep(s1, id, d).Some?
          ensures BulkStep(s1, id, d).value.candidates[k] == s.candidates[k]
        {
          assert k !in front;
          BulkStepLeavesOthers(s1, id, d, k);
        }
      }
    }
  }

  lemma {:induction false} BulkReviewKeeps(s: State, ids: seq<nat>, d: Decision)
    requires Inv(s)
    ensures Inv(Or(BulkReviewed(s, ids, d), s))
  {
    if BulkReviewed(s, ids, d).Some? { BulkIsSequential(s, Distinct(ids), d); }
  }

  lemma {:induction false} PromotionsKeep(s: State, a: Action)
    requires Inv(s) && Promoting(a)
    ensures Inv(NextPromotion(s, a))
  {
    match a
    case Review(id, d) => if Reviewed(s, id, d).Some? { ReviewKeeps(s, id, d); }
    case BulkReview(ids, d) => BulkReviewKeeps(s, ids, d);
    case Promote(id) => if id < |s.candidates| && PromoteIn(s, id).Promotion? { PromoteKeeps(s, id); }
  }

  lemma {:induction false} CrmKeeps(s: State, a: Action)
    requires Inv(s) && Outside(a)
    ensures Inv(NextCrm(s, a))
  {
    match a
    case DeleteLead(lead) => if LeadAt(s.leads, lead).Some? { DeleteKeeps(s, lead); }
    case AddLead(email) => LeadsKeep(s, s.leads + [Some(Lead(email, None, None, NO_SCORES))]);
    case EditLead(lead, email) =>
      if LeadAt(s.leads, lead).Some? { LeadsKeep(s, s.leads[lead := Some(s.leads[lead].value.(email := email))]); }
    case AddCompany(domain) => CompaniesKeep(s, NextCrm(s, a).companies);
  }

  lemma {:induction false} InvNext(s: State, a: Action)
    requires Inv(s)
    ensures Inv(Next(s, a))
  {
    if Upserting(a) {
      UpsertKeeps(s, a);
    } else if Changing(a) {
      ChangeKeeps(s, a);
    } else if Promoting(a) {
      PromotionsKeep(s, a);
    } else {
      CrmKeeps(s, a);
    }
  }

  lemma {:induction false} InvRun(actions: seq<Action>)
    ensures Inv(Run(actions))
    decreases |actions|
  {
    if actions != [] {
      InvRun(actions[..|actions| - 1]);
      InvNext(Run(actions[..|actions| - 1]), actions[|actions| - 1]);
    }
  }
}
