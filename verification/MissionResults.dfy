/**
 The projection of stored jobs onto missions: which jobs concern a mission, under which
 identity, and in which order their outcomes came. One routine does it for one mission,
 another for a whole list of missions at once.
 */
module MissionResults {
  import opened Common
  import opened AcquisitionRows
  import opened Ordering
  import opened TextForms
  import JobLifecycle

  // ---------------------------------------------------------------------------
  // Identities
  // ---------------------------------------------------------------------------

  datatype Identity =
    | PlanOf(mission: string)
    | DiscoveryIn(mission: string, country: string)
    | DiscoveryJob(mission: string, job: string)
    | VerifyOf(candidate: string)
    | AssessOf(candidate: string)

  predicate SafeChar(c: char) {
    'A' <= c <= 'Z' || 'a' <= c <= 'z' || '0' <= c <= '9' || c == '_' || c == '-'
  }

  predicate SafeId(s: string) {
    1 <= |s| <= 64 && forall i :: 0 <= i < |s| ==> SafeChar(s[i])
  }

  /** A two-letter country code after stripping and upper-casing. */
  function CountryCode(value: Json): Option<string> {
    if !value.JsonText? then None
    else
      var code := Upper(Trim(value.s));
      if |code| == 2 && 'A' <= code[0] <= 'Z' && 'A' <= code[1] <= 'Z' then Some(code) else None
  }

  predicate ResultType(t: JobType) {
    !t.OtherType?
  }

  function IdentityOf(job: JobRow, missionId: string, candidateIds: set<string>): Option<Identity>
    requires ResultType(job.jobType)
  {
    if job.jobType.AcquisitionPlan? || job.jobType.WebDiscovery? then
      if Field(job.payload, "mission_id") != JsonText(missionId) then None
      else if job.jobType.AcquisitionPlan? then Some(PlanOf(missionId))
      else
        match CountryCode(Field(job.payload, "country_code"))
        case Some(code) => Some(DiscoveryIn(missionId, code))
        case None => Some(DiscoveryJob(missionId, job.id))
    else
      var candidate := Field(job.payload, "candidate_id");
      if !candidate.JsonText? || !SafeId(candidate.s) || candidate.s !in candidateIds then None
      else if job.jobType.WebsiteVerify? then Some(VerifyOf(candidate.s))
      else Some(AssessOf(candidate.s))
  }

  // ---------------------------------------------------------------------------
  // Order of outcomes
  // ---------------------------------------------------------------------------

  datatype OutcomeKey = OutcomeKey(outcomeAt: Time, updatedAt: Time, createdAt: Time, id: string)

  function JobOutcomeKey(job: JobRow): OutcomeKey {
    var outcomeAt := if job.finishedAt.Some? then job.finishedAt.value else job.updatedAt;
    OutcomeKey(outcomeAt, job.updatedAt, job.createdAt, job.id)
  }

  predicate KeyLe(a: OutcomeKey, b: OutcomeKey) {
    if a.outcomeAt != b.outcomeAt then a.outcomeAt < b.outcomeAt
    else if a.updatedAt != b.updatedAt then a.updatedAt < b.updatedAt
    else if a.createdAt != b.createdAt then a.createdAt < b.createdAt
    else LexLe(a.id, b.id)
  }

  lemma {:induction false} KeyOrder(a: OutcomeKey, b: OutcomeKey)
    ensures KeyLe(a, b) || KeyLe(b, a)
    ensures KeyLe(a, b) && KeyLe(b, a) ==> a == b
  {
    LexTotal(a.id, b.id);
  }

  lemma {:induction false} KeyTransitive(a: OutcomeKey, b: OutcomeKey, c: OutcomeKey)
    requires KeyLe(a, b) && KeyLe(b, c)
    ensures KeyLe(a, c)
  {
    if LexLe(a.id, b.id) && LexLe(b.id, c.id) { LexTransitive(a.id, b.id, c.id); }
  }

  datatype Relevant = Relevant(job: JobRow, identity: Identity)

  predicate OutcomeLe(a: Relevant, b: Relevant) {
    KeyLe(JobOutcomeKey(a.job), JobOutcomeKey(b.job))
  }

  const ByOutcome: (Relevant, Relevant) -> bool := (a, b) => OutcomeLe(a, b)

  lemma {:induction false} ByOutcomeIsTotal()
    ensures TotalPreorder(ByOutcome)
  {
    forall a, b ensures ByOutcome(a, b) || ByOutcome(b, a) {
      KeyOrder(JobOutcomeKey(a.job), JobOutcomeKey(b.job));
    }
    forall a, b, c | ByOutcome(a, b) && ByOutcome(b, c) ensures ByOutcome(a, c) {
      KeyTransitive(JobOutcomeKey(a.job), JobOutcomeKey(b.job), JobOutcomeKey(c.job));
    }
  }

  datatype JobFact = JobFact(
    identity: Identity,
    jobType: JobType,
    status: JobLifecycle.Status,
    errorCode: string,
    order: nat,
    noValidHits: bool)

  predicate ZeroValidHits(job: JobRow) {
    job.jobType.WebDiscovery? && job.status.Succeeded? && Field(job.summary, "valid_hits") == JsonInt(0)
  }

  function FactOf(r: Relevant, order: nat): JobFact {
    JobFact(r.identity, r.job.jobType, r.job.status, r.job.errorCode, order, ZeroValidHits(r.job))
  }

  /** Sort by outcome and number from 1. */
  function OrderedJobFacts(relevant: seq<Relevant>): (facts: seq<JobFact>) {
    var sorted := Sort(relevant, ByOutcome);
    seq(|sorted|, i requires 0 <= i < |sorted| => FactOf(sorted[i], i + 1))
  }

  // ---------------------------------------------------------------------------
  // One mission
  // ---------------------------------------------------------------------------

  /** The jobs that concern one mission, in the order of the list, with their identities. */
  function RelevantJobs(missionId: string, candidateIds: set<string>, jobs: seq<JobRow>,
      tenant: string): seq<Relevant> {
    if jobs == [] then []
    else
      var job := jobs[|jobs| - 1];
      var before := RelevantJobs(missionId, candidateIds, jobs[..|jobs| - 1], tenant);
      if job.tenant != tenant || !ResultType(job.jobType) then before
      else match IdentityOf(job, missionId, candidateIds)
        case Some(identity) => before + [Relevant(job, identity)]
        case None => before
  }

  function MissionFacts(missionId: string, candidateIds: set<string>, jobs: seq<JobRow>, tenant: string): seq<JobFact> {
    OrderedJobFacts(RelevantJobs(missionId, candidateIds, jobs, tenant))
  }

  method MissionJobFacts(missionId: string, candidateIds: set<string>, jobs: seq<JobRow>, tenant: string)
    returns (facts: seq<JobFact>)
    ensures facts == MissionFacts(missionId, candidateIds, jobs, tenant)
  {
    var relevant: seq<Relevant> := [];
    for i := 0 to |jobs|
      invariant relevant == RelevantJobs(missionId, candidateIds, jobs[..i], tenant)
    {
      assert jobs[..i + 1][..i] == jobs[..i];
      var job := jobs[i];
      if job.tenant != tenant || !ResultType(job.jobType) {
        continue;
      }
      var identity := IdentityOf(job, missionId, candidateIds);
      if identity.Some? {
        relevant := relevant + [Relevant(job, identity.value)];
      }
    }
    assert jobs[..|jobs|] == jobs;
    facts := OrderedJobFacts(relevant);
  }

  // ---------------------------------------------------------------------------
  // Many missions at once
  // ---------------------------------------------------------------------------

  function OwnCandidateIds(missionId: string, candidates: seq<CandidateRow>, tenant: string): set<string> {
    set c | c in candidates && c.tenant == tenant && c.missionId == missionId :: c.id
  }

  /** The mission a stored payload points to, if it is in scope. */
  function TargetMission(job: JobRow, scope: set<string>, missionOf: map<string, string>): Option<string>
    requires ResultType(job.jobType)
  {
    if job.jobType.AcquisitionPlan? || job.jobType.WebDiscovery? then
      var mission := Field(job.payload, "mission_id");
      if mission.JsonText? && mission.s in scope then Some(mission.s) else None
    else
      var candidate := Field(job.payload, "candidate_id");
      if candidate.JsonText? && SafeId(candidate.s) && candidate.s in missionOf then Some(missionOf[candidate.s])
      else None
  }

  /** The index of candidates by mission that the batch routine builds first. */
  ghost predicate IndexOk(missionOf: map<string, string>, candidates: seq<CandidateRow>, scope: set<string>,
      tenant: string) {
    forall id, mission ::
      id in missionOf && missionOf[id] == mission <==>
      mission in scope && id in OwnCandidateIds(mission, candidates, tenant)
  }

  method CandidateMissions(candidates: seq<CandidateRow>, scope: set<string>, tenant: string)
    returns (missionOf: map<string, string>)
    requires UniqueCandidates(candidates)
    ensures IndexOk(missionOf, candidates, scope, tenant)
  {
    missionOf := map[];
    for i := 0 to |candidates|
      invariant forall id :: id in missionOf <==>
                  exists k :: 0 <= k < i && candidates[k].id == id && candidates[k].tenant == tenant
                      && candidates[k].missionId in scope
      invariant forall k ::
          0 <= k < i && candidates[k].id in missionOf
          ==> missionOf[candidates[k].id] == candidates[k].missionId
    {
      var c := candidates[i];
      if c.tenant == tenant && c.missionId in scope {
        missionOf := missionOf[c.id := c.missionId];
      }
    }
  }

  /** A job is relevant to the mission its payload points to, and to no other mission in scope. */
  lemma {:induction false} OnlyTheTarget(job: JobRow, mission: string, candidates: seq<CandidateRow>,
      scope: set<string>, tenant: string,
                      missionOf: map<string, string>)
    requires ResultType(job.jobType) && IndexOk(missionOf, candidates, scope, tenant) && mission in scope
    requires TargetMission(job, scope, missionOf) != Some(mission)
    ensures IdentityOf(job, mission, OwnCandidateIds(mission, candidates, tenant)).None?
  {
    var ids := OwnCandidateIds(mission, candidates, tenant);
    if job.jobType.WebsiteVerify? || job.jobType.CandidateAssess? {
      var candidate := Field(job.payload, "candidate_id");
      if candidate.JsonText? && candidate.s in ids {
        assert candidate.s in missionOf && missionOf[candidate.s] == mission;
      }
    }
  }

  function Entry(facts: map<string, seq<JobFact>>, mission: string): seq<JobFact> {
    if mission in facts then facts[mission] else []
  }

  function Collected(relevant: map<string, seq<Relevant>>, mission: string): seq<Relevant> {
    if mission in relevant then relevant[mission] else []
  }

  /** The batch refines the single routine: for every mission in scope it holds exactly the facts the single
      routine gives for that mission and its own candidates, whatever the payloads contain. */
  method MissionJobFactsByMission(missionIds: seq<string>, candidates: seq<CandidateRow>, jobs: seq<JobRow>,
      tenant: string)
    returns (facts: map<string, seq<JobFact>>)
    requires UniqueCandidates(candidates)
    ensures forall m :: m in facts ==> m in missionIds && facts[m] != []
    ensures forall m :: m in missionIds ==>
              Entry(facts, m) == MissionFacts(m, OwnCandidateIds(m, candidates, tenant), jobs, tenant)
  {
    var scope := set m | m in missionIds;
    var missionOf := CandidateMissions(candidates, scope, tenant);
    var relevant: map<string, seq<Relevant>> := map[];
    for i := 0 to |jobs|
      invariant forall m :: m in relevant ==> m in scope && relevant[m] != []
      invariant forall m :: m in scope ==>
                  Collected(relevant, m) == RelevantJobs(m, OwnCandidateIds(m, candidates, tenant), jobs[..i], tenant)
    {
      assert jobs[..i + 1][..i] == jobs[..i];
      var job := jobs[i];
      if job.tenant != tenant || !ResultType(job.jobType) {
        continue;
      }
      var target := TargetMission(job, scope, missionOf);
      forall m | m in scope && target != Some(m)
        ensures IdentityOf(job, m, OwnCandidateIds(m, candidates, tenant)).None?
      {
        OnlyTheTarget(job, m, candidates, scope, tenant, missionOf);
      }
      if target.None? {
        continue;
      }
      var mission := target.value;
      var ids := set id | id in missionOf && missionOf[id] == mission;
      assert mission in scope;
      assert ids == OwnCandidateIds(mission, candidates, tenant);
      var identity := IdentityOf(job, mission, ids);
      if identity.Some? {
        relevant := relevant[mission := Collected(relevant, mission) + [Relevant(job, identity.value)]];
      }
    }
    assert jobs[..|jobs|] == jobs;
    facts := map m | m in relevant :: OrderedJobFacts(relevant[m]);
    forall m | m in relevant ensures facts[m] != [] {
      ByOutcomeIsTotal();
      SortSorts(relevant[m], ByOutcome);
      assert |multiset(Sort(relevant[m], ByOutcome))| == |multiset(relevant[m])|;
    }
  }

  // ---------------------------------------------------------------------------
  // Independence of the input order
  // ---------------------------------------------------------------------------

  lemma {:induction false} RelevantElements(missionId: string, candidateIds: set<string>, jobs: seq<JobRow>,
      tenant: string, r: Relevant)
    ensures multiset(RelevantJobs(missionId, candidateIds, jobs, tenant))[r]
         == if r.job.tenant == tenant && ResultType(r.job.jobType)
             && IdentityOf(r.job, missionId, candidateIds) == Some(r.identity)
            then multiset(jobs)[r.job] else 0
  {
    if jobs != [] {
      RelevantElements(missionId, candidateIds, jobs[..|jobs| - 1], tenant, r);
      assert jobs == jobs[..|jobs| - 1] + [jobs[|jobs| - 1]];
    }
  }

  lemma {:induction false} RelevantMember(missionId: string, candidateIds: set<string>, jobs: seq<JobRow>,
      tenant: string, r: Relevant)
    ensures r in RelevantJobs(missionId, candidateIds, jobs, tenant) <==>
            r.job in jobs && r.job.tenant == tenant && ResultType(r.job.jobType) &&
            IdentityOf(r.job, missionId, candidateIds) == Some(r.identity)
  {
    RelevantElements(missionId, candidateIds, jobs, tenant, r);
    assert r in RelevantJobs(missionId, candidateIds, jobs, tenant) <==>
           r in multiset(RelevantJobs(missionId, candidateIds, jobs, tenant));
    assert r.job in jobs <==> r.job in multiset(jobs);
  }

  lemma {:induction false} RelevantStrict(missionId: string, candidateIds: set<string>, jobs: seq<JobRow>,
      tenant: string)
    requires UniqueJobs(jobs)
    ensures StrictOn(RelevantJobs(missionId, candidateIds, jobs, tenant), ByOutcome)
  {
    var relevant := RelevantJobs(missionId, candidateIds, jobs, tenant);
    forall a, b | a in relevant && b in relevant && ByOutcome(a, b) && ByOutcome(b, a) ensures a == b {
      RelevantMember(missionId, candidateIds, jobs, tenant, a);
      RelevantMember(missionId, candidateIds, jobs, tenant, b);
      KeyOrder(JobOutcomeKey(a.job), JobOutcomeKey(b.job));
    }
  }

  /** The projection depends only on which jobs are stored, not on the order in which they are listed. */
  lemma {:induction false} FactsIgnoreJobOrder(missionId: string, candidateIds: set<string>, jobs: seq<JobRow>,
      other: seq<JobRow>, tenant: string)
    requires UniqueJobs(jobs) && multiset(jobs) == multiset(other)
    ensures MissionFacts(missionId, candidateIds, jobs, tenant) == MissionFacts(missionId, candidateIds, other, tenant)
  {
    var a := RelevantJobs(missionId, candidateIds, jobs, tenant);
    var b := RelevantJobs(missionId, candidateIds, other, tenant);
    forall r ensures multiset(a)[r] == multiset(b)[r] {
      RelevantElements(missionId, candidateIds, jobs, tenant, r);
      RelevantElements(missionId, candidateIds, other, tenant, r);
    }
    assert multiset(a) == multiset(b);
    RelevantStrict(missionId, candidateIds, jobs, tenant);
    ByOutcomeIsTotal();
    SortIgnoresOrder(a, b, ByOutcome);
  }
}
