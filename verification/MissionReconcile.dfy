/**
 The mission reconciler: one pass over the missions of a tenant derives their status, stored
 result and notifications from the outcomes of their jobs, and repairs candidates whose
 website verification failed. One pass is one transaction.
 */
module MissionReconcile {
  import opened Common
  import opened AcquisitionRows
  import opened MissionResults
  import opened BusinessResults
  import JobLifecycle

  // ---------------------------------------------------------------------------
  // Rows
  // ---------------------------------------------------------------------------

  /** What the reconciler reads and writes in the stored retrospective of a mission: the pending flag, the
      stored result if it has a known code, and the execution deadline if it parses. */
  datatype Retrospective = Retrospective(pending: bool, result: Option<BusinessResult>, deadline: Option<Time>)

  datatype MissionRow = MissionRow(
    id: string,
    tenant: string,
    name: string,
    status: MissionStatus,
    retro: Retrospective,
    finishedAt: Option<Time>)

  datatype ProviderHealth = Unknown | Healthy | Degraded | Down

  datatype ProviderRow = ProviderRow(health: ProviderHealth, failures: nat, errorCode: string,
      lastSuccessAt: Option<Time>)

  datatype NoteKey =
    | MissionEnded(tenant: string, mission: string, status: MissionStatus)
    | ProviderDown(tenant: string, since: Option<Time>)

  datatype NoteKind = MissionCompleted | MissionPartial | MissionFailed | ProviderFailed

  datatype NoteStatus = Unread | Read | Archived

  datatype Note = Note(kind: NoteKind, missionName: string, result: Option<BusinessResult>, status: NoteStatus,
      readAt: Option<Time>)

  datatype Db = Db(
    missions: seq<MissionRow>,
    candidates: seq<CandidateRow>,
    jobs: seq<JobRow>,
    evidence: map<string, nat>,
    providers: map<string, ProviderRow>,
    notes: map<NoteKey, Note>)

  ghost predicate UniqueMissions(missions: seq<MissionRow>) {
    forall i, j :: 0 <= i < j < |missions| ==> missions[i].id != missions[j].id
  }

  ghost predicate KeysOk(db: Db) {
    UniqueMissions(db.missions) && UniqueCandidates(db.candidates) && UniqueJobs(db.jobs)
  }

  // ---------------------------------------------------------------------------
  // Failed verifications
  // ---------------------------------------------------------------------------

  predicate VerifyOutcomeFor(job: JobRow, c: CandidateRow) {
    && job.jobType.WebsiteVerify? && JobLifecycle.Terminal(job.status)
    && job.tenant == c.tenant && Field(job.payload, "candidate_id") == JsonText(c.id)
  }

  /** The verification outcome with the greatest outcome key; the first of equals. */
  function LatestVerify(jobs: seq<JobRow>, c: CandidateRow): (r: Option<JobRow>)
    ensures r.Some? ==> r.value in jobs && VerifyOutcomeFor(r.value, c)
    ensures r.None? ==> forall job :: job in jobs ==> !VerifyOutcomeFor(job, c)
  {
    if jobs == [] then None
    else
      var before := LatestVerify(jobs[..|jobs| - 1], c);
      var job := jobs[|jobs| - 1];
      if !VerifyOutcomeFor(job, c) then before
      else if before.None? || !KeyLe(JobOutcomeKey(job), JobOutcomeKey(before.value)) then Some(job)
      else before
  }

  predicate VerificationLost(jobs: seq<JobRow>, c: CandidateRow) {
    var latest := LatestVerify(jobs, c);
    latest.Some? && (latest.value.status.Failed? || latest.value.status.Cancelled?)
  }

  function CandidateById(candidates: seq<CandidateRow>, tenant: string, id: string): (r: Option<CandidateRow>)
    ensures r.Some? ==> r.value in candidates && r.value.tenant == tenant && r.value.id == id
    ensures r.None? ==> forall c :: c in candidates ==> c.tenant != tenant || c.id != id
  {
    if candidates == [] then None
    else if candidates[0].tenant == tenant && candidates[0].id == id then Some(candidates[0])
    else CandidateById(candidates[1..], tenant, id)
  }

  /** The dictionary loop over the jobs, and the ids of the candidates whose latest verification was lost. */
  method FailedVerificationCandidates(jobs: seq<JobRow>, candidates: seq<CandidateRow>, tenant: string)
    returns (lost: set<string>)
    requires UniqueCandidates(candidates)
    ensures forall c :: c in candidates && c.tenant == tenant ==> (c.id in lost <==> VerificationLost(jobs, c))
  {
    var latest: map<string, JobRow> := map[];
    for i := 0 to |jobs|
      invariant forall c :: c in candidates && c.tenant == tenant ==>
                  LatestVerify(jobs[..i], c) == if c.id in latest then Some(latest[c.id]) else None
    {
      assert jobs[..i + 1][..i] == jobs[..i];
      var job := jobs[i];
      var field := Field(job.payload, "candidate_id");
      if job.tenant == tenant && job.jobType.WebsiteVerify? && JobLifecycle.Terminal(job.status) && field.JsonText? {
        var candidate := CandidateById(candidates, tenant, field.s);
        if candidate.Some? && (field.s !in latest || !KeyLe(JobOutcomeKey(job), JobOutcomeKey(latest[field.s]))) {
          latest := latest[field.s := job];
        }
      }
    }
    assert jobs[..|jobs|] == jobs;
    lost := set id | id in latest && (latest[id].status.Failed? || latest[id].status.Cancelled?);
  }

  // ---------------------------------------------------------------------------
  // What one pass does to one mission
  // ---------------------------------------------------------------------------

  predicate Belongs(job: JobRow, missionId: string, candidates: seq<CandidateRow>, tenant: string) {
    || Field(job.payload, "mission_id") == JsonText(missionId)
    || (Field(job.payload, "candidate_id").JsonText? &&
        var c := CandidateById(candidates, tenant, Field(job.payload, "candidate_id").s);
        c.Some? && c.value.missionId == missionId)
  }

  function MissionJobs(jobs: seq<JobRow>, missionId: string, candidates: seq<CandidateRow>,
      tenant: string): seq<JobRow> {
    if jobs == [] then []
    else
      var job := jobs[|jobs| - 1];
      var before := MissionJobs(jobs[..|jobs| - 1], missionId, candidates, tenant);
      if job.tenant == tenant && ResultType(job.jobType) && Belongs(job, missionId, candidates, tenant)
      then before + [job] else before
  }

  predicate Unfinished(s: CandidateStatus) {
    s.Discovered? || s.Verifying?
  }

  predicate Usable(s: CandidateStatus) {
    s.Eligible? || s.Accepted? || s.Promoted?
  }

  predicate Repairable(db: Db, missionId: string, tenant: string) {
    exists c :: c in db.candidates && c.tenant == tenant && c.missionId == missionId
                && VerificationLost(db.jobs, c) && Unfinished(c.status)
  }

  predicate NeedsBackfill(m: MissionRow) {
    m.retro.pending || m.retro.result.None?
  }

  predicate UsableIn(c: CandidateRow, missionId: string, tenant: string) {
    c.tenant == tenant && c.missionId == missionId && Usable(c.status)
  }

  predicate AnyUsable(candidates: seq<CandidateRow>, missionId: string, tenant: string) {
    exists i :: 0 <= i < |candidates| && UsableIn(candidates[i], missionId, tenant)
  }

  predicate HasUsable(db: Db, missionId: string, tenant: string) {
    AnyUsable(db.candidates, missionId, tenant)
  }

  predicate Open(status: MissionStatus) {
    status.Queued? || status.Running?
  }

  predicate Ended(status: MissionStatus) {
    status.Completed? || status.Failed?
  }

  predicate Selected(db: Db, m: MissionRow, tenant: string) {
    m.tenant == tenant && (Open(m.status) || (Ended(m.status) && (Repairable(db, m.id, tenant) || NeedsBackfill(m))))
  }

  datatype Plan = Leave | KeepBusy | Finish(withoutJobs: bool)

  predicate AnyActive(jobs: seq<JobRow>) {
    exists job :: job in jobs && JobLifecycle.Active(job.status)
  }

  function PlanFor(db: Db, m: MissionRow, tenant: string): Plan {
    if !Selected(db, m, tenant) then Leave
    else
      var jobs := MissionJobs(db.jobs, m.id, db.candidates, tenant);
      if jobs == [] then if Ended(m.status) && NeedsBackfill(m) then Finish(true) else Leave
      else if AnyActive(jobs) then KeepBusy
      else Finish(false)
  }

  function BusyStatus(db: Db, m: MissionRow, tenant: string): MissionStatus {
    if !m.status.Completed? || !HasUsable(db, m.id, tenant) then Running else m.status
  }

  function RepairedCandidate(db: Db, c: CandidateRow): CandidateRow {
    if VerificationLost(db.jobs, c) && Unfinished(c.status) then c.(status := NeedsEvidence) else c
  }

  function EvidenceCount(evidence: map<string, nat>, id: string): nat {
    if id in evidence then evidence[id] else 0
  }

  /** The candidates of one mission after its repair, as facts for the resolver. */
  function CandidateFacts(db: Db, candidates: seq<CandidateRow>, missionId: string,
      tenant: string): seq<CandidateFact> {
    if candidates == [] then []
    else
      var c := candidates[0];
      var rest := CandidateFacts(db, candidates[1..], missionId, tenant);
      if c.tenant == tenant && c.missionId == missionId
      then [CandidateFact(c.id, RepairedCandidate(db, c).status, EvidenceCount(db.evidence, c.id))] + rest
      else rest
  }

  function MissionResult(db: Db, missionId: string, tenant: string, execution: MissionStatus): BusinessResult {
    ResultOf(Facts(
      execution,
      CandidateFacts(db, db.candidates, missionId, tenant),
      MissionFacts(missionId, OwnCandidateIds(missionId, db.candidates, tenant),
                   MissionJobs(db.jobs, missionId, db.candidates, tenant), tenant)))
  }

  function FinalStatus(db: Db, m: MissionRow, tenant: string, withoutJobs: bool): MissionStatus {
    if withoutJobs then m.status
    else if MissionResult(db, m.id, tenant, m.status).counts.failedJobs > 0 then Failed
    else Completed
  }

  function FinishedMission(db: Db, m: MissionRow, tenant: string, now: Time, withoutJobs: bool): MissionRow {
    var status := FinalStatus(db, m, tenant, withoutJobs);
    m.(status := status,
       retro := m.retro.(pending := false, result := Some(MissionResult(db, m.id, tenant, status))),
       finishedAt := Some(now))
  }

  function ReconciledMission(db: Db, m: MissionRow, tenant: string, now: Time): MissionRow {
    match PlanFor(db, m, tenant)
    case Leave => m
    case KeepBusy => m.(status := BusyStatus(db, m, tenant))
    case Finish(withoutJobs) => FinishedMission(db, m, tenant, now, withoutJobs)
  }

  // ---------------------------------------------------------------------------
  // What one pass does to the whole database
  // ---------------------------------------------------------------------------

  /** Ids of the first n missions that the pass finishes. */
  function Finishing(db: Db, tenant: string, n: nat): set<string>
    requires n <= |db.missions|
  {
    set i | 0 <= i < n && PlanFor(db, db.missions[i], tenant).Finish? :: db.missions[i].id
  }

  function ReconciledCandidate(db: Db, c: CandidateRow, tenant: string, finished: set<string>): CandidateRow {
    if c.tenant == tenant && c.missionId in finished then RepairedCandidate(db, c) else c
  }

  function Lookup(notes: map<NoteKey, Note>, key: NoteKey): Option<Note> {
    if key in notes then Some(notes[key]) else None
  }

  function EndKind(code: ResultCode): NoteKind {
    match code
    case Partial => MissionPartial
    case FailedResult => MissionFailed
    case _ => MissionCompleted
  }

  function EndNote(m: MissionRow): Note
    requires m.retro.result.Some?
  {
    Note(EndKind(m.retro.result.value.code), m.name, m.retro.result, Unread, None)
  }

  function Opposite(status: MissionStatus): MissionStatus {
    if status.Completed? then Failed else Completed
  }

  predicate ProviderIncident(db: Db, tenant: string) {
    tenant in db.providers && db.providers[tenant].health.Down? && db.providers[tenant].failures >= 3
  }

  const PROVIDER_NOTE := Note(ProviderFailed, "", None, Unread, None)

  /** A notification after the pass has finished a mission: the note of its status is there, unread and up to
      date, the one of the opposite status is archived. */
  function NoteAfterFinish(note: Option<Note>, key: NoteKey, m: MissionRow): Option<Note>
    requires m.retro.result.Some?
  {
    if key == MissionEnded(m.tenant, m.id, m.status) then Some(EndNote(m))
    else if key == MissionEnded(m.tenant, m.id, Opposite(m.status)) && note.Some?
        then Some(note.value.(status := Archived))
    else note
  }

  function NoteAfterProvider(db: Db, tenant: string, key: NoteKey): Option<Note> {
    var note := Lookup(db.notes, key);
    if note.None? && ProviderIncident(db, tenant) && key == ProviderDown(tenant, db.providers[tenant].lastSuccessAt)
    then Some(PROVIDER_NOTE) else note
  }

  /** A notification after the first n missions have been visited. */
  ghost predicate NoteOk(db: Db, missions': seq<MissionRow>, notes': map<NoteKey, Note>, tenant: string,
      key: NoteKey, n: nat)
    requires n <= |db.missions| == |missions'|
  {
    && (forall i :: 0 <= i < n && PlanFor(db, db.missions[i], tenant).Finish?
                    && key.MissionEnded? && key.mission == db.missions[i].id && missions'[i].retro.result.Some? ==>
          Lookup(notes', key) == NoteAfterFinish(NoteAfterProvider(db, tenant, key), key, missions'[i]))
    && ((key.ProviderDown? || key.mission !in Finishing(db, tenant, n)) ==>
          Lookup(notes', key) == NoteAfterProvider(db, tenant, key))
  }

  /** The whole effect of one pass, row by row: no row depends on the order in which missions are visited. */
  ghost predicate Reconciled(db: Db, db': Db, tenant: string, now: Time) {
    && |db'.missions| == |db.missions| && |db'.candidates| == |db.candidates|
    && db'.jobs == db.jobs && db'.evidence == db.evidence && db'.providers == db.providers
    && (forall i :: 0 <= i < |db.missions| ==> db'.missions[i] == ReconciledMission(db, db.missions[i], tenant, now))
    && (forall i :: 0 <= i < |db.candidates| ==>
          db'.candidates[i] == ReconciledCandidate(db, db.candidates[i], tenant, Finishing(db, tenant, |db.missions|)))
    && (forall key :: NoteOk(db, db'.missions, db'.notes, tenant, key, |db.missions|))
  }

  function CountFinishes(db: Db, tenant: string, n: nat): nat
    requires n <= |db.missions|
  {
    if n == 0 then 0
    else CountFinishes(db, tenant, n - 1) + if PlanFor(db, db.missions[n - 1], tenant).Finish? then 1 else 0
  }

  // ---------------------------------------------------------------------------
  // What a pass cannot change: which jobs and candidates concern a mission, and its result
  // ---------------------------------------------------------------------------

  ghost predicate SameOwners(a: seq<CandidateRow>, b: seq<CandidateRow>) {
    && |a| == |b|
    && forall i :: 0 <= i < |a| ==> a[i].id == b[i].id && a[i].tenant == b[i].tenant && a[i].missionId == b[i].missionId
  }

  lemma {:induction false} SameById(a: seq<CandidateRow>, b: seq<CandidateRow>, tenant: string, id: string)
    requires SameOwners(a, b)
    ensures var x, y := CandidateById(a, tenant, id), CandidateById(b, tenant, id);
            x.Some? == y.Some? && (x.Some? ==> x.value.missionId == y.value.missionId)
  {
    if a != [] {
      assert a[0].id == b[0].id;
      assert SameOwners(a[1..], b[1..]);
      SameById(a[1..], b[1..], tenant, id);
    }
  }

  lemma {:induction false} SameMissionJobs(jobs: seq<JobRow>, missionId: string, a: seq<CandidateRow>,
      b: seq<CandidateRow>, tenant: string)
    requires SameOwners(a, b)
    ensures MissionJobs(jobs, missionId, a, tenant) == MissionJobs(jobs, missionId, b, tenant)
  {
    if jobs != [] {
      SameMissionJobs(jobs[..|jobs| - 1], missionId, a, b, tenant);
      var field := Field(jobs[|jobs| - 1].payload, "candidate_id");
      if field.JsonText? { SameById(a, b, tenant, field.s); }
    }
  }

  lemma {:induction false} SameOwnIds(missionId: string, a: seq<CandidateRow>, b: seq<CandidateRow>, tenant: string)
    requires SameOwners(a, b)
    ensures OwnCandidateIds(missionId, a, tenant) == OwnCandidateIds(missionId, b, tenant)
  {
    forall id | id in OwnCandidateIds(missionId, a, tenant) ensures id in OwnCandidateIds(missionId, b, tenant) {
      var i :| 0 <= i < |a| && a[i].tenant == tenant && a[i].missionId == missionId && a[i].id == id;
      assert b[i] in b;
    }
    forall id | id in OwnCandidateIds(missionId, b, tenant) ensures id in OwnCandidateIds(missionId, a, tenant) {
      var i :| 0 <= i < |b| && b[i].tenant == tenant && b[i].missionId == missionId && b[i].id == id;
      assert a[i] in a;
    }
  }

  lemma {:induction false} SameLatestVerify(jobs: seq<JobRow>, c: CandidateRow, d: CandidateRow)
    requires c.id == d.id && c.tenant == d.tenant
    ensures LatestVerify(jobs, c) == LatestVerify(jobs, d)
  {
    if jobs != [] { SameLatestVerify(jobs[..|jobs| - 1], c, d); }
  }

  /** Candidates after a pass (or part of one): each is as before or repaired. */
  ghost predicate PartlyRepaired(db: Db, candidates: seq<CandidateRow>) {
    && |candidates| == |db.candidates|
    && forall i :: 0 <= i < |candidates| ==>
         candidates[i] == db.candidates[i] || candidates[i] == RepairedCandidate(db, db.candidates[i])
  }

  lemma {:induction false} RepairTwice(db: Db, db': Db, i: nat)
    requires db'.jobs == db.jobs && PartlyRepaired(db, db'.candidates) && i < |db.candidates|
    ensures RepairedCandidate(db', db'.candidates[i]) == RepairedCandidate(db, db.candidates[i])
  {
    SameLatestVerify(db.jobs, db'.candidates[i], db.candidates[i]);
  }

  lemma {:induction false} SameCandidateFacts(db: Db, db': Db, a: seq<CandidateRow>, b: seq<CandidateRow>,
      missionId: string, tenant: string)
    requires db'.evidence == db.evidence && SameOwners(a, b)
    requires forall i :: 0 <= i < |a| ==> RepairedCandidate(db', b[i]) == RepairedCandidate(db, a[i])
    ensures CandidateFacts(db', b, missionId, tenant) == CandidateFacts(db, a, missionId, tenant)
  {
    if a != [] {
      assert a[0].id == b[0].id;
      forall i | 0 <= i < |a[1..]| ensures RepairedCandidate(db', b[1..][i]) == RepairedCandidate(db, a[1..][i]) {
        var k := i + 1;
        assert b[1..][i] == b[k] && a[1..][i] == a[k];
      }
      assert SameOwners(a[1..], b[1..]);
      SameCandidateFacts(db, db', a[1..], b[1..], missionId, tenant);
    }
  }

  lemma {:induction false} PartlyRepairedOwners(db: Db, candidates: seq<CandidateRow>)
    requires PartlyRepaired(db, candidates)
    ensures SameOwners(db.candidates, candidates)
  {
  }

  /** Repairing any of the candidates changes neither the jobs of a mission nor its resolved result. */
  lemma {:induction false} ResultSurvivesRepairs(db: Db, db': Db, missionId: string, tenant: string,
      execution: MissionStatus)
    requires db'.jobs == db.jobs && db'.evidence == db.evidence && PartlyRepaired(db, db'.candidates)
    ensures MissionJobs(db'.jobs, missionId, db'.candidates, tenant)
        == MissionJobs(db.jobs, missionId, db.candidates, tenant)
    ensures MissionResult(db', missionId, tenant, execution) == MissionResult(db, missionId, tenant, execution)
  {
    PartlyRepairedOwners(db, db'.candidates);
    SameMissionJobs(db.jobs, missionId, db.candidates, db'.candidates, tenant);
    SameOwnIds(missionId, db.candidates, db'.candidates, tenant);
    forall i | 0 <= i < |db.candidates|
      ensures RepairedCandidate(db', db'.candidates[i]) == RepairedCandidate(db, db.candidates[i])
    {
      RepairTwice(db, db', i);
    }
    SameCandidateFacts(db, db', db.candidates, db'.candidates, missionId, tenant);
  }

  /** Failed jobs are counted from the jobs alone, so the status written does not change the count. */
  lemma {:induction false} FailuresIgnoreStatus(db: Db, missionId: string, tenant: string, a: MissionStatus,
      b: MissionStatus)
    ensures MissionResult(db, missionId, tenant, a).counts == MissionResult(db, missionId, tenant, b).counts
  {
  }

  // ---------------------------------------------------------------------------
  // The pass is idempotent
  // ---------------------------------------------------------------------------

  lemma {:induction false} ReconciledIsPartlyRepaired(db: Db, db': Db, tenant: string, now: Time)
    requires Reconciled(db, db', tenant, now)
    ensures PartlyRepaired(db, db'.candidates)
  {
  }

  lemma {:induction false} FinishingIff(db: Db, tenant: string, i: nat)
    requires UniqueMissions(db.missions) && i < |db.missions|
    ensures db.missions[i].id in Finishing(db, tenant, |db.missions|) <==> PlanFor(db, db.missions[i], tenant).Finish?
  {
  }

  /** A repair never makes a mission repairable, and a finished mission is not. */
  lemma {:induction false} RepairableShrinks(db: Db, db': Db, tenant: string, now: Time, missionId: string)
    requires Reconciled(db, db', tenant, now) && Repairable(db', missionId, tenant)
    ensures Repairable(db, missionId, tenant)
    ensures missionId !in Finishing(db, tenant, |db.missions|)
  {
    var c' :| c' in db'.candidates && c'.tenant == tenant && c'.missionId == missionId
              && VerificationLost(db'.jobs, c') && Unfinished(c'.status);
    var i :| 0 <= i < |db'.candidates| && db'.candidates[i] == c';
    var c := db.candidates[i];
    ReconciledIsPartlyRepaired(db, db', tenant, now);
    SameLatestVerify(db.jobs, c, c');
    assert c in db.candidates;
  }

  lemma {:induction false} SameUsable(a: seq<CandidateRow>, b: seq<CandidateRow>, missionId: string, tenant: string)
    requires |a| == |b|
    requires forall i :: 0 <= i < |a| ==> (UsableIn(a[i], missionId, tenant) <==> UsableIn(b[i], missionId, tenant))
    ensures AnyUsable(a, missionId, tenant) <==> AnyUsable(b, missionId, tenant)
  {
  }

  lemma {:induction false} RepairsKeepUsable(db: Db, candidates: seq<CandidateRow>, missionId: string, tenant: string)
    requires PartlyRepaired(db, candidates)
    ensures AnyUsable(candidates, missionId, tenant) <==> AnyUsable(db.candidates, missionId, tenant)
  {
    SameUsable(db.candidates, candidates, missionId, tenant);
  }

  lemma {:induction false} UsableSurvives(db: Db, db': Db, tenant: string, now: Time, missionId: string)
    requires Reconciled(db, db', tenant, now)
    ensures HasUsable(db', missionId, tenant) <==> HasUsable(db, missionId, tenant)
  {
    ReconciledIsPartlyRepaired(db, db', tenant, now);
    RepairsKeepUsable(db, db'.candidates, missionId, tenant);
  }

  lemma {:induction false} PlanSettles(db: Db, db': Db, m: MissionRow, m': MissionRow, tenant: string, now: Time)
    requires m' == ReconciledMission(db, m, tenant, now)
    requires MissionJobs(db'.jobs, m.id, db'.candidates, tenant) == MissionJobs(db.jobs, m.id, db.candidates, tenant)
    requires HasUsable(db', m.id, tenant) <==> HasUsable(db, m.id, tenant)
    requires Repairable(db', m.id, tenant) ==> Repairable(db, m.id, tenant) && !PlanFor(db, m, tenant).Finish?
    ensures var plan := PlanFor(db', m', tenant);
            !plan.Finish? && (plan.KeepBusy? ==> BusyStatus(db', m', tenant) == m'.status)
  {
    match PlanFor(db, m, tenant)
    case Finish(_) => assert Ended(m'.status) && !NeedsBackfill(m') && !Repairable(db', m.id, tenant);
    case KeepBusy =>
    case Leave =>
  }

  /** After a pass nothing is left to finish, and the busy missions already carry their busy status. */
  lemma {:induction false} SecondPlan(db: Db, db': Db, tenant: string, now: Time, i: nat)
    requires KeysOk(db) && Reconciled(db, db', tenant, now) && i < |db.missions|
    ensures var m' := db'.missions[i];
            var plan := PlanFor(db', m', tenant);
            !plan.Finish? && (plan.KeepBusy? ==> BusyStatus(db', m', tenant) == m'.status)
  {
    var m, m' := db.missions[i], db'.missions[i];
    ReconciledIsPartlyRepaired(db, db', tenant, now);
    ResultSurvivesRepairs(db, db', m.id, tenant, m.status);
    FinishingIff(db, tenant, i);
    UsableSurvives(db, db', tenant, now, m.id);
    if Repairable(db', m.id, tenant) {
      RepairableShrinks(db, db', tenant, now, m.id);
    }
    PlanSettles(db, db', m, m', tenant, now);
  }

  lemma {:induction false} NoFinishes(db: Db, tenant: string, n: nat)
    requires n <= |db.missions| && forall i :: 0 <= i < n ==> !PlanFor(db, db.missions[i], tenant).Finish?
    ensures CountFinishes(db, tenant, n) == 0
  {
    if n > 0 { NoFinishes(db, tenant, n - 1); }
  }

  lemma {:induction false} ProviderNoteSettles(db: Db, db1: Db, tenant: string, now: Time, key: NoteKey)
    requires Reconciled(db, db1, tenant, now)
    ensures NoteAfterProvider(db1, tenant, key) == Lookup(db1.notes, key)
  {
    assert NoteOk(db, db1.missions, db1.notes, tenant, key, |db.missions|);
  }

  lemma {:induction false} NotesEqual(a: map<NoteKey, Note>, b: map<NoteKey, Note>)
    requires forall key :: Lookup(a, key) == Lookup(b, key)
    ensures a == b
  {
    forall key ensures key in a <==> key in b {
      assert Lookup(a, key) == Lookup(b, key);
    }
    forall key | key in a ensures a[key] == b[key] {
      assert Lookup(a, key) == Lookup(b, key);
    }
  }

  /** A second pass right after the first finishes nothing and changes no mission, candidate or notification. */
  lemma {:induction false} ReconcileIsIdempotent(db: Db, db1: Db, db2: Db, tenant: string, now: Time, later: Time)
    requires KeysOk(db) && Reconciled(db, db1, tenant, now) && Reconciled(db1, db2, tenant, later)
    ensures CountFinishes(db1, tenant, |db1.missions|) == 0
    ensures db2 == db1
  {
    forall i | 0 <= i < |db1.missions|
      ensures !PlanFor(db1, db1.missions[i], tenant).Finish? && db2.missions[i] == db1.missions[i]
    {
      SecondPlan(db, db1, tenant, now, i);
    }
    NoFinishes(db1, tenant, |db1.missions|);
    assert Finishing(db1, tenant, |db1.missions|) == {};
    assert db2.missions == db1.missions;
    assert db2.candidates == db1.candidates;
    forall key ensures Lookup(db2.notes, key) == Lookup(db1.notes, key) {
      assert NoteOk(db1, db2.missions, db2.notes, tenant, key, |db1.missions|);
      ProviderNoteSettles(db, db1, tenant, now, key);
    }
    NotesEqual(db1.notes, db2.notes);
  }

  // ---------------------------------------------------------------------------
  // What a pass establishes
  // ---------------------------------------------------------------------------

  predicate AllTerminal(jobs: seq<JobRow>) {
    forall job :: job in jobs ==> JobLifecycle.Terminal(job.status)
  }

  /** A mission that was queued or running has ended after the pass exactly when it has a job and all its jobs
      are terminal; otherwise it is untouched or running. */
  lemma {:induction false} OpenMissionEndsIff(db: Db, db': Db, tenant: string, now: Time, i: nat)
    requires Reconciled(db, db', tenant, now) && i < |db.missions|
    requires db.missions[i].tenant == tenant && Open(db.missions[i].status)
    ensures var jobs := MissionJobs(db.jobs, db.missions[i].id, db.candidates, tenant);
            && (Ended(db'.missions[i].status) <==> jobs != [] && AllTerminal(jobs))
            && (jobs == [] ==> db'.missions[i] == db.missions[i])
            && (!AllTerminal(jobs) ==> db'.missions[i] == db.missions[i].(status := Running))
  {
    var m := db.missions[i];
    var jobs := MissionJobs(db.jobs, m.id, db.candidates, tenant);
    if AnyActive(jobs) {
      var job :| job in jobs && JobLifecycle.Active(job.status);
      assert !JobLifecycle.Terminal(job.status);
    }
    assert AllTerminal(jobs) <==> !AnyActive(jobs);
  }

  lemma {:induction false} NoJobsNoFailures(db: Db, missionId: string, tenant: string, execution: MissionStatus)
    requires MissionJobs(db.jobs, missionId, db.candidates, tenant) == []
    ensures MissionResult(db, missionId, tenant, execution).counts.failedJobs == 0
  {
    var facts := MissionFacts(missionId, OwnCandidateIds(missionId, db.candidates, tenant), [], tenant);
    assert facts == [];
    assert LatestJobs(facts) == map[];
    assert FailedIdentities(map[], t => true) == {};
  }

  /** The stored result of a finished mission agrees with its status: partial or failed exactly when the mission
      failed, partial exactly when it then has a candidate. */
  lemma {:induction false} StoredResultAgreesWithStatus(db: Db, db': Db, tenant: string, now: Time, i: nat)
    requires Reconciled(db, db', tenant, now) && i < |db.missions| && PlanFor(db, db.missions[i], tenant).Finish?
    ensures var m' := db'.missions[i];
            && Ended(m'.status) && m'.retro.result.Some? && !NeedsBackfill(m') && m'.finishedAt == Some(now)
            && var code := m'.retro.result.value.code;
            && (code.Partial? || code.FailedResult? <==> m'.status.Failed?)
            && (code.Partial? <==> m'.status.Failed? && CandidateFacts(db, db.candidates, m'.id, tenant) != [])
  {
    var m := db.missions[i];
    var withoutJobs := PlanFor(db, m, tenant).withoutJobs;
    var status := FinalStatus(db, m, tenant, withoutJobs);
    FailuresIgnoreStatus(db, m.id, tenant, m.status, status);
    CodeMeaning(Facts(status, CandidateFacts(db, db.candidates, m.id, tenant),
                      MissionFacts(m.id, OwnCandidateIds(m.id, db.candidates, tenant),
                                   MissionJobs(db.jobs, m.id, db.candidates, tenant), tenant)));
    if withoutJobs { NoJobsNoFailures(db, m.id, tenant, status); }
  }

  /** Resolving again, after the status write and the repairs, gives the stored status and the stored result. */
  lemma {:induction false} ResolvingAgainIsFixpoint(db: Db, db': Db, tenant: string, now: Time, i: nat)
    requires Reconciled(db, db', tenant, now) && i < |db.missions| && PlanFor(db, db.missions[i], tenant).Finish?
    ensures var m' := db'.missions[i];
            && m'.retro.result == Some(MissionResult(db', m'.id, tenant, m'.status))
            && FinalStatus(db', m', tenant, PlanFor(db, db.missions[i], tenant).withoutJobs) == m'.status
  {
    var m := db.missions[i];
    var status := db'.missions[i].status;
    ReconciledIsPartlyRepaired(db, db', tenant, now);
    ResultSurvivesRepairs(db, db', m.id, tenant, status);
    FailuresIgnoreStatus(db, m.id, tenant, m.status, status);
  }

  lemma {:induction false} OtherTenantsNote(db: Db, db': Db, tenant: string, now: Time, key: NoteKey)
    requires Reconciled(db, db', tenant, now) && key.tenant != tenant
    ensures Lookup(db'.notes, key) == Lookup(db.notes, key)
  {
    assert NoteOk(db, db'.missions, db'.notes, tenant, key, |db.missions|);
    if key.MissionEnded? && key.mission in Finishing(db, tenant, |db.missions|) {
      var i :| 0 <= i < |db.missions| && PlanFor(db, db.missions[i], tenant).Finish?
          && db.missions[i].id == key.mission;
      assert db'.missions[i] == ReconciledMission(db, db.missions[i], tenant, now);
    }
  }

  lemma {:induction false} OtherTenantsRows(db: Db, db': Db, tenant: string, now: Time, i: nat)
    requires Reconciled(db, db', tenant, now)
    ensures i < |db.missions| && db.missions[i].tenant != tenant ==> db'.missions[i] == db.missions[i]
    ensures i < |db.candidates| && db.candidates[i].tenant != tenant ==> db'.candidates[i] == db.candidates[i]
  {
  }

  /** Rows of other tenants are untouched. */
  lemma {:induction false} OtherTenantsUntouched(db: Db, db': Db, tenant: string, other: string, now: Time)
    requires Reconciled(db, db', tenant, now) && other != tenant
    ensures forall i :: 0 <= i < |db.missions| && db.missions[i].tenant == other ==> db'.missions[i] == db.missions[i]
    ensures forall i ::
        0 <= i < |db.candidates| && db.candidates[i].tenant == other
        ==> db'.candidates[i] == db.candidates[i]
    ensures forall key: NoteKey :: key.tenant == other ==> Lookup(db'.notes, key) == Lookup(db.notes, key)
  {
    forall i | 0 <= i < |db.missions| && db.missions[i].tenant == other ensures db'.missions[i] == db.missions[i] {
      OtherTenantsRows(db, db', tenant, now, i);
    }
    forall i | 0 <= i < |db.candidates| && db.candidates[i].tenant == other
        ensures db'.candidates[i] == db.candidates[i] {
      OtherTenantsRows(db, db', tenant, now, i);
    }
    forall key: NoteKey | key.tenant == other ensures Lookup(db'.notes, key) == Lookup(db.notes, key) {
      OtherTenantsNote(db, db', tenant, now, key);
    }
  }

  lemma {:induction false} FinishedNote(db: Db, db': Db, tenant: string, now: Time, i: nat, status: MissionStatus)
    requires Reconciled(db, db', tenant, now) && i < |db.missions| && PlanFor(db, db.missions[i], tenant).Finish?
    ensures var m', key := db'.missions[i], MissionEnded(tenant, db.missions[i].id, status);
            && m'.retro.result.Some? && m'.id == db.missions[i].id && m'.tenant == tenant
            && Lookup(db'.notes, key) == NoteAfterFinish(Lookup(db.notes, key), key, m')
  {
    assert NoteOk(db, db'.missions, db'.notes, tenant, MissionEnded(tenant, db.missions[i].id, status), |db.missions|);
  }

  /** After a mission is finished its terminal notification is unread and tells the stored result; the one of the
      opposite status is archived or absent. So exactly one of the two is live. */
  lemma {:induction false} OneLiveNotification(db: Db, db': Db, tenant: string, now: Time, i: nat)
    requires Reconciled(db, db', tenant, now) && i < |db.missions| && PlanFor(db, db.missions[i], tenant).Finish?
    ensures var m' := db'.missions[i];
            var current := Lookup(db'.notes, MissionEnded(tenant, m'.id, m'.status));
            var stale := Lookup(db'.notes, MissionEnded(tenant, m'.id, Opposite(m'.status)));
            && current.Some? && current.value.status == Unread && current.value.result == m'.retro.result
            && (current.value.kind.MissionCompleted? <==> m'.status.Completed?)
            && (stale.Some? ==> stale.value.status == Archived)
  {
    StoredResultAgreesWithStatus(db, db', tenant, now, i);
    FinishedNote(db, db', tenant, now, i, db'.missions[i].status);
    FinishedNote(db, db', tenant, now, i, Opposite(db'.missions[i].status));
  }

  // ---------------------------------------------------------------------------
  // Failed verifications are counted once per candidate
  // ---------------------------------------------------------------------------

  lemma {:induction false} LatestVerifyIsGreatest(jobs: seq<JobRow>, c: CandidateRow, job: JobRow)
    requires job in jobs && VerifyOutcomeFor(job, c)
    ensures LatestVerify(jobs, c).Some?
    ensures KeyLe(JobOutcomeKey(job), JobOutcomeKey(LatestVerify(jobs, c).value))
  {
    var front, last := jobs[..|jobs| - 1], jobs[|jobs| - 1];
    assert jobs == front + [last];
    var before := LatestVerify(front, c);
    if before.Some? {
      KeyOrder(JobOutcomeKey(last), JobOutcomeKey(before.value));
    }
    KeyOrder(JobOutcomeKey(job), JobOutcomeKey(job));
    if job in front {
      LatestVerifyIsGreatest(front, c, job);
      if LatestVerify(jobs, c) != before {
        KeyTransitive(JobOutcomeKey(job), JobOutcomeKey(before.value), JobOutcomeKey(last));
      }
    }
  }

  lemma {:induction false} MissionJobMember(jobs: seq<JobRow>, missionId: string, candidates: seq<CandidateRow>,
      tenant: string, job: JobRow)
    ensures job in MissionJobs(jobs, missionId, candidates, tenant) <==>
            job in jobs && job.tenant == tenant && ResultType(job.jobType)
                && Belongs(job, missionId, candidates, tenant)
  {
    if jobs != [] {
      MissionJobMember(jobs[..|jobs| - 1], missionId, candidates, tenant, job);
      assert jobs == jobs[..|jobs| - 1] + [jobs[|jobs| - 1]];
    }
  }

  lemma {:induction false} OwnCandidateById(candidates: seq<CandidateRow>, c: CandidateRow)
    requires UniqueCandidates(candidates) && c in candidates
    ensures CandidateById(candidates, c.tenant, c.id) == Some(c)
  {
  }

  /** The jobs the resolver sees under the verification of a candidate are its verification jobs. */
  lemma {:induction false} RelevantVerifications(db: Db, missionId: string, tenant: string, c: CandidateRow,
      r: Relevant)
    requires KeysOk(db) && c in db.candidates && c.tenant == tenant && c.missionId == missionId
    requires r.identity == VerifyOf(c.id) && JobLifecycle.Terminal(r.job.status)
    ensures var ids, jobs := OwnCandidateIds(missionId, db.candidates, tenant),
        MissionJobs(db.jobs, missionId, db.candidates, tenant);
            r in RelevantJobs(missionId, ids, jobs, tenant) <==>
            r.job in db.jobs && VerifyOutcomeFor(r.job, c) && SafeId(c.id)
  {
    var ids, jobs := OwnCandidateIds(missionId, db.candidates, tenant),
        MissionJobs(db.jobs, missionId, db.candidates, tenant);
    OwnCandidateById(db.candidates, c);
    RelevantMember(missionId, ids, jobs, tenant, r);
    MissionJobMember(db.jobs, missionId, db.candidates, tenant, r.job);
    assert c.id in ids;
  }

  /** A verification that no other exceeds is the latest one, keys being unique. */
  lemma {:induction false} SameLatestOutcome(jobs: seq<JobRow>, c: CandidateRow, job: JobRow, verified: Option<JobRow>)
    requires UniqueJobs(jobs) && job in jobs && VerifyOutcomeFor(job, c) && verified == LatestVerify(jobs, c)
    requires verified.Some? ==> KeyLe(JobOutcomeKey(verified.value), JobOutcomeKey(job))
    ensures verified == Some(job)
  {
    LatestVerifyIsGreatest(jobs, c, job);
    KeyOrder(JobOutcomeKey(job), JobOutcomeKey(verified.value));
  }

  /** The resolver and the reconciler agree on the latest verification of a candidate with a safe id. */
  lemma {:induction false} VerifyLatestAgree(db: Db, missionId: string, tenant: string, c: CandidateRow)
    requires KeysOk(db) && c in db.candidates && c.tenant == tenant && c.missionId == missionId
    ensures var facts := MissionFacts(missionId, OwnCandidateIds(missionId, db.candidates, tenant),
                                      MissionJobs(db.jobs, missionId, db.candidates, tenant), tenant);
            var latest := LatestJobs(facts);
            var verified := LatestVerify(db.jobs, c);
            && (VerifyOf(c.id) in latest <==> verified.Some? && SafeId(c.id))
            && (VerifyOf(c.id) in latest ==> latest[VerifyOf(c.id)].status == verified.value.status
                                             && latest[VerifyOf(c.id)].jobType == WebsiteVerify)
  {
    var relevant := RelevantJobs(missionId, OwnCandidateIds(missionId, db.candidates, tenant),
                                 MissionJobs(db.jobs, missionId, db.candidates, tenant), tenant);
    var verified := LatestVerify(db.jobs, c);
    LatestIsGreatestOutcome(relevant, VerifyOf(c.id));
    if verified.Some? { RelevantVerifications(db, missionId, tenant, c, Relevant(verified.value, VerifyOf(c.id))); }
    forall r | r in relevant && r.identity == VerifyOf(c.id) && JobLifecycle.Terminal(r.job.status)
      ensures r.job in db.jobs && VerifyOutcomeFor(r.job, c) && SafeId(c.id)
    {
      RelevantVerifications(db, missionId, tenant, c, r);
    }
    if VerifyOf(c.id) in LatestJobs(OrderedJobFacts(relevant)) {
      var latest := LatestJobs(OrderedJobFacts(relevant))[VerifyOf(c.id)];
      var r :| IsLatest(relevant, VerifyOf(c.id), r) && latest == FactOf(r, latest.order);
      LatestVerifyIsGreatest(db.jobs, c, r.job);
      assert OutcomeLe(Relevant(verified.value, VerifyOf(c.id)), r);
      SameLatestOutcome(db.jobs, c, r.job, verified);
    }
  }

  /** Ids of the mission's candidates, safe to project, whose latest verification failed (not: was cancelled). */
  function LostVerifications(db: Db, missionId: string, tenant: string): set<string> {
    set c | c in db.candidates && c.tenant == tenant && c.missionId == missionId && SafeId(c.id)
            && LatestVerify(db.jobs, c).Some? && LatestVerify(db.jobs, c).value.status.Failed? :: c.id
  }

  lemma {:induction false} VerifyOfIsInjective(ids: set<string>)
    ensures |set id | id in ids :: VerifyOf(id)| == |ids|
  {
    if ids != {} {
      var id :| id in ids;
      VerifyOfIsInjective(ids - {id});
      assert (set x | x in ids :: VerifyOf(x)) == (set x | x in ids - {id} :: VerifyOf(x)) + {VerifyOf(id)};
    }
  }

  /** The resolved number of failed verifications is the number of the mission's candidates in the reconciler's
      list whose latest outcome is failed, not cancelled; candidates whose id is not a safe one are in the list
      but never in the number. */
  lemma {:induction false} VerificationFailuresCounted(db: Db, missionId: string, tenant: string,
      execution: MissionStatus)
    requires KeysOk(db)
    ensures MissionResult(db, missionId, tenant, execution).counts.verificationFailed
        == |LostVerifications(db, missionId, tenant)|
  {
    var ids := OwnCandidateIds(missionId, db.candidates, tenant);
    var jobs := MissionJobs(db.jobs, missionId, db.candidates, tenant);
    var relevant := RelevantJobs(missionId, ids, jobs, tenant);
    var latest := LatestJobs(OrderedJobFacts(relevant));
    var failed := FailedIdentities(latest, t => t == WebsiteVerify);
    var lost := LostVerifications(db, missionId, tenant);
    forall id | id in failed ensures id in (set c | c in lost :: VerifyOf(c)) {
      LatestIsGreatestOutcome(relevant, id);
      var r :| IsLatest(relevant, id, r) && latest[id] == FactOf(r, latest[id].order);
      RelevantMember(missionId, ids, jobs, tenant, r);
      var c :| c in db.candidates && c.tenant == tenant && c.missionId == missionId && VerifyOf(c.id) == id;
      VerifyLatestAgree(db, missionId, tenant, c);
      assert c.id in lost;
    }
    forall id | id in (set c | c in lost :: VerifyOf(c)) ensures id in failed {
      var c :| c in db.candidates && c.tenant == tenant && c.missionId == missionId && SafeId(c.id)
          && VerifyOf(c.id) == id
               && LatestVerify(db.jobs, c).Some? && LatestVerify(db.jobs, c).value.status.Failed?;
      VerifyLatestAgree(db, missionId, tenant, c);
    }
    assert failed == set c | c in lost :: VerifyOf(c);
    VerifyOfIsInjective(lost);
  }

  /** The identifiers the source generates: 32 hexadecimal digits. */
  predicate GeneratedId(s: string) {
    |s| == 32 && forall i :: 0 <= i < |s| ==> '0' <= s[i] <= '9' || 'a' <= s[i] <= 'f'
  }

  lemma {:induction false} GeneratedIdIsSafe(s: string)
    requires GeneratedId(s)
    ensures SafeId(s)
  {
  }

  function FailedVerifications(db: Db, missionId: string, tenant: string): set<string> {
    set c | c in db.candidates && c.tenant == tenant && c.missionId == missionId
            && LatestVerify(db.jobs, c).Some? && LatestVerify(db.jobs, c).value.status.Failed? :: c.id
  }

  /** Candidates get generated identifiers, so none is left out of the number. */
  lemma {:induction false} EveryFailureCounted(db: Db, missionId: string, tenant: string, execution: MissionStatus)
    requires KeysOk(db) && forall c :: c in db.candidates ==> GeneratedId(c.id)
    ensures MissionResult(db, missionId, tenant, execution).counts.verificationFailed
        == |FailedVerifications(db, missionId, tenant)|
  {
    VerificationFailuresCounted(db, missionId, tenant, execution);
    forall c | c in db.candidates ensures SafeId(c.id) {
      GeneratedIdIsSafe(c.id);
    }
    assert LostVerifications(db, missionId, tenant) == FailedVerifications(db, missionId, tenant);
  }

  // ---------------------------------------------------------------------------
  // Overdue missions
  // ---------------------------------------------------------------------------

  predicate Overdue(m: MissionRow, tenant: string, now: Time) {
    m.tenant == tenant && Open(m.status) && m.retro.deadline.Some? && now >= m.retro.deadline.value
  }

  predicate TimesOut(job: JobRow, missionId: string, candidates: seq<CandidateRow>, tenant: string) {
    && job.tenant == tenant && ResultType(job.jobType) && JobLifecycle.Active(job.status)
    && Belongs(job, missionId, candidates, tenant)
  }

  function TimedOutJob(job: JobRow, missionId: string, candidates: seq<CandidateRow>, tenant: string,
      now: Time): JobRow {
    if TimesOut(job, missionId, candidates, tenant)
    then job.(status := JobLifecycle.Status.Failed, errorCode := "mission_timeout", updatedAt := now,
        finishedAt := Some(now))
    else job
  }

  function TimedOutJobs(jobs: seq<JobRow>, missionId: string, candidates: seq<CandidateRow>, tenant: string,
      now: Time): (r: seq<JobRow>)
    ensures |r| == |jobs|
    ensures forall i :: 0 <= i < |jobs| ==> r[i] == TimedOutJob(jobs[i], missionId, candidates, tenant, now)
  {
    seq(|jobs|, i requires 0 <= i < |jobs| => TimedOutJob(jobs[i], missionId, candidates, tenant, now))
  }

  function CountTimeouts(jobs: seq<JobRow>, missionId: string, candidates: seq<CandidateRow>, tenant: string): nat {
    if jobs == [] then 0
    else CountTimeouts(jobs[..|jobs| - 1], missionId, candidates, tenant)
         + if TimesOut(jobs[|jobs| - 1], missionId, candidates, tenant) then 1 else 0
  }

  /** The jobs of the overdue mission are the same rows, none of them active any more. */
  lemma {:induction false} TimeoutEndsMissionJobs(jobs: seq<JobRow>, missionId: string,
      candidates: seq<CandidateRow>, tenant: string, now: Time)
    ensures var after := MissionJobs(TimedOutJobs(jobs, missionId, candidates, tenant, now), missionId, candidates,
        tenant);
            && |after| == |MissionJobs(jobs, missionId, candidates, tenant)|
            && AllTerminal(after)
  {
    if jobs != [] {
      var front := jobs[..|jobs| - 1];
      TimeoutEndsMissionJobs(front, missionId, candidates, tenant, now);
      var all := TimedOutJobs(jobs, missionId, candidates, tenant, now);
      assert all[..|all| - 1] == TimedOutJobs(front, missionId, candidates, tenant, now);
      var last := jobs[|jobs| - 1];
      assert JobLifecycle.Active(last.status) || JobLifecycle.Terminal(last.status);
    }
  }

  /** Enforcing the deadline and then reconciling ends an overdue mission that has a job, whatever those jobs did. */
  lemma {:induction false} TimeoutThenReconcileEnds(db: Db, db1: Db, db2: Db, tenant: string, now: Time, i: nat)
    requires i < |db.missions| && Overdue(db.missions[i], tenant, now)
    requires db1 == db.(jobs := TimedOutJobs(db.jobs, db.missions[i].id, db.candidates, tenant, now))
    requires Reconciled(db1, db2, tenant, now)
    requires MissionJobs(db.jobs, db.missions[i].id, db.candidates, tenant) != []
    ensures Ended(db2.missions[i].status)
  {
    TimeoutEndsMissionJobs(db.jobs, db.missions[i].id, db.candidates, tenant, now);
    OpenMissionEndsIff(db1, db2, tenant, now, i);
  }

  // ---------------------------------------------------------------------------
  // Retrying a verification
  // ---------------------------------------------------------------------------

  /** A completed mission is flagged for another pass, a failed one runs again. */
  function RetriedMission(m: MissionRow): MissionRow {
    if m.status.Completed? then m.(retro := m.retro.(pending := true))
    else if m.status.Failed? then m.(status := Running, finishedAt := None)
    else m
  }

  function Archive(notes: map<NoteKey, Note>, key: NoteKey, now: Time): map<NoteKey, Note> {
    if key in notes then notes[key := notes[key].(status := NoteStatus.Archived, readAt := Some(now))] else notes
  }

  function ArchiveBoth(notes: map<NoteKey, Note>, tenant: string, mission: string, now: Time): map<NoteKey, Note> {
    Archive(Archive(notes, MissionEnded(tenant, mission, Failed), now), MissionEnded(tenant, mission, Completed), now)
  }

  /** The transaction that claims candidate i of mission j for a retry, once its job is queued. */
  function AfterRetry(db: Db, i: nat, j: nat, now: Time): Db
    requires i < |db.candidates| && j < |db.missions|
  {
    if !db.candidates[i].status.NeedsEvidence? then db
    else
      db.(candidates := db.candidates[i := db.candidates[i].(status := Verifying)],
          missions := db.missions[j := RetriedMission(db.missions[j])],
          notes := ArchiveBoth(db.notes, db.missions[j].tenant, db.missions[j].id, now))
  }

  /** Candidate i needs evidence, belongs to mission j, and has its new verification job queued. */
  ghost predicate Retrying(db: Db, i: nat, j: nat, tenant: string, job: JobRow) {
    && i < |db.candidates| && j < |db.missions| && db.candidates[i].status.NeedsEvidence?
    && db.candidates[i].tenant == tenant == db.missions[j].tenant && db.candidates[i].missionId == db.missions[j].id
    && (Open(db.missions[j].status) || Ended(db.missions[j].status))
    && job in db.jobs && job.tenant == tenant && job.jobType.WebsiteVerify? && JobLifecycle.Active(job.status)
    && Field(job.payload, "candidate_id") == JsonText(db.candidates[i].id)
  }

  /** The job that was queued for the claim makes the mission busy. */
  lemma {:induction false} RetryKeepsBusy(db: Db, i: nat, j: nat, tenant: string, now: Time, job: JobRow)
    requires KeysOk(db) && Retrying(db, i, j, tenant, job)
    ensures AnyActive(MissionJobs(db.jobs, db.missions[j].id, AfterRetry(db, i, j, now).candidates, tenant))
  {
    var db1 := AfterRetry(db, i, j, now);
    assert UniqueCandidates(db1.candidates);
    assert db1.candidates[i] in db1.candidates;
    OwnCandidateById(db1.candidates, db1.candidates[i]);
    MissionJobMember(db1.jobs, db1.missions[j].id, db1.candidates, tenant, job);
  }

  lemma {:induction false} NotFinishing(db: Db, tenant: string, j: nat)
    requires UniqueMissions(db.missions) && j < |db.missions| && !PlanFor(db, db.missions[j], tenant).Finish?
    ensures db.missions[j].id !in Finishing(db, tenant, |db.missions|)
  {
  }

  predicate ArchivedOrAbsent(notes: map<NoteKey, Note>, key: NoteKey) {
    key in notes ==> notes[key].status == NoteStatus.Archived
  }

  /** Mission j is open, or completed and flagged for another pass, and neither of its terminal notifications is
      live. */
  ghost predicate HeldOpen(db: Db, j: nat, mission: string, tenant: string) {
    && KeysOk(db) && j < |db.missions| && db.missions[j].id == mission && db.missions[j].tenant == tenant
    && (Open(db.missions[j].status) || (db.missions[j].status.Completed? && db.missions[j].retro.pending))
    && ArchivedOrAbsent(db.notes, MissionEnded(tenant, mission, Completed))
    && ArchivedOrAbsent(db.notes, MissionEnded(tenant, mission, Failed))
  }

  predicate Busy(db: Db, mission: string, tenant: string) {
    AnyActive(MissionJobs(db.jobs, mission, db.candidates, tenant))
  }

  /** Any change of the database that leaves the row of mission j and its two terminal notifications alone. */
  ghost predicate Elsewhere(db: Db, db': Db, j: nat, mission: string, tenant: string) {
    && KeysOk(db') && j < |db.missions| && j < |db'.missions| && db'.missions[j] == db.missions[j]
    && Lookup(db'.notes, MissionEnded(tenant, mission, Completed))
        == Lookup(db.notes, MissionEnded(tenant, mission, Completed))
    && Lookup(db'.notes, MissionEnded(tenant, mission, Failed))
        == Lookup(db.notes, MissionEnded(tenant, mission, Failed))
  }

  ghost predicate Claims(db: Db, db': Db, i: nat, k: nat, now: Time) {
    i < |db.candidates| && k < |db.missions| && db' == AfterRetry(db, i, k, now)
  }

  /** A pass of any tenant, the claim of any candidate for a retry, or a change elsewhere. */
  ghost predicate Follows(db: Db, db': Db, j: nat, mission: string, tenant: string) {
    || (exists t: string, now: Time :: Reconciled(db, db', t, now))
    || (exists i: nat, k: nat, now: Time :: Claims(db, db', i, k, now))
    || Elsewhere(db, db', j, mission, tenant)
  }

  lemma {:induction false} ReconciledKeepsKeys(db: Db, db': Db, tenant: string, now: Time)
    requires KeysOk(db) && Reconciled(db, db', tenant, now)
    ensures KeysOk(db')
  {
    ReconciledIsPartlyRepaired(db, db', tenant, now);
    forall i | 0 <= i < |db.missions| ensures db'.missions[i].id == db.missions[i].id {
    }
  }

  /** A pass does not finish a mission with an active job: its own tenant's leaves it running, or completed with a
      usable candidate. */
  lemma {:induction false} PassWhileBusy(db: Db, db': Db, j: nat, mission: string, tenant: string, later: Time)
    requires HeldOpen(db, j, mission, tenant) && Busy(db, mission, tenant) && Reconciled(db, db', tenant, later)
    ensures PlanFor(db, db.missions[j], tenant).KeepBusy?
    ensures db'.missions[j].status.Running? || (db'.missions[j].status.Completed? && HasUsable(db, mission, tenant))
  {
  }

  lemma {:induction false} PassKeepsRow(db: Db, db': Db, j: nat, mission: string, tenant: string, t: string, now: Time)
    requires HeldOpen(db, j, mission, tenant) && Busy(db, mission, tenant) && Reconciled(db, db', t, now)
    ensures !PlanFor(db, db.missions[j], t).Finish? && j < |db'.missions|
    ensures var m, m' := db.missions[j], db'.missions[j];
            m'.id == m.id && m'.tenant == m.tenant && (Open(m'.status) || (m'.status.Completed? && m'.retro.pending))
  {
    if t == tenant { PassWhileBusy(db, db', j, mission, tenant, now); }
  }

  lemma {:induction false} PassKeepsNote(db: Db, db': Db, j: nat, tenant: string, t: string, now: Time,
      status: MissionStatus)
    requires UniqueMissions(db.missions) && j < |db.missions| && Reconciled(db, db', t, now)
    requires !PlanFor(db, db.missions[j], t).Finish?
    ensures Lookup(db'.notes, MissionEnded(tenant, db.missions[j].id, status))
        == Lookup(db.notes, MissionEnded(tenant, db.missions[j].id, status))
  {
    var key := MissionEnded(tenant, db.missions[j].id, status);
    NotFinishing(db, t, j);
    assert NoteOk(db, db'.missions, db'.notes, t, key, |db.missions|);
  }

  lemma {:induction false} PassHoldsOpen(db: Db, db': Db, j: nat, mission: string, tenant: string, t: string, now: Time)
    requires HeldOpen(db, j, mission, tenant) && Busy(db, mission, tenant) && Reconciled(db, db', t, now)
    ensures HeldOpen(db', j, mission, tenant)
  {
    ReconciledKeepsKeys(db, db', t, now);
    PassKeepsRow(db, db', j, mission, tenant, t, now);
    PassKeepsNote(db, db', j, tenant, t, now, Completed);
    PassKeepsNote(db, db', j, tenant, t, now, Failed);
    assert Lookup(db'.notes, MissionEnded(tenant, mission, Completed))
        == Lookup(db.notes, MissionEnded(tenant, mission, Completed));
    assert Lookup(db'.notes, MissionEnded(tenant, mission, Failed))
        == Lookup(db.notes, MissionEnded(tenant, mission, Failed));
  }

  lemma {:induction false} ClaimKeepsKeys(db: Db, i: nat, k: nat, now: Time)
    requires KeysOk(db) && i < |db.candidates| && k < |db.missions|
    ensures KeysOk(AfterRetry(db, i, k, now))
  {
    var db' := AfterRetry(db, i, k, now);
    forall n | 0 <= n < |db.missions| ensures db'.missions[n].id == db.missions[n].id {
    }
    forall n | 0 <= n < |db.candidates| ensures db'.candidates[n].id == db.candidates[n].id {
    }
  }

  lemma {:induction false} ClaimHoldsOpen(db: Db, i: nat, k: nat, now: Time, j: nat, mission: string, tenant: string)
    requires HeldOpen(db, j, mission, tenant) && i < |db.candidates| && k < |db.missions|
    ensures HeldOpen(AfterRetry(db, i, k, now), j, mission, tenant)
  {
    ClaimKeepsKeys(db, i, k, now);
  }

  lemma {:induction false} StepHoldsOpen(db: Db, db': Db, j: nat, mission: string, tenant: string)
    requires HeldOpen(db, j, mission, tenant) && Busy(db, mission, tenant) && Follows(db, db', j, mission, tenant)
    ensures HeldOpen(db', j, mission, tenant)
  {
    if t: string, now: Time :| Reconciled(db, db', t, now) {
      PassHoldsOpen(db, db', j, mission, tenant, t, now);
    } else if i: nat, k: nat, now: Time :| Claims(db, db', i, k, now) {
      ClaimHoldsOpen(db, i, k, now, j, mission, tenant);
    } else {
      assert Lookup(db'.notes, MissionEnded(tenant, mission, Completed))
          == Lookup(db.notes, MissionEnded(tenant, mission, Completed));
      assert Lookup(db'.notes, MissionEnded(tenant, mission, Failed))
          == Lookup(db.notes, MissionEnded(tenant, mission, Failed));
    }
  }

  ghost predicate BusyStep(history: seq<Db>, k: nat, j: nat, mission: string, tenant: string)
    requires k < |history|
  {
    k + 1 < |history| ==> Busy(history[k], mission, tenant) && Follows(history[k], history[k + 1], j, mission, tenant)
  }

  /** A history of the database in which a job of the mission is active before every step. */
  ghost predicate BusyHistory(history: seq<Db>, j: nat, mission: string, tenant: string) {
    forall k :: 0 <= k < |history| ==> BusyStep(history, k, j, mission, tenant)
  }

  lemma {:induction false} HistoryHoldsOpen(history: seq<Db>, j: nat, mission: string, tenant: string, k: nat)
    requires k < |history| && BusyHistory(history, j, mission, tenant) && HeldOpen(history[0], j, mission, tenant)
    ensures HeldOpen(history[k], j, mission, tenant)
  {
    if k > 0 {
      HistoryHoldsOpen(history, j, mission, tenant, k - 1);
      assert BusyStep(history, k - 1, j, mission, tenant);
      StepHoldsOpen(history[k - 1], history[k], j, mission, tenant);
    }
  }

  lemma {:induction false} ClaimStartsOpen(db: Db, i: nat, j: nat, tenant: string, now: Time)
    requires KeysOk(db) && i < |db.candidates| && j < |db.missions| && db.candidates[i].status.NeedsEvidence?
    requires db.missions[j].tenant == tenant && (Open(db.missions[j].status) || Ended(db.missions[j].status))
    ensures HeldOpen(AfterRetry(db, i, j, now), j, db.missions[j].id, tenant)
  {
    ClaimKeepsKeys(db, i, j, now);
  }

  /** From the claim of a candidate on, through any number of passes of any tenants, further claims and changes
      elsewhere, as long as a job of its mission is active, no pass finishes the mission: each of its own tenant's
      leaves it running, or still completed if it has a usable candidate. */
  lemma {:induction false} RetryReopensMission(db: Db, i: nat, j: nat, tenant: string, now: Time, history: seq<Db>,
      k: nat, later: Time)
    requires KeysOk(db) && i < |db.candidates| && j < |db.missions| && db.candidates[i].status.NeedsEvidence?
    requires db.missions[j].tenant == tenant && (Open(db.missions[j].status) || Ended(db.missions[j].status))
    requires k + 1 < |history| && history[0] == AfterRetry(db, i, j, now)
    requires BusyHistory(history, j, db.missions[j].id, tenant) && Reconciled(history[k], history[k + 1], tenant, later)
    ensures j < |history[k].missions| && j < |history[k + 1].missions|
    ensures PlanFor(history[k], history[k].missions[j], tenant).KeepBusy?
    ensures var m := history[k + 1].missions[j];
            m.status.Running? || (m.status.Completed? && HasUsable(history[k], db.missions[j].id, tenant))
  {
    ClaimStartsOpen(db, i, j, tenant, now);
    HistoryHoldsOpen(history, j, db.missions[j].id, tenant, k);
    assert BusyStep(history, k, j, db.missions[j].id, tenant);
    PassWhileBusy(history[k], history[k + 1], j, db.missions[j].id, tenant, later);
  }

  /** And all that time neither of its terminal notifications is live. */
  lemma {:induction false} RetrySilencesMission(db: Db, i: nat, j: nat, tenant: string, now: Time, history: seq<Db>,
      k: nat)
    requires KeysOk(db) && i < |db.candidates| && j < |db.missions| && db.candidates[i].status.NeedsEvidence?
    requires db.missions[j].tenant == tenant && (Open(db.missions[j].status) || Ended(db.missions[j].status))
    requires k < |history| && history[0] == AfterRetry(db, i, j, now)
        && BusyHistory(history, j, db.missions[j].id, tenant)
    ensures ArchivedOrAbsent(history[k].notes, MissionEnded(tenant, db.missions[j].id, Completed))
    ensures ArchivedOrAbsent(history[k].notes, MissionEnded(tenant, db.missions[j].id, Failed))
  {
    ClaimStartsOpen(db, i, j, tenant, now);
    HistoryHoldsOpen(history, j, db.missions[j].id, tenant, k);
  }

  predicate Stranded(db: Db, c: CandidateRow, missionId: string, tenant: string) {
    c.tenant == tenant && c.missionId == missionId && Unfinished(c.status) && VerificationLost(db.jobs, c)
  }

  lemma {:induction false} RepairedIsNotStranded(db: Db, c: CandidateRow, mission: string, tenant: string,
      finishing: set<string>)
    requires mission in finishing
    ensures !Stranded(db, ReconciledCandidate(db, c, tenant, finishing), mission, tenant)
  {
    SameLatestVerify(db.jobs, c, ReconciledCandidate(db, c, tenant, finishing));
  }

  lemma {:induction false} NoneStranded(db: Db, db': Db, j: nat, tenant: string, now: Time, k: nat)
    requires KeysOk(db) && j < |db.missions| && Reconciled(db, db', tenant, now) && k < |db'.candidates|
    requires PlanFor(db, db.missions[j], tenant).Finish?
    ensures !Stranded(db', db'.candidates[k], db.missions[j].id, tenant)
  {
    FinishingIff(db, tenant, j);
    RepairedIsNotStranded(db, db.candidates[k], db.missions[j].id, tenant, Finishing(db, tenant, |db.missions|));
  }

  lemma {:induction false} ReadyToFinish(db: Db, m: MissionRow, tenant: string)
    requires m.tenant == tenant && (Open(m.status) || (m.status.Completed? && m.retro.pending))
    requires var jobs := MissionJobs(db.jobs, m.id, db.candidates, tenant); jobs != [] && AllTerminal(jobs)
    ensures PlanFor(db, m, tenant) == Finish(false)
  {
    assert !AnyActive(MissionJobs(db.jobs, m.id, db.candidates, tenant));
  }

  /** Once every job of a mission that was retried is terminal, the next pass finishes it, and leaves none of its
      candidates waiting for a verification that was lost. */
  lemma {:induction false} RetriedMissionEnds(db: Db, db': Db, j: nat, tenant: string, now: Time, k: nat)
    requires KeysOk(db) && j < |db.missions| && db.missions[j].tenant == tenant && Reconciled(db, db', tenant, now)
    requires Open(db.missions[j].status) || (db.missions[j].status.Completed? && db.missions[j].retro.pending)
    requires var jobs := MissionJobs(db.jobs, db.missions[j].id, db.candidates, tenant); jobs != [] && AllTerminal(jobs)
    ensures Ended(db'.missions[j].status) && !NeedsBackfill(db'.missions[j])
    ensures k < |db'.candidates| ==> !Stranded(db', db'.candidates[k], db.missions[j].id, tenant)
  {
    ReadyToFinish(db, db.missions[j], tenant);
    StoredResultAgreesWithStatus(db, db', tenant, now, j);
    if k < |db'.candidates| { NoneStranded(db, db', j, tenant, now, k); }
  }

  // ---------------------------------------------------------------------------
  // Provider incidents
  // ---------------------------------------------------------------------------

  const NO_PROVIDER := ProviderRow(Unknown, 0, "", None)

  function AfterSuccess(now: Time): ProviderRow {
    ProviderRow(Healthy, 0, "", Some(now))
  }

  function AfterFailure(p: ProviderRow, code: string): ProviderRow {
    ProviderRow(if p.failures >= 2 then Down else Degraded, p.failures + 1, code, p.lastSuccessAt)
  }

  datatype ProviderEvent = Success(now: Time) | Failure(code: string)

  function ProviderAfter(events: seq<ProviderEvent>): ProviderRow {
    if events == [] then NO_PROVIDER
    else
      var before := ProviderAfter(events[..|events| - 1]);
      match events[|events| - 1]
      case Success(now) => AfterSuccess(now)
      case Failure(code) => AfterFailure(before, code)
  }

  function TrailingFailures(events: seq<ProviderEvent>): nat {
    if events == [] || events[|events| - 1].Success? then 0 else TrailingFailures(events[..|events| - 1]) + 1
  }

  function LastSuccess(events: seq<ProviderEvent>): Option<Time> {
    if events == [] then None
    else if events[|events| - 1].Success? then Some(events[|events| - 1].now)
    else LastSuccess(events[..|events| - 1])
  }

  /** The failure count is the length of the current streak, and the provider is down exactly from three on. */
  lemma {:induction false} ProviderCountsStreak(events: seq<ProviderEvent>)
    ensures var p := ProviderAfter(events);
            && p.failures == TrailingFailures(events) && p.lastSuccessAt == LastSuccess(events)
            && (p.health.Down? <==> TrailingFailures(events) >= 3)
            && (p.health.Healthy? <==> events != [] && TrailingFailures(events) == 0)
  {
    if events != [] {
      ProviderCountsStreak(events[..|events| - 1]);
    }
  }

  /** Somewhere in the history, a streak of three failures followed the success at that time. */
  ghost predicate StreakOfThree(events: seq<ProviderEvent>, since: Option<Time>) {
    exists n :: 0 <= n <= |events| && TrailingFailures(events[..n]) >= 3 && LastSuccess(events[..n]) == since
  }

  lemma {:induction false} StreakExtends(events: seq<ProviderEvent>, e: ProviderEvent, since: Option<Time>)
    ensures var longer := events + [e];
            StreakOfThree(longer, since) <==>
            StreakOfThree(events, since) || (TrailingFailures(longer) >= 3 && LastSuccess(longer) == since)
  {
    var longer := events + [e];
    forall n | 0 <= n <= |events| ensures longer[..n] == events[..n] {
    }
    assert longer[..|longer|] == longer;
  }

  /** The notifications once the current incident of the provider has its own. */
  function EnsuredNotes(db: Db, tenant: string): map<NoteKey, Note> {
    if ProviderIncident(db, tenant) && ProviderDown(tenant, db.providers[tenant].lastSuccessAt) !in db.notes
    then db.notes[ProviderDown(tenant, db.providers[tenant].lastSuccessAt) := PROVIDER_NOTE]
    else db.notes
  }

  lemma {:induction false} EnsuredPointwise(db: Db, tenant: string, key: NoteKey)
    ensures Lookup(EnsuredNotes(db, tenant), key) == NoteAfterProvider(db, tenant, key)
  {
  }

  function ProviderOf(db: Db, tenant: string): ProviderRow {
    if tenant in db.providers then db.providers[tenant] else NO_PROVIDER
  }

  /** One transaction: count the failure and make sure its incident has a notification. */
  function AfterProviderFailure(db: Db, tenant: string, code: string): Db {
    var counted := db.(providers := db.providers[tenant := AfterFailure(ProviderOf(db, tenant), code)]);
    counted.(notes := EnsuredNotes(counted, tenant))
  }

  datatype StoreEvent =
    | CallSucceeded(tenant: string, now: Time)
    | CallFailed(tenant: string, code: string)
    | Pass(tenant: string, now: Time)
    | NoteEdited(key: NoteKey, note: Note)

  /** What an event does to the database; users edit notifications but add none. */
  ghost predicate Happens(db: Db, e: StoreEvent, db': Db) {
    match e
    case CallSucceeded(tenant, now) => db' == db.(providers := db.providers[tenant := AfterSuccess(now)])
    case CallFailed(tenant, code) => db' == AfterProviderFailure(db, tenant, code)
    case Pass(tenant, now) => Reconciled(db, db', tenant, now)
    case NoteEdited(key, note) => key in db.notes && db' == db.(notes := db.notes[key := note])
  }

  /** The calls of one tenant's provider among the events. */
  function Calls(events: seq<StoreEvent>, tenant: string): seq<ProviderEvent> {
    if events == [] then []
    else
      var before := Calls(events[..|events| - 1], tenant);
      match events[|events| - 1]
      case CallSucceeded(t, now) => if t == tenant then before + [Success(now)] else before
      case CallFailed(t, code) => if t == tenant then before + [Failure(code)] else before
      case _ => before
  }

  /** The provider row and the provider notifications of a tenant are those of its calls. */
  ghost predicate ProviderOk(db: Db, tenant: string, calls: seq<ProviderEvent>) {
    && ProviderOf(db, tenant) == ProviderAfter(calls)
    && forall since :: ProviderDown(tenant, since) in db.notes <==> StreakOfThree(calls, since)
  }

  lemma {:induction false} CallFailedKeeps(db: Db, tenant: string, code: string, calls: seq<ProviderEvent>)
    requires ProviderOk(db, tenant, calls)
    ensures ProviderOk(AfterProviderFailure(db, tenant, code), tenant, calls + [Failure(code)])
  {
    var longer := calls + [Failure(code)];
    assert longer[..|calls|] == calls;
    ProviderCountsStreak(longer);
    forall since
      ensures ProviderDown(tenant, since) in AfterProviderFailure(db, tenant, code).notes
          <==> StreakOfThree(longer, since)
    {
      StreakExtends(calls, Failure(code), since);
    }
  }

  lemma {:induction false} CallSucceededKeeps(db: Db, tenant: string, now: Time, calls: seq<ProviderEvent>)
    requires ProviderOk(db, tenant, calls)
    ensures ProviderOk(db.(providers := db.providers[tenant := AfterSuccess(now)]), tenant, calls + [Success(now)])
  {
    var longer := calls + [Success(now)];
    assert longer[..|calls|] == calls;
    forall since ensures StreakOfThree(longer, since) <==> StreakOfThree(calls, since) {
      StreakExtends(calls, Success(now), since);
    }
  }

  /** A pass finds the notification of every incident in place: it leaves the provider's notifications alone. */
  lemma {:induction false} PassKeepsProviderNotes(db: Db, db': Db, tenant: string, now: Time, other: string,
      since: Option<Time>,
                                                  calls: seq<ProviderEvent>)
    requires ProviderOk(db, tenant, calls) && Reconciled(db, db', tenant, now)
    ensures Lookup(db'.notes, ProviderDown(other, since)) == Lookup(db.notes, ProviderDown(other, since))
  {
    assert NoteOk(db, db'.missions, db'.notes, tenant, ProviderDown(other, since), |db.missions|);
    if ProviderIncident(db, tenant) {
      ProviderCountsStreak(calls);
      assert calls[..|calls|] == calls;
      assert StreakOfThree(calls, LastSuccess(calls));
    }
  }

  lemma {:induction false} ProviderStep(db: Db, e: StoreEvent, db': Db, events: seq<StoreEvent>, tenant: string)
    requires Happens(db, e, db') && forall t :: ProviderOk(db, t, Calls(events, t))
    ensures ProviderOk(db', tenant, Calls(events + [e], tenant))
  {
    assert (events + [e])[..|events|] == events;
    var calls := Calls(events, tenant);
    assert ProviderOk(db, tenant, calls);
    match e
    case CallSucceeded(t, now) => if t == tenant { CallSucceededKeeps(db, tenant, now, calls); }
    case CallFailed(t, code) => if t == tenant { CallFailedKeeps(db, tenant, code, calls); }
    case Pass(t, now) =>
      forall since ensures ProviderDown(tenant, since) in db'.notes <==> ProviderDown(tenant, since) in db.notes {
        PassKeepsProviderNotes(db, db', t, now, tenant, since, Calls(events, t));
        assert Lookup(db'.notes, ProviderDown(tenant, since)) == Lookup(db.notes, ProviderDown(tenant, since));
      }
    case NoteEdited(_, _) =>
  }

  ghost predicate TracedAt(dbs: seq<Db>, events: seq<StoreEvent>, k: nat)
    requires |dbs| == |events| + 1 && k < |events|
  {
    Happens(dbs[k], events[k], dbs[k + 1])
  }

  /** The databases before, between and after the events. */
  ghost predicate Traced(dbs: seq<Db>, events: seq<StoreEvent>) {
    |dbs| == |events| + 1 && forall k :: 0 <= k < |events| ==> TracedAt(dbs, events, k)
  }

  ghost predicate NoProviderYet(db: Db) {
    db.providers == map[] && forall key :: key in db.notes ==> !key.ProviderDown?
  }

  lemma {:induction false} NoCallsYet(db: Db, tenant: string)
    requires NoProviderYet(db)
    ensures ProviderOk(db, tenant, [])
  {
    var none: seq<ProviderEvent> := [];
    forall since ensures !StreakOfThree(none, since) {
    }
  }

  lemma {:induction false} PrefixTraced(dbs: seq<Db>, events: seq<StoreEvent>, n: nat)
    requires Traced(dbs, events) && n <= |events|
    ensures Traced(dbs[..n + 1], events[..n])
  {
    var dbs', events' := dbs[..n + 1], events[..n];
    forall k | 0 <= k < n ensures TracedAt(dbs', events', k) {
      assert TracedAt(dbs, events, k);
    }
  }

  lemma {:induction false} ProvidersTraced(dbs: seq<Db>, events: seq<StoreEvent>, tenant: string)
    requires Traced(dbs, events) && NoProviderYet(dbs[0])
    ensures ProviderOk(dbs[|events|], tenant, Calls(events, tenant))
    decreases |events|
  {
    if events == [] {
      NoCallsYet(dbs[0], tenant);
    } else {
      var n := |events| - 1;
      PrefixTraced(dbs, events, n);
      forall t ensures ProviderOk(dbs[n], t, Calls(events[..n], t)) {
        ProvidersTraced(dbs[..n + 1], events[..n], t);
      }
      assert TracedAt(dbs, events, n);
      ProviderStep(dbs[n], events[n], dbs[n + 1], events[..n], tenant);
      assert events[..n] + [events[n]] == events;
    }
  }

  /** Over every history of provider calls, passes of any tenants and edits by users: the failure count is the current
      streak, the provider is down exactly from three failures on, and an incident, named by the last success before
      it, has its notification exactly if a streak of three followed that success. */
  lemma {:induction false} OneNotePerIncident(dbs: seq<Db>, events: seq<StoreEvent>, tenant: string)
    requires Traced(dbs, events) && NoProviderYet(dbs[0])
    ensures var db, calls := dbs[|events|], Calls(events, tenant);
            && ProviderOf(db, tenant).failures == TrailingFailures(calls)
            && (ProviderOf(db, tenant).health.Down? <==> TrailingFailures(calls) >= 3)
            && forall since :: ProviderDown(tenant, since) in db.notes <==> StreakOfThree(calls, since)
  {
    ProvidersTraced(dbs, events, tenant);
    ProviderCountsStreak(Calls(events, tenant));
  }

  predicate Edits(e: StoreEvent, key: NoteKey) {
    e.NoteEdited? && e.key == key
  }

  /** Nothing but an edit by a user replaces or revives the notification of an incident: until one, every later
      database holds the same. */
  lemma {:induction false} IncidentNoteStays(dbs: seq<Db>, events: seq<StoreEvent>, key: NoteKey, first: nat, last: nat)
    requires Traced(dbs, events) && NoProviderYet(dbs[0]) && first <= last <= |events|
    requires key.ProviderDown? && key in dbs[first].notes
    requires forall k :: first <= k < last ==> !Edits(events[k], key)
    ensures key in dbs[last].notes && dbs[last].notes[key] == dbs[first].notes[key]
    decreases last
  {
    if first < last {
      IncidentNoteStays(dbs, events, key, first, last - 1);
      var n := last - 1;
      assert TracedAt(dbs, events, n) && !Edits(events[n], key);
      if events[n].Pass? {
        PrefixTraced(dbs, events, n);
        ProvidersTraced(dbs[..n + 1], events[..n], events[n].tenant);
        PassKeepsProviderNotes(dbs[n], dbs[last], events[n].tenant, events[n].now, key.tenant, key.since,
            Calls(events[..n], events[n].tenant));
      }
      assert Lookup(dbs[last].notes, key) == Lookup(dbs[n].notes, key);
    }
  }

  // ---------------------------------------------------------------------------
  // The database
  // ---------------------------------------------------------------------------

  /** The facts the resolver is given: the candidates of one mission as they are stored now. */
  function StoredFacts(candidates: seq<CandidateRow>, evidence: map<string, nat>, missionId: string,
      tenant: string): seq<CandidateFact> {
    if candidates == [] then []
    else
      var c := candidates[0];
      var rest := StoredFacts(candidates[1..], evidence, missionId, tenant);
      if c.tenant == tenant && c.missionId == missionId
      then [CandidateFact(c.id, c.status, EvidenceCount(evidence, c.id))] + rest
      else rest
  }

  function Resolved(candidates: seq<CandidateRow>, evidence: map<string, nat>, missionJobs: seq<JobRow>,
      missionId: string,
                    tenant: string, execution: MissionStatus): BusinessResult
  {
    ResultOf(Facts(execution, StoredFacts(candidates, evidence, missionId, tenant),
                   MissionFacts(missionId, OwnCandidateIds(missionId, candidates, tenant), missionJobs, tenant)))
  }

  lemma {:induction false} RepairedFactsAreStored(db: Db, a: seq<CandidateRow>, b: seq<CandidateRow>,
      missionId: string, tenant: string)
    requires SameOwners(a, b)
    requires forall i ::
        0 <= i < |a| && a[i].tenant == tenant && a[i].missionId == missionId
        ==> b[i] == RepairedCandidate(db, a[i])
    ensures StoredFacts(b, db.evidence, missionId, tenant) == CandidateFacts(db, a, missionId, tenant)
  {
    if a != [] {
      assert a[0].id == b[0].id && a[0].tenant == b[0].tenant && a[0].missionId == b[0].missionId;
      assert SameOwners(a[1..], b[1..]);
      RepairedFactsAreStored(db, a[1..], b[1..], missionId, tenant);
    }
  }

  /** Candidates after the missions visited so far: repaired where their mission is finished. */
  ghost predicate CandidatesUpTo(db: Db, candidates: seq<CandidateRow>, tenant: string, finished: set<string>) {
    && |candidates| == |db.candidates|
    && forall i :: 0 <= i < |candidates|
        ==> candidates[i] == ReconciledCandidate(db, db.candidates[i], tenant, finished)
  }

  /** With its own candidates repaired, resolving a mission from the stored rows gives its result of the pass. */
  lemma {:induction false} ResolvedIsMissionResult(db: Db, candidates: seq<CandidateRow>, tenant: string,
      finished: set<string>, missionId: string,
                                execution: MissionStatus)
    requires CandidatesUpTo(db, candidates, tenant, finished) && missionId in finished
    ensures Resolved(candidates, db.evidence, MissionJobs(db.jobs, missionId, db.candidates, tenant), missionId,
        tenant, execution)
         == MissionResult(db, missionId, tenant, execution)
  {
    assert PartlyRepaired(db, candidates);
    PartlyRepairedOwners(db, candidates);
    SameOwnIds(missionId, db.candidates, candidates, tenant);
    RepairedFactsAreStored(db, db.candidates, candidates, missionId, tenant);
  }

  lemma {:induction false} UsableUpTo(db: Db, candidates: seq<CandidateRow>, tenant: string, finished: set<string>,
      missionId: string)
    requires CandidatesUpTo(db, candidates, tenant, finished)
    ensures AnyUsable(candidates, missionId, tenant) <==> HasUsable(db, missionId, tenant)
  {
    assert PartlyRepaired(db, candidates);
    RepairsKeepUsable(db, candidates, missionId, tenant);
  }

  function EndNotes(notes: map<NoteKey, Note>, m: MissionRow): map<NoteKey, Note>
    requires m.retro.result.Some?
  {
    var stale := MissionEnded(m.tenant, m.id, Opposite(m.status));
    var archived := if stale in notes then notes[stale := notes[stale].(status := Archived)] else notes;
    archived[MissionEnded(m.tenant, m.id, m.status) := EndNote(m)]
  }

  lemma {:induction false} EndNotesPointwise(notes: map<NoteKey, Note>, m: MissionRow, key: NoteKey)
    requires m.retro.result.Some? && Ended(m.status)
    ensures Lookup(EndNotes(notes, m), key) == NoteAfterFinish(Lookup(notes, key), key, m)
  {
  }

  function AfterRepair(c: CandidateRow, lost: set<string>, missionId: string, tenant: string): CandidateRow {
    if c.id in lost && c.tenant == tenant && c.missionId == missionId && Unfinished(c.status)
    then c.(status := NeedsEvidence) else c
  }

  ghost predicate NotesOk(db: Db, missions: seq<MissionRow>, notes: map<NoteKey, Note>, tenant: string, n: nat)
    requires n <= |db.missions| == |missions|
  {
    forall key :: NoteOk(db, missions, notes, tenant, key, n)
  }

  ghost predicate MissionsUpTo(db: Db, missions: seq<MissionRow>, tenant: string, now: Time, n: nat)
    requires n <= |db.missions|
  {
    && |missions| == |db.missions|
    && (forall k :: 0 <= k < n ==> missions[k] == ReconciledMission(db, db.missions[k], tenant, now))
    && (forall k :: n <= k < |missions| ==> missions[k] == db.missions[k])
  }

  /** Where the pass stands after visiting the first n missions of the database it started from. */
  ghost predicate Visited(db: Db, at: Db, n: nat, tenant: string, now: Time)
    requires n <= |db.missions|
  {
    && at.jobs == db.jobs && at.evidence == db.evidence && at.providers == db.providers
    && MissionsUpTo(db, at.missions, tenant, now, n)
    && CandidatesUpTo(db, at.candidates, tenant, Finishing(db, tenant, n))
    && NotesOk(db, at.missions, at.notes, tenant, n)
  }

  lemma {:induction false} FinishingNext(db: Db, tenant: string, n: nat)
    requires n < |db.missions|
    ensures Finishing(db, tenant, n + 1) ==
            if PlanFor(db, db.missions[n], tenant).Finish? then Finishing(db, tenant, n) + {db.missions[n].id}
            else Finishing(db, tenant, n)
  {
  }

  /** A mission that is not finished leaves every notification right. */
  lemma {:induction false} NotesKept(db: Db, before: seq<MissionRow>, after: seq<MissionRow>, notes: map<NoteKey,
      Note>, tenant: string, n: nat)
    requires n < |db.missions| == |before| == |after| && !PlanFor(db, db.missions[n], tenant).Finish?
    requires forall k :: 0 <= k < n ==> after[k] == before[k]
    requires NotesOk(db, before, notes, tenant, n)
    ensures NotesOk(db, after, notes, tenant, n + 1)
  {
    FinishingNext(db, tenant, n);
    var next := n + 1;
    forall key ensures NoteOk(db, after, notes, tenant, key, next) {
      assert NoteOk(db, before, notes, tenant, key, n);
    }
  }

  lemma {:induction false} NoteAfterOneFinish(db: Db, before: seq<MissionRow>, after: seq<MissionRow>,
      notes: map<NoteKey, Note>,
                                              tenant: string, n: nat, key: NoteKey)
    requires UniqueMissions(db.missions) && n < |db.missions| == |before| == |after|
    requires PlanFor(db, db.missions[n], tenant).Finish? && after[n].retro.result.Some? && Ended(after[n].status)
    requires after[n].id == db.missions[n].id
    requires forall k :: 0 <= k < n ==> after[k] == before[k]
    requires NoteOk(db, before, notes, tenant, key, n)
    ensures NoteOk(db, after, EndNotes(notes, after[n]), tenant, key, n + 1)
  {
    FinishingNext(db, tenant, n);
    EndNotesPointwise(notes, after[n], key);
    assert after[n].id !in Finishing(db, tenant, n);
  }

  /** Finishing a mission updates exactly its own two notifications. */
  lemma {:induction false} NotesAfterFinish(db: Db, before: seq<MissionRow>, after: seq<MissionRow>,
      notes: map<NoteKey, Note>,
                                            tenant: string, n: nat)
    requires UniqueMissions(db.missions) && n < |db.missions| == |before| == |after|
    requires PlanFor(db, db.missions[n], tenant).Finish? && after[n].retro.result.Some? && Ended(after[n].status)
    requires after[n].id == db.missions[n].id
    requires forall k :: 0 <= k < n ==> after[k] == before[k]
    requires NotesOk(db, before, notes, tenant, n)
    ensures NotesOk(db, after, EndNotes(notes, after[n]), tenant, n + 1)
  {
    var next, notes' := n + 1, EndNotes(notes, after[n]);
    forall key ensures NoteOk(db, after, notes', tenant, key, next) {
      NoteAfterOneFinish(db, before, after, notes, tenant, n, key);
    }
  }

  lemma {:induction false} VisitLeaves(db: Db, at: Db, n: nat, tenant: string, now: Time)
    requires n < |db.missions| && Visited(db, at, n, tenant, now) && PlanFor(db, db.missions[n], tenant).Leave?
    ensures Visited(db, at, n + 1, tenant, now)
  {
    FinishingNext(db, tenant, n);
    NotesKept(db, at.missions, at.missions, at.notes, tenant, n);
  }

  lemma {:induction false} VisitKeepsBusy(db: Db, at: Db, n: nat, tenant: string, now: Time, m: MissionRow)
    requires n < |db.missions| && Visited(db, at, n, tenant, now) && PlanFor(db, db.missions[n], tenant).KeepBusy?
    requires m == ReconciledMission(db, db.missions[n], tenant, now)
    ensures Visited(db, at.(missions := at.missions[n := m]), n + 1, tenant, now)
  {
    FinishingNext(db, tenant, n);
    NotesKept(db, at.missions, at.missions[n := m], at.notes, tenant, n);
  }

  lemma {:induction false} FinishedRowOk(db: Db, m: MissionRow, tenant: string, now: Time)
    requires PlanFor(db, m, tenant).Finish?
    ensures var m' := ReconciledMission(db, m, tenant, now); m'.retro.result.Some? && Ended(m'.status) && m'.id == m.id
  {
  }

  lemma {:induction false} MissionsUpToNext(db: Db, missions: seq<MissionRow>, tenant: string, now: Time, n: nat)
    requires n < |db.missions| && MissionsUpTo(db, missions, tenant, now, n)
    ensures MissionsUpTo(db, missions[n := ReconciledMission(db, db.missions[n], tenant, now)], tenant, now, n + 1)
  {
  }

  lemma {:induction false} VisitFinishes(db: Db, at: Db, n: nat, tenant: string, now: Time, m: MissionRow,
      candidates: seq<CandidateRow>)
    requires UniqueMissions(db.missions) && n < |db.missions| && Visited(db, at, n, tenant, now)
    requires PlanFor(db, db.missions[n], tenant).Finish?
    requires m == ReconciledMission(db, db.missions[n], tenant, now) && m.retro.result.Some?
    requires CandidatesUpTo(db, candidates, tenant, Finishing(db, tenant, n) + {m.id})
    ensures Visited(db, at.(missions := at.missions[n := m], candidates := candidates, notes := EndNotes(at.notes, m)),
                    n + 1, tenant, now)
  {
    FinishingNext(db, tenant, n);
    FinishedRowOk(db, db.missions[n], tenant, now);
    MissionsUpToNext(db, at.missions, tenant, now, n);
    NotesAfterFinish(db, at.missions, at.missions[n := m], at.notes, tenant, n);
  }

  ghost predicate LostOk(db: Db, lost: set<string>, tenant: string) {
    forall c :: c in db.candidates && c.tenant == tenant ==> (c.id in lost <==> VerificationLost(db.jobs, c))
  }

  ghost predicate ChosenOk(db: Db, chosen: set<string>, tenant: string) {
    forall k :: 0 <= k < |db.missions| ==> (db.missions[k].id in chosen <==> Selected(db, db.missions[k], tenant))
  }

  /** The repair loop takes the candidates of one more mission along. */
  lemma {:induction false} RepairExtends(db: Db, before: seq<CandidateRow>, after: seq<CandidateRow>, tenant: string,
      finished: set<string>,
                      missionId: string, lost: set<string>)
    requires CandidatesUpTo(db, before, tenant, finished) && |after| == |before|
    requires LostOk(db, lost, tenant)
    requires forall k :: 0 <= k < |after| ==> after[k] == AfterRepair(before[k], lost, missionId, tenant)
    ensures CandidatesUpTo(db, after, tenant, finished + {missionId})
  {
    forall k | 0 <= k < |after|
        ensures after[k] == ReconciledCandidate(db, db.candidates[k], tenant, finished + {missionId}) {
      assert db.candidates[k] in db.candidates;
      assert before[k] == ReconciledCandidate(db, db.candidates[k], tenant, finished);
    }
  }

  lemma {:induction false} VisitStarts(db: Db, at: Db, tenant: string, now: Time)
    requires at == db.(notes := at.notes)
    requires forall key :: Lookup(at.notes, key) == NoteAfterProvider(db, tenant, key)
    ensures Visited(db, at, 0, tenant, now)
  {
    assert Finishing(db, tenant, 0) == {};
  }

  lemma {:induction false} SameJobsUpTo(db: Db, candidates: seq<CandidateRow>, tenant: string, finished: set<string>,
      missionId: string)
    requires CandidatesUpTo(db, candidates, tenant, finished)
    ensures MissionJobs(db.jobs, missionId, candidates, tenant)
        == MissionJobs(db.jobs, missionId, db.candidates, tenant)
  {
    assert PartlyRepaired(db, candidates);
    PartlyRepairedOwners(db, candidates);
    SameMissionJobs(db.jobs, missionId, db.candidates, candidates, tenant);
  }

  /** A finished mission row, resolved from the stored candidates. */
  function FinishedRow(m: MissionRow, candidates: seq<CandidateRow>, evidence: map<string, nat>,
      missionJobs: seq<JobRow>,
                       withoutJobs: bool, now: Time): (r: MissionRow)
    ensures r.retro.result.Some?
  {
    var first := Resolved(candidates, evidence, missionJobs, m.id, m.tenant, m.status);
    var status := if withoutJobs then m.status else if first.counts.failedJobs > 0 then Failed else Completed;
    m.(status := status,
       retro := m.retro.(pending := false,
           result := Some(Resolved(candidates, evidence, missionJobs, m.id, m.tenant, status))),
       finishedAt := Some(now))
  }

  lemma {:induction false} FinishedRowIsFinishedMission(db: Db, candidates: seq<CandidateRow>, tenant: string,
      finished: set<string>, m: MissionRow,
                                     missionJobs: seq<JobRow>, withoutJobs: bool, now: Time)
    requires CandidatesUpTo(db, candidates, tenant, finished) && m.id in finished && m.tenant == tenant
    requires missionJobs == MissionJobs(db.jobs, m.id, db.candidates, tenant)
    ensures FinishedRow(m, candidates, db.evidence, missionJobs, withoutJobs, now)
        == FinishedMission(db, m, tenant, now, withoutJobs)
  {
    ResolvedIsMissionResult(db, candidates, tenant, finished, m.id, m.status);
    ResolvedIsMissionResult(db, candidates, tenant, finished, m.id, FinalStatus(db, m, tenant, withoutJobs));
  }

  function RepairedStates(candidates: seq<CandidateRow>, lost: set<string>, missionId: string,
      tenant: string): seq<CandidateRow> {
    seq(|candidates|, k requires 0 <= k < |candidates| => AfterRepair(candidates[k], lost, missionId, tenant))
  }

  /** Repairing the candidates of a mission, resolving it and storing the outcome is its turn of the pass. */
  lemma {:induction false} VisitFinishedRow(db: Db, at: Db, i: nat, withoutJobs: bool, missionJobs: seq<JobRow>,
      lost: set<string>, tenant: string, now: Time)
    requires UniqueMissions(db.missions) && i < |db.missions| && Visited(db, at, i, tenant, now)
    requires PlanFor(db, db.missions[i], tenant) == Finish(withoutJobs)
    requires missionJobs == MissionJobs(db.jobs, db.missions[i].id, db.candidates, tenant)
    requires LostOk(db, lost, tenant)
    ensures var candidates := RepairedStates(at.candidates, lost, at.missions[i].id, tenant);
            var m := FinishedRow(at.missions[i], candidates, at.evidence, missionJobs, withoutJobs, now);
            Visited(db, at.(missions := at.missions[i := m], candidates := candidates, notes := EndNotes(at.notes, m)),
                    i + 1, tenant, now)
  {
    var m0 := db.missions[i];
    var finished := Finishing(db, tenant, i);
    var candidates := RepairedStates(at.candidates, lost, m0.id, tenant);
    RepairExtends(db, at.candidates, candidates, tenant, finished, m0.id, lost);
    FinishedRowIsFinishedMission(db, candidates, tenant, finished + {m0.id}, m0, missionJobs, withoutJobs, now);
    VisitFinishes(db, at, i, tenant, now, FinishedMission(db, m0, tenant, now, withoutJobs), candidates);
  }

  lemma {:induction false} SelectionIgnoresNotes(db: Db, at: Db, tenant: string, m: MissionRow)
    requires at == db.(notes := at.notes)
    ensures Selected(at, m, tenant) <==> Selected(db, m, tenant)
  {
    assert Repairable(at, m.id, tenant) <==> Repairable(db, m.id, tenant);
  }

  class AcquisitionStore {
    var missions: seq<MissionRow>
    var candidates: seq<CandidateRow>
    var jobs: seq<JobRow>
    var evidence: map<string, nat>
    var providers: map<string, ProviderRow>
    var notes: map<NoteKey, Note>

    ghost function Snapshot(): Db
      reads this
    {
      Db(missions, candidates, jobs, evidence, providers, notes)
    }

    /** Make sure the current incident of the provider has its notification. */
    method EnsureProviderNotification(tenant: string)
      modifies `notes
      ensures notes == EnsuredNotes(old(Snapshot()), tenant)
    {
      if tenant in providers && providers[tenant].health.Down? && providers[tenant].failures >= 3 {
        var key := ProviderDown(tenant, providers[tenant].lastSuccessAt);
        if key !in notes {
          notes := notes[key := PROVIDER_NOTE];
        }
      }
    }

    /** One transaction of a successful provider call; a failure before it makes it a recovery. */
    method ReportProviderSuccess(tenant: string, now: Time) returns (recovered: bool)
      modifies `providers
      ensures Happens(old(Snapshot()), CallSucceeded(tenant, now), Snapshot())
      ensures recovered <==> ProviderOf(old(Snapshot()), tenant).failures > 0
    {
      recovered := tenant in providers && providers[tenant].failures > 0;
      RecordProviderSuccess(tenant, now);
    }

    method RecordProviderSuccess(tenant: string, now: Time)
      modifies `providers
      ensures providers == old(providers)[tenant := AfterSuccess(now)]
    {
      providers := providers[tenant := ProviderRow(Healthy, 0, "", Some(now))];
    }

    /** One transaction of a failed provider call. */
    method ReportProviderFailure(tenant: string, code: string)
      modifies `providers, `notes
      ensures Happens(old(Snapshot()), CallFailed(tenant, code), Snapshot())
    {
      RecordProviderFailure(tenant, code);
      EnsureProviderNotification(tenant);
    }

    method RecordProviderFailure(tenant: string, code: string)
      modifies `providers
      ensures providers == old(providers)[tenant := AfterFailure(ProviderOf(old(Snapshot()), tenant), code)]
    {
      var before := if tenant in providers then providers[tenant] else NO_PROVIDER;
      var failures := before.failures + 1;
      var health := if failures >= 3 then Down else Degraded;
      providers := providers[tenant := ProviderRow(health, failures, code, before.lastSuccessAt)];
    }

    /** The repair loop over the failed verifications, restricted to one mission. */
    method RepairCandidates(lost: set<string>, missionId: string, tenant: string)
      modifies `candidates
      ensures |candidates| == |old(candidates)|
      ensures forall k ::
          0 <= k < |candidates|
          ==> candidates[k] == AfterRepair(old(candidates)[k], lost, missionId, tenant)
    {
      for i := 0 to |candidates|
        invariant |candidates| == |old(candidates)|
        invariant forall k :: 0 <= k < i ==> candidates[k] == AfterRepair(old(candidates)[k], lost, missionId, tenant)
        invariant forall k :: i <= k < |candidates| ==> candidates[k] == old(candidates)[k]
      {
        var c := candidates[i];
        if c.id in lost && c.tenant == tenant && c.missionId == missionId
            && (c.status.Discovered? || c.status.Verifying?) {
          candidates := candidates[i := c.(status := NeedsEvidence)];
        }
      }
    }

    method ResolveMission(missionId: string, tenant: string, execution: MissionStatus, missionJobs: seq<JobRow>)
      returns (result: BusinessResult)
      ensures result == Resolved(candidates, evidence, missionJobs, missionId, tenant, execution)
    {
      var facts := MissionJobFacts(missionId, OwnCandidateIds(missionId, candidates, tenant), missionJobs, tenant);
      result := Resolve(Facts(execution, StoredFacts(candidates, evidence, missionId, tenant), facts));
    }

    /** Archive the notification of the opposite status and write the current one. */
    method RenewNotes(m: MissionRow, result: BusinessResult)
      requires Ended(m.status) && m.retro.result == Some(result)
      modifies `notes
      ensures notes == EndNotes(old(notes), m)
    {
      var stale := MissionEnded(m.tenant, m.id, if m.status.Completed? then Failed else Completed);
      if stale in notes {
        notes := notes[stale := notes[stale].(status := NoteStatus.Archived)];
      }
      notes := notes[MissionEnded(m.tenant, m.id, m.status) := Note(EndKind(result.code), m.name, Some(result),
          Unread, None)];
    }

    /** Resolve, write the status, resolve again if it changed, store the result, renew the notifications. */
    method FinishMission(i: nat, withoutJobs: bool, missionJobs: seq<JobRow>, now: Time)
      requires i < |missions| && (withoutJobs ==> Ended(missions[i].status))
      modifies `missions, `notes
      ensures var m := FinishedRow(old(missions)[i], candidates, evidence, missionJobs, withoutJobs, now);
              missions == old(missions)[i := m] && notes == EndNotes(old(notes), m)
    {
      var m := missions[i];
      var result := ResolveMission(m.id, m.tenant, m.status, missionJobs);
      var next := if withoutJobs then m.status else if result.counts.failedJobs > 0 then Failed else Completed;
      if m.status != next {
        m := m.(status := next);
        result := ResolveMission(m.id, m.tenant, m.status, missionJobs);
      }
      m := m.(retro := m.retro.(pending := false, result := Some(result)), finishedAt := Some(now));
      missions := missions[i := m];
      RenewNotes(m, result);
    }

    /** Claim a candidate for a retry: the conditional row update, then the notifications and the mission. */
    method ClaimForRetry(i: nat, j: nat, now: Time) returns (claimed: bool)
      requires i < |candidates| && j < |missions|
      modifies `missions, `candidates, `notes
      ensures Snapshot() == AfterRetry(old(Snapshot()), i, j, now)
      ensures claimed <==> old(candidates)[i].status.NeedsEvidence?
    {
      claimed := candidates[i].status == NeedsEvidence;
      if !claimed {
        return;
      }
      candidates := candidates[i := candidates[i].(status := Verifying)];
      var m := missions[j];
      notes := Archive(notes, MissionEnded(m.tenant, m.id, Failed), now);
      notes := Archive(notes, MissionEnded(m.tenant, m.id, Completed), now);
      if m.status == Completed {
        missions := missions[j := m.(retro := m.retro.(pending := true))];
      } else if m.status == Failed {
        missions := missions[j := m.(status := Running, finishedAt := None)];
      } else {
        assert missions == missions[j := m];
      }
    }

    /** Fail the active jobs of an overdue mission. */
    method EnforceMissionTimeout(i: nat, tenant: string, now: Time) returns (timedOut: nat)
      requires i < |missions|
      modifies `jobs
      ensures jobs == if Overdue(missions[i], tenant, now)
                      then TimedOutJobs(old(jobs), missions[i].id, candidates, tenant, now) else old(jobs)
      ensures timedOut == if Overdue(missions[i], tenant, now)
                          then CountTimeouts(old(jobs), missions[i].id, candidates, tenant) else 0
    {
      timedOut := 0;
      var m := missions[i];
      if m.tenant != tenant || !(m.status.Queued? || m.status.Running?) || m.retro.deadline.None?
          || now < m.retro.deadline.value {
        return;
      }
      for k := 0 to |jobs|
        invariant |jobs| == |old(jobs)|
        invariant forall n :: 0 <= n < k ==> jobs[n] == TimedOutJob(old(jobs)[n], m.id, candidates, tenant, now)
        invariant forall n :: k <= n < |jobs| ==> jobs[n] == old(jobs)[n]
        invariant timedOut == CountTimeouts(old(jobs)[..k], m.id, candidates, tenant)
      {
        assert old(jobs)[..k + 1][..k] == old(jobs)[..k];
        var child := jobs[k];
        if child.tenant != tenant || !ResultType(child.jobType) || !JobLifecycle.Active(child.status)
           || !Belongs(child, m.id, candidates, tenant) {
          continue;
        }
        jobs := jobs[k := child.(status := JobLifecycle.Status.Failed, errorCode := "mission_timeout",
                                 updatedAt := now, finishedAt := Some(now))];
        timedOut := timedOut + 1;
      }
      assert old(jobs)[..|jobs|] == old(jobs);
      assert jobs == TimedOutJobs(old(jobs), m.id, candidates, tenant, now);
    }

    /** The missions the pass looks at. */
    method ChooseMissions(tenant: string, lost: set<string>) returns (chosen: set<string>)
      requires UniqueMissions(missions)
      requires forall c :: c in candidates && c.tenant == tenant ==> (c.id in lost <==> VerificationLost(jobs, c))
      ensures forall k ::
          0 <= k < |missions|
          ==> (missions[k].id in chosen <==> Selected(Snapshot(), missions[k], tenant))
    {
      var repairable := set c | c in candidates && c.tenant == tenant && c.id in lost
          && Unfinished(c.status) :: c.missionId;
      assert forall id :: id in repairable <==> Repairable(Snapshot(), id, tenant);
      chosen := set m | m in missions && m.tenant == tenant &&
        (Open(m.status) || (Ended(m.status) && (m.id in repairable || NeedsBackfill(m)))) :: m.id;
    }

    /** A mission with active jobs runs, unless it is completed with a usable candidate. */
    method KeepBusy(i: nat, tenant: string)
      requires i < |missions|
      modifies `missions
      ensures missions == old(missions)[i := old(missions)[i].(status := BusyStatus(Snapshot(), old(missions)[i],
          tenant))]
    {
      var m := missions[i];
      var usable := AnyUsable(candidates, m.id, tenant);
      if m.status != Completed || !usable {
        missions := missions[i := m.(status := Running)];
      } else {
        assert missions == missions[i := m];
      }
    }

    /** One turn of the loop over the missions. */
    method VisitMission(ghost db: Db, i: nat, selected: bool, lost: set<string>, tenant: string,
        now: Time) returns (finished: bool)
      requires UniqueMissions(db.missions) && i < |db.missions| && Visited(db, Snapshot(), i, tenant, now)
      requires selected <==> Selected(db, db.missions[i], tenant)
      requires LostOk(db, lost, tenant)
      modifies `missions, `candidates, `notes
      ensures Visited(db, Snapshot(), i + 1, tenant, now)
      ensures finished <==> PlanFor(db, db.missions[i], tenant).Finish?
    {
      ghost var at := Snapshot();
      ghost var m0 := db.missions[i];
      var m := missions[i];
      assert m == m0;
      SameJobsUpTo(db, candidates, tenant, Finishing(db, tenant, i), m.id);
      var missionJobs := MissionJobs(jobs, m.id, candidates, tenant);
      var withoutJobs := missionJobs == [] && Ended(m.status) && NeedsBackfill(m);
      finished := false;
      if !selected || (missionJobs == [] && !withoutJobs) {
        VisitLeaves(db, at, i, tenant, now);
        return;
      }
      if AnyActive(missionJobs) {
        UsableUpTo(db, candidates, tenant, Finishing(db, tenant, i), m.id);
        VisitKeepsBusy(db, at, i, tenant, now, ReconciledMission(db, m0, tenant, now));
        KeepBusy(i, tenant);
        return;
      }
      VisitFinishedRow(db, at, i, withoutJobs, missionJobs, lost, tenant, now);
      RepairAndFinish(i, withoutJobs, missionJobs, lost, tenant, now);
      finished := true;
    }

    /** Repair the candidates of one mission and finish it. */
    method RepairAndFinish(i: nat, withoutJobs: bool, missionJobs: seq<JobRow>, lost: set<string>, tenant: string,
        now: Time)
      requires i < |missions| && (withoutJobs ==> Ended(missions[i].status))
      modifies `missions, `candidates, `notes
      ensures candidates == RepairedStates(old(candidates), lost, old(missions)[i].id, tenant)
      ensures var m := FinishedRow(old(missions)[i], candidates, evidence, missionJobs, withoutJobs, now);
              missions == old(missions)[i := m] && notes == EndNotes(old(notes), m)
    {
      RepairCandidates(lost, missions[i].id, tenant);
      FinishMission(i, withoutJobs, missionJobs, now);
    }

    /** The reconciler. Every row ends as `Reconciled` says, whatever the order of the missions, and the number
        returned is the number of missions finished. */
    method ReconcileMissions(tenant: string, now: Time) returns (changed: nat)
      requires KeysOk(Snapshot())
      modifies `missions, `candidates, `notes
      ensures Reconciled(old(Snapshot()), Snapshot(), tenant, now)
      ensures changed == CountFinishes(old(Snapshot()), tenant, |old(missions)|)
    {
      ghost var db := Snapshot();
      EnsureProviderNotification(tenant);
      forall key ensures Lookup(notes, key) == NoteAfterProvider(db, tenant, key) {
        EnsuredPointwise(db, tenant, key);
      }
      var lost := FailedVerificationCandidates(jobs, candidates, tenant);
      var chosen := ChooseMissions(tenant, lost);
      forall k | 0 <= k < |missions| ensures missions[k].id in chosen <==> Selected(db, missions[k], tenant) {
        SelectionIgnoresNotes(db, Snapshot(), tenant, missions[k]);
      }
      VisitStarts(db, Snapshot(), tenant, now);
      changed := VisitMissions(db, chosen, lost, tenant, now);
    }

    /** The loop over the missions. */
    method VisitMissions(ghost db: Db, chosen: set<string>, lost: set<string>, tenant: string,
        now: Time) returns (changed: nat)
      requires UniqueMissions(db.missions) && |missions| == |db.missions| && Visited(db, Snapshot(), 0, tenant, now)
      requires ChosenOk(db, chosen, tenant)
      requires LostOk(db, lost, tenant)
      modifies `missions, `candidates, `notes
      ensures |missions| == |db.missions| && Visited(db, Snapshot(), |db.missions|, tenant, now)
      ensures changed == CountFinishes(db, tenant, |db.missions|)
    {
      changed := 0;
      for i := 0 to |missions|
        invariant |missions| == |db.missions|
        invariant Visited(db, Snapshot(), i, tenant, now)
        invariant changed == CountFinishes(db, tenant, i)
      {
        var finished := VisitMission(db, i, missions[i].id in chosen, lost, tenant, now);
        if finished {
          changed := changed + 1;
        }
      }
    }
  }
}
