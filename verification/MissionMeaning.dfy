/**
 What a pass of the reconciler does, in terms of the stored rows: which jobs concern a mission, when it ends, and which
 of its candidates are repaired.
 */
module MissionMeaning {
  import opened Common
  import opened AcquisitionRows
  import opened TextMeaning
  import opened Ordering
  import opened MissionResults
  import opened BusinessResults
  import opened ResultMeaning
  import opened MissionReconcile
  import JobLifecycle

  // ---------------------------------------------------------------------------
  // Which jobs concern a mission
  // ---------------------------------------------------------------------------

  /** The payload is an object with that text in that field. */
  predicate Tells(job: JobRow, field: string, text: string) {
    job.payload.Object? && field in job.payload.fields && job.payload.fields[field] == JsonText(text)
  }

  predicate Acquires(t: JobType) {
    t == AcquisitionPlan || t == WebDiscovery || t == WebsiteVerify || t == CandidateAssess
  }

  predicate OwnCandidate(c: CandidateRow, mission: string, tenant: string) {
    c.tenant == tenant && c.missionId == mission
  }

  /** An acquisition job of the tenant that names the mission, or one of the candidates of the mission. */
  ghost predicate Concerns(job: JobRow, mission: string, tenant: string, candidates: seq<CandidateRow>) {
    && job.tenant == tenant && Acquires(job.jobType)
    && (Tells(job, "mission_id", mission)
        || exists c :: c in candidates && OwnCandidate(c, mission, tenant) && Tells(job, "candidate_id", c.id))
  }

  lemma {:induction false} FieldTells(job: JobRow, field: string, text: string)
    ensures Field(job.payload, field) == JsonText(text) <==> Tells(job, field, text)
  {
  }

  lemma {:induction false} BelongsIff(job: JobRow, mission: string, tenant: string, candidates: seq<CandidateRow>)
    requires UniqueCandidates(candidates)
    ensures Belongs(job, mission, candidates, tenant) <==>
            Tells(job, "mission_id", mission)
            || exists c :: c in candidates && OwnCandidate(c, mission, tenant) && Tells(job, "candidate_id", c.id)
  {
    var field := Field(job.payload, "candidate_id");
    if c :| c in candidates && OwnCandidate(c, mission, tenant) && Tells(job, "candidate_id", c.id) {
      OwnCandidateById(candidates, c);
    }
    if field.JsonText? && CandidateById(candidates, tenant, field.s).Some? {
      assert Tells(job, "candidate_id", CandidateById(candidates, tenant, field.s).value.id);
    }
  }

  lemma {:induction false} ConcernsIff(db: Db, mission: string, tenant: string, job: JobRow)
    requires KeysOk(db)
    ensures job in MissionJobs(db.jobs, mission, db.candidates, tenant) <==>
            job in db.jobs && Concerns(job, mission, tenant, db.candidates)
  {
    MissionJobMember(db.jobs, mission, db.candidates, tenant, job);
    BelongsIff(job, mission, tenant, db.candidates);
  }

  // ---------------------------------------------------------------------------
  // The state of its work
  // ---------------------------------------------------------------------------

  ghost predicate HasWork(db: Db, mission: string, tenant: string) {
    exists job :: job in db.jobs && Concerns(job, mission, tenant, db.candidates)
  }

  /** Some job that concerns the mission is queued, running or waiting for a retry. */
  ghost predicate Working(db: Db, mission: string, tenant: string) {
    exists job :: job in db.jobs && Concerns(job, mission, tenant, db.candidates) && !Over(job.status)
  }

  lemma {:induction false} WorkMeans(db: Db, mission: string, tenant: string)
    requires KeysOk(db)
    ensures var jobs := MissionJobs(db.jobs, mission, db.candidates, tenant);
            && (jobs != [] <==> HasWork(db, mission, tenant))
            && (AnyActive(jobs) <==> Working(db, mission, tenant))
  {
    var jobs := MissionJobs(db.jobs, mission, db.candidates, tenant);
    if jobs != [] { ConcernsIff(db, mission, tenant, jobs[0]); }
    if job :| job in jobs && JobLifecycle.Active(job.status) { ConcernsIff(db, mission, tenant, job); }
    if job :| job in db.jobs && Concerns(job, mission, tenant, db.candidates) {
      ConcernsIff(db, mission, tenant, job);
    }
    if job :| job in db.jobs && Concerns(job, mission, tenant, db.candidates) && !Over(job.status) {
      ConcernsIff(db, mission, tenant, job);
      assert JobLifecycle.Active(job.status);
    }
  }

  /** One outcome is no later than another: by the time it finished or else was last touched, then by the times of its
      last change and of its creation, then by its id. */
  predicate NoLater(a: JobRow, b: JobRow) {
    var x := if a.finishedAt.Some? then a.finishedAt.value else a.updatedAt;
    var y := if b.finishedAt.Some? then b.finishedAt.value else b.updatedAt;
    x < y || (x == y && (a.updatedAt < b.updatedAt || (a.updatedAt == b.updatedAt
      && (a.createdAt < b.createdAt || (a.createdAt == b.createdAt && LexLe(a.id, b.id))))))
  }

  lemma {:induction false} NoLaterIsOrder(a: JobRow, b: JobRow)
    ensures KeyLe(JobOutcomeKey(a), JobOutcomeKey(b)) <==> NoLater(a, b)
  {
  }

  /** An outcome of a verification of the candidate. */
  predicate Verifies(job: JobRow, c: CandidateRow) {
    job.jobType == WebsiteVerify && job.tenant == c.tenant && Tells(job, "candidate_id", c.id) && Over(job.status)
  }

  /** The latest verification of the candidate failed or was cancelled. */
  ghost predicate Lost(jobs: seq<JobRow>, c: CandidateRow) {
    exists job :: job in jobs && Verifies(job, c) && (job.status.Failed? || job.status.Cancelled?)
                  && forall other :: other in jobs && Verifies(other, c) ==> NoLater(other, job)
  }

  lemma {:induction false} LostIff(jobs: seq<JobRow>, c: CandidateRow)
    requires UniqueJobs(jobs)
    ensures VerificationLost(jobs, c) <==> Lost(jobs, c)
  {
    var latest := LatestVerify(jobs, c);
    forall job ensures Verifies(job, c) <==> VerifyOutcomeFor(job, c) {
      FieldTells(job, "candidate_id", c.id);
    }
    if latest.Some? {
      forall other | other in jobs && Verifies(other, c) ensures NoLater(other, latest.value) {
        LatestVerifyIsGreatest(jobs, c, other);
        NoLaterIsOrder(other, latest.value);
      }
    }
    if job :|
        job in jobs && Verifies(job, c) && (job.status.Failed? || job.status.Cancelled?)
        && forall other :: other in jobs && Verifies(other, c) ==> NoLater(other, job) {
      LatestVerifyIsGreatest(jobs, c, job);
      NoLaterIsOrder(latest.value, job);
      SameLatestOutcome(jobs, c, job, latest);
    }
  }

  /** Some candidate of the mission still waits for a verification that was lost. */
  ghost predicate Waits(db: Db, mission: string, tenant: string) {
    exists c :: c in db.candidates && OwnCandidate(c, mission, tenant) && (c.status.Discovered? || c.status.Verifying?)
                && Lost(db.jobs, c)
  }

  lemma {:induction false} WaitsIff(db: Db, mission: string, tenant: string)
    requires KeysOk(db)
    ensures Repairable(db, mission, tenant) <==> Waits(db, mission, tenant)
  {
    forall c ensures VerificationLost(db.jobs, c) <==> Lost(db.jobs, c) {
      LostIff(db.jobs, c);
    }
  }

  // ---------------------------------------------------------------------------
  // What a pass does to a mission
  // ---------------------------------------------------------------------------

  /** The pass finishes the mission: an open one with work that is all over, or an ended one whose result is out of
      date, or missing, and that has no work in progress. */
  ghost predicate PassFinishes(db: Db, m: MissionRow, tenant: string) {
    var outdated := m.retro.pending || m.retro.result.None?;
    var work := HasWork(db, m.id, tenant);
    && m.tenant == tenant && !Working(db, m.id, tenant)
    && match m.status
       case Queued => work
       case Running => work
       case Completed => outdated || (work && Waits(db, m.id, tenant))
       case Failed => outdated || (work && Waits(db, m.id, tenant))
       case _ => false
  }

  lemma {:induction false} FinishIff(db: Db, m: MissionRow, tenant: string)
    requires KeysOk(db)
    ensures PlanFor(db, m, tenant).Finish? <==> PassFinishes(db, m, tenant)
    ensures PlanFor(db, m, tenant) == Finish(true) <==> PassFinishes(db, m, tenant) && !HasWork(db, m.id, tenant)
  {
    WorkMeans(db, m.id, tenant);
    WaitsIff(db, m.id, tenant);
  }

  /** The pass finds work in progress: an open mission, or an ended one that it would otherwise look at. */
  ghost predicate PassKeepsBusy(db: Db, m: MissionRow, tenant: string) {
    && m.tenant == tenant && Working(db, m.id, tenant)
    && match m.status
       case Queued => true
       case Running => true
       case Completed => m.retro.pending || m.retro.result.None? || Waits(db, m.id, tenant)
       case Failed => m.retro.pending || m.retro.result.None? || Waits(db, m.id, tenant)
       case _ => false
  }

  lemma {:induction false} BusyIff(db: Db, m: MissionRow, tenant: string)
    requires KeysOk(db)
    ensures PlanFor(db, m, tenant).KeepBusy? <==> PassKeepsBusy(db, m, tenant)
  {
    WorkMeans(db, m.id, tenant);
    WaitsIff(db, m.id, tenant);
    if Working(db, m.id, tenant) {
      assert HasWork(db, m.id, tenant);
    }
  }

  /** A candidate of the mission is eligible, accepted or promoted. */
  ghost predicate HasResult(db: Db, mission: string, tenant: string) {
    exists c :: c in db.candidates && OwnCandidate(c, mission, tenant)
                && (c.status.Eligible? || c.status.Accepted? || c.status.Promoted?)
  }

  lemma {:induction false} HasResultIff(db: Db, mission: string, tenant: string)
    ensures HasUsable(db, mission, tenant) <==> HasResult(db, mission, tenant)
  {
    if i :| 0 <= i < |db.candidates| && UsableIn(db.candidates[i], mission, tenant) {
      assert db.candidates[i] in db.candidates;
    }
    if c :|
        c in db.candidates && OwnCandidate(c, mission, tenant)
        && (c.status.Eligible? || c.status.Accepted? || c.status.Promoted?) {
      var i :| 0 <= i < |db.candidates| && db.candidates[i] == c;
      assert UsableIn(db.candidates[i], mission, tenant);
    }
  }

  /** A queued or running mission of the tenant ends exactly if some job concerns it and every such job is over; it runs
      if one of them is not; and it is left alone if no job concerns it. */
  lemma {:induction false} OpenMissionOutcome(db: Db, db': Db, tenant: string, now: Time, i: nat)
    requires KeysOk(db) && Reconciled(db, db', tenant, now) && i < |db.missions|
    requires db.missions[i].tenant == tenant && (db.missions[i].status.Queued? || db.missions[i].status.Running?)
    ensures var m, m' := db.missions[i], db'.missions[i];
            && (m'.status.Completed? || m'.status.Failed? <==>
                HasWork(db, m.id, tenant) && !Working(db, m.id, tenant))
            && (Working(db, m.id, tenant) ==> m' == m.(status := Running))
            && (!HasWork(db, m.id, tenant) ==> m' == m)
  {
    var m := db.missions[i];
    FinishIff(db, m, tenant);
    BusyIff(db, m, tenant);
    if Working(db, m.id, tenant) { assert HasWork(db, m.id, tenant); }
  }

  /** Every mission is finished, kept busy or left alone. A completed mission with work in progress stays completed only
      while it has a candidate to show. */
  lemma {:induction false} MissionOutcome(db: Db, db': Db, tenant: string, now: Time, i: nat)
    requires KeysOk(db) && Reconciled(db, db', tenant, now) && i < |db.missions|
    ensures var m, m' := db.missions[i], db'.missions[i];
            && (PassFinishes(db, m, tenant) ==>
                  && (m'.status.Completed? || m'.status.Failed?) && m'.finishedAt == Some(now)
                  && !m'.retro.pending && m'.retro.result.Some? && m'.retro.deadline == m.retro.deadline
                  && m'.id == m.id && m'.tenant == m.tenant && m'.name == m.name
                  && (!HasWork(db, m.id, tenant) ==> m'.status == m.status))
            && (PassKeepsBusy(db, m, tenant) ==>
                  m' == m.(status := if m.status.Completed? && HasResult(db, m.id, tenant) then Completed else Running))
            && (!PassFinishes(db, m, tenant) && !PassKeepsBusy(db, m, tenant) ==> m' == m)
  {
    var m := db.missions[i];
    FinishIff(db, m, tenant);
    BusyIff(db, m, tenant);
    HasResultIff(db, m.id, tenant);
    if PassFinishes(db, m, tenant) { StoredResultAgreesWithStatus(db, db', tenant, now, i); }
  }

  /** Exactly the candidates of finished missions that wait for a lost verification need evidence after the pass. */
  lemma {:induction false} CandidateOutcome(db: Db, db': Db, tenant: string, now: Time, k: nat, i: nat)
    requires KeysOk(db) && Reconciled(db, db', tenant, now) && k < |db.candidates| && i < |db.missions|
    requires db.candidates[k].missionId == db.missions[i].id
    ensures var c, m := db.candidates[k], db.missions[i];
            db'.candidates[k]
            == if c.tenant == tenant && PassFinishes(db, m, tenant) && (c.status.Discovered? || c.status.Verifying?)
                   && Lost(db.jobs, c)
               then c.(status := NeedsEvidence) else c
  {
    FinishIff(db, db.missions[i], tenant);
    FinishingIff(db, tenant, i);
    LostIff(db.jobs, db.candidates[k]);
  }

  lemma {:induction false} StrayCandidate(db: Db, db': Db, tenant: string, now: Time, k: nat)
    requires KeysOk(db) && Reconciled(db, db', tenant, now) && k < |db.candidates|
    requires forall i :: 0 <= i < |db.missions| ==> db.missions[i].id != db.candidates[k].missionId
    ensures db'.candidates[k] == db.candidates[k]
  {
  }

  // ---------------------------------------------------------------------------
  // Which outcome fails a mission
  // ---------------------------------------------------------------------------

  /** Two letters that the stripped text of the country spells. */
  ghost predicate NamesCountry(job: JobRow, code: string) {
    && TwoLetters(code)
    && exists text, core :: Tells(job, "country_code", text) && Stripped(text, core) && SpellsCountry(core, code)
  }

  ghost predicate NamesOwn(job: JobRow, id: string, mission: string, tenant: string, candidates: seq<CandidateRow>) {
    && Tells(job, "candidate_id", id) && IsId(id)
    && exists c :: c in candidates && OwnCandidate(c, mission, tenant) && c.id == id
  }

  /** The job stands for that piece of work of the mission. */
  ghost predicate StandsFor(job: JobRow, identity: Identity, mission: string, tenant: string,
      candidates: seq<CandidateRow>) {
    && job.tenant == tenant
    && match identity
       case PlanOf(m) => job.jobType == AcquisitionPlan && m == mission && Tells(job, "mission_id", m)
       case DiscoveryIn(m, code) =>
         job.jobType == WebDiscovery && m == mission && Tells(job, "mission_id", m) && NamesCountry(job, code)
       case DiscoveryJob(m, id) =>
         job.jobType == WebDiscovery && m == mission && Tells(job, "mission_id", m) && id == job.id
         && forall code :: !NamesCountry(job, code)
       case VerifyOf(c) => job.jobType == WebsiteVerify && NamesOwn(job, c, mission, tenant, candidates)
       case AssessOf(c) => job.jobType == CandidateAssess && NamesOwn(job, c, mission, tenant, candidates)
  }

  lemma {:induction false} CountryIff(job: JobRow, code: string)
    ensures CountryCode(Field(job.payload, "country_code")) == Some(code) <==> NamesCountry(job, code)
  {
    var field := Field(job.payload, "country_code");
    if field.JsonText? {
      FieldTells(job, "country_code", field.s);
      CountryCodeIff(field.s, code);
    }
    if NamesCountry(job, code) {
      var text, core :| Tells(job, "country_code", text) && Stripped(text, core) && SpellsCountry(core, code);
      FieldTells(job, "country_code", text);
    }
  }

  lemma {:induction false} StandsForIff(job: JobRow, identity: Identity, mission: string, tenant: string,
      candidates: seq<CandidateRow>)
    requires job.tenant == tenant
    ensures StandsFor(job, identity, mission, tenant, candidates) <==>
            ResultType(job.jobType)
            && IdentityOf(job, mission, OwnCandidateIds(mission, candidates, tenant)) == Some(identity)
  {
    FieldTells(job, "mission_id", mission);
    forall code ensures CountryCode(Field(job.payload, "country_code")) == Some(code) <==> NamesCountry(job, code) {
      CountryIff(job, code);
    }
    var field := Field(job.payload, "candidate_id");
    var ids := OwnCandidateIds(mission, candidates, tenant);
    if field.JsonText? {
      FieldTells(job, "candidate_id", field.s);
      SafeIdIff(field.s);
    }
  }

  /** A piece of work of the mission failed: of the outcomes of the jobs that stand for it, the latest. */
  ghost predicate FailedLast(db: Db, job: JobRow, identity: Identity, mission: string, tenant: string) {
    && job in db.jobs && StandsFor(job, identity, mission, tenant, db.candidates) && job.status.Failed?
    && forall other ::
         other in db.jobs && StandsFor(other, identity, mission, tenant, db.candidates) && Over(other.status)
         ==> NoLater(other, job)
  }

  /** A search succeeded without a valid hit. */
  predicate FoundNothing(job: JobRow) {
    && job.jobType == WebDiscovery && job.status.Succeeded?
    && job.summary.Object? && "valid_hits" in job.summary.fields && job.summary.fields["valid_hits"] == JsonInt(0)
  }

  ghost predicate WorkFailed(db: Db, mission: string, tenant: string) {
    exists job, identity :: FailedLast(db, job, identity, mission, tenant)
  }

  function Relevants(db: Db, mission: string, tenant: string): seq<Relevant> {
    RelevantJobs(mission, OwnCandidateIds(mission, db.candidates, tenant),
                 MissionJobs(db.jobs, mission, db.candidates, tenant), tenant)
  }

  lemma {:induction false} RelevantIff(db: Db, mission: string, tenant: string, r: Relevant)
    requires KeysOk(db)
    ensures r in Relevants(db, mission, tenant) <==>
            r.job in db.jobs && StandsFor(r.job, r.identity, mission, tenant, db.candidates)
  {
    RelevantMember(mission, OwnCandidateIds(mission, db.candidates, tenant),
                   MissionJobs(db.jobs, mission, db.candidates, tenant), tenant, r);
    ConcernsIff(db, mission, tenant, r.job);
    if r.job.tenant == tenant { StandsForIff(r.job, r.identity, mission, tenant, db.candidates); }
    if StandsFor(r.job, r.identity, mission, tenant, db.candidates) {
      assert Concerns(r.job, mission, tenant, db.candidates);
    }
  }

  lemma {:induction false} LatestOfWork(db: Db, mission: string, tenant: string, identity: Identity)
    returns (r: Relevant)
    requires KeysOk(db) && identity in LatestJobs(OrderedJobFacts(Relevants(db, mission, tenant)))
    ensures r.job in db.jobs && r.identity == identity && Over(r.job.status)
        && StandsFor(r.job, identity, mission, tenant, db.candidates)
    ensures var fact := LatestJobs(OrderedJobFacts(Relevants(db, mission, tenant)))[identity];
            && fact.status == r.job.status && fact.jobType == r.job.jobType
            && fact.noValidHits == FoundNothing(r.job)
    ensures forall other ::
              other in db.jobs && StandsFor(other, identity, mission, tenant, db.candidates) && Over(other.status)
              ==> NoLater(other, r.job)
  {
    var relevant := Relevants(db, mission, tenant);
    var latest := LatestJobs(OrderedJobFacts(relevant));
    LatestIsGreatestOutcome(relevant, identity);
    r :| IsLatest(relevant, identity, r) && latest[identity] == FactOf(r, latest[identity].order);
    RelevantIff(db, mission, tenant, r);
    forall other | other in db.jobs && StandsFor(other, identity, mission, tenant, db.candidates) && Over(other.status)
      ensures NoLater(other, r.job)
    {
      RelevantIff(db, mission, tenant, Relevant(other, identity));
      assert OutcomeLe(Relevant(other, identity), r);
      NoLaterIsOrder(other, r.job);
    }
  }

  lemma {:induction false} SameJob(db: Db, a: JobRow, b: JobRow)
    requires KeysOk(db) && a in db.jobs && b in db.jobs && NoLater(a, b) && NoLater(b, a)
    ensures a == b
  {
    NoLaterIsOrder(a, b);
    NoLaterIsOrder(b, a);
    KeyOrder(JobOutcomeKey(a), JobOutcomeKey(b));
  }

  lemma {:induction false} LatestFailedLast(db: Db, mission: string, tenant: string, identity: Identity)
    requires KeysOk(db)
    ensures var latest := LatestJobs(OrderedJobFacts(Relevants(db, mission, tenant)));
            identity in latest && latest[identity].status.Failed? <==>
            exists job :: FailedLast(db, job, identity, mission, tenant)
  {
    var relevant := Relevants(db, mission, tenant);
    if identity in LatestJobs(OrderedJobFacts(relevant)) {
      var r := LatestOfWork(db, mission, tenant, identity);
      if job :| FailedLast(db, job, identity, mission, tenant) { SameJob(db, r.job, job); }
      assert r.job.status.Failed? ==> FailedLast(db, r.job, identity, mission, tenant);
    } else if job :| FailedLast(db, job, identity, mission, tenant) {
      RelevantIff(db, mission, tenant, Relevant(job, identity));
      LatestIsGreatestOutcome(relevant, identity);
    }
  }

  lemma {:induction false} FailuresMean(db: Db, mission: string, tenant: string, execution: MissionStatus)
    requires KeysOk(db)
    ensures MissionResult(db, mission, tenant, execution).counts.failedJobs > 0 <==> WorkFailed(db, mission, tenant)
  {
    var latest := LatestJobs(OrderedJobFacts(Relevants(db, mission, tenant)));
    var failed := FailedIdentities(latest, t => true);
    forall id ensures id in failed <==> exists job :: FailedLast(db, job, id, mission, tenant) {
      LatestFailedLast(db, mission, tenant, id);
    }
    if WorkFailed(db, mission, tenant) {
      var job, id :| FailedLast(db, job, id, mission, tenant);
      assert id in failed;
    }
    if |failed| > 0 {
      var id :| id in failed;
      var job :| FailedLast(db, job, id, mission, tenant);
    }
  }

  /** A mission with jobs is finished as failed exactly if a piece of its work failed, and otherwise as completed. */
  lemma {:induction false} FailedStatusIff(db: Db, db': Db, tenant: string, now: Time, i: nat)
    requires KeysOk(db) && Reconciled(db, db', tenant, now) && i < |db.missions|
    requires PassFinishes(db, db.missions[i], tenant) && HasWork(db, db.missions[i].id, tenant)
    ensures db'.missions[i].status == if WorkFailed(db, db.missions[i].id, tenant) then Failed else Completed
  {
    var m := db.missions[i];
    FinishIff(db, m, tenant);
    FailuresMean(db, m.id, tenant, m.status);
  }

  // ---------------------------------------------------------------------------
  // The stored result
  // ---------------------------------------------------------------------------

  /** After the pass, a candidate of the mission is in one of the statuses. */
  ghost predicate HasNow(db: Db, mission: string, tenant: string, statuses: set<CandidateStatus>) {
    exists c :: c in db.candidates && OwnCandidate(c, mission, tenant) && c.status in statuses
  }

  function FactOfCandidate(db: Db, c: CandidateRow): CandidateFact {
    CandidateFact(c.id, RepairedCandidate(db, c).status, EvidenceCount(db.evidence, c.id))
  }

  lemma {:induction false} FactMember(db: Db, candidates: seq<CandidateRow>, mission: string, tenant: string,
      fact: CandidateFact)
    ensures fact in CandidateFacts(db, candidates, mission, tenant) <==>
            exists c :: c in candidates && OwnCandidate(c, mission, tenant) && fact == FactOfCandidate(db, c)
  {
    if candidates != [] {
      var first, rest := candidates[0], candidates[1..];
      FactMember(db, rest, mission, tenant, fact);
      assert candidates == [first] + rest;
      assert fact in CandidateFacts(db, candidates, mission, tenant) <==>
             fact in CandidateFacts(db, rest, mission, tenant)
             || (OwnCandidate(first, mission, tenant) && fact == FactOfCandidate(db, first));
    }
  }

  lemma {:induction false} RepairedBy(db: Db, db': Db, tenant: string, now: Time, i: nat, k: nat)
    requires KeysOk(db) && Reconciled(db, db', tenant, now) && i < |db.missions| && k < |db.candidates|
    requires PassFinishes(db, db.missions[i], tenant) && OwnCandidate(db.candidates[k], db.missions[i].id, tenant)
    ensures db'.candidates[k] == RepairedCandidate(db, db.candidates[k])
  {
    FinishIff(db, db.missions[i], tenant);
    FinishingIff(db, tenant, i);
  }

  lemma {:induction false} FactsShow(db: Db, mission: string, tenant: string, k: nat)
    requires k < |db.candidates| && OwnCandidate(db.candidates[k], mission, tenant)
    ensures FactOfCandidate(db, db.candidates[k]) in CandidateFacts(db, db.candidates, mission, tenant)
  {
    FactMember(db, db.candidates, mission, tenant, FactOfCandidate(db, db.candidates[k]));
  }

  lemma {:induction false} FactsCome(db: Db, mission: string, tenant: string, fact: CandidateFact) returns (k: nat)
    requires fact in CandidateFacts(db, db.candidates, mission, tenant)
    ensures k < |db.candidates| && OwnCandidate(db.candidates[k], mission, tenant)
    ensures fact == FactOfCandidate(db, db.candidates[k])
  {
    FactMember(db, db.candidates, mission, tenant, fact);
    var c :| c in db.candidates && OwnCandidate(c, mission, tenant) && fact == FactOfCandidate(db, c);
    k :| 0 <= k < |db.candidates| && db.candidates[k] == c;
  }

  /** The facts the resolver gets have the statuses that the candidates have after the pass. */
  lemma {:induction false} FactsHave(db: Db, db': Db, tenant: string, now: Time, i: nat, statuses: set<CandidateStatus>)
    requires KeysOk(db) && Reconciled(db, db', tenant, now) && i < |db.missions|
    requires PassFinishes(db, db.missions[i], tenant)
    ensures Has(CandidateFacts(db, db.candidates, db.missions[i].id, tenant), statuses) <==>
            HasNow(db', db.missions[i].id, tenant, statuses)
  {
    var mission := db.missions[i].id;
    var facts := CandidateFacts(db, db.candidates, mission, tenant);
    if n :| 0 <= n < |facts| && facts[n].status in statuses {
      var k := FactsCome(db, mission, tenant, facts[n]);
      RepairedBy(db, db', tenant, now, i, k);
      assert db'.candidates[k] in db'.candidates;
    }
    if HasNow(db', mission, tenant, statuses) {
      var c' :| c' in db'.candidates && OwnCandidate(c', mission, tenant) && c'.status in statuses;
      var k :| 0 <= k < |db'.candidates| && db'.candidates[k] == c';
      assert OwnCandidate(db.candidates[k], mission, tenant);
      RepairedBy(db, db', tenant, now, i, k);
      FactsShow(db, mission, tenant, k);
    }
  }

  lemma {:induction false} EveryStatus(s: CandidateStatus)
    ensures s in {Discovered, Verifying, NeedsEvidence, Rejected, Eligible, Accepted, Promoted}
    ensures s.Rejected? || s in {Discovered, Verifying, NeedsEvidence, Eligible, Accepted, Promoted}
  {
    match s
    case Discovered => case Verifying => case NeedsEvidence => case Rejected =>
    case Eligible => case Accepted => case Promoted =>
  }

  lemma {:induction false} AllHave(candidates: seq<CandidateFact>)
    ensures candidates == [] <==> !Has(candidates, {Discovered, Verifying, NeedsEvidence, Rejected, Eligible, Accepted,
                                                    Promoted})
    ensures (forall i :: 0 <= i < |candidates| ==> candidates[i].status.Rejected?) <==>
            !Has(candidates, {Discovered, Verifying, NeedsEvidence, Eligible, Accepted, Promoted})
  {
    if candidates != [] { EveryStatus(candidates[0].status); }
    if i :| 0 <= i < |candidates| && !candidates[i].status.Rejected? { EveryStatus(candidates[i].status); }
  }

  /** The stored result of a finished mission tells its status and what candidates it has after the pass: partial or
      failed if it failed, with or without candidates; ready if some candidate is eligible or further, else needing
      review if some candidate is undecided, else without results. */
  lemma {:induction false} StoredCodeMeans(db: Db, db': Db, tenant: string, now: Time, i: nat)
    requires KeysOk(db) && Reconciled(db, db', tenant, now) && i < |db.missions|
    requires PassFinishes(db, db.missions[i], tenant)
    ensures var m := db'.missions[i];
            m.retro.result.Some? && m.retro.result.value.code
            == if m.status.Failed? then
                 if HasNow(db', m.id, tenant, {Discovered, Verifying, NeedsEvidence, Rejected, Eligible, Accepted,
                                               Promoted})
                 then Partial else FailedResult
               else if HasNow(db', m.id, tenant, {Eligible, Accepted, Promoted}) then Ready
               else if HasNow(db', m.id, tenant, {Discovered, Verifying, NeedsEvidence}) then NeedsReview
               else NoResults
  {
    var m, m' := db.missions[i], db'.missions[i];
    FinishIff(db, m, tenant);
    MissionOutcome(db, db', tenant, now, i);
    StoredResultAgreesWithStatus(db, db', tenant, now, i);
    var facts := Facts(m'.status, CandidateFacts(db, db.candidates, m.id, tenant),
                       MissionFacts(m.id, OwnCandidateIds(m.id, db.candidates, tenant),
                                    MissionJobs(db.jobs, m.id, db.candidates, tenant), tenant));
    assert m'.retro.result.value == ResultOf(facts);
    CodeMeans(facts);
    AllHave(facts.candidates);
    FactsHave(db, db', tenant, now, i, {Discovered, Verifying, NeedsEvidence, Rejected, Eligible, Accepted, Promoted});
    FactsHave(db, db', tenant, now, i, {Eligible, Accepted, Promoted});
    FactsHave(db, db', tenant, now, i, {Discovered, Verifying, NeedsEvidence});
  }

  /** How many candidates of the mission have one of the statuses. */
  ghost function Many(candidates: seq<CandidateRow>, mission: string, tenant: string,
      statuses: set<CandidateStatus>): nat {
    if candidates == [] then 0
    else
      var c := candidates[0];
      Many(candidates[1..], mission, tenant, statuses)
      + if OwnCandidate(c, mission, tenant) && c.status in statuses then 1 else 0
  }

  /** How many pieces of evidence the candidates of the mission have. */
  ghost function Evidence(candidates: seq<CandidateRow>, evidence: map<string, nat>, mission: string,
      tenant: string): nat {
    if candidates == [] then 0
    else
      var c := candidates[0];
      Evidence(candidates[1..], evidence, mission, tenant)
      + if OwnCandidate(c, mission, tenant) && c.id in evidence then evidence[c.id] else 0
  }

  /** The second list has the candidates of the first, those of the mission as the pass repairs them. */
  ghost predicate RepairedAs(db: Db, a: seq<CandidateRow>, b: seq<CandidateRow>, mission: string, tenant: string) {
    && |a| == |b|
    && forall k :: 0 <= k < |a| ==>
         (OwnCandidate(b[k], mission, tenant) <==> OwnCandidate(a[k], mission, tenant))
         && (OwnCandidate(a[k], mission, tenant) ==> b[k] == RepairedCandidate(db, a[k]))
  }

  lemma {:induction false} CountRows(db: Db, a: seq<CandidateRow>, b: seq<CandidateRow>, mission: string,
      tenant: string, holds: CandidateStatus -> bool, statuses: set<CandidateStatus>)
    requires RepairedAs(db, a, b, mission, tenant) && forall s :: holds(s) <==> s in statuses
    ensures CountWhere(CandidateFacts(db, a, mission, tenant), holds) == Many(b, mission, tenant, statuses)
  {
    if a != [] {
      assert RepairedAs(db, a[1..], b[1..], mission, tenant);
      CountRows(db, a[1..], b[1..], mission, tenant, holds, statuses);
      var rest := CandidateFacts(db, a[1..], mission, tenant);
      assert OwnCandidate(b[0], mission, tenant) <==> OwnCandidate(a[0], mission, tenant);
      if OwnCandidate(a[0], mission, tenant) {
        assert CandidateFacts(db, a, mission, tenant)[1..] == rest;
      }
    }
  }

  lemma {:induction false} EvidenceRows(db: Db, a: seq<CandidateRow>, b: seq<CandidateRow>, mission: string,
      tenant: string)
    requires RepairedAs(db, a, b, mission, tenant)
    ensures EvidenceTotal(CandidateFacts(db, a, mission, tenant)) == Evidence(b, db.evidence, mission, tenant)
    ensures |CandidateFacts(db, a, mission, tenant)|
         == Many(b, mission, tenant, {Discovered, Verifying, NeedsEvidence, Rejected, Eligible, Accepted, Promoted})
  {
    if a != [] {
      assert RepairedAs(db, a[1..], b[1..], mission, tenant);
      EvidenceRows(db, a[1..], b[1..], mission, tenant);
      var rest := CandidateFacts(db, a[1..], mission, tenant);
      EveryStatus(b[0].status);
      assert OwnCandidate(b[0], mission, tenant) <==> OwnCandidate(a[0], mission, tenant);
      if OwnCandidate(a[0], mission, tenant) {
        assert CandidateFacts(db, a, mission, tenant)[1..] == rest;
      }
    }
  }

  ghost predicate Numbers(n: Counts, c: seq<CandidateRow>, evidence: map<string, nat>, mission: string,
      tenant: string) {
    && n.discovered == Many(c, mission, tenant, {Discovered, Verifying, NeedsEvidence, Rejected, Eligible, Accepted,
                                                 Promoted})
    && n.needsReview == Many(c, mission, tenant, {Discovered, Verifying, NeedsEvidence})
    && n.readyToReview == Many(c, mission, tenant, {Eligible})
    && n.crmReady == Many(c, mission, tenant, {Accepted, Promoted})
    && n.excluded == Many(c, mission, tenant, {Rejected})
    && n.evidence == Evidence(c, evidence, mission, tenant)
  }

  lemma {:induction false} ResultNumbers(db: Db, b: seq<CandidateRow>, mission: string, tenant: string,
      execution: MissionStatus)
    requires RepairedAs(db, db.candidates, b, mission, tenant)
    ensures Numbers(MissionResult(db, mission, tenant, execution).counts, b, db.evidence, mission, tenant)
  {
    var a := db.candidates;
    EvidenceRows(db, a, b, mission, tenant);
    CountRows(db, a, b, mission, tenant, s => InReview(s), {Discovered, Verifying, NeedsEvidence});
    CountRows(db, a, b, mission, tenant, s => s == Eligible, {Eligible});
    CountRows(db, a, b, mission, tenant, s => InCrm(s), {Accepted, Promoted});
    CountRows(db, a, b, mission, tenant, s => s == Rejected, {Rejected});
  }

  lemma {:induction false} PassRepairs(db: Db, db': Db, tenant: string, now: Time, i: nat)
    requires KeysOk(db) && Reconciled(db, db', tenant, now) && i < |db.missions|
    requires PassFinishes(db, db.missions[i], tenant)
    ensures RepairedAs(db, db.candidates, db'.candidates, db.missions[i].id, tenant)
  {
    forall k | 0 <= k < |db.candidates| && OwnCandidate(db.candidates[k], db.missions[i].id, tenant)
      ensures db'.candidates[k] == RepairedCandidate(db, db.candidates[k])
    {
      RepairedBy(db, db', tenant, now, i, k);
    }
  }

  /** The numbers of the stored result count the candidates of the mission by the status they have after the pass, and
      their evidence. */
  lemma {:induction false} StoredNumbersMean(db: Db, db': Db, tenant: string, now: Time, i: nat)
    requires KeysOk(db) && Reconciled(db, db', tenant, now) && i < |db.missions|
    requires PassFinishes(db, db.missions[i], tenant)
    ensures var result := db'.missions[i].retro.result;
            result.Some? && Numbers(result.value.counts, db'.candidates, db'.evidence, db.missions[i].id, tenant)
  {
    var m := db.missions[i];
    FinishIff(db, m, tenant);
    MissionOutcome(db, db', tenant, now, i);
    PassRepairs(db, db', tenant, now, i);
    ResultNumbers(db, db'.candidates, m.id, tenant, db'.missions[i].status);
  }

  /** A piece of work of that type failed. */
  ghost predicate FailedOf(db: Db, mission: string, tenant: string, jobType: JobType) {
    exists job, identity :: FailedLast(db, job, identity, mission, tenant) && job.jobType == jobType
  }

  /** The job is the latest outcome of its piece of work, and found nothing. */
  ghost predicate EmptyLast(db: Db, job: JobRow, identity: Identity, mission: string, tenant: string) {
    && job in db.jobs && StandsFor(job, identity, mission, tenant, db.candidates) && FoundNothing(job)
    && forall other ::
         other in db.jobs && StandsFor(other, identity, mission, tenant, db.candidates) && Over(other.status)
         ==> NoLater(other, job)
  }

  ghost predicate SearchedInVain(db: Db, mission: string, tenant: string) {
    exists job, identity :: EmptyLast(db, job, identity, mission, tenant)
  }

  lemma {:induction false} FailedTypeIff(db: Db, mission: string, tenant: string, identity: Identity,
      jobType: JobType)
    requires KeysOk(db)
    ensures var latest := LatestJobs(OrderedJobFacts(Relevants(db, mission, tenant)));
            identity in latest && latest[identity].status.Failed? && latest[identity].jobType == jobType <==>
            exists job :: FailedLast(db, job, identity, mission, tenant) && job.jobType == jobType
  {
    LatestFailedLast(db, mission, tenant, identity);
    if identity in LatestJobs(OrderedJobFacts(Relevants(db, mission, tenant))) {
      var r := LatestOfWork(db, mission, tenant, identity);
      if job :| FailedLast(db, job, identity, mission, tenant) { SameJob(db, r.job, job); }
    }
  }

  lemma {:induction false} ReasonOfType(latest: map<Identity, JobFact>, jobType: JobType, reason: Reason)
    requires forall t :: FailureReason(t) == reason <==> t == jobType
    ensures reason in FailureReasons(latest) <==>
            exists id :: id in latest && latest[id].status.Failed? && latest[id].jobType == jobType
  {
  }

  lemma {:induction false} FailedOfIff(db: Db, mission: string, tenant: string, jobType: JobType, reason: Reason)
    requires KeysOk(db) && forall t :: FailureReason(t) == reason <==> t == jobType
    ensures reason in FailureReasons(LatestJobs(OrderedJobFacts(Relevants(db, mission, tenant)))) <==>
            FailedOf(db, mission, tenant, jobType)
  {
    var latest := LatestJobs(OrderedJobFacts(Relevants(db, mission, tenant)));
    ReasonOfType(latest, jobType, reason);
    if id :| id in latest && latest[id].status.Failed? && latest[id].jobType == jobType {
      FailedTypeIff(db, mission, tenant, id, jobType);
    }
    if job, id :| FailedLast(db, job, id, mission, tenant) && job.jobType == jobType {
      FailedTypeIff(db, mission, tenant, id, jobType);
    }
  }

  lemma {:induction false} EmptySearchIff(db: Db, mission: string, tenant: string)
    requires KeysOk(db)
    ensures AnyEmptySearch(LatestJobs(OrderedJobFacts(Relevants(db, mission, tenant)))) <==>
            SearchedInVain(db, mission, tenant)
  {
    var relevant := Relevants(db, mission, tenant);
    var latest := LatestJobs(OrderedJobFacts(relevant));
    if id :| id in latest && latest[id].noValidHits {
      var r := LatestOfWork(db, mission, tenant, id);
      assert EmptyLast(db, r.job, id, mission, tenant);
    }
    if job, id :| EmptyLast(db, job, id, mission, tenant) {
      RelevantIff(db, mission, tenant, Relevant(job, id));
      LatestIsGreatestOutcome(relevant, id);
      var r := LatestOfWork(db, mission, tenant, id);
      SameJob(db, r.job, job);
    }
  }

  lemma {:induction false} OnlyFromWork(facts: Facts, reason: Reason)
    requires reason in {PlanningFailed, SearchFailed, VerificationFailed, AnalysisFailed}
    ensures reason in ResultOf(facts).reasons <==> reason in FailureReasons(LatestJobs(facts.jobs))
  {
  }

  lemma {:induction false} WorkReason(db: Db, mission: string, tenant: string, execution: MissionStatus,
      jobType: JobType, reason: Reason)
    requires KeysOk(db) && forall t :: FailureReason(t) == reason <==> t == jobType
    requires reason in {PlanningFailed, SearchFailed, VerificationFailed, AnalysisFailed}
    ensures reason in MissionResult(db, mission, tenant, execution).reasons <==> FailedOf(db, mission, tenant, jobType)
  {
    OnlyFromWork(Facts(execution, CandidateFacts(db, db.candidates, mission, tenant),
                       OrderedJobFacts(Relevants(db, mission, tenant))), reason);
    FailedOfIff(db, mission, tenant, jobType, reason);
  }

  lemma {:induction false} WorkReasons(db: Db, mission: string, tenant: string, execution: MissionStatus)
    requires KeysOk(db)
    ensures var reasons := MissionResult(db, mission, tenant, execution).reasons;
            && (PlanningFailed in reasons <==> FailedOf(db, mission, tenant, AcquisitionPlan))
            && (SearchFailed in reasons <==> FailedOf(db, mission, tenant, WebDiscovery))
            && (VerificationFailed in reasons <==> FailedOf(db, mission, tenant, WebsiteVerify))
            && (AnalysisFailed in reasons <==> FailedOf(db, mission, tenant, CandidateAssess))
  {
    WorkReason(db, mission, tenant, execution, AcquisitionPlan, PlanningFailed);
    WorkReason(db, mission, tenant, execution, WebDiscovery, SearchFailed);
    WorkReason(db, mission, tenant, execution, WebsiteVerify, VerificationFailed);
    WorkReason(db, mission, tenant, execution, CandidateAssess, AnalysisFailed);
  }

  lemma {:induction false} OtherReasons(db: Db, mission: string, tenant: string, execution: MissionStatus)
    requires KeysOk(db)
    ensures var result := MissionResult(db, mission, tenant, execution);
            var found := CandidateFacts(db, db.candidates, mission, tenant) != [];
            var none, inVain := result.code.NoResults? && !found, SearchedInVain(db, mission, tenant);
            && (LegacyFailedWithResults in result.reasons <==>
                  execution.Failed? && found && !WorkFailed(db, mission, tenant))
            && (AllCandidatesExcluded in result.reasons <==> result.code.NoResults? && found)
            && (SearchNoValidHits in result.reasons <==> none && inVain)
            && (CompletedWithoutCandidates in result.reasons <==> none && !inVain)
  {
    var facts := Facts(execution, CandidateFacts(db, db.candidates, mission, tenant),
                       MissionFacts(mission, OwnCandidateIds(mission, db.candidates, tenant),
                                    MissionJobs(db.jobs, mission, db.candidates, tenant), tenant));
    OtherReasonsGiven(facts);
    EmptySearchMeans(facts.jobs);
    EmptySearchIff(db, mission, tenant);
    FailuresMean(db, mission, tenant, execution);
    FailuresAreOutcomes(facts.jobs, t => true);
    SomeFailedIff(facts.jobs, (t: JobType) => true);
  }

  /** The reasons of the stored result: one for each type of work of which a latest outcome failed; a failure that no
      work explains; and of a mission without results whether it has candidates, and else whether the latest search of
      some country found nothing. */
  lemma {:induction false} StoredReasonsMean(db: Db, db': Db, tenant: string, now: Time, i: nat)
    requires KeysOk(db) && Reconciled(db, db', tenant, now) && i < |db.missions|
    requires PassFinishes(db, db.missions[i], tenant)
    ensures var m := db'.missions[i];
            m.retro.result.Some?
            && var result := m.retro.result.value;
            var found := HasNow(db', m.id, tenant, {Discovered, Verifying, NeedsEvidence, Rejected, Eligible, Accepted,
                                                    Promoted});
            var none, inVain := result.code.NoResults? && !found, SearchedInVain(db, m.id, tenant);
            && (PlanningFailed in result.reasons <==> FailedOf(db, m.id, tenant, AcquisitionPlan))
            && (SearchFailed in result.reasons <==> FailedOf(db, m.id, tenant, WebDiscovery))
            && (VerificationFailed in result.reasons <==> FailedOf(db, m.id, tenant, WebsiteVerify))
            && (AnalysisFailed in result.reasons <==> FailedOf(db, m.id, tenant, CandidateAssess))
            && (LegacyFailedWithResults in result.reasons <==>
                  m.status.Failed? && found && !WorkFailed(db, m.id, tenant))
            && (AllCandidatesExcluded in result.reasons <==> result.code.NoResults? && found)
            && (SearchNoValidHits in result.reasons <==> none && inVain)
            && (CompletedWithoutCandidates in result.reasons <==> none && !inVain)
  {
    var m, m' := db.missions[i], db'.missions[i];
    FinishIff(db, m, tenant);
    MissionOutcome(db, db', tenant, now, i);
    assert m'.retro.result.value == MissionResult(db, m.id, tenant, m'.status);
    WorkReasons(db, m.id, tenant, m'.status);
    OtherReasons(db, m.id, tenant, m'.status);
    FactsHave(db, db', tenant, now, i, {Discovered, Verifying, NeedsEvidence, Rejected, Eligible, Accepted, Promoted});
    AllHave(CandidateFacts(db, db.candidates, m.id, tenant));
  }

  // ---------------------------------------------------------------------------
  // Overdue missions
  // ---------------------------------------------------------------------------

  /** The deadline fails exactly the jobs that concern the mission and are not over. */
  lemma {:induction false} TimeoutMeans(db: Db, mission: string, tenant: string, now: Time, k: nat)
    requires KeysOk(db) && k < |db.jobs|
    ensures var job := db.jobs[k];
            TimedOutJobs(db.jobs, mission, db.candidates, tenant, now)[k]
            == if Concerns(job, mission, tenant, db.candidates) && !Over(job.status)
               then job.(status := JobLifecycle.Status.Failed, errorCode := "mission_timeout", updatedAt := now,
                         finishedAt := Some(now))
               else job
  {
    BelongsIff(db.jobs[k], mission, tenant, db.candidates);
  }

  ghost predicate StillOpen(db: Db, mission: string, tenant: string, k: nat) {
    k < |db.jobs| && Concerns(db.jobs[k], mission, tenant, db.candidates) && !Over(db.jobs[k].status)
  }

  ghost function TimingOut(db: Db, mission: string, tenant: string, n: nat): set<nat>
    requires n <= |db.jobs|
  {
    set k: nat | k < n && StillOpen(db, mission, tenant, k)
  }

  lemma {:induction false} TimesOutIff(db: Db, mission: string, tenant: string, job: JobRow)
    requires KeysOk(db)
    ensures TimesOut(job, mission, db.candidates, tenant) <==>
            Concerns(job, mission, tenant, db.candidates) && !Over(job.status)
  {
    BelongsIff(job, mission, tenant, db.candidates);
  }

  lemma {:induction false} TimingOutExtends(db: Db, mission: string, tenant: string, n: nat)
    requires 0 < n <= |db.jobs|
    ensures TimingOut(db, mission, tenant, n)
         == TimingOut(db, mission, tenant, n - 1) + if StillOpen(db, mission, tenant, n - 1) then {n - 1} else {}
  {
  }

  /** It counts them. */
  lemma {:induction false} TimeoutsCounted(db: Db, mission: string, tenant: string, n: nat)
    requires KeysOk(db) && n <= |db.jobs|
    ensures CountTimeouts(db.jobs[..n], mission, db.candidates, tenant) == |TimingOut(db, mission, tenant, n)|
  {
    if n == 0 {
      assert TimingOut(db, mission, tenant, 0) == {};
    } else {
      assert db.jobs[..n][..n - 1] == db.jobs[..n - 1];
      TimeoutsCounted(db, mission, tenant, n - 1);
      TimesOutIff(db, mission, tenant, db.jobs[n - 1]);
      TimingOutExtends(db, mission, tenant, n);
      assert n - 1 !in TimingOut(db, mission, tenant, n - 1);
    }
  }

  /** A mission is overdue while it is queued or running at its deadline or after it. */
  lemma {:induction false} OverdueMeans(m: MissionRow, tenant: string, now: Time)
    ensures Overdue(m, tenant, now) <==>
            m.tenant == tenant && m.status in {MissionStatus.Queued, MissionStatus.Running}
            && exists deadline :: m.retro.deadline == Some(deadline) && deadline <= now
  {
    if m.retro.deadline.Some? { assert m.retro.deadline == Some(m.retro.deadline.value); }
  }

  ghost function Finished(db: Db, tenant: string, n: nat): set<nat>
    requires n <= |db.missions|
  {
    set i: nat | i < n && PassFinishes(db, db.missions[i], tenant)
  }

  lemma {:induction false} FinishedSplits(db: Db, tenant: string, n: nat)
    requires 0 < n <= |db.missions|
    ensures Finished(db, tenant, n)
         == Finished(db, tenant, n - 1) + if PassFinishes(db, db.missions[n - 1], tenant) then {n - 1} else {}
  {
  }

  /** The pass returns the number of missions it finishes. */
  lemma {:induction false} FinishesCounted(db: Db, tenant: string, n: nat)
    requires KeysOk(db) && n <= |db.missions|
    ensures CountFinishes(db, tenant, n) == |Finished(db, tenant, n)|
  {
    if n == 0 {
      assert Finished(db, tenant, 0) == {};
    } else {
      FinishesCounted(db, tenant, n - 1);
      FinishIff(db, db.missions[n - 1], tenant);
      FinishedSplits(db, tenant, n);
      assert n - 1 !in Finished(db, tenant, n - 1);
    }
  }

  // ---------------------------------------------------------------------------
  // Notifications
  // ---------------------------------------------------------------------------

  function KindFor(code: ResultCode): NoteKind {
    if code == Partial then MissionPartial else if code == FailedResult then MissionFailed else MissionCompleted
  }

  /** A finished mission has the notification of its status, unread and of its result; one of the other ending is
      archived as it was. */
  lemma {:induction false} EndNotesMean(db: Db, db': Db, tenant: string, now: Time, i: nat)
    requires KeysOk(db) && Reconciled(db, db', tenant, now) && i < |db.missions|
    requires PassFinishes(db, db.missions[i], tenant)
    ensures var m := db'.missions[i];
            var completed, failed := MissionEnded(tenant, m.id, Completed), MissionEnded(tenant, m.id, Failed);
            var mine, other := if m.status == Completed then completed else failed,
                               if m.status == Completed then failed else completed;
            && m.retro.result.Some? && mine in db'.notes
            && db'.notes[mine] == Note(KindFor(m.retro.result.value.code), m.name, m.retro.result, Unread, None)
            && (other in db'.notes <==> other in db.notes)
            && (other in db.notes ==> db'.notes[other] == db.notes[other].(status := NoteStatus.Archived))
  {
    var m := db.missions[i];
    FinishIff(db, m, tenant);
    MissionOutcome(db, db', tenant, now, i);
    FinishedNote(db, db', tenant, now, i, Completed);
    FinishedNote(db, db', tenant, now, i, Failed);
  }

  /** The notifications of missions that are not finished stay as they are. */
  lemma {:induction false} OtherNotesMean(db: Db, db': Db, tenant: string, now: Time, key: NoteKey)
    requires KeysOk(db) && Reconciled(db, db', tenant, now) && key.MissionEnded?
    requires forall i :: 0 <= i < |db.missions| && db.missions[i].id == key.mission ==>
               !PassFinishes(db, db.missions[i], tenant)
    ensures key in db'.notes <==> key in db.notes
    ensures key in db.notes ==> db'.notes[key] == db.notes[key]
  {
    assert NoteOk(db, db'.missions, db'.notes, tenant, key, |db.missions|);
    forall i | 0 <= i < |db.missions| && db.missions[i].id == key.mission
      ensures !PlanFor(db, db.missions[i], tenant).Finish?
    {
      FinishIff(db, db.missions[i], tenant);
    }
    assert key.mission !in Finishing(db, tenant, |db.missions|);
    assert Lookup(db'.notes, key) == Lookup(db.notes, key);
  }

  /** A pass tells of a provider of the tenant that is down for three failures or more, once for each last success. */
  lemma {:induction false} ProviderNotesMean(db: Db, db': Db, tenant: string, now: Time, key: NoteKey)
    requires Reconciled(db, db', tenant, now) && key.ProviderDown?
    ensures key in db.notes ==> key in db'.notes && db'.notes[key] == db.notes[key]
    ensures key !in db.notes ==>
              (key in db'.notes <==>
                 key.tenant == tenant && tenant in db.providers && db.providers[tenant].health == Down
                 && db.providers[tenant].failures >= 3 && db.providers[tenant].lastSuccessAt == key.since)
    ensures key !in db.notes && key in db'.notes ==> db'.notes[key] == Note(ProviderFailed, "", None, Unread, None)
  {
    assert NoteOk(db, db'.missions, db'.notes, tenant, key, |db.missions|);
  }

  // ---------------------------------------------------------------------------
  // Providers and retries
  // ---------------------------------------------------------------------------

  /** A call that fails adds to the failures, keeps the last success, and takes the provider down at the third; a call
      that succeeds starts over. */
  lemma {:induction false} ProviderMeans(p: ProviderRow, code: string, now: Time)
    ensures AfterFailure(p, code)
         == ProviderRow(if p.failures + 1 >= 3 then Down else Degraded, p.failures + 1, code, p.lastSuccessAt)
    ensures AfterSuccess(now) == ProviderRow(Healthy, 0, "", Some(now))
    ensures NO_PROVIDER.failures == 0 && NO_PROVIDER.lastSuccessAt == None
  {
  }

  function ArchivedAt(note: Note, now: Time): Note {
    note.(status := NoteStatus.Archived, readAt := Some(now))
  }

  /** A claim for a retry finds a candidate that needs evidence, verifies it again, archives both terminal notifications
      of its mission, and re-opens a failed mission or flags a completed one. */
  lemma {:induction false} RetryMeans(db: Db, i: nat, j: nat, now: Time)
    requires i < |db.candidates| && j < |db.missions|
    ensures var db', m := AfterRetry(db, i, j, now), db.missions[j];
            && (db.candidates[i].status != NeedsEvidence ==> db' == db)
            && (db.candidates[i].status == NeedsEvidence ==>
                  && db'.candidates == db.candidates[i := db.candidates[i].(status := Verifying)]
                  && db'.missions == db.missions[j :=
                       if m.status == Completed then m.(retro := m.retro.(pending := true))
                       else if m.status == Failed then m.(status := Running, finishedAt := None) else m]
                  && db'.jobs == db.jobs && db'.evidence == db.evidence && db'.providers == db.providers
                  && db'.notes.Keys == db.notes.Keys
                  && forall key :: key in db.notes ==>
                       db'.notes[key]
                       == if key in {MissionEnded(m.tenant, m.id, Completed), MissionEnded(m.tenant, m.id, Failed)}
                          then ArchivedAt(db.notes[key], now) else db.notes[key])
  {
  }
}
