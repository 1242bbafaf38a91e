/** What the business result of a mission says about its candidates and its jobs, in terms of their stored statuses. */
module ResultMeaning {
  import opened Common
  import opened AcquisitionRows
  import opened MissionResults
  import opened BusinessResults
  import JobLifecycle

  // ---------------------------------------------------------------------------
  // The outcome that counts for an identity
  // ---------------------------------------------------------------------------

  predicate Over(status: JobLifecycle.Status) {
    status.Succeeded? || status.Failed? || status.Cancelled?
  }

  /** Of the terminal facts of an identity the one of the greatest order, and of equal ones the first. */
  predicate Outcome(jobs: seq<JobFact>, i: int) {
    && 0 <= i < |jobs| && Over(jobs[i].status)
    && forall k :: 0 <= k < |jobs| && Over(jobs[k].status) && jobs[k].identity == jobs[i].identity ==>
         jobs[k].order < jobs[i].order || (jobs[k].order == jobs[i].order && i <= k)
  }

  lemma {:induction false} OneOutcome(jobs: seq<JobFact>, i: int, k: int)
    requires Outcome(jobs, i) && Outcome(jobs, k) && jobs[i].identity == jobs[k].identity
    ensures i == k
  {
  }

  lemma {:induction false} LatestIsOutcome(jobs: seq<JobFact>, identity: Identity)
    ensures identity in LatestJobs(jobs) <==>
            exists i :: 0 <= i < |jobs| && Over(jobs[i].status) && jobs[i].identity == identity
    ensures identity in LatestJobs(jobs) ==>
              exists i :: Outcome(jobs, i) && jobs[i].identity == identity && LatestJobs(jobs)[identity] == jobs[i]
  {
    if jobs != [] {
      var front, n := jobs[..|jobs| - 1], |jobs| - 1;
      LatestIsOutcome(front, identity);
      forall i | 0 <= i < n ensures front[i] == jobs[i] {
      }
      if identity in LatestJobs(front) {
        var i :| Outcome(front, i) && front[i].identity == identity && LatestJobs(front)[identity] == front[i];
        assert jobs[i] == front[i];
        if LatestJobs(jobs)[identity] == jobs[i] && !(Over(jobs[n].status) && jobs[n].identity == identity
            && jobs[n].order > jobs[i].order) {
          assert Outcome(jobs, i);
        } else {
          assert Outcome(jobs, n);
        }
      } else if identity in LatestJobs(jobs) {
        assert Outcome(jobs, n);
      }
    }
  }

  lemma {:induction false} OutcomeIsLatest(jobs: seq<JobFact>, i: int)
    requires Outcome(jobs, i)
    ensures jobs[i].identity in LatestJobs(jobs) && LatestJobs(jobs)[jobs[i].identity] == jobs[i]
  {
    LatestIsOutcome(jobs, jobs[i].identity);
    var k :| Outcome(jobs, k) && jobs[k].identity == jobs[i].identity
        && LatestJobs(jobs)[jobs[i].identity] == jobs[k];
    OneOutcome(jobs, i, k);
  }

  /** Some outcome of the given kind failed. */
  ghost predicate SomeFailed(jobs: seq<JobFact>, kind: JobType -> bool) {
    exists i :: Outcome(jobs, i) && jobs[i].status.Failed? && kind(jobs[i].jobType)
  }

  ghost function FailedOutcomes(jobs: seq<JobFact>, kind: JobType -> bool): set<int> {
    set i | 0 <= i < |jobs| && Outcome(jobs, i) && jobs[i].status.Failed? && kind(jobs[i].jobType)
  }

  ghost function IdentitiesOf(jobs: seq<JobFact>, places: set<int>): set<Identity>
    requires forall i :: i in places ==> 0 <= i < |jobs|
  {
    set i | i in places :: jobs[i].identity
  }

  ghost function Below(places: set<int>, n: nat): set<int> {
    set i | i in places && i < n
  }

  lemma {:induction false} OneMoreIdentity(jobs: seq<JobFact>, places: set<int>, n: int)
    requires forall i: int :: i in places ==> 0 <= i < |jobs| && Outcome(jobs, i)
    requires Outcome(jobs, n) && n !in places
    ensures |IdentitiesOf(jobs, places + {n})| == |IdentitiesOf(jobs, places)| + 1
  {
    assert IdentitiesOf(jobs, places + {n}) == IdentitiesOf(jobs, places) + {jobs[n].identity};
    assert jobs[n].identity !in IdentitiesOf(jobs, places) by {
      if k: int :| k in places && jobs[k].identity == jobs[n].identity { OneOutcome(jobs, n, k); }
    }
  }

  lemma {:induction false} IdentitiesBelow(jobs: seq<JobFact>, places: set<int>, n: nat)
    requires forall i: int :: i in places ==> 0 <= i < |jobs| && Outcome(jobs, i)
    ensures |IdentitiesOf(jobs, Below(places, n))| == |Below(places, n)|
  {
    if n == 0 {
      assert Below(places, 0) == {};
      assert IdentitiesOf(jobs, {}) == {};
    } else {
      var rest := Below(places, n - 1);
      IdentitiesBelow(jobs, places, n - 1);
      if n - 1 in places {
        assert Below(places, n) == rest + {n - 1};
        OneMoreIdentity(jobs, rest, n - 1);
      } else {
        assert Below(places, n) == rest;
      }
    }
  }

  lemma {:induction false} IdentitiesAreAsMany(jobs: seq<JobFact>, places: set<int>)
    requires forall i: int :: i in places ==> 0 <= i < |jobs| && Outcome(jobs, i)
    ensures |IdentitiesOf(jobs, places)| == |places|
  {
    IdentitiesBelow(jobs, places, |jobs|);
    assert Below(places, |jobs|) == places;
  }

  lemma {:induction false} FailureIsOutcome(jobs: seq<JobFact>, kind: JobType -> bool, id: Identity)
    ensures id in FailedIdentities(LatestJobs(jobs), kind) <==>
            exists i :: i in FailedOutcomes(jobs, kind) && jobs[i].identity == id
  {
    var latest := LatestJobs(jobs);
    if id in FailedIdentities(latest, kind) {
      LatestIsOutcome(jobs, id);
      var i :| Outcome(jobs, i) && jobs[i].identity == id && latest[id] == jobs[i];
      assert i in FailedOutcomes(jobs, kind);
    }
    if i :| i in FailedOutcomes(jobs, kind) && jobs[i].identity == id {
      OutcomeIsLatest(jobs, i);
    }
  }

  lemma {:induction false} FailuresAreOutcomes(jobs: seq<JobFact>, kind: JobType -> bool)
    ensures |FailedIdentities(LatestJobs(jobs), kind)| == |FailedOutcomes(jobs, kind)|
  {
    forall id
      ensures id in FailedIdentities(LatestJobs(jobs), kind) <==> id in IdentitiesOf(jobs, FailedOutcomes(jobs, kind))
    {
      FailureIsOutcome(jobs, kind, id);
    }
    assert FailedIdentities(LatestJobs(jobs), kind) == IdentitiesOf(jobs, FailedOutcomes(jobs, kind));
    IdentitiesAreAsMany(jobs, FailedOutcomes(jobs, kind));
  }

  // ---------------------------------------------------------------------------
  // The numbers
  // ---------------------------------------------------------------------------

  ghost function Places(candidates: seq<CandidateFact>, statuses: set<CandidateStatus>): set<int> {
    set i | 0 <= i < |candidates| && candidates[i].status in statuses
  }

  lemma {:induction false} CountSplits(candidates: seq<CandidateFact>, last: CandidateFact,
      holds: CandidateStatus -> bool)
    ensures CountWhere(candidates + [last], holds)
         == CountWhere(candidates, holds) + if holds(last.status) then 1 else 0
  {
    if candidates == [] {
      assert candidates + [last] == [last] && [last][1..] == [];
    } else {
      assert (candidates + [last])[1..] == candidates[1..] + [last];
      CountSplits(candidates[1..], last, holds);
    }
  }

  lemma {:induction false} PlacesSplit(front: seq<CandidateFact>, last: CandidateFact, statuses: set<CandidateStatus>)
    ensures |Places(front + [last], statuses)| == |Places(front, statuses)| + if last.status in statuses then 1 else 0
  {
    var all := front + [last];
    assert forall i :: 0 <= i < |front| ==> all[i] == front[i];
    if last.status in statuses {
      assert Places(all, statuses) == Places(front, statuses) + {|front|};
    } else {
      assert Places(all, statuses) == Places(front, statuses);
    }
  }

  lemma {:induction false} CountIsSize(candidates: seq<CandidateFact>, holds: CandidateStatus -> bool,
      statuses: set<CandidateStatus>)
    requires forall s :: holds(s) <==> s in statuses
    ensures CountWhere(candidates, holds) == |Places(candidates, statuses)|
  {
    if candidates == [] {
      assert Places(candidates, statuses) == {};
    } else {
      var front, last := candidates[..|candidates| - 1], candidates[|candidates| - 1];
      CountIsSize(front, holds, statuses);
      assert candidates == front + [last];
      CountSplits(front, last, holds);
      PlacesSplit(front, last, statuses);
    }
  }

  /** Evidence adds up, a negative number counting as none. */
  lemma {:induction false} EvidenceAddsUp(a: seq<CandidateFact>, b: seq<CandidateFact>)
    ensures EvidenceTotal(a + b) == EvidenceTotal(a) + EvidenceTotal(b)
    ensures |a| == 1 ==> EvidenceTotal(a) == if a[0].evidenceCount < 0 then 0 else a[0].evidenceCount
    ensures a == [] ==> EvidenceTotal(a) == 0
  {
    if a == [] {
      assert a + b == b;
    } else {
      assert (a + b)[1..] == a[1..] + b;
      EvidenceAddsUp(a[1..], b);
    }
  }

  /** Every number of the result is the number of candidates in certain statuses, or of outcomes that failed. */
  lemma {:induction false} NumbersMean(facts: Facts)
    ensures var n, c, jobs := ResultOf(facts).counts, facts.candidates, facts.jobs;
            && n.discovered == |c|
            && n.needsReview == |Places(c, {Discovered, Verifying, NeedsEvidence})|
            && n.readyToReview == |Places(c, {Eligible})|
            && n.crmReady == |Places(c, {Accepted, Promoted})|
            && n.excluded == |Places(c, {Rejected})|
            && n.evidence == EvidenceTotal(c)
            && n.failedJobs == |FailedOutcomes(jobs, (t: JobType) => true)|
            && n.verificationFailed == |FailedOutcomes(jobs, (t: JobType) => t == WebsiteVerify)|
            && n.analysisFailed == |FailedOutcomes(jobs, (t: JobType) => t == CandidateAssess)|
  {
    var c, jobs := facts.candidates, facts.jobs;
    CountIsSize(c, s => InReview(s), {Discovered, Verifying, NeedsEvidence});
    CountIsSize(c, s => s == Eligible, {Eligible});
    CountIsSize(c, s => InCrm(s), {Accepted, Promoted});
    CountIsSize(c, s => s == Rejected, {Rejected});
    FailuresAreOutcomes(jobs, t => true);
    FailuresAreOutcomes(jobs, t => t == WebsiteVerify);
    FailuresAreOutcomes(jobs, t => t == CandidateAssess);
  }

  // ---------------------------------------------------------------------------
  // The code
  // ---------------------------------------------------------------------------

  predicate Has(candidates: seq<CandidateFact>, statuses: set<CandidateStatus>) {
    exists i :: 0 <= i < |candidates| && candidates[i].status in statuses
  }

  lemma {:induction false} HasIffCounted(candidates: seq<CandidateFact>, statuses: set<CandidateStatus>)
    ensures Has(candidates, statuses) <==> |Places(candidates, statuses)| > 0
  {
    if i :| 0 <= i < |candidates| && candidates[i].status in statuses {
      assert i in Places(candidates, statuses);
    }
    if !Has(candidates, statuses) {
      assert Places(candidates, statuses) == {};
    }
  }

  /** A failure of the mission itself or of an outcome. */
  ghost predicate Fails(facts: Facts) {
    facts.execution.Failed? || SomeFailed(facts.jobs, (t: JobType) => true)
  }

  lemma {:induction false} SomeFailedIff(jobs: seq<JobFact>, kind: JobType -> bool)
    ensures SomeFailed(jobs, kind) <==> |FailedOutcomes(jobs, kind)| > 0
  {
    if i :| Outcome(jobs, i) && jobs[i].status.Failed? && kind(jobs[i].jobType) {
      assert i in FailedOutcomes(jobs, kind);
    }
    if !SomeFailed(jobs, kind) {
      assert FailedOutcomes(jobs, kind) == {};
    }
  }

  /** Exactly when each code is given. */
  lemma {:induction false} CodeMeans(facts: Facts)
    ensures var code, c := ResultOf(facts).code, facts.candidates;
            var good := !facts.execution.Cancelled? && !Fails(facts);
            && (code.CancelledResult? <==> facts.execution.Cancelled?)
            && (code.Partial? <==> !facts.execution.Cancelled? && Fails(facts) && c != [])
            && (code.FailedResult? <==> !facts.execution.Cancelled? && Fails(facts) && c == [])
            && (code.Ready? <==> good && Has(c, {Eligible, Accepted, Promoted}))
            && (code.NeedsReview? <==>
                  good && !Has(c, {Eligible, Accepted, Promoted}) && Has(c, {Discovered, Verifying, NeedsEvidence}))
            && (code.NoResults? <==> good && forall i :: 0 <= i < |c| ==> c[i].status.Rejected?)
  {
    var c := facts.candidates;
    NumbersMean(facts);
    EvidenceNeedsCandidates(c);
    SomeFailedIff(facts.jobs, (t: JobType) => true);
    HasIffCounted(c, {Discovered, Verifying, NeedsEvidence});
    HasIffCounted(c, {Eligible});
    HasIffCounted(c, {Accepted, Promoted});
    assert Has(c, {Eligible, Accepted, Promoted}) <==> Has(c, {Eligible}) || Has(c, {Accepted, Promoted});
    if Has(c, {Discovered, Verifying, NeedsEvidence}) || Has(c, {Eligible, Accepted, Promoted}) {
      assert exists i :: 0 <= i < |c| && !c[i].status.Rejected?;
    } else {
      forall i | 0 <= i < |c| ensures c[i].status.Rejected? {
        assert c[i].status !in {Discovered, Verifying, NeedsEvidence};
        assert c[i].status !in {Eligible, Accepted, Promoted};
      }
    }
  }

  // ---------------------------------------------------------------------------
  // The reasons
  // ---------------------------------------------------------------------------

  lemma {:induction false} FailureReasonsMean(jobs: seq<JobFact>, reason: Reason, kind: JobType -> bool)
    requires forall t :: FailureReason(t) == reason <==> kind(t)
    ensures reason in FailureReasons(LatestJobs(jobs)) <==> SomeFailed(jobs, kind)
  {
    var latest := LatestJobs(jobs);
    if reason in FailureReasons(latest) {
      var id :| id in latest && latest[id].status.Failed? && FailureReason(latest[id].jobType) == reason;
      LatestIsOutcome(jobs, id);
      var i :| Outcome(jobs, i) && jobs[i].identity == id && latest[id] == jobs[i];
    }
    if SomeFailed(jobs, kind) {
      var i :| Outcome(jobs, i) && jobs[i].status.Failed? && kind(jobs[i].jobType);
      OutcomeIsLatest(jobs, i);
    }
  }

  ghost predicate SomeEmptySearch(jobs: seq<JobFact>) {
    exists i :: Outcome(jobs, i) && jobs[i].noValidHits
  }

  lemma {:induction false} EmptySearchMeans(jobs: seq<JobFact>)
    ensures AnyEmptySearch(LatestJobs(jobs)) <==> SomeEmptySearch(jobs)
  {
    var latest := LatestJobs(jobs);
    if id :| id in latest && latest[id].noValidHits {
      LatestIsOutcome(jobs, id);
      var i :| Outcome(jobs, i) && jobs[i].identity == id && latest[id] == jobs[i];
    }
    if i :| Outcome(jobs, i) && jobs[i].noValidHits { OutcomeIsLatest(jobs, i); }
  }

  lemma {:induction false} GivenFor(facts: Facts, reason: Reason, kind: JobType -> bool)
    requires forall t :: FailureReason(t) == reason <==> kind(t)
    requires reason in {PlanningFailed, SearchFailed, VerificationFailed, AnalysisFailed, ExecutionFailed}
    ensures reason in ResultOf(facts).reasons <==> SomeFailed(facts.jobs, kind)
  {
    FailureReasonsMean(facts.jobs, reason, kind);
  }

  /** The reasons that stand for a failed outcome. */
  lemma {:induction false} FailureReasonsGiven(facts: Facts)
    ensures var r, jobs := ResultOf(facts).reasons, facts.jobs;
            && (PlanningFailed in r <==> SomeFailed(jobs, (t: JobType) => t == AcquisitionPlan))
            && (SearchFailed in r <==> SomeFailed(jobs, (t: JobType) => t == WebDiscovery))
            && (VerificationFailed in r <==> SomeFailed(jobs, (t: JobType) => t == WebsiteVerify))
            && (AnalysisFailed in r <==> SomeFailed(jobs, (t: JobType) => t == CandidateAssess))
            && (ExecutionFailed in r <==> SomeFailed(jobs, (t: JobType) => t.OtherType?))
  {
    GivenFor(facts, PlanningFailed, (t: JobType) => t == AcquisitionPlan);
    GivenFor(facts, SearchFailed, (t: JobType) => t == WebDiscovery);
    GivenFor(facts, VerificationFailed, (t: JobType) => t == WebsiteVerify);
    GivenFor(facts, AnalysisFailed, (t: JobType) => t == CandidateAssess);
    GivenFor(facts, ExecutionFailed, (t: JobType) => t.OtherType?);
  }

  lemma {:induction false} ExcludedOnly(facts: Facts)
    requires ResultOf(facts).code.NoResults?
    ensures ResultOf(facts).counts.excluded > 0 <==> facts.candidates != []
  {
    CodeMeaning(facts);
  }

  /** The other reasons. */
  lemma {:induction false} OtherReasonsGiven(facts: Facts)
    ensures var r, c, jobs := ResultOf(facts), facts.candidates, facts.jobs;
            && (LegacyFailedWithResults in r.reasons <==>
                  facts.execution.Failed? && c != [] && !SomeFailed(jobs, (t: JobType) => true))
            && (AllCandidatesExcluded in r.reasons <==> r.code.NoResults? && c != [])
            && (SearchNoValidHits in r.reasons <==> r.code.NoResults? && c == [] && SomeEmptySearch(jobs))
            && (CompletedWithoutCandidates in r.reasons <==> r.code.NoResults? && c == [] && !SomeEmptySearch(jobs))
  {
    EmptySearchMeans(facts.jobs);
    NumbersMean(facts);
    EvidenceNeedsCandidates(facts.candidates);
    SomeFailedIff(facts.jobs, (t: JobType) => true);
    if ResultOf(facts).code.NoResults? { ExcludedOnly(facts); }
  }
}
