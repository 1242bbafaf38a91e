/** The business result of a mission, resolved from its candidates and its job outcomes. */
module BusinessResults {
  import opened Common
  import opened AcquisitionRows
  import opened MissionResults
  import opened Ordering
  import JobLifecycle

  datatype CandidateFact = CandidateFact(id: string, status: CandidateStatus, evidenceCount: int)

  datatype Facts = Facts(execution: MissionStatus, candidates: seq<CandidateFact>, jobs: seq<JobFact>)

  datatype ResultCode = Ready | NeedsReview | Partial | NoResults | FailedResult | CancelledResult

  datatype Reason =
    | PlanningFailed | SearchFailed | VerificationFailed | AnalysisFailed | ExecutionFailed
    | LegacyFailedWithResults | AllCandidatesExcluded | SearchNoValidHits | CompletedWithoutCandidates

  datatype Counts = Counts(
    discovered: nat,
    needsReview: nat,
    readyToReview: nat,
    crmReady: nat,
    excluded: nat,
    evidence: nat,
    failedJobs: nat,
    verificationFailed: nat,
    analysisFailed: nat)

  datatype BusinessResult = BusinessResult(code: ResultCode, reasons: set<Reason>, counts: Counts)

  // ---------------------------------------------------------------------------
  // The latest outcome of every identity
  // ---------------------------------------------------------------------------

  function LatestJobs(jobs: seq<JobFact>): map<Identity, JobFact> {
    if jobs == [] then map[]
    else
      var latest := LatestJobs(jobs[..|jobs| - 1]);
      var job := jobs[|jobs| - 1];
      if !JobLifecycle.Terminal(job.status) then latest
      else if job.identity !in latest || job.order > latest[job.identity].order then latest[job.identity := job]
      else latest
  }

  ghost predicate TerminalFor(job: JobFact, identity: Identity) {
    job.identity == identity && JobLifecycle.Terminal(job.status)
  }

  lemma {:induction false} LatestHasGreatestOrder(jobs: seq<JobFact>, identity: Identity)
    ensures identity in LatestJobs(jobs) <==> exists job :: job in jobs && TerminalFor(job, identity)
    ensures identity in LatestJobs(jobs) ==>
              var latest := LatestJobs(jobs)[identity];
              latest in jobs && TerminalFor(latest, identity) &&
              forall job :: job in jobs && TerminalFor(job, identity) ==> job.order <= latest.order
  {
    if jobs != [] {
      var front, last := jobs[..|jobs| - 1], jobs[|jobs| - 1];
      assert jobs == front + [last];
      LatestHasGreatestOrder(front, identity);
      forall job | job in jobs && TerminalFor(job, identity) ensures identity in LatestJobs(jobs) {
        if job in front { assert identity in LatestJobs(front); }
      }
      if identity in LatestJobs(jobs) {
        var latest := LatestJobs(jobs)[identity];
        assert latest in jobs && TerminalFor(latest, identity);
      }
    }
  }

  /** The terminal job of the identity with the greatest outcome key. */
  ghost predicate IsLatest(relevant: seq<Relevant>, identity: Identity, r: Relevant) {
    && r in relevant && r.identity == identity && JobLifecycle.Terminal(r.job.status)
    && forall other :: other in relevant && other.identity == identity && JobLifecycle.Terminal(other.job.status)
                       ==> OutcomeLe(other, r)
  }

  lemma {:induction false} FactsOfRelevant(relevant: seq<Relevant>)
    ensures var sorted := Sort(relevant, ByOutcome);
            var facts := OrderedJobFacts(relevant);
            && |facts| == |sorted|
            && SortedBy(sorted, ByOutcome)
            && (forall i :: 0 <= i < |facts| ==> facts[i] == FactOf(sorted[i], i + 1))
            && (forall r :: r in sorted <==> r in relevant)
  {
    var sorted := Sort(relevant, ByOutcome);
    assert SortedBy(sorted, ByOutcome) by {
      ByOutcomeIsTotal();
      SortSorts(relevant, ByOutcome);
    }
    forall r ensures r in sorted <==> r in relevant {
      ByOutcomeIsTotal();
      SortMembers(relevant, ByOutcome, r);
    }
  }

  lemma {:induction false} TerminalHasOutcome(relevant: seq<Relevant>, identity: Identity, r: Relevant)
    requires r in relevant && r.identity == identity && JobLifecycle.Terminal(r.job.status)
    ensures identity in LatestJobs(OrderedJobFacts(relevant))
  {
    var sorted, facts := Sort(relevant, ByOutcome), OrderedJobFacts(relevant);
    FactsOfRelevant(relevant);
    LatestHasGreatestOrder(facts, identity);
    var j :| 0 <= j < |sorted| && sorted[j] == r;
    assert facts[j] == FactOf(r, j + 1) && TerminalFor(facts[j], identity);
  }

  lemma {:induction false} OutcomeIsGreater(relevant: seq<Relevant>, identity: Identity, i: nat, j: nat)
    requires var sorted, facts := Sort(relevant, ByOutcome), OrderedJobFacts(relevant);
             && i < |facts| && identity in LatestJobs(facts) && facts[i] == LatestJobs(facts)[identity]
             && j < |sorted| && sorted[j].identity == identity && JobLifecycle.Terminal(sorted[j].job.status)
    ensures var sorted := Sort(relevant, ByOutcome);
            i < |sorted| && OutcomeLe(sorted[j], sorted[i])
  {
    var sorted, facts := Sort(relevant, ByOutcome), OrderedJobFacts(relevant);
    FactsOfRelevant(relevant);
    LatestHasGreatestOrder(facts, identity);
    assert facts[j] == FactOf(sorted[j], j + 1) && TerminalFor(facts[j], identity);
    assert j <= i;
    if j < i {
      assert ByOutcome(sorted[j], sorted[i]);
    } else {
      KeyOrder(JobOutcomeKey(sorted[j].job), JobOutcomeKey(sorted[j].job));
    }
  }

  lemma {:induction false} OutcomeIsLatest(relevant: seq<Relevant>, identity: Identity, i: nat)
    requires var facts := OrderedJobFacts(relevant);
             i < |facts| && identity in LatestJobs(facts) && facts[i] == LatestJobs(facts)[identity]
    ensures i < |Sort(relevant, ByOutcome)| && IsLatest(relevant, identity, Sort(relevant, ByOutcome)[i])
  {
    var sorted, facts := Sort(relevant, ByOutcome), OrderedJobFacts(relevant);
    FactsOfRelevant(relevant);
    LatestHasGreatestOrder(facts, identity);
    forall other | other in relevant && other.identity == identity && JobLifecycle.Terminal(other.job.status)
      ensures OutcomeLe(other, sorted[i])
    {
      var j :| 0 <= j < |sorted| && sorted[j] == other;
      OutcomeIsGreater(relevant, identity, i, j);
    }
    assert facts[i] == FactOf(sorted[i], i + 1);
  }

  /** Ordering and then resolving keeps, for every identity, the outcome of the terminal job with the greatest
      outcome key; an identity without a terminal job has no outcome. */
  lemma {:induction false} LatestIsGreatestOutcome(relevant: seq<Relevant>, identity: Identity)
    ensures var latest := LatestJobs(OrderedJobFacts(relevant));
            && (identity in latest <==>
                exists r :: r in relevant && r.identity == identity && JobLifecycle.Terminal(r.job.status))
            && (identity in latest ==>
                exists r :: IsLatest(relevant, identity, r) && latest[identity] == FactOf(r, latest[identity].order))
  {
    var facts := OrderedJobFacts(relevant);
    var latest := LatestJobs(facts);
    if identity in latest {
      LatestHasGreatestOrder(facts, identity);
      var i :| 0 <= i < |facts| && facts[i] == latest[identity];
      OutcomeIsLatest(relevant, identity, i);
      FactsOfRelevant(relevant);
    }
    forall r | r in relevant && r.identity == identity && JobLifecycle.Terminal(r.job.status)
      ensures identity in latest
    {
      TerminalHasOutcome(relevant, identity, r);
    }
  }

  // ---------------------------------------------------------------------------
  // The result
  // ---------------------------------------------------------------------------

  predicate InReview(s: CandidateStatus) {
    s.Discovered? || s.Verifying? || s.NeedsEvidence?
  }

  predicate InCrm(s: CandidateStatus) {
    s.Accepted? || s.Promoted?
  }

  function CountWhere(candidates: seq<CandidateFact>, holds: CandidateStatus -> bool): (n: nat)
    ensures n <= |candidates|
  {
    if candidates == [] then 0
    else CountWhere(candidates[1..], holds) + if holds(candidates[0].status) then 1 else 0
  }

  function EvidenceTotal(candidates: seq<CandidateFact>): nat {
    if candidates == [] then 0
    else
      var n := candidates[0].evidenceCount;
      EvidenceTotal(candidates[1..]) + if n > 0 then n else 0
  }

  /** Identities whose latest outcome failed, of a given kind. */
  function FailedIdentities(latest: map<Identity, JobFact>, kind: JobType -> bool): set<Identity> {
    set id | id in latest && latest[id].status.Failed? && kind(latest[id].jobType)
  }

  function CountsOf(candidates: seq<CandidateFact>, latest: map<Identity, JobFact>): Counts {
    Counts(
      |candidates|,
      CountWhere(candidates, s => InReview(s)),
      CountWhere(candidates, s => s == Eligible),
      CountWhere(candidates, s => InCrm(s)),
      CountWhere(candidates, s => s == Rejected),
      EvidenceTotal(candidates),
      |FailedIdentities(latest, t => true)|,
      |FailedIdentities(latest, t => t == WebsiteVerify)|,
      |FailedIdentities(latest, t => t == CandidateAssess)|)
  }

  function CodeOf(execution: MissionStatus, counts: Counts): ResultCode {
    var failed := counts.failedJobs > 0 || execution.Failed?;
    var material := counts.discovered > 0 || counts.evidence > 0;
    if execution.Cancelled? then CancelledResult
    else if failed && material then Partial
    else if failed then FailedResult
    else if counts.readyToReview > 0 || counts.crmReady > 0 then Ready
    else if counts.needsReview > 0 then NeedsReview
    else NoResults
  }

  function FailureReason(t: JobType): Reason {
    match t
    case AcquisitionPlan => PlanningFailed
    case WebDiscovery => SearchFailed
    case WebsiteVerify => VerificationFailed
    case CandidateAssess => AnalysisFailed
    case OtherType(_) => ExecutionFailed
  }

  function FailureReasons(latest: map<Identity, JobFact>): set<Reason> {
    set id | id in latest && latest[id].status.Failed? :: FailureReason(latest[id].jobType)
  }

  predicate AnyEmptySearch(latest: map<Identity, JobFact>) {
    exists id :: id in latest && latest[id].noValidHits
  }

  function ReasonsOf(execution: MissionStatus, counts: Counts, latest: map<Identity, JobFact>): set<Reason> {
    var legacy := execution.Failed? && counts.failedJobs == 0 && (counts.discovered > 0 || counts.evidence > 0);
    var reasons := if legacy then FailureReasons(latest) + {LegacyFailedWithResults} else FailureReasons(latest);
    if !CodeOf(execution, counts).NoResults? then reasons
    else if counts.excluded > 0 then reasons + {AllCandidatesExcluded}
    else if AnyEmptySearch(latest) then reasons + {SearchNoValidHits}
    else reasons + {CompletedWithoutCandidates}
  }

  function ResultOf(facts: Facts): BusinessResult {
    var latest := LatestJobs(facts.jobs);
    var counts := CountsOf(facts.candidates, latest);
    BusinessResult(CodeOf(facts.execution, counts), ReasonsOf(facts.execution, counts, latest), counts)
  }

  /** The dictionary loop of the resolver. */
  method CollectLatest(jobs: seq<JobFact>) returns (latest: map<Identity, JobFact>)
    ensures latest == LatestJobs(jobs)
  {
    latest := map[];
    for i := 0 to |jobs|
      invariant latest == LatestJobs(jobs[..i])
    {
      assert jobs[..i + 1][..i] == jobs[..i];
      var job := jobs[i];
      if !JobLifecycle.Terminal(job.status) {
        continue;
      }
      if job.identity !in latest || job.order > latest[job.identity].order {
        latest := latest[job.identity := job];
      }
    }
    assert jobs[..|jobs|] == jobs;
  }

  method Resolve(facts: Facts) returns (result: BusinessResult)
    ensures result == ResultOf(facts)
  {
    var latest := CollectLatest(facts.jobs);
    var counts := CountsOf(facts.candidates, latest);
    var code := CodeOf(facts.execution, counts);
    var reasons := FailureReasons(latest);
    if facts.execution.Failed? && (counts.discovered > 0 || counts.evidence > 0) && counts.failedJobs == 0 {
      reasons := reasons + {LegacyFailedWithResults};
    }
    if code.NoResults? {
      if counts.excluded > 0 {
        reasons := reasons + {AllCandidatesExcluded};
      } else if AnyEmptySearch(latest) {
        reasons := reasons + {SearchNoValidHits};
      } else {
        reasons := reasons + {CompletedWithoutCandidates};
      }
    }
    result := BusinessResult(code, reasons, counts);
  }

  lemma {:induction false} EvidenceNeedsCandidates(candidates: seq<CandidateFact>)
    ensures EvidenceTotal(candidates) > 0 ==> candidates != []
  {
  }

  lemma {:induction false} StatusesPartition(candidates: seq<CandidateFact>)
    ensures |candidates| == CountWhere(candidates, s => InReview(s)) + CountWhere(candidates, s => s == Eligible)
                          + CountWhere(candidates, s => InCrm(s)) + CountWhere(candidates, s => s == Rejected)
  {
    if candidates != [] { StatusesPartition(candidates[1..]); }
  }

  /** What the code means. Every candidate is counted in exactly one group; a mission that is not cancelled has a
      partial or failed result exactly when it failed or a latest outcome did, partial exactly with a candidate; and
      "no results" means that every candidate there is was excluded. */
  lemma {:induction false} CodeMeaning(facts: Facts)
    ensures var r := ResultOf(facts); var c := r.counts;
            && c.discovered == c.needsReview + c.readyToReview + c.crmReady + c.excluded
            && (r.code == CancelledResult <==> facts.execution.Cancelled?)
            && (!facts.execution.Cancelled? ==>
                  && (r.code.Partial? || r.code.FailedResult? <==> facts.execution.Failed? || c.failedJobs > 0)
                  && (r.code.Partial? ==> facts.candidates != [])
                  && (r.code.FailedResult? ==> facts.candidates == []))
            && (r.code.NoResults? ==> c.excluded == c.discovered)
            && (r.code.NoResults? ==> (AllCandidatesExcluded in r.reasons <==> facts.candidates != []))
  {
    StatusesPartition(facts.candidates);
    EvidenceNeedsCandidates(facts.candidates);
  }
}
