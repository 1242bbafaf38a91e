/**
 The persistent background job: compare-and-set updates of one stored row, made by workers,
 by the recovery sweep, by cancellations and by a queue that may refuse a message. A worker
 whose job was recovered can still report ("zombie"), so no order of the steps is assumed.
 */
module JobLifecycle {
  import opened Common
  import JobPayload

  datatype Status = Queued | Running | Retrying | Succeeded | Failed | Cancelled

  datatype ErrorCode =
    | NoError | StaleTimeout | MaxAttemptsReached | EnqueueFailed | ScheduleFailed
    | RetryScheduleFailed | RecoveryFailed | MissionTimeout | WorkerCode(code: string)

  datatype Job = Job(
    status: Status,
    attempt: nat,
    maxAttempts: nat,
    errorCode: ErrorCode,
    startedAt: Option<Time>,
    heartbeatAt: Option<Time>,
    nextRetryAt: Option<Time>,
    finishedAt: Option<Time>)

  const HEARTBEAT_TIMEOUT: nat := 5 * 60

  function NewJob(maxAttempts: nat): Job {
    Job(Queued, 1, maxAttempts, NoError, None, None, None, None)
  }

  predicate Terminal(status: Status) {
    status.Succeeded? || status.Failed? || status.Cancelled?
  }

  predicate Active(status: Status) {
    status.Queued? || status.Running? || status.Retrying?
  }

  // ---------------------------------------------------------------------------
  // Conditional updates; None means that the WHERE clause matched no row
  // ---------------------------------------------------------------------------

  function ClaimQueued(j: Job, now: Time): Option<Job> {
    if j.status.Queued? then Some(j.(status := Running, startedAt := Some(now), heartbeatAt := Some(now)))
    else None
  }

  predicate Stale(j: Job, now: Time) {
    j.heartbeatAt.None? || j.heartbeatAt.value < now - HEARTBEAT_TIMEOUT
  }

  /** The new values come from the attempt number that was read before the UPDATE. */
  function RecoverWith(j: Job, seen: nat, now: Time): Option<Job> {
    if !j.status.Running? || !Stale(j, now) then None
    else if seen >= j.maxAttempts then
      Some(j.(status := Failed, errorCode := StaleTimeout, finishedAt := Some(now)))
    else
      Some(j.(status := Queued, attempt := seen + 1, startedAt := None, heartbeatAt := None))
  }

  function RecoverStale(j: Job, now: Time): Option<Job> {
    RecoverWith(j, j.attempt, now)
  }

  predicate Due(j: Job, now: Time) {
    j.status.Retrying? && j.nextRetryAt.Some? && j.nextRetryAt.value <= now
  }

  /** Here too the new values come from the attempt number that was read before. */
  function ClaimDueRetryWith(j: Job, seen: nat, now: Time): Option<Job> {
    if !Due(j, now) then None
    else if seen >= j.maxAttempts then
      Some(j.(status := Failed, errorCode := MaxAttemptsReached, finishedAt := Some(now)))
    else
      Some(j.(status := Queued, attempt := seen + 1, startedAt := None, heartbeatAt := None, nextRetryAt := None))
  }

  function ClaimDueRetry(j: Job, now: Time): Option<Job> {
    ClaimDueRetryWith(j, j.attempt, now)
  }

  function CancelQueued(j: Job, now: Time): Option<Job> {
    if j.status.Queued? then Some(j.(status := Cancelled, finishedAt := Some(now))) else None
  }

  // ---------------------------------------------------------------------------
  // Reports and failures
  // ---------------------------------------------------------------------------

  function Pow2(n: nat): nat {
    if n == 0 then 1 else 2 * Pow2(n - 1)
  }

  /** Seconds until the next try: 30 * 2^attempt, at most ten minutes. */
  function Backoff(attempt: nat): nat {
    var d := 30 * Pow2(attempt);
    if d < 600 then d else 600
  }

  function Fail(j: Job, code: ErrorCode, now: Time): Job {
    j.(status := Failed, errorCode := code, finishedAt := Some(now))
  }

  /** A handler success is written only over a running row. */
  function HandlerSuccess(j: Job, now: Time): Job {
    if j.status.Running? then j.(status := Succeeded, heartbeatAt := Some(now), finishedAt := Some(now)) else j
  }

  /** A collection adapter's success is written over whatever is stored. */
  function AdapterSuccess(j: Job, now: Time): Job {
    j.(status := Succeeded, finishedAt := Some(now))
  }

  /** An error report respects a cancelled row only. */
  function ReportError(j: Job, retryable: bool, code: string, now: Time): Job {
    if j.status.Cancelled? then j
    else if retryable && j.attempt < j.maxAttempts then
      j.(status := Retrying, errorCode := WorkerCode(code), heartbeatAt := Some(now),
         nextRetryAt := Some(now + Backoff(j.attempt)), finishedAt := None)
    else
      j.(status := Failed, errorCode := WorkerCode(code), heartbeatAt := Some(now),
         nextRetryAt := None, finishedAt := Some(now))
  }

  function Heartbeat(j: Job, now: Time): Job {
    j.(heartbeatAt := Some(now))
  }

  function TimeOut(j: Job, now: Time): Job {
    if Active(j.status) then Fail(j, MissionTimeout, now).(nextRetryAt := None) else j
  }

  function CancelActive(j: Job, now: Time): Job {
    if Active(j.status) then j.(status := Cancelled, finishedAt := Some(now)) else j
  }

  /** The queue refused a message. The first enqueue and the recovery write unconditionally, the
      scheduled first message checks for a queued row, the retry message for a retrying one. */
  datatype Refusal = OnCreate | OnSchedule | OnRetry | OnRecovery

  function Refused(j: Job, r: Refusal, now: Time): Job {
    match r
    case OnCreate => Fail(j, EnqueueFailed, now)
    case OnSchedule => if j.status.Queued? then Fail(j, ScheduleFailed, now) else j
    case OnRetry =>
      if j.status.Retrying? then Fail(j, RetryScheduleFailed, now).(nextRetryAt := None) else j
    case OnRecovery => Fail(j, RecoveryFailed, now)
  }

  // ---------------------------------------------------------------------------
  // Runs
  // ---------------------------------------------------------------------------

  datatype Action =
    | Claim(now: Time)
    | Recover(now: Time)
    | ActivateRetry(now: Time)
    | CancelWhileQueued(now: Time)
    | SucceedHandler(now: Time)
    | SucceedAdapter(now: Time)
    | Error(retryable: bool, code: string, now: Time)
    | Beat(now: Time)
    | Timeout(now: Time)
    | CancelRun(now: Time)
    | QueueRefuses(refusal: Refusal, now: Time)

  /** The stored row and the number of times a worker has claimed it so far. */
  datatype Tracked = Tracked(job: Job, claims: nat)

  function Apply(t: Tracked, update: Option<Job>): Tracked {
    match update case Some(job) => t.(job := job) case None => t
  }

  function Next(t: Tracked, a: Action): Tracked {
    match a
    case Claim(now) =>
      (match ClaimQueued(t.job, now) case Some(job) => Tracked(job, t.claims + 1) case None => t)
    case Recover(now) => Apply(t, RecoverStale(t.job, now))
    case ActivateRetry(now) => Apply(t, ClaimDueRetry(t.job, now))
    case CancelWhileQueued(now) => Apply(t, CancelQueued(t.job, now))
    case SucceedHandler(now) => t.(job := HandlerSuccess(t.job, now))
    case SucceedAdapter(now) => t.(job := AdapterSuccess(t.job, now))
    case Error(retryable, code, now) => t.(job := ReportError(t.job, retryable, code, now))
    case Beat(now) => t.(job := Heartbeat(t.job, now))
    case Timeout(now) => t.(job := TimeOut(t.job, now))
    case CancelRun(now) => t.(job := CancelActive(t.job, now))
    case QueueRefuses(refusal, now) => t.(job := Refused(t.job, refusal, now))
  }

  function Run(t: Tracked, actions: seq<Action>): Tracked
    decreases |actions|
  {
    if actions == [] then t else Run(Next(t, actions[0]), actions[1..])
  }

  function Fresh(maxAttempts: nat): Tracked {
    Tracked(NewJob(maxAttempts), 0)
  }

  // ---------------------------------------------------------------------------
  // How often a job can be executed
  // ---------------------------------------------------------------------------

  ghost predicate Inv(t: Tracked) {
    && 1 <= t.job.attempt <= t.job.maxAttempts
    && t.claims <= t.job.attempt
    && (t.job.status.Queued? ==> t.claims < t.job.attempt)
    && (t.job.status.Retrying? ==> t.job.nextRetryAt.Some? && t.job.attempt < t.job.maxAttempts)
  }

  lemma {:induction false} StepKeepsInv(t: Tracked, a: Action)
    requires Inv(t)
    ensures Inv(Next(t, a))
    ensures Next(t, a).job.maxAttempts == t.job.maxAttempts
  {
  }

  lemma {:induction false} RunKeepsInv(t: Tracked, actions: seq<Action>)
    requires Inv(t)
    ensures Inv(Run(t, actions))
    ensures Run(t, actions).job.maxAttempts == t.job.maxAttempts
    decreases |actions|
  {
    if actions != [] {
      StepKeepsInv(t, actions[0]);
      RunKeepsInv(Next(t, actions[0]), actions[1..]);
    }
  }

  /** Over every run, zombies included, a job is claimed at most `maxAttempts` times; a claim is always
      covered by the attempt number, and a queued row has an attempt left to spend. */
  lemma {:induction false} ClaimedAtMostMaxAttempts(maxAttempts: nat, actions: seq<Action>)
    requires maxAttempts >= 1
    ensures var t := Run(Fresh(maxAttempts), actions);
            && t.claims <= t.job.attempt <= t.job.maxAttempts == maxAttempts
            && (t.job.status.Queued? ==> t.claims <= t.job.attempt - 1)
  {
    RunKeepsInv(Fresh(maxAttempts), actions);
  }

  /** A retrying row always carries its due time and an attempt to spend, so activating a retry re-queues it:
      the branch that fails an exhausted retry is dead. */
  lemma {:induction false} ExhaustedRetryIsDead(maxAttempts: nat, actions: seq<Action>, now: Time)
    requires maxAttempts >= 1
    ensures var j := Run(Fresh(maxAttempts), actions).job;
            && (j.status.Retrying? ==> j.nextRetryAt.Some? && j.attempt < j.maxAttempts)
            && (ClaimDueRetry(j, now).Some? ==> ClaimDueRetry(j, now).value.status == Queued)
  {
    RunKeepsInv(Fresh(maxAttempts), actions);
  }

  // ---------------------------------------------------------------------------
  // Reaching a terminal status
  // ---------------------------------------------------------------------------

  /** A terminal status is left exactly by a retryable error report of a worker with attempts left on a row
      that is not cancelled, or by an adapter success or an unguarded queue failure overwriting it. */
  lemma {:induction false} TerminalLeftIff(t: Tracked, a: Action)
    requires Inv(t) && Terminal(t.job.status)
    ensures !Terminal(Next(t, a).job.status) <==>
            a.Error? && a.retryable && t.job.attempt < t.job.maxAttempts && !t.job.status.Cancelled?
    ensures Next(t, a).job.status != t.job.status ==>
            a.Error? || a.SucceedAdapter? || (a.QueueRefuses? && (a.refusal.OnCreate? || a.refusal.OnRecovery?))
  {
  }

  /** Only the current claimant reports, and the queue refuses only the message of a queued or retrying row. */
  predicate Orderly(t: Tracked, a: Action) {
    match a
    case SucceedHandler(_) => t.job.status.Running?
    case SucceedAdapter(_) => t.job.status.Running?
    case Error(_, _, _) => t.job.status.Running?
    case QueueRefuses(OnCreate, _) => t.job.status.Queued?
    case QueueRefuses(OnRecovery, _) => t.job.status.Queued?
    case _ => true
  }

  predicate OrderlyRun(t: Tracked, actions: seq<Action>)
    decreases |actions|
  {
    actions == [] || (Orderly(t, actions[0]) && OrderlyRun(Next(t, actions[0]), actions[1..]))
  }

  function Rank(status: Status): nat {
    match status
    case Queued => 3
    case Running => 2
    case Retrying => 1
    case _ => 0
  }

  /** Lexicographic in (attempts left, status rank), written as one number. */
  function Measure(j: Job): nat
    requires j.attempt <= j.maxAttempts
  {
    if Terminal(j.status) then 0 else 3 * (j.maxAttempts - j.attempt) + Rank(j.status)
  }

  predicate Moves(t: Tracked, a: Action) {
    Next(t, a).job.status != t.job.status
  }

  lemma {:induction false} OrderlyStepDecreases(t: Tracked, a: Action)
    requires Inv(t) && Orderly(t, a)
    ensures Inv(Next(t, a))
    ensures Moves(t, a) ==> Measure(Next(t, a).job) < Measure(t.job)
    ensures !Moves(t, a) ==> Measure(Next(t, a).job) == Measure(t.job)
  {
  }

  /** Status changes in a run. */
  function MovesIn(t: Tracked, actions: seq<Action>): nat
    decreases |actions|
  {
    if actions == [] then 0
    else MovesIn(Next(t, actions[0]), actions[1..]) + if Moves(t, actions[0]) then 1 else 0
  }

  lemma {:induction false} OrderlyMovesBound(t: Tracked, actions: seq<Action>)
    requires Inv(t) && OrderlyRun(t, actions)
    ensures Inv(Run(t, actions))
    ensures MovesIn(t, actions) + Measure(Run(t, actions).job) <= Measure(t.job)
    decreases |actions|
  {
    if actions != [] {
      OrderlyStepDecreases(t, actions[0]);
      OrderlyMovesBound(Next(t, actions[0]), actions[1..]);
    }
  }

  /** An orderly run changes the status at most 3 * maxAttempts times. */
  lemma {:induction false} OrderlyRunsAreShort(maxAttempts: nat, actions: seq<Action>)
    requires maxAttempts >= 1 && OrderlyRun(Fresh(maxAttempts), actions)
    ensures MovesIn(Fresh(maxAttempts), actions) <= 3 * maxAttempts
  {
    OrderlyMovesBound(Fresh(maxAttempts), actions);
  }

  /** In orderly runs a terminal status is final. */
  lemma {:induction false} OrderlyTerminalIsFinal(t: Tracked, actions: seq<Action>)
    requires Inv(t) && Terminal(t.job.status) && OrderlyRun(t, actions)
    ensures Run(t, actions).job.status == t.job.status
    decreases |actions|
  {
    if actions != [] {
      StepKeepsInv(t, actions[0]);
      OrderlyTerminalIsFinal(Next(t, actions[0]), actions[1..]);
    }
  }

  /** Without the restriction it is not: a worker that reports an error after its success re-opens the job. */
  lemma {:induction false} LateErrorReopensSuccess()
    ensures var t := Next(Next(Fresh(3), Claim(0)), SucceedHandler(1));
            && t.job.status == Succeeded
            && Next(t, Error(true, "worker_error", 2)).job.status == Retrying
  {
    var t := Next(Next(Fresh(3), Claim(0)), SucceedHandler(1));
    assert t.job.attempt == 1;
  }

  /** The step the system takes by itself, without any report, late enough to be due. */
  function Driver(j: Job): Action {
    match j.status
    case Queued => Claim(0)
    case Running => Recover(if j.heartbeatAt.Some? then j.heartbeatAt.value + HEARTBEAT_TIMEOUT + 1 else 0)
    case _ => ActivateRetry(if j.nextRetryAt.Some? then j.nextRetryAt.value else 0)
  }

  function Drive(t: Tracked, steps: nat): Tracked
    decreases steps
  {
    if steps == 0 then t else Drive(Next(t, Driver(t.job)), steps - 1)
  }

  lemma {:induction false} DriverMoves(t: Tracked)
    requires Inv(t) && !Terminal(t.job.status)
    ensures Orderly(t, Driver(t.job)) && Moves(t, Driver(t.job))
  {
  }

  /** Nothing gets stuck: from any reachable row, even if every worker dies silently, claims, recoveries and
      retry activations alone reach a terminal status within the measure. */
  lemma {:induction false} DriverReachesTerminal(t: Tracked, steps: nat)
    requires Inv(t) && steps >= Measure(t.job)
    ensures Terminal(Drive(t, steps).job.status)
    decreases steps
  {
    if !Terminal(t.job.status) {
      DriverMoves(t);
      OrderlyStepDecreases(t, Driver(t.job));
      DriverReachesTerminal(Next(t, Driver(t.job)), steps - 1);
    } else if steps > 0 {
      StepKeepsInv(t, Driver(t.job));
      DriverReachesTerminal(Next(t, Driver(t.job)), steps - 1);
    }
  }

  /** The execution bound is reached: a job whose workers all die silently is claimed exactly once per attempt. */
  lemma {:induction false} SilentDeathsUseEveryAttempt(t: Tracked)
    requires Inv(t) && t.job.status.Queued? && t.claims == t.job.attempt - 1
    ensures var end := Drive(t, 2 * (t.job.maxAttempts - t.job.attempt) + 2);
            end.claims == t.job.maxAttempts && end.job.status == Failed && end.job.errorCode == StaleTimeout
    decreases t.job.maxAttempts - t.job.attempt
  {
    var running := Next(t, Driver(t.job));
    var recovered := Next(running, Driver(running.job));
    var n := 2 * (t.job.maxAttempts - t.job.attempt) + 2;
    assert Drive(t, n) == Drive(running, n - 1) == Drive(recovered, n - 2);
    if t.job.attempt < t.job.maxAttempts {
      SilentDeathsUseEveryAttempt(recovered);
    }
  }

  // ---------------------------------------------------------------------------
  // Torn recoveries and activations
  // ---------------------------------------------------------------------------

  function DriverActions(t: Tracked, steps: nat): seq<Action>
    decreases steps
  {
    if steps == 0 then [] else [Driver(t.job)] + DriverActions(Next(t, Driver(t.job)), steps - 1)
  }

  lemma {:induction false} DriveIsRun(t: Tracked, steps: nat)
    ensures Run(t, DriverActions(t, steps)) == Drive(t, steps)
    decreases steps
  {
    if steps > 0 {
      var next := Next(t, Driver(t.job));
      assert DriverActions(t, steps)[1..] == DriverActions(next, steps - 1);
      DriveIsRun(next, steps - 1);
    }
  }

  /** From a queued row, workers that die silently claim it once for every attempt it has left. */
  lemma {:induction false} QueuedRowIsClaimed(t: Tracked)
    requires t.job.status.Queued? && t.job.attempt <= t.job.maxAttempts
    ensures Drive(t, 2 * (t.job.maxAttempts - t.job.attempt) + 2).claims
         == t.claims + t.job.maxAttempts - t.job.attempt + 1
    decreases t.job.maxAttempts - t.job.attempt
  {
    var running := Next(t, Driver(t.job));
    var recovered := Next(running, Driver(running.job));
    var n := 2 * (t.job.maxAttempts - t.job.attempt) + 2;
    assert Drive(t, n) == Drive(running, n - 1) == Drive(recovered, n - 2);
    if t.job.attempt < t.job.maxAttempts {
      QueuedRowIsClaimed(recovered);
    }
  }

  /** Whether the bound holds whatever happens from here on. */
  ghost predicate BoundHolds(t: Tracked, maxAttempts: nat) {
    forall actions :: Run(t, actions).claims <= maxAttempts
  }

  lemma {:induction false} InvBounds(t: Tracked, maxAttempts: nat)
    requires Inv(t) && t.job.maxAttempts == maxAttempts
    ensures BoundHolds(t, maxAttempts)
  {
    forall actions ensures Run(t, actions).claims <= maxAttempts {
      RunKeepsInv(t, actions);
    }
  }

  /** A queued row that has as many claims as attempts can be claimed too often. */
  lemma {:induction false} QueuedTooEarly(t: Tracked, maxAttempts: nat)
    requires t.job.status.Queued? && t.job.attempt <= t.job.maxAttempts == maxAttempts && t.claims >= t.job.attempt
    ensures !BoundHolds(t, maxAttempts)
  {
    QueuedRowIsClaimed(t);
    var n := 2 * (t.job.maxAttempts - t.job.attempt) + 2;
    DriveIsRun(t, n);
    assert Run(t, DriverActions(t, n)).claims > maxAttempts;
  }

  /** The recovery reads the attempt number before its UPDATE, whose WHERE clause does not compare it. The bound
      survives such a torn recovery, over every continuation, exactly when it fails the job or the number read
      covers every claim made. */
  lemma {:induction false} TornRecoverySafeIff(t: Tracked, seen: nat, now: Time)
    requires Inv(t) && RecoverWith(t.job, seen, now).Some?
    ensures BoundHolds(Apply(t, RecoverWith(t.job, seen, now)), t.job.maxAttempts) <==>
            seen >= t.job.maxAttempts || seen >= t.claims
  {
    var torn := Apply(t, RecoverWith(t.job, seen, now));
    if seen >= t.job.maxAttempts || seen >= t.claims {
      InvBounds(torn, t.job.maxAttempts);
    } else {
      QueuedTooEarly(torn, t.job.maxAttempts);
    }
  }

  /** The activation of a retry reads the attempt number in the same way, with the same exact condition. */
  lemma {:induction false} TornActivationSafeIff(t: Tracked, seen: nat, now: Time)
    requires Inv(t) && ClaimDueRetryWith(t.job, seen, now).Some?
    ensures BoundHolds(Apply(t, ClaimDueRetryWith(t.job, seen, now)), t.job.maxAttempts) <==>
            seen >= t.job.maxAttempts || seen >= t.claims
  {
    var torn := Apply(t, ClaimDueRetryWith(t.job, seen, now));
    if seen >= t.job.maxAttempts || seen >= t.claims {
      InvBounds(torn, t.job.maxAttempts);
    } else {
      QueuedTooEarly(torn, t.job.maxAttempts);
    }
  }

  /** In particular the bound can break only if the number read is not the one stored at the time of the UPDATE,
      which the WHERE clause could compare. */
  lemma {:induction false} ComparedRecoveryIsSafe(t: Tracked, seen: nat, now: Time)
    requires Inv(t) && RecoverWith(t.job, seen, now).Some?
    ensures seen >= t.job.attempt ==> BoundHolds(Apply(t, RecoverWith(t.job, seen, now)), t.job.maxAttempts)
  {
    TornRecoverySafeIff(t, seen, now);
  }

  /** A torn recovery that does break it: two recoveries read attempt 1, and a job with two attempts is claimed
      three times. */
  lemma {:induction false} TornRecoveryCanExceedTheBound()
    ensures var t := Run(Fresh(2), [Claim(0), Recover(1000), Claim(1000)]);
            var torn := Apply(t, RecoverWith(t.job, 1, 2000));
            Next(torn, Claim(2000)).claims == 3
  {
    var actions := [Claim(0), Recover(1000), Claim(1000)];
    var t1 := Next(Fresh(2), actions[0]);
    var t2 := Next(t1, actions[1]);
    var t3 := Next(t2, actions[2]);
    assert actions[1..][1..][1..] == [];
    assert Run(Fresh(2), actions) == Run(t1, actions[1..]) == Run(t2, actions[1..][1..]) == t3;
  }

  // ---------------------------------------------------------------------------
  // Retry delays
  // ---------------------------------------------------------------------------

  lemma {:induction false} Pow2AtLeast(n: nat, m: nat)
    requires n <= m
    ensures Pow2(n) <= Pow2(m)
  {
    if n < m { Pow2AtLeast(n, m - 1); }
  }

  /** Retry delays never shrink from one attempt to the next, start at a minute and are capped from attempt 5 on. */
  lemma {:induction false} BackoffGrows(attempt: nat, later: nat)
    requires 1 <= attempt <= later
    ensures 60 <= Backoff(attempt) <= Backoff(later) <= 600
    ensures Backoff(attempt) == 600 <==> attempt >= 5
  {
    Pow2AtLeast(1, attempt);
    Pow2AtLeast(attempt, later);
    assert Pow2(1) == 2 && Pow2(2) == 4 && Pow2(3) == 8;
    assert Pow2(4) == 16 && Pow2(5) == 32;
    if attempt >= 5 { Pow2AtLeast(5, attempt); } else { Pow2AtLeast(attempt, 4); }
  }

  // ---------------------------------------------------------------------------
  // The table
  // ---------------------------------------------------------------------------

  type JobId = string

  predicate StaleRunning(j: Job, now: Time) {
    j.status.Running? && Stale(j, now)
  }

  predicate NeedsSweep(j: Job, now: Time) {
    StaleRunning(j, now) || Due(j, now)
  }

  /** A re-queued row whose message the queue refuses is failed. */
  function Requeued(j: Job, now: Time, accepted: bool): Job {
    if j.status.Queued? && !accepted then Refused(j, OnRecovery, now) else j
  }

  function StalePass(j: Job, now: Time, accepted: bool): Job {
    if StaleRunning(j, now) then Requeued(RecoverStale(j, now).value, now, accepted) else j
  }

  function RetryPass(j: Job, now: Time, accepted: bool): Job {
    if Due(j, now) then Requeued(ClaimDueRetry(j, now).value, now, accepted) else j
  }

  /** What one undisturbed recovery sweep makes of a row; `accepted` says whether the queue takes its message. */
  function Swept(j: Job, now: Time, accepted: bool): Job {
    RetryPass(StalePass(j, now, accepted), now, accepted)
  }

  /** After a sweep nothing is left to recover: a second sweep at the same time changes nothing. */
  lemma {:induction false} SweepIsComplete(j: Job, now: Time, accepted: bool)
    ensures !NeedsSweep(Swept(j, now, accepted), now)
    ensures Swept(Swept(j, now, accepted), now, accepted) == Swept(j, now, accepted)
  {
  }

  datatype Which = Sweeping | StaleOnly | DueOnly

  predicate Picks(w: Which, j: Job, now: Time) {
    match w
    case Sweeping => NeedsSweep(j, now)
    case StaleOnly => StaleRunning(j, now)
    case DueOnly => Due(j, now)
  }

  function Count(ids: seq<JobId>, jobs: map<JobId, Job>, w: Which, now: Time): nat
    requires forall id :: id in ids ==> id in jobs
  {
    if ids == [] then 0
    else Count(ids[..|ids| - 1], jobs, w, now) + if Picks(w, jobs[ids[|ids| - 1]], now) then 1 else 0
  }

  /** What the pass that picks such rows makes of a row. */
  function Passed(w: Which, j: Job, now: Time, accepted: bool): Job {
    match w
    case Sweeping => Swept(j, now, accepted)
    case StaleOnly => StalePass(j, now, accepted)
    case DueOnly => RetryPass(j, now, accepted)
  }

  /** The table after the first i rows of the list have been passed. */
  ghost predicate PassedUpTo(w: Which, ids: seq<JobId>, before: map<JobId, Job>, jobs: map<JobId, Job>, i: nat,
      now: Time, accepts: JobId -> bool)
    requires i <= |ids|
  {
    && jobs.Keys == before.Keys
    && forall id :: id in jobs ==> jobs[id] == if id in ids[..i] then Passed(w, before[id], now, accepts(id))
                                               else before[id]
  }

  ghost predicate Lists(ids: seq<JobId>, jobs: map<JobId, Job>) {
    && (forall id :: id in jobs <==> id in ids)
    && (forall i, j :: 0 <= i < j < |ids| ==> ids[i] != ids[j])
  }

  lemma {:induction false} PassNext(w: Which, ids: seq<JobId>, before: map<JobId, Job>, jobs: map<JobId, Job>,
      i: nat, now: Time, accepts: JobId -> bool)
    requires i < |ids| && Lists(ids, before) && PassedUpTo(w, ids, before, jobs, i, now, accepts)
    ensures ids[i] in jobs && jobs[ids[i]] == before[ids[i]]
    ensures PassedUpTo(w, ids, before, jobs[ids[i] := Passed(w, jobs[ids[i]], now, accepts(ids[i]))], i + 1, now,
        accepts)
    ensures Count(ids[..i + 1], before, w, now) == Count(ids[..i], before, w, now) + if Picks(w, before[ids[i]], now)
        then 1 else 0
  {
    assert ids[..i + 1][..i] == ids[..i] && ids[..i + 1] == ids[..i] + [ids[i]];
    assert ids[i] !in ids[..i];
  }

  datatype RetryStart = JobNotFound | Rescheduled | NotDueOrInactive | Activated

  /** No row is counted by both passes, and the first pass makes no retry due. */
  lemma {:induction false} CountsAdd(ids: seq<JobId>, jobs: map<JobId, Job>, between: map<JobId, Job>, now: Time,
                                     accepts: JobId -> bool)
    requires forall id :: id in ids ==> id in jobs && id in between
    requires forall id :: id in ids ==> between[id] == StalePass(jobs[id], now, accepts(id))
    ensures Count(ids, jobs, Sweeping, now)
         == Count(ids, jobs, StaleOnly, now) + Count(ids, between, DueOnly, now)
  {
    if ids != [] { CountsAdd(ids[..|ids| - 1], jobs, between, now, accepts); }
  }

  class JobTable {
    var jobs: map<JobId, Job>

    constructor ()
      ensures jobs == map[]
    {
      jobs := map[];
    }

    /** Refuse a payload that names a secret; else persist a queued row and hand its id to the queue; a message the
        queue refuses fails the row. `serializable` says whether the payload has a JSON text. */
    method CreateAndEnqueue(id: JobId, payload: JobPayload.Payload, serializable: bool, maxAttempts: nat, now: Time,
        accepted: bool)
      returns (ok: bool)
      requires id !in jobs
      modifies this
      ensures ok <==> !JobPayload.ContainsForbiddenKey(payload) && serializable && accepted
      ensures JobPayload.ContainsForbiddenKey(payload) || !serializable ==> jobs == old(jobs)
      ensures !JobPayload.ContainsForbiddenKey(payload) && serializable ==>
                jobs == old(jobs)[id := if accepted then NewJob(maxAttempts)
                                        else Refused(NewJob(maxAttempts), OnCreate, now)]
    {
      if JobPayload.ContainsForbiddenKey(payload) || !serializable {
        return false;
      }
      jobs := jobs[id := NewJob(maxAttempts)];
      if !accepted {
        jobs := jobs[id := jobs[id].(status := Failed, errorCode := EnqueueFailed, finishedAt := Some(now))];
      }
      return accepted;
    }

    method ClaimQueuedForWorker(id: JobId, now: Time) returns (claimed: Option<Job>)
      modifies this
      ensures claimed == if id in old(jobs) then ClaimQueued(old(jobs)[id], now) else None
      ensures jobs == if claimed.Some? then old(jobs)[id := claimed.value] else old(jobs)
    {
      if id !in jobs || jobs[id].status != Queued {
        return None;
      }
      jobs := jobs[id := jobs[id].(status := Running, startedAt := Some(now), heartbeatAt := Some(now))];
      return Some(jobs[id]);
    }

    method CancelQueuedForTenant(id: JobId, now: Time) returns (cancelled: bool)
      modifies this
      ensures cancelled <==> id in old(jobs) && old(jobs)[id].status == Queued
      ensures jobs == if cancelled then old(jobs)[id := CancelQueued(old(jobs)[id], now).value] else old(jobs)
    {
      if id !in jobs || jobs[id].status != Queued {
        return false;
      }
      jobs := jobs[id := jobs[id].(status := Cancelled, finishedAt := Some(now))];
      return true;
    }

    /** A failed execution: retry later if the error allows it and attempts are left, else fail. A retry whose
        delayed message the queue refuses is failed at once. */
    method HandleWorkerError(id: JobId, retryable: bool, code: string, now: Time, accepted: bool)
      modifies this
      ensures id !in old(jobs) ==> jobs == old(jobs)
      ensures id in old(jobs) ==>
                var reported := ReportError(old(jobs)[id], retryable, code, now);
                jobs == old(jobs)[id := if accepted || old(jobs)[id].status == Cancelled then reported
                                        else Refused(reported, OnRetry, now)]
    {
      if id !in jobs || jobs[id].status == Cancelled {
        return;
      }
      var job := jobs[id];
      if retryable && job.attempt < job.maxAttempts {
        jobs := jobs[id := job.(status := Retrying, errorCode := WorkerCode(code), heartbeatAt := Some(now),
                                nextRetryAt := Some(now + Backoff(job.attempt)), finishedAt := None)];
        if !accepted {
          jobs := jobs[id := jobs[id].(status := Failed, errorCode := RetryScheduleFailed, nextRetryAt := None,
                                       finishedAt := Some(now))];
        }
      } else {
        jobs := jobs[id := job.(status := Failed, errorCode := WorkerCode(code), heartbeatAt := Some(now),
                                nextRetryAt := None, finishedAt := Some(now))];
      }
    }

    /** The delayed message arrives: early, it is sent again; due, the row is queued under a new attempt number. */
    method ExecuteScheduledRetry(id: JobId, now: Time, accepted: bool) returns (start: RetryStart)
      modifies this
      ensures start == JobNotFound <==> id !in old(jobs)
      ensures start == Activated <==> id in old(jobs) && Due(old(jobs)[id], now)
      ensures start == Activated ==> jobs == old(jobs)[id := ClaimDueRetry(old(jobs)[id], now).value]
      ensures start == Rescheduled ==>
                && old(jobs)[id].status == Retrying && old(jobs)[id].nextRetryAt.Some?
                && jobs == if accepted then old(jobs) else old(jobs)[id := Refused(old(jobs)[id], OnRetry, now)]
      ensures start == NotDueOrInactive || start == JobNotFound ==> jobs == old(jobs)
    {
      if id !in jobs {
        return JobNotFound;
      }
      var job := jobs[id];
      if job.status == Retrying && job.nextRetryAt.Some? && job.nextRetryAt.value > now {
        if !accepted {
          jobs := jobs[id := job.(status := Failed, errorCode := RetryScheduleFailed, nextRetryAt := None,
              finishedAt := Some(now))];
        }
        return Rescheduled;
      }
      if job.status != Retrying || job.nextRetryAt.None? {
        return NotDueOrInactive;
      }
      if job.attempt >= job.maxAttempts {
        jobs := jobs[id := job.(status := Failed, errorCode := MaxAttemptsReached, finishedAt := Some(now))];
      } else {
        jobs := jobs[id := job.(status := Queued, attempt := job.attempt + 1, startedAt := None, heartbeatAt := None,
                                nextRetryAt := None)];
      }
      return Activated;
    }

    /** The sweep: recover every stale running row, then activate every due retry, and put each re-queued row
        on the queue again. `ids` is the table in any order. */
    method RecoverStaleJobs(ids: seq<JobId>, now: Time, accepts: JobId -> bool) returns (recovered: nat)
      requires Lists(ids, jobs)
      modifies this
      ensures jobs.Keys == old(jobs).Keys
      ensures forall id :: id in jobs ==> jobs[id] == Swept(old(jobs)[id], now, accepts(id))
      ensures recovered == Count(ids, old(jobs), Sweeping, now)
    {
      ghost var before := jobs;
      var stale := RecoverStaleRunning(ids, now, accepts);
      ghost var between := jobs;
      CountsAdd(ids, before, between, now, accepts);
      var due := ActivateDueRetries(ids, now, accepts);
      recovered := stale + due;
    }

    method RecoverStaleRunning(ids: seq<JobId>, now: Time, accepts: JobId -> bool) returns (recovered: nat)
      requires Lists(ids, jobs)
      modifies this
      ensures jobs.Keys == old(jobs).Keys
      ensures forall id :: id in jobs ==> jobs[id] == StalePass(old(jobs)[id], now, accepts(id))
      ensures recovered == Count(ids, old(jobs), StaleOnly, now)
    {
      ghost var before := jobs;
      recovered := 0;
      for i := 0 to |ids|
        invariant PassedUpTo(StaleOnly, ids, before, jobs, i, now, accepts)
        invariant recovered == Count(ids[..i], before, StaleOnly, now)
      {
        PassNext(StaleOnly, ids, before, jobs, i, now, accepts);
        var changed := RecoverOne(ids[i], now, accepts(ids[i]));
        if changed {
          recovered := recovered + 1;
        }
      }
      assert ids[..|ids|] == ids;
    }

    method ActivateDueRetries(ids: seq<JobId>, now: Time, accepts: JobId -> bool) returns (recovered: nat)
      requires Lists(ids, jobs)
      modifies this
      ensures jobs.Keys == old(jobs).Keys
      ensures forall id :: id in jobs ==> jobs[id] == RetryPass(old(jobs)[id], now, accepts(id))
      ensures recovered == Count(ids, old(jobs), DueOnly, now)
    {
      ghost var before := jobs;
      recovered := 0;
      for i := 0 to |ids|
        invariant PassedUpTo(DueOnly, ids, before, jobs, i, now, accepts)
        invariant recovered == Count(ids[..i], before, DueOnly, now)
      {
        PassNext(DueOnly, ids, before, jobs, i, now, accepts);
        var changed := ActivateOne(ids[i], now, accepts(ids[i]));
        if changed {
          recovered := recovered + 1;
        }
      }
      assert ids[..|ids|] == ids;
    }

    method RecoverOne(id: JobId, now: Time, accepted: bool) returns (changed: bool)
      requires id in jobs
      modifies this
      ensures jobs == old(jobs)[id := StalePass(old(jobs)[id], now, accepted)]
      ensures changed <==> StaleRunning(old(jobs)[id], now)
    {
      changed := StaleRunning(jobs[id], now);
      assert jobs == jobs[id := jobs[id]];
      if changed {
        jobs := jobs[id := RecoverStale(jobs[id], now).value];
        EnqueueRecovered(id, now, accepted);
      }
    }

    method ActivateOne(id: JobId, now: Time, accepted: bool) returns (changed: bool)
      requires id in jobs
      modifies this
      ensures jobs == old(jobs)[id := RetryPass(old(jobs)[id], now, accepted)]
      ensures changed <==> Due(old(jobs)[id], now)
    {
      changed := Due(jobs[id], now);
      assert jobs == jobs[id := jobs[id]];
      if changed {
        jobs := jobs[id := ClaimDueRetry(jobs[id], now).value];
        EnqueueRecovered(id, now, accepted);
      }
    }

    method EnqueueRecovered(id: JobId, now: Time, accepted: bool)
      requires id in jobs
      modifies this
      ensures jobs == old(jobs)[id := Requeued(old(jobs)[id], now, accepted)]
    {
      if jobs[id].status == Queued && !accepted {
        jobs := jobs[id := jobs[id].(status := Failed, errorCode := RecoveryFailed, finishedAt := Some(now))];
      }
    }
  }
}
