/** What every writer of a job does to its row, in terms of the stored fields and of literal numbers. */
module JobMeaning {
  import opened Common
  import opened JobLifecycle

  // ---------------------------------------------------------------------------
  // When a writer finds its row
  // ---------------------------------------------------------------------------

  /** The worker of a running job has not been heard of for more than five minutes. */
  predicate LostWorker(j: Job, now: Time) {
    j.status == Running && (j.heartbeatAt.None? || j.heartbeatAt.value + 300 < now)
  }

  /** The retry of the job is due. */
  predicate RetryDue(j: Job, now: Time) {
    j.status == Retrying && j.nextRetryAt.Some? && j.nextRetryAt.value <= now
  }

  predicate Live(status: Status) {
    status == Queued || status == Running || status == Retrying
  }

  /** Tried again: queued for its next attempt, as if new. */
  function Again(j: Job): Job {
    j.(status := Queued, attempt := j.attempt + 1, startedAt := None, heartbeatAt := None)
  }

  function FailedAs(j: Job, code: ErrorCode, now: Time): Job {
    j.(status := Failed, errorCode := code, finishedAt := Some(now))
  }

  // ---------------------------------------------------------------------------
  // What the writers write
  // ---------------------------------------------------------------------------

  /** A claim starts a queued job and is counted; any other job it leaves alone. */
  lemma {:induction false} ClaimMeans(t: Tracked, now: Time)
    ensures Next(t, Claim(now))
         == if t.job.status == Queued
            then Tracked(t.job.(status := Running, startedAt := Some(now), heartbeatAt := Some(now)), t.claims + 1)
            else t
  {
  }

  /** A job with a lost worker is tried again while it has attempts left, and fails otherwise; a due retry likewise. */
  lemma {:induction false} RecoveryMeans(t: Tracked, now: Time)
    ensures Next(t, Recover(now)).job
         == if !LostWorker(t.job, now) then t.job
            else if t.job.attempt < t.job.maxAttempts then Again(t.job) else FailedAs(t.job, StaleTimeout, now)
    ensures Next(t, ActivateRetry(now)).job
         == if !RetryDue(t.job, now) then t.job
            else if t.job.attempt < t.job.maxAttempts then Again(t.job).(nextRetryAt := None)
            else FailedAs(t.job, MaxAttemptsReached, now)
    ensures Next(t, Recover(now)).claims == Next(t, ActivateRetry(now)).claims == t.claims
  {
  }

  /** The first retries wait one, two, four and eight minutes, every later one ten. */
  lemma {:induction false} BackoffIs(attempt: nat)
    ensures Backoff(1) == 60 && Backoff(2) == 120 && Backoff(3) == 240 && Backoff(4) == 480
    ensures attempt >= 5 ==> Backoff(attempt) == 600
  {
    assert Pow2(1) == 2 && Pow2(2) == 4 && Pow2(3) == 8;
    assert Pow2(4) == 16;
    if attempt >= 5 { BackoffGrows(attempt, attempt); }
  }

  /** An error is kept from a cancelled job only. It schedules a retry while attempts are left, and fails the job
      otherwise. */
  lemma {:induction false} ErrorMeans(t: Tracked, retryable: bool, code: string, now: Time)
    ensures var j := t.job.(errorCode := WorkerCode(code), heartbeatAt := Some(now));
            Next(t, Error(retryable, code, now)).job
            == if t.job.status == Cancelled then t.job
               else if retryable && t.job.attempt < t.job.maxAttempts then
                 j.(status := Retrying, nextRetryAt := Some(now + Backoff(t.job.attempt)), finishedAt := None)
               else j.(status := Failed, nextRetryAt := None, finishedAt := Some(now))
    ensures Next(t, Error(retryable, code, now)).claims == t.claims
  {
  }

  /** A handler completes a running job, an adapter any; a beat only tells that the worker lives. */
  lemma {:induction false} SuccessMeans(t: Tracked, now: Time)
    ensures Next(t, SucceedHandler(now))
         == if t.job.status == Running
            then t.(job := t.job.(status := Succeeded, heartbeatAt := Some(now), finishedAt := Some(now))) else t
    ensures Next(t, SucceedAdapter(now)) == t.(job := t.job.(status := Succeeded, finishedAt := Some(now)))
    ensures Next(t, Beat(now)) == t.(job := t.job.(heartbeatAt := Some(now)))
  {
  }

  /** Cancelling a queued job, cancelling the job of a run, and the deadline of a mission end what is not over. */
  lemma {:induction false} EndMeans(t: Tracked, now: Time)
    ensures Next(t, CancelWhileQueued(now))
         == if t.job.status == Queued then t.(job := t.job.(status := Cancelled, finishedAt := Some(now))) else t
    ensures Next(t, CancelRun(now))
         == if Live(t.job.status) then t.(job := t.job.(status := Cancelled, finishedAt := Some(now))) else t
    ensures Next(t, Timeout(now))
         == if Live(t.job.status) then t.(job := FailedAs(t.job, MissionTimeout, now).(nextRetryAt := None)) else t
  {
  }

  /** A message the queue refuses fails the job it was for: at its creation and its recovery in any case, as a scheduled
      one only while it is queued, as a retry only while it waits for one. */
  lemma {:induction false} RefusalMeans(t: Tracked, now: Time)
    ensures Next(t, QueueRefuses(OnCreate, now)) == t.(job := FailedAs(t.job, EnqueueFailed, now))
    ensures Next(t, QueueRefuses(OnRecovery, now)) == t.(job := FailedAs(t.job, RecoveryFailed, now))
    ensures Next(t, QueueRefuses(OnSchedule, now))
         == if t.job.status == Queued then t.(job := FailedAs(t.job, ScheduleFailed, now)) else t
    ensures Next(t, QueueRefuses(OnRetry, now))
         == if t.job.status == Retrying
            then t.(job := FailedAs(t.job, RetryScheduleFailed, now).(nextRetryAt := None)) else t
  {
  }

  /** A new job waits for its first of the given attempts. */
  lemma {:induction false} NewJobMeans(maxAttempts: nat)
    ensures NewJob(maxAttempts) == Job(Queued, 1, maxAttempts, NoError, None, None, None, None)
  {
  }

  // ---------------------------------------------------------------------------
  // What holds in every run
  // ---------------------------------------------------------------------------

  /** A job that is over tells when, a failed one also why; a running one tells since when and has been heard of; one
      that waits for a retry tells for when. */
  predicate Stamped(j: Job) {
    match j.status
    case Queued => true
    case Running => j.startedAt.Some? && j.heartbeatAt.Some?
    case Retrying => j.nextRetryAt.Some? && j.errorCode.WorkerCode?
    case Succeeded => j.finishedAt.Some?
    case Cancelled => j.finishedAt.Some?
    case Failed => j.finishedAt.Some? && j.errorCode != NoError
  }

  lemma {:induction false} StepKeepsStamped(t: Tracked, a: Action)
    requires Stamped(t.job)
    ensures Stamped(Next(t, a).job)
  {
  }

  lemma {:induction false} EveryJobIsStamped(t: Tracked, actions: seq<Action>)
    requires Stamped(t.job)
    ensures Stamped(Run(t, actions).job)
    decreases |actions|
  {
    if actions != [] {
      StepKeepsStamped(t, actions[0]);
      EveryJobIsStamped(Next(t, actions[0]), actions[1..]);
    }
  }

  // ---------------------------------------------------------------------------
  // The recovery sweep
  // ---------------------------------------------------------------------------

  /** Tried again if the queue takes its message, and failed otherwise. */
  function Sent(j: Job, accepted: bool, now: Time): Job {
    if accepted then j else FailedAs(j, RecoveryFailed, now)
  }

  /** The first loop of the sweep takes the jobs with a lost worker, the second those whose retry is due, and a job is
      listed for the sweep if it is either. */
  lemma {:induction false} SweepMeans(j: Job, now: Time, accepted: bool)
    ensures Passed(StaleOnly, j, now, accepted)
         == if !LostWorker(j, now) then j
            else if j.attempt < j.maxAttempts then Sent(Again(j), accepted, now) else FailedAs(j, StaleTimeout, now)
    ensures Passed(DueOnly, j, now, accepted)
         == if !RetryDue(j, now) then j
            else if j.attempt < j.maxAttempts then Sent(Again(j).(nextRetryAt := None), accepted, now)
            else FailedAs(j, MaxAttemptsReached, now)
    ensures Passed(Sweeping, j, now, accepted)
         == if LostWorker(j, now) then Passed(StaleOnly, j, now, accepted) else Passed(DueOnly, j, now, accepted)
    ensures Picks(StaleOnly, j, now) <==> LostWorker(j, now)
    ensures Picks(DueOnly, j, now) <==> RetryDue(j, now)
    ensures Picks(Sweeping, j, now) <==> LostWorker(j, now) || RetryDue(j, now)
  {
  }
}
