/**
 The row of a competitor run and its root job, which the scan, cancellation, failure handling
 and requests share. Each action is one committed transaction. A run and a job are named by
 their positions.
 */
module RadarRuns {
  import opened Common
  import opened RadarScan
  import JobLifecycle

  datatype Stage = QueuedStage | StaticFetch | Reconciling | Ended

  datatype Summary = Scanned(valid: nat, nonvalid: nat, reasons: set<string>) | GaveUp(reason: string)

  datatype RunNote = NoNote | LiveNote | ArchivedNote

  datatype RunRow = RunRow(
    profile: string,
    job: nat,
    status: RunStatus,
    activeKey: bool,
    stage: Stage,
    summary: Option<Summary>,
    note: RunNote)

  datatype Table = Table(runs: seq<RunRow>, jobs: seq<JobLifecycle.Status>)

  const EMPTY := Table([], [])

  predicate Active(s: RunStatus) {
    s.Queued? || s.Running?
  }

  predicate Terminal(s: RunStatus) {
    !Active(s)
  }

  // ---------------------------------------------------------------------------
  // The actions
  // ---------------------------------------------------------------------------

  /** `allowed` says whether the profile is active and its mission is. A job may be changed by its workers at any
      time. */
  datatype Action =
    | Request(profile: string, allowed: bool)
    | EnqueueFailed(run: nat)
    | Start(run: nat, job: nat)
    | Report(run: nat, summary: Summary)
    | Finish(run: nat, status: RunStatus, summary: Summary)
    | Notify(run: nat)
    | Cancel(run: nat)
    | WorkerFailed(run: nat)
    | JobChanged(job: nat, now: JobLifecycle.Status)

  predicate OnRun(a: Action) {
    !a.Request? && !a.JobChanged?
  }

  predicate HasActive(runs: seq<RunRow>, profile: string) {
    exists i :: 0 <= i < |runs| && runs[i].profile == profile && runs[i].activeKey
  }

  function Released(row: RunRow, status: RunStatus, summary: Option<Summary>): RunRow {
    row.(status := status, activeKey := false, stage := Ended, summary := summary)
  }

  function Silenced(row: RunRow): RunRow {
    if row.note.LiveNote? then row.(note := ArchivedNote) else row
  }

  /** A handler finishes with one of these; it reports a run as cancelled only after seeing it cancelled. */
  predicate Finishing(s: RunStatus) {
    s.Succeeded? || s.PartiallySucceeded? || s.Failed?
  }

  /** What an action writes into its run. */
  function Written(row: RunRow, jobFailed: bool, a: Action): RunRow
    requires OnRun(a)
  {
    match a
    case EnqueueFailed(_) => if row.status.Queued? then Released(row, Failed, Some(GaveUp("enqueue_failed"))) else row
    case Start(_, job) =>
      if row.job == job && row.status.Queued? && row.activeKey then row.(status := Running, stage := StaticFetch)
      else row
    case Report(_, summary) => if row.status.Cancelled? then row
                               else row.(stage := Reconciling, summary := Some(summary))
    case Finish(_, status, summary) =>
      if row.status.Cancelled? || !Finishing(status) then row else Released(row, status, Some(summary))
    case Notify(_) => if row.status.Cancelled? || !row.note.NoNote? then row else row.(note := LiveNote)
    case Cancel(_) => if Active(row.status) then Silenced(Released(row, Cancelled, row.summary)) else row
    case WorkerFailed(_) =>
      if jobFailed && Active(row.status) then Released(row, Failed, Some(GaveUp("worker_failed"))) else row
  }

  predicate JobFailed(t: Table, row: RunRow) {
    row.job < |t.jobs| && t.jobs[row.job].Failed?
  }

  /** Cancelling an active run also cancels its root job if that is active. */
  function CancelledJobs(jobs: seq<JobLifecycle.Status>, row: RunRow): seq<JobLifecycle.Status> {
    if Active(row.status) && row.job < |jobs| && JobLifecycle.Active(jobs[row.job])
    then jobs[row.job := JobLifecycle.Status.Cancelled] else jobs
  }

  function Next(t: Table, a: Action): Table {
    match a
    case Request(profile, allowed) =>
      if !allowed || HasActive(t.runs, profile) then t
      else
        Table(t.runs + [RunRow(profile, |t.jobs|, Queued, true, QueuedStage, None, NoNote)],
              t.jobs + [JobLifecycle.Status.Queued])
    case JobChanged(job, status) => if job < |t.jobs| then t.(jobs := t.jobs[job := status]) else t
    case _ =>
      if a.run >= |t.runs| then t
      else
        var row := t.runs[a.run];
        Table(t.runs[a.run := Written(row, JobFailed(t, row), a)],
              if a.Cancel? then CancelledJobs(t.jobs, row) else t.jobs)
  }

  function After(actions: seq<Action>): Table {
    if actions == [] then EMPTY else Next(After(actions[..|actions| - 1]), actions[|actions| - 1])
  }

  lemma {:induction false} AfterExtends(actions: seq<Action>, a: Action)
    ensures After(actions + [a]) == Next(After(actions), a)
  {
    assert (actions + [a])[..|actions|] == actions;
  }

  // ---------------------------------------------------------------------------
  // What every run keeps
  // ---------------------------------------------------------------------------

  predicate RowOk(t: Table, row: RunRow) {
    && (row.activeKey <==> Active(row.status))
    && (row.status.Cancelled? ==> !row.note.LiveNote?)
    && row.job < |t.jobs|
  }

  predicate Apart(a: RunRow, b: RunRow) {
    !(a.activeKey && b.activeKey && a.profile == b.profile) && a.job != b.job
  }

  ghost predicate TableOk(t: Table) {
    && (forall i :: 0 <= i < |t.runs| ==> RowOk(t, t.runs[i]))
    && (forall i, j :: 0 <= i < j < |t.runs| ==> Apart(t.runs[i], t.runs[j]))
  }

  lemma {:induction false} WrittenOk(t: Table, row: RunRow, jobFailed: bool, a: Action)
    requires OnRun(a) && RowOk(t, row)
    ensures var row' := Written(row, jobFailed, a);
            RowOk(t, row') && row'.profile == row.profile && row'.job == row.job && (row'.activeKey ==> row.activeKey)
  {
  }

  lemma {:induction false} RequestKeeps(t: Table, profile: string, allowed: bool)
    requires TableOk(t)
    ensures TableOk(Next(t, Request(profile, allowed)))
  {
    var t' := Next(t, Request(profile, allowed));
    forall i | 0 <= i < |t'.runs| ensures RowOk(t', t'.runs[i]) {
      if i < |t.runs| { assert RowOk(t, t.runs[i]); }
    }
    forall i, j | 0 <= i < j < |t'.runs| ensures Apart(t'.runs[i], t'.runs[j]) {
      assert RowOk(t, t.runs[i]);
      if j < |t.runs| { assert Apart(t.runs[i], t.runs[j]); }
    }
  }

  lemma {:induction false} WriteKeeps(t: Table, a: Action)
    requires TableOk(t) && OnRun(a) && a.run < |t.runs|
    ensures TableOk(Next(t, a))
  {
    var t' := Next(t, a);
    WrittenOk(t, t.runs[a.run], JobFailed(t, t.runs[a.run]), a);
    forall i | 0 <= i < |t'.runs| ensures RowOk(t', t'.runs[i]) {
      assert RowOk(t, t.runs[i]);
    }
    forall i, j | 0 <= i < j < |t'.runs| ensures Apart(t'.runs[i], t'.runs[j]) {
      assert Apart(t.runs[i], t.runs[j]);
    }
  }

  lemma {:induction false} TableOkAfter(actions: seq<Action>)
    ensures TableOk(After(actions))
    decreases |actions|
  {
    if actions != [] {
      TableOkAfter(actions[..|actions| - 1]);
      var t, a := After(actions[..|actions| - 1]), actions[|actions| - 1];
      match a
      case Request(profile, allowed) => RequestKeeps(t, profile, allowed);
      case JobChanged(_, _) =>
        forall i | 0 <= i < |t.runs| ensures RowOk(Next(t, a), t.runs[i]) {
          assert RowOk(t, t.runs[i]);
        }
      case _ => if a.run < |t.runs| { WriteKeeps(t, a); }
    }
  }

  /** In every reachable table a run holds the active key exactly while it is queued or running, no profile has two
      such runs, no two runs share a root job, and no cancelled run has a live notification. */
  lemma {:induction false} OneActiveRunPerProfile(actions: seq<Action>, i: nat, j: nat)
    requires i < |After(actions).runs| && j < |After(actions).runs|
    ensures var a, b := After(actions).runs[i], After(actions).runs[j];
            && (a.activeKey <==> Active(a.status))
            && (a.status.Cancelled? ==> !a.note.LiveNote?)
            && (i != j ==> a.job != b.job && !(Active(a.status) && Active(b.status) && a.profile == b.profile))
  {
    TableOkAfter(actions);
    var t := After(actions);
    assert RowOk(t, t.runs[i]) && RowOk(t, t.runs[j]);
    if i < j { assert Apart(t.runs[i], t.runs[j]); }
    if j < i { assert Apart(t.runs[j], t.runs[i]); }
  }

  // ---------------------------------------------------------------------------
  // Cancelled and other terminal runs
  // ---------------------------------------------------------------------------

  predicate LateFinish(a: Action, id: nat) {
    a.Finish? && a.run == id
  }

  lemma {:induction false} RowStep(t: Table, a: Action, id: nat)
    requires id < |t.runs|
    ensures id < |Next(t, a).runs|
    ensures t.runs[id].status.Cancelled? ==> Next(t, a).runs[id] == t.runs[id]
    ensures Terminal(t.runs[id].status) ==> Terminal(Next(t, a).runs[id].status)
    ensures Terminal(t.runs[id].status) && Next(t, a).runs[id].status != t.runs[id].status ==> LateFinish(a, id)
  {
  }

  /** A cancelled run is never written again: status, summary and notification stay to the end of every history. No
      terminal run becomes active again, and only a handler that finishes late changes its status. */
  lemma {:induction false} CancelledStays(actions: seq<Action>, n: nat, id: nat)
    requires n <= |actions| && id < |After(actions[..n]).runs|
    ensures id < |After(actions).runs|
    ensures var before, after := After(actions[..n]).runs[id], After(actions).runs[id];
            && (before.status.Cancelled? ==> after == before)
            && (Terminal(before.status) ==> Terminal(after.status))
            && (Terminal(before.status) && after.status != before.status ==>
                  exists k :: n <= k < |actions| && LateFinish(actions[k], id))
    decreases |actions|
  {
    if n == |actions| {
      assert actions[..n] == actions;
    } else {
      var front, last := actions[..|actions| - 1], |actions| - 1;
      assert front[..n] == actions[..n];
      CancelledStays(front, n, id);
      RowStep(After(front), actions[last], id);
      if k :| n <= k < |front| && LateFinish(front[k], id) {
        assert LateFinish(actions[k], id);
      }
    }
  }

  /** Exactly when one step changes the status of a terminal run. */
  lemma {:induction false} TerminalRewrittenIff(t: Table, a: Action, id: nat)
    requires id < |t.runs| && Terminal(t.runs[id].status)
    ensures Next(t, a).runs[id].status != t.runs[id].status <==>
            LateFinish(a, id) && Finishing(a.status) && a.status != t.runs[id].status && !t.runs[id].status.Cancelled?
  {
  }

  /** It happens: a run is released as failed with its job, and then its handler reports success. */
  lemma {:induction false} LateFinishRewritesFailure(profile: string, summary: Summary)
    ensures var none: seq<Action> := [];
            var failed := none + [Request(profile, true)] + [Start(0, 0)]
                        + [JobChanged(0, JobLifecycle.Status.Failed)] + [WorkerFailed(0)];
            && |After(failed).runs| == 1 && After(failed).runs[0].status == Failed
            && After(failed + [Finish(0, Succeeded, summary)]).runs[0].status == Succeeded
  {
    var none: seq<Action> := [];
    var a, b, c := Request(profile, true), Start(0, 0), JobChanged(0, JobLifecycle.Status.Failed);
    AfterExtends(none, a);
    AfterExtends(none + [a], b);
    AfterExtends(none + [a] + [b], c);
    AfterExtends(none + [a] + [b] + [c], WorkerFailed(0));
    AfterExtends(none + [a] + [b] + [c] + [WorkerFailed(0)], Finish(0, Succeeded, summary));
  }

  /** Cancelling an active run leaves it cancelled and released, its root job not active and its notification not
      live; whatever else was in the table stays. */
  lemma {:induction false} CancelReleases(actions: seq<Action>, id: nat)
    requires var t := After(actions); id < |t.runs| && Active(t.runs[id].status)
    ensures var t, t' := After(actions), Next(After(actions), Cancel(id));
            && |t'.runs| == |t.runs| && |t'.jobs| == |t.jobs| && t.runs[id].job < |t.jobs|
            && t'.runs[id].status.Cancelled? && !t'.runs[id].activeKey && !t'.runs[id].note.LiveNote?
            && !JobLifecycle.Active(t'.jobs[t.runs[id].job])
            && (forall i :: 0 <= i < |t.runs| && i != id ==> t'.runs[i] == t.runs[i])
            && (forall k :: 0 <= k < |t.jobs| && k != t.runs[id].job ==> t'.jobs[k] == t.jobs[k])
  {
    TableOkAfter(actions);
    assert RowOk(After(actions), After(actions).runs[id]);
  }

  // ---------------------------------------------------------------------------
  // The tables
  // ---------------------------------------------------------------------------

  class RunTable {
    var runs: seq<RunRow>
    var jobs: seq<JobLifecycle.Status>

    ghost function Snapshot(): Table
      reads this
    {
      Table(runs, jobs)
    }

    /** Request a run of a profile: at most one is active, and asking again returns it. */
    method RequestRun(profile: string, allowed: bool) returns (id: Option<nat>)
      modifies this
      ensures Snapshot() == Next(old(Snapshot()), Request(profile, allowed))
      ensures id.Some? <==> allowed
      ensures id.Some? ==> id.value < |runs| && runs[id.value].profile == profile && runs[id.value].activeKey
    {
      if !allowed {
        return None;
      }
      for i := 0 to |runs|
        invariant Snapshot() == old(Snapshot())
        invariant forall k :: 0 <= k < i ==> !(runs[k].profile == profile && runs[k].activeKey)
      {
        if runs[i].profile == profile && runs[i].activeKey {
          return Some(i);
        }
      }
      id := Some(|runs|);
      runs := runs + [RunRow(profile, |jobs|, Queued, true, QueuedStage, None, NoNote)];
      jobs := jobs + [JobLifecycle.Status.Queued];
    }

    /** The conditional update that starts a queued run; a running one is only touched, a cancelled one returned, one of
        another job or any other refused. */
    method StartRun(id: nat, job: nat) returns (ok: bool)
      requires id < |runs|
      modifies this
      ensures Snapshot() == Next(old(Snapshot()), Start(id, job))
      ensures RowOk(old(Snapshot()), old(runs)[id]) ==>
                (ok <==> runs[id].job == job && (runs[id].status.Running? || runs[id].status.Cancelled?))
    {
      var row := runs[id];
      assert runs == runs[id := row];
      if row.job != job {
        return false;
      }
      if row.status == Cancelled || row.status == Running {
        return true;
      }
      ok := row.status == Queued && row.activeKey;
      if ok {
        runs := runs[id := row.(status := Running, stage := StaticFetch)];
      }
    }

    /** Write the summary of a run unless it has been cancelled; release it only if this is its end. */
    method FinishRun(id: nat, status: RunStatus, summary: Summary, terminal: bool) returns (reported: RunStatus)
      requires id < |runs| && (Finishing(status) || (status.Cancelled? && runs[id].status.Cancelled?))
      modifies this
      ensures Snapshot() == Next(old(Snapshot()), if terminal then Finish(id, status, summary) else Report(id, summary))
      ensures reported == if old(runs)[id].status.Cancelled? then Cancelled else status
    {
      var row := runs[id];
      assert runs == runs[id := row];
      if row.status == Cancelled {
        return Cancelled;
      }
      row := row.(stage := if terminal then Ended else Reconciling, summary := Some(summary));
      if terminal {
        row := row.(status := status, activeKey := false);
      }
      runs := runs[id := row];
      reported := status;
    }

    /** Cancel an active run, its active job and its live notification. */
    method CancelRun(id: nat)
      requires id < |runs|
      modifies this
      ensures Snapshot() == Next(old(Snapshot()), Cancel(id))
    {
      var row := runs[id];
      assert runs == runs[id := row];
      if row.status == Queued || row.status == Running {
        row := row.(status := Cancelled, activeKey := false, stage := Ended);
        if row.job < |jobs| && JobLifecycle.Active(jobs[row.job]) {
          jobs := jobs[row.job := JobLifecycle.Status.Cancelled];
        }
        if row.note == LiveNote {
          row := row.(note := ArchivedNote);
        }
        runs := runs[id := row];
      }
    }

    /** One notification for each run that is not cancelled. */
    method NotifyRun(id: nat) returns (created: bool)
      requires id < |runs|
      modifies this
      ensures Snapshot() == Next(old(Snapshot()), Notify(id))
      ensures created <==> old(runs)[id].note.NoNote? && !old(runs)[id].status.Cancelled?
    {
      assert runs == runs[id := runs[id]];
      created := runs[id].status != Cancelled && runs[id].note == NoNote;
      if created {
        runs := runs[id := runs[id].(note := LiveNote)];
      }
    }

    /** Release the run of a job that failed for good. */
    method FinalizeWorkerFailure(id: nat)
      requires id < |runs|
      modifies this
      ensures Snapshot() == Next(old(Snapshot()), WorkerFailed(id))
    {
      var row := runs[id];
      assert runs == runs[id := row];
      if row.job < |jobs| && jobs[row.job].Failed? && (row.status == Queued || row.status == Running) {
        runs := runs[id := row.(status := Failed, activeKey := false, stage := Ended,
            summary := Some(GaveUp("worker_failed")))];
      }
    }
  }
}
