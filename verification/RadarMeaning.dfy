/** What the writers of a radar run do to its row, and what the drift of a baseline measures, in terms of the stored
    fields and of literal numbers. */
module RadarMeaning {
  import opened Common
  import RadarScan
  import opened RadarRuns
  import RadarDiff
  import Ordering
  import JobLifecycle

  type RunStatus = RadarScan.RunStatus

  const RUN_FAILED := RadarScan.RunStatus.Failed

  const RUN_CANCELLED := RadarScan.RunStatus.Cancelled

  // ---------------------------------------------------------------------------
  // Runs
  // ---------------------------------------------------------------------------

  predicate InProgress(s: RunStatus) {
    s.Queued? || s.Running?
  }

  ghost predicate Occupied(t: Table, profile: string) {
    exists i :: 0 <= i < |t.runs| && t.runs[i].profile == profile && InProgress(t.runs[i].status)
  }

  /** In every reachable table an allowed request adds a queued run with its queued job exactly if no run of the profile
      is queued or running; otherwise it adds nothing. */
  lemma {:induction false} RequestMeans(actions: seq<Action>, profile: string, allowed: bool)
    ensures var t := After(actions);
            Next(t, Request(profile, allowed))
            == if allowed && !Occupied(t, profile) then
                 Table(t.runs
                         + [RunRow(profile, |t.jobs|, RadarScan.RunStatus.Queued, true, QueuedStage, None, NoNote)],
                       t.jobs + [JobLifecycle.Status.Queued])
               else t
  {
    TableOkAfter(actions);
    var t := After(actions);
    if i :| 0 <= i < |t.runs| && t.runs[i].profile == profile && InProgress(t.runs[i].status) {
      assert RowOk(t, t.runs[i]);
    }
    if i :| 0 <= i < |t.runs| && t.runs[i].profile == profile && t.runs[i].activeKey {
      assert RowOk(t, t.runs[i]);
    }
  }

  function Ending(row: RunRow, status: RunStatus, summary: Option<Summary>): RunRow {
    row.(status := status, activeKey := false, stage := Ended, summary := summary)
  }

  predicate RowBecomes(t: Table, a: Action, row: RunRow)
    requires OnRun(a) && a.run < |t.runs|
  {
    Next(t, a).runs == t.runs[a.run := row]
  }

  /** A run whose message the queue refuses is released if it is still queued; a queued run is started by its own job
      while it holds its profile. */
  lemma {:induction false} StartMeans(t: Table, run: nat, job: nat)
    requires run < |t.runs|
    ensures var row := t.runs[run];
            && RowBecomes(t, EnqueueFailed(run),
                 if row.status.Queued? then Ending(row, RUN_FAILED, Some(GaveUp("enqueue_failed"))) else row)
            && RowBecomes(t, Start(run, job),
                 if row.job == job && row.status.Queued? && row.activeKey
                 then row.(status := RadarScan.RunStatus.Running, stage := StaticFetch) else row)
            && Next(t, EnqueueFailed(run)).jobs == Next(t, Start(run, job)).jobs == t.jobs
  {
  }

  /** Results are written unless the run was cancelled, and a final status releases it. */
  lemma {:induction false} FinishMeans(t: Table, run: nat, status: RunStatus, summary: Summary)
    requires run < |t.runs|
    ensures var row := t.runs[run];
            && RowBecomes(t, Report(run, summary),
                 if row.status.Cancelled? then row else row.(stage := Reconciling, summary := Some(summary)))
            && RowBecomes(t, Finish(run, status, summary),
                 if !row.status.Cancelled? && (status.Succeeded? || status.PartiallySucceeded? || status.Failed?)
                 then Ending(row, status, Some(summary)) else row)
            && Next(t, Report(run, summary)).jobs == Next(t, Finish(run, status, summary)).jobs == t.jobs
  {
  }

  /** A run that was not cancelled gets its one notification. */
  lemma {:induction false} NotifyMeans(t: Table, run: nat)
    requires run < |t.runs|
    ensures var row := t.runs[run];
            RowBecomes(t, Notify(run),
              if !row.status.Cancelled? && row.note == NoNote then row.(note := LiveNote) else row)
    ensures Next(t, Notify(run)).jobs == t.jobs
  {
  }

  predicate JobLive(s: JobLifecycle.Status) {
    s.Queued? || s.Running? || s.Retrying?
  }

  /** Cancelling ends what is in progress: the run, its job, and its notification. */
  lemma {:induction false} CancelMeans(t: Table, run: nat)
    requires run < |t.runs|
    ensures var row := t.runs[run];
            var note := if row.note == LiveNote then ArchivedNote else row.note;
            && RowBecomes(t, Cancel(run),
                 if InProgress(row.status) then Ending(row, RUN_CANCELLED, row.summary).(note := note) else row)
            && Next(t, Cancel(run)).jobs
               == if InProgress(row.status) && row.job < |t.jobs| && JobLive(t.jobs[row.job])
                  then t.jobs[row.job := JobLifecycle.Status.Cancelled] else t.jobs
  {
  }

  /** A run in progress whose job failed is released as failed. */
  lemma {:induction false} WorkerFailedMeans(t: Table, run: nat)
    requires run < |t.runs|
    ensures var row := t.runs[run];
            RowBecomes(t, WorkerFailed(run),
              if row.job < |t.jobs| && t.jobs[row.job].Failed? && InProgress(row.status)
              then Ending(row, RUN_FAILED, Some(GaveUp("worker_failed"))) else row)
    ensures Next(t, WorkerFailed(run)).jobs == t.jobs
  {
  }

  // ---------------------------------------------------------------------------
  // The fact map
  // ---------------------------------------------------------------------------

  ghost predicate HasKey(entries: seq<RadarDiff.Entry>, key: string) {
    exists i :: 0 <= i < |entries| && entries[i].Fact? && entries[i].key == RadarDiff.Text(key)
  }

  lemma {:induction false} KeyIff(entries: seq<RadarDiff.Entry>, key: string)
    ensures key in RadarDiff.KeysOf(entries) <==> key != "" && HasKey(entries, key)
  {
    if e :| e in entries && RadarDiff.Keyed(e) && e.key.s == key {
      var i :| 0 <= i < |entries| && entries[i] == e;
      assert entries[i].key == RadarDiff.Text(key);
    }
  }

  /** A key with one value maps to it, a key with several to the list of them. */
  lemma {:induction false} FactMapMeans(entries: seq<RadarDiff.Entry>, text: RadarDiff.Json -> string, key: string)
    ensures var facts, values := RadarDiff.FactMap(RadarDiff.Facts(entries), text), RadarDiff.ValuesFor(entries, key);
            && (key in facts <==> key != "" && HasKey(entries, key))
            && (key in facts && |values| == 1 ==> facts[key] == values[0])
            && (key in facts && |values| > 1 ==> facts[key].List? && multiset(facts[key].items) == multiset(values))
  {
    var values := RadarDiff.ValuesFor(entries, key);
    KeyIff(entries, key);
    var sorted := Ordering.Sort(values, RadarDiff.ByText(text));
    RadarDiff.ByTextIsTotal(text);
    Ordering.SortSorts(values, RadarDiff.ByText(text));
    assert |sorted| == |multiset(sorted)| == |multiset(values)| == |values|;
    if |values| == 1 {
      assert sorted[0] in multiset(sorted);
    }
  }

  // ---------------------------------------------------------------------------
  // The loss of a baseline
  // ---------------------------------------------------------------------------

  datatype PageFact = PageFact(page: string, fact: string)

  /** The facts that the earlier run had on the pages. */
  ghost function HadOn(facts: RadarDiff.PageFacts, pages: set<string>): set<PageFact> {
    set p, f | p in pages && p in facts && f in facts[p] :: PageFact(p, f)
  }

  /** Those of them that the later run does not have. */
  ghost function GoneFrom(before: RadarDiff.PageFacts, after: RadarDiff.PageFacts, pages: set<string>): set<PageFact> {
    set x | x in HadOn(before, pages) && !(x.page in after && x.fact in after[x.page])
  }

  predicate KindIs(kinds: RadarDiff.PageKinds, page: string, kind: string) {
    if page in kinds then kinds[page] == kind else kind == "other"
  }

  ghost predicate LosesKind(before: RadarDiff.PageFacts, after: RadarDiff.PageFacts, kinds: RadarDiff.PageKinds,
      pages: set<string>, kind: string)
  {
    exists x :: x in GoneFrom(before, after, pages) && KindIs(kinds, x.page, kind)
  }

  /** The number of facts the pages had, the number of those that are gone, and the kinds of the pages that lost one. */
  ghost predicate LossMeans(before: RadarDiff.PageFacts, after: RadarDiff.PageFacts, kinds: RadarDiff.PageKinds,
      pages: set<string>, loss: RadarDiff.Loss)
  {
    && loss.stable == |HadOn(before, pages)|
    && loss.disappeared == |GoneFrom(before, after, pages)|
    && forall kind :: kind in loss.kinds <==> LosesKind(before, after, kinds, pages, kind)
  }

  ghost function Pairs(page: string, facts: set<string>): set<PageFact> {
    set f | f in facts :: PageFact(page, f)
  }

  lemma {:induction false} PairsAreAsMany(page: string, facts: set<string>)
    ensures |Pairs(page, facts)| == |facts|
  {
    if facts != {} {
      var f :| f in facts;
      PairsAreAsMany(page, facts - {f});
      assert Pairs(page, facts) == Pairs(page, facts - {f}) + {PageFact(page, f)};
    }
  }

  lemma {:induction false} OnePage(before: RadarDiff.PageFacts, after: RadarDiff.PageFacts, pages: set<string>,
      page: string)
    requires page in pages
    ensures var had := RadarDiff.HadFacts(before, page);
            var gone := had - RadarDiff.HadFacts(after, page);
            && HadOn(before, pages) == HadOn(before, pages - {page}) + Pairs(page, had)
            && GoneFrom(before, after, pages) == GoneFrom(before, after, pages - {page}) + Pairs(page, gone)
            && HadOn(before, pages - {page}) !! Pairs(page, had)
            && GoneFrom(before, after, pages - {page}) !! Pairs(page, gone)
  {
  }

  lemma {:induction false} KindsGrow(before: RadarDiff.PageFacts, after: RadarDiff.PageFacts,
      kinds: RadarDiff.PageKinds, pages: set<string>, page: string, kind: string)
    requires page in pages
    ensures LosesKind(before, after, kinds, pages, kind) <==>
            LosesKind(before, after, kinds, pages - {page}, kind)
            || kind in RadarDiff.PageLoss(before, after, kinds, page).kinds
  {
    var gone := RadarDiff.HadFacts(before, page) - RadarDiff.HadFacts(after, page);
    OnePage(before, after, pages, page);
    if f :| f in gone { assert PageFact(page, f) in GoneFrom(before, after, pages); }
  }

  lemma {:induction false} LossGrows(before: RadarDiff.PageFacts, after: RadarDiff.PageFacts,
      kinds: RadarDiff.PageKinds, pages: set<string>, page: string, rest: RadarDiff.Loss)
    requires page in pages && LossMeans(before, after, kinds, pages - {page}, rest)
    ensures LossMeans(before, after, kinds, pages,
                      RadarDiff.Plus(RadarDiff.PageLoss(before, after, kinds, page), rest))
  {
    var had := RadarDiff.HadFacts(before, page);
    var gone := had - RadarDiff.HadFacts(after, page);
    OnePage(before, after, pages, page);
    PairsAreAsMany(page, had);
    PairsAreAsMany(page, gone);
    var all := RadarDiff.Plus(RadarDiff.PageLoss(before, after, kinds, page), rest).kinds;
    forall kind ensures kind in all <==> LosesKind(before, after, kinds, pages, kind) {
      KindsGrow(before, after, kinds, pages, page, kind);
    }
  }

  /** The measured loss is that. */
  lemma {:induction false} TotalLossMeans(before: RadarDiff.PageFacts, after: RadarDiff.PageFacts,
      kinds: RadarDiff.PageKinds, pages: set<string>)
    ensures LossMeans(before, after, kinds, pages, RadarDiff.TotalLoss(RadarDiff.Losses(before, after, kinds), pages))
    decreases pages
  {
    var losses := RadarDiff.Losses(before, after, kinds);
    if pages == {} {
      assert HadOn(before, pages) == {} && GoneFrom(before, after, pages) == {};
    } else {
      var page := RadarDiff.TotalTakesSomePage(losses, pages);
      var rest := RadarDiff.TotalLoss(losses, pages - {page});
      TotalLossMeans(before, after, kinds, pages - {page});
      LossGrows(before, after, kinds, pages, page, rest);
    }
  }

  /** Half of the earlier pages are gone; and more than nothing, at least six of ten, of the facts of the common pages
      are gone, from pages of at least two kinds. */
  lemma {:induction false} DriftTestsMean(previous: set<string>, current: set<string>, loss: RadarDiff.Loss)
    ensures RadarDiff.HalfLost(previous, current) <==> |previous| > 0 && |previous - current| * 2 >= |previous|
    ensures RadarDiff.Vanished(loss) <==>
            loss.stable > 0 && loss.disappeared * 10 >= loss.stable * 6 && |loss.kinds| > 1
  {
  }

  /** No facts are compared without the facts of the pages. */
  lemma {:induction false} LossOfMeans(previous: set<string>, current: set<string>, facts: RadarDiff.FactPages)
    ensures facts.NoFactPages? ==> RadarDiff.LossOf(previous, current, facts) == RadarDiff.Loss(0, 0, {})
    ensures facts.FactPages? ==>
              LossMeans(facts.before, facts.after, facts.kinds, previous * current,
                        RadarDiff.LossOf(previous, current, facts))
  {
    if facts.FactPages? { TotalLossMeans(facts.before, facts.after, facts.kinds, previous * current); }
  }
}
