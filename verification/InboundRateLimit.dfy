/**
 The fixed-window rate limiter of the inbound API: one stored counter per (scope, bucket),
 changed only by conditional UPDATEs and one INSERT.
 */
module InboundRateLimit {
  import opened Common

  const LIMIT: nat := 100

  const WINDOW: nat := 3600

  datatype Counter = Counter(count: nat, resetAt: Time)

  predicate CanIncrement(row: Option<Counter>, now: Time) {
    row.Some? && row.value.resetAt > now && row.value.count < LIMIT
  }

  predicate CanReset(row: Option<Counter>, now: Time) {
    row.Some? && row.value.resetAt <= now
  }

  function Incremented(row: Option<Counter>): Option<Counter>
    requires row.Some?
  {
    Some(row.value.(count := row.value.count + 1))
  }

  function Opened(now: Time): Option<Counter> {
    Some(Counter(1, now + WINDOW))
  }

  // ---------------------------------------------------------------------------
  // Interleaved calls: every statement is one step
  // ---------------------------------------------------------------------------

  type CallId = nat

  datatype Phase =
    | Resetting(now: Time)
    | Looking(now: Time)
    | Inserting(now: Time)
    | Retrying(now: Time)
    | Done(admitted: bool)

  /** An admission, and whether it opened a window or counted into the running one. */
  datatype Admission = Admission(opens: bool, now: Time)

  datatype State = State(row: Option<Counter>, calls: map<CallId, Phase>, log: seq<Admission>)

  const INITIAL := State(None, map[], [])

  datatype Action = Arrive(call: CallId, now: Time) | Proceed(call: CallId)

  function Admit(s: State, call: CallId, row: Option<Counter>, a: Admission): State {
    State(row, s.calls[call := Done(true)], s.log + [a])
  }

  function NextPhase(s: State, call: CallId, phase: Phase): State {
    s.(calls := s.calls[call := phase])
  }

  function Next(s: State, a: Action): State {
    match a
    case Arrive(call, now) =>
      if call in s.calls then s
      else if CanIncrement(s.row, now) then Admit(s, call, Incremented(s.row), Admission(false, now))
      else NextPhase(s, call, Resetting(now))
    case Proceed(call) =>
      if call !in s.calls then s
      else match s.calls[call]
        case Resetting(now) =>
          if CanReset(s.row, now) then Admit(s, call, Opened(now), Admission(true, now))
          else NextPhase(s, call, Looking(now))
        case Looking(now) => NextPhase(s, call, if s.row.Some? then Done(false) else Inserting(now))
        case Inserting(now) =>
          if s.row.None? then Admit(s, call, Opened(now), Admission(true, now))
          else NextPhase(s, call, Retrying(now))
        case Retrying(now) =>
          if CanIncrement(s.row, now) then Admit(s, call, Incremented(s.row), Admission(false, now))
          else NextPhase(s, call, Done(false))
        case Done(_) => s
  }

  function Run(s: State, actions: seq<Action>): State
    decreases |actions|
  {
    if actions == [] then s else Run(Next(s, actions[0]), actions[1..])
  }

  /** Admissions since the running window was opened, the opening one included. */
  function SinceReset(log: seq<Admission>): nat {
    if log == [] then 0
    else if log[|log| - 1].opens then 1
    else SinceReset(log[..|log| - 1]) + 1
  }

  ghost predicate CountInv(s: State) {
    match s.row
    case None => s.log == []
    case Some(row) => 1 <= row.count <= 100 && row.count == SinceReset(s.log)
  }

  lemma {:induction false} StepKeepsCount(s: State, a: Action)
    requires CountInv(s)
    ensures CountInv(Next(s, a))
  {
    var s' := Next(s, a);
    if s'.log != s.log {
      assert s'.log[..|s.log|] == s.log;
    }
  }

  /** In every interleaving the stored count is the number of admissions since the last reset, never over the limit. */
  lemma {:induction false} CountIsAdmissions(s: State, actions: seq<Action>)
    requires CountInv(s)
    ensures CountInv(Run(s, actions))
    decreases |actions|
  {
    if actions != [] {
      StepKeepsCount(s, actions[0]);
      CountIsAdmissions(Next(s, actions[0]), actions[1..]);
    }
  }

  /** So it is from an empty table on. */
  lemma {:induction false} StoredCountFromStart(actions: seq<Action>)
    ensures var s := Run(INITIAL, actions);
            match s.row
            case None => s.log == []
            case Some(row) => 1 <= row.count <= 100 && row.count == SinceReset(s.log)
  {
    CountIsAdmissions(INITIAL, actions);
  }

  // ---------------------------------------------------------------------------
  // When a call is refused
  // ---------------------------------------------------------------------------

  predicate Full(row: Option<Counter>, now: Time) {
    row.Some? && row.value.resetAt > now && row.value.count >= 100
  }

  /** Whether an admission from position n on opened a window. */
  ghost predicate OpenedSince(log: seq<Admission>, n: nat) {
    exists i :: n <= i < |log| && log[i].opens
  }

  /** The row after increments only. */
  predicate OnlyCounted(before: Option<Counter>, after: Option<Counter>) {
    if before.None? then after.None?
    else after.Some? && after.value.resetAt == before.value.resetAt && after.value.count >= before.value.count
  }

  /** What a call that found `row` on its arrival may have reached while no window was opened since. */
  predicate PhaseOk(phase: Phase, row: Option<Counter>, now: Time) {
    match phase
    case Resetting(t) => t == now && !CanIncrement(row, now)
    case Looking(t) => t == now && !CanIncrement(row, now) && !CanReset(row, now)
    case Inserting(t) => t == now && row.None?
    case Retrying(_) => false
    case Done(admitted) => if admitted then CanIncrement(row, now) else Full(row, now)
  }

  /** A call that arrived at position n of the log: its phase is as expected or a window has been opened since. */
  ghost predicate Followed(s: State, call: CallId, row: Option<Counter>, now: Time, n: nat) {
    && call in s.calls && n <= |s.log|
    && (OpenedSince(s.log, n) || (OnlyCounted(row, s.row) && PhaseOk(s.calls[call], row, now)))
  }

  lemma {:induction false} OpeningStays(log: seq<Admission>, log': seq<Admission>, n: nat)
    requires log <= log' && OpenedSince(log, n)
    ensures OpenedSince(log', n)
  {
    var i :| n <= i < |log| && log[i].opens;
    assert log'[i].opens;
  }

  lemma {:induction false} StepFollows(s: State, a: Action, call: CallId, row: Option<Counter>, now: Time, n: nat)
    requires Followed(s, call, row, now, n)
    ensures Followed(Next(s, a), call, row, now, n)
  {
    var s' := Next(s, a);
    if OpenedSince(s.log, n) {
      OpeningStays(s.log, s'.log, n);
    } else if |s'.log| > |s.log| && s'.log[|s.log|].opens {
      assert OpenedSince(s'.log, n);
    }
  }

  lemma {:induction false} RunFollows(s: State, actions: seq<Action>, call: CallId, row: Option<Counter>, now: Time,
      n: nat)
    requires Followed(s, call, row, now, n)
    ensures Followed(Run(s, actions), call, row, now, n)
    decreases |actions|
  {
    if actions != [] {
      StepFollows(s, actions[0], call, row, now, n);
      RunFollows(Next(s, actions[0]), actions[1..], call, row, now, n);
    }
  }

  /** In every interleaving a refused call found the window full when it arrived, or somebody has opened a window
      since. Without such an opening a finished call was refused exactly if the window was full. */
  lemma {:induction false} RefusedIffFullOrOvertaken(before: seq<Action>, call: CallId, now: Time, after: seq<Action>)
    requires call !in Run(INITIAL, before).calls
    ensures var found := Run(INITIAL, before);
            var s := Run(Next(found, Arrive(call, now)), after);
            && call in s.calls
            && (s.calls[call] == Done(false) ==> Full(found.row, now) || OpenedSince(s.log, |found.log|))
            && (s.calls[call].Done? && !OpenedSince(s.log, |found.log|) ==>
                  (s.calls[call] == Done(false) <==> Full(found.row, now)))
  {
    var found := Run(INITIAL, before);
    RunFollows(Next(found, Arrive(call, now)), after, call, found.row, now, |found.log|);
  }

  lemma {:induction false} RunAppends(s: State, a: seq<Action>, b: seq<Action>)
    ensures Run(s, a + b) == Run(Run(s, a), b)
    decreases |a|
  {
    if a == [] {
      assert a + b == b;
    } else {
      assert (a + b)[1..] == a[1..] + b;
      RunAppends(Next(s, a[0]), a[1..], b);
    }
  }

  /** The exception occurs: from an empty table, two callers find the first window expired, one of them resets it,
      and the other is turned away by the mere existence of a row that holds a single admission. */
  lemma {:induction false} RaceRefusesWithRoom()
    ensures var s := Run(INITIAL,
        [Arrive(0, 0), Proceed(0), Proceed(0), Proceed(0), Arrive(1, 3600), Arrive(2, 3600),
                                   Proceed(1), Proceed(2), Proceed(2)]);
            && 1 in s.calls && s.calls[1] == Done(true)
            && 2 in s.calls && s.calls[2] == Done(false)
            && s.row == Some(Counter(1, 7200))
  {
    var first := [Arrive(0, 0), Proceed(0), Proceed(0), Proceed(0)];
    var race := [Arrive(1, 3600), Arrive(2, 3600), Proceed(1), Proceed(2), Proceed(2)];
    var served := Next(Next(Next(Next(INITIAL, first[0]), first[1]), first[2]), first[3]);
    assert first[1..][1..][1..][1..] == [];
    assert served == Run(INITIAL, first);
    var s1 := Next(served, race[0]);
    var s2 := Next(s1, race[1]);
    var s3 := Next(s2, race[2]);
    var s4 := Next(s3, race[3]);
    var s5 := Next(s4, race[4]);
    assert race[1..][1..][1..][1..][1..] == [];
    assert Run(served, race) == Run(s1, race[1..]) == Run(s2, race[1..][1..])
        == Run(s3, race[1..][1..][1..]) == Run(s4, race[1..][1..][1..][1..]) == s5;
    RunAppends(INITIAL, first, race);
    assert first + race == [Arrive(0, 0), Proceed(0), Proceed(0), Proceed(0), Arrive(1, 3600), Arrive(2, 3600),
                            Proceed(1), Proceed(2), Proceed(2)];
  }

  // ---------------------------------------------------------------------------
  // Calls that do not overlap
  // ---------------------------------------------------------------------------

  /** The whole routine as one step: the row it leaves, and the admission if there is one. */
  function CheckAlone(row: Option<Counter>, now: Time): (Option<Counter>, Option<Admission>) {
    if CanIncrement(row, now) then (Incremented(row), Some(Admission(false, now)))
    else if CanReset(row, now) || row.None? then (Opened(now), Some(Admission(true, now)))
    else (row, None)
  }

  /** Undisturbed, a caller is refused exactly when the running window is full. */
  lemma {:induction false} RefusedAloneIffFull(row: Option<Counter>, now: Time)
    ensures CheckAlone(row, now).1.None? <==> row.Some? && now < row.value.resetAt && row.value.count >= 100
  {
  }

  /** The statements of one undisturbed call amount to the routine as one step. */
  lemma {:induction false} SoloStepsAreCheckAlone(s: State, call: CallId, now: Time)
    requires call !in s.calls
    ensures var s' := Run(s, [Arrive(call, now), Proceed(call), Proceed(call), Proceed(call)]);
            var (row, admission) := CheckAlone(s.row, now);
            && s'.row == row && call in s'.calls && s'.calls[call] == Done(admission.Some?)
            && s'.log == match admission case None => s.log case Some(a) => s.log + [a]
  {
    var actions := [Arrive(call, now), Proceed(call), Proceed(call), Proceed(call)];
    var s1 := Next(s, actions[0]);
    var s2 := Next(s1, actions[1]);
    var s3 := Next(s2, actions[2]);
    var s4 := Next(s3, actions[3]);
    assert actions[1..][1..][1..][1..] == [];
    assert Run(s, actions) == Run(s1, actions[1..]) == Run(s2, actions[1..][1..]) == Run(s3, actions[1..][1..][1..])
        == s4;
  }

  /** Serve calls one after the other; the result is the final row and the admissions. */
  function Serve(row: Option<Counter>, nows: seq<Time>): (Option<Counter>, seq<Admission>) {
    if nows == [] then (row, [])
    else
      var (before, log) := Serve(row, nows[..|nows| - 1]);
      var (after, admission) := CheckAlone(before, nows[|nows| - 1]);
      (after, match admission case None => log case Some(a) => log + [a])
  }

  ghost predicate Nondecreasing(nows: seq<Time>) {
    forall i, j :: 0 <= i <= j < |nows| ==> nows[i] <= nows[j]
  }

  /** Position of the admission that opened the window of admission i. */
  ghost function WindowStart(log: seq<Admission>, i: nat): (r: nat)
    requires i < |log|
    ensures r <= i
  {
    if log[i].opens || i == 0 then i else WindowStart(log, i - 1)
  }

  ghost predicate OpensAfterPrevious(log: seq<Admission>, i: nat)
    requires i < |log|
  {
    i == 0 || !log[i].opens || log[i].now >= log[WindowStart(log, i - 1)].now + 3600
  }

  /** The shape of a served log: it starts with an opening; every window holds at most 100 admissions made
      before it closes; the next window opens after that; and times do not decrease. */
  ghost predicate WindowsOk(log: seq<Admission>) {
    && (log != [] ==> log[0].opens)
    && (forall i :: 0 <= i < |log| ==>
          i - WindowStart(log, i) < 100 && log[i].now < log[WindowStart(log, i)].now + 3600)
    && (forall i :: 0 <= i < |log| ==> OpensAfterPrevious(log, i))
    && (forall i, j :: 0 <= i <= j < |log| ==> log[i].now <= log[j].now)
  }

  ghost predicate ServedOk(row: Option<Counter>, log: seq<Admission>, clock: Option<Time>) {
    && WindowsOk(log)
    && (clock.Some? ==> forall i :: 0 <= i < |log| ==> log[i].now <= clock.value)
    && match row
       case None => log == []
       case Some(r) =>
         && log != []
         && var start := WindowStart(log, |log| - 1);
            r.count == |log| - start && r.count <= 100 && r.resetAt == log[start].now + 3600
  }

  lemma {:induction false} WindowStartOfPrefix(log: seq<Admission>, a: Admission, i: nat)
    requires i < |log|
    ensures WindowStart(log + [a], i) == WindowStart(log, i)
  {
    assert (log + [a])[i] == log[i];
    if !log[i].opens && i != 0 { WindowStartOfPrefix(log, a, i - 1); }
  }

  /** An admission may join the last window while that has room and time, or open the next one after it. */
  lemma {:induction false} AppendAdmission(log: seq<Admission>, a: Admission)
    requires WindowsOk(log)
    requires forall i :: 0 <= i < |log| ==> log[i].now <= a.now
    requires if log == [] then a.opens
             else
               var start := WindowStart(log, |log| - 1);
               if a.opens then a.now >= log[start].now + 3600
               else |log| - start < 100 && a.now < log[start].now + 3600
    ensures WindowsOk(log + [a])
    ensures WindowStart(log + [a], |log|) == if a.opens || log == [] then |log| else WindowStart(log, |log| - 1)
  {
    var log' := log + [a];
    forall i | 0 <= i < |log| ensures WindowStart(log', i) == WindowStart(log, i) {
      WindowStartOfPrefix(log, a, i);
    }
    forall i | 0 <= i < |log'| ensures OpensAfterPrevious(log', i) {
      if i < |log| { assert OpensAfterPrevious(log, i); }
    }
  }

  lemma {:induction false} AdmitKeepsWindows(row: Option<Counter>, log: seq<Admission>, now: Time)
    requires ServedOk(row, log, Some(now))
    requires CheckAlone(row, now).1.Some?
    ensures ServedOk(CheckAlone(row, now).0, log + [CheckAlone(row, now).1.value], Some(now))
  {
    AppendAdmission(log, CheckAlone(row, now).1.value);
  }

  lemma {:induction false} ServeKeepsWindows(nows: seq<Time>)
    requires Nondecreasing(nows)
    ensures var (row, log) := Serve(None, nows);
            ServedOk(row, log, if nows == [] then None else Some(nows[|nows| - 1]))
  {
    if nows != [] {
      var earlier := nows[..|nows| - 1];
      var now := nows[|nows| - 1];
      ServeKeepsWindows(earlier);
      var (row, log) := Serve(None, earlier);
      assert ServedOk(row, log, Some(now));
      if CheckAlone(row, now).1.Some? {
        AdmitKeepsWindows(row, log, now);
      }
    }
  }

  lemma {:induction false} StartOpens(log: seq<Admission>, i: nat)
    requires i < |log| && log[0].opens
    ensures log[WindowStart(log, i)].opens
  {
    if !log[i].opens && i != 0 { StartOpens(log, i - 1); }
  }

  /** The window before an opening: it starts at most 100 admissions earlier and has ended. */
  lemma {:induction false} WindowBefore(log: seq<Admission>, start: nat)
    requires WindowsOk(log) && 0 < start < |log| && log[start].opens
    ensures var q := WindowStart(log, start - 1);
            && q < start && start - q <= 100 && log[q].opens
            && log[start - 1].now < log[q].now + 3600 <= log[start].now
  {
    StartOpens(log, start - 1);
    assert OpensAfterPrevious(log, start);
    var k := start - 1;
    assert k - WindowStart(log, k) < 100 && log[k].now < log[WindowStart(log, k)].now + 3600;
  }

  /** Any 201 consecutive admissions take more than one window length. */
  lemma {:induction false} TwoWindowsApart(log: seq<Admission>, p: nat)
    requires WindowsOk(log) && p + 200 < |log|
    ensures log[p + 200].now > log[p].now + 3600
  {
    var last := p + 200;
    var third := WindowStart(log, last);
    StartOpens(log, last);
    assert last - third < 100;
    WindowBefore(log, third);
    var second := WindowStart(log, third - 1);
    WindowBefore(log, second);
    assert log[p].now <= log[second - 1].now;
    assert log[third].now <= log[last].now;
  }

  /** Admissions whose clock reading lies in the closed span from x to x + 3600. */
  function AdmittedIn(log: seq<Admission>, x: Time): nat {
    if log == [] then 0
    else AdmittedIn(log[..|log| - 1], x) + if x <= log[|log| - 1].now <= x + 3600 then 1 else 0
  }

  lemma {:induction false} NoneBeforeFirst(log: seq<Admission>, x: Time, first: nat)
    requires first <= |log|
    requires forall i :: 0 <= i < |log| && i < first ==> log[i].now < x
    ensures AdmittedIn(log, x) <= |log| - first
  {
    if log != [] {
      var n := |log| - 1;
      if first <= n {
        NoneBeforeFirst(log[..n], x, first);
      } else {
        NoneBeforeFirst(log[..n], x, n);
        assert log[n].now < x;
      }
    }
  }

  lemma {:induction false} WindowsOfPrefix(log: seq<Admission>, n: nat)
    requires WindowsOk(log) && n + 1 == |log|
    ensures WindowsOk(log[..n])
  {
    assert log[..n] + [log[n]] == log;
    forall i | 0 <= i < n ensures WindowStart(log[..n], i) == WindowStart(log, i) {
      WindowStartOfPrefix(log[..n], log[n], i);
    }
    forall i | 0 <= i < n ensures OpensAfterPrevious(log[..n], i) {
      assert OpensAfterPrevious(log, i);
    }
  }

  lemma {:induction false} SpanBound(log: seq<Admission>, x: Time)
    requires WindowsOk(log)
    ensures AdmittedIn(log, x) <= 200
  {
    if log != [] {
      var n := |log| - 1;
      WindowsOfPrefix(log, n);
      if log[n].now > x + 3600 {
        SpanBound(log[..n], x);
      } else if n >= 200 {
        TwoWindowsApart(log, n - 200);
        NoneBeforeFirst(log, x, n - 200 + 1);
      } else {
        NoneBeforeFirst(log, x, 0);
      }
    }
  }

  /** With each call one step and a clock that never goes back, any span of one window length, both ends
      included, admits at most twice the limit. */
  lemma {:induction false} AnySpanAdmitsAtMostTwiceTheLimit(nows: seq<Time>, x: Time)
    requires Nondecreasing(nows)
    ensures AdmittedIn(Serve(None, nows).1, x) <= 200
  {
    ServeKeepsWindows(nows);
    SpanBound(Serve(None, nows).1, x);
  }

  // ---------------------------------------------------------------------------
  // The table
  // ---------------------------------------------------------------------------

  datatype BucketKey = BucketKey(scope: string, bucket: string)

  class RateLimitTable {
    var rows: map<BucketKey, Counter>

    constructor ()
      ensures rows == map[]
    {
      rows := map[];
    }

    function Stored(key: BucketKey): Option<Counter>
      reads this
    {
      if key in rows then Some(rows[key]) else None
    }

    /** Increment, else reset an expired window, else refuse an existing row, else insert. */
    method CheckRateLimit(key: BucketKey, now: Time) returns (admitted: bool)
      modifies this
      ensures Stored(key) == CheckAlone(old(Stored(key)), now).0
      ensures admitted == CheckAlone(old(Stored(key)), now).1.Some?
      ensures forall k :: k != key ==> Stored(k) == old(Stored(k))
    {
      if key in rows && rows[key].resetAt > now && rows[key].count < LIMIT {
        rows := rows[key := rows[key].(count := rows[key].count + 1)];
        return true;
      }
      if key in rows && rows[key].resetAt <= now {
        rows := rows[key := Counter(1, now + WINDOW)];
        return true;
      }
      if key in rows {
        return false;
      }
      rows := rows[key := Counter(1, now + WINDOW)];
      return true;
    }
  }
}
