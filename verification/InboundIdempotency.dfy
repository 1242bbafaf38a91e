/**
 The inbound exactly-once protocol: any number of callers race to claim one stored
 record per key, and the winner executes the request and finalizes the record in one
 transaction. Each SQL statement (or transaction) is one atomic step; a run is any
 sequence of steps of any callers, each with its own clock reading.
 */
module InboundIdempotency {
  import opened Common

  // ---------------------------------------------------------------------------
  // Stored data
  // ---------------------------------------------------------------------------

  /** One call of the claiming routine. Its fresh random claim token is identified with it. */
  type CallId = nat

  const EXPLICIT_TTL: nat := 24 * 3600

  const FINGERPRINT_TTL: nat := 5 * 60

  const LEASE_SECONDS: nat := 30

  datatype Key = Key(tenant: string, tokenDigest: string, effectiveKey: string)

  /** A request body after normalisation: the email is stripped and lower-cased. */
  datatype Body = Body(honeypot: bool, email: string)

  /** `explicit` says that the client sent its own key, so the long time to live applies. */
  datatype Request = Request(key: Key, explicit: bool, digest: string, body: Body)

  datatype Response = Blank | Honeypot | LeadAccepted(lead: nat) | InvalidEmail

  datatype RowStatus = Processing | Completed | Failed

  datatype Row = Row(
    digest: string,
    status: RowStatus,
    claim: CallId,
    response: Response,
    expiresAt: Time,
    leaseUntil: Option<Time>)

  type Rows = map<Key, Row>

  function Ttl(req: Request): nat {
    if req.explicit then EXPLICIT_TTL else FINGERPRINT_TTL
  }

  // ---------------------------------------------------------------------------
  // The business transaction
  // ---------------------------------------------------------------------------

  datatype Lead = Lead(tenant: string, email: string)

  /** A lead is named by its position; rows are only ever appended here. */
  datatype Crm = Crm(leads: seq<Lead>, activities: seq<nat>)

  const EMPTY_CRM := Crm([], [])

  function FindByEmail(leads: seq<Lead>, lead: Lead): (r: Option<nat>)
    ensures r.Some? ==> r.value < |leads| && leads[r.value] == lead
    ensures r.None? ==> lead !in leads
  {
    if leads == [] then None
    else if leads[|leads| - 1] == lead then Some(|leads| - 1)
    else FindByEmail(leads[..|leads| - 1], lead)
  }

  function ProcessInbound(crm: Crm, tenant: string, body: Body): (Response, Crm) {
    if body.honeypot then (Honeypot, crm)
    else if body.email == "" || '@' !in body.email then (InvalidEmail, crm)
    else
      var lead := Lead(tenant, body.email);
      match FindByEmail(crm.leads, lead)
      case Some(id) => (LeadAccepted(id), crm.(activities := crm.activities + [id]))
      case None =>
        var id := |crm.leads|;
        (LeadAccepted(id), Crm(crm.leads + [lead], crm.activities + [id]))
  }

  /** No tenant has two leads with one email, and every activity names a stored lead. */
  ghost predicate CrmOk(crm: Crm) {
    && (forall i, j :: 0 <= i < j < |crm.leads| ==> crm.leads[i] != crm.leads[j])
    && (forall a :: a in crm.activities ==> a < |crm.leads|)
  }

  lemma {:induction false} ProcessKeepsCrmOk(crm: Crm, tenant: string, body: Body)
    requires CrmOk(crm)
    ensures CrmOk(ProcessInbound(crm, tenant, body).1)
  {
    var after := ProcessInbound(crm, tenant, body).1;
    forall i, j | 0 <= i < j < |after.leads| ensures after.leads[i] != after.leads[j] {
      if j == |crm.leads| { assert crm.leads[i] in crm.leads; }
    }
  }

  // ---------------------------------------------------------------------------
  // The SQL statements
  // ---------------------------------------------------------------------------

  ghost predicate Holds(rows: Rows, key: Key, call: CallId) {
    key in rows && rows[key].status == Processing && rows[key].claim == call
  }

  /** The row that a successful INSERT or re-claiming UPDATE leaves behind. */
  function ClaimedRow(req: Request, call: CallId, now: Time): Row {
    Row(req.digest, Processing, call, Blank, now + Ttl(req), Some(now + LEASE_SECONDS))
  }

  predicate LeaseOver(row: Row, now: Time) {
    row.leaseUntil.None? || row.leaseUntil.value <= now
  }

  predicate CanTakeOver(rows: Rows, key: Key, now: Time) {
    key in rows && rows[key].status == Processing && LeaseOver(rows[key], now)
  }

  function TakenOver(row: Row, call: CallId, now: Time): Row {
    row.(claim := call, leaseUntil := Some(now + LEASE_SECONDS))
  }

  /** The WHERE clause of the re-claim tests the expiry only: neither status nor lease. */
  predicate CanReclaim(rows: Rows, key: Key, now: Time) {
    key in rows && rows[key].expiresAt <= now
  }

  function Finalized(row: Row, req: Request, response: Response, now: Time): Row {
    row.(
      status := if response == InvalidEmail then Failed else Completed,
      response := response,
      expiresAt := now + Ttl(req),
      leaseUntil := None)
  }

  datatype Decision = Conflict | InProgress | TryTakeOver | Replay(response: Response) | TryReclaim

  /** What the reader of an existing record does next. */
  function Decide(row: Row, digest: string, now: Time): Decision {
    if row.digest != digest then Conflict
    else if row.status == Processing then
      if LeaseOver(row, now) then TryTakeOver else InProgress
    else if row.expiresAt > now then Replay(row.response)
    else TryReclaim
  }

  // ---------------------------------------------------------------------------
  // Interleaved runs
  // ---------------------------------------------------------------------------

  datatype Phase =
    | Reading(req: Request, now: Time)
    | TakingOver(req: Request, now: Time)
    | Reclaiming(req: Request, now: Time)
    | Owner(req: Request)
    | Answered(decision: Decision)

  datatype Event =
    | Reclaimed(key: Key, call: CallId, now: Time)
    | Committed(req: Request, call: CallId, now: Time, response: Response)
    | Replayed(req: Request, call: CallId, now: Time, response: Response)
    | LeaseLost(req: Request, call: CallId)

  datatype State = State(rows: Rows, calls: map<CallId, Phase>, crm: Crm, log: seq<Event>)

  /** `Begin` is the INSERT, `Read` the SELECT, `Update` the conditional UPDATE of one call;
      `Finalize` is the executing transaction, which an owner may attempt repeatedly. */
  datatype Action =
    | Begin(call: CallId, req: Request, now: Time)
    | Read(call: CallId)
    | Update(call: CallId)
    | Finalize(call: CallId, now: Time)

  const INITIAL := State(map[], map[], EMPTY_CRM, [])

  function NextBegin(s: State, call: CallId, req: Request, now: Time): State {
    if call in s.calls then s
    else if req.key in s.rows then s.(calls := s.calls[call := Reading(req, now)])
    else s.(rows := s.rows[req.key := ClaimedRow(req, call, now)], calls := s.calls[call := Owner(req)])
  }

  function NextRead(s: State, call: CallId): State {
    if call !in s.calls || !s.calls[call].Reading? then s
    else
      var Reading(req, now) := s.calls[call];
      if req.key !in s.rows then s.(calls := s.calls[call := Answered(InProgress)])
      else
        var decision := Decide(s.rows[req.key], req.digest, now);
        match decision
        case TryTakeOver => s.(calls := s.calls[call := TakingOver(req, now)])
        case TryReclaim => s.(calls := s.calls[call := Reclaiming(req, now)])
        case Replay(response) =>
          s.(calls := s.calls[call := Answered(decision)], log := s.log + [Replayed(req, call, now, response)])
        case _ => s.(calls := s.calls[call := Answered(decision)])
  }

  function NextUpdate(s: State, call: CallId): State {
    if call !in s.calls then s
    else match s.calls[call]
      case TakingOver(req, now) =>
        if CanTakeOver(s.rows, req.key, now)
        then s.(rows := s.rows[req.key := TakenOver(s.rows[req.key], call, now)],
                calls := s.calls[call := Owner(req)])
        else s.(calls := s.calls[call := Answered(InProgress)])
      case Reclaiming(req, now) =>
        if CanReclaim(s.rows, req.key, now)
        then s.(rows := s.rows[req.key := ClaimedRow(req, call, now)],
                calls := s.calls[call := Owner(req)],
                log := s.log + [Reclaimed(req.key, call, now)])
        else s.(calls := s.calls[call := Answered(InProgress)])
      case _ => s
  }

  function NextFinalize(s: State, call: CallId, now: Time): State {
    if call !in s.calls || !s.calls[call].Owner? then s
    else
      var req := s.calls[call].req;
      if req.key in s.rows && s.rows[req.key].status == Processing && s.rows[req.key].claim == call then
        var (response, crm) := ProcessInbound(s.crm, req.key.tenant, req.body);
        State(s.rows[req.key := Finalized(s.rows[req.key], req, response, now)], s.calls, crm,
              s.log + [Committed(req, call, now, response)])
      else s.(log := s.log + [LeaseLost(req, call)])
  }

  function Next(s: State, a: Action): State {
    match a
    case Begin(call, req, now) => NextBegin(s, call, req, now)
    case Read(call) => NextRead(s, call)
    case Update(call) => NextUpdate(s, call)
    case Finalize(call, now) => NextFinalize(s, call, now)
  }

  function Run(s: State, actions: seq<Action>): State
    decreases |actions|
  {
    if actions == [] then s else Run(Next(s, actions[0]), actions[1..])
  }

  // ---------------------------------------------------------------------------
  // What a log must look like
  // ---------------------------------------------------------------------------

  ghost predicate CommitOf(e: Event, key: Key) {
    e.Committed? && e.req.key == key
  }

  /** A time at which the result of a commit is no longer kept: a day after it if the client sent its own key, five
      minutes after it otherwise. */
  predicate Outlived(e: Event, now: Time)
    requires e.Committed?
  {
    now >= e.now + if e.req.explicit then 24 * 60 * 60 else 5 * 60
  }

  /** Between positions i and j the key of commit i was re-claimed after its time to live. */
  ghost predicate ReclaimedBetween(log: seq<Event>, i: nat, j: nat)
    requires i < |log| && j <= |log| && log[i].Committed?
  {
    exists m :: i < m < j && log[m].Reclaimed? && log[m].key == log[i].req.key && Outlived(log[i], log[m].now)
  }

  ghost predicate ExactlyOncePerTtl(log: seq<Event>) {
    forall i, j :: 0 <= i < j < |log| && log[i].Committed? && CommitOf(log[j], log[i].req.key)
                   ==> ReclaimedBetween(log, i, j)
  }

  /** Position of the last commit of the key, or -1. */
  ghost function LastCommit(log: seq<Event>, key: Key): (r: int)
    ensures -1 <= r < |log|
    ensures r >= 0 ==> CommitOf(log[r], key)
    ensures forall i :: r < i < |log| ==> !CommitOf(log[i], key)
  {
    if log == [] then -1
    else if CommitOf(log[|log| - 1], key) then |log| - 1
    else LastCommit(log[..|log| - 1], key)
  }

  /** A replay returns the stored response of the latest commit before it, made for the same payload
      and still within its time to live. */
  ghost predicate ReplayFaithful(log: seq<Event>, j: nat)
    requires j < |log| && log[j].Replayed?
  {
    var i := LastCommit(log[..j], log[j].req.key);
    && i >= 0
    && log[i].response == log[j].response
    && log[i].req.digest == log[j].req.digest
    && !Outlived(log[i], log[j].now)
  }

  /** The CRM that results from executing the committed requests, and nothing else, in log order. */
  ghost function CommittedEffects(log: seq<Event>): Crm {
    if log == [] then EMPTY_CRM
    else
      var before := CommittedEffects(log[..|log| - 1]);
      var e := log[|log| - 1];
      if e.Committed? then ProcessInbound(before, e.req.key.tenant, e.req.body).1 else before
  }

  // ---------------------------------------------------------------------------
  // The invariant
  // ---------------------------------------------------------------------------

  ghost predicate NoCommitBy(log: seq<Event>, call: CallId) {
    forall i :: 0 <= i < |log| && log[i].Committed? ==> log[i].call != call
  }

  ghost predicate RowOk(s: State, key: Key)
    requires key in s.rows
  {
    var row := s.rows[key];
    var i := LastCommit(s.log, key);
    if row.status == Processing then
      && row.claim in s.calls
      && s.calls[row.claim].Owner?
      && s.calls[row.claim].req.key == key
      && s.calls[row.claim].req.digest == row.digest
      && NoCommitBy(s.log, row.claim)
      && (i >= 0 ==> ReclaimedBetween(s.log, i, |s.log|))
    else
      && i >= 0
      && row.claim == s.log[i].call
      && row.response == s.log[i].response
      && row.digest == s.log[i].req.digest
      && row.expiresAt == s.log[i].now + Ttl(s.log[i].req)
  }

  ghost predicate CallOk(s: State, call: CallId)
    requires call in s.calls
  {
    match s.calls[call]
    case Reading(req, now) => req.key in s.rows
    case TakingOver(req, now) => req.key in s.rows && s.rows[req.key].digest == req.digest
    case Reclaiming(req, now) => req.key in s.rows && s.rows[req.key].digest == req.digest
    case Owner(req) => req.key in s.rows && s.rows[req.key].digest == req.digest
    case Answered(_) => true
  }

  ghost predicate EventOk(s: State, i: nat)
    requires i < |s.log|
  {
    match s.log[i]
    case Committed(req, call, _, _) =>
      && req.key in s.rows
      && s.rows[req.key].digest == req.digest
      && call in s.calls
      && s.calls[call] == Owner(req)
    case Replayed(_, _, _, _) => ReplayFaithful(s.log, i)
    case _ => true
  }

  ghost predicate RowsOk(s: State) {
    forall key :: key in s.rows ==> RowOk(s, key)
  }

  ghost predicate CallsOk(s: State) {
    forall call :: call in s.calls ==> CallOk(s, call)
  }

  ghost predicate LogOk(s: State) {
    && (forall i :: 0 <= i < |s.log| ==> EventOk(s, i))
    && ExactlyOncePerTtl(s.log)
    && s.crm == CommittedEffects(s.log)
    && CrmOk(s.crm)
  }

  ghost predicate Inv(s: State) {
    RowsOk(s) && CallsOk(s) && LogOk(s)
  }

  // ---------------------------------------------------------------------------
  // Appending to a log
  // ---------------------------------------------------------------------------

  lemma {:induction false} AppendKeepsReclaim(log: seq<Event>, e: Event, i: nat, j: nat)
    requires i < |log| && j <= |log| && log[i].Committed? && ReclaimedBetween(log, i, j)
    ensures ReclaimedBetween(log + [e], i, j)
    ensures ReclaimedBetween(log + [e], i, |log| + 1)
  {
    var m :| i < m < j && log[m].Reclaimed? && log[m].key == log[i].req.key
                   && Outlived(log[i], log[m].now);
    assert (log + [e])[m] == log[m] && (log + [e])[i] == log[i];
  }

  lemma {:induction false} AppendLastCommit(log: seq<Event>, e: Event, key: Key)
    ensures LastCommit(log + [e], key) == if CommitOf(e, key) then |log| else LastCommit(log, key)
  {
    assert (log + [e])[..|log|] == log;
  }

  lemma {:induction false} AppendKeepsReplay(log: seq<Event>, e: Event, j: nat)
    requires j < |log| && log[j].Replayed? && ReplayFaithful(log, j)
    ensures ReplayFaithful(log + [e], j)
  {
    assert (log + [e])[..j] == log[..j];
  }

  lemma {:induction false} AppendEffects(log: seq<Event>, e: Event)
    ensures CommittedEffects(log + [e]) ==
            if e.Committed? then ProcessInbound(CommittedEffects(log), e.req.key.tenant, e.req.body).1
            else CommittedEffects(log)
  {
    assert (log + [e])[..|log|] == log;
  }

  lemma {:induction false} AppendKeepsExactlyOnce(log: seq<Event>, e: Event)
    requires ExactlyOncePerTtl(log)
    requires e.Committed? ==>
               var i := LastCommit(log, e.req.key);
               i >= 0 ==> ReclaimedBetween(log, i, |log|)
    ensures ExactlyOncePerTtl(log + [e])
  {
    var log' := log + [e];
    forall i, j | 0 <= i < j < |log'| && log'[i].Committed? && CommitOf(log'[j], log'[i].req.key)
      ensures ReclaimedBetween(log', i, j)
    {
      if j < |log| {
        AppendKeepsReclaim(log, e, i, j);
      } else {
        var last := LastCommit(log, e.req.key);
        if i < last {
          AppendKeepsReclaim(log, e, i, last);
          var m :| i < m < last && log'[m].Reclaimed? && log'[m].key == log'[i].req.key
                   && Outlived(log'[i], log'[m].now);
          assert m < j;
        } else {
          var m :| i < m < |log| && log[m].Reclaimed? && log[m].key == log[i].req.key
                   && Outlived(log[i], log[m].now);
          assert log'[m] == log[m];
        }
      }
    }
  }

  // ---------------------------------------------------------------------------
  // Every step keeps the invariant
  // ---------------------------------------------------------------------------

  /** The log grows by at most one event. */
  ghost predicate Grows(log: seq<Event>, log': seq<Event>) {
    log' == log || (|log'| == |log| + 1 && log' == log + [log'[|log|]])
  }

  /** What no step ever undoes: the log only grows, rows and their payload digests stay, and an
      owner stays the owner of the same request. */
  ghost predicate Extends(s: State, s': State) {
    && Grows(s.log, s'.log)
    && (forall key :: key in s.rows ==> key in s'.rows && s'.rows[key].digest == s.rows[key].digest)
    && (forall c :: c in s.calls ==> c in s'.calls && (s.calls[c].Owner? ==> s'.calls[c] == s.calls[c]))
  }

  lemma {:induction false} StepExtends(s: State, a: Action)
    requires a.call in s.calls ==> CallOk(s, a.call)
    ensures Extends(s, Next(s, a))
  {
    match a
    case Begin(_, _, _) =>
    case Read(call) =>
    case Update(call) =>
    case Finalize(call, now) =>
  }

  lemma {:induction false} OldEventOk(s: State, s': State, i: nat)
    requires Extends(s, s') && i < |s.log| && EventOk(s, i)
    ensures EventOk(s', i)
  {
    assert s'.log[i] == s.log[i];
    if s.log[i].Replayed? && s'.log != s.log {
      AppendKeepsReplay(s.log, s'.log[|s.log|], i);
    }
  }

  lemma {:induction false} OldCallOk(s: State, s': State, c: CallId)
    requires Extends(s, s') && c in s.calls && CallOk(s, c) && s'.calls[c] == s.calls[c]
    ensures CallOk(s', c)
  {
  }

  lemma {:induction false} OldRowOk(s: State, s': State, key: Key)
    requires Extends(s, s') && key in s.rows && RowOk(s, key) && s'.rows[key] == s.rows[key]
    requires s'.log != s.log && s'.log[|s.log|].Committed? ==>
               s'.log[|s.log|].req.key != key && s'.log[|s.log|].call != s.rows[key].claim
    ensures RowOk(s', key)
  {
    if s'.log != s.log {
      var e := s'.log[|s.log|];
      AppendLastCommit(s.log, e, key);
      var i := LastCommit(s.log, key);
      if s.rows[key].status == Processing && i >= 0 {
        AppendKeepsReclaim(s.log, e, i, |s.log|);
      }
    }
  }

  /** A call that does not own a record yet has committed nothing. */
  lemma {:induction false} NotOwnerNoCommit(s: State, call: CallId)
    requires Inv(s) && (call !in s.calls || !s.calls[call].Owner?)
    ensures NoCommitBy(s.log, call)
  {
    forall i | 0 <= i < |s.log| && s.log[i].Committed? ensures s.log[i].call != call {
      assert EventOk(s, i);
    }
  }

  lemma {:induction false} NoRowNoCommit(s: State, key: Key)
    requires Inv(s) && key !in s.rows
    ensures LastCommit(s.log, key) == -1
  {
    forall i | 0 <= i < |s.log| ensures !CommitOf(s.log[i], key) {
      assert EventOk(s, i);
    }
  }

  lemma {:induction false} BeginKeepsInv(s: State, call: CallId, req: Request, now: Time)
    requires Inv(s)
    ensures Inv(NextBegin(s, call, req, now))
  {
    var s' := NextBegin(s, call, req, now);
    assert call in s.calls ==> CallOk(s, call);
    StepExtends(s, Begin(call, req, now));
    if call !in s.calls {
      forall i | 0 <= i < |s'.log| ensures EventOk(s', i) {
        OldEventOk(s, s', i);
      }
      forall key | key in s'.rows ensures RowOk(s', key) {
        if key in s.rows {
          OldRowOk(s, s', key);
        } else {
          NotOwnerNoCommit(s, call);
          NoRowNoCommit(s, key);
        }
      }
      forall c | c in s'.calls ensures CallOk(s', c) {
        if c != call { OldCallOk(s, s', c); }
      }
    }
  }

  /** Reading a settled, unexpired record with the same payload makes a faithful replay. */
  lemma {:induction false} ReplayIsFaithful(s: State, req: Request, call: CallId, now: Time, response: Response)
    requires req.key in s.rows && RowOk(s, req.key)
    requires Decide(s.rows[req.key], req.digest, now) == Replay(response)
    ensures ReplayFaithful(s.log + [Replayed(req, call, now, response)], |s.log|)
  {
    var log' := s.log + [Replayed(req, call, now, response)];
    assert log'[..|s.log|] == s.log;
    assert log'[LastCommit(s.log, req.key)] == s.log[LastCommit(s.log, req.key)];
  }

  lemma {:induction false} ReadKeepsLog(s: State, call: CallId)
    requires LogOk(s) && call in s.calls && s.calls[call].Reading? && Extends(s, NextRead(s, call))
    requires s.calls[call].req.key in s.rows && RowOk(s, s.calls[call].req.key)
    ensures LogOk(NextRead(s, call))
  {
    var s' := NextRead(s, call);
    var req, now := s.calls[call].req, s.calls[call].now;
    var decision := Decide(s.rows[req.key], req.digest, now);
    if decision.Replay? {
      ReplayIsFaithful(s, req, call, now, decision.response);
      AppendKeepsExactlyOnce(s.log, s'.log[|s.log|]);
      AppendEffects(s.log, s'.log[|s.log|]);
      assert EventOk(s', |s.log|);
    }
    forall i | 0 <= i < |s'.log| ensures EventOk(s', i) {
      if i < |s.log| { OldEventOk(s, s', i); }
    }
  }

  lemma {:induction false} ReadKeepsRows(s: State, call: CallId)
    requires RowsOk(s) && call in s.calls && s.calls[call].Reading? && CallOk(s, call) && Extends(s, NextRead(s, call))
    ensures RowsOk(NextRead(s, call))
  {
    forall key | key in s.rows ensures RowOk(NextRead(s, call), key) {
      OldRowOk(s, NextRead(s, call), key);
    }
  }

  lemma {:induction false} ReadCallOk(s: State, call: CallId)
    requires call in s.calls && CallOk(s, call)
    ensures call in NextRead(s, call).calls && CallOk(NextRead(s, call), call)
  {
  }

  lemma {:induction false} ReadKeepsCalls(s: State, call: CallId)
    requires CallsOk(s) && call in s.calls && s.calls[call].Reading? && Extends(s, NextRead(s, call))
    ensures CallsOk(NextRead(s, call))
  {
    forall c | c in s.calls ensures CallOk(NextRead(s, call), c) {
      if c != call { OldCallOk(s, NextRead(s, call), c); } else { ReadCallOk(s, call); }
    }
  }

  lemma {:induction false} ReadKeepsInv(s: State, call: CallId)
    requires Inv(s)
    ensures Inv(NextRead(s, call))
  {
    if call in s.calls && s.calls[call].Reading? {
      assert CallOk(s, call);
      assert RowOk(s, s.calls[call].req.key);
      StepExtends(s, Read(call));
      ReadKeepsLog(s, call);
      ReadKeepsRows(s, call);
      ReadKeepsCalls(s, call);
    }
  }

  /** The record a conditional UPDATE has just taken is a good processing record. */
  lemma {:induction false} TakenRowOk(s: State, call: CallId)
    requires call in s.calls && (s.calls[call].TakingOver? || s.calls[call].Reclaiming?)
    requires CallOk(s, call) && RowOk(s, s.calls[call].req.key) && NoCommitBy(s.log, call)
    requires NextUpdate(s, call).rows != s.rows
    ensures RowOk(NextUpdate(s, call), s.calls[call].req.key)
  {
    var s' := NextUpdate(s, call);
    var key := s.calls[call].req.key;
    var i := LastCommit(s.log, key);
    if s'.log != s.log {
      var e := Reclaimed(key, call, s.calls[call].now);
      assert s'.log == s.log + [e];
      AppendLastCommit(s.log, e, key);
      if i >= 0 {
        assert s'.log[i] == s.log[i];
        if s.rows[key].status == Processing {
          AppendKeepsReclaim(s.log, e, i, |s.log|);
        } else {
          assert s'.log[|s.log|] == e;
        }
      }
    }
  }

  lemma {:induction false} UpdateKeepsRows(s: State, call: CallId, key: Key)
    requires Inv(s) && call in s.calls && (s.calls[call].TakingOver? || s.calls[call].Reclaiming?)
    requires Extends(s, NextUpdate(s, call)) && key in NextUpdate(s, call).rows
    ensures RowOk(NextUpdate(s, call), key)
  {
    var s' := NextUpdate(s, call);
    var req := s.calls[call].req;
    assert CallOk(s, call) && RowOk(s, req.key);
    if key != req.key || s'.rows == s.rows {
      OldRowOk(s, s', key);
    } else {
      NotOwnerNoCommit(s, call);
      TakenRowOk(s, call);
    }
  }

  lemma {:induction false} UpdateKeepsLog(s: State, call: CallId)
    requires LogOk(s) && call in s.calls && (s.calls[call].TakingOver? || s.calls[call].Reclaiming?)
    requires Extends(s, NextUpdate(s, call))
    ensures LogOk(NextUpdate(s, call))
  {
    var s' := NextUpdate(s, call);
    if s'.log != s.log {
      AppendKeepsExactlyOnce(s.log, s'.log[|s.log|]);
      AppendEffects(s.log, s'.log[|s.log|]);
    }
    forall i | 0 <= i < |s'.log| ensures EventOk(s', i) {
      if i < |s.log| { OldEventOk(s, s', i); }
    }
  }

  lemma {:induction false} UpdatedCallOk(s: State, call: CallId)
    requires call in s.calls && (s.calls[call].TakingOver? || s.calls[call].Reclaiming?) && CallOk(s, call)
    ensures call in NextUpdate(s, call).calls && CallOk(NextUpdate(s, call), call)
  {
  }

  lemma {:induction false} UpdateKeepsOthers(s: State, call: CallId, c: CallId)
    requires c != call
    ensures c in NextUpdate(s, call).calls <==> c in s.calls
    ensures c in s.calls ==> NextUpdate(s, call).calls[c] == s.calls[c]
  {
  }

  lemma {:induction false} UpdateKeepsCalls(s: State, call: CallId, c: CallId)
    requires call in s.calls && (s.calls[call].TakingOver? || s.calls[call].Reclaiming?) && CallOk(s, call)
    requires c in s.calls ==> CallOk(s, c)
    requires Extends(s, NextUpdate(s, call)) && c in NextUpdate(s, call).calls
    ensures CallOk(NextUpdate(s, call), c)
  {
    if c == call {
      UpdatedCallOk(s, call);
    } else {
      UpdateKeepsOthers(s, call, c);
      OldCallOk(s, NextUpdate(s, call), c);
    }
  }

  lemma {:induction false} UpdateKeepsInv(s: State, call: CallId)
    requires Inv(s)
    ensures Inv(NextUpdate(s, call))
  {
    if call in s.calls && (s.calls[call].TakingOver? || s.calls[call].Reclaiming?) {
      assert CallOk(s, call);
      StepExtends(s, Update(call));
      UpdateKeepsLog(s, call);
      assert RowsOk(NextUpdate(s, call)) by {
        forall key | key in NextUpdate(s, call).rows ensures RowOk(NextUpdate(s, call), key) {
          UpdateKeepsRows(s, call, key);
        }
      }
      assert CallsOk(NextUpdate(s, call)) by {
        forall c | c in NextUpdate(s, call).calls ensures CallOk(NextUpdate(s, call), c) {
          UpdateKeepsCalls(s, call, c);
        }
      }
    }
  }

  /** The executing transaction of the holder settles its record with its own commit. */
  lemma {:induction false} FinalizedRowOk(s: State, call: CallId, now: Time)
    requires call in s.calls && s.calls[call].Owner? && CallOk(s, call)
    requires Holds(s.rows, s.calls[call].req.key, call)
    ensures RowOk(NextFinalize(s, call, now), s.calls[call].req.key)
  {
    var s' := NextFinalize(s, call, now);
    AppendLastCommit(s.log, s'.log[|s.log|], s.calls[call].req.key);
  }

  lemma {:induction false} FinalizeKeepsLog(s: State, call: CallId, now: Time)
    requires Inv(s) && call in s.calls && s.calls[call].Owner?
    ensures var s' := NextFinalize(s, call, now);
            ExactlyOncePerTtl(s'.log) && s'.crm == CommittedEffects(s'.log) && CrmOk(s'.crm)
  {
    var req := s.calls[call].req;
    assert CallOk(s, call) && RowOk(s, req.key);
    var e := NextFinalize(s, call, now).log[|s.log|];
    AppendKeepsExactlyOnce(s.log, e);
    AppendEffects(s.log, e);
    ProcessKeepsCrmOk(s.crm, req.key.tenant, req.body);
  }

  lemma {:induction false} FinalizeKeepsInv(s: State, call: CallId, now: Time)
    requires Inv(s)
    ensures Inv(NextFinalize(s, call, now))
  {
    var s' := NextFinalize(s, call, now);
    assert call in s.calls ==> CallOk(s, call);
    StepExtends(s, Finalize(call, now));
    if call in s.calls && s.calls[call].Owner? {
      FinalizeKeepsLog(s, call, now);
      var key := s.calls[call].req.key;
      forall i | 0 <= i < |s'.log| ensures EventOk(s', i) {
        if i < |s.log| { OldEventOk(s, s', i); }
      }
      forall k | k in s'.rows ensures RowOk(s', k) {
        if k == key && s'.rows != s.rows {
          FinalizedRowOk(s, call, now);
        } else {
          assert RowOk(s, k);
          OldRowOk(s, s', k);
        }
      }
      forall c | c in s'.calls ensures CallOk(s', c) {
        OldCallOk(s, s', c);
      }
    }
  }

  lemma {:induction false} StepKeepsInv(s: State, a: Action)
    requires Inv(s)
    ensures Inv(Next(s, a))
  {
    match a
    case Begin(call, req, now) => BeginKeepsInv(s, call, req, now);
    case Read(call) => ReadKeepsInv(s, call);
    case Update(call) => UpdateKeepsInv(s, call);
    case Finalize(call, now) => FinalizeKeepsInv(s, call, now);
  }

  lemma {:induction false} RunKeepsInv(s: State, actions: seq<Action>)
    requires Inv(s)
    ensures Inv(Run(s, actions))
    decreases |actions|
  {
    if actions != [] {
      StepKeepsInv(s, actions[0]);
      RunKeepsInv(Next(s, actions[0]), actions[1..]);
    }
  }

  // ---------------------------------------------------------------------------
  // Safety over every run
  // ---------------------------------------------------------------------------

  lemma {:induction false} InitialInv()
    ensures Inv(INITIAL)
  {
  }

  /** Two committed executions for one key are separated by a re-claim made no earlier than the time
      to live of the first one after its finalizing. */
  lemma {:induction false} ExactlyOnce(actions: seq<Action>)
    ensures ExactlyOncePerTtl(Run(INITIAL, actions).log)
  {
    InitialInv();
    RunKeepsInv(INITIAL, actions);
  }

  /** Every replayed response is the stored result of the latest commit before it, for that payload. */
  lemma {:induction false} EveryReplayFaithful(actions: seq<Action>)
    ensures var log := Run(INITIAL, actions).log;
            forall j :: 0 <= j < |log| && log[j].Replayed? ==> ReplayFaithful(log, j)
  {
    InitialInv();
    RunKeepsInv(INITIAL, actions);
    var s := Run(INITIAL, actions);
    forall j | 0 <= j < |s.log| && s.log[j].Replayed? ensures ReplayFaithful(s.log, j) {
      assert EventOk(s, j);
    }
  }

  /** A stored payload digest never changes, not even across expiry and re-claim. */
  lemma {:induction false} DigestNeverChanges(s: State, actions: seq<Action>, key: Key)
    requires Inv(s) && key in s.rows
    ensures key in Run(s, actions).rows
    ensures Run(s, actions).rows[key].digest == s.rows[key].digest
    decreases |actions|
  {
    if actions != [] {
      assert actions[0].call in s.calls ==> CallOk(s, actions[0].call);
      StepExtends(s, actions[0]);
      StepKeepsInv(s, actions[0]);
      DigestNeverChanges(Next(s, actions[0]), actions[1..], key);
    }
  }

  function CommitsBy(log: seq<Event>, call: CallId): nat {
    if log == [] then 0
    else
      var e := log[|log| - 1];
      CommitsBy(log[..|log| - 1], call) + if e.Committed? && e.call == call then 1 else 0
  }

  lemma {:induction false} NoCommitCountsZero(log: seq<Event>, call: CallId)
    requires NoCommitBy(log, call)
    ensures CommitsBy(log, call) == 0
  {
    if log != [] {
      NoCommitCountsZero(log[..|log| - 1], call);
    }
  }

  /** A step adds a commit of a call only if the call holds its record, and then it is its first. */
  lemma {:induction false} StepCommits(s: State, a: Action, call: CallId)
    requires Inv(s)
    ensures var after := CommitsBy(Next(s, a).log, call);
            after == CommitsBy(s.log, call) ||
            (after == 1 && CommitsBy(s.log, call) == 0 && call in s.calls && s.calls[call].Owner?
             && Holds(s.rows, s.calls[call].req.key, call))
  {
    var log' := Next(s, a).log;
    if log' != s.log {
      assert log'[..|s.log|] == s.log;
      if log'[|s.log|].Committed? && log'[|s.log|].call == call {
        assert CallOk(s, call) && RowOk(s, s.calls[call].req.key);
        NoCommitCountsZero(s.log, call);
      }
    }
  }

  lemma {:induction false} TokenCommitsAtMostOnceFrom(s: State, actions: seq<Action>, call: CallId)
    requires Inv(s) && CommitsBy(s.log, call) <= 1
    ensures CommitsBy(Run(s, actions).log, call) <= 1
    decreases |actions|
  {
    if actions != [] {
      StepCommits(s, actions[0], call);
      StepKeepsInv(s, actions[0]);
      TokenCommitsAtMostOnceFrom(Next(s, actions[0]), actions[1..], call);
    }
  }

  /** However often an owner tries to finalize, its claim token commits at most once. */
  lemma {:induction false} TokenCommitsAtMostOnce(actions: seq<Action>, call: CallId)
    ensures CommitsBy(Run(INITIAL, actions).log, call) <= 1
  {
    InitialInv();
    TokenCommitsAtMostOnceFrom(INITIAL, actions, call);
  }

  /** The call still believes it owns its key, but its token is no longer the stored one. */
  ghost predicate Superseded(s: State, call: CallId) {
    call in s.calls && s.calls[call].Owner? && !Holds(s.rows, s.calls[call].req.key, call)
  }

  /** Finalizing with a superseded token reports the loss and leaves rows, leads and activities alone. */
  lemma {:induction false} SupersededChangesNothing(s: State, call: CallId, now: Time)
    requires Superseded(s, call)
    ensures var s' := NextFinalize(s, call, now);
            && s'.rows == s.rows && s'.crm == s.crm && s'.calls == s.calls
            && s'.log == s.log + [LeaseLost(s.calls[call].req, call)]
  {
  }

  lemma {:induction false} StepKeepsSuperseded(s: State, a: Action, call: CallId)
    requires Superseded(s, call)
    ensures Superseded(Next(s, a), call)
  {
    match a
    case Begin(_, _, _) =>
    case Read(c) =>
    case Update(c) =>
    case Finalize(c, now) =>
  }

  /** Once superseded, a token never commits again, whatever everybody does. */
  lemma {:induction false} SupersededNeverCommits(s: State, actions: seq<Action>, call: CallId)
    requires Inv(s) && Superseded(s, call)
    ensures Superseded(Run(s, actions), call)
    ensures CommitsBy(Run(s, actions).log, call) == CommitsBy(s.log, call)
    decreases |actions|
  {
    if actions != [] {
      StepKeepsSuperseded(s, actions[0], call);
      StepCommits(s, actions[0], call);
      StepKeepsInv(s, actions[0]);
      SupersededNeverCommits(Next(s, actions[0]), actions[1..], call);
    }
  }

  function AcceptedCommits(log: seq<Event>): nat {
    if log == [] then 0
    else
      var e := log[|log| - 1];
      AcceptedCommits(log[..|log| - 1]) + if e.Committed? && e.response.LeadAccepted? then 1 else 0
  }

  /** A logged response is the one the business transaction gives in the CRM of that moment. */
  ghost predicate ResponsesExecuted(log: seq<Event>) {
    forall i :: 0 <= i < |log| && log[i].Committed? ==>
      log[i].response == ProcessInbound(CommittedEffects(log[..i]), log[i].req.key.tenant, log[i].req.body).0
  }

  lemma {:induction false} AppendResponse(log: seq<Event>, e: Event)
    requires ResponsesExecuted(log)
    requires e.Committed? ==> e.response == ProcessInbound(CommittedEffects(log), e.req.key.tenant, e.req.body).0
    ensures ResponsesExecuted(log + [e])
  {
    var log' := log + [e];
    forall i | 0 <= i < |log'| ensures log'[..i] == log[..i] {
    }
    assert log[..|log|] == log;
  }

  lemma {:induction false} StepResponsesExecuted(s: State, a: Action)
    requires s.crm == CommittedEffects(s.log) && ResponsesExecuted(s.log)
    ensures ResponsesExecuted(Next(s, a).log)
  {
    var log' := Next(s, a).log;
    if log' != s.log {
      AppendResponse(s.log, log'[|s.log|]);
    }
  }

  lemma {:induction false} RunResponsesExecuted(s: State, actions: seq<Action>)
    requires Inv(s) && ResponsesExecuted(s.log)
    ensures ResponsesExecuted(Run(s, actions).log)
    decreases |actions|
  {
    if actions != [] {
      StepKeepsInv(s, actions[0]);
      StepResponsesExecuted(s, actions[0]);
      RunResponsesExecuted(Next(s, actions[0]), actions[1..]);
    }
  }

  lemma {:induction false} AcceptedAreActivities(log: seq<Event>)
    requires ResponsesExecuted(log)
    ensures |CommittedEffects(log).activities| == AcceptedCommits(log)
    ensures |CommittedEffects(log).leads| <= AcceptedCommits(log)
  {
    if log != [] {
      var before := log[..|log| - 1];
      assert forall i :: 0 <= i < |before| ==> before[..i] == log[..i];
      AcceptedAreActivities(before);
    }
  }

  /** Conservation: the CRM is exactly what the committed executions did, one activity for each accepted
      one, no lead twice, and no more leads than accepted executions. */
  lemma {:induction false} CrmIsCommittedEffects(actions: seq<Action>)
    ensures var s := Run(INITIAL, actions);
            && s.crm == CommittedEffects(s.log)
            && |s.crm.activities| == AcceptedCommits(s.log)
            && |s.crm.leads| <= AcceptedCommits(s.log)
            && CrmOk(s.crm)
  {
    InitialInv();
    RunKeepsInv(INITIAL, actions);
    RunResponsesExecuted(INITIAL, actions);
    AcceptedAreActivities(Run(INITIAL, actions).log);
  }

  // ---------------------------------------------------------------------------
  // One call without interference
  // ---------------------------------------------------------------------------

  /** What the claiming routine answers: `New` hands the processing right to the caller. */
  datatype Claim = New | Refused(decision: Decision)

  /** The routine run alone, on the stored rows. */
  function CheckAlone(rows: Rows, req: Request, call: CallId, now: Time): (Rows, Claim) {
    if req.key !in rows then (rows[req.key := ClaimedRow(req, call, now)], New)
    else
      var row := rows[req.key];
      match Decide(row, req.digest, now)
      case TryTakeOver => (rows[req.key := TakenOver(row, call, now)], New)
      case TryReclaim => (rows[req.key := ClaimedRow(req, call, now)], New)
      case decision => (rows, Refused(decision))
  }

  lemma {:induction false} RunOfThree(s: State, a: Action, b: Action, c: Action)
    ensures Run(s, [a, b, c]) == Next(Next(Next(s, a), b), c)
  {
    assert [a, b, c][1..] == [b, c];
    assert [b, c][1..] == [c];
    assert [c][1..] == [];
    assert Run(Next(s, a), [b, c]) == Run(Next(Next(s, a), b), [c]);
    assert Run(Next(Next(s, a), b), [c]) == Run(Next(Next(Next(s, a), b), c), []);
  }

  /** Three undisturbed steps of a fresh call do what the routine run alone does. */
  lemma {:induction false} SoloStepsAreCheckAlone(s: State, req: Request, call: CallId, now: Time)
    requires call !in s.calls
    ensures var s' := Run(s, [Begin(call, req, now), Read(call), Update(call)]);
            var (rows, claim) := CheckAlone(s.rows, req, call, now);
            && s'.rows == rows && s'.crm == s.crm && call in s'.calls
            && s'.calls[call] == match claim case New => Owner(req) case Refused(d) => Answered(d)
  {
    var s1 := NextBegin(s, call, req, now);
    var s2 := NextRead(s1, call);
    var s3 := NextUpdate(s2, call);
    RunOfThree(s, Begin(call, req, now), Read(call), Update(call));
    assert Run(s, [Begin(call, req, now), Read(call), Update(call)]) == s3;
  }

  /** No key blocks for ever: once lease and expiry have passed, a fresh undisturbed call with the stored
      payload owns the key and its transaction commits. */
  lemma {:induction false} AbandonedKeyRecovers(s: State, req: Request, call: CallId, now: Time, later: Time)
    requires call !in s.calls
    requires req.key in s.rows ==>
               var row := s.rows[req.key];
               && row.digest == req.digest && (row.leaseUntil.None? || row.leaseUntil.value <= now)
               && (row.status == Processing || row.expiresAt <= now)
    ensures var s' := Run(s, [Begin(call, req, now), Read(call), Update(call)]);
            var s'' := NextFinalize(s', call, later);
            && Holds(s'.rows, req.key, call)
            && |s''.log| == |s'.log| + 1
            && s''.log[|s'.log|] == Committed(req, call, later, ProcessInbound(s.crm, req.key.tenant, req.body).0)
  {
    SoloStepsAreCheckAlone(s, req, call, now);
  }

  // ---------------------------------------------------------------------------
  // The store
  // ---------------------------------------------------------------------------

  class InboundStore {
    var rows: Rows
    var crm: Crm

    constructor ()
      ensures rows == map[] && crm == EMPTY_CRM
    {
      rows := map[];
      crm := EMPTY_CRM;
    }

    /** Pre-occupy the key, or read the record that is there and take it over if the rules allow. */
    method CheckIdempotency(req: Request, call: CallId, now: Time) returns (claim: Claim)
      modifies `rows
      ensures (rows, claim) == CheckAlone(old(rows), req, call, now)
      ensures claim == New ==> Holds(rows, req.key, call)
      ensures claim.Refused? ==> rows == old(rows)
    {
      if req.key !in rows {
        rows := rows[req.key := Row(req.digest, Processing, call, Blank, now + Ttl(req), Some(now + LEASE_SECONDS))];
        return New;
      }
      var existing := rows[req.key];
      if existing.digest != req.digest {
        return Refused(Conflict);
      }
      if existing.status == Processing {
        if existing.leaseUntil.Some? && existing.leaseUntil.value > now {
          return Refused(InProgress);
        }
        rows := rows[req.key := existing.(claim := call, leaseUntil := Some(now + LEASE_SECONDS))];
        return New;
      }
      if existing.expiresAt > now {
        return Refused(Replay(existing.response));
      }
      rows := rows[req.key := existing.(status := Processing, claim := call, digest := req.digest, response := Blank,
                                        expiresAt := now + Ttl(req), leaseUntil := Some(now + LEASE_SECONDS))];
      return New;
    }

    /** One transaction: renew the lease, execute, finalize. A lost token leaves everything untouched. */
    method ProcessAndFinalize(req: Request, call: CallId, now: Time) returns (response: Option<Response>)
      modifies this
      ensures response.Some? <==> Holds(old(rows), req.key, call)
      ensures response.None? ==> rows == old(rows) && crm == old(crm)
      ensures response.Some? ==>
                && req.key in old(rows)
                && (response.value, crm) == ProcessInbound(old(crm), req.key.tenant, req.body)
                && rows == old(rows)[req.key := Finalized(old(rows)[req.key], req, response.value, now)]
    {
      if req.key !in rows || rows[req.key].status != Processing || rows[req.key].claim != call {
        return None;
      }
      rows := rows[req.key := rows[req.key].(leaseUntil := Some(now + LEASE_SECONDS))];
      var (result, after) := ProcessInbound(crm, req.key.tenant, req.body);
      crm := after;
      // The finalizing UPDATE has the renewal's WHERE clause, so its no-row branch cannot be reached.
      assert rows[req.key].status == Processing && rows[req.key].claim == call;
      rows := rows[req.key := rows[req.key].(
        status := if result == InvalidEmail then Failed else Completed,
        response := result,
        expiresAt := now + Ttl(req),
        leaseUntil := None)];
      return Some(result);
    }
  }
}
