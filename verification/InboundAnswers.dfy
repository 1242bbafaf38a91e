/**
 What the callers of the inbound API can rely on, in terms of their requests and of the stored fields: which request
 is accepted and what it leaves behind, when a record may change hands, and that every call gets an answer.
 */
module InboundAnswers {
  import opened Common
  import opened InboundIdempotency

  // ---------------------------------------------------------------------------
  // Which request is accepted
  // ---------------------------------------------------------------------------

  /** A filled trap field is answered as if all were well, an address without an at sign is refused, and everything
      else is accepted. */
  predicate RightAnswer(body: Body, response: Response) {
    && (response == Honeypot <==> body.honeypot)
    && (response == InvalidEmail <==> !body.honeypot && '@' !in body.email)
    && (response.LeadAccepted? <==> !body.honeypot && '@' in body.email)
  }

  /** An accepted request leaves one activity of the lead with its tenant and e-mail, which is added only if no stored
      lead has both; any other leaves nothing. */
  lemma {:induction false} ProcessAnswers(crm: Crm, tenant: string, body: Body)
    ensures var (response, after) := ProcessInbound(crm, tenant, body);
            && RightAnswer(body, response)
            && (!response.LeadAccepted? ==> after == crm)
            && (response.LeadAccepted? ==>
                  && response.lead < |after.leads| && after.leads[response.lead] == Lead(tenant, body.email)
                  && after.activities == crm.activities + [response.lead]
                  && crm.leads <= after.leads
                  && |after.leads| == |crm.leads| + if Lead(tenant, body.email) in crm.leads then 0 else 1)
  {
  }

  /** The leads of the accepted requests, in the order of their commits. */
  ghost function AcceptedLeads(log: seq<Event>): seq<nat> {
    if log == [] then []
    else
      var e := log[|log| - 1];
      AcceptedLeads(log[..|log| - 1]) + if e.Committed? && e.response.LeadAccepted? then [e.response.lead] else []
  }

  predicate CommitAnswered(e: Event, crm: Crm)
    requires e.Committed?
  {
    && RightAnswer(e.req.body, e.response)
    && (e.response.LeadAccepted? ==>
          e.response.lead < |crm.leads| && crm.leads[e.response.lead] == Lead(e.req.key.tenant, e.req.body.email))
  }

  predicate Named(lead: nat, log: seq<Event>) {
    exists i :: 0 <= i < |log| && log[i].Committed? && log[i].response == LeadAccepted(lead)
  }

  /** Every commit was answered as its request deserves, by a lead that is still there; the activities are those of the
      accepted commits in their order, and every lead was made for one of them. */
  ghost predicate WellAnswered(s: State) {
    && (forall i :: 0 <= i < |s.log| && s.log[i].Committed? ==> CommitAnswered(s.log[i], s.crm))
    && s.crm.activities == AcceptedLeads(s.log)
    && (forall lead :: 0 <= lead < |s.crm.leads| ==> Named(lead, s.log))
  }

  lemma {:induction false} NamedStays(lead: nat, log: seq<Event>, log': seq<Event>)
    requires Named(lead, log) && log <= log'
    ensures Named(lead, log')
  {
    var i :| 0 <= i < |log| && log[i].Committed? && log[i].response == LeadAccepted(lead);
    assert log'[i] == log[i];
  }

  lemma {:induction false} CommitKeepsAnswers(s: State, e: Event, crm: Crm)
    requires WellAnswered(s) && e.Committed?
        && (e.response, crm) == ProcessInbound(s.crm, e.req.key.tenant, e.req.body)
    ensures WellAnswered(s.(log := s.log + [e], crm := crm))
  {
    var log := s.log + [e];
    ProcessAnswers(s.crm, e.req.key.tenant, e.req.body);
    assert log[..|s.log|] == s.log;
    forall i | 0 <= i < |log| && log[i].Committed? ensures CommitAnswered(log[i], crm) {
      if i < |s.log| { assert CommitAnswered(s.log[i], s.crm); }
    }
    forall lead | 0 <= lead < |crm.leads| ensures Named(lead, log) {
      if lead < |s.crm.leads| {
        NamedStays(lead, s.log, log);
      } else {
        assert log[|s.log|] == e && e.response == LeadAccepted(lead);
      }
    }
  }

  lemma {:induction false} OtherKeepsAnswers(s: State, log: seq<Event>)
    requires WellAnswered(s) && (log == s.log || (|log| == |s.log| + 1 && log[..|s.log|] == s.log
        && !log[|s.log|].Committed?))
    ensures WellAnswered(s.(log := log))
  {
    forall lead | 0 <= lead < |s.crm.leads| ensures Named(lead, log) {
      NamedStays(lead, s.log, log);
    }
    forall i | 0 <= i < |log| && log[i].Committed? ensures CommitAnswered(log[i], s.crm) {
      assert log[i] == s.log[i];
    }
  }

  lemma {:induction false} StepKeepsAnswers(s: State, a: Action)
    requires WellAnswered(s)
    ensures WellAnswered(Next(s, a))
  {
    var s' := Next(s, a);
    if s'.log != s.log && s'.log[|s.log|].Committed? {
      CommitKeepsAnswers(s, s'.log[|s.log|], s'.crm);
    } else {
      OtherKeepsAnswers(s, s'.log);
    }
  }

  lemma {:induction false} RunKeepsAnswers(s: State, actions: seq<Action>)
    requires WellAnswered(s)
    ensures WellAnswered(Run(s, actions))
    decreases |actions|
  {
    if actions != [] {
      StepKeepsAnswers(s, actions[0]);
      RunKeepsAnswers(Next(s, actions[0]), actions[1..]);
    }
  }

  /** So in every interleaving of any callers. */
  lemma {:induction false} EveryCommitIsAnswered(actions: seq<Action>)
    ensures WellAnswered(Run(INITIAL, actions))
  {
    RunKeepsAnswers(INITIAL, actions);
  }

  // ---------------------------------------------------------------------------
  // When a record changes hands
  // ---------------------------------------------------------------------------

  function Later(now: Time, explicit: bool): Time {
    now + if explicit then 24 * 60 * 60 else 5 * 60
  }

  /** The call that read the record may take it over: the lease of 30 seconds is over, or, if it read a finished
      record, its time to live is. */
  predicate MayTake(row: Row, phase: Phase) {
    || (phase.TakingOver? && row.status == Processing
        && (row.leaseUntil.None? || row.leaseUntil.value <= phase.now))
    || (phase.Reclaiming? && row.expiresAt <= phase.now)
  }

  /** A stored record passes to another call exactly by an update of that call, for its key, when it may. It then is in
      processing for that call with a new lease; a re-claimed one also has a new time to live and no answer. */
  lemma {:induction false} ClaimMovesIff(s: State, a: Action, key: Key)
    requires key in s.rows
    ensures key in Next(s, a).rows
    ensures var row, row' := s.rows[key], Next(s, a).rows[key];
            var takes := a.Update? && a.call in s.calls && (s.calls[a.call].TakingOver? || s.calls[a.call].Reclaiming?)
                && s.calls[a.call].req.key == key && MayTake(row, s.calls[a.call]);
            && (row'.claim != row.claim ==> takes)
            && (takes ==>
                  && row'.claim == a.call && row'.status == Processing
                  && row'.leaseUntil == Some(s.calls[a.call].now + 30)
                  && Next(s, a).calls[a.call] == Owner(s.calls[a.call].req)
                  && (s.calls[a.call].TakingOver? ==> row' == row.(claim := a.call, leaseUntil := row'.leaseUntil))
                  && (s.calls[a.call].Reclaiming? ==>
                        && row'.expiresAt == Later(s.calls[a.call].now, s.calls[a.call].req.explicit)
                        && row'.response == Blank && row'.digest == s.calls[a.call].req.digest))
  {
  }

  /** A record is added exactly by a new call that finds none, which then owns it. */
  lemma {:induction false} RecordAddedIff(s: State, a: Action, key: Key)
    requires key !in s.rows
    ensures key in Next(s, a).rows <==> a.Begin? && a.call !in s.calls && a.req.key == key
    ensures key in Next(s, a).rows ==>
              && Next(s, a).rows[key]
                 == Row(a.req.digest, Processing, a.call, Blank, Later(a.now, a.req.explicit), Some(a.now + 30))
              && Next(s, a).calls[a.call] == Owner(a.req)
  {
  }

  /** A record in processing has a lease and no final answer; a finished one has no lease, and counts as failed exactly
      for a refused address. */
  predicate RowSettled(row: Row) {
    if row.status == Processing then row.leaseUntil.Some?
    else row.leaseUntil.None? && row.response != Blank && (row.status == Failed <==> row.response == InvalidEmail)
  }

  lemma {:induction false} StepKeepsSettled(s: State, a: Action, key: Key)
    requires key in s.rows ==> RowSettled(s.rows[key])
    ensures key in Next(s, a).rows ==> RowSettled(Next(s, a).rows[key])
  {
    if a.Finalize? && a.call in s.calls && s.calls[a.call].Owner? {
      ProcessAnswers(s.crm, s.calls[a.call].req.key.tenant, s.calls[a.call].req.body);
    }
  }

  lemma {:induction false} RunKeepsSettled(s: State, actions: seq<Action>, key: Key)
    requires key in s.rows ==> RowSettled(s.rows[key])
    ensures key in Run(s, actions).rows ==> RowSettled(Run(s, actions).rows[key])
    decreases |actions|
  {
    if actions != [] {
      StepKeepsSettled(s, actions[0], key);
      RunKeepsSettled(Next(s, actions[0]), actions[1..], key);
    }
  }

  lemma {:induction false} EveryRecordIsSettled(actions: seq<Action>, key: Key)
    requires key in Run(INITIAL, actions).rows
    ensures RowSettled(Run(INITIAL, actions).rows[key])
  {
    RunKeepsSettled(INITIAL, actions, key);
  }

  // ---------------------------------------------------------------------------
  // Every call gets an answer
  // ---------------------------------------------------------------------------

  /** How far a call has come: its record read, its update made. */
  function Progress(phase: Phase): nat {
    match phase
    case Reading(_, _) => 0
    case TakingOver(_, _) => 1
    case Reclaiming(_, _) => 1
    case Owner(_) => 2
    case Answered(_) => 2
  }

  lemma {:induction false} StepProgress(s: State, a: Action, call: CallId)
    requires call in s.calls
    ensures call in Next(s, a).calls
    ensures Progress(s.calls[call]) <= Progress(Next(s, a).calls[call])
    ensures a == Read(call) ==> Progress(Next(s, a).calls[call]) >= 1
    ensures a == Update(call) && Progress(s.calls[call]) == 1 ==>
              Next(s, a).calls[call].Owner? || Next(s, a).calls[call] == Answered(InProgress)
  {
  }

  lemma {:induction false} RunProgress(s: State, actions: seq<Action>, call: CallId)
    requires call in s.calls
    ensures call in Run(s, actions).calls
    ensures Progress(s.calls[call]) <= Progress(Run(s, actions).calls[call])
    ensures Progress(s.calls[call]) >= 1 && Update(call) in actions ==> Progress(Run(s, actions).calls[call]) == 2
    decreases |actions|
  {
    if actions != [] {
      StepProgress(s, actions[0], call);
      RunProgress(Next(s, actions[0]), actions[1..], call);
    }
  }

  /** Whatever the others do in between, a call that makes its read and then its update ends as the owner of its key or
      with an answer. */
  lemma {:induction false} EveryCallEnds(s: State, call: CallId, between: seq<Action>, rest: seq<Action>)
    requires call in s.calls && Update(call) in rest
    ensures var s' := Run(Next(Run(s, between), Read(call)), rest);
            call in s'.calls && (s'.calls[call].Owner? || s'.calls[call].Answered?)
  {
    RunProgress(s, between, call);
    StepProgress(Run(s, between), Read(call), call);
    RunProgress(Next(Run(s, between), Read(call)), rest, call);
  }

  // ---------------------------------------------------------------------------
  // The answers of an undisturbed call
  // ---------------------------------------------------------------------------

  predicate LeaseRuns(row: Row, now: Time) {
    row.leaseUntil.Some? && row.leaseUntil.value > now
  }

  /** An undisturbed call owns its key exactly if there is no record, or one of the same payload whose lease, or whose
      time to live after it was finished, is over. Another payload is a conflict; a running lease is answered as in
      progress; a finished record within its time to live is replayed. */
  lemma {:induction false} UndisturbedAnswers(rows: Rows, req: Request, call: CallId, now: Time)
    ensures var (rows', claim) := CheckAlone(rows, req, call, now);
            var found := req.key in rows;
            && (claim == New <==>
                  !found || (rows[req.key].digest == req.digest
                             && if rows[req.key].status == Processing then !LeaseRuns(rows[req.key], now)
                                else rows[req.key].expiresAt <= now))
            && (claim == Refused(Conflict) <==> found && rows[req.key].digest != req.digest)
            && (claim == Refused(InProgress) <==>
                  found && rows[req.key].digest == req.digest && rows[req.key].status == Processing
                  && LeaseRuns(rows[req.key], now))
            && (claim.Refused? && claim.decision.Replay? <==>
                  found && rows[req.key].digest == req.digest && rows[req.key].status != Processing
                  && rows[req.key].expiresAt > now)
            && (claim.Refused? && claim.decision.Replay? ==> claim.decision.response == rows[req.key].response)
            && (claim.Refused? ==> rows' == rows)
            && (claim == New ==>
                  && rows' == rows[req.key := rows'[req.key]] && rows'[req.key].claim == call
                  && rows'[req.key].status == Processing && rows'[req.key].digest == req.digest
                  && rows'[req.key].leaseUntil == Some(now + 30)
                  && rows'[req.key].expiresAt
                     == if found && rows[req.key].status == Processing then rows[req.key].expiresAt
                        else Later(now, req.explicit))
  {
  }

  /** The transaction of an owner whose token is stored: the answer goes to the record, which lives on from then. */
  lemma {:induction false} CommitFinishes(s: State, call: CallId, now: Time)
    requires call in s.calls && s.calls[call].Owner?
    ensures var req, s' := s.calls[call].req, Next(s, Finalize(call, now));
            if req.key in s.rows && s.rows[req.key].status == Processing && s.rows[req.key].claim == call then
              && |s'.log| == |s.log| + 1 && s'.log[..|s.log|] == s.log
              && var e := s'.log[|s.log|];
              && e.Committed? && e.req == req && e.call == call && e.now == now && RightAnswer(req.body, e.response)
              && s'.rows == s.rows[req.key := s'.rows[req.key]]
              && s'.rows[req.key]
                 == Row(s.rows[req.key].digest, if e.response == InvalidEmail then Failed else Completed, call,
                        e.response, Later(now, req.explicit), None)
            else
              s'.rows == s.rows && s'.crm == s.crm
  {
    ProcessAnswers(s.crm, s.calls[call].req.key.tenant, s.calls[call].req.body);
  }
}
