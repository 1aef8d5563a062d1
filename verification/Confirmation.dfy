/**
 The life of a pending confirmation (agent/src/vehicle_agent/confirmation/manager.py): `confirm` marks the
 record under the lock, asks the guardrail outside it, then consumes or reverts; `cancel` and resets run
 in between, replies may be lost, and the driver may retry.
 */
module Confirmation {
  import opened Wrappers
  import opened Wire

  type Id = Json

  datatype Status = PENDING | CONFIRMED | CANCELLED | EXPIRED | CONSUMED

  /** `expiresAt` is None when the time stamp is missing or cannot be parsed. */
  datatype PendingConfirmation = PendingConfirmation(session: Json, expiresAt: Option<int>, proposal: Fields, status: Status)

  type Table = map<Id, PendingConfirmation>

  datatype Refusal =
    | CONFIRMATION_NOT_FOUND | SESSION_MISMATCH | CONFIRMATION_ALREADY_CONSUMED | CONFIRMATION_EXPIRED | EXECUTION_CANCELLED

  predicate Final(s: Status) {
    s.CANCELLED? || s.EXPIRED? || s.CONSUMED?
  }

  predicate WrongSession(p: PendingConfirmation, session: Json) {
    p.session != Str("") && p.session != Str("unknown") && session != p.session
  }

  predicate IsExpired(p: PendingConfirmation, now: int) {
    p.expiresAt.Some? && now > p.expiresAt.value
  }

  /** The checks `confirm` and `cancel` share, in order. */
  function Guard(table: Table, id: Id, session: Json, now: int): (r: Option<Refusal>)
    ensures r == None || r == Some(CONFIRMATION_EXPIRED) ==> id in table && table[id].status.PENDING?
  {
    if id !in table then Some(CONFIRMATION_NOT_FOUND)
    else if WrongSession(table[id], session) then Some(SESSION_MISMATCH)
    else if !table[id].status.PENDING? then Some(CONFIRMATION_ALREADY_CONSUMED)
    else if IsExpired(table[id], now) then Some(CONFIRMATION_EXPIRED)
    else None
  }

  function Mark(table: Table, id: Id, status: Status): Table
    requires id in table
  {
    table[id := table[id].(status := status)]
  }

  /** What the locked part of `confirm` decides, the record it leaves behind included. */
  function Begin(table: Table, id: Id, session: Json, now: int, cancelled: bool): (Table, Option<Refusal>) {
    match Guard(table, id, session, now)
    case Some(r) => (if r.CONFIRMATION_EXPIRED? then Mark(table, id, EXPIRED) else table, Some(r))
    case None => if cancelled then (table, Some(EXECUTION_CANCELLED)) else (Mark(table, id, CONFIRMED), None)
  }

  function Cancel(table: Table, id: Id, session: Json, now: int): (Table, Option<Refusal>) {
    match Guard(table, id, session, now)
    case Some(r) => (if r.CONFIRMATION_EXPIRED? then Mark(table, id, EXPIRED) else table, Some(r))
    case None => (Mark(table, id, CANCELLED), None)
  }

  predicate ResetHits(p: PendingConfirmation, target: Option<Json>) {
    p.status.PENDING? && (target == None || target == Some(p.session))
  }

  function ResetCancel(table: Table, target: Option<Json>): Table {
    map id | id in table :: if ResetHits(table[id], target) then table[id].(status := CANCELLED) else table[id]
  }

  function Hits(table: Table, target: Option<Json>): set<Id> {
    set id | id in table && ResetHits(table[id], target)
  }

  // ---- who may decide a record, and until when --------------------------------------------------------------------

  /** The caller is the record's own session; a record without a known session is open to every caller. */
  predicate MayDecide(p: PendingConfirmation, session: Json) {
    p.session in {Str(""), Str("unknown"), session}
  }

  predicate InTime(p: PendingConfirmation, now: int) {
    p.expiresAt.Some? ==> now <= p.expiresAt.value
  }

  /** The record is there, pending, in time, and the caller's to decide. */
  predicate Open(table: Table, id: Id, session: Json, now: int) {
    id in table && MayDecide(table[id], session) && table[id].status.PENDING? && InTime(table[id], now)
  }

  /** Every refusal but one code leaves the table as it is; an overdue record is marked, and nothing else is touched. */
  ghost predicate Decided(table: Table, id: Id, session: Json, now: int, table': Table, refusal: Option<Refusal>) {
    && (refusal == Some(CONFIRMATION_NOT_FOUND) <==> id !in table)
    && (refusal == Some(SESSION_MISMATCH) <==> id in table && !MayDecide(table[id], session))
    && (refusal == Some(CONFIRMATION_ALREADY_CONSUMED) <==>
          id in table && MayDecide(table[id], session) && !table[id].status.PENDING?)
    && (refusal == Some(CONFIRMATION_EXPIRED) <==>
          id in table && MayDecide(table[id], session) && table[id].status.PENDING? && !InTime(table[id], now))
    && (refusal == Some(CONFIRMATION_EXPIRED) ==> table' == table[id := table[id].(status := EXPIRED)])
    && (refusal.Some? && !refusal.value.CONFIRMATION_EXPIRED? ==> table' == table)
  }

  lemma ConfirmDecides(table: Table, id: Id, session: Json, now: int, cancelled: bool)
    ensures var (table', refusal) := Begin(table, id, session, now, cancelled);
            && Decided(table, id, session, now, table', refusal)
            && (refusal == Some(EXECUTION_CANCELLED) <==> Open(table, id, session, now) && cancelled)
            && (refusal == None <==> Open(table, id, session, now) && !cancelled)
            && (refusal == None ==> table' == table[id := table[id].(status := CONFIRMED)])
  {}

  lemma CancelDecides(table: Table, id: Id, session: Json, now: int)
    ensures var (table', refusal) := Cancel(table, id, session, now);
            && Decided(table, id, session, now, table', refusal)
            && (refusal == None <==> Open(table, id, session, now))
            && (refusal == None ==> table' == table[id := table[id].(status := CANCELLED)])
  {}

  // ---- registering --------------------------------------------------------------------------------------------

  predicate Asks(decision: Fields) {
    Get(decision, Confirmation).Obj? && {ConfirmationId, ProposalId} <= decision[Confirmation].fields.Keys
  }

  function AskedId(decision: Fields): Id
    requires Asks(decision)
  {
    decision[Confirmation].fields[ConfirmationId]
  }

  /** The decision's session, else the proposal's, else "unknown". */
  function SessionOf(decision: Fields, proposal: Fields): Json {
    if Get(decision, SessionId) != Null && Get(decision, SessionId) != Str("") then decision[SessionId]
    else if SessionId in proposal then proposal[SessionId] else Str("unknown")
  }

  function Expiry(block: Fields): Option<int> {
    if Get(block, ExpiresAt).Time? then Some(Get(block, ExpiresAt).at) else None
  }

  function PendingOf(decision: Fields, proposal: Fields): PendingConfirmation
    requires Asks(decision)
  {
    PendingConfirmation(SessionOf(decision, proposal), Expiry(decision[Confirmation].fields), proposal, PENDING)
  }

  /** A decision the agent accepts names no session, so the record is bound to the proposal's own session. */
  lemma BoundToOwnSession(decision: Fields, proposal: Fields)
    requires ValidResult(decision) && Get(decision, Kind) == Word(DecisionKind) && ValidProposal(proposal) && Asks(decision)
    ensures PendingOf(decision, proposal).session == proposal[SessionId]
    ensures Permit !in decision || Allows(decision)
  {
    PermitExactlyOnAllow(decision);
    assert SessionId !in decision;
  }

  /** What is registered: the block's id, the first session that is named, the block's expiry if it is a time, pending. */
  lemma PendingMeaning(decision: Fields, proposal: Fields)
    ensures var block := Get(decision, Confirmation);
            Asks(decision) <==> block.Obj? && ConfirmationId in block.fields && ProposalId in block.fields
    ensures Asks(decision) ==>
              var p, block, named := PendingOf(decision, proposal), decision[Confirmation].fields, Get(decision, SessionId);
              && AskedId(decision) == block[ConfirmationId] && p.proposal == proposal && p.status == PENDING
              && (named !in {Null, Str("")} ==> p.session == named)
              && (named in {Null, Str("")} && SessionId in proposal ==> p.session == proposal[SessionId])
              && (named in {Null, Str("")} && SessionId !in proposal ==> p.session == Str("unknown"))
              && (forall at :: p.expiresAt == Some(at) <==> Get(block, ExpiresAt) == Time(at))
  {}

  // ---- the manager's own methods ---------------------------------------------------------------------------

  class ConfirmationManager {
    var pending: Table

    constructor ()
      ensures pending == map[]
    {
      pending := map[];
    }

    /** Raises, and registers nothing, when the decision lacks a confirmation with its two ids. */
    method RegisterPending(decision: Fields, proposal: Fields) returns (registered: bool)
      modifies this
      ensures registered <==> Asks(decision)
      ensures pending == if Asks(decision) then old(pending)[AskedId(decision) := PendingOf(decision, proposal)] else old(pending)
    {
      var info := Get(decision, Confirmation);
      if !info.Obj? || ConfirmationId !in info.fields || ProposalId !in info.fields { return false; }
      var session := Get(decision, SessionId);
      if session == Null || session == Str("") {
        session := if SessionId in proposal then proposal[SessionId] else Str("unknown");
      }
      var expiresAt := Get(info.fields, ExpiresAt);
      pending := pending[info.fields[ConfirmationId] :=
        PendingConfirmation(session, if expiresAt.Time? then Some(expiresAt.at) else None, proposal, PENDING)];
      return true;
    }

    method BeginConfirm(id: Id, session: Json, now: int, cancelled: bool) returns (refusal: Option<Refusal>)
      modifies this
      ensures (pending, refusal) == Begin(old(pending), id, session, now, cancelled)
      ensures Decided(old(pending), id, session, now, pending, refusal)
      ensures refusal == None <==> Open(old(pending), id, session, now) && !cancelled
    {
      if id !in pending { return Some(CONFIRMATION_NOT_FOUND); }
      var p := pending[id];
      if p.session != Str("") && p.session != Str("unknown") && session != p.session { return Some(SESSION_MISMATCH); }
      if !p.status.PENDING? { return Some(CONFIRMATION_ALREADY_CONSUMED); }
      if IsExpired(p, now) {
        pending := pending[id := p.(status := EXPIRED)];
        return Some(CONFIRMATION_EXPIRED);
      }
      if cancelled { return Some(EXECUTION_CANCELLED); }
      pending := pending[id := p.(status := CONFIRMED)];
      return None;
    }

    method CancelOne(id: Id, session: Json, now: int) returns (refusal: Option<Refusal>)
      modifies this
      ensures (pending, refusal) == Cancel(old(pending), id, session, now)
      ensures Decided(old(pending), id, session, now, pending, refusal)
      ensures refusal == None <==> Open(old(pending), id, session, now)
    {
      if id !in pending { return Some(CONFIRMATION_NOT_FOUND); }
      var p := pending[id];
      if WrongSession(p, session) { return Some(SESSION_MISMATCH); }
      if !p.status.PENDING? { return Some(CONFIRMATION_ALREADY_CONSUMED); }
      if IsExpired(p, now) {
        pending := pending[id := p.(status := EXPIRED)];
        return Some(CONFIRMATION_EXPIRED);
      }
      pending := pending[id := p.(status := CANCELLED)];
      return None;
    }

    /** One pass over the records; only pending ones in scope change, and they are counted. */
    method CancelPendingForReset(target: Option<Json>) returns (cancelled: nat)
      modifies this
      ensures pending == ResetCancel(old(pending), target)
      ensures cancelled == |Hits(old(pending), target)|
    {
      ghost var before := pending;
      var table := pending;
      var left := table.Keys;
      cancelled := 0;
      ghost var hit: set<Id> := {};
      while left != {}
        invariant Swept(before, table, left, hit, target)
        invariant cancelled == |hit|
        decreases left
      {
        var id :| id in left;
        SweepOne(before, table, left, hit, target, id);
        left := left - {id};
        if ResetHits(table[id], target) {
          table := table[id := table[id].(status := CANCELLED)];
          cancelled := cancelled + 1;
          hit := hit + {id};
        }
      }
      pending := table;
      assert hit == Hits(before, target) && table == ResetCancel(before, target);
    }
  }

  /** The records outside `left` are done, those inside untouched; `hit` holds the ones changed. */
  ghost predicate Swept(before: Table, table: Table, left: set<Id>, hit: set<Id>, target: Option<Json>) {
    && left <= before.Keys == table.Keys && hit <= before.Keys && hit !! left
    && (forall id | id in left :: table[id] == before[id])
    && (forall id | id in before && id !in left :: id in hit <==> ResetHits(before[id], target))
    && forall id | id in before && id !in left ::
         table[id] == if id in hit then before[id].(status := CANCELLED) else before[id]
  }

  lemma SweepOne(before: Table, table: Table, left: set<Id>, hit: set<Id>, target: Option<Json>, id: Id)
    requires Swept(before, table, left, hit, target) && id in left
    ensures id !in hit && id in table
    ensures ResetHits(table[id], target) ==>
              Swept(before, table[id := table[id].(status := CANCELLED)], left - {id}, hit + {id}, target)
    ensures !ResetHits(table[id], target) ==> Swept(before, table, left - {id}, hit, target)
  {
    hide ResetHits;
  }

  // ---- all interleavings --------------------------------------------------------------------------------------

  datatype Phase = Asking | Answered(reply: Fields)

  /** One invocation of `confirm` past its locked part. */
  datatype Call = Call(id: Id, phase: Phase)

  datatype Execution = Execution(id: Id, call: nat, reply: Fields)

  /** `replies`, `executed` and `withdrawn` are history; `next` numbers the invocations. */
  datatype State = State(table: Table, calls: map<nat, Call>, next: nat, replies: map<nat, Fields>,
                         executed: seq<Execution>, withdrawn: set<Id>)

  datatype Step =
    | Register(id: Id, session: Json, expiresAt: Option<int>, proposal: Fields)
    | Confirm(id: Id, session: Json, now: int, cancelled: bool)
    | ReplyLost(call: nat)
    | Reply(call: nat, reply: Fields)
    | Execute(call: nat)
    | Return(call: nat)
    | CancelByDriver(id: Id, session: Json, now: int)
    | Reset(target: Option<Json>)

  predicate Enabled(s: State, step: Step) {
    match step
    case Register(id, _, _, _) => id !in s.table
    case Confirm(_, _, _, _) => true
    case ReplyLost(n) => n in s.calls && s.calls[n].phase.Asking? && s.calls[n].id in s.table
    case Reply(n, _) => n in s.calls && s.calls[n].phase.Asking? && s.calls[n].id in s.table
    case Execute(n) => n in s.calls && s.calls[n].phase.Answered? && Allows(s.calls[n].phase.reply)
    case Return(n) => n in s.calls && s.calls[n].phase.Answered?
    case CancelByDriver(_, _, _) => true
    case Reset(_) => true
  }

  /** `register_pending` overwrites; `Enabled` says that ids from uuid leave nothing to overwrite. */
  function Registered(s: State, step: Step): State
    requires step.Register?
  {
    s.(table := s.table[step.id := PendingConfirmation(step.session, step.expiresAt, step.proposal, PENDING)])
  }

  function Next(s: State, step: Step): State
    requires Enabled(s, step)
  {
    match step
    case Register(_, _, _, _) => Registered(s, step)
    case Confirm(id, session, now, cancelled) =>
      var (table, refusal) := Begin(s.table, id, session, now, cancelled);
      if refusal.Some? then s.(table := table)
      else s.(table := table, calls := s.calls[s.next := Call(id, Asking)], next := s.next + 1)
    case ReplyLost(n) => s.(table := Mark(s.table, s.calls[n].id, PENDING), calls := s.calls - {n})
    case Reply(n, reply) =>
      s.(table := Mark(s.table, s.calls[n].id, CONSUMED), calls := s.calls[n := Call(s.calls[n].id, Answered(reply))],
         replies := s.replies[n := reply])
    case Execute(n) =>
      s.(calls := s.calls - {n}, executed := s.executed + [Execution(s.calls[n].id, n, s.calls[n].phase.reply)])
    case Return(n) => s.(calls := s.calls - {n})
    case CancelByDriver(id, session, now) =>
      var (table, refusal) := Cancel(s.table, id, session, now);
      s.(table := table, withdrawn := s.withdrawn + if refusal.None? then {id} else {})
    case Reset(target) =>
      s.(table := ResetCancel(s.table, target),
         withdrawn := s.withdrawn + Hits(s.table, target))
  }

  ghost predicate InFlight(s: State, id: Id, n: nat) {
    n in s.calls && s.calls[n].id == id
  }

  /** The status of a record says what its only call in flight is doing. */
  ghost predicate CallOk(s: State, n: nat) {
    n in s.calls ==>
      && n < s.next && s.calls[n].id in s.table
      && match s.calls[n].phase
         case Asking => s.table[s.calls[n].id].status.CONFIRMED?
         case Answered(reply) =>
           s.table[s.calls[n].id].status.CONSUMED? && n in s.replies && s.replies[n] == reply
  }

  ghost predicate OneCall(s: State, id: Id) {
    forall m, n :: InFlight(s, id, m) && InFlight(s, id, n) ==> m == n
  }

  ghost predicate AskedOk(s: State, id: Id) {
    id in s.table && s.table[id].status.CONFIRMED? ==> exists n :: InFlight(s, id, n)
  }

  ghost predicate ExecutedOk(s: State, i: nat)
    requires i < |s.executed|
  {
    var e := s.executed[i];
    && e.id in s.table && s.table[e.id].status.CONSUMED? && (forall n :: !InFlight(s, e.id, n))
    && e.call < s.next && e.call !in s.calls && e.call in s.replies && s.replies[e.call] == e.reply && Allows(e.reply)
  }

  ghost predicate OncePerId(s: State) {
    forall i, j | 0 <= i < j < |s.executed| :: s.executed[i].id != s.executed[j].id
  }

  ghost predicate WithdrawnOk(s: State) {
    forall id | id in s.withdrawn :: id in s.table && s.table[id].status.CANCELLED?
  }

  ghost predicate Inv(s: State) {
    && (forall n :: CallOk(s, n)) && (forall id :: OneCall(s, id)) && (forall id :: AskedOk(s, id))
    && (forall i | 0 <= i < |s.executed| :: ExecutedOk(s, i)) && OncePerId(s) && WithdrawnOk(s)
  }

  ghost predicate Init(s: State) {
    s == State.State(map[], map[], 0, map[], [], {})
  }

  lemma InitInv(s: State)
    requires Init(s)
    ensures Inv(s)
  {}

  // ---- what a step may do to one record ---------------------------------------------------------------------------

  /** The table effect of a step without calls: a pending record may be marked, nothing else. */
  ghost predicate OnlyPendingMoves(table: Table, table': Table) {
    && table'.Keys == table.Keys
    && forall id | id in table && !table[id].status.PENDING? :: table'[id] == table[id]
  }

  lemma BeginMoves(table: Table, id: Id, session: Json, now: int, cancelled: bool)
    ensures var (table', refusal) := Begin(table, id, session, now, cancelled);
            && OnlyPendingMoves(table, table')
            && (forall k | k in table' && table'[k].status.CONFIRMED? ::
                  table[k].status.CONFIRMED? || (k == id && refusal == None))
            && (refusal == None ==> id in table && table[id].status.PENDING? && table'[id].status.CONFIRMED?)
  {}

  lemma CancelMoves(table: Table, id: Id, session: Json, now: int)
    ensures var (table', refusal) := Cancel(table, id, session, now);
            && OnlyPendingMoves(table, table')
            && (forall k | k in table' && table'[k].status.CONFIRMED? :: table[k].status.CONFIRMED?)
            && (refusal == None ==> id in table' && table'[id].status.CANCELLED?)
  {}

  lemma ResetMoves(table: Table, target: Option<Json>)
    ensures OnlyPendingMoves(table, ResetCancel(table, target))
    ensures forall k | k in table && ResetCancel(table, target)[k].status.CONFIRMED? :: table[k].status.CONFIRMED?
    ensures forall k | k in table && ResetHits(table[k], target) :: ResetCancel(table, target)[k].status.CANCELLED?
  {}

  // ---- preservation -------------------------------------------------------------------------------------------------

  /** Steps that only move pending records and start or stop no call. */
  lemma QuietStep(s: State, s': State)
    requires Inv(s) && OnlyPendingMoves(s.table, s'.table)
    requires forall k | k in s.table && s'.table[k].status.CONFIRMED? :: s.table[k].status.CONFIRMED?
    requires s'.calls == s.calls && s'.next == s.next && s'.replies == s.replies && s'.executed == s.executed
    requires forall id | id in s'.withdrawn :: id in s.withdrawn || (id in s'.table && s'.table[id].status.CANCELLED?)
    ensures Inv(s')
  {
    forall n ensures CallOk(s', n) { assert CallOk(s, n); }
    forall id ensures OneCall(s', id) && AskedOk(s', id) {
      assert OneCall(s, id) && AskedOk(s, id);
      assert forall n :: InFlight(s', id, n) <==> InFlight(s, id, n);
    }
    forall i | 0 <= i < |s'.executed| ensures ExecutedOk(s', i) {
      assert ExecutedOk(s, i);
      assert forall n :: InFlight(s', s.executed[i].id, n) <==> InFlight(s, s.executed[i].id, n);
    }
  }

  lemma RegisterStep(s: State, step: Step)
    requires Inv(s) && step.Register? && Enabled(s, step)
    ensures Inv(Next(s, step))
  {
    var s' := Next(s, step);
    forall n ensures CallOk(s', n) { assert CallOk(s, n); }
    forall id ensures OneCall(s', id) && AskedOk(s', id) {
      assert OneCall(s, id) && AskedOk(s, id);
      assert forall n :: InFlight(s', id, n) <==> InFlight(s, id, n);
    }
    forall i | 0 <= i < |s'.executed| ensures ExecutedOk(s', i) {
      assert ExecutedOk(s, i);
      assert forall n :: InFlight(s', s.executed[i].id, n) <==> InFlight(s, s.executed[i].id, n);
    }
  }

  /** A confirm that gets through finds the record pending, hence with no call in flight. */
  lemma ConfirmStep(s: State, step: Step)
    requires Inv(s) && step.Confirm?
    ensures Inv(Next(s, step))
  {
    var Confirm(id, session, now, cancelled) := step;
    var s' := Next(s, step);
    BeginMoves(s.table, id, session, now, cancelled);
    var (table, refusal) := Begin(s.table, id, session, now, cancelled);
    hide Begin;
    if refusal.Some? {
      QuietStep(s, s');
    } else {
      forall n ensures !InFlight(s, id, n) { assert CallOk(s, n); }
      forall n ensures CallOk(s', n) { assert CallOk(s, n); }
      assert CallOk(s, s.next);
      forall k, n ensures InFlight(s', k, n) <==> InFlight(s, k, n) || (k == id && n == s.next) {}
      assert InFlight(s', id, s.next);
      forall k ensures OneCall(s', k) && AskedOk(s', k) {
        assert OneCall(s, k) && AskedOk(s, k);
        if m :| InFlight(s, k, m) { assert InFlight(s', k, m); }
      }
      forall i | 0 <= i < |s'.executed| ensures ExecutedOk(s', i) { assert ExecutedOk(s, i); }
    }
  }

  /** Steps by the call `n` on its own record: nobody else is on it. */
  lemma CallStep(s: State, step: Step)
    requires Inv(s) && (step.ReplyLost? || step.Reply? || step.Execute? || step.Return?) && Enabled(s, step)
    ensures Inv(Next(s, step))
  {
    var s', n := Next(s, step), step.call;
    var id := s.calls[n].id;
    assert CallOk(s, n) && OneCall(s, id) && InFlight(s, id, n);
    forall m ensures CallOk(s', m) {
      assert CallOk(s, m);
      if m in s.calls && m != n { assert InFlight(s, s.calls[m].id, m); }
    }
    forall k ensures OneCall(s', k) && AskedOk(s', k) {
      assert OneCall(s, k) && AskedOk(s, k);
      assert forall m :: InFlight(s', k, m) ==> InFlight(s, k, m);
      assert forall m :: m != n && InFlight(s, k, m) ==> InFlight(s', k, m);
      assert step.Reply? ==> (InFlight(s', k, n) <==> InFlight(s, k, n));
    }
    forall i | 0 <= i < |s.executed| ensures ExecutedOk(s', i) && s.executed[i].id != id {
      assert ExecutedOk(s, i);
      assert forall m :: InFlight(s', s.executed[i].id, m) ==> InFlight(s, s.executed[i].id, m);
    }
    if step.Execute? {
      assert forall m :: InFlight(s', id, m) ==> InFlight(s, id, m) && m != n;
      assert ExecutedOk(s', |s.executed|);
    }
  }

  lemma StepInv(s: State, step: Step)
    requires Inv(s) && Enabled(s, step)
    ensures Inv(Next(s, step))
  {
    match step
    case Register(_, _, _, _) => RegisterStep(s, step);
    case Confirm(_, _, _, _) => ConfirmStep(s, step);
    case CancelByDriver(id, session, now) =>
      CancelMoves(s.table, id, session, now);
      QuietStep(s, Next(s, step));
    case Reset(target) =>
      ResetMoves(s.table, target);
      QuietStep(s, Next(s, step));
    case _ => CallStep(s, step);
  }

  // ---- what holds in every reachable state -------------------------------------------------------------------------

  ghost predicate IsRun(run: seq<State>, steps: seq<Step>) {
    && |run| == |steps| + 1 && Init(run[0])
    && forall i | 0 <= i < |steps| :: Enabled(run[i], steps[i]) && run[i + 1] == Next(run[i], steps[i])
  }

  lemma {:induction false} RunInv(run: seq<State>, steps: seq<Step>, i: nat)
    requires IsRun(run, steps) && i < |run|
    ensures Inv(run[i])
    decreases i
  {
    if i == 0 {
      InitInv(run[0]);
    } else {
      RunInv(run, steps, i - 1);
      hide Inv, Next, Enabled;
      StepInv(run[i - 1], steps[i - 1]);
    }
  }

  /** CONFIRMED means that exactly one call is waiting for the guardrail's answer on this record. */
  lemma ConfirmedMeansInFlight(run: seq<State>, steps: seq<Step>, i: nat, id: Id)
    requires IsRun(run, steps) && i < |run|
    ensures id in run[i].table && run[i].table[id].status.CONFIRMED? <==>
            exists n :: InFlight(run[i], id, n) && run[i].calls[n].phase.Asking?
    ensures forall m, n :: InFlight(run[i], id, m) && InFlight(run[i], id, n) ==> m == n
  {
    RunInv(run, steps, i);
    var s := run[i];
    assert OneCall(s, id) && AskedOk(s, id);
    if n :| InFlight(s, id, n) { assert CallOk(s, n); }
  }

  /** CANCELLED, EXPIRED and CONSUMED are never left. */
  lemma FinalStays(s: State, step: Step, id: Id)
    requires Inv(s) && Enabled(s, step) && id in s.table && Final(s.table[id].status)
    ensures id in Next(s, step).table && Next(s, step).table[id].status == s.table[id].status
  {
    match step
    case Confirm(k, session, now, cancelled) => BeginMoves(s.table, k, session, now, cancelled);
    case CancelByDriver(k, session, now) => CancelMoves(s.table, k, session, now);
    case Reset(target) => ResetMoves(s.table, target);
    case ReplyLost(n) => assert CallOk(s, n);
    case Reply(n, _) => assert CallOk(s, n);
    case _ =>
  }

  lemma {:induction false} FinalForever(run: seq<State>, steps: seq<Step>, i: nat, j: nat, id: Id)
    requires IsRun(run, steps) && i <= j < |run| && id in run[i].table && Final(run[i].table[id].status)
    ensures id in run[j].table && run[j].table[id].status == run[i].table[id].status
    decreases j
  {
    if i < j {
      FinalForever(run, steps, i, j - 1, id);
      RunInv(run, steps, j - 1);
      hide Inv, Next, Enabled;
      FinalStays(run[j - 1], steps[j - 1], id);
    }
  }

  /** At most one execution per confirmation, on the ALLOW that this very call received, and never after a cancel. */
  lemma ExecutedOnceAfterOwnAllow(run: seq<State>, steps: seq<Step>, i: nat, a: nat)
    requires IsRun(run, steps) && i < |run| && a < |run[i].executed|
    ensures var e := run[i].executed[a];
            && e.call in run[i].replies && run[i].replies[e.call] == e.reply && Allows(e.reply)
            && e.id !in run[i].withdrawn
            && forall b | 0 <= b < |run[i].executed| && b != a :: run[i].executed[b].id != e.id
  {
    RunInv(run, steps, i);
    assert ExecutedOk(run[i], a);
  }

  // ---- whose decision an execution rests on ---------------------------------------------------------------------------

  /** Every way the status of a record moves, and that nothing else of it ever does. */
  lemma StatusMoves(s: State, step: Step, id: Id)
    requires Inv(s) && Enabled(s, step) && id in s.table
    ensures id in Next(s, step).table
    ensures var p, p' := s.table[id], Next(s, step).table[id];
            && p' == p.(status := p'.status)
            && (p.status.PENDING? && p'.status.CONFIRMED? <==>
                  step.Confirm? && step.id == id && Open(s.table, id, step.session, step.now) && !step.cancelled)
            && (p.status.PENDING? && p'.status.EXPIRED? <==>
                  (step.Confirm? || step.CancelByDriver?) && step.id == id
                  && MayDecide(p, step.session) && p.status.PENDING? && !InTime(p, step.now))
            && (p.status.PENDING? && p'.status.CANCELLED? <==>
                  || (step.CancelByDriver? && step.id == id && Open(s.table, id, step.session, step.now))
                  || (step.Reset? && p.status.PENDING? && (step.target == None || step.target == Some(p.session))))
            && (p.status.CONFIRMED? && p'.status.PENDING? <==> step.ReplyLost? && s.calls[step.call].id == id)
            && (p.status.CONFIRMED? && p'.status.CONSUMED? <==> step.Reply? && s.calls[step.call].id == id)
            && (p'.status != p.status ==> (p.status.PENDING? && !p'.status.CONSUMED?) || p.status.CONFIRMED?)
  {
    match step
    case Confirm(k, session, now, cancelled) => ConfirmDecides(s.table, k, session, now, cancelled);
    case CancelByDriver(k, session, now) => CancelDecides(s.table, k, session, now);
    case ReplyLost(n) => assert CallOk(s, n);
    case Reply(n, _) => assert CallOk(s, n);
    case _ =>
  }

  /** Step `k` is the confirm that began this call: by the record's own session, in time, on a pending record. */
  ghost predicate Began(run: seq<State>, steps: seq<Step>, k: nat, id: Id, call: nat)
    requires |run| == |steps| + 1
  {
    && k < |steps| && steps[k].Confirm? && steps[k].id == id && run[k].next == call
    && Open(run[k].table, id, steps[k].session, steps[k].now) && !steps[k].cancelled
  }

  /** Session, expiry and proposal of a record are fixed when it is registered. */
  lemma {:induction false} RecordFixed(run: seq<State>, steps: seq<Step>, i: nat, j: nat, id: Id)
    requires IsRun(run, steps) && i <= j < |run| && id in run[i].table
    ensures id in run[j].table && run[j].table[id] == run[i].table[id].(status := run[j].table[id].status)
    decreases j
  {
    if i < j {
      RecordFixed(run, steps, i, j - 1, id);
      RunInv(run, steps, j - 1);
      hide Inv, Next, Enabled, MayDecide, InTime, Open;
      StatusMoves(run[j - 1], steps[j - 1], id);
    }
  }

  lemma BeginsOneCall(s: State, step: Step, n: nat)
    requires Inv(s) && Enabled(s, step) && n in Next(s, step).calls
    ensures if n in s.calls then Next(s, step).calls[n].id == s.calls[n].id
            else step.Confirm? && n == s.next && Next(s, step).calls[n].id == step.id
                 && Open(s.table, step.id, step.session, step.now) && !step.cancelled
  {
    if step.Confirm? { ConfirmDecides(s.table, step.id, step.session, step.now, step.cancelled); }
    assert CallOk(s, n);
    hide Begin, Open, Inv;
  }

  lemma {:induction false} CallBegan(run: seq<State>, steps: seq<Step>, i: nat, n: nat)
    requires IsRun(run, steps) && i < |run| && n in run[i].calls
    ensures exists k: nat | k < i :: Began(run, steps, k, run[i].calls[n].id, n)
    decreases i
  {
    hide Inv, Next, Enabled, Open;
    assert Init(run[0]);
    if i > 0 {
      RunInv(run, steps, i - 1);
      BeginsOneCall(run[i - 1], steps[i - 1], n);
      if n in run[i - 1].calls {
        CallBegan(run, steps, i - 1, n);
      } else {
        assert Began(run, steps, i - 1, steps[i - 1].id, n);
      }
    }
  }

  lemma ExecutesOneCall(s: State, step: Step)
    requires Enabled(s, step)
    ensures s.executed <= Next(s, step).executed
    ensures |Next(s, step).executed| > |s.executed| ==>
              && |Next(s, step).executed| == |s.executed| + 1 && step.Execute? && step.call in s.calls
              && Next(s, step).executed[|s.executed|].id == s.calls[step.call].id
              && Next(s, step).executed[|s.executed|].call == step.call
  {
    hide Begin, Cancel;
  }

  /**
   Every execution goes back to one confirm: made by the record's own session unless the record has none, no later
   than the record's expiry, and on a record that was pending then.
   */
  lemma {:induction false} ExecutedOnOwnConfirm(run: seq<State>, steps: seq<Step>, i: nat, a: nat)
    requires IsRun(run, steps) && i < |run| && a < |run[i].executed|
    ensures var e := run[i].executed[a];
            exists k: nat | k < i :: Began(run, steps, k, e.id, e.call)
              && e.id in run[i].table && MayDecide(run[i].table[e.id], steps[k].session) && InTime(run[i].table[e.id], steps[k].now)
    decreases i
  {
    hide Inv, Next, Enabled;
    assert Init(run[0]);
    if i > 0 {
      ExecutesOneCall(run[i - 1], steps[i - 1]);
      var e := run[i].executed[a];
      if a < |run[i - 1].executed| {
        ExecutedOnOwnConfirm(run, steps, i - 1, a);
      } else {
        CallBegan(run, steps, i - 1, e.call);
      }
      var k: nat :| k < i && Began(run, steps, k, e.id, e.call);
      assert Began(run, steps, k, e.id, e.call);
      RecordFixed(run, steps, k, i, e.id);
    }
  }

  /** A call waits for one answer or loses it, and answered it executes or returns; nobody else's step touches it. */
  lemma CallMoves(s: State, step: Step, n: nat)
    requires Inv(s) && Enabled(s, step) && n in s.calls
    ensures var s' := Next(s, step);
            match step
            case ReplyLost(m) => m == n ==> n !in s'.calls && s.calls[n].phase.Asking?
            case Reply(m, reply) =>
              m == n ==> && n in s'.calls && s'.calls[n] == s.calls[n].(phase := Answered(reply))
                         && s.calls[n].phase.Asking?
            case Execute(m) => m == n ==> n !in s'.calls && s.calls[n].phase.Answered? && Allows(s.calls[n].phase.reply)
            case Return(m) => m == n ==> n !in s'.calls && s.calls[n].phase.Answered?
            case _ => true
    ensures !(step.ReplyLost? && step.call == n) && !(step.Reply? && step.call == n) && !(step.Execute? && step.call == n)
            && !(step.Return? && step.call == n) ==>
              n in Next(s, step).calls && Next(s, step).calls[n] == s.calls[n]
  {
    assert CallOk(s, n);
    hide Begin, Cancel, ResetCancel, Allows;
  }

  /** What withdraws a pending confirmation: an accepted cancel of its own session, or a reset in scope. */
  ghost predicate Withdraws(s: State, step: Step, id: Id)
    requires id in s.table
  {
    || (step.CancelByDriver? && step.id == id && Open(s.table, id, step.session, step.now))
    || (step.Reset? && s.table[id].status.PENDING? && (step.target == None || step.target == Some(s.table[id].session)))
  }

  /** A withdrawn confirmation executes in no state of the run, before or after. */
  lemma WithdrawnNeverExecutes(run: seq<State>, steps: seq<Step>, k: nat, i: nat, id: Id)
    requires IsRun(run, steps) && k < |steps| && i < |run| && id in run[k].table && Withdraws(run[k], steps[k], id)
    ensures !Executed(run[i], id)
  {
    hide Next, Enabled, MayDecide, InTime;
    RunInv(run, steps, k);
    StatusMoves(run[k], steps[k], id);
    RunInv(run, steps, i);
    if Executed(run[i], id) {
      var a :| 0 <= a < |run[i].executed| && run[i].executed[a].id == id;
      assert ExecutedOk(run[i], a);
      if i <= k { FinalForever(run, steps, i, k, id); } else { FinalForever(run, steps, k + 1, i, id); }
    }
  }

  // ---- what a reset does and does not stop ---------------------------------------------------------------------------

  ghost predicate Executed(s: State, id: Id) {
    exists a | 0 <= a < |s.executed| :: s.executed[a].id == id
  }

  ghost predicate Settled(s: State, id: Id) {
    id in s.table && Final(s.table[id].status) && forall n :: !InFlight(s, id, n)
  }

  lemma SettledStep(s: State, step: Step, id: Id)
    requires Inv(s) && Enabled(s, step) && Settled(s, id)
    ensures Settled(Next(s, step), id) && (Executed(Next(s, step), id) <==> Executed(s, id))
  {
    var s' := Next(s, step);
    FinalStays(s, step, id);
    if step.Confirm? { BeginMoves(s.table, step.id, step.session, step.now, step.cancelled); }
    if step.Execute? { assert InFlight(s, s.calls[step.call].id, step.call); }
    if step.Reply? { assert InFlight(s, s.calls[step.call].id, step.call); }
    assert forall n :: InFlight(s', id, n) ==> InFlight(s, id, n);
    assert forall a | 0 <= a < |s.executed| :: s'.executed[a] == s.executed[a];
  }

  /** A settled confirmation never executes any more: a reset that finds no call in flight is final. */
  lemma {:induction false} SettledForever(run: seq<State>, steps: seq<Step>, i: nat, j: nat, id: Id)
    requires IsRun(run, steps) && i <= j < |run| && Settled(run[i], id)
    ensures Settled(run[j], id) && (Executed(run[j], id) <==> Executed(run[i], id))
    decreases j
  {
    if i < j {
      SettledForever(run, steps, i, j - 1, id);
      RunInv(run, steps, j - 1);
      hide Inv, Next, Enabled, Settled, Executed;
      SettledStep(run[j - 1], steps[j - 1], id);
    }
  }

  /** In scope of a reset, exactly the confirmations without a call in flight are settled by it. */
  lemma ResetSettlesUnlessInFlight(run: seq<State>, steps: seq<Step>, k: nat, id: Id)
    requires IsRun(run, steps) && k < |steps| && steps[k].Reset? && id in run[k].table
    requires steps[k].target == None || steps[k].target == Some(run[k].table[id].session)
    ensures Settled(run[k + 1], id) <==> forall n :: !InFlight(run[k], id, n)
  {
    RunInv(run, steps, k);
    var s, s' := run[k], run[k + 1];
    assert AskedOk(s, id);
    ResetMoves(s.table, steps[k].target);
    assert forall n :: InFlight(s', id, n) <==> InFlight(s, id, n);
  }

  /** The other half: whenever a call is waiting for its answer, a reset in between does not stop the execution. */
  lemma ResetMissesInFlight(s: State, n: nat, target: Option<Json>, reply: Fields)
    requires Inv(s) && n in s.calls && s.calls[n].phase.Asking? && Allows(reply)
    ensures Enabled(s, Reset(target))
    ensures var s1 := Next(s, Reset(target));
            Enabled(s1, Reply(n, reply)) &&
            var s2 := Next(s1, Reply(n, reply));
            Enabled(s2, Execute(n)) && Executed(Next(s2, Execute(n)), s.calls[n].id)
  {
    assert CallOk(s, n);
    var s2 := Next(Next(s, Reset(target)), Reply(n, reply));
    var s3 := Next(s2, Execute(n));
    assert s3.executed[|s.executed|].id == s.calls[n].id;
  }

  /** One record "c" of the proposal in the given status; the rest as given. */
  function Sample(p: Fields, status: Status, calls: map<nat, Call>, replies: map<nat, Fields>, executed: seq<Execution>): State {
    State.State(map[Str("c") := PendingConfirmation(Str("s1"), Some(10), p, status)], calls, 1, replies, executed, {})
  }

  ghost predicate Goes(s: State, step: Step, s': State) {
    Enabled(s, step) && s' == Next(s, step)
  }

  lemma SampleConfirm(p: Fields)
    ensures var empty, step := State.State(map[], map[], 0, map[], [], {}), Register(Str("c"), Str("s1"), Some(10), p);
            var registered := Sample(p, PENDING, map[], map[], []).(next := 0);
            && Goes(empty, step, registered)
            && Goes(registered, Confirm(Str("c"), Str("s1"), 5, false),
                    Sample(p, CONFIRMED, map[0 := Call(Str("c"), Asking)], map[], []))
  {}

  /** The reset leaves the confirmed record alone. */
  lemma SampleReset(p: Fields, calls: map<nat, Call>)
    ensures Goes(Sample(p, CONFIRMED, calls, map[], []), Reset(None), Sample(p, CONFIRMED, calls, map[], []))
  {
    var s := Sample(p, CONFIRMED, calls, map[], []);
    assert ResetCancel(s.table, None) == s.table && Hits(s.table, None) == {};
  }

  lemma SampleReply(p: Fields, allow: Fields)
    requires Allows(allow)
    ensures var answered := Sample(p, CONSUMED, map[0 := Call(Str("c"), Answered(allow))], map[0 := allow], []);
            && Goes(Sample(p, CONFIRMED, map[0 := Call(Str("c"), Asking)], map[], []), Reply(0, allow), answered)
            && Goes(answered, Execute(0), Sample(p, CONSUMED, map[], map[0 := allow], [Execution(Str("c"), 0, allow)]))
  {
    var asking := Sample(p, CONFIRMED, map[0 := Call(Str("c"), Asking)], map[], []);
    assert Mark(asking.table, Str("c"), CONSUMED) == Sample(p, CONSUMED, map[], map[], []).table;
    assert map[0 := Call(Str("c"), Answered(allow))] - {0} == map[];
  }

  function TrunkProposal(): Fields {
    SampleProposal("control_access", map[Action := Str("open"), Target := Str("trunk")])
  }

  /**
   Register, confirm, reset everything, receive ALLOW, execute: the action runs after the reset. The proposal is a
   valid one and the reply one the agent accepts for it, with a permit bound to it.
   */
  lemma ResetThenExecution() returns (run: seq<State>, steps: seq<Step>)
    ensures IsRun(run, steps) && |steps| == 5 && steps[2] == Reset(None) && !Executed(run[3], Str("c"))
    ensures Executed(run[5], Str("c"))
    ensures var p := TrunkProposal();
            && steps[0] == Register(Str("c"), Get(p, SessionId), Some(10), p) && ValidProposal(p) && steps[3].Reply?
            && var reply := steps[3].reply;
               && ValidResult(reply) && Allows(reply) && Get(reply, ProposalId) == Get(p, ProposalId)
               && Get(reply, Permit).Obj? && Get(reply[Permit].fields, ProposalDigest) == Digest(p)
  {
    hide Next, Enabled, Goes, SampleProposal, ValidResult, SampleAllow, Digest, ValidProposal;
    var p := TrunkProposal();
    SampleValid("control_access", map[Action := Str("open"), Target := Str("trunk")]);
    SampleAllowed(p);
    var allow := SampleAllow(p).value;
    PermitExactlyOnAllow(allow);
    var asking := Sample(p, CONFIRMED, map[0 := Call(Str("c"), Asking)], map[], []);
    var done := Sample(p, CONSUMED, map[], map[0 := allow], [Execution(Str("c"), 0, allow)]);
    steps := [Register(Str("c"), Str("s1"), Some(10), p), Confirm(Str("c"), Str("s1"), 5, false), Reset(None),
              Reply(0, allow), Execute(0)];
    run := [State.State(map[], map[], 0, map[], [], {}), Sample(p, PENDING, map[], map[], []).(next := 0), asking, asking,
            Sample(p, CONSUMED, map[0 := Call(Str("c"), Answered(allow))], map[0 := allow], []), done];
    SampleConfirm(p);
    SampleReset(p, asking.calls);
    SampleReply(p, allow);
    assert forall i | 0 <= i < |steps| :: Goes(run[i], steps[i], run[i + 1]);
    GoesIsRun(run, steps);
    assert done.executed[0].id == Str("c");
  }

  lemma GoesIsRun(run: seq<State>, steps: seq<Step>)
    requires |run| == |steps| + 1 && Init(run[0]) && forall i | 0 <= i < |steps| :: Goes(run[i], steps[i], run[i + 1])
    ensures IsRun(run, steps)
  {
    hide Enabled, Next;
    forall i | 0 <= i < |steps| ensures Enabled(run[i], steps[i]) && run[i + 1] == Next(run[i], steps[i]) {
      assert Goes(run[i], steps[i], run[i + 1]);
    }
  }
}
