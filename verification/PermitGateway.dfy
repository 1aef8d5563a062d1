/**
 Single-use permits, runtime resets and the actuator gateway
 (agent/src/vehicle_agent/vehicle/execution/verifier.py, vehicle/execution/gateway.py, operations/runtime.py):
 the permit store, the verifier, and all interleavings of executions and resets around the re-entrant
 lifecycle lock.
 */
module PermitGateway {
  import opened Wrappers
  import opened Wire
  import PolicyEngine

  // ---- the permit store ---------------------------------------------------------------------------------

  /** The value of a `PermitStore`: consumed ids and revocation cutoffs. */
  datatype Ledger = Ledger(consumed: set<Json>, bySession: map<Json, int>, everywhere: Option<int>)

  /** Reset scope: one session, or all of them. */
  type Target = Option<Json>

  predicate InScope(target: Target, session: Json) {
    target == None || target == Some(session)
  }

  predicate Revoked(l: Ledger, session: Json, issuedAt: int) {
    || (l.everywhere.Some? && issuedAt <= l.everywhere.value)
    || (session in l.bySession && issuedAt <= l.bySession[session])
  }

  function Max(a: int, b: int): int {
    if a < b then b else a
  }

  function Revoke(l: Ledger, at: int, target: Target): Ledger {
    match target
    case None => l.(everywhere := Some(if l.everywhere.Some? then Max(l.everywhere.value, at) else at))
    case Some(s) => l.(bySession := l.bySession[s := if s in l.bySession then Max(l.bySession[s], at) else at])
  }

  /** Consumption is never undone and cutoffs only move forward. */
  ghost predicate Grows(l: Ledger, l': Ledger) {
    && l.consumed <= l'.consumed
    && forall session, issuedAt :: Revoked(l, session, issuedAt) ==> Revoked(l', session, issuedAt)
  }

  /** A revocation hits exactly the permits of its scope issued at or before it, besides those already hit. */
  lemma RevokeExact(l: Ledger, at: int, target: Target, session: Json, issuedAt: int)
    ensures Revoked(Revoke(l, at, target), session, issuedAt) <==>
            Revoked(l, session, issuedAt) || (InScope(target, session) && issuedAt <= at)
  {}

  class PermitStore {
    var consumedPermits: set<Json>
    var revokedBefore: map<Json, int>
    var globalRevokedBefore: Option<int>

    ghost function Contents(): Ledger
      reads this
    {
      Ledger(consumedPermits, revokedBefore, globalRevokedBefore)
    }

    constructor ()
      ensures Contents() == Ledger({}, map[], None)
    {
      consumedPermits, revokedBefore, globalRevokedBefore := {}, map[], None;
    }

    /** False stands for ReplayAttackError. */
    method MarkUsed(permitId: Json) returns (ok: bool)
      modifies this
      ensures ok <==> permitId !in old(Contents()).consumed
      ensures Contents() == old(Contents()).(consumed := old(Contents()).consumed + {permitId})
    {
      if permitId in consumedPermits {
        assert consumedPermits + {permitId} == consumedPermits;
        return false;
      }
      consumedPermits := consumedPermits + {permitId};
      return true;
    }

    method RevokeBefore(timestamp: int, sessionId: Target)
      modifies this
      ensures Contents() == Revoke(old(Contents()), timestamp, sessionId)
    {
      if sessionId.None? {
        var current := globalRevokedBefore;
        globalRevokedBefore := Some(if current.None? then timestamp else Max(current.value, timestamp));
      } else {
        var s := sessionId.value;
        var cutoff := if s in revokedBefore then Max(revokedBefore[s], timestamp) else timestamp;
        revokedBefore := revokedBefore[s := cutoff];
      }
    }

    /** The largest cutoff that applies decides. */
    method IsRevoked(sessionId: Json, issuedAt: int) returns (r: bool)
      ensures r <==> Revoked(Contents(), sessionId, issuedAt)
    {
      var cutoffs: seq<int> := [];
      if globalRevokedBefore.Some? { cutoffs := cutoffs + [globalRevokedBefore.value]; }
      if sessionId in revokedBefore { cutoffs := cutoffs + [revokedBefore[sessionId]]; }
      if cutoffs == [] { return false; }
      var top := if |cutoffs| == 2 then Max(cutoffs[0], cutoffs[1]) else cutoffs[0];
      return issuedAt <= top;
    }
  }

  // ---- the verifier -----------------------------------------------------------------------------------------

  datatype Refusal =
    | EXECUTION_DENIED | INVALID_PERMIT | REPLAY | SUBSTITUTION | EXPIRED

  /** Python's `==` on the fields compared: a bool, an int and a float can be equal. */
  predicate Same(a: Json, b: Json) {
    a == b || (IsNumber(a) && IsNumber(b) && Number(a) == Number(b))
  }

  predicate IsNumber(j: Json) {
    j.Bool? || j.Int? || j.Real?
  }

  function Number(j: Json): real
    requires IsNumber(j)
  {
    match j
    case Bool(b) => if b then 1.0 else 0.0
    case Int(i) => i as real
    case Real(r) => r
  }

  predicate Matches(decision: Fields, permit: Fields) {
    && Same(Get(decision, Intent), Get(permit, Intent)) && Same(Get(decision, RuleId), Get(permit, RuleId))
    && Same(Get(decision, StateVersion), Get(permit, StateVersion))
    && Same(Get(decision, PolicyChecksum), Get(permit, PolicyChecksum))
  }

  /** `PermitVerifier.verify`: the first refusal, in the order of the checks. */
  function VerifyRefusal(l: Ledger, proposal: Fields, permit: Fields, decision: Option<Fields>, now: int): Option<Refusal> {
    if !ValidProposal(proposal) then Some(Refusal.INVALID_PERMIT)
    else if !(PERMIT_FIELDS <= permit.Keys) then Some(Refusal.INVALID_PERMIT)
    else if permit[SingleUse] != Bool(true) then Some(Refusal.INVALID_PERMIT)
    else if !IsString(permit[PermitId]) || permit[PermitId] == Str("") then Some(Refusal.INVALID_PERMIT)
    else if permit[PermitId] in l.consumed then Some(REPLAY)
    else if permit[ProposalDigest] != Digest(proposal) then Some(SUBSTITUTION)
    else if decision.Some? && !(Allows(decision.value) && Matches(decision.value, permit)) then Some(Refusal.INVALID_PERMIT)
    else if !permit[IssuedAt].Time? || !permit[ExpiresAt].Time? then Some(Refusal.INVALID_PERMIT)
    else if Revoked(l, proposal[SessionId], permit[IssuedAt].at) then Some(Refusal.INVALID_PERMIT)
    else if permit[ExpiresAt].at <= permit[IssuedAt].at then Some(Refusal.INVALID_PERMIT)
    else if now > permit[ExpiresAt].at then Some(EXPIRED)
    else if now < permit[IssuedAt].at then Some(Refusal.INVALID_PERMIT)
    else None
  }

  /** What the caller handed over: a decision that must be ALLOW and carry its permit, or a bare permit. */
  function Extract(payload: Json): Result<(Fields, Option<Fields>), Refusal> {
    if !payload.Obj? then Err(Refusal.INVALID_PERMIT)
    else if Get(payload.fields, Kind) == Word(DecisionKind) then
      if !Allows(payload.fields) then Err(EXECUTION_DENIED)
      else if !Get(payload.fields, Permit).Obj? then Err(Refusal.INVALID_PERMIT)
      else Ok((payload.fields[Permit].fields, Some(payload.fields)))
    else if PermitId in payload.fields then Ok((payload.fields, None))
    else Err(Refusal.INVALID_PERMIT)
  }

  /** A verified right to run: what was checked, and when. */
  datatype Grant = Grant(proposal: Fields, payload: Json, permit: Fields, verifiedAt: int)

  function Verify(l: Ledger, proposal: Fields, payload: Json, now: int): Result<Grant, Refusal> {
    match Extract(payload)
    case Err(r) => Err(r)
    case Ok((permit, decision)) =>
      match VerifyRefusal(l, proposal, permit, decision, now)
      case Some(r) => Err(r)
      case None => Ok(Grant(proposal, payload, permit, now))
  }

  /** What a verified grant promises, whoever sent it. */
  ghost predicate Sound(g: Grant) {
    && ValidProposal(g.proposal) && PERMIT_FIELDS <= g.permit.Keys
    && g.permit[ProposalDigest] == Digest(g.proposal)
    && g.permit[IssuedAt].Time? && g.permit[ExpiresAt].Time?
    && g.permit[IssuedAt].at <= g.verifiedAt <= g.permit[ExpiresAt].at
    && Extract(g.payload).Ok? && Extract(g.payload).value.0 == g.permit
  }

  lemma VerifySound(l: Ledger, proposal: Fields, payload: Json, now: int)
    requires Verify(l, proposal, payload, now).Ok?
    ensures var g := Verify(l, proposal, payload, now).value;
            && Sound(g) && g.proposal == proposal && g.payload == payload
            && g.permit[PermitId] !in l.consumed
            && !Revoked(l, proposal[SessionId], g.permit[IssuedAt].at)
  {}

  // ---- exactly which permits pass ---------------------------------------------------------------------------------

  /** The permit a payload carries: that of an ALLOW decision, or a permit handed over bare. */
  ghost predicate Carries(payload: Json, permit: Fields, decision: Option<Fields>) {
    && payload.Obj?
    && if Get(payload.fields, Kind) == Word(DecisionKind)
       then && decision == Some(payload.fields) && Get(payload.fields, OutcomeKey) == Word(OutcomeWord(PolicyEngine.ALLOW))
            && Get(payload.fields, Permit) == Obj(permit)
       else decision == None && permit == payload.fields && PermitId in permit
  }

  /** All nine fields, single use, a nonempty id. */
  ghost predicate WellShaped(permit: Fields) {
    && (forall k | k in PERMIT_FIELDS :: k in permit) && permit[SingleUse] == Bool(true)
    && permit[PermitId] != Str("") && IsString(permit[PermitId])
  }

  /** The permit was issued for this decision: intent, rule, state version and policy. */
  ghost predicate IssuedFor(permit: Fields, decision: Option<Fields>) {
    decision.Some? ==>
      forall k | k in {Intent, RuleId, StateVersion, PolicyChecksum} :: Same(Get(decision.value, k), Get(permit, k))
  }

  /** No cutoff, global or of the session, lies at or after the time of issue. */
  ghost predicate Unrevoked(l: Ledger, session: Json, issuedAt: int) {
    && (l.everywhere.Some? ==> l.everywhere.value < issuedAt)
    && (session in l.bySession ==> l.bySession[session] < issuedAt)
  }

  /** What a mint writes can only be equal as it stands; numbers of different kinds compare by value. */
  lemma SameMeaning(a: Json, b: Json)
    ensures IsString(a) || a.Null? || a.Arr? || a.Obj? ==> (Same(a, b) <==> a == b)
    ensures a.Int? && b.Int? ==> (Same(a, b) <==> a == b)
    ensures a.Bool? && b.Bool? ==> (Same(a, b) <==> a == b)
    ensures a.Real? && b.Real? ==> (Same(a, b) <==> a == b)
    ensures a.Int? && b.Real? ==> (Same(a, b) <==> b.r == a.i as real)
    ensures a.Bool? && b.Int? ==> (Same(a, b) <==> b.i == if a.b then 1 else 0)
    ensures a.Bool? && b.Real? ==> (Same(a, b) <==> b.r == if a.b then 1.0 else 0.0)
    ensures Same(a, b) <==> Same(b, a)
  {}

  /**
   A permit passes exactly when the payload carries it, the proposal is valid, the permit is well shaped, unused, bound
   to this proposal's digest and to its decision, not revoked, and the clock is within its own two times.
   */
  lemma VerifyExactly(l: Ledger, proposal: Fields, payload: Json, now: int)
    ensures Verify(l, proposal, payload, now).Ok? <==>
            exists permit, decision :: Carries(payload, permit, decision) && Passes(l, proposal, permit, decision, now)
    ensures Verify(l, proposal, payload, now).Ok? ==>
              exists decision :: Carries(payload, Verify(l, proposal, payload, now).value.permit, decision)
  {
    ExtractCarries(payload);
    match Extract(payload)
    case Err(_) =>
    case Ok((permit, decision)) =>
      RefusalExactly(l, proposal, permit, decision, now);
      hide VerifyRefusal, Passes, Carries;
      assert Carries(payload, permit, decision);
  }

  lemma ExtractCarries(payload: Json)
    ensures forall permit, decision :: Carries(payload, permit, decision) <==> Extract(payload) == Ok((permit, decision))
    ensures Extract(payload) == Err(EXECUTION_DENIED) <==>
            && payload.Obj? && Get(payload.fields, Kind) == Word(DecisionKind)
            && Get(payload.fields, OutcomeKey) != Word(OutcomeWord(PolicyEngine.ALLOW))
    ensures Extract(payload).Err? ==> Extract(payload).error in {EXECUTION_DENIED, Refusal.INVALID_PERMIT}
  {}

  ghost predicate Passes(l: Ledger, proposal: Fields, permit: Fields, decision: Option<Fields>, now: int) {
    && ValidProposal(proposal) && WellShaped(permit) && permit[PermitId] !in l.consumed
    && permit[ProposalDigest] == Digest(proposal) && IssuedFor(permit, decision)
    && permit[IssuedAt].Time? && permit[ExpiresAt].Time? && Unrevoked(l, proposal[SessionId], permit[IssuedAt].at)
    && permit[IssuedAt].at < permit[ExpiresAt].at && permit[IssuedAt].at <= now <= permit[ExpiresAt].at
  }

  /** Replay is reported before substitution, and expiry only of a permit with no other fault. */
  lemma RefusalExactly(l: Ledger, proposal: Fields, permit: Fields, decision: Option<Fields>, now: int)
    requires decision.Some? ==> Get(decision.value, OutcomeKey) == Word(OutcomeWord(PolicyEngine.ALLOW))
    ensures var r, shaped := VerifyRefusal(l, proposal, permit, decision, now), ValidProposal(proposal) && WellShaped(permit);
            && (r == None <==> Passes(l, proposal, permit, decision, now))
            && (r == Some(REPLAY) <==> shaped && permit[PermitId] in l.consumed)
            && (r == Some(SUBSTITUTION) <==>
                  shaped && permit[PermitId] !in l.consumed && permit[ProposalDigest] != Digest(proposal))
            && (r == Some(EXPIRED) <==>
                  && shaped && permit[PermitId] !in l.consumed && permit[ProposalDigest] == Digest(proposal)
                  && IssuedFor(permit, decision) && permit[IssuedAt].Time? && permit[ExpiresAt].Time?
                  && Unrevoked(l, proposal[SessionId], permit[IssuedAt].at)
                  && permit[IssuedAt].at < permit[ExpiresAt].at < now)
            && (r.Some? ==> r.value in {REPLAY, SUBSTITUTION, EXPIRED, Refusal.INVALID_PERMIT})
  {
    hide Same, Digest;
    if decision.Some? {
      assert Matches(decision.value, permit) <==> IssuedFor(permit, decision) by {
        assert IssuedFor(permit, decision) ==> Same(Get(decision.value, Intent), Get(permit, Intent));
      }
      assert Allows(decision.value);
    }
    assert PERMIT_FIELDS <= permit.Keys <==> forall k | k in PERMIT_FIELDS :: k in permit;
    hide Matches, IssuedFor, Allows, ProposalIds;
  }

  // ---- executions and resets as interleaved steps --------------------------------------------------------------

  type Thread = int

  /** One nested activity of a thread inside the lifecycle lock. */
  datatype Frame =
    | Entered(proposal: Fields, payload: Json)
    | Verified(grant: Grant)
    | Consumed(grant: Grant)
    | Running(grant: Grant)
    | ResetBegun(target: Target)
    | ResetTimed(target: Target, at: int)
    | ResetRevoked(target: Target, at: int)

  /** Only these phases run foreign code, which may re-enter on the same thread. */
  predicate CallingOut(f: Frame) {
    f.Running? || f.ResetTimed? || f.ResetRevoked?
  }

  predicate IsReset(f: Frame) {
    f.ResetBegun? || f.ResetTimed? || f.ResetRevoked?
  }

  datatype Ops = OpsFree | OpsWaiting(thread: Thread) | OpsInside(thread: Thread)

  /** One handler call; `resets` is how many resets had finished by then. */
  datatype Start = Start(grant: Grant, resets: nat)

  datatype Done = Done(target: Target, at: int)

  /** `owner` and `depth` are the re-entrant lock; `starts` and `finished` are history. */
  datatype State = State(ledger: Ledger, owner: Option<Thread>, depth: nat, stacks: map<Thread, seq<Frame>>, ops: Ops,
                         clock: int, starts: seq<Start>, finished: seq<Done>)
  {
    function Stack(t: Thread): seq<Frame> { if t in stacks then stacks[t] else [] }
    function Top(t: Thread): Frame
      requires Stack(t) != []
    {
      Stack(t)[|Stack(t)| - 1]
    }
    predicate On(t: Thread) { Stack(t) != [] }
  }

  datatype Step =
    | Tick(now: int)
    | Enter(thread: Thread, proposal: Fields, payload: Json)
    | Refuse(thread: Thread)
    | Accept(thread: Thread)
    | Consume(thread: Thread)
    | NoHandler(thread: Thread)
    | StartHandler(thread: Thread)
    | FinishHandler(thread: Thread)
    | TakeOps(thread: Thread)
    | BeginReset(thread: Thread, target: Target)
    | ReadClock(thread: Thread)
    | RevokePermits(thread: Thread)
    | FinishReset(thread: Thread)
    | FailReset(thread: Thread)

  /** The lock can be taken: free, or held by a thread that is running foreign code. */
  predicate CanEnter(s: State, t: Thread) {
    (s.owner == None || s.owner == Some(t)) && (s.On(t) ==> CallingOut(s.Top(t)))
  }

  predicate Enabled(s: State, step: Step) {
    match step
    case Tick(_) => true
    case Enter(t, _, _) => CanEnter(s, t) && s.ops != OpsWaiting(t)
    case Refuse(t) =>
      s.On(t) && s.Top(t).Entered? && Verify(s.ledger, s.Top(t).proposal, s.Top(t).payload, s.clock).Err?
    case Accept(t) =>
      s.On(t) && s.Top(t).Entered? && Verify(s.ledger, s.Top(t).proposal, s.Top(t).payload, s.clock).Ok?
    case Consume(t) => s.On(t) && s.Top(t).Verified? && PermitId in s.Top(t).grant.permit
    case NoHandler(t) => s.On(t) && s.Top(t).Consumed?
    case StartHandler(t) => s.On(t) && s.Top(t).Consumed?
    case FinishHandler(t) => s.On(t) && s.Top(t).Running?
    case TakeOps(t) => s.ops == OpsFree && (s.On(t) ==> CallingOut(s.Top(t)))
    case BeginReset(t, _) => s.ops == OpsWaiting(t) && CanEnter(s, t)
    case ReadClock(t) => s.On(t) && s.Top(t).ResetBegun?
    case RevokePermits(t) => s.On(t) && s.Top(t).ResetTimed?
    case FinishReset(t) => s.On(t) && s.Top(t).ResetRevoked?
    case FailReset(t) => s.On(t) && IsReset(s.Top(t))
  }

  function Push(s: State, t: Thread, f: Frame): State {
    s.(owner := Some(t), depth := s.depth + 1, stacks := s.stacks[t := s.Stack(t) + [f]])
  }

  function Pop(s: State, t: Thread): State
    requires s.On(t)
  {
    var depth := if s.depth == 0 then 0 else s.depth - 1;
    s.(owner := if depth == 0 then None else s.owner, depth := depth,
       stacks := s.stacks[t := s.Stack(t)[..|s.Stack(t)| - 1]])
  }

  function Move(s: State, t: Thread, f: Frame): State
    requires s.On(t)
  {
    s.(stacks := s.stacks[t := s.Stack(t)[..|s.Stack(t)| - 1] + [f]])
  }

  function Next(s: State, step: Step): State
    requires Enabled(s, step)
  {
    match step
    case Tick(now) => s.(clock := now)
    case Enter(t, proposal, payload) => Push(s, t, Entered(proposal, payload))
    case Refuse(t) => Pop(s, t)
    case Accept(t) => Move(s, t, Verified(Verify(s.ledger, s.Top(t).proposal, s.Top(t).payload, s.clock).value))
    case Consume(t) =>
      var id := s.Top(t).grant.permit[PermitId];
      if id in s.ledger.consumed then Pop(s, t)
      else Move(s.(ledger := s.ledger.(consumed := s.ledger.consumed + {id})), t, Consumed(s.Top(t).grant))
    case NoHandler(t) => Pop(s, t)
    case StartHandler(t) =>
      Move(s.(starts := s.starts + [Start(s.Top(t).grant, |s.finished|)]), t, Running(s.Top(t).grant))
    case FinishHandler(t) => Pop(s, t)
    case TakeOps(t) => s.(ops := OpsWaiting(t))
    case BeginReset(t, target) => Push(s.(ops := OpsInside(t)), t, ResetBegun(target))
    case ReadClock(t) => Move(s, t, ResetTimed(s.Top(t).target, s.clock))
    case RevokePermits(t) =>
      var f := s.Top(t);
      Move(s.(ledger := Revoke(s.ledger, f.at, f.target)), t, ResetRevoked(f.target, f.at))
    case FinishReset(t) => Pop(s.(ops := OpsFree, finished := s.finished + [Done(s.Top(t).target, s.Top(t).at)]), t)
    case FailReset(t) => Pop(s.(ops := OpsFree), t)
  }

  // ---- the invariant ------------------------------------------------------------------------------------------------

  /** The lock's fields say who is inside and how deep; everybody else is outside. */
  ghost predicate LockOk(s: State) {
    && (s.owner == None <==> s.depth == 0)
    && (s.owner.Some? ==> |s.Stack(s.owner.value)| == s.depth)
    && forall t :: s.On(t) ==> s.owner == Some(t)
  }

  /** Below the innermost frame everything is calling out. */
  ghost predicate NestingOk(s: State) {
    forall t, i :: s.On(t) && 0 <= i < |s.Stack(t)| - 1 ==> CallingOut(s.Stack(t)[i])
  }

  /** A permit between verification and start is still good, and consumed exactly when its frame says so. */
  ghost predicate FrameOk(s: State, f: Frame) {
    match f
    case Verified(g) => Sound(g) && !Revoked(s.ledger, g.proposal[SessionId], g.permit[IssuedAt].at)
    case Consumed(g) =>
      && Sound(g) && !Revoked(s.ledger, g.proposal[SessionId], g.permit[IssuedAt].at)
      && g.permit[PermitId] in s.ledger.consumed
      && forall i | 0 <= i < |s.starts| :: !Uses(s.starts[i], g.permit[PermitId])
    case ResetRevoked(target, at) => Covers(s.ledger, target, at)
    case _ => true
  }

  ghost predicate FramesOk(s: State) {
    forall t, i :: 0 <= i < |s.Stack(t)| ==> FrameOk(s, s.Stack(t)[i])
  }

  predicate Uses(st: Start, id: Json) {
    Get(st.grant.permit, PermitId) == id
  }

  /** Every permit the reset was meant to kill is dead. */
  ghost predicate Covers(l: Ledger, target: Target, at: int) {
    forall session, issuedAt :: InScope(target, session) && issuedAt <= at ==> Revoked(l, session, issuedAt)
  }

  ghost predicate HistoryOk(s: State) {
    && (forall i | 0 <= i < |s.starts| :: Sound(s.starts[i].grant) && s.starts[i].resets <= |s.finished|)
    && (forall i | 0 <= i < |s.starts| :: Get(s.starts[i].grant.permit, PermitId) in s.ledger.consumed)
    && (forall d | d in s.finished :: Covers(s.ledger, d.target, d.at))
  }

  /** No handler started on a permit that a reset finished before had killed. */
  ghost predicate NoneAfterReset(s: State) {
    forall i, j | 0 <= i < |s.starts| && 0 <= j < s.starts[i].resets && j < |s.finished| ::
      Spared(s.starts[i], s.finished[j])
  }

  ghost predicate Spared(st: Start, d: Done) {
    !(InScope(d.target, Get(st.grant.proposal, SessionId)) && Get(st.grant.permit, IssuedAt).Time?
      && st.grant.permit[IssuedAt].at <= d.at)
  }

  /** No permit id starts two handlers. */
  ghost predicate SingleUseOk(s: State) {
    forall i, j | 0 <= i < j < |s.starts| :: !Uses(s.starts[j], Get(s.starts[i].grant.permit, PermitId))
  }

  ghost predicate Inv(s: State) {
    LockOk(s) && NestingOk(s) && FramesOk(s) && HistoryOk(s) && NoneAfterReset(s) && SingleUseOk(s)
  }

  ghost predicate Init(s: State) {
    && s.ledger.consumed == {} && s.owner == None && s.depth == 0 && s.stacks == map[] && s.ops == OpsFree
    && s.starts == [] && s.finished == []
  }

  lemma InitInv(s: State)
    requires Init(s)
    ensures Inv(s)
  {}

  // ---- the lock and the nesting -----------------------------------------------------------------------------------

  ghost predicate Shape(s: State) {
    LockOk(s) && NestingOk(s)
  }

  lemma PushShape(s: State, t: Thread, f: Frame)
    requires Shape(s) && CanEnter(s, t)
    ensures Shape(Push(s, t, f))
  {
    var s' := Push(s, t, f);
    forall u, i | s'.On(u) && 0 <= i < |s'.Stack(u)| - 1 ensures CallingOut(s'.Stack(u)[i]) {
      if u == t {
        if i == |s.Stack(t)| - 1 { assert s.Top(t) == s.Stack(t)[i]; }
      } else {
        assert s'.Stack(u) == s.Stack(u);
      }
    }
    forall u ensures s'.On(u) ==> s'.owner == Some(u) { assert u != t ==> s'.Stack(u) == s.Stack(u); }
  }

  lemma PopShape(s: State, t: Thread)
    requires Shape(s) && s.On(t)
    ensures Shape(Pop(s, t))
  {
    var s' := Pop(s, t);
    assert s.owner == Some(t);
    forall u ensures s'.On(u) ==> s'.owner == Some(u) { assert u != t ==> s'.Stack(u) == s.Stack(u); }
    forall u, i | s'.On(u) && 0 <= i < |s'.Stack(u)| - 1 ensures CallingOut(s'.Stack(u)[i]) {
      assert s'.Stack(u)[i] == s.Stack(u)[i];
    }
  }

  lemma MoveShape(s: State, t: Thread, f: Frame)
    requires Shape(s) && s.On(t)
    ensures Shape(Move(s, t, f))
  {
    var s' := Move(s, t, f);
    forall u ensures s'.On(u) ==> s'.owner == Some(u) { assert u != t ==> s'.Stack(u) == s.Stack(u); }
    forall u, i | s'.On(u) && 0 <= i < |s'.Stack(u)| - 1 ensures CallingOut(s'.Stack(u)[i]) {
      assert s'.Stack(u)[i] == s.Stack(u)[i];
    }
  }

  /** Shape reads only the lock and the stacks. */
  lemma SameShape(s: State, s': State)
    requires Shape(s) && s'.owner == s.owner && s'.depth == s.depth && s'.stacks == s.stacks
    ensures Shape(s')
  {
    assert forall t :: s'.Stack(t) == s.Stack(t);
  }

  lemma ShapeStep(s: State, step: Step)
    requires Shape(s) && Enabled(s, step)
    ensures Shape(Next(s, step))
  {
    var s' := Next(s, step);
    hide Shape, Verify, Revoke;
    match step
    case Tick(_) => SameShape(s, s');
    case Enter(t, proposal, payload) => PushShape(s, t, Entered(proposal, payload));
    case Refuse(t) => PopShape(s, t);
    case Accept(t) => MoveShape(s, t, Verified(Verify(s.ledger, s.Top(t).proposal, s.Top(t).payload, s.clock).value));
    case Consume(t) =>
      var id := s.Top(t).grant.permit[PermitId];
      if id in s.ledger.consumed { PopShape(s, t); } else {
        var m := s.(ledger := s.ledger.(consumed := s.ledger.consumed + {id}));
        SameShape(s, m);
        MoveShape(m, t, Consumed(s.Top(t).grant));
      }
    case NoHandler(t) => PopShape(s, t);
    case StartHandler(t) =>
      var m := s.(starts := s.starts + [Start(s.Top(t).grant, |s.finished|)]);
      SameShape(s, m);
      MoveShape(m, t, Running(s.Top(t).grant));
    case FinishHandler(t) => PopShape(s, t);
    case TakeOps(t) => SameShape(s, s');
    case BeginReset(t, target) =>
      var m := s.(ops := OpsInside(t));
      SameShape(s, m);
      PushShape(m, t, ResetBegun(target));
    case ReadClock(t) => MoveShape(s, t, ResetTimed(s.Top(t).target, s.clock));
    case RevokePermits(t) =>
      var f := s.Top(t);
      var m := s.(ledger := Revoke(s.ledger, f.at, f.target));
      SameShape(s, m);
      MoveShape(m, t, ResetRevoked(f.target, f.at));
    case FinishReset(t) =>
      var m := s.(ops := OpsFree, finished := s.finished + [Done(s.Top(t).target, s.Top(t).at)]);
      SameShape(s, m);
      PopShape(m, t);
    case FailReset(t) =>
      var m := s.(ops := OpsFree);
      SameShape(s, m);
      PopShape(m, t);
  }

  // ---- what each step does to the ledger and the history ------------------------------------------------------------

  lemma LedgerStep(s: State, step: Step)
    requires Enabled(s, step)
    ensures Grows(s.ledger, Next(s, step).ledger)
  {
    hide Verify;
    if step.RevokePermits? {
      var f := s.Top(step.thread);
      forall session, issuedAt | Revoked(s.ledger, session, issuedAt)
        ensures Revoked(Revoke(s.ledger, f.at, f.target), session, issuedAt)
      {
        RevokeExact(s.ledger, f.at, f.target, session, issuedAt);
      }
    }
  }

  /** While a frame is not calling out, it is the innermost one and no other thread is inside. */
  lemma Innermost(s: State, t: Thread, u: Thread, i: nat)
    requires Shape(s) && s.On(t) && i < |s.Stack(u)| && !CallingOut(s.Stack(u)[i])
    ensures u == t && i == |s.Stack(t)| - 1
  {
    assert s.On(u);
  }

  lemma FrameKept(s: State, s': State, f: Frame)
    requires FrameOk(s, f) && Grows(s.ledger, s'.ledger)
    requires !(f.Verified? || f.Consumed?) || (s'.ledger == s.ledger && s'.starts == s.starts)
    ensures FrameOk(s', f)
  {
    hide Sound, Revoked;
  }

  /** The thread whose stack a step may change. */
  function Actor(step: Step): Option<Thread> {
    match step
    case Tick(_) => None
    case TakeOps(_) => None
    case _ => Some(step.thread)
  }

  /** The frame a step leaves innermost, when it does not merely leave. */
  ghost predicate NewTop(s: State, step: Step, u: Thread, i: nat) {
    && Enabled(s, step) && Actor(step) == Some(u) && i + 1 == |Next(s, step).Stack(u)|
    && |Next(s, step).Stack(u)| >= |s.Stack(u)|
  }

  /** Every other frame was there before, and if it was mid-verification nothing it relies on has moved. */
  lemma OldFrame(s: State, step: Step, u: Thread, i: nat)
    requires Shape(s) && Enabled(s, step) && i < |Next(s, step).Stack(u)| && !NewTop(s, step, u, i)
    ensures i < |s.Stack(u)| && Next(s, step).Stack(u)[i] == s.Stack(u)[i]
    ensures s.Stack(u)[i].Verified? || s.Stack(u)[i].Consumed? ==>
              Next(s, step).ledger == s.ledger && Next(s, step).starts == s.starts
  {
    hide LockOk, NestingOk, Verify, Revoke;
    var f := s.Stack(u)[i];
    if Actor(step).Some? && !CallingOut(f) {
      var t := step.thread;
      if s.On(t) { Innermost(s, t, u, i); } else { OutsideNobody(s, t, u); }
    }
  }

  lemma OutsideNobody(s: State, t: Thread, u: Thread)
    requires Shape(s) && CanEnter(s, t) && !s.On(t)
    ensures !s.On(u)
  {}

  /** The innermost frame after a step is in order. */
  lemma TopOk(s: State, step: Step, u: Thread, i: nat)
    requires FramesOk(s) && HistoryOk(s) && NewTop(s, step, u, i)
    ensures FrameOk(Next(s, step), Next(s, step).Stack(u)[i])
  {
    if s.On(u) { assert FrameOk(s, s.Stack(u)[|s.Stack(u)| - 1]); }
    match step {
      case Accept(t) => VerifySound(s.ledger, s.Top(t).proposal, s.Top(t).payload, s.clock);
      case Consume(t) =>
        var id := s.Top(t).grant.permit[PermitId];
        assert forall k | 0 <= k < |s.starts| :: Get(s.starts[k].grant.permit, PermitId) != id;
      case RevokePermits(t) =>
        var f := s.Top(t);
        forall session, issuedAt | InScope(f.target, session) && issuedAt <= f.at
          ensures Revoked(Revoke(s.ledger, f.at, f.target), session, issuedAt)
        {
          RevokeExact(s.ledger, f.at, f.target, session, issuedAt);
        }
      case _ =>
    }
  }

  lemma FramesStep(s: State, step: Step)
    requires Shape(s) && FramesOk(s) && HistoryOk(s) && Enabled(s, step)
    ensures FramesOk(Next(s, step))
  {
    var s' := Next(s, step);
    forall u, i | 0 <= i < |s'.Stack(u)| ensures FrameOk(s', s'.Stack(u)[i]) {
      FrameStep(s, step, u, i);
    }
  }

  lemma FrameStep(s: State, step: Step, u: Thread, i: nat)
    requires Shape(s) && FramesOk(s) && HistoryOk(s) && Enabled(s, step) && i < |Next(s, step).Stack(u)|
    ensures FrameOk(Next(s, step), Next(s, step).Stack(u)[i])
  {
    hide Shape, FrameOk, NewTop, Next, HistoryOk;
    if NewTop(s, step, u, i) {
      TopOk(s, step, u, i);
    } else {
      OldFrame(s, step, u, i);
      LedgerStep(s, step);
      FrameKept(s, Next(s, step), s.Stack(u)[i]);
    }
  }

  lemma HistoryGrows(s: State, s': State, starts: seq<Start>, finished: seq<Done>)
    requires HistoryOk(s) && Grows(s.ledger, s'.ledger)
    requires s'.starts == s.starts + starts && s'.finished == s.finished + finished
    requires forall st | st in starts :: Sound(st.grant) && st.resets <= |s.finished|
    requires forall st | st in starts :: Get(st.grant.permit, PermitId) in s.ledger.consumed
    requires forall d | d in finished :: Covers(s.ledger, d.target, d.at)
    ensures HistoryOk(s')
  {
    hide Sound, Revoked;
  }

  lemma HistoryStep(s: State, step: Step)
    requires FramesOk(s) && HistoryOk(s) && Enabled(s, step)
    ensures HistoryOk(Next(s, step))
  {
    var s' := Next(s, step);
    LedgerStep(s, step);
    if step.StartHandler? || step.FinishReset? { assert FrameOk(s, s.Top(step.thread)); }
    hide Sound, Revoked, Verify, Revoke, Covers, HistoryOk, FramesOk;
    if step.StartHandler? {
      HistoryGrows(s, s', [Start(s.Top(step.thread).grant, |s.finished|)], []);
    } else if step.FinishReset? {
      HistoryGrows(s, s', [], [Done(s.Top(step.thread).target, s.Top(step.thread).at)]);
    } else {
      HistoryGrows(s, s', [], []);
    }
  }

  lemma AfterResetStep(s: State, step: Step)
    requires FramesOk(s) && HistoryOk(s) && NoneAfterReset(s) && Enabled(s, step)
    ensures NoneAfterReset(Next(s, step))
  {
    hide Verify, Revoke;
    if step.StartHandler? {
      var f := s.Top(step.thread);
      assert FrameOk(s, f);
      forall j | 0 <= j < |s.finished| ensures Spared(Start(f.grant, |s.finished|), s.finished[j]) {
        assert s.finished[j] in s.finished;
      }
    }
    hide Revoked, Spared, Sound, FrameOk, FramesOk;
  }

  lemma SingleUseStep(s: State, step: Step)
    requires FramesOk(s) && SingleUseOk(s) && Enabled(s, step)
    ensures SingleUseOk(Next(s, step))
  {
    hide Verify, Revoke;
    if step.StartHandler? {
      assert FrameOk(s, s.Top(step.thread));
    }
    hide FrameOk, FramesOk;
  }

  lemma StepInv(s: State, step: Step)
    requires Inv(s) && Enabled(s, step)
    ensures Inv(Next(s, step))
  {
    ShapeStep(s, step);
    FramesStep(s, step);
    HistoryStep(s, step);
    AfterResetStep(s, step);
    SingleUseStep(s, step);
    hide Shape, FramesOk, HistoryOk, NoneAfterReset, SingleUseOk, Next, Enabled;
  }

  // ---- runs ----------------------------------------------------------------------------------------------------------

  ghost predicate IsRun(run: seq<State>, steps: seq<Step>) {
    && |run| == |steps| + 1 && Init(run[0])
    && forall i | 0 <= i < |steps| :: Enabled(run[i], steps[i]) && run[i + 1] == Next(run[i], steps[i])
  }

  lemma {:induction false} RunInv(run: seq<State>, steps: seq<Step>, i: nat)
    requires IsRun(run, steps) && i < |run|
    ensures Inv(run[i])
    decreases i
  {
    if i == 0 {
      InitInv(run[0]);
    } else {
      RunInv(run, steps, i - 1);
      hide Inv, Next, Enabled;
      StepInv(run[i - 1], steps[i - 1]);
    }
  }

  /** Over a whole run consumption and revocation only grow. */
  lemma {:induction false} CutoffsOnlyGrow(run: seq<State>, steps: seq<Step>, i: nat, j: nat)
    requires IsRun(run, steps) && i <= j < |run|
    ensures Grows(run[i].ledger, run[j].ledger)
    decreases j
  {
    if i < j {
      CutoffsOnlyGrow(run, steps, i, j - 1);
      LedgerStep(run[j - 1], steps[j - 1]);
      hide Next, Enabled, Revoked;
    }
  }

  /** One permit id never starts two handlers, whoever presents it and however often. */
  lemma PermitStartsOnce(run: seq<State>, steps: seq<Step>, i: nat, a: nat, b: nat)
    requires IsRun(run, steps) && i < |run| && a < |run[i].starts| && b < |run[i].starts| && a != b
    ensures Get(run[i].starts[a].grant.permit, PermitId) != Get(run[i].starts[b].grant.permit, PermitId)
  {
    RunInv(run, steps, i);
    var lo, hi := if a < b then a else b, if a < b then b else a;
    assert !Uses(run[i].starts[hi], Get(run[i].starts[lo].grant.permit, PermitId));
  }

  /** Every start is on a permit bound to that very proposal and checked inside its life time. */
  lemma StartsAreSound(run: seq<State>, steps: seq<Step>, i: nat, a: nat)
    requires IsRun(run, steps) && i < |run| && a < |run[i].starts|
    ensures Sound(run[i].starts[a].grant)
  {
    RunInv(run, steps, i);
  }

  /** Once a reset at time T has finished, no handler starts on a permit of its scope issued at or before T. */
  lemma NoStartAfterReset(run: seq<State>, steps: seq<Step>, k: nat, t: Thread, j: nat)
    requires IsRun(run, steps) && k < |steps| && steps[k] == StartHandler(t) && j < |run[k].finished|
    ensures run[k + 1].starts == run[k].starts + [Start(run[k].Top(t).grant, |run[k].finished|)]
    ensures InScope(run[k].finished[j].target, Get(run[k].Top(t).grant.proposal, SessionId)) ==>
              Get(run[k].Top(t).grant.permit, IssuedAt).Time?
              && run[k].Top(t).grant.permit[IssuedAt].at > run[k].finished[j].at
  {
    RunInv(run, steps, k);
    RunInv(run, steps, k + 1);
    assert FrameOk(run[k], run[k].Top(t));
    var st := run[k + 1].starts[|run[k].starts|];
    assert Spared(st, run[k].finished[j]);
  }

  lemma ConsumedIsReplay(l: Ledger, l': Ledger, proposal: Fields, payload: Json, now: int)
    requires Verify(l, proposal, payload, now).Ok?
    requires Get(Verify(l, proposal, payload, now).value.permit, PermitId) in l'.consumed
    ensures Verify(l', proposal, payload, now) == Err(REPLAY)
  {}

  // ---- the lock is given back ----------------------------------------------------------------------------------------

  /** Thread `t` is one frame deeper in the lock than in `s`; everybody else stands where they stood. */
  ghost predicate Deeper(s: State, s': State, t: Thread, f: Frame) {
    && s'.owner == Some(t) && s'.depth == s.depth + 1 && s'.Stack(t) == s.Stack(t) + [f]
    && forall u | u != t :: s'.Stack(u) == s.Stack(u)
  }

  /** The lock is held as before, by the same thread, as often. */
  ghost predicate SameLock(s: State, s': State) {
    s'.owner == s.owner && s'.depth == s.depth && forall u :: s'.Stack(u) == s.Stack(u)
  }

  lemma Enters(s: State, step: Step, t: Thread)
    requires Enabled(s, step) && ((step.Enter? && step.thread == t) || (step.BeginReset? && step.thread == t))
    ensures Deeper(s, Next(s, step), t, if step.Enter? then Entered(step.proposal, step.payload) else ResetBegun(step.target))
    ensures var s' := Next(s, step);
            s' == s.(owner := s'.owner, depth := s'.depth, stacks := s'.stacks, ops := if step.Enter? then s.ops else OpsInside(t))
  {}

  lemma Deepens(s: State, s1: State, t: Thread, f: Frame, g: Frame)
    requires Deeper(s, s1, t, f)
    ensures s1.On(t) && s1.Top(t) == f && Deeper(s, Move(s1, t, g), t, g)
  {
    assert s1.Stack(t)[..|s1.Stack(t)| - 1] == s.Stack(t);
  }

  lemma GivesBack(s: State, s1: State, t: Thread, f: Frame)
    requires LockOk(s) && (s.owner == None || s.owner == Some(t)) && Deeper(s, s1, t, f)
    ensures s1.On(t) && s1.Top(t) == f && SameLock(s, Pop(s1, t))
  {
    assert s1.Stack(t)[..|s1.Stack(t)| - 1] == s.Stack(t);
  }

  lemma SameStacks(s: State, a: State, b: State, t: Thread, f: Frame)
    requires Deeper(s, a, t, f) && b.owner == a.owner && b.depth == a.depth && b.stacks == a.stacks
    ensures Deeper(s, b, t, f)
  {}

  /** A handler that returns gives the lock back as its execution found it. */
  lemma HandlerReturns(s: State, running: State, t: Thread, g: Grant)
    requires LockOk(s) && CanEnter(s, t) && Deeper(s, running, t, Running(g))
    ensures Enabled(running, FinishHandler(t)) && SameLock(s, Next(running, FinishHandler(t)))
  {
    GivesBack(s, running, t, Running(g));
    hide Deeper, SameLock, LockOk, Pop;
  }

  lemma AcceptDeepens(s: State, s1: State, t: Thread, proposal: Fields, payload: Json)
    requires Deeper(s, s1, t, Entered(proposal, payload)) && Verify(s1.ledger, proposal, payload, s1.clock).Ok?
    ensures Enabled(s1, Accept(t))
    ensures var s2, g := Next(s1, Accept(t)), Verify(s1.ledger, proposal, payload, s1.clock).value;
            Deeper(s, s2, t, Verified(g)) && s2 == s1.(stacks := s2.stacks)
  {
    Deepens(s, s1, t, Entered(proposal, payload), Verified(Verify(s1.ledger, proposal, payload, s1.clock).value));
    hide Deeper, Verify;
  }

  lemma ConsumeDeepens(s: State, s1: State, t: Thread, g: Grant)
    requires Deeper(s, s1, t, Verified(g)) && PermitId in g.permit && g.permit[PermitId] !in s1.ledger.consumed
    ensures Enabled(s1, Consume(t)) && Deeper(s, Next(s1, Consume(t)), t, Consumed(g))
    ensures var s2 := Next(s1, Consume(t));
            s2 == s1.(ledger := s1.ledger.(consumed := s1.ledger.consumed + {g.permit[PermitId]}), stacks := s2.stacks)
  {
    Deepens(s, s1, t, Verified(g), Consumed(g));
    var spent := s1.(ledger := s1.ledger.(consumed := s1.ledger.consumed + {g.permit[PermitId]}));
    SameStacks(s, s1, spent, t, Verified(g));
    Deepens(s, spent, t, Verified(g), Consumed(g));
    hide Deeper, Move;
  }

  lemma StartDeepens(s: State, s1: State, t: Thread, g: Grant)
    requires Deeper(s, s1, t, Consumed(g))
    ensures Enabled(s1, StartHandler(t)) && Deeper(s, Next(s1, StartHandler(t)), t, Running(g))
    ensures var s2 := Next(s1, StartHandler(t)); s2 == s1.(starts := s1.starts + [Start(g, |s1.finished|)], stacks := s2.stacks)
  {
    Deepens(s, s1, t, Consumed(g), Running(g));
    var begun := s1.(starts := s1.starts + [Start(g, |s1.finished|)]);
    SameStacks(s, s1, begun, t, Consumed(g));
    Deepens(s, begun, t, Consumed(g), Running(g));
    hide Deeper, Move;
  }

  /** A permit that passes verification is not refused later: its handler starts, and the permit is gone. */
  lemma VerifiedPermitRuns(s: State, t: Thread, proposal: Fields, payload: Json) returns (last: State)
    requires CanEnter(s, t) && s.ops != OpsWaiting(t) && Verify(s.ledger, proposal, payload, s.clock).Ok?
    ensures Enabled(s, Enter(t, proposal, payload))
    ensures var s1 := Next(s, Enter(t, proposal, payload));
            Enabled(s1, Accept(t)) && var s2 := Next(s1, Accept(t));
            Enabled(s2, Consume(t)) && var s3 := Next(s2, Consume(t));
            Enabled(s3, StartHandler(t)) && last == Next(s3, StartHandler(t))
    ensures var g := Verify(s.ledger, proposal, payload, s.clock).value;
            && last.starts == s.starts + [Start(g, |s.finished|)] && PermitId in g.permit
            && last.ledger.consumed == s.ledger.consumed + {g.permit[PermitId]}
            && Verify(last.ledger, proposal, payload, s.clock) == Err(REPLAY)
  {
    VerifySound(s.ledger, proposal, payload, s.clock);
    var g := Verify(s.ledger, proposal, payload, s.clock).value;
    assert Enabled(s, Enter(t, proposal, payload));
    hide Next, Deeper, Verify, LockOk, Enabled, Sound, Revoked;
    Enters(s, Enter(t, proposal, payload), t);
    var s1 := Next(s, Enter(t, proposal, payload));
    AcceptDeepens(s, s1, t, proposal, payload);
    var s2 := Next(s1, Accept(t));
    ConsumeDeepens(s, s2, t, g);
    var s3 := Next(s2, Consume(t));
    StartDeepens(s, s3, t, g);
    last := Next(s3, StartHandler(t));
    ConsumedIsReplay(s.ledger, last.ledger, proposal, payload, s.clock);
  }

  /** The execution of a verified permit, handler included, ends with the lock as it was before. */
  lemma ExecutionReturns(s: State, t: Thread, proposal: Fields, payload: Json)
    requires LockOk(s) && CanEnter(s, t) && s.ops != OpsWaiting(t) && Verify(s.ledger, proposal, payload, s.clock).Ok?
    ensures Enabled(s, Enter(t, proposal, payload))
    ensures var s1 := Next(s, Enter(t, proposal, payload));
            Enabled(s1, Accept(t)) && var s2 := Next(s1, Accept(t));
            Enabled(s2, Consume(t)) && var s3 := Next(s2, Consume(t));
            Enabled(s3, StartHandler(t)) && var s4 := Next(s3, StartHandler(t));
            Enabled(s4, FinishHandler(t)) && SameLock(s, Next(s4, FinishHandler(t)))
  {
    VerifySound(s.ledger, proposal, payload, s.clock);
    var g := Verify(s.ledger, proposal, payload, s.clock).value;
    assert Enabled(s, Enter(t, proposal, payload));
    hide Next, Deeper, SameLock, Verify, LockOk, Enabled;
    Enters(s, Enter(t, proposal, payload), t);
    var s1 := Next(s, Enter(t, proposal, payload));
    AcceptDeepens(s, s1, t, proposal, payload);
    var s2 := Next(s1, Accept(t));
    ConsumeDeepens(s, s2, t, g);
    StartDeepens(s, Next(s2, Consume(t)), t, g);
    HandlerReturns(s, Next(Next(s2, Consume(t)), StartHandler(t)), t, g);
  }

  // ---- a reset runs to its end ----------------------------------------------------------------------------------------

  lemma TakesOps(s: State, t: Thread, target: Target)
    requires CanEnter(s, t) && s.ops == OpsFree
    ensures Enabled(s, TakeOps(t)) && Next(s, TakeOps(t)) == s.(ops := OpsWaiting(t))
    ensures Enabled(s.(ops := OpsWaiting(t)), BeginReset(t, target)) && forall u :: !Enabled(s.(ops := OpsWaiting(t)), TakeOps(u))
  {}

  lemma ReadDeepens(s: State, s1: State, t: Thread, target: Target, now: int)
    requires Deeper(s, s1, t, ResetBegun(target))
    ensures Enabled(s1, Tick(now)) && Enabled(Next(s1, Tick(now)), ReadClock(t))
    ensures var s2 := Next(Next(s1, Tick(now)), ReadClock(t));
            Deeper(s, s2, t, ResetTimed(target, now)) && s2 == s1.(clock := now, stacks := s2.stacks)
  {
    var ticked := s1.(clock := now);
    SameStacks(s, s1, ticked, t, ResetBegun(target));
    Deepens(s, ticked, t, ResetBegun(target), ResetTimed(target, now));
    hide Deeper;
  }

  lemma RevokeDeepens(s: State, s1: State, t: Thread, target: Target, at: int)
    requires Deeper(s, s1, t, ResetTimed(target, at))
    ensures Enabled(s1, RevokePermits(t))
    ensures var s2 := Next(s1, RevokePermits(t));
            Deeper(s, s2, t, ResetRevoked(target, at)) && s2 == s1.(ledger := Revoke(s1.ledger, at, target), stacks := s2.stacks)
  {
    var revoked := s1.(ledger := Revoke(s1.ledger, at, target));
    SameStacks(s, s1, revoked, t, ResetTimed(target, at));
    Deepens(s, s1, t, ResetTimed(target, at), ResetRevoked(target, at));
    Deepens(s, revoked, t, ResetTimed(target, at), ResetRevoked(target, at));
    hide Deeper, Revoke;
  }

  lemma FinishGivesBack(s: State, s1: State, t: Thread, target: Target, at: int)
    requires LockOk(s) && CanEnter(s, t) && Deeper(s, s1, t, ResetRevoked(target, at))
    ensures Enabled(s1, FinishReset(t))
    ensures var s2 := Next(s1, FinishReset(t));
            SameLock(s, s2) && s2.ops == OpsFree && s2.finished == s1.finished + [Done(target, at)] && s2.ledger == s1.ledger
            && s2.starts == s1.starts && s2.clock == s1.clock
  {
    GivesBack(s, s1, t, ResetRevoked(target, at));
    var done := s1.(ops := OpsFree, finished := s1.finished + [Done(target, at)]);
    SameStacks(s, s1, done, t, ResetRevoked(target, at));
    GivesBack(s, done, t, ResetRevoked(target, at));
    hide Deeper, SameLock, LockOk;
  }

  /**
   A reset that may enter runs to its end: at the time the clock shows, with nobody able to begin another in between; it
   revokes exactly its scope up to that time, is on record, and leaves the lock as it found it.
   */
  lemma ResetRuns(s: State, t: Thread, target: Target, now: int)
    requires LockOk(s) && CanEnter(s, t) && s.ops == OpsFree
    ensures Enabled(s, TakeOps(t))
    ensures var s1 := Next(s, TakeOps(t));
            Enabled(s1, BeginReset(t, target)) && var s2 := Next(s1, BeginReset(t, target));
            Enabled(s2, Tick(now)) && var s3 := Next(s2, Tick(now));
            Enabled(s3, ReadClock(t)) && var s4 := Next(s3, ReadClock(t));
            Enabled(s4, RevokePermits(t)) && var s5 := Next(s4, RevokePermits(t));
            Enabled(s5, FinishReset(t)) && var s6 := Next(s5, FinishReset(t));
            && (forall u :: !Enabled(s1, TakeOps(u)) && !Enabled(s5, TakeOps(u)))
            && s6.finished == s.finished + [Done(target, now)] && s6.ops == OpsFree && s6.clock == now
            && s6.ledger == Revoke(s.ledger, now, target) && s6.starts == s.starts && SameLock(s, s6)
  {
    TakesOps(s, t, target);
    var s1 := s.(ops := OpsWaiting(t));
    var s2 := Next(s1, BeginReset(t, target));
    Enters(s1, BeginReset(t, target), t);
    SameBase(s, s1, s2, t, ResetBegun(target));
    hide Next, Deeper, SameLock, LockOk, Revoke, Enabled, CanEnter;
    ReadDeepens(s, s2, t, target, now);
    var s4 := Next(Next(s2, Tick(now)), ReadClock(t));
    RevokeDeepens(s, s4, t, target, now);
    var s5 := Next(s4, RevokePermits(t));
    NoOtherReset(s5, t);
    FinishGivesBack(s, s5, t, target, now);
  }

  lemma SameBase(s: State, a: State, b: State, t: Thread, f: Frame)
    requires Deeper(a, b, t, f) && a.owner == s.owner && a.depth == s.depth && a.stacks == s.stacks
    ensures Deeper(s, b, t, f)
  {}

  lemma NoOtherReset(s: State, t: Thread)
    requires s.ops == OpsInside(t)
    ensures forall u :: !Enabled(s, TakeOps(u))
  {}

  /** Executions and resets of different threads never overlap. */
  lemma NoOverlap(run: seq<State>, steps: seq<Step>, i: nat, t: Thread, u: Thread)
    requires IsRun(run, steps) && i < |run| && run[i].On(t) && run[i].On(u)
    ensures t == u
  {
    RunInv(run, steps, i);
  }
}
