/**
 The versioned vehicle state machine and its event log (agent/src/vehicle_agent/vehicle/state/machine.py,
 vehicle/state/events.py).
 */
module StateMachine {
  import opened Wrappers
  import opened VehicleModel

  datatype ActorKind = AGENT | OPERATOR_KIND | SIMULATOR_KIND | SYSTEM

  datatype Event = Event(id: string, correlation: string, sequence: int, previous: int, next: int, kind: ActorKind,
                         actor: string, occurredAt: Time, snapshot: VehicleState)

  /** Who asks, and under which expected version. */
  datatype Request = Request(kind: ActorKind, actor: string, correlation: string, expected: Option<int>)

  /** What the clock and uuid supply to one call. */
  datatype Tick = Tick(now: Time, eventId: string)

  datatype ApplyError =
    | EmptyMetadata | VersionConflict(expected: int, actual: int) | TransitionError | ValidationError(violation: Violation)
    | UnknownPreset | EventRejected

  datatype Machine = Machine(state: VehicleState, events: seq<Event>)

  datatype Outcome = Outcome(machine: Machine, result: Result<Event, ApplyError>)

  /** `StateChangedEvent.__post_init__` */
  predicate EventOk(e: Event) {
    && e.id != "" && e.correlation != "" && e.sequence >= 1 && e.previous >= 0 && e.next == e.previous + 1
    && e.actor != "" && e.occurredAt.offset == Some(0)
  }

  // ---- one call, on values --------------------------------------------------------------------------------

  /** The event for going to `next`, if its constructor accepts it. */
  function BuildEvent(events: seq<Event>, previous: int, next: VehicleState, r: Request, tick: Tick): Option<Event> {
    var e := Event(tick.eventId, r.correlation, |events| + 1, previous, previous + 1, r.kind, r.actor, tick.now, next);
    if EventOk(e) then Some(e) else None
  }

  /** The state is replaced first; the event may still be refused. */
  function Commit(m: Machine, next: VehicleState, r: Request, tick: Tick): Outcome {
    match BuildEvent(m.events, m.state.version, next, r, tick)
    case Some(e) => Outcome(Machine(next, m.events + [e]), Ok(e))
    case None => Outcome(Machine(next, m.events), Err(EventRejected))
  }

  /** Patch, stamp and validate, before anything changes. */
  function Prepare(s: VehicleState, patch: Patch, now: Time): Result<VehicleState, ApplyError> {
    match patch(s)
    case Raises => Err(TransitionError)
    case Violates(v) => Err(ValidationError(v))
    case Candidate(c) =>
      match Checked(Stamp(c, s.version + 1, now))
      case Candidate(next) => Ok(next)
      case Violates(v) => Err(ValidationError(v))
      case Raises => Err(TransitionError)
  }

  function Apply(m: Machine, patch: Patch, r: Request, tick: Tick): Outcome {
    if r.actor == "" || r.correlation == "" then Outcome(m, Err(EmptyMetadata))
    else if r.expected.Some? && r.expected.value != m.state.version
    then Outcome(m, Err(VersionConflict(r.expected.value, m.state.version)))
    else
      match Prepare(m.state, patch, tick.now)
      case Err(e) => Outcome(m, Err(e))
      case Ok(next) => Commit(m, next, r, tick)
  }

  /** A preset is a valid state; `get_preset` gives it the caller's version and times. */
  type Presets = map<string, VehicleState>

  function Reset(m: Machine, presets: Presets, preset: string, actor: string, correlation: string, tick: Tick): Outcome {
    var r := Request(SYSTEM, actor, correlation, None);
    if actor == "" || correlation == "" then Outcome(m, Err(EmptyMetadata))
    else if preset !in presets then Outcome(m, Err(UnknownPreset))
    else
      match Checked(FromPreset(presets[preset], m.state.version + 1, tick.now))
      case Candidate(next) => Commit(m, next, r, tick)
      case Violates(v) => Outcome(m, Err(ValidationError(v)))
      case Raises => Outcome(m, Err(TransitionError))
  }

  function FromPreset(s: VehicleState, version: int, now: Time): VehicleState {
    Stamp(s, version, now).(provenance := PresetProvenance(s.provenance, now))
  }

  /** `pip_provenance(PRESET, timestamp)`: every field observed now, from the preset, and available. */
  function PresetProvenance(ps: seq<Provenance>, now: Time): (r: seq<Provenance>)
    ensures |r| == |ps| && FieldNames(r) == FieldNames(ps)
    ensures forall p | p in r :: p.observedAt == now
  {
    if ps == [] then [] else [Provenance(ps[0].field, PRESET, now, true)] + PresetProvenance(ps[1..], now)
  }

  // ---- the objects --------------------------------------------------------------------------------------------

  lemma SuffixBySequence(events: seq<Event>, index: nat)
    requires index <= |events| && forall i | 0 <= i < |events| :: events[i].sequence == i + 1
    ensures forall e | e in events :: e in events[index..] <==> e.sequence > index
  {
    forall i | 0 <= i < |events| ensures events[i] in events[index..] <==> i >= index {
      if i >= index { assert events[index..][i - index] == events[i]; }
    }
  }

  class VehicleEventStore {
    var events: seq<Event>

    constructor ()
      ensures events == []
    {
      events := [];
    }

    method BuildAndAppend(previous: int, next: VehicleState, r: Request, tick: Tick) returns (e: Option<Event>)
      modifies this
      ensures e == BuildEvent(old(events), previous, next, r, tick)
      ensures events == if e.Some? then old(events) + [e.value] else old(events)
    {
      var sequence := |events| + 1;
      var event := Event(tick.eventId, r.correlation, sequence, previous, previous + 1, r.kind, r.actor, tick.now, next);
      if !EventOk(event) { return None; }
      events := events + [event];
      return Some(event);
    }

    /** Exactly the events at or after the sequence number, in order, when numbers are positions. */
    method ListSince(sequence: int) returns (r: seq<Event>)
      requires forall i | 0 <= i < |events| :: events[i].sequence == i + 1
      ensures r == if sequence <= 1 then events else if sequence - 1 <= |events| then events[sequence - 1..] else []
      ensures forall e | e in events :: e in r <==> e.sequence >= sequence
    {
      var index := if sequence - 1 < 0 then 0 else sequence - 1;
      if index > |events| { return []; }
      r := events[index..];
      SuffixBySequence(events, index);
    }
  }

  class VehicleStateMachine {
    var state: VehicleState
    const store: VehicleEventStore

    ghost function Contents(): Machine
      reads this, store
    {
      Machine.Machine(state, store.events)
    }

    constructor (initial: VehicleState)
      ensures Contents() == Machine.Machine(initial, []) && fresh(store)
    {
      state := initial;
      store := new VehicleEventStore();
    }

    method ApplyPatch(patch: Patch, r: Request, tick: Tick) returns (result: Result<Event, ApplyError>)
      modifies this, store
      ensures Outcome(Contents(), result) == Apply(old(Contents()), patch, r, tick)
    {
      if r.actor == "" || r.correlation == "" { return Err(EmptyMetadata); }
      var current := state;
      if r.expected.Some? && current.version != r.expected.value {
        return Err(VersionConflict(r.expected.value, current.version));
      }
      var previous := current.version;
      var candidate := patch(current);
      if candidate.Raises? { return Err(TransitionError); }
      if candidate.Violates? { return Err(ValidationError(candidate.violation)); }
      var stamped := Checked(Stamp(candidate.state, previous + 1, tick.now));
      if !stamped.Candidate? { return Err(if stamped.Violates? then ValidationError(stamped.violation) else TransitionError); }
      state := stamped.state;
      var e := store.BuildAndAppend(previous, state, r, tick);
      return if e.Some? then Ok(e.value) else Err(EventRejected);
    }

    method ResetTo(presets: Presets, preset: string, actor: string, correlation: string, tick: Tick)
      returns (result: Result<Event, ApplyError>)
      modifies this, store
      ensures Outcome(Contents(), result) == Reset(old(Contents()), presets, preset, actor, correlation, tick)
    {
      if actor == "" || correlation == "" { return Err(EmptyMetadata); }
      var previous := state.version;
      if preset !in presets { return Err(UnknownPreset); }
      var next := Checked(FromPreset(presets[preset], previous + 1, tick.now));
      if !next.Candidate? { return Err(if next.Violates? then ValidationError(next.violation) else TransitionError); }
      state := next.state;
      var e := store.BuildAndAppend(previous, state, Request(SYSTEM, actor, correlation, None), tick);
      return if e.Some? then Ok(e.value) else Err(EventRejected);
    }
  }

  // ---- runs ------------------------------------------------------------------------------------------------------

  datatype Op =
    | DoApply(patch: Patch, request: Request, tick: Tick)
    | DoReset(preset: string, actor: string, correlation: string, tick: Tick)

  function Execute(m: Machine, presets: Presets, op: Op): Outcome {
    match op
    case DoApply(patch, request, tick) => Apply(m, patch, request, tick)
    case DoReset(preset, actor, correlation, tick) => Reset(m, presets, preset, actor, correlation, tick)
  }

  ghost predicate IsRun(run: seq<Machine>, presets: Presets, ops: seq<Op>) {
    && |run| == |ops| + 1 && run[0].events == [] && Valid(run[0].state)
    && (forall k | k in presets :: Valid(presets[k]))
    && forall i | 0 <= i < |ops| :: Follows(run, presets, ops, i)
  }

  ghost predicate Follows(run: seq<Machine>, presets: Presets, ops: seq<Op>, i: nat)
    requires i < |ops| && |run| == |ops| + 1
  {
    run[i + 1] == Execute(run[i], presets, ops[i]).machine
  }

  predicate AllRegular(ops: seq<Op>) {
    forall i | 0 <= i < |ops| :: Regular(ops[i])
  }

  /** A UTC clock and a uuid. */
  predicate Regular(op: Op) {
    op.tick.now.offset == Some(0) && op.tick.eventId != ""
  }

  /** Event k takes version v0+k-1 to v0+k; the last snapshot is the current state; every snapshot is valid. */
  ghost predicate LogOk(m: Machine, v0: int) {
    && v0 >= 0 && Valid(m.state) && m.state.version == v0 + |m.events|
    && (m.events != [] ==> m.events[|m.events| - 1].snapshot == m.state)
    && forall k | 0 <= k < |m.events| :: EntryOk(m.events[k], k, v0)
  }

  ghost predicate EntryOk(e: Event, k: nat, v0: int) {
    && e.sequence == k + 1 && e.previous == v0 + k && e.next == v0 + k + 1
    && e.snapshot.version == e.next && Valid(e.snapshot)
  }

  lemma CommitLog(m: Machine, next: VehicleState, r: Request, tick: Tick, v0: int)
    requires LogOk(m, v0) && Valid(next) && next.version == m.state.version + 1
    requires r.actor != "" && r.correlation != "" && tick.now.offset == Some(0) && tick.eventId != ""
    ensures LogOk(Commit(m, next, r, tick).machine, v0) && Commit(m, next, r, tick).result.Ok?
    ensures Commit(m, next, r, tick).machine.events == m.events + [Commit(m, next, r, tick).result.value]
  {
    hide Valid;
  }

  /** A patch that yields a valid snapshot commits exactly one version. */
  lemma ValidPatchCommits(m: Machine, patch: Patch, r: Request, tick: Tick, c: VehicleState)
    requires m.state.version >= 0 && patch(m.state) == Candidate(c) && Valid(c)
    requires r.actor != "" && r.correlation != "" && r.expected == None
    requires tick.now.offset == Some(0) && tick.eventId != ""
    ensures var o := Apply(m, patch, r, tick);
            && o.result.Ok? && o.machine.state == Stamp(c, m.state.version + 1, tick.now) && Valid(o.machine.state)
            && o.machine.events == m.events + [o.result.value]
  {
    hide Valid, Stamp, Checked;
    StampValid(c, m.state.version + 1, tick.now);
    StampedIsChecked(Stamp(c, m.state.version + 1, tick.now));
  }

  lemma StampedIsChecked(s: VehicleState)
    requires Valid(s)
    ensures Checked(s) == Candidate(s)
  {
    hide StateFault;
  }

  /** One call: it either extends the log by one entry or, on any error, changes nothing at all. */
  lemma StepLog(m: Machine, presets: Presets, op: Op, v0: int)
    requires LogOk(m, v0) && Regular(op)
    ensures var o := Execute(m, presets, op);
            && LogOk(o.machine, v0)
            && (o.result.Err? ==> o.machine == m)
            && (o.result.Ok? ==> o.machine.events == m.events + [o.result.value])
  {
    hide LogOk, Commit, Valid, StateFault, PresetProvenance;
    match op
    case DoApply(patch, r, tick) =>
      var prepared := Prepare(m.state, patch, tick.now);
      if r.actor != "" && r.correlation != "" && prepared.Ok? { CommitLog(m, prepared.value, r, tick, v0); }
    case DoReset(preset, actor, correlation, tick) =>
      if actor != "" && correlation != "" && preset in presets {
        var next := FromPreset(presets[preset], m.state.version + 1, tick.now);
        if Checked(next).Candidate? { CommitLog(m, next, Request(SYSTEM, actor, correlation, None), tick, v0); }
      }
  }

  lemma RunStart(run: seq<Machine>, presets: Presets, ops: seq<Op>)
    requires IsRun(run, presets, ops)
    ensures |run| == |ops| + 1 && LogOk(run[0], run[0].state.version)
  {
    hide Follows, BodyFault, Complete;
  }

  lemma RunStep(run: seq<Machine>, presets: Presets, ops: seq<Op>, i: nat)
    requires IsRun(run, presets, ops) && AllRegular(ops) && i < |ops|
    ensures |run| == |ops| + 1 && run[i + 1] == Execute(run[i], presets, ops[i]).machine && Regular(ops[i])
  {
    hide Execute, Valid;
    assert Follows(run, presets, ops, i);
  }

  lemma {:induction false} LogTheorem(run: seq<Machine>, presets: Presets, ops: seq<Op>, i: nat)
    requires IsRun(run, presets, ops) && i < |run| && AllRegular(ops)
    ensures LogOk(run[i], run[0].state.version)
    decreases i
  {
    hide Execute, LogOk, Valid, IsRun, AllRegular, Regular;
    RunStart(run, presets, ops);
    if i > 0 {
      LogTheorem(run, presets, ops, i - 1);
      RunStep(run, presets, ops, i - 1);
      StepLog(run[i - 1], presets, ops[i - 1], run[0].state.version);
    }
  }

  lemma {:induction false} VersionsGrow(run: seq<Machine>, presets: Presets, ops: seq<Op>, i: nat, j: nat)
    requires IsRun(run, presets, ops) && i <= j < |run| && AllRegular(ops)
    ensures run[i].state.version <= run[j].state.version && run[i].events <= run[j].events
    decreases j
  {
    hide Execute, Valid, EntryOk, IsRun, AllRegular, Regular;
    RunStart(run, presets, ops);
    if i < j {
      VersionsGrow(run, presets, ops, i, j - 1);
      LogTheorem(run, presets, ops, j - 1);
      RunStep(run, presets, ops, j - 1);
      StepLog(run[j - 1], presets, ops[j - 1], run[0].state.version);
    }
  }

  /** Of several applies with one expected version at most one commits. */
  lemma OneWinner(run: seq<Machine>, presets: Presets, ops: seq<Op>, i: nat, j: nat)
    requires IsRun(run, presets, ops) && i < j < |ops| && AllRegular(ops)
    requires ops[i].DoApply? && ops[j].DoApply? && ops[i].request.expected.Some?
    requires ops[i].request.expected == ops[j].request.expected
    requires Execute(run[i], presets, ops[i]).result.Ok?
    ensures Execute(run[j], presets, ops[j]).result.Err? && run[j + 1] == run[j]
  {
    hide Prepare, Commit, Valid, EntryOk, IsRun, AllRegular, Regular;
    RunStep(run, presets, ops, i);
    RunStep(run, presets, ops, j);
    LogTheorem(run, presets, ops, i);
    LogTheorem(run, presets, ops, j);
    VersionsGrow(run, presets, ops, i + 1, j);
    StepLog(run[i], presets, ops[i], run[0].state.version);
    StepLog(run[j], presets, ops[j], run[0].state.version);
  }

  // ---- the verdict of one call ---------------------------------------------------------------------------------------

  /** `next` is `s` at the next version and the given time; every reading is of now, and nothing else differs. */
  ghost predicate RestampedAt(s: VehicleState, next: VehicleState, version: int, now: Time) {
    && next == s.(version := version, timestamp := now, provenance := next.provenance)
    && |next.provenance| == |s.provenance|
    && forall i | 0 <= i < |s.provenance| :: next.provenance[i] == s.provenance[i].(observedAt := now)
  }

  /** The call committed `next`: one event, whose fields are the caller's, the clock's and the old version's. */
  ghost predicate Committed(m: Machine, o: Outcome, next: VehicleState, r: Request, tick: Tick) {
    && o.machine == Machine(next, m.events + [Event(tick.eventId, r.correlation, |m.events| + 1, m.state.version,
                                                    m.state.version + 1, r.kind, r.actor, tick.now, next)])
    && o.result == Ok(o.machine.events[|m.events|])
  }

  /** `EventRejected` aside, a call that raises changes nothing. */
  ghost predicate Refuses(m: Machine, o: Outcome, e: ApplyError) {
    o == Outcome(m, Err(e))
  }

  lemma StampFault(c: VehicleState, version: int, now: Time)
    requires Valid(c) && version >= 0
    ensures RestampedAt(c, Stamp(c, version, now), version, now)
    ensures Checked(Stamp(c, version, now)) ==
            if now.offset.Some? then Candidate(Stamp(c, version, now)) else Violates(NAIVE_TIMESTAMP)
  {
    if now.offset.Some? {
      StampValid(c, version, now);
      StampedIsChecked(Stamp(c, version, now));
    }
    hide Complete, BodyFault, Restamp;
  }

  /** A commit with an event id and a UTC clock is logged; otherwise the state moves and the event is refused. */
  lemma CommitVerdict(m: Machine, next: VehicleState, r: Request, tick: Tick)
    requires m.state.version >= 0 && r.actor != "" && r.correlation != ""
    ensures var o := Commit(m, next, r, tick);
            if tick.now.offset == Some(0) && tick.eventId != "" then Committed(m, o, next, r, tick)
            else o == Outcome(Machine(next, m.events), Err(EventRejected))
  {}

  /**
   The whole verdict of `apply` on a valid state and a patch that builds valid snapshots: empty metadata, then a stale
   version, then the patch's own failure, then a naive clock; what is left commits exactly the patched state.
   */
  lemma ApplyVerdict(m: Machine, patch: Patch, r: Request, tick: Tick)
    requires Valid(m.state) && (patch(m.state).Candidate? ==> Valid(patch(m.state).state))
    ensures var o, version, patched := Apply(m, patch, r, tick), m.state.version, patch(m.state);
            if r.actor == "" || r.correlation == "" then Refuses(m, o, EmptyMetadata)
            else if r.expected.Some? && r.expected.value != version then Refuses(m, o, VersionConflict(r.expected.value, version))
            else if patched.Raises? then Refuses(m, o, TransitionError)
            else if patched.Violates? then Refuses(m, o, ValidationError(patched.violation))
            else if tick.now.offset.None? then Refuses(m, o, ValidationError(NAIVE_TIMESTAMP))
            else
              && RestampedAt(patched.state, o.machine.state, version + 1, tick.now)
              && if tick.now.offset == Some(0) && tick.eventId != "" then Committed(m, o, o.machine.state, r, tick)
                 else o.machine.events == m.events && o.result == Err(EventRejected)
  {
    VersionNat(m.state);
    var patched := patch(m.state);
    hide Commit, Valid, Checked, Stamp, RestampedAt, Committed;
    if patched.Candidate? {
      StampFault(patched.state, m.state.version + 1, tick.now);
      CommitAfter(m, Stamp(patched.state, m.state.version + 1, tick.now), r, tick);
    }
  }

  lemma CommitAfter(m: Machine, next: VehicleState, r: Request, tick: Tick)
    requires m.state.version >= 0
    ensures Commit(m, next, r, tick).machine.state == next
    ensures var o := Commit(m, next, r, tick);
            r.actor != "" && r.correlation != "" ==>
              if tick.now.offset == Some(0) && tick.eventId != "" then Committed(m, o, next, r, tick)
              else o.machine.events == m.events && o.result == Err(EventRejected)
  {
    if r.actor != "" && r.correlation != "" { CommitVerdict(m, next, r, tick); }
  }

  /** `next` is the preset at the next version; every reading comes from the preset, is of now, and counts as available. */
  ghost predicate PresetAt(s: VehicleState, next: VehicleState, version: int, now: Time) {
    && next == s.(version := version, timestamp := now, provenance := next.provenance)
    && |next.provenance| == |s.provenance|
    && forall i | 0 <= i < |s.provenance| :: next.provenance[i] == Provenance(s.provenance[i].field, PRESET, now, true)
  }

  lemma {:induction false} PresetReadings(ps: seq<Provenance>, now: Time)
    ensures forall i | 0 <= i < |ps| :: PresetProvenance(ps, now)[i] == Provenance(ps[i].field, PRESET, now, true)
  {
    if ps != [] { PresetReadings(ps[1..], now); }
  }

  lemma PresetFault(s: VehicleState, version: int, now: Time)
    requires Valid(s) && version >= 0
    ensures var next := FromPreset(s, version, now);
            && PresetAt(s, next, version, now)
            && Checked(next) == if now.offset.Some? then Candidate(next) else Violates(NAIVE_TIMESTAMP)
  {
    var next := FromPreset(s, version, now);
    PresetReadings(s.provenance, now);
    SameBody(s, next);
    hide BodyFault, Distinct, FieldNames, PresetProvenance;
    assert Complete(next.provenance) <==> Complete(s.provenance);
    hide Complete;
  }

  /** The whole verdict of `reset`: empty metadata, an unknown preset, a naive clock; what is left commits the preset. */
  lemma ResetVerdict(m: Machine, presets: Presets, preset: string, actor: string, correlation: string, tick: Tick)
    requires Valid(m.state) && (preset in presets ==> Valid(presets[preset]))
    ensures var o, version := Reset(m, presets, preset, actor, correlation, tick), m.state.version;
            if actor == "" || correlation == "" then Refuses(m, o, EmptyMetadata)
            else if preset !in presets then Refuses(m, o, UnknownPreset)
            else if tick.now.offset.None? then Refuses(m, o, ValidationError(NAIVE_TIMESTAMP))
            else
              && PresetAt(presets[preset], o.machine.state, version + 1, tick.now)
              && if tick.now.offset == Some(0) && tick.eventId != ""
                 then Committed(m, o, o.machine.state, Request(SYSTEM, actor, correlation, None), tick)
                 else o.machine.events == m.events && o.result == Err(EventRejected)
  {
    VersionNat(m.state);
    hide Commit, Valid, Checked, FromPreset, PresetAt, Committed;
    if preset in presets {
      PresetFault(presets[preset], m.state.version + 1, tick.now);
      CommitAfter(m, FromPreset(presets[preset], m.state.version + 1, tick.now), Request(SYSTEM, actor, correlation, None), tick);
    }
  }

  // ---- a clock that is not UTC ---------------------------------------------------------------------------------------

  /** The call would commit if its clock were UTC. */
  ghost predicate WouldCommit(m: Machine, patch: Patch, r: Request, tick: Tick) {
    && r.actor != "" && r.correlation != "" && (r.expected.None? || r.expected.value == m.state.version)
    && Prepare(m.state, patch, tick.now).Ok?
  }

  /**
   Atomicity is lost exactly when an aware but non-UTC clock lets the snapshot pass and the event constructor
   refuses: the new state is kept although the call raises and nothing is logged.
   */
  lemma AtomicExceptNonUtc(m: Machine, patch: Patch, r: Request, tick: Tick)
    requires Valid(m.state) && tick.eventId != ""
    ensures var o := Apply(m, patch, r, tick);
            && (o.result.Err? && o.machine != m <==> WouldCommit(m, patch, r, tick) && tick.now.offset != Some(0))
            && (WouldCommit(m, patch, r, tick) ==> tick.now.offset.Some?)
  {
    var prepared := Prepare(m.state, patch, tick.now);
    if prepared.Ok? {
      assert prepared.value.version == m.state.version + 1;
      assert prepared.value.timestamp == tick.now && HeaderFault(prepared.value) == None;
    }
    hide BodyFault, Complete;
  }

  /** A handler's clock in UTC+7: the call raises, yet the default state has become version 1, with an empty log. */
  lemma NonUtcHalfCommits()
    ensures var patch: Patch := (s: VehicleState) => Checked(s);
            var o := Apply(Machine(DefaultState(), []), patch, Request(AGENT, "handler", "proposal", None),
                           Tick(Time(1, Some(7)), "event"));
            o.result == Err(EventRejected) && o.machine.state.version == 1 && o.machine.events == []
  {
    hide Checked, Valid, Readings, Stamp;
    var s, now := DefaultState(), Time(1, Some(7));
    DefaultsValid(s.power, s.adas, s.modes);
    assert s == s.(power := s.power, adas := s.adas, modes := s.modes) && s.version == 0;
    hide DefaultState;
    StampValid(s, 1, now);
    StampedIsChecked(s);
    StampedIsChecked(Stamp(s, 1, now));
    RefusedEvent(s, now);
  }

  lemma RefusedEvent(s: VehicleState, now: Time)
    requires s.version == 0 && now.offset == Some(7) && Checked(s) == Candidate(s)
    requires Checked(Stamp(s, 1, now)) == Candidate(Stamp(s, 1, now))
    ensures var patch: Patch := (c: VehicleState) => Checked(c);
            var o := Apply(Machine(s, []), patch, Request(AGENT, "handler", "proposal", None), Tick(now, "event"));
            o.result == Err(EventRejected) && o.machine.state.version == 1 && o.machine.events == []
  {
    hide Checked;
  }
}
