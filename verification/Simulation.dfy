/**
 Operator batches (agent/src/vehicle_agent/simulation/controller.py) and compound behaviours
 (agent/src/vehicle_agent/vehicle/execution/generic.py): many edits folded into one transition.
 */
module Simulation {
  import opened Wrappers
  import opened VehicleModel
  import opened StateMachine

  /** A control that passed its own value check; without a word on it the driver counts as present. */
  datatype Control =
    | SetPower(on: bool) | SetGear(gear: Gear) | SetSpeed(kph: real) | SetRain(rain: bool) | SetLight(light: AmbientLight)
    | SetObstacle(detected: bool) | SetAttention(handOnWheel: bool, driverPresent: Option<bool>)

  /** Moving takes the vehicle out of PARK and releases the parking brake. */
  function Geared(t: Transmission, kph: real): Transmission {
    if kph > 0.0 then
      if t.gear == P then Transmission(D, false)
      else if t.epbEngaged then t.(epbEngaged := false) else t
    else t
  }

  function Edit(s: VehicleState, c: Control): VehicleState {
    match c
    case SetPower(on) => s.(power := s.power.(poweredOn := on))
    case SetGear(gear) => s.(transmission := s.transmission.(gear := gear))
    case SetSpeed(kph) =>
      s.(motion := Motion(kph, if kph > 0.0 then MOVING else STOPPED), transmission := Geared(s.transmission, kph))
    case SetRain(rain) => s.(environment := s.environment.(rain := Some(rain)))
    case SetLight(light) => s.(environment := s.environment.(ambient := light))
    case SetObstacle(detected) => s.(environment := s.environment.(obstacle := detected))
    case SetAttention(hand, present) =>
      s.(adas := s.adas.(handOnWheel := hand), environment := s.environment.(driverPresent := present.GetOr(true)))
  }

  /** `_apply_single_control`: the edited snapshot, or the invariant it violates. */
  function ApplyControl(s: VehicleState, c: Control): Patched {
    Checked(Edit(s, c))
  }

  function ApplyAll(s: VehicleState, cs: seq<Control>): Patched
    decreases cs
  {
    if cs == [] then Candidate(s) else
    match ApplyControl(s, cs[0])
    case Candidate(t) => ApplyAll(t, cs[1..])
    case Violates(v) => Violates(v)
    case Raises => Raises
  }

  /** The loop of the batch's patch function. */
  method PatchControls(s: VehicleState, cs: seq<Control>) returns (r: Patched)
    ensures r == ApplyAll(s, cs)
  {
    var result := s;
    var i := 0;
    while i < |cs|
      invariant 0 <= i <= |cs|
      invariant ApplyAll(s, cs) == ApplyAll(result, cs[i..])
    {
      assert cs[i..][1..] == cs[i + 1..];
      var next := ApplyControl(result, cs[i]);
      if !next.Candidate? { return next; }
      result := next.state;
      i := i + 1;
    }
    return Candidate(result);
  }

  /** Whatever the gear and the brake were, every speed from zero up can be set, and moving is physically consistent. */
  lemma SpeedAlwaysApplies(s: VehicleState, kph: real)
    requires Valid(s)
    ensures ApplyControl(s, SetSpeed(kph)).Candidate? <==> kph >= 0.0
    ensures var t := Edit(s, SetSpeed(kph)).transmission;
            && (kph > 0.0 ==> t.gear != P && !t.epbEngaged && (s.transmission.gear != P ==> t.gear == s.transmission.gear))
            && (kph == 0.0 ==> t == s.transmission)
  {
    var t := Edit(s, SetSpeed(kph));
    HeaderOnly(s, t);
    hide HeaderFault, AccessFault, ActionsFault, DuplicateIds;
  }

  /** Exactly these controls are refused on a valid state: PARK at speed, power off under active assistance, a negative speed. */
  lemma ControlAccepted(s: VehicleState, c: Control)
    requires Valid(s)
    ensures ApplyControl(s, c).Candidate? <==>
            match c
            case SetGear(gear) => gear == P ==> s.motion.speedKph == 0.0
            case SetPower(on) =>
              !on ==> && s.adas.acc != ACC_ACTIVE && !s.adas.hdaActive && s.adas.autopark == PARK_OFF
                      && forall a | a in s.actions :: a.intent !in {AAC, HDA, AUTOPARK}
            case SetSpeed(kph) => kph >= 0.0
            case _ => true
  {
    if c.SetSpeed? {
      SpeedAlwaysApplies(s, c.kph);
    } else {
      var t := Edit(s, c);
      EditWhole(s, c);
      ValidIsCoherent(s);
      ValidIsCoherent(t);
      hide Edit, CoherentHeader, CoherentDoors, Valid;
    }
  }

  lemma EditWhole(s: VehicleState, c: Control)
    requires !c.SetSpeed?
    ensures var t := Edit(s, c);
            && (CoherentHeader(t) <==> CoherentHeader(s)) && (CoherentGroups(t) <==> CoherentGroups(s))
            && t.actions == s.actions && t.motion == s.motion && t.adas == s.adas.(handOnWheel := t.adas.handOnWheel)
            && (t.transmission == if c.SetGear? then s.transmission.(gear := c.gear) else s.transmission)
            && t.power.poweredOn == if c.SetPower? then c.on else s.power.poweredOn
  {
    hide CoherentDoors, FieldNames, Distinct;
  }

  // ---- what a list of controls sets ------------------------------------------------------------------------

  function PowerSet(c: Control): Option<bool> { if c.SetPower? then Some(c.on) else None }
  function SpeedSet(c: Control): Option<real> { if c.SetSpeed? then Some(c.kph) else None }
  function RainSet(c: Control): Option<Option<bool>> { if c.SetRain? then Some(Some(c.rain)) else None }
  function LightSet(c: Control): Option<AmbientLight> { if c.SetLight? then Some(c.light) else None }
  function ObstacleSet(c: Control): Option<bool> { if c.SetObstacle? then Some(c.detected) else None }
  function HandSet(c: Control): Option<bool> { if c.SetAttention? then Some(c.handOnWheel) else None }

  function PresenceSet(c: Control): Option<bool> {
    if c.SetAttention? then Some(c.driverPresent != Some(false)) else None
  }

  /** `after` is what the last control in the list to set this field gives it, and `before` if none does. */
  ghost predicate LastSet<T>(cs: seq<Control>, sets: Control -> Option<T>, before: T, after: T) {
    && (forall i | 0 <= i < |cs| && sets(cs[i]).Some? ::
          (forall j | i < j < |cs| :: sets(cs[j]).None?) ==> after == sets(cs[i]).value)
    && ((forall i | 0 <= i < |cs| :: sets(cs[i]).None?) ==> after == before)
  }

  lemma FirstThenLast<T>(cs: seq<Control>, sets: Control -> Option<T>, before: T, after: T)
    requires cs != [] && LastSet(cs[1..], sets, sets(cs[0]).GetOr(before), after)
    ensures LastSet(cs, sets, before, after)
  {
    var rest := cs[1..];
    assert forall i | 0 <= i < |rest| :: rest[i] == cs[i + 1];
    assert forall i | 0 < i < |cs| :: cs[i] == rest[i - 1];
  }

  ghost predicate DrivesOff(cs: seq<Control>, from: nat) {
    exists j | from <= j < |cs| :: cs[j].SetSpeed? && cs[j].kph > 0.0
  }

  /** Out of PARK into DRIVE by a later positive speed; every other gear stays as last chosen. */
  ghost predicate GearAfter(cs: seq<Control>, before: Gear, after: Gear) {
    && (forall i | 0 <= i < |cs| && cs[i].SetGear? :: (forall j | i < j < |cs| :: !cs[j].SetGear?) ==>
          after == if cs[i].gear == P && DrivesOff(cs, i + 1) then D else cs[i].gear)
    && ((forall i | 0 <= i < |cs| :: !cs[i].SetGear?) ==> after == if before == P && DrivesOff(cs, 0) then D else before)
  }

  lemma FirstThenGear(cs: seq<Control>, before: Gear, after: Gear)
    requires cs != []
    requires var c := cs[0];
             var next := if c.SetGear? then c.gear else if c.SetSpeed? && c.kph > 0.0 && before == P then D else before;
             GearAfter(cs[1..], next, after)
    ensures GearAfter(cs, before, after)
  {
    var rest := cs[1..];
    assert forall i | 0 <= i < |rest| :: rest[i] == cs[i + 1];
    assert forall i | 0 < i < |cs| :: cs[i] == rest[i - 1];
    forall from: nat ensures DrivesOff(cs, from + 1) <==> DrivesOff(rest, from) {
      if DrivesOff(rest, from) {
        var j :| from <= j < |rest| && rest[j].SetSpeed? && rest[j].kph > 0.0;
        assert cs[j + 1] == rest[j];
      }
    }
    assert DrivesOff(cs, 0) <==> DrivesOff(cs, 1) || (cs[0].SetSpeed? && cs[0].kph > 0.0);
  }

  /** The whole effect of a list of controls, field by field. */
  ghost predicate Settled(s: VehicleState, cs: seq<Control>, s': VehicleState) {
    && LastSet(cs, PowerSet, s.power.poweredOn, s'.power.poweredOn)
    && LastSet(cs, SpeedSet, s.motion.speedKph, s'.motion.speedKph)
    && LastSet(cs, RainSet, s.environment.rain, s'.environment.rain)
    && LastSet(cs, LightSet, s.environment.ambient, s'.environment.ambient)
    && LastSet(cs, ObstacleSet, s.environment.obstacle, s'.environment.obstacle)
    && LastSet(cs, HandSet, s.adas.handOnWheel, s'.adas.handOnWheel)
    && LastSet(cs, PresenceSet, s.environment.driverPresent, s'.environment.driverPresent)
    && GearAfter(cs, s.transmission.gear, s'.transmission.gear)
    && (s'.transmission.epbEngaged <==> s.transmission.epbEngaged && !DrivesOff(cs, 0))
    && OnlyControllable(s, s')
  }

  /** Nothing but the fields an operator controls, the version and the times. */
  ghost predicate OnlyControllable(s: VehicleState, s': VehicleState) {
    && s' == s.(version := s'.version, timestamp := s'.timestamp, provenance := s'.provenance, power := s'.power,
                motion := s'.motion, transmission := s'.transmission, adas := s'.adas, environment := s'.environment)
    && s'.power == s.power.(poweredOn := s'.power.poweredOn)
    && s'.adas == s.adas.(handOnWheel := s'.adas.handOnWheel)
    && s'.environment.passengers == s.environment.passengers
  }

  lemma EditSets(s: VehicleState, c: Control)
    ensures var t := Edit(s, c);
            && t.power.poweredOn == PowerSet(c).GetOr(s.power.poweredOn)
            && t.motion.speedKph == SpeedSet(c).GetOr(s.motion.speedKph)
            && t.environment.rain == RainSet(c).GetOr(s.environment.rain)
            && t.environment.ambient == LightSet(c).GetOr(s.environment.ambient)
            && t.environment.obstacle == ObstacleSet(c).GetOr(s.environment.obstacle)
            && t.adas.handOnWheel == HandSet(c).GetOr(s.adas.handOnWheel)
            && t.environment.driverPresent == PresenceSet(c).GetOr(s.environment.driverPresent)
            && t.transmission.gear == (if c.SetGear? then c.gear
                                       else if c.SetSpeed? && c.kph > 0.0 && s.transmission.gear == P then D
                                       else s.transmission.gear)
            && (t.transmission.epbEngaged <==> s.transmission.epbEngaged && !(c.SetSpeed? && c.kph > 0.0))
            && OnlyControllable(s, t)
  {}

  lemma FirstThenRest(s: VehicleState, t: VehicleState, cs: seq<Control>, s': VehicleState)
    requires cs != [] && t == Edit(s, cs[0]) && Settled(t, cs[1..], s')
    ensures Settled(s, cs, s')
  {
    EditSets(s, cs[0]);
    hide Edit, LastSet, GearAfter;
    FirstThenLast(cs, PowerSet, s.power.poweredOn, s'.power.poweredOn);
    FirstThenLast(cs, SpeedSet, s.motion.speedKph, s'.motion.speedKph);
    FirstThenLast(cs, RainSet, s.environment.rain, s'.environment.rain);
    FirstThenLast(cs, LightSet, s.environment.ambient, s'.environment.ambient);
    FirstThenLast(cs, ObstacleSet, s.environment.obstacle, s'.environment.obstacle);
    FirstThenLast(cs, HandSet, s.adas.handOnWheel, s'.adas.handOnWheel);
    FirstThenLast(cs, PresenceSet, s.environment.driverPresent, s'.environment.driverPresent);
    FirstThenGear(cs, s.transmission.gear, s'.transmission.gear);
    FirstThenDrive(cs);
  }

  lemma FirstThenDrive(cs: seq<Control>)
    requires cs != []
    ensures DrivesOff(cs, 0) <==> DrivesOff(cs[1..], 0) || (cs[0].SetSpeed? && cs[0].kph > 0.0)
  {
    if DrivesOff(cs[1..], 0) {
      var j :| 0 <= j < |cs[1..]| && cs[1..][j].SetSpeed? && cs[1..][j].kph > 0.0;
      assert cs[j + 1] == cs[1..][j];
    }
  }

  /** Folding the controls one by one leaves every field as its last control says. */
  lemma {:induction false} ControlsSettle(s: VehicleState, cs: seq<Control>)
    requires ApplyAll(s, cs).Candidate?
    ensures Settled(s, cs, ApplyAll(s, cs).state)
    decreases cs
  {
    hide Edit, Settled, StateFault;
    if cs == [] {
      NothingSet(s);
    } else {
      ControlsSettle(Edit(s, cs[0]), cs[1..]);
      FirstThenRest(s, Edit(s, cs[0]), cs, ApplyAll(s, cs).state);
    }
  }

  lemma NothingSet(s: VehicleState)
    ensures Settled(s, [], s)
  {}

  // ---- one transition or many ------------------------------------------------------------------------------

  /** Who turns the controls; the empty correlation id stands for none. */
  datatype Operator = Operator(id: string, correlation: string)

  /** What the clock and uuid supply to one call of the controller. */
  datatype Moment = Moment(tick: Tick, nonce: string)

  /** `correlation_id or f"sim-ctrl-..."` */
  function CorrelationOf(who: Operator, nonce: string): (r: string)
    ensures r != "" && (who.correlation != "" ==> r == who.correlation)
  {
    if who.correlation == "" then "sim-ctrl-" + nonce else who.correlation
  }

  function BatchPatch(cs: seq<Control>): Patch {
    (s: VehicleState) => ApplyAll(s, cs)
  }

  function BatchRequest(who: Operator, nonce: string): Request {
    Request(OPERATOR_KIND, who.id, CorrelationOf(who, nonce), None)
  }

  /** `apply_controls`: the machine afterwards, and whether it succeeded. */
  function Batch(m: Machine, cs: seq<Control>, who: Operator, now: Moment): (Machine, bool) {
    if cs == [] then (m, true)
    else
      var o := Apply(m, BatchPatch(cs), BatchRequest(who, now.nonce), now.tick);
      (o.machine, o.result.Ok?)
  }

  /** The same controls, one transition each, up to the first failure. */
  function OneByOne(m: Machine, cs: seq<Control>, who: Operator, moments: seq<Moment>): Option<Machine>
    requires |moments| == |cs|
    decreases cs
  {
    if cs == [] then Some(m) else
    var first := Batch(m, [cs[0]], who, moments[0]);
    if first.1 then OneByOne(first.0, cs[1..], who, moments[1..]) else None
  }

  predicate UtcTick(t: Tick) {
    t.now.offset == Some(0) && t.eventId != ""
  }

  lemma EditCore(s: VehicleState, t: VehicleState, c: Control)
    requires Core(s) == Core(t)
    ensures Core(Edit(s, c)) == Core(Edit(t, c))
    ensures Edit(s, c).version == s.version && Edit(s, c).timestamp == s.timestamp && Edit(s, c).provenance == s.provenance
  {
    hide Restamp, Geared;
  }

  lemma HeaderOnly(s: VehicleState, s': VehicleState)
    requires s'.version == s.version && s'.timestamp == s.timestamp && s'.provenance == s.provenance
    ensures HeaderFault(s') == HeaderFault(s)
  {}

  lemma BodyOfCore(s: VehicleState, t: VehicleState)
    requires Core(s) == Core(t)
    ensures BodyFault(s) == BodyFault(t)
  {
    SameBody(s, Core(s));
    SameBody(t, Core(t));
    hide BodyFault, Restamp;
  }

  /** Two states that differ only in version and times accept the same control and stay that way. */
  lemma ControlCore(s: VehicleState, t: VehicleState, c: Control)
    requires Valid(s) && Valid(t) && Core(s) == Core(t)
    ensures ApplyControl(s, c).Candidate? <==> ApplyControl(t, c).Candidate?
    ensures ApplyControl(s, c).Candidate? ==> Core(ApplyControl(s, c).state) == Core(ApplyControl(t, c).state)
  {
    EditCore(s, t, c);
    EditCore(t, s, c);
    HeaderOnly(s, Edit(s, c));
    HeaderOnly(t, Edit(t, c));
    BodyOfCore(Edit(s, c), Edit(t, c));
    hide Edit, Core, HeaderFault, BodyFault;
  }

  /** A single transition succeeds exactly when its control does. */
  lemma SingleStep(m: Machine, c: Control, who: Operator, now: Moment)
    requires Valid(m.state) && UtcTick(now.tick) && who.id != ""
    ensures var (next, ok) := Batch(m, [c], who, now);
            && (ok <==> ApplyControl(m.state, c).Candidate?)
            && (ok ==> Valid(next.state) && Core(next.state) == Core(ApplyControl(m.state, c).state))
  {
    var edited := ApplyControl(m.state, c);
    assert ApplyAll(m.state, [c]) == edited by {
      assert [c][1..] == [];
    }
    if edited.Candidate? {
      StampValid(edited.state, m.state.version + 1, now.tick.now);
      CoreOfStamp(edited.state, m.state.version + 1, now.tick.now);
    }
    hide Edit, Core, StateFault, ApplyControl, ApplyAll, Restamp;
  }

  lemma {:induction false} OneByOneIsFold(m: Machine, s: VehicleState, cs: seq<Control>, who: Operator, moments: seq<Moment>)
    requires Valid(m.state) && Valid(s) && Core(m.state) == Core(s) && who.id != ""
    requires |moments| == |cs| && forall i | 0 <= i < |moments| :: UtcTick(moments[i].tick)
    ensures OneByOne(m, cs, who, moments).Some? <==> ApplyAll(s, cs).Candidate?
    ensures ApplyAll(s, cs).Candidate? ==> Core(OneByOne(m, cs, who, moments).value.state) == Core(ApplyAll(s, cs).state)
    decreases cs
  {
    if cs != [] {
      SingleStep(m, cs[0], who, moments[0]);
      ControlCore(m.state, s, cs[0]);
      var next := Batch(m, [cs[0]], who, moments[0]).0;
      hide Batch, Core, Edit;
      if ApplyControl(s, cs[0]).Candidate? {
        assert Valid(ApplyControl(s, cs[0]).state);
        OneByOneIsFold(next, ApplyControl(s, cs[0]).state, cs[1..], who, moments[1..]);
      }
    }
  }

  lemma {:induction false} ApplyAllValid(s: VehicleState, cs: seq<Control>)
    requires Valid(s) && ApplyAll(s, cs).Candidate?
    ensures Valid(ApplyAll(s, cs).state) && ApplyAll(s, cs).state.version == s.version
    decreases cs
  {
    hide ApplyControl, Valid;
    if cs != [] {
      ControlKeeps(s, cs[0]);
      ApplyAllValid(ApplyControl(s, cs[0]).state, cs[1..]);
    }
  }

  lemma ControlKeeps(s: VehicleState, c: Control)
    requires ApplyControl(s, c).Candidate?
    ensures Valid(ApplyControl(s, c).state) && ApplyControl(s, c).state.version == s.version
  {
    EditCore(s, s, c);
    hide Edit, StateFault, Core;
  }

  /** Without an operator id every transition is refused, one or many; a missing correlation id is made up. */
  lemma NamelessFails(m: Machine, cs: seq<Control>, who: Operator, now: Moment, moments: seq<Moment>)
    requires who.id == "" && |moments| == |cs|
    ensures Batch(m, cs, who, now) == (m, cs == [])
    ensures OneByOne(m, cs, who, moments) == if cs == [] then Some(m) else None
  {
    hide ApplyAll;
  }

  lemma NamedBatch(m: Machine, cs: seq<Control>, who: Operator, now: Moment)
    requires Valid(m.state) && UtcTick(now.tick) && who.id != ""
    ensures var (after, ok) := Batch(m, cs, who, now);
            && (ok <==> ApplyAll(m.state, cs).Candidate?) && (!ok ==> after == m)
            && (ok ==> Core(after.state) == Core(ApplyAll(m.state, cs).state) && Valid(after.state))
            && (ok && cs != [] ==> after.state.version == m.state.version + 1 && |after.events| == |m.events| + 1)
  {
    hide Core, ApplyControl, ApplyAll, Restamp, Valid, CorrelationOf, Checked;
    var folded := ApplyAll(m.state, cs);
    if cs == [] {
      NoControls(m.state);
    } else if folded.Candidate? {
      ApplyAllValid(m.state, cs);
      VersionNat(m.state);
      StampValid(folded.state, m.state.version + 1, now.tick.now);
      StampedIsChecked(Stamp(folded.state, m.state.version + 1, now.tick.now));
      CoreOfStamp(folded.state, m.state.version + 1, now.tick.now);
    }
  }

  lemma NoControls(s: VehicleState)
    ensures ApplyAll(s, []) == Candidate(s)
  {}

  /**
   A batch succeeds exactly when its controls succeed one by one, and then leaves the same vehicle, except for
   version, time stamps and observation times; when it fails nothing has changed, and it is one version.
   */
  lemma BatchRefinesOneByOne(m: Machine, cs: seq<Control>, who: Operator, now: Moment, moments: seq<Moment>)
    requires Valid(m.state) && UtcTick(now.tick)
    requires |moments| == |cs| && forall i | 0 <= i < |moments| :: UtcTick(moments[i].tick)
    ensures var (after, ok) := Batch(m, cs, who, now);
            && (ok <==> OneByOne(m, cs, who, moments).Some?)
            && (ok ==> Core(after.state) == Core(OneByOne(m, cs, who, moments).value.state))
            && (!ok ==> after == m)
            && (ok && cs != [] ==> after.state.version == m.state.version + 1 && |after.events| == |m.events| + 1)
  {
    hide OneByOne, Core, Batch, ApplyAll, Valid;
    if who.id == "" {
      NamelessFails(m, cs, who, now, moments);
    } else {
      OneByOneIsFold(m, m.state, cs, who, moments);
      NamedBatch(m, cs, who, now);
    }
  }

  lemma SettledCore(s: VehicleState, cs: seq<Control>, t: VehicleState, t': VehicleState)
    requires Settled(s, cs, t) && Core(t) == Core(t')
    ensures Settled(s, cs, t')
  {
    hide LastSet, GearAfter, Restamp;
  }

  /**
   After a successful batch every controllable field has the value its last control in the list gives it, or its old
   one; a positive speed takes the gear out of PARK and releases the brake; the vehicle moves exactly at a positive
   speed; and nothing else has changed but version and times.
   */
  lemma BatchSettles(m: Machine, cs: seq<Control>, who: Operator, now: Moment)
    requires Valid(m.state) && UtcTick(now.tick)
    ensures var (after, ok) := Batch(m, cs, who, now);
            ok ==> Settled(m.state, cs, after.state) && (after.state.motion.phase == MOVING <==> after.state.motion.speedKph > 0.0)
  {
    hide Settled, Core, ApplyAll, Batch, Valid;
    var (after, ok) := Batch(m, cs, who, now);
    if ok {
      if who.id == "" {
        NamelessFails(m, cs, who, now, seq(|cs|, _ => now));
        NothingSet(m.state);
        MovesWhenFast(m.state);
      } else {
        NamedBatch(m, cs, who, now);
        ControlsSettle(m.state, cs);
        SettledCore(m.state, cs, ApplyAll(m.state, cs).state, after.state);
        MovesWhenFast(after.state);
      }
    }
  }

  /** A successful batch is one event of the operator who asked, under the operator's own correlation id if there is one. */
  lemma BatchEvent(m: Machine, cs: seq<Control>, who: Operator, now: Moment)
    requires Valid(m.state) && UtcTick(now.tick) && cs != [] && Batch(m, cs, who, now).1
    ensures var after := Batch(m, cs, who, now).0;
            && |after.events| == |m.events| + 1 && m.events <= after.events
            && var e := after.events[|m.events|];
               && e.kind == OPERATOR_KIND && e.actor == who.id && (who.correlation != "" ==> e.correlation == who.correlation)
               && e.previous == m.state.version && e.next == m.state.version + 1 && e.snapshot == after.state
  {
    if ApplyAll(m.state, cs).Candidate? { ApplyAllValid(m.state, cs); }
    ApplyVerdict(m, BatchPatch(cs), BatchRequest(who, now.nonce), now.tick);
    hide Apply, Valid, ApplyAll, RestampedAt;
  }

  lemma MovesWhenFast(s: VehicleState)
    requires Valid(s)
    ensures s.motion.phase == MOVING <==> s.motion.speedKph > 0.0
  {
    ValidIsCoherent(s);
    hide CoherentHeader, CoherentDoors, CoherentWhole, Valid;
  }

  // ---- compound behaviours -----------------------------------------------------------------------------------

  /** A behaviour: one patch, or a list of behaviours to run in order. */
  datatype Behavior = Leaf(patch: Patch) | Compound(children: seq<Behavior>)

  function Mutate(s: VehicleState, b: Behavior): Patched
    decreases b
  {
    match b
    case Leaf(patch) => patch(s)
    case Compound(children) => MutateAll(s, children)
  }

  function MutateAll(s: VehicleState, bs: seq<Behavior>): Patched
    decreases bs
  {
    if |bs| == 0 then Candidate(s) else
    match Mutate(s, bs[0])
    case Candidate(t) => MutateAll(t, bs[1..])
    case Violates(v) => Violates(v)
    case Raises => Raises
  }

  /** `_apply_sub_config_state_mutation` with its loop over the children. */
  method ApplyBehavior(s: VehicleState, b: Behavior) returns (r: Patched)
    ensures r == Mutate(s, b)
    decreases b
  {
    match b
    case Leaf(patch) => return patch(s);
    case Compound(children) =>
      var cur := s;
      var i := 0;
      while i < |children|
        invariant 0 <= i <= |children|
        invariant MutateAll(s, children) == MutateAll(cur, children[i..])
      {
        assert children[i..][1..] == children[i + 1..];
        var next := ApplyBehavior(cur, children[i]);
        if !next.Candidate? { return next; }
        cur := next.state;
        i := i + 1;
      }
      return Candidate(cur);
  }

  function Leaves(b: Behavior): seq<Patch>
    decreases b
  {
    match b
    case Leaf(patch) => [patch]
    case Compound(children) => LeavesOf(children)
  }

  function LeavesOf(bs: seq<Behavior>): seq<Patch>
    decreases bs
  {
    if |bs| == 0 then [] else Leaves(bs[0]) + LeavesOf(bs[1..])
  }

  /** The patches applied from left to right; the first that fails ends it. */
  function Fold(s: VehicleState, patches: seq<Patch>): Patched
    decreases |patches|
  {
    if |patches| == 0 then Candidate(s) else
    match patches[0](s)
    case Candidate(t) => Fold(t, patches[1..])
    case Violates(v) => Violates(v)
    case Raises => Raises
  }

  lemma {:induction false} FoldAppend(s: VehicleState, a: seq<Patch>, b: seq<Patch>)
    ensures Fold(s, a + b) == match Fold(s, a) case Candidate(t) => Fold(t, b) case Violates(v) => Violates(v) case Raises => Raises
    decreases |a|
  {
    if |a| == 0 {
      assert a + b == b;
    } else {
      assert (a + b)[0] == a[0] && (a + b)[1..] == a[1..] + b;
      var r := a[0](s);
      if r.Candidate? { FoldAppend(r.state, a[1..], b); }
    }
  }

  /** However deeply it is nested, a compound behaviour is the left-to-right fold of its leaves. */
  lemma {:induction false} NestedIsFlat(s: VehicleState, b: Behavior)
    ensures Mutate(s, b) == Fold(s, Leaves(b))
    decreases b
  {
    match b
    case Leaf(patch) => assert [patch][1..] == [];
    case Compound(children) => NestedAllFlat(s, children);
  }

  lemma {:induction false} NestedAllFlat(s: VehicleState, bs: seq<Behavior>)
    ensures MutateAll(s, bs) == Fold(s, LeavesOf(bs))
    decreases bs
  {
    if |bs| > 0 {
      NestedIsFlat(s, bs[0]);
      FoldAppend(s, Leaves(bs[0]), LeavesOf(bs[1..]));
      var r := Mutate(s, bs[0]);
      if r.Candidate? { NestedAllFlat(r.state, bs[1..]); }
    }
  }
}
