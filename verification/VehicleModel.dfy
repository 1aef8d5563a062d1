/**
 The immutable vehicle state and its invariants (agent/src/vehicle_agent/vehicle/state/model.py). Every
 construction and every `replace` validates, so a value that exists is a valid one.
 */
module VehicleModel {
  import opened Wrappers

  /** A datetime: the instant it denotes, and its UTC offset unless it is naive. */
  datatype Time = Time(instant: int, offset: Option<int>)

  datatype Gear = P | R | N | D
  datatype MotionPhase = STOPPED | MOVING
  datatype LockState = Locked | Unlocked
  datatype DoorPosition = CLOSED | OPEN
  datatype LightMode = Off | On
  datatype AccState = ACC_OFF | STANDBY | ACC_ACTIVE | CANCELLED | FAULT
  datatype AutoparkState = PARK_OFF | PARK_ACTIVE
  datatype AmbientLight = Day | Night
  datatype Profile = Owner | Guest | Stranger
  datatype DriveMode = ECO | NORMAL | SPORT
  datatype ActionPhase = Started | Progress | Stopped | Failed | Completed
  datatype Source = PRESET | SIMULATOR | OPERATOR | VEHICLE_HANDLER
  datatype DoorId = DriverDoor | FrontPassengerDoor | RearLeftDoor | RearRightDoor | OtherDoor(name: string)

  datatype PipField =
    | speed | gear | epb | battery_pct | acc_state | hand_on_steeringwheel | profile | esc | avh | fog_light
    | hazard_light | highbeam_mode | lowbeam_mode | door_lock_state | rain_sensor | ambient_light | camp_mode_active
    | pet_mode_active | valet_mode_active | autopark_state

  const PIP_FIELDS: set<PipField> :=
    {speed, gear, epb, battery_pct, acc_state, hand_on_steeringwheel, profile, esc, avh, fog_light, hazard_light,
     highbeam_mode, lowbeam_mode, door_lock_state, rain_sensor, ambient_light, camp_mode_active, pet_mode_active,
     valet_mode_active, autopark_state}

  const REQUIRED_DOORS: set<DoorId> := {DriverDoor, FrontPassengerDoor, RearLeftDoor, RearRightDoor}

  datatype Provenance = Provenance(field: PipField, source: Source, observedAt: Time, available: bool)
  datatype Power = Power(poweredOn: bool, charging: bool, batteryPct: real)
  datatype Motion = Motion(speedKph: real, phase: MotionPhase)
  datatype Transmission = Transmission(gear: Gear, epbEngaged: bool)
  datatype Door = Door(id: DoorId, position: DoorPosition, lock: LockState)
  datatype Access = Access(doors: seq<Door>, trunkOpen: bool, bonnetOpen: bool, chargePortOpen: bool)
  datatype Lighting = Lighting(lowbeam: LightMode, highbeam: LightMode, fog: bool, hazard: bool, leftSignal: bool,
                               rightSignal: bool, cornering: bool, interior: bool)
  datatype Cabin = Cabin(profile: Profile, seatPosition: real, seatAngle: real, rearSeatFolded: bool, windowsOpen: bool,
                         sunroofOpen: bool, mirrorsFolded: bool, hudActive: bool)
  datatype Adas = Adas(acc: AccState, hdaActive: bool, autopark: AutoparkState, laneKeepAssist: bool, autoHighbeam: bool,
                       tcs: bool, esc: bool, avh: bool, handOnWheel: bool)
  datatype Modes = Modes(drive: DriveMode, creep: bool, camp: bool, pet: bool, valet: bool)
  datatype Environment = Environment(rain: Option<bool>, ambient: AmbientLight, obstacle: bool, driverPresent: bool,
                                     passengers: int)
  datatype Ui = Ui(notificationCenterOpen: bool)

  datatype Intent = AAC | HDA | AUTOPARK | CAMPMODE | OtherIntent(name: string)

  datatype ActiveAction = ActiveAction(id: string, intent: Intent, phase: ActionPhase, progress: real)

  datatype VehicleState = VehicleState(version: int, timestamp: Time, provenance: seq<Provenance>, power: Power,
                                       motion: Motion, transmission: Transmission, access: Access, lighting: Lighting,
                                       cabin: Cabin, adas: Adas, modes: Modes, environment: Environment, ui: Ui,
                                       actions: seq<ActiveAction>)

  datatype Violation =
    | NUMERIC_FIELD_OUT_OF_RANGE | MOTION_PHASE_MISMATCH | OPEN_DOOR_LOCKED | DUPLICATE_DOOR | INVALID_DOOR_COVERAGE
    | HDA_REQUIRES_ACTIVE_ACC | TCS_REQUIRES_ESC | SPECIAL_MODE_CONFLICT | INVALID_PASSENGER_COUNT
    | INVALID_ACTIVE_ACTION | INVALID_STATE_VERSION | NAIVE_TIMESTAMP | INCOMPLETE_PIP_PROVENANCE
    | FUTURE_FIELD_OBSERVATION | PARK_REQUIRES_STOPPED | POWER_OFF_ACTIVE_ADAS | DUPLICATE_ACTIVE_ACTION

  // ---- the groups' own constructors -----------------------------------------------------------------------

  function PowerFault(p: Power): Option<Violation> {
    if 0.0 <= p.batteryPct <= 100.0 then None else Some(NUMERIC_FIELD_OUT_OF_RANGE)
  }

  function MotionFault(m: Motion): Option<Violation> {
    if m.speedKph < 0.0 then Some(NUMERIC_FIELD_OUT_OF_RANGE)
    else if m.phase != (if m.speedKph > 0.0 then MOVING else STOPPED) then Some(MOTION_PHASE_MISMATCH) else None
  }

  function AccessFault(a: Access): Option<Violation> {
    if exists d | d in a.doors :: d.position == OPEN && d.lock == Locked then Some(OPEN_DOOR_LOCKED)
    else if exists i, j | 0 <= i < j < |a.doors| :: a.doors[i].id == a.doors[j].id then Some(DUPLICATE_DOOR)
    else if (set d | d in a.doors :: d.id) != REQUIRED_DOORS then Some(INVALID_DOOR_COVERAGE) else None
  }

  function CabinFault(c: Cabin): Option<Violation> {
    if 0.0 <= c.seatPosition <= 1.0 && 0.0 <= c.seatAngle <= 1.0 then None else Some(NUMERIC_FIELD_OUT_OF_RANGE)
  }

  function AdasFault(a: Adas): Option<Violation> {
    if a.hdaActive && a.acc != ACC_ACTIVE then Some(HDA_REQUIRES_ACTIVE_ACC)
    else if a.tcs && !a.esc then Some(TCS_REQUIRES_ESC) else None
  }

  function ModesFault(m: Modes): Option<Violation> {
    if (m.camp && m.pet) || (m.camp && m.valet) || (m.pet && m.valet) then Some(SPECIAL_MODE_CONFLICT) else None
  }

  function EnvironmentFault(e: Environment): Option<Violation> {
    if e.passengers < 0 then Some(INVALID_PASSENGER_COUNT) else None
  }

  function ActionFault(a: ActiveAction): Option<Violation> {
    if a.id == "" || a.intent == OtherIntent("") then Some(INVALID_ACTIVE_ACTION)
    else if a.progress < 0.0 || a.progress > 1.0 then Some(NUMERIC_FIELD_OUT_OF_RANGE) else None
  }

  function First(a: Option<Violation>, b: Option<Violation>): Option<Violation> {
    if a.Some? then a else b
  }

  function GroupFault(s: VehicleState): Option<Violation> {
    First(PowerFault(s.power), First(MotionFault(s.motion), First(AccessFault(s.access), First(CabinFault(s.cabin),
    First(AdasFault(s.adas), First(ModesFault(s.modes), EnvironmentFault(s.environment)))))))
  }

  // ---- the snapshot's own constructor -----------------------------------------------------------------------

  function HeaderFault(s: VehicleState): Option<Violation> {
    if s.version < 0 then Some(INVALID_STATE_VERSION)
    else if s.timestamp.offset.None? || exists p | p in s.provenance :: p.observedAt.offset.None? then Some(NAIVE_TIMESTAMP)
    else if !Complete(s.provenance) then Some(INCOMPLETE_PIP_PROVENANCE)
    else if exists p | p in s.provenance :: p.observedAt.instant > s.timestamp.instant then Some(FUTURE_FIELD_OBSERVATION)
    else None
  }

  /** Every PIP field exactly once. */
  predicate Complete(ps: seq<Provenance>) {
    Distinct(FieldNames(ps)) && (set f | f in FieldNames(ps)) == PIP_FIELDS
  }

  function FieldNames(ps: seq<Provenance>): seq<PipField> {
    if ps == [] then [] else [ps[0].field] + FieldNames(ps[1..])
  }

  predicate NeedsPower(i: Intent) {
    i.AAC? || i.HDA? || i.AUTOPARK?
  }

  function CrossFault(s: VehicleState): Option<Violation> {
    if s.transmission.gear == P && s.motion.speedKph != 0.0 then Some(PARK_REQUIRES_STOPPED)
    else if !s.power.poweredOn && (s.adas.acc == ACC_ACTIVE || s.adas.hdaActive || s.adas.autopark == PARK_ACTIVE
                                   || exists a | a in s.actions :: NeedsPower(a.intent)) then Some(POWER_OFF_ACTIVE_ADAS)
    else if DuplicateIds(s.actions) then Some(DUPLICATE_ACTIVE_ACTION)
    else None
  }

  predicate DuplicateIds(actions: seq<ActiveAction>) {
    actions != [] && (HasId(actions[1..], actions[0].id) || DuplicateIds(actions[1..]))
  }

  predicate HasId(actions: seq<ActiveAction>, id: string) {
    exists a :: a in actions && a.id == id
  }

  function ActionsFault(actions: seq<ActiveAction>): Option<Violation> {
    if actions == [] then None else First(ActionFault(actions[0]), ActionsFault(actions[1..]))
  }

  function BodyFault(s: VehicleState): Option<Violation> {
    First(GroupFault(s), First(ActionsFault(s.actions), CrossFault(s)))
  }

  /** Why `VehicleState(...)` or `replace(state, ...)` raises, if it does. */
  function StateFault(s: VehicleState): Option<Violation> {
    First(HeaderFault(s), BodyFault(s))
  }

  predicate Valid(s: VehicleState) {
    StateFault(s) == None
  }

  // ---- the same invariants as facts, without their order or codes ----------------------------------------------

  ghost predicate CoherentHeader(s: VehicleState) {
    && s.version >= 0 && s.timestamp.offset.Some?
    && (forall p | p in s.provenance :: p.observedAt.offset.Some? && p.observedAt.instant <= s.timestamp.instant)
    && (forall f :: f in PIP_FIELDS <==> f in FieldNames(s.provenance)) && Distinct(FieldNames(s.provenance))
  }

  ghost predicate CoherentDoors(a: Access) {
    && (forall d | d in a.doors :: d.position == OPEN ==> d.lock == Unlocked)
    && (forall id :: id in REQUIRED_DOORS <==> exists d :: d in a.doors && d.id == id)
    && (forall i, j | 0 <= i < |a.doors| && 0 <= j < |a.doors| && i != j :: a.doors[i].id != a.doors[j].id)
  }

  ghost predicate CoherentGroups(s: VehicleState) {
    && 0.0 <= s.power.batteryPct <= 100.0 && 0.0 <= s.motion.speedKph
    && (s.motion.phase == MOVING <==> s.motion.speedKph > 0.0) && CoherentDoors(s.access)
    && 0.0 <= s.cabin.seatPosition <= 1.0 && 0.0 <= s.cabin.seatAngle <= 1.0
    && (s.adas.hdaActive ==> s.adas.acc == ACC_ACTIVE) && (s.adas.tcs ==> s.adas.esc)
    && (s.modes.camp ==> !s.modes.pet && !s.modes.valet) && !(s.modes.pet && s.modes.valet)
    && s.environment.passengers >= 0
  }

  ghost predicate CoherentWhole(s: VehicleState) {
    && (s.transmission.gear == P ==> s.motion.speedKph == 0.0)
    && (forall a | a in s.actions :: a.id != "" && a.intent != OtherIntent("") && 0.0 <= a.progress <= 1.0)
    && !DuplicateIds(s.actions)
    && (!s.power.poweredOn ==>
          && s.adas.acc != ACC_ACTIVE && !s.adas.hdaActive && s.adas.autopark == PARK_OFF
          && forall a | a in s.actions :: !NeedsPower(a.intent))
  }

  lemma {:induction false} ActionsMeaning(actions: seq<ActiveAction>)
    ensures ActionsFault(actions) == None <==> forall a | a in actions :: ActionFault(a) == None
  {
    if actions != [] {
      ActionsMeaning(actions[1..]);
      assert forall a :: a in actions <==> a == actions[0] || a in actions[1..];
    }
  }

  lemma HeaderMeaning(s: VehicleState)
    ensures HeaderFault(s) == None <==> CoherentHeader(s)
  {
    var names := FieldNames(s.provenance);
    assert (set f | f in names) == PIP_FIELDS <==> forall f :: f in PIP_FIELDS <==> f in names;
    hide FieldNames, Distinct;
  }

  lemma DoorsMeaning(a: Access)
    ensures AccessFault(a) == None <==> CoherentDoors(a)
  {
    var ids := set d | d in a.doors :: d.id;
    assert forall id :: id in ids <==> exists d :: d in a.doors && d.id == id;
    assert ids == REQUIRED_DOORS <==> forall id :: id in REQUIRED_DOORS <==> id in ids;
  }

  lemma GroupsMeaning(s: VehicleState)
    ensures GroupFault(s) == None <==> CoherentGroups(s)
  {
    DoorsMeaning(s.access);
    hide AccessFault, CoherentDoors;
  }

  lemma WholeMeaning(s: VehicleState)
    ensures ActionsFault(s.actions) == None && CrossFault(s) == None <==> CoherentWhole(s)
  {
    ActionsMeaning(s.actions);
    hide ActionsFault, DuplicateIds;
  }

  /** The validating constructors accept exactly the coherent snapshots. */
  lemma ValidIsCoherent(s: VehicleState)
    ensures Valid(s) <==> CoherentHeader(s) && CoherentGroups(s) && CoherentWhole(s)
  {
    HeaderMeaning(s);
    GroupsMeaning(s);
    WholeMeaning(s);
    hide HeaderFault, GroupFault, ActionsFault, CrossFault, CoherentHeader, CoherentGroups, CoherentWhole;
  }

  lemma VersionNat(s: VehicleState)
    requires Valid(s)
    ensures s.version >= 0
  {
    hide BodyFault, Complete;
  }

  // ---- patches -------------------------------------------------------------------------------------------------

  /** What a patch function does: a new snapshot, a violated invariant, or any other exception. */
  datatype Patched = Candidate(state: VehicleState) | Violates(violation: Violation) | Raises

  type Patch = VehicleState -> Patched

  /** `replace(...)`: the new snapshot if it is valid. */
  function Checked(s: VehicleState): (r: Patched)
    ensures r.Candidate? ==> r.state == s && Valid(s)
  {
    match StateFault(s)
    case Some(v) => Violates(v)
    case None => Candidate(s)
  }

  /** Refresh every field's observation time, keeping source and availability. */
  function Restamp(ps: seq<Provenance>, now: Time): (r: seq<Provenance>)
    ensures |r| == |ps| && forall i | 0 <= i < |ps| :: r[i] == ps[i].(observedAt := now)
    ensures FieldNames(r) == FieldNames(ps)
  {
    if ps == [] then [] else [ps[0].(observedAt := now)] + Restamp(ps[1..], now)
  }

  /** New version, time stamp and observation times for a candidate. */
  function Stamp(s: VehicleState, version: int, now: Time): VehicleState {
    s.(version := version, timestamp := now, provenance := Restamp(s.provenance, now))
  }

  /** Everything but version and times. */
  function Core(s: VehicleState): VehicleState {
    Stamp(s, 0, Time(0, Some(0)))
  }

  lemma StampValid(s: VehicleState, version: int, now: Time)
    requires Valid(s) && version >= 0 && now.offset.Some?
    ensures Valid(Stamp(s, version, now))
  {
    hide BodyFault;
    SameBody(s, Stamp(s, version, now));
  }

  /** The body's checks do not look at version and times. */
  lemma SameBody(s: VehicleState, t: VehicleState)
    requires t == s.(version := t.version, timestamp := t.timestamp, provenance := t.provenance)
    ensures BodyFault(t) == BodyFault(s)
  {
    hide PowerFault, MotionFault, AccessFault, CabinFault, AdasFault, ModesFault, EnvironmentFault, ActionsFault;
  }

  lemma RestampTwice(ps: seq<Provenance>, a: Time, b: Time)
    ensures Restamp(Restamp(ps, a), b) == Restamp(ps, b)
  {}

  lemma CoreOfStamp(s: VehicleState, version: int, now: Time)
    ensures Core(Stamp(s, version, now)) == Core(s)
  {
    RestampTwice(s.provenance, now, Time(0, Some(0)));
  }

  // ---- the default snapshot --------------------------------------------------------------------------------------

  const EPOCH: Time := Time(0, Some(0))

  /** The PIP fields in the order of their names. */
  const FIELDS_BY_NAME: seq<PipField> :=
    [acc_state, ambient_light, autopark_state, avh, battery_pct, camp_mode_active, door_lock_state, epb, esc, fog_light,
     gear, hand_on_steeringwheel, hazard_light, highbeam_mode, lowbeam_mode, pet_mode_active, profile, rain_sensor, speed,
     valet_mode_active]

  /** `pip_provenance` */
  function Readings(fields: seq<PipField>, source: Source, at: Time): (r: seq<Provenance>)
    ensures FieldNames(r) == fields
    ensures forall p | p in r :: p.observedAt == at
  {
    if fields == [] then [] else [Provenance(fields[0], source, at, true)] + Readings(fields[1..], source, at)
  }

  const DEFAULT_ACCESS: Access :=
    Access([Door(DriverDoor, CLOSED, Locked), Door(FrontPassengerDoor, CLOSED, Locked), Door(RearLeftDoor, CLOSED, Locked),
            Door(RearRightDoor, CLOSED, Locked)], false, false, false)

  /** Parked, locked and powered off. */
  function DefaultState(): VehicleState {
    VehicleState(0, EPOCH, Readings(FIELDS_BY_NAME, PRESET, EPOCH), Power(false, false, 100.0), Motion(0.0, STOPPED),
                 Transmission(P, true), DEFAULT_ACCESS, Lighting(Off, Off, false, false, false, false, false, false),
                 Cabin(Owner, 0.5, 0.5, false, false, false, false, true),
                 Adas(ACC_OFF, false, PARK_OFF, false, false, true, true, false, true),
                 Modes(NORMAL, false, false, false, false), Environment(Some(false), Day, false, true, 0), Ui(false), [])
  }

  /** The preset `parked_ready`. */
  function ParkedReady(): VehicleState {
    DefaultState().(power := Power(true, false, 100.0))
  }

  function Rank(f: PipField): nat {
    match f
    case acc_state => 0 case ambient_light => 1 case autopark_state => 2 case avh => 3 case battery_pct => 4
    case camp_mode_active => 5 case door_lock_state => 6 case epb => 7 case esc => 8 case fog_light => 9 case gear => 10
    case hand_on_steeringwheel => 11 case hazard_light => 12 case highbeam_mode => 13 case lowbeam_mode => 14
    case pet_mode_active => 15 case profile => 16 case rain_sensor => 17 case speed => 18 case valet_mode_active => 19
  }

  lemma FieldsByNameComplete()
    ensures Distinct(FIELDS_BY_NAME) && forall f :: f in FIELDS_BY_NAME
  {
    assert forall i | 0 <= i < |FIELDS_BY_NAME| :: Rank(FIELDS_BY_NAME[i]) == i;
    forall f: PipField ensures f in FIELDS_BY_NAME { assert FIELDS_BY_NAME[Rank(f)] == f; }
  }

  lemma AllFieldsArePip()
    ensures forall f :: f in PIP_FIELDS
  {
    forall f: PipField ensures f in PIP_FIELDS { assert f.speed? || !f.speed?; }
  }

  lemma DefaultDoors()
    ensures CoherentDoors(DEFAULT_ACCESS)
  {
    var doors := DEFAULT_ACCESS.doors;
    assert doors[0].id == DriverDoor && doors[1].id == FrontPassengerDoor && doors[2].id == RearLeftDoor
           && doors[3].id == RearRightDoor;
  }

  lemma ReadingsHeader(s: VehicleState, fields: seq<PipField>)
    requires s.version >= 0 && s.timestamp.offset.Some? && s.provenance == Readings(fields, PRESET, s.timestamp)
    requires Distinct(fields) && forall f :: f in fields
    ensures CoherentHeader(s)
  {
    AllFieldsArePip();
    hide Distinct, FieldNames;
  }

  /** The default snapshot is valid, and stays so under any change of its power, ADAS and mode groups that keeps the
      rules about them. */
  lemma DefaultsValid(power: Power, adas: Adas, modes: Modes)
    requires 0.0 <= power.batteryPct <= 100.0 && (adas.hdaActive ==> adas.acc == ACC_ACTIVE) && (adas.tcs ==> adas.esc)
    requires ModesFault(modes) == None
    requires power.poweredOn || (adas.acc != ACC_ACTIVE && adas.autopark == PARK_OFF)
    ensures Valid(DefaultState().(power := power, adas := adas, modes := modes))
  {
    hide Readings, CoherentDoors, CoherentHeader, Valid;
    var s := DefaultState().(power := power, adas := adas, modes := modes);
    FieldsByNameComplete();
    ReadingsHeader(s, FIELDS_BY_NAME);
    DefaultDoors();
    ValidIsCoherent(s);
  }
}
