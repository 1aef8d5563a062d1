/**
 Active actions across vehicle state and registry: starting a bridged action and the fail-safe stop handlers
 (agent/src/vehicle_agent/behaviors/hero/_active_action_common.py, active_driving_assist.py,
 autopark_campmode.py), which call back into the registry.
 */
module Cascade {
  import opened Wrappers
  import opened VehicleModel
  import SM = StateMachine
  import A = ActiveActions

  datatype World = World(machine: SM.Machine, reg: A.Registry)

  // ---- the patches ---------------------------------------------------------------------------------------------

  datatype Drop = ById(id: string) | ByIntent(intent: Intent)

  predicate Dropped(d: Drop, a: ActiveAction) {
    match d
    case ById(id) => a.id == id
    case ByIntent(intent) => a.intent == intent
  }

  /** `drop_active_action` and its variant by intent. */
  function Without(actions: seq<ActiveAction>, d: Drop): (r: seq<ActiveAction>)
    ensures forall a :: a in r <==> a in actions && !Dropped(d, a)
    ensures ActionsFault(actions) == None ==> ActionsFault(r) == None
    ensures !DuplicateIds(actions) ==> !DuplicateIds(r)
    ensures (forall a | a in actions :: !Dropped(d, a)) ==> r == actions
  {
    if actions == [] then [] else
    var rest := Without(actions[1..], d);
    if Dropped(d, actions[0]) then rest else [actions[0]] + rest
  }

  function HdaOff(s: VehicleState, id: string): VehicleState {
    s.(adas := s.adas.(hdaActive := false), actions := Without(s.actions, ById(id)))
  }

  /** HDA goes off in the same transition, and with it every HDA entry. */
  function AacCancelled(s: VehicleState, id: string): VehicleState {
    var remaining := Without(s.actions, ById(id));
    s.(adas := s.adas.(acc := CANCELLED, hdaActive := false),
       actions := if s.adas.hdaActive then Without(remaining, ByIntent(HDA)) else remaining)
  }

  function AutoparkOff(s: VehicleState, id: string): VehicleState {
    s.(adas := s.adas.(autopark := PARK_OFF), actions := Without(s.actions, ById(id)))
  }

  function CampOff(s: VehicleState, id: string): VehicleState {
    s.(modes := s.modes.(camp := false), actions := Without(s.actions, ById(id)))
  }

  predicate Bridged(i: Intent) {
    i.AAC? || i.HDA? || i.AUTOPARK? || i.CAMPMODE?
  }

  function StopPatch(s: VehicleState, intent: Intent, id: string): VehicleState {
    match intent
    case AAC => AacCancelled(s, id)
    case HDA => HdaOff(s, id)
    case AUTOPARK => AutoparkOff(s, id)
    case CAMPMODE => CampOff(s, id)
    case OtherIntent(_) => s
  }

  /** The guard before a wasted transition; AAC has none. */
  predicate AlreadyOff(s: VehicleState, intent: Intent, id: string) {
    match intent
    case AAC => false
    case HDA => !s.adas.hdaActive && !HasId(s.actions, id)
    case AUTOPARK => s.adas.autopark == PARK_OFF && !HasId(s.actions, id)
    case CAMPMODE => !s.modes.camp && !HasId(s.actions, id)
    case OtherIntent(_) => true
  }

  const STOP_REQUEST := SM.Request(SM.SYSTEM, "guardrail_monitor_stop", "monitor_stop", None)

  function ApplyStop(m: SM.Machine, intent: Intent, id: string, tick: SM.Tick): SM.Outcome {
    SM.Apply(m, (s: VehicleState) => Checked(StopPatch(s, intent, id)), STOP_REQUEST, tick)
  }

  // ---- stop handlers, re-entrant through the registry ---------------------------------------------------------------

  function RunningSet(reg: A.Registry): set<string> {
    set id | id in reg.records && A.Running(reg.records[id])
  }

  predicate Ending(phase: ActionPhase) {
    phase.Stopped? || phase.Failed?
  }

  lemma EndShrinks(reg: A.Registry, id: string, phase: ActionPhase, reason: Option<A.Reason>, turn: string)
    requires A.IdsOk(reg) && A.IsRunning(reg, id) && Ending(phase)
    ensures A.IdsOk(A.EndAs(reg, id, phase, reason, turn))
    ensures RunningSet(A.EndAs(reg, id, phase, reason, turn)) == RunningSet(reg) - {id}
    ensures |RunningSet(A.EndAs(reg, id, phase, reason, turn))| < |RunningSet(reg)|
  {
    assert id in RunningSet(reg);
  }

  /** `stop_action` or `fail_action`: end the record, then run its handler with the lock released. */
  function EndAction(w: World, id: string, phase: ActionPhase, reason: A.Reason, turn: string, tick: SM.Tick): (w': World)
    requires A.IdsOk(w.reg) && Ending(phase)
    ensures A.IdsOk(w'.reg)
    decreases |RunningSet(w.reg)|, 0
  {
    if A.EndFault(w.reg, id).Some? then w
    else
      EndShrinks(w.reg, id, phase, Some(reason), turn);
      Handle(World(w.machine, A.EndAs(w.reg, id, phase, Some(reason), turn)),
             A.Ended(w.reg, id, phase, Some(reason), turn), reason, tick)
  }

  /** The registered stop handler; whatever it raises is swallowed. */
  function Handle(w: World, r: A.Record, reason: A.Reason, tick: SM.Tick): (w': World)
    requires A.IdsOk(w.reg)
    ensures A.IdsOk(w'.reg)
    decreases |RunningSet(w.reg)|, 2
  {
    if reason.SupersededByNewStart? || AlreadyOff(w.machine.state, r.intent, r.id) then w
    else
      var o := ApplyStop(w.machine, r.intent, r.id, tick);
      if r.intent.AAC? && o.result.Ok? && w.machine.state.adas.hdaActive
      then CascadeHda(World(o.machine, w.reg), r, reason, tick) else World(o.machine, w.reg)
  }

  /** The registry's HDA record of the same session is stopped too. */
  function CascadeHda(w: World, r: A.Record, reason: A.Reason, tick: SM.Tick): (w': World)
    requires A.IdsOk(w.reg)
    ensures A.IdsOk(w'.reg)
    decreases |RunningSet(w.reg)|, 1
  {
    match A.GetRunning(w.reg, r.session, HDA)
    case None => w
    case Some(h) => EndAction(w, h.id, Stopped, A.CascadedFromAac(reason), r.turn, tick)
  }

  // ---- stop transitions always commit -----------------------------------------------------------------------------

  predicate UtcTick(t: SM.Tick) {
    t.now.offset == Some(0) && t.eventId != ""
  }

  /** Switching features off and dropping entries violates nothing. */
  lemma StopPatchValid(s: VehicleState, intent: Intent, id: string)
    requires Valid(s)
    ensures Valid(StopPatch(s, intent, id))
  {
    var t := StopPatch(s, intent, id);
    SameHeader(s, t);
    assert GroupFault(t) == None by { hide PowerFault, MotionFault, AccessFault, CabinFault, EnvironmentFault, Without; }
    assert ActionsFault(t.actions) == None && !DuplicateIds(t.actions) && forall a | a in t.actions :: a in s.actions;
    hide Without, GroupFault, HeaderFault;
  }

  lemma SameHeader(s: VehicleState, t: VehicleState)
    requires t.version == s.version && t.timestamp == s.timestamp && t.provenance == s.provenance
    ensures HeaderFault(t) == HeaderFault(s)
  {}

  lemma StopCommits(m: SM.Machine, intent: Intent, id: string, tick: SM.Tick)
    requires Valid(m.state) && UtcTick(tick)
    ensures var o := ApplyStop(m, intent, id, tick);
            && o.result.Ok? && o.machine.state == Stamp(StopPatch(m.state, intent, id), m.state.version + 1, tick.now)
            && o.machine.state.actions == StopPatch(m.state, intent, id).actions
            && o.machine.events == m.events + [o.result.value] && Valid(o.machine.state)
  {
    StopPatchValid(m.state, intent, id);
    var patched := StopPatch(m.state, intent, id);
    SM.StampedIsChecked(patched);
    VersionNat(m.state);
    hide StopPatch, Valid, SM.Apply, Checked;
    SM.ValidPatchCommits(m, (s: VehicleState) => Checked(StopPatch(s, intent, id)), STOP_REQUEST, tick, patched);
  }

  // ---- starting, resetting ------------------------------------------------------------------------------------------

  function StartPatch(s: VehicleState, intent: Intent, id: string): VehicleState {
    s.(actions := Without(s.actions, ByIntent(intent)) + [ActiveAction(id, intent, Started, 0.0)],
       modes := if intent.CAMPMODE? then s.modes.(camp := true) else s.modes)
  }

  const START_REQUEST := SM.Request(SM.AGENT, "handler", "proposal", None)
  const ROLLBACK_REQUEST := SM.Request(SM.SYSTEM, "registry_start_rollback", "rollback", None)

  /** The bridged handler: entry first, then the record; if the registry refuses, the entry is taken out again. */
  function StartBridged(w: World, r: A.Record, registryFails: bool, tick: SM.Tick): World
    requires A.IdsOk(w.reg)
  {
    var o := SM.Apply(w.machine, (s: VehicleState) => Checked(StartPatch(s, r.intent, r.id)), START_REQUEST, tick);
    if o.result.Err? then World(o.machine, w.reg)
    else if registryFails then World(RolledBack(o.machine, r.id, tick), w.reg)
    else World(o.machine, A.StartAction(w.reg, r))   // a superseded run's handler returns at once
  }

  function RolledBack(m: SM.Machine, id: string, tick: SM.Tick): SM.Machine {
    SM.Apply(m, (s: VehicleState) => Checked(s.(actions := Without(s.actions, ById(id)))), ROLLBACK_REQUEST, tick).machine
  }

  /** `reset_and_cleanup`: stop the records under the lock, then run their handlers one after the other. */
  function ResetActions(w: World, session: Option<string>, reason: A.Reason, turn: string, tick: SM.Tick): World
    requires A.IdsOk(w.reg)
  {
    var ids := A.RunningIds(w.reg, w.reg.order, session);
    StopAllIds(w.reg, ids, reason, turn);
    HandleAll(World(w.machine, A.StopAll(w.reg, ids, reason, turn)), ids, reason, tick)
  }

  lemma {:induction false} StopAllIds(reg: A.Registry, ids: seq<string>, reason: A.Reason, turn: string)
    requires A.IdsOk(reg)
    ensures A.IdsOk(A.StopAll(reg, ids, reason, turn))
    decreases ids
  {
    if ids != [] {
      if ids[0] in reg.records {
        StopAllIds(A.EndAs(reg, ids[0], Stopped, Some(reason), turn), ids[1..], reason, turn);
      } else {
        StopAllIds(reg, ids[1..], reason, turn);
      }
    }
  }

  function HandleAll(w: World, ids: seq<string>, reason: A.Reason, tick: SM.Tick): World
    requires A.IdsOk(w.reg)
    decreases ids
  {
    if ids == [] then w
    else if ids[0] !in w.reg.records then HandleAll(w, ids[1..], reason, tick)
    else HandleAll(Handle(w, w.reg.records[ids[0]], reason, tick), ids[1..], reason, tick)
  }

  // ---- agreement of state and registry -----------------------------------------------------------------------------------

  /** A bridged entry belongs to a running record of its intent, or to one whose handler is still to run. */
  ghost predicate Backed(reg: A.Registry, a: ActiveAction, pending: set<string>) {
    && (a.id in reg.records ==> reg.records[a.id].intent == a.intent)
    && (Bridged(a.intent) ==> a.id in reg.records && (A.Running(reg.records[a.id]) || a.id in pending))
  }

  ghost predicate Agree(w: World, pending: set<string>) {
    forall a | a in w.machine.state.actions :: Backed(w.reg, a, pending)
  }

  ghost predicate WorldOk(w: World) {
    Valid(w.machine.state) && A.IndexOk(w.reg)
  }

  /** What a stop transition does to the entries: the stopped one is gone and nothing is new. */
  lemma StopDrops(s: VehicleState, intent: Intent, id: string)
    requires Bridged(intent)
    ensures forall a | a in StopPatch(s, intent, id).actions :: a in s.actions && a.id != id
    ensures intent.AAC? && s.adas.hdaActive ==> forall a | a in StopPatch(s, intent, id).actions :: a.intent != HDA
  {}

  lemma EndKeepsOthers(w: World, id: string, phase: ActionPhase, reason: A.Reason, turn: string, pending: set<string>)
    requires WorldOk(w) && Agree(w, pending) && id in w.reg.records && Ending(phase)
    ensures var w' := World(w.machine, A.EndAs(w.reg, id, phase, Some(reason), turn));
            WorldOk(w') && Agree(w', pending + {id}) && w'.reg.records.Keys == w.reg.records.Keys
            && forall x | x in w.reg.records :: w'.reg.records[x].intent == w.reg.records[x].intent
  {
    hide A.IndexOk, A.EndAs, Valid, Bridged;
    A.EndIndex(w.reg, id, phase, Some(reason), turn);
    A.IndexIds(w.reg);
  }

  /** After its handler a stopped record has no entry left; everything else still agrees. */
  lemma {:induction false} HandleAgrees(w: World, r: A.Record, reason: A.Reason, tick: SM.Tick, pending: set<string>)
    requires WorldOk(w) && Agree(w, pending + {r.id}) && UtcTick(tick) && !reason.SupersededByNewStart?
    requires r.id in w.reg.records && w.reg.records[r.id].intent == r.intent
    ensures WorldOk(Handle(w, r, reason, tick)) && Agree(Handle(w, r, reason, tick), pending)
    ensures KeepsIntents(w.reg, Handle(w, r, reason, tick).reg)
    decreases |RunningSet(w.reg)|, 2
  {
    hide ApplyStop, StopPatch, AlreadyOff, A.IndexOk, A.IdsOk, Agree, Valid, CascadeHda, Handle;
    A.IndexIds(w.reg);
    HandleUnfolds(w, r, reason, tick);
    if AlreadyOff(w.machine.state, r.intent, r.id) {
      OffAgrees(w, r, pending);
    } else {
      StopAgrees(w, r, tick, pending);
      if r.intent.AAC? && w.machine.state.adas.hdaActive {
        CascadeAgrees(World(ApplyStop(w.machine, r.intent, r.id, tick).machine, w.reg), r, reason, tick, pending);
      }
    }
  }

  lemma HandleUnfolds(w: World, r: A.Record, reason: A.Reason, tick: SM.Tick)
    requires A.IdsOk(w.reg) && !reason.SupersededByNewStart?
    ensures var o := ApplyStop(w.machine, r.intent, r.id, tick);
            Handle(w, r, reason, tick) ==
            if AlreadyOff(w.machine.state, r.intent, r.id) then w
            else if r.intent.AAC? && o.result.Ok? && w.machine.state.adas.hdaActive
            then CascadeHda(World(o.machine, w.reg), r, reason, tick) else World(o.machine, w.reg)
  {
    hide ApplyStop, AlreadyOff, CascadeHda, A.IdsOk;
  }

  ghost predicate KeepsIntents(reg: A.Registry, reg': A.Registry) {
    && reg'.records.Keys == reg.records.Keys
    && forall x | x in reg.records :: reg'.records[x].intent == reg.records[x].intent
  }

  lemma OffAgrees(w: World, r: A.Record, pending: set<string>)
    requires Agree(w, pending + {r.id}) && r.id in w.reg.records && w.reg.records[r.id].intent == r.intent
    requires AlreadyOff(w.machine.state, r.intent, r.id)
    ensures Agree(w, pending)
  {
    forall a | a in w.machine.state.actions ensures Backed(w.reg, a, pending) {
      assert Backed(w.reg, a, pending + {r.id});
    }
  }

  lemma SubsetAgrees(w: World, m: SM.Machine, id: string, pending: set<string>)
    requires Agree(w, pending + {id})
    requires forall a | a in m.state.actions :: a in w.machine.state.actions && a.id != id
    ensures Agree(World(m, w.reg), pending)
  {
    forall a | a in m.state.actions ensures Backed(w.reg, a, pending) {
      assert Backed(w.reg, a, pending + {id});
    }
  }

  lemma StopAgrees(w: World, r: A.Record, tick: SM.Tick, pending: set<string>)
    requires WorldOk(w) && Agree(w, pending + {r.id}) && UtcTick(tick)
    requires !AlreadyOff(w.machine.state, r.intent, r.id)
    ensures var o := ApplyStop(w.machine, r.intent, r.id, tick);
            o.result.Ok? && WorldOk(World(o.machine, w.reg)) && Agree(World(o.machine, w.reg), pending)
  {
    assert Bridged(r.intent);
    hide ApplyStop, StopPatch, A.IndexOk, Valid, AlreadyOff, Agree, Stamp;
    StopCommits(w.machine, r.intent, r.id, tick);
    StopDrops(w.machine.state, r.intent, r.id);
    SubsetAgrees(w, ApplyStop(w.machine, r.intent, r.id, tick).machine, r.id, pending);
  }

  lemma {:induction false} CascadeAgrees(w: World, r: A.Record, reason: A.Reason, tick: SM.Tick, pending: set<string>)
    requires WorldOk(w) && Agree(w, pending) && UtcTick(tick)
    ensures WorldOk(CascadeHda(w, r, reason, tick)) && Agree(CascadeHda(w, r, reason, tick), pending)
    ensures KeepsIntents(w.reg, CascadeHda(w, r, reason, tick).reg)
    decreases |RunningSet(w.reg)|, 1
  {
    var h := A.GetRunning(w.reg, r.session, HDA);
    hide EndAction, A.IndexOk, Agree, Valid;
    if h.Some? { EndAgrees(w, h.value.id, Stopped, A.CascadedFromAac(reason), r.turn, tick, pending); }
  }

  lemma {:induction false} EndAgrees(w: World, id: string, phase: ActionPhase, reason: A.Reason, turn: string, tick: SM.Tick,
                                     pending: set<string>)
    requires WorldOk(w) && Agree(w, pending) && UtcTick(tick) && Ending(phase) && !reason.SupersededByNewStart?
    ensures var w' := EndAction(w, id, phase, reason, turn, tick);
            WorldOk(w') && Agree(w', pending) && KeepsIntents(w.reg, w'.reg)
    decreases |RunningSet(w.reg)|, 0
  {
    if A.EndFault(w.reg, id).None? {
      var ended := A.Ended(w.reg, id, phase, Some(reason), turn);
      EndShrinks(w.reg, id, phase, Some(reason), turn);
      EndKeepsOthers(w, id, phase, reason, turn, pending);
      var w1 := World(w.machine, A.EndAs(w.reg, id, phase, Some(reason), turn));
      assert ended.id == id && ended.intent == w.reg.records[id].intent;
      hide Handle, A.EndAs, A.IndexOk, Agree, Valid;
      HandleAgrees(w1, ended, reason, tick, pending);
    }
  }

  lemma {:induction false} AllHandled(w: World, ids: seq<string>, reason: A.Reason, tick: SM.Tick)
    requires WorldOk(w) && Agree(w, Members(ids)) && UtcTick(tick) && !reason.SupersededByNewStart?
    requires forall id | id in ids :: id in w.reg.records
    ensures var w' := HandleAll(w, ids, reason, tick); WorldOk(w') && Agree(w', {})
    decreases ids
  {
    if ids == [] {
      assert Members(ids) == {};
    } else {
      var id := ids[0];
      assert Members(ids) == Members(ids[1..]) + {id};
      assert w.reg.records[id].id == id;
      var next := Handle(w, w.reg.records[id], reason, tick);
      HandleAgrees(w, w.reg.records[id], reason, tick, Members(ids[1..]));
      hide Handle, Agree, A.IndexOk, Valid, Members;
      AllHandled(next, ids[1..], reason, tick);
    }
  }

  function Members(ids: seq<string>): set<string> {
    set id | id in ids
  }

  lemma ResetAgrees(w: World, session: Option<string>, reason: A.Reason, turn: string, tick: SM.Tick)
    requires WorldOk(w) && Agree(w, {}) && UtcTick(tick) && !reason.SupersededByNewStart?
    ensures var w' := ResetActions(w, session, reason, turn, tick); WorldOk(w') && Agree(w', {})
  {
    var ids := A.RunningIds(w.reg, w.reg.order, session);
    StopAllIds(w.reg, ids, reason, turn);
    A.StopAllIndex(w.reg, ids, reason, turn);
    StopAllIntents(w.reg, ids, reason, turn);
    var w1 := World(w.machine, A.StopAll(w.reg, ids, reason, turn));
    forall a | a in w1.machine.state.actions ensures Backed(w1.reg, a, Members(ids)) {
      assert Backed(w.reg, a, {});
    }
    hide HandleAll, A.StopAll, A.IndexOk, Valid, Members, A.RunningIds;
    AllHandled(w1, ids, reason, tick);
  }

  lemma StopAllIntents(reg: A.Registry, ids: seq<string>, reason: A.Reason, turn: string)
    requires A.IndexOk(reg) && forall id | id in ids :: id in reg.records
    ensures A.StopAll(reg, ids, reason, turn).records.Keys == reg.records.Keys
    ensures forall x | x in reg.records :: A.StopAll(reg, ids, reason, turn).records[x].intent == reg.records[x].intent
  {
    A.StopAllIndex(reg, ids, reason, turn);
    hide A.StopAll, A.IndexOk;
    forall x | x in reg.records ensures A.StopAll(reg, ids, reason, turn).records[x].intent == reg.records[x].intent {
      assert A.KeyOf(A.StopAll(reg, ids, reason, turn).records[x]) == A.KeyOf(reg.records[x]);
    }
  }

  /** A transition that succeeds has applied its patch, and keeps the state valid; a failed one changes nothing. */
  lemma ApplyEffect(m: SM.Machine, patch: Patch, r: SM.Request, tick: SM.Tick)
    requires UtcTick(tick) && m.state.version >= 0 && r.expected == None && r.actor != "" && r.correlation != ""
    ensures var o := SM.Apply(m, patch, r, tick);
            && (o.result.Err? ==> o.machine == m)
            && (o.result.Ok? ==> patch(m.state).Candidate? && Valid(o.machine.state)
                                 && o.machine.state == Stamp(patch(m.state).state, m.state.version + 1, tick.now))
  {
    hide Valid, Stamp, Checked, StateFault;
  }

  lemma StartAgrees(w: World, r: A.Record, registryFails: bool, tick: SM.Tick)
    requires WorldOk(w) && Agree(w, {}) && UtcTick(tick) && Bridged(r.intent) && r.phase.Started? && r.id !in w.reg.records
    ensures var w' := StartBridged(w, r, registryFails, tick); WorldOk(w') && Agree(w', {})
  {
    var patch: Patch := (s: VehicleState) => Checked(StartPatch(s, r.intent, r.id));
    VersionNat(w.machine.state);
    ApplyEffect(w.machine, patch, START_REQUEST, tick);
    var o := SM.Apply(w.machine, patch, START_REQUEST, tick);
    if o.result.Ok? {
      assert o.machine.state.actions == StartPatch(w.machine.state, r.intent, r.id).actions;
      hide SM.Apply, Valid, Checked, A.IndexOk;
      if registryFails {
        VersionNat(o.machine.state);
        RollbackAgrees(w, o.machine, r, tick);
      } else {
        StartedAgrees(w, o.machine, r);
      }
    }
  }

  lemma RollbackAgrees(w: World, m: SM.Machine, r: A.Record, tick: SM.Tick)
    requires WorldOk(w) && Agree(w, {}) && UtcTick(tick) && Valid(m.state) && m.state.version >= 0
    requires m.state.actions == StartPatch(w.machine.state, r.intent, r.id).actions && r.id !in w.reg.records
    ensures var w' := World(RolledBack(m, r.id, tick), w.reg); WorldOk(w') && Agree(w', {})
  {
    hide RolledBack, Valid, A.IndexOk;
    RollbackDrops(m, r.id, tick);
    var s' := RolledBack(m, r.id, tick).state;
    forall a | a in s'.actions ensures Backed(w.reg, a, {}) {
      assert a in m.state.actions && a.id != r.id && a in w.machine.state.actions;
      assert Backed(w.reg, a, {});
    }
  }

  /** The rollback commits, and takes out exactly the entry of this id. */
  lemma RollbackDrops(m: SM.Machine, id: string, tick: SM.Tick)
    requires Valid(m.state) && UtcTick(tick)
    ensures var m' := RolledBack(m, id, tick);
            Valid(m'.state) && forall a :: a in m'.state.actions <==> a in m.state.actions && a.id != id
  {
    hide SM.Apply, Valid, Checked;
    var patch: Patch := (s: VehicleState) => Checked(s.(actions := Without(s.actions, ById(id))));
    var dropped := m.state.(actions := Without(m.state.actions, ById(id)));
    DropValid(m.state, id);
    VersionNat(m.state);
    SM.StampedIsChecked(dropped);
    SM.ValidPatchCommits(m, patch, ROLLBACK_REQUEST, tick, dropped);
  }

  lemma DropValid(s: VehicleState, id: string)
    requires Valid(s)
    ensures Valid(s.(actions := Without(s.actions, ById(id))))
  {
    var t := s.(actions := Without(s.actions, ById(id)));
    SameHeader(s, t);
    assert GroupFault(t) == GroupFault(s) by { hide PowerFault, MotionFault, AccessFault, CabinFault, AdasFault, ModesFault; }
    assert ActionsFault(t.actions) == None && !DuplicateIds(t.actions) && forall a | a in t.actions :: a in s.actions;
    hide Without, GroupFault, HeaderFault;
  }

  /** A fresh start puts its record in, and stops at most one other, of the same intent. */
  lemma StartRecords(reg: A.Registry, r: A.Record)
    requires A.IndexOk(reg) && r.phase.Started? && r.id !in reg.records
    ensures var reg' := A.StartAction(reg, r);
            && A.IndexOk(reg') && r.id in reg'.records && reg'.records[r.id] == r
            && (forall x | x in reg'.records && x != r.id :: x in reg.records)
            && forall x | x in reg.records :: x in reg'.records && reg'.records[x].intent == reg.records[x].intent
                 && (reg.records[x].intent != r.intent ==> reg'.records[x] == reg.records[x])
  {
    A.StartIndexExactly(reg, r);
    var existing := A.Existing(reg, A.KeyOf(r));
    if existing.Some? {
      A.EndIndex(reg, existing.value, Stopped, Some(A.SupersededByNewStart), r.turn);
      assert reg.records[existing.value].intent == r.intent;
    }
    hide A.IndexOk, A.EndAs;
  }

  /** The new entry has its record; a superseded run's entry went with its intent. */
  lemma StartedAgrees(w: World, m: SM.Machine, r: A.Record)
    requires WorldOk(w) && Agree(w, {}) && Valid(m.state) && r.phase.Started? && r.id !in w.reg.records
    requires m.state.actions == StartPatch(w.machine.state, r.intent, r.id).actions
    ensures var w' := World(m, A.StartAction(w.reg, r)); WorldOk(w') && Agree(w', {})
  {
    hide A.IndexOk, Valid, A.StartAction, StartPatch, Without;
    StartRecords(w.reg, r);
    StartEntries(w.machine.state, r.intent, r.id);
    var reg', added := A.StartAction(w.reg, r), ActiveAction(r.id, r.intent, Started, 0.0);
    ValidDistinct(m.state);
    forall a | a in m.state.actions ensures Backed(reg', a, {}) {
      if a != added {
        SameIdSame(m.state.actions, a, added);
        assert Backed(w.reg, a, {});
      }
    }
  }

  lemma ValidDistinct(s: VehicleState)
    requires Valid(s)
    ensures !DuplicateIds(s.actions)
  {
    hide GroupFault, HeaderFault, ActionsFault, DuplicateIds;
  }

  lemma {:induction false} SameIdSame(actions: seq<ActiveAction>, a: ActiveAction, b: ActiveAction)
    requires !DuplicateIds(actions) && a in actions && b in actions
    ensures a.id == b.id ==> a == b
  {
    if a in actions[1..] && b in actions[1..] {
      SameIdSame(actions[1..], a, b);
    } else {
      assert actions == [actions[0]] + actions[1..];
      assert a in actions[1..] || a == actions[0];
    }
  }

  lemma StartEntries(s: VehicleState, intent: Intent, id: string)
    ensures forall a | a in StartPatch(s, intent, id).actions ::
              a == ActiveAction(id, intent, Started, 0.0) || (a in s.actions && a.intent != intent)
    ensures ActiveAction(id, intent, Started, 0.0) in StartPatch(s, intent, id).actions
  {}

  // ---- nothing is revived ----------------------------------------------------------------------------------------------------

  /** Whoever still runs was running before, unchanged. */
  ghost predicate StillRunning(reg: A.Registry, reg': A.Registry) {
    forall x | A.IsRunning(reg', x) :: A.IsRunning(reg, x) && reg'.records[x] == reg.records[x]
  }

  lemma EndAsStill(reg: A.Registry, id: string, phase: ActionPhase, reason: Option<A.Reason>, turn: string)
    requires A.IdsOk(reg) && id in reg.records && Ending(phase)
    ensures StillRunning(reg, A.EndAs(reg, id, phase, reason, turn))
  {}

  lemma {:induction false} EndStill(w: World, id: string, phase: ActionPhase, reason: A.Reason, turn: string, tick: SM.Tick)
    requires A.IdsOk(w.reg) && Ending(phase)
    ensures StillRunning(w.reg, EndAction(w, id, phase, reason, turn, tick).reg)
    decreases |RunningSet(w.reg)|, 0
  {
    hide A.IdsOk, A.EndAs, Handle;
    if A.EndFault(w.reg, id).None? {
      EndShrinks(w.reg, id, phase, Some(reason), turn);
      EndAsStill(w.reg, id, phase, Some(reason), turn);
      HandleStill(World(w.machine, A.EndAs(w.reg, id, phase, Some(reason), turn)),
                  A.Ended(w.reg, id, phase, Some(reason), turn), reason, tick);
    }
  }

  lemma {:induction false} HandleStill(w: World, r: A.Record, reason: A.Reason, tick: SM.Tick)
    requires A.IdsOk(w.reg)
    ensures StillRunning(w.reg, Handle(w, r, reason, tick).reg)
    decreases |RunningSet(w.reg)|, 2
  {
    hide A.IdsOk, ApplyStop, AlreadyOff, EndAction, StillRunning;
    StillReflexive(w.reg);
    var w1 := World(ApplyStop(w.machine, r.intent, r.id, tick).machine, w.reg);
    var h := A.GetRunning(w.reg, r.session, HDA);
    if h.Some? { EndStill(w1, h.value.id, Stopped, A.CascadedFromAac(reason), r.turn, tick); }
  }

  lemma StillReflexive(reg: A.Registry)
    ensures StillRunning(reg, reg)
  {}

  lemma {:induction false} AllStill(w: World, ids: seq<string>, reason: A.Reason, tick: SM.Tick)
    requires A.IdsOk(w.reg)
    ensures StillRunning(w.reg, HandleAll(w, ids, reason, tick).reg)
    decreases ids
  {
    hide A.IdsOk, Handle;
    if ids != [] {
      if ids[0] in w.reg.records {
        HandleStill(w, w.reg.records[ids[0]], reason, tick);
        AllStill(Handle(w, w.reg.records[ids[0]], reason, tick), ids[1..], reason, tick);
      } else {
        AllStill(w, ids[1..], reason, tick);
      }
    }
  }

  // ---- runs ----------------------------------------------------------------------------------------------------------------

  datatype Op =
    | StartOp(record: A.Record, registryFails: bool, tick: SM.Tick)
    | EndOp(id: string, phase: ActionPhase, reason: A.Reason, turn: string, tick: SM.Tick)
    | ResetOp(session: Option<string>, reason: A.Reason, turn: string, tick: SM.Tick)
    | OtherTransition(next: VehicleState)

  /** Fresh ids; ended by stop, fail or reset with a real reason; other transitions bring no bridged entry. */
  ghost predicate Allowed(w: World, op: Op) {
    match op
    case StartOp(r, _, tick) => UtcTick(tick) && Bridged(r.intent) && r.phase.Started? && r.id !in w.reg.records
    case EndOp(_, phase, reason, _, tick) => UtcTick(tick) && Ending(phase) && !reason.SupersededByNewStart?
    case ResetOp(_, reason, _, tick) => UtcTick(tick) && !reason.SupersededByNewStart?
    case OtherTransition(next) =>
      Valid(next) && forall a | a in next.actions ::
        a in w.machine.state.actions || (!Bridged(a.intent) && a.id !in w.reg.records)
  }

  function Execute(w: World, op: Op): World
    requires A.IdsOk(w.reg) && (op.EndOp? ==> Ending(op.phase))
  {
    match op
    case StartOp(r, registryFails, tick) => StartBridged(w, r, registryFails, tick)
    case EndOp(id, phase, reason, turn, tick) => EndAction(w, id, phase, reason, turn, tick)
    case ResetOp(session, reason, turn, tick) => ResetActions(w, session, reason, turn, tick)
    case OtherTransition(next) => w.(machine := w.machine.(state := next))
  }

  lemma OpAgrees(w: World, op: Op)
    requires WorldOk(w) && Agree(w, {}) && Allowed(w, op)
    ensures WorldOk(Execute(w, op)) && Agree(Execute(w, op), {})
  {
    hide A.IndexOk, Valid, StartBridged, EndAction, ResetActions, Bridged;
    match op
    case StartOp(r, registryFails, tick) => StartAgrees(w, r, registryFails, tick);
    case EndOp(id, phase, reason, turn, tick) => EndAgrees(w, id, phase, reason, turn, tick, {});
    case ResetOp(session, reason, turn, tick) => ResetAgrees(w, session, reason, turn, tick);
    case OtherTransition(next) =>
      forall a | a in next.actions ensures Backed(w.reg, a, {}) {
        if a in w.machine.state.actions { assert Backed(w.reg, a, {}); }
      }
  }

  ghost predicate IsRun(run: seq<World>, ops: seq<Op>) {
    && |run| == |ops| + 1 && WorldOk(run[0]) && run[0].machine.state.actions == []
    && forall i | 0 <= i < |ops| :: Follows(run, ops, i)
  }

  ghost predicate Follows(run: seq<World>, ops: seq<Op>, i: nat)
    requires i < |ops| && |run| == |ops| + 1
  {
    A.IdsOk(run[i].reg) && Allowed(run[i], ops[i]) && run[i + 1] == Execute(run[i], ops[i])
  }

  /** In every run each bridged entry of the vehicle state has a running registry record with the same id. */
  lemma {:induction false} EntriesHaveRecords(run: seq<World>, ops: seq<Op>, i: nat)
    requires IsRun(run, ops) && i < |run|
    ensures WorldOk(run[i]) && Agree(run[i], {})
    ensures forall a | a in run[i].machine.state.actions && Bridged(a.intent) ::
              A.IsRunning(run[i].reg, a.id) && run[i].reg.records[a.id].intent == a.intent
    decreases i
  {
    hide WorldOk, Execute, Allowed, Bridged;
    if i > 0 {
      EntriesHaveRecords(run, ops, i - 1);
      assert Follows(run, ops, i - 1);
      OpAgrees(run[i - 1], ops[i - 1]);
    }
    forall a | a in run[i].machine.state.actions && Bridged(a.intent)
      ensures A.IsRunning(run[i].reg, a.id) && run[i].reg.records[a.id].intent == a.intent
    {
      assert Backed(run[i].reg, a, {});
    }
  }

  // ---- where agreement is lost, exactly -----------------------------------------------------------------------------------

  ghost predicate HasBridgedEntry(s: VehicleState, id: string) {
    exists a :: a in s.actions && a.id == id && Bridged(a.intent)
  }

  lemma EndedEntry(w: World, reg': A.Registry, id: string)
    requires Agree(w, {}) && id in w.reg.records && id in reg'.records && reg'.records.Keys == w.reg.records.Keys
    requires !A.Running(reg'.records[id]) && reg'.records[id].intent == w.reg.records[id].intent
    requires forall x | x in w.reg.records && x != id :: reg'.records[x] == w.reg.records[x]
    ensures Agree(World(w.machine, reg'), {}) <==> !HasBridgedEntry(w.machine.state, id)
  {
    var s := w.machine.state;
    if HasBridgedEntry(s, id) {
      var a :| a in s.actions && a.id == id && Bridged(a.intent);
      assert !Backed(reg', a, {});
    } else {
      forall a | a in s.actions ensures Backed(reg', a, {}) { assert Backed(w.reg, a, {}); }
    }
  }

  /** A stop that passes the restart reason by hand loses agreement exactly when the record has an entry. */
  lemma ForgedRestartReason(w: World, id: string, turn: string, tick: SM.Tick)
    requires WorldOk(w) && Agree(w, {}) && A.IsRunning(w.reg, id)
    ensures Agree(EndAction(w, id, Stopped, A.SupersededByNewStart, turn, tick), {}) <==>
            !HasBridgedEntry(w.machine.state, id)
  {
    A.EndIndex(w.reg, id, Stopped, Some(A.SupersededByNewStart), turn);
    EndedEntry(w, A.EndAs(w.reg, id, Stopped, Some(A.SupersededByNewStart), turn), id);
    hide A.EndAs, A.IndexOk, Valid, Agree;
  }

  /** `complete_action` calls no handler, so it too loses agreement exactly when the record has an entry. */
  lemma CompletionLeavesEntry(w: World, id: string, turn: string)
    requires WorldOk(w) && Agree(w, {}) && A.IsRunning(w.reg, id)
    ensures Agree(World(w.machine, A.EndAs(w.reg, id, Completed, None, turn)), {}) <==>
            !HasBridgedEntry(w.machine.state, id)
  {
    A.EndIndex(w.reg, id, Completed, None, turn);
    EndedEntry(w, A.EndAs(w.reg, id, Completed, None, turn), id);
    hide A.EndAs, A.IndexOk, Valid, Agree;
  }

  // ---- the AAC to HDA cascade -------------------------------------------------------------------------------------------------

  /** The HDA record the cascade reaches: that of the same session. */
  function Sibling(w: World, id: string): Option<A.Record>
    requires id in w.reg.records
  {
    A.GetRunning(w.reg, w.reg.records[id].session, HDA)
  }

  /** With HDA off and no entry of its own, the HDA handler changes nothing. */
  lemma QuietHda(w: World, id: string, reason: A.Reason, turn: string, tick: SM.Tick)
    requires A.IndexOk(w.reg) && A.IsRunning(w.reg, id) && w.reg.records[id].intent == HDA
    requires !w.machine.state.adas.hdaActive && !HasId(w.machine.state.actions, id)
    ensures EndAction(w, id, Stopped, reason, turn, tick) ==
            World(w.machine, A.EndAs(w.reg, id, Stopped, Some(reason), turn))
  {
    var ended := A.Ended(w.reg, id, Stopped, Some(reason), turn);
    assert w.reg.records[id].id == id && A.IdsOk(w.reg);
    EndShrinks(w.reg, id, Stopped, Some(reason), turn);
    assert AlreadyOff(w.machine.state, ended.intent, ended.id);
    hide A.EndAs, A.IndexOk, ApplyStop, A.IdsOk;
  }

  /** The transition of an AAC stop while HDA is on. */
  lemma AacTransition(m: SM.Machine, id: string, tick: SM.Tick)
    requires Valid(m.state) && UtcTick(tick) && m.state.adas.hdaActive
    ensures var o := ApplyStop(m, AAC, id, tick);
            && o.result.Ok? && o.machine.events == m.events + [o.result.value]
            && o.machine.state.version == m.state.version + 1
            && o.machine.state.adas == m.state.adas.(acc := CANCELLED, hdaActive := false)
            && (forall a :: a in o.machine.state.actions <==> a in m.state.actions && a.id != id && a.intent != HDA)
  {
    StopCommits(m, AAC, id, tick);
    hide ApplyStop, Valid;
  }

  /**
   A real end of AAC while HDA is on: exactly one version is committed, ACC is cancelled and HDA off with no HDA
   entry left, the session's HDA record is stopped as cascaded, and every other record is untouched.
   */
  lemma AacStopCascades(w: World, id: string, phase: ActionPhase, reason: A.Reason, turn: string, tick: SM.Tick)
    requires WorldOk(w) && Agree(w, {}) && UtcTick(tick) && Ending(phase) && !reason.SupersededByNewStart?
    requires A.IsRunning(w.reg, id) && w.reg.records[id].intent == AAC && w.machine.state.adas.hdaActive
    ensures var w', sibling := EndAction(w, id, phase, reason, turn, tick), Sibling(w, id);
            && |w'.machine.events| == |w.machine.events| + 1
            && w'.machine.state.version == w.machine.state.version + 1
            && w'.machine.state.adas == w.machine.state.adas.(acc := CANCELLED, hdaActive := false)
            && (forall a :: a in w'.machine.state.actions <==>
                  a in w.machine.state.actions && a.id != id && a.intent != HDA)
            && w'.reg.records.Keys == w.reg.records.Keys && w'.reg.records[id].phase == phase
            && (sibling.Some? ==> w'.reg.records[sibling.value.id].phase.Stopped?
                                  && w'.reg.records[sibling.value.id].stopReason == Some(A.CascadedFromAac(reason)))
            && forall x | x in w.reg.records && x != id && (sibling.Some? ==> x != sibling.value.id) ::
                 w'.reg.records[x] == w.reg.records[x]
  {
    hide EndAction, ApplyStop, A.EndAs, A.IndexOk, Valid, CascadeHda, A.GetRunning, Agree, HasId;
    var ended := A.Ended(w.reg, id, phase, Some(reason), turn);
    var reg1 := A.EndAs(w.reg, id, phase, Some(reason), turn);
    A.EndIndex(w.reg, id, phase, Some(reason), turn);
    AacTransition(w.machine, id, tick);
    SiblingAfter(w.reg, id, phase, Some(reason), turn);
    SiblingRuns(w.reg, w.reg.records[id].session);
    AacHandled(w, id, phase, reason, turn, tick);
    var w1 := World(ApplyStop(w.machine, AAC, id, tick).machine, reg1);
    var h := Sibling(w, id);
    if h.Some? { EntryOfSibling(w, h.value.id, w1.machine.state); }
    CascadeEffect(w1, ended, reason, tick);
  }

  /** The AAC handler patches the state and then cascades. */
  lemma AacHandled(w: World, id: string, phase: ActionPhase, reason: A.Reason, turn: string, tick: SM.Tick)
    requires A.IndexOk(w.reg) && Ending(phase) && !reason.SupersededByNewStart?
    requires A.IsRunning(w.reg, id) && w.reg.records[id].intent == AAC && w.machine.state.adas.hdaActive
    requires ApplyStop(w.machine, AAC, id, tick).result.Ok?
    ensures var w1 := World(ApplyStop(w.machine, AAC, id, tick).machine, A.EndAs(w.reg, id, phase, Some(reason), turn));
            A.IdsOk(w1.reg) && EndAction(w, id, phase, reason, turn, tick) ==
                               CascadeHda(w1, A.Ended(w.reg, id, phase, Some(reason), turn), reason, tick)
  {
    assert w.reg.records[id].id == id && A.IdsOk(w.reg);
    EndShrinks(w.reg, id, phase, Some(reason), turn);
    hide A.EndAs, A.IndexOk, ApplyStop, CascadeHda, A.IdsOk;
  }

  /** The cascade ends the sibling, whose own handler finds everything off already. */
  lemma CascadeEffect(w: World, r: A.Record, reason: A.Reason, tick: SM.Tick)
    requires A.IndexOk(w.reg) && !w.machine.state.adas.hdaActive
    requires var h := A.GetRunning(w.reg, r.session, HDA); h.Some? ==> !HasId(w.machine.state.actions, h.value.id)
    ensures var w', h := CascadeHda(w, r, reason, tick), A.GetRunning(w.reg, r.session, HDA);
            && w'.machine == w.machine && w'.reg.records.Keys == w.reg.records.Keys
            && (h.Some? ==> h.value.id in w.reg.records && w'.reg.records[h.value.id].phase.Stopped?
                            && w'.reg.records[h.value.id].stopReason == Some(A.CascadedFromAac(reason)))
            && forall x | x in w.reg.records && (h.Some? ==> x != h.value.id) :: w'.reg.records[x] == w.reg.records[x]
  {
    SiblingRuns(w.reg, r.session);
    var h := A.GetRunning(w.reg, r.session, HDA);
    if h.Some? {
      QuietHda(w, h.value.id, A.CascadedFromAac(reason), r.turn, tick);
      A.EndIndex(w.reg, h.value.id, Stopped, Some(A.CascadedFromAac(reason)), r.turn);
    }
    hide EndAction, A.EndAs, A.IndexOk, A.GetRunning;
  }

  lemma SiblingRuns(reg: A.Registry, session: string)
    requires A.IndexOk(reg)
    ensures var h := A.GetRunning(reg, session, HDA);
            h.Some? ==> A.IsRunning(reg, h.value.id) && reg.records[h.value.id] == h.value && h.value.intent == HDA
                        && h.value.session == session
  {
    var key: A.Key := (session, HDA);
    if key in reg.index { assert A.IsRunning(reg, reg.index[key]) && A.KeyOf(reg.records[reg.index[key]]) == key; }
  }

  /** Ending an AAC record does not change which HDA record the session runs. */
  lemma SiblingAfter(reg: A.Registry, id: string, phase: ActionPhase, reason: Option<A.Reason>, turn: string)
    requires A.IndexOk(reg) && A.IsRunning(reg, id) && reg.records[id].intent == AAC && Ending(phase)
    ensures var reg1 := A.EndAs(reg, id, phase, reason, turn);
            A.GetRunning(reg1, reg.records[id].session, HDA) == A.GetRunning(reg, reg.records[id].session, HDA)
  {
    SiblingRuns(reg, reg.records[id].session);
  }

  /** HDA entries are gone, and by agreement nothing else carries the HDA record's id. */
  lemma EntryOfSibling(w: World, hid: string, s: VehicleState)
    requires Agree(w, {}) && hid in w.reg.records && w.reg.records[hid].intent == HDA
    requires forall a | a in s.actions :: a in w.machine.state.actions && a.intent != HDA
    ensures !HasId(s.actions, hid)
  {
    forall a | a in s.actions ensures a.id != hid { assert Backed(w.reg, a, {}); }
  }
}
