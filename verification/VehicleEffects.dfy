/**
 What a start and a fail-safe stop leave of the vehicle state (agent/src/vehicle_agent/behaviors/hero/, and
 `ActiveActionHandler` in vehicle/execution/generic.py), in terms of the fields themselves.
 */
module VehicleEffects {
  import opened Wrappers
  import opened VehicleModel
  import opened Cascade
  import SM = StateMachine
  import A = ActiveActions
  import O = Orphans

  // ---- the effect, field by field -----------------------------------------------------------------------------

  /** Only the observation times may differ. */
  ghost predicate SameReadings(ps: seq<Provenance>, qs: seq<Provenance>) {
    |qs| == |ps| && forall i | 0 <= i < |ps| :: qs[i] == ps[i].(observedAt := qs[i].observedAt)
  }

  /** The features of `off` are off, and nothing else has changed but the entries, the version and the times. */
  ghost predicate OnlyOff(s: VehicleState, s': VehicleState, off: set<Intent>) {
    && (AAC in off ==> s'.adas.acc == CANCELLED) && (AAC !in off ==> s'.adas.acc == s.adas.acc)
    && (AAC in off || HDA in off ==> !s'.adas.hdaActive)
    && (AAC !in off && HDA !in off ==> s'.adas.hdaActive == s.adas.hdaActive)
    && (AUTOPARK in off ==> s'.adas.autopark == PARK_OFF) && (AUTOPARK !in off ==> s'.adas.autopark == s.adas.autopark)
    && (CAMPMODE in off ==> !s'.modes.camp) && (CAMPMODE !in off ==> s'.modes.camp == s.modes.camp)
    && s'.adas == s.adas.(acc := s'.adas.acc, hdaActive := s'.adas.hdaActive, autopark := s'.adas.autopark)
    && s'.modes == s.modes.(camp := s'.modes.camp)
    && s' == s.(version := s'.version, timestamp := s'.timestamp, provenance := s'.provenance, adas := s'.adas,
                modes := s'.modes, actions := s'.actions)
    && SameReadings(s.provenance, s'.provenance)
  }

  /** `a` stands before `b`. */
  ghost predicate Before(actions: seq<ActiveAction>, a: ActiveAction, b: ActiveAction) {
    actions != [] && ((actions[0] == a && b in actions[1..]) || Before(actions[1..], a, b))
  }

  /** The entries with an id in `ids` are gone, with `hda` all HDA entries too; the others stand in their order. */
  ghost predicate OnlyGone(actions: seq<ActiveAction>, actions': seq<ActiveAction>, ids: set<string>, hda: bool) {
    && (forall a :: a in actions' <==> a in actions && a.id !in ids && !(hda && a.intent.HDA?))
    && forall a, b :: Before(actions', a, b) ==> Before(actions, a, b)
  }

  lemma {:induction false} WithoutInOrder(actions: seq<ActiveAction>, d: Drop, a: ActiveAction, b: ActiveAction)
    requires Before(Without(actions, d), a, b)
    ensures Before(actions, a, b)
    decreases actions
  {
    var r, rest := Without(actions, d), Without(actions[1..], d);
    assert r == (if Dropped(d, actions[0]) then rest else [actions[0]] + rest);
    if Before(rest, a, b) {
      WithoutInOrder(actions[1..], d, a, b);
    } else {
      assert r[1..] == rest;
    }
  }

  lemma WithoutGone(actions: seq<ActiveAction>, id: string)
    ensures OnlyGone(actions, Without(actions, ById(id)), {id}, false)
    ensures OnlyGone(actions, Without(Without(actions, ById(id)), ByIntent(HDA)), {id}, true)
  {
    var once := Without(actions, ById(id));
    forall a, b | Before(once, a, b) ensures Before(actions, a, b) { WithoutInOrder(actions, ById(id), a, b); }
    forall a, b | Before(Without(once, ByIntent(HDA)), a, b) ensures Before(actions, a, b) {
      WithoutInOrder(once, ByIntent(HDA), a, b);
    }
    hide Without, Before;
  }

  lemma GoneTwice(a: seq<ActiveAction>, b: seq<ActiveAction>, c: seq<ActiveAction>, ids: set<string>, hda: bool,
                  more: set<string>, hdaToo: bool)
    requires OnlyGone(a, b, ids, hda) && OnlyGone(b, c, more, hdaToo)
    ensures OnlyGone(a, c, ids + more, hda || hdaToo)
  {
    hide Before;
  }

  lemma OffTwice(s: VehicleState, t: VehicleState, u: VehicleState, off: set<Intent>, more: set<Intent>)
    requires OnlyOff(s, t, off) && OnlyOff(t, u, more)
    ensures OnlyOff(s, u, off + more)
  {}

  // ---- one handler ------------------------------------------------------------------------------------------------

  lemma StopPatchEffect(s: VehicleState, intent: Intent, id: string)
    requires Bridged(intent)
    ensures OnlyOff(s, StopPatch(s, intent, id), {intent})
    ensures OnlyGone(s.actions, StopPatch(s, intent, id).actions, {id}, intent.AAC? && s.adas.hdaActive)
  {
    WithoutGone(s.actions, id);
    hide Without, OnlyGone;
  }

  lemma StampEffect(s: VehicleState, t: VehicleState, off: set<Intent>, version: int, now: Time)
    requires OnlyOff(s, t, off)
    ensures OnlyOff(s, Stamp(t, version, now), off) && Stamp(t, version, now).actions == t.actions
  {}

  /** The fail-safe transition of a stop: one version later, the feature is off and the entry gone. */
  lemma StopEffect(m: SM.Machine, intent: Intent, id: string, tick: SM.Tick)
    requires Valid(m.state) && UtcTick(tick) && Bridged(intent)
    ensures var o, s := ApplyStop(m, intent, id, tick), m.state;
            var s' := o.machine.state;
            && o.result.Ok? && Valid(s') && |o.machine.events| == |m.events| + 1
            && s'.version == s.version + 1 && s'.timestamp == tick.now && OnlyOff(s, s', {intent})
            && OnlyGone(s.actions, s'.actions, {id}, intent.AAC? && s.adas.hdaActive)
  {
    hide ApplyStop, StopPatch, Valid, OnlyOff, OnlyGone, Bridged;
    StopCommits(m, intent, id, tick);
    StopPatchEffect(m.state, intent, id);
    StampEffect(m.state, StopPatch(m.state, intent, id), {intent}, m.state.version + 1, tick.now);
  }

  /** The feature is off already and the record has no entry; cancelling AAC is never skipped. */
  ghost predicate Idle(s: VehicleState, intent: Intent, id: string) {
    && !intent.AAC?
    && (intent.HDA? ==> !s.adas.hdaActive) && (intent.AUTOPARK? ==> s.adas.autopark == PARK_OFF)
    && (intent.CAMPMODE? ==> !s.modes.camp) && (Bridged(intent) ==> forall a | a in s.actions :: a.id != id)
  }

  lemma IdleEffect(s: VehicleState, intent: Intent, id: string)
    ensures AlreadyOff(s, intent, id) <==> Idle(s, intent, id)
    ensures Idle(s, intent, id) ==>
              OnlyOff(s, s, {intent}) && OnlyGone(s.actions, s.actions, if Bridged(intent) then {id} else {}, false)
  {}

  /** A handler without a sibling to cascade to changes the vehicle as stated, and no record. */
  lemma HandleEffect(w: World, r: A.Record, reason: A.Reason, tick: SM.Tick)
    requires Valid(w.machine.state) && A.IdsOk(w.reg) && UtcTick(tick) && !reason.SupersededByNewStart?
    requires r.intent.AAC? && w.machine.state.adas.hdaActive ==> A.GetRunning(w.reg, r.session, HDA).None?
    ensures var w', s := Handle(w, r, reason, tick), w.machine.state;
            var s' := w'.machine.state;
            && w'.reg == w.reg && Valid(s') && OnlyOff(s, s', {r.intent})
            && OnlyGone(s.actions, s'.actions, if Bridged(r.intent) then {r.id} else {}, r.intent.AAC? && s.adas.hdaActive)
            && if Idle(s, r.intent, r.id) then w'.machine == w.machine
               else s'.version == s.version + 1 && |w'.machine.events| == |w.machine.events| + 1
  {
    hide ApplyStop, AlreadyOff, OnlyOff, OnlyGone, Idle, Handle, A.IdsOk, A.GetRunning, Valid;
    HandleUnfolds(w, r, reason, tick);
    IdleEffect(w.machine.state, r.intent, r.id);
    if !Idle(w.machine.state, r.intent, r.id) {
      BridgedUnlessIdle(w.machine.state, r.intent, r.id);
      StopEffect(w.machine, r.intent, r.id, tick);
    }
  }

  lemma BridgedUnlessIdle(s: VehicleState, intent: Intent, id: string)
    requires !Idle(s, intent, id)
    ensures Bridged(intent)
  {}

  // ---- one stop -----------------------------------------------------------------------------------------------------

  /**
   A real end of a running HDA, autopark or camp mode record: the feature is off, the record's entry is gone, nothing
   else of the vehicle has changed, and no other record either. There is a new version unless all was off before.
   */
  lemma EndTurnsOff(w: World, id: string, phase: ActionPhase, reason: A.Reason, turn: string, tick: SM.Tick)
    requires WorldOk(w) && UtcTick(tick) && Ending(phase) && !reason.SupersededByNewStart? && A.IsRunning(w.reg, id)
    requires var i := w.reg.records[id].intent; i.HDA? || i.AUTOPARK? || i.CAMPMODE?
    ensures var w', s, intent := EndAction(w, id, phase, reason, turn, tick), w.machine.state, w.reg.records[id].intent;
            var s' := w'.machine.state;
            && OnlyOff(s, s', {intent}) && OnlyGone(s.actions, s'.actions, {id}, false)
            && (if Idle(s, intent, id) then w'.machine == w.machine
                else s'.version == s.version + 1 && |w'.machine.events| == |w.machine.events| + 1)
            && w'.reg.records.Keys == w.reg.records.Keys && w'.reg.records[id].phase == phase
            && forall x | x in w.reg.records && x != id :: w'.reg.records[x] == w.reg.records[x]
  {
    var ended := A.Ended(w.reg, id, phase, Some(reason), turn);
    A.IndexIds(w.reg);
    A.SameId(w.reg, id);
    assert ended.id == id && ended.intent == w.reg.records[id].intent && !ended.intent.AAC? && Bridged(ended.intent);
    EndShrinks(w.reg, id, phase, Some(reason), turn);
    A.EndIndex(w.reg, id, phase, Some(reason), turn);
    hide A.EndAs, A.IndexOk, A.IdsOk, Valid, OnlyOff, OnlyGone, Idle, Handle, A.GetRunning;
    HandleEffect(World(w.machine, A.EndAs(w.reg, id, phase, Some(reason), turn)), ended, reason, tick);
  }

  /** A real end of AAC: ACC is cancelled and HDA off, at one version, and nothing else of the vehicle has changed. */
  lemma AacEndTurnsOff(w: World, id: string, phase: ActionPhase, reason: A.Reason, turn: string, tick: SM.Tick)
    requires WorldOk(w) && Agree(w, {}) && UtcTick(tick) && Ending(phase) && !reason.SupersededByNewStart?
    requires A.IsRunning(w.reg, id) && w.reg.records[id].intent.AAC?
    ensures var w', s := EndAction(w, id, phase, reason, turn, tick), w.machine.state;
            var s' := w'.machine.state;
            && OnlyOff(s, s', {AAC}) && OnlyGone(s.actions, s'.actions, {id}, s.adas.hdaActive)
            && s'.version == s.version + 1 && |w'.machine.events| == |w.machine.events| + 1
  {
    var ended := A.Ended(w.reg, id, phase, Some(reason), turn);
    var reg1 := A.EndAs(w.reg, id, phase, Some(reason), turn);
    A.IndexIds(w.reg);
    A.SameId(w.reg, id);
    assert ended.id == id && ended.intent.AAC? && ended.session == w.reg.records[id].session;
    EndShrinks(w.reg, id, phase, Some(reason), turn);
    A.EndIndex(w.reg, id, phase, Some(reason), turn);
    hide A.EndAs, A.IndexOk, A.IdsOk, Valid, OnlyOff, OnlyGone, Handle, A.GetRunning, EndAction, Agree, ApplyStop, HasId;
    if w.machine.state.adas.hdaActive {
      StopEffect(w.machine, AAC, id, tick);
      AacCascade(w, id, phase, reason, turn, tick);
    } else {
      HandleEffect(World(w.machine, reg1), ended, reason, tick);
      EndUnfolds(w, id, phase, reason, turn, tick);
    }
  }

  lemma EndUnfolds(w: World, id: string, phase: ActionPhase, reason: A.Reason, turn: string, tick: SM.Tick)
    requires A.IdsOk(w.reg) && Ending(phase) && A.IsRunning(w.reg, id)
    requires A.IdsOk(A.EndAs(w.reg, id, phase, Some(reason), turn))
    ensures EndAction(w, id, phase, reason, turn, tick) ==
            Handle(World(w.machine, A.EndAs(w.reg, id, phase, Some(reason), turn)),
                   A.Ended(w.reg, id, phase, Some(reason), turn), reason, tick)
  {
    hide A.EndAs, A.IdsOk, Handle;
  }

  /** With HDA on, the sibling's own handler finds nothing left to do. */
  lemma AacCascade(w: World, id: string, phase: ActionPhase, reason: A.Reason, turn: string, tick: SM.Tick)
    requires WorldOk(w) && Agree(w, {}) && UtcTick(tick) && Ending(phase) && !reason.SupersededByNewStart?
    requires A.IsRunning(w.reg, id) && w.reg.records[id].intent.AAC? && w.machine.state.adas.hdaActive
    ensures EndAction(w, id, phase, reason, turn, tick).machine == ApplyStop(w.machine, AAC, id, tick).machine
  {
    hide EndAction, ApplyStop, A.EndAs, A.IndexOk, Valid, CascadeHda, A.GetRunning, Agree, HasId;
    var ended := A.Ended(w.reg, id, phase, Some(reason), turn);
    A.EndIndex(w.reg, id, phase, Some(reason), turn);
    AacTransition(w.machine, id, tick);
    SiblingAfter(w.reg, id, phase, Some(reason), turn);
    SiblingRuns(w.reg, w.reg.records[id].session);
    AacHandled(w, id, phase, reason, turn, tick);
    var w1 := World(ApplyStop(w.machine, AAC, id, tick).machine, A.EndAs(w.reg, id, phase, Some(reason), turn));
    var h := Sibling(w, id);
    if h.Some? { EntryOfSibling(w, h.value.id, w1.machine.state); }
    CascadeEffect(w1, ended, reason, tick);
  }

  // ---- a reset ---------------------------------------------------------------------------------------------------------

  function IntentsOf(reg: A.Registry, ids: set<string>): set<Intent> {
    set id | id in ids && id in reg.records :: reg.records[id].intent
  }

  /** The records whose intent has a stop handler. */
  function BridgedOf(reg: A.Registry, ids: set<string>): set<string> {
    set id | id in ids && id in reg.records && Bridged(reg.records[id].intent)
  }

  /** The intents' features are off, and the entries gone of the records with a handler, or HDA entries cancelled along. */
  ghost predicate TurnedOff(s: VehicleState, s': VehicleState, reg: A.Registry, ids: set<string>) {
    && OnlyOff(s, s', IntentsOf(reg, ids))
    && (|| OnlyGone(s.actions, s'.actions, BridgedOf(reg, ids), false)
        || (s.adas.hdaActive && AAC in IntentsOf(reg, ids) && OnlyGone(s.actions, s'.actions, BridgedOf(reg, ids), true)))
  }

  ghost predicate NoSiblings(reg: A.Registry, ids: seq<string>) {
    forall id | id in ids && id in reg.records :: A.GetRunning(reg, reg.records[id].session, HDA).None?
  }

  lemma {:induction false} HandleAllEffect(w: World, ids: seq<string>, reason: A.Reason, tick: SM.Tick)
    requires Valid(w.machine.state) && A.IdsOk(w.reg) && UtcTick(tick) && !reason.SupersededByNewStart?
    requires NoSiblings(w.reg, ids)
    ensures var w' := HandleAll(w, ids, reason, tick);
            w'.reg == w.reg && Valid(w'.machine.state) && TurnedOff(w.machine.state, w'.machine.state, w.reg, Members(ids))
    decreases ids
  {
    hide Valid, TurnedOff, OnlyOff, OnlyGone, Handle, A.GetRunning, Members;
    if ids == [] {
      NothingOff(w.machine.state, w.reg);
    } else if ids[0] !in w.reg.records {
      HandleAllEffect(w, ids[1..], reason, tick);
      UnknownOff(w.machine.state, HandleAll(w, ids, reason, tick).machine.state, w.reg, ids);
    } else {
      var r := w.reg.records[ids[0]];
      assert r.id == ids[0] by { A.SameId(w.reg, ids[0]); }
      hide A.IdsOk;
      HandleEffect(w, r, reason, tick);
      var next := Handle(w, r, reason, tick);
      HandleAllEffect(next, ids[1..], reason, tick);
      OneMoreOff(w.machine.state, next.machine.state, HandleAll(next, ids[1..], reason, tick).machine.state, w.reg, ids);
    }
  }

  lemma NothingOff(s: VehicleState, reg: A.Registry)
    ensures TurnedOff(s, s, reg, Members([]))
  {
    assert IntentsOf(reg, Members([])) == {} && BridgedOf(reg, Members([])) == {};
  }

  lemma UnknownOff(s: VehicleState, s': VehicleState, reg: A.Registry, ids: seq<string>)
    requires ids != [] && ids[0] !in reg.records && TurnedOff(s, s', reg, Members(ids[1..]))
    ensures TurnedOff(s, s', reg, Members(ids))
  {
    hide OnlyOff, OnlyGone, Bridged;
    var all, rest := Members(ids), Members(ids[1..]);
    assert all == rest + {ids[0]};
    assert IntentsOf(reg, all) == IntentsOf(reg, rest) && BridgedOf(reg, all) == BridgedOf(reg, rest);
  }

  /** The first handler and then all the others. */
  lemma OneMoreOff(s: VehicleState, t: VehicleState, u: VehicleState, reg: A.Registry, ids: seq<string>)
    requires ids != [] && ids[0] in reg.records && TurnedOff(t, u, reg, Members(ids[1..]))
    requires var intent := reg.records[ids[0]].intent;
             && OnlyOff(s, t, {intent})
             && OnlyGone(s.actions, t.actions, if Bridged(intent) then {ids[0]} else {}, intent.AAC? && s.adas.hdaActive)
    ensures TurnedOff(s, u, reg, Members(ids))
  {
    hide Bridged, Members;
    var intent := reg.records[ids[0]].intent;
    var first := if Bridged(intent) then {ids[0]} else {};
    FirstAndRest(reg, ids);
    OffTwice(s, t, u, {intent}, IntentsOf(reg, Members(ids[1..])));
    assert t.adas.hdaActive ==> s.adas.hdaActive;
    hide OnlyOff;
    if OnlyGone(t.actions, u.actions, BridgedOf(reg, Members(ids[1..])), false) {
      GoneTwice(s.actions, t.actions, u.actions, first, intent.AAC? && s.adas.hdaActive, BridgedOf(reg, Members(ids[1..])), false);
    } else {
      GoneTwice(s.actions, t.actions, u.actions, first, intent.AAC? && s.adas.hdaActive, BridgedOf(reg, Members(ids[1..])), true);
    }
    hide OnlyGone;
  }

  lemma FirstAndRest(reg: A.Registry, ids: seq<string>)
    requires ids != [] && ids[0] in reg.records
    ensures var intent, rest := reg.records[ids[0]].intent, Members(ids[1..]);
            && IntentsOf(reg, Members(ids)) == {intent} + IntentsOf(reg, rest)
            && BridgedOf(reg, Members(ids)) == (if Bridged(intent) then {ids[0]} else {}) + BridgedOf(reg, rest)
  {
    hide Bridged;
    assert Members(ids) == {ids[0]} + Members(ids[1..]);
  }

  /** The running records in the scope of a reset. */
  function StoppedBy(reg: A.Registry, session: Option<string>): set<string> {
    set id | id in reg.records && A.IsRunning(reg, id) && (session.Some? ==> reg.records[id].session == session.value)
  }

  /**
   A reset of a session, or of all: the features of the records it stops are off, and no other; exactly those records'
   entries are gone, unless cancelling AAC took HDA entries along; nothing else of the vehicle has changed.
   */
  lemma ResetTurnsOff(w: World, session: Option<string>, reason: A.Reason, turn: string, tick: SM.Tick)
    requires WorldOk(w) && UtcTick(tick) && !reason.SupersededByNewStart?
    ensures var w' := ResetActions(w, session, reason, turn, tick);
            && TurnedOff(w.machine.state, w'.machine.state, w.reg, StoppedBy(w.reg, session)) && Valid(w'.machine.state)
            && w'.reg == A.ResetAll(w.reg, session, reason, turn)
  {
    var ids := A.RunningIds(w.reg, w.reg.order, session);
    StopAllIds(w.reg, ids, reason, turn);
    var reg1 := A.StopAll(w.reg, ids, reason, turn);
    A.IndexIds(w.reg);
    StoppedAlone(w.reg, session, reason, turn);
    StoppedMembers(w.reg, session, reason, turn);
    hide A.StopAll, A.IndexOk, A.RunningIds, Valid, TurnedOff, HandleAll, A.IdsOk, IntentsOf, BridgedOf, NoSiblings;
    HandleAllEffect(World(w.machine, reg1), ids, reason, tick);
    SameOff(w.machine.state, ResetActions(w, session, reason, turn, tick).machine.state, w.reg, reg1, Members(ids));
  }

  lemma SameOff(s: VehicleState, s': VehicleState, reg: A.Registry, reg1: A.Registry, ids: set<string>)
    requires TurnedOff(s, s', reg1, ids)
    requires IntentsOf(reg1, ids) == IntentsOf(reg, ids) && BridgedOf(reg1, ids) == BridgedOf(reg, ids)
    ensures TurnedOff(s, s', reg, ids)
  {
    hide OnlyOff, OnlyGone;
  }

  lemma StoppedMembers(reg: A.Registry, session: Option<string>, reason: A.Reason, turn: string)
    requires A.IndexOk(reg)
    ensures var ids := A.RunningIds(reg, reg.order, session);
            var reg1 := A.StopAll(reg, ids, reason, turn);
            && Members(ids) == StoppedBy(reg, session)
            && IntentsOf(reg1, Members(ids)) == IntentsOf(reg, Members(ids))
            && BridgedOf(reg1, Members(ids)) == BridgedOf(reg, Members(ids))
  {
    var ids := A.RunningIds(reg, reg.order, session);
    A.StopAllIndex(reg, ids, reason, turn);
    assert Members(ids) == StoppedBy(reg, session);
    hide A.StopAll, A.RunningIds, A.IndexOk, Members;
    SameIntents(reg, A.StopAll(reg, ids, reason, turn), Members(ids));
  }

  lemma SameIntents(reg: A.Registry, reg1: A.Registry, ids: set<string>)
    requires reg1.records.Keys == reg.records.Keys
    requires forall id | id in reg.records :: A.KeyOf(reg1.records[id]) == A.KeyOf(reg.records[id])
    ensures IntentsOf(reg1, ids) == IntentsOf(reg, ids) && BridgedOf(reg1, ids) == BridgedOf(reg, ids)
  {
    assert forall id | id in reg.records :: reg1.records[id].intent == reg.records[id].intent;
    hide Bridged;
  }

  /** Once a reset has stopped its records, none of their sessions runs HDA any more. */
  lemma StoppedAlone(reg: A.Registry, session: Option<string>, reason: A.Reason, turn: string)
    requires A.IndexOk(reg)
    ensures var ids := A.RunningIds(reg, reg.order, session); NoSiblings(A.StopAll(reg, ids, reason, turn), ids)
  {
    var ids := A.RunningIds(reg, reg.order, session);
    var reg1 := A.StopAll(reg, ids, reason, turn);
    NoneRunsInScope(reg, session, reason, turn);
    hide A.StopAll, A.RunningIds, A.IndexOk, A.GetRunning;
    forall id | id in ids && id in reg1.records ensures A.GetRunning(reg1, reg1.records[id].session, HDA).None? {
      SiblingRuns(reg1, reg1.records[id].session);
    }
  }

  lemma NoneRunsInScope(reg: A.Registry, session: Option<string>, reason: A.Reason, turn: string)
    requires A.IndexOk(reg)
    ensures var ids := A.RunningIds(reg, reg.order, session);
            var reg1 := A.StopAll(reg, ids, reason, turn);
            && A.IndexOk(reg1) && (forall x | A.IsRunning(reg1, x) :: !A.InScope(reg1.records[x], session))
            && forall id | id in ids :: id in reg1.records && A.InScope(reg1.records[id], session)
  {
    var ids := A.RunningIds(reg, reg.order, session);
    A.StopAllIndex(reg, ids, reason, turn);
    var reg1 := A.StopAll(reg, ids, reason, turn);
    assert forall id | id in reg.records :: A.KeyOf(reg1.records[id]) == A.KeyOf(reg.records[id]);
    hide A.StopAll, A.RunningIds;
  }

  // ---- a start -----------------------------------------------------------------------------------------------------------

  /** Only camp mode may have been switched on, the entries, the version and the times may differ. */
  ghost predicate OnlyCampOn(s: VehicleState, s': VehicleState, on: bool) {
    && s'.modes == s.modes.(camp := s.modes.camp || on)
    && s' == s.(version := s'.version, timestamp := s'.timestamp, provenance := s'.provenance, modes := s'.modes,
                actions := s'.actions)
    && SameReadings(s.provenance, s'.provenance)
  }

  /** The entries of other intents, in their order. */
  ghost predicate OthersKept(actions: seq<ActiveAction>, kept: seq<ActiveAction>, intent: Intent) {
    && (forall a :: a in kept <==> a in actions && a.intent != intent)
    && forall a, b :: Before(kept, a, b) ==> Before(actions, a, b)
  }

  lemma StartPatchEffect(s: VehicleState, intent: Intent, id: string)
    ensures var t := StartPatch(s, intent, id);
            && OnlyCampOn(s, t, intent.CAMPMODE?)
            && t.actions == Without(s.actions, ByIntent(intent)) + [ActiveAction(id, intent, Started, 0.0)]
            && OthersKept(s.actions, Without(s.actions, ByIntent(intent)), intent)
  {
    var kept := Without(s.actions, ByIntent(intent));
    forall a, b | Before(kept, a, b) ensures Before(s.actions, a, b) { WithoutInOrder(s.actions, ByIntent(intent), a, b); }
    hide Without, Before;
  }

  lemma CampStamp(s: VehicleState, t: VehicleState, on: bool, version: int, now: Time)
    requires OnlyCampOn(s, t, on)
    ensures OnlyCampOn(s, Stamp(t, version, now), on)
  {}

  lemma StartedState(w: World, r: A.Record, tick: SM.Tick)
    requires Valid(w.machine.state) && UtcTick(tick) && Bridged(r.intent) && O.Startable(w.machine.state, r.intent, r.id)
    ensures var o, s, kept := O.StartOutcome(w, r, tick), w.machine.state, Without(w.machine.state.actions, ByIntent(r.intent));
            && o.result.Ok? && Valid(o.machine.state) && OnlyCampOn(s, o.machine.state, r.intent.CAMPMODE?)
            && o.machine.state.actions == kept + [ActiveAction(r.id, r.intent, Started, 0.0)]
            && OthersKept(s.actions, kept, r.intent)
            && o.machine.state.version == s.version + 1 && o.machine.state.timestamp == tick.now
  {
    var s := w.machine.state;
    O.StartCommits(w, r, tick);
    StartPatchEffect(s, r.intent, r.id);
    CampStamp(s, StartPatch(s, r.intent, r.id), r.intent.CAMPMODE?, s.version + 1, tick.now);
    hide Valid, StartPatch, OnlyCampOn, OthersKept, O.Startable, O.StartOutcome;
  }

  /**
   A start that commits puts one new entry behind those of other intents, switches camp mode on if that is what starts,
   and changes nothing else of the vehicle; the registry starts the record.
   */
  lemma StartEffect(w: World, r: A.Record, tick: SM.Tick)
    requires WorldOk(w) && UtcTick(tick) && Bridged(r.intent) && O.Startable(w.machine.state, r.intent, r.id)
    ensures A.IdsOk(w.reg)
    ensures var w', s := StartBridged(w, r, false, tick), w.machine.state;
            var s' := w'.machine.state;
            && s'.version == s.version + 1 && s'.timestamp == tick.now && |w'.machine.events| == |w.machine.events| + 1
            && OnlyCampOn(s, s', r.intent.CAMPMODE?) && |s'.actions| > 0
            && s'.actions[|s'.actions| - 1] == ActiveAction(r.id, r.intent, Started, 0.0)
            && OthersKept(s.actions, s'.actions[..|s'.actions| - 1], r.intent)
            && w'.reg == A.StartAction(w.reg, r)
  {
    A.IndexIds(w.reg);
    StartedState(w, r, tick);
    OneEvent(w.machine, (c: VehicleState) => Checked(StartPatch(c, r.intent, r.id)), START_REQUEST, tick);
    hide A.IndexOk, A.IdsOk, Valid, OnlyCampOn, OthersKept, O.Startable, SM.Apply, A.StartAction, Checked, Without;
  }

  lemma OneEvent(m: SM.Machine, patch: Patch, r: SM.Request, tick: SM.Tick)
    requires SM.Apply(m, patch, r, tick).result.Ok?
    ensures var o := SM.Apply(m, patch, r, tick); |o.machine.events| == |m.events| + 1
    ensures SM.Apply(m, patch, r, tick).machine.state.version == m.state.version + 1
    ensures SM.Apply(m, patch, r, tick).machine.state.timestamp == tick.now
  {
    hide StateFault, Restamp;
  }

  /**
   When the registry refuses, the rollback takes the new entry out again, at a second version. It does not bring the
   replaced entries back, nor does it switch camp mode off.
   */
  lemma RollbackEffect(w: World, r: A.Record, tick: SM.Tick)
    requires WorldOk(w) && UtcTick(tick) && Bridged(r.intent) && O.Startable(w.machine.state, r.intent, r.id)
    ensures A.IdsOk(w.reg)
    ensures var w', s := StartBridged(w, r, true, tick), w.machine.state;
            && w'.machine.state.version == s.version + 2 && OnlyCampOn(s, w'.machine.state, r.intent.CAMPMODE?)
            && OthersKept(s.actions, w'.machine.state.actions, r.intent) && w'.reg == w.reg
  {
    A.IndexIds(w.reg);
    var m := O.StartOutcome(w, r, tick).machine;
    StartedState(w, r, tick);
    NewEntryOut(w.machine.state.actions, r.intent, r.id);
    RolledBackIs(w, r, tick);
    hide A.IndexOk, A.IdsOk, Valid, OnlyCampOn, OthersKept, StartBridged, Without, RolledBack, O.Startable, O.StartOutcome,
         HasId, Stamp;
    DropTransition(m, r.id, tick);
    DropKeeps(w.machine.state, m.state, r.id, r.intent.CAMPMODE?, tick);
  }

  lemma RolledBackIs(w: World, r: A.Record, tick: SM.Tick)
    requires A.IdsOk(w.reg) && O.StartOutcome(w, r, tick).result.Ok?
    ensures StartBridged(w, r, true, tick) == World(RolledBack(O.StartOutcome(w, r, tick).machine, r.id, tick), w.reg)
  {
    hide A.IdsOk, SM.Apply, StartPatch, RolledBack;
  }

  lemma DropTransition(m: SM.Machine, id: string, tick: SM.Tick)
    requires Valid(m.state) && UtcTick(tick)
    ensures RolledBack(m, id, tick).state ==
            Stamp(m.state.(actions := Without(m.state.actions, ById(id))), m.state.version + 1, tick.now)
  {
    hide SM.Apply, Valid, Checked, Stamp;
    var patch: Patch := (s: VehicleState) => Checked(s.(actions := Without(s.actions, ById(id))));
    var dropped := m.state.(actions := Without(m.state.actions, ById(id)));
    DropValid(m.state, id);
    VersionNat(m.state);
    SM.StampedIsChecked(dropped);
    SM.ValidPatchCommits(m, patch, ROLLBACK_REQUEST, tick, dropped);
  }

  lemma DropKeeps(s: VehicleState, t: VehicleState, id: string, on: bool, tick: SM.Tick)
    requires OnlyCampOn(s, t, on)
    ensures var u := Stamp(t.(actions := Without(t.actions, ById(id))), t.version + 1, tick.now);
            OnlyCampOn(s, u, on) && u.version == t.version + 1 && u.actions == Without(t.actions, ById(id))
  {
    hide Without;
  }

  /** Dropping the new entry by its id leaves exactly those of the other intents, none of which has that id. */
  lemma NewEntryOut(actions: seq<ActiveAction>, intent: Intent, id: string)
    requires !HasId(Without(actions, ByIntent(intent)), id)
    ensures Without(Without(actions, ByIntent(intent)) + [ActiveAction(id, intent, Started, 0.0)], ById(id)) ==
            Without(actions, ByIntent(intent))
  {
    var kept := Without(actions, ByIntent(intent));
    forall a | a in kept ensures a.id != id {}
    LastOut(kept, ActiveAction(id, intent, Started, 0.0));
  }

  lemma {:induction false} LastOut(kept: seq<ActiveAction>, last: ActiveAction)
    requires forall a | a in kept :: a.id != last.id
    ensures Without(kept + [last], ById(last.id)) == kept
  {
    if kept == [] {
      assert [] + [last] == [last] && [last][1..] == [];
    } else {
      assert (kept + [last])[0] == kept[0] && (kept + [last])[1..] == kept[1..] + [last];
      LastOut(kept[1..], last);
    }
  }
}
