/**
 The converse of agreement: running records whose entry in the vehicle state is gone. Entries are dropped by
 intent, records are superseded per session, and the two are not the same.
 */
module Orphans {
  import opened Wrappers
  import opened VehicleModel
  import opened Cascade
  import SM = StateMachine
  import A = ActiveActions

  /** Still "running" in the registry, but the vehicle state has no entry for it. */
  ghost predicate Orphan(w: World, x: string) {
    A.IsRunning(w.reg, x) && Bridged(w.reg.records[x].intent) && !HasId(w.machine.state.actions, x)
  }

  predicate Runs(reg: A.Registry, x: string, intent: Intent) {
    A.IsRunning(reg, x) && reg.records[x].intent == intent
  }

  predicate RunsElsewhere(reg: A.Registry, x: string, intent: Intent, session: string) {
    Runs(reg, x, intent) && reg.records[x].session != session
  }

  // ---- when a start commits ------------------------------------------------------------------------------------

  lemma {:induction false} DuplicateAppend(actions: seq<ActiveAction>, a: ActiveAction)
    ensures DuplicateIds(actions + [a]) <==> DuplicateIds(actions) || HasId(actions, a.id)
  {
    if actions == [] {
      assert [] + [a] == [a];
    } else {
      DuplicateAppend(actions[1..], a);
      assert (actions + [a])[1..] == actions[1..] + [a];
      assert forall x :: x in actions <==> x == actions[0] || x in actions[1..];
    }
  }

  /** What the vehicle must be like for a bridged start to go through. */
  predicate Startable(s: VehicleState, intent: Intent, id: string) {
    && (NeedsPower(intent) ==> s.power.poweredOn) && (intent.CAMPMODE? ==> !s.modes.pet && !s.modes.valet)
    && id != "" && !HasId(Without(s.actions, ByIntent(intent)), id)
  }

  lemma StartPatchValid(s: VehicleState, intent: Intent, id: string)
    requires Valid(s) && Bridged(intent)
    ensures Valid(StartPatch(s, intent, id)) <==> Startable(s, intent, id)
  {
    hide Valid, CoherentHeader, CoherentDoors, DuplicateIds, HasId, Without;
    var t, kept, added := StartPatch(s, intent, id), Without(s.actions, ByIntent(intent)), ActiveAction(id, intent, Started, 0.0);
    ValidIsCoherent(s);
    ValidIsCoherent(t);
    SameCoherentHeader(s, t);
    DuplicateAppend(kept, added);
    assert t.actions == kept + [added] && added in t.actions;
  }

  lemma SameCoherentHeader(s: VehicleState, t: VehicleState)
    requires t.version == s.version && t.timestamp == s.timestamp && t.provenance == s.provenance
    ensures CoherentHeader(s) <==> CoherentHeader(t)
  {}

  function StartOutcome(w: World, r: A.Record, tick: SM.Tick): SM.Outcome {
    SM.Apply(w.machine, (s: VehicleState) => Checked(StartPatch(s, r.intent, r.id)), START_REQUEST, tick)
  }

  lemma StartCommits(w: World, r: A.Record, tick: SM.Tick)
    requires Valid(w.machine.state) && UtcTick(tick) && Bridged(r.intent)
    ensures var o := StartOutcome(w, r, tick);
            && (o.result.Ok? <==> Startable(w.machine.state, r.intent, r.id)) && (o.result.Err? ==> o.machine == w.machine)
            && (o.result.Ok? ==>
                  && Valid(o.machine.state)
                  && o.machine.state == Stamp(StartPatch(w.machine.state, r.intent, r.id), w.machine.state.version + 1, tick.now)
                  && o.machine.state.actions == StartPatch(w.machine.state, r.intent, r.id).actions)
  {
    hide Valid, StartPatch, Startable, SM.Apply;
    StartPatchValid(w.machine.state, r.intent, r.id);
    VersionNat(w.machine.state);
    var patch: Patch := (s: VehicleState) => Checked(StartPatch(s, r.intent, r.id));
    ApplyEffect(w.machine, patch, START_REQUEST, tick);
    var c := StartPatch(w.machine.state, r.intent, r.id);
    if Valid(c) {
      SM.StampedIsChecked(c);
      SM.ValidPatchCommits(w.machine, patch, START_REQUEST, tick, c);
    }
    hide Checked;
  }

  // ---- what a start orphans ------------------------------------------------------------------------------------------

  /** The registry supersedes per session and intent. */
  lemma StartStops(reg: A.Registry, r: A.Record, x: string)
    requires A.IndexOk(reg) && r.phase.Started? && r.id !in reg.records
    ensures var reg' := A.StartAction(reg, r);
            && (A.IsRunning(reg', x) <==> x == r.id || (A.IsRunning(reg, x) && A.KeyOf(reg.records[x]) != A.KeyOf(r)))
            && (x in reg.records ==> A.KeyOf(reg'.records[x]) == A.KeyOf(reg.records[x]))
            && (x == r.id ==> reg'.records[x] == r)
  {
    var existing := A.Existing(reg, A.KeyOf(r));
    if existing.Some? {
      A.EndIndex(reg, existing.value, Stopped, Some(A.SupersededByNewStart), r.turn);
      assert A.IsRunning(reg, existing.value) && A.KeyOf(reg.records[existing.value]) == A.KeyOf(r);
    }
    if A.IsRunning(reg, x) && A.KeyOf(reg.records[x]) == A.KeyOf(r) {
      assert A.KeyOf(r) in reg.index && reg.index[A.KeyOf(r)] == x;
    }
    hide A.EndAs;
  }

  /** Entries carry the intents of their records, so dropping by intent drops exactly those records' entries. */
  lemma EntryKept(w: World, x: string, intent: Intent, actions: seq<ActiveAction>)
    requires Agree(w, {}) && x in w.reg.records
    requires forall a :: a in actions <==> a in w.machine.state.actions && a.intent != intent
    ensures HasId(actions, x) <==> HasId(w.machine.state.actions, x) && w.reg.records[x].intent != intent
  {
    forall a | a in w.machine.state.actions && a.id == x ensures a.intent == w.reg.records[x].intent {
      assert Backed(w.reg, a, {});
    }
    if HasId(w.machine.state.actions, x) && w.reg.records[x].intent != intent {
      var a :| a in w.machine.state.actions && a.id == x;
      assert a in actions;
    }
  }

  lemma AppendedId(actions: seq<ActiveAction>, a: ActiveAction, x: string)
    ensures HasId(actions + [a], x) <==> HasId(actions, x) || a.id == x
  {
    assert forall y :: y in actions + [a] <==> y in actions || y == a;
  }

  /**
   A start that goes through orphans exactly the runs of its intent in other sessions; other intents stay as they
   were, and the session's own earlier run is properly superseded.
   */
  lemma StartOrphans(w: World, r: A.Record, tick: SM.Tick, x: string)
    requires WorldOk(w) && Agree(w, {}) && UtcTick(tick) && Bridged(r.intent) && r.phase.Started? && r.id !in w.reg.records
    requires Startable(w.machine.state, r.intent, r.id)
    ensures Orphan(StartBridged(w, r, false, tick), x) <==>
            RunsElsewhere(w.reg, x, r.intent, r.session) || (Orphan(w, x) && w.reg.records[x].intent != r.intent)
  {
    hide Valid, A.IndexOk, Startable, SM.Apply, Checked, A.StartAction, HasId, Agree, StartPatch;
    StartCommits(w, r, tick);
    StartStops(w.reg, r, x);
    StartedIds(w, r, x);
  }

  lemma StartedIds(w: World, r: A.Record, x: string)
    requires Agree(w, {}) && r.id !in w.reg.records
    ensures var actions := StartPatch(w.machine.state, r.intent, r.id).actions;
            && HasId(actions, r.id)
            && (x in w.reg.records ==>
                  (HasId(actions, x) <==> HasId(w.machine.state.actions, x) && w.reg.records[x].intent != r.intent))
  {
    hide HasId, Agree;
    var kept, added := Without(w.machine.state.actions, ByIntent(r.intent)), ActiveAction(r.id, r.intent, Started, 0.0);
    AppendedId(kept, added, x);
    AppendedId(kept, added, r.id);
    if x in w.reg.records { EntryKept(w, x, r.intent, kept); }
  }

  /** A start that does not go through changes nothing at all. */
  lemma RefusedStart(w: World, r: A.Record, registryFails: bool, tick: SM.Tick)
    requires WorldOk(w) && UtcTick(tick) && Bridged(r.intent) && !Startable(w.machine.state, r.intent, r.id)
    ensures StartBridged(w, r, registryFails, tick) == w
  {
    StartCommits(w, r, tick);
    hide Valid, A.IndexOk, Startable, SM.Apply, Checked, A.StartAction;
  }

  /**
   When the registry refuses the record, the rollback takes out the new entry but does not put the dropped ones
   back: every run of the intent is orphaned, in the starting session too.
   */
  lemma RollbackOrphans(w: World, r: A.Record, tick: SM.Tick, x: string)
    requires WorldOk(w) && Agree(w, {}) && UtcTick(tick) && Bridged(r.intent) && r.phase.Started? && r.id !in w.reg.records
    requires Startable(w.machine.state, r.intent, r.id)
    ensures Orphan(StartBridged(w, r, true, tick), x) <==> Runs(w.reg, x, r.intent) || Orphan(w, x)
  {
    hide Valid, A.IndexOk, Startable, SM.Apply, Checked, A.StartAction, HasId, Agree, RolledBack, Without;
    StartCommits(w, r, tick);
    var m := StartOutcome(w, r, tick).machine;
    RollbackDrops(m, r.id, tick);
    StartEntries(w.machine.state, r.intent, r.id);
    var kept, final := Without(w.machine.state.actions, ByIntent(r.intent)), RolledBack(m, r.id, tick).state.actions;
    if x in w.reg.records {
      EntryKept(w, x, r.intent, kept);
      SameIds(kept, final, r.id, x);
    }
  }

  lemma SameIds(kept: seq<ActiveAction>, final: seq<ActiveAction>, id: string, x: string)
    requires x != id && forall a: ActiveAction | a.id != id :: a in final <==> a in kept
    ensures HasId(final, x) <==> HasId(kept, x)
  {}

  // ---- what an end orphans ----------------------------------------------------------------------------------------------

  /**
   Ending AAC while HDA is on orphans exactly the HDA runs of other sessions: the cascade switches HDA off for
   all, drops every HDA entry, and stops the HDA record of its own session only.
   */
  lemma AacStopOrphans(w: World, id: string, phase: ActionPhase, reason: A.Reason, turn: string, tick: SM.Tick, x: string)
    requires WorldOk(w) && Agree(w, {}) && UtcTick(tick) && Ending(phase) && !reason.SupersededByNewStart?
    requires Runs(w.reg, id, AAC) && w.machine.state.adas.hdaActive
    ensures var w' := EndAction(w, id, phase, reason, turn, tick);
            && !w'.machine.state.adas.hdaActive
            && (Runs(w'.reg, x, HDA) <==> RunsElsewhere(w.reg, x, HDA, w.reg.records[id].session))
            && (Orphan(w', x) <==> RunsElsewhere(w.reg, x, HDA, w.reg.records[id].session)
                                   || (Orphan(w, x) && x != id && w.reg.records[x].intent != HDA))
  {
    hide EndAction, Valid, A.IndexOk, A.IdsOk, Agree, HasId, A.GetRunning;
    A.IndexIds(w.reg);
    AacRecords(w, id, phase, reason, turn, tick, x);
    AacEntries(w, id, phase, reason, turn, tick, x);
  }

  lemma AacRecords(w: World, id: string, phase: ActionPhase, reason: A.Reason, turn: string, tick: SM.Tick, x: string)
    requires WorldOk(w) && Agree(w, {}) && UtcTick(tick) && Ending(phase) && !reason.SupersededByNewStart?
    requires Runs(w.reg, id, AAC) && w.machine.state.adas.hdaActive
    ensures var w' := EndAction(w, id, phase, reason, turn, tick);
            && KeepsIntents(w.reg, w'.reg)
            && (A.IsRunning(w'.reg, x) <==>
                  A.IsRunning(w.reg, x) && x != id
                  && !(w.reg.records[x].intent == HDA && w.reg.records[x].session == w.reg.records[id].session))
  {
    hide EndAction, Valid, A.IndexOk, A.IdsOk, Agree, A.GetRunning;
    A.IndexIds(w.reg);
    AacStopCascades(w, id, phase, reason, turn, tick);
    SiblingRuns(w.reg, w.reg.records[id].session);
    AacIntents(w, id, phase, reason, turn, tick);
    AacRuns(w.reg, EndAction(w, id, phase, reason, turn, tick).reg, id, Sibling(w, id), x);
  }

  lemma AacEntries(w: World, id: string, phase: ActionPhase, reason: A.Reason, turn: string, tick: SM.Tick, x: string)
    requires WorldOk(w) && Agree(w, {}) && UtcTick(tick) && Ending(phase) && !reason.SupersededByNewStart?
    requires Runs(w.reg, id, AAC) && w.machine.state.adas.hdaActive
    ensures var w' := EndAction(w, id, phase, reason, turn, tick);
            && !w'.machine.state.adas.hdaActive
            && (x in w.reg.records && x != id ==>
                  (HasId(w'.machine.state.actions, x) <==>
                   HasId(w.machine.state.actions, x) && w.reg.records[x].intent != HDA))
  {
    hide EndAction, Valid, A.IndexOk, A.IdsOk, Agree, A.GetRunning, HasId;
    A.IndexIds(w.reg);
    AacStopCascades(w, id, phase, reason, turn, tick);
    if x in w.reg.records { EntryKeptButOne(w, x, id, EndAction(w, id, phase, reason, turn, tick).machine.state.actions); }
  }

  /** Ending the AAC record and the session's HDA record, if any, stops exactly that session's HDA and the AAC. */
  lemma AacRuns(reg: A.Registry, reg': A.Registry, id: string, sibling: Option<A.Record>, x: string)
    requires A.IndexOk(reg) && Runs(reg, id, AAC) && sibling == A.GetRunning(reg, reg.records[id].session, HDA)
    requires KeepsIntents(reg, reg') && !A.Running(reg'.records[id])
    requires sibling.Some? ==> Runs(reg, sibling.value.id, HDA) && reg.records[sibling.value.id] == sibling.value
                               && sibling.value.session == reg.records[id].session
                               && !A.Running(reg'.records[sibling.value.id])
    requires forall y | y in reg.records && y != id && (sibling.Some? ==> y != sibling.value.id) ::
               reg'.records[y] == reg.records[y]
    ensures A.IsRunning(reg', x) <==>
            A.IsRunning(reg, x) && x != id
            && !(reg.records[x].intent == HDA && reg.records[x].session == reg.records[id].session)
  {
    if Runs(reg, x, HDA) && reg.records[x].session == reg.records[id].session {
      OneRun(reg, x, reg.records[id].session, HDA);
    }
    hide A.IndexOk, A.GetRunning;
  }

  lemma EntryKeptButOne(w: World, x: string, id: string, actions: seq<ActiveAction>)
    requires Agree(w, {}) && x in w.reg.records
    requires forall a :: a in actions <==> a in w.machine.state.actions && a.id != id && a.intent != HDA
    ensures x != id ==> (HasId(actions, x) <==> HasId(w.machine.state.actions, x) && w.reg.records[x].intent != HDA)
  {
    forall a | a in w.machine.state.actions && a.id == x ensures a.intent == w.reg.records[x].intent {
      assert Backed(w.reg, a, {});
    }
    if x != id && HasId(w.machine.state.actions, x) && w.reg.records[x].intent != HDA {
      var a :| a in w.machine.state.actions && a.id == x;
      assert a in actions;
    }
  }

  lemma OneRun(reg: A.Registry, x: string, session: string, intent: Intent)
    requires A.IndexOk(reg) && A.IsRunning(reg, x) && A.KeyOf(reg.records[x]) == (session, intent)
    ensures A.GetRunning(reg, session, intent) == Some(reg.records[x])
    ensures reg.records[x].id == x
  {
    var key: A.Key := (session, intent);
    assert key in reg.index && reg.index[key] == x;
  }

  /** Ends change no record's intent or session. */
  lemma AacIntents(w: World, id: string, phase: ActionPhase, reason: A.Reason, turn: string, tick: SM.Tick)
    requires WorldOk(w) && Agree(w, {}) && UtcTick(tick) && Ending(phase) && !reason.SupersededByNewStart?
    ensures KeepsIntents(w.reg, EndAction(w, id, phase, reason, turn, tick).reg)
  {
    EndAgrees(w, id, phase, reason, turn, tick, {});
  }

  /** Every other end drops the ended record's own entry and nothing else. */
  lemma EndEntries(w: World, id: string, phase: ActionPhase, reason: A.Reason, turn: string, tick: SM.Tick)
    requires WorldOk(w) && UtcTick(tick) && Ending(phase) && !reason.SupersededByNewStart? && A.IsRunning(w.reg, id)
    requires !(Runs(w.reg, id, AAC) && w.machine.state.adas.hdaActive)
    ensures A.IdsOk(w.reg)
    ensures var w' := EndAction(w, id, phase, reason, turn, tick);
            && w'.reg == A.EndAs(w.reg, id, phase, Some(reason), turn)
            && forall a: ActiveAction | a.id != id :: a in w'.machine.state.actions <==> a in w.machine.state.actions
  {
    hide A.EndAs, A.IndexOk, ApplyStop, CascadeHda, A.IdsOk, AlreadyOff, Valid;
    A.IndexIds(w.reg);
    EndShrinks(w.reg, id, phase, Some(reason), turn);
    var ended := A.Ended(w.reg, id, phase, Some(reason), turn);
    A.SameId(w.reg, id);
    if !AlreadyOff(w.machine.state, ended.intent, id) {
      StopCommits(w.machine, ended.intent, id, tick);
      StopKeeps(w.machine.state, ended.intent, id);
    }
  }

  lemma StopKeeps(s: VehicleState, intent: Intent, id: string)
    requires !(intent.AAC? && s.adas.hdaActive)
    ensures forall a: ActiveAction | a.id != id :: a in StopPatch(s, intent, id).actions <==> a in s.actions
  {}

  /** So it orphans nothing. */
  lemma EndOrphansNothing(w: World, id: string, phase: ActionPhase, reason: A.Reason, turn: string, tick: SM.Tick, x: string)
    requires WorldOk(w) && UtcTick(tick) && Ending(phase) && !reason.SupersededByNewStart? && A.IsRunning(w.reg, id)
    requires !(Runs(w.reg, id, AAC) && w.machine.state.adas.hdaActive)
    ensures A.IdsOk(w.reg)
    ensures Orphan(EndAction(w, id, phase, reason, turn, tick), x) <==> Orphan(w, x) && x != id
  {
    hide EndAction, A.IndexOk, A.IdsOk, Valid, A.EndAs;
    EndEntries(w, id, phase, reason, turn, tick);
    A.EndIndex(w.reg, id, phase, Some(reason), turn);
    if x != id { SameIds(w.machine.state.actions, EndAction(w, id, phase, reason, turn, tick).machine.state.actions, id, x); }
  }

  // ---- with one session the two sides match exactly -----------------------------------------------------------------

  ghost predicate InSession(reg: A.Registry, session: string) {
    forall x | A.IsRunning(reg, x) :: reg.records[x].session == session
  }

  ghost predicate NoOrphans(w: World) {
    forall x :: !Orphan(w, x)
  }

  /** Starts of one session that the registry takes; other transitions leave the bridged entries alone. */
  ghost predicate InOneSession(w: World, op: Op, session: string) {
    match op
    case StartOp(r, registryFails, _) => r.session == session && !registryFails
    case OtherTransition(next) => forall a | a in w.machine.state.actions && Bridged(a.intent) :: a in next.actions
    case _ => true
  }

  lemma StartInSession(w: World, op: Op, session: string)
    requires WorldOk(w) && Agree(w, {}) && op.StartOp? && Allowed(w, op) && InOneSession(w, op, session)
    requires NoOrphans(w) && InSession(w.reg, session)
    ensures NoOrphans(Execute(w, op)) && InSession(Execute(w, op).reg, session)
  {
    var StartOp(r, _, tick) := op;
    hide A.IndexOk, Valid, Agree, Startable, Bridged, StartBridged, Orphan, UtcTick;
    if Startable(w.machine.state, r.intent, r.id) {
      var w' := StartBridged(w, r, false, tick);
      forall x ensures !Orphan(w', x) { StartOrphans(w, r, tick, x); }
      StartedRegistry(w, r, tick);
      hide A.StartAction;
      forall x | A.IsRunning(w'.reg, x) ensures w'.reg.records[x].session == session { StartStops(w.reg, r, x); }
    } else {
      RefusedStart(w, r, false, tick);
    }
  }

  lemma StartedRegistry(w: World, r: A.Record, tick: SM.Tick)
    requires WorldOk(w) && UtcTick(tick) && Bridged(r.intent) && Startable(w.machine.state, r.intent, r.id)
    ensures StartBridged(w, r, false, tick).reg == A.StartAction(w.reg, r)
  {
    hide Valid, A.IndexOk, Startable, SM.Apply, Checked, A.StartAction;
    StartCommits(w, r, tick);
  }

  lemma EndInSession(w: World, op: Op, session: string)
    requires WorldOk(w) && Agree(w, {}) && op.EndOp? && Allowed(w, op) && NoOrphans(w) && InSession(w.reg, session)
    ensures NoOrphans(Execute(w, op)) && InSession(Execute(w, op).reg, session)
  {
    var EndOp(id, phase, reason, turn, tick) := op;
    hide A.IndexOk, A.IdsOk, Valid, Agree, EndAction, Orphan, UtcTick;
    A.IndexIds(w.reg);
    EndStill(w, id, phase, reason, turn, tick);
    var w' := EndAction(w, id, phase, reason, turn, tick);
    if A.IsRunning(w.reg, id) {
      forall x ensures !Orphan(w', x) {
        if Runs(w.reg, id, AAC) && w.machine.state.adas.hdaActive {
          AacStopOrphans(w, id, phase, reason, turn, tick, x);
        } else {
          EndOrphansNothing(w, id, phase, reason, turn, tick, x);
        }
      }
    } else {
      EndOfNone(w, id, phase, reason, turn, tick);
    }
  }

  lemma EndOfNone(w: World, id: string, phase: ActionPhase, reason: A.Reason, turn: string, tick: SM.Tick)
    requires A.IdsOk(w.reg) && Ending(phase) && !A.IsRunning(w.reg, id)
    ensures EndAction(w, id, phase, reason, turn, tick) == w
  {
    hide Handle, A.EndAs, A.IdsOk;
  }

  /** A reset in scope leaves nothing running, one out of scope finds nothing to stop. */
  lemma ResetInSession(w: World, op: Op, session: string)
    requires WorldOk(w) && op.ResetOp? && NoOrphans(w) && InSession(w.reg, session)
    ensures NoOrphans(Execute(w, op)) && InSession(Execute(w, op).reg, session)
  {
    var ResetOp(scope, reason, turn, tick) := op;
    hide Valid, HandleAll, A.StopAll, A.RunningIds;
    var ids := A.RunningIds(w.reg, w.reg.order, scope);
    StopAllIds(w.reg, ids, reason, turn);
    A.StopAllIndex(w.reg, ids, reason, turn);
    var w1 := World(w.machine, A.StopAll(w.reg, ids, reason, turn));
    if scope == None || scope == Some(session) {
      forall x ensures !A.IsRunning(w1.reg, x) {
        if A.IsRunning(w.reg, x) { assert x in w.reg.order && x in ids; }
      }
      AllStill(w1, ids, reason, tick);
    } else {
      assert forall x :: x !in ids;
      NothingHandled(w, ids, reason, turn, tick);
    }
  }

  lemma NothingHandled(w: World, ids: seq<string>, reason: A.Reason, turn: string, tick: SM.Tick)
    requires ids == [] && A.IdsOk(w.reg)
    ensures A.StopAll(w.reg, ids, reason, turn) == w.reg && HandleAll(w, ids, reason, tick) == w
  {}

  lemma OtherInSession(w: World, op: Op, session: string)
    requires A.IdsOk(w.reg) && op.OtherTransition? && Agree(w, {}) && InOneSession(w, op, session)
    requires NoOrphans(w) && InSession(w.reg, session)
    ensures NoOrphans(Execute(w, op)) && InSession(Execute(w, op).reg, session)
  {
    hide Bridged;
    var w' := Execute(w, op);
    forall x | A.IsRunning(w.reg, x) && Bridged(w.reg.records[x].intent) ensures HasId(w'.machine.state.actions, x) {
      assert !Orphan(w, x);
      var a :| a in w.machine.state.actions && a.id == x;
      assert Backed(w.reg, a, {});
      assert a in w'.machine.state.actions;
    }
  }

  lemma StepInSession(w: World, op: Op, session: string)
    requires WorldOk(w) && Agree(w, {}) && Allowed(w, op) && InOneSession(w, op, session)
    requires NoOrphans(w) && InSession(w.reg, session)
    ensures NoOrphans(Execute(w, op)) && InSession(Execute(w, op).reg, session)
  {
    hide A.IndexOk, Valid, Agree, Execute, NoOrphans, InSession, Allowed, InOneSession;
    match op
    case StartOp(_, _, _) => StartInSession(w, op, session);
    case EndOp(_, _, _, _, _) => EndInSession(w, op, session);
    case ResetOp(_, _, _, _) => ResetInSession(w, op, session);
    case OtherTransition(_) => A.IndexIds(w.reg); OtherInSession(w, op, session);
  }

  ghost predicate OneSession(run: seq<World>, ops: seq<Op>, session: string)
    requires |run| == |ops| + 1
  {
    run[0].reg.records == map[] && forall i | 0 <= i < |ops| :: InOneSession(run[i], ops[i], session)
  }

  lemma {:induction false} NoOrphansInOneSession(run: seq<World>, ops: seq<Op>, session: string, i: nat)
    requires IsRun(run, ops) && OneSession(run, ops, session) && i < |run|
    ensures NoOrphans(run[i]) && InSession(run[i].reg, session)
    decreases i
  {
    hide WorldOk, Execute, Allowed, Bridged, Agree, InOneSession;
    if i > 0 {
      NoOrphansInOneSession(run, ops, session, i - 1);
      EntriesHaveRecords(run, ops, i - 1);
      assert Follows(run, ops, i - 1) && InOneSession(run[i - 1], ops[i - 1], session);
      hide NoOrphans, InSession;
      StepInSession(run[i - 1], ops[i - 1], session);
    }
  }

  /** With a single session, the bridged entries of the vehicle state are at every moment exactly the running records. */
  lemma OneSessionIsExact(run: seq<World>, ops: seq<Op>, session: string, i: nat, x: string)
    requires IsRun(run, ops) && OneSession(run, ops, session) && i < |run|
    ensures HasBridgedEntry(run[i].machine.state, x) <==>
            A.IsRunning(run[i].reg, x) && Bridged(run[i].reg.records[x].intent)
  {
    NoOrphansInOneSession(run, ops, session, i);
    EntriesHaveRecords(run, ops, i);
    hide WorldOk, Execute, Allowed, Bridged, InOneSession;
    assert !Orphan(run[i], x);
    if HasId(run[i].machine.state.actions, x) && x in run[i].reg.records {
      var a :| a in run[i].machine.state.actions && a.id == x;
      assert Backed(run[i].reg, a, {});
    }
  }

  // ---- concrete runs ----------------------------------------------------------------------------------------------------

  const TICK: SM.Tick := SM.Tick(EPOCH, "event")

  function NewRecord(id: string, intent: Intent, session: string): A.Record {
    A.Record(id, intent, session, "turn", Started, 0.0, None)
  }

  /** Powered on, nothing running, with these ADAS functions on. */
  function Idle(adas: Adas): (w: World)
    ensures A.IdsOk(w.reg)
  {
    World(SM.Machine(ParkedReady().(adas := adas), []), A.Registry([], map[], map[]))
  }

  const PLAIN: Adas := Adas(ACC_OFF, false, PARK_OFF, false, false, true, true, false, true)
  const ASSISTED: Adas := PLAIN.(acc := ACC_ACTIVE, hdaActive := true)

  /** A good world with nothing running but, perhaps, one first action "a" of session "A". */
  ghost predicate FirstStarted(w: World, intent: Intent, adas: Adas) {
    && WorldOk(w) && Agree(w, {}) && w.machine.state.adas == adas && w.machine.state.power.poweredOn
    && !w.machine.state.modes.pet && !w.machine.state.modes.valet
    && w.reg.records == map["a" := NewRecord("a", intent, "A")]
    && w.machine.state.actions == [ActiveAction("a", intent, Started, 0.0)]
  }

  lemma IdleOk(adas: Adas)
    requires (adas.hdaActive ==> adas.acc == ACC_ACTIVE) && (adas.tcs ==> adas.esc)
    ensures WorldOk(Idle(adas)) && Agree(Idle(adas), {})
  {
    hide Valid, Readings;
    var s := Idle(adas).machine.state;
    DefaultsValid(Power(true, false, 100.0), adas, Modes(NORMAL, false, false, false, false));
    assert s == DefaultState().(power := s.power, adas := adas, modes := s.modes);
  }

  lemma StartIds(w: World, r: A.Record, registryFails: bool, tick: SM.Tick)
    requires A.IdsOk(w.reg)
    ensures A.IdsOk(StartBridged(w, r, registryFails, tick).reg)
  {
    hide SM.Apply, Checked, RolledBack;
  }

  function StartIn(w: World, id: string, intent: Intent, session: string): (w': World)
    requires A.IdsOk(w.reg)
    ensures A.IdsOk(w'.reg)
  {
    StartIds(w, NewRecord(id, intent, session), false, TICK);
    StartBridged(w, NewRecord(id, intent, session), false, TICK)
  }

  /** One bridged action of session "A" on an idle vehicle. */
  function First(intent: Intent, adas: Adas): (w: World)
    ensures A.IdsOk(w.reg)
  {
    StartIn(Idle(adas), "a", intent, "A")
  }

  lemma FirstIsStarted(intent: Intent, adas: Adas)
    requires (adas.hdaActive ==> adas.acc == ACC_ACTIVE) && (adas.tcs ==> adas.esc) && Bridged(intent)
    ensures FirstStarted(First(intent, adas), intent, adas)
  {
    hide WorldOk, Agree, Startable, StartIn, Idle, Bridged, A.StartAction, StartPatch, FirstStarted, UtcTick;
    IdleOk(adas);
    FirstPatch(adas, intent);
    TickIsUtc();
    FromIdle(Idle(adas), intent, adas);
  }

  lemma FromIdle(w: World, intent: Intent, adas: Adas)
    requires WorldOk(w) && Agree(w, {}) && Bridged(intent) && UtcTick(TICK) && Startable(w.machine.state, intent, "a")
    requires IdlePatch(w, intent, adas)
    ensures FirstStarted(StartIn(w, "a", intent, "A"), intent, adas)
  {
    hide Valid, A.IndexOk, Agree, Startable, SM.Apply, Checked, A.StartAction, Bridged, StartPatch, UtcTick;
    var r := NewRecord("a", intent, "A");
    StartAgrees(w, r, false, TICK);
    StartCommits(w, r, TICK);
  }

  ghost predicate IdlePatch(w: World, intent: Intent, adas: Adas) {
    var t := StartPatch(w.machine.state, intent, "a");
    && t.actions == [ActiveAction("a", intent, Started, 0.0)] && t.adas == adas && t.power.poweredOn
    && !t.modes.pet && !t.modes.valet && "a" !in w.reg.records
    && A.StartAction(w.reg, NewRecord("a", intent, "A")).records == map["a" := NewRecord("a", intent, "A")]
  }

  lemma FirstPatch(adas: Adas, intent: Intent)
    ensures IdlePatch(Idle(adas), intent, adas) && Startable(Idle(adas).machine.state, intent, "a")
  {
    IdleFacts(adas);
    hide Idle;
    assert [] + [ActiveAction("a", intent, Started, 0.0)] == [ActiveAction("a", intent, Started, 0.0)];
  }

  lemma IdleFacts(adas: Adas)
    ensures var s := Idle(adas).machine.state;
            s.actions == [] && s.adas == adas && s.power.poweredOn && !s.modes.pet && !s.modes.valet
    ensures Idle(adas).reg == A.Registry([], map[], map[])
  {
    hide Readings;
  }

  lemma TickIsUtc()
    ensures UtcTick(TICK)
  {}

  /** The first action's world admits a second one with its own id. */
  lemma SecondStartable(w: World, first: Intent, adas: Adas, second: Intent)
    requires FirstStarted(w, first, adas)
    ensures WorldOk(w) && Agree(w, {}) && w.machine.state.adas == adas
    ensures Startable(w.machine.state, second, "b") && "b" !in w.reg.records && Runs(w.reg, "a", first)
    ensures w.reg.records["a"].session == "A"
  {}

  /** Camp mode in session A, then in session B: the record of A runs on without an entry. */
  lemma SecondSessionOrphans()
    ensures Orphan(StartIn(First(CAMPMODE, PLAIN), "b", CAMPMODE, "B"), "a")
  {
    hide First, StartBridged, Orphan, Startable;
    TickIsUtc();
    FirstIsStarted(CAMPMODE, PLAIN);
    SecondStartable(First(CAMPMODE, PLAIN), CAMPMODE, PLAIN, CAMPMODE);
    StartOrphans(First(CAMPMODE, PLAIN), NewRecord("b", CAMPMODE, "B"), TICK, "a");
  }

  /** A restart in one session whose record the registry refuses: the earlier run has lost its entry. */
  lemma RefusedRecordOrphans()
    ensures Orphan(StartBridged(First(CAMPMODE, PLAIN), NewRecord("b", CAMPMODE, "A"), true, TICK), "a")
  {
    hide First, StartBridged, Orphan, Startable;
    TickIsUtc();
    FirstIsStarted(CAMPMODE, PLAIN);
    SecondStartable(First(CAMPMODE, PLAIN), CAMPMODE, PLAIN, CAMPMODE);
    RollbackOrphans(First(CAMPMODE, PLAIN), NewRecord("b", CAMPMODE, "A"), TICK, "a");
  }

  function HdaThenAac(): (w: World)
    ensures A.IdsOk(w.reg)
  {
    StartIn(First(HDA, ASSISTED), "b", AAC, "B")
  }

  lemma HdaThenAacOk()
    ensures var w := HdaThenAac();
            && WorldOk(w) && Agree(w, {}) && w.machine.state.adas.hdaActive && Runs(w.reg, "b", AAC)
            && w.reg.records["b"].session == "B" && RunsElsewhere(w.reg, "a", HDA, "B")
  {
    hide First, StartIn, WorldOk, Agree, FirstStarted, UtcTick, Readings, Startable;
    TickIsUtc();
    FirstIsStarted(HDA, ASSISTED);
    SecondStartable(First(HDA, ASSISTED), HDA, ASSISTED, AAC);
    AacAfterHda(First(HDA, ASSISTED));
  }

  lemma AacAfterHda(first: World)
    requires WorldOk(first) && Agree(first, {}) && UtcTick(TICK) && Startable(first.machine.state, AAC, "b")
    requires first.machine.state.adas.hdaActive && "b" !in first.reg.records && RunsElsewhere(first.reg, "a", HDA, "B")
    ensures A.IdsOk(first.reg)
    ensures var w := StartIn(first, "b", AAC, "B");
            && WorldOk(w) && Agree(w, {}) && w.machine.state.adas.hdaActive && Runs(w.reg, "b", AAC)
            && w.reg.records["b"].session == "B" && RunsElsewhere(w.reg, "a", HDA, "B")
  {
    hide Startable, Valid, A.IndexOk, A.IdsOk, Agree, SM.Apply, Checked, A.StartAction, UtcTick;
    A.IndexIds(first.reg);
    var r := NewRecord("b", AAC, "B");
    StartAgrees(first, r, false, TICK);
    StartCommits(first, r, TICK);
    StartedRegistry(first, r, TICK);
    StartedAdas(first, r, TICK);
    StartStops(first.reg, r, "a");
    StartStops(first.reg, r, "b");
  }

  lemma StartedAdas(w: World, r: A.Record, tick: SM.Tick)
    requires A.IdsOk(w.reg) && StartOutcome(w, r, tick).result.Ok?
    requires StartOutcome(w, r, tick).machine.state == Stamp(StartPatch(w.machine.state, r.intent, r.id),
                                                            w.machine.state.version + 1, tick.now)
    ensures StartBridged(w, r, false, tick).machine.state.adas == w.machine.state.adas
  {
    hide SM.Apply, Checked, A.StartAction, A.IdsOk;
  }

  function Monitored(w: World, id: string): World
    requires A.IdsOk(w.reg)
  {
    EndAction(w, id, Stopped, A.Manual("monitor"), "", TICK)
  }

  /** HDA in session A, AAC in session B, and the AAC is stopped: the HDA record of A runs on with HDA off. */
  lemma OtherSessionLeftRunning()
    ensures var w := Monitored(HdaThenAac(), "b"); Runs(w.reg, "a", HDA) && Orphan(w, "a") && !w.machine.state.adas.hdaActive
  {
    hide HdaThenAac, EndAction, A.IndexOk, A.IdsOk, Orphan, Agree, Valid, UtcTick;
    TickIsUtc();
    HdaThenAacOk();
    AacStopOrphans(HdaThenAac(), "b", Stopped, A.Manual("monitor"), "", TICK, "a");
  }

  /** Completing camp mode leaves its entry behind; so does a stop with the restart reason passed by hand. */
  lemma CompletedEntryStays()
    ensures var w := First(CAMPMODE, PLAIN);
            && WorldOk(w) && Agree(w, {}) && A.IsRunning(w.reg, "a")
            && !Agree(World(w.machine, A.EndAs(w.reg, "a", Completed, None, "")), {})
            && !Agree(EndAction(w, "a", Stopped, A.SupersededByNewStart, "", TICK), {})
  {
    hide First, A.IndexOk, Agree, Valid, EndAction, A.EndAs;
    FirstIsStarted(CAMPMODE, PLAIN);
    var w := First(CAMPMODE, PLAIN);
    assert w.machine.state.actions[0] in w.machine.state.actions;
    CompletionLeavesEntry(w, "a", "");
    ForgedRestartReason(w, "a", "", TICK);
  }
}
