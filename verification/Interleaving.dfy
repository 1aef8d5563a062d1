/**
 The agreement of vehicle state and registry when starts, stops, resets and monitor ticks run in different
 threads: each transition of the vehicle state and each locked registry operation is one step, in any order.
 */
module Interleaving {
  import opened Wrappers
  import opened VehicleModel
  import opened Cascade
  import SM = StateMachine
  import A = ActiveActions
  import O = Orphans

  /**
   `starting` has put its entry but not yet its record; the gateway's lifecycle lock admits one such start.
   `stopping` are the ended records whose stop handlers have yet to look at the vehicle state or patch it.
   */
  datatype State = State(w: World, starting: Option<A.Record>, stopping: set<string>)

  datatype Step =
    | PutEntry(record: A.Record, tick: SM.Tick)
    | PutRecord
    | TakeBack(tick: SM.Tick)
    | EndOne(id: string, phase: ActionPhase, reason: A.Reason, turn: string)
    | EndMany(session: Option<string>, reason: A.Reason, turn: string)
    | FindOff(id: string)
    | PatchOff(id: string, tick: SM.Tick)
    | Advance(id: string, progress: real, turn: string)
    | OtherStep(next: VehicleState)

  /** A cascaded stop is an `EndOne` of its own; a patch may come long after its handler looked. */
  predicate Enabled(s: State, step: Step) {
    match step
    case PutEntry(r, tick) =>
      s.starting.None? && UtcTick(tick) && Bridged(r.intent) && r.phase.Started? && r.id !in s.w.reg.records
    case PutRecord => s.starting.Some?
    case TakeBack(tick) => s.starting.Some? && UtcTick(tick)
    case EndOne(id, phase, reason, _) => A.IsRunning(s.w.reg, id) && Ending(phase) && !reason.SupersededByNewStart?
    case EndMany(_, reason, _) => !reason.SupersededByNewStart?
    case FindOff(id) =>
      id in s.stopping && id in s.w.reg.records && AlreadyOff(s.w.machine.state, s.w.reg.records[id].intent, id)
    case PatchOff(id, tick) =>
      id in s.stopping && id in s.w.reg.records && Bridged(s.w.reg.records[id].intent) && UtcTick(tick)
    case Advance(id, _, _) => A.IsRunning(s.w.reg, id)
    case OtherStep(next) =>
      Valid(next) && forall a | a in next.actions ::
        a in s.w.machine.state.actions
        || (!Bridged(a.intent) && a.id !in s.w.reg.records && (s.starting.Some? ==> a.id != s.starting.value.id))
  }

  function Next(s: State, step: Step): State
    requires Enabled(s, step)
  {
    match step
    case PutEntry(r, tick) =>
      var o := O.StartOutcome(s.w, r, tick);
      s.(w := World(o.machine, s.w.reg), starting := if o.result.Ok? then Some(r) else None)
    case PutRecord => s.(w := World(s.w.machine, A.StartAction(s.w.reg, s.starting.value)), starting := None)
    case TakeBack(tick) =>
      s.(w := World(RolledBack(s.w.machine, s.starting.value.id, tick), s.w.reg), starting := None)
    case EndOne(id, phase, reason, turn) =>
      s.(w := World(s.w.machine, A.EndAs(s.w.reg, id, phase, Some(reason), turn)), stopping := s.stopping + {id})
    case EndMany(session, reason, turn) =>
      var ids := A.RunningIds(s.w.reg, s.w.reg.order, session);
      s.(w := World(s.w.machine, A.StopAll(s.w.reg, ids, reason, turn)), stopping := s.stopping + Members(ids))
    case FindOff(id) => s.(stopping := s.stopping - {id})
    case PatchOff(id, tick) =>
      s.(w := World(ApplyStop(s.w.machine, s.w.reg.records[id].intent, id, tick).machine, s.w.reg),
         stopping := s.stopping - {id})
    case Advance(id, progress, turn) => s.(w := World(s.w.machine, A.UpdateProgress(s.w.reg, id, progress, turn)))
    case OtherStep(next) => s.(w := World(s.w.machine.(state := next), s.w.reg))
  }

  /** A bridged entry is the start in progress, a running record's, or one whose stop is in progress. */
  ghost predicate Held(reg: A.Registry, starting: Option<A.Record>, stopping: set<string>, a: ActiveAction) {
    && (a.id in reg.records ==> reg.records[a.id].intent == a.intent)
    && (starting.Some? ==> (a.id == starting.value.id <==> a.intent == starting.value.intent))
    && (Bridged(a.intent) ==>
          || (starting.Some? && a.id == starting.value.id)
          || (a.id in reg.records && (A.Running(reg.records[a.id]) || a.id in stopping)))
  }

  ghost predicate AllHeld(s: State) {
    forall a | a in s.w.machine.state.actions :: Held(s.w.reg, s.starting, s.stopping, a)
  }

  predicate StartOk(reg: A.Registry, starting: Option<A.Record>) {
    starting.Some? ==> starting.value.id !in reg.records && Bridged(starting.value.intent) && starting.value.phase.Started?
  }

  ghost predicate Inv(s: State) {
    WorldOk(s.w) && AllHeld(s) && StartOk(s.w.reg, s.starting)
  }

  // ---- steps of the vehicle state -------------------------------------------------------------------------------------

  /** Fewer entries, the same registry. */
  lemma Dropping(s: State, m: SM.Machine, stopping: set<string>, gone: string)
    requires AllHeld(s) && s.stopping <= stopping + {gone}
    requires forall a | a in m.state.actions :: a in s.w.machine.state.actions && a.id != gone
    ensures AllHeld(s.(w := World(m, s.w.reg), stopping := stopping))
  {
    forall a | a in m.state.actions ensures Held(s.w.reg, s.starting, stopping, a) {
      assert Held(s.w.reg, s.starting, s.stopping, a);
    }
  }

  lemma EntryEffect(w: World, r: A.Record, tick: SM.Tick)
    requires Valid(w.machine.state) && UtcTick(tick)
    ensures var o := O.StartOutcome(w, r, tick);
            && (o.result.Err? ==> o.machine == w.machine)
            && (o.result.Ok? ==> Valid(o.machine.state)
                                 && o.machine.state.actions == StartPatch(w.machine.state, r.intent, r.id).actions)
  {
    hide Valid, SM.Apply, Checked, StartPatch;
    VersionNat(w.machine.state);
    ApplyEffect(w.machine, (s: VehicleState) => Checked(StartPatch(s, r.intent, r.id)), START_REQUEST, tick);
  }

  lemma PutEntryStep(s: State, step: Step)
    requires Inv(s) && step.PutEntry? && Enabled(s, step)
    ensures Inv(Next(s, step))
  {
    hide A.IndexOk, Valid, AllHeld, O.StartOutcome, StartPatch, Bridged;
    var PutEntry(r, tick) := step;
    EntryEffect(s.w, r, tick);
    var o := O.StartOutcome(s.w, r, tick);
    if o.result.Ok? {
      EntriesHeld(s, r, o.machine);
    }
  }

  /** The new entry is held by the start in progress; the others are of other intents and stay held as they were. */
  lemma EntriesHeld(s: State, r: A.Record, m: SM.Machine)
    requires AllHeld(s) && s.starting.None? && Valid(m.state) && r.id !in s.w.reg.records
    requires m.state.actions == StartPatch(s.w.machine.state, r.intent, r.id).actions
    ensures AllHeld(s.(w := World(m, s.w.reg), starting := Some(r)))
  {
    hide Valid, Held, StartPatch;
    StartEntries(s.w.machine.state, r.intent, r.id);
    ValidDistinct(m.state);
    var added, actions := ActiveAction(r.id, r.intent, Started, 0.0), m.state.actions;
    forall a | a in actions ensures Held(s.w.reg, Some(r), s.stopping, a) {
      SameIdSame(actions, a, added);
      assert a != added ==> Held(s.w.reg, None, s.stopping, a);
      EntryHeld(s.w.reg, r, s.stopping, a);
    }
  }

  lemma EntryHeld(reg: A.Registry, r: A.Record, stopping: set<string>, a: ActiveAction)
    requires r.id !in reg.records
    requires a == ActiveAction(r.id, r.intent, Started, 0.0)
             || (a.id != r.id && a.intent != r.intent && Held(reg, None, stopping, a))
    ensures Held(reg, Some(r), stopping, a)
  {
    hide Bridged;
  }

  lemma TakeBackStep(s: State, step: Step)
    requires Inv(s) && step.TakeBack? && Enabled(s, step)
    ensures Inv(Next(s, step))
  {
    hide A.IndexOk, Valid, Held, RolledBack;
    var id := s.starting.value.id;
    RollbackDrops(s.w.machine, id, step.tick);
    var m := RolledBack(s.w.machine, id, step.tick);
    forall a | a in m.state.actions ensures Held(s.w.reg, None, s.stopping, a) {
      assert Held(s.w.reg, s.starting, s.stopping, a);
      NotStarting(s.w.reg, s.starting.value, s.stopping, a);
    }
  }

  lemma NotStarting(reg: A.Registry, r: A.Record, stopping: set<string>, a: ActiveAction)
    requires Held(reg, Some(r), stopping, a) && a.id != r.id
    ensures Held(reg, None, stopping, a)
  {
    hide Bridged;
  }

  lemma PatchOffStep(s: State, step: Step)
    requires Inv(s) && step.PatchOff? && Enabled(s, step)
    ensures Inv(Next(s, step))
  {
    var PatchOff(id, tick) := step;
    hide A.IndexOk, Valid, Held, ApplyStop, StopPatch, Bridged, Stamp;
    var intent := s.w.reg.records[id].intent;
    StopCommits(s.w.machine, intent, id, tick);
    StopDrops(s.w.machine.state, intent, id);
    Dropping(s, ApplyStop(s.w.machine, intent, id, tick).machine, s.stopping - {id}, id);
  }

  /** A handler that finds everything off finds no entry of its record. */
  lemma FindOffStep(s: State, step: Step)
    requires Inv(s) && step.FindOff? && Enabled(s, step)
    ensures Inv(Next(s, step))
  {
    hide A.IndexOk, Valid;
    var id := step.id;
    forall a | a in s.w.machine.state.actions ensures Held(s.w.reg, s.starting, s.stopping - {id}, a) {
      assert Held(s.w.reg, s.starting, s.stopping, a);
    }
  }

  lemma OtherStepStep(s: State, step: Step)
    requires Inv(s) && step.OtherStep? && Enabled(s, step)
    ensures Inv(Next(s, step))
  {
    hide A.IndexOk, Valid;
    forall a | a in step.next.actions ensures Held(s.w.reg, s.starting, s.stopping, a) {
      if a in s.w.machine.state.actions { assert Held(s.w.reg, s.starting, s.stopping, a); }
    }
  }

  // ---- steps of the registry -----------------------------------------------------------------------------------------------

  /** Records keep their intents, and whoever stops running is being stopped. */
  lemma RegistryMoves(s: State, reg: A.Registry, stopping: set<string>)
    requires AllHeld(s) && KeepsIntents(s.w.reg, reg) && s.stopping <= stopping
    requires forall x | A.IsRunning(s.w.reg, x) :: A.IsRunning(reg, x) || x in stopping
    ensures AllHeld(s.(w := World(s.w.machine, reg), stopping := stopping))
  {
    hide Bridged;
    forall a | a in s.w.machine.state.actions ensures Held(reg, s.starting, stopping, a) {
      assert Held(s.w.reg, s.starting, s.stopping, a);
    }
  }

  /** The record arrives; what it supersedes has lost its entry when the new one was put. */
  lemma PutRecordStep(s: State, step: Step)
    requires Inv(s) && step.PutRecord? && Enabled(s, step)
    ensures Inv(Next(s, step))
  {
    hide A.IndexOk, Valid, A.StartAction;
    var r := s.starting.value;
    StartRecords(s.w.reg, r);
    var reg := A.StartAction(s.w.reg, r);
    forall a | a in s.w.machine.state.actions ensures Held(reg, None, s.stopping, a) {
      assert Held(s.w.reg, s.starting, s.stopping, a);
    }
  }

  lemma EndOneStep(s: State, step: Step)
    requires Inv(s) && step.EndOne? && Enabled(s, step)
    ensures Inv(Next(s, step))
  {
    var EndOne(id, phase, reason, turn) := step;
    A.EndIndex(s.w.reg, id, phase, Some(reason), turn);
    hide A.IndexOk, Valid, A.EndAs, Held;
    RegistryMoves(s, A.EndAs(s.w.reg, id, phase, Some(reason), turn), s.stopping + {id});
  }

  lemma EndManyStep(s: State, step: Step)
    requires Inv(s) && step.EndMany? && Enabled(s, step)
    ensures Inv(Next(s, step))
  {
    var EndMany(session, reason, turn) := step;
    var ids := A.RunningIds(s.w.reg, s.w.reg.order, session);
    A.StopAllIndex(s.w.reg, ids, reason, turn);
    StopAllIntents(s.w.reg, ids, reason, turn);
    hide A.IndexOk, Valid, A.StopAll, A.RunningIds, Held;
    RegistryMoves(s, A.StopAll(s.w.reg, ids, reason, turn), s.stopping + Members(ids));
  }

  lemma AdvanceStep(s: State, step: Step)
    requires Inv(s) && step.Advance? && Enabled(s, step)
    ensures Inv(Next(s, step))
  {
    var Advance(id, progress, turn) := step;
    A.ProgressIndex(s.w.reg, id, progress, turn);
    AdvanceKeeps(s.w.reg, id, progress, turn);
    hide A.IndexOk, Valid, A.UpdateProgress, Held;
    RegistryMoves(s, A.UpdateProgress(s.w.reg, id, progress, turn), s.stopping);
  }

  lemma AdvanceKeeps(reg: A.Registry, id: string, progress: real, turn: string)
    requires A.IndexOk(reg) && A.IsRunning(reg, id)
    ensures KeepsIntents(reg, A.UpdateProgress(reg, id, progress, turn))
    ensures forall x | A.IsRunning(reg, x) :: A.IsRunning(A.UpdateProgress(reg, id, progress, turn), x)
  {}

  lemma StepInv(s: State, step: Step)
    requires Inv(s) && Enabled(s, step)
    ensures Inv(Next(s, step))
  {
    hide Inv, Enabled, Next;
    match step
    case PutEntry(_, _) => PutEntryStep(s, step);
    case PutRecord => PutRecordStep(s, step);
    case TakeBack(_) => TakeBackStep(s, step);
    case EndOne(_, _, _, _) => EndOneStep(s, step);
    case EndMany(_, _, _) => EndManyStep(s, step);
    case FindOff(_) => FindOffStep(s, step);
    case PatchOff(_, _) => PatchOffStep(s, step);
    case Advance(_, _, _) => AdvanceStep(s, step);
    case OtherStep(_) => OtherStepStep(s, step);
  }

  // ---- every interleaving ----------------------------------------------------------------------------------------------------

  ghost predicate IsRun(run: seq<State>, steps: seq<Step>) {
    && |run| == |steps| + 1 && WorldOk(run[0].w) && run[0].w.machine.state.actions == []
    && run[0].starting.None? && run[0].stopping == {}
    && forall i | 0 <= i < |steps| :: Follows(run, steps, i)
  }

  ghost predicate Follows(run: seq<State>, steps: seq<Step>, i: nat)
    requires i < |steps| && |run| == |steps| + 1
  {
    Enabled(run[i], steps[i]) && run[i + 1] == Next(run[i], steps[i])
  }

  lemma {:induction false} RunInv(run: seq<State>, steps: seq<Step>, i: nat)
    requires IsRun(run, steps) && i < |run|
    ensures Inv(run[i])
    decreases i
  {
    hide Enabled, Next, WorldOk;
    if i > 0 {
      RunInv(run, steps, i - 1);
      assert Follows(run, steps, i - 1);
      hide Inv;
      StepInv(run[i - 1], steps[i - 1]);
    }
  }

  /**
   Under every interleaving a bridged entry of the vehicle state is that of the start in progress, of a running
   record with the same intent, or of a record whose stop handler is still to come.
   */
  lemma EveryEntryIsHeld(run: seq<State>, steps: seq<Step>, i: nat, a: ActiveAction)
    requires IsRun(run, steps) && i < |run| && a in run[i].w.machine.state.actions && Bridged(a.intent)
    ensures var s := run[i];
            || (s.starting.Some? && a.id == s.starting.value.id && a.intent == s.starting.value.intent)
            || (a.id in s.w.reg.records && s.w.reg.records[a.id].intent == a.intent
                && (A.Running(s.w.reg.records[a.id]) || a.id in s.stopping))
  {
    RunInv(run, steps, i);
    hide Enabled, Next, WorldOk, Bridged;
    assert Held(run[i].w.reg, run[i].starting, run[i].stopping, a);
  }

  /** So whenever no start and no stop is under way, state and registry agree. */
  lemma QuietAgrees(run: seq<State>, steps: seq<Step>, i: nat)
    requires IsRun(run, steps) && i < |run| && run[i].starting.None? && run[i].stopping == {}
    ensures WorldOk(run[i].w) && Agree(run[i].w, {})
  {
    RunInv(run, steps, i);
    hide Enabled, Next, A.IndexOk, Valid, Bridged;
    forall a | a in run[i].w.machine.state.actions ensures Backed(run[i].w.reg, a, {}) {
      assert Held(run[i].w.reg, run[i].starting, run[i].stopping, a);
    }
  }

  // ---- exactly when an entry is there ------------------------------------------------------------------------------------

  predicate HasEntry(s: State, x: string) {
    HasId(s.w.machine.state.actions, x)
  }

  /** The ids whose entries can be told apart: those of records, and that of the start in progress. */
  predicate Known(s: State, x: string) {
    x in s.w.reg.records || (s.starting.Some? && x == s.starting.value.id)
  }

  function IntentOf(s: State, x: string): Intent
    requires Known(s, x)
  {
    if x in s.w.reg.records then s.w.reg.records[x].intent else s.starting.value.intent
  }

  /**
   The steps after which `x` has no entry: a start of its intent that goes through, in whatever session; its own
   stop, or for HDA the stop of any AAC while HDA is on; its own rollback; and a transition that leaves it out.
   */
  predicate Loses(s: State, step: Step, x: string)
    requires Known(s, x)
  {
    match step
    case PutEntry(r, _) => r.intent == IntentOf(s, x) && O.Startable(s.w.machine.state, r.intent, r.id)
    case TakeBack(_) => s.starting.Some? && x == s.starting.value.id
    case PatchOff(id, _) =>
      || x == id
      || (id in s.w.reg.records && s.w.reg.records[id].intent == AAC && s.w.machine.state.adas.hdaActive
          && IntentOf(s, x) == HDA)
    case OtherStep(next) => !HasId(next.actions, x)
    case _ => false
  }

  ghost predicate EntriesOf(actions: seq<ActiveAction>, x: string, intent: Intent) {
    forall a | a in actions && a.id == x :: a.intent == intent
  }

  lemma KnownEntries(s: State, x: string)
    requires Inv(s) && Known(s, x)
    ensures EntriesOf(s.w.machine.state.actions, x, IntentOf(s, x))
  {
    hide WorldOk, Bridged;
    forall a | a in s.w.machine.state.actions && a.id == x ensures a.intent == IntentOf(s, x) {
      assert Held(s.w.reg, s.starting, s.stopping, a);
    }
  }

  /** What dropping by intent and by id does to one id. */
  lemma IntentDropped(actions: seq<ActiveAction>, dropped: Intent, x: string, intent: Intent)
    requires EntriesOf(actions, x, intent)
    ensures HasId(Without(actions, ByIntent(dropped)), x) <==> HasId(actions, x) && intent != dropped
    ensures EntriesOf(Without(actions, ByIntent(dropped)), x, intent)
  {
    if HasId(actions, x) && intent != dropped {
      var a :| a in actions && a.id == x;
      assert a in Without(actions, ByIntent(dropped));
    }
  }

  lemma IdDropped(actions: seq<ActiveAction>, id: string, x: string, intent: Intent)
    requires EntriesOf(actions, x, intent)
    ensures HasId(Without(actions, ById(id)), x) <==> HasId(actions, x) && x != id
    ensures EntriesOf(Without(actions, ById(id)), x, intent)
  {
    if HasId(actions, x) && x != id {
      var a :| a in actions && a.id == x;
      assert a in Without(actions, ById(id));
    }
  }

  lemma StopKeepsId(s: VehicleState, stopped: Intent, id: string, x: string, intent: Intent)
    requires Bridged(stopped) && EntriesOf(s.actions, x, intent)
    ensures HasId(StopPatch(s, stopped, id).actions, x) <==>
            HasId(s.actions, x) && x != id && !(stopped == AAC && s.adas.hdaActive && intent == HDA)
  {
    hide Without, HasId, EntriesOf;
    IdDropped(s.actions, id, x, intent);
    IntentDropped(Without(s.actions, ById(id)), HDA, x, intent);
  }

  lemma StartKeepsId(s: VehicleState, started: Intent, id: string, x: string, intent: Intent)
    requires EntriesOf(s.actions, x, intent) && x != id
    ensures HasId(StartPatch(s, started, id).actions, x) <==> HasId(s.actions, x) && intent != started
  {
    hide Without, HasId, EntriesOf;
    IntentDropped(s.actions, started, x, intent);
    O.AppendedId(Without(s.actions, ByIntent(started)), ActiveAction(id, started, Started, 0.0), x);
  }

  lemma PatchOffEntry(s: State, step: Step, x: string)
    requires Inv(s) && step.PatchOff? && Enabled(s, step) && Known(s, x)
    ensures HasEntry(Next(s, step), x) <==> HasEntry(s, x) && !Loses(s, step, x)
  {
    KnownEntries(s, x);
    hide A.IndexOk, Valid, AllHeld, ApplyStop, StopPatch, Bridged, Stamp, HasId, EntriesOf, IntentOf;
    var intent := s.w.reg.records[step.id].intent;
    StopCommits(s.w.machine, intent, step.id, step.tick);
    StopKeepsId(s.w.machine.state, intent, step.id, x, IntentOf(s, x));
  }

  lemma PutEntryEntry(s: State, step: Step, x: string)
    requires Inv(s) && step.PutEntry? && Enabled(s, step) && Known(s, x)
    ensures HasEntry(Next(s, step), x) <==> HasEntry(s, x) && !Loses(s, step, x)
  {
    KnownEntries(s, x);
    hide A.IndexOk, Valid, AllHeld, O.StartOutcome, StartPatch, Bridged, Stamp, HasId, EntriesOf, IntentOf, O.Startable;
    var r := step.record;
    O.StartCommits(s.w, r, step.tick);
    StartKeepsId(s.w.machine.state, r.intent, r.id, x, IntentOf(s, x));
  }

  lemma TakeBackEntry(s: State, step: Step, x: string)
    requires Inv(s) && step.TakeBack? && Enabled(s, step) && Known(s, x)
    ensures HasEntry(Next(s, step), x) <==> HasEntry(s, x) && !Loses(s, step, x)
  {
    hide A.IndexOk, Valid, AllHeld, RolledBack, Bridged;
    var id := s.starting.value.id;
    RollbackDrops(s.w.machine, id, step.tick);
    if x != id { O.SameIds(s.w.machine.state.actions, RolledBack(s.w.machine, id, step.tick).state.actions, id, x); }
  }

  lemma OtherEntry(s: State, step: Step, x: string)
    requires step.OtherStep? && Enabled(s, step) && Known(s, x)
    ensures HasEntry(Next(s, step), x) <==> HasEntry(s, x) && !Loses(s, step, x)
  {
    hide Valid, Bridged;
  }

  /** One step: an entry is there afterwards exactly when it was there before and the step does not lose it. */
  lemma EntryStep(s: State, step: Step, x: string)
    requires Inv(s) && Enabled(s, step) && Known(s, x)
    ensures HasEntry(Next(s, step), x) <==> HasEntry(s, x) && !Loses(s, step, x)
  {
    match step
    case PutEntry(_, _) => PutEntryEntry(s, step, x);
    case TakeBack(_) => TakeBackEntry(s, step, x);
    case PatchOff(_, _) => PatchOffEntry(s, step, x);
    case OtherStep(_) => OtherEntry(s, step, x);
    case _ => hide Inv, A.EndAs, A.StopAll, A.StartAction, A.UpdateProgress, A.RunningIds, HasId;
  }

  predicate TakesBack(s: State, step: Step, x: string) {
    step.TakeBack? && s.starting.Some? && s.starting.value.id == x
  }

  /** Ids stay known with their intents, except that of a start taken back. */
  lemma KnownStep(s: State, step: Step, x: string)
    requires Inv(s) && Enabled(s, step) && Known(s, x) && !TakesBack(s, step, x)
    ensures Known(Next(s, step), x) && IntentOf(Next(s, step), x) == IntentOf(s, x)
    ensures x in s.w.reg.records ==> x in Next(s, step).w.reg.records
  {
    hide AllHeld, Valid, A.IndexOk, Bridged;
    A.IndexIds(s.w.reg);
    match step
    case PutRecord => RecordPut(s.w.reg, s.starting.value, x);
    case EndMany(session, reason, turn) => ManyKept(s.w.reg, session, reason, turn);
    case _ => hide A.StartAction, A.StopAll, A.RunningIds;
  }

  lemma RecordPut(reg: A.Registry, r: A.Record, x: string)
    requires A.IndexOk(reg) && r.phase.Started? && r.id !in reg.records
    ensures var records := A.StartAction(reg, r).records;
            && (x in records <==> x in reg.records || x == r.id) && records[r.id] == r
            && (x in reg.records ==> records[x].intent == reg.records[x].intent)
  {
    hide A.IndexOk, A.StartAction;
    StartRecords(reg, r);
  }

  lemma ManyKept(reg: A.Registry, session: Option<string>, reason: A.Reason, turn: string)
    requires A.IndexOk(reg)
    ensures KeepsIntents(reg, A.StopAll(reg, A.RunningIds(reg, reg.order, session), reason, turn))
  {
    hide A.StopAll, A.IndexOk;
    var ids := A.RunningIds(reg, reg.order, session);
    RunningKnown(reg, session);
    StopAllIntents(reg, ids, reason, turn);
  }

  lemma RunningKnown(reg: A.Registry, session: Option<string>)
    ensures forall id | id in A.RunningIds(reg, reg.order, session) :: id in reg.records
  {}

  /** No step from `i` up to `j` loses the entry of `x`. */
  ghost predicate KeptBetween(run: seq<State>, steps: seq<Step>, i: nat, j: nat, x: string)
    requires i <= j < |run| == |steps| + 1
  {
    forall k | i <= k < j :: Known(run[k], x) ==> !Loses(run[k], steps[k], x)
  }

  ghost predicate NotTakenBack(run: seq<State>, steps: seq<Step>, i: nat, j: nat, x: string)
    requires i <= j < |run| == |steps| + 1
  {
    forall k | i <= k < j :: !TakesBack(run[k], steps[k], x)
  }

  /** Over a run: a known id has its entry exactly when it had it and no step in between lost it. */
  lemma {:induction false} EntryBetween(run: seq<State>, steps: seq<Step>, i: nat, j: nat, x: string)
    requires IsRun(run, steps) && i <= j < |run| && Known(run[i], x) && NotTakenBack(run, steps, i, j, x)
    ensures Known(run[j], x) && IntentOf(run[j], x) == IntentOf(run[i], x)
    ensures x in run[i].w.reg.records ==> x in run[j].w.reg.records
    ensures HasEntry(run[j], x) <==> HasEntry(run[i], x) && KeptBetween(run, steps, i, j, x)
    decreases j
  {
    hide Enabled, Next, WorldOk, HasEntry, Known, IntentOf, Loses, TakesBack;
    if i < j {
      EntryBetween(run, steps, i, j - 1, x);
      RunInv(run, steps, j - 1);
      assert Follows(run, steps, j - 1) && !TakesBack(run[j - 1], steps[j - 1], x);
      hide Inv;
      EntryStep(run[j - 1], steps[j - 1], x);
      KnownStep(run[j - 1], steps[j - 1], x);
    }
  }

  /** Step `i` is a start of `r` that goes through. */
  ghost predicate StartsAt(run: seq<State>, steps: seq<Step>, i: nat, r: A.Record)
    requires |run| == |steps| + 1
  {
    i < |steps| && steps[i].PutEntry? && steps[i].record == r && O.Startable(run[i].w.machine.state, r.intent, r.id)
  }

  lemma EntryPut(s: State, step: Step)
    requires Inv(s) && step.PutEntry? && Enabled(s, step)
    requires O.Startable(s.w.machine.state, step.record.intent, step.record.id)
    ensures Next(s, step).starting == Some(step.record) && HasEntry(Next(s, step), step.record.id)
    ensures Known(Next(s, step), step.record.id) && IntentOf(Next(s, step), step.record.id) == step.record.intent
  {
    hide A.IndexOk, Valid, AllHeld, O.StartOutcome, StartPatch, Bridged, Stamp, O.Startable;
    var r := step.record;
    O.StartCommits(s.w, r, step.tick);
    StartEntries(s.w.machine.state, r.intent, r.id);
  }

  /**
   From its start on, before its record arrives and after, an action that is not taken back has its entry exactly
   as long as no step has lost it.
   */
  lemma EntrySinceStart(run: seq<State>, steps: seq<Step>, i: nat, j: nat, r: A.Record)
    requires IsRun(run, steps) && StartsAt(run, steps, i, r) && i < j < |run|
    requires NotTakenBack(run, steps, i + 1, j, r.id)
    ensures HasEntry(run[j], r.id) <==> KeptBetween(run, steps, i + 1, j, r.id)
    ensures Known(run[j], r.id) && IntentOf(run[j], r.id) == r.intent
  {
    hide Enabled, Next, WorldOk, HasEntry, Known, IntentOf, Loses, TakesBack, O.Startable;
    RunInv(run, steps, i);
    assert Follows(run, steps, i);
    hide Inv;
    EntryPut(run[i], steps[i]);
    EntryBetween(run, steps, i + 1, j, r.id);
  }

  /**
   Agreement in the other direction, exactly: a running bridged record that was started in this run has no entry if
   and only if some step since its start has lost it.
   */
  lemma OrphanExactly(run: seq<State>, steps: seq<Step>, i: nat, j: nat, r: A.Record)
    requires IsRun(run, steps) && StartsAt(run, steps, i, r) && i < j < |run|
    requires NotTakenBack(run, steps, i + 1, j, r.id) && A.IsRunning(run[j].w.reg, r.id)
    ensures O.Orphan(run[j].w, r.id) <==> exists k | i < k < j :: Known(run[k], r.id) && Loses(run[k], steps[k], r.id)
  {
    hide Next, WorldOk, HasId, Loses, TakesBack, O.Startable, Bridged;
    EntrySinceStart(run, steps, i, j, r);
    assert Follows(run, steps, i);
  }

  /** What can lose the entry of a start in progress: the stop of an AAC, for HDA, and a transition that leaves it out. */
  predicate LosesStart(s: State, step: Step)
    requires s.starting.Some?
  {
    match step
    case PatchOff(id, _) =>
      id in s.w.reg.records && s.w.reg.records[id].intent == AAC && s.w.machine.state.adas.hdaActive
      && s.starting.value.intent == HDA
    case OtherStep(next) => !HasId(next.actions, s.starting.value.id)
    case _ => false
  }

  /** One step of a start in progress. */
  lemma StartingStep(s: State, step: Step)
    requires Inv(s) && Enabled(s, step) && s.starting.Some? && !step.PutRecord? && !step.TakeBack?
    ensures Next(s, step).starting == s.starting
    ensures HasEntry(Next(s, step), s.starting.value.id) <==> HasEntry(s, s.starting.value.id) && !LosesStart(s, step)
  {
    hide WorldOk, AllHeld;
    EntryStep(s, step, s.starting.value.id);
    StartingStays(s, step);
    hide Next, HasId;
  }

  lemma StartingStays(s: State, step: Step)
    requires Enabled(s, step) && s.starting.Some? && !step.PutRecord? && !step.TakeBack?
    ensures Next(s, step).starting == s.starting
  {
    hide ApplyStop, A.EndAs, A.StopAll, A.RunningIds, A.UpdateProgress;
  }

  /** The start begun at `i` is in progress up to `j`. */
  ghost predicate InProgress(steps: seq<Step>, i: nat, j: nat) {
    forall k | i < k < j && k < |steps| :: !steps[k].PutRecord? && !steps[k].TakeBack?
  }

  ghost predicate KeptStarting(run: seq<State>, steps: seq<Step>, i: nat, j: nat)
    requires i < j < |run| == |steps| + 1
  {
    forall k | i < k < j :: run[k].starting.Some? ==> !LosesStart(run[k], steps[k])
  }

  lemma {:induction false} StartingBetween(run: seq<State>, steps: seq<Step>, i: nat, j: nat, r: A.Record)
    requires IsRun(run, steps) && StartsAt(run, steps, i, r) && i < j < |run| && InProgress(steps, i, j)
    ensures run[j].starting == Some(r) && (HasEntry(run[j], r.id) <==> KeptStarting(run, steps, i, j))
    decreases j
  {
    hide Enabled, Next, WorldOk, HasEntry, LosesStart, O.Startable;
    RunInv(run, steps, j - 1);
    assert Follows(run, steps, j - 1);
    if j == i + 1 {
      hide Inv;
      EntryPut(run[i], steps[i]);
    } else {
      StartingBetween(run, steps, i, j - 1, r);
      hide Inv;
      StartingStep(run[j - 1], steps[j - 1]);
    }
  }

  /**
   A started record arrives with its entry exactly when no step between the two halves of its start has lost it:
   no AAC stop handled while HDA was on, if it is HDA, and no transition that leaves the entry out.
   */
  lemma RecordArrives(run: seq<State>, steps: seq<Step>, i: nat, j: nat, r: A.Record)
    requires IsRun(run, steps) && StartsAt(run, steps, i, r) && i < j < |steps| && InProgress(steps, i, j)
    requires steps[j].PutRecord?
    ensures A.IsRunning(run[j + 1].w.reg, r.id) && run[j + 1].w.reg.records[r.id] == r
    ensures HasEntry(run[j + 1], r.id) <==> forall k | i < k < j :: run[k].starting == Some(r) && !LosesStart(run[k], steps[k])
  {
    hide WorldOk, HasId, LosesStart, O.Startable, AllHeld;
    StartingBetween(run, steps, i, j, r);
    RunInv(run, steps, j);
    assert Follows(run, steps, j);
    Arrived(run[j]);
    forall k | i < k < j ensures run[k].starting == Some(r) { StartingBetween(run, steps, i, k, r); }
    hide Enabled, Next;
  }

  lemma Arrived(s: State)
    requires Inv(s) && s.starting.Some?
    ensures var s', r := Next(s, PutRecord), s.starting.value;
            && A.IsRunning(s'.w.reg, r.id) && s'.w.reg.records[r.id] == r
            && s'.w.machine == s.w.machine
  {
    hide A.IndexOk, Valid, A.StartAction, AllHeld;
    StartRecords(s.w.reg, s.starting.value);
  }

  // ---- ended records stay ended --------------------------------------------------------------------------------------------

  lemma EndedStep(s: State, step: Step, x: string)
    requires Inv(s) && Enabled(s, step) && x in s.w.reg.records && !A.IsRunning(s.w.reg, x)
    ensures x in Next(s, step).w.reg.records && !A.IsRunning(Next(s, step).w.reg, x)
  {
    hide AllHeld, Valid, A.IndexOk, Bridged;
    A.IndexIds(s.w.reg);
    match step
    case PutRecord => PutNotRunning(s.w.reg, s.starting.value, x);
    case EndMany(session, reason, turn) => ManyNotRunning(s.w.reg, session, reason, turn, x);
    case _ => hide A.StartAction, A.StopAll, A.RunningIds;
  }

  lemma PutNotRunning(reg: A.Registry, r: A.Record, x: string)
    requires A.IndexOk(reg) && r.phase.Started? && r.id !in reg.records && x in reg.records && !A.IsRunning(reg, x)
    ensures x in A.StartAction(reg, r).records && !A.IsRunning(A.StartAction(reg, r), x)
  {
    hide A.IndexOk, A.StartAction;
    RecordPut(reg, r, x);
    O.StartStops(reg, r, x);
  }

  lemma ManyNotRunning(reg: A.Registry, session: Option<string>, reason: A.Reason, turn: string, x: string)
    requires A.IndexOk(reg) && x in reg.records && !A.IsRunning(reg, x)
    ensures var reg' := A.StopAll(reg, A.RunningIds(reg, reg.order, session), reason, turn);
            x in reg'.records && !A.IsRunning(reg', x)
  {
    hide A.StopAll, A.IndexOk;
    var ids := A.RunningIds(reg, reg.order, session);
    A.StopAllIndex(reg, ids, reason, turn);
  }

  /** Under every interleaving a record that has ended never runs again. */
  lemma {:induction false} EndedForever(run: seq<State>, steps: seq<Step>, i: nat, j: nat, x: string)
    requires IsRun(run, steps) && i <= j < |run| && x in run[i].w.reg.records && !A.IsRunning(run[i].w.reg, x)
    ensures x in run[j].w.reg.records && !A.IsRunning(run[j].w.reg, x)
    decreases j
  {
    hide Enabled, Next, WorldOk;
    if i < j {
      EndedForever(run, steps, i, j - 1, x);
      RunInv(run, steps, j - 1);
      assert Follows(run, steps, j - 1);
      hide Inv;
      EndedStep(run[j - 1], steps[j - 1], x);
    }
  }

  lemma {:induction false} RecordsGrow(run: seq<State>, steps: seq<Step>, i: nat, j: nat, x: string)
    requires IsRun(run, steps) && i <= j < |run| && x in run[i].w.reg.records
    ensures x in run[j].w.reg.records && run[j].w.reg.records[x].intent == run[i].w.reg.records[x].intent
    decreases j
  {
    hide Enabled, Next, WorldOk;
    if i < j {
      RecordsGrow(run, steps, i, j - 1, x);
      RunInv(run, steps, j - 1);
      assert Follows(run, steps, j - 1);
      StartingIsNew(run[j - 1], x);
      hide Inv;
      KnownStep(run[j - 1], steps[j - 1], x);
    }
  }

  lemma StartingIsNew(s: State, x: string)
    requires Inv(s) && x in s.w.reg.records
    ensures s.starting.Some? ==> s.starting.value.id != x
  {}

  // ---- a record that comes too late ----------------------------------------------------------------------------------------

  /** When the handler of an AAC stop runs between the halves of an HDA start, the new record comes without an entry. */
  lemma LateRecord(s: State, id: string, tick: SM.Tick)
    requires Inv(s) && s.starting.Some? && s.starting.value.intent == HDA && s.w.machine.state.adas.hdaActive
    requires Enabled(s, PatchOff(id, tick)) && s.w.reg.records[id].intent == AAC
    ensures var r, s1 := s.starting.value, Next(s, PatchOff(id, tick));
            && s1.starting == Some(r) && Enabled(s1, PutRecord)
            && var s2 := Next(s1, PutRecord);
               && A.IsRunning(s2.w.reg, r.id) && s2.w.reg.records[r.id] == r
               && !HasId(s2.w.machine.state.actions, r.id)
               && s2.starting == None && s2.stopping == s.stopping - {id}
  {
    hide A.IndexOk, Valid, ApplyStop, A.StartAction;
    AacTransition(s.w.machine, id, tick);
    StartRecords(s.w.reg, s.starting.value);
    var actions := ApplyStop(s.w.machine, AAC, id, tick).machine.state.actions;
    forall a | a in actions ensures a.id != s.starting.value.id {
      assert Held(s.w.reg, s.starting, s.stopping, a);
    }
  }

  /** Both halves together are the bridged start. */
  lemma WholeStart(s: State, r: A.Record, tick: SM.Tick)
    requires WorldOk(s.w) && Enabled(s, PutEntry(r, tick)) && O.Startable(s.w.machine.state, r.intent, r.id)
    ensures A.IdsOk(s.w.reg)
    ensures var s1 := Next(s, PutEntry(r, tick));
            && s1.starting == Some(r) && s1.w.reg == s.w.reg && s1.stopping == s.stopping && Enabled(s1, PutRecord)
            && s1.w.machine.state.adas == s.w.machine.state.adas
            && Next(s1, PutRecord) == State(StartBridged(s.w, r, false, tick), None, s.stopping)
  {
    hide A.IndexOk, A.IdsOk, Valid, O.StartOutcome, O.Startable, A.StartAction, StartBridged, Stamp, StartPatch;
    A.IndexIds(s.w.reg);
    O.StartCommits(s.w, r, tick);
    PatchKeepsAdas(s.w.machine.state, r, s.w.machine.state.version + 1, tick.now);
    BridgedIsBoth(s.w, r, tick);
  }

  lemma PatchKeepsAdas(s: VehicleState, r: A.Record, version: int, now: Time)
    ensures Stamp(StartPatch(s, r.intent, r.id), version, now).adas == s.adas
  {
    hide Without, Restamp;
  }

  lemma BridgedIsBoth(w: World, r: A.Record, tick: SM.Tick)
    requires A.IdsOk(w.reg) && O.StartOutcome(w, r, tick).result.Ok?
    ensures StartBridged(w, r, false, tick) == World(O.StartOutcome(w, r, tick).machine, A.StartAction(w.reg, r))
  {
    hide SM.Apply, Checked, A.StartAction, A.IdsOk;
  }

  ghost predicate Goes(s: State, step: Step, s': State) {
    Enabled(s, step) && s' == Next(s, step)
  }

  function Hda(): A.Record {
    O.NewRecord("b", HDA, "B")
  }

  /** From a world with one AAC run: start HDA, and stop the AAC between its halves. */
  lemma StopBetweenHalves(s: State) returns (run: seq<State>)
    requires s.starting == None && s.stopping == {} && O.FirstStarted(s.w, AAC, O.ASSISTED) && Inv(s)
    ensures |run| == 5 && run[0] == s && Goes(s, PutEntry(Hda(), O.TICK), run[1])
    ensures Goes(run[1], EndOne("a", Stopped, A.Manual("monitor"), ""), run[2])
    ensures Goes(run[2], PatchOff("a", O.TICK), run[3]) && Goes(run[3], PutRecord, run[4])
    ensures A.IsRunning(run[4].w.reg, "b") && run[4].w.reg.records["b"] == Hda()
    ensures !HasId(run[4].w.machine.state.actions, "b") && run[4].starting == None && run[4].stopping == {}
  {
    hide Inv, Next, Enabled, O.FirstStarted, O.Startable, WorldOk, UtcTick, StartBridged, A.IdsOk;
    O.TickIsUtc();
    O.SecondStartable(s.w, AAC, O.ASSISTED, HDA);
    CanPutHda(s);
    WholeStart(s, Hda(), O.TICK);
    var s1 := Next(s, PutEntry(Hda(), O.TICK));
    StepInv(s, PutEntry(Hda(), O.TICK));
    StoppedFirst(s1);
    var s2 := Next(s1, EndOne("a", Stopped, A.Manual("monitor"), ""));
    StepInv(s1, EndOne("a", Stopped, A.Manual("monitor"), ""));
    LateRecord(s2, "a", O.TICK);
    var s3 := Next(s2, PatchOff("a", O.TICK));
    run := [s, s1, s2, s3, Next(s3, PutRecord)];
  }

  lemma CanPutHda(s: State)
    requires s.starting == None && "b" !in s.w.reg.records && UtcTick(O.TICK)
    ensures Enabled(s, PutEntry(Hda(), O.TICK))
  {}

  lemma StoppedFirst(s: State)
    requires A.IsRunning(s.w.reg, "a") && s.w.reg.records["a"].intent == AAC && s.stopping == {} && UtcTick(O.TICK)
    requires A.IdsOk(s.w.reg)
    ensures var step := EndOne("a", Stopped, A.Manual("monitor"), "");
            && Enabled(s, step)
            && var s' := Next(s, step);
               && s'.starting == s.starting && s'.w.machine == s.w.machine && s'.stopping == {"a"}
               && Enabled(s', PatchOff("a", O.TICK)) && s'.w.reg.records["a"].intent == AAC
  {}

  /** A concrete run: at its end no start and no stop is under way, and the HDA record runs on without an entry. */
  lemma LateRecordRun() returns (run: seq<State>, steps: seq<Step>)
    ensures IsRun(run, steps) && |steps| == 6
    ensures var s := run[6];
            && s.starting == None && s.stopping == {} && A.IsRunning(s.w.reg, "b")
            && s.w.reg.records["b"].intent == HDA && !HasId(s.w.machine.state.actions, "b")
  {
    hide Inv, Next, Enabled, Goes, O.Idle, WorldOk, O.FirstStarted;
    var s0 := State(O.Idle(O.ASSISTED), None, {});
    var s1, s2 := FirstHalves(s0);
    var rest := StopBetweenHalves(s2);
    run := [s0, s1] + rest;
    steps := [PutEntry(O.NewRecord("a", AAC, "A"), O.TICK), PutRecord, PutEntry(Hda(), O.TICK),
              EndOne("a", Stopped, A.Manual("monitor"), ""), PatchOff("a", O.TICK), PutRecord];
    forall i | 0 <= i < |steps| ensures Goes(run[i], steps[i], run[i + 1]) {}
    GoesIsRun(run, steps);
  }

  lemma GoesIsRun(run: seq<State>, steps: seq<Step>)
    requires |run| == |steps| + 1 && WorldOk(run[0].w) && run[0].w.machine.state.actions == []
    requires run[0].starting.None? && run[0].stopping == {}
    requires forall i | 0 <= i < |steps| :: Goes(run[i], steps[i], run[i + 1])
    ensures IsRun(run, steps)
  {
    hide Enabled, Next, WorldOk;
    forall i | 0 <= i < |steps| ensures Follows(run, steps, i) { assert Goes(run[i], steps[i], run[i + 1]); }
  }

  /** The two halves of the first start lead from the idle world to that of `O.First`. */
  lemma FirstHalves(s: State) returns (s1: State, s2: State)
    requires s == State(O.Idle(O.ASSISTED), None, {})
    ensures Goes(s, PutEntry(O.NewRecord("a", AAC, "A"), O.TICK), s1) && Goes(s1, PutRecord, s2)
    ensures s2.starting == None && s2.stopping == {} && O.FirstStarted(s2.w, AAC, O.ASSISTED) && Inv(s2)
    ensures WorldOk(s.w) && s.w.machine.state.actions == []
  {
    hide Inv, Next, O.Idle, O.FirstStarted, O.Startable, WorldOk, UtcTick, StartBridged;
    var r := O.NewRecord("a", AAC, "A");
    O.TickIsUtc();
    O.IdleOk(O.ASSISTED);
    O.IdleFacts(O.ASSISTED);
    O.FirstPatch(O.ASSISTED, AAC);
    O.FirstIsStarted(AAC, O.ASSISTED);
    WholeStart(s, r, O.TICK);
    s1 := Next(s, PutEntry(r, O.TICK));
    s2 := Next(s1, PutRecord);
    IdleInv(s);
    StepInv(s, PutEntry(r, O.TICK));
    StepInv(s1, PutRecord);
  }

  lemma IdleInv(s: State)
    requires WorldOk(s.w) && s.w.machine.state.actions == [] && s.starting == None
    ensures Inv(s)
  {
    hide WorldOk;
  }
}
