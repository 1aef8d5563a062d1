/**
 The fail-safe monitor (agent/src/vehicle_agent/integrations/aegis/monitor.py): one tick asks the guardrail
 about every running monitored action and stops whatever is not allowed to go on.
 */
module Monitor {
  import opened Wrappers
  import opened VehicleModel
  import SM = StateMachine
  import A = ActiveActions
  import C = Cascade
  import I = Interleaving

  /** What one evaluation meets. The last two raise out of the tick, after and before it is counted. */
  datatype Answer =
    | Allow | Block(reason: string) | TypedError(error: string) | ErrorEnvelope(error: string)
    | ClientCrash | IncompleteSnapshot

  datatype Metrics = Metrics(evaluations: nat, allows: nat, stops: nat, errors: nat, failsafes: nat)

  datatype Entry = Entry(id: string, stopped: bool)

  /** One monitored record of the snapshot and the answer its evaluation will get. */
  datatype Work = Work(record: A.Record, answer: Answer)

  datatype Outcome = Outcome(world: C.World, metrics: Metrics, results: seq<Entry>, completed: bool)

  predicate Monitored(i: Intent) {
    C.Bridged(i) || i == OtherIntent("activate_petmode")
  }

  predicate Raising(a: Answer) {
    a.ClientCrash? || a.IncompleteSnapshot?
  }

  /** The records a tick looks at, in insertion order. */
  function Snapshot(reg: A.Registry, session: Option<string>): seq<A.Record> {
    OnlyMonitored(A.Query(reg, reg.order, A.Filter(session, None, None, true)))
  }

  function OnlyMonitored(records: seq<A.Record>): (r: seq<A.Record>)
    ensures forall x :: x in r <==> x in records && Monitored(x.intent)
  {
    if records == [] then [] else
    (if Monitored(records[0].intent) then [records[0]] else []) + OnlyMonitored(records[1..])
  }

  /** Each record with the answer its evaluation will get. */
  function Asked(records: seq<A.Record>, ask: A.Record -> Answer): seq<Work> {
    if records == [] then [] else [Work(records[0], ask(records[0]))] + Asked(records[1..], ask)
  }

  // ---- one evaluation ---------------------------------------------------------------------------------------

  /** `_execute_stop`: an already terminal record is left as it is. */
  function StopRecord(w: C.World, r: A.Record, answer: Answer, tick: SM.Tick): (w': C.World)
    requires A.IdsOk(w.reg) && !answer.Allow? && !Raising(answer)
    ensures A.IdsOk(w'.reg)
  {
    match answer
    case Block(reason) => C.EndAction(w, r.id, Stopped, A.Manual(reason), r.turn, tick)
    case TypedError(error) => C.EndAction(w, r.id, Failed, A.FailedWith(error), r.turn, tick)
    case ErrorEnvelope(error) => C.EndAction(w, r.id, Failed, A.FailedWith(error), r.turn, tick)
  }

  function Counted(m: Metrics, answer: Answer): Metrics {
    match answer
    case Allow => m.(evaluations := m.evaluations + 1, allows := m.allows + 1)
    case Block(_) => m.(evaluations := m.evaluations + 1, stops := m.stops + 1)
    case ClientCrash => m.(evaluations := m.evaluations + 1)
    case IncompleteSnapshot => m
    case _ => m.(evaluations := m.evaluations + 1, stops := m.stops + 1, errors := m.errors + 1, failsafes := m.failsafes + 1)
  }

  function Tick(w: C.World, m: Metrics, work: seq<Work>, tick: SM.Tick): Outcome
    requires A.IdsOk(w.reg)
    decreases work
  {
    if work == [] then Outcome(w, m, [], true) else
    var first := work[0];
    if Raising(first.answer) then Outcome(w, Counted(m, first.answer), [], false)
    else
      var next := if first.answer.Allow? then w else StopRecord(w, first.record, first.answer, tick);
      var rest := Tick(next, Counted(m, first.answer), work[1..], tick);
      rest.(results := [Entry(first.record.id, !first.answer.Allow?)] + rest.results)
  }

  // ---- the adapter with its counters -------------------------------------------------------------------------

  class GuardrailMonitorAdapter {
    var evaluationsCount: nat
    var allowCount: nat
    var stopCount: nat
    var errorCount: nat
    var failsafeStopCount: nat

    /** `metrics` */
    function Current(): Metrics
      reads this
    {
      Metrics.Metrics(evaluationsCount, allowCount, stopCount, errorCount, failsafeStopCount)
    }

    constructor ()
      ensures Current() == Metrics.Metrics(0, 0, 0, 0, 0)
    {
      evaluationsCount, allowCount, stopCount, errorCount, failsafeStopCount := 0, 0, 0, 0, 0;
    }

    /** None stands for an exception that leaves the tick. */
    method EvaluateSingle(w: C.World, r: A.Record, answer: Answer, tick: SM.Tick)
      returns (w': C.World, entry: Option<Entry>)
      requires A.IdsOk(w.reg)
      modifies this
      ensures Current() == Counted(old(Current()), answer)
      ensures entry == if Raising(answer) then None else Some(Entry.Entry(r.id, !answer.Allow?))
      ensures w' == if answer.Allow? || Raising(answer) then w else StopRecord(w, r, answer, tick)
    {
      if answer.IncompleteSnapshot? { return w, None; }
      evaluationsCount := evaluationsCount + 1;
      if answer.ClientCrash? { return w, None; }
      if answer.TypedError? || answer.ErrorEnvelope? {
        errorCount, failsafeStopCount, stopCount := errorCount + 1, failsafeStopCount + 1, stopCount + 1;
        w' := C.EndAction(w, r.id, Failed, A.FailedWith(answer.error), r.turn, tick);
        return w', Some(Entry.Entry(r.id, true));
      }
      if answer.Allow? {
        allowCount := allowCount + 1;
        return w, Some(Entry.Entry(r.id, false));
      }
      stopCount := stopCount + 1;
      w' := C.EndAction(w, r.id, Stopped, A.Manual(answer.reason), r.turn, tick);
      return w', Some(Entry.Entry(r.id, true));
    }

    /** One tick: `ask` is what the guardrail will answer about each record. */
    method EvaluateActiveActions(w: C.World, session: Option<string>, ask: A.Record -> Answer, tick: SM.Tick)
      returns (o: Outcome)
      requires A.IdsOk(w.reg)
      modifies this
      ensures o == Tick(w, old(Current()), Asked(Snapshot(w.reg, session), ask), tick)
      ensures Current() == o.metrics
    {
      ghost var before := Current();
      var records := A.Query(w.reg, w.reg.order, A.Filter(session, None, None, true));
      var current := w;
      var results: seq<Entry> := [];
      var i := 0;
      TickBegins(w, before, records, ask, tick);
      while i < |records|
        invariant 0 <= i <= |records| && A.IdsOk(current.reg)
        invariant Joined(results, Tick(current, Current(), Asked(OnlyMonitored(records[i..]), ask), tick)) ==
                  Tick(w, before, Asked(OnlyMonitored(records), ask), tick)
      {
        hide Tick, Joined, Asked, OnlyMonitored, A.IdsOk, Counted;
        TickStep(current, Current(), records, ask, i, tick, results);
        if Monitored(records[i].intent) {
          var next, entry := EvaluateSingle(current, records[i], ask(records[i]), tick);
          if entry.None? {
            return Outcome.Outcome(current, Current(), results, false);
          }
          current := next;
          results := results + [entry.value];
        }
        i := i + 1;
      }
      assert results + [] == results;
      return Outcome.Outcome(current, Current(), results, true);
    }
  }

  function Joined(results: seq<Entry>, rest: Outcome): Outcome {
    rest.(results := results + rest.results)
  }

  lemma TickBegins(w: C.World, m: Metrics, records: seq<A.Record>, ask: A.Record -> Answer, tick: SM.Tick)
    requires A.IdsOk(w.reg)
    ensures var work := Asked(OnlyMonitored(records[0..]), ask);
            Joined([], Tick(w, m, work, tick)) == Tick(w, m, Asked(OnlyMonitored(records), ask), tick)
  {
    assert records[0..] == records;
    var o := Tick(w, m, Asked(OnlyMonitored(records), ask), tick);
    assert [] + o.results == o.results;
  }

  /** One turn of the loop: an unmonitored record is passed over, a raising evaluation ends the tick. */
  lemma TickStep(w: C.World, m: Metrics, records: seq<A.Record>, ask: A.Record -> Answer, i: nat, tick: SM.Tick,
                 results: seq<Entry>)
    requires A.IdsOk(w.reg) && i < |records|
    ensures var r, rest := records[i], Asked(OnlyMonitored(records[i + 1..]), ask);
            Joined(results, Tick(w, m, Asked(OnlyMonitored(records[i..]), ask), tick)) ==
            if !Monitored(r.intent) then Joined(results, Tick(w, m, rest, tick))
            else if Raising(ask(r)) then Outcome(w, Counted(m, ask(r)), results, false)
            else
              var next := if ask(r).Allow? then w else StopRecord(w, r, ask(r), tick);
              Joined(results + [Entry(r.id, !ask(r).Allow?)], Tick(next, Counted(m, ask(r)), rest, tick))
  {
    hide StopRecord, Counted, OnlyMonitored, Tick, Joined, Asked;
    var work := Asked(OnlyMonitored(records[i..]), ask);
    AskedStep(records, ask, i);
    if Monitored(records[i].intent) { WorkStep(w, m, work, tick, results); }
  }

  lemma AskedStep(records: seq<A.Record>, ask: A.Record -> Answer, i: nat)
    requires i < |records|
    ensures var r, rest := records[i], Asked(OnlyMonitored(records[i + 1..]), ask);
            var work := Asked(OnlyMonitored(records[i..]), ask);
            if Monitored(r.intent) then |work| > 0 && work[0] == Work(r, ask(r)) && work[1..] == rest else work == rest
  {
    var r, rest := records[i], Asked(OnlyMonitored(records[i + 1..]), ask);
    assert records[i..][1..] == records[i + 1..] && records[i..][0] == r;
    if Monitored(r.intent) {
      assert OnlyMonitored(records[i..]) == [r] + OnlyMonitored(records[i + 1..]);
      assert OnlyMonitored(records[i..])[1..] == OnlyMonitored(records[i + 1..]);
      assert Asked(OnlyMonitored(records[i..]), ask) == [Work(r, ask(r))] + rest;
    } else {
      assert OnlyMonitored(records[i..]) == [] + OnlyMonitored(records[i + 1..]);
      assert OnlyMonitored(records[i..]) == OnlyMonitored(records[i + 1..]);
    }
  }

  lemma WorkStep(w: C.World, m: Metrics, work: seq<Work>, tick: SM.Tick, results: seq<Entry>)
    requires A.IdsOk(w.reg) && work != []
    ensures var item := work[0];
            Joined(results, Tick(w, m, work, tick)) ==
            if Raising(item.answer) then Outcome(w, Counted(m, item.answer), results, false)
            else
              var next := if item.answer.Allow? then w else StopRecord(w, item.record, item.answer, tick);
              Joined(results + [Entry(item.record.id, !item.answer.Allow?)],
                     Tick(next, Counted(m, item.answer), work[1..], tick))
  {
    hide StopRecord, Counted;
    assert results + [] == results;
    var item := work[0];
    if !Raising(item.answer) {
      var next := if item.answer.Allow? then w else StopRecord(w, item.record, item.answer, tick);
      var rest := Tick(next, Counted(m, item.answer), work[1..], tick);
      var entry := Entry(item.record.id, !item.answer.Allow?);
      assert results + ([entry] + rest.results) == (results + [entry]) + rest.results;
    }
  }

  // ---- a stopped action never runs again ----------------------------------------------------------------------

  lemma EndActionStops(w: C.World, id: string, phase: ActionPhase, reason: A.Reason, turn: string, tick: SM.Tick)
    requires A.IdsOk(w.reg) && C.Ending(phase)
    ensures var w' := C.EndAction(w, id, phase, reason, turn, tick);
            C.StillRunning(w.reg, w'.reg) && !A.IsRunning(w'.reg, id)
  {
    C.EndStill(w, id, phase, reason, turn, tick);
    if A.EndFault(w.reg, id).None? {
      C.EndShrinks(w.reg, id, phase, Some(reason), turn);
      var w1 := C.World(w.machine, A.EndAs(w.reg, id, phase, Some(reason), turn));
      assert !A.IsRunning(w1.reg, id);
      hide A.EndAs, C.Handle;
      C.HandleStill(w1, A.Ended(w.reg, id, phase, Some(reason), turn), reason, tick);
    }
  }

  // ---- what a tick guarantees ------------------------------------------------------------------------------------

  lemma {:induction false} TickRevivesNone(w: C.World, m: Metrics, work: seq<Work>, tick: SM.Tick)
    requires A.IdsOk(w.reg)
    ensures C.StillRunning(w.reg, Tick(w, m, work, tick).world.reg)
    decreases work
  {
    hide StopRecord, Counted;
    if work != [] && !Raising(work[0].answer) {
      if !work[0].answer.Allow? { StopRecordStops(w, work[0].record, work[0].answer, tick); }
      var next := if work[0].answer.Allow? then w else StopRecord(w, work[0].record, work[0].answer, tick);
      TickRevivesNone(next, Counted(m, work[0].answer), work[1..], tick);
    }
  }

  lemma StopRecordStops(w: C.World, r: A.Record, answer: Answer, tick: SM.Tick)
    requires A.IdsOk(w.reg) && !answer.Allow? && !Raising(answer)
    ensures var w' := StopRecord(w, r, answer, tick); C.StillRunning(w.reg, w'.reg) && !A.IsRunning(w'.reg, r.id)
  {
    hide C.EndAction, C.StillRunning;
    match answer
    case Block(reason) => EndActionStops(w, r.id, Stopped, A.Manual(reason), r.turn, tick);
    case TypedError(error) => EndActionStops(w, r.id, Failed, A.FailedWith(error), r.turn, tick);
    case ErrorEnvelope(error) => EndActionStops(w, r.id, Failed, A.FailedWith(error), r.turn, tick);
  }

  /**
   Fail-safe: a tick whose evaluations raise nothing covers its whole snapshot, even where a cascade already
   stopped something, and whatever of it still runs afterwards was answered ALLOW.
   */
  lemma {:induction false} StillRunningWasAllowed(w: C.World, m: Metrics, work: seq<Work>, tick: SM.Tick, k: nat)
    requires A.IdsOk(w.reg) && k < |work| && forall i | 0 <= i < |work| :: !Raising(work[i].answer)
    ensures var o := Tick(w, m, work, tick);
            && o.completed && |o.results| == |work|
            && o.results[k] == Entry(work[k].record.id, !work[k].answer.Allow?)
            && (A.IsRunning(o.world.reg, work[k].record.id) ==> work[k].answer.Allow?)
    decreases work
  {
    hide StopRecord, Counted;
    var item := work[0];
    var next := if item.answer.Allow? then w else StopRecord(w, item.record, item.answer, tick);
    if k == 0 {
      if !item.answer.Allow? { StopRecordStops(w, item.record, item.answer, tick); }
      TickRevivesNone(next, Counted(m, item.answer), work[1..], tick);
      if |work| > 1 { StillRunningWasAllowed(next, Counted(m, item.answer), work[1..], tick, 0); }
    } else {
      StillRunningWasAllowed(next, Counted(m, item.answer), work[1..], tick, k - 1);
    }
  }

  /** A snapshot holds exactly the running records in scope of the five monitored intents. */
  lemma SnapshotIsComplete(reg: A.Registry, session: Option<string>, id: string)
    requires A.IndexOk(reg) && id in reg.records
    ensures reg.records[id] in Snapshot(reg, session) <==>
            var r := reg.records[id];
            && A.IsRunning(reg, id) && (session.Some? ==> r.session == session.value)
            && (r.intent in {AAC, HDA, AUTOPARK, CAMPMODE} || r.intent == OtherIntent("activate_petmode"))
  {
    assert id in reg.order;
    var f := A.Filter(session, None, None, true);
    assert A.Selects(f, reg.records[id]) ==> reg.records[id] in A.Query(reg, reg.order, f);
  }

  lemma {:induction false} AskedAll(records: seq<A.Record>, ask: A.Record -> Answer, r: A.Record) returns (k: nat)
    requires r in records
    ensures k < |Asked(records, ask)| && Asked(records, ask)[k] == Work(r, ask(r))
  {
    if r == records[0] {
      k := 0;
    } else {
      k := AskedAll(records[1..], ask, r);
      k := k + 1;
    }
  }

  lemma {:induction false} AskedOnly(records: seq<A.Record>, ask: A.Record -> Answer)
    requires forall r | r in records :: !Raising(ask(r))
    ensures forall i | 0 <= i < |Asked(records, ask)| :: !Raising(Asked(records, ask)[i].answer)
  {
    if records != [] {
      AskedOnly(records[1..], ask);
    }
  }

  /**
   Fail-safe, for the whole registry: after a tick over all sessions in which no evaluation raised, every
   monitored action that still runs was running before, unchanged, and was answered ALLOW.
   */
  lemma OnlyAllowedKeepRunning(w: C.World, m: Metrics, ask: A.Record -> Answer, tick: SM.Tick, id: string)
    requires A.IndexOk(w.reg) && forall r | r in Snapshot(w.reg, None) :: !Raising(ask(r))
    ensures A.IdsOk(w.reg)
    ensures var o := Tick(w, m, Asked(Snapshot(w.reg, None), ask), tick);
            && o.completed
            && (A.IsRunning(o.world.reg, id) && Monitored(o.world.reg.records[id].intent) ==>
                  && A.IsRunning(w.reg, id) && o.world.reg.records[id] == w.reg.records[id]
                  && ask(w.reg.records[id]).Allow?)
  {
    hide StopRecord, Counted, Tick, Snapshot, A.IndexOk;
    A.IndexIds(w.reg);
    var records := Snapshot(w.reg, None);
    var work := Asked(records, ask);
    AskedOnly(records, ask);
    TickCompletes(w, m, work, tick);
    TickRevivesNone(w, m, work, tick);
    var o := Tick(w, m, work, tick);
    if A.IsRunning(o.world.reg, id) && Monitored(o.world.reg.records[id].intent) {
      var r := w.reg.records[id];
      SnapshotIsComplete(w.reg, None, id);
      var k := AskedAll(records, ask, r);
      StillRunningWasAllowed(w, m, work, tick, k);
      A.SameId(w.reg, id);
    }
  }

  // ---- what a tick leaves alone ------------------------------------------------------------------------------------

  /** A stop of AAC reaches the running HDA record of its session. */
  predicate Reaches(stopped: A.Record, r: A.Record) {
    stopped.intent.AAC? && r.intent.HDA? && r.session == stopped.session
  }

  /** The record as a stop or failure leaves it. */
  ghost predicate EndedAs(r: A.Record, r': A.Record, phase: ActionPhase, reason: A.Reason) {
    r'.phase == phase && r'.stopReason == Some(reason) && r' == r.(phase := phase, stopReason := r'.stopReason, turn := r'.turn)
  }

  /** Ending a running record ends that record as asked, and touches no other that it does not reach. */
  lemma EndTouches(w: C.World, id: string, phase: ActionPhase, reason: A.Reason, turn: string, tick: SM.Tick)
    requires A.IndexOk(w.reg) && A.IsRunning(w.reg, id) && C.Ending(phase)
    ensures var reg, reg' := w.reg, C.EndAction(w, id, phase, reason, turn, tick).reg;
            && A.IndexOk(reg') && reg'.records.Keys == reg.records.Keys && EndedAs(reg.records[id], reg'.records[id], phase, reason)
            && forall x | x in reg.records && x != id ::
                 reg'.records[x] == reg.records[x]
                 || (&& A.Running(reg.records[x]) && Reaches(reg.records[id], reg.records[x])
                     && A.KeyOf(reg'.records[x]) == A.KeyOf(reg.records[x]))
  {
    var ended := A.Ended(w.reg, id, phase, Some(reason), turn);
    var w1 := C.World(w.machine, A.EndAs(w.reg, id, phase, Some(reason), turn));
    A.EndIndex(w.reg, id, phase, Some(reason), turn);
    A.SameId(w.reg, id);
    C.EndShrinks(w.reg, id, phase, Some(reason), turn);
    assert EndedAs(w.reg.records[id], ended, phase, reason);
    hide A.EndAs, A.IndexOk, C.Handle, EndedAs;
    HandleTouches(w1, ended, reason, tick);
  }

  lemma HandleTouches(w: C.World, r: A.Record, reason: A.Reason, tick: SM.Tick)
    requires A.IndexOk(w.reg) && r.id in w.reg.records && !A.Running(w.reg.records[r.id])
    ensures var reg, reg' := w.reg, C.Handle(w, r, reason, tick).reg;
            && A.IndexOk(reg') && reg'.records.Keys == reg.records.Keys
            && forall x | x in reg.records ::
                 reg'.records[x] == reg.records[x]
                 || (&& A.Running(reg.records[x]) && Reaches(r, reg.records[x])
                     && A.KeyOf(reg'.records[x]) == A.KeyOf(reg.records[x]))
  {
    hide A.EndAs, C.EndAction, C.ApplyStop, C.AlreadyOff, A.GetRunning, A.IndexOk;
    A.IndexIds(w.reg);
    C.SiblingRuns(w.reg, r.session);
    var h := A.GetRunning(w.reg, r.session, HDA);
    if !reason.SupersededByNewStart? && r.intent.AAC? && h.Some? {
      var w1 := C.World(C.ApplyStop(w.machine, r.intent, r.id, tick).machine, w.reg);
      HdaTouches(w1, h.value.id, A.CascadedFromAac(reason), r.turn, tick);
    }
  }

  /** Ending an HDA record cascades no further. */
  lemma HdaTouches(w: C.World, id: string, reason: A.Reason, turn: string, tick: SM.Tick)
    requires A.IndexOk(w.reg) && A.IsRunning(w.reg, id) && w.reg.records[id].intent.HDA?
    ensures var reg, reg' := w.reg, C.EndAction(w, id, Stopped, reason, turn, tick).reg;
            && A.IndexOk(reg') && reg'.records.Keys == reg.records.Keys
            && (forall x | x in reg.records && x != id :: reg'.records[x] == reg.records[x])
            && A.KeyOf(reg'.records[id]) == A.KeyOf(reg.records[id])
  {
    var w1 := C.World(w.machine, A.EndAs(w.reg, id, Stopped, Some(reason), turn));
    A.EndIndex(w.reg, id, Stopped, Some(reason), turn);
    A.SameId(w.reg, id);
    C.EndShrinks(w.reg, id, Stopped, Some(reason), turn);
    hide A.EndAs, A.IndexOk, C.Handle;
    HdaHandled(w1, A.Ended(w.reg, id, Stopped, Some(reason), turn), reason, tick);
  }

  lemma HdaHandled(w: C.World, r: A.Record, reason: A.Reason, tick: SM.Tick)
    requires A.IdsOk(w.reg) && r.intent.HDA?
    ensures C.Handle(w, r, reason, tick).reg == w.reg
  {
    hide C.ApplyStop, C.AlreadyOff, A.IdsOk;
  }

  /** The registry knows each record under its session and intent. */
  ghost predicate About(reg: A.Registry, work: seq<Work>) {
    forall i | 0 <= i < |work| ::
      work[i].record.id in reg.records && A.KeyOf(reg.records[work[i].record.id]) == A.KeyOf(work[i].record)
  }

  predicate Stops(answer: Answer) {
    !answer.Allow? && !Raising(answer)
  }

  lemma StopTouches(w: C.World, r: A.Record, answer: Answer, tick: SM.Tick)
    requires A.IndexOk(w.reg) && r.id in w.reg.records && A.KeyOf(w.reg.records[r.id]) == A.KeyOf(r) && Stops(answer)
    ensures var reg, reg' := w.reg, StopRecord(w, r, answer, tick).reg;
            && A.IndexOk(reg') && reg'.records.Keys == reg.records.Keys
            && (forall x | x in reg.records :: A.KeyOf(reg'.records[x]) == A.KeyOf(reg.records[x]))
            && (A.IsRunning(reg, r.id) ==> EndedByAnswer(reg.records[r.id], reg'.records[r.id], answer))
            && forall x | x in reg.records && (x == r.id ==> !A.IsRunning(reg, x)) ::
                 reg'.records[x] == reg.records[x] || (A.Running(reg.records[x]) && Reaches(r, reg.records[x]))
  {
    A.IndexIds(w.reg);
    hide A.IndexOk, C.EndAction, EndedAs, A.Running;
    if A.IsRunning(w.reg, r.id) {
      match answer {
        case Block(reason) => EndTouches(w, r.id, Stopped, A.Manual(reason), r.turn, tick);
        case TypedError(error) => EndTouches(w, r.id, Failed, A.FailedWith(error), r.turn, tick);
        case ErrorEnvelope(error) => EndTouches(w, r.id, Failed, A.FailedWith(error), r.turn, tick);
      }
      EndedKey(w.reg.records[r.id], StopRecord(w, r, answer, tick).reg.records[r.id], answer);
    } else {
      NothingToEnd(w, r, answer, tick);
    }
  }

  lemma EndedKey(r: A.Record, r': A.Record, answer: Answer)
    requires Stops(answer) && EndedByAnswer(r, r', answer)
    ensures A.KeyOf(r') == A.KeyOf(r)
  {}

  lemma NothingToEnd(w: C.World, r: A.Record, answer: Answer, tick: SM.Tick)
    requires A.IdsOk(w.reg) && !A.IsRunning(w.reg, r.id) && Stops(answer)
    ensures StopRecord(w, r, answer, tick) == w
  {
    hide A.EndAs, C.Handle;
  }

  /** A refusal stops the record for its reason; an error, typed or enveloped, fails it. */
  ghost predicate EndedByAnswer(r: A.Record, r': A.Record, answer: Answer)
    requires Stops(answer)
  {
    if answer.Block? then EndedAs(r, r', Stopped, A.Manual(answer.reason)) else EndedAs(r, r', Failed, A.FailedWith(answer.error))
  }

  /** Some item stops an AAC record whose cascade reaches this one. */
  ghost predicate ReachedBy(work: seq<Work>, r: A.Record) {
    exists i :: 0 <= i < |work| && Stops(work[i].answer) && Reaches(work[i].record, r)
  }

  lemma ReachedByRest(work: seq<Work>, r: A.Record)
    requires work != []
    ensures ReachedBy(work, r) <==> (Stops(work[0].answer) && Reaches(work[0].record, r)) || ReachedBy(work[1..], r)
  {
    if i :| 0 <= i < |work| && Stops(work[i].answer) && Reaches(work[i].record, r) {
      if i > 0 { assert work[1..][i - 1] == work[i]; }
    }
    if i :| 0 <= i < |work[1..]| && Stops(work[1..][i].answer) && Reaches(work[1..][i].record, r) {
      assert work[i + 1] == work[1..][i];
    }
  }

  /** A record that no answer stops and no cascade reaches, or that has ended already, is as it was before the tick. */
  lemma {:induction false} TickSpares(w: C.World, m: Metrics, work: seq<Work>, tick: SM.Tick, x: string)
    requires A.IndexOk(w.reg) && About(w.reg, work) && x in w.reg.records
    requires A.Running(w.reg.records[x]) ==>
               && !ReachedBy(work, w.reg.records[x])
               && forall i | 0 <= i < |work| && work[i].record.id == x :: !Stops(work[i].answer)
    ensures A.IdsOk(w.reg)
    ensures var reg' := Tick(w, m, work, tick).world.reg;
            A.IndexOk(reg') && x in reg'.records && reg'.records[x] == w.reg.records[x]
    decreases work
  {
    A.IndexIds(w.reg);
    hide A.IndexOk, A.IdsOk, StopRecord, Counted, ReachedBy, Reaches, A.Running;
    if work != [] && !Raising(work[0].answer) {
      ReachedByRest(work, w.reg.records[x]);
      if Stops(work[0].answer) { StopTouches(w, work[0].record, work[0].answer, tick); }
      var next := if work[0].answer.Allow? then w else StopRecord(w, work[0].record, work[0].answer, tick);
      assert forall i | 0 <= i < |work[1..]| :: work[1..][i] == work[i + 1];
      TickSpares(next, Counted(m, work[0].answer), work[1..], tick, x);
    }
  }

  /** A record answered with a stop, and not reached by a cascade before, ends by exactly that answer. */
  lemma {:induction false} TickEnds(w: C.World, m: Metrics, work: seq<Work>, tick: SM.Tick, k: nat)
    requires A.IndexOk(w.reg) && About(w.reg, work) && k < |work| && Stops(work[k].answer)
    requires forall i | 0 <= i < k :: !Raising(work[i].answer) && work[i].record.id != work[k].record.id
    requires A.IsRunning(w.reg, work[k].record.id) && !ReachedBy(work[..k], work[k].record)
    ensures A.IdsOk(w.reg)
    ensures var reg', id := Tick(w, m, work, tick).world.reg, work[k].record.id;
            id in reg'.records && EndedByAnswer(w.reg.records[id], reg'.records[id], work[k].answer)
    decreases k
  {
    A.IndexIds(w.reg);
    var id := work[k].record.id;
    hide A.IndexOk, A.IdsOk, StopRecord, Counted, ReachedBy, Reaches, EndedByAnswer;
    assert forall i | 0 <= i < |work[1..]| :: work[1..][i] == work[i + 1];
    if Stops(work[0].answer) { StopTouches(w, work[0].record, work[0].answer, tick); }
    var next := if work[0].answer.Allow? then w else StopRecord(w, work[0].record, work[0].answer, tick);
    if k == 0 {
      EndedStops(w.reg.records[id], next.reg.records[id], work[0].answer);
      TickSpares(next, Counted(m, work[0].answer), work[1..], tick, id);
    } else {
      ReachedByRest(work[..k], work[k].record);
      assert work[..k][1..] == work[1..][..k - 1];
      SameReach(work[0].record, w.reg.records[id], work[k].record);
      TickEnds(next, Counted(m, work[0].answer), work[1..], tick, k - 1);
    }
  }

  lemma EndedStops(r: A.Record, r': A.Record, answer: Answer)
    requires Stops(answer) && EndedByAnswer(r, r', answer)
    ensures !A.Running(r')
  {}

  lemma SameReach(stopped: A.Record, a: A.Record, b: A.Record)
    requires A.KeyOf(a) == A.KeyOf(b)
    ensures Reaches(stopped, a) <==> Reaches(stopped, b)
  {}

  lemma {:induction false} AskedMember(records: seq<A.Record>, ask: A.Record -> Answer, i: nat)
    requires i < |Asked(records, ask)|
    ensures Asked(records, ask)[i].record in records && Asked(records, ask)[i].answer == ask(Asked(records, ask)[i].record)
  {
    if i > 0 { AskedMember(records[1..], ask, i - 1); }
  }

  /**
   A tick ends nothing else: a running action that is outside the tick's scope or was not answered with a stop goes on
   unchanged, unless it is HDA and an AAC action of its session was stopped.
   */
  lemma OthersKeepRunning(w: C.World, m: Metrics, session: Option<string>, ask: A.Record -> Answer, tick: SM.Tick, x: string)
    requires A.IndexOk(w.reg) && A.IsRunning(w.reg, x)
    requires var r := w.reg.records[x];
             && (r in Snapshot(w.reg, session) ==> !Stops(ask(r)))
             && (r.intent.HDA? ==>
                   forall y | y in Snapshot(w.reg, session) && y.intent.AAC? && y.session == r.session :: !Stops(ask(y)))
    ensures A.IdsOk(w.reg)
    ensures var o := Tick(w, m, Asked(Snapshot(w.reg, session), ask), tick);
            A.IsRunning(o.world.reg, x) && o.world.reg.records[x] == w.reg.records[x]
  {
    A.IndexIds(w.reg);
    var records := Snapshot(w.reg, session);
    var work := Asked(records, ask);
    forall i | 0 <= i < |work|
      ensures work[i].record in records && work[i].answer == ask(work[i].record) && A.IsRunning(w.reg, work[i].record.id)
              && w.reg.records[work[i].record.id] == work[i].record
    {
      AskedMember(records, ask, i);
      SnapshotRuns(w.reg, session, work[i].record);
    }
    A.SameId(w.reg, x);
    hide A.IndexOk, A.IdsOk, Snapshot, Asked, Tick;
    TickSpares(w, m, work, tick, x);
  }

  lemma {:induction false} TickCompletes(w: C.World, m: Metrics, work: seq<Work>, tick: SM.Tick)
    requires A.IdsOk(w.reg) && forall i | 0 <= i < |work| :: !Raising(work[i].answer)
    ensures Tick(w, m, work, tick).completed
    decreases work
  {
    hide StopRecord, Counted;
    if work != [] {
      var next := if work[0].answer.Allow? then w else StopRecord(w, work[0].record, work[0].answer, tick);
      TickCompletes(next, Counted(m, work[0].answer), work[1..], tick);
    }
  }

  /** Evaluations are allows plus stops, except for the one a client crash leaves uncounted; errors are fail-safe stops. */
  lemma {:induction false} MetricsBalance(w: C.World, m: Metrics, work: seq<Work>, tick: SM.Tick)
    requires A.IdsOk(w.reg)
    ensures var o := Tick(w, m, work, tick);
            && (o.metrics.evaluations - o.metrics.allows - o.metrics.stops ==
                m.evaluations - m.allows - m.stops + if Crashes(work) then 1 else 0)
            && o.metrics.errors - o.metrics.failsafes == m.errors - m.failsafes
            && (m.errors <= m.stops ==> o.metrics.errors <= o.metrics.stops)
    decreases work
  {
    hide StopRecord;
    if work != [] && !Raising(work[0].answer) {
      var next := if work[0].answer.Allow? then w else StopRecord(w, work[0].record, work[0].answer, tick);
      MetricsBalance(next, Counted(m, work[0].answer), work[1..], tick);
    }
  }

  /** The first evaluation that raises does so in the client. */
  predicate Crashes(work: seq<Work>) {
    work != [] && (work[0].answer.ClientCrash? || (!Raising(work[0].answer) && Crashes(work[1..])))
  }

  /** The items evaluated in full: those before the first that raises. */
  function Evaluated(work: seq<Work>): seq<Work> {
    if work == [] || Raising(work[0].answer) then [] else [work[0]] + Evaluated(work[1..])
  }

  ghost function Number(work: seq<Work>, counts: Answer -> bool): nat {
    if work == [] then 0 else (if counts(work[0].answer) then 1 else 0) + Number(work[1..], counts)
  }

  /** Each counter grows by the number of its answers; the evaluation a client crash cuts short is counted as begun. */
  lemma {:induction false} TickCounts(w: C.World, m: Metrics, work: seq<Work>, tick: SM.Tick)
    requires A.IdsOk(w.reg)
    ensures var m', done := Tick(w, m, work, tick).metrics, Evaluated(work);
            && m'.evaluations == m.evaluations + |done| + (if Crashes(work) then 1 else 0)
            && m'.allows == m.allows + Number(done, (a: Answer) => a.Allow?)
            && m'.stops == m.stops + Number(done, (a: Answer) => a.Block? || a.TypedError? || a.ErrorEnvelope?)
            && m'.errors == m.errors + Number(done, (a: Answer) => a.TypedError? || a.ErrorEnvelope?)
            && m'.failsafes == m.failsafes + Number(done, (a: Answer) => a.TypedError? || a.ErrorEnvelope?)
    decreases work
  {
    hide StopRecord;
    if work != [] && !Raising(work[0].answer) {
      var next := if work[0].answer.Allow? then w else StopRecord(w, work[0].record, work[0].answer, tick);
      assert Evaluated(work)[1..] == Evaluated(work[1..]);
      TickCounts(next, Counted(m, work[0].answer), work[1..], tick);
    }
  }

  /**
   An evaluation that raises ends the tick there: it completes exactly when none raises, and otherwise it is
   the tick of the records before, so every later one is left as it is, running or not.
   */
  lemma {:induction false} RaiseAbortsTheRest(w: C.World, m: Metrics, work: seq<Work>, tick: SM.Tick, k: nat)
    requires A.IdsOk(w.reg) && k < |work| && Raising(work[k].answer)
    requires forall i | 0 <= i < k :: !Raising(work[i].answer)
    ensures var o, prefix := Tick(w, m, work, tick), Tick(w, m, work[..k], tick);
            !o.completed && o.world == prefix.world && o.results == prefix.results && |o.results| == k
    decreases k
  {
    hide StopRecord, Counted;
    if k > 0 {
      var item := work[0];
      var next := if item.answer.Allow? then w else StopRecord(w, item.record, item.answer, tick);
      assert work[..k][1..] == work[1..][..k - 1] && work[..k][0] == item;
      RaiseAbortsTheRest(next, Counted(m, item.answer), work[1..], tick, k - 1);
    }
  }

  // ---- a tick among other threads -------------------------------------------------------------------------------

  /** An evaluation of a tick: the record as the snapshot had it, its answer, and when the answer is acted on. */
  datatype Evaluation = Evaluation(record: A.Record, answer: Answer, at: nat)

  /** The registry step of a stop. */
  function StopStep(r: A.Record, answer: Answer): I.Step
    requires Stops(answer)
  {
    match answer
    case Block(reason) => I.EndOne(r.id, Stopped, A.Manual(reason), r.turn)
    case TypedError(error) => I.EndOne(r.id, Failed, A.FailedWith(error), r.turn)
    case ErrorEnvelope(error) => I.EndOne(r.id, Failed, A.FailedWith(error), r.turn)
  }

  /** At its moment the tick's thread ends the record, unless somebody else has ended it already. */
  ghost predicate ActedOn(run: seq<I.State>, steps: seq<I.Step>, begin: nat, end: nat, e: Evaluation)
    requires end < |run| == |steps| + 1
  {
    && begin <= e.at <= end
    && (Stops(e.answer) && A.IsRunning(run[e.at].w.reg, e.record.id) ==>
          e.at < end && steps[e.at] == StopStep(e.record, e.answer))
  }

  /**
   One tick within a run: the snapshot is taken at `begin`, its records are evaluated in order up to one whose
   evaluation raises, and before `end` the answers are acted on; every other step of the run is anybody's.
   */
  ghost predicate IsTick(run: seq<I.State>, steps: seq<I.Step>, begin: nat, end: nat, session: Option<string>,
                         evaluations: seq<Evaluation>)
    requires begin <= end < |run| == |steps| + 1
  {
    var records := Snapshot(run[begin].w.reg, session);
    && |evaluations| <= |records|
    && (|evaluations| < |records| ==> evaluations != [] && Raising(evaluations[|evaluations| - 1].answer))
    && (forall k | 0 <= k < |evaluations| ::
          evaluations[k].record == records[k] && ActedOn(run, steps, begin, end, evaluations[k]))
    && (forall k, l | 0 <= k < l < |evaluations| ::
          evaluations[k].at <= evaluations[l].at && !Raising(evaluations[k].answer))
  }

  /** The first `n` evaluations of a tick that begins where `steps` ended and nobody disturbs. */
  ghost predicate Undisturbed(run: seq<I.State>, steps: seq<I.Step>, begin: nat, session: Option<string>,
                              ask: A.Record -> Answer, evaluations: seq<Evaluation>)
    requires begin < |run| == |steps| + 1
  {
    var records := Snapshot(run[begin].w.reg, session);
    && |evaluations| <= |records|
    && (forall k | 0 <= k < |evaluations| ::
          && evaluations[k].record == records[k] && evaluations[k].answer == ask(records[k])
          && ActedOn(run, steps, begin, |steps|, evaluations[k]))
    && forall k, l | 0 <= k < l < |evaluations| :: evaluations[k].at <= evaluations[l].at
  }

  /** Every reachable state admits a whole tick, whatever the answers are. */
  lemma {:induction false} TickCanRun(run: seq<I.State>, steps: seq<I.Step>, session: Option<string>, ask: A.Record -> Answer,
                                      n: nat)
    returns (run': seq<I.State>, steps': seq<I.Step>, evaluations: seq<Evaluation>)
    requires I.IsRun(run, steps) && n <= |Snapshot(run[|steps|].w.reg, session)|
    ensures I.IsRun(run', steps') && run <= run' && steps <= steps' && |evaluations| == n
    ensures Undisturbed(run', steps', |steps|, session, ask, evaluations)
    decreases n
  {
    hide I.Enabled, I.Next, C.WorldOk, Snapshot, StopStep, ActedOn, I.IsRun;
    if n == 0 {
      RunLength(run, steps);
      run', steps', evaluations := run, steps, [];
    } else {
      var run1, steps1, done := TickCanRun(run, steps, session, ask, n - 1);
      RunLength(run1, steps1);
      RunLength(run, steps);
      var begin, r := |steps|, Snapshot(run[|steps|].w.reg, session)[n - 1];
      var e := Evaluation(r, ask(r), |steps1|);
      run', steps' := ActOn(run1, steps1, begin, e);
      evaluations := done + [e];
      forall k | 0 <= k < n ensures ActedOn(run', steps', begin, |steps'|, evaluations[k]) {
        if k < n - 1 { ActedOnLonger(run1, steps1, run', steps', begin, done[k]); }
      }
      LastMoment(run1, steps1, begin, session, ask, done);
    }
  }

  lemma RunLength(run: seq<I.State>, steps: seq<I.Step>)
    requires I.IsRun(run, steps)
    ensures |run| == |steps| + 1
  {}

  lemma LastMoment(run: seq<I.State>, steps: seq<I.Step>, begin: nat, session: Option<string>, ask: A.Record -> Answer,
                   evaluations: seq<Evaluation>)
    requires begin < |run| == |steps| + 1 && Undisturbed(run, steps, begin, session, ask, evaluations)
    ensures forall k | 0 <= k < |evaluations| :: evaluations[k].at <= |steps|
  {
    hide Snapshot;
    forall k | 0 <= k < |evaluations| ensures evaluations[k].at <= |steps| {
      assert ActedOn(run, steps, begin, |steps|, evaluations[k]);
    }
  }

  lemma ActedOnLonger(run: seq<I.State>, steps: seq<I.Step>, run': seq<I.State>, steps': seq<I.Step>, begin: nat, e: Evaluation)
    requires |run| == |steps| + 1 && |run'| == |steps'| + 1 && run <= run' && steps <= steps'
    requires ActedOn(run, steps, begin, |steps|, e)
    ensures ActedOn(run', steps', begin, |steps'|, e)
  {
    assert run'[e.at] == run[e.at];
    if e.at < |steps| { assert steps'[e.at] == steps[e.at]; }
  }

  /** Acting on an answer at the end of a run. */
  lemma ActOn(run: seq<I.State>, steps: seq<I.Step>, begin: nat, e: Evaluation)
    returns (run': seq<I.State>, steps': seq<I.Step>)
    requires I.IsRun(run, steps) && |run| == |steps| + 1 && begin <= e.at == |steps|
    ensures I.IsRun(run', steps') && |run'| == |steps'| + 1 && run <= run' && steps <= steps'
    ensures ActedOn(run', steps', begin, |steps'|, e)
  {
    hide I.Next, C.WorldOk, I.IsRun;
    var s := run[|steps|];
    if Stops(e.answer) && A.IsRunning(s.w.reg, e.record.id) {
      var step := StopStep(e.record, e.answer);
      assert I.Enabled(s, step);
      run', steps' := run + [I.Next(s, step)], steps + [step];
      Extended(run, steps, step);
    } else {
      run', steps' := run, steps;
    }
  }

  lemma Extended(run: seq<I.State>, steps: seq<I.Step>, step: I.Step)
    requires I.IsRun(run, steps) && I.Enabled(run[|steps|], step)
    ensures I.IsRun(run + [I.Next(run[|steps|], step)], steps + [step])
  {
    hide I.Enabled, I.Next, C.WorldOk;
    var run', steps' := run + [I.Next(run[|steps|], step)], steps + [step];
    forall i | 0 <= i < |steps'| ensures I.Follows(run', steps', i) {
      if i < |steps| { assert I.Follows(run, steps, i); }
    }
  }

  /** A snapshot holds running monitored records, as the registry has them. */
  lemma SnapshotRuns(reg: A.Registry, session: Option<string>, r: A.Record)
    requires A.IdsOk(reg) && r in Snapshot(reg, session)
    ensures A.IsRunning(reg, r.id) && reg.records[r.id] == r && Monitored(r.intent)
  {}

  lemma StopEnds(s: I.State, r: A.Record, answer: Answer)
    requires A.IdsOk(s.w.reg) && r.id in s.w.reg.records && Stops(answer) && I.Enabled(s, StopStep(r, answer))
    ensures var s' := I.Next(s, StopStep(r, answer)); r.id in s'.w.reg.records && !A.IsRunning(s'.w.reg, r.id)
  {
    hide A.IdsOk;
    assert s.w.reg.records[r.id].id == r.id by { A.SameId(s.w.reg, r.id); }
  }

  /**
   Fail-safe among other threads: whatever starts, stops, resets and handlers run between the evaluations of a tick,
   a record of its snapshot that was answered other than ALLOW does not run at its end or ever after.
   */
  lemma StoppedForGood(run: seq<I.State>, steps: seq<I.Step>, begin: nat, end: nat, session: Option<string>,
                       evaluations: seq<Evaluation>, k: nat, j: nat)
    requires I.IsRun(run, steps) && begin <= end <= j < |run| && IsTick(run, steps, begin, end, session, evaluations)
    requires k < |evaluations| && Stops(evaluations[k].answer)
    ensures !A.IsRunning(run[j].w.reg, evaluations[k].record.id)
  {
    hide I.Enabled, I.Next, I.Inv, C.WorldOk, Snapshot, StopStep;
    var e := evaluations[k];
    assert ActedOn(run, steps, begin, end, e);
    RunIds(run, steps, begin);
    RunIds(run, steps, e.at);
    SnapshotRuns(run[begin].w.reg, session, e.record);
    I.RecordsGrow(run, steps, begin, e.at, e.record.id);
    if A.IsRunning(run[e.at].w.reg, e.record.id) {
      assert I.Follows(run, steps, e.at);
      StopEnds(run[e.at], e.record, e.answer);
      I.EndedForever(run, steps, e.at + 1, j, e.record.id);
    } else {
      I.EndedForever(run, steps, e.at, j, e.record.id);
    }
  }

  lemma RunIds(run: seq<I.State>, steps: seq<I.Step>, i: nat)
    requires I.IsRun(run, steps) && i < |run|
    ensures A.IndexOk(run[i].w.reg) && A.IdsOk(run[i].w.reg)
  {
    hide I.Enabled, I.Next, I.AllHeld, Valid;
    I.RunInv(run, steps, i);
    A.IndexIds(run[i].w.reg);
    hide A.IndexOk, A.IdsOk;
  }

  /**
   After a tick over all sessions in which no evaluation raised, among any other threads, a monitored action that
   still runs was started since the snapshot or was running in it and answered ALLOW.
   */
  lemma OnlyAllowedOrNew(run: seq<I.State>, steps: seq<I.Step>, begin: nat, end: nat, evaluations: seq<Evaluation>, id: string)
    requires I.IsRun(run, steps) && begin <= end < |run| && IsTick(run, steps, begin, end, None, evaluations)
    requires forall k | 0 <= k < |evaluations| :: !Raising(evaluations[k].answer)
    requires A.IsRunning(run[end].w.reg, id) && Monitored(run[end].w.reg.records[id].intent)
    ensures || id !in run[begin].w.reg.records
            || (A.IsRunning(run[begin].w.reg, id)
                && exists k | 0 <= k < |evaluations| ::
                     evaluations[k].record == run[begin].w.reg.records[id] && evaluations[k].answer.Allow?)
  {
    hide I.Enabled, I.Next, I.Inv, C.WorldOk, Snapshot, StopStep;
    if id in run[begin].w.reg.records {
      RunIds(run, steps, begin);
      I.RecordsGrow(run, steps, begin, end, id);
      if !A.IsRunning(run[begin].w.reg, id) { I.EndedForever(run, steps, begin, end, id); }
      var reg := run[begin].w.reg;
      SnapshotIsComplete(reg, None, id);
      A.SameId(reg, id);
      var k :| 0 <= k < |evaluations| && evaluations[k].record == reg.records[id];
      if Stops(evaluations[k].answer) { StoppedForGood(run, steps, begin, end, None, evaluations, k, end); }
    }
  }
}
