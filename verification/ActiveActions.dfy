/**
 The registry of long-running actions (agent/src/vehicle_agent/active_actions/registry.py): records in
 insertion order and the (session, intent) index of the running ones. Each function is what one public
 method does while it holds the lock; stop handlers run after the lock is released.
 */
module ActiveActions {
  import opened Wrappers
  import opened VehicleModel

  /** The reasons a stop handler tells apart: a restart of the same session and intent, and everything else. */
  datatype Reason = SupersededByNewStart | Manual(text: string) | FailedWith(error: string) | CascadedFromAac(reason: Reason)

  datatype Record = Record(id: string, intent: Intent, session: string, turn: string, phase: ActionPhase, progress: real,
                           stopReason: Option<Reason>)

  type Key = (string, Intent)

  datatype Registry = Registry(order: seq<string>, records: map<string, Record>, index: map<Key, string>)

  datatype Fault = NotFound | AlreadyTerminal

  predicate Running(r: Record) {
    r.phase.Started? || r.phase.Progress?
  }

  function KeyOf(r: Record): Key {
    (r.session, r.intent)
  }

  predicate IsRunning(reg: Registry, id: string) {
    id in reg.records && Running(reg.records[id])
  }

  // ---- the locked parts --------------------------------------------------------------------------------------

  function Put(reg: Registry, r: Record): Registry {
    Registry(if r.id in reg.records then reg.order else reg.order + [r.id], reg.records[r.id := r], reg.index)
  }

  /** `_clear_running_index`: only if the entry still points to this record. */
  function Unindex(reg: Registry, r: Record): Registry {
    if KeyOf(r) in reg.index && reg.index[KeyOf(r)] == r.id then reg.(index := reg.index - {KeyOf(r)}) else reg
  }

  /** Leave the running phases. */
  function End(reg: Registry, r: Record): Registry {
    Unindex(Put(reg, r), r)
  }

  /** A record that cannot be ended: unknown, or terminal already. */
  function EndFault(reg: Registry, id: string): Option<Fault> {
    if id !in reg.records then Some(NotFound) else if !Running(reg.records[id]) then Some(AlreadyTerminal) else None
  }

  function Ended(reg: Registry, id: string, phase: ActionPhase, reason: Option<Reason>, turn: string): Record
    requires id in reg.records
  {
    var r := reg.records[id];
    r.(phase := phase, stopReason := reason, turn := if turn == "" then r.turn else turn,
       progress := if phase.Completed? then 1.0 else r.progress)
  }

  function EndAs(reg: Registry, id: string, phase: ActionPhase, reason: Option<Reason>, turn: string): Registry
    requires id in reg.records
  {
    End(reg, Ended(reg, id, phase, reason, turn))
  }

  /** The run of the same session and intent that a new start supersedes. */
  function Existing(reg: Registry, key: Key): Option<string> {
    if key in reg.index && IsRunning(reg, reg.index[key]) then Some(reg.index[key]) else None
  }

  function StartAction(reg: Registry, r: Record): Registry {
    var existing := Existing(reg, KeyOf(r));
    var cleared := if existing.Some? then EndAs(reg, existing.value, Stopped, Some(SupersededByNewStart), r.turn) else reg;
    var put := Put(cleared, r);
    put.(index := put.index[KeyOf(r) := r.id])
  }

  function UpdateProgress(reg: Registry, id: string, progress: real, turn: string): Registry
    requires id in reg.records
  {
    var r := reg.records[id];
    Put(reg, r.(phase := Progress, progress := progress, turn := if turn == "" then r.turn else turn))
  }

  predicate InScope(r: Record, session: Option<string>) {
    session == None || session == Some(r.session)
  }

  /** The running records a reset stops, in insertion order. */
  function RunningIds(reg: Registry, order: seq<string>, session: Option<string>): (ids: seq<string>)
    ensures forall id :: id in ids <==> id in order && IsRunning(reg, id) && InScope(reg.records[id], session)
  {
    if order == [] then [] else
    var id := order[0];
    (if IsRunning(reg, id) && InScope(reg.records[id], session) then [id] else []) + RunningIds(reg, order[1..], session)
  }

  function StopAll(reg: Registry, ids: seq<string>, reason: Reason, turn: string): Registry
    decreases ids
  {
    if ids == [] then reg
    else if ids[0] !in reg.records then StopAll(reg, ids[1..], reason, turn)
    else StopAll(EndAs(reg, ids[0], Stopped, Some(reason), turn), ids[1..], reason, turn)
  }

  function ResetAll(reg: Registry, session: Option<string>, reason: Reason, turn: string): Registry {
    StopAll(reg, RunningIds(reg, reg.order, session), reason, turn)
  }

  function GetRunning(reg: Registry, session: string, intent: Intent): Option<Record> {
    if (session, intent) !in reg.index then None
    else if reg.index[(session, intent)] !in reg.records then None
    else Some(reg.records[reg.index[(session, intent)]])
  }

  /** One filter of `query_actions`; absent criteria match everything. */
  datatype Filter = Filter(session: Option<string>, intent: Option<Intent>, phase: Option<ActionPhase>, activeOnly: bool)

  predicate Selects(f: Filter, r: Record) {
    && (f.session.Some? ==> r.session == f.session.value) && (f.intent.Some? ==> r.intent == f.intent.value)
    && (f.phase.Some? ==> r.phase == f.phase.value) && (f.activeOnly ==> Running(r))
  }

  function Query(reg: Registry, order: seq<string>, f: Filter): (r: seq<Record>)
    ensures forall x :: x in r <==> exists id :: id in order && id in reg.records && reg.records[id] == x && Selects(f, x)
  {
    if order == [] then [] else
    QueryOne(reg, order[0], f) + Query(reg, order[1..], f)
  }

  function QueryOne(reg: Registry, id: string, f: Filter): seq<Record> {
    if id in reg.records && Selects(f, reg.records[id]) then [reg.records[id]] else []
  }

  lemma QueryStep(reg: Registry, order: seq<string>, f: Filter, i: nat, found: seq<Record>)
    requires i < |order|
    ensures found + Query(reg, order[i..], f) == (found + QueryOne(reg, order[i], f)) + Query(reg, order[i + 1..], f)
  {
    assert order[i..][1..] == order[i + 1..];
    assert found + (QueryOne(reg, order[i], f) + Query(reg, order[i + 1..], f))
        == (found + QueryOne(reg, order[i], f)) + Query(reg, order[i + 1..], f);
  }

  lemma StopAllStep(reg: Registry, ids: seq<string>, i: nat, reason: Reason, turn: string)
    requires i < |ids| && ids[i] in reg.records
    ensures StopAll(reg, ids[i..], reason, turn) ==
            StopAll(EndAs(reg, ids[i], Stopped, Some(reason), turn), ids[i + 1..], reason, turn)
  {
    assert ids[i..][1..] == ids[i + 1..];
    hide EndAs;
  }

  lemma StopAllNone(reg: Registry, ids: seq<string>, reason: Reason, turn: string)
    requires ids == []
    ensures StopAll(reg, ids, reason, turn) == reg
  {}

  // ---- the object ------------------------------------------------------------------------------------------------

  class ActiveActionRegistry {
    var order: seq<string>
    var records: map<string, Record>
    var runningIndex: map<Key, string>

    ghost function Contents(): Registry
      reads this
    {
      Registry.Registry(order, records, runningIndex)
    }

    constructor ()
      ensures Contents() == Registry.Registry([], map[], map[])
    {
      order, records, runningIndex := [], map[], map[];
    }

    method InternalStop(id: string, phase: ActionPhase, reason: Option<Reason>, turn: string) returns (r: Record)
      requires IdsOk(Contents()) && id in records
      modifies this
      ensures IdsOk(Contents()) && records.Keys == old(records.Keys)
      ensures r == Ended(old(Contents()), id, phase, reason, turn)
      ensures Contents() == EndAs(old(Contents()), id, phase, reason, turn)
    {
      var record := records[id];
      r := record.(phase := phase, stopReason := reason, turn := if turn == "" then record.turn else turn,
                   progress := if phase.Completed? then 1.0 else record.progress);
      records := records[id := r];
      if KeyOf(r) in runningIndex && runningIndex[KeyOf(r)] == id { runningIndex := runningIndex - {KeyOf(r)}; }
    }

    method Start(r: Record) returns (superseded: Option<Record>)
      requires IdsOk(Contents())
      modifies this
      ensures Contents() == StartAction(old(Contents()), r)
      ensures superseded == match Existing(old(Contents()), KeyOf(r))
                            case Some(id) => Some(Ended(old(Contents()), id, Stopped, Some(SupersededByNewStart), r.turn))
                            case None => None
    {
      superseded := None;
      var key := KeyOf(r);
      if key in runningIndex {
        var existing := runningIndex[key];
        if existing in records && Running(records[existing]) {
          var stopped := InternalStop(existing, Stopped, Some(SupersededByNewStart), r.turn);
          superseded := Some(stopped);
        }
      }
      if r.id !in records { order := order + [r.id]; }
      records := records[r.id := r];
      runningIndex := runningIndex[key := r.id];
    }

    method Stop(id: string, phase: ActionPhase, reason: Option<Reason>, turn: string) returns (r: Result<Record, Fault>)
      requires IdsOk(Contents())
      modifies this
      ensures EndFault(old(Contents()), id) == if r.Err? then Some(r.error) else None
      ensures Contents() == if r.Ok? then EndAs(old(Contents()), id, phase, reason, turn) else old(Contents())
    {
      if id !in records { return Err(NotFound); }
      if !Running(records[id]) { return Err(AlreadyTerminal); }
      var stopped := InternalStop(id, phase, reason, turn);
      return Ok(stopped);
    }

    /** The locked part of `reset_and_cleanup`. */
    method Reset(session: Option<string>, reason: Reason, turn: string) returns (cleaned: seq<Record>)
      requires IdsOk(Contents())
      modifies this
      ensures Contents() == ResetAll(old(Contents()), session, reason, turn)
      ensures |cleaned| == |RunningIds(old(Contents()), old(order), session)|
    {
      ghost var before := Contents();
      var ids := RunningIds(Registry.Registry(order, records, runningIndex), order, session);
      cleaned := [];
      var i := 0;
      while i < |ids|
        invariant 0 <= i <= |ids| && |cleaned| == i
        invariant IdsOk(Contents()) && records.Keys == before.records.Keys
        invariant StopAll(before, ids, reason, turn) == StopAll(Contents(), ids[i..], reason, turn)
      {
        assert ids[i] in before.records;
        hide EndAs, IdsOk, StopAll, RunningIds, Ended;
        StopAllStep(Contents(), ids, i, reason, turn);
        var stopped := InternalStop(ids[i], Stopped, Some(reason), turn);
        cleaned := cleaned + [stopped];
        i := i + 1;
      }
      StopAllNone(Contents(), ids[i..], reason, turn);
    }

    /** `query_actions`: the matching records in insertion order. */
    method QueryActions(f: Filter) returns (filtered: seq<Record>)
      ensures filtered == Query(Contents(), order, f)
    {
      var snapshot, ids := records, order;
      ghost var reg := Contents();
      filtered := [];
      var i := 0;
      assert ids[0..] == ids && [] + Query(reg, ids, f) == Query(reg, ids, f);
      while i < |ids|
        invariant 0 <= i <= |ids|
        invariant Query(reg, ids, f) == filtered + Query(reg, ids[i..], f)
      {
        hide Query, Selects;
        QueryStep(reg, ids, f, i, filtered);
        var id := ids[i];
        if id in snapshot && Selects(f, snapshot[id]) {
          filtered := filtered + [snapshot[id]];
        } else {
          assert filtered + [] == filtered;
        }
        i := i + 1;
      }
      assert filtered + [] == filtered;
    }
  }

  // ---- the index is exactly the running records ------------------------------------------------------------------------

  ghost predicate IdsOk(reg: Registry) {
    && (forall id | id in reg.records :: reg.records[id].id == id)
    && (forall id :: id in reg.order <==> id in reg.records)
  }

  /** The index maps a session and intent to an id exactly when that record is running. */
  ghost predicate IndexOk(reg: Registry) {
    && IdsOk(reg)
    && forall key: Key, id :: (key in reg.index && reg.index[key] == id) <==> (IsRunning(reg, id) && KeyOf(reg.records[id]) == key)
  }

  lemma IndexIds(reg: Registry)
    requires IndexOk(reg)
    ensures IdsOk(reg)
  {}

  lemma SameId(reg: Registry, id: string)
    requires IdsOk(reg) && id in reg.records
    ensures reg.records[id].id == id
  {}

  lemma EndIndex(reg: Registry, id: string, phase: ActionPhase, reason: Option<Reason>, turn: string)
    requires IndexOk(reg) && id in reg.records && !phase.Started? && !phase.Progress?
    ensures IndexOk(EndAs(reg, id, phase, reason, turn))
    ensures EndAs(reg, id, phase, reason, turn).order == reg.order
    ensures EndAs(reg, id, phase, reason, turn).records == reg.records[id := Ended(reg, id, phase, reason, turn)]
  {
    var reg' := EndAs(reg, id, phase, reason, turn);
    var key0 := KeyOf(reg.records[id]);
    forall key: Key, x ensures (key in reg'.index && reg'.index[key] == x) <==>
                               (IsRunning(reg', x) && KeyOf(reg'.records[x]) == key)
    {
      assert (key in reg.index && reg.index[key] == x) <==> (IsRunning(reg, x) && KeyOf(reg.records[x]) == key);
      assert (key0 in reg.index && reg.index[key0] == id) <==> IsRunning(reg, id);
    }
  }

  /**
   Starting keeps the index exact, unless the new id is the id of a run of another session or intent, which is
   precisely when it does not.
   */
  lemma StartIndexExactly(reg: Registry, r: Record)
    requires IndexOk(reg) && r.phase.Started?
    ensures IndexOk(StartAction(reg, r)) <==> !(IsRunning(reg, r.id) && KeyOf(reg.records[r.id]) != KeyOf(r))
  {
    var key := KeyOf(r);
    var existing := Existing(reg, key);
    var cleared := if existing.Some? then EndAs(reg, existing.value, Stopped, Some(SupersededByNewStart), r.turn) else reg;
    if existing.Some? { EndIndex(reg, existing.value, Stopped, Some(SupersededByNewStart), r.turn); }
    assert forall id :: IsRunning(cleared, id) ==> KeyOf(cleared.records[id]) != key by {
      assert key in reg.index ==> IsRunning(reg, reg.index[key]);
    }
    var reg' := StartAction(reg, r);
    if IsRunning(reg, r.id) && KeyOf(reg.records[r.id]) != key {
      var other := KeyOf(reg.records[r.id]);
      assert other in reg.index && reg.index[other] == r.id;
      assert other in reg'.index && reg'.index[other] == r.id && KeyOf(reg'.records[r.id]) == key;
    } else {
      StartKeepsIndex(cleared, r);
    }
  }

  /** An id used again in another session: both sessions' index entries name the one record. */
  lemma ReusedIdBreaksIndex()
    ensures var first := Record("a", CAMPMODE, "A", "turn", Started, 0.0, None);
            var reg := StartAction(Registry([], map[], map[]), first);
            IndexOk(reg) && !IndexOk(StartAction(reg, first.(session := "B")))
  {
    var first := Record("a", CAMPMODE, "A", "turn", Started, 0.0, None);
    StartIndexExactly(Registry([], map[], map[]), first);
    var reg := StartAction(Registry([], map[], map[]), first);
    assert IsRunning(reg, "a") && reg.records["a"] == first;
    StartIndexExactly(reg, first.(session := "B"));
    hide StartAction, IndexOk;
  }

  lemma StartKeepsIndex(cleared: Registry, r: Record)
    requires IndexOk(cleared) && r.phase.Started? && !IsRunning(cleared, r.id)
    requires forall id :: IsRunning(cleared, id) ==> KeyOf(cleared.records[id]) != KeyOf(r)
    ensures IndexOk(Put(cleared, r).(index := cleared.index[KeyOf(r) := r.id]))
  {
    var reg' := Put(cleared, r).(index := cleared.index[KeyOf(r) := r.id]);
    forall k: Key, x ensures (k in reg'.index && reg'.index[k] == x) <==>
                             (IsRunning(reg', x) && KeyOf(reg'.records[x]) == k)
    {
      assert (k in cleared.index && cleared.index[k] == x) <==> (IsRunning(cleared, x) && KeyOf(cleared.records[x]) == k);
    }
  }

  lemma ProgressIndex(reg: Registry, id: string, progress: real, turn: string)
    requires IndexOk(reg) && IsRunning(reg, id)
    ensures IndexOk(UpdateProgress(reg, id, progress, turn))
  {
    var reg' := UpdateProgress(reg, id, progress, turn);
    forall k: Key, x ensures (k in reg'.index && reg'.index[k] == x) <==>
                             (IsRunning(reg', x) && KeyOf(reg'.records[x]) == k)
    {
      assert (k in reg.index && reg.index[k] == x) <==> (IsRunning(reg, x) && KeyOf(reg.records[x]) == k);
    }
  }

  /** Stopping a list of records: the index stays exact, those records are stopped, all others untouched. */
  lemma {:induction false} StopAllIndex(reg: Registry, ids: seq<string>, reason: Reason, turn: string)
    requires IndexOk(reg) && forall id | id in ids :: id in reg.records
    ensures var reg' := StopAll(reg, ids, reason, turn);
            && IndexOk(reg') && reg'.order == reg.order && reg'.records.Keys == reg.records.Keys
            && (forall id | id in reg.records :: KeyOf(reg'.records[id]) == KeyOf(reg.records[id]))
            && (forall id | id in ids :: reg'.records[id].phase.Stopped?)
            && (forall id | id in reg.records && id !in ids :: reg'.records[id] == reg.records[id])
    decreases ids
  {
    hide IndexOk, EndAs;
    if ids != [] {
      EndIndex(reg, ids[0], Stopped, Some(reason), turn);
      var next := EndAs(reg, ids[0], Stopped, Some(reason), turn);
      StopAllIndex(next, ids[1..], reason, turn);
      assert forall id :: id in ids <==> id == ids[0] || id in ids[1..];
    }
  }

  /** A session reset leaves nothing running there and everything of other sessions as it was. */
  lemma ResetIsolates(reg: Registry, session: string, reason: Reason, turn: string)
    requires IndexOk(reg)
    ensures var reg' := ResetAll(reg, Some(session), reason, turn);
            && IndexOk(reg') && reg'.records.Keys == reg.records.Keys
            && (forall id | IsRunning(reg', id) :: reg'.records[id].session != session)
            && (forall id | id in reg.records && reg.records[id].session != session ::
                  id in reg'.records && reg'.records[id] == reg.records[id])
            && (forall id | id in reg.records && !Running(reg.records[id]) :: reg'.records[id] == reg.records[id])
  {
    StopAllIndex(reg, RunningIds(reg, reg.order, Some(session)), reason, turn);
    hide StopAll;
  }

  /** At most one run per session and intent, and the indexed lookup is the filtered scan. */
  lemma LookupIsScan(reg: Registry, session: string, intent: Intent)
    requires IndexOk(reg)
    ensures var f := Filter(Some(session), Some(intent), None, true);
            match GetRunning(reg, session, intent)
            case Some(r) => Running(r) && (forall x :: x in Query(reg, reg.order, f) <==> x == r)
            case None => Query(reg, reg.order, f) == []
  {
    var f := Filter(Some(session), Some(intent), None, true);
    var key: Key := (session, intent);
    forall x | x in Query(reg, reg.order, f) ensures key in reg.index && x == reg.records[reg.index[key]] {
      var id :| id in reg.order && id in reg.records && reg.records[id] == x;
      assert IsRunning(reg, id) && KeyOf(reg.records[id]) == key;
    }
    if key in reg.index {
      var id := reg.index[key];
      assert IsRunning(reg, id) && KeyOf(reg.records[id]) == key;
      assert id in reg.order && reg.records[id] in Query(reg, reg.order, f);
    } else if Query(reg, reg.order, f) != [] {
      assert Query(reg, reg.order, f)[0] in Query(reg, reg.order, f);
    }
  }

  // ---- runs of the public operations -----------------------------------------------------------------------------------

  datatype Op =
    | Start(record: Record)
    | Advance(id: string, progress: real, turn: string)
    | Finish(id: string, phase: ActionPhase, reason: Option<Reason>, turn: string)
    | ResetOp(session: Option<string>, why: Reason, turn: string)

  /** Fresh ids for starts; stop, fail and complete end in their own phase. */
  predicate WellFormed(reg: Registry, op: Op) {
    match op
    case Start(r) => r.phase.Started? && r.id !in reg.records
    case Finish(_, phase, _, _) => phase.Stopped? || phase.Failed? || phase.Completed?
    case _ => true
  }

  /** Calls on unknown or terminal records raise and change nothing. */
  function Execute(reg: Registry, op: Op): Registry {
    match op
    case Start(r) => StartAction(reg, r)
    case Advance(id, progress, turn) => if EndFault(reg, id).Some? then reg else UpdateProgress(reg, id, progress, turn)
    case Finish(id, phase, reason, turn) => if EndFault(reg, id).Some? then reg else EndAs(reg, id, phase, reason, turn)
    case ResetOp(session, reason, turn) => ResetAll(reg, session, reason, turn)
  }

  /** Every operation keeps the index exact and no operation touches a terminal record. */
  lemma ExecuteKeeps(reg: Registry, op: Op)
    requires IndexOk(reg) && WellFormed(reg, op)
    ensures IndexOk(Execute(reg, op))
    ensures forall id | id in reg.records && !Running(reg.records[id]) ::
              id in Execute(reg, op).records && Execute(reg, op).records[id] == reg.records[id]
  {
    match op
    case Start(r) =>
      StartIndexExactly(reg, r);
      var existing := Existing(reg, KeyOf(r));
      if existing.Some? { EndIndex(reg, existing.value, Stopped, Some(SupersededByNewStart), r.turn); }
    case Advance(id, progress, turn) => if EndFault(reg, id).None? { ProgressIndex(reg, id, progress, turn); }
    case Finish(id, phase, reason, turn) => if EndFault(reg, id).None? { EndIndex(reg, id, phase, reason, turn); }
    case ResetOp(session, reason, turn) => StopAllIndex(reg, RunningIds(reg, reg.order, session), reason, turn);
  }

  ghost predicate IsRun(run: seq<Registry>, ops: seq<Op>) {
    && |run| == |ops| + 1 && run[0] == Registry.Registry([], map[], map[])
    && forall i | 0 <= i < |ops| :: Follows(run, ops, i)
  }

  ghost predicate Follows(run: seq<Registry>, ops: seq<Op>, i: nat)
    requires i < |ops| && |run| == |ops| + 1
  {
    WellFormed(run[i], ops[i]) && run[i + 1] == Execute(run[i], ops[i])
  }

  /** Over all starts, updates, stops, failures, completions and resets the index is exactly the running records. */
  lemma {:induction false} RunIndex(run: seq<Registry>, ops: seq<Op>, i: nat)
    requires IsRun(run, ops) && i < |run|
    ensures IndexOk(run[i])
    decreases i
  {
    if i > 0 {
      RunIndex(run, ops, i - 1);
      hide IndexOk, Execute, WellFormed;
      assert Follows(run, ops, i - 1);
      ExecuteKeeps(run[i - 1], ops[i - 1]);
    }
  }
}
