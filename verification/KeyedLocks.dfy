/**
 Reference-counted keyed locks (`_request_lock` and `_session_lock` in runtime.py, `_state_change_lock`
 in orchestrator.py). Lock objects are created on first use and deleted with their last user; every
 access to the table is one atomic step, and `lock.acquire()` happens outside of it.
 */
module KeyedLocks {
  import opened Wrappers

  type Thread = nat
  type LockId = nat

  /** The three dictionaries; a turn nests request, then session, then orchestrator lock. */
  datatype Key = RequestKey(session: string, request: string) | SessionKey(session: string) | TurnKey(session: string)
  {
    function Level(): nat {
      match this case RequestKey(_, _) => 0 case SessionKey(_) => 1 case TurnKey(_) => 2
    }
  }

  datatype Phase = Waiting | Inside | Leaving

  /** Between entering and leaving one `with` block; `lock` is the object read from the table. */
  datatype Hold = Hold(key: Key, lock: LockId, phase: Phase)

  datatype Entry = Entry(lock: LockId, users: nat)

  datatype State = State(table: map<Key, Entry>, owner: map<LockId, Thread>, next: LockId,
                         stacks: map<Thread, seq<Hold>>)
  {
    function Stack(t: Thread): seq<Hold> {
      if t in stacks then stacks[t] else []
    }

    function WithStack(t: Thread, stack: seq<Hold>): State {
      this.(stacks := stacks[t := stack])
    }
  }

  // ---- the two table sections -------------------------------------------------------------------

  function EntryFor(table: map<Key, Entry>, next: LockId, key: Key): Entry {
    if key in table then Entry(table[key].lock, table[key].users + 1) else Entry(next, 1)
  }

  function Unregister(table: map<Key, Entry>, key: Key): map<Key, Entry>
    requires key in table
  {
    if table[key].users <= 1 then table - {key}
    else table[key := Entry(table[key].lock, table[key].users - 1)]
  }

  class KeyedLockTable {
    var table: map<Key, Entry>
    var next: LockId

    constructor ()
      ensures table == map[]
    {
      table, next := map[], 0;
    }

    /** Entering the `with` block: join the key's lock object or make a new one. */
    method Enter(key: Key) returns (lock: LockId)
      modifies this
      ensures var entry := EntryFor(old(table), old(next), key);
        table == old(table)[key := entry] && lock == entry.lock
      ensures next == if key in old(table) then old(next) else old(next) + 1
    {
      var users := 0;
      if key in table { lock, users := table[key].lock, table[key].users; }
      else { lock, next := next, next + 1; }
      table := table[key := Entry(lock, users + 1)];
    }

    /** Leaving it, after the lock itself has been released. */
    method Leave(key: Key)
      requires key in table
      modifies this`table
      ensures table == Unregister(old(table), key)
    {
      var entry := table[key];
      if entry.users <= 1 { table := table - {key}; }
      else { table := table[key := Entry(entry.lock, entry.users - 1)]; }
    }
  }

  // ---- the transition system ----------------------------------------------------------------------

  datatype Step = Enter(thread: Thread, key: Key) | Acquire(thread: Thread) | Release(thread: Thread) | Leave(thread: Thread)

  function Top(stack: seq<Hold>): Hold
    requires stack != []
  {
    stack[|stack| - 1]
  }

  predicate Enabled(s: State, step: Step) {
    var stack := s.Stack(step.thread);
    match step
    case Enter(_, key) => stack == [] || (Top(stack).phase.Inside? && Top(stack).key.Level() < key.Level())
    case Acquire(_) => stack != [] && Top(stack).phase.Waiting? && Top(stack).lock !in s.owner
    case Release(_) => stack != [] && Top(stack).phase.Inside?
    case Leave(_) => stack != [] && Top(stack).phase.Leaving? && Top(stack).key in s.table
  }

  function WithPhase(stack: seq<Hold>, phase: Phase): seq<Hold>
    requires stack != []
  {
    stack[|stack| - 1 := Top(stack).(phase := phase)]
  }

  function Next(s: State, step: Step): State
    requires Enabled(s, step)
  {
    var t := step.thread;
    var stack := s.Stack(t);
    match step
    case Enter(_, key) =>
      var entry := EntryFor(s.table, s.next, key);
      State(s.table[key := entry], s.owner, if key in s.table then s.next else s.next + 1,
            s.stacks[t := stack + [Hold(key, entry.lock, Waiting)]])
    case Acquire(_) =>
      s.(owner := s.owner[Top(stack).lock := t]).WithStack(t, WithPhase(stack, Inside))
    case Release(_) =>
      s.(owner := s.owner - {Top(stack).lock}).WithStack(t, WithPhase(stack, Leaving))
    case Leave(_) =>
      s.(table := Unregister(s.table, Top(stack).key)).WithStack(t, stack[..|stack| - 1])
  }

  // ---- the invariant --------------------------------------------------------------------------------

  /** Locks are nested in increasing level and only the innermost may still be waiting. */
  predicate NestedOk(stack: seq<Hold>) {
    && (forall i, j | 0 <= i < j < |stack| :: stack[i].key.Level() < stack[j].key.Level())
    && (forall i | 0 <= i < |stack| - 1 :: stack[i].phase.Inside?)
  }

  predicate Uses(stack: seq<Hold>, key: Key) {
    exists i | 0 <= i < |stack| :: stack[i].key == key
  }

  function Users(s: State, key: Key): set<Thread> {
    set t | t in s.stacks && Uses(s.stacks[t], key)
  }

  /** Everyone on a key uses the one lock object the table lists for it. */
  predicate BoundOk(s: State, stack: seq<Hold>) {
    forall i | 0 <= i < |stack| :: stack[i].key in s.table && s.table[stack[i].key].lock == stack[i].lock
  }

  predicate OwnsOk(s: State, t: Thread, stack: seq<Hold>) {
    forall i | 0 <= i < |stack| :: stack[i].phase.Inside? ==> stack[i].lock in s.owner && s.owner[stack[i].lock] == t
  }

  predicate HoldsInside(stack: seq<Hold>, lock: LockId) {
    exists i | 0 <= i < |stack| :: stack[i].lock == lock && stack[i].phase.Inside?
  }

  ghost predicate ThreadOk(s: State, t: Thread) {
    NestedOk(s.Stack(t)) && BoundOk(s, s.Stack(t)) && OwnsOk(s, t, s.Stack(t))
  }

  ghost predicate TableOk(s: State) {
    && (forall k | k in s.table :: s.table[k].users == |Users(s, k)| && s.table[k].users > 0 && s.table[k].lock < s.next)
    && (forall k, l | k in s.table && l in s.table && s.table[k].lock == s.table[l].lock :: k == l)
  }

  ghost predicate Inv(s: State) {
    && (forall t :: ThreadOk(s, t))
    && TableOk(s)
    && (forall l | l in s.owner :: HoldsInside(s.Stack(s.owner[l]), l) && l < s.next)
  }

  lemma InitInv()
    ensures Inv(State(map[], map[], 0, map[]))
  {}

  /** Only `t` changes its use of keys, so only those counts move. */
  lemma UsersMoved(s: State, s': State, t: Thread, key: Key)
    requires s'.stacks == s.stacks[t := s'.Stack(t)]
    ensures Users(s', key) == (if Uses(s'.Stack(t), key) then Users(s, key) + {t} else Users(s, key) - {t})
  {}

  lemma UsersSame(s: State, s': State, t: Thread)
    requires s'.stacks == s.stacks[t := s'.Stack(t)]
    requires forall k :: Uses(s'.Stack(t), k) <==> Uses(s.Stack(t), k)
    ensures forall k :: Users(s', k) == Users(s, k)
  {
    forall k ensures Users(s', k) == Users(s, k) { UsersMoved(s, s', t, k); }
  }

  lemma EnterThreads(s: State, step: Step)
    requires Inv(s) && step.Enter? && Enabled(s, step)
    ensures forall t :: ThreadOk(Next(s, step), t)
  {
    hide Users, Uses, TableOk, HoldsInside;
    forall t ensures ThreadOk(Next(s, step), t) { EnterThread(s, step, t); }
  }

  lemma EnterThread(s: State, step: Step, t: Thread)
    requires Inv(s) && step.Enter? && Enabled(s, step)
    ensures ThreadOk(Next(s, step), t)
  {
    hide Users, Uses, HoldsInside;
    assert ThreadOk(s, t);
  }

  lemma Unlisted(s: State, key: Key)
    requires (forall t :: ThreadOk(s, t)) && key !in s.table
    ensures Users(s, key) == {}
  {
    forall t | t in s.stacks ensures !Uses(s.stacks[t], key) { assert ThreadOk(s, t); }
  }

  lemma EnterUses(stack: seq<Hold>, h: Hold, k: Key)
    ensures Uses(stack + [h], k) <==> Uses(stack, k) || k == h.key
  {
    assert (stack + [h])[|stack|] == h;
    if i :| 0 <= i < |stack| && stack[i].key == k { assert (stack + [h])[i].key == k; }
  }

  lemma CountAdded(s: State, s': State, t: Thread, key: Key, k: Key)
    requires s'.stacks == s.stacks[t := s'.Stack(t)] && !Uses(s.Stack(t), key)
    requires Uses(s'.Stack(t), k) <==> Uses(s.Stack(t), k) || k == key
    ensures |Users(s', k)| == |Users(s, k)| + if k == key then 1 else 0
  {
    UsersMoved(s, s', t, k);
    assert t in Users(s, k) <==> Uses(s.Stack(t), k) && t in s.stacks;
    assert Uses(s.Stack(t), k) ==> t in s.stacks;
  }

  lemma CountRemoved(s: State, s': State, t: Thread, key: Key, k: Key)
    requires s'.stacks == s.stacks[t := s'.Stack(t)] && Uses(s.Stack(t), key) && !Uses(s'.Stack(t), key)
    requires k != key ==> (Uses(s'.Stack(t), k) <==> Uses(s.Stack(t), k))
    ensures |Users(s, k)| == |Users(s', k)| + if k == key then 1 else 0
  {
    UsersMoved(s, s', t, k);
    assert t in Users(s, k) <==> Uses(s.Stack(t), k) && t in s.stacks;
    assert Uses(s.Stack(t), k) ==> t in s.stacks;
  }

  lemma EnterCount(s: State, step: Step, k: Key)
    requires (forall t :: ThreadOk(s, t)) && TableOk(s) && step.Enter? && Enabled(s, step) && k in Next(s, step).table
    ensures Next(s, step).table[k].users == |Users(Next(s, step), k)|
  {
    var s', t, key := Next(s, step), step.thread, step.key;
    assert ThreadOk(s, t);
    assert !Uses(s.Stack(t), key);
    EnterUses(s.Stack(t), Top(s'.Stack(t)), k);
    CountAdded(s, s', t, key, k);
    hide Uses, Users, ThreadOk;
    if k == key && key !in s.table { Unlisted(s, key); }
  }

  /** Other threads keep theirs; `t` keeps `l` if it did not just release it. */
  lemma OwnersKept(s: State, s': State, t: Thread)
    requires (forall l | l in s.owner :: HoldsInside(s.Stack(s.owner[l]), l) && l < s.next) && s.next <= s'.next
    requires s'.owner == s.owner && s'.stacks == s.stacks[t := s'.Stack(t)]
    requires forall l | l in s.owner && s.owner[l] == t && HoldsInside(s.Stack(t), l) :: HoldsInside(s'.Stack(t), l)
    ensures forall l | l in s'.owner :: HoldsInside(s'.Stack(s'.owner[l]), l) && l < s'.next
  {}

  lemma EnterInv(s: State, step: Step)
    requires Inv(s) && step.Enter? && Enabled(s, step)
    ensures Inv(Next(s, step))
  {
    var s', t := Next(s, step), step.thread;
    EnterThreads(s, step);
    forall k | k in s'.table ensures s'.table[k].users == |Users(s', k)| { EnterCount(s, step, k); }
    forall l | HoldsInside(s.Stack(t), l) ensures HoldsInside(s'.Stack(t), l) {
      var i :| 0 <= i < |s.Stack(t)| && s.Stack(t)[i].lock == l && s.Stack(t)[i].phase.Inside?;
      assert s'.Stack(t)[i] == s.Stack(t)[i];
    }
    hide Uses, Users, HoldsInside, ThreadOk;
    OwnersKept(s, s', t);
  }

  /** Changing only the innermost phase changes nobody's use of keys. */
  lemma PhaseUses(stack: seq<Hold>, phase: Phase)
    requires stack != []
    ensures forall k :: Uses(WithPhase(stack, phase), k) <==> Uses(stack, k)
  {
    forall k ensures Uses(WithPhase(stack, phase), k) <==> Uses(stack, k) {
      if i :| 0 <= i < |stack| && stack[i].key == k { assert WithPhase(stack, phase)[i].key == k; }
    }
  }

  lemma PhaseTable(s: State, s': State, t: Thread, phase: Phase)
    requires TableOk(s) && s.Stack(t) != [] && s'.table == s.table && s'.next == s.next
    requires s'.stacks == s.stacks[t := WithPhase(s.Stack(t), phase)]
    ensures TableOk(s')
  {
    PhaseUses(s.Stack(t), phase);
    hide Uses, Users;
    UsersSame(s, s', t);
  }

  /** Distinct keys of one thread have distinct lock objects. */
  lemma LocksDiffer(s: State, t: Thread, i: nat, j: nat)
    requires ThreadOk(s, t) && TableOk(s) && i < j < |s.Stack(t)|
    ensures s.Stack(t)[i].lock != s.Stack(t)[j].lock
  {}

  lemma InsideKept(stack: seq<Hold>, stack': seq<Hold>, l: LockId)
    requires HoldsInside(stack, l) && |stack| <= |stack'|
    requires forall i | 0 <= i < |stack| && stack[i].phase.Inside? :: stack'[i] == stack[i]
    ensures HoldsInside(stack', l)
  {
    var i :| 0 <= i < |stack| && stack[i].lock == l && stack[i].phase.Inside?;
    assert stack'[i].phase.Inside?;
  }

  lemma AcquireThread(s: State, step: Step, u: Thread)
    requires ThreadOk(s, u) && ThreadOk(s, step.thread) && step.Acquire? && Enabled(s, step)
    ensures ThreadOk(Next(s, step), u)
  {}

  lemma AcquireOwners(s: State, step: Step)
    requires (forall l | l in s.owner :: HoldsInside(s.Stack(s.owner[l]), l) && l < s.next)
    requires step.Acquire? && Enabled(s, step) && Top(s.Stack(step.thread)).lock < s.next
    ensures var s' := Next(s, step); forall l | l in s'.owner :: HoldsInside(s'.Stack(s'.owner[l]), l) && l < s'.next
  {
    var s', t := Next(s, step), step.thread;
    var stack := s.Stack(t);
    assert HoldsInside(s'.Stack(t), Top(stack).lock) by { assert s'.Stack(t)[|stack| - 1].phase.Inside?; }
    forall l | l in s.owner ensures HoldsInside(s'.Stack(s.owner[l]), l) {
      if s.owner[l] == t { InsideKept(stack, s'.Stack(t), l); }
    }
  }

  lemma AcquireInv(s: State, step: Step)
    requires Inv(s) && step.Acquire? && Enabled(s, step)
    ensures Inv(Next(s, step))
  {
    assert ThreadOk(s, step.thread);
    PhaseTable(s, Next(s, step), step.thread, Inside);
    AcquireOwners(s, step);
    forall u ensures ThreadOk(Next(s, step), u) { assert ThreadOk(s, u); AcquireThread(s, step, u); }
  }

  lemma ReleaseThread(s: State, step: Step, u: Thread)
    requires ThreadOk(s, u) && ThreadOk(s, step.thread) && TableOk(s) && step.Release? && Enabled(s, step)
    ensures ThreadOk(Next(s, step), u)
  {
    var s', t := Next(s, step), step.thread;
    var released := Top(s.Stack(t)).lock;
    assert s.owner[released] == t;
    if u == t {
      forall i | 0 <= i < |s.Stack(t)| - 1 ensures s.Stack(t)[i].lock != released {
        LocksDiffer(s, t, i, |s.Stack(t)| - 1);
      }
    }
  }

  lemma ReleaseOwners(s: State, step: Step)
    requires (forall l | l in s.owner :: HoldsInside(s.Stack(s.owner[l]), l) && l < s.next)
    requires step.Release? && Enabled(s, step)
    ensures var s' := Next(s, step); forall l | l in s'.owner :: HoldsInside(s'.Stack(s'.owner[l]), l) && l < s'.next
  {
    var s', t := Next(s, step), step.thread;
    var stack := s.Stack(t);
    forall l | l in s'.owner ensures HoldsInside(s'.Stack(s.owner[l]), l) {
      if s.owner[l] == t {
        var i :| 0 <= i < |stack| && stack[i].lock == l && stack[i].phase.Inside?;
        assert s'.Stack(t)[i] == stack[i];
      }
    }
  }

  lemma ReleaseInv(s: State, step: Step)
    requires Inv(s) && step.Release? && Enabled(s, step)
    ensures Inv(Next(s, step))
  {
    assert ThreadOk(s, step.thread);
    PhaseTable(s, Next(s, step), step.thread, Leaving);
    ReleaseOwners(s, step);
    forall u ensures ThreadOk(Next(s, step), u) { assert ThreadOk(s, u); ReleaseThread(s, step, u); }
  }

  lemma LeaveThread(s: State, step: Step, u: Thread)
    requires ThreadOk(s, u) && ThreadOk(s, step.thread) && TableOk(s) && step.Leave? && Enabled(s, step)
    ensures ThreadOk(Next(s, step), u)
  {
    hide Users, HoldsInside;
    var s', t := Next(s, step), step.thread;
    var key := Top(s.Stack(t)).key;
    if key !in s'.table {
      LastUser(s, t, key);
      assert u != t ==> !Uses(s.Stack(u), key);
    }
  }

  /** With a count of one, the leaving thread is the only user. */
  lemma LastUser(s: State, t: Thread, key: Key)
    requires TableOk(s) && key in s.table && s.table[key].users <= 1 && Uses(s.Stack(t), key)
    ensures forall u | u != t :: !Uses(s.Stack(u), key)
  {
    forall u | u != t ensures !Uses(s.Stack(u), key) {
      if Uses(s.Stack(u), key) {
        assert {t, u} <= Users(s, key);
        SubsetSize({t, u}, Users(s, key));
      }
    }
  }

  lemma LeaveUses(stack: seq<Hold>, k: Key)
    requires stack != [] && NestedOk(stack)
    ensures Uses(stack, k) <==> Uses(stack[..|stack| - 1], k) || k == Top(stack).key
    ensures !Uses(stack[..|stack| - 1], Top(stack).key)
  {
    assert stack == stack[..|stack| - 1] + [Top(stack)];
    EnterUses(stack[..|stack| - 1], Top(stack), k);
  }

  lemma LeaveTable(s: State, step: Step)
    requires TableOk(s) && ThreadOk(s, step.thread) && step.Leave? && Enabled(s, step)
    ensures TableOk(Next(s, step))
  {
    var s', t := Next(s, step), step.thread;
    var key := Top(s.Stack(t)).key;
    forall k | k in s.table ensures |Users(s, k)| == |Users(s', k)| + if k == key then 1 else 0 {
      LeaveUses(s.Stack(t), key);
      LeaveUses(s.Stack(t), k);
      CountRemoved(s, s', t, key, k);
    }
  }

  lemma LeaveOwners(s: State, step: Step)
    requires (forall l | l in s.owner :: HoldsInside(s.Stack(s.owner[l]), l) && l < s.next)
    requires step.Leave? && Enabled(s, step)
    ensures var s' := Next(s, step); forall l | l in s'.owner :: HoldsInside(s'.Stack(s'.owner[l]), l) && l < s'.next
  {
    var s', t := Next(s, step), step.thread;
    var stack := s.Stack(t);
    forall l | l in s'.owner ensures HoldsInside(s'.Stack(s.owner[l]), l) {
      if s.owner[l] == t {
        var i :| 0 <= i < |stack| && stack[i].lock == l && stack[i].phase.Inside?;
        assert s'.Stack(t)[i] == stack[i];
      }
    }
  }

  lemma LeaveInv(s: State, step: Step)
    requires Inv(s) && step.Leave? && Enabled(s, step)
    ensures Inv(Next(s, step))
  {
    assert ThreadOk(s, step.thread);
    LeaveTable(s, step);
    LeaveOwners(s, step);
    forall u ensures ThreadOk(Next(s, step), u) { assert ThreadOk(s, u); LeaveThread(s, step, u); }
  }

  lemma StepInv(s: State, step: Step)
    requires Inv(s) && Enabled(s, step)
    ensures Inv(Next(s, step))
  {
    match step
    case Enter(_, _) => EnterInv(s, step);
    case Acquire(_) => AcquireInv(s, step);
    case Release(_) => ReleaseInv(s, step);
    case Leave(_) => LeaveInv(s, step);
  }

  // ---- what the invariant gives -------------------------------------------------------------------

  /** Thread `t` is in the critical section of `key`. */
  predicate InSection(s: State, t: Thread, key: Key) {
    exists i | 0 <= i < |s.Stack(t)| :: s.Stack(t)[i].key == key && s.Stack(t)[i].phase.Inside?
  }

  /** No two threads are ever inside the same key, although lock objects come and go. */
  lemma MutualExclusion(s: State, t: Thread, u: Thread, key: Key)
    requires Inv(s) && InSection(s, t, key) && InSection(s, u, key)
    ensures t == u
  {
    assert ThreadOk(s, t) && ThreadOk(s, u);
  }

  /** The table lists exactly the keys in use, each with its number of users. */
  lemma TableExact(s: State, key: Key)
    requires Inv(s)
    ensures key in s.table <==> Users(s, key) != {}
    ensures key in s.table ==> s.table[key].users == |Users(s, key)|
  {
    if key !in s.table { Unlisted(s, key); }
  }

  predicate Blocked(s: State, t: Thread) {
    var stack := s.Stack(t);
    stack != [] && Top(stack).phase.Waiting? && Top(stack).lock in s.owner
  }

  /**
   No deadlock: from any thread inside some lock scope, following owners reaches a thread that can
   take its next lock step. The chain climbs levels, so it is never a cycle.
   */
  lemma {:induction false} NoDeadlock(s: State, t: Thread) returns (u: Thread)
    requires Inv(s) && s.Stack(t) != []
    ensures s.Stack(u) != [] && !Blocked(s, u)
    ensures exists step: Step :: step.thread == u && !step.Enter? && Enabled(s, step)
    decreases 2 - Top(s.Stack(t)).key.Level()
  {
    var stack := s.Stack(t);
    assert ThreadOk(s, t);
    if Blocked(s, t) {
      var v := s.owner[Top(stack).lock];
      assert ThreadOk(s, v);
      var i :| 0 <= i < |s.Stack(v)| && s.Stack(v)[i].lock == Top(stack).lock && s.Stack(v)[i].phase.Inside?;
      if Blocked(s, v) {
        assert Top(s.Stack(v)).key.Level() > s.Stack(v)[i].key.Level();
        u := NoDeadlock(s, v);
      } else {
        u := CanStep(s, v);
      }
    } else {
      u := CanStep(s, t);
    }
  }

  lemma CanStep(s: State, t: Thread) returns (u: Thread)
    requires ThreadOk(s, t) && s.Stack(t) != [] && !Blocked(s, t)
    ensures u == t && exists step: Step :: step.thread == u && !step.Enter? && Enabled(s, step)
  {
    u := t;
    match Top(s.Stack(t)).phase
    case Waiting => assert Enabled(s, Acquire(t));
    case Inside => assert Enabled(s, Release(t));
    case Leaving => assert Enabled(s, Leave(t));
  }
}
