/**
 Duplicate suppression in `AgentRuntime.handle_text` (runtime.py): request lock, session lock, cache
 lookup, agent run, cache store, as interleaved steps over the keyed locks. `runs`, `failures`,
 `removals` and `latest` are history only.
 */
module AgentRuntime {
  import opened Wrappers
  import L = KeyedLocks
  import C = ResultCache

  type Thread = L.Thread

  /** Where one `handle_text` call is inside `_handle_once`. */
  datatype Body = Pending | Running | Answered(result: C.Value) | Raised

  datatype Call = Call(key: C.Key, body: Body)

  datatype State = State(locks: L.State, calls: map<Thread, Call>, cache: C.Cache, limit: nat,
                         runs: map<C.Key, nat>, failures: map<C.Key, nat>, removals: map<C.Key, nat>,
                         latest: map<C.Key, C.Value>)

  function Count(m: map<C.Key, nat>, k: C.Key): nat {
    if k in m then m[k] else 0
  }

  function Bump(m: map<C.Key, nat>, keys: set<C.Key>): map<C.Key, nat> {
    map k | k in m.Keys + keys :: Count(m, k) + if k in keys then 1 else 0
  }

  datatype Step =
    | Begin(thread: Thread, key: C.Key)
    | Lock(thread: Thread, lock: L.Step)
    | Lookup(thread: Thread)
    | Finish(thread: Thread, result: C.Value)
    | Fail(thread: Thread)
    | Return(thread: Thread)
    | ResetSession(session: string)

  function RequestLock(k: C.Key): L.Key { L.RequestKey(k.session, k.request) }

  /** The program text of `handle_text`: which lock operation may come next. */
  predicate LockAllowed(s: State, t: Thread, step: L.Step)
    requires t in s.calls
  {
    var call, stack := s.calls[t], s.locks.Stack(t);
    match step
    case Enter(_, key) =>
      if stack == [] then call.body.Pending? && key == RequestLock(call.key)
      else if |stack| == 1 then call.body.Pending? && key == L.SessionKey(call.key.session)
      else |stack| == 2 && call.body.Running? && key == L.TurnKey(call.key.session)
    case Acquire(_) => true
    case Release(_) => |stack| == 3 || !(call.body.Pending? || call.body.Running?)
    case Leave(_) => true
  }

  /** Both `with` blocks are entered and nothing is nested inside them. */
  predicate InBoth(s: State, t: Thread) {
    var stack := s.locks.Stack(t);
    |stack| == 2 && stack[0].phase.Inside? && stack[1].phase.Inside?
  }

  predicate Enabled(s: State, step: Step) {
    match step
    case Begin(t, _) => t !in s.calls && s.locks.Stack(t) == []
    case Lock(t, ls) => ls.thread == t && t in s.calls && L.Enabled(s.locks, ls) && LockAllowed(s, t, ls)
    case Lookup(t) => t in s.calls && s.calls[t].body.Pending? && InBoth(s, t)
    case Finish(t, _) => t in s.calls && s.calls[t].body.Running? && InBoth(s, t)
    case Fail(t) => t in s.calls && s.calls[t].body.Running? && InBoth(s, t)
    case Return(t) => t in s.calls && s.locks.Stack(t) == [] && !s.calls[t].body.Pending?
    case ResetSession(_) => true
  }

  function Next(s: State, step: Step): State
    requires Enabled(s, step)
  {
    match step
    case Begin(t, key) => s.(calls := s.calls[t := Call(key, Pending)])
    case Lock(t, ls) => s.(locks := L.Next(s.locks, ls))
    case Lookup(t) =>
      var call := s.calls[t];
      (match C.Find(s.cache, call.key)
       case Some(v) => s.(calls := s.calls[t := call.(body := Answered(v))], cache := C.Touch(s.cache, call.key))
       case None => s.(calls := s.calls[t := call.(body := Running)], runs := Bump(s.runs, {call.key})))
    case Finish(t, result) =>
      var call := s.calls[t];
      var cache := C.Put(s.cache, call.key, result, s.limit);
      s.(calls := s.calls[t := call.(body := Answered(result))], cache := cache,
         removals := Bump(s.removals, C.Keys(s.cache) - C.Keys(cache)),
         latest := s.latest[call.key := result])
    case Fail(t) =>
      s.(calls := s.calls[t := s.calls[t].(body := Raised)], failures := Bump(s.failures, {s.calls[t].key}))
    case Return(t) => s.(calls := s.calls - {t})
    case ResetSession(session) =>
      var cache := C.Clear(s.cache, (k: C.Key) => k.session == session);
      s.(cache := cache, removals := Bump(s.removals, C.Keys(s.cache) - C.Keys(cache)))
  }

  // ---- the invariant --------------------------------------------------------------------------------

  /** A call's locks are its own, in program order, and the body runs with the outer two held. */
  ghost predicate CallOk(s: State, t: Thread) {
    var stack := s.locks.Stack(t);
    if t in s.calls then
      && |stack| <= 3
      && (|stack| > 0 ==> stack[0].key == RequestLock(s.calls[t].key))
      && (|stack| > 1 ==> stack[1].key == L.SessionKey(s.calls[t].key.session))
      && (s.calls[t].body.Running? ==> |stack| >= 2 && stack[0].phase.Inside? && stack[1].phase.Inside?)
      && (|stack| == 3 ==> s.calls[t].body.Running?)
    else stack == []
  }

  ghost predicate RunningOn(s: State, t: Thread, k: C.Key) {
    t in s.calls && s.calls[t].key == k && s.calls[t].body.Running?
  }

  ghost predicate InFlight(s: State, k: C.Key) {
    exists t :: RunningOn(s, t, k)
  }

  predicate Cached(s: State, k: C.Key) {
    k in C.Keys(s.cache)
  }

  /** Every agent run is in flight, cached, failed, or was cached and then removed: nothing else. */
  ghost predicate Conserved(s: State, k: C.Key) {
    && !(InFlight(s, k) && Cached(s, k))
    && Count(s.runs, k) == Count(s.failures, k) + Count(s.removals, k) + (if InFlight(s, k) || Cached(s, k) then 1 else 0)
  }

  /** What is cached is what the last successful run returned. */
  ghost predicate FreshOk(s: State, k: C.Key) {
    Cached(s, k) ==> k in s.latest && C.Find(s.cache, k) == Some(s.latest[k])
  }

  ghost predicate Inv(s: State) {
    && L.Inv(s.locks)
    && C.Unique(s.cache) && |s.cache| <= s.limit
    && (forall t :: CallOk(s, t))
    && (forall k :: Conserved(s, k) && FreshOk(s, k))
  }

  ghost predicate Init(s: State) {
    s == State(L.State(map[], map[], 0, map[]), map[], [], s.limit, map[], map[], map[], map[]) && s.limit >= 1
  }

  lemma InitInv(s: State)
    requires Init(s)
    ensures Inv(s)
  {
    L.InitInv();
  }

  // ---- the cache and `latest` ---------------------------------------------------------------------

  lemma {:induction false} FindRemove(cache: C.Cache, k: C.Key, other: C.Key)
    requires k != other
    ensures C.Find(C.Remove(cache, other), k) == C.Find(cache, k)
  {
    if cache != [] { FindRemove(cache[1..], k, other); }
  }

  lemma {:induction false} FindAppend(cache: C.Cache, k: C.Key, s: C.Slot)
    ensures C.Find(cache + [s], k) ==
            if k in C.Keys(cache) then C.Find(cache, k) else if s.key == k then Some(s.value) else None
  {
    if cache != [] {
      assert (cache + [s])[1..] == cache[1..] + [s];
      FindAppend(cache[1..], k, s);
    }
  }

  lemma {:induction false} FindTrim(cache: C.Cache, k: C.Key, limit: nat)
    requires C.Unique(cache) && k in C.Keys(C.Trim(cache, limit))
    ensures C.Find(C.Trim(cache, limit), k) == C.Find(cache, k)
  {
    if |cache| > limit { FindTrim(cache[1..], k, limit); }
  }

  lemma {:induction false} FindClear(cache: C.Cache, k: C.Key, drop: C.Key -> bool)
    requires !drop(k)
    ensures C.Find(C.Clear(cache, drop), k) == C.Find(cache, k)
  {
    if cache != [] { FindClear(cache[1..], k, drop); }
  }

  lemma FindMoved(cache: C.Cache, k: C.Key, s: C.Slot)
    ensures C.Find(C.Append(C.Remove(cache, s.key), s), k) == if k == s.key then Some(s.value) else C.Find(cache, k)
  {
    FindAppend(C.Remove(cache, s.key), k, s);
    if k != s.key { FindRemove(cache, k, s.key); }
  }

  /** A stored result is found again; it can only push other keys out. */
  lemma PutKeeps(cache: C.Cache, key: C.Key, v: C.Value, limit: nat)
    requires C.Unique(cache) && |cache| <= limit && limit >= 1
    ensures key in C.Keys(C.Put(cache, key, v, limit))
    ensures C.Keys(C.Put(cache, key, v, limit)) <= C.Keys(cache) + {key}
    ensures forall k | k in C.Keys(C.Put(cache, key, v, limit)) ::
              C.Find(C.Put(cache, key, v, limit), k) == if k == key then Some(v) else C.Find(cache, k)
  {
    var appended := C.Append(C.Remove(cache, key), C.Slot(key, v));
    C.NewerAtEnd(C.Remove(cache, key), C.Slot(key, v));
    C.NewerAfterTrim(appended, key, limit);
    forall k | k in C.Keys(C.Put(cache, key, v, limit))
      ensures C.Find(C.Put(cache, key, v, limit), k) == if k == key then Some(v) else C.Find(cache, k)
    {
      FindTrim(appended, k, limit);
      FindMoved(cache, k, C.Slot(key, v));
    }
  }

  // ---- preservation ---------------------------------------------------------------------------------

  /** Two calls with one key cannot both be past the request lock. */
  lemma OneRunner(s: State, t: Thread, u: Thread)
    requires Inv(s) && t in s.calls && u in s.calls && s.calls[t].key == s.calls[u].key
    requires InBoth(s, t) && s.calls[u].body.Running?
    ensures t == u
  {
    assert CallOk(s, t) && CallOk(s, u);
    L.MutualExclusion(s.locks, t, u, RequestLock(s.calls[t].key));
  }

  lemma FlightSame(s: State, s': State, k: C.Key)
    requires forall t :: RunningOn(s', t, k) <==> RunningOn(s, t, k)
    ensures InFlight(s', k) <==> InFlight(s, k)
  {}

  lemma LockStep(s: State, step: Step)
    requires Inv(s) && step.Lock? && Enabled(s, step)
    ensures Inv(Next(s, step))
  {
    var s' := Next(s, step);
    assert CallOk(s, step.thread);
    forall t ensures CallOk(s', t) { assert CallOk(s, t); }
    hide L.Inv, CallOk;
    L.StepInv(s.locks, step.lock);
    forall k ensures Conserved(s', k) && FreshOk(s', k) {
      assert Conserved(s, k) && FreshOk(s, k);
      FlightSame(s, s', k);
    }
  }

  lemma CallsKept(s: State, s': State, t: Thread)
    requires (forall u :: CallOk(s, u)) && s'.locks == s.locks
    requires forall u | u != t :: (u in s'.calls <==> u in s.calls) && (u in s.calls ==> s'.calls[u] == s.calls[u])
    requires CallOk(s', t)
    ensures forall u :: CallOk(s', u)
  {
    forall u ensures CallOk(s', u) { assert CallOk(s, u); }
  }

  lemma QuietStep(s: State, step: Step)
    requires Inv(s) && (step.Begin? || step.Return?) && Enabled(s, step)
    ensures Inv(Next(s, step))
  {
    var s' := Next(s, step);
    assert CallOk(s, step.thread);
    CallsKept(s, s', step.thread);
    forall k ensures Conserved(s', k) && FreshOk(s', k) {
      assert Conserved(s, k) && FreshOk(s, k);
      FlightSame(s, s', k);
    }
  }

  lemma HitStep(s: State, t: Thread)
    requires Inv(s) && Enabled(s, Lookup(t)) && Cached(s, s.calls[t].key)
    ensures Inv(Next(s, Lookup(t)))
  {
    var s', key := Next(s, Lookup(t)), s.calls[t].key;
    assert CallOk(s, t);
    CallsKept(s, s', t);
    forall k ensures Conserved(s', k) && FreshOk(s', k) {
      assert Conserved(s, k) && FreshOk(s, k);
      FlightSame(s, s', k);
      FindMoved(s.cache, k, C.Slot(key, C.Find(s.cache, key).value));
    }
  }

  lemma MissStep(s: State, t: Thread)
    requires Inv(s) && Enabled(s, Lookup(t)) && !Cached(s, s.calls[t].key)
    ensures Inv(Next(s, Lookup(t)))
  {
    var s', key := Next(s, Lookup(t)), s.calls[t].key;
    assert CallOk(s, t);
    CallsKept(s, s', t);
    if u :| RunningOn(s, u, key) { OneRunner(s, t, u); }
    forall k ensures Conserved(s', k) && FreshOk(s', k) {
      assert Conserved(s, k) && FreshOk(s, k);
      if k == key { assert RunningOn(s', t, k); } else { FlightSame(s, s', k); }
    }
  }

  lemma EndsFlight(s: State, s': State, t: Thread)
    requires Inv(s) && t in s.calls && s.calls[t].body.Running? && InBoth(s, t)
    requires t in s'.calls && s'.calls == s.calls[t := s.calls[t].(body := s'.calls[t].body)] && !s'.calls[t].body.Running?
    ensures !InFlight(s', s.calls[t].key) && InFlight(s, s.calls[t].key)
    ensures forall k | k != s.calls[t].key :: InFlight(s', k) <==> InFlight(s, k)
  {
    var key := s.calls[t].key;
    assert RunningOn(s, t, key);
    if u :| RunningOn(s', u, key) { assert RunningOn(s, u, key); OneRunner(s, t, u); }
    forall k | k != key ensures InFlight(s', k) <==> InFlight(s, k) { FlightSame(s, s', k); }
  }

  lemma FailStep(s: State, t: Thread)
    requires Inv(s) && Enabled(s, Fail(t))
    ensures Inv(Next(s, Fail(t)))
  {
    var s' := Next(s, Fail(t));
    assert CallOk(s, t);
    CallsKept(s, s', t);
    EndsFlight(s, s', t);
    forall k ensures Conserved(s', k) && FreshOk(s', k) { assert Conserved(s, k) && FreshOk(s, k); }
  }

  lemma FinishKey(s: State, t: Thread, result: C.Value, k: C.Key)
    requires C.Unique(s.cache) && |s.cache| <= s.limit && s.limit >= 1 && Enabled(s, Finish(t, result))
    requires Conserved(s, k) && FreshOk(s, k) && Conserved(s, s.calls[t].key)
    requires InFlight(s, s.calls[t].key) && !InFlight(Next(s, Finish(t, result)), s.calls[t].key)
    requires k != s.calls[t].key ==> (InFlight(Next(s, Finish(t, result)), k) <==> InFlight(s, k))
    ensures Conserved(Next(s, Finish(t, result)), k) && FreshOk(Next(s, Finish(t, result)), k)
  {
    hide C.Put, InFlight, C.Find, C.Keys, C.Unique;
    PutKeeps(s.cache, s.calls[t].key, result, s.limit);
  }

  lemma FinishStep(s: State, t: Thread, result: C.Value)
    requires Inv(s) && s.limit >= 1 && Enabled(s, Finish(t, result))
    ensures Inv(Next(s, Finish(t, result)))
  {
    var s' := Next(s, Finish(t, result));
    assert CallOk(s, t);
    CallsKept(s, s', t);
    EndsFlight(s, s', t);
    assert Conserved(s, s.calls[t].key);
    hide Conserved, FreshOk, C.Put;
    assert C.Unique(s'.cache) && |s'.cache| <= s'.limit by { PutBounded(s.cache, s.calls[t].key, result, s.limit); }
    forall k ensures Conserved(s', k) && FreshOk(s', k) { FinishKey(s, t, result, k); }
  }

  lemma PutBounded(cache: C.Cache, key: C.Key, v: C.Value, limit: nat)
    requires C.Unique(cache)
    ensures C.Unique(C.Put(cache, key, v, limit)) && |C.Put(cache, key, v, limit)| <= limit
  {}

  lemma ResetStep(s: State, session: string)
    requires Inv(s)
    ensures Inv(Next(s, ResetSession(session)))
  {
    var s' := Next(s, ResetSession(session));
    forall u ensures CallOk(s', u) { assert CallOk(s, u); }
    forall k ensures Conserved(s', k) && FreshOk(s', k) {
      assert Conserved(s, k) && FreshOk(s, k);
      FlightSame(s, s', k);
      if k.session != session { FindClear(s.cache, k, (k: C.Key) => k.session == session); }
    }
  }

  lemma StepInv(s: State, step: Step)
    requires Inv(s) && s.limit >= 1 && Enabled(s, step)
    ensures Inv(Next(s, step)) && Next(s, step).limit == s.limit
  {
    match step
    case Begin(_, _) => QuietStep(s, step);
    case Return(_) => QuietStep(s, step);
    case Lock(_, _) => LockStep(s, step);
    case Lookup(t) => if Cached(s, s.calls[t].key) { HitStep(s, t); } else { MissStep(s, t); }
    case Finish(t, result) => FinishStep(s, t, result);
    case Fail(t) => FailStep(s, t);
    case ResetSession(session) => ResetStep(s, session);
  }

  // ---- every run ------------------------------------------------------------------------------------

  ghost predicate IsStep(s: State, step: Step, s': State) {
    Enabled(s, step) && s' == Next(s, step)
  }

  ghost predicate IsRun(states: seq<State>, steps: seq<Step>) {
    && |states| == |steps| + 1
    && Init(states[0])
    && forall i | 0 <= i < |steps| :: IsStep(states[i], steps[i], states[i + 1])
  }

  lemma {:induction false} RunInvariant(states: seq<State>, steps: seq<Step>, n: nat)
    requires IsRun(states, steps) && n < |states|
    ensures Inv(states[n]) && states[n].limit >= 1
  {
    if n == 0 {
      InitInv(states[0]);
    } else {
      RunInvariant(states, steps, n - 1);
      assert IsStep(states[n - 1], steps[n - 1], states[n]);
      StepInv(states[n - 1], steps[n - 1]);
    }
  }

  /**
   In every run: the request locks exclude, no call deadlocks on them, and the number of agent runs
   for a request is exactly its failures plus its removals from the cache plus one if it is running
   or cached now.
   */
  lemma RunsAccounted(states: seq<State>, steps: seq<Step>, n: nat, k: C.Key)
    requires IsRun(states, steps) && n < |states|
    ensures var s := states[n];
      && Count(s.runs, k) == Count(s.failures, k) + Count(s.removals, k) + (if InFlight(s, k) || Cached(s, k) then 1 else 0)
      && (forall t, u | RunningOn(s, t, k) && RunningOn(s, u, k) :: t == u)
      && |s.cache| <= s.limit
      && (forall key :: key in s.locks.table <==> L.Users(s.locks, key) != {})
  {
    RunInvariant(states, steps, n);
    var s := states[n];
    assert Conserved(s, k);
    forall t, u | RunningOn(s, t, k) && RunningOn(s, u, k) ensures t == u {
      assert CallOk(s, t) && CallOk(s, u);
      L.MutualExclusion(s.locks, t, u, RequestLock(k));
    }
    forall key ensures key in s.locks.table <==> L.Users(s.locks, key) != {} { L.TableExact(s.locks, key); }
  }

  /** While a request stays cached nobody runs it again and every lookup gets the one stored result. */
  lemma {:induction false} OnceWhileCached(states: seq<State>, steps: seq<Step>, first: nat, last: nat, k: C.Key)
    requires IsRun(states, steps) && first <= last < |states|
    requires forall i | first <= i <= last :: Cached(states[i], k)
    ensures Count(states[last].runs, k) == Count(states[first].runs, k)
    ensures C.Find(states[last].cache, k) == C.Find(states[first].cache, k)
    decreases last
  {
    hide Inv, Enabled, Next, Init;
    if first < last {
      OnceWhileCached(states, steps, first, last - 1, k);
      RunInvariant(states, steps, last - 1);
      assert IsStep(states[last - 1], steps[last - 1], states[last]);
      assert Cached(states[last - 1], k) && Cached(states[last], k);
      hide Cached;
      StillCached(states[last - 1], steps[last - 1], k);
    }
  }

  /** A duplicate of a request that has stayed cached is answered with the stored result, not a new run. */
  lemma DuplicateAnswered(states: seq<State>, steps: seq<Step>, first: nat, i: nat, k: C.Key, v: C.Value)
    requires IsRun(states, steps) && first <= i < |steps| && LooksUp(states[i], steps[i], k)
    requires forall j | first <= j <= i :: Cached(states[j], k)
    requires C.Find(states[first].cache, k) == Some(v)
    ensures steps[i].thread in states[i + 1].calls && states[i + 1].calls[steps[i].thread].body == Answered(v)
  {
    OnceWhileCached(states, steps, first, i, k);
    assert IsStep(states[i], steps[i], states[i + 1]);
  }

  predicate LooksUp(s: State, step: Step, k: C.Key) {
    step.Lookup? && step.thread in s.calls && s.calls[step.thread].key == k
  }

  lemma StillCached(s: State, step: Step, k: C.Key)
    requires Inv(s) && s.limit >= 1 && Enabled(s, step) && Cached(s, k) && Cached(Next(s, step), k)
    ensures var s' := Next(s, step);
      && Count(s'.runs, k) == Count(s.runs, k)
      && C.Find(s'.cache, k) == C.Find(s.cache, k)
      && (step.Lookup? && s.calls[step.thread].key == k ==> s'.calls[step.thread].body == Answered(C.Find(s.cache, k).value))
  {
    assert Conserved(s, k);
    match step
    case Lookup(t) =>
      if Cached(s, s.calls[t].key) {
        FindMoved(s.cache, k, C.Slot(s.calls[t].key, C.Find(s.cache, s.calls[t].key).value));
      }
    case Finish(t, result) =>
      assert RunningOn(s, t, s.calls[t].key);
      PutKeeps(s.cache, s.calls[t].key, result, s.limit);
    case ResetSession(session) => FindClear(s.cache, k, (k: C.Key) => k.session == session);
    case _ =>
  }

  // ---- how long a result stays -------------------------------------------------------------------------

  /** The keys a step looks up or stores. */
  function Uses(s: State, step: Step): set<C.Key> {
    match step
    case Lookup(t) => if t in s.calls then {s.calls[t].key} else {}
    case Finish(t, _) => if t in s.calls then {s.calls[t].key} else {}
    case _ => {}
  }

  function UsedBetween(states: seq<State>, steps: seq<Step>, first: nat, last: nat): set<C.Key>
    requires first <= last <= |steps| <= |states|
    decreases last
  {
    if first == last then {} else UsedBetween(states, steps, first, last - 1) + Uses(states[last - 1], steps[last - 1])
  }

  /** The cache change of a step as one of the cache's own operations. */
  lemma CacheStep(s: State, step: Step)
    requires Enabled(s, step)
    ensures var cache := Next(s, step).cache;
            match step
            case Lookup(t) => cache == C.Apply(s.cache, C.Looked(s.calls[t].key), s.limit)
            case Finish(t, v) => cache == C.Apply(s.cache, C.Stored(s.calls[t].key, v), s.limit)
            case ResetSession(session) => cache == C.Apply(s.cache, C.Dropped((k: C.Key) => k.session == session), s.limit)
            case _ => cache == s.cache
  {}

  lemma UseStep(s: State, step: Step, k: C.Key, since: set<C.Key>)
    requires C.Unique(s.cache) && |s.cache| <= s.limit && Enabled(s, step) && Cached(s, k)
    requires step != ResetSession(k.session) && C.Keys(C.Newer(s.cache, k)) <= since
    requires |since + Uses(s, step) - {k}| < s.limit
    ensures Cached(Next(s, step), k) && C.Keys(C.Newer(Next(s, step).cache, k)) <= since + Uses(s, step)
  {
    CacheStep(s, step);
    hide Next, Enabled;
    match step
    case Lookup(t) => C.OneUse(s.cache, C.Looked(s.calls[t].key), k, since, s.limit);
    case Finish(t, v) => C.OneUse(s.cache, C.Stored(s.calls[t].key, v), k, since, s.limit);
    case ResetSession(session) =>
      C.OneUse(s.cache, C.Dropped((key: C.Key) => key.session == session), k, since, s.limit);
    case _ =>
  }

  /** A stored result is the newest entry. */
  lemma StoredIsNewest(cache: C.Cache, k: C.Key, v: C.Value, limit: nat)
    requires limit >= 1
    ensures k in C.Keys(C.Put(cache, k, v, limit)) && C.Newer(C.Put(cache, k, v, limit), k) == []
  {
    var slot := C.Slot(k, v);
    C.NewerAtEnd(C.Remove(cache, k), slot);
    C.NewerAfterTrim(C.Append(C.Remove(cache, k), slot), k, limit);
  }

  ghost predicate Finished(states: seq<State>, steps: seq<Step>, i: nat, k: C.Key, v: C.Value)
    requires |states| == |steps| + 1
  {
    i < |steps| && steps[i].Finish? && steps[i].result == v && steps[i].thread in states[i].calls
    && states[i].calls[steps[i].thread].key == k
  }

  lemma {:induction false} UsedGrows(states: seq<State>, steps: seq<Step>, first: nat, mid: nat, last: nat)
    requires first <= mid <= last <= |steps| <= |states|
    ensures UsedBetween(states, steps, first, mid) <= UsedBetween(states, steps, first, last)
    decreases last
  {
    if mid < last { UsedGrows(states, steps, first, mid, last - 1); }
  }

  /** A finished request stays cached while its session is not reset and fewer than `limit` other keys are used. */
  lemma {:induction false} StaysCached(states: seq<State>, steps: seq<Step>, i: nat, last: nat, k: C.Key, v: C.Value)
    requires IsRun(states, steps) && Finished(states, steps, i, k, v) && i < last < |states|
    requires forall j | i < j < last :: steps[j] != ResetSession(k.session)
    requires |UsedBetween(states, steps, i + 1, last) - {k}| < states[last].limit
    ensures Cached(states[last], k) && states[last].limit == states[i].limit
    ensures C.Keys(C.Newer(states[last].cache, k)) <= UsedBetween(states, steps, i + 1, last)
    decreases last
  {
    hide Inv, Init, Enabled, Next, Uses, Cached, C.Keys, C.Newer, C.Unique;
    RunInvariant(states, steps, last - 1);
    assert IsStep(states[last - 1], steps[last - 1], states[last]);
    StepInv(states[last - 1], steps[last - 1]);
    if last == i + 1 {
      FinishedCached(states[i], steps[i], k);
    } else {
      UsedGrows(states, steps, i + 1, last - 1, last);
      SubsetSize(UsedBetween(states, steps, i + 1, last - 1) - {k}, UsedBetween(states, steps, i + 1, last) - {k});
      StaysCached(states, steps, i, last - 1, k, v);
      CacheOk(states[last - 1]);
      UseStep(states[last - 1], steps[last - 1], k, UsedBetween(states, steps, i + 1, last - 1));
    }
  }

  lemma CacheOk(s: State)
    requires Inv(s)
    ensures C.Unique(s.cache) && |s.cache| <= s.limit
  {}

  lemma FinishedCached(s: State, step: Step, k: C.Key)
    requires Enabled(s, step) && step.Finish? && s.calls[step.thread].key == k && s.limit >= 1
    ensures Cached(Next(s, step), k) && C.Keys(C.Newer(Next(s, step).cache, k)) == {}
    ensures C.Find(Next(s, step).cache, k) == Some(step.result)
  {
    hide C.Put, Enabled;
    StoredIsNewest(s.cache, k, step.result, s.limit);
    PutFinds(s.cache, k, step.result, s.limit);
  }

  lemma PutFinds(cache: C.Cache, k: C.Key, v: C.Value, limit: nat)
    requires limit >= 1
    ensures C.Find(C.Put(cache, k, v, limit), k) == Some(v)
  {
    var slot := C.Slot(k, v);
    FindAppend(C.Remove(cache, k), k, slot);
    FindTrimLast(C.Remove(cache, k), slot, limit);
  }

  lemma {:induction false} FindTrimLast(cache: C.Cache, s: C.Slot, limit: nat)
    requires limit >= 1 && s.key !in C.Keys(cache)
    ensures C.Find(C.Trim(cache + [s], limit), s.key) == Some(s.value)
  {
    FindAppend(cache, s.key, s);
    if |cache| + 1 > limit {
      assert (cache + [s])[1..] == cache[1..] + [s];
      FindTrimLast(cache[1..], s, limit);
    }
  }

  /**
   A duplicate is answered with the first run's result, and not run again, as long as its session was not reset
   and fewer than `limit` other requests were looked up or finished since.
   */
  lemma RecentDuplicateAnswered(states: seq<State>, steps: seq<Step>, i: nat, last: nat, k: C.Key, v: C.Value)
    requires IsRun(states, steps) && Finished(states, steps, i, k, v) && i < last < |steps|
    requires LooksUp(states[last], steps[last], k) && forall j | i < j < last :: steps[j] != ResetSession(k.session)
    requires |UsedBetween(states, steps, i + 1, last) - {k}| < states[last].limit
    ensures steps[last].thread in states[last + 1].calls
    ensures states[last + 1].calls[steps[last].thread].body == Answered(v)
    ensures Count(states[last].runs, k) == Count(states[i + 1].runs, k)
  {
    hide Inv, Init, Enabled, Next, Uses, Cached;
    StaysCached(states, steps, i, last, k, v);
    forall j | i + 1 <= j <= last ensures Cached(states[j], k) {
      UsedGrows(states, steps, i + 1, j, last);
      SubsetSize(UsedBetween(states, steps, i + 1, j) - {k}, UsedBetween(states, steps, i + 1, last) - {k});
      LimitStays(states, steps, j, last);
      StaysCached(states, steps, i, j, k, v);
    }
    RunInvariant(states, steps, i);
    assert IsStep(states[i], steps[i], states[i + 1]);
    FinishedCached(states[i], steps[i], k);
    DuplicateAnswered(states, steps, i + 1, last, k, v);
    OnceWhileCached(states, steps, i + 1, last, k);
  }

  lemma {:induction false} LimitStays(states: seq<State>, steps: seq<Step>, j: nat, last: nat)
    requires IsRun(states, steps) && j <= last < |states|
    ensures states[j].limit == states[last].limit
    decreases last
  {
    hide Inv, Init, Enabled, Next;
    if j < last {
      LimitStays(states, steps, j, last - 1);
      RunInvariant(states, steps, last - 1);
      assert IsStep(states[last - 1], steps[last - 1], states[last]);
      StepInv(states[last - 1], steps[last - 1]);
    }
  }

  /** No deadlock: while any call is unfinished, some call can take its next step. */
  lemma SomeCallCanStep(states: seq<State>, steps: seq<Step>, n: nat, t: Thread) returns (step: Step)
    requires IsRun(states, steps) && n < |states| && t in states[n].calls
    ensures Enabled(states[n], step) && !step.Begin? && !step.ResetSession?
  {
    var s := states[n];
    RunInvariant(states, steps, n);
    if s.locks.Stack(t) == [] {
      step := if s.calls[t].body.Pending? then Lock(t, L.Enter(t, RequestLock(s.calls[t].key))) else Return(t);
    } else {
      var u := L.NoDeadlock(s.locks, t);
      step := NextOf(s, u);
    }
  }

  lemma NextOf(s: State, u: Thread) returns (step: Step)
    requires Inv(s) && s.locks.Stack(u) != [] && !L.Blocked(s.locks, u)
    ensures Enabled(s, step) && !step.Begin? && !step.ResetSession?
  {
    assert CallOk(s, u) && L.ThreadOk(s.locks, u);
    var stack, call := s.locks.Stack(u), s.calls[u];
    match L.Top(stack).phase
    case Waiting => step := Lock(u, L.Acquire(u));
    case Leaving => step := Lock(u, L.Leave(u));
    case Inside =>
      if |stack| == 3 || !(call.body.Pending? || call.body.Running?) {
        step := Lock(u, L.Release(u));
      } else if |stack| == 1 {
        step := Lock(u, L.Enter(u, L.SessionKey(call.key.session)));
      } else {
        step := if call.body.Pending? then Lookup(u) else Fail(u);
      }
  }

  // ---- every call gets to its end ----------------------------------------------------------------------

  /** A call waits on its way in only, and leaves only on its way out. */
  ghost predicate OnItsWay(s: State, t: Thread) {
    var stack := s.locks.Stack(t);
    t in s.calls ==>
      match s.calls[t].body
      case Pending => |stack| <= 2 && (stack != [] ==> !L.Top(stack).phase.Leaving?)
      case Running => true
      case _ => |stack| <= 2 && (stack != [] ==> !L.Top(stack).phase.Waiting?)
  }

  lemma OnItsWayStep(s: State, step: Step, t: Thread)
    requires CallOk(s, t) && L.ThreadOk(s.locks, t) && OnItsWay(s, t) && Enabled(s, step)
    ensures OnItsWay(Next(s, step), t)
  {
    hide C.Find, C.Touch, C.Put, C.Clear, L.EntryFor, L.Unregister, L.BoundOk, L.OwnsOk;
    if step.Lock? { StackAfter(s, step.lock, t); }
  }

  /** What a lock step does to the stacks. */
  lemma StackAfter(s: State, ls: L.Step, t: Thread)
    requires L.Enabled(s.locks, ls)
    ensures var before, after := s.locks.Stack(t), L.Next(s.locks, ls).Stack(t);
            if t != ls.thread then after == before
            else match ls
                 case Enter(_, key) => |after| == |before| + 1 && after[..|before|] == before && L.Top(after).phase.Waiting?
                                       && L.Top(after).key == key
                 case Acquire(_) => |after| == |before| && after[..|before| - 1] == before[..|before| - 1]
                                    && L.Top(after).phase.Inside?
                                    && L.Top(after).key == L.Top(before).key
                 case Release(_) => |after| == |before| && after[..|before| - 1] == before[..|before| - 1]
                                    && L.Top(after).phase.Leaving?
                                    && L.Top(after).key == L.Top(before).key
                 case Leave(_) => after == before[..|before| - 1]
  {
    hide L.EntryFor, L.Unregister;
  }

  /** How many steps a call has left at most, those on the orchestrator's own lock not counted. */
  function Left(s: State, t: Thread): nat {
    if t !in s.calls then 0 else
    var stack := s.locks.Stack(t);
    match s.calls[t].body
    case Pending => if |stack| > 2 then 0 else 12 - 2 * |stack| + if stack != [] && L.Top(stack).phase.Waiting? then 1 else 0
    case Running => 7
    case _ => 2 + 2 * |stack| - if stack != [] && L.Top(stack).phase.Leaving? then 1 else 0
  }

  /** The orchestrator's lock, taken and given back while the agent runs. */
  predicate OnTurnLock(s: State, step: Step) {
    step.Lock? && step.thread in s.calls && s.calls[step.thread].body.Running?
  }

  function ThreadOf(step: Step): Option<Thread> {
    if step.ResetSession? then None else Some(step.thread)
  }

  ghost predicate Nearer(s: State, step: Step, s': State, t: Thread) {
    var left, left' := Left(s, t), Left(s', t);
    if ThreadOf(step) != Some(t) || OnTurnLock(s, step) then left' == left
    else if step.Begin? then left == 0 && left' == 12 else left' < left
  }

  /** A call's own step brings it nearer to its end, and nobody else's sets it back. */
  lemma StepsTowardsEnd(s: State, step: Step, t: Thread)
    requires Inv(s) && OnItsWay(s, t) && Enabled(s, step)
    ensures Nearer(s, step, Next(s, step), t)
  {
    ThreadFacts(s, t);
    hide Inv;
    if step.Lock? { LockTowardsEnd(s, step, t); } else { BodyTowardsEnd(s, step, t); }
  }

  lemma LockTowardsEnd(s: State, step: Step, t: Thread)
    requires CallOk(s, t) && OnItsWay(s, t) && step.Lock? && Enabled(s, step)
    ensures Nearer(s, step, Next(s, step), t)
  {
    StackAfter(s, step.lock, t);
    hide L.EntryFor, L.Unregister, L.Next;
  }

  lemma BodyTowardsEnd(s: State, step: Step, t: Thread)
    requires CallOk(s, t) && OnItsWay(s, t) && !step.Lock? && Enabled(s, step)
    ensures Nearer(s, step, Next(s, step), t)
  {
    hide C.Find, C.Touch, C.Put, C.Clear, C.Keys;
  }

  /** The steps of call `t` from `i` to `j` that count towards its end. */
  ghost function OwnSteps(states: seq<State>, steps: seq<Step>, t: Thread, i: nat, j: nat): nat
    requires i <= j <= |steps| < |states|
    decreases j
  {
    if i == j then 0
    else OwnSteps(states, steps, t, i, j - 1)
         + if ThreadOf(steps[j - 1]) == Some(t) && !OnTurnLock(states[j - 1], steps[j - 1]) then 1 else 0
  }

  lemma {:induction false} AllOnTheirWay(states: seq<State>, steps: seq<Step>, n: nat, t: Thread)
    requires IsRun(states, steps) && n < |states|
    ensures OnItsWay(states[n], t)
    decreases n
  {
    if n == 0 {
      assert Init(states[0]);
    } else {
      AllOnTheirWay(states, steps, n - 1, t);
      RunInvariant(states, steps, n - 1);
      assert IsStep(states[n - 1], steps[n - 1], states[n]);
      ThreadFacts(states[n - 1], t);
      hide Inv, Enabled, Next, OnItsWay;
      OnItsWayStep(states[n - 1], steps[n - 1], t);
    }
  }

  lemma ThreadFacts(s: State, t: Thread)
    requires Inv(s)
    ensures CallOk(s, t) && L.ThreadOk(s.locks, t)
  {}

  /**
   Under every interleaving a call is over after at most twelve steps of its own, not counting those on the
   orchestrator's lock; with `SomeCallCanStep`, therefore, nothing can stop the calls under way from all returning.
   */
  lemma {:induction false} CallsAreFinite(states: seq<State>, steps: seq<Step>, t: Thread, i: nat, j: nat)
    requires IsRun(states, steps) && i <= j < |states|
    requires forall k | i <= k < j :: !(steps[k].Begin? && steps[k].thread == t)
    ensures OwnSteps(states, steps, t, i, j) + Left(states[j], t) <= Left(states[i], t)
    decreases j
  {
    hide Inv, Enabled, Next, OnItsWay, Left, Init;
    if i < j {
      CallsAreFinite(states, steps, t, i, j - 1);
      AllOnTheirWay(states, steps, j - 1, t);
      RunInvariant(states, steps, j - 1);
      assert IsStep(states[j - 1], steps[j - 1], states[j]);
      StepsTowardsEnd(states[j - 1], steps[j - 1], t);
    }
  }

  /** A call exists from its begin to its return, and only then has steps left. */
  lemma LeftMeansUnderWay(states: seq<State>, steps: seq<Step>, n: nat, t: Thread)
    requires IsRun(states, steps) && n < |states|
    ensures Left(states[n], t) <= 12
    ensures Left(states[n], t) > 0 <==> t in states[n].calls
  {
    AllOnTheirWay(states, steps, n, t);
    RunInvariant(states, steps, n);
    ThreadFacts(states[n], t);
    hide Inv, Enabled, Next, Init;
  }

  // ---- the object -----------------------------------------------------------------------------------

  datatype Message = Message(role: string, content: string)

  /** `messages[-bound:]`. */
  function LastMessages(messages: seq<Message>, bound: nat): seq<Message> {
    if |messages| > bound then messages[|messages| - bound..] else messages
  }

  /** The newest messages, as many as the bound allows, in their order. */
  lemma LastMessagesAreLast(messages: seq<Message>, bound: nat)
    ensures var kept := LastMessages(messages, bound);
            && |kept| == (if |messages| <= bound then |messages| else bound)
            && forall i | 0 <= i < |kept| :: kept[i] == messages[|messages| - |kept| + i]
  {}

  class Runtime {
    var results: C.Cache
    var history: map<string, seq<Message>>
    const maxCached: nat
    const maxHistory: nat

    ghost predicate Valid()
      reads this
    {
      && C.Unique(results) && |results| <= maxCached
      && forall session | session in history :: |history[session]| <= maxHistory
    }

    constructor (maxHistory: nat, maxCached: nat)
      requires maxCached >= 1
      ensures Valid() && results == [] && history == map[] && this.maxCached == maxCached && this.maxHistory == maxHistory
    {
      this.maxCached, this.maxHistory := maxCached, maxHistory;
      results, history := [], map[];
    }

    /** The first locked section of `_handle_once`: the cached result, or the history to run with. */
    method Lookup(key: C.Key) returns (cached: Option<C.Value>, seen: seq<Message>)
      requires Valid()
      modifies this`results
      ensures Valid() && results == C.Touch(old(results), key)
      ensures cached == C.Find(old(results), key)
      ensures seen == if cached.None? && key.session in history then history[key.session] else []
      ensures |seen| <= maxHistory
    {
      cached, seen := C.Find(results, key), [];
      if cached.Some? {
        results := C.Append(C.Remove(results, key), C.Slot(key, cached.value));
      } else if key.session in history {
        seen := history[key.session];
      }
    }

    /** The second: remember the result, evict down to the bound, extend the bounded history. */
    method Store(key: C.Key, result: C.Value, seen: seq<Message>, text: string, reply: string)
      requires Valid() && maxCached >= 1
      modifies this
      ensures Valid() && results == C.Put(old(results), key, result, maxCached)
      ensures history == if maxHistory == 0 then old(history) else
        old(history)[key.session := LastMessages(
          seen + [Message("user", text)] + if reply == "" then [] else [Message("assistant", reply)], maxHistory)]
    {
      var kept := C.Append(C.Remove(results, key), C.Slot(key, result));
      ghost var stored := kept;
      while |kept| > maxCached
        invariant C.Trim(kept, maxCached) == C.Trim(stored, maxCached)
      {
        kept := kept[1..];
      }
      results := kept;
      if maxHistory > 0 {
        var messages := seen + [Message("user", text)];
        messages := messages + if reply == "" then [] else [Message("assistant", reply)];
        history := history[key.session := LastMessages(messages, maxHistory)];
      }
    }

    method ResetSession(session: string)
      requires Valid()
      modifies this
      ensures Valid() && history == old(history) - {session}
      ensures results == C.Clear(old(results), (k: C.Key) => k.session == session)
    {
      history := history - {session};
      results := C.Clear(results, (k: C.Key) => k.session == session);
    }
  }
}
