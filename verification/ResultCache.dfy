/** The runtime's bounded result cache: an `OrderedDict`, least recently used entry first. */
module ResultCache {
  import opened Wrappers

  /** `(session_id, request_id)`. */
  datatype Key = Key(session: string, request: string)

  /** A `TurnResult`, opaque to the cache. */
  type Value = string

  datatype Slot = Slot(key: Key, value: Value)

  type Cache = seq<Slot>

  function Keys(cache: Cache): set<Key> {
    if cache == [] then {} else {cache[0].key} + Keys(cache[1..])
  }

  /** Every key occurs once. */
  predicate Unique(cache: Cache) {
    cache == [] || (cache[0].key !in Keys(cache[1..]) && Unique(cache[1..]))
  }

  function Find(cache: Cache, key: Key): (r: Option<Value>)
    ensures r.Some? <==> key in Keys(cache)
  {
    if cache == [] then None
    else if cache[0].key == key then Some(cache[0].value)
    else Find(cache[1..], key)
  }

  function Clear(cache: Cache, drop: Key -> bool): (r: Cache)
    ensures Keys(r) == set k | k in Keys(cache) && !drop(k)
    ensures |r| <= |cache| && (Unique(cache) ==> Unique(r))
  {
    if cache == [] then []
    else if drop(cache[0].key) then Clear(cache[1..], drop)
    else
      var rest := Clear(cache[1..], drop);
      assert ([cache[0]] + rest)[1..] == rest;
      [cache[0]] + rest
  }

  /** The rest of the cache once `key` is taken out. */
  function Remove(cache: Cache, key: Key): (r: Cache)
    ensures Keys(r) == Keys(cache) - {key}
    ensures |r| <= |cache| && (key in Keys(cache) ==> |r| < |cache|)
    ensures Unique(cache) ==> Unique(r)
  {
    if cache == [] then []
    else if cache[0].key == key then Remove(cache[1..], key)
    else
      var rest := Remove(cache[1..], key);
      assert ([cache[0]] + rest)[1..] == rest;
      [cache[0]] + rest
  }

  /** `while len(results) > limit: popitem(last=False)`. */
  function Trim(cache: Cache, limit: nat): (r: Cache)
    ensures |r| <= limit && Keys(r) <= Keys(cache)
    ensures |cache| <= limit ==> r == cache
    ensures Unique(cache) ==> Unique(r)
  {
    if |cache| > limit then Trim(cache[1..], limit) else cache
  }

  function Append(cache: Cache, s: Slot): (r: Cache)
    ensures Keys(r) == Keys(cache) + {s.key}
    ensures Unique(cache) && s.key !in Keys(cache) ==> Unique(r)
    ensures r == cache + [s]
  {
    if cache == [] then [s]
    else
      var rest := Append(cache[1..], s);
      assert ([cache[0]] + rest)[1..] == rest;
      [cache[0]] + rest
  }

  function Touch(cache: Cache, key: Key): Cache {
    match Find(cache, key)
    case Some(v) => Append(Remove(cache, key), Slot(key, v))
    case None => cache
  }

  function Put(cache: Cache, key: Key, value: Value, limit: nat): Cache {
    Trim(Append(Remove(cache, key), Slot(key, value)), limit)
  }

  datatype Op = Looked(key: Key) | Stored(key: Key, value: Value) | Dropped(drop: Key -> bool)

  function Apply(cache: Cache, op: Op, limit: nat): (r: Cache)
    ensures Unique(cache) ==> Unique(r)
    ensures |cache| <= limit ==> |r| <= limit
  {
    match op
    case Looked(key) => Touch(cache, key)
    case Stored(key, value) => Put(cache, key, value, limit)
    case Dropped(drop) => Clear(cache, drop)
  }

  // ---- least recently used ----------------------------------------------------------------------

  /** The entries used more recently than `key`. */
  function Newer(cache: Cache, key: Key): Cache {
    if cache == [] then []
    else if cache[0].key == key then cache[1..]
    else Newer(cache[1..], key)
  }

  /** The keys an operation sequence looks up or stores. */
  function Used(ops: seq<Op>): set<Key> {
    if ops == [] then {} else (if ops[0].Dropped? then {} else {ops[0].key}) + Used(ops[1..])
  }

  function Run(cache: Cache, ops: seq<Op>, limit: nat): Cache
    decreases |ops|
  {
    if ops == [] then cache else Run(Apply(cache, ops[0], limit), ops[1..], limit)
  }

  lemma {:induction false} NewerWithin(cache: Cache, key: Key)
    ensures Keys(Newer(cache, key)) <= Keys(cache)
    ensures Unique(cache) ==> key !in Keys(Newer(cache, key)) && Unique(Newer(cache, key))
  {
    if cache != [] && cache[0].key != key { NewerWithin(cache[1..], key); }
  }

  lemma {:induction false} UniqueCount(cache: Cache)
    requires Unique(cache)
    ensures |Keys(cache)| == |cache|
  {
    if cache != [] { UniqueCount(cache[1..]); }
  }

  /** Moving another key to the end puts it behind `key`, which keeps its place. */
  lemma {:induction false} NewerAfterMove(cache: Cache, key: Key, s: Slot)
    requires key in Keys(cache) && s.key != key
    ensures Newer(Remove(cache, s.key) + [s], key) == Remove(Newer(cache, key), s.key) + [s]
  {
    var rest := Remove(cache[1..], s.key);
    if cache[0].key == key {
      assert (([cache[0]] + rest) + [s])[1..] == rest + [s];
    } else {
      NewerAfterMove(cache[1..], key, s);
      if cache[0].key != s.key { assert (([cache[0]] + rest) + [s])[1..] == rest + [s]; }
    }
  }

  lemma {:induction false} NewerAtEnd(cache: Cache, s: Slot)
    requires s.key !in Keys(cache)
    ensures Newer(cache + [s], s.key) == []
  {
    if cache != [] {
      assert (cache + [s])[1..] == cache[1..] + [s];
      NewerAtEnd(cache[1..], s);
    }
  }

  lemma {:induction false} NewerAfterTrim(cache: Cache, key: Key, limit: nat)
    requires key in Keys(cache) && |Newer(cache, key)| < limit
    ensures key in Keys(Trim(cache, limit)) && Newer(Trim(cache, limit), key) == Newer(cache, key)
  {
    if |cache| > limit { NewerAfterTrim(cache[1..], key, limit); }
  }

  lemma {:induction false} NewerAfterClear(cache: Cache, key: Key, drop: Key -> bool)
    requires key in Keys(cache) && !drop(key)
    ensures Newer(Clear(cache, drop), key) == Clear(Newer(cache, key), drop)
  {
    var rest := Clear(cache[1..], drop);
    assert ([cache[0]] + rest)[1..] == rest;
    if cache[0].key != key { NewerAfterClear(cache[1..], key, drop); }
  }

  lemma OneMove(cache: Cache, s: Slot, key: Key, since: set<Key>, limit: nat)
    requires Unique(cache) && key in Keys(cache) && Keys(Newer(cache, key)) <= since
    requires |since + {s.key} - {key}| < limit
    ensures var moved := Trim(Append(Remove(cache, s.key), s), limit);
      key in Keys(moved) && Keys(Newer(moved, key)) <= since + {s.key}
  {
    var appended := Append(Remove(cache, s.key), s);
    if s.key == key { NewerAtEnd(Remove(cache, key), s); } else { NewerAfterMove(cache, key, s); }
    var tail := Newer(appended, key);
    assert Keys(tail) <= since + {s.key} by {
      if s.key != key { assert tail == Append(Remove(Newer(cache, key), s.key), s); }
    }
    NewerWithin(appended, key);
    UniqueCount(tail);
    SubsetSize(Keys(tail), since + {s.key} - {key});
    NewerAfterTrim(appended, key, limit);
  }

  lemma OneUse(cache: Cache, op: Op, key: Key, since: set<Key>, limit: nat)
    requires Unique(cache) && |cache| <= limit && key in Keys(cache) && Keys(Newer(cache, key)) <= since
    requires op.Dropped? ==> !op.drop(key)
    requires !op.Dropped? ==> |since + {op.key} - {key}| < limit
    ensures key in Keys(Apply(cache, op, limit))
    ensures Keys(Newer(Apply(cache, op, limit), key)) <= since + if op.Dropped? then {} else {op.key}
  {
    match op
    case Dropped(drop) => NewerAfterClear(cache, key, drop);
    case Stored(k, v) => OneMove(cache, Slot(k, v), key, since, limit);
    case Looked(k) => if k in Keys(cache) { OneMove(cache, Slot(k, Find(cache, k).value), key, since, limit); }
  }

  /**
   An entry survives any operations that do not drop it as long as fewer than `limit` other keys were
   used since it was last used: the runtime forgets only what is least recently used.
   */
  lemma {:induction false} KeptWhileRecent(cache: Cache, ops: seq<Op>, key: Key, since: set<Key>, limit: nat)
    requires Unique(cache) && |cache| <= limit && key in Keys(cache)
    requires Keys(Newer(cache, key)) <= since && |since + Used(ops) - {key}| < limit
    requires forall i | 0 <= i < |ops| && ops[i].Dropped? :: !ops[i].drop(key)
    ensures key in Keys(Run(cache, ops, limit))
    decreases |ops|
  {
    hide Unique, Keys, Newer, Apply;
    if ops != [] {
      var op := ops[0];
      var used := if op.Dropped? then {} else {op.key};
      SubsetSize(since + used - {key}, since + Used(ops) - {key});
      OneUse(cache, op, key, since, limit);
      assert since + used + Used(ops[1..]) == since + Used(ops);
      KeptWhileRecent(Apply(cache, op, limit), ops[1..], key, since + used, limit);
    }
  }
}
