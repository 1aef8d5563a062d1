/**
 The condition evaluator of the policy workbook (guardrail/policy/conditions.py): a closed walk over an
 already parsed expression. `and`/`or` evaluate every operand, a comparison chain stops at the first
 false link, and two kinds of failure exist: `ConditionError` and Python's `TypeError`.
 */
module Conditions {
  import opened Wrappers

  datatype Value = Null | Bool(b: bool) | Num(n: real) | Str(s: string)

  datatype Operator = Eq | NotEq | Lt | LtE | Gt | GtE | Is | IsNot | Other

  /** `Unsupported` is any node the evaluator refuses; its children still count as mentioned names. */
  datatype Expr =
    | Const(value: Value)
    | Name(id: string)
    | BoolOp(conjunction: bool, operands: seq<Expr>)
    | Not(operand: Expr)
    | Compare(left: Expr, ops: seq<Operator>, comparators: seq<Expr>)
    | Unsupported(children: seq<Expr>)

  datatype Fault = UnknownVariable(name: string) | UnsupportedComparison | UnsupportedSyntax | TypeFault

  type Env = map<string, Value>

  // ---- Python's values ----------------------------------------------------------------------------

  predicate Truthy(v: Value) {
    match v
    case Null => false
    case Bool(b) => b
    case Num(n) => n != 0.0
    case Str(s) => s != ""
  }

  /** A bool is a number in every comparison. */
  function Widen(v: Value): Value {
    if v.Bool? then Num(if v.b then 1.0 else 0.0) else v
  }

  predicate StrLess(a: string, b: string)
    decreases |a|
  {
    b != "" && (a == "" || a[0] < b[0] || (a[0] == b[0] && StrLess(a[1..], b[1..])))
  }

  /** `a < b`; numbers with numbers, strings with strings, everything else raises. */
  function Less(a: Value, b: Value): Result<bool, Fault> {
    match (Widen(a), Widen(b))
    case (Num(x), Num(y)) => Ok(x < y)
    case (Str(x), Str(y)) => Ok(StrLess(x, y))
    case _ => Err(TypeFault)
  }

  function Negate(r: Result<bool, Fault>): Result<bool, Fault> {
    match r
    case Ok(b) => Ok(!b)
    case Err(f) => Err(f)
  }

  function Apply(op: Operator, a: Value, b: Value): Result<bool, Fault> {
    match op
    case Eq => Ok(Widen(a) == Widen(b))
    case NotEq => Ok(Widen(a) != Widen(b))
    case Lt => Less(a, b)
    case LtE => Negate(Less(b, a))
    case Gt => Less(b, a)
    case GtE => Negate(Less(a, b))
    case Is => Ok(a == b)
    case IsNot => Ok(a != b)
    case Other => Err(UnsupportedComparison)
  }

  lemma {:induction false} StrTrichotomy(a: string, b: string)
    ensures StrLess(a, b) || StrLess(b, a) || a == b
    ensures !(StrLess(a, b) && StrLess(b, a)) && !(StrLess(a, b) && a == b)
    decreases |a|
  {
    if a != "" && b != "" && a[0] == b[0] {
      StrTrichotomy(a[1..], b[1..]);
      assert a == [a[0]] + a[1..] && b == [b[0]] + b[1..];
    }
  }

  /** On comparable values exactly one of `<`, `==`, `>` holds, and the other four operators are their negations. */
  lemma ComparisonsCohere(a: Value, b: Value)
    ensures Less(a, b).Ok? <==> Less(b, a).Ok?
    ensures Less(a, b).Ok? ==>
              && (Apply(Lt, a, b) == Ok(true) || Apply(Eq, a, b) == Ok(true) || Apply(Gt, a, b) == Ok(true))
              && !(Apply(Lt, a, b) == Ok(true) && Apply(Gt, a, b) == Ok(true))
              && !(Apply(Eq, a, b) == Ok(true) && (Apply(Lt, a, b) == Ok(true) || Apply(Gt, a, b) == Ok(true)))
              && (Apply(GtE, a, b) == Ok(true) <==> Apply(Lt, a, b) == Ok(false))
              && (Apply(LtE, a, b) == Ok(true) <==> Apply(Gt, a, b) == Ok(false))
              && (Apply(NotEq, a, b) == Ok(true) <==> Apply(Eq, a, b) == Ok(false))
  {
    if a.Str? && b.Str? { StrTrichotomy(a.s, b.s); }
  }

  // ---- the comparisons in terms of plain numbers and strings ------------------------------------------

  predicate IsNumber(v: Value) {
    v.Num? || v.Bool?
  }

  function Amount(v: Value): real
    requires IsNumber(v)
  {
    match v
    case Num(n) => n
    case Bool(true) => 1.0
    case Bool(false) => 0.0
  }

  /** On numbers, and on bools as zero and one, the six operators are those of the reals. */
  lemma NumbersCompare(a: Value, b: Value)
    requires IsNumber(a) && IsNumber(b)
    ensures Apply(Lt, a, b) == Ok(Amount(a) < Amount(b)) && Apply(LtE, a, b) == Ok(Amount(a) <= Amount(b))
    ensures Apply(Gt, a, b) == Ok(Amount(a) > Amount(b)) && Apply(GtE, a, b) == Ok(Amount(a) >= Amount(b))
    ensures Apply(Eq, a, b) == Ok(Amount(a) == Amount(b)) && Apply(NotEq, a, b) == Ok(Amount(a) != Amount(b))
  {}

  /** `a` and `b` agree up to `k`, where `a` ends first or has the smaller character. */
  ghost predicate Precedes(a: string, b: string, k: nat) {
    && k <= |a| && k < |b| && a[..k] == b[..k]
    && (k < |a| ==> a[k] < b[k])
  }

  lemma {:induction false} StrLessMeaning(a: string, b: string)
    ensures StrLess(a, b) <==> exists k: nat :: Precedes(a, b, k)
    decreases |a|
  {
    if b == "" {
    } else if a == "" || a[0] < b[0] {
      assert Precedes(a, b, 0);
    } else if a[0] == b[0] {
      StrLessMeaning(a[1..], b[1..]);
      if k: nat :| Precedes(a[1..], b[1..], k) {
        assert a[..k + 1] == [a[0]] + a[1..][..k] && b[..k + 1] == [b[0]] + b[1..][..k];
        assert Precedes(a, b, k + 1);
      }
      if k: nat :| Precedes(a, b, k) {
        assert a[1..][..k - 1] == a[..k][1..] && b[1..][..k - 1] == b[..k][1..];
        assert Precedes(a[1..], b[1..], k - 1);
      }
    } else if k: nat :| Precedes(a, b, k) {
      PrecedesHead(a, b, k);
      assert false;
    }
  }

  lemma PrecedesHead(a: string, b: string, k: nat)
    requires a != "" && Precedes(a, b, k)
    ensures if k == 0 then a[0] < b[0] else a[0] == b[0]
  {
    if k > 0 { assert a[..k][0] == b[..k][0]; }
  }

  /** Strings are ordered by their first difference, a proper prefix being the smaller. */
  lemma StringsCompare(a: string, b: string)
    ensures Apply(Lt, Str(a), Str(b)) == Ok(exists k: nat :: Precedes(a, b, k))
    ensures Apply(Gt, Str(a), Str(b)) == Ok(exists k: nat :: Precedes(b, a, k))
    ensures Apply(LtE, Str(a), Str(b)) == Ok(a == b || exists k: nat :: Precedes(a, b, k))
    ensures Apply(GtE, Str(a), Str(b)) == Ok(a == b || exists k: nat :: Precedes(b, a, k))
    ensures Apply(Eq, Str(a), Str(b)) == Ok(a == b) && Apply(NotEq, Str(a), Str(b)) == Ok(a != b)
  {
    StrLessMeaning(a, b);
    StrLessMeaning(b, a);
    StrTrichotomy(a, b);
  }

  /** Values of different kinds are never equal and have no order; `is` tells a bool from the number it stands for. */
  lemma KindsApart(op: Operator, a: Value, b: Value)
    ensures !(IsNumber(a) && IsNumber(b)) && !(a.Str? && b.Str?) ==>
              && (op in {Lt, LtE, Gt, GtE} ==> Apply(op, a, b) == Err(TypeFault))
              && Apply(Eq, a, b) == Ok(a.Null? && b.Null?) && Apply(NotEq, a, b) == Ok(!(a.Null? && b.Null?))
    ensures Apply(Is, a, b) == Ok(true) <==> a == b
    ensures Apply(IsNot, a, b) == Ok(true) <==> a != b
    ensures Apply(Is, a, b).Ok? && Apply(IsNot, a, b).Ok? && Apply(Other, a, b) == Err(UnsupportedComparison)
  {}

  // ---- what the walk computes -----------------------------------------------------------------------

  function Eval(e: Expr, env: Env): Result<Value, Fault>
    decreases e
  {
    match e
    case Const(v) => Ok(v)
    case Name(id) => if id in env then Ok(env[id]) else Err(UnknownVariable(id))
    case BoolOp(conjunction, operands) => EvalBool(conjunction, operands, env)
    case Not(operand) =>
      (match Eval(operand, env)
       case Ok(v) => Ok(Bool(!Truthy(v)))
       case Err(f) => Err(f))
    case Compare(left, ops, comparators) =>
      (match Eval(left, env)
       case Ok(v) => EvalChain(v, ops, comparators, env)
       case Err(f) => Err(f))
    case Unsupported(_) => Err(UnsupportedSyntax)
  }

  /** Every operand is evaluated, so a later fault wins over an earlier deciding operand. */
  function EvalBool(conjunction: bool, operands: seq<Expr>, env: Env): (r: Result<Value, Fault>)
    ensures r.Ok? ==> r.value.Bool?
    decreases operands
  {
    if operands == [] then Ok(Bool(conjunction)) else
    match Eval(operands[0], env)
    case Err(f) => Err(f)
    case Ok(v) =>
      match EvalBool(conjunction, operands[1..], env)
      case Err(f) => Err(f)
      case Ok(rest) => Ok(Bool(if conjunction then Truthy(v) && rest.b else Truthy(v) || rest.b))
  }

  /** `left ops[0] comparators[0] ops[1] comparators[1] ...`, cut to the shorter list as `zip` does. */
  function EvalChain(left: Value, ops: seq<Operator>, comparators: seq<Expr>, env: Env): Result<Value, Fault>
    decreases comparators
  {
    if ops == [] || comparators == [] then Ok(Bool(true)) else
    if ops[0].Other? then Err(UnsupportedComparison) else
    match Eval(comparators[0], env)
    case Err(f) => Err(f)
    case Ok(right) =>
      match Apply(ops[0], left, right)
      case Err(f) => Err(f)
      case Ok(holds) => if holds then EvalChain(right, ops[1..], comparators[1..], env) else Ok(Bool(false))
  }

  /** `evaluate_condition` on a parsed condition. */
  function Condition(e: Expr, env: Env): Result<bool, Fault> {
    match Eval(e, env)
    case Ok(v) => Ok(Truthy(v))
    case Err(f) => Err(f)
  }

  // ---- the recursive walk with its loops -------------------------------------------------------------

  method Visit(e: Expr, env: Env) returns (r: Result<Value, Fault>)
    ensures r == Eval(e, env)
    decreases e
  {
    match e
    case Const(v) => return Ok(v);
    case Name(id) => return if id in env then Ok(env[id]) else Err(UnknownVariable(id));
    case BoolOp(conjunction, operands) =>
      var all, any := true, false;
      var i := 0;
      while i < |operands|
        invariant 0 <= i <= |operands|
        invariant EvalBool(conjunction, operands, env) ==
                  match EvalBool(conjunction, operands[i..], env)
                  case Err(f) => Err(f)
                  case Ok(v) => Ok(Bool(if conjunction then all && v.b else any || v.b))
      {
        assert operands[i..][1..] == operands[i + 1..];
        var v := Visit(operands[i], env);
        if v.Err? { return v; }
        all, any := all && Truthy(v.value), any || Truthy(v.value);
        i := i + 1;
      }
      return Ok(Bool(if conjunction then all else any));
    case Not(operand) =>
      var v := Visit(operand, env);
      return if v.Ok? then Ok(Bool(!Truthy(v.value))) else v;
    case Compare(first, ops, comparators) =>
      var v := Visit(first, env);
      if v.Err? { return v; }
      var left := v.value;
      var i := 0;
      while i < |ops| && i < |comparators|
        invariant 0 <= i <= |ops| && i <= |comparators|
        invariant EvalChain(left, ops[i..], comparators[i..], env) == EvalChain(v.value, ops, comparators, env)
      {
        assert ops[i..][1..] == ops[i + 1..] && comparators[i..][1..] == comparators[i + 1..];
        if ops[i].Other? { return Err(UnsupportedComparison); }
        var right := Visit(comparators[i], env);
        if right.Err? { return right; }
        var holds := Apply(ops[i], left, right.value);
        if holds.Err? { return Err(holds.error); }
        if !holds.value { return Ok(Bool(false)); }
        left := right.value;
        i := i + 1;
      }
      return Ok(Bool(true));
    case Unsupported(_) => return Err(UnsupportedSyntax);
  }

  // ---- what the loops mean ----------------------------------------------------------------------------

  /** `and`/`or` skip no operand: one fault anywhere is a fault, and otherwise they are all/any. */
  lemma {:induction false} BoolOpStrict(conjunction: bool, operands: seq<Expr>, env: Env)
    ensures EvalBool(conjunction, operands, env).Ok? <==> forall e | e in operands :: Eval(e, env).Ok?
    ensures EvalBool(conjunction, operands, env).Ok? ==>
              EvalBool(conjunction, operands, env).value.b ==
              if conjunction then forall e | e in operands :: Truthy(Eval(e, env).value)
              else exists e | e in operands :: Truthy(Eval(e, env).value)
  {
    if operands != [] {
      var head, rest := operands[0], operands[1..];
      BoolOpStrict(conjunction, rest, env);
      assert head in operands;
      assert forall e :: e in operands <==> e == head || e in rest;
      if EvalBool(conjunction, operands, env).Ok? {
        assert (forall e | e in operands :: Truthy(Eval(e, env).value)) <==>
               Truthy(Eval(head, env).value) && forall e | e in rest :: Truthy(Eval(e, env).value);
        assert (exists e | e in operands :: Truthy(Eval(e, env).value)) <==>
               Truthy(Eval(head, env).value) || exists e | e in rest :: Truthy(Eval(e, env).value);
      }
    }
  }

  /** Link `i` of a chain compares neighbouring operands. */
  predicate LinkHolds(left: Value, ops: seq<Operator>, comparators: seq<Expr>, env: Env, i: nat)
    requires i < |ops| && i < |comparators|
  {
    var before := if i == 0 then Ok(left) else Eval(comparators[i - 1], env);
    var after := Eval(comparators[i], env);
    before.Ok? && after.Ok? && Apply(ops[i], before.value, after.value) == Ok(true)
  }

  /** A chain is true exactly when every link between neighbours is. */
  lemma {:induction false} ChainMeaning(left: Value, ops: seq<Operator>, comparators: seq<Expr>, env: Env)
    ensures EvalChain(left, ops, comparators, env) == Ok(Bool(true)) <==>
            forall i | 0 <= i < |ops| && i < |comparators| :: LinkHolds(left, ops, comparators, env, i)
    decreases |ops|
  {
    if ops != [] && comparators != [] {
      assert LinkHolds(left, ops, comparators, env, 0) <==>
             Eval(comparators[0], env).Ok? && Apply(ops[0], left, Eval(comparators[0], env).value) == Ok(true);
      if LinkHolds(left, ops, comparators, env, 0) {
        var right := Eval(comparators[0], env).value;
        ChainMeaning(right, ops[1..], comparators[1..], env);
        forall i | 0 <= i < |ops| - 1 && i < |comparators| - 1
          ensures LinkHolds(right, ops[1..], comparators[1..], env, i) <==> LinkHolds(left, ops, comparators, env, i + 1)
        {}
        if EvalChain(left, ops, comparators, env) == Ok(Bool(true)) {
          forall i | 0 <= i < |ops| && i < |comparators| ensures LinkHolds(left, ops, comparators, env, i) {
            if i > 0 { assert LinkHolds(right, ops[1..], comparators[1..], env, i - 1); }
          }
        }
      }
    }
  }

  /** The first link that does not hold decides: an operator unknown to the walk, its right operand's fault, or the comparison. */
  lemma {:induction false} FirstLinkDecides(left: Value, ops: seq<Operator>, comparators: seq<Expr>, env: Env, i: nat)
    requires i < |ops| && i < |comparators| && !LinkHolds(left, ops, comparators, env, i)
    requires forall j | 0 <= j < i :: LinkHolds(left, ops, comparators, env, j)
    ensures var before := if i == 0 then Ok(left) else Eval(comparators[i - 1], env);
            && before.Ok?
            && EvalChain(left, ops, comparators, env) ==
               if ops[i].Other? then Err(UnsupportedComparison) else
               match Eval(comparators[i], env)
               case Err(f) => Err(f)
               case Ok(after) =>
                 (match Apply(ops[i], before.value, after)
                  case Ok(_) => Ok(Bool(false))
                  case Err(f) => Err(f))
    decreases i
  {
    if i > 0 { assert LinkHolds(left, ops, comparators, env, 0) && !ops[0].Other?; }
    hide Apply;
    if i > 0 {
      var right := Eval(comparators[0], env).value;
      forall j | 0 <= j < |ops| - 1 && j < |comparators| - 1
        ensures LinkHolds(right, ops[1..], comparators[1..], env, j) <==> LinkHolds(left, ops, comparators, env, j + 1)
      {}
      FirstLinkDecides(right, ops[1..], comparators[1..], env, i - 1);
    }
  }

  /** The leftmost fault is the one reported, whatever the operands before it say. */
  lemma {:induction false} FirstFaultWins(conjunction: bool, operands: seq<Expr>, env: Env, i: nat)
    requires i < |operands| && Eval(operands[i], env).Err?
    requires forall j | 0 <= j < i :: Eval(operands[j], env).Ok?
    ensures EvalBool(conjunction, operands, env) == Err(Eval(operands[i], env).error)
    decreases i
  {
    if i > 0 {
      assert operands[1..][i - 1] == operands[i];
      FirstFaultWins(conjunction, operands[1..], env, i - 1);
    }
  }

  /** None, False, zero and the empty string are false, every other value is true; `not` turns a verdict round. */
  lemma TruthOfValues(v: Value, e: Expr, env: Env)
    ensures Condition(Const(v), env) == Ok(v !in {Null, Bool(false), Num(0.0), Str("")})
    ensures Condition(Not(e), env) ==
            match Condition(e, env) case Ok(holds) => Ok(!holds) case Err(f) => Err(f)
  {}

  /** A bound on a variable such as `speed <= 80`. */
  function Bound(id: string, op: Operator, limit: Value): Expr {
    Compare(Name(id), [op], [Const(limit)])
  }

  /** What a bound says of whatever the variable holds, in all four directions. */
  lemma OneSidedBound(id: string, limit: real, env: Env)
    ensures id !in env ==> forall op :: Condition(Bound(id, op, Num(limit)), env) == Err(UnknownVariable(id))
    ensures id in env && !IsNumber(env[id]) ==>
              forall op | op in {Lt, LtE, Gt, GtE} :: Condition(Bound(id, op, Num(limit)), env) == Err(TypeFault)
    ensures id in env && IsNumber(env[id]) ==>
              && Condition(Bound(id, Lt, Num(limit)), env) == Ok(Amount(env[id]) < limit)
              && Condition(Bound(id, LtE, Num(limit)), env) == Ok(Amount(env[id]) <= limit)
              && Condition(Bound(id, Gt, Num(limit)), env) == Ok(Amount(env[id]) > limit)
              && Condition(Bound(id, GtE, Num(limit)), env) == Ok(Amount(env[id]) >= limit)
  {
    forall op ensures Condition(Bound(id, op, Num(limit)), env) ==
                      if id in env then Apply(op, env[id], Num(limit)) else Err(UnknownVariable(id))
    {
      BoundIsLink(id, op, Num(limit), env);
    }
    if id in env {
      if IsNumber(env[id]) {
        NumbersCompare(env[id], Num(limit));
      } else {
        forall op ensures op in {Lt, LtE, Gt, GtE} ==> Apply(op, env[id], Num(limit)) == Err(TypeFault) {
          KindsApart(op, env[id], Num(limit));
        }
      }
    }
    hide Condition, Apply;
  }

  lemma BoundIsLink(id: string, op: Operator, limit: Value, env: Env)
    ensures Condition(Bound(id, op, limit), env) ==
            if id in env then Apply(op, env[id], limit) else Err(UnknownVariable(id))
  {
    assert Eval(Name(id), env) == if id in env then Ok(env[id]) else Err(UnknownVariable(id));
    if id in env { OneLink(op, env[id], Const(limit), limit, env); }
    hide Apply;
  }

  lemma OneLink(op: Operator, left: Value, e: Expr, right: Value, env: Env)
    requires Eval(e, env) == Ok(right)
    ensures EvalChain(left, [op], [e], env) ==
            match Apply(op, left, right) case Ok(holds) => Ok(Bool(holds)) case Err(f) => Err(f)
  {}

  /** `low < x < high` */
  function Between(op: Operator, low: Value, id: string, high: Value): Expr {
    Compare(Const(low), [op, op], [Name(id), Const(high)])
  }

  /** A two-sided bound holds exactly of the values between its limits. */
  lemma TwoSidedBound(id: string, low: real, high: real, env: Env)
    requires id in env && IsNumber(env[id])
    ensures Condition(Between(Lt, Num(low), id, Num(high)), env) == Ok(low < Amount(env[id]) < high)
    ensures Condition(Between(LtE, Num(low), id, Num(high)), env) == Ok(low <= Amount(env[id]) <= high)
  {
    NumbersCompare(Num(low), env[id]);
    NumbersCompare(env[id], Num(high));
    TwoLinks(Lt, Num(low), id, Num(high), env);
    TwoLinks(LtE, Num(low), id, Num(high), env);
    hide Condition, Apply;
  }

  lemma TwoLinks(op: Operator, low: Value, id: string, high: Value, env: Env)
    requires id in env && Apply(op, low, env[id]).Ok? && Apply(op, env[id], high).Ok?
    ensures Condition(Between(op, low, id, high), env) == Ok(Apply(op, low, env[id]).value && Apply(op, env[id], high).value)
  {
    var ops, comparators := [op, op], [Name(id), Const(high)];
    assert ops[1..] == [op] && comparators[1..] == [Const(high)];
    assert Eval(Const(low), env) == Ok(low) && Eval(Name(id), env) == Ok(env[id]);
    OneLink(op, env[id], Const(high), high, env);
    hide Apply;
    assert EvalChain(low, ops, comparators, env) ==
           if Apply(op, low, env[id]).value then EvalChain(env[id], [op], [Const(high)], env) else Ok(Bool(false));
  }

  // ---- evaluation depends only on the names mentioned -------------------------------------------------

  function Vars(e: Expr): set<string>
    decreases e
  {
    match e
    case Const(_) => {}
    case Name(id) => {id}
    case BoolOp(_, operands) => VarsAll(operands)
    case Not(operand) => Vars(operand)
    case Compare(left, _, comparators) => Vars(left) + VarsAll(comparators)
    case Unsupported(children) => VarsAll(children)
  }

  function VarsAll(es: seq<Expr>): set<string>
    decreases es
  {
    if es == [] then {} else Vars(es[0]) + VarsAll(es[1..])
  }

  /** `{k: values[k] for k in keys if k in values}` */
  function Restrict(env: Env, keys: set<string>): Env {
    map k | k in env && k in keys :: env[k]
  }

  lemma {:induction false} EvalLocal(e: Expr, env: Env, keys: set<string>)
    requires Vars(e) <= keys
    ensures Eval(e, Restrict(env, keys)) == Eval(e, env)
    decreases e
  {
    match e
    case Const(_) =>
    case Name(_) =>
    case BoolOp(conjunction, operands) => EvalBoolLocal(conjunction, operands, env, keys);
    case Not(operand) => EvalLocal(operand, env, keys);
    case Compare(left, ops, comparators) =>
      EvalLocal(left, env, keys);
      var v := Eval(left, env);
      if v.Ok? { EvalChainLocal(v.value, ops, comparators, env, keys); }
    case Unsupported(_) =>
  }

  lemma {:induction false} EvalBoolLocal(conjunction: bool, operands: seq<Expr>, env: Env, keys: set<string>)
    requires VarsAll(operands) <= keys
    ensures EvalBool(conjunction, operands, Restrict(env, keys)) == EvalBool(conjunction, operands, env)
    decreases operands
  {
    if operands != [] {
      EvalLocal(operands[0], env, keys);
      EvalBoolLocal(conjunction, operands[1..], env, keys);
    }
  }

  lemma {:induction false} EvalChainLocal(left: Value, ops: seq<Operator>, comparators: seq<Expr>, env: Env,
                                          keys: set<string>)
    requires VarsAll(comparators) <= keys
    ensures EvalChain(left, ops, comparators, Restrict(env, keys)) == EvalChain(left, ops, comparators, env)
    decreases comparators
  {
    if ops != [] && comparators != [] {
      EvalLocal(comparators[0], env, keys);
      var v := Eval(comparators[0], env);
      if v.Ok? { EvalChainLocal(v.value, ops[1..], comparators[1..], env, keys); }
    }
  }
}
