/**
 Policy resolution (guardrail/policy/engine.py, guardrail/policy/rules.py) and the service's fail-closed
 wrapper around it (guardrail/service/app.py): matching, conflict and priority, recorded evidence.
 */
module PolicyEngine {
  import opened Wrappers
  import opened Conditions

  datatype Outcome = ALLOW | BLOCK_UNSAFE | BLOCK_UNAVAILABLE | CONFIRM | NOT_VOICE_ACTIONABLE | ANSWER | UNKNOWN

  datatype Mode = Gate | Monitor

  datatype Rule = Rule(id: string, intent: string, mode: Mode, outcome: Outcome, prepared: Expr)

  datatype Reason =
    | IntentNotInCatalog | NoRuleForPhase | UnknownRequestParam | ConditionEvalError | NoMatchingPolicy
    | PolicyAmbiguity | EngineEvalError | NoMonitorTrigger | Policy(outcome: Outcome, suppressed: seq<string>)

  datatype Decision = Decision(intent: string, mode: Mode, outcome: Option<Outcome>, ruleId: Option<string>,
                               reason: Reason, relevant: Env, failClosed: bool, matched: seq<string>)

  /** Everything one evaluation looks at. `variables` is CONDITION_VARIABLES. */
  datatype Query = Query(rules: seq<Rule>, variables: set<string>, intent: string, mode: Mode, state: Env,
                         params: seq<(string, Value)>)

  function Priority(id: string): nat {
    if id in {"R034", "R038", "R041"} then 10 else 0
  }

  predicate Fires(rule: Rule, env: Env) {
    Condition(rule.prepared, env) == Ok(true)
  }

  predicate Sleeps(rule: Rule, env: Env) {
    Condition(rule.prepared, env) == Ok(false)
  }

  // ---- the pieces of `evaluate` -----------------------------------------------------------------------

  function ForIntent(rules: seq<Rule>, intent: string, mode: Mode): (r: seq<Rule>)
    ensures forall x :: x in r <==> x in rules && x.intent == intent && x.mode == mode
  {
    if rules == [] then [] else
    (if rules[0].intent == intent && rules[0].mode == mode then [rules[0]] else []) + ForIntent(rules[1..], intent, mode)
  }

  predicate KnowsIntent(rules: seq<Rule>, intent: string) {
    exists r :: r in rules && r.intent == intent
  }

  /** Request parameters override the state, unless one is not a condition variable. */
  function Overlay(env: Env, variables: set<string>, params: seq<(string, Value)>): Option<Env>
    decreases params
  {
    if params == [] then Some(env) else
    if params[0].0 !in variables then None else Overlay(env[params[0].0 := params[0].1], variables, params[1..])
  }

  /** The rules that fire, in order; the first fault ends the scan. */
  function Matching(rules: seq<Rule>, env: Env): (r: Result<seq<Rule>, Fault>)
    ensures r.Ok? <==> forall x | x in rules :: Condition(x.prepared, env).Ok?
    ensures r.Ok? ==> forall x :: x in r.value <==> x in rules && Fires(x, env)
  {
    if rules == [] then Ok([]) else
    match Condition(rules[0].prepared, env)
    case Err(f) => Err(f)
    case Ok(hit) => Joined(if hit then [rules[0]] else [], Matching(rules[1..], env))
  }

  function Joined(found: seq<Rule>, rest: Result<seq<Rule>, Fault>): Result<seq<Rule>, Fault> {
    if rest.Ok? then Ok(found + rest.value) else rest
  }

  lemma JoinedNone(rest: Result<seq<Rule>, Fault>)
    ensures Joined([], rest) == rest
  {
    if rest.Ok? { assert [] + rest.value == rest.value; }
  }

  lemma JoinedTwice(a: seq<Rule>, b: seq<Rule>, rest: Result<seq<Rule>, Fault>)
    ensures Joined(a, Joined(b, rest)) == Joined(a + b, rest)
  {
    if rest.Ok? { assert a + (b + rest.value) == (a + b) + rest.value; }
  }

  /** `max(_RULE_PRIORITY.get(...))` */
  function Top(rules: seq<Rule>): (r: nat)
    ensures forall x | x in rules :: Priority(x.id) <= r
    ensures rules != [] ==> exists x :: x in rules && Priority(x.id) == r
  {
    if rules == [] then 0 else
    var rest := Top(rules[1..]);
    if Priority(rules[0].id) > rest then Priority(rules[0].id)
    else if rules[1..] == [] then Priority(rules[0].id) else rest
  }

  function Winners(rules: seq<Rule>, top: nat): (r: seq<Rule>)
    ensures forall x :: x in r <==> x in rules && Priority(x.id) == top
  {
    if rules == [] then [] else
    (if Priority(rules[0].id) == top then [rules[0]] else []) + Winners(rules[1..], top)
  }

  predicate OneOutcome(rules: seq<Rule>) {
    forall x, y | x in rules && y in rules :: x.outcome == y.outcome
  }

  function Ids(rules: seq<Rule>): seq<string> {
    if rules == [] then [] else [rules[0].id] + Ids(rules[1..])
  }

  function Without(rules: seq<Rule>, drop: seq<Rule>): seq<Rule> {
    if rules == [] then [] else (if rules[0] in drop then [] else [rules[0]]) + Without(rules[1..], drop)
  }

  function RuleVars(rules: seq<Rule>): (r: set<string>)
    ensures forall x | x in rules :: Vars(x.prepared) <= r
  {
    if rules == [] then {} else Vars(rules[0].prepared) + RuleVars(rules[1..])
  }

  function Relevant(rules: seq<Rule>, env: Env): Env {
    Restrict(env, RuleVars(rules))
  }

  function Fail(q: Query, reason: Reason, relevant: Env): Decision {
    Decision(q.intent, q.mode, None, None, reason, relevant, true, [])
  }

  function Chosen(q: Query, matches: seq<Rule>, suppressed: seq<string>, env: Env): Decision
    requires matches != []
  {
    Decision(q.intent, q.mode, Some(matches[0].outcome), Some(matches[0].id), Policy(matches[0].outcome, suppressed),
             Relevant(matches, env), false, Ids(matches))
  }

  /** Conflict and priority among the rules that fired. */
  function Resolve(q: Query, rules: seq<Rule>, matches: seq<Rule>, env: Env): Decision {
    if matches == [] then
      if q.mode.Monitor?
      then Decision(q.intent, q.mode, None, None, NoMonitorTrigger, Relevant(rules, env), false, [])
      else Fail(q, NoMatchingPolicy, Relevant(rules, env))
    else if OneOutcome(matches) then Chosen(q, matches, [], env)
    else
      var top := Top(matches);
      var winners := Winners(matches, top);
      if top == 0 || !OneOutcome(winners) then Fail(q, PolicyAmbiguity, Relevant(matches, env))
      else Chosen(q, winners, Ids(Without(matches, winners)), env)
  }

  /** `PolicyEngine.evaluate`: a decision, or the `TypeError` that escapes it. */
  function EvaluateSpec(q: Query): Result<Decision, Fault> {
    if !KnowsIntent(q.rules, q.intent) then Ok(Fail(q, IntentNotInCatalog, map[])) else
    var rules := ForIntent(q.rules, q.intent, q.mode);
    if rules == [] then Ok(Fail(q, NoRuleForPhase, map[])) else
    match Overlay(q.state, q.variables, q.params)
    case None => Ok(Fail(q, UnknownRequestParam, map[]))
    case Some(env) =>
      match Matching(rules, env)
      case Err(f) => if f.TypeFault? then Err(f) else Ok(Fail(q, ConditionEvalError, map[]))
      case Ok(matches) => Ok(Resolve(q, rules, matches, env))
  }

  /** `GuardrailService._evaluate`: anything that escapes the engine fails closed. */
  function Decide(q: Query): Decision {
    match EvaluateSpec(q)
    case Ok(d) => d
    case Err(_) => Fail(q, EngineEvalError, map[])
  }

  // ---- the method with its loops ------------------------------------------------------------------------

  method Evaluate(q: Query) returns (r: Result<Decision, Fault>)
    ensures r == EvaluateSpec(q)
  {
    if !KnowsIntent(q.rules, q.intent) { return Ok(Fail(q, IntentNotInCatalog, map[])); }
    var rules := ForIntent(q.rules, q.intent, q.mode);
    if rules == [] { return Ok(Fail(q, NoRuleForPhase, map[])); }

    var values := q.state;
    var i := 0;
    while i < |q.params|
      invariant 0 <= i <= |q.params|
      invariant Overlay(values, q.variables, q.params[i..]) == Overlay(q.state, q.variables, q.params)
    {
      assert q.params[i..][1..] == q.params[i + 1..];
      var (k, v) := q.params[i];
      if k !in q.variables { return Ok(Fail(q, UnknownRequestParam, map[])); }
      values := values[k := v];
      i := i + 1;
    }

    var matches := Scan(rules, values);
    if matches.Err? {
      return if matches.error.TypeFault? then Err(matches.error) else Ok(Fail(q, ConditionEvalError, map[]));
    }
    return Ok(Resolve(q, rules, matches.value, values));
  }

  method Scan(rules: seq<Rule>, values: Env) returns (r: Result<seq<Rule>, Fault>)
    ensures r == Matching(rules, values)
  {
    var matches: seq<Rule> := [];
    var i := 0;
    assert rules[0..] == rules;
    JoinedNone(Matching(rules, values));
    while i < |rules|
      invariant 0 <= i <= |rules|
      invariant Matching(rules, values) == Joined(matches, Matching(rules[i..], values))
    {
      assert rules[i..][1..] == rules[i + 1..];
      var hit := Visit(rules[i].prepared, values);
      if hit.Err? { return Err(hit.error); }
      JoinedTwice(matches, if Truthy(hit.value) then [rules[i]] else [], Matching(rules[i + 1..], values));
      if Truthy(hit.value) { matches := matches + [rules[i]]; } else { assert matches + [] == matches; }
      i := i + 1;
    }
    assert matches + [] == matches;
    return Ok(matches);
  }

  // ---- resolution -----------------------------------------------------------------------------------------

  /** The rules a query has to consider, and the values it considers them on. */
  predicate Candidate(q: Query, r: Rule) {
    r in q.rules && r.intent == q.intent && r.mode == q.mode
  }

  function Values(q: Query): Env {
    match Overlay(q.state, q.variables, q.params)
    case Some(env) => env
    case None => map[]
  }

  ghost predicate Match(q: Query, r: Rule) {
    Candidate(q, r) && Fires(r, Values(q))
  }

  ghost predicate Faultless(q: Query) {
    && Overlay(q.state, q.variables, q.params).Some?
    && forall r | Candidate(q, r) :: Condition(r.prepared, Values(q)).Ok?
  }

  ghost predicate Unanimous(q: Query, o: Outcome) {
    forall r | Match(q, r) :: r.outcome == o
  }

  ghost predicate TopRule(q: Query, w: Rule) {
    Match(q, w) && forall r | Match(q, r) :: Priority(r.id) <= Priority(w.id)
  }

  /** A positive-priority rule fires, and all firing rules of the highest priority say `o`. */
  ghost predicate PriorityWins(q: Query, o: Outcome) {
    && (exists w :: TopRule(q, w) && Priority(w.id) > 0)
    && forall w | TopRule(q, w) :: w.outcome == o
  }

  /** `matches` lists the rules that fire. */
  ghost predicate Lists(q: Query, matches: seq<Rule>) {
    forall r :: r in matches <==> Match(q, r)
  }

  lemma Matched(q: Query)
    requires Faultless(q) && (exists r :: Candidate(q, r))
    ensures var rules := ForIntent(q.rules, q.intent, q.mode);
            && Matching(rules, Values(q)).Ok?
            && Lists(q, Matching(rules, Values(q)).value)
            && Decide(q) == Resolve(q, rules, Matching(rules, Values(q)).value, Values(q))
  {
    var r :| Candidate(q, r);
    assert r in ForIntent(q.rules, q.intent, q.mode);
  }

  lemma Faulted(q: Query)
    requires !Faultless(q) || !exists r :: Candidate(q, r)
    ensures Decide(q).outcome == None && Decide(q).failClosed
    ensures Decide(q).reason != NoMonitorTrigger && Decide(q).reason != NoMatchingPolicy
  {
    var rules := ForIntent(q.rules, q.intent, q.mode);
    if rules != [] { assert Candidate(q, rules[0]); }
  }

  lemma WinnersAreTop(q: Query, matches: seq<Rule>)
    requires Lists(q, matches) && matches != []
    ensures forall w :: w in Winners(matches, Top(matches)) <==> TopRule(q, w)
    ensures Winners(matches, Top(matches)) != []
  {
    hide Match;
    var top := Top(matches);
    var best :| best in matches && Priority(best.id) == top;
    assert best in Winners(matches, Top(matches)) && Match(q, best);
  }

  lemma AgreedOutcome(q: Query, matches: seq<Rule>, o: Outcome)
    requires Lists(q, matches) && matches != [] && OneOutcome(matches)
    ensures matches[0].outcome == o <==> Unanimous(q, o) || PriorityWins(q, o)
  {
    hide Match;
    assert Match(q, matches[0]);
    if PriorityWins(q, o) {
      var w :| TopRule(q, w);
      assert w in matches;
    }
  }

  lemma WinnersDecide(q: Query, winners: seq<Rule>, top: nat, o: Outcome)
    requires winners != [] && (forall w :: w in winners <==> TopRule(q, w))
    requires forall w | w in winners :: Priority(w.id) == top
    ensures top > 0 && OneOutcome(winners) && winners[0].outcome == o <==> PriorityWins(q, o)
  {
    hide TopRule;
    assert TopRule(q, winners[0]);
  }

  lemma ConflictOutcome(q: Query, matches: seq<Rule>, o: Outcome)
    requires Lists(q, matches) && matches != [] && !OneOutcome(matches)
    ensures !Unanimous(q, o)
    ensures var winners := Winners(matches, Top(matches));
            winners != [] &&
            (Top(matches) > 0 && OneOutcome(winners) && winners[0].outcome == o <==> PriorityWins(q, o))
  {
    hide Match, PriorityWins;
    var x, y :| x in matches && y in matches && x.outcome != y.outcome;
    assert Match(q, x) && Match(q, y);
    WinnersAreTop(q, matches);
    WinnersDecide(q, Winners(matches, Top(matches)), Top(matches), o);
  }

  lemma ResolveOutcome(q: Query, rules: seq<Rule>, matches: seq<Rule>, env: Env, o: Outcome)
    requires Lists(q, matches)
    ensures Resolve(q, rules, matches, env).outcome == Some(o) <==>
            matches != [] && (Unanimous(q, o) || PriorityWins(q, o))
  {
    hide Lists, Unanimous, PriorityWins, Relevant, OneOutcome;
    if matches == [] {
    } else if OneOutcome(matches) {
      AgreedOutcome(q, matches, o);
    } else {
      ConflictOutcome(q, matches, o);
    }
  }

  lemma ResolveReason(q: Query, rules: seq<Rule>, matches: seq<Rule>, env: Env)
    ensures var d := Resolve(q, rules, matches, env);
            && (d.failClosed <==> d.outcome == None && d.reason != NoMonitorTrigger)
            && (d.reason == NoMonitorTrigger <==> q.mode.Monitor? && matches == [])
            && (matches == [] ==> d.relevant == Relevant(rules, env))
            && (d.reason == NoMatchingPolicy ==> matches == [])
  {
    hide Relevant, Winners, OneOutcome, Top, Ids, Without;
  }

  /**
   Resolution: an outcome is decided exactly when nothing faults, something fires, and the firing rules
   either agree on it or their positive top priority does. In particular ALLOW, in gate mode.
   */
  lemma Resolution(q: Query, o: Outcome)
    ensures Decide(q).outcome == Some(o) <==>
            Faultless(q) && (exists r :: Match(q, r)) && (Unanimous(q, o) || PriorityWins(q, o))
  {
    if Faultless(q) && exists r :: Candidate(q, r) {
      Matched(q);
      var rules := ForIntent(q.rules, q.intent, q.mode);
      var matches := Matching(rules, Values(q)).value;
      hide Decide, Match, Resolve, Unanimous, PriorityWins, Candidate;
      ResolveOutcome(q, rules, matches, Values(q), o);
      if matches != [] { assert Match(q, matches[0]); }
    } else {
      Faulted(q);
    }
  }

  /** Without an outcome the decision fails closed, except for a monitor check none of whose rules fires. */
  lemma FailClosed(q: Query)
    ensures Decide(q).failClosed <==> Decide(q).outcome == None && Decide(q).reason != NoMonitorTrigger
    ensures Decide(q).reason == NoMonitorTrigger <==>
            q.mode.Monitor? && Faultless(q) && (exists r :: Candidate(q, r)) && !exists r :: Match(q, r)
  {
    if Faultless(q) && exists r :: Candidate(q, r) {
      Matched(q);
      var rules := ForIntent(q.rules, q.intent, q.mode);
      var matches := Matching(rules, Values(q)).value;
      hide Decide, Match, Resolve, Candidate;
      ResolveReason(q, rules, matches, Values(q));
      if matches != [] { assert Match(q, matches[0]); }
    } else {
      Faulted(q);
    }
  }

  // ---- the three rules with precedence --------------------------------------------------------------------

  /** The mode-exclusion rules of the workbook. */
  predicate Excludes(r: Rule) {
    r.id == "R034" || r.id == "R038" || r.id == "R041"
  }

  /** A mode-exclusion rule fires, and all of them that fire say `o`. */
  ghost predicate ExclusionWins(q: Query, o: Outcome) {
    && (exists w :: Match(q, w) && Excludes(w))
    && forall w | Match(q, w) && Excludes(w) :: w.outcome == o
  }

  lemma PriorityIsExclusion(q: Query, o: Outcome)
    ensures PriorityWins(q, o) <==> ExclusionWins(q, o)
  {
    hide Match;
    if w :| Match(q, w) && Excludes(w) {
      assert TopRule(q, w);
      assert forall r :: TopRule(q, r) <==> Match(q, r) && Excludes(r);
    } else {
      assert forall r | Match(q, r) :: Priority(r.id) == 0;
    }
  }

  /**
   An outcome is decided exactly when nothing faults, something fires, and either all firing rules say it or a
   mode-exclusion rule fires and all of those that do say it, whatever the other rules say.
   */
  lemma ExclusionResolves(q: Query, o: Outcome)
    ensures Decide(q).outcome == Some(o) <==>
            Faultless(q) && (exists r :: Match(q, r)) && (Unanimous(q, o) || ExclusionWins(q, o))
  {
    Resolution(q, o);
    PriorityIsExclusion(q, o);
    hide Decide, Match, Faultless, Unanimous, PriorityWins, ExclusionWins;
  }

  // ---- the values a query is decided on --------------------------------------------------------------------

  /** The last parameter of this name, if there is one. */
  ghost predicate LastParam(params: seq<(string, Value)>, name: string, i: nat) {
    i < |params| && params[i].0 == name && forall j | i < j < |params| :: params[j].0 != name
  }

  /**
   Request parameters are refused exactly when one is not a condition variable; otherwise each overrides the state,
   the last of a name winning, and every other value is the state's.
   */
  lemma {:induction false} ParamsOverride(env: Env, variables: set<string>, params: seq<(string, Value)>)
    ensures Overlay(env, variables, params).None? <==> exists i | 0 <= i < |params| :: params[i].0 !in variables
    ensures Overlay(env, variables, params).Some? ==>
              var r := Overlay(env, variables, params).value;
              && (forall name :: name in r <==> name in env || exists i | 0 <= i < |params| :: params[i].0 == name)
              && (forall i: nat, name | LastParam(params, name, i) :: r[name] == params[i].1)
              && forall name | name in env && forall i | 0 <= i < |params| :: params[i].0 != name :: r[name] == env[name]
    decreases params
  {
    if params != [] {
      var (name, v) := params[0];
      var rest := params[1..];
      ParamsOverride(env[name := v], variables, rest);
      assert forall i | 0 < i < |params| :: params[i] == rest[i - 1];
      assert forall i | 0 <= i < |rest| :: rest[i] == params[i + 1];
      if Overlay(env, variables, params).Some? {
        var r := Overlay(env, variables, params).value;
        forall i: nat, n | LastParam(params, n, i) ensures r[n] == params[i].1 {
          if i > 0 { assert LastParam(rest, n, i - 1); }
        }
      }
    }
  }

  // ---- which rules a decision names ------------------------------------------------------------------------

  ghost function Filter(rules: seq<Rule>, keep: Rule -> bool): seq<Rule> {
    if rules == [] then []
    else if keep(rules[0]) then [rules[0]] + Filter(rules[1..], keep) else Filter(rules[1..], keep)
  }

  lemma {:induction false} FilterTwice(rules: seq<Rule>, p: Rule -> bool, q: Rule -> bool, both: Rule -> bool)
    requires forall r | r in rules :: both(r) <==> p(r) && q(r)
    ensures Filter(Filter(rules, p), q) == Filter(rules, both)
  {
    if rules != [] {
      FilterTwice(rules[1..], p, q, both);
      if p(rules[0]) { assert Filter(rules, p)[1..] == Filter(rules[1..], p); }
    }
  }

  lemma {:induction false} CandidatesFiltered(rules: seq<Rule>, intent: string, mode: Mode)
    ensures ForIntent(rules, intent, mode) == Filter(rules, (r: Rule) => r.intent == intent && r.mode == mode)
  {
    if rules != [] { CandidatesFiltered(rules[1..], intent, mode); }
  }

  lemma {:induction false} MatchingFiltered(rules: seq<Rule>, env: Env)
    requires Matching(rules, env).Ok?
    ensures Matching(rules, env).value == Filter(rules, (r: Rule) => Fires(r, env))
  {
    if rules != [] {
      MatchingFiltered(rules[1..], env);
      assert [] + Matching(rules[1..], env).value == Matching(rules[1..], env).value;
    }
  }

  lemma {:induction false} WinnersFiltered(rules: seq<Rule>, top: nat)
    ensures Winners(rules, top) == Filter(rules, (r: Rule) => Priority(r.id) == top)
  {
    if rules != [] { WinnersFiltered(rules[1..], top); }
  }

  lemma {:induction false} WithoutFiltered(rules: seq<Rule>, drop: seq<Rule>)
    ensures Without(rules, drop) == Filter(rules, (r: Rule) => r !in drop)
  {
    if rules != [] { WithoutFiltered(rules[1..], drop); }
  }

  lemma {:induction false} FilterAll(rules: seq<Rule>, keep: Rule -> bool)
    ensures (forall r | r in rules :: keep(r)) ==> Filter(rules, keep) == rules
    ensures (forall r | r in rules :: !keep(r)) ==> Filter(rules, keep) == []
  {
    if rules != [] { FilterAll(rules[1..], keep); }
  }

  /** The firing rules in table order. */
  lemma MatchesFiltered(q: Query)
    requires Faultless(q) && (exists r :: Candidate(q, r))
    ensures Matching(ForIntent(q.rules, q.intent, q.mode), Values(q)).Ok?
    ensures Matching(ForIntent(q.rules, q.intent, q.mode), Values(q)).value == Filter(q.rules, (r: Rule) => Match(q, r))
  {
    Matched(q);
    var rules := ForIntent(q.rules, q.intent, q.mode);
    CandidatesFiltered(q.rules, q.intent, q.mode);
    MatchingFiltered(rules, Values(q));
    hide Fires;
    FilterTwice(q.rules, (r: Rule) => r.intent == q.intent && r.mode == q.mode, (r: Rule) => Fires(r, Values(q)),
                (r: Rule) => Match(q, r));
  }

  /** A firing rule that takes part in the decision: all of them if they agree, else the mode-exclusion rules. */
  ghost predicate Decides(q: Query, r: Rule) {
    Match(q, r) && ((exists o :: Unanimous(q, o)) || Excludes(r))
  }

  ghost predicate Mentioned(q: Query, name: string, among: Rule -> bool) {
    exists r :: r in q.rules && among(r) && name in Vars(r.prepared)
  }

  lemma {:induction false} RuleVarsOf(rules: seq<Rule>, name: string)
    ensures name in RuleVars(rules) <==> exists r :: r in rules && name in Vars(r.prepared)
  {
    if rules != [] {
      RuleVarsOf(rules[1..], name);
      assert forall r :: r in rules <==> r == rules[0] || r in rules[1..];
    }
  }

  lemma {:induction false} FilterMembers(rules: seq<Rule>, keep: Rule -> bool)
    ensures forall r :: r in Filter(rules, keep) <==> r in rules && keep(r)
  {
    if rules != [] {
      FilterMembers(rules[1..], keep);
      assert forall r :: r in rules <==> r == rules[0] || r in rules[1..];
    }
  }

  /** What the recorded state holds: the values of exactly the names these rules mention. */
  lemma RecordedNames(q: Query, keep: Rule -> bool, name: string)
    ensures var relevant := Relevant(Filter(q.rules, keep), Values(q));
            && (name in relevant <==> name in Values(q) && Mentioned(q, name, keep))
            && (name in relevant ==> relevant[name] == Values(q)[name])
  {
    FilterMembers(q.rules, keep);
    RuleVarsOf(Filter(q.rules, keep), name);
  }

  lemma AgreementAmongMatches(q: Query, matches: seq<Rule>)
    requires Lists(q, matches) && matches != []
    ensures OneOutcome(matches) <==> exists o :: Unanimous(q, o)
  {
    hide Match;
    assert Match(q, matches[0]);
    if OneOutcome(matches) { assert Unanimous(q, matches[0].outcome); }
  }

  lemma ExclusionIsTop(q: Query, matches: seq<Rule>)
    requires Lists(q, matches) && Top(matches) > 0
    ensures forall r | r in matches :: Priority(r.id) == Top(matches) <==> Excludes(r)
  {
    assert exists x :: x in matches && Priority(x.id) == Top(matches);
  }

  /**
   A decision names, in table order, exactly the firing rules that take part in it; the first of them gives rule id
   and outcome; the rules it overrules are the other firing ones.
   */
  lemma DecisionNames(q: Query)
    requires Decide(q).outcome.Some?
    ensures var d, deciding := Decide(q), Filter(q.rules, (r: Rule) => Decides(q, r));
            && deciding != [] && d.ruleId == Some(deciding[0].id) && d.outcome == Some(deciding[0].outcome)
            && d.matched == Ids(deciding) && d.relevant == Relevant(deciding, Values(q))
            && d.reason == Policy(deciding[0].outcome, Ids(Filter(q.rules, (r: Rule) => Match(q, r) && !Decides(q, r))))
  {
    Resolution(q, Decide(q).outcome.value);
    var r0 :| Match(q, r0);
    assert Candidate(q, r0);
    MatchesFiltered(q);
    Matched(q);
    var rules := ForIntent(q.rules, q.intent, q.mode);
    var matches := Matching(rules, Values(q)).value;
    hide Decide, Match, Matching, ForIntent, Candidate, Faultless, Values, Relevant;
    assert r0 in matches;
    AgreementAmongMatches(q, matches);
    if OneOutcome(matches) {
      hide OneOutcome, Lists;
      FilterSame(q.rules, (r: Rule) => Match(q, r), (r: Rule) => Decides(q, r));
      NothingLeft(q);
    } else {
      ConflictNames(q, rules, matches);
    }
  }

  lemma {:induction false} FilterSame(rules: seq<Rule>, p: Rule -> bool, q: Rule -> bool)
    requires forall r | r in rules :: p(r) <==> q(r)
    ensures Filter(rules, p) == Filter(rules, q)
  {
    if rules != [] { FilterSame(rules[1..], p, q); }
  }

  lemma NothingLeft(q: Query)
    requires exists o :: Unanimous(q, o)
    ensures Ids(Filter(q.rules, (r: Rule) => Match(q, r) && !Decides(q, r))) == []
  {
    hide Match, Unanimous;
    FilterAll(q.rules, (r: Rule) => Match(q, r) && !Decides(q, r));
  }

  lemma ConflictNames(q: Query, rules: seq<Rule>, matches: seq<Rule>)
    requires Lists(q, matches) && matches != [] && !OneOutcome(matches) && matches == Filter(q.rules, (r: Rule) => Match(q, r))
    requires !exists o :: Unanimous(q, o)
    requires Resolve(q, rules, matches, Values(q)).outcome.Some?
    ensures var d, deciding := Resolve(q, rules, matches, Values(q)), Filter(q.rules, (r: Rule) => Decides(q, r));
            && deciding != [] && d.ruleId == Some(deciding[0].id) && d.outcome == Some(deciding[0].outcome)
            && d.matched == Ids(deciding) && d.relevant == Relevant(deciding, Values(q))
            && d.reason == Policy(deciding[0].outcome, Ids(Filter(q.rules, (r: Rule) => Match(q, r) && !Decides(q, r))))
  {
    hide Match, Relevant, Values, Unanimous, OneOutcome;
    var top := Top(matches);
    var winners := Winners(matches, top);
    var best :| best in matches && Priority(best.id) == top;
    assert best in winners;
    ExclusionIsTop(q, matches);
    WinnersFiltered(matches, top);
    WithoutFiltered(matches, winners);
    assert forall r | r in q.rules :: r in matches <==> Match(q, r);
    FilterTwice(q.rules, (r: Rule) => Match(q, r), (r: Rule) => Priority(r.id) == top,
                (r: Rule) => Match(q, r) && Priority(r.id) == top);
    FilterSame(q.rules, (r: Rule) => Match(q, r) && Priority(r.id) == top, (r: Rule) => Decides(q, r));
    FilterTwice(q.rules, (r: Rule) => Match(q, r), (r: Rule) => r !in winners, (r: Rule) => Match(q, r) && r !in winners);
    FilterSame(q.rules, (r: Rule) => Match(q, r) && r !in winners, (r: Rule) => Match(q, r) && !Decides(q, r));
  }

  // ---- why there is no outcome -----------------------------------------------------------------------------

  ghost predicate ParamsKnown(q: Query) {
    forall i | 0 <= i < |q.params| :: q.params[i].0 in q.variables
  }

  /** The first candidate, in table order, whose condition cannot be evaluated; `f` is its fault. */
  ghost predicate FirstFault(q: Query, f: Fault) {
    exists i :: 0 <= i < |q.rules| && FaultAt(q, i, f)
  }

  ghost predicate FaultAt(q: Query, i: nat, f: Fault)
    requires i < |q.rules|
  {
    && Candidate(q, q.rules[i]) && Condition(q.rules[i].prepared, Values(q)) == Err(f)
    && forall j | 0 <= j < i && Candidate(q, q.rules[j]) :: Condition(q.rules[j].prepared, Values(q)).Ok?
  }

  lemma {:induction false} ScanStopsAt(rules: seq<Rule>, intent: string, mode: Mode, env: Env, i: nat)
    requires i < |rules| && rules[i].intent == intent && rules[i].mode == mode && Condition(rules[i].prepared, env).Err?
    requires forall j | 0 <= j < i && rules[j].intent == intent && rules[j].mode == mode :: Condition(rules[j].prepared, env).Ok?
    ensures Matching(ForIntent(rules, intent, mode), env) == Err(Condition(rules[i].prepared, env).error)
    decreases i
  {
    hide Condition;
    var rest := ForIntent(rules[1..], intent, mode);
    if i == 0 {
      assert ([rules[0]] + rest)[0] == rules[0];
    } else {
      ScanStopsAt(rules[1..], intent, mode, env, i - 1);
      if rules[0].intent == intent && rules[0].mode == mode {
        assert ([rules[0]] + rest)[1..] == rest;
      } else {
        assert [] + rest == rest;
      }
    }
  }

  lemma SomeFirstFault(q: Query)
    requires ParamsKnown(q) && !Faultless(q)
    ensures exists f :: FirstFault(q, f)
  {
    ParamsOverride(q.state, q.variables, q.params);
    var r :| Candidate(q, r) && Condition(r.prepared, Values(q)).Err?;
    var i :| 0 <= i < |q.rules| && q.rules[i] == r;
    EarliestFault(q, i);
  }

  lemma {:induction false} EarliestFault(q: Query, i: nat)
    requires i < |q.rules| && Candidate(q, q.rules[i]) && Condition(q.rules[i].prepared, Values(q)).Err?
    ensures exists f :: FirstFault(q, f)
    decreases i
  {
    hide Condition, Candidate, Values;
    if j :| 0 <= j < i && Candidate(q, q.rules[j]) && Condition(q.rules[j].prepared, Values(q)).Err? {
      EarliestFault(q, j);
    } else {
      assert FaultAt(q, i, Condition(q.rules[i].prepared, Values(q)).error);
      assert FirstFault(q, Condition(q.rules[i].prepared, Values(q)).error);
    }
  }

  lemma FaultDecision(q: Query, f: Fault)
    requires ParamsKnown(q) && FirstFault(q, f)
    ensures Decide(q) == Fail(q, if f.TypeFault? then EngineEvalError else ConditionEvalError, map[])
    ensures !Faultless(q)
  {
    ParamsOverride(q.state, q.variables, q.params);
    var i :| 0 <= i < |q.rules| && FaultAt(q, i, f);
    ScanStopsAt(q.rules, q.intent, q.mode, Values(q), i);
    assert q.rules[i] in ForIntent(q.rules, q.intent, q.mode);
    hide Condition, Matching;
  }

  /** A decision without an outcome names its cause, and each cause has its own condition. */
  lemma CauseOfSilence(q: Query)
    ensures var known, phase := exists r :: r in q.rules && r.intent == q.intent, exists r :: Candidate(q, r);
            var reason, fires := Decide(q).reason, exists r :: Match(q, r);
            && (reason == IntentNotInCatalog <==> !known)
            && (reason == NoRuleForPhase <==> known && !phase)
            && (reason == UnknownRequestParam <==> phase && !ParamsKnown(q))
            && (reason == EngineEvalError <==> phase && ParamsKnown(q) && FirstFault(q, TypeFault))
            && (reason == ConditionEvalError <==> phase && ParamsKnown(q) && exists f: Fault :: !f.TypeFault? && FirstFault(q, f))
            && (reason == NoMatchingPolicy <==> phase && Faultless(q) && !fires && q.mode.Gate?)
            && (reason == NoMonitorTrigger <==> phase && Faultless(q) && !fires && q.mode.Monitor?)
            && (reason == PolicyAmbiguity <==>
                  Faultless(q) && fires && forall o :: !Unanimous(q, o) && !ExclusionWins(q, o))
            && (reason.Policy? <==> Decide(q).outcome.Some?)
  {
    ParamsOverride(q.state, q.variables, q.params);
    if Faultless(q) && exists r :: Candidate(q, r) {
      FaultlessCause(q);
    } else {
      FaultyCause(q);
    }
  }

  lemma FaultlessCause(q: Query)
    requires Faultless(q) && (exists r :: Candidate(q, r))
    ensures ParamsKnown(q) && forall f :: !FirstFault(q, f)
    ensures Decide(q).reason in {NoMatchingPolicy, NoMonitorTrigger, PolicyAmbiguity} || Decide(q).reason.Policy?
    ensures Decide(q).reason == NoMatchingPolicy <==> q.mode.Gate? && !exists r :: Match(q, r)
    ensures Decide(q).reason == NoMonitorTrigger <==> q.mode.Monitor? && !exists r :: Match(q, r)
    ensures Decide(q).reason.Policy? <==> Decide(q).outcome.Some?
    ensures Decide(q).reason == PolicyAmbiguity <==>
              (exists r :: Match(q, r)) && forall o :: !Unanimous(q, o) && !ExclusionWins(q, o)
  {
    ParamsOverride(q.state, q.variables, q.params);
    forall f ensures !FirstFault(q, f) { if FirstFault(q, f) { FaultDecision(q, f); } }
    Matched(q);
    var rules := ForIntent(q.rules, q.intent, q.mode);
    var matches := Matching(rules, Values(q)).value;
    hide Match, Matching, Faultless, FirstFault, ParamsKnown, Unanimous, ExclusionWins, Relevant, Decide, Resolve;
    if matches != [] { assert Match(q, matches[0]); }
    ResolveCause(q, rules, matches, Values(q));
    if Decide(q).outcome.Some? { ExclusionResolves(q, Decide(q).outcome.value); }
    forall o ensures Decide(q).outcome == Some(o) <==> matches != [] && (Unanimous(q, o) || ExclusionWins(q, o)) {
      ExclusionResolves(q, o);
    }
  }

  lemma ResolveCause(q: Query, rules: seq<Rule>, matches: seq<Rule>, env: Env)
    ensures var d := Resolve(q, rules, matches, env);
            && (d.reason == NoMatchingPolicy <==> matches == [] && q.mode.Gate?)
            && (d.reason == NoMonitorTrigger <==> matches == [] && q.mode.Monitor?)
            && (d.reason == PolicyAmbiguity <==> matches != [] && d.outcome == None)
            && (d.reason.Policy? <==> d.outcome.Some?)
  {
    hide Relevant, Winners, OneOutcome, Top, Ids, Without;
  }

  lemma FaultyCause(q: Query)
    requires !(Faultless(q) && exists r :: Candidate(q, r))
    ensures var known, phase := exists r :: r in q.rules && r.intent == q.intent, exists r :: Candidate(q, r);
            var reason := Decide(q).reason;
            && (reason == IntentNotInCatalog <==> !known)
            && (reason == NoRuleForPhase <==> known && !phase)
            && (reason == UnknownRequestParam <==> phase && !ParamsKnown(q))
            && (reason == EngineEvalError <==> phase && ParamsKnown(q) && FirstFault(q, TypeFault))
            && (reason == ConditionEvalError <==> phase && ParamsKnown(q) && exists f: Fault :: !f.TypeFault? && FirstFault(q, f))
            && reason !in {NoMatchingPolicy, NoMonitorTrigger, PolicyAmbiguity} && !reason.Policy?
            && Decide(q).outcome == None
            && !(Faultless(q) && exists r :: Match(q, r))
  {
    ParamsOverride(q.state, q.variables, q.params);
    Faulted(q);
    var rules := ForIntent(q.rules, q.intent, q.mode);
    if rules != [] {
      assert Candidate(q, rules[0]);
      if ParamsKnown(q) {
        SomeFirstFault(q);
        var f :| FirstFault(q, f);
        FaultDecision(q, f);
        forall g | FirstFault(q, g) ensures (g.TypeFault? <==> f.TypeFault?) { FaultDecision(q, g); }
      }
    }
    hide Condition, Matching, FirstFault, Relevant;
  }

  /** Without an outcome no rule is named, and the recorded values are those of the rules the verdict rests on. */
  lemma SilenceRecords(q: Query)
    requires Decide(q).outcome == None
    ensures var d := Decide(q);
            && d.intent == q.intent && d.mode == q.mode && d.ruleId == None && d.matched == []
            && d.relevant ==
               if d.reason in {NoMatchingPolicy, NoMonitorTrigger}
               then Relevant(Filter(q.rules, (r: Rule) => Candidate(q, r)), Values(q))
               else if d.reason == PolicyAmbiguity then Relevant(Filter(q.rules, (r: Rule) => Match(q, r)), Values(q))
               else map[]
  {
    hide Fires, Condition;
    if Faultless(q) && exists r :: Candidate(q, r) {
      Matched(q);
      MatchesFiltered(q);
      CandidatesFiltered(q.rules, q.intent, q.mode);
      var rules := ForIntent(q.rules, q.intent, q.mode);
      FilterSame(q.rules, (r: Rule) => r.intent == q.intent && r.mode == q.mode, (r: Rule) => Candidate(q, r));
      hide Resolve, Decide, Match, Matching, ForIntent, Candidate, Faultless, Values, Relevant;
      SilentResolve(q, rules, Matching(rules, Values(q)).value, Values(q));
    } else {
      FaultedRecords(q);
    }
  }

  lemma FaultedRecords(q: Query)
    requires !Faultless(q) || !exists r :: Candidate(q, r)
    ensures Decide(q) == Fail(q, Decide(q).reason, map[])
    ensures Decide(q).reason !in {NoMatchingPolicy, NoMonitorTrigger, PolicyAmbiguity}
  {
    var rules := ForIntent(q.rules, q.intent, q.mode);
    if rules != [] { assert Candidate(q, rules[0]); }
    hide Condition, Resolve;
  }

  lemma SilentResolve(q: Query, rules: seq<Rule>, matches: seq<Rule>, env: Env)
    requires Resolve(q, rules, matches, env).outcome == None
    ensures var d := Resolve(q, rules, matches, env);
            && d.intent == q.intent && d.mode == q.mode && d.ruleId == None && d.matched == []
            && (matches == [] ==> d.reason in {NoMatchingPolicy, NoMonitorTrigger} && d.relevant == Relevant(rules, env))
            && (matches != [] ==> d.reason == PolicyAmbiguity && d.relevant == Relevant(matches, env))
  {
    hide Relevant, Winners, OneOutcome, Top, Ids, Without;
  }

  // ---- the order of the rules is immaterial ----------------------------------------------------------------

  lemma SameMembers(a: Query, b: Query)
    requires b == a.(rules := b.rules) && forall r :: r in a.rules <==> r in b.rules
    ensures forall r :: (Candidate(a, r) <==> Candidate(b, r)) && (Match(a, r) <==> Match(b, r))
    ensures Values(a) == Values(b) && (Faultless(a) <==> Faultless(b))
  {
    forall r ensures (Candidate(a, r) <==> Candidate(b, r)) && (Match(a, r) <==> Match(b, r)) {}
  }

  lemma SameVerdict(a: Query, b: Query, o: Outcome)
    requires forall r :: Match(a, r) <==> Match(b, r)
    ensures Unanimous(a, o) <==> Unanimous(b, o)
    ensures PriorityWins(a, o) <==> PriorityWins(b, o)
  {
    hide Match;
  }

  /** Permuting (even repeating) rules changes neither the outcome nor the fail-closed status. */
  lemma OrderIrrelevant(a: Query, b: Query)
    requires b == a.(rules := b.rules) && forall r :: r in a.rules <==> r in b.rules
    ensures Decide(a).outcome == Decide(b).outcome
    ensures Decide(a).failClosed == Decide(b).failClosed
  {
    SameMembers(a, b);
    hide Decide, Match, Candidate, Faultless, Values, Unanimous, PriorityWins;
    forall o ensures Decide(a).outcome == Some(o) <==> Decide(b).outcome == Some(o) {
      SameVerdict(a, b, o);
      Resolution(a, o);
      Resolution(b, o);
    }
    if Decide(a).outcome.Some? { var o := Decide(a).outcome.value; assert Decide(b).outcome == Some(o); }
    if Decide(b).outcome.Some? { var o := Decide(b).outcome.value; assert Decide(a).outcome == Some(o); }
    FailClosed(a);
    FailClosed(b);
  }

  // ---- a decision's recorded state explains it ---------------------------------------------------------------

  lemma Recorded(rules: seq<Rule>, env: Env, r: Rule)
    requires r in rules
    ensures Condition(r.prepared, Relevant(rules, env)) == Condition(r.prepared, env)
  {
    EvalLocal(r.prepared, env, RuleVars(rules));
  }

  lemma {:induction false} IdsOf(rules: seq<Rule>)
    ensures forall id :: id in Ids(rules) <==> exists r :: r in rules && r.id == id
  {
    if rules != [] {
      IdsOf(rules[1..]);
      assert rules == [rules[0]] + rules[1..];
    }
  }

  /** The rule an id of the decision stands for: a candidate that fires on the recorded state alone. */
  ghost predicate Explained(q: Query, d: Decision, id: string) {
    exists r :: Candidate(q, r) && r.id == id && Fires(r, d.relevant) && Some(r.outcome) == d.outcome
  }

  lemma ChosenExplained(q: Query, d: Decision, matches: seq<Rule>, suppressed: seq<string>, env: Env, id: string)
    requires matches != [] && OneOutcome(matches) && d == Chosen(q, matches, suppressed, env)
    requires forall r | r in matches :: Candidate(q, r) && Fires(r, env)
    requires id in d.matched
    ensures Explained(q, d, id)
  {
    IdsOf(matches);
    var r :| r in matches && r.id == id;
    Recorded(matches, env, r);
  }

  /** Each matched rule fires again on `relevant_state` alone, and says what was decided. */
  lemma DecisionEvidence(q: Query, id: string)
    requires Decide(q).outcome.Some?
    ensures Decide(q).ruleId.Some? && Decide(q).ruleId.value in Decide(q).matched
    ensures id in Decide(q).matched ==> Explained(q, Decide(q), id)
  {
    var d := Decide(q);
    Resolution(q, d.outcome.value);
    var r :| Match(q, r);
    Matched(q);
    var rules := ForIntent(q.rules, q.intent, q.mode);
    var env := Values(q);
    var matches := Matching(rules, env).value;
    var one := OneOutcome(matches);
    var chosen := if one then matches else Winners(matches, Top(matches));
    var suppressed := if one then [] else Ids(Without(matches, chosen));
    if !one {
      var w :| w in matches && Priority(w.id) == Top(matches);
      assert w in chosen;
    }
    assert chosen != [] && OneOutcome(chosen) && d == Chosen(q, chosen, suppressed, env);
    if id in d.matched { ChosenExplained(q, d, chosen, suppressed, env, id); }
  }

  /** When nothing fires, nothing fires on the recorded state alone either. */
  lemma SilenceEvidence(q: Query, r: Rule)
    requires Decide(q).reason == NoMatchingPolicy || Decide(q).reason == NoMonitorTrigger
    requires Candidate(q, r)
    ensures Sleeps(r, Decide(q).relevant)
  {
    if !Faultless(q) { Faulted(q); }
    assert r in ForIntent(q.rules, q.intent, q.mode);
    Matched(q);
    hide Decide, Resolve, Relevant, Matching, Faultless, Values, Candidate;
    var rules := ForIntent(q.rules, q.intent, q.mode);
    var matches := Matching(rules, Values(q)).value;
    ResolveReason(q, rules, matches, Values(q));
    Recorded(rules, Values(q), r);
    assert !Match(q, r);
    SleepsOrFires(q, r);
  }

  lemma SleepsOrFires(q: Query, r: Rule)
    requires Faultless(q) && Candidate(q, r) && !Match(q, r)
    ensures Sleeps(r, Values(q))
  {}
}
