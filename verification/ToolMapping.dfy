/**
 Tool-call to intent mapping on both sides of the wire: the agent's mapper
 (agent/src/vehicle_agent/tools/mapping/mapper.py) and the guardrail's copy (guardrail/service/tool_map.py).
 */
module ToolMapping {
  import opened Wrappers
  import opened Wire
  import T = ToolRegistry

  /** `(tool, action, target, value)`; a missing value is Null. */
  datatype Key = Key(tool: Json, action: Json, target: Json, value: Json)

  datatype Rule = MappingRule(key: Key, intent: string)

  /** The intent manifest: each intent's domain tool. */
  type Manifest = map<string, string>

  datatype Defect =
    | EMPTY_MAPPING | DUPLICATE_MAPPING | AMBIGUOUS_MAPPING | UNKNOWN_MAPPING_INTENT | MAPPING_DOMAIN_MISMATCH
    | INVALID_MAPPING_CALL | INCOMPLETE_MAPPING_CALL | INCOMPLETE_MAPPING_COVERAGE

  type Registry = seq<T.ToolDefinition>

  function ByName(registry: Registry, name: Json): Option<T.ToolDefinition> {
    if registry == [] then None
    else if name == Str(registry[0].name) then Some(registry[0]) else ByName(registry[1..], name)
  }

  function ValidateCall(registry: Registry, name: Json, args: Fields): T.CallResult {
    match ByName(registry, name)
    case None => T.Invalid(T.UNKNOWN_TOOL)
    case Some(tool) => T.ValidateCall(tool, args)
  }

  // ---- the coverage report ---------------------------------------------------------------------------------

  datatype Report = Report(missing: set<string>, duplicates: set<Key>, ambiguous: set<Key>)

  predicate Complete(r: Report) {
    r.missing == {} && r.duplicates == {} && r.ambiguous == {}
  }

  function Keys(rules: seq<Rule>): set<Key> {
    set r | r in rules :: r.key
  }

  function Intents(rules: seq<Rule>): set<string> {
    set r | r in rules :: r.intent
  }

  /** Two rows share the key. */
  ghost predicate Repeated(rules: seq<Rule>, k: Key) {
    exists i, j :: 0 <= i < j < |rules| && rules[i].key == k && rules[j].key == k
  }

  /** Two rows share the key and disagree. */
  ghost predicate Conflicting(rules: seq<Rule>, k: Key) {
    exists r, s :: r in rules && s in rules && r.key == k && s.key == k && r.intent != s.intent
  }

  function IntentsOf(rules: seq<Rule>, k: Key): (r: seq<string>)
    ensures forall x :: x in r <==> exists q :: q in rules && q.key == k && q.intent == x
  {
    if rules == [] then [] else
    var rest := IntentsOf(rules[..|rules| - 1], k);
    var last := rules[|rules| - 1];
    assert rules == rules[..|rules| - 1] + [last];
    if last.key == k then rest + [last.intent] else rest
  }

  lemma {:induction false} IntentsOfMany(rules: seq<Rule>, k: Key)
    ensures |IntentsOf(rules, k)| > 1 <==> Repeated(rules, k)
    ensures |IntentsOf(rules, k)| > 0 <==> k in Keys(rules)
  {
    if rules != [] {
      var front, n := rules[..|rules| - 1], |rules| - 1;
      IntentsOfMany(front, k);
      assert rules == front + [rules[n]];
      if Repeated(front, k) {
        var i, j :| 0 <= i < j < |front| && front[i].key == k && front[j].key == k;
        assert rules[i].key == k && rules[j].key == k;
      }
      if rules[n].key == k && k in Keys(front) {
        var i :| 0 <= i < n && rules[i].key == k;
        assert Repeated(rules, k);
      }
      if Repeated(rules, k) && !Repeated(front, k) {
        var i, j :| 0 <= i < j < |rules| && rules[i].key == k && rules[j].key == k;
        assert j == n && front[i].key == k;
      }
    }
  }

  /** The grouping the report is read from. */
  ghost predicate Grouped(rules: seq<Rule>, byKey: map<Key, seq<string>>) {
    byKey.Keys == Keys(rules) && forall k | k in byKey :: byKey[k] == IntentsOf(rules, k)
  }

  lemma GroupStep(prefix: seq<Rule>, rule: Rule, byKey: map<Key, seq<string>>)
    requires Grouped(prefix, byKey)
    ensures Grouped(prefix + [rule], byKey[rule.key := (if rule.key in byKey then byKey[rule.key] else []) + [rule.intent]])
  {
    assert (prefix + [rule])[..|prefix|] == prefix;
    assert forall r :: r in prefix + [rule] <==> r in prefix || r == rule;
    IntentsOfMany(prefix, rule.key);
    hide Repeated;
  }

  /** `build_coverage_report`: what the grouping by key finds, said without it. */
  method BuildCoverageReport(rules: seq<Rule>, manifest: Manifest) returns (r: Report)
    ensures forall k :: k in r.ambiguous <==> Conflicting(rules, k)
    ensures forall k :: k in r.duplicates <==> Repeated(rules, k) && !Conflicting(rules, k)
    ensures r.missing == manifest.Keys - Intents(rules)
  {
    hide Grouped, Repeated, Conflicting, IntentsOf;
    var byKey: map<Key, seq<string>> := map[];
    assert Grouped(rules[..0], byKey) by { NothingGrouped(rules); }
    for i := 0 to |rules|
      invariant Grouped(rules[..i], byKey)
    {
      var rule := rules[i];
      assert rules[..i + 1] == rules[..i] + [rule];
      GroupStep(rules[..i], rule, byKey);
      byKey := byKey[rule.key := (if rule.key in byKey then byKey[rule.key] else []) + [rule.intent]];
    }
    assert rules[..|rules|] == rules;
    var duplicates := set k | k in byKey && |byKey[k]| > 1 && forall x, y | x in byKey[k] && y in byKey[k] :: x == y;
    var ambiguous := set k | k in byKey && exists x, y :: x in byKey[k] && y in byKey[k] && x != y;
    forall k
      ensures k in ambiguous <==> Conflicting(rules, k)
      ensures k in duplicates <==> Repeated(rules, k) && !Conflicting(rules, k)
    {
      GroupedAt(rules, byKey, k);
      ReportKey(rules, k, byKey);
    }
    r := Report(manifest.Keys - Intents(rules), duplicates, ambiguous);
  }

  lemma NothingGrouped(rules: seq<Rule>)
    ensures Grouped(rules[..0], map[])
  {}

  lemma GroupedAt(rules: seq<Rule>, byKey: map<Key, seq<string>>, k: Key)
    requires Grouped(rules, byKey)
    ensures byKey.Keys == Keys(rules) && (k in byKey ==> byKey[k] == IntentsOf(rules, k))
  {}

  lemma ReportKey(rules: seq<Rule>, k: Key, byKey: map<Key, seq<string>>)
    requires byKey.Keys == Keys(rules) && (k in byKey ==> byKey[k] == IntentsOf(rules, k))
    ensures k in byKey && (exists x, y :: x in byKey[k] && y in byKey[k] && x != y) <==> Conflicting(rules, k)
    ensures k in byKey && |byKey[k]| > 1 <==> Repeated(rules, k)
  {
    IntentsOfMany(rules, k);
    if Conflicting(rules, k) {
      var r, s :| r in rules && s in rules && r.key == k && s.key == k && r.intent != s.intent;
      assert r.intent in IntentsOf(rules, k) && s.intent in IntentsOf(rules, k);
    }
  }

  // ---- startup validation ------------------------------------------------------------------------------------

  function RuleArguments(k: Key): Fields {
    var args: Fields := map[Action := k.action, Target := k.target];
    if k.value == Null then args else args[Value := k.value]
  }

  /** Why a row by itself is refused. */
  function RowDefect(registry: Registry, manifest: Manifest, rule: Rule): Option<Defect> {
    if rule.intent !in manifest then Some(UNKNOWN_MAPPING_INTENT)
    else if Str(manifest[rule.intent]) != rule.key.tool then Some(MAPPING_DOMAIN_MISMATCH)
    else
      var call := ValidateCall(registry, rule.key.tool, RuleArguments(rule.key));
      if call.Invalid? then Some(INVALID_MAPPING_CALL)
      else if call.Clarification? then Some(INCOMPLETE_MAPPING_CALL) else None
  }

  /** `by_name`: the first tool of that name. */
  lemma {:induction false} ByNameFinds(registry: Registry, name: Json)
    ensures ByName(registry, name).None? <==> forall i | 0 <= i < |registry| :: name != Str(registry[i].name)
    ensures forall i | 0 <= i < |registry| && name == Str(registry[i].name) ::
              (forall j | 0 <= j < i :: name != Str(registry[j].name)) ==> ByName(registry, name) == Some(registry[i])
  {
    if registry != [] {
      ByNameFinds(registry[1..], name);
      assert forall i | 0 < i < |registry| :: registry[i] == registry[1..][i - 1];
      assert forall i | 0 <= i < |registry| - 1 :: registry[1..][i] == registry[i + 1];
    }
  }

  /** The call a row stands for: its own action and target, and its value if it has one. */
  ghost predicate CallOfRow(k: Key, args: Fields) {
    && (forall f :: f in args <==> f == Action || f == Target || (f == Value && k.value != Null))
    && args[Action] == k.action && args[Target] == k.target && (k.value != Null ==> args[Value] == k.value)
  }

  /**
   A row by itself is in order exactly when its intent is in the manifest under the row's own tool and the call it stands
   for is one that tool validates; the four codes say what is wrong first.
   */
  lemma RowInOrder(registry: Registry, manifest: Manifest, rule: Rule, args: Fields)
    requires CallOfRow(rule.key, args)
    ensures var d, call := RowDefect(registry, manifest, rule), ValidateCall(registry, rule.key.tool, args);
            var domain := rule.intent in manifest && rule.key.tool == Str(manifest[rule.intent]);
            && (d == Some(UNKNOWN_MAPPING_INTENT) <==> rule.intent !in manifest)
            && (d == Some(MAPPING_DOMAIN_MISMATCH) <==> rule.intent in manifest && rule.key.tool != Str(manifest[rule.intent]))
            && (d == Some(INVALID_MAPPING_CALL) <==> domain && call.Invalid?)
            && (d == Some(INCOMPLETE_MAPPING_CALL) <==> domain && call.Clarification?)
            && (d == None <==> domain && call.Validated?)
  {
    assert RuleArguments(rule.key) == args;
    hide ValidateCall;
  }

  ghost predicate NoRepeats(rules: seq<Rule>) {
    forall k :: !Repeated(rules, k)
  }

  ghost predicate Clean(registry: Registry, manifest: Manifest, rules: seq<Rule>) {
    && NoRepeats(rules)
    && forall r | r in rules :: RowDefect(registry, manifest, r) == None
  }

  /** The defect the row after a clean prefix is refused with. */
  ghost predicate NextDefect(registry: Registry, manifest: Manifest, prefix: seq<Rule>, rule: Rule, d: Defect) {
    if q :| q in prefix && q.key == rule.key
    then d == if q.intent == rule.intent then DUPLICATE_MAPPING else AMBIGUOUS_MAPPING
    else RowDefect(registry, manifest, rule) == Some(d)
  }

  lemma RepeatedGrows(prefix: seq<Rule>, rule: Rule, k: Key)
    ensures Repeated(prefix + [rule], k) <==> Repeated(prefix, k) || (rule.key == k && k in Keys(prefix))
  {
    assert (prefix + [rule])[..|prefix|] == prefix;
    IntentsOfMany(prefix, k);
    IntentsOfMany(prefix + [rule], k);
    hide Repeated;
  }

  lemma CleanGrows(registry: Registry, manifest: Manifest, prefix: seq<Rule>, rule: Rule)
    requires Clean(registry, manifest, prefix)
    ensures Clean(registry, manifest, prefix + [rule]) <==>
            rule.key !in Keys(prefix) && RowDefect(registry, manifest, rule) == None
  {
    forall k ensures Repeated(prefix + [rule], k) <==> Repeated(prefix, k) || (rule.key == k && k in Keys(prefix)) {
      RepeatedGrows(prefix, rule, k);
    }
    hide Repeated, RowDefect;
    assert rule in prefix + [rule] && forall r | r in prefix :: r in prefix + [rule];
  }

  lemma RepeatedPrefix(rules: seq<Rule>, i: nat, k: Key)
    requires i <= |rules| && Repeated(rules[..i], k)
    ensures Repeated(rules, k)
  {
    var a, b :| 0 <= a < b < i && rules[..i][a].key == k && rules[..i][b].key == k;
    assert rules[a].key == k && rules[b].key == k;
  }

  lemma RepeatedPrefixes(rules: seq<Rule>, i: nat)
    requires i <= |rules|
    ensures forall k :: Repeated(rules[..i], k) ==> Repeated(rules, k)
  {
    forall k | Repeated(rules[..i], k) ensures Repeated(rules, k) { RepeatedPrefix(rules, i, k); }
  }

  lemma CleanPrefix(registry: Registry, manifest: Manifest, rules: seq<Rule>, i: nat)
    requires Clean(registry, manifest, rules) && i <= |rules|
    ensures Clean(registry, manifest, rules[..i])
  {
    RepeatedPrefixes(rules, i);
    hide Repeated;
  }

  lemma NothingIsClean(registry: Registry, manifest: Manifest, rules: seq<Rule>)
    ensures Clean(registry, manifest, rules[..0]) && Keys(rules[..0]) == {}
  {}

  lemma FirstWithKey(rules: seq<Rule>, k: Key)
    requires k in Keys(rules)
    ensures exists q :: q in rules && q.key == k
  {}

  /** What one more row does to a clean prefix. */
  lemma PrefixStep(registry: Registry, manifest: Manifest, rules: seq<Rule>, i: nat)
    requires i < |rules| && Clean(registry, manifest, rules[..i])
    ensures rules[..i + 1] == rules[..i] + [rules[i]]
    ensures Keys(rules[..i + 1]) == Keys(rules[..i]) + {rules[i].key}
    ensures Clean(registry, manifest, rules[..i + 1]) <==>
            rules[i].key !in Keys(rules[..i]) && RowDefect(registry, manifest, rules[i]) == None
    ensures Clean(registry, manifest, rules) ==> Clean(registry, manifest, rules[..i + 1])
  {
    assert rules[..i + 1] == rules[..i] + [rules[i]];
    hide RowDefect, Repeated;
    CleanGrows(registry, manifest, rules[..i], rules[i]);
    if Clean(registry, manifest, rules) { CleanPrefix(registry, manifest, rules, i + 1); }
  }

  /** `ToolMapper._validate_rules`: accepted exactly when rows are clean and every manifest intent is reached. */
  method ValidateRules(registry: Registry, manifest: Manifest, rules: seq<Rule>) returns (r: Result<map<Key, Rule>, Defect>)
    ensures r.Ok? <==> rules != [] && Clean(registry, manifest, rules) && manifest.Keys <= Intents(rules)
    ensures r.Ok? ==> r.value.Keys == Keys(rules) && forall q | q in rules :: r.value[q.key] == q
    ensures r == Err(EMPTY_MAPPING) <==> rules == []
    ensures r == Err(INCOMPLETE_MAPPING_COVERAGE) <==>
            rules != [] && Clean(registry, manifest, rules) && !(manifest.Keys <= Intents(rules))
    ensures r.Err? && !r.error.EMPTY_MAPPING? && !r.error.INCOMPLETE_MAPPING_COVERAGE? ==>
              exists i :: 0 <= i < |rules| && Clean(registry, manifest, rules[..i])
                          && NextDefect(registry, manifest, rules[..i], rules[i], r.error)
  {
    hide Clean, RowDefect, Intents;
    if rules == [] { return Err(EMPTY_MAPPING); }
    var validated: map<Key, Rule> := map[];
    NothingIsClean(registry, manifest, rules);
    for i := 0 to |rules|
      invariant Clean(registry, manifest, rules[..i])
      invariant validated.Keys == Keys(rules[..i]) && forall q | q in rules[..i] :: validated[q.key] == q
    {
      hide Clean, RowDefect, Keys, Intents;
      var rule := rules[i];
      PrefixStep(registry, manifest, rules, i);
      if rule.key in validated {
        FirstWithKey(rules[..i], rule.key);
        return Err(if validated[rule.key].intent == rule.intent then DUPLICATE_MAPPING else AMBIGUOUS_MAPPING);
      }
      var defect := RowDefect(registry, manifest, rule);
      if defect.Some? {
        DefectKinds(registry, manifest, rule);
        return Err(defect.value);
      }
      validated := validated[rule.key := rule];
    }
    assert rules[..|rules|] == rules;
    if !(manifest.Keys <= Intents(rules)) { return Err(INCOMPLETE_MAPPING_COVERAGE); }
    return Ok(validated);
  }

  lemma DefectKinds(registry: Registry, manifest: Manifest, rule: Rule)
    ensures RowDefect(registry, manifest, rule) != Some(EMPTY_MAPPING)
    ensures RowDefect(registry, manifest, rule) != Some(INCOMPLETE_MAPPING_COVERAGE)
  {}

  /** The gate and the report agree: on admissible rows, accepted means exactly a complete report. */
  lemma GateMatchesReport(registry: Registry, manifest: Manifest, rules: seq<Rule>, report: Report)
    requires forall k :: k in report.ambiguous <==> Conflicting(rules, k)
    requires forall k :: k in report.duplicates <==> Repeated(rules, k) && !Conflicting(rules, k)
    requires report.missing == manifest.Keys - Intents(rules)
    requires forall r | r in rules :: RowDefect(registry, manifest, r) == None
    ensures Complete(report) <==> Clean(registry, manifest, rules) && manifest.Keys <= Intents(rules)
  {
    forall k | Conflicting(rules, k) ensures Repeated(rules, k) {
      var r, s :| r in rules && s in rules && r.key == k && s.key == k && r.intent != s.intent;
      var i :| 0 <= i < |rules| && rules[i] == r;
      var j :| 0 <= j < |rules| && rules[j] == s;
      assert rules[i].key == k && rules[j].key == k;
    }
    hide Repeated, Conflicting, RowDefect;
    if report.missing == {} {
      forall x | x in manifest.Keys ensures x in Intents(rules) { assert x !in report.missing; }
    }
    assert (forall k :: !Repeated(rules, k)) <==> report.ambiguous == {} && report.duplicates == {};
  }

  // ---- the agent's map_proposal --------------------------------------------------------------------------------

  datatype Mapped = Mapped(intent: string, arguments: Fields, digest: Json)

  datatype MapFault = INVALID_PROPOSAL | INVALID_TOOL_CALL | INCOMPLETE_TOOL_CALL | UNSUPPORTED_TOOL_MAPPING

  function KeyOf(tool: Json, args: Fields): Key {
    Key(tool, Get(args, Action), Get(args, Target), Get(args, Value))
  }

  /** The exact row, else the `*` row when a value was given. */
  function Lookup(table: map<Key, Rule>, k: Key): Option<Rule> {
    var wild := k.(value := Str("*"));
    if k in table then Some(table[k])
    else if k.value != Null && wild in table then Some(table[wild]) else None
  }

  function MapProposal(registry: Registry, table: map<Key, Rule>, p: Fields): Result<Mapped, MapFault> {
    if !ValidProposal(p) then Err(INVALID_PROPOSAL) else
    match ValidateCall(registry, p[Tool], p[Arguments].fields)
    case Invalid(_) => Err(INVALID_TOOL_CALL)
    case Clarification(_) => Err(INCOMPLETE_TOOL_CALL)
    case Validated(args) =>
      match Lookup(table, KeyOf(p[Tool], args))
      case None => Err(UNSUPPORTED_TOOL_MAPPING)
      case Some(rule) => Ok(Mapped(rule.intent, args, CanonicalDigest(p, args)))
  }

  /** The digest of the proposal with its arguments replaced by the normalized ones. */
  function CanonicalDigest(p: Fields, args: Fields): Json
    requires ValidProposal(p)
  {
    Digest(p[Arguments := Obj(args)])
  }

  // ---- the guardrail's resolve -------------------------------------------------------------------------------------

  datatype ResolveFault = INVALID_TOOL | INCOMPLETE_CALL | BAD_VALUE | UNSUPPORTED_MAPPING

  lemma NoRepeatsGrow(prefix: seq<Rule>, rule: Rule)
    requires NoRepeats(prefix)
    ensures NoRepeats(prefix + [rule]) <==> rule.key !in Keys(prefix)
    ensures Keys(prefix + [rule]) == Keys(prefix) + {rule.key}
  {
    forall k ensures Repeated(prefix + [rule], k) <==> rule.key == k && k in Keys(prefix) {
      RepeatedGrows(prefix, rule, k);
    }
    hide Repeated;
    assert forall r :: r in prefix + [rule] <==> r in prefix || r == rule;
  }

  lemma NoRepeatsStep(rules: seq<Rule>, i: nat)
    requires i < |rules| && NoRepeats(rules[..i])
    ensures rules[..i + 1] == rules[..i] + [rules[i]] && Keys(rules[..i + 1]) == Keys(rules[..i]) + {rules[i].key}
    ensures NoRepeats(rules[..i + 1]) <==> rules[i].key !in Keys(rules[..i])
    ensures NoRepeats(rules) ==> NoRepeats(rules[..i + 1])
  {
    assert rules[..i + 1] == rules[..i] + [rules[i]];
    NoRepeatsGrow(rules[..i], rules[i]);
    RepeatedPrefixes(rules, i + 1);
    hide Repeated, Keys;
  }

  /** `_index`: raises on a repeated key. */
  method Index(rules: seq<Rule>) returns (r: Option<map<Key, string>>)
    ensures r.Some? <==> NoRepeats(rules)
    ensures r.Some? ==> r.value.Keys == Keys(rules) && forall q | q in rules :: r.value[q.key] == q.intent
  {
    var table: map<Key, string> := map[];
    for i := 0 to |rules|
      invariant NoRepeats(rules[..i])
      invariant table.Keys == Keys(rules[..i]) && forall q | q in rules[..i] :: table[q.key] == q.intent
    {
      hide NoRepeats;
      NoRepeatsStep(rules, i);
      if rules[i].key in table { return None; }
      table := table[rules[i].key := rules[i].intent];
    }
    assert rules[..|rules|] == rules;
    return Some(table);
  }

  function Resolve(table: map<Key, string>, tool: Json, args: Fields): Result<string, ResolveFault> {
    if !T.NonEmptyString(tool) then Err(INVALID_TOOL)
    else if !T.NonEmptyString(Get(args, Action)) || !T.NonEmptyString(Get(args, Target)) then Err(INCOMPLETE_CALL)
    else if Get(args, Value) != Null && !IsString(args[Value]) then Err(BAD_VALUE)
    else if KeyOf(tool, args) !in table then Err(UNSUPPORTED_MAPPING)
    else Ok(table[KeyOf(tool, args)])
  }

  // ---- which row is used ------------------------------------------------------------------------------------------------

  /** The row of exactly this tool, action, target and value, else the tool's `*` row for a call that has a value. */
  ghost predicate UsesRow(table: map<Key, Rule>, tool: Json, args: Fields, rule: Rule) {
    var exact := Key(tool, Get(args, Action), Get(args, Target), Get(args, Value));
    var wild := Key(tool, Get(args, Action), Get(args, Target), Str("*"));
    if exact in table then rule == table[exact]
    else Get(args, Value) != Null && wild in table && rule == table[wild]
  }

  /** The agent maps a proposal exactly when it is valid, its call validates and a row is there; the row gives the intent. */
  lemma MapVerdict(registry: Registry, table: map<Key, Rule>, p: Fields)
    ensures var r := MapProposal(registry, table, p);
            if !ValidProposal(p) then r == Err(INVALID_PROPOSAL)
            else
              var call := ValidateCall(registry, p[Tool], p[Arguments].fields);
              && (r == Err(INVALID_TOOL_CALL) <==> call.Invalid?)
              && (r == Err(INCOMPLETE_TOOL_CALL) <==> call.Clarification?)
              && (r == Err(UNSUPPORTED_TOOL_MAPPING) <==>
                    call.Validated? && !exists rule :: UsesRow(table, p[Tool], p[Arguments].fields, rule))
              && (r.Ok? <==> call.Validated? && exists rule :: UsesRow(table, p[Tool], p[Arguments].fields, rule))
              && (r.Ok? ==> exists rule :: UsesRow(table, p[Tool], p[Arguments].fields, rule) && r.value.intent == rule.intent)
  {
    if ValidProposal(p) && ValidateCall(registry, p[Tool], p[Arguments].fields).Validated? {
      var args := p[Arguments].fields;
      assert ValidateCall(registry, p[Tool], args).arguments == args by {
        T.ValidatedIsSame(ByName(registry, p[Tool]).value, args);
      }
      var row := Lookup(table, KeyOf(p[Tool], args));
      assert row.Some? ==> UsesRow(table, p[Tool], args, row.value);
    }
    hide ValidProposal, T.ValidateCall, ByName, Digest;
  }

  /** The guardrail resolves exactly the calls of strings that have a row of their own. */
  lemma ResolveVerdict(table: map<Key, string>, tool: Json, args: Fields)
    ensures var r, k := Resolve(table, tool, args), Key(tool, Get(args, Action), Get(args, Target), Get(args, Value));
            if !IsString(tool) || tool == Str("") then r == Err(INVALID_TOOL)
            else if exists f :: f in {Action, Target} && (!IsString(Get(args, f)) || Get(args, f) == Str(""))
            then r == Err(INCOMPLETE_CALL)
            else if !(Get(args, Value).Null? || IsString(Get(args, Value))) then r == Err(BAD_VALUE)
            else r == if k in table then Ok(table[k]) else Err(UNSUPPORTED_MAPPING)
  {
    assert Action in {Action, Target} && Target in {Action, Target};
    hide IsString;
  }

  // ---- agreement ------------------------------------------------------------------------------------------------------

  const CAPABILITY := Str("control_vehicle_capability")

  /** The guardrail's table is the agent's, without the capability rows. */
  ghost predicate SameRows(agent: map<Key, Rule>, guardrail: map<Key, string>) {
    forall k: Key | k.tool != CAPABILITY ::
      (k in agent <==> k in guardrail) && (k in agent ==> agent[k].intent == guardrail[k])
  }

  ghost predicate NoWildcardRows(agent: map<Key, Rule>) {
    forall k: Key | k in agent && k.tool != CAPABILITY :: k.value != Str("*")
  }

  /** Normalizing accepted arguments changes nothing, so the canonical digest is the raw proposal's. */
  lemma CanonicalIsRaw(registry: Registry, table: map<Key, Rule>, p: Fields)
    requires MapProposal(registry, table, p).Ok?
    ensures MapProposal(registry, table, p).value.arguments == p[Arguments].fields
    ensures MapProposal(registry, table, p).value.digest == Digest(p)
    ensures forall k | k in p[Arguments].fields :: T.NonEmptyString(p[Arguments].fields[k])
    ensures {Action, Target} <= p[Arguments].fields.Keys
  {
    var args := p[Arguments].fields;
    assert (map k | k in args && k in T.ARGUMENT_FIELDS :: args[k]) == args;
    assert p[Arguments := Obj(args)] == p;
  }

  /**
   A proposal the agent maps outside the capability tool is resolved to the same intent exactly when the
   agent used the exact row; without `*` rows outside that tool the two sides always agree.
   */
  lemma SidesAgree(registry: Registry, agent: map<Key, Rule>, guardrail: map<Key, string>, p: Fields)
    requires SameRows(agent, guardrail) && MapProposal(registry, agent, p).Ok? && p[Tool] != CAPABILITY
    ensures var args, mapped := p[Arguments].fields, MapProposal(registry, agent, p).value;
            && (Resolve(guardrail, p[Tool], args) == Ok(mapped.intent) <==> KeyOf(p[Tool], args) in agent)
            && (NoWildcardRows(agent) ==> Resolve(guardrail, p[Tool], args) == Ok(mapped.intent))
  {
    CanonicalIsRaw(registry, agent, p);
    var args := p[Arguments].fields;
    assert T.NonEmptyString(p[Tool]);
    var k := KeyOf(p[Tool], args);
    assert k.tool != CAPABILITY && k.(value := Str("*")).tool != CAPABILITY;
  }

  ghost predicate NoCapabilityRows(guardrail: map<Key, string>) {
    forall k | k in guardrail :: k.tool != CAPABILITY
  }

  /** What the guardrail resolves, the agent mapped to the same intent: the guardrail knows no `*` fallback. */
  lemma ResolvedIsMapped(registry: Registry, agent: map<Key, Rule>, guardrail: map<Key, string>, p: Fields, intent: string)
    requires SameRows(agent, guardrail) && NoCapabilityRows(guardrail) && MapProposal(registry, agent, p).Ok?
    requires Resolve(guardrail, p[Tool], p[Arguments].fields) == Ok(intent)
    ensures MapProposal(registry, agent, p).value.intent == intent
  {
    CanonicalIsRaw(registry, agent, p);
    var k := KeyOf(p[Tool], p[Arguments].fields);
    assert k in guardrail && k in agent;
  }

  /** A free-text row: the agent maps the call, the guardrail, looking it up exactly, refuses it. */
  lemma WildcardRowDisagrees() returns (registry: Registry, agent: map<Key, Rule>, guardrail: map<Key, string>, p: Fields)
    ensures SameRows(agent, guardrail) && NoCapabilityRows(guardrail) && MapProposal(registry, agent, p).Ok?
    ensures p[Tool] != CAPABILITY && Resolve(guardrail, p[Tool], p[Arguments].fields) == Err(UNSUPPORTED_MAPPING)
  {
    var tool := T.ToolDefinition("say", [T.Signature("set", ["radio"], ["*"])]);
    var args := T.Call("set", "radio", Some(Str("news")));
    var row := Key(Str("say"), Str("set"), Str("radio"), Str("*"));
    registry, agent, guardrail := [tool], map[row := MappingRule(row, "play")], map[row := "play"];
    p := SampleProposal("say", args);
    SampleValid("say", args);
    hide ValidProposal, SampleProposal, T.ValidateCall;
    FreeTextCall(tool, args);
  }

  lemma FreeTextCall(tool: T.ToolDefinition, args: Fields)
    requires tool.signatures == [T.Signature("set", ["radio"], ["*"])]
    requires args == T.Call("set", "radio", Some(Str("news")))
    ensures T.ValidateCall(tool, args) == T.Validated(args)
  {
    hide T.ValidateCall;
    assert T.Hit(tool.signatures[0], args);
    T.OneHit(tool, args, 0);
    assert T.ValueSet(tool.signatures[0]) == {"*"};
    T.ValidatedMeaning(tool, args);
    T.ValidatedIsSame(tool, args);
  }
}
