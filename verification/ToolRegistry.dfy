/**
 The closed tool registry (agent/src/vehicle_agent/tools/registry/registry.py): `validate_call`, the
 `oneOf` schema shown to a model, and Gemini's flat declaration (model_providers/adapters.py). The schema
 keywords mean what JSON Schema Core 2020-12 says, `oneOf` as in section 10.2.1.3.
 */
module ToolRegistry {
  import opened Wrappers
  import opened Wire

  datatype Signature = Signature(action: string, targets: seq<string>, values: seq<string>)

  datatype ToolDefinition = ToolDefinition(name: string, signatures: seq<Signature>)

  datatype Problem =
    | FORBIDDEN_ARGUMENT | ADDITIONAL_PROPERTY | INVALID_ARGUMENTS | INVALID_VALUE | INVALID_ACTION | INVALID_TARGET
    | UNEXPECTED_VALUE | UNKNOWN_TOOL

  datatype CallResult = Validated(arguments: Fields) | Clarification(missing: Field) | Invalid(code: Problem)

  const ARGUMENT_FIELDS: set<Field> := {Action, Target, Value}
  const FORBIDDEN: set<Field> := {State, OutcomeKey, Rule, RuleId, Permit}
  const ANY: seq<string> := ["*"]

  /** `_valid_enum` and the other checks of `_parse_registry` on one signature. */
  predicate ParsedSignature(sig: Signature) {
    && sig.action != "" && sig.targets != [] && Distinct(sig.targets) && Distinct(sig.values)
    && (forall t | t in sig.targets :: t != "") && (forall v | v in sig.values :: v != "")
  }

  predicate Parsed(tool: ToolDefinition) {
    forall i | 0 <= i < |tool.signatures| :: ParsedSignature(tool.signatures[i])
  }

  // ---- validate_call ------------------------------------------------------------------------------------

  predicate Among(j: Json, xs: seq<string>) {
    j.Str? && j.s in xs
  }

  predicate NonEmptyString(j: Json) {
    IsString(j) && j != Str("")
  }

  predicate TooLong(j: Json) {
    j.Str? && |j.s| > 512
  }

  predicate Hit(sig: Signature, args: Fields) {
    Get(args, Action) == Str(sig.action) && Among(Get(args, Target), sig.targets)
  }

  function ValueSet(sig: Signature): set<string> {
    set v | v in sig.values
  }

  /** The values of every signature with this action and target. */
  function Allowed(signatures: seq<Signature>, args: Fields): (r: set<string>)
    ensures forall v :: v in r <==> exists i | 0 <= i < |signatures| ::
              Hit(signatures[i], args) && v in signatures[i].values
  {
    set i, v | 0 <= i < |signatures| && Hit(signatures[i], args) && v in signatures[i].values :: v
  }

  function ValidateCall(tool: ToolDefinition, args: Fields): CallResult {
    if args.Keys * FORBIDDEN != {} then Invalid(FORBIDDEN_ARGUMENT)
    else if !(args.Keys <= ARGUMENT_FIELDS) then Invalid(ADDITIONAL_PROPERTY)
    else if exists k :: k in args && !NonEmptyString(args[k]) then Invalid(INVALID_ARGUMENTS)
    else if Value in args && TooLong(args[Value]) then Invalid(INVALID_VALUE)
    else if Action !in args then Clarification(Action)
    else if forall i | 0 <= i < |tool.signatures| :: args[Action] != Str(tool.signatures[i].action)
    then Invalid(INVALID_ACTION)
    else if Target !in args then Clarification(Target)
    else if forall i | 0 <= i < |tool.signatures| :: !Hit(tool.signatures[i], args) then Invalid(INVALID_TARGET)
    else
      var allowed := Allowed(tool.signatures, args);
      if allowed != {} && Value !in args then Clarification(Value)
      else if allowed != {} && allowed != {"*"} && !(args[Value].Str? && args[Value].s in allowed) then Invalid(INVALID_VALUE)
      else if allowed == {} && Value in args then Invalid(UNEXPECTED_VALUE)
      else Validated(map k | k in args && k in ARGUMENT_FIELDS :: args[k])
  }

  // ---- the oneOf schema -----------------------------------------------------------------------------------

  datatype ValueSchema = Absent | AnyString | Enum(values: seq<string>)

  datatype Variant = Variant(action: string, targets: seq<string>, value: ValueSchema)

  function VariantOf(sig: Signature): Variant {
    Variant(sig.action, sig.targets, if sig.values == [] then Absent else if sig.values == ANY then AnyString else Enum(sig.values))
  }

  function Variants(signatures: seq<Signature>): (r: seq<Variant>)
    ensures |r| == |signatures| && forall i | 0 <= i < |r| :: r[i] == VariantOf(signatures[i])
  {
    if signatures == [] then [] else [VariantOf(signatures[0])] + Variants(signatures[1..])
  }

  /** `ToolDefinition.model_schema` */
  method ModelSchema(tool: ToolDefinition) returns (variants: seq<Variant>)
    ensures variants == Variants(tool.signatures)
  {
    variants := [];
    for i := 0 to |tool.signatures|
      invariant |variants| == i && forall k | 0 <= k < i :: variants[k] == VariantOf(tool.signatures[k])
    {
      var sig := tool.signatures[i];
      var value := Absent;
      if sig.values != [] {
        value := AnyString;
        if sig.values != ANY { value := Enum(sig.values); }
      }
      variants := variants + [Variant(sig.action, sig.targets, value)];
    }
  }

  /** `type`, `const`, `enum`, `required` and `additionalProperties: false` of one variant. */
  predicate Accepts(v: Variant, args: Fields) {
    && {Action, Target} <= args.Keys && args.Keys <= {Action, Target} + (if v.value.Absent? then {} else {Value})
    && args[Action] == Str(v.action) && Among(args[Target], v.targets)
    && (v.value.Absent? || (Value in args && IsString(args[Value])
                            && (v.value.Enum? ==> Among(args[Value], v.value.values))))
  }

  /** Exactly one variant accepts. */
  ghost predicate OneOfAccepts(variants: seq<Variant>, args: Fields) {
    exists i | 0 <= i < |variants| ::
      Accepts(variants[i], args) && forall j | 0 <= j < |variants| && j != i :: !Accepts(variants[j], args)
  }

  ghost predicate SchemaAccepts(tool: ToolDefinition, args: Fields) {
    OneOfAccepts(Variants(tool.signatures), args)
  }

  /** A call of non-empty strings whose value is at most 512 long. */
  predicate StringCall(args: Fields) {
    (forall k | k in args :: NonEmptyString(args[k])) && !(Value in args && TooLong(args[Value]))
  }

  // ---- when schema and validation agree ------------------------------------------------------------------

  ghost predicate Shares(a: Signature, b: Signature) {
    a.action == b.action && exists t :: t in a.targets && t in b.targets
  }

  /** Two signatures on one action and target that no accepted call can confuse. */
  ghost predicate Apart(a: Signature, b: Signature) {
    && a.values != [] && b.values != [] && a.values != ANY && b.values != ANY
    && forall v | v in a.values && v in b.values :: |v| > 512   // refused before either is looked at
  }

  ghost predicate Separable(tool: ToolDefinition) {
    forall i, j | 0 <= i < |tool.signatures| && 0 <= j < |tool.signatures| && i != j ::
      Shares(tool.signatures[i], tool.signatures[j]) ==> Apart(tool.signatures[i], tool.signatures[j])
  }

  /** The simplest such tool: no (action, target) pair belongs to two signatures. */
  ghost predicate PairsDisjoint(tool: ToolDefinition) {
    forall i, j | 0 <= i < |tool.signatures| && 0 <= j < |tool.signatures| && i != j ::
      !Shares(tool.signatures[i], tool.signatures[j])
  }

  lemma DisjointSeparable(tool: ToolDefinition)
    requires PairsDisjoint(tool)
    ensures Separable(tool)
  {}

  predicate ValueFits(values: set<string>, args: Fields) {
    if values == {} then Value !in args
    else Value in args && (values == {"*"} || (args[Value].Str? && args[Value].s in values))
  }

  /** `validate_call` returns a validated call exactly when ... */
  lemma ValidatedMeaning(tool: ToolDefinition, args: Fields)
    requires StringCall(args)
    ensures ValidateCall(tool, args).Validated? <==>
            && {Action, Target} <= args.Keys && args.Keys <= ARGUMENT_FIELDS
            && (exists i | 0 <= i < |tool.signatures| :: Hit(tool.signatures[i], args))
            && ValueFits(Allowed(tool.signatures, args), args)
  {
    if i :| 0 <= i < |tool.signatures| && Hit(tool.signatures[i], args) {
      assert args.Keys <= ARGUMENT_FIELDS ==> args.Keys * FORBIDDEN == {};
    }
  }

  /** Accepted arguments are passed on as they are. */
  lemma ValidatedIsSame(tool: ToolDefinition, args: Fields)
    requires ValidateCall(tool, args).Validated?
    ensures ValidateCall(tool, args).arguments == args
  {
    assert (map k | k in args && k in ARGUMENT_FIELDS :: args[k]) == args;
  }

  /** Some signature of the tool has this action. */
  ghost predicate KnowsAction(tool: ToolDefinition, action: Json) {
    exists i :: 0 <= i < |tool.signatures| && action == Str(tool.signatures[i].action)
  }

  /** A value that some signature with this action and target lists. */
  ghost predicate Listed(tool: ToolDefinition, args: Fields, v: string) {
    exists i :: 0 <= i < |tool.signatures| && Hit(tool.signatures[i], args) && v in tool.signatures[i].values
  }

  /** Only the three fields, each a nonempty string, the value at most 512 long. */
  ghost predicate Presentable(args: Fields) {
    && (forall k | k in args :: k in ARGUMENT_FIELDS && IsString(args[k]) && args[k] != Str(""))
    && (Get(args, Value).Str? ==> |args[Value].s| <= 512)
  }

  /** What is not presentable is refused before the tool is looked at, for the first of four reasons. */
  lemma UnpresentableVerdict(tool: ToolDefinition, args: Fields)
    ensures Presentable(args) <==>
            !(exists k :: k in args && k in FORBIDDEN) && !(exists k :: k in args && k !in ARGUMENT_FIELDS)
            && !(exists k :: k in args && (!IsString(args[k]) || args[k] == Str("")))
            && !(Get(args, Value).Str? && |args[Value].s| > 512)
    ensures !Presentable(args) ==>
              ValidateCall(tool, args) ==
              Invalid(if exists k :: k in args && k in FORBIDDEN then FORBIDDEN_ARGUMENT
                      else if exists k :: k in args && k !in ARGUMENT_FIELDS then ADDITIONAL_PROPERTY
                      else if exists k :: k in args && (!IsString(args[k]) || args[k] == Str("")) then INVALID_ARGUMENTS
                      else INVALID_VALUE)
  {
    assert (exists k :: k in args && k in FORBIDDEN) <==> args.Keys * FORBIDDEN != {} by {
      if k :| k in args && k in FORBIDDEN { assert k in args.Keys * FORBIDDEN; }
      if args.Keys * FORBIDDEN != {} { var k :| k in args.Keys * FORBIDDEN; assert k in args; }
    }
    hide Hit, Allowed, IsString;
  }

  /**
   The verdict on presentable arguments: the action, the target and the value, each looked up among the signatures that fit
   so far, and a question back for the first one missing.
   */
  lemma CallVerdict(tool: ToolDefinition, args: Fields)
    requires Presentable(args)
    ensures var r := ValidateCall(tool, args);
            if Action !in args then r == Clarification(Action)
            else if !KnowsAction(tool, args[Action]) then r == Invalid(INVALID_ACTION)
            else if Target !in args then r == Clarification(Target)
            else if !exists i | 0 <= i < |tool.signatures| :: Hit(tool.signatures[i], args) then r == Invalid(INVALID_TARGET)
            else if exists v :: Listed(tool, args, v) then
              if Value !in args then r == Clarification(Value)
              else if (forall v | Listed(tool, args, v) :: v == "*") || (args[Value].Str? && Listed(tool, args, args[Value].s))
              then r == Validated(args) else r == Invalid(INVALID_VALUE)
            else if Value in args then r == Invalid(UNEXPECTED_VALUE) else r == Validated(args)
  {
    var allowed := Allowed(tool.signatures, args);
    assert forall v :: v in allowed <==> Listed(tool, args, v);
    OnlyStar(allowed);
    UnpresentableVerdict(tool, args);
    PresentableFields(args);
    hide Hit, Allowed, Listed, IsString, Presentable;
    if ValidateCall(tool, args).Validated? { ValidatedIsSame(tool, args); }
  }

  lemma PresentableFields(args: Fields)
    requires Presentable(args)
    ensures args.Keys * FORBIDDEN == {} && args.Keys <= ARGUMENT_FIELDS && !(Value in args && TooLong(args[Value]))
    ensures !exists k :: k in args && !NonEmptyString(args[k])
  {
    hide IsString;
  }

  lemma OnlyStar(values: set<string>)
    ensures (values == {} ==> forall v :: v !in values) && ((exists v :: v in values) <==> values != {})
    ensures values == {"*"} <==> values != {} && forall v | v in values :: v == "*"
  {
    if values != {} {
      var v :| v in values;
      if forall x | x in values :: x == "*" { assert values == {"*"}; }
    }
  }

  lemma VariantMeaning(tool: ToolDefinition, args: Fields, i: nat)
    requires StringCall(args) && Parsed(tool) && i < |tool.signatures|
    requires {Action, Target} <= args.Keys && args.Keys <= ARGUMENT_FIELDS
    ensures var values := ValueSet(tool.signatures[i]);
            Accepts(VariantOf(tool.signatures[i]), args) <==> Hit(tool.signatures[i], args) && ValueFits(values, args)
  {
    var sig := tool.signatures[i];
    assert ParsedSignature(sig);
    var values := ValueSet(sig);
    if sig.values == [] {
      assert values == {};
    } else {
      assert sig.values[0] in values;
      if sig.values == ANY { assert values == {"*"}; }
      else if values == {"*"} { StarOnly(sig); }
    }
  }

  lemma StarOnly(sig: Signature)
    requires ParsedSignature(sig) && ValueSet(sig) == {"*"}
    ensures sig.values == ANY
  {
    forall i | 0 <= i < |sig.values| ensures sig.values[i] == "*" { assert sig.values[i] in ValueSet(sig); }
    assert "*" in ValueSet(sig);
    AllSameShort(sig.values, "*");
    assert sig.values == ["*"];
  }

  lemma AllSameShort(xs: seq<string>, x: string)
    requires forall i | 0 <= i < |xs| :: xs[i] == x
    ensures Distinct(xs) ==> |xs| <= 1
  {
    if |xs| > 1 { assert xs[0] == xs[1]; }
  }

  lemma HitsShare(tool: ToolDefinition, args: Fields, i: nat, j: nat)
    requires i < |tool.signatures| && j < |tool.signatures| && Hit(tool.signatures[i], args) && Hit(tool.signatures[j], args)
    ensures Shares(tool.signatures[i], tool.signatures[j])
  {
    assert args[Target].s in tool.signatures[i].targets && args[Target].s in tool.signatures[j].targets;
  }

  lemma OneHit(tool: ToolDefinition, args: Fields, i: nat)
    requires i < |tool.signatures| && Hit(tool.signatures[i], args)
    requires forall j | 0 <= j < |tool.signatures| && j != i :: !Hit(tool.signatures[j], args)
    ensures Allowed(tool.signatures, args) == ValueSet(tool.signatures[i])
  {
    var allowed := Allowed(tool.signatures, args);
    forall v ensures v in allowed <==> v in tool.signatures[i].values {
      if v in tool.signatures[i].values { assert Hit(tool.signatures[i], args); }
      if v in allowed {
        var k :| 0 <= k < |tool.signatures| && Hit(tool.signatures[k], args) && v in tool.signatures[k].values;
      }
    }
  }

  ghost predicate Closed(args: Fields) {
    StringCall(args) && {Action, Target} <= args.Keys && args.Keys <= ARGUMENT_FIELDS
  }

  ghost predicate Fits(sig: Signature, args: Fields) {
    Hit(sig, args) && ValueFits(ValueSet(sig), args)
  }

  /** Both sides restated over the signatures that are hit. */
  lemma SchemaMeaning(tool: ToolDefinition, args: Fields)
    requires Parsed(tool) && StringCall(args)
    ensures SchemaAccepts(tool, args) <==>
            (Closed(args) && exists i | 0 <= i < |tool.signatures| ::
               Fits(tool.signatures[i], args) &&
               forall j | 0 <= j < |tool.signatures| && j != i :: !Fits(tool.signatures[j], args))
  {
    var variants := Variants(tool.signatures);
    if Closed(args) {
      forall i | 0 <= i < |variants| ensures Accepts(variants[i], args) <==> Fits(tool.signatures[i], args) {
        VariantMeaning(tool, args, i);
      }
    }
    hide Fits, VariantOf;
  }

  /** A value that fits one of several hit signatures fits their union, and conversely. */
  lemma HitsApart(tool: ToolDefinition, args: Fields, i: nat)
    requires Parsed(tool) && Separable(tool) && Closed(args)
    requires i < |tool.signatures| && Hit(tool.signatures[i], args)
    ensures ValueFits(Allowed(tool.signatures, args), args) <==>
            exists j | 0 <= j < |tool.signatures| :: Fits(tool.signatures[j], args)
    ensures forall j, k | 0 <= j < |tool.signatures| && 0 <= k < |tool.signatures| && j != k ::
              !(Fits(tool.signatures[j], args) && Fits(tool.signatures[k], args))
  {
    var sigs := tool.signatures;
    if forall j | 0 <= j < |sigs| && j != i :: !Hit(sigs[j], args) {
      OneHit(tool, args, i);
    } else {
      forall j, k | 0 <= j < |sigs| && 0 <= k < |sigs| && j != k && Hit(sigs[j], args) && Hit(sigs[k], args)
        ensures Apart(sigs[j], sigs[k])
      {
        HitsShare(tool, args, j, k);
      }
      ManyHits(tool, args, i);
    }
  }

  lemma NotAnyAlone(sig: Signature)
    requires ParsedSignature(sig) && sig.values != [] && sig.values != ANY
    ensures ValueSet(sig) != {} && ValueSet(sig) != {"*"}
  {
    assert sig.values[0] in ValueSet(sig);
    if ValueSet(sig) == {"*"} { StarOnly(sig); }
  }

  lemma ManyHits(tool: ToolDefinition, args: Fields, i: nat)
    requires Parsed(tool) && Closed(args) && i < |tool.signatures| && Hit(tool.signatures[i], args)
    requires exists j :: 0 <= j < |tool.signatures| && j != i && Hit(tool.signatures[j], args)
    requires forall j, k | 0 <= j < |tool.signatures| && 0 <= k < |tool.signatures| && j != k
               && Hit(tool.signatures[j], args) && Hit(tool.signatures[k], args) :: Apart(tool.signatures[j], tool.signatures[k])
    ensures ValueFits(Allowed(tool.signatures, args), args) <==>
            exists j | 0 <= j < |tool.signatures| :: Fits(tool.signatures[j], args)
    ensures forall j, k | 0 <= j < |tool.signatures| && 0 <= k < |tool.signatures| && j != k ::
              !(Fits(tool.signatures[j], args) && Fits(tool.signatures[k], args))
  {
    var sigs := tool.signatures;
    forall j | 0 <= j < |sigs| && Hit(sigs[j], args)
      ensures sigs[j].values != [] && sigs[j].values != ANY
      ensures Fits(sigs[j], args) <==> Value in args && args[Value].Str? && args[Value].s in sigs[j].values
    {
      if j == i { var k :| 0 <= k < |sigs| && k != i && Hit(sigs[k], args); assert Apart(sigs[i], sigs[k]); }
      else { assert Apart(sigs[j], sigs[i]); }
      assert ParsedSignature(sigs[j]);
      NotAnyAlone(sigs[j]);
    }
    var allowed := Allowed(sigs, args);
    var other :| other in sigs[i].values && other != "*" by {
      assert ParsedSignature(sigs[i]);
      NotAnyAlone(sigs[i]);
    }
    assert other in allowed;
    assert ValueFits(allowed, args) <==> Value in args && args[Value].Str? && args[Value].s in allowed;
  }

  /** On a separable tool the schema and the validator accept the same string calls. */
  lemma SchemaRefines(tool: ToolDefinition, args: Fields)
    requires Parsed(tool) && Separable(tool) && StringCall(args)
    ensures SchemaAccepts(tool, args) <==> ValidateCall(tool, args).Validated?
  {
    SchemaMeaning(tool, args);
    ValidatedMeaning(tool, args);
    if Closed(args) {
      if i :| 0 <= i < |tool.signatures| && Hit(tool.signatures[i], args) {
        HitsApart(tool, args, i);
      }
    }
  }

  /** Disjointness matters: a value two signatures share is validated, but `oneOf` then refuses the call. */
  lemma SharedValueRefused(tool: ToolDefinition, args: Fields, i: nat, j: nat)
    requires Parsed(tool) && StringCall(args) && Closed(args)
    requires i < |tool.signatures| && j < |tool.signatures| && i != j
    requires Hit(tool.signatures[i], args) && Hit(tool.signatures[j], args)
    requires Value in args && args[Value].Str?
    requires args[Value].s in tool.signatures[i].values && args[Value].s in tool.signatures[j].values
    ensures ValidateCall(tool, args).Validated? && !SchemaAccepts(tool, args)
  {
    hide SchemaAccepts, Fits, ValidateCall, Hit, Parsed, Allowed;
    SchemaMeaning(tool, args);
    ValidatedMeaning(tool, args);
    FitsByValue(tool.signatures[i], args);
    FitsByValue(tool.signatures[j], args);
    assert args[Value].s in Allowed(tool.signatures, args);
  }

  lemma FitsByValue(sig: Signature, args: Fields)
    requires Hit(sig, args) && Value in args && args[Value].Str? && args[Value].s in sig.values
    ensures Fits(sig, args)
  {
    assert args[Value].s in ValueSet(sig);
  }

  /** Two enumerations of one pair with a value in common. */
  lemma OverlapLosesACall() returns (tool: ToolDefinition, args: Fields)
    ensures Parsed(tool) && StringCall(args) && ValidateCall(tool, args).Validated? && !SchemaAccepts(tool, args)
  {
    hide ValidateCall, SchemaAccepts;
    tool := ToolDefinition("control", [Signature("set", ["fan"], ["low"]), Signature("set", ["fan"], ["low", "high"])]);
    args := map[Action := Str("set"), Target := Str("fan"), Value := Str("low")];
    assert ParsedSignature(tool.signatures[0]) && ParsedSignature(tool.signatures[1]);
    assert "low" in tool.signatures[0].values && "low" in tool.signatures[1].values;
    SharedValueRefused(tool, args, 0, 1);
  }

  // ---- exactly when schema and validation agree -----------------------------------------------------------

  /** Signature `i` is about this pair and takes no value. */
  predicate Valueless(tool: ToolDefinition, action: string, target: string, i: int) {
    About(tool, action, target, i) && tool.signatures[i].values == []
  }

  /** Signature `i` is about this pair and takes a value. */
  predicate Valued(tool: ToolDefinition, action: string, target: string, i: int) {
    About(tool, action, target, i) && tool.signatures[i].values != []
  }

  predicate About(tool: ToolDefinition, action: string, target: string, i: int) {
    0 <= i < |tool.signatures| && tool.signatures[i].action == action && target in tool.signatures[i].targets
  }

  ghost predicate OneValueless(tool: ToolDefinition, action: string, target: string) {
    exists i :: Valueless(tool, action, target, i) && forall j :: Valueless(tool, action, target, j) ==> j == i
  }

  /** A single `*` signature takes the values. */
  ghost predicate FreeText(tool: ToolDefinition, action: string, target: string) {
    exists i :: Valued(tool, action, target, i) && tool.signatures[i].values == ANY
                && forall j :: Valued(tool, action, target, j) ==> j == i
  }

  /** Enumerations take the values, and share none that a call may carry. */
  ghost predicate Enumerated(tool: ToolDefinition, action: string, target: string) {
    && (exists i :: Valued(tool, action, target, i))
    && (forall i :: Valued(tool, action, target, i) ==> tool.signatures[i].values != ANY)
    && forall i, j, v | Valued(tool, action, target, i) && Valued(tool, action, target, j) && i != j
                        && v in tool.signatures[i].values && v in tool.signatures[j].values :: |v| > 512
  }

  /** One valueless signature alone; or not one, and the values are free text, apart, or there is no signature. */
  ghost predicate PairOk(tool: ToolDefinition, action: string, target: string) {
    if OneValueless(tool, action, target) then forall i :: !Valued(tool, action, target, i)
    else || (forall i :: !About(tool, action, target, i))
         || FreeText(tool, action, target) || Enumerated(tool, action, target)
  }

  function Call(action: string, target: string, value: Option<Json>): (args: Fields)
    ensures Get(args, Action) == Str(action) && Get(args, Target) == Str(target)
  {
    var args: Fields := map[Action := Str(action), Target := Str(target)];
    if value.Some? then args[Value := value.value] else args
  }

  predicate Sendable(value: Option<Json>) {
    value.Some? ==> NonEmptyString(value.value) && !TooLong(value.value)
  }

  ghost predicate Agrees(tool: ToolDefinition, args: Fields) {
    SchemaAccepts(tool, args) <==> ValidateCall(tool, args).Validated?
  }

  /** Closed string calls are the calls above. */
  lemma ClosedCall(args: Fields) returns (action: string, target: string, value: Option<Json>)
    requires Closed(args) && args[Action].Str? && args[Target].Str?
    ensures action != "" && target != "" && Sendable(value) && args == Call(action, target, value)
  {
    action, target := args[Action].s, args[Target].s;
    value := if Value in args then Some(args[Value]) else None;
  }

  predicate Takes(tool: ToolDefinition, action: string, target: string, value: Json, i: int) {
    Valued(tool, action, target, i)
    && (tool.signatures[i].values == ANY || (value.Str? && value.s in tool.signatures[i].values))
  }

  lemma FitMeaning(tool: ToolDefinition, action: string, target: string, value: Option<Json>, i: nat)
    requires Parsed(tool) && i < |tool.signatures|
    ensures Fits(tool.signatures[i], Call(action, target, value)) <==>
            if value.None? then Valueless(tool, action, target, i) else Takes(tool, action, target, value.value, i)
  {
    var sig := tool.signatures[i];
    assert ParsedSignature(sig);
    if sig.values == ANY {
      assert ValueSet(sig) == {"*"};
    } else if sig.values != [] {
      NotAnyAlone(sig);
    } else {
      assert ValueSet(sig) == {};
    }
  }

  /** Exactly one signature takes the value. */
  ghost predicate OneTakes(tool: ToolDefinition, action: string, target: string, value: Json) {
    exists i :: Takes(tool, action, target, value, i) && forall j :: Takes(tool, action, target, value, j) ==> j == i
  }

  lemma CallClosed(action: string, target: string, value: Option<Json>)
    requires action != "" && target != "" && Sendable(value)
    ensures Closed(Call(action, target, value)) && StringCall(Call(action, target, value))
  {}

  lemma TakesAbout(tool: ToolDefinition, action: string, target: string, value: Json, i: int)
    ensures Takes(tool, action, target, value, i) || Valueless(tool, action, target, i) ==> 0 <= i < |tool.signatures|
  {}

  /** What the schema says of one call. */
  lemma CallSchema(tool: ToolDefinition, action: string, target: string, value: Option<Json>)
    requires Parsed(tool) && action != "" && target != "" && Sendable(value)
    ensures SchemaAccepts(tool, Call(action, target, value)) <==>
            if value.None? then OneValueless(tool, action, target) else OneTakes(tool, action, target, value.value)
  {
    hide SchemaAccepts, Fits, Closed, Parsed, Call, Takes, Valueless, StringCall, Sendable;
    var args, sigs := Call(action, target, value), tool.signatures;
    CallClosed(action, target, value);
    SchemaMeaning(tool, args);
    forall i
      ensures 0 <= i < |sigs| && Fits(sigs[i], args) <==>
              if value.None? then Valueless(tool, action, target, i) else Takes(tool, action, target, value.value, i)
    {
      if 0 <= i < |sigs| { FitMeaning(tool, action, target, value, i); }
      TakesAbout(tool, action, target, if value.None? then Null else value.value, i);
    }
  }

  lemma CallHits(tool: ToolDefinition, action: string, target: string, value: Option<Json>, i: int)
    ensures 0 <= i < |tool.signatures| && Hit(tool.signatures[i], Call(action, target, value)) <==>
            About(tool, action, target, i)
  {}

  lemma CallAllowed(tool: ToolDefinition, action: string, target: string, value: Option<Json>)
    ensures var allowed := Allowed(tool.signatures, Call(action, target, value));
            forall v :: v in allowed <==> exists i :: Valued(tool, action, target, i) && v in tool.signatures[i].values
  {
    hide Call, Hit, About;
    var args, sigs := Call(action, target, value), tool.signatures;
    forall i ensures 0 <= i < |sigs| && Hit(sigs[i], args) <==> About(tool, action, target, i) {
      CallHits(tool, action, target, value, i);
    }
    var allowed := Allowed(sigs, args);
    forall v ensures v in allowed <==> exists i :: Valued(tool, action, target, i) && v in sigs[i].values {
      if v in allowed {
        var i :| 0 <= i < |sigs| && Hit(sigs[i], args) && v in sigs[i].values;
        assert Valued(tool, action, target, i);
      }
    }
  }

  /** What the validator says of one call. */
  lemma CallValidated(tool: ToolDefinition, action: string, target: string, value: Option<Json>)
    requires Parsed(tool) && action != "" && target != "" && Sendable(value)
    ensures var allowed := Allowed(tool.signatures, Call(action, target, value));
            && (forall v :: v in allowed <==> exists i :: Valued(tool, action, target, i) && v in tool.signatures[i].values)
            && (ValidateCall(tool, Call(action, target, value)).Validated? <==>
                  if value.None? then (exists i :: About(tool, action, target, i)) && allowed == {}
                  else allowed != {} && (allowed == {"*"} || (value.value.Str? && value.value.s in allowed)))
  {
    hide ValidateCall, Parsed, Hit, Closed, StringCall, Sendable;
    var args, sigs := Call(action, target, value), tool.signatures;
    var allowed := Allowed(sigs, args);
    CallClosed(action, target, value);
    ValidatedMeaning(tool, args);
    CallAllowed(tool, action, target, value);
    forall i ensures 0 <= i < |sigs| && Hit(sigs[i], args) <==> About(tool, action, target, i) {
      CallHits(tool, action, target, value, i);
    }
    if allowed != {} {
      var v :| v in allowed;
      var i :| Valued(tool, action, target, i) && v in sigs[i].values;
      assert About(tool, action, target, i);
    }
  }

  lemma AllowedEmpty(tool: ToolDefinition, action: string, target: string, allowed: set<string>)
    requires forall v :: v in allowed <==> exists i :: Valued(tool, action, target, i) && v in tool.signatures[i].values
    ensures allowed == {} <==> forall i :: !Valued(tool, action, target, i)
  {
    if i :| Valued(tool, action, target, i) { assert tool.signatures[i].values[0] in allowed; }
  }

  lemma AllowedStar(tool: ToolDefinition, action: string, target: string, allowed: set<string>)
    requires Parsed(tool)
    requires forall v :: v in allowed <==> exists i :: Valued(tool, action, target, i) && v in tool.signatures[i].values
    ensures allowed == {"*"} <==>
            && (exists i :: Valued(tool, action, target, i))
            && forall i :: Valued(tool, action, target, i) ==> tool.signatures[i].values == ANY
  {
    AllowedEmpty(tool, action, target, allowed);
    forall i | Valued(tool, action, target, i) && tool.signatures[i].values != ANY ensures allowed != {"*"} {
      var sig := tool.signatures[i];
      assert ParsedSignature(sig);
      NotAnyAlone(sig);
      var v :| v in sig.values && v != "*";
      assert v in allowed;
    }
    if (exists i :: Valued(tool, action, target, i))
       && forall i :: Valued(tool, action, target, i) ==> tool.signatures[i].values == ANY {
      var i :| Valued(tool, action, target, i);
      assert "*" in tool.signatures[i].values;
      assert "*" in allowed;
      forall v | v in allowed ensures v == "*" {
        var k :| Valued(tool, action, target, k) && v in tool.signatures[k].values;
      }
    }
  }

  /** Without a value the two sides agree exactly when a valueless signature is alone or not the only such one. */
  lemma BaseAgrees(tool: ToolDefinition, action: string, target: string)
    requires Parsed(tool) && action != "" && target != ""
    ensures Agrees(tool, Call(action, target, None)) <==>
            (OneValueless(tool, action, target) <==>
             (exists i :: About(tool, action, target, i)) && forall i :: !Valued(tool, action, target, i))
  {
    hide Call, SchemaAccepts, ValidateCall, Parsed, OneValueless, Valued, About;
    CallSchema(tool, action, target, None);
    CallValidated(tool, action, target, None);
    AllowedEmpty(tool, action, target, Allowed(tool.signatures, Call(action, target, None)));
  }

  /** With a value: the validator takes free text or a value of any signature, the schema wants one taker. */
  lemma ValueAgrees(tool: ToolDefinition, action: string, target: string, value: Json)
    requires Parsed(tool) && action != "" && target != "" && Sendable(Some(value))
    ensures Agrees(tool, Call(action, target, Some(value))) <==>
            (OneTakes(tool, action, target, value) <==> AnyTakes(tool, action, target, value))
  {
    hide Call, SchemaAccepts, ValidateCall, Parsed, Valued, OneTakes;
    var allowed := Allowed(tool.signatures, Call(action, target, Some(value)));
    CallSchema(tool, action, target, Some(value));
    CallValidated(tool, action, target, Some(value));
    AllowedEmpty(tool, action, target, allowed);
    AllowedStar(tool, action, target, allowed);
  }

  ghost predicate AnyTakes(tool: ToolDefinition, action: string, target: string, value: Json) {
    && (exists i :: Valued(tool, action, target, i))
    && (|| (forall i :: Valued(tool, action, target, i) ==> tool.signatures[i].values == ANY)
        || (value.Str? && exists i :: Valued(tool, action, target, i) && value.s in tool.signatures[i].values))
  }

  lemma FreeTextSuffices(tool: ToolDefinition, action: string, target: string, value: Json)
    requires FreeText(tool, action, target)
    ensures OneTakes(tool, action, target, value) && AnyTakes(tool, action, target, value)
  {
    var i :| Valued(tool, action, target, i) && tool.signatures[i].values == ANY
             && forall j :: Valued(tool, action, target, j) ==> j == i;
    assert Takes(tool, action, target, value, i);
  }

  lemma EnumeratedSuffices(tool: ToolDefinition, action: string, target: string, value: Json)
    requires Enumerated(tool, action, target) && !TooLong(value)
    ensures OneTakes(tool, action, target, value) <==> AnyTakes(tool, action, target, value)
  {
    forall i, j | Takes(tool, action, target, value, i) && Takes(tool, action, target, value, j) ensures i == j {}
    if AnyTakes(tool, action, target, value) {
      var i :| Valued(tool, action, target, i) && value.s in tool.signatures[i].values;
      assert Takes(tool, action, target, value, i);
    }
  }

  lemma PairSuffices(tool: ToolDefinition, action: string, target: string, value: Option<Json>)
    requires Parsed(tool) && action != "" && target != "" && Sendable(value) && PairOk(tool, action, target)
    ensures Agrees(tool, Call(action, target, value))
  {
    hide Agrees, Call, Parsed, FreeText, Enumerated, OneValueless;
    if value.None? {
      PairBase(tool, action, target);
      BaseAgrees(tool, action, target);
    } else {
      ValueAgrees(tool, action, target, value.value);
      if FreeText(tool, action, target) {
        FreeTextSuffices(tool, action, target, value.value);
      } else if Enumerated(tool, action, target) {
        EnumeratedSuffices(tool, action, target, value.value);
      } else {
        assert forall i :: !Valued(tool, action, target, i);
      }
    }
  }

  lemma PairBase(tool: ToolDefinition, action: string, target: string)
    requires PairOk(tool, action, target)
    ensures OneValueless(tool, action, target) <==>
            (exists i :: About(tool, action, target, i)) && forall i :: !Valued(tool, action, target, i)
  {}

  /** Two `*` signatures: `*` itself is validated and fits both. */
  lemma TwoStars(tool: ToolDefinition, action: string, target: string, i: nat, j: nat)
    requires Parsed(tool) && action != "" && target != "" && i != j
    requires Valued(tool, action, target, i) && tool.signatures[i].values == ANY
    requires Valued(tool, action, target, j) && tool.signatures[j].values == ANY
    ensures Sendable(Some(Str("*"))) && !Agrees(tool, Call(action, target, Some(Str("*"))))
  {
    hide Agrees, Call, Parsed;
    ValueAgrees(tool, action, target, Str("*"));
    assert "*" in tool.signatures[i].values;
    assert Takes(tool, action, target, Str("*"), i) && Takes(tool, action, target, Str("*"), j);
  }

  /** One `*` signature beside enumerations: "a" is refused as free text, or fits two. */
  lemma StarAndEnum(tool: ToolDefinition, action: string, target: string, i: nat, j: nat)
    requires Parsed(tool) && action != "" && target != ""
    requires Valued(tool, action, target, i) && tool.signatures[i].values == ANY
    requires forall k :: Valued(tool, action, target, k) && tool.signatures[k].values == ANY ==> k == i
    requires Valued(tool, action, target, j) && tool.signatures[j].values != ANY
    ensures Sendable(Some(Str("a"))) && !Agrees(tool, Call(action, target, Some(Str("a"))))
  {
    hide Agrees, Call, Parsed;
    var a := Str("a");
    ValueAgrees(tool, action, target, a);
    assert Takes(tool, action, target, a, i);
    if k :| Valued(tool, action, target, k) && "a" in tool.signatures[k].values {
      assert Takes(tool, action, target, a, k) && k != i;
    } else {
      assert forall k :: Takes(tool, action, target, a, k) ==> k == i;
      assert !AnyTakes(tool, action, target, a);
    }
  }

  lemma ValueNonEmpty(tool: ToolDefinition, i: nat, v: string)
    requires Parsed(tool) && i < |tool.signatures| && v in tool.signatures[i].values && |v| <= 512
    ensures Sendable(Some(Str(v)))
  {
    assert ParsedSignature(tool.signatures[i]);
  }

  lemma SharedShort(tool: ToolDefinition, action: string, target: string, i: nat, j: nat, v: string)
    requires Parsed(tool) && action != "" && target != "" && i != j && |v| <= 512
    requires Valued(tool, action, target, i) && v in tool.signatures[i].values
    requires Valued(tool, action, target, j) && v in tool.signatures[j].values
    ensures Sendable(Some(Str(v))) && !Agrees(tool, Call(action, target, Some(Str(v))))
  {
    hide Agrees, Call, Parsed, Sendable;
    ValueNonEmpty(tool, i, v);
    ValueAgrees(tool, action, target, Str(v));
    assert Takes(tool, action, target, Str(v), i) && Takes(tool, action, target, Str(v), j);
  }

  /** When a pair is not in order, a concrete call of it is treated differently. */
  lemma PairNeeded(tool: ToolDefinition, action: string, target: string) returns (value: Option<Json>)
    requires Parsed(tool) && action != "" && target != "" && !PairOk(tool, action, target)
    ensures Sendable(value) && !Agrees(tool, Call(action, target, value))
  {
    hide Agrees, Call, Parsed, FreeText, Enumerated, OneValueless;
    BaseAgrees(tool, action, target);
    if Agrees(tool, Call(action, target, None)) {
      NotOkValued(tool, action, target);
      hide PairOk, Sendable;
      var i :| Valued(tool, action, target, i);
      value := ValueNeeded(tool, action, target, i);
    } else {
      value := None;
    }
  }

  lemma NotOkValued(tool: ToolDefinition, action: string, target: string)
    requires !PairOk(tool, action, target)
    requires OneValueless(tool, action, target) <==>
             (exists i :: About(tool, action, target, i)) && forall i :: !Valued(tool, action, target, i)
    ensures exists i :: Valued(tool, action, target, i)
    ensures !FreeText(tool, action, target) && !Enumerated(tool, action, target)
  {}

  lemma ValueNeeded(tool: ToolDefinition, action: string, target: string, i: nat) returns (value: Option<Json>)
    requires Parsed(tool) && action != "" && target != "" && Valued(tool, action, target, i)
    requires !FreeText(tool, action, target) && !Enumerated(tool, action, target)
    ensures Sendable(value) && !Agrees(tool, Call(action, target, value))
  {
    hide Agrees, Call, Parsed, Sendable;
    if k :| Valued(tool, action, target, k) && tool.signatures[k].values == ANY {
      value := StarNeeded(tool, action, target, k);
    } else {
      var a, b, v :| Valued(tool, action, target, a) && Valued(tool, action, target, b) && a != b
                     && v in tool.signatures[a].values && v in tool.signatures[b].values && |v| <= 512;
      SharedShort(tool, action, target, a, b, v);
      value := Some(Str(v));
    }
  }

  lemma StarNeeded(tool: ToolDefinition, action: string, target: string, k: nat) returns (value: Option<Json>)
    requires Parsed(tool) && action != "" && target != "" && !FreeText(tool, action, target)
    requires Valued(tool, action, target, k) && tool.signatures[k].values == ANY
    ensures Sendable(value) && !Agrees(tool, Call(action, target, value))
  {
    hide Agrees, Call, Parsed, Sendable;
    var other :| Valued(tool, action, target, other) && other != k;
    if m :| Valued(tool, action, target, m) && tool.signatures[m].values == ANY && m != k {
      TwoStars(tool, action, target, k, m);
      value := Some(Str("*"));
    } else {
      StarAndEnum(tool, action, target, k, other);
      value := Some(Str("a"));
    }
  }

  /** For one action and target: schema and validator accept the same string calls exactly when the pair is in order. */
  lemma PairAgreesExactly(tool: ToolDefinition, action: string, target: string)
    requires Parsed(tool) && action != "" && target != ""
    ensures PairOk(tool, action, target) <==>
            forall value | Sendable(value) :: Agrees(tool, Call(action, target, value))
  {
    hide PairOk, Agrees, Call, Parsed, Sendable;
    if PairOk(tool, action, target) {
      forall value | Sendable(value) ensures Agrees(tool, Call(action, target, value)) {
        PairSuffices(tool, action, target, value);
      }
    } else {
      var value := PairNeeded(tool, action, target);
    }
  }

  lemma UnhitAgrees(tool: ToolDefinition, args: Fields)
    requires Parsed(tool) && StringCall(args) && !(Closed(args) && args[Action].Str? && args[Target].Str?)
    ensures Agrees(tool, args)
  {
    SchemaMeaning(tool, args);
    ValidatedMeaning(tool, args);
    hide ValidateCall, SchemaAccepts;
  }

  /** The whole tool: the two sides accept the same string calls exactly when every pair is in order. */
  lemma ToolAgreesExactly(tool: ToolDefinition)
    requires Parsed(tool)
    ensures (forall action, target | action != "" && target != "" :: PairOk(tool, action, target)) <==>
            forall args: Fields | StringCall(args) :: Agrees(tool, args)
  {
    hide PairOk, Agrees, Call, Parsed, Sendable, StringCall;
    if forall action, target | action != "" && target != "" :: PairOk(tool, action, target) {
      forall args: Fields | StringCall(args) ensures Agrees(tool, args) {
        if Closed(args) && args[Action].Str? && args[Target].Str? {
          var action, target, value := ClosedCall(args);
          PairSuffices(tool, action, target, value);
        } else {
          UnhitAgrees(tool, args);
        }
      }
    }
    if forall args: Fields | StringCall(args) :: Agrees(tool, args) {
      forall action, target | action != "" && target != "" ensures PairOk(tool, action, target) {
        if !PairOk(tool, action, target) {
          var value := PairNeeded(tool, action, target);
          CallClosed(action, target, value);
        }
      }
    }
  }

  // ---- Gemini's flat declaration --------------------------------------------------------------------------

  function ToolValues(tool: ToolDefinition): set<string> {
    set i, v | 0 <= i < |tool.signatures| && v in tool.signatures[i].values :: v
  }

  /** `_flat_declaration` read as a schema: unions of all signatures, `value` optional, extra keys allowed. */
  predicate FlatAccepts(tool: ToolDefinition, args: Fields) {
    && Action in args && Target in args
    && (exists i | 0 <= i < |tool.signatures| :: args[Action] == Str(tool.signatures[i].action))
    && (exists i | 0 <= i < |tool.signatures| :: Among(args[Target], tool.signatures[i].targets))
    && (Value in args && ToolValues(tool) != {} ==>
          IsString(args[Value]) &&
          (ToolValues(tool) == {"*"} || (args[Value].Str? && args[Value].s in ToolValues(tool))))
  }

  /**
   The flat declaration takes the three fields apart: it accepts any recombination of an action, a target and a value that
   the tool knows somewhere, value optional, free text only if the tool lists nothing but `*`.
   */
  lemma FlatRecombines(tool: ToolDefinition, args: Fields)
    requires Closed(args)
    ensures FlatAccepts(tool, args) <==>
            && KnowsAction(tool, args[Action])
            && (exists i :: 0 <= i < |tool.signatures| && args[Target].Str? && args[Target].s in tool.signatures[i].targets)
            && (Value !in args || ToolValues(tool) == {} || ToolValues(tool) == {"*"}
                || (args[Value].Str? && exists i :: 0 <= i < |tool.signatures| && args[Value].s in tool.signatures[i].values))
  {
    assert NonEmptyString(args[Action]) && NonEmptyString(args[Target]) && (Value in args ==> NonEmptyString(args[Value]));
  }

  /** The tool does not mix `*` with concrete values. */
  predicate Unmixed(tool: ToolDefinition) {
    ToolValues(tool) == {"*"} || "*" !in ToolValues(tool)
  }

  /** Every validated call passes the flat declaration of an unmixed tool. */
  lemma FlatIsWeaker(tool: ToolDefinition, args: Fields)
    requires StringCall(args) && ValidateCall(tool, args).Validated? && Unmixed(tool)
    ensures FlatAccepts(tool, args)
  {
    ValidatedMeaning(tool, args);
    var allowed := Allowed(tool.signatures, args);
    assert allowed <= ToolValues(tool);
    if "*" in allowed { assert "*" in ToolValues(tool); }
  }

  /** On a mixed tool exactly the free-text calls outside the concrete values are lost. */
  lemma MixedLosesFreeText(tool: ToolDefinition, args: Fields)
    requires StringCall(args) && ValidateCall(tool, args).Validated? && !Unmixed(tool)
    ensures !FlatAccepts(tool, args) <==>
            Value in args && !(args[Value].Str? && args[Value].s in ToolValues(tool))
    ensures !FlatAccepts(tool, args) ==> Allowed(tool.signatures, args) == {"*"}
  {
    ValidatedMeaning(tool, args);
    assert Allowed(tool.signatures, args) <= ToolValues(tool);
  }

  lemma MixedLosesACall() returns (tool: ToolDefinition, args: Fields)
    ensures Parsed(tool) && StringCall(args) && ValidateCall(tool, args).Validated? && !FlatAccepts(tool, args)
  {
    hide ValidateCall, FlatAccepts;
    var free, fixed := Signature("say", ["radio"], ["*"]), Signature("set", ["radio"], ["on"]);
    tool := ToolDefinition("control", [free, fixed]);
    args := map[Action := Str("say"), Target := Str("radio"), Value := Str("hello")];
    assert Hit(tool.signatures[0], args) && !Hit(tool.signatures[1], args);
    OneHit(tool, args, 0);
    assert ValueSet(free) == {"*"};
    ValidatedMeaning(tool, args);
    assert "*" in tool.signatures[0].values && "on" in tool.signatures[1].values;
    assert "*" in ToolValues(tool) && "on" in ToolValues(tool);
    assert ToolValues(tool) == {"*", "on"};
    MixedLosesFreeText(tool, args);
  }
}
