/**
 The Guardrail-Agent wire contract: what the agent accepts (agent/src/vehicle_agent/authorization/contract.py)
 and what the guardrail builds (guardrail/service/envelope.py), over JSON objects with present or absent keys.
 A hash is the value it was computed from; times are integers in microseconds.
 */
module Wire {
  import opened Wrappers
  import PolicyEngine

  type Outcome = PolicyEngine.Outcome

  datatype Field =
    | ContractVersion | Kind | RequestId | ErrorKey | Permit | OutcomeKey
    | ProposalId | SessionId | SourceTurnId | Tool | Arguments | ModelProvider | ModelId
    | Intent | RuleId | StateVersion | PolicyChecksum | ReasonCode | RelevantState | Answer | Confirmation
    | PermitId | ProposalDigest | IssuedAt | ExpiresAt | SingleUse | ConfirmationId
    | Code | Message | Retryable | Details | Action | Target | Value | State | Rule | Named(name: string)

  type Fields = map<Field, Json>

  /** `Word`, `Time` and `Sha` are the strings the contract reads: fixed words, time stamps and digests. */
  datatype Json =
    | Null | Bool(b: bool) | Int(i: int) | Real(r: real) | Str(s: string) | Word(word: Word) | Time(at: int)
    | Sha(of: Projection) | Arr(items: seq<Json>) | Obj(fields: Fields)

  datatype Word = Version | DecisionKind | ErrorWord | OutcomeWord(outcome: Outcome)

  /** What a digest is taken of: the workbook, an action proposal or a monitor request. */
  datatype Projection =
    | Workbook(text: string)
    | ActionProjection(arguments: Json, version: Json, proposalId: Json, sessionId: Json, turnId: Json, tool: Json)
    | MonitorProjection(activeActionId: Json, intent: Json, requestId: Json)

  datatype Fault =
    | CONTRACT_VERSION_MISMATCH | MALFORMED_GUARDRAIL_RESPONSE | INVALID_ACTION_PROPOSAL | INVALID_PERMIT
    | PERMIT_FORBIDDEN | PERMIT_REQUIRED | UNKNOWN_OUTCOME

  const PERMIT_TTL := 2_000_000
  const CONFIRM_TTL := 30_000_000

  const PROPOSAL_FIELDS: set<Field> :=
    {ContractVersion, ProposalId, SessionId, SourceTurnId, Tool, Arguments, ModelProvider, ModelId}
  const DECISION_REQUIRED: set<Field> :=
    {ContractVersion, Kind, RequestId, ProposalId, Intent, OutcomeKey, RuleId, StateVersion, PolicyChecksum, ReasonCode,
     RelevantState}
  const DECISION_OPTIONAL: set<Field> := {Answer, Confirmation, Permit}
  const PERMIT_FIELDS: set<Field> :=
    {PermitId, ProposalDigest, Intent, RuleId, StateVersion, PolicyChecksum, IssuedAt, ExpiresAt, SingleUse}
  const ERROR_FIELDS: set<Field> := {ContractVersion, Kind, RequestId, ErrorKey}
  const ERROR_DETAIL_REQUIRED: set<Field> := {Code, Message, Retryable}

  predicate IsString(j: Json) {
    j.Str? || j.Word? || j.Time? || j.Sha?
  }

  predicate IsIdentifier(j: Json) {
    IsString(j) && (j.Str? ==> 1 <= |j.s| <= 128)
  }

  function Get(o: Fields, k: Field): Json {
    if k in o then o[k] else Null
  }

  // ---- the agent's validators -----------------------------------------------------------------------

  predicate ProposalIds(p: Fields)
    requires PROPOSAL_FIELDS <= p.Keys
  {
    && IsIdentifier(p[ProposalId]) && IsIdentifier(p[SessionId]) && IsIdentifier(p[SourceTurnId])
    && IsIdentifier(p[Tool]) && IsIdentifier(p[ModelProvider]) && IsIdentifier(p[ModelId])
  }

  /** `validate_action_proposal`, the same on both sides: the first fault, if any. */
  function ProposalFault(p: Fields): Option<Fault> {
    if Get(p, ContractVersion) != Word(Version) then Some(CONTRACT_VERSION_MISMATCH)
    else if !(PROPOSAL_FIELDS <= p.Keys) then Some(MALFORMED_GUARDRAIL_RESPONSE)
    else if p.Keys != PROPOSAL_FIELDS then Some(INVALID_ACTION_PROPOSAL)
    else if !p[Arguments].Obj? || !ProposalIds(p) then Some(INVALID_ACTION_PROPOSAL)
    else None
  }

  predicate ValidProposal(p: Fields) {
    ProposalFault(p) == None
  }

  /** `proposal_digest`: model and provider are left out of the hashed projection. */
  function Digest(p: Fields): Json
    requires ValidProposal(p)
  {
    Sha(ActionProjection(p[Arguments], p[ContractVersion], p[ProposalId], p[SessionId], p[SourceTurnId], p[Tool]))
  }

  function ErrorFault(r: Fields): Option<Fault> {
    if !(ERROR_FIELDS <= r.Keys) || !r[ErrorKey].Obj? then Some(MALFORMED_GUARDRAIL_RESPONSE)
    else
      var error := r[ErrorKey].fields;
      if !(ERROR_DETAIL_REQUIRED <= error.Keys) then Some(MALFORMED_GUARDRAIL_RESPONSE)
      else if Permit in r then Some(PERMIT_FORBIDDEN)
      else if !(r.Keys <= ERROR_FIELDS) || !(error.Keys <= ERROR_DETAIL_REQUIRED + {Details})
      then Some(MALFORMED_GUARDRAIL_RESPONSE)
      else if !IsIdentifier(r[RequestId]) || !IsIdentifier(error[Code]) then Some(MALFORMED_GUARDRAIL_RESPONSE)
      else if !IsString(error[Message]) || error[Message] == Str("") then Some(MALFORMED_GUARDRAIL_RESPONSE)
      else if !error[Retryable].Bool? then Some(MALFORMED_GUARDRAIL_RESPONSE)
      else None
  }

  function PermitFault(p: Fields, r: Fields): Option<Fault>
    requires DECISION_REQUIRED <= r.Keys
  {
    if !(PERMIT_FIELDS <= p.Keys) || !(p.Keys <= PERMIT_FIELDS) then Some(MALFORMED_GUARDRAIL_RESPONSE)
    else if !IsIdentifier(p[PermitId]) || !IsIdentifier(p[Intent]) || !IsIdentifier(p[RuleId])
    then Some(MALFORMED_GUARDRAIL_RESPONSE)
    else if !p[ProposalDigest].Sha? || !p[PolicyChecksum].Sha? || !p[StateVersion].Int? then Some(INVALID_PERMIT)
    else if p[SingleUse] != Bool(true) then Some(INVALID_PERMIT)
    else if p[Intent] != r[Intent] || p[RuleId] != r[RuleId] || p[StateVersion] != r[StateVersion]
            || p[PolicyChecksum] != r[PolicyChecksum] then Some(INVALID_PERMIT)
    else if !p[IssuedAt].Time? || !p[ExpiresAt].Time? || p[ExpiresAt].at <= p[IssuedAt].at then Some(INVALID_PERMIT)
    else None
  }

  function DecisionFault(r: Fields): Option<Fault> {
    if !(DECISION_REQUIRED <= r.Keys) || !(r.Keys <= DECISION_REQUIRED + DECISION_OPTIONAL)
    then Some(MALFORMED_GUARDRAIL_RESPONSE)
    else if !IsIdentifier(r[RequestId]) || !IsIdentifier(r[ProposalId]) || !IsIdentifier(r[Intent])
            || !IsIdentifier(r[RuleId]) || !IsIdentifier(r[ReasonCode]) then Some(MALFORMED_GUARDRAIL_RESPONSE)
    else if !r[StateVersion].Int? then Some(MALFORMED_GUARDRAIL_RESPONSE)
    else if !r[PolicyChecksum].Sha? then Some(INVALID_PERMIT)
    else if !r[RelevantState].Obj? then Some(MALFORMED_GUARDRAIL_RESPONSE)
    else if !(r[OutcomeKey].Word? && r[OutcomeKey].word.OutcomeWord?) then Some(UNKNOWN_OUTCOME)
    else if r[OutcomeKey].word.outcome.ALLOW?
    then if !(Permit in r && r[Permit].Obj?) then Some(PERMIT_REQUIRED) else PermitFault(r[Permit].fields, r)
    else if Permit in r then Some(PERMIT_FORBIDDEN)
    else None
  }

  /** `validate_guardrail_result`: the first fault, if any. */
  function ResultFault(r: Fields): Option<Fault> {
    if Get(r, ContractVersion) != Word(Version) then Some(CONTRACT_VERSION_MISMATCH)
    else if Get(r, Kind) == Word(ErrorWord) then ErrorFault(r)
    else if Get(r, Kind) == Word(DecisionKind) then DecisionFault(r)
    else Some(MALFORMED_GUARDRAIL_RESPONSE)
  }

  predicate ValidResult(r: Fields) {
    ResultFault(r) == None
  }

  predicate Allows(r: Fields) {
    Get(r, OutcomeKey) == Word(OutcomeWord(PolicyEngine.ALLOW))
  }

  /** Whatever JSON arrives, an accepted body carries a permit exactly on ALLOW, and it repeats the decision. */
  lemma PermitExactlyOnAllow(r: Fields)
    requires ValidResult(r)
    ensures Permit in r <==> Get(r, Kind) == Word(DecisionKind) && Allows(r)
    ensures Permit in r ==>
              && r[Permit].Obj? && r[Permit].fields.Keys == PERMIT_FIELDS
              && r[Permit].fields[RuleId] == r[RuleId] && r[Permit].fields[Intent] == r[Intent]
              && r[Permit].fields[IssuedAt].Time? && r[Permit].fields[ExpiresAt].Time?
              && r[Permit].fields[IssuedAt].at < r[Permit].fields[ExpiresAt].at
  {}

  // ---- what exactly is accepted ---------------------------------------------------------------------------

  /** Identifiers are the nonempty strings of at most 128 characters; nothing but a string is one. */
  lemma IdentifierMeaning(j: Json)
    ensures IsIdentifier(j) ==> !j.Null? && !j.Bool? && !j.Int? && !j.Real? && !j.Arr? && !j.Obj?
    ensures j.Str? ==> (IsIdentifier(j) <==> 1 <= |j.s| <= 128)
    ensures j.Word? || j.Time? || j.Sha? ==> IsIdentifier(j)
  {}

  /** Exactly the eight fields, this contract version, an arguments object and six identifiers. */
  lemma ProposalAccepted(p: Fields)
    ensures ValidProposal(p) <==>
            && (forall k :: k in p <==> k in PROPOSAL_FIELDS) && p[ContractVersion] == Word(Version) && p[Arguments].Obj?
            && forall k | k in {ProposalId, SessionId, SourceTurnId, Tool, ModelProvider, ModelId} :: IsIdentifier(p[k])
  {
    assert p.Keys == PROPOSAL_FIELDS <==> forall k :: k in p <==> k in PROPOSAL_FIELDS;
    hide IsIdentifier;
    if p.Keys == PROPOSAL_FIELDS {
      assert ProposalIds(p) <==>
             forall k | k in {ProposalId, SessionId, SourceTurnId, Tool, ModelProvider, ModelId} :: IsIdentifier(p[k]);
    }
  }

  /** Everything of a decision but its permit: the fields there may be, and the types of those there must be. */
  ghost predicate DecisionShape(r: Fields) {
    && (forall k :: k in DECISION_REQUIRED ==> k in r) && (forall k :: k in r ==> k in DECISION_REQUIRED || k in DECISION_OPTIONAL)
    && (forall k | k in {RequestId, ProposalId, Intent, RuleId, ReasonCode} :: IsIdentifier(r[k]))
    && r[StateVersion].Int? && r[PolicyChecksum].Sha? && r[RelevantState].Obj?
    && r[OutcomeKey].Word? && r[OutcomeKey].word.OutcomeWord?
  }

  /** Exactly nine fields, single use, times in order, and the decision's own intent, rule, state version and policy. */
  ghost predicate PermitShape(p: Fields, r: Fields)
    requires DECISION_REQUIRED <= r.Keys
  {
    && (forall k :: k in p <==> k in PERMIT_FIELDS)
    && (forall k | k in {PermitId, Intent, RuleId} :: IsIdentifier(p[k])) && p[ProposalDigest].Sha? && p[SingleUse] == Bool(true)
    && (forall k | k in {Intent, RuleId, StateVersion, PolicyChecksum} :: p[k] == r[k])
    && p[IssuedAt].Time? && p[ExpiresAt].Time? && p[IssuedAt].at < p[ExpiresAt].at
  }

  ghost predicate ErrorShape(r: Fields) {
    && (forall k :: k in r <==> k in ERROR_FIELDS) && IsIdentifier(r[RequestId]) && r[ErrorKey].Obj?
    && var e := r[ErrorKey].fields;
       && Code in e && Message in e && Retryable in e && (forall k | k in e :: k in {Code, Message, Retryable, Details})
       && IsIdentifier(e[Code]) && IsString(e[Message]) && e[Message] != Str("") && e[Retryable].Bool?
  }

  lemma PermitMeaning(p: Fields, r: Fields)
    requires DecisionShape(r)
    ensures PermitFault(p, r) == None <==> PermitShape(p, r)
  {
    assert PERMIT_FIELDS <= p.Keys && p.Keys <= PERMIT_FIELDS <==> forall k :: k in p <==> k in PERMIT_FIELDS;
    if PERMIT_FIELDS <= p.Keys {
      assert (forall k | k in {PermitId, Intent, RuleId} :: IsIdentifier(p[k])) <==>
             IsIdentifier(p[PermitId]) && IsIdentifier(p[Intent]) && IsIdentifier(p[RuleId]);
      assert (forall k | k in {Intent, RuleId, StateVersion, PolicyChecksum} :: p[k] == r[k]) <==>
             p[Intent] == r[Intent] && p[RuleId] == r[RuleId] && p[StateVersion] == r[StateVersion]
             && p[PolicyChecksum] == r[PolicyChecksum];
    }
    hide IsIdentifier;
  }

  lemma ErrorMeaning(r: Fields)
    ensures ErrorFault(r) == None <==> ErrorShape(r)
  {
    assert (ERROR_FIELDS <= r.Keys && r.Keys <= ERROR_FIELDS) <==> forall k :: k in r <==> k in ERROR_FIELDS;
    hide IsIdentifier, IsString;
  }

  lemma DecisionMeaning(r: Fields)
    ensures DECISION_REQUIRED <= r.Keys ==>
              ((forall k | k in {RequestId, ProposalId, Intent, RuleId, ReasonCode} :: IsIdentifier(r[k])) <==>
               IsIdentifier(r[RequestId]) && IsIdentifier(r[ProposalId]) && IsIdentifier(r[Intent])
               && IsIdentifier(r[RuleId]) && IsIdentifier(r[ReasonCode]))
    ensures r.Keys <= DECISION_REQUIRED + DECISION_OPTIONAL <==>
            forall k :: k in r ==> k in DECISION_REQUIRED || k in DECISION_OPTIONAL
    ensures DECISION_REQUIRED <= r.Keys <==> forall k :: k in DECISION_REQUIRED ==> k in r
  {
    hide IsIdentifier;
  }

  /**
   A body is accepted exactly when it is of this contract version and either an error of the error shape or a decision of
   the decision shape, with a permit of the permit shape exactly on ALLOW.
   */
  lemma ResultAccepted(r: Fields)
    ensures ValidResult(r) <==>
            && Get(r, ContractVersion) == Word(Version)
            && if Get(r, Kind) == Word(ErrorWord) then ErrorShape(r)
               else && Get(r, Kind) == Word(DecisionKind) && DecisionShape(r)
                    && if r[OutcomeKey] == Word(OutcomeWord(PolicyEngine.ALLOW))
                       then Permit in r && r[Permit].Obj? && PermitShape(r[Permit].fields, r) else Permit !in r
  {
    ErrorMeaning(r);
    DecisionMeaning(r);
    if DecisionShape(r) && Get(r, Permit).Obj? { PermitMeaning(r[Permit].fields, r); }
    hide IsIdentifier, ErrorFault, ErrorShape, PermitFault, PermitShape;
  }

  /** The codes: another contract version comes first, a permit missing or out of place last. */
  lemma FaultCodes(r: Fields)
    ensures ResultFault(r) == Some(CONTRACT_VERSION_MISMATCH) <==> Get(r, ContractVersion) != Word(Version)
    ensures ResultFault(r) == Some(PERMIT_REQUIRED) <==>
            && Get(r, ContractVersion) == Word(Version) && Get(r, Kind) == Word(DecisionKind) && DecisionShape(r)
            && r[OutcomeKey] == Word(OutcomeWord(PolicyEngine.ALLOW)) && !Get(r, Permit).Obj?
    ensures Get(r, ContractVersion) == Word(Version) && Get(r, Kind) == Word(DecisionKind) ==>
              (ResultFault(r) == Some(PERMIT_FORBIDDEN) <==>
               DecisionShape(r) && r[OutcomeKey] != Word(OutcomeWord(PolicyEngine.ALLOW)) && Permit in r)
  {
    DecisionMeaning(r);
    hide IsIdentifier, IsString;
  }

  // ---- the guardrail's builders ------------------------------------------------------------------------

  predicate IsSpace(c: char) {
    c in {' ', '\t', '\n', '\r', '\U{0b}', '\U{0c}'}
  }

  function FirstWord(s: string): string {
    if s == "" || s[0] == ' ' then "" else [s[0]] + FirstWord(s[1..])
  }

  function LStrip(s: string): string {
    if s != "" && IsSpace(s[0]) then LStrip(s[1..]) else s
  }

  function RStrip(s: string): string {
    if s != "" && IsSpace(s[|s| - 1]) then RStrip(s[..|s| - 1]) else s
  }

  /** `_reason_token`: the leading word, never empty, at most 128 characters. */
  function ReasonToken(reason: string): (r: string)
    ensures 1 <= |r| <= 128
  {
    var token := RStrip(LStrip(FirstWord(reason)));
    var token := if token == "" then "POLICY_DECISION" else token;
    if |token| > 128 then token[..128] else token
  }

  /** `error_envelope` */
  function ErrorEnvelope(requestId: Json, code: string, message: string, retryable: bool := false,
                         details: Option<Fields> := None): Fields {
    map[ContractVersion := Word(Version), Kind := Word(ErrorWord),
        RequestId := if IsString(requestId) && requestId != Str("") then requestId else Str("unknown"),
        ErrorKey := Obj(ErrorDetail(code, message, retryable, details))]
  }

  function ErrorDetail(code: string, message: string, retryable: bool, details: Option<Fields>): Fields {
    var error: Fields := map[Code := Str(code), Message := Str(message), Retryable := Bool(retryable)];
    if details.Some? then error[Details := Obj(details.value)] else error
  }

  /** One minted permit; its id and issue time come from uuid and the clock. */
  datatype Stamp = Stamp(id: string, at: int)

  function MintPermit(digest: Json, intent: string, rule: string, version: int, checksum: Json, stamp: Stamp): Fields {
    map[PermitId := Str(stamp.id), ProposalDigest := digest, Intent := Str(intent), RuleId := Str(rule),
        StateVersion := Int(version), PolicyChecksum := checksum, IssuedAt := Time(stamp.at),
        ExpiresAt := Time(stamp.at + PERMIT_TTL), SingleUse := Bool(true)]
  }

  /** The eleven required fields of every decision body. */
  function DecisionCore(requestId: Json, proposalId: Json, intent: string, outcome: Outcome, rule: string,
                        version: int, checksum: Json, reason: string, relevant: Fields): Fields {
    map[ContractVersion := Word(Version), Kind := Word(DecisionKind), RequestId := requestId,
        ProposalId := proposalId, Intent := Str(intent), OutcomeKey := Word(OutcomeWord(outcome)), RuleId := Str(rule),
        StateVersion := Int(version), PolicyChecksum := checksum, ReasonCode := Str(ReasonToken(reason)),
        RelevantState := Obj(relevant)]
  }

  function WithOption(r: Fields, k: Field, v: Option<Fields>): Fields {
    if v.Some? then r[k := Obj(v.value)] else r
  }

  /** `decision_envelope`, or the fault it raises. */
  function DecisionEnvelope(requestId: Json, proposal: Fields, intent: string, outcome: Outcome, rule: string,
                            version: int, checksum: Json, reason: string, relevant: Fields, answer: Option<Fields>,
                            confirmation: Option<Fields>, stamp: Stamp): Result<Fields, Fault>
    requires ProposalId in proposal
  {
    if rule == "" then Err(MALFORMED_GUARDRAIL_RESPONSE)
    else if !checksum.Sha? then Err(MALFORMED_GUARDRAIL_RESPONSE)
    else
      var core := DecisionCore(requestId, proposal[ProposalId], intent, outcome, rule, version, checksum, reason, relevant);
      match outcome
      case ANSWER => Ok(WithOption(core, Answer, answer))
      case UNKNOWN => Ok(WithOption(core, Answer, answer))
      case CONFIRM =>
        if confirmation.None? then Err(MALFORMED_GUARDRAIL_RESPONSE) else Ok(WithOption(core, Confirmation, confirmation))
      case ALLOW =>
        (match ProposalFault(proposal)
         case Some(f) => Err(f)
         case None => Ok(core[Permit := Obj(MintPermit(Digest(proposal), intent, rule, version, checksum, stamp))]))
      case _ => Ok(core)
  }

  /** `query_decision_envelope` */
  function QueryEnvelope(requestId: Json, proposalId: Json, intent: string, outcome: Outcome, rule: string,
                         version: int, checksum: Json, reason: string, relevant: Fields, answer: Option<Fields>)
    : Result<Fields, Fault>
  {
    if !outcome.ANSWER? && !outcome.UNKNOWN? then Err(UNKNOWN_OUTCOME)
    else Ok(WithOption(DecisionCore(requestId, proposalId, intent, outcome, if rule == "" then "Q000" else rule,
                                    version, checksum, reason, relevant), Answer, answer))
  }

  /** `monitor_decision_envelope`; "keep running" is an ALLOW whose permit is bound to a monitor request. */
  function MonitorEnvelope(requestId: Json, activeActionId: Json, intent: string, outcome: Outcome, rule: string,
                           version: int, checksum: Json, reason: string, relevant: Fields, digest: Json, stamp: Stamp)
    : Fields
  {
    var core := DecisionCore(requestId, activeActionId, intent, outcome, rule, version, checksum, reason, relevant);
    if outcome.ALLOW?
    then core[Permit := Obj(MintPermit(digest, intent, rule, version, checksum, stamp))]
    else core
  }

  predicate Blank(s: string) {
    forall i | 0 <= i < |s| :: IsSpace(s[i])
  }

  /** `s` without the blanks at both ends. */
  ghost predicate Stripped(s: string, r: string) {
    && (exists a, b :: Blank(a) && Blank(b) && s == a + r + b)
    && (r != "" ==> !IsSpace(r[0]) && !IsSpace(r[|r| - 1]))
  }

  lemma {:induction false} LStripMeaning(s: string) returns (a: string)
    ensures Blank(a) && s == a + LStrip(s) && (LStrip(s) != "" ==> !IsSpace(LStrip(s)[0]))
  {
    a := "";
    if s != "" && IsSpace(s[0]) {
      a := LStripMeaning(s[1..]);
      a := [s[0]] + a;
    }
  }

  lemma {:induction false} RStripMeaning(s: string) returns (b: string)
    ensures Blank(b) && s == RStrip(s) + b && (RStrip(s) != "" ==> !IsSpace(RStrip(s)[|RStrip(s)| - 1]) && RStrip(s)[0] == s[0])
  {
    b := "";
    if s != "" && IsSpace(s[|s| - 1]) {
      b := RStripMeaning(s[..|s| - 1]);
      assert s == s[..|s| - 1] + [s[|s| - 1]];
      b := b + [s[|s| - 1]];
    }
  }

  lemma {:induction false} FirstWordMeaning(s: string)
    ensures FirstWord(s) <= s && ' ' !in FirstWord(s)
    ensures |FirstWord(s)| < |s| ==> s[|FirstWord(s)|] == ' '
  {
    if s != "" && s[0] != ' ' { FirstWordMeaning(s[1..]); }
  }

  /** The token is what stands before the first blank, stripped; a fixed word if that is empty; cut at 128 characters. */
  lemma TokenMeaning(reason: string) returns (word: string, token: string)
    ensures word <= reason && ' ' !in word && (|word| < |reason| ==> reason[|word|] == ' ') && Stripped(word, token)
    ensures token == "" ==> ReasonToken(reason) == "POLICY_DECISION"
    ensures 1 <= |token| <= 128 ==> ReasonToken(reason) == token
    ensures |token| > 128 ==> ReasonToken(reason) == token[..128]
  {
    word := FirstWord(reason);
    FirstWordMeaning(reason);
    var left := LStrip(word);
    var a := LStripMeaning(word);
    token := RStrip(left);
    var b := RStripMeaning(left);
    assert word == a + token + b;
  }

  /** An error body says its code, message and retryability, and its details exactly when there are any. */
  lemma ErrorSays(requestId: Json, code: string, message: string, retryable: bool, details: Option<Fields>)
    ensures var r := ErrorEnvelope(requestId, code, message, retryable, details);
            && Get(r, ContractVersion) == Word(Version) && Get(r, Kind) == Word(ErrorWord) && Get(r, ErrorKey).Obj?
            && (IsString(requestId) && requestId != Str("") ==> Get(r, RequestId) == requestId)
            && var e := r[ErrorKey].fields;
               && Get(e, Code) == Str(code) && Get(e, Message) == Str(message) && Get(e, Retryable) == Bool(retryable)
               && Get(e, Details) == match details case Some(d) => Obj(d) case None => Null
  {}

  /** Building a decision fails exactly without a rule, a policy digest, a block on CONFIRM or a valid proposal on ALLOW. */
  lemma EnvelopeFails(requestId: Json, proposal: Fields, intent: string, outcome: Outcome, rule: string, version: int,
                      checksum: Json, reason: string, relevant: Fields, answer: Option<Fields>,
                      confirmation: Option<Fields>, stamp: Stamp)
    requires ProposalId in proposal
    ensures DecisionEnvelope(requestId, proposal, intent, outcome, rule, version, checksum, reason, relevant, answer,
                             confirmation, stamp).Err? <==>
            || rule == "" || !checksum.Sha? || (outcome.CONFIRM? && confirmation.None?)
            || (outcome.ALLOW? && !ValidProposal(proposal))
  {
    hide DecisionCore, MintPermit, ProposalFault;
  }

  // ---- the builders meet the validator -------------------------------------------------------------------

  predicate Short(s: string) {
    1 <= |s| <= 128
  }

  /** An error body is accepted exactly when its strings are in range, retryable or not and with or without details. */
  lemma ErrorAccepted(requestId: Json, code: string, message: string, retryable: bool := false,
                      details: Option<Fields> := None)
    ensures ValidResult(ErrorEnvelope(requestId, code, message, retryable, details)) <==>
            !(requestId.Str? && |requestId.s| > 128) && Short(code) && message != ""
    ensures Permit !in ErrorEnvelope(requestId, code, message, retryable, details)
  {}

  /** What every builder fixes; only the four identifiers are left open. */
  ghost predicate Built(r: Fields, requestId: Json, proposalId: Json, intent: string, outcome: Outcome, rule: string,
                        version: int, checksum: Json) {
    && DECISION_REQUIRED <= r.Keys && r.Keys <= DECISION_REQUIRED + DECISION_OPTIONAL
    && r[ContractVersion] == Word(Version) && r[Kind] == Word(DecisionKind) && r[RequestId] == requestId
    && r[ProposalId] == proposalId && r[Intent] == Str(intent) && r[OutcomeKey] == Word(OutcomeWord(outcome))
    && r[RuleId] == Str(rule) && r[StateVersion] == Int(version) && r[PolicyChecksum] == checksum
    && r[ReasonCode].Str? && 1 <= |r[ReasonCode].s| <= 128 && r[RelevantState].Obj?
  }

  lemma CoreBuilt(requestId: Json, proposalId: Json, intent: string, outcome: Outcome, rule: string, version: int,
                  checksum: Json, reason: string, relevant: Fields)
    ensures var core := DecisionCore(requestId, proposalId, intent, outcome, rule, version, checksum, reason, relevant);
            Built(core, requestId, proposalId, intent, outcome, rule, version, checksum) && Permit !in core
  {}

  lemma AddedBuilt(r: Fields, k: Field, v: Json, requestId: Json, proposalId: Json, intent: string, outcome: Outcome,
                   rule: string, version: int, checksum: Json)
    requires Built(r, requestId, proposalId, intent, outcome, rule, version, checksum) && k in DECISION_OPTIONAL
    ensures Built(r[k := v], requestId, proposalId, intent, outcome, rule, version, checksum)
  {}

  lemma BuiltAccepted(r: Fields, requestId: Json, proposalId: Json, intent: string, outcome: Outcome, rule: string,
                      version: int, checksum: Json)
    requires Built(r, requestId, proposalId, intent, outcome, rule, version, checksum)
    requires checksum.Sha? && !outcome.ALLOW? && Permit !in r
    ensures ValidResult(r) <==> IsIdentifier(requestId) && IsIdentifier(proposalId) && Short(intent) && Short(rule)
  {}

  lemma MintFields(digest: Json, intent: string, rule: string, version: int, checksum: Json, stamp: Stamp)
    ensures var p := MintPermit(digest, intent, rule, version, checksum, stamp);
            && p.Keys == PERMIT_FIELDS && p[SingleUse] == Bool(true) && p[PermitId] == Str(stamp.id)
            && p[ProposalDigest] == digest && p[Intent] == Str(intent) && p[RuleId] == Str(rule)
            && p[StateVersion] == Int(version) && p[PolicyChecksum] == checksum
            && p[IssuedAt] == Time(stamp.at) && p[ExpiresAt] == Time(stamp.at + PERMIT_TTL)
  {}

  lemma MintAccepted(r: Fields, requestId: Json, proposalId: Json, intent: string, rule: string, version: int,
                     checksum: Json, digest: Json, stamp: Stamp)
    requires Built(r, requestId, proposalId, intent, PolicyEngine.ALLOW, rule, version, checksum)
    requires checksum.Sha? && digest.Sha? && Short(stamp.id)
    requires Permit in r && r[Permit] == Obj(MintPermit(digest, intent, rule, version, checksum, stamp))
    ensures ValidResult(r) <==> IsIdentifier(requestId) && IsIdentifier(proposalId) && Short(intent) && Short(rule)
  {
    hide MintPermit;
    MintFields(digest, intent, rule, version, checksum, stamp);
  }

  /** A decision body is accepted exactly when rule, intent and ids are in range; no other input can spoil it. */
  lemma DecisionAccepted(requestId: Json, proposal: Fields, intent: string, outcome: Outcome, rule: string,
                         version: int, checksum: Json, reason: string, relevant: Fields, answer: Option<Fields>,
                         confirmation: Option<Fields>, stamp: Stamp)
    requires ValidProposal(proposal) && Short(stamp.id)
    ensures var r := DecisionEnvelope(requestId, proposal, intent, outcome, rule, version, checksum, reason, relevant,
                                      answer, confirmation, stamp);
            r.Ok? ==>
              && (ValidResult(r.value) <==> IsIdentifier(requestId) && Short(intent) && Short(rule))
              && (Permit in r.value <==> outcome.ALLOW?)
              && (outcome.ALLOW? ==>
                    r.value[Permit] == Obj(MintPermit(Digest(proposal), intent, rule, version, checksum, stamp)))
  {
    var id := proposal[ProposalId];
    var core := DecisionCore(requestId, id, intent, outcome, rule, version, checksum, reason, relevant);
    assert IsIdentifier(id);
    CoreBuilt(requestId, id, intent, outcome, rule, version, checksum, reason, relevant);
    hide DecisionCore, Built, ValidResult, MintPermit, Digest;
    if rule != "" && checksum.Sha? {
      if outcome.ALLOW? {
        var permit := MintPermit(Digest(proposal), intent, rule, version, checksum, stamp);
        AddedBuilt(core, Permit, Obj(permit), requestId, id, intent, outcome, rule, version, checksum);
        DigestIsSha(proposal);
        MintAccepted(core[Permit := Obj(permit)], requestId, id, intent, rule, version, checksum, Digest(proposal), stamp);
      } else if (outcome.ANSWER? || outcome.UNKNOWN?) && answer.Some? {
        AddedBuilt(core, Answer, Obj(answer.value), requestId, id, intent, outcome, rule, version, checksum);
        BuiltAccepted(core[Answer := Obj(answer.value)], requestId, id, intent, outcome, rule, version, checksum);
      } else if outcome.CONFIRM? && confirmation.Some? {
        AddedBuilt(core, Confirmation, Obj(confirmation.value), requestId, id, intent, outcome, rule, version, checksum);
        BuiltAccepted(core[Confirmation := Obj(confirmation.value)], requestId, id, intent, outcome, rule, version,
                      checksum);
      } else {
        BuiltAccepted(core, requestId, id, intent, outcome, rule, version, checksum);
      }
    }
  }

  lemma DigestIsSha(p: Fields)
    requires ValidProposal(p)
    ensures Digest(p).Sha?
  {}

  /** Query bodies are accepted on the same terms and never carry a permit. */
  lemma QueryAccepted(requestId: Json, proposalId: Json, intent: string, outcome: Outcome, rule: string,
                      version: int, checksum: Json, reason: string, relevant: Fields, answer: Option<Fields>)
    requires checksum.Sha?
    ensures var r := QueryEnvelope(requestId, proposalId, intent, outcome, rule, version, checksum, reason, relevant, answer);
            r.Ok? ==>
              && (ValidResult(r.value) <==> IsIdentifier(requestId) && IsIdentifier(proposalId) && Short(intent) && |rule| <= 128)
              && Permit !in r.value
  {
    var id, shown := proposalId, if rule == "" then "Q000" else rule;
    var core := DecisionCore(requestId, id, intent, outcome, shown, version, checksum, reason, relevant);
    CoreBuilt(requestId, id, intent, outcome, shown, version, checksum, reason, relevant);
    hide DecisionCore, Built, ValidResult;
    if answer.Some? {
      AddedBuilt(core, Answer, Obj(answer.value), requestId, id, intent, outcome, shown, version, checksum);
    }
    if outcome.ANSWER? || outcome.UNKNOWN? {
      BuiltAccepted(WithOption(core, Answer, answer), requestId, id, intent, outcome, shown, version, checksum);
    }
  }

  /** Monitor bodies are accepted on the same terms; "keep running" is the only one with a permit. */
  lemma MonitorAccepted(requestId: Json, activeActionId: Json, intent: string, outcome: Outcome, rule: string,
                        version: int, checksum: Json, reason: string, relevant: Fields, digest: Json, stamp: Stamp)
    requires checksum.Sha? && digest.Sha? && Short(stamp.id)
    ensures var r := MonitorEnvelope(requestId, activeActionId, intent, outcome, rule, version, checksum, reason,
                                     relevant, digest, stamp);
            && (ValidResult(r) <==> IsIdentifier(requestId) && IsIdentifier(activeActionId) && Short(intent) && Short(rule))
            && (Permit in r <==> outcome.ALLOW?)
            && (outcome.ALLOW? ==> r[Permit] == Obj(MintPermit(digest, intent, rule, version, checksum, stamp)))
  {
    var id := activeActionId;
    var core := DecisionCore(requestId, id, intent, outcome, rule, version, checksum, reason, relevant);
    CoreBuilt(requestId, id, intent, outcome, rule, version, checksum, reason, relevant);
    hide DecisionCore, Built, ValidResult, MintPermit;
    if outcome.ALLOW? {
      var permit := Obj(MintPermit(digest, intent, rule, version, checksum, stamp));
      AddedBuilt(core, Permit, permit, requestId, id, intent, outcome, rule, version, checksum);
      MintAccepted(core[Permit := permit], requestId, id, intent, rule, version, checksum, digest, stamp);
    } else {
      BuiltAccepted(core, requestId, id, intent, outcome, rule, version, checksum);
    }
  }

  // ---- samples ---------------------------------------------------------------------------------------------

  /** A well-formed proposal and the guardrail's ALLOW for it, for concrete runs. */
  function SampleProposal(tool: string, args: Fields): Fields {
    map[ContractVersion := Word(Version), ProposalId := Str("p1"), SessionId := Str("s1"), SourceTurnId := Str("t1"),
        Tool := Str(tool), Arguments := Obj(args), ModelProvider := Str("provider"), ModelId := Str("model")]
  }

  lemma SampleValid(tool: string, args: Fields)
    requires 1 <= |tool| <= 128
    ensures ValidProposal(SampleProposal(tool, args))
    ensures SampleProposal(tool, args)[Tool] == Str(tool) && SampleProposal(tool, args)[Arguments] == Obj(args)
    ensures Get(SampleProposal(tool, args), SessionId) == Str("s1")
  {
    var p := SampleProposal(tool, args);
    assert p.Keys == PROPOSAL_FIELDS;
  }

  const SAMPLE_STAMP: Stamp := Stamp("permit", 5)

  function SampleAllow(proposal: Fields): Result<Fields, Fault>
    requires ProposalId in proposal
  {
    DecisionEnvelope(Str("q1"), proposal, "open_trunk", PolicyEngine.ALLOW, "R1", 0, Sha(Workbook("")), "ok", map[], None, None,
                     SAMPLE_STAMP)
  }

  /** The reply passes the agent's validator, names the proposal and carries a permit bound to it. */
  lemma SampleAllowed(proposal: Fields)
    requires ValidProposal(proposal)
    ensures ProposalId in proposal
    ensures var r := SampleAllow(proposal);
            && r.Ok? && ValidResult(r.value) && Get(r.value, Kind) == Word(DecisionKind) && Allows(r.value)
            && Get(r.value, ProposalId) == proposal[ProposalId]
            && Permit in r.value && Get(r.value[Permit].fields, ProposalDigest) == Digest(proposal)
  {
    hide ValidResult, ValidProposal, Digest, DecisionCore, ReasonToken, MintPermit;
    SampleFields(proposal);
    DecisionAccepted(Str("q1"), proposal, "open_trunk", PolicyEngine.ALLOW, "R1", 0, Sha(Workbook("")), "ok", map[], None, None,
                     SAMPLE_STAMP);
  }

  lemma SampleFields(proposal: Fields)
    requires ValidProposal(proposal)
    ensures ProposalId in proposal
    ensures var r := SampleAllow(proposal);
            && r.Ok? && Get(r.value, Kind) == Word(DecisionKind) && Allows(r.value)
            && Get(r.value, ProposalId) == proposal[ProposalId]
            && Permit in r.value && r.value[Permit].Obj? && Get(r.value[Permit].fields, ProposalDigest) == Digest(proposal)
  {
    hide ReasonToken, Digest;
  }
}
