/**
 The guardrail's request core (guardrail/service/app.py, guardrail/service/confirmations.py): action, query,
 confirm and monitor requests against one state snapshot, and the single-use confirmation tokens.
 */
module GuardrailService {
  import opened Wrappers
  import opened Wire
  import P = PolicyEngine
  import V = Conditions
  import M = ToolMapping

  // ---- pending confirmations ------------------------------------------------------------------------------

  datatype Token = Token(proposal: Fields, intent: string, originRule: string, session: Json, expiresAt: int)

  datatype Tokens = Tokens(pending: map<Json, Token>, consumed: set<Json>)

  datatype Taken = Unknown | Mismatch | Late | Live(token: Token)

  function CreateToken(tokens: Tokens, id: Json, proposal: Fields, intent: string, rule: string, now: int): Tokens {
    tokens.(pending := tokens.pending[id := Token(proposal, intent, rule, Get(proposal, SessionId), now + CONFIRM_TTL)])
  }

  /** A wrong session leaves the token alone; everybody else takes it, in time or too late. */
  function Consume(tokens: Tokens, id: Json, session: Json, now: int): (Tokens, Taken) {
    if id !in tokens.pending then (tokens, Unknown)
    else
      var token := tokens.pending[id];
      if token.session != Str("") && token.session != session then (tokens, Mismatch)
      else (Tokens(tokens.pending - {id}, tokens.consumed + {id}), if now > token.expiresAt then Late else Live(token))
  }

  class PendingConfirmationStore {
    var pending: map<Json, Token>
    var consumed: set<Json>

    ghost function Contents(): Tokens
      reads this
    {
      Tokens.Tokens(pending, consumed)
    }

    constructor ()
      ensures Contents() == Tokens.Tokens(map[], {})
    {
      pending, consumed := map[], {};
    }

    method Create(id: Json, proposal: Fields, intent: string, originRule: string, now: int)
      modifies this
      ensures Contents() == CreateToken(old(Contents()), id, proposal, intent, originRule, now)
    {
      var expiresAt := now + CONFIRM_TTL;
      pending := pending[id := Token.Token(proposal, intent, originRule, Get(proposal, SessionId), expiresAt)];
    }

    method Take(id: Json, session: Json, now: int) returns (r: Taken)
      modifies this
      ensures (Contents(), r) == Consume(old(Contents()), id, session, now)
    {
      if id !in pending { return Unknown; }
      var record := pending[id];
      if record.session != Str("") && record.session != session { return Mismatch; }
      pending, consumed := pending - {id}, consumed + {id};
      if now > record.expiresAt { return Late; }
      return Live(record);
    }
  }

  /** Once taken, a token is gone for every later request, in every session. */
  lemma TakenOnce(tokens: Tokens, id: Json, session: Json, now: int, session': Json, now': int)
    requires Consume(tokens, id, session, now).1.Live?
    ensures Consume(Consume(tokens, id, session, now).0, id, session', now').1 == Unknown
    ensures id in Consume(tokens, id, session, now).0.consumed
  {}

  // ---- requests ----------------------------------------------------------------------------------------------

  datatype Config = Config(rules: seq<P.Rule>, variables: set<string>, checksum: Json, table: map<M.Key, string>,
                           features: set<Json>, readOnly: set<string>)

  datatype Snapshot = Snapshot(state: V.Env, version: int)

  /** What uuid and the clock supply to one request, and the answer block its outcome may carry. */
  datatype Fresh = Fresh(requestId: string, tokenId: string, stamp: Stamp, now: int, answer: Option<Fields>)

  /** The monitor request's own vehicle state: absent, refused, or accepted. */
  datatype Supplied = Absent | Refused | Given(state: V.Env)

  datatype Origin = Direct | Confirmed(token: Json, rule: string)

  /** Why an action permit was issued: for which proposal, on which evaluation of which snapshot. */
  datatype Mint = Mint(proposal: Fields, intent: string, rule: string, stamp: Stamp, query: P.Query, origin: Origin)

  /** Why a proposal was parked behind a token: on which evaluation, of a new call or of another confirmed one. */
  datatype Parking = Parking(id: Json, token: Token, query: P.Query, origin: Origin)

  datatype Response = Response(body: Fields, tokens: Tokens, mint: Option<Mint>, parking: Option<Parking>)

  datatype Route = ActionRoute | QueryRoute | ConfirmRoute | MonitorRoute

  function AsId(j: Json): Json {
    if IsIdentifier(j) then j else Null
  }

  function Either(a: Json, b: Json): Json {
    if a != Null then a else b
  }

  function Refuse(tokens: Tokens, requestId: Json, code: string): Response {
    Response.Response(ErrorEnvelope(requestId, code, "refused"), tokens, None, None)
  }

  /** The service's own fixed words: error codes and default identifiers. */
  datatype Fixed =
    | INVALID_JSON | INVALID_CONFIRMATION | CONFIRMATION_SESSION_MISMATCH | CONFIRMATION_NOT_ACTIVE
    | INVALID_MONITOR_REQUEST | INVALID_VEHICLE_STATE | NOT_A_MONITORED_INTENT | INVALID_QUERY | NOT_A_QUERY_INTENT
    | GUARDRAIL_INTERNAL_ERROR | UNKNOWN_ID | QUERY_ID | R000 | Q000 | MONITOR_NO_TRIGGER | MONITOR_RULE

  function Spell(f: Fixed): (s: string)
    ensures Short(s)
  {
    match f
    case INVALID_JSON => "INVALID_JSON"
    case INVALID_CONFIRMATION => "INVALID_CONFIRMATION"
    case CONFIRMATION_SESSION_MISMATCH => "CONFIRMATION_SESSION_MISMATCH"
    case CONFIRMATION_NOT_ACTIVE => "CONFIRMATION_NOT_ACTIVE"
    case INVALID_MONITOR_REQUEST => "INVALID_MONITOR_REQUEST"
    case INVALID_VEHICLE_STATE => "INVALID_VEHICLE_STATE"
    case NOT_A_MONITORED_INTENT => "NOT_A_MONITORED_INTENT"
    case INVALID_QUERY => "INVALID_QUERY"
    case NOT_A_QUERY_INTENT => "NOT_A_QUERY_INTENT"
    case GUARDRAIL_INTERNAL_ERROR => "GUARDRAIL_INTERNAL_ERROR"
    case UNKNOWN_ID => "unknown"
    case QUERY_ID => "query"
    case R000 => "R000"
    case Q000 => "Q000"
    case MONITOR_NO_TRIGGER => "MONITOR_NO_TRIGGER"
    case MONITOR_RULE => "MONITOR_RULE"
  }

  function ReasonName(r: P.Reason): (s: string)
    ensures r.Policy? || Short(s)
  {
    match r
    case IntentNotInCatalog => "INTENT_NOT_IN_CATALOG"
    case NoRuleForPhase => "NO_RULE_FOR_PHASE"
    case UnknownRequestParam => "UNKNOWN_REQUEST_PARAM"
    case ConditionEvalError => "CONDITION_EVAL_ERROR"
    case NoMatchingPolicy => "NO_MATCHING_POLICY"
    case PolicyAmbiguity => "POLICY_AMBIGUITY"
    case EngineEvalError => "ENGINE_EVAL_ERROR"
    case NoMonitorTrigger => "NO_MONITOR_TRIGGER"
    case Policy(o, suppressed) => "POLICY_" + OutcomeName(o) + if suppressed == [] then "" else " (precedence)"
  }

  function OutcomeName(o: Outcome): string {
    match o
    case ALLOW => "ALLOW"
    case BLOCK_UNSAFE => "BLOCK_UNSAFE"
    case BLOCK_UNAVAILABLE => "BLOCK_UNAVAILABLE"
    case CONFIRM => "CONFIRM"
    case NOT_VOICE_ACTIONABLE => "NOT_VOICE_ACTIONABLE"
    case ANSWER => "ANSWER"
    case UNKNOWN => "UNKNOWN"
  }

  function FaultName(f: Fault): (s: string)
    ensures Short(s)
  {
    match f
    case CONTRACT_VERSION_MISMATCH => "CONTRACT_VERSION_MISMATCH"
    case MALFORMED_GUARDRAIL_RESPONSE => "MALFORMED_GUARDRAIL_RESPONSE"
    case INVALID_ACTION_PROPOSAL => "INVALID_ACTION_PROPOSAL"
    case INVALID_PERMIT => "INVALID_PERMIT"
    case PERMIT_FORBIDDEN => "PERMIT_FORBIDDEN"
    case PERMIT_REQUIRED => "PERMIT_REQUIRED"
    case UNKNOWN_OUTCOME => "UNKNOWN_OUTCOME"
  }

  function ResolveName(f: M.ResolveFault): (s: string)
    ensures Short(s)
  {
    match f
    case INVALID_TOOL => "INVALID_TOOL"
    case INCOMPLETE_CALL => "INCOMPLETE_TOOL_CALL"
    case BAD_VALUE => "INVALID_ARGUMENTS"
    case UNSUPPORTED_MAPPING => "UNSUPPORTED_TOOL_MAPPING"
  }

  function ValueJson(v: V.Value): Json {
    match v
    case Null => Json.Null
    case Bool(b) => Json.Bool(b)
    case Num(n) => Json.Real(n)
    case Str(s) => Json.Str(s)
  }

  function Wired(env: V.Env): Fields {
    map k | k in Names(env) :: ValueJson(env[k.name])
  }

  function Names(env: V.Env): (r: set<Field>)
    ensures forall k | k in r :: k.Named? && k.name in env
  {
    set n | n in env :: Named(n)
  }

  /** `request_params_for` */
  function Params(c: Config, intent: string, args: Fields): seq<(string, V.Value)> {
    if intent == "explain_feature" then [("kb_has_feature", V.Bool(Get(args, Target) in c.features))] else []
  }

  function GateQuery(c: Config, intent: string, snap: Snapshot, params: seq<(string, V.Value)>): P.Query {
    P.Query(c.rules, c.variables, intent, P.Gate, snap.state, params)
  }

  function OrElse(a: Option<string>, b: string): string {
    if a.Some? && a.value != "" then a.value else b
  }

  /** The arguments of one `decision_envelope` call, and where to send its fault. */
  datatype Draft = Draft(requestId: Json, errorId: Json, proposal: Fields, intent: string, outcome: Outcome, rule: string,
                         version: int, reason: string, relevant: V.Env, confirmation: Option<Fields>,
                         answer: Option<Fields>, faultCode: Option<string>)

  function Enveloped(c: Config, draft: Draft, stamp: Stamp): Result<Fields, Fault>
    requires ProposalId in draft.proposal
  {
    DecisionEnvelope(draft.requestId, draft.proposal, draft.intent, draft.outcome, draft.rule, draft.version, c.checksum,
                     draft.reason, Wired(draft.relevant), draft.answer, draft.confirmation, stamp)
  }

  /** A decision body, or the error body its builder's fault is turned into. */
  function Decided(c: Config, tokens: Tokens, draft: Draft, mint: Mint): Response
    requires ProposalId in draft.proposal
  {
    match Enveloped(c, draft, mint.stamp)
    case Err(f) => Refuse(tokens, draft.errorId, if draft.faultCode.Some? then draft.faultCode.value else FaultName(f))
    case Ok(body) => Response.Response(body, tokens, if draft.outcome.ALLOW? then Some(mint) else None, None)
  }

  const INTERNAL: Option<string> := Some(Spell(GUARDRAIL_INTERNAL_ERROR))

  function ConfirmationBlock(id: Json, proposalId: Json, expiresAt: int): Fields {
    map[ConfirmationId := id, ProposalId := proposalId, ExpiresAt := Time(expiresAt), SingleUse := Bool(true)]
  }

  /** Park the proposal behind a new token and ask for confirmation. */
  function AskConfirmation(c: Config, tokens: Tokens, draft: Draft, nonce: Fresh, mint: Mint): Response
    requires ProposalId in draft.proposal
  {
    Decided(c, Parked(tokens, draft, nonce), Asked(draft, nonce), mint).(parking := Some(ParkingOf(draft, nonce, mint)))
  }

  function Parked(tokens: Tokens, draft: Draft, nonce: Fresh): Tokens {
    CreateToken(tokens, Str(nonce.tokenId), draft.proposal, draft.intent, draft.rule, nonce.now)
  }

  function ParkingOf(draft: Draft, nonce: Fresh, mint: Mint): Parking {
    Parking(Str(nonce.tokenId),
            Token(draft.proposal, draft.intent, draft.rule, Get(draft.proposal, SessionId), nonce.now + CONFIRM_TTL),
            mint.query, mint.origin)
  }

  function Asked(draft: Draft, nonce: Fresh): (r: Draft)
    requires ProposalId in draft.proposal
    ensures r.proposal == draft.proposal
  {
    var block := ConfirmationBlock(Str(nonce.tokenId), draft.proposal[ProposalId], nonce.now + CONFIRM_TTL);
    draft.(outcome := P.CONFIRM, rule := OrElse(Some(draft.rule), Spell(R000)), confirmation := Some(block),
           answer := None, faultCode := INTERNAL)
  }

  function EvaluateAction(c: Config, tokens: Tokens, p: Fields, requestId: Json, snap: Snapshot, nonce: Fresh): Response {
    var proposalId := Either(AsId(Get(p, ProposalId)), Str(Spell(UNKNOWN_ID)));
    match ProposalFault(p)
    case Some(f) => Refuse(tokens, proposalId, FaultName(f))
    case None =>
      match M.Resolve(c.table, p[Tool], p[Arguments].fields)
      case Err(f) => Refuse(tokens, proposalId, ResolveName(f))
      case Ok(intent) =>
        var q := GateQuery(c, intent, snap, Params(c, intent, p[Arguments].fields));
        var d := P.Decide(q);
        var reqId := Str(nonce.requestId);
        if d.failClosed then Refuse(tokens, proposalId, ReasonName(d.reason))
        else if d.outcome.None? then Refuse(tokens, proposalId, FaultName(UNKNOWN_OUTCOME))
        else
          var rule := OrElse(d.ruleId, "");
          var mint := Mint(p, intent, rule, nonce.stamp, q, Direct);
          var draft := Draft(reqId, proposalId, p, intent, d.outcome.value, rule, snap.version, ReasonName(d.reason),
                             d.relevant, None, nonce.answer, None);
          if d.outcome.value.CONFIRM? then AskConfirmation(c, tokens, draft.(errorId := requestId), nonce, mint)
          else Decided(c, tokens, draft, mint)
  }

  /** The driver said yes: take the token, look at the vehicle again, and only then perhaps issue a permit. */
  function ConfirmRequest(c: Config, tokens: Tokens, payload: Fields, requestId: Json, snap: Snapshot, nonce: Fresh)
    : Response
  {
    if AsId(Get(payload, ConfirmationId)) == Null || AsId(Get(payload, SessionId)) == Null
       || AsId(Get(payload, RequestId)) == Null
    then Refuse(tokens, requestId, Spell(INVALID_CONFIRMATION))
    else
      TokenTaken(c, Consume(tokens, payload[ConfirmationId], payload[SessionId], nonce.now), payload[ConfirmationId],
                 requestId, snap, nonce)
  }

  function TokenTaken(c: Config, consumed: (Tokens, Taken), id: Json, requestId: Json, snap: Snapshot, nonce: Fresh)
    : Response
  {
    match consumed.1
    case Mismatch => Refuse(consumed.0, requestId, Spell(CONFIRMATION_SESSION_MISMATCH))
    case Unknown => Refuse(consumed.0, requestId, Spell(CONFIRMATION_NOT_ACTIVE))
    case Late => Refuse(consumed.0, requestId, Spell(CONFIRMATION_NOT_ACTIVE))
    case Live(token) => Reevaluate(c, consumed.0, id, token, requestId, GateQuery(c, token.intent, snap, []), snap, nonce)
  }

  predicate SameRuleConfirm(d: P.Decision, originRule: string) {
    d.outcome == Some(P.CONFIRM) && OrElse(d.ruleId, "") == originRule
  }

  function RenewedMint(id: Json, token: Token, q: P.Query, stamp: Stamp): Mint {
    Mint(token.proposal, token.intent, OrElse(P.Decide(q).ruleId, OrElse(Some(token.originRule), Spell(R000))), stamp, q,
         Confirmed(id, token.originRule))
  }

  /** The reply when the fresh evaluation neither allows nor repeats the confirmed rule. */
  function RenewedDraft(token: Token, requestId: Json, snap: Snapshot, d: P.Decision): Draft
    requires d.outcome.Some?
  {
    Draft(requestId, requestId, token.proposal, token.intent, d.outcome.value, OrElse(d.ruleId, ""), snap.version,
          ReasonName(d.reason), d.relevant, None, None, INTERNAL)
  }

  function AllowedDraft(draft: Draft, rule: string): Draft {
    draft.(outcome := P.ALLOW, rule := rule, reason := "CONFIRMATION_REEVALUATED_ALLOW")
  }

  function Reevaluate(c: Config, tokens: Tokens, id: Json, token: Token, requestId: Json, q: P.Query, snap: Snapshot,
                      nonce: Fresh): Response
  {
    if P.Decide(q).failClosed then Refuse(tokens, requestId, ReasonName(P.Decide(q).reason))
    else if P.Decide(q).outcome.None? || ProposalId !in token.proposal then Refuse(tokens, requestId, INTERNAL.value)
    else Renewed(c, tokens, token, RenewedDraft(token, requestId, snap, P.Decide(q)), P.Decide(q),
                 RenewedMint(id, token, q, nonce.stamp), nonce)
  }

  function Renewed(c: Config, tokens: Tokens, token: Token, draft: Draft, d: P.Decision, mint: Mint, nonce: Fresh): Response
    requires ProposalId in draft.proposal
  {
    if d.outcome == Some(P.ALLOW) || SameRuleConfirm(d, token.originRule)
    then Decided(c, tokens, AllowedDraft(draft, mint.rule), mint)
    else if d.outcome == Some(P.CONFIRM) then AskConfirmation(c, tokens, draft, nonce, mint)
    else Decided(c, tokens, draft, mint)
  }

  /** `_monitor`: no tokens, no action permit; "keep running" is told by an ALLOW bound to the request itself. */
  function MonitorRequest(c: Config, tokens: Tokens, payload: Fields, requestId: Json, supplied: Supplied, snap: Snapshot,
                          nonce: Fresh): Response
  {
    var id, intent := AsId(Get(payload, ActiveActionId())), AsId(Get(payload, Intent));
    if id == Null || intent == Null || AsId(Get(payload, RequestId)) == Null
    then Refuse(tokens, requestId, Spell(INVALID_MONITOR_REQUEST))
    else if supplied.Refused? then Refuse(tokens, requestId, Spell(INVALID_VEHICLE_STATE))
    else if !intent.Str? then Refuse(tokens, requestId, Spell(NOT_A_MONITORED_INTENT))
    else
      var state := if supplied.Given? then supplied.state else snap.state;
      var version := if supplied.Given? || snap.version < 0 then 0 else snap.version;
      var d := P.Decide(P.Query(c.rules, c.variables, intent.s, P.Monitor, state, []));
      if d.failClosed then
        Refuse(tokens, requestId, if d.reason.NoRuleForPhase? || d.reason.IntentNotInCatalog?
                                  then Spell(NOT_A_MONITORED_INTENT) else ReasonName(d.reason))
      else
        var outcome := if d.outcome.None? then P.ALLOW else d.outcome.value;
        var rule := OrElse(d.ruleId, if outcome.ALLOW? then Spell(MONITOR_NO_TRIGGER) else Spell(MONITOR_RULE));
        Response.Response(MonitorEnvelope(requestId, id, intent.s, outcome, rule, version, c.checksum, ReasonName(d.reason),
                                 Wired(d.relevant), Sha(MonitorDigest(payload)), nonce.stamp), tokens, None, None)
  }

  function ActiveActionId(): Field {
    Named("active_action_id")
  }

  function MonitorDigest(payload: Fields): Projection {
    MonitorProjection(Get(payload, ActiveActionId()), Get(payload, Intent), Get(payload, RequestId))
  }

  function QueryRequest(c: Config, tokens: Tokens, payload: Fields, requestId: Json, snap: Snapshot, nonce: Fresh): Response {
    if !IsString(Get(payload, Tool)) || !Get(payload, Arguments).Obj? then Refuse(tokens, requestId, Spell(INVALID_QUERY))
    else
      var args := payload[Arguments].fields;
      match M.Resolve(c.table, payload[Tool], args)
      case Err(f) => Refuse(tokens, requestId, ResolveName(f))
      case Ok(intent) =>
        if intent !in c.readOnly then Refuse(tokens, requestId, Spell(NOT_A_QUERY_INTENT))
        else
          var d := P.Decide(GateQuery(c, intent, snap, Params(c, intent, args)));
          if d.failClosed then Refuse(tokens, requestId, ReasonName(d.reason))
          else
            var outcome := if d.outcome.None? then P.UNKNOWN else d.outcome.value;
            var reqId := if requestId != Str(Spell(UNKNOWN_ID)) then requestId else Str(nonce.requestId);
            match QueryEnvelope(reqId, Either(AsId(Get(payload, ProposalId)), Str(Spell(QUERY_ID))), intent, outcome,
                                OrElse(d.ruleId, Spell(Q000)), snap.version, c.checksum, ReasonName(d.reason),
                                Wired(d.relevant), nonce.answer)
            case Err(f) => Refuse(tokens, requestId, FaultName(f))
            case Ok(body) => Response.Response(body, tokens, None, None)
  }

  /** `GuardrailService.handle` on the four contract routes. */
  function Handle(c: Config, tokens: Tokens, route: Route, payload: Json, supplied: Supplied, snap: Snapshot, nonce: Fresh)
    : Response
  {
    if !payload.Obj? then Refuse(tokens, Str(Spell(UNKNOWN_ID)), Spell(INVALID_JSON))
    else
      var p := payload.fields;
      var requestId := Either(AsId(Get(p, RequestId)), Either(AsId(Get(p, ProposalId)), Str(Spell(UNKNOWN_ID))));
      if Get(p, ContractVersion) != Word(Version) then Refuse(tokens, requestId, FaultName(CONTRACT_VERSION_MISMATCH))
      else
        match route
        case ActionRoute => EvaluateAction(c, tokens, p, requestId, snap, nonce)
        case QueryRoute => QueryRequest(c, tokens, p, requestId, snap, nonce)
        case ConfirmRoute => ConfirmRequest(c, tokens, p, requestId, snap, nonce)
        case MonitorRoute => MonitorRequest(c, tokens, p, requestId, supplied, snap, nonce)
  }

  // ---- every body is one the agent accepts -------------------------------------------------------------------

  /** The workbook names its rules and intents with identifiers; ids from uuid are identifiers too. */
  ghost predicate WellNamed(c: Config) {
    c.checksum.Sha? && forall r | r in c.rules :: Short(r.id) && Short(r.intent)
  }

  predicate FreshOk(nonce: Fresh) {
    Short(nonce.requestId) && Short(nonce.stamp.id)
  }

  /** The guardrail itself resolves the proposal's call to this intent. */
  ghost predicate Resolved(c: Config, p: Fields, intent: string) {
    ValidProposal(p) && M.Resolve(c.table, p[Tool], p[Arguments].fields) == Ok(intent)
  }

  /** Only valid proposals are parked behind a token, with the intent of their own call. */
  ghost predicate TokensOk(c: Config, tokens: Tokens) {
    forall id | id in tokens.pending :: Resolved(c, tokens.pending[id].proposal, tokens.pending[id].intent)
  }

  /** Accepted by the agent; a permit is present exactly with a mint, and bound to the minted proposal. */
  ghost predicate Good(r: Response) {
    && ValidResult(r.body)
    && (r.mint.Some? <==> Permit in r.body)
    && (r.mint.Some? ==>
          && ValidProposal(r.mint.value.proposal) && StateVersion in r.body && r.body[StateVersion].Int?
          && PolicyChecksum in r.body
          && r.body[Permit] == Obj(MintPermit(Digest(r.mint.value.proposal), r.mint.value.intent, r.mint.value.rule,
                                              r.body[StateVersion].i, r.body[PolicyChecksum], r.mint.value.stamp)))
  }

  lemma RefusalGood(tokens: Tokens, requestId: Json, code: string)
    requires IsIdentifier(requestId) && Short(code)
    ensures Good(Refuse(tokens, requestId, code))
  {
    ErrorAccepted(requestId, code, "refused");
    hide Spell, ErrorEnvelope, ValidResult;
  }

  /** A decision that was reached names a rule of the workbook and its intent. */
  lemma DecisionNamed(c: Config, q: P.Query)
    requires WellNamed(c) && q.rules == c.rules && !P.Decide(q).failClosed
    ensures Short(q.intent)
    ensures P.Decide(q).outcome.Some? <==> P.Decide(q).ruleId.Some?
    ensures P.Decide(q).ruleId.Some? ==> Short(P.Decide(q).ruleId.value)
  {
    var d := P.Decide(q);
    P.FailClosed(q);
    if d.outcome.Some? {
      P.DecisionEvidence(q, d.ruleId.value);
      assert P.Explained(q, d, d.ruleId.value);
    } else {
      var r :| P.Candidate(q, r);
      SilentIsNameless(q);
    }
  }

  lemma SilentIsNameless(q: P.Query)
    requires P.Decide(q).outcome.None?
    ensures P.Decide(q).ruleId.None?
  {}

  lemma GateDecides(q: P.Query)
    requires q.mode.Gate? && !P.Decide(q).failClosed
    ensures P.Decide(q).outcome.Some?
  {
    P.FailClosed(q);
  }

  predicate DraftOk(draft: Draft) {
    && ValidProposal(draft.proposal) && IsIdentifier(draft.requestId) && IsIdentifier(draft.errorId)
    && Short(draft.intent) && Short(draft.rule) && (draft.faultCode.Some? ==> Short(draft.faultCode.value))
  }

  predicate MintFor(draft: Draft, mint: Mint) {
    mint.proposal == draft.proposal && mint.intent == draft.intent && mint.rule == draft.rule && Short(mint.stamp.id)
  }

  lemma DecidedGood(c: Config, tokens: Tokens, draft: Draft, mint: Mint)
    requires DraftOk(draft) && Short(mint.stamp.id) && (draft.outcome.ALLOW? ==> MintFor(draft, mint))
    ensures Good(Decided(c, tokens, draft, mint))
  {
    var relevant := Wired(draft.relevant);
    DecisionAccepted(draft.requestId, draft.proposal, draft.intent, draft.outcome, draft.rule, draft.version, c.checksum,
                     draft.reason, relevant, draft.answer, draft.confirmation, mint.stamp);
    EnvelopeEchoes(draft.requestId, draft.proposal, draft.intent, draft.outcome, draft.rule, draft.version, c.checksum,
                   draft.reason, relevant, draft.answer, draft.confirmation, mint.stamp);
    var r := Enveloped(c, draft, mint.stamp);
    hide Spell, DecisionEnvelope, ValidResult, ValidProposal, MintPermit, Digest, Wired;
    if r.Err? {
      RefusalGood(tokens, draft.errorId, if draft.faultCode.Some? then draft.faultCode.value else FaultName(r.error));
    }
  }

  lemma EnvelopeEchoes(requestId: Json, proposal: Fields, intent: string, outcome: Outcome, rule: string,
                       version: int, checksum: Json, reason: string, relevant: Fields, answer: Option<Fields>,
                       confirmation: Option<Fields>, stamp: Stamp)
    requires ProposalId in proposal
    ensures var r := DecisionEnvelope(requestId, proposal, intent, outcome, rule, version, checksum, reason, relevant,
                                      answer, confirmation, stamp);
            r.Ok? ==> StateVersion in r.value && r.value[StateVersion] == Int(version)
                      && PolicyChecksum in r.value && r.value[PolicyChecksum] == checksum
  {
    hide Spell, ReasonToken, MintPermit, ProposalFault, Digest;
  }

  lemma AskGood(c: Config, tokens: Tokens, draft: Draft, nonce: Fresh, mint: Mint)
    requires DraftOk(draft) && Short(mint.stamp.id)
    ensures Good(AskConfirmation(c, tokens, draft, nonce, mint))
  {
    AskedOk(draft, nonce);
    hide Spell, Asked, DraftOk, Good, Decided, Parked;
    DecidedGood(c, Parked(tokens, draft, nonce), Asked(draft, nonce), mint);
  }

  lemma AskedOk(draft: Draft, nonce: Fresh)
    requires DraftOk(draft)
    ensures ProposalId in draft.proposal && DraftOk(Asked(draft, nonce)) && !Asked(draft, nonce).outcome.ALLOW?
  {
    hide Spell, ConfirmationBlock;
  }

  lemma ActionGood(c: Config, tokens: Tokens, p: Fields, requestId: Json, snap: Snapshot, nonce: Fresh)
    requires WellNamed(c) && FreshOk(nonce) && IsIdentifier(requestId)
    ensures var r := EvaluateAction(c, tokens, p, requestId, snap, nonce);
            Good(r) && (r.mint.Some? ==> r.mint.value.proposal == p && r.mint.value.origin == Direct)
  {
    hide Spell, Good, P.Decide, M.Resolve, Wired, ReasonName, Params, DecisionEnvelope;
    var proposalId := Either(AsId(Get(p, ProposalId)), Str(Spell(UNKNOWN_ID)));
    if ProposalFault(p).Some? {
      RefusalGood(tokens, proposalId, FaultName(ProposalFault(p).value));
    } else {
      var resolved := M.Resolve(c.table, p[Tool], p[Arguments].fields);
      if resolved.Err? {
        RefusalGood(tokens, proposalId, ResolveName(resolved.error));
      } else {
        ActionDecidedGood(c, tokens, p, requestId, snap, nonce, resolved.value);
      }
    }
  }

  lemma ActionDecidedGood(c: Config, tokens: Tokens, p: Fields, requestId: Json, snap: Snapshot, nonce: Fresh, intent: string)
    requires WellNamed(c) && FreshOk(nonce) && IsIdentifier(requestId) && ValidProposal(p)
    requires M.Resolve(c.table, p[Tool], p[Arguments].fields) == Ok(intent)
    ensures var r := EvaluateAction(c, tokens, p, requestId, snap, nonce);
            Good(r) && (r.mint.Some? ==> r.mint.value.proposal == p && r.mint.value.origin == Direct)
  {
    hide Spell, Good, P.Decide, M.Resolve, Wired, ReasonName, Params, DecisionEnvelope;
    var proposalId := Either(AsId(Get(p, ProposalId)), Str(Spell(UNKNOWN_ID)));
    var q := GateQuery(c, intent, snap, Params(c, intent, p[Arguments].fields));
    var d := P.Decide(q);
    if d.failClosed {
      FailNamed(q);
      RefusalGood(tokens, proposalId, ReasonName(d.reason));
    } else {
      GateDecides(q);
      DecisionNamed(c, q);
      var rule := OrElse(d.ruleId, "");
      var mint := Mint(p, intent, rule, nonce.stamp, q, Direct);
      var draft := Draft(Str(nonce.requestId), proposalId, p, intent, d.outcome.value, rule, snap.version,
                         ReasonName(d.reason), d.relevant, None, nonce.answer, None);
      assert DraftOk(draft) && DraftOk(draft.(errorId := requestId));
      hide DraftOk, Decided, AskConfirmation;
      if d.outcome.value.CONFIRM? {
        AskGood(c, tokens, draft.(errorId := requestId), nonce, mint);
        OnlyAllowMints(c, tokens, draft.(errorId := requestId), nonce, mint);
      } else {
        DecidedGood(c, tokens, draft, mint);
        MintIsGiven(c, tokens, draft, mint);
      }
    }
  }

  lemma FailNamed(q: P.Query)
    requires P.Decide(q).failClosed
    ensures Short(ReasonName(P.Decide(q).reason))
  {
    P.FailClosed(q);
    PolicyHasOutcome(q);
  }

  lemma PolicyHasOutcome(q: P.Query)
    ensures P.Decide(q).reason.Policy? ==> P.Decide(q).outcome.Some?
  {}

  /** Only valid proposals enter the token table, so only valid ones leave it. */
  lemma ParkedValid(c: Config, tokens: Tokens, id: Json, session: Json, now: int)
    requires TokensOk(c, tokens)
    ensures TokensOk(c, Consume(tokens, id, session, now).0)
    ensures var (after, taken) := Consume(tokens, id, session, now);
            taken.Live? ==>
              && id in tokens.pending && taken.token == tokens.pending[id]
              && Resolved(c, taken.token.proposal, taken.token.intent)
              && after == Tokens.Tokens(tokens.pending - {id}, tokens.consumed + {id})
  {
    hide Spell, Resolved;
  }

  lemma ResolvedValid(c: Config, p: Fields, intent: string)
    requires Resolved(c, p, intent)
    ensures ValidProposal(p)
  {}

  lemma AllowedOk(draft: Draft, mint: Mint)
    requires DraftOk(draft) && MintFor(draft, mint)
    ensures var allowed := AllowedDraft(draft, mint.rule);
            DraftOk(allowed) && MintFor(allowed, mint) && ProposalId in draft.proposal && ProposalId in allowed.proposal
    ensures Short(mint.stamp.id)
  {}

  lemma RenewedGood(c: Config, tokens: Tokens, token: Token, draft: Draft, d: P.Decision, mint: Mint, nonce: Fresh)
    requires DraftOk(draft) && MintFor(draft, mint) && d.outcome == Some(draft.outcome)
    ensures ProposalId in draft.proposal
    ensures var r := Renewed(c, tokens, token, draft, d, mint, nonce);
            Good(r) && (r.mint.Some? ==> r.mint.value == mint)
  {
    hide Spell, DraftOk, Good, Decided, AskConfirmation, SameRuleConfirm, AllowedDraft, MintFor;
    var allowed := AllowedDraft(draft, mint.rule);
    AllowedOk(draft, mint);
    DecidedGood(c, tokens, allowed, mint);
    MintIsGiven(c, tokens, allowed, mint);
    AskGood(c, tokens, draft, nonce, mint);
    OnlyAllowMints(c, tokens, draft, nonce, mint);
    DecidedGood(c, tokens, draft, mint);
    MintIsGiven(c, tokens, draft, mint);
  }

  lemma HasId(p: Fields)
    requires ValidProposal(p)
    ensures ProposalId in p
  {}

  lemma ReevaluateGood(c: Config, tokens: Tokens, id: Json, token: Token, requestId: Json, q: P.Query, snap: Snapshot,
                       nonce: Fresh)
    requires WellNamed(c) && FreshOk(nonce) && IsIdentifier(requestId) && ValidProposal(token.proposal)
    requires q == GateQuery(c, token.intent, snap, [])
    ensures var r := Reevaluate(c, tokens, id, token, requestId, q, snap, nonce);
            Good(r) && (r.mint.Some? ==> r.mint.value == RenewedMint(id, token, q, nonce.stamp))
  {
    hide Spell, Good, P.Decide, ReasonName, ValidProposal, IsIdentifier, Renewed;
    HasId(token.proposal);
    var d := P.Decide(q);
    if d.failClosed {
      FailNamed(q);
      RefusalGood(tokens, requestId, ReasonName(d.reason));
    } else {
      GateDecides(q);
      DecisionNamed(c, q);
      RenewedGood(c, tokens, token, RenewedDraft(token, requestId, snap, d), d, RenewedMint(id, token, q, nonce.stamp), nonce);
    }
  }

  lemma ConfirmGood(c: Config, tokens: Tokens, payload: Fields, requestId: Json, snap: Snapshot, nonce: Fresh)
    requires WellNamed(c) && FreshOk(nonce) && IsIdentifier(requestId) && TokensOk(c, tokens)
    ensures var r := ConfirmRequest(c, tokens, payload, requestId, snap, nonce);
            Good(r) && (r.mint.Some? ==> MintedFor(r.mint.value, tokens, ConfirmRoute, payload))
  {
    hide Spell, Good, TokenTaken, Consume, ErrorEnvelope, ValidProposal, IsIdentifier, TokensOk, Resolved;
    RefusalGood(tokens, requestId, Spell(INVALID_CONFIRMATION));
    if AsId(Get(payload, ConfirmationId)) != Null && AsId(Get(payload, SessionId)) != Null {
      var id, session := payload[ConfirmationId], payload[SessionId];
      ParkedValid(c, tokens, id, session, nonce.now);
      var consumed := Consume(tokens, id, session, nonce.now);
      if consumed.1.Live? { ResolvedValid(c, consumed.1.token.proposal, consumed.1.token.intent); }
      TakenGood(c, consumed, id, requestId, snap, nonce);
    }
  }

  lemma TakenGood(c: Config, consumed: (Tokens, Taken), id: Json, requestId: Json, snap: Snapshot, nonce: Fresh)
    requires WellNamed(c) && FreshOk(nonce) && IsIdentifier(requestId)
    requires consumed.1.Live? ==> ValidProposal(consumed.1.token.proposal)
    ensures var r := TokenTaken(c, consumed, id, requestId, snap, nonce);
            && Good(r)
            && (r.mint.Some? ==> consumed.1.Live? && r.mint.value.proposal == consumed.1.token.proposal)
  {
    hide Spell, Good, Reevaluate, ValidProposal, IsIdentifier;
    RefusalGood(consumed.0, requestId, Spell(CONFIRMATION_SESSION_MISMATCH));
    RefusalGood(consumed.0, requestId, Spell(CONFIRMATION_NOT_ACTIVE));
    if consumed.1.Live? {
      var token := consumed.1.token;
      ReevaluateGood(c, consumed.0, id, token, requestId, GateQuery(c, token.intent, snap, []), snap, nonce);
    }
  }

  lemma MintIsGiven(c: Config, tokens: Tokens, draft: Draft, mint: Mint)
    requires ProposalId in draft.proposal
    ensures Decided(c, tokens, draft, mint).mint.Some? ==> Decided(c, tokens, draft, mint).mint.value == mint
  {
    hide Enveloped;
  }

  lemma OnlyAllowMints(c: Config, tokens: Tokens, draft: Draft, nonce: Fresh, mint: Mint)
    requires ProposalId in draft.proposal
    ensures AskConfirmation(c, tokens, draft, nonce, mint).mint == None
  {
    hide Spell, Enveloped, CreateToken;
  }

  /** The permit of a "keep running" reply: bound to a monitor request, never to a proposal. */
  predicate KeepRunning(body: Fields) {
    && Get(body, Permit).Obj? && Get(body[Permit].fields, ProposalDigest).Sha?
    && body[Permit].fields[ProposalDigest].of.MonitorProjection?
  }

  lemma MonitorGood(c: Config, tokens: Tokens, payload: Fields, requestId: Json, supplied: Supplied, snap: Snapshot,
                    nonce: Fresh)
    requires WellNamed(c) && FreshOk(nonce) && IsIdentifier(requestId)
    ensures var r := MonitorRequest(c, tokens, payload, requestId, supplied, snap, nonce);
            ValidResult(r.body) && r.mint == None && (Permit in r.body ==> KeepRunning(r.body))
  {
    hide Spell, P.Decide, Wired, MonitorEnvelope, ErrorEnvelope, ReasonName, ValidResult, WellNamed, KeepRunning, OrElse,
         MonitorDigest;
    var id, intent := AsId(Get(payload, ActiveActionId())), AsId(Get(payload, Intent));
    ErrorAccepted(requestId, Spell(INVALID_MONITOR_REQUEST), "refused");
    ErrorAccepted(requestId, Spell(INVALID_VEHICLE_STATE), "refused");
    ErrorAccepted(requestId, Spell(NOT_A_MONITORED_INTENT), "refused");
    if id != Null && intent.Str? {
      var state := if supplied.Given? then supplied.state else snap.state;
      var version := if supplied.Given? || snap.version < 0 then 0 else snap.version;
      MonitorDecided(c, payload, requestId, id, intent.s, state, version, nonce);
    }
  }

  lemma MonitorDecided(c: Config, payload: Fields, requestId: Json, id: Json, intent: string, state: V.Env, version: int,
                       nonce: Fresh)
    requires WellNamed(c) && FreshOk(nonce) && IsIdentifier(requestId) && IsIdentifier(id)
    ensures var d := P.Decide(P.Query(c.rules, c.variables, intent, P.Monitor, state, []));
            if d.failClosed then ValidResult(ErrorEnvelope(requestId, ReasonName(d.reason), "refused"))
                                 && Permit !in ErrorEnvelope(requestId, ReasonName(d.reason), "refused")
            else
              var outcome := if d.outcome.None? then P.ALLOW else d.outcome.value;
              var rule := OrElse(d.ruleId, if outcome.ALLOW? then Spell(MONITOR_NO_TRIGGER) else Spell(MONITOR_RULE));
              var body := MonitorEnvelope(requestId, id, intent, outcome, rule, version, c.checksum, ReasonName(d.reason),
                                          Wired(d.relevant), Sha(MonitorDigest(payload)), nonce.stamp);
              ValidResult(body) && (Permit in body ==> KeepRunning(body))
  {
    hide Spell, P.Decide, Wired, MonitorEnvelope, ErrorEnvelope, ReasonName, ValidResult, OrElse, KeepRunning, MonitorDigest;
    var q := P.Query(c.rules, c.variables, intent, P.Monitor, state, []);
    var d := P.Decide(q);
    if d.failClosed {
      FailNamed(q);
      ErrorAccepted(requestId, ReasonName(d.reason), "refused");
    } else {
      DecisionNamed(c, q);
      MonitorReply(c, payload, requestId, id, intent, version, d, nonce);
    }
  }

  lemma MonitorReply(c: Config, payload: Fields, requestId: Json, id: Json, intent: string, version: int, d: P.Decision,
                     nonce: Fresh)
    requires c.checksum.Sha? && FreshOk(nonce) && IsIdentifier(requestId) && IsIdentifier(id) && Short(intent)
    requires d.outcome.Some? ==> d.ruleId.Some? && Short(d.ruleId.value)
    requires d.ruleId.Some? ==> |d.ruleId.value| <= 128
    ensures var outcome := if d.outcome.None? then P.ALLOW else d.outcome.value;
            var rule := OrElse(d.ruleId, if outcome.ALLOW? then Spell(MONITOR_NO_TRIGGER) else Spell(MONITOR_RULE));
            var body := MonitorEnvelope(requestId, id, intent, outcome, rule, version, c.checksum, ReasonName(d.reason),
                                        Wired(d.relevant), Sha(MonitorDigest(payload)), nonce.stamp);
            ValidResult(body) && (Permit in body ==> KeepRunning(body))
  {
    var outcome := if d.outcome.None? then P.ALLOW else d.outcome.value;
    var rule := OrElse(d.ruleId, if outcome.ALLOW? then Spell(MONITOR_NO_TRIGGER) else Spell(MONITOR_RULE));
    assert Short(rule);
    hide Spell, OrElse, MonitorEnvelope, ValidResult, ReasonName, Wired, MonitorDigest;
    MonitorAccepted(requestId, id, intent, outcome, rule, version, c.checksum, ReasonName(d.reason), Wired(d.relevant),
                    Sha(MonitorDigest(payload)), nonce.stamp);
    MonitorBound(payload, intent, rule, version, c.checksum, nonce.stamp);
    hide MintPermit;
  }

  lemma MonitorBound(payload: Fields, intent: string, rule: string, version: int, checksum: Json, stamp: Stamp)
    ensures var permit := MintPermit(Sha(MonitorDigest(payload)), intent, rule, version, checksum, stamp);
            Get(permit, ProposalDigest) == Sha(MonitorDigest(payload)) && MonitorDigest(payload).MonitorProjection?
  {}

  lemma QueryGood(c: Config, tokens: Tokens, payload: Fields, requestId: Json, snap: Snapshot, nonce: Fresh)
    requires WellNamed(c) && FreshOk(nonce) && IsIdentifier(requestId)
    ensures var r := QueryRequest(c, tokens, payload, requestId, snap, nonce);
            ValidResult(r.body) && r.mint == None && Permit !in r.body
  {
    hide Spell, P.Decide, M.Resolve, Wired, QueryEnvelope, ErrorEnvelope, ReasonName, ValidResult, WellNamed, Params,
         GateQuery, ResolveName, FaultName;
    ErrorAccepted(requestId, Spell(INVALID_QUERY), "refused");
    ErrorAccepted(requestId, Spell(NOT_A_QUERY_INTENT), "refused");
    if IsString(Get(payload, Tool)) && Get(payload, Arguments).Obj? {
      var args := payload[Arguments].fields;
      var resolved := M.Resolve(c.table, payload[Tool], args);
      if resolved.Err? {
        ErrorAccepted(requestId, ResolveName(resolved.error), "refused");
      } else {
        QueryDecided(c, payload, requestId, resolved.value, snap, Params(c, resolved.value, args), nonce);
      }
    }
  }

  lemma QueryDecided(c: Config, payload: Fields, requestId: Json, intent: string, snap: Snapshot,
                     params: seq<(string, V.Value)>, nonce: Fresh)
    requires WellNamed(c) && FreshOk(nonce) && IsIdentifier(requestId)
    ensures var d := P.Decide(GateQuery(c, intent, snap, params));
            if d.failClosed then ValidResult(ErrorEnvelope(requestId, ReasonName(d.reason), "refused"))
                                 && Permit !in ErrorEnvelope(requestId, ReasonName(d.reason), "refused")
            else
              var outcome := if d.outcome.None? then P.UNKNOWN else d.outcome.value;
              var reqId := if requestId != Str(Spell(UNKNOWN_ID)) then requestId else Str(nonce.requestId);
              var r := QueryEnvelope(reqId, Either(AsId(Get(payload, ProposalId)), Str(Spell(QUERY_ID))), intent, outcome,
                                     OrElse(d.ruleId, Spell(Q000)), snap.version, c.checksum, ReasonName(d.reason),
                                     Wired(d.relevant), nonce.answer);
              && (r.Ok? ==> ValidResult(r.value) && Permit !in r.value)
              && (r.Err? ==> ValidResult(ErrorEnvelope(requestId, FaultName(r.error), "refused"))
                             && Permit !in ErrorEnvelope(requestId, FaultName(r.error), "refused"))
  {
    hide Spell, P.Decide, Wired, QueryEnvelope, ErrorEnvelope, ReasonName, ValidResult, FaultName, OrElse, Either, AsId;
    var q := GateQuery(c, intent, snap, params);
    var d := P.Decide(q);
    if d.failClosed {
      FailNamed(q);
      ErrorAccepted(requestId, ReasonName(d.reason), "refused");
    } else {
      DecisionNamed(c, q);
      QueryReply(c, payload, requestId, intent, snap.version, d, nonce);
    }
  }

  lemma QueryReply(c: Config, payload: Fields, requestId: Json, intent: string, version: int, d: P.Decision, nonce: Fresh)
    requires c.checksum.Sha? && FreshOk(nonce) && IsIdentifier(requestId) && Short(intent)
    requires d.ruleId.Some? ==> |d.ruleId.value| <= 128
    ensures var outcome := if d.outcome.None? then P.UNKNOWN else d.outcome.value;
            var reqId := if requestId != Str(Spell(UNKNOWN_ID)) then requestId else Str(nonce.requestId);
            var r := QueryEnvelope(reqId, Either(AsId(Get(payload, ProposalId)), Str(Spell(QUERY_ID))), intent, outcome,
                                   OrElse(d.ruleId, Spell(Q000)), version, c.checksum, ReasonName(d.reason),
                                   Wired(d.relevant), nonce.answer);
            && (r.Ok? ==> ValidResult(r.value) && Permit !in r.value)
            && (r.Err? ==> ValidResult(ErrorEnvelope(requestId, FaultName(r.error), "refused"))
                           && Permit !in ErrorEnvelope(requestId, FaultName(r.error), "refused"))
  {
    var outcome := if d.outcome.None? then P.UNKNOWN else d.outcome.value;
    var reqId := if requestId != Str(Spell(UNKNOWN_ID)) then requestId else Str(nonce.requestId);
    var id := Either(AsId(Get(payload, ProposalId)), Str(Spell(QUERY_ID)));
    assert IsIdentifier(id) && IsIdentifier(reqId) && |OrElse(d.ruleId, Spell(Q000))| <= 128;
    hide Spell, OrElse, QueryEnvelope, ErrorEnvelope, ValidResult, ReasonName, Wired, Either, AsId;
    QueryAccepted(reqId, id, intent, outcome, OrElse(d.ruleId, Spell(Q000)), version, c.checksum, ReasonName(d.reason),
                  Wired(d.relevant), nonce.answer);
    ErrorAccepted(requestId, FaultName(UNKNOWN_OUTCOME), "refused");
    QueryFaults(reqId, id, intent, outcome, OrElse(d.ruleId, Spell(Q000)), version, c.checksum, ReasonName(d.reason),
                Wired(d.relevant), nonce.answer);
  }

  lemma QueryFaults(requestId: Json, proposalId: Json, intent: string, outcome: Outcome, rule: string, version: int,
                    checksum: Json, reason: string, relevant: Fields, answer: Option<Fields>)
    ensures var r := QueryEnvelope(requestId, proposalId, intent, outcome, rule, version, checksum, reason, relevant, answer);
            r.Err? ==> r.error == UNKNOWN_OUTCOME
  {
    hide Spell, DecisionCore;
  }

  predicate MintedFor(m: Mint, tokens: Tokens, route: Route, payload: Fields) {
    if route.ActionRoute? then m.proposal == payload
    else
      var id := Get(payload, ConfirmationId);
      route.ConfirmRoute? && id in tokens.pending && m.proposal == tokens.pending[id].proposal
  }

  /**
   Wire round trip: whatever JSON arrives on the four routes, the agent's validator accepts the reply, and a
   permit is there exactly on an ALLOW decision. On the action and confirm routes it is bound to the digest of
   the submitted proposal, or of the one stored behind the token.
   */
  lemma RoundTrip(c: Config, tokens: Tokens, route: Route, payload: Json, supplied: Supplied, snap: Snapshot, nonce: Fresh)
    requires WellNamed(c) && FreshOk(nonce) && TokensOk(c, tokens)
    ensures var r := Handle(c, tokens, route, payload, supplied, snap, nonce);
            && ValidResult(r.body)
            && (Permit in r.body <==> Get(r.body, Kind) == Word(DecisionKind) && Allows(r.body))
            && (route.ActionRoute? || route.ConfirmRoute? ==> Good(r))
            && (Permit in r.body && r.mint.None? ==> route.MonitorRoute? && KeepRunning(r.body))
            && (r.mint.Some? ==> payload.Obj? && MintedFor(r.mint.value, tokens, route, payload.fields))
  {
    hide Spell, EvaluateAction, QueryRequest, ConfirmRequest, MonitorRequest, ValidResult, TokensOk, WellNamed;
    var r := Handle(c, tokens, route, payload, supplied, snap, nonce);
    if !payload.Obj? {
      RefusalGood(tokens, Str(Spell(UNKNOWN_ID)), Spell(INVALID_JSON));
    } else {
      var p := payload.fields;
      var requestId := Either(AsId(Get(p, RequestId)), Either(AsId(Get(p, ProposalId)), Str(Spell(UNKNOWN_ID))));
      assert IsIdentifier(requestId);
      hide Either, Refuse, Good;
      RefusalGood(tokens, requestId, FaultName(CONTRACT_VERSION_MISMATCH));
      GoodIsValid(Refuse(tokens, requestId, FaultName(CONTRACT_VERSION_MISMATCH)));
      match route {
        case ActionRoute => ActionGood(c, tokens, p, requestId, snap, nonce);
        case QueryRoute => QueryGood(c, tokens, p, requestId, snap, nonce);
        case ConfirmRoute => ConfirmGood(c, tokens, p, requestId, snap, nonce);
        case MonitorRoute => MonitorGood(c, tokens, p, requestId, supplied, snap, nonce);
      }
      if Good(r) { GoodIsValid(r); }
      ErrorAccepted(requestId, FaultName(CONTRACT_VERSION_MISMATCH), "refused");
    }
    PermitExactlyOnAllow(r.body);
  }

  lemma GoodIsValid(r: Response)
    requires Good(r)
    ensures ValidResult(r.body) && (r.mint.Some? <==> Permit in r.body)
  {
    hide Spell, ValidResult;
  }

  // ---- why a permit is issued ------------------------------------------------------------------------------------

  function ArgumentsOf(p: Fields): Fields {
    if Get(p, Arguments).Obj? then p[Arguments].fields else map[]
  }

  /** The query a verdict must rest on: with the call's own parameters at first, without any on a re-evaluation. */
  function QueryFor(c: Config, snap: Snapshot, p: Fields, intent: string, origin: Origin): P.Query {
    GateQuery(c, intent, snap, if origin.Direct? then Params(c, intent, ArgumentsOf(p)) else [])
  }

  /** The rule a permit names when the evaluation names none. */
  function DefaultRule(origin: Origin): string {
    match origin
    case Direct => ""
    case Confirmed(_, rule) => OrElse(Some(rule), Spell(R000))
  }

  /**
   The evaluation behind a mint: the guardrail's own resolution of this very call, evaluated to ALLOW, or to
   CONFIRM by the rule the driver has confirmed.
   */
  ghost predicate Justified(c: Config, snap: Snapshot, m: Mint) {
    && Resolved(c, m.proposal, m.intent) && m.query == QueryFor(c, snap, m.proposal, m.intent, m.origin)
    && m.rule == OrElse(P.Decide(m.query).ruleId, DefaultRule(m.origin))
    && (|| P.Decide(m.query).outcome == Some(P.ALLOW)
        || (m.origin.Confirmed? && SameRuleConfirm(P.Decide(m.query), m.origin.rule)))
  }

  /** A confirmed mint uses up its token, in time and in the token's session, and repeats what was parked behind it. */
  ghost predicate UsesToken(before: Tokens, after: Tokens, m: Mint, session: Json, now: int) {
    m.origin.Confirmed? ==>
      && m.origin.token in before.pending
      && Consume(before, m.origin.token, session, now) == (after, Live(before.pending[m.origin.token]))
      && before.pending[m.origin.token].proposal == m.proposal && before.pending[m.origin.token].intent == m.intent
      && before.pending[m.origin.token].originRule == m.origin.rule
  }

  lemma MintJustified(c: Config, tokens: Tokens, route: Route, payload: Json, supplied: Supplied, snap: Snapshot, nonce: Fresh)
    requires TokensOk(c, tokens)
    ensures var r := Handle(c, tokens, route, payload, supplied, snap, nonce);
            r.mint.Some? ==>
              && payload.Obj? && Justified(c, snap, r.mint.value)
              && UsesToken(tokens, r.tokens, r.mint.value, Get(payload.fields, SessionId), nonce.now)
              && r.mint.value.stamp == nonce.stamp
              && (r.mint.value.origin == Direct ==> route.ActionRoute? && r.tokens == tokens)
              && (r.mint.value.origin.Confirmed? ==>
                    route.ConfirmRoute? && r.mint.value.origin.token == Get(payload.fields, ConfirmationId))
  {
    hide EvaluateAction, QueryRequest, ConfirmRequest, MonitorRequest, Justified, TokensOk, UsesToken;
    if payload.Obj? {
      var p := payload.fields;
      var requestId := Either(AsId(Get(p, RequestId)), Either(AsId(Get(p, ProposalId)), Str(Spell(UNKNOWN_ID))));
      match route {
        case ActionRoute => ActionMint(c, tokens, p, requestId, snap, nonce);
        case ConfirmRoute => ConfirmMint(c, tokens, p, requestId, snap, nonce);
        case QueryRoute => QueryMintsNothing(c, tokens, p, requestId, snap, nonce);
        case MonitorRoute =>
      }
      MonitorMintsNothing(c, tokens, p, requestId, supplied, snap, nonce);
    }
  }

  lemma ActionMint(c: Config, tokens: Tokens, p: Fields, requestId: Json, snap: Snapshot, nonce: Fresh)
    ensures var r := EvaluateAction(c, tokens, p, requestId, snap, nonce);
            r.mint.Some? ==>
              && Justified(c, snap, r.mint.value) && r.tokens == tokens && r.mint.value.origin == Direct
              && UsesToken(tokens, r.tokens, r.mint.value, Get(p, SessionId), nonce.now) && r.mint.value.stamp == nonce.stamp
  {
    hide Spell, P.Decide, M.Resolve, ReasonName, Params, Enveloped, FaultName, ResolveName, Wired;
  }

  lemma ConfirmMint(c: Config, tokens: Tokens, p: Fields, requestId: Json, snap: Snapshot, nonce: Fresh)
    requires TokensOk(c, tokens)
    ensures var r := ConfirmRequest(c, tokens, p, requestId, snap, nonce);
            r.mint.Some? ==>
              && Justified(c, snap, r.mint.value) && r.mint.value.origin.Confirmed?
              && r.mint.value.origin.token == Get(p, ConfirmationId)
              && UsesToken(tokens, r.tokens, r.mint.value, Get(p, SessionId), nonce.now) && r.mint.value.stamp == nonce.stamp
  {
    hide Spell, Reevaluate, Justified, Resolved, TokensOk, Consume;
    if AsId(Get(p, ConfirmationId)) != Null && AsId(Get(p, SessionId)) != Null {
      var id, session := p[ConfirmationId], p[SessionId];
      ParkedValid(c, tokens, id, session, nonce.now);
      var consumed := Consume(tokens, id, session, nonce.now);
      if consumed.1.Live? {
        var token := consumed.1.token;
        RenewedMints(c, consumed.0, id, token, requestId, GateQuery(c, token.intent, snap, []), snap, nonce);
      }
    }
  }

  lemma RenewedOnly(c: Config, tokens: Tokens, token: Token, draft: Draft, d: P.Decision, mint: Mint, nonce: Fresh)
    requires ProposalId in draft.proposal && d.outcome == Some(draft.outcome)
    ensures var r := Renewed(c, tokens, token, draft, d, mint, nonce);
            r.mint.Some? ==> && r.mint.value == mint && r.tokens == tokens
                             && (d.outcome == Some(P.ALLOW) || SameRuleConfirm(d, token.originRule))
  {
    hide Enveloped, Parked, Asked, SameRuleConfirm, FaultName;
    OnlyAllowMints(c, tokens, draft, nonce, mint);
  }

  lemma RenewedMints(c: Config, tokens: Tokens, id: Json, token: Token, requestId: Json, q: P.Query, snap: Snapshot,
                     nonce: Fresh)
    requires q == GateQuery(c, token.intent, snap, []) && Resolved(c, token.proposal, token.intent)
    ensures var r := Reevaluate(c, tokens, id, token, requestId, q, snap, nonce);
            r.mint.Some? ==> && Justified(c, snap, r.mint.value) && r.tokens == tokens
                             && r.mint.value == RenewedMint(id, token, q, nonce.stamp)
  {
    hide Spell, P.Decide, ReasonName, Renewed, SameRuleConfirm, Resolved, ErrorEnvelope;
    var d := P.Decide(q);
    if !d.failClosed && d.outcome.Some? && ProposalId in token.proposal {
      RenewedOnly(c, tokens, token, RenewedDraft(token, requestId, snap, d), d, RenewedMint(id, token, q, nonce.stamp), nonce);
    }
  }

  lemma QueryMintsNothing(c: Config, tokens: Tokens, p: Fields, requestId: Json, snap: Snapshot, nonce: Fresh)
    ensures QueryRequest(c, tokens, p, requestId, snap, nonce).mint == None
  {
    hide Spell, P.Decide, M.Resolve, ReasonName, Params, QueryEnvelope, ErrorEnvelope, ResolveName, Wired;
  }

  lemma MonitorMintsNothing(c: Config, tokens: Tokens, p: Fields, requestId: Json, supplied: Supplied, snap: Snapshot,
                            nonce: Fresh)
    ensures MonitorRequest(c, tokens, p, requestId, supplied, snap, nonce).mint == None
  {
    hide Spell, P.Decide, ReasonName, MonitorEnvelope, ErrorEnvelope, Wired;
  }

  // ---- what a request does to the tokens ---------------------------------------------------------------------------

  /** At most one token is taken, the parked one is new, and every other token stays as it was. */
  ghost predicate TokensMove(a: Tokens, b: Tokens, parking: Option<Parking>) {
    && a.consumed <= b.consumed && b.consumed <= a.consumed + a.pending.Keys
    && (forall x, y | x in b.consumed - a.consumed && y in b.consumed - a.consumed :: x == y)
    && (parking.Some? ==> parking.value.id in b.pending && b.pending[parking.value.id] == parking.value.token)
    && (forall id | id in b.pending && !(parking.Some? && id == parking.value.id) ::
          id in a.pending && b.pending[id] == a.pending[id] && id !in b.consumed - a.consumed)
    && (forall id | id in a.pending && id !in b.consumed :: id in b.pending)
  }

  /** A proposal is parked for an evaluation to CONFIRM, under the rule that asked. */
  ghost predicate ParkingOk(c: Config, snap: Snapshot, k: Parking) {
    && Resolved(c, k.token.proposal, k.token.intent)
    && k.query == QueryFor(c, snap, k.token.proposal, k.token.intent, k.origin)
    && SameRuleConfirm(P.Decide(k.query), k.token.originRule)
    && k.token.session == Get(k.token.proposal, SessionId)
  }

  /** A reply asks for confirmation only by the token it parked. */
  ghost predicate ShowsParking(r: Response) {
    || Get(r.body, Confirmation) == Null
    || (r.parking.Some? && var k := r.parking.value;
        Get(r.body, Confirmation) == Obj(ConfirmationBlock(k.id, Get(k.token.proposal, ProposalId), k.token.expiresAt)))
  }

  ghost predicate TokensExplained(c: Config, before: Tokens, snap: Snapshot, nonce: Fresh, r: Response) {
    && TokensMove(before, r.tokens, r.parking) && ShowsParking(r)
    && (r.parking.Some? ==> && ParkingOk(c, snap, r.parking.value) && r.parking.value.id == Str(nonce.tokenId)
                            && r.parking.value.token.expiresAt == nonce.now + CONFIRM_TTL)
  }

  lemma HandleTokens(c: Config, tokens: Tokens, route: Route, payload: Json, supplied: Supplied, snap: Snapshot, nonce: Fresh)
    requires TokensOk(c, tokens)
    ensures TokensExplained(c, tokens, snap, nonce, Handle(c, tokens, route, payload, supplied, snap, nonce))
  {
    hide EvaluateAction, QueryRequest, ConfirmRequest, MonitorRequest, TokensExplained, TokensOk, Refuse;
    if !payload.Obj? {
      RefusalQuiet(c, tokens, tokens, Str(Spell(UNKNOWN_ID)), Spell(INVALID_JSON), snap, nonce);
    } else {
      var p := payload.fields;
      var requestId := Either(AsId(Get(p, RequestId)), Either(AsId(Get(p, ProposalId)), Str(Spell(UNKNOWN_ID))));
      RefusalQuiet(c, tokens, tokens, requestId, FaultName(CONTRACT_VERSION_MISMATCH), snap, nonce);
      match route {
        case ActionRoute => ActionTokens(c, tokens, p, requestId, snap, nonce);
        case ConfirmRoute => ConfirmTokens(c, tokens, p, requestId, snap, nonce);
        case QueryRoute => QueryTokens(c, tokens, p, requestId, snap, nonce);
        case MonitorRoute => MonitorTokens(c, tokens, p, requestId, supplied, snap, nonce);
      }
    }
  }

  lemma StillMoves(tokens: Tokens)
    ensures TokensMove(tokens, tokens, None)
  {}

  lemma RefusalQuiet(c: Config, before: Tokens, tokens: Tokens, requestId: Json, code: string, snap: Snapshot, nonce: Fresh)
    requires TokensMove(before, tokens, None)
    ensures TokensExplained(c, before, snap, nonce, Refuse(tokens, requestId, code))
  {
    hide TokensMove, ParkingOk;
  }

  /** A draft without a confirmation block asks for nothing; one with a block shows it or is refused. */
  lemma DecidedShows(c: Config, tokens: Tokens, draft: Draft, mint: Mint)
    requires ProposalId in draft.proposal
    ensures var r := Decided(c, tokens, draft, mint);
            && r.tokens == tokens && r.parking == None
            && (Get(r.body, Confirmation) == Null
                || (draft.confirmation.Some? && Get(r.body, Confirmation) == Obj(draft.confirmation.value)))
  {
    hide Spell, FaultName, ReasonToken, MintPermit, ProposalFault, Digest, Wired;
  }

  lemma DecidedQuiet(c: Config, before: Tokens, tokens: Tokens, draft: Draft, mint: Mint, snap: Snapshot, nonce: Fresh)
    requires TokensMove(before, tokens, None) && ProposalId in draft.proposal && draft.confirmation == None
    ensures TokensExplained(c, before, snap, nonce, Decided(c, tokens, draft, mint))
  {
    DecidedShows(c, tokens, draft, mint);
    hide Decided, TokensMove, ParkingOk;
  }

  lemma ParkMoves(a: Tokens, b: Tokens, draft: Draft, nonce: Fresh, mint: Mint)
    requires TokensMove(a, b, None)
    ensures TokensMove(a, Parked(b, draft, nonce), Some(ParkingOf(draft, nonce, mint)))
  {}

  /** Asking parks the proposal under the rule that asked. */
  lemma AskExplained(c: Config, before: Tokens, tokens: Tokens, draft: Draft, mint: Mint, snap: Snapshot, nonce: Fresh)
    requires TokensMove(before, tokens, None) && Resolved(c, draft.proposal, draft.intent)
    requires mint.query == QueryFor(c, snap, draft.proposal, draft.intent, mint.origin)
    requires SameRuleConfirm(P.Decide(mint.query), draft.rule)
    ensures ProposalId in draft.proposal
    ensures TokensExplained(c, before, snap, nonce, AskConfirmation(c, tokens, draft, nonce, mint))
  {
    ResolvedValid(c, draft.proposal, draft.intent);
    HasId(draft.proposal);
    ParkMoves(before, tokens, draft, nonce, mint);
    DecidedShows(c, Parked(tokens, draft, nonce), Asked(draft, nonce), mint);
    AskedBlock(draft, nonce);
    hide Decided, TokensMove, Parked, SameRuleConfirm, QueryFor, Resolved, Asked, P.Decide, ConfirmationBlock;
  }

  lemma AskedBlock(draft: Draft, nonce: Fresh)
    requires ProposalId in draft.proposal
    ensures Asked(draft, nonce).confirmation ==
            Some(ConfirmationBlock(Str(nonce.tokenId), Get(draft.proposal, ProposalId), nonce.now + CONFIRM_TTL))
  {
    hide Spell, ConfirmationBlock;
  }

  lemma ActionTokens(c: Config, tokens: Tokens, p: Fields, requestId: Json, snap: Snapshot, nonce: Fresh)
    ensures TokensExplained(c, tokens, snap, nonce, EvaluateAction(c, tokens, p, requestId, snap, nonce))
  {
    hide Spell, P.Decide, M.Resolve, ReasonName, Params, FaultName, ResolveName, Wired, TokensExplained, Refuse, TokensMove,
         ValidProposal;
    StillMoves(tokens);
    var id := Either(AsId(Get(p, ProposalId)), Str(Spell(UNKNOWN_ID)));
    if ProposalFault(p).Some? {
      RefusalQuiet(c, tokens, tokens, id, FaultName(ProposalFault(p).value), snap, nonce);
    } else {
      var resolved := M.Resolve(c.table, p[Tool], p[Arguments].fields);
      if resolved.Err? {
        RefusalQuiet(c, tokens, tokens, id, ResolveName(resolved.error), snap, nonce);
      } else {
        ActionDecidedTokens(c, tokens, p, requestId, snap, nonce, resolved.value);
      }
    }
  }

  lemma ActionDecidedTokens(c: Config, tokens: Tokens, p: Fields, requestId: Json, snap: Snapshot, nonce: Fresh,
                            intent: string)
    requires ProposalFault(p).None? && M.Resolve(c.table, p[Tool], p[Arguments].fields) == Ok(intent)
    ensures TokensExplained(c, tokens, snap, nonce, EvaluateAction(c, tokens, p, requestId, snap, nonce))
  {
    assert Resolved(c, p, intent);
    hide Spell, P.Decide, M.Resolve, ReasonName, Params, FaultName, ResolveName, Wired, TokensExplained, Refuse, TokensMove,
         ProposalFault, AskConfirmation, Decided, Resolved;
    StillMoves(tokens);
    var id := Either(AsId(Get(p, ProposalId)), Str(Spell(UNKNOWN_ID)));
    var q := GateQuery(c, intent, snap, Params(c, intent, p[Arguments].fields));
    var d := P.Decide(q);
    if d.failClosed {
      RefusalQuiet(c, tokens, tokens, id, ReasonName(d.reason), snap, nonce);
    } else if d.outcome.None? {
      RefusalQuiet(c, tokens, tokens, id, FaultName(UNKNOWN_OUTCOME), snap, nonce);
    } else {
      var rule := OrElse(d.ruleId, "");
      var mint := Mint(p, intent, rule, nonce.stamp, q, Direct);
      var draft := Draft(Str(nonce.requestId), id, p, intent, d.outcome.value, rule, snap.version, ReasonName(d.reason),
                         d.relevant, None, nonce.answer, None);
      if d.outcome.value.CONFIRM? {
        AskExplained(c, tokens, tokens, draft.(errorId := requestId), mint, snap, nonce);
      } else {
        DecidedQuiet(c, tokens, tokens, draft, mint, snap, nonce);
      }
    }
  }

  lemma ConfirmTokens(c: Config, tokens: Tokens, p: Fields, requestId: Json, snap: Snapshot, nonce: Fresh)
    requires TokensOk(c, tokens)
    ensures TokensExplained(c, tokens, snap, nonce, ConfirmRequest(c, tokens, p, requestId, snap, nonce))
  {
    hide Spell, TokenTaken, TokensMove, TokensOk, Consume, TokensExplained, Refuse, Resolved;
    StillMoves(tokens);
    RefusalQuiet(c, tokens, tokens, requestId, Spell(INVALID_CONFIRMATION), snap, nonce);
    if AsId(Get(p, ConfirmationId)) != Null && AsId(Get(p, SessionId)) != Null {
      var id, session := p[ConfirmationId], p[SessionId];
      ParkedValid(c, tokens, id, session, nonce.now);
      TokensTaken(tokens, id, session, nonce.now);
      TakenTokens(c, tokens, Consume(tokens, id, session, nonce.now), id, requestId, snap, nonce);
    }
  }

  lemma TokensTaken(tokens: Tokens, id: Json, session: Json, now: int)
    ensures TokensMove(tokens, Consume(tokens, id, session, now).0, None)
  {}

  lemma TakenTokens(c: Config, before: Tokens, consumed: (Tokens, Taken), id: Json, requestId: Json, snap: Snapshot,
                    nonce: Fresh)
    requires TokensMove(before, consumed.0, None)
    requires consumed.1.Live? ==> Resolved(c, consumed.1.token.proposal, consumed.1.token.intent)
    ensures TokensExplained(c, before, snap, nonce, TokenTaken(c, consumed, id, requestId, snap, nonce))
  {
    hide Spell, Reevaluate, TokensMove, Resolved, TokensExplained, Refuse;
    RefusalQuiet(c, before, consumed.0, requestId, Spell(CONFIRMATION_SESSION_MISMATCH), snap, nonce);
    RefusalQuiet(c, before, consumed.0, requestId, Spell(CONFIRMATION_NOT_ACTIVE), snap, nonce);
    if consumed.1.Live? { ReevaluateTokens(c, before, consumed.0, id, consumed.1.token, requestId, snap, nonce); }
  }

  lemma RenewedTokens(c: Config, before: Tokens, tokens: Tokens, token: Token, draft: Draft, d: P.Decision, mint: Mint,
                      snap: Snapshot, nonce: Fresh)
    requires TokensMove(before, tokens, None) && Resolved(c, draft.proposal, draft.intent) && draft.confirmation == None
    requires mint.query == QueryFor(c, snap, draft.proposal, draft.intent, mint.origin) && d == P.Decide(mint.query)
    requires draft.rule == OrElse(d.ruleId, "")
    ensures ProposalId in draft.proposal
    ensures TokensExplained(c, before, snap, nonce, Renewed(c, tokens, token, draft, d, mint, nonce))
  {
    ResolvedValid(c, draft.proposal, draft.intent);
    HasId(draft.proposal);
    hide Decided, TokensMove, AskConfirmation, Resolved, QueryFor, P.Decide, TokensExplained;
    if d.outcome == Some(P.ALLOW) || SameRuleConfirm(d, token.originRule) {
      DecidedQuiet(c, before, tokens, AllowedDraft(draft, mint.rule), mint, snap, nonce);
    } else if d.outcome == Some(P.CONFIRM) {
      AskExplained(c, before, tokens, draft, mint, snap, nonce);
    } else {
      DecidedQuiet(c, before, tokens, draft, mint, snap, nonce);
    }
  }

  lemma ReevaluateTokens(c: Config, before: Tokens, tokens: Tokens, id: Json, token: Token, requestId: Json,
                         snap: Snapshot, nonce: Fresh)
    requires TokensMove(before, tokens, None) && Resolved(c, token.proposal, token.intent)
    ensures TokensExplained(c, before, snap, nonce,
                            Reevaluate(c, tokens, id, token, requestId, GateQuery(c, token.intent, snap, []), snap, nonce))
  {
    hide Spell, P.Decide, ReasonName, TokensMove, Resolved, Renewed, TokensExplained, Refuse, GateQuery;
    var q := GateQuery(c, token.intent, snap, []);
    var d := P.Decide(q);
    RefusalQuiet(c, before, tokens, requestId, ReasonName(d.reason), snap, nonce);
    RefusalQuiet(c, before, tokens, requestId, INTERNAL.value, snap, nonce);
    if d.outcome.Some? {
      RenewedTokens(c, before, tokens, token, RenewedDraft(token, requestId, snap, d), d,
                    RenewedMint(id, token, q, nonce.stamp), snap, nonce);
    }
  }

  lemma QueryTokens(c: Config, tokens: Tokens, p: Fields, requestId: Json, snap: Snapshot, nonce: Fresh)
    ensures TokensExplained(c, tokens, snap, nonce, QueryRequest(c, tokens, p, requestId, snap, nonce))
  {
    hide Spell, P.Decide, M.Resolve, ReasonName, Params, ResolveName, Wired, QueryEnvelope, ErrorEnvelope, TokensMove,
         ParkingOk, GateQuery;
    StillMoves(tokens);
    QueryAsksNothing();
    ErrorAsksNothing();
  }

  lemma ErrorAsksNothing()
    ensures forall id, code, message :: Get(ErrorEnvelope(id, code, message), Confirmation) == Null
  {}

  lemma QueryAsksNothing()
    ensures forall id, pid, intent, outcome, rule, version, checksum, reason, relevant, answer ::
              var r := QueryEnvelope(id, pid, intent, outcome, rule, version, checksum, reason, relevant, answer);
              r.Ok? ==> Get(r.value, Confirmation) == Null
  {
    hide ReasonToken;
  }

  lemma MonitorAsksNothing()
    ensures forall id, action, intent, outcome, rule, version, checksum, reason, relevant, digest, stamp ::
              Get(MonitorEnvelope(id, action, intent, outcome, rule, version, checksum, reason, relevant, digest, stamp),
                  Confirmation) == Null
  {
    hide ReasonToken, MintPermit;
  }

  lemma MonitorTokens(c: Config, tokens: Tokens, p: Fields, requestId: Json, supplied: Supplied, snap: Snapshot, nonce: Fresh)
    ensures TokensExplained(c, tokens, snap, nonce, MonitorRequest(c, tokens, p, requestId, supplied, snap, nonce))
  {
    hide Spell, P.Decide, ReasonName, MonitorEnvelope, ErrorEnvelope, Wired, TokensMove, ParkingOk;
    StillMoves(tokens);
    MonitorAsksNothing();
    ErrorAsksNothing();
  }
}
