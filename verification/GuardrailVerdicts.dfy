/**
 What the guardrail answers (guardrail/service/app.py), route by route and field by field: which body, which permit,
 which token, for every request and every verdict of the policy engine.
 */
module GuardrailVerdicts {
  import opened Wrappers
  import opened Wire
  import opened GuardrailService
  import P = PolicyEngine
  import V = Conditions
  import M = ToolMapping

  // ---- tokens -----------------------------------------------------------------------------------------------

  /** The token belongs to this session; one without a session is open to all. */
  predicate Owns(token: Token, session: Json) {
    token.session in {Str(""), session}
  }

  /** Nobody but its own session takes a token, nobody takes it twice, and only in time is it good for anything. */
  lemma TakeExactly(tokens: Tokens, id: Json, session: Json, now: int)
    ensures var (after, taken) := Consume(tokens, id, session, now);
            && (taken.Unknown? <==> id !in tokens.pending)
            && (taken.Mismatch? <==> id in tokens.pending && !Owns(tokens.pending[id], session))
            && (taken.Late? <==> id in tokens.pending && Owns(tokens.pending[id], session) && now > tokens.pending[id].expiresAt)
            && (taken.Live? <==> id in tokens.pending && Owns(tokens.pending[id], session) && now <= tokens.pending[id].expiresAt)
            && (taken.Live? ==> taken.token == tokens.pending[id])
            && after == if taken.Live? || taken.Late? then Tokens(tokens.pending - {id}, tokens.consumed + {id}) else tokens
  {}

  /** A new token is the proposal's own session's, for thirty seconds; the other tokens stay. */
  lemma CreateExactly(tokens: Tokens, id: Json, proposal: Fields, intent: string, rule: string, now: int)
    ensures var after := CreateToken(tokens, id, proposal, intent, rule, now);
            && id in after.pending && after.consumed == tokens.consumed && after.pending.Keys == tokens.pending.Keys + {id}
            && (forall k | k in tokens.pending && k != id :: after.pending[k] == tokens.pending[k])
            && var t := after.pending[id];
               && t.proposal == proposal && t.intent == intent && t.originRule == rule
               && t.session == Get(proposal, SessionId) && t.expiresAt - now == 30_000_000
  {}

  // ---- bodies ------------------------------------------------------------------------------------------------

  /** What a decision body claims; `subject` is the proposal or active action it is about. */
  datatype Claim = Claim(requestId: Json, subject: Json, intent: string, outcome: Outcome, rule: string, version: int,
                         reason: string, relevant: V.Env)

  ghost predicate Says(body: Fields, c: Config, claim: Claim) {
    && Get(body, ContractVersion) == Word(Version) && Get(body, Kind) == Word(DecisionKind)
    && Get(body, RequestId) == claim.requestId && Get(body, ProposalId) == claim.subject
    && Get(body, Intent) == Str(claim.intent) && Get(body, OutcomeKey) == Word(OutcomeWord(claim.outcome))
    && Get(body, RuleId) == Str(claim.rule) && Get(body, StateVersion) == Int(claim.version)
    && Get(body, PolicyChecksum) == c.checksum && Get(body, ReasonCode) == Str(ReasonToken(claim.reason))
    && Get(body, RelevantState) == Obj(Wired(claim.relevant))
  }

  ghost predicate SaysError(r: Response, tokens: Tokens, requestId: Json, code: string) {
    && Get(r.body, Kind) == Word(ErrorWord) && Get(r.body, RequestId) == requestId && Get(r.body, ErrorKey).Obj?
    && Get(r.body[ErrorKey].fields, Code) == Str(code)
    && r.mint == None && r.parking == None && r.tokens == tokens && Permit !in r.body
  }

  lemma RefuseSays(tokens: Tokens, requestId: Json, code: string)
    requires IsIdentifier(requestId)
    ensures SaysError(Refuse(tokens, requestId, code), tokens, requestId, code)
  {}

  /** What follows an outcome: a permit on ALLOW, an answer on ANSWER and UNKNOWN, a confirmation block on CONFIRM. */
  ghost predicate Attached(body: Fields, outcome: Outcome, answer: Option<Fields>, confirmation: Option<Fields>) {
    && (Permit in body <==> outcome.ALLOW?)
    && Get(body, Answer) == (if (outcome.ANSWER? || outcome.UNKNOWN?) && answer.Some? then Obj(answer.value) else Null)
    && Get(body, Confirmation) == (if outcome.CONFIRM? && confirmation.Some? then Obj(confirmation.value) else Null)
  }

  function CoreOf(c: Config, claim: Claim): Fields {
    DecisionCore(claim.requestId, claim.subject, claim.intent, claim.outcome, claim.rule, claim.version, c.checksum,
                 claim.reason, Wired(claim.relevant))
  }

  lemma CoreSays(c: Config, claim: Claim)
    ensures Says(CoreOf(c, claim), c, claim)
    ensures Permit !in CoreOf(c, claim) && Answer !in CoreOf(c, claim) && Confirmation !in CoreOf(c, claim)
  {
    hide ReasonToken, Wired;
  }

  lemma AddedSays(body: Fields, k: Field, v: Json, c: Config, claim: Claim)
    requires Says(body, c, claim) && k in DECISION_OPTIONAL
    ensures Says(body[k := v], c, claim)
  {
    hide ReasonToken, Wired;
  }

  /** A draft with a rule, for a valid proposal, always becomes its body. */
  lemma DecidedSays(c: Config, tokens: Tokens, draft: Draft, mint: Mint)
    requires c.checksum.Sha? && ValidProposal(draft.proposal) && draft.rule != ""
    requires draft.outcome.CONFIRM? ==> draft.confirmation.Some?
    ensures ProposalId in draft.proposal
    ensures var r := Decided(c, tokens, draft, mint);
            && Says(r.body, c, ClaimOf(draft)) && Attached(r.body, draft.outcome, draft.answer, draft.confirmation)
            && r.tokens == tokens && r.parking == None && r.mint == (if draft.outcome.ALLOW? then Some(mint) else None)
  {
    HasId(draft.proposal);
    ValidHasNoFault(draft.proposal);
    EnvelopeSays(c, draft, mint.stamp);
    hide Enveloped, Says, Attached, ValidProposal, FaultName;
  }

  function ClaimOf(draft: Draft): Claim
    requires ProposalId in draft.proposal
  {
    Claim(draft.requestId, draft.proposal[ProposalId], draft.intent, draft.outcome, draft.rule, draft.version, draft.reason,
          draft.relevant)
  }

  lemma EnvelopeSays(c: Config, draft: Draft, stamp: Stamp)
    requires c.checksum.Sha? && ProposalId in draft.proposal && ProposalFault(draft.proposal).None? && draft.rule != ""
    requires draft.outcome.CONFIRM? ==> draft.confirmation.Some?
    ensures var r := Enveloped(c, draft, stamp);
            r.Ok? && Says(r.value, c, ClaimOf(draft)) && Attached(r.value, draft.outcome, draft.answer, draft.confirmation)
  {
    var claim := ClaimOf(draft);
    var core := CoreOf(c, claim);
    CoreSays(c, claim);
    hide CoreOf, DecisionCore, Says, ProposalFault, Digest, MintPermit, Wired, Attached;
    if draft.outcome.ALLOW? {
      AttachedTo(core, Permit, Obj(MintPermit(Digest(draft.proposal), draft.intent, draft.rule, draft.version, c.checksum, stamp)),
                 c, claim, draft.answer, draft.confirmation);
    } else if draft.outcome.CONFIRM? {
      AttachedTo(core, Confirmation, Obj(draft.confirmation.value), c, claim, draft.answer, draft.confirmation);
    } else if (draft.outcome.ANSWER? || draft.outcome.UNKNOWN?) && draft.answer.Some? {
      AttachedTo(core, Answer, Obj(draft.answer.value), c, claim, draft.answer, draft.confirmation);
    } else {
      NothingAttached(core, c, claim, draft.answer, draft.confirmation);
    }
    EnvelopeUnfolds(c, draft, stamp);
  }

  /** A bare body with the one block its outcome asks for. */
  lemma AttachedTo(core: Fields, k: Field, v: Json, c: Config, claim: Claim, answer: Option<Fields>, confirmation: Option<Fields>)
    requires Says(core, c, claim) && Permit !in core && Answer !in core && Confirmation !in core
    requires match claim.outcome
             case ALLOW => k == Permit
             case CONFIRM => k == Confirmation && confirmation.Some? && v == Obj(confirmation.value)
             case ANSWER => k == Answer && answer.Some? && v == Obj(answer.value)
             case UNKNOWN => k == Answer && answer.Some? && v == Obj(answer.value)
             case _ => false
    ensures Says(core[k := v], c, claim) && Attached(core[k := v], claim.outcome, answer, confirmation)
  {
    AddedSays(core, k, v, c, claim);
    hide Says;
  }

  lemma NothingAttached(core: Fields, c: Config, claim: Claim, answer: Option<Fields>, confirmation: Option<Fields>)
    requires Permit !in core && Answer !in core && Confirmation !in core && !claim.outcome.ALLOW? && !claim.outcome.CONFIRM?
    requires claim.outcome.ANSWER? || claim.outcome.UNKNOWN? ==> answer.None?
    ensures Attached(core, claim.outcome, answer, confirmation)
  {}

  lemma EnvelopeUnfolds(c: Config, draft: Draft, stamp: Stamp)
    requires c.checksum.Sha? && ProposalId in draft.proposal && ProposalFault(draft.proposal).None? && draft.rule != ""
    requires draft.outcome.CONFIRM? ==> draft.confirmation.Some?
    ensures var core := CoreOf(c, ClaimOf(draft));
            Enveloped(c, draft, stamp) == Ok(
              match draft.outcome
              case ALLOW =>
                core[Permit := Obj(MintPermit(Digest(draft.proposal), draft.intent, draft.rule, draft.version, c.checksum, stamp))]
              case CONFIRM => core[Confirmation := Obj(draft.confirmation.value)]
              case ANSWER => if draft.answer.Some? then core[Answer := Obj(draft.answer.value)] else core
              case UNKNOWN => if draft.answer.Some? then core[Answer := Obj(draft.answer.value)] else core
              case _ => core)
  {
    hide DecisionCore, ProposalFault, Digest, MintPermit, Wired;
  }

  lemma ValidHasNoFault(p: Fields)
    requires ValidProposal(p)
    ensures ProposalFault(p) == None
  {}

  /** Asking for confirmation: a CONFIRM body that shows the new token, which holds this proposal under this rule. */
  ghost predicate Asks(r: Response, tokens: Tokens, proposal: Fields, intent: string, rule: string, nonce: Fresh)
    requires ProposalId in proposal
  {
    && r.tokens == CreateToken(tokens, Str(nonce.tokenId), proposal, intent, rule, nonce.now)
    && r.mint == None && r.parking.Some? && r.parking.value.id == Str(nonce.tokenId)
    && Str(nonce.tokenId) in r.tokens.pending && r.parking.value.token == r.tokens.pending[Str(nonce.tokenId)]
    && Attached(r.body, P.CONFIRM, None,
                Some(map[ConfirmationId := Str(nonce.tokenId), ProposalId := proposal[ProposalId],
                         ExpiresAt := Time(nonce.now + 30_000_000), SingleUse := Bool(true)]))
  }

  lemma AskSays(c: Config, tokens: Tokens, draft: Draft, nonce: Fresh, mint: Mint)
    requires c.checksum.Sha? && ValidProposal(draft.proposal) && draft.rule != ""
    ensures ProposalId in draft.proposal
    ensures var r := AskConfirmation(c, tokens, draft, nonce, mint);
            && Says(r.body, c, ClaimOf(draft).(outcome := P.CONFIRM))
            && Asks(r, tokens, draft.proposal, draft.intent, draft.rule, nonce)
  {
    HasId(draft.proposal);
    AskedDraft(draft, nonce);
    AskedToken(tokens, draft, nonce, mint);
    hide Says, Decided, ValidProposal, Asked, Attached, ClaimOf, Parked, ParkingOf, CreateToken;
    DecidedSays(c, Parked(tokens, draft, nonce), Asked(draft, nonce), mint);
  }

  lemma AskedToken(tokens: Tokens, draft: Draft, nonce: Fresh, mint: Mint)
    ensures var after, parking := Parked(tokens, draft, nonce), ParkingOf(draft, nonce, mint);
            && after == CreateToken(tokens, Str(nonce.tokenId), draft.proposal, draft.intent, draft.rule, nonce.now)
            && parking.id == Str(nonce.tokenId) && parking.id in after.pending && parking.token == after.pending[parking.id]
  {}

  lemma AskedDraft(draft: Draft, nonce: Fresh)
    requires ProposalId in draft.proposal && draft.rule != ""
    ensures var asked := Asked(draft, nonce);
            && ClaimOf(asked) == ClaimOf(draft).(outcome := P.CONFIRM) && asked.outcome.CONFIRM? && asked.rule != ""
            && asked.confirmation == Some(map[ConfirmationId := Str(nonce.tokenId), ProposalId := draft.proposal[ProposalId],
                                              ExpiresAt := Time(nonce.now + 30_000_000), SingleUse := Bool(true)])
  {
    hide Spell;
  }

  /** The code of a reason is its first word: whitespace at its ends is not part of it, and it is never empty or long. */
  lemma TokenOfWord(word: string, rest: string)
    requires 1 <= |word| <= 128 && forall i | 0 <= i < |word| :: !IsSpace(word[i])
    ensures ReasonToken(word) == word && ReasonToken(word + " " + rest) == word
  {
    FirstWordIs(word, "");
    assert word + "" == word;
    FirstWordIs(word, " " + rest);
    assert word + (" " + rest) == word + " " + rest;
  }

  lemma {:induction false} FirstWordIs(word: string, rest: string)
    requires (forall i | 0 <= i < |word| :: !IsSpace(word[i])) && (rest == "" || rest[0] == ' ')
    ensures FirstWord(word + rest) == word
  {
    if word == "" {
      assert word + rest == rest;
    } else {
      assert (word + rest)[0] == word[0] && (word + rest)[1..] == word[1..] + rest;
      FirstWordIs(word[1..], rest);
    }
  }

  /** The recorded values go onto the wire without loss: the same body means the same names with the same values. */
  lemma WiredLossless(a: V.Env, b: V.Env)
    requires Wired(a) == Wired(b)
    ensures a == b
  {
    forall n ensures n in a <==> n in b {
      assert n in a <==> Named(n) in Wired(a);
      assert n in b <==> Named(n) in Wired(b);
    }
    forall n | n in a ensures a[n] == b[n] {
      assert Wired(a)[Named(n)] == ValueJson(a[n]) && Wired(b)[Named(n)] == ValueJson(b[n]);
    }
  }

  // ---- the action route -----------------------------------------------------------------------------------------

  /** The identifier an error about a proposal carries. */
  function ErrorId(p: Fields): Json {
    if IsIdentifier(Get(p, ProposalId)) then p[ProposalId] else Str(Spell(UNKNOWN_ID))
  }

  ghost predicate Grants(r: Response, tokens: Tokens) {
    r.mint.Some? && r.tokens == tokens && r.parking == None
  }

  ghost predicate Silent(r: Response, tokens: Tokens) {
    r.mint == None && r.tokens == tokens && r.parking == None
  }

  /**
   The action route: a malformed proposal, an unmapped call and an evaluation that fails closed are errors by their own
   codes; every other verdict is reported as it is, with a permit on ALLOW and a new token on CONFIRM, and nothing else.
   */
  lemma ActionVerdict(c: Config, tokens: Tokens, p: Fields, requestId: Json, snap: Snapshot, nonce: Fresh)
    requires WellNamed(c) && IsIdentifier(requestId)
    ensures var r := EvaluateAction(c, tokens, p, requestId, snap, nonce);
            if ProposalFault(p).Some? then SaysError(r, tokens, ErrorId(p), FaultName(ProposalFault(p).value))
            else
              match M.Resolve(c.table, p[Tool], p[Arguments].fields)
              case Err(f) => SaysError(r, tokens, ErrorId(p), ResolveName(f))
              case Ok(intent) =>
                var d := P.Decide(QueryFor(c, snap, p, intent, Direct));
                if d.failClosed then SaysError(r, tokens, ErrorId(p), ReasonName(d.reason))
                else
                  && d.outcome.Some? && d.ruleId.Some?
                  && Says(r.body, c, Claim(Str(nonce.requestId), p[ProposalId], intent, d.outcome.value, d.ruleId.value,
                                           snap.version, ReasonName(d.reason), d.relevant))
                  && (if d.outcome.value.CONFIRM? then Asks(r, tokens, p, intent, d.ruleId.value, nonce)
                      else Attached(r.body, d.outcome.value, nonce.answer, None))
                  && (d.outcome.value.ALLOW? ==> Grants(r, tokens))
                  && (!d.outcome.value.ALLOW? && !d.outcome.value.CONFIRM? ==> Silent(r, tokens))
  {
    hide Spell, P.Decide, M.Resolve, Wired, ReasonName, Params, FaultName, ResolveName, Refuse, SaysError, Says, Decided,
         AskConfirmation, Asks, Attached;
    if ProposalFault(p).Some? {
      RefuseSays(tokens, ErrorId(p), FaultName(ProposalFault(p).value));
    } else {
      var resolved := M.Resolve(c.table, p[Tool], p[Arguments].fields);
      if resolved.Err? {
        RefuseSays(tokens, ErrorId(p), ResolveName(resolved.error));
      } else {
        ActionDecision(c, tokens, p, requestId, snap, nonce, resolved.value);
      }
    }
  }

  lemma ActionDecision(c: Config, tokens: Tokens, p: Fields, requestId: Json, snap: Snapshot, nonce: Fresh, intent: string)
    requires WellNamed(c) && IsIdentifier(requestId)
    requires ProposalFault(p).None? && M.Resolve(c.table, p[Tool], p[Arguments].fields) == Ok(intent)
    ensures var r := EvaluateAction(c, tokens, p, requestId, snap, nonce);
            var d := P.Decide(QueryFor(c, snap, p, intent, Direct));
            if d.failClosed then SaysError(r, tokens, ErrorId(p), ReasonName(d.reason))
            else
              && d.outcome.Some? && d.ruleId.Some?
              && Says(r.body, c, Claim(Str(nonce.requestId), p[ProposalId], intent, d.outcome.value, d.ruleId.value,
                                       snap.version, ReasonName(d.reason), d.relevant))
              && (if d.outcome.value.CONFIRM? then Asks(r, tokens, p, intent, d.ruleId.value, nonce)
                  else Attached(r.body, d.outcome.value, nonce.answer, None))
              && (d.outcome.value.ALLOW? ==> Grants(r, tokens))
              && (!d.outcome.value.ALLOW? && !d.outcome.value.CONFIRM? ==> Silent(r, tokens))
  {
    hide Spell, P.Decide, M.Resolve, Wired, ReasonName, Params, FaultName, ResolveName, Refuse, SaysError, Says, Decided,
         AskConfirmation, Asks, Attached;
    var q := GateQuery(c, intent, snap, Params(c, intent, p[Arguments].fields));
    assert q == QueryFor(c, snap, p, intent, Direct);
    var d := P.Decide(q);
    if d.failClosed {
      RefuseSays(tokens, ErrorId(p), ReasonName(d.reason));
    } else {
      GateDecides(q);
      DecisionNamed(c, q);
      var rule := OrElse(d.ruleId, "");
      assert rule == d.ruleId.value;
      var mint := Mint(p, intent, rule, nonce.stamp, q, Direct);
      var draft := Draft(Str(nonce.requestId), Either(AsId(Get(p, ProposalId)), Str(Spell(UNKNOWN_ID))), p, intent,
                         d.outcome.value, rule, snap.version, ReasonName(d.reason), d.relevant, None, nonce.answer, None);
      if d.outcome.value.CONFIRM? {
        AskSays(c, tokens, draft.(errorId := requestId), nonce, mint);
      } else {
        DecidedSays(c, tokens, draft, mint);
      }
    }
  }

  // ---- the confirm route -----------------------------------------------------------------------------------------

  ghost predicate NamesAll(payload: Fields) {
    IsIdentifier(Get(payload, ConfirmationId)) && IsIdentifier(Get(payload, SessionId)) && IsIdentifier(Get(payload, RequestId))
  }

  /** What the fresh evaluation of a confirmed proposal comes to. */
  ghost predicate Reevaluated(r: Response, c: Config, after: Tokens, token: Token, requestId: Json, snap: Snapshot, nonce: Fresh)
    requires ProposalId in token.proposal
  {
    var d := P.Decide(GateQuery(c, token.intent, snap, []));
    if d.failClosed then SaysError(r, after, requestId, ReasonName(d.reason))
    else
      && d.outcome.Some? && d.ruleId.Some?
      && var o, rule, id := d.outcome.value, d.ruleId.value, token.proposal[ProposalId];
         if o.ALLOW? || (o.CONFIRM? && rule == token.originRule)
         then && Says(r.body, c, Claim(requestId, id, token.intent, P.ALLOW, rule, snap.version,
                                       "CONFIRMATION_REEVALUATED_ALLOW", d.relevant))
              && Attached(r.body, P.ALLOW, None, None) && Grants(r, after)
         else && Says(r.body, c, Claim(requestId, id, token.intent, o, rule, snap.version, ReasonName(d.reason), d.relevant))
              && if o.CONFIRM? then Asks(r, after, token.proposal, token.intent, rule, nonce)
                 else Attached(r.body, o, None, None) && Silent(r, after)
  }

  /**
   The confirm route: an unknown, used or late token is not active, another session's is left alone, and a live one is
   used up and its proposal evaluated afresh; a permit follows exactly when that says ALLOW, or CONFIRM by the rule the
   driver has just confirmed.
   */
  lemma ConfirmVerdict(c: Config, tokens: Tokens, payload: Fields, requestId: Json, snap: Snapshot, nonce: Fresh)
    requires WellNamed(c) && IsIdentifier(requestId) && TokensOk(c, tokens)
    ensures var r := ConfirmRequest(c, tokens, payload, requestId, snap, nonce);
            if !NamesAll(payload) then SaysError(r, tokens, requestId, Spell(INVALID_CONFIRMATION))
            else
              var id := payload[ConfirmationId];
              if id !in tokens.pending then SaysError(r, tokens, requestId, Spell(CONFIRMATION_NOT_ACTIVE))
              else
                var token := tokens.pending[id];
                var after := Tokens(tokens.pending - {id}, tokens.consumed + {id});
                if !Owns(token, payload[SessionId]) then SaysError(r, tokens, requestId, Spell(CONFIRMATION_SESSION_MISMATCH))
                else if nonce.now > token.expiresAt then SaysError(r, after, requestId, Spell(CONFIRMATION_NOT_ACTIVE))
                else ProposalId in token.proposal && Reevaluated(r, c, after, token, requestId, snap, nonce)
  {
    hide Spell, Reevaluate, Refuse, SaysError, Resolved, Reevaluated, Consume, WellNamed, GateQuery;
    RefuseSays(tokens, requestId, Spell(INVALID_CONFIRMATION));
    if NamesAll(payload) {
      var id, session := payload[ConfirmationId], payload[SessionId];
      TakeExactly(tokens, id, session, nonce.now);
      RefuseSays(tokens, requestId, Spell(CONFIRMATION_NOT_ACTIVE));
      RefuseSays(tokens, requestId, Spell(CONFIRMATION_SESSION_MISMATCH));
      RefuseSays(Tokens(tokens.pending - {id}, tokens.consumed + {id}), requestId, Spell(CONFIRMATION_NOT_ACTIVE));
      if id in tokens.pending {
        ResolvedValid(c, tokens.pending[id].proposal, tokens.pending[id].intent);
        ReevaluateSays(c, Tokens(tokens.pending - {id}, tokens.consumed + {id}), id, tokens.pending[id], requestId, snap, nonce);
      }
    }
  }

  lemma ReevaluateSays(c: Config, after: Tokens, id: Json, token: Token, requestId: Json, snap: Snapshot, nonce: Fresh)
    requires WellNamed(c) && IsIdentifier(requestId) && ValidProposal(token.proposal)
    ensures ProposalId in token.proposal
    ensures Reevaluated(Reevaluate(c, after, id, token, requestId, GateQuery(c, token.intent, snap, []), snap, nonce), c, after,
                        token, requestId, snap, nonce)
  {
    hide Spell, P.Decide, Wired, ReasonName, Refuse, SaysError, Says, Decided, AskConfirmation, Asks, Attached, ValidProposal;
    HasId(token.proposal);
    var q := GateQuery(c, token.intent, snap, []);
    var d := P.Decide(q);
    RefuseSays(after, requestId, ReasonName(d.reason));
    if !d.failClosed {
      GateDecides(q);
      DecisionNamed(c, q);
      var draft, mint := RenewedDraft(token, requestId, snap, d), RenewedMint(id, token, q, nonce.stamp);
      assert draft.rule == d.ruleId.value && mint.rule == d.ruleId.value;
      hide WellNamed, GateQuery;
      if d.outcome == Some(P.ALLOW) || SameRuleConfirm(d, token.originRule) {
        DecidedSays(c, after, AllowedDraft(draft, mint.rule), mint);
      } else if d.outcome == Some(P.CONFIRM) {
        AskSays(c, after, draft, nonce, mint);
      } else {
        DecidedSays(c, after, draft, mint);
      }
    }
  }

  // ---- the monitor route -------------------------------------------------------------------------------------------

  /**
   The monitor route: the state sent along is used if there is one, and then counts as version zero. "Keep running" is an
   ALLOW exactly when no monitor rule fires or the firing ones allow; every other verdict is reported without a permit.
   */
  lemma MonitorVerdict(c: Config, tokens: Tokens, payload: Fields, requestId: Json, supplied: Supplied, snap: Snapshot,
                       nonce: Fresh)
    requires IsIdentifier(requestId)
    ensures var r := MonitorRequest(c, tokens, payload, requestId, supplied, snap, nonce);
            var id, intent := Get(payload, ActiveActionId()), Get(payload, Intent);
            if !(IsIdentifier(id) && IsIdentifier(intent) && IsIdentifier(Get(payload, RequestId)))
            then SaysError(r, tokens, requestId, Spell(INVALID_MONITOR_REQUEST))
            else if supplied.Refused? then SaysError(r, tokens, requestId, Spell(INVALID_VEHICLE_STATE))
            else if !intent.Str? then SaysError(r, tokens, requestId, Spell(NOT_A_MONITORED_INTENT))
            else
              var state := if supplied.Given? then supplied.state else snap.state;
              var d := P.Decide(P.Query(c.rules, c.variables, intent.s, P.Monitor, state, []));
              if d.failClosed
              then SaysError(r, tokens, requestId, if d.reason in {P.NoRuleForPhase, P.IntentNotInCatalog}
                                                   then Spell(NOT_A_MONITORED_INTENT) else ReasonName(d.reason))
              else MonitorSays(r, c, payload, tokens, requestId, d, intent.s,
                               if supplied.Absent? && snap.version >= 0 then snap.version else 0)
  {
    hide Spell, P.Decide, Wired, ReasonName, Refuse, SaysError, MonitorEnvelope, MonitorSays, OrElse;
    RefuseSays(tokens, requestId, Spell(INVALID_MONITOR_REQUEST));
    RefuseSays(tokens, requestId, Spell(INVALID_VEHICLE_STATE));
    RefuseSays(tokens, requestId, Spell(NOT_A_MONITORED_INTENT));
    var id, intent := Get(payload, ActiveActionId()), Get(payload, Intent);
    if IsIdentifier(id) && IsIdentifier(intent) && IsIdentifier(Get(payload, RequestId)) && intent.Str? {
      var state := if supplied.Given? then supplied.state else snap.state;
      var d := P.Decide(P.Query(c.rules, c.variables, intent.s, P.Monitor, state, []));
      RefuseSays(tokens, requestId, ReasonName(d.reason));
      MonitorBody(c, payload, tokens, requestId, d, intent.s, if supplied.Absent? && snap.version >= 0 then snap.version else 0,
                  nonce);
    }
  }

  ghost predicate MonitorClaim(claim: Claim, payload: Fields, requestId: Json, d: P.Decision, intent: string, version: int) {
    && claim.requestId == requestId && claim.subject == Get(payload, ActiveActionId()) && claim.intent == intent
    && claim.outcome == (if d.outcome.Some? then d.outcome.value else P.ALLOW) && claim.version == version
    && claim.reason == ReasonName(d.reason) && claim.relevant == d.relevant
    && (d.ruleId.Some? && d.ruleId.value != "" ==> claim.rule == d.ruleId.value)
  }

  ghost predicate MonitorSays(r: Response, c: Config, payload: Fields, tokens: Tokens, requestId: Json, d: P.Decision,
                              intent: string, version: int) {
    var goesOn := d.outcome == None || d.outcome == Some(P.ALLOW);
    && (exists claim :: Says(r.body, c, claim) && MonitorClaim(claim, payload, requestId, d, intent, version))
    && Silent(r, tokens) && (Permit in r.body <==> goesOn)
    && (goesOn ==> Get(r.body, Permit).Obj?
                   && Get(r.body[Permit].fields, ProposalDigest) ==
                      Sha(MonitorProjection(Get(payload, ActiveActionId()), Get(payload, Intent), Get(payload, RequestId))))
  }

  lemma MonitorBody(c: Config, payload: Fields, tokens: Tokens, requestId: Json, d: P.Decision, intent: string, version: int,
                    nonce: Fresh)
    ensures var outcome := if d.outcome.None? then P.ALLOW else d.outcome.value;
            var rule := OrElse(d.ruleId, if outcome.ALLOW? then Spell(MONITOR_NO_TRIGGER) else Spell(MONITOR_RULE));
            var body := MonitorEnvelope(requestId, Get(payload, ActiveActionId()), intent, outcome, rule, version, c.checksum,
                                        ReasonName(d.reason), Wired(d.relevant), Sha(MonitorDigest(payload)), nonce.stamp);
            MonitorSays(Response.Response(body, tokens, None, None), c, payload, tokens, requestId, d, intent, version)
  {
    var outcome := if d.outcome.None? then P.ALLOW else d.outcome.value;
    var rule := OrElse(d.ruleId, if outcome.ALLOW? then Spell(MONITOR_NO_TRIGGER) else Spell(MONITOR_RULE));
    var claim := Claim(requestId, Get(payload, ActiveActionId()), intent, outcome, rule, version, ReasonName(d.reason), d.relevant);
    assert MonitorClaim(claim, payload, requestId, d, intent, version);
    var permit := MintPermit(Sha(MonitorDigest(payload)), intent, rule, version, c.checksum, nonce.stamp);
    MintFields(Sha(MonitorDigest(payload)), intent, rule, version, c.checksum, nonce.stamp);
    CoreSays(c, claim);
    hide Spell, OrElse, DecisionCore, Says, Wired, ReasonName, MintPermit, MonitorClaim, MonitorSays;
    MonitorAttaches(CoreOf(c, claim), permit, c, claim, payload, tokens, requestId, d, intent, version);
  }

  lemma MonitorAttaches(core: Fields, permit: Fields, c: Config, claim: Claim, payload: Fields, tokens: Tokens, requestId: Json,
                        d: P.Decision, intent: string, version: int)
    requires Says(core, c, claim) && Permit !in core && MonitorClaim(claim, payload, requestId, d, intent, version)
    requires Get(permit, ProposalDigest) == Sha(MonitorDigest(payload))
    ensures var body := if claim.outcome.ALLOW? then core[Permit := Obj(permit)] else core;
            MonitorSays(Response.Response(body, tokens, None, None), c, payload, tokens, requestId, d, intent, version)
  {
    AddedSays(core, Permit, Obj(permit), c, claim);
    hide Says;
  }

  // ---- the query route ----------------------------------------------------------------------------------------------

  /**
   The query route: only read-only intents are evaluated, only ANSWER and UNKNOWN leave as decisions, never with a permit,
   a token or a confirmation block.
   */
  lemma QueryVerdict(c: Config, tokens: Tokens, payload: Fields, requestId: Json, snap: Snapshot, nonce: Fresh)
    requires IsIdentifier(requestId)
    ensures var r := QueryRequest(c, tokens, payload, requestId, snap, nonce);
            if !IsString(Get(payload, Tool)) || !Get(payload, Arguments).Obj?
            then SaysError(r, tokens, requestId, Spell(INVALID_QUERY))
            else
              match M.Resolve(c.table, payload[Tool], payload[Arguments].fields)
              case Err(f) => SaysError(r, tokens, requestId, ResolveName(f))
              case Ok(intent) =>
                if intent !in c.readOnly then SaysError(r, tokens, requestId, Spell(NOT_A_QUERY_INTENT))
                else
                  var d := P.Decide(GateQuery(c, intent, snap, Params(c, intent, payload[Arguments].fields)));
                  if d.failClosed then SaysError(r, tokens, requestId, ReasonName(d.reason))
                  else if d.outcome !in {None, Some(P.UNKNOWN), Some(P.ANSWER)}
                  then SaysError(r, tokens, requestId, FaultName(UNKNOWN_OUTCOME))
                  else QuerySays(r, c, payload, tokens, requestId, d, intent, snap.version, nonce)
  {
    hide Spell, P.Decide, M.Resolve, Wired, ReasonName, Params, FaultName, ResolveName, Refuse, SaysError, QuerySays,
         DecisionCore, OrElse, GateQuery, WithOption;
    RefuseSays(tokens, requestId, Spell(INVALID_QUERY));
    if IsString(Get(payload, Tool)) && Get(payload, Arguments).Obj? {
      var args := payload[Arguments].fields;
      var resolved := M.Resolve(c.table, payload[Tool], args);
      if resolved.Err? {
        RefuseSays(tokens, requestId, ResolveName(resolved.error));
      } else {
        var d := P.Decide(GateQuery(c, resolved.value, snap, Params(c, resolved.value, args)));
        RefuseSays(tokens, requestId, Spell(NOT_A_QUERY_INTENT));
        RefuseSays(tokens, requestId, ReasonName(d.reason));
        RefuseSays(tokens, requestId, FaultName(UNKNOWN_OUTCOME));
        if d.outcome in {None, Some(P.UNKNOWN), Some(P.ANSWER)} {
          QueryBody(c, payload, tokens, requestId, d, resolved.value, snap.version, nonce);
        }
      }
    }
  }

  ghost predicate QueryClaim(claim: Claim, payload: Fields, requestId: Json, d: P.Decision, intent: string, version: int) {
    && (requestId != Str(Spell(UNKNOWN_ID)) ==> claim.requestId == requestId)
    && (IsIdentifier(Get(payload, ProposalId)) ==> claim.subject == Get(payload, ProposalId))
    && claim.intent == intent && claim.outcome == (if d.outcome == Some(P.ANSWER) then P.ANSWER else P.UNKNOWN)
    && claim.version == version && claim.reason == ReasonName(d.reason) && claim.relevant == d.relevant
    && (d.ruleId.Some? && d.ruleId.value != "" ==> claim.rule == d.ruleId.value)
  }

  ghost predicate QuerySays(r: Response, c: Config, payload: Fields, tokens: Tokens, requestId: Json, d: P.Decision,
                            intent: string, version: int, nonce: Fresh) {
    var outcome := if d.outcome == Some(P.ANSWER) then P.ANSWER else P.UNKNOWN;
    && (exists claim :: Says(r.body, c, claim) && QueryClaim(claim, payload, requestId, d, intent, version))
    && Attached(r.body, outcome, nonce.answer, None) && Silent(r, tokens)
  }

  lemma QueryBody(c: Config, payload: Fields, tokens: Tokens, requestId: Json, d: P.Decision, intent: string, version: int,
                  nonce: Fresh)
    requires IsIdentifier(requestId) && d.outcome in {None, Some(P.UNKNOWN), Some(P.ANSWER)}
    ensures var outcome := if d.outcome.None? then P.UNKNOWN else d.outcome.value;
            var reqId := if requestId != Str(Spell(UNKNOWN_ID)) then requestId else Str(nonce.requestId);
            var e := QueryEnvelope(reqId, Either(AsId(Get(payload, ProposalId)), Str(Spell(QUERY_ID))), intent, outcome,
                                   OrElse(d.ruleId, Spell(Q000)), version, c.checksum, ReasonName(d.reason),
                                   Wired(d.relevant), nonce.answer);
            e.Ok? && QuerySays(Response.Response(e.value, tokens, None, None), c, payload, tokens, requestId, d, intent, version,
                               nonce)
  {
    var outcome := if d.outcome.None? then P.UNKNOWN else d.outcome.value;
    var reqId := if requestId != Str(Spell(UNKNOWN_ID)) then requestId else Str(nonce.requestId);
    var id := Either(AsId(Get(payload, ProposalId)), Str(Spell(QUERY_ID)));
    var rule := OrElse(d.ruleId, Spell(Q000));
    var claim := Claim(reqId, id, intent, outcome, rule, version, ReasonName(d.reason), d.relevant);
    assert QueryClaim(claim, payload, requestId, d, intent, version);
    assert rule != "";
    CoreSays(c, claim);
    hide Spell, OrElse, DecisionCore, Says, Wired, ReasonName, Either, AsId, QueryClaim, QuerySays;
    QueryAttaches(CoreOf(c, claim), c, claim, payload, tokens, requestId, d, intent, version, nonce);
  }

  lemma QueryAttaches(core: Fields, c: Config, claim: Claim, payload: Fields, tokens: Tokens, requestId: Json,
                      d: P.Decision, intent: string, version: int, nonce: Fresh)
    requires Says(core, c, claim) && Permit !in core && Answer !in core && Confirmation !in core
    requires QueryClaim(claim, payload, requestId, d, intent, version)
    ensures QuerySays(Response.Response(WithOption(core, Answer, nonce.answer), tokens, None, None), c, payload, tokens, requestId,
                      d, intent, version, nonce)
  {
    if nonce.answer.Some? { AddedSays(core, Answer, Obj(nonce.answer.value), c, claim); }
    hide Says;
  }

  // ---- all four routes ------------------------------------------------------------------------------------------------

  /** The identifier a reply carries: the request's, else the proposal's, else "unknown". */
  function RequestIdOf(p: Fields): (r: Json)
    ensures IsIdentifier(r)
  {
    if IsIdentifier(Get(p, RequestId)) then p[RequestId]
    else if IsIdentifier(Get(p, ProposalId)) then p[ProposalId] else Str(Spell(UNKNOWN_ID))
  }

  /** What is not an object, or of another contract version, is refused; everything else goes to its route. */
  lemma HandleVerdict(c: Config, tokens: Tokens, route: Route, payload: Json, supplied: Supplied, snap: Snapshot, nonce: Fresh)
    ensures var r := Handle(c, tokens, route, payload, supplied, snap, nonce);
            if !payload.Obj? then SaysError(r, tokens, Str(Spell(UNKNOWN_ID)), Spell(INVALID_JSON))
            else
              var p, id := payload.fields, RequestIdOf(payload.fields);
              if Get(p, ContractVersion) != Word(Version) then SaysError(r, tokens, id, FaultName(CONTRACT_VERSION_MISMATCH))
              else r == match route
                        case ActionRoute => EvaluateAction(c, tokens, p, id, snap, nonce)
                        case QueryRoute => QueryRequest(c, tokens, p, id, snap, nonce)
                        case ConfirmRoute => ConfirmRequest(c, tokens, p, id, snap, nonce)
                        case MonitorRoute => MonitorRequest(c, tokens, p, id, supplied, snap, nonce)
  {
    hide Spell, EvaluateAction, QueryRequest, ConfirmRequest, MonitorRequest, Refuse, FaultName, SaysError;
    RefuseSays(tokens, Str(Spell(UNKNOWN_ID)), Spell(INVALID_JSON));
    if payload.Obj? { RefuseSays(tokens, RequestIdOf(payload.fields), FaultName(CONTRACT_VERSION_MISMATCH)); }
  }

  /** The one parameter a call passes to its evaluation: whether the feature it asks about is known. */
  lemma ParamsOfCall(c: Config, snap: Snapshot, p: Fields, intent: string)
    requires "kb_has_feature" in c.variables
    ensures var values := P.Values(QueryFor(c, snap, p, intent, Direct));
            if intent == "explain_feature"
            then values == snap.state["kb_has_feature" := V.Bool(Get(ArgumentsOf(p), Target) in c.features)]
            else values == snap.state
    ensures P.Values(QueryFor(c, snap, p, intent, Confirmed(Null, ""))) == snap.state
  {
    var params := Params(c, intent, ArgumentsOf(p));
    if params != [] {
      assert params[1..] == [];
      assert P.Overlay(snap.state[params[0].0 := params[0].1], c.variables, []) == Some(snap.state[params[0].0 := params[0].1]);
    }
  }
}
