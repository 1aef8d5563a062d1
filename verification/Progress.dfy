/**
 What is allowed gets done: runs of the composed system from any reachable state. An allowed call is started by its turn;
 a call to be confirmed is asked about and registered; a confirmed one is started on the fresh decision.
 */
module Progress {
  import opened Wrappers
  import opened Wire
  import opened EndToEnd
  import PolicyEngine
  import CF = Confirmation
  import GS = GuardrailService
  import GV = GuardrailVerdicts
  import M = ToolMapping
  import PG = PermitGateway
  import AC = Accountability

  // ---- the gateway's part --------------------------------------------------------------------------------------

  /** The thread may run an action now, and the permit of this stamp is good at the gateway. */
  ghost predicate GateReady(g: PG.State, thread: PG.Thread, proposal: Fields, stamp: Stamp)
    requires SessionId in proposal
  {
    && PG.CanEnter(g, thread) && g.ops != PG.OpsWaiting(thread) && Str(stamp.id) !in g.ledger.consumed
    && !PG.Revoked(g.ledger, proposal[SessionId], stamp.at) && stamp.at <= g.clock <= stamp.at + 2_000_000
  }

  /** From a state whose gate has just been entered with a genuine reply, three steps start the handler. */
  lemma EnteredStarts(s: State, g: PG.State, thread: PG.Thread, proposal: Fields, body: Fields, stamp: Stamp)
    requires ValidProposal(proposal) && SessionId in proposal && Genuine(body, proposal, stamp)
    requires GateReady(g, thread, proposal, stamp)
    ensures PG.Enabled(g, PG.Enter(thread, proposal, Obj(body)))
    ensures s.gate == PG.Next(g, PG.Enter(thread, proposal, Obj(body))) ==>
              && Enabled(s, Actuate(PG.Accept(thread)))
              && var s1 := Next(s, Actuate(PG.Accept(thread)));
                 Enabled(s1, Actuate(PG.Consume(thread))) && var s2 := Next(s1, Actuate(PG.Consume(thread)));
                 Enabled(s2, Actuate(PG.StartHandler(thread))) && var s3 := Next(s2, Actuate(PG.StartHandler(thread)));
                 && |s3.gate.starts| == |g.starts| + 1 && g.starts <= s3.gate.starts
                 && s3.gate.starts[|g.starts|].grant.proposal == proposal && s3 == s.(gate := s3.gate)
  {
    hide Genuine, PG.Verify, PG.Next, PG.Enabled, PG.Revoked, ValidProposal;
    GenuinePermitAccepted(g.ledger, body, proposal, stamp, g.clock);
    var last := PG.VerifiedPermitRuns(g, thread, proposal, Obj(body));
    GrantOf(g.ledger, proposal, Obj(body), g.clock);
  }

  lemma GrantOf(l: PG.Ledger, proposal: Fields, payload: Json, now: int)
    requires PG.Verify(l, proposal, payload, now).Ok?
    ensures PG.Verify(l, proposal, payload, now).value.proposal == proposal
  {
    PG.VerifySound(l, proposal, payload, now);
    hide PG.Verify, PG.Sound, PG.Revoked;
  }

  // ---- an allowed call ---------------------------------------------------------------------------------------------

  /** Agent and guardrail read the call as the same intent, and its evaluation on this snapshot says `o`. */
  ghost predicate Evaluates(s: State, proposal: Fields, snap: GS.Snapshot, intent: string, o: PolicyEngine.Outcome) {
    && M.MapProposal(s.registry, s.mapping, proposal).Ok?
    && M.MapProposal(s.registry, s.mapping, proposal).value.intent == intent && GS.Resolved(s.config, proposal, intent)
    && PolicyEngine.Decide(GS.QueryFor(s.config, snap, proposal, intent, GS.Direct)).outcome == Some(o)
  }

  function Call(proposal: Fields, snap: GS.Snapshot, nonce: GS.Fresh): (r: Step)
    ensures r.Serve?
  {
    Serve(GS.ActionRoute, Obj(proposal), GS.Absent, snap, nonce)
  }

  lemma Begins(s: State, turn: nat, proposal: Fields, nonce: GS.Fresh)
    requires Enabled(s, BeginTurn(turn, proposal)) && UnusedIds(s, nonce)
    ensures var s1, mapped := Next(s, BeginTurn(turn, proposal)), M.MapProposal(s.registry, s.mapping, proposal).value;
            && s1 == s.(turns := s.turns[turn := Turn(proposal, mapped)], begun := s.begun + {proposal})
            && UnusedIds(s1, nonce)
    ensures ValidProposal(proposal) && M.MapProposal(s.registry, s.mapping, proposal).value.digest == Digest(proposal)
  {
    M.CanonicalIsRaw(s.registry, s.mapping, proposal);
    hide M.MapProposal, GS.FreshOk, Digest;
    MappedIsValid(s.registry, s.mapping, proposal);
  }

  lemma MappedIsValid(registry: M.Registry, mapping: map<M.Key, M.Rule>, proposal: Fields)
    requires M.MapProposal(registry, mapping, proposal).Ok?
    ensures ValidProposal(proposal)
  {
    hide ValidProposal, M.ValidateCall;
  }

  /** A served call: its reply is among the replies, and nothing of the agent has moved. */
  lemma Serves(s: State, step: Step)
    requires step.Serve? && Enabled(s, step)
    ensures var s', r := Next(s, step), Served(s, step);
            && r.body in s'.bodies && s'.tokens == r.tokens && s'.turns == s.turns && s'.gate == s.gate && s'.manager == s.manager
            && s'.config == s.config && s'.registry == s.registry && s'.mapping == s.mapping && s'.begun == s.begun
  {
    hide Served, Enabled, WithParking;
  }

  lemma CallReachesAction(s: State, proposal: Fields, snap: GS.Snapshot, nonce: GS.Fresh)
    requires ValidProposal(proposal)
    ensures Served(s, Call(proposal, snap, nonce)) ==
            GS.EvaluateAction(s.config, s.tokens, proposal, GV.RequestIdOf(proposal), snap, nonce)
  {
    GV.HandleVerdict(s.config, s.tokens, GS.ActionRoute, Obj(proposal), GS.Absent, snap, nonce);
    VersionOf(proposal);
    hide GS.Handle, GS.EvaluateAction, ValidProposal, GV.RequestIdOf;
  }

  lemma VersionOf(proposal: Fields)
    requires ValidProposal(proposal)
    ensures Get(proposal, ContractVersion) == Word(Version) && SessionId in proposal && ProposalId in proposal
  {}

  /**
   A call the guardrail resolves as the agent maps it and evaluates to ALLOW: the turn begins, the guardrail serves it, the
   turn takes the reply and enters the gateway, and the handler starts for exactly this proposal.
   */
  lemma AllowedTurnStarts(s: State, turn: nat, thread: PG.Thread, proposal: Fields, snap: GS.Snapshot, nonce: GS.Fresh,
                          intent: string)
    requires GS.WellNamed(s.config) && Enabled(s, BeginTurn(turn, proposal)) && UnusedIds(s, nonce) && SessionId in proposal
    requires Evaluates(s, proposal, snap, intent, PolicyEngine.ALLOW) && GateReady(s.gate, thread, proposal, nonce.stamp)
    ensures var s1 := Next(s, BeginTurn(turn, proposal));
            Enabled(s1, Call(proposal, snap, nonce)) &&
            var s2, body := Next(s1, Call(proposal, snap, nonce)), Served(s1, Call(proposal, snap, nonce)).body;
            Enabled(s2, TurnReply(turn, body, thread)) &&
            var s3 := Next(s2, TurnReply(turn, body, thread));
            Enabled(s3, Actuate(PG.Accept(thread))) && var s4 := Next(s3, Actuate(PG.Accept(thread)));
            Enabled(s4, Actuate(PG.Consume(thread))) && var s5 := Next(s4, Actuate(PG.Consume(thread)));
            Enabled(s5, Actuate(PG.StartHandler(thread))) && var s6 := Next(s5, Actuate(PG.StartHandler(thread)));
            && |s6.gate.starts| == |s.gate.starts| + 1 && s.gate.starts <= s6.gate.starts
            && s6.gate.starts[|s.gate.starts|].grant.proposal == proposal && s6.turns == s.turns
  {
    hide Next, Enabled, Served, VerdictOf, Genuine, GateReady, Evaluates, UnusedIds, GS.WellNamed, ValidProposal, PG.Next,
         PG.Enabled, Call;
    AllowedIsServed(s, turn, proposal, snap, nonce, intent);
    var s1 := Next(s, BeginTurn(turn, proposal));
    var s2, body := Next(s1, Call(proposal, snap, nonce)), Served(s1, Call(proposal, snap, nonce)).body;
    EnteredStarts(s2, s.gate, thread, proposal, body, nonce.stamp);
    Executes(s2, turn, body, thread);
    var s3 := Next(s2, TurnReply(turn, body, thread));
    EnteredStarts(s3, s.gate, thread, proposal, body, nonce.stamp);
    assert s2.turns - {turn} == s.turns;
  }

  lemma AllowedIsServed(s: State, turn: nat, proposal: Fields, snap: GS.Snapshot, nonce: GS.Fresh,
                        intent: string)
    requires GS.WellNamed(s.config) && Enabled(s, BeginTurn(turn, proposal)) && UnusedIds(s, nonce)
    requires Evaluates(s, proposal, snap, intent, PolicyEngine.ALLOW)
    ensures turn !in s.turns && ValidProposal(proposal)
    ensures var s1 := Next(s, BeginTurn(turn, proposal));
            Enabled(s1, Call(proposal, snap, nonce)) &&
            var s2, body := Next(s1, Call(proposal, snap, nonce)), Served(s1, Call(proposal, snap, nonce)).body;
            && turn in s2.turns && s2.turns[turn].proposal == proposal && s2.turns == s.turns[turn := s2.turns[turn]]
            && body in s2.bodies && s2.gate == s.gate && Genuine(body, proposal, nonce.stamp)
            && VerdictOf(s2, turn, body).Executes?
  {
    Begins(s, turn, proposal, nonce);
    assert turn !in s.turns;
    var mapped := M.MapProposal(s.registry, s.mapping, proposal).value;
    var s1 := Next(s, BeginTurn(turn, proposal));
    CallReachesAction(s1, proposal, snap, nonce);
    assert Enabled(s1, Call(proposal, snap, nonce)) && GS.FreshOk(nonce);
    assert M.Resolve(s.config.table, proposal[Tool], proposal[Arguments].fields) == Ok(mapped.intent);
    hide Next, Enabled, Served, M.MapProposal, GS.WellNamed, GS.EvaluateAction, PolicyEngine.Decide, TurnVerdict, Genuine,
         UnusedIds, Digest, GS.QueryFor, ValidProposal, PG.Verify, PG.Revoked, M.Resolve, GS.FreshOk, GV.RequestIdOf;
    AC.AllowedBody(s.config, s.tokens, proposal, GV.RequestIdOf(proposal), snap, nonce, mapped.intent);
    AC.AllowedCallRuns(s.config, s.tokens, proposal, GV.RequestIdOf(proposal), snap, nonce, mapped, s.gate.ledger, s.gate.clock);
    Serves(s1, Call(proposal, snap, nonce));
  }

  /** A turn that executes enters the gateway with its proposal and the reply, and is over. */
  lemma Executes(s: State, turn: nat, body: Fields, thread: PG.Thread)
    requires turn in s.turns && body in s.bodies && ValidProposal(s.turns[turn].proposal)
    requires VerdictOf(s, turn, body).Executes?
    requires PG.Enabled(s.gate, PG.Enter(thread, s.turns[turn].proposal, Obj(body)))
    ensures Enabled(s, TurnReply(turn, body, thread))
    ensures var s' := Next(s, TurnReply(turn, body, thread));
            s' == s.(turns := s.turns - {turn}, gate := PG.Next(s.gate, PG.Enter(thread, s.turns[turn].proposal, Obj(body))))
  {
    hide PG.Enabled, PG.Next, VerdictOf, ValidProposal;
  }

  // ---- a call to be confirmed ------------------------------------------------------------------------------------------

  function AskBlock(proposal: Fields, nonce: GS.Fresh): Fields
    requires ProposalId in proposal
  {
    map[ConfirmationId := Str(nonce.tokenId), ProposalId := proposal[ProposalId], ExpiresAt := Time(nonce.now + 30_000_000),
        SingleUse := Bool(true)]
  }

  /** The reply that asks, as the client accepts it. */
  lemma AskingBody(c: GS.Config, tokens: GS.Tokens, p: Fields, requestId: Json, snap: GS.Snapshot, nonce: GS.Fresh,
                   mapped: M.Mapped)
    requires GS.WellNamed(c) && GS.FreshOk(nonce) && IsIdentifier(requestId) && ValidProposal(p) && Short(nonce.tokenId)
    requires M.Resolve(c.table, p[Tool], p[Arguments].fields) == Ok(mapped.intent)
    requires PolicyEngine.Decide(GS.QueryFor(c, snap, p, mapped.intent, GS.Direct)).outcome == Some(PolicyEngine.CONFIRM)
    ensures ProposalId in p
    ensures var r := GS.EvaluateAction(c, tokens, p, requestId, snap, nonce);
            && TurnVerdict(p, mapped, r.body) == Asks(AskBlock(p, nonce))
            && exists rule :: r.tokens == GS.CreateToken(tokens, Str(nonce.tokenId), p, mapped.intent, rule, nonce.now)
  {
    hide GS.EvaluateAction, PolicyEngine.Decide, M.Resolve, ValidResult, GS.Spell, GS.ReasonName, GS.Wired, GS.QueryFor, GV.Says,
         GV.SaysError, GS.FaultName, GS.ResolveName, ValidProposal, GS.WellNamed, TurnVerdict, GS.CreateToken, GS.Good, GV.Asks,
         GV.Attached, AskBlock;
    GV.ValidHasNoFault(p);
    VersionOf(p);
    var d := PolicyEngine.Decide(GS.QueryFor(c, snap, p, mapped.intent, GS.Direct));
    PolicyEngine.FailClosed(GS.QueryFor(c, snap, p, mapped.intent, GS.Direct));
    GV.ActionVerdict(c, tokens, p, requestId, snap, nonce);
    GS.ActionGood(c, tokens, p, requestId, snap, nonce);
    var r := GS.EvaluateAction(c, tokens, p, requestId, snap, nonce);
    GS.GoodIsValid(r);
    var claim := GV.Claim(Str(nonce.requestId), p[ProposalId], mapped.intent, PolicyEngine.CONFIRM, d.ruleId.value, snap.version,
                          GS.ReasonName(d.reason), d.relevant);
    assert GV.Says(r.body, c, claim);
    AskingVerdict(r, c, claim, tokens, p, mapped, nonce);
  }

  lemma AskingVerdict(r: GS.Response, c: GS.Config, claim: GV.Claim, tokens: GS.Tokens, p: Fields, mapped: M.Mapped,
                      nonce: GS.Fresh)
    requires ValidProposal(p) && ProposalId in p && ValidResult(r.body) && Short(nonce.tokenId) && GV.Says(r.body, c, claim)
    requires claim.subject == p[ProposalId] && claim.intent == mapped.intent && claim.outcome == PolicyEngine.CONFIRM
    requires GV.Asks(r, tokens, p, mapped.intent, claim.rule, nonce)
    ensures TurnVerdict(p, mapped, r.body) == Asks(AskBlock(p, nonce))
    ensures r.tokens == GS.CreateToken(tokens, Str(nonce.tokenId), p, mapped.intent, claim.rule, nonce.now)
  {
    AskedFacts(r, tokens, p, mapped.intent, claim.rule, nonce);
    SaidFacts(r.body, c, claim);
    AskBlockFacts(p, nonce);
    hide TurnVerdict, ValidResult, ValidProposal, GS.CreateToken, Digest, GV.Says, GV.Asks, AskBlock;
    TurnDecides(p, mapped, r.body);
  }

  lemma SaidFacts(body: Fields, c: GS.Config, claim: GV.Claim)
    requires GV.Says(body, c, claim)
    ensures Get(body, Kind) == Word(DecisionKind) && Get(body, ProposalId) == claim.subject
    ensures Get(body, Intent) == Str(claim.intent) && Get(body, OutcomeKey) == Word(OutcomeWord(claim.outcome))
  {
    hide ReasonToken, GS.Wired;
  }

  lemma AskedFacts(r: GS.Response, tokens: GS.Tokens, p: Fields, intent: string, rule: string, nonce: GS.Fresh)
    requires ProposalId in p && GV.Asks(r, tokens, p, intent, rule, nonce)
    ensures Get(r.body, Confirmation) == Obj(AskBlock(p, nonce))
    ensures r.tokens == GS.CreateToken(tokens, Str(nonce.tokenId), p, intent, rule, nonce.now)
  {
    hide GS.CreateToken;
  }

  lemma AskBlockFacts(p: Fields, nonce: GS.Fresh)
    requires ProposalId in p && Short(nonce.tokenId)
    ensures var block := AskBlock(p, nonce);
            && IsIdentifier(Get(block, ConfirmationId)) && Get(block, ProposalId) == Get(p, ProposalId)
            && Get(block, SingleUse) == Bool(true) && Get(block, ExpiresAt).Time?
  {}

  /** The confirmation as the agent keeps it, and the token as the guardrail does. */
  ghost predicate AwaitsDriver(s: State, proposal: Fields, intent: string, nonce: GS.Fresh) {
    var id := Str(nonce.tokenId);
    && id in s.manager.table && id in s.tokens.pending
    && s.manager.table[id] ==
       CF.PendingConfirmation(Get(proposal, SessionId), Some(nonce.now + 30_000_000), proposal, CF.PENDING)
    && s.tokens.pending[id].proposal == proposal && s.tokens.pending[id].intent == intent
    && s.tokens.pending[id].session == Get(proposal, SessionId) && s.tokens.pending[id].expiresAt == nonce.now + 30_000_000
  }

  /** An evaluation to CONFIRM: the turn asks, the confirmation is registered, and token and record agree on it. */
  lemma AskedTurnRegisters(s: State, turn: nat, thread: PG.Thread, proposal: Fields, snap: GS.Snapshot, nonce: GS.Fresh,
                           intent: string)
    requires GS.WellNamed(s.config) && Enabled(s, BeginTurn(turn, proposal)) && UnusedIds(s, nonce) && Short(nonce.tokenId)
    requires Evaluates(s, proposal, snap, intent, PolicyEngine.CONFIRM)
    ensures var s1 := Next(s, BeginTurn(turn, proposal));
            Enabled(s1, Call(proposal, snap, nonce)) &&
            var s2, body := Next(s1, Call(proposal, snap, nonce)), Served(s1, Call(proposal, snap, nonce)).body;
            Enabled(s2, TurnReply(turn, body, thread)) &&
            var s3 := Next(s2, TurnReply(turn, body, thread));
            && AwaitsDriver(s3, proposal, intent, nonce)
            && s3.gate == s.gate && s3.turns == s.turns
  {
    hide Next, Enabled, Served, VerdictOf, Evaluates, UnusedIds, GS.WellNamed, ValidProposal, Call, M.MapProposal, AwaitsDriver,
         GS.CreateToken, AskBlock;
    AskedIsServed(s, turn, proposal, snap, nonce, intent);
    var s1 := Next(s, BeginTurn(turn, proposal));
    var s2, body := Next(s1, Call(proposal, snap, nonce)), Served(s1, Call(proposal, snap, nonce)).body;
    Registers(s2, turn, body, thread, AskBlock(proposal, nonce));
    var s3 := Next(s2, TurnReply(turn, body, thread));
    var rule :| s2.tokens == GS.CreateToken(s.tokens, Str(nonce.tokenId), proposal, intent, rule, nonce.now);
    RegisteredAwaits(s, s2, s3, proposal, intent, rule, nonce);
    assert s2.turns - {turn} == s.turns;
  }

  lemma AskedIsServed(s: State, turn: nat, proposal: Fields, snap: GS.Snapshot, nonce: GS.Fresh,
                      intent: string)
    requires GS.WellNamed(s.config) && Enabled(s, BeginTurn(turn, proposal)) && UnusedIds(s, nonce) && Short(nonce.tokenId)
    requires Evaluates(s, proposal, snap, intent, PolicyEngine.CONFIRM)
    ensures turn !in s.turns && ValidProposal(proposal) && ProposalId in proposal
    ensures var s1 := Next(s, BeginTurn(turn, proposal));
            Enabled(s1, Call(proposal, snap, nonce)) &&
            var s2, body := Next(s1, Call(proposal, snap, nonce)), Served(s1, Call(proposal, snap, nonce)).body;
            && turn in s2.turns && s2.turns[turn].proposal == proposal && s2.turns == s.turns[turn := s2.turns[turn]]
            && body in s2.bodies && s2.gate == s.gate && s2.manager == s.manager
            && VerdictOf(s2, turn, body) == Asks(AskBlock(proposal, nonce))
            && exists rule ::
                 s2.tokens == GS.CreateToken(s.tokens, Str(nonce.tokenId), proposal, intent, rule, nonce.now)
  {
    Begins(s, turn, proposal, nonce);
    VersionOf(proposal);
    assert turn !in s.turns;
    var mapped := M.MapProposal(s.registry, s.mapping, proposal).value;
    var s1 := Next(s, BeginTurn(turn, proposal));
    CallReachesAction(s1, proposal, snap, nonce);
    assert Enabled(s1, Call(proposal, snap, nonce)) && GS.FreshOk(nonce);
    assert M.Resolve(s.config.table, proposal[Tool], proposal[Arguments].fields) == Ok(mapped.intent);
    hide Next, Enabled, Served, M.MapProposal, GS.WellNamed, GS.EvaluateAction, PolicyEngine.Decide, TurnVerdict,
         UnusedIds, Digest, GS.QueryFor, ValidProposal, M.Resolve, GS.FreshOk, GV.RequestIdOf, AskBlock, GS.CreateToken;
    AskingBody(s.config, s.tokens, proposal, GV.RequestIdOf(proposal), snap, nonce, mapped);
    Serves(s1, Call(proposal, snap, nonce));
  }

  /** A turn that asks registers the confirmation, and is over. */
  lemma Registers(s: State, turn: nat, body: Fields, thread: PG.Thread, block: Fields)
    requires turn in s.turns && body in s.bodies && ValidProposal(s.turns[turn].proposal)
    requires VerdictOf(s, turn, body) == Asks(block)
    ensures Enabled(s, TurnReply(turn, body, thread))
    ensures var s', p := Next(s, TurnReply(turn, body, thread)), s.turns[turn].proposal;
            && s' == s.(turns := s.turns - {turn}, manager := s'.manager)
            && s'.manager.table == s.manager.table[Get(block, ConfirmationId) :=
                 CF.PendingConfirmation(Get(p, SessionId), CF.Expiry(block), p, CF.PENDING)]
  {
    hide PG.Enabled, PG.Next, VerdictOf, ValidProposal;
  }

  lemma RegisteredAwaits(s: State, s2: State, s3: State, proposal: Fields, intent: string, rule: string, nonce: GS.Fresh)
    requires ProposalId in proposal && s3.tokens == s2.tokens
    requires s2.tokens == GS.CreateToken(s.tokens, Str(nonce.tokenId), proposal, intent, rule, nonce.now)
    requires var block := AskBlock(proposal, nonce);
             s3.manager.table == s2.manager.table[Get(block, ConfirmationId) :=
               CF.PendingConfirmation(Get(proposal, SessionId), CF.Expiry(block), proposal, CF.PENDING)]
    ensures AwaitsDriver(s3, proposal, intent, nonce)
  {}

  // ---- a confirmed call --------------------------------------------------------------------------------------------------

  /** The driver's yes as the agent sends it on. */
  function ConfirmPayload(id: Json, session: Json, requestId: Json): Fields {
    map[ContractVersion := Word(Version), RequestId := requestId, ConfirmationId := id, SessionId := session]
  }

  function Yes(id: Json, session: Json, requestId: Json, snap: GS.Snapshot, nonce: GS.Fresh): (r: Step)
    ensures r.Serve?
  {
    Serve(GS.ConfirmRoute, Obj(ConfirmPayload(id, session, requestId)), GS.Absent, snap, nonce)
  }

  /** The fresh evaluation still permits: ALLOW, or CONFIRM by the rule that has asked. */
  ghost predicate StillPermits(c: GS.Config, token: GS.Token, snap: GS.Snapshot) {
    var d := PolicyEngine.Decide(GS.GateQuery(c, token.intent, snap, []));
    !d.failClosed && (d.outcome == Some(PolicyEngine.ALLOW)
                      || (d.outcome == Some(PolicyEngine.CONFIRM) && d.ruleId == Some(token.originRule)))
  }

  lemma YesIsAllowed(s: State, id: Json, requestId: Json, snap: GS.Snapshot, nonce: GS.Fresh)
    requires GS.WellNamed(s.config) && GS.TokensOk(s.config, s.tokens) && GS.FreshOk(nonce) && id in s.tokens.pending
    requires var token := s.tokens.pending[id];
             && IsIdentifier(id) && IsIdentifier(requestId) && IsIdentifier(token.session) && nonce.now <= token.expiresAt
             && StillPermits(s.config, token, snap)
    ensures var r, token := Served(s, Yes(id, s.tokens.pending[id].session, requestId, snap, nonce)), s.tokens.pending[id];
            ValidProposal(token.proposal) && Genuine(r.body, token.proposal, nonce.stamp)
  {
    var token := s.tokens.pending[id];
    var payload := ConfirmPayload(id, token.session, requestId);
    PayloadSays(id, token.session, requestId);
    GS.ResolvedValid(s.config, token.proposal, token.intent) by { assert GS.Resolved(s.config, token.proposal, token.intent); }
    hide GS.ConfirmRequest, GS.Handle, PolicyEngine.Decide, GS.WellNamed, GS.TokensOk, GS.Good, GV.Says, GV.SaysError, GS.Spell,
         GS.ReasonName, ConfirmPayload, GS.GateQuery, Genuine, ValidProposal, GS.FreshOk, GS.Justified, GS.UsesToken;
    GV.HandleVerdict(s.config, s.tokens, GS.ConfirmRoute, Obj(payload), GS.Absent, snap, nonce);
    var id' := GV.RequestIdOf(payload);
    GV.ConfirmVerdict(s.config, s.tokens, payload, id', snap, nonce);
    GS.ConfirmGood(s.config, s.tokens, payload, id', snap, nonce);
    GS.ConfirmMint(s.config, s.tokens, payload, id', snap, nonce);
    var r := GS.ConfirmRequest(s.config, s.tokens, payload, id', snap, nonce);
    FreshStamp(nonce);
    AC.GoodIsGenuine(r, token.proposal, nonce.stamp);
  }

  lemma FreshStamp(nonce: GS.Fresh)
    requires GS.FreshOk(nonce)
    ensures Short(nonce.stamp.id)
  {}

  lemma PayloadSays(id: Json, session: Json, requestId: Json)
    ensures var p := ConfirmPayload(id, session, requestId);
            && Get(p, ContractVersion) == Word(Version) && Get(p, RequestId) == requestId && Get(p, ConfirmationId) == id
            && Get(p, SessionId) == session && ConfirmationId in p && SessionId in p && RequestId in p
  {}

  /** The record is open, token and record agree, and both clocks are in time. */
  ghost predicate Confirmable(s: State, id: Json, token: GS.Token, now: int, nonce: GS.Fresh) {
    && id in s.manager.table && id in s.tokens.pending && s.tokens.pending[id] == token && IsIdentifier(id)
    && IsIdentifier(token.session) && nonce.now <= token.expiresAt
    && var record := s.manager.table[id];
       && record.status.PENDING? && record.session == token.session && record.proposal == token.proposal
       && CF.InTime(record, now)
  }

  /** What holds of guardrail and manager in every reachable state. */
  ghost predicate Sound(s: State) {
    GS.WellNamed(s.config) && GS.TokensOk(s.config, s.tokens) && CF.Inv(s.manager)
  }

  lemma ReachableIsSound(run: seq<State>, steps: seq<Step>, k: nat)
    requires IsRun(run, steps) && k < |run|
    ensures Sound(run[k])
  {
    RunInv(run, steps, k);
    assert GuardOk(run[k]);
    hide CF.Inv, GS.WellNamed, GS.TokensOk, ParkedOk, MintsOk, BodiesOk, PG.Inv, GateKnown;
    TokensAreOk(run[k].config, run[k].tokens, run[k].parked);
  }

  /** The manager's steps of a confirmed call: asking, answered, executing. */
  lemma ManagerConfirms(m: CF.State, id: Json, session: Json, now: int, body: Fields)
    requires CF.Inv(m) && CF.Open(m.table, id, session, now) && Allows(body)
    ensures CF.Enabled(m, CF.Confirm(id, session, now, false))
    ensures var m1 := CF.Next(m, CF.Confirm(id, session, now, false));
            CF.Enabled(m1, CF.Reply(m.next, body)) && m1.table.Keys == m.table.Keys && m1.table[id].proposal == m.table[id].proposal
            && var m2 := CF.Next(m1, CF.Reply(m.next, body));
               && CF.Enabled(m2, CF.Execute(m.next)) && m.next in m2.calls && m2.calls[m.next] == CF.Call(id, CF.Answered(body))
               && id in m2.table && m2.table[id].proposal == m.table[id].proposal
               && var m3 := CF.Next(m2, CF.Execute(m.next));
                  && m3.executed == m.executed + [CF.Execution(id, m.next, body)] && id in m3.table
                  && m3.table[id] == m.table[id].(status := CF.CONSUMED) && m3.calls == m.calls
  {
    CF.ConfirmDecides(m.table, id, session, now, false);
    assert CF.CallOk(m, m.next);
    hide CF.Begin, CF.Inv, Allows;
    var m1 := CF.Next(m, CF.Confirm(id, session, now, false));
    var m2 := CF.Next(m1, CF.Reply(m.next, body));
    var m3 := CF.Next(m2, CF.Execute(m.next));
    assert m3.calls == m.calls;
  }

  /** The yes is served: nothing of the agent has moved, and a genuine reply is there to be taken. */
  lemma YesIsServed(s: State, id: Json, token: GS.Token, requestId: Json, snap: GS.Snapshot, nonce: GS.Fresh)
    requires GS.WellNamed(s.config) && GS.TokensOk(s.config, s.tokens) && UnusedIds(s, nonce)
    requires id in s.tokens.pending && s.tokens.pending[id] == token && IsIdentifier(id) && IsIdentifier(requestId)
    requires IsIdentifier(token.session) && nonce.now <= token.expiresAt && StillPermits(s.config, token, snap)
    ensures Enabled(s, Yes(id, token.session, requestId, snap, nonce)) && ValidProposal(token.proposal)
    ensures var s' := Next(s, Yes(id, token.session, requestId, snap, nonce));
            var body := Served(s, Yes(id, token.session, requestId, snap, nonce)).body;
            && body in s'.bodies && s'.gate == s.gate && s'.manager == s.manager && s'.turns == s.turns
            && Genuine(body, token.proposal, nonce.stamp)
  {
    assert Enabled(s, Yes(id, token.session, requestId, snap, nonce)) && GS.FreshOk(nonce);
    hide GS.WellNamed, GS.TokensOk, StillPermits, Served, Genuine, UnusedIds, GS.FreshOk, Next, Enabled, ValidProposal,
         IsIdentifier;
    YesIsAllowed(s, id, requestId, snap, nonce);
    Serves(s, Yes(id, token.session, requestId, snap, nonce));
  }

  lemma Confirms(s: State, id: Json, token: GS.Token, now: int, nonce: GS.Fresh)
    requires CF.Inv(s.manager) && UnusedIds(s, nonce) && Confirmable(s, id, token, now, nonce)
    ensures CF.Open(s.manager.table, id, token.session, now)
    ensures Enabled(s, Manage(CF.Confirm(id, token.session, now, false)))
    ensures var s' := Next(s, Manage(CF.Confirm(id, token.session, now, false)));
            s' == s.(manager := CF.Next(s.manager, CF.Confirm(id, token.session, now, false))) && UnusedIds(s', nonce)
  {
    hide CF.Next, CF.Inv, GS.FreshOk;
  }

  /**
   The driver says yes in time, and the fresh evaluation still permits: the confirmation is marked, the guardrail issues a
   permit, the reply is taken, and the handler starts for exactly the registered proposal, whose record is used up.
   */
  lemma ConfirmedCallStarts(s: State, id: Json, token: GS.Token, now: int, thread: PG.Thread, requestId: Json,
                            snap: GS.Snapshot, nonce: GS.Fresh)
    requires Sound(s) && UnusedIds(s, nonce) && Confirmable(s, id, token, now, nonce) && IsIdentifier(requestId)
    requires StillPermits(s.config, token, snap)
    requires SessionId in token.proposal && GateReady(s.gate, thread, token.proposal, nonce.stamp)
    ensures var confirm, n := CF.Confirm(id, token.session, now, false), s.manager.next;
            Enabled(s, Manage(confirm)) && var s1, yes := Next(s, Manage(confirm)), Yes(id, token.session, requestId, snap, nonce);
            Enabled(s1, yes) && var s2, body := Next(s1, yes), Served(s1, yes).body;
            Enabled(s2, Manage(CF.Reply(n, body))) && var s3 := Next(s2, Manage(CF.Reply(n, body)));
            Enabled(s3, ExecuteConfirmed(n, thread)) && var s4 := Next(s3, ExecuteConfirmed(n, thread));
            Enabled(s4, Actuate(PG.Accept(thread))) && var s5 := Next(s4, Actuate(PG.Accept(thread)));
            Enabled(s5, Actuate(PG.Consume(thread))) && var s6 := Next(s5, Actuate(PG.Consume(thread)));
            Enabled(s6, Actuate(PG.StartHandler(thread))) && var s7 := Next(s6, Actuate(PG.StartHandler(thread)));
            Started(s, s7, id, token.proposal)
  {
    var n, confirm := s.manager.next, CF.Confirm(id, token.session, now, false);
    var yes := Yes(id, token.session, requestId, snap, nonce);
    hide Next, Enabled, Served, Genuine, GateReady, UnusedIds, ValidProposal, PG.Next, PG.Enabled, Yes, CF.Inv, CF.Next,
         CF.Enabled, CF.Open, ValidResult, Allows, StillPermits, GS.WellNamed, GS.TokensOk, IsIdentifier, Confirmable, Started;
    Confirms(s, id, token, now, nonce);
    ConfirmableMeans(s, id, token, now, nonce);
    var s1 := Next(s, Manage(confirm));
    YesIsServed(s1, id, token, requestId, snap, nonce);
    var s2, body := Next(s1, yes), Served(s1, yes).body;
    GenuineAllows(body, token.proposal, nonce.stamp);
    ManagerConfirms(s.manager, id, token.session, now, body);
    Replies(s2, n, body);
    var s3 := Next(s2, Manage(CF.Reply(n, body)));
    EnteredStarts(s3, s.gate, thread, token.proposal, body, nonce.stamp);
    ExecutesConfirmed(s3, n, thread, id, token.proposal, body);
    var s4 := Next(s3, ExecuteConfirmed(n, thread));
    EnteredStarts(s4, s.gate, thread, token.proposal, body, nonce.stamp);
    var s6 := Next(Next(s4, Actuate(PG.Accept(thread))), Actuate(PG.Consume(thread)));
    StartedMeans(s, s4, Next(s6, Actuate(PG.StartHandler(thread))), id, token.proposal, n, body);
  }

  /** One more handler has started, for this proposal, and the confirmation has executed and is used up. */
  ghost predicate Started(s: State, s': State, id: Json, proposal: Fields) {
    && |s'.gate.starts| == |s.gate.starts| + 1 && s.gate.starts <= s'.gate.starts
    && s'.gate.starts[|s.gate.starts|].grant.proposal == proposal
    && |s'.manager.executed| == |s.manager.executed| + 1 && id in s'.manager.table
    && s'.manager.table[id].status == CF.CONSUMED && s'.turns == s.turns
  }

  lemma StartedMeans(s: State, s4: State, s7: State, id: Json, proposal: Fields, n: nat, body: Fields)
    requires |s7.gate.starts| == |s.gate.starts| + 1 && s.gate.starts <= s7.gate.starts
    requires s7.gate.starts[|s.gate.starts|].grant.proposal == proposal && s7.manager == s4.manager && s7.turns == s.turns
    requires s4.manager.executed == s.manager.executed + [CF.Execution(id, n, body)] && id in s.manager.table
    requires id in s4.manager.table && s4.manager.table[id] == s.manager.table[id].(status := CF.CONSUMED)
    ensures Started(s, s7, id, proposal)
  {}

  lemma ConfirmableMeans(s: State, id: Json, token: GS.Token, now: int, nonce: GS.Fresh)
    requires Confirmable(s, id, token, now, nonce)
    ensures id in s.manager.table && s.manager.table[id].proposal == token.proposal
    ensures id in s.tokens.pending && s.tokens.pending[id] == token && IsIdentifier(id) && IsIdentifier(token.session)
    ensures nonce.now <= token.expiresAt
  {}

  lemma GenuineAllows(body: Fields, p: Fields, stamp: Stamp)
    requires Genuine(body, p, stamp)
    ensures ValidResult(body) && Allows(body)
  {
    hide ValidResult;
  }

  lemma Replies(s: State, n: nat, body: Fields)
    requires CF.Enabled(s.manager, CF.Reply(n, body)) && body in s.bodies && ValidResult(body)
    ensures Enabled(s, Manage(CF.Reply(n, body)))
    ensures Next(s, Manage(CF.Reply(n, body))) == s.(manager := CF.Next(s.manager, CF.Reply(n, body)))
  {
    hide CF.Enabled, CF.Next, ValidResult;
  }

  lemma ExecutesConfirmed(s: State, n: nat, thread: PG.Thread, id: Json, p: Fields, body: Fields)
    requires CF.Enabled(s.manager, CF.Execute(n)) && n in s.manager.calls && s.manager.calls[n].id == id && id in s.manager.table
    requires s.manager.calls[n].phase.Answered? && s.manager.calls[n].phase.reply == body && s.manager.table[id].proposal == p
    requires PG.Enabled(s.gate, PG.Enter(thread, p, Obj(body)))
    ensures Enabled(s, ExecuteConfirmed(n, thread))
    ensures Next(s, ExecuteConfirmed(n, thread)) ==
            s.(manager := CF.Next(s.manager, CF.Execute(n)), gate := PG.Next(s.gate, PG.Enter(thread, p, Obj(body))))
  {
    hide CF.Next, PG.Enabled, PG.Next;
  }
}
