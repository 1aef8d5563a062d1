/**
 The whole authorisation path: orchestrator turns (agent/src/vehicle_agent/orchestrator/orchestrator.py), the
 confirmation manager, the guardrail service and the permit gateway, with every interleaving of requests,
 lost, repeated, late or mixed-up replies, confirmations, cancels, expiries and resets.
 */
module EndToEnd {
  import opened Wrappers
  import opened Wire
  import PolicyEngine
  import CF = Confirmation
  import GS = GuardrailService
  import M = ToolMapping
  import PG = PermitGateway

  // ---- what a turn does with the guardrail's reply ---------------------------------------------------------

  datatype Verdict = Fails | Executes | Asks(confirmation: Fields) | Ends

  /** `validate_guardrail_result`, the client's and the orchestrator's correlation and digest checks. */
  predicate Correlated(proposal: Fields, mapped: M.Mapped, body: Fields)
    requires ValidProposal(proposal)
  {
    && ValidResult(body)
    && (Get(body, Kind) == Word(DecisionKind) ==>
          && body[ProposalId] == proposal[ProposalId] && body[Intent] == Str(mapped.intent)
          && (Allows(body) ==> body[Permit].fields[ProposalDigest] == Digest(proposal) == mapped.digest))
  }

  /** `_validate_confirmation` */
  predicate ConfirmationOk(confirmation: Json, proposal: Fields) {
    && confirmation.Obj? && IsIdentifier(Get(confirmation.fields, ConfirmationId))
    && Get(confirmation.fields, ProposalId) == Get(proposal, ProposalId)
    && Get(confirmation.fields, SingleUse) == Bool(true) && Get(confirmation.fields, ExpiresAt).Time?
  }

  function TurnVerdict(proposal: Fields, mapped: M.Mapped, body: Fields): Verdict
    requires ValidProposal(proposal)
  {
    if !Correlated(proposal, mapped, body) then Fails
    else if Get(body, Kind) == Word(ErrorWord) then Fails
    else if Allows(body) then Executes
    else if Get(body, OutcomeKey) == Word(OutcomeWord(PolicyEngine.CONFIRM)) then
      if ConfirmationOk(Get(body, Confirmation), proposal) then Asks(body[Confirmation].fields) else Fails
    else Ends
  }

  /** The reply is one the client accepts as an answer to this very proposal, mapped as the agent mapped it. */
  ghost predicate Answers(proposal: Fields, mapped: M.Mapped, body: Fields) {
    && ValidResult(body) && Get(body, Kind) == Word(DecisionKind)
    && Get(body, ProposalId) == Get(proposal, ProposalId) && Get(body, Intent) == Str(mapped.intent)
  }

  /**
   A turn executes exactly on an ALLOW that answers its proposal with a permit bound to the digest of what it proposed and
   mapped; it asks exactly on a CONFIRM with a complete block about it; it ends on any other answer, and fails otherwise.
   */
  lemma TurnDecides(proposal: Fields, mapped: M.Mapped, body: Fields)
    requires ValidProposal(proposal)
    ensures var v, outcome := TurnVerdict(proposal, mapped, body), Get(body, OutcomeKey);
            && (v.Executes? <==>
                  && Answers(proposal, mapped, body) && outcome == Word(OutcomeWord(PolicyEngine.ALLOW))
                  && Get(body, Permit).Obj? && Get(body[Permit].fields, ProposalDigest) == Digest(proposal)
                  && mapped.digest == Digest(proposal))
            && (forall block :: v == Asks(block) <==>
                  && Answers(proposal, mapped, body) && outcome == Word(OutcomeWord(PolicyEngine.CONFIRM))
                  && Get(body, Confirmation) == Obj(block) && IsIdentifier(Get(block, ConfirmationId))
                  && Get(block, ProposalId) == Get(proposal, ProposalId) && Get(block, SingleUse) == Bool(true)
                  && Get(block, ExpiresAt).Time?)
            && (v.Ends? <==>
                  && Answers(proposal, mapped, body) && outcome != Word(OutcomeWord(PolicyEngine.ALLOW))
                  && outcome != Word(OutcomeWord(PolicyEngine.CONFIRM)))
  {
    if ValidResult(body) { PermitExactlyOnAllow(body); ResultAccepted(body); }
    HasProposalId(proposal);
    hide ValidResult, Digest, ValidProposal, IsIdentifier, PermitShape, ErrorShape;
  }

  // ---- the composed system ------------------------------------------------------------------------------------

  datatype Turn = Turn(proposal: Fields, mapped: M.Mapped)

  datatype Minted = Minted(mint: GS.Mint, snap: GS.Snapshot, version: int, checksum: Json)

  datatype Parked = Parked(parking: GS.Parking, snap: GS.Snapshot)

  /**
   History: `bodies` are all replies the guardrail ever produced, `mints` says why it issued each action permit,
   `parked` why it parked each token, and `begun` holds the proposals of all turns so far.
   */
  datatype State = State(config: GS.Config, registry: M.Registry, mapping: map<M.Key, M.Rule>, tokens: GS.Tokens,
                         bodies: set<Fields>, mints: seq<Minted>, issued: set<string>, parked: map<Json, Parked>,
                         begun: set<Fields>, turns: map<nat, Turn>, manager: CF.State, gate: PG.State)

  datatype Step =
    | BeginTurn(turn: nat, proposal: Fields)
    | Serve(route: GS.Route, payload: Json, supplied: GS.Supplied, snap: GS.Snapshot, nonce: GS.Fresh)
    | TurnReply(turn: nat, body: Fields, thread: PG.Thread)
    | TurnLost(turn: nat)
    | Manage(confirm: CF.Step)
    | ExecuteConfirmed(call: nat, thread: PG.Thread)
    | Actuate(actuate: PG.Step)

  /** uuid: permit and token ids never come twice. */
  predicate UnusedIds(s: State, nonce: GS.Fresh) {
    && GS.FreshOk(nonce) && nonce.stamp.id !in s.issued
    && Str(nonce.tokenId) !in s.tokens.pending && Str(nonce.tokenId) !in s.tokens.consumed
  }

  /** The manager takes a reply only from the guardrail, after the client validated it; turns register. */
  predicate ManagerMay(s: State, step: CF.Step) {
    && CF.Enabled(s.manager, step) && !step.Register? && !step.Execute?
    && (step.Reply? ==> step.reply in s.bodies && ValidResult(step.reply))
  }

  function VerdictOf(s: State, turn: nat, body: Fields): Verdict
    requires turn in s.turns && ValidProposal(s.turns[turn].proposal)
  {
    TurnVerdict(s.turns[turn].proposal, s.turns[turn].mapped, body)
  }

  /** uuid: each turn's proposal has its own id. */
  predicate UnusedProposal(s: State, proposal: Fields) {
    forall p | p in s.begun :: Get(p, ProposalId) != Get(proposal, ProposalId)
  }

  predicate Enabled(s: State, step: Step) {
    match step
    case BeginTurn(turn, proposal) =>
      turn !in s.turns && UnusedProposal(s, proposal) && M.MapProposal(s.registry, s.mapping, proposal).Ok?
    case Serve(_, _, _, _, nonce) => UnusedIds(s, nonce)
    case TurnReply(turn, body, thread) =>
      && turn in s.turns && body in s.bodies && ValidProposal(s.turns[turn].proposal)
      && var v := VerdictOf(s, turn, body);
         (v.Executes? ==> PG.Enabled(s.gate, PG.Enter(thread, s.turns[turn].proposal, Obj(body))))
    case TurnLost(turn) => turn in s.turns
    case Manage(cs) => ManagerMay(s, cs)
    case ExecuteConfirmed(call, thread) =>
      && CF.Enabled(s.manager, CF.Execute(call)) && s.manager.calls[call].id in s.manager.table
      && PG.Enabled(s.gate, ConfirmedEntry(s, call, thread))
    case Actuate(gs) => PG.Enabled(s.gate, gs) && !gs.Enter?
  }

  function Registration(proposal: Fields, confirmation: Fields): (r: CF.Step)
    ensures r.Register? && r.id == Get(confirmation, ConfirmationId) && r.proposal == proposal
  {
    CF.Register(Get(confirmation, ConfirmationId), Get(proposal, SessionId), CF.Expiry(confirmation), proposal)
  }

  /** The gateway call of a confirmed action: the stored proposal with the fresh decision. */
  function ConfirmedEntry(s: State, call: nat, thread: PG.Thread): PG.Step
    requires CF.Enabled(s.manager, CF.Execute(call)) && s.manager.calls[call].id in s.manager.table
  {
    PG.Enter(thread, s.manager.table[s.manager.calls[call].id].proposal, Obj(s.manager.calls[call].phase.reply))
  }

  function Served(s: State, step: Step): GS.Response
    requires step.Serve?
  {
    GS.Handle(s.config, s.tokens, step.route, step.payload, step.supplied, step.snap, step.nonce)
  }

  function ServeNext(s: State, step: Step, r: GS.Response): State
    requires step.Serve?
  {
    s.(tokens := r.tokens, bodies := s.bodies + {r.body}, issued := s.issued + {step.nonce.stamp.id},
       mints := s.mints + if r.mint.Some?
                then [Minted(r.mint.value, step.snap, BodyVersion(r.body), Get(r.body, PolicyChecksum))] else [],
       parked := WithParking(s.parked, r.parking, step.snap))
  }

  function WithParking(parked: map<Json, Parked>, parking: Option<GS.Parking>, snap: GS.Snapshot): map<Json, Parked> {
    if parking.Some? then parked[parking.value.id := Parked(parking.value, snap)] else parked
  }

  function BodyVersion(body: Fields): int {
    if Get(body, StateVersion).Int? then Get(body, StateVersion).i else 0
  }

  function TurnNext(s: State, turn: nat, body: Fields, thread: PG.Thread): State
    requires Enabled(s, TurnReply(turn, body, thread))
  {
    var s' := s.(turns := s.turns - {turn});
    var proposal := s.turns[turn].proposal;
    match VerdictOf(s, turn, body)
    case Executes => s'.(gate := PG.Next(s.gate, PG.Enter(thread, proposal, Obj(body))))
    case Asks(confirmation) => s'.(manager := CF.Registered(s.manager, Registration(proposal, confirmation)))
    case _ => s'
  }

  function Next(s: State, step: Step): State
    requires Enabled(s, step)
  {
    match step
    case BeginTurn(turn, proposal) =>
      s.(turns := s.turns[turn := Turn(proposal, M.MapProposal(s.registry, s.mapping, proposal).value)],
         begun := s.begun + {proposal})
    case Serve(_, _, _, _, _) => ServeNext(s, step, Served(s, step))
    case TurnReply(turn, body, thread) => TurnNext(s, turn, body, thread)
    case TurnLost(turn) => s.(turns := s.turns - {turn})
    case Manage(cs) => s.(manager := CF.Next(s.manager, cs))
    case ExecuteConfirmed(call, thread) =>
      s.(manager := CF.Next(s.manager, CF.Execute(call)), gate := PG.Next(s.gate, ConfirmedEntry(s, call, thread)))
    case Actuate(gs) => s.(gate := PG.Next(s.gate, gs))
  }

  // ---- where calls come from ---------------------------------------------------------------------------------------

  /** A gateway call is a turn's proposal together with a reply of the guardrail. */
  predicate Handed(bodies: set<Fields>, begun: set<Fields>, proposal: Fields, payload: Json) {
    payload.Obj? && payload.fields in bodies && proposal in begun
  }

  predicate FrameKnown(bodies: set<Fields>, begun: set<Fields>, f: PG.Frame) {
    match f
    case Entered(proposal, payload) => Handed(bodies, begun, proposal, payload)
    case Verified(g) => Handed(bodies, begun, g.proposal, g.payload)
    case Consumed(g) => Handed(bodies, begun, g.proposal, g.payload)
    case Running(g) => Handed(bodies, begun, g.proposal, g.payload)
    case _ => true
  }

  /** Everything inside the gateway was handed over by the orchestrator or the confirmation manager. */
  ghost predicate GateKnown(g: PG.State, bodies: set<Fields>, begun: set<Fields>) {
    && (forall t, i :: 0 <= i < |g.Stack(t)| ==> FrameKnown(bodies, begun, g.Stack(t)[i]))
    && forall i | 0 <= i < |g.starts| :: Handed(bodies, begun, g.starts[i].grant.proposal, g.starts[i].grant.payload)
  }

  lemma GateStep(g: PG.State, step: PG.Step, bodies: set<Fields>, begun: set<Fields>)
    requires GateKnown(g, bodies, begun) && PG.Enabled(g, step)
    requires step.Enter? ==> Handed(bodies, begun, step.proposal, step.payload)
    ensures GateKnown(PG.Next(g, step), bodies, begun)
  {
    var g' := PG.Next(g, step);
    if step.Accept? {
      var t := step.thread;
      PG.VerifySound(g.ledger, g.Top(t).proposal, g.Top(t).payload, g.clock);
    }
    hide PG.Verify, PG.Revoke, Handed;
    forall t, i | 0 <= i < |g'.Stack(t)| ensures FrameKnown(bodies, begun, g'.Stack(t)[i]) {
      if i < |g.Stack(t)| { assert FrameKnown(bodies, begun, g.Stack(t)[i]); }
    }
  }

  lemma GateGrows(g: PG.State, bodies: set<Fields>, bodies': set<Fields>, begun: set<Fields>, begun': set<Fields>)
    requires GateKnown(g, bodies, begun) && bodies <= bodies' && begun <= begun'
    ensures GateKnown(g, bodies', begun')
  {
    forall t, i | 0 <= i < |g.Stack(t)| ensures FrameKnown(bodies', begun', g.Stack(t)[i]) {
      assert FrameKnown(bodies, begun, g.Stack(t)[i]);
    }
  }

  /** Replies the manager holds are the guardrail's. */
  ghost predicate RepliesKnown(m: CF.State, bodies: set<Fields>) {
    forall n | n in m.calls && m.calls[n].phase.Answered? :: m.calls[n].phase.reply in bodies
  }

  /** Every turn's proposal was mapped before it was sent, and no two share an id. */
  ghost predicate BegunOk(registry: M.Registry, mapping: map<M.Key, M.Rule>, begun: set<Fields>) {
    && (forall p | p in begun :: M.MapProposal(registry, mapping, p).Ok?)
    && forall p, q | p in begun && q in begun && Get(p, ProposalId) == Get(q, ProposalId) :: p == q
  }

  ghost predicate TurnsOk(registry: M.Registry, mapping: map<M.Key, M.Rule>, begun: set<Fields>, turns: map<nat, Turn>) {
    && (forall t | t in turns ::
          turns[t].proposal in begun && M.MapProposal(registry, mapping, turns[t].proposal) == Ok(turns[t].mapped))
    && forall t, u | t in turns && u in turns && turns[t].proposal == turns[u].proposal :: t == u
  }

  /** A registered confirmation is one the guardrail parked for this proposal, whose turn is over. */
  ghost predicate RecordOk(begun: set<Fields>, turns: map<nat, Turn>, parked: map<Json, Parked>, id: Json, proposal: Fields) {
    && proposal in begun && (forall t | t in turns :: turns[t].proposal != proposal)
    && id in parked && Get(proposal, ProposalId) == Get(parked[id].parking.token.proposal, ProposalId)
  }

  ghost predicate RecordsOk(begun: set<Fields>, turns: map<nat, Turn>, parked: map<Json, Parked>, table: CF.Table) {
    forall id | id in table :: RecordOk(begun, turns, parked, id, table[id].proposal)
  }

  // ---- what the guardrail keeps -------------------------------------------------------------------------------------

  function PermitOf(m: Minted): Json
    requires ValidProposal(m.mint.proposal)
  {
    Obj(MintPermit(Digest(m.mint.proposal), m.mint.intent, m.mint.rule, m.version, m.checksum, m.mint.stamp))
  }

  ghost predicate FromMint(mints: seq<Minted>, body: Fields) {
    exists i | 0 <= i < |mints| :: ValidProposal(mints[i].mint.proposal) && Get(body, Permit) == PermitOf(mints[i])
  }

  /** A confirmation block names a parked token and the proposal parked behind it. */
  ghost predicate FromParking(parked: map<Json, Parked>, block: Fields) {
    var id := Get(block, ConfirmationId);
    id in parked && Get(block, ProposalId) == Get(parked[id].parking.token.proposal, ProposalId)
  }

  /** A reply the agent accepts; its permit was minted for an action or only says "keep running". */
  ghost predicate BodyOk(mints: seq<Minted>, parked: map<Json, Parked>, body: Fields) {
    && ValidResult(body) && (Permit in body ==> FromMint(mints, body) || GS.KeepRunning(body))
    && (Get(body, Confirmation).Obj? ==> FromParking(parked, Get(body, Confirmation).fields))
  }

  /** A confirmed mint repeats what was parked behind its token, and the token is used up. */
  ghost predicate MintFromParking(consumed: set<Json>, parked: map<Json, Parked>, m: GS.Mint)
    requires m.origin.Confirmed?
  {
    && m.origin.token in consumed && m.origin.token in parked
    && var k := parked[m.origin.token].parking;
       k.token.proposal == m.proposal && k.token.intent == m.intent && k.token.originRule == m.origin.rule
  }

  /** One mint: valid proposal, justified by an evaluation, its id and its token used up. */
  ghost predicate MintOk(config: GS.Config, consumed: set<Json>, issued: set<string>, parked: map<Json, Parked>, m: Minted) {
    && ValidProposal(m.mint.proposal) && GS.Justified(config, m.snap, m.mint) && m.mint.stamp.id in issued
    && (m.mint.origin.Confirmed? ==> MintFromParking(consumed, parked, m.mint))
  }

  ghost predicate Apart(a: Minted, b: Minted) {
    && a.mint.stamp.id != b.mint.stamp.id
    && (a.mint.origin.Confirmed? && b.mint.origin.Confirmed? ==> a.mint.origin.token != b.mint.origin.token)
  }

  ghost predicate MintsOk(s: State) {
    && (forall i | 0 <= i < |s.mints| :: MintOk(s.config, s.tokens.consumed, s.issued, s.parked, s.mints[i]))
    && forall i, j | 0 <= i < j < |s.mints| :: Apart(s.mints[i], s.mints[j])
  }

  /** The tokens ever parked are the pending and the consumed ones; each has the evaluation that parked it. */
  ghost predicate ParkedOk(config: GS.Config, tokens: GS.Tokens, parked: map<Json, Parked>) {
    && tokens.pending.Keys !! tokens.consumed && parked.Keys <= tokens.pending.Keys + tokens.consumed
    && (forall id | id in parked :: GS.ParkingOk(config, parked[id].snap, parked[id].parking))
    && (forall id | id in tokens.pending :: id in parked && parked[id].parking.token == tokens.pending[id])
  }

  ghost predicate BodiesOk(s: State) {
    forall b | b in s.bodies :: BodyOk(s.mints, s.parked, b)
  }

  ghost predicate GuardOk(s: State) {
    GS.WellNamed(s.config) && ParkedOk(s.config, s.tokens, s.parked) && BodiesOk(s) && MintsOk(s)
  }

  ghost predicate Inv(s: State) {
    && GuardOk(s) && PG.Inv(s.gate) && CF.Inv(s.manager) && GateKnown(s.gate, s.bodies, s.begun)
    && RepliesKnown(s.manager, s.bodies) && RecordsOk(s.begun, s.turns, s.parked, s.manager.table)
    && BegunOk(s.registry, s.mapping, s.begun) && TurnsOk(s.registry, s.mapping, s.begun, s.turns)
  }

  ghost predicate Init(s: State) {
    && GS.WellNamed(s.config) && s.tokens == GS.Tokens.Tokens(map[], {}) && s.bodies == {} && s.mints == [] && s.issued == {}
    && s.parked == map[] && s.begun == {} && s.turns == map[] && CF.Init(s.manager) && PG.Init(s.gate)
  }

  lemma InitInv(s: State)
    requires Init(s)
    ensures Inv(s)
  {
    PG.InitInv(s.gate);
    CF.InitInv(s.manager);
    hide PG.Inv, CF.Inv;
  }

  // ---- one request served --------------------------------------------------------------------------------------------

  lemma TokensAreOk(config: GS.Config, tokens: GS.Tokens, parked: map<Json, Parked>)
    requires ParkedOk(config, tokens, parked)
    ensures GS.TokensOk(config, tokens)
  {
    hide GS.Resolved, GS.QueryFor, GS.SameRuleConfirm;
    forall id | id in tokens.pending ensures GS.Resolved(config, tokens.pending[id].proposal, tokens.pending[id].intent) {
      assert GS.ParkingOk(config, parked[id].snap, parked[id].parking);
    }
  }

  lemma BodyOkGrows(mints: seq<Minted>, more: seq<Minted>, parked: map<Json, Parked>, parked': map<Json, Parked>, body: Fields)
    requires BodyOk(mints, parked, body) && Kept(parked, parked')
    ensures BodyOk(mints + more, parked', body)
  {
    hide ValidResult, ValidProposal, PermitOf, GS.KeepRunning;
    if Permit in body && FromMint(mints, body) {
      var i :| 0 <= i < |mints| && ValidProposal(mints[i].mint.proposal) && Get(body, Permit) == PermitOf(mints[i]);
      assert (mints + more)[i] == mints[i];
    }
  }

  /** The history of parked tokens only grows. */
  ghost predicate Kept(a: map<Json, Parked>, b: map<Json, Parked>) {
    forall id | id in a :: id in b && b[id] == a[id]
  }

  /** What serving does, told without the tokens' route through the handlers. */
  lemma ServedTokens(s: State, step: Step)
    requires ParkedOk(s.config, s.tokens, s.parked) && step.Serve? && Enabled(s, step)
    ensures GS.TokensOk(s.config, s.tokens)
    ensures GS.TokensExplained(s.config, s.tokens, step.snap, step.nonce, Served(s, step))
  {
    TokensAreOk(s.config, s.tokens, s.parked);
    GS.HandleTokens(s.config, s.tokens, step.route, step.payload, step.supplied, step.snap, step.nonce);
    hide ParkedOk, GS.TokensExplained, GS.TokensOk, GS.Handle;
  }

  lemma ServedParked(s: State, step: Step)
    requires ParkedOk(s.config, s.tokens, s.parked) && step.Serve? && Enabled(s, step)
    ensures var s' := ServeNext(s, step, Served(s, step));
            && ParkedOk(s'.config, s'.tokens, s'.parked) && Kept(s.parked, s'.parked)
            && s.tokens.consumed <= s'.tokens.consumed
  {
    hide Served, GS.ParkingOk, GS.ShowsParking, GS.TokensOk, GS.TokensMove, ParkedOk, Kept;
    ServedTokens(s, step);
    var r := Served(s, step);
    ParkedMoves(s.config, s.tokens, r.tokens, s.parked, r.parking, step.snap);
  }

  lemma ParkedMoves(config: GS.Config, a: GS.Tokens, b: GS.Tokens, parked: map<Json, Parked>, parking: Option<GS.Parking>,
                    snap: GS.Snapshot)
    requires ParkedOk(config, a, parked) && GS.TokensMove(a, b, parking)
    requires parking.Some? ==> GS.ParkingOk(config, snap, parking.value) && parking.value.id !in a.pending
                               && parking.value.id !in a.consumed
    ensures ParkedOk(config, b, WithParking(parked, parking, snap)) && Kept(parked, WithParking(parked, parking, snap))
    ensures a.consumed <= b.consumed
  {
    hide GS.ParkingOk;
    var parked' := WithParking(parked, parking, snap);
    forall id | id in b.pending ensures id !in b.consumed && id in parked' && parked'[id].parking.token == b.pending[id] {
      assert !(parking.Some? && id == parking.value.id) ==> id in a.pending;
    }
    forall id | id in parked' ensures id in b.pending || id in b.consumed {
      assert id in a.pending && id !in b.consumed ==> id in b.pending;
    }
  }

  /** The new reply is in order, with the new mint at the end of the list if there is one. */
  lemma NewBodyOk(s: State, step: Step)
    requires GuardOk(s) && step.Serve? && Enabled(s, step)
    ensures var s' := ServeNext(s, step, Served(s, step)); BodyOk(s'.mints, s'.parked, Served(s, step).body)
  {
    hide Served, ValidResult, GS.KeepRunning, GS.MintedFor, GuardOk, GS.TokensOk, GS.TokensMove, GS.ParkingOk, GS.Handle,
         GS.WellNamed, ParkedOk, MintsOk, BodiesOk;
    NewBodyFacts(s, step);
    var r := Served(s, step);
    if r.mint.Some? {
      var m := Minted(r.mint.value, step.snap, BodyVersion(r.body), Get(r.body, PolicyChecksum));
      var mints := s.mints + [m];
      assert mints[|s.mints|] == m;
      hide MintPermit, Digest, ValidProposal;
      assert Get(r.body, Permit) == PermitOf(m);
      assert FromMint(mints, r.body);
    }
  }

  lemma NewBodyFacts(s: State, step: Step)
    requires GuardOk(s) && step.Serve? && Enabled(s, step)
    ensures var r := Served(s, step);
            && ValidResult(r.body) && GS.ShowsParking(r) && (r.mint.Some? ==> GS.Good(r))
            && (Permit in r.body && r.mint.None? ==> GS.KeepRunning(r.body))
  {
    ServedTokens(s, step);
    GS.RoundTrip(s.config, s.tokens, step.route, step.payload, step.supplied, step.snap, step.nonce);
    hide GS.Handle, ValidResult, GS.ShowsParking, GS.KeepRunning, GuardOk, GS.TokensMove, GS.ParkingOk, GS.TokensOk, GS.Good;
  }

  lemma MintOkGrows(config: GS.Config, a: set<Json>, b: set<Json>, issued: set<string>, issued': set<string>,
                    parked: map<Json, Parked>, parked': map<Json, Parked>, m: Minted)
    requires MintOk(config, a, issued, parked, m) && a <= b && issued <= issued' && Kept(parked, parked')
    ensures MintOk(config, b, issued', parked', m)
  {
    hide ValidProposal, GS.Justified;
  }

  /** The new mint has a fresh id and, if confirmed, a token nobody used before and what was parked behind it. */
  lemma NewMint(s: State, step: Step)
    requires GuardOk(s) && step.Serve? && Enabled(s, step) && Served(s, step).mint.Some?
    ensures var r := Served(s, step);
            var m := Minted(r.mint.value, step.snap, BodyVersion(r.body), Get(r.body, PolicyChecksum));
            && MintOk(s.config, r.tokens.consumed, s.issued + {step.nonce.stamp.id}, s.parked, m)
            && forall i | 0 <= i < |s.mints| :: Apart(s.mints[i], m)
  {
    NewMintFacts(s, step);
    var r := Served(s, step);
    hide Served, GS.Justified, ValidProposal, BodyOk, PermitOf, GS.ParkingOk, GS.WellNamed, BodiesOk, Enabled;
    forall i | 0 <= i < |s.mints|
      ensures s.mints[i].mint.stamp.id != r.mint.value.stamp.id
      ensures s.mints[i].mint.origin.Confirmed? && r.mint.value.origin.Confirmed? ==>
                s.mints[i].mint.origin.token != r.mint.value.origin.token
    {
      assert MintOk(s.config, s.tokens.consumed, s.issued, s.parked, s.mints[i]);
    }
  }

  lemma NewMintFacts(s: State, step: Step)
    requires GuardOk(s) && step.Serve? && Enabled(s, step) && Served(s, step).mint.Some?
    ensures var r := Served(s, step);
            && ValidProposal(r.mint.value.proposal) && GS.Justified(s.config, step.snap, r.mint.value)
            && r.mint.value.stamp.id !in s.issued && r.mint.value.stamp == step.nonce.stamp
            && (r.mint.value.origin.Confirmed? ==>
                  && r.mint.value.origin.token in s.tokens.pending
                  && MintFromParking(r.tokens.consumed, s.parked, r.mint.value))
  {
    hide GS.Handle, GS.Resolved, GS.TokensExplained, GS.TokensOk, ValidProposal, MintsOk, BodiesOk, GS.WellNamed, ParkedOk,
         GS.UsesToken, MintFromParking, GS.QueryFor, PolicyEngine.Decide, GS.SameRuleConfirm;
    ServedTokens(s, step);
    GS.MintJustified(s.config, s.tokens, step.route, step.payload, step.supplied, step.snap, step.nonce);
    var m := Served(s, step).mint.value;
    GS.ResolvedValid(s.config, m.proposal, m.intent);
    if m.origin.Confirmed? {
      ConfirmedFromParking(s.config, s.tokens, Served(s, step).tokens, s.parked, m,
                           Get(step.payload.fields, SessionId), step.nonce.now);
    }
  }

  lemma ConfirmedFromParking(config: GS.Config, before: GS.Tokens, after: GS.Tokens, parked: map<Json, Parked>, m: GS.Mint,
                             session: Json, now: int)
    requires ParkedOk(config, before, parked) && m.origin.Confirmed? && GS.UsesToken(before, after, m, session, now)
    ensures m.origin.token in before.pending && MintFromParking(after.consumed, parked, m)
  {
    hide GS.ParkingOk;
  }

  lemma ServeMints(s: State, step: Step)
    requires GuardOk(s) && step.Serve? && Enabled(s, step)
    ensures MintsOk(ServeNext(s, step, Served(s, step)))
  {
    hide Served, MintOk, Apart, BodiesOk, ParkedOk, Kept, Enabled, GS.WellNamed, WithParking;
    ServedParked(s, step);
    var r := Served(s, step);
    var s' := ServeNext(s, step, r);
    if r.mint.Some? {
      NewMint(s, step);
      MintOkGrows(s.config, r.tokens.consumed, r.tokens.consumed, s'.issued, s'.issued, s.parked, s'.parked,
                  s'.mints[|s.mints|]);
    }
    forall i | 0 <= i < |s'.mints| ensures MintOk(s'.config, s'.tokens.consumed, s'.issued, s'.parked, s'.mints[i]) {
      if i < |s.mints| {
        MintOkGrows(s.config, s.tokens.consumed, s'.tokens.consumed, s.issued, s'.issued, s.parked, s'.parked, s.mints[i]);
      }
    }
  }

  lemma ServeBodies(s: State, step: Step)
    requires GuardOk(s) && step.Serve? && Enabled(s, step)
    ensures BodiesOk(ServeNext(s, step, Served(s, step)))
  {
    ServedParked(s, step);
    NewBodyOk(s, step);
    var r := Served(s, step);
    var s' := ServeNext(s, step, r);
    hide Served, BodyOk, ParkedOk, Kept, Enabled, GS.WellNamed, MintsOk;
    forall b | b in s'.bodies ensures BodyOk(s'.mints, s'.parked, b) {
      if b in s.bodies {
        BodyOkGrows(s.mints, s'.mints[|s.mints|..], s.parked, s'.parked, b);
        assert s'.mints == s.mints + s'.mints[|s.mints|..];
      }
    }
  }

  lemma ServeGuard(s: State, step: Step)
    requires GuardOk(s) && step.Serve? && Enabled(s, step)
    ensures GuardOk(Next(s, step)) && Kept(s.parked, Next(s, step).parked)
  {
    ServedParked(s, step);
    ServeMints(s, step);
    ServeBodies(s, step);
    hide Served, BodiesOk, ParkedOk, Kept, MintsOk, GS.WellNamed;
  }

  lemma RecordsKept(begun: set<Fields>, begun': set<Fields>, turns: map<nat, Turn>, turns': map<nat, Turn>,
                    parked: map<Json, Parked>, parked': map<Json, Parked>, table: CF.Table)
    requires RecordsOk(begun, turns, parked, table) && begun <= begun' && Kept(parked, parked')
    requires forall t | t in turns' :: turns'[t].proposal !in begun || (t in turns && turns'[t] == turns[t])
    ensures RecordsOk(begun', turns', parked', table)
  {
    forall id | id in table ensures RecordOk(begun', turns', parked', id, table[id].proposal) {
      assert RecordOk(begun, turns, parked, id, table[id].proposal);
    }
  }

  lemma ServeStep(s: State, step: Step)
    requires Inv(s) && step.Serve? && Enabled(s, step)
    ensures Inv(Next(s, step))
  {
    hide Served, PG.Inv, CF.Inv, GuardOk, GateKnown, BegunOk, TurnsOk, RecordsOk, Kept;
    var s' := Next(s, step);
    ServeGuard(s, step);
    GateGrows(s.gate, s.bodies, s'.bodies, s.begun, s'.begun);
    RecordsKept(s.begun, s.begun, s.turns, s.turns, s.parked, s'.parked, s.manager.table);
  }

  // ---- the agent's steps ----------------------------------------------------------------------------------------------

  /** No step but a registration changes which records there are and what they hold. */
  lemma RecordsStay(m: CF.State, step: CF.Step)
    requires CF.Enabled(m, step) && !step.Register?
    ensures CF.Next(m, step).table.Keys == m.table.Keys
    ensures forall id | id in m.table :: CF.Next(m, step).table[id].proposal == m.table[id].proposal
  {}

  lemma RepliesStep(m: CF.State, step: CF.Step, bodies: set<Fields>)
    requires RepliesKnown(m, bodies) && CF.Enabled(m, step) && (step.Reply? ==> step.reply in bodies)
    ensures RepliesKnown(CF.Next(m, step), bodies)
  {}

  /** What the guardrail keeps does not depend on the agent. */
  lemma GuardSame(s: State, s': State)
    requires GuardOk(s) && s' == s.(turns := s'.turns, begun := s'.begun, manager := s'.manager, gate := s'.gate)
    ensures GuardOk(s')
  {
    hide BodyOk, MintOk, Apart, ParkedOk, GS.WellNamed;
  }

  lemma ManagerStep(s: State, step: CF.Step)
    requires CF.Inv(s.manager) && RepliesKnown(s.manager, s.bodies)
    requires RecordsOk(s.begun, s.turns, s.parked, s.manager.table)
    requires CF.Enabled(s.manager, step) && !step.Register? && (step.Reply? ==> step.reply in s.bodies)
    ensures var m' := CF.Next(s.manager, step);
            CF.Inv(m') && RepliesKnown(m', s.bodies) && RecordsOk(s.begun, s.turns, s.parked, m'.table)
  {
    CF.StepInv(s.manager, step);
    RecordsStay(s.manager, step);
    RepliesStep(s.manager, step, s.bodies);
    hide CF.Inv, CF.Next, CF.Enabled, RepliesKnown, RecordOk;
  }

  lemma GatewayStep(s: State, step: PG.Step)
    requires GateKnown(s.gate, s.bodies, s.begun) && PG.Inv(s.gate) && PG.Enabled(s.gate, step)
    requires step.Enter? ==> Handed(s.bodies, s.begun, step.proposal, step.payload)
    ensures GateKnown(PG.Next(s.gate, step), s.bodies, s.begun) && PG.Inv(PG.Next(s.gate, step))
  {
    PG.StepInv(s.gate, step);
    GateStep(s.gate, step, s.bodies, s.begun);
    hide PG.Inv, PG.Next, PG.Enabled, GateKnown, Handed;
  }

  /** A turn that is over leaves everything else as it was. */
  lemma TurnGone(s: State, turn: nat)
    requires Inv(s)
    ensures Inv(s.(turns := s.turns - {turn}))
  {
    hide PG.Inv, CF.Inv, GateKnown, GuardOk, RepliesKnown, M.MapProposal, RecordsOk, BegunOk;
    var s' := s.(turns := s.turns - {turn});
    GuardSame(s, s');
    RecordsKept(s.begun, s.begun, s.turns, s'.turns, s.parked, s.parked, s.manager.table);
  }

  /** A confirmation the orchestrator is about to register is never registered yet: nothing is overwritten. */
  lemma RegistersNew(s: State, turn: nat, body: Fields)
    requires Inv(s) && turn in s.turns && body in s.bodies && ValidProposal(s.turns[turn].proposal)
    requires VerdictOf(s, turn, body).Asks?
    ensures var proposal, block := s.turns[turn].proposal, VerdictOf(s, turn, body).confirmation;
            && CF.Enabled(s.manager, Registration(proposal, block)) && FromParking(s.parked, block)
            && Get(block, ProposalId) == Get(proposal, ProposalId)
  {
    hide PG.Inv, CF.Inv, GateKnown, RepliesKnown, TurnVerdict, M.MapProposal, ValidProposal, MintsOk, ParkedOk, GS.WellNamed,
         RecordsOk, FromMint, GS.KeepRunning, ValidResult;
    var proposal, block := s.turns[turn].proposal, VerdictOf(s, turn, body).confirmation;
    AsksShape(proposal, s.turns[turn].mapped, body);
    assert BodyOk(s.mints, s.parked, body);
    ParkedOnce(s, turn, Get(block, ConfirmationId));
  }

  /** While a turn is in flight, no record is registered for its proposal. */
  lemma ParkedOnce(s: State, turn: nat, id: Json)
    requires RecordsOk(s.begun, s.turns, s.parked, s.manager.table) && BegunOk(s.registry, s.mapping, s.begun)
    requires TurnsOk(s.registry, s.mapping, s.begun, s.turns) && turn in s.turns && id in s.parked
    requires Get(s.parked[id].parking.token.proposal, ProposalId) == Get(s.turns[turn].proposal, ProposalId)
    ensures id !in s.manager.table
  {
    hide M.MapProposal;
    assert id in s.manager.table ==> RecordOk(s.begun, s.turns, s.parked, id, s.manager.table[id].proposal);
  }

  lemma AsksShape(proposal: Fields, mapped: M.Mapped, body: Fields)
    requires ValidProposal(proposal) && TurnVerdict(proposal, mapped, body).Asks?
    ensures var block := TurnVerdict(proposal, mapped, body).confirmation;
            && Get(body, Confirmation) == Obj(block) && Get(block, ProposalId) == Get(proposal, ProposalId)
  {
    hide Correlated, ValidProposal;
  }

  /** The registration step is what `register_pending` stores for this reply. */
  lemma RegistrationIsPending(m: CF.State, proposal: Fields, mapped: M.Mapped, body: Fields)
    requires ValidProposal(proposal) && TurnVerdict(proposal, mapped, body).Asks?
    ensures CF.Asks(body)
    ensures CF.Registered(m, Registration(proposal, TurnVerdict(proposal, mapped, body).confirmation)).table ==
            m.table[CF.AskedId(body) := CF.PendingOf(body, proposal)]
  {
    AsksShape(proposal, mapped, body);
    var block := TurnVerdict(proposal, mapped, body).confirmation;
    AsksDecision(proposal, mapped, body);
    CF.BoundToOwnSession(body, proposal);
    hide TurnVerdict, ValidResult;
  }

  lemma AsksDecision(proposal: Fields, mapped: M.Mapped, body: Fields)
    requires ValidProposal(proposal) && TurnVerdict(proposal, mapped, body).Asks?
    ensures ValidResult(body) && Get(body, Kind) == Word(DecisionKind) && CF.Asks(body)
  {
    hide ValidProposal;
    assert Get(proposal, ProposalId) != Null by { HasProposalId(proposal); }
  }

  lemma HasProposalId(proposal: Fields)
    requires ValidProposal(proposal)
    ensures Get(proposal, ProposalId) != Null && SessionId in proposal
  {}

  lemma AskStep(s: State, turn: nat, body: Fields)
    requires Inv(s) && turn in s.turns && body in s.bodies && ValidProposal(s.turns[turn].proposal)
    requires VerdictOf(s, turn, body).Asks?
    ensures var registration := Registration(s.turns[turn].proposal, VerdictOf(s, turn, body).confirmation);
            Inv(s.(turns := s.turns - {turn}, manager := CF.Registered(s.manager, registration)))
  {
    hide PG.Inv, CF.Inv, GuardOk, GateKnown, M.MapProposal, BegunOk, VerdictOf, ValidProposal, RepliesKnown, RecordsOk,
         CF.Registered, CF.Enabled, CF.Next;
    RegistersNew(s, turn, body);
    TurnGone(s, turn);
    var proposal, block := s.turns[turn].proposal, VerdictOf(s, turn, body).confirmation;
    var gone, registration := s.(turns := s.turns - {turn}), Registration(proposal, block);
    var s' := gone.(manager := CF.Registered(s.manager, registration));
    GuardSame(s, s');
    CF.StepInv(s.manager, registration);
    RegisteredTable(s.manager, s.bodies, registration);
    hide Registration;
    assert RecordOk(s'.begun, s'.turns, s'.parked, registration.id, proposal);
    RecordAdded(gone, registration);
  }

  lemma RecordAdded(s: State, step: CF.Step)
    requires step.Register? && RecordsOk(s.begun, s.turns, s.parked, s.manager.table)
    requires RecordOk(s.begun, s.turns, s.parked, step.id, step.proposal)
    ensures RecordsOk(s.begun, s.turns, s.parked, CF.Registered(s.manager, step).table)
  {
    hide RecordOk;
  }

  lemma RegisteredTable(m: CF.State, bodies: set<Fields>, step: CF.Step)
    requires step.Register? && CF.Enabled(m, step) && RepliesKnown(m, bodies)
    ensures CF.Registered(m, step) == CF.Next(m, step) && RepliesKnown(CF.Registered(m, step), bodies)
  {}

  lemma TurnStep(s: State, step: Step)
    requires Inv(s) && step.TurnReply? && Enabled(s, step)
    ensures Inv(Next(s, step))
  {
    hide PG.Inv, CF.Inv, PG.Next, PG.Enabled, CF.Registered, GuardOk, GateKnown, RepliesKnown, RecordsOk, VerdictOf, BegunOk,
         TurnsOk, ValidProposal, Registration;
    var proposal, gone := s.turns[step.turn].proposal, s.(turns := s.turns - {step.turn});
    TurnGone(s, step.turn);
    TurnHanded(s, step);
    match VerdictOf(s, step.turn, step.body) {
      case Executes =>
        var entry := PG.Enter(step.thread, proposal, Obj(step.body));
        GatewayStep(s, entry);
        GuardSame(s, gone.(gate := PG.Next(s.gate, entry)));
      case Asks(confirmation) => AskStep(s, step.turn, step.body);
      case _ =>
    }
  }

  lemma TurnHanded(s: State, step: Step)
    requires Inv(s) && step.TurnReply? && step.turn in s.turns && step.body in s.bodies
    ensures Handed(s.bodies, s.begun, s.turns[step.turn].proposal, Obj(step.body))
  {
    hide PG.Inv, CF.Inv, GuardOk, GateKnown, RepliesKnown, RecordsOk, BegunOk, M.MapProposal;
  }

  /** A new turn's proposal is nobody else's. */
  lemma BeginStep(s: State, step: Step)
    requires Inv(s) && step.BeginTurn? && Enabled(s, step)
    ensures Inv(Next(s, step))
  {
    hide PG.Inv, CF.Inv, GuardOk, GateKnown, RepliesKnown, M.MapProposal, RecordsOk, BegunOk, TurnsOk, UnusedProposal;
    var s' := Next(s, step);
    GuardSame(s, s');
    GateGrows(s.gate, s.bodies, s'.bodies, s.begun, s'.begun);
    BegunGrows(s, step);
    RecordsKept(s.begun, s'.begun, s.turns, s'.turns, s.parked, s.parked, s.manager.table);
  }

  lemma BegunGrows(s: State, step: Step)
    requires step.BeginTurn? && Enabled(s, step) && BegunOk(s.registry, s.mapping, s.begun)
    requires TurnsOk(s.registry, s.mapping, s.begun, s.turns)
    ensures var s' := Next(s, step);
            BegunOk(s'.registry, s'.mapping, s'.begun) && TurnsOk(s'.registry, s'.mapping, s'.begun, s'.turns)
    ensures step.proposal !in s.begun
  {
    hide M.MapProposal;
    assert step.proposal !in s.begun;
  }

  lemma StepInv(s: State, step: Step)
    requires Inv(s) && Enabled(s, step)
    ensures Inv(Next(s, step))
  {
    hide Inv, Enabled, Next;
    match step
    case Serve(_, _, _, _, _) => ServeStep(s, step);
    case TurnReply(_, _, _) => TurnStep(s, step);
    case ExecuteConfirmed(_, _) => ConfirmedStep(s, step);
    case BeginTurn(_, _) => BeginStep(s, step);
    case TurnLost(_) => LostStep(s, step);
    case Manage(_) => ManageStep(s, step);
    case Actuate(_) => ActuateStep(s, step);
  }

  lemma LostStep(s: State, step: Step)
    requires Inv(s) && step.TurnLost? && Enabled(s, step)
    ensures Inv(Next(s, step))
  {
    hide Inv;
    TurnGone(s, step.turn);
  }

  lemma ManageStep(s: State, step: Step)
    requires Inv(s) && step.Manage? && Enabled(s, step)
    ensures Inv(Next(s, step))
  {
    hide PG.Inv, CF.Inv, CF.Next, CF.Enabled, GuardOk, GateKnown, RepliesKnown, RecordsOk, BegunOk, TurnsOk;
    ManagerStep(s, step.confirm);
    GuardSame(s, Next(s, step));
  }

  lemma ActuateStep(s: State, step: Step)
    requires Inv(s) && step.Actuate? && Enabled(s, step)
    ensures Inv(Next(s, step))
  {
    hide PG.Inv, CF.Inv, PG.Next, PG.Enabled, GuardOk, GateKnown, RepliesKnown, RecordsOk, BegunOk, TurnsOk;
    GatewayStep(s, step.actuate);
    GuardSame(s, Next(s, step));
  }

  /** The manager hands over the stored proposal of a turn with a reply of the guardrail. */
  lemma ConfirmedHanded(s: State, step: Step)
    requires step.ExecuteConfirmed? && Enabled(s, step)
    requires RepliesKnown(s.manager, s.bodies) && RecordsOk(s.begun, s.turns, s.parked, s.manager.table)
    ensures var entry := ConfirmedEntry(s, step.call, step.thread); Handed(s.bodies, s.begun, entry.proposal, entry.payload)
  {
    hide PG.Enabled;
    var id := s.manager.calls[step.call].id;
    assert RecordOk(s.begun, s.turns, s.parked, id, s.manager.table[id].proposal);
  }

  lemma ConfirmedStep(s: State, step: Step)
    requires Inv(s) && step.ExecuteConfirmed? && Enabled(s, step)
    ensures Inv(Next(s, step))
  {
    hide PG.Inv, CF.Inv, PG.Next, CF.Next, PG.Enabled, CF.Enabled, GuardOk, GateKnown, RepliesKnown, RecordsOk, BegunOk,
         TurnsOk, Handed, ConfirmedEntry;
    ConfirmedHanded(s, step);
    var entry := ConfirmedEntry(s, step.call, step.thread);
    ManagerStep(s, CF.Execute(step.call));
    assert entry.Enter? by { ConfirmedIsEntry(s, step); }
    GatewayStep(s, entry);
    GuardSame(s, Next(s, step));
  }

  lemma ConfirmedIsEntry(s: State, step: Step)
    requires step.ExecuteConfirmed? && Enabled(s, step)
    ensures ConfirmedEntry(s, step.call, step.thread).Enter?
  {
    hide PG.Enabled, CF.Next;
  }

  // ---- end to end ----------------------------------------------------------------------------------------------------------

  ghost predicate IsRun(run: seq<State>, steps: seq<Step>) {
    && |run| == |steps| + 1 && Init(run[0])
    && forall i | 0 <= i < |steps| :: Enabled(run[i], steps[i]) && run[i + 1] == Next(run[i], steps[i])
  }

  lemma {:induction false} RunInv(run: seq<State>, steps: seq<Step>, i: nat)
    requires IsRun(run, steps) && i < |run|
    ensures Inv(run[i])
    decreases i
  {
    hide Inv, Next, Enabled, Init;
    if i == 0 {
      InitInv(run[0]);
    } else {
      RunInv(run, steps, i - 1);
      StepInv(run[i - 1], steps[i - 1]);
    }
  }

  /** A reply the gateway found an acceptable permit in carries that permit as its own. */
  lemma PermitIsBodys(mints: seq<Minted>, body: Fields)
    requires ValidResult(body) && PG.Extract(Obj(body)).Ok?
    ensures Permit in body && body[Permit] == Obj(PG.Extract(Obj(body)).value.0)
  {
    PermitExactlyOnAllow(body);
    assert PermitId !in body;
  }

  ghost predicate Minting(s: State, i: nat) {
    i < |s.mints| && MintOk(s.config, s.tokens.consumed, s.issued, s.parked, s.mints[i])
  }

  /** The driver was asked about this very call, under this rule, and the token of that question is used up. */
  ghost predicate AskedBefore(s: State, proposal: Fields, intent: string, token: Json, rule: string)
    requires ValidProposal(proposal)
  {
    && token in s.tokens.consumed && token in s.parked
    && var k := s.parked[token];
       && GS.ParkingOk(s.config, k.snap, k.parking) && k.parking.token.intent == intent
       && k.parking.token.originRule == rule
       && ValidProposal(k.parking.token.proposal) && Digest(k.parking.token.proposal) == Digest(proposal)
  }

  /**
   Why an action may start, told about the action itself: the guardrail resolved this call to the minted intent
   and evaluated it, with this call's own parameters, to ALLOW; or it asked the driver about this call and a
   fresh evaluation said ALLOW, or CONFIRM by the rule that had asked.
   */
  ghost predicate Authorised(s: State, proposal: Fields, m: Minted)
    requires ValidProposal(proposal)
  {
    && GS.Resolved(s.config, proposal, m.mint.intent)
    && m.mint.query == GS.QueryFor(s.config, m.snap, proposal, m.mint.intent, m.mint.origin)
    && match m.mint.origin
       case Direct => PolicyEngine.Decide(m.mint.query).outcome == Some(PolicyEngine.ALLOW)
       case Confirmed(token, rule) =>
         && AskedBefore(s, proposal, m.mint.intent, token, rule)
         && (|| PolicyEngine.Decide(m.mint.query).outcome == Some(PolicyEngine.ALLOW)
             || GS.SameRuleConfirm(PolicyEngine.Decide(m.mint.query), rule))
  }

  /**
   End to end: every handler ever started runs on a permit the guardrail minted for exactly this proposal, and
   the mint authorises it. A "keep running" permit never starts anything.
   */
  lemma EveryStartAuthorised(run: seq<State>, steps: seq<Step>, k: nat, a: nat) returns (i: nat)
    requires IsRun(run, steps) && k < |run| && a < |run[k].gate.starts|
    ensures var s, g := run[k], run[k].gate.starts[a].grant;
            && Minting(s, i) && Obj(g.permit) == PermitOf(s.mints[i])
            && ValidProposal(g.proposal) && Digest(s.mints[i].mint.proposal) == Digest(g.proposal)
            && Authorised(s, g.proposal, s.mints[i])
  {
    RunInv(run, steps, k);
    var s := run[k];
    var g := s.gate.starts[a].grant;
    StartedBody(s, a);
    hide PG.Inv, CF.Inv, GuardOk, GateKnown, BodyOk, MintOk, Digest, PermitOf, ValidProposal, M.MapProposal, Authorised,
         RecordsOk, IsRun;
    i := MintBehind(s, g.payload.fields, g.proposal);
    MintAuthorises(s, i, g.proposal);
  }

  /** What the gateway knew when it started a handler. */
  lemma StartedBody(s: State, a: nat)
    requires Inv(s) && a < |s.gate.starts|
    ensures var g := s.gate.starts[a].grant;
            && g.payload.Obj? && g.payload.fields in s.bodies && g.proposal in s.begun && ValidProposal(g.proposal)
            && Get(g.payload.fields, Permit) == Obj(g.permit)
            && Get(g.permit, ProposalDigest) == Digest(g.proposal)
  {
    var g := s.gate.starts[a].grant;
    assert PG.Sound(g) && Handed(s.bodies, s.begun, g.proposal, g.payload);
    hide CF.Inv, RepliesKnown, RecordsOk, BegunOk, TurnsOk, MintsOk, ParkedOk;
    assert BodyOk(s.mints, s.parked, g.payload.fields);
    PermitIsBodys(s.mints, g.payload.fields);
  }

  /** The mint behind a reply whose permit is bound to a proposal: monitor replies are bound to something else. */
  lemma MintBehind(s: State, body: Fields, proposal: Fields) returns (i: nat)
    requires GuardOk(s) && body in s.bodies && ValidProposal(proposal)
    requires Get(body, Permit).Obj? && Get(body[Permit].fields, ProposalDigest) == Digest(proposal)
    ensures Minting(s, i) && body[Permit] == PermitOf(s.mints[i])
    ensures Digest(s.mints[i].mint.proposal) == Digest(proposal)
  {
    assert BodyOk(s.mints, s.parked, body);
    hide ValidProposal, ValidResult, Digest, ParkedOk;
    assert !GS.KeepRunning(body) by { DigestIsAction(proposal); }
    i :| 0 <= i < |s.mints| && ValidProposal(s.mints[i].mint.proposal) && Get(body, Permit) == PermitOf(s.mints[i]);
    MintBindsDigest(s.mints[i]);
    assert MintOk(s.config, s.tokens.consumed, s.issued, s.parked, s.mints[i]);
  }

  /** Equal digests mean the same call, so what holds of the minted proposal holds of the started one. */
  lemma SameCall(config: GS.Config, snap: GS.Snapshot, p: Fields, q: Fields, intent: string, origin: GS.Origin)
    requires ValidProposal(p) && ValidProposal(q) && Digest(p) == Digest(q)
    ensures GS.Resolved(config, p, intent) <==> GS.Resolved(config, q, intent)
    ensures GS.QueryFor(config, snap, p, intent, origin) == GS.QueryFor(config, snap, q, intent, origin)
  {
    hide M.Resolve, GS.Params, GS.GateQuery;
  }

  lemma MintAuthorises(s: State, i: nat, proposal: Fields)
    requires GuardOk(s) && Minting(s, i) && ValidProposal(proposal) && Digest(s.mints[i].mint.proposal) == Digest(proposal)
    ensures Authorised(s, proposal, s.mints[i])
  {
    var m := s.mints[i];
    SameCall(s.config, m.snap, m.mint.proposal, proposal, m.mint.intent, m.mint.origin);
    hide Digest, ValidProposal, GS.Resolved, GS.QueryFor, PolicyEngine.Decide, GS.SameRuleConfirm, GS.WellNamed, BodiesOk,
         GS.ParkingOk;
  }

  lemma DigestIsAction(p: Fields)
    requires ValidProposal(p)
    ensures Digest(p).Sha? && Digest(p).of.ActionProjection?
  {}

  lemma MintBindsDigest(m: Minted)
    requires ValidProposal(m.mint.proposal)
    ensures PermitOf(m).fields[ProposalDigest] == Digest(m.mint.proposal)
    ensures PermitOf(m).fields[PermitId] == Str(m.mint.stamp.id)
  {}

  /** "Exactly this proposal": equal digests fix everything but the model's name. */
  lemma DigestIsInjective(p: Fields, q: Fields)
    requires ValidProposal(p) && ValidProposal(q) && Digest(p) == Digest(q)
    ensures forall k | k in PROPOSAL_FIELDS && k != ModelProvider && k != ModelId :: p[k] == q[k]
  {}

  /** Each mint starts at most one handler. */
  lemma OneStartPerMint(run: seq<State>, steps: seq<Step>, k: nat, a: nat, b: nat, i: nat)
    requires IsRun(run, steps) && k < |run| && a < |run[k].gate.starts| && b < |run[k].gate.starts|
    requires i < |run[k].mints| && ValidProposal(run[k].mints[i].mint.proposal)
    requires Obj(run[k].gate.starts[a].grant.permit) == PermitOf(run[k].mints[i]) == Obj(run[k].gate.starts[b].grant.permit)
    ensures a == b
  {
    RunInv(run, steps, k);
    hide PermitOf, ValidProposal, GuardOk, GateKnown;
    var starts := run[k].gate.starts;
    assert PG.Uses(starts[b], Get(starts[a].grant.permit, PermitId));
    assert PG.Uses(starts[a], Get(starts[b].grant.permit, PermitId));
  }

  /** Each confirmation token leads to at most one mint, and each mint has its own permit id. */
  lemma OneMintPerToken(run: seq<State>, steps: seq<Step>, k: nat, i: nat, j: nat)
    requires IsRun(run, steps) && k < |run| && i < |run[k].mints| && j < |run[k].mints| && i != j
    ensures Apart(run[k].mints[i], run[k].mints[j])
  {
    RunInv(run, steps, k);
    var lo, hi := if i < j then i else j, if i < j then j else i;
    assert Apart(run[k].mints[lo], run[k].mints[hi]);
  }

  /** A turn that executes does so on a mint for the intent the agent itself mapped, confirmed or not. */
  lemma TurnExecutesItsIntent(run: seq<State>, steps: seq<Step>, k: nat) returns (i: nat)
    requires IsRun(run, steps) && k < |steps| && steps[k].TurnReply?
    requires VerdictOf(run[k], steps[k].turn, steps[k].body).Executes?
    ensures var s, turn := run[k], run[k].turns[steps[k].turn];
            && Minting(s, i) && s.mints[i].mint.intent == turn.mapped.intent
            && Digest(s.mints[i].mint.proposal) == Digest(turn.proposal) && Authorised(s, turn.proposal, s.mints[i])
  {
    RunInv(run, steps, k);
    var s, turn, body := run[k], run[k].turns[steps[k].turn], steps[k].body;
    ExecutesShape(turn.proposal, turn.mapped, body);
    hide PG.Inv, CF.Inv, GuardOk, GateKnown, BodyOk, MintOk, Digest, PermitOf, Next, TurnVerdict, ValidProposal, ValidResult,
         Authorised, M.MapProposal, RecordsOk;
    i := MintBehind(s, body, turn.proposal);
    MintNamesIntent(s.mints[i]) by { assert MintOk(s.config, s.tokens.consumed, s.issued, s.parked, s.mints[i]); }
    MintAuthorises(s, i, turn.proposal);
  }

  /**
   With the guardrail's table copied from the agent's, every start, direct or confirmed, is for the intent
   the agent mapped when the turn began.
   */
  lemma EveryStartIsMapped(run: seq<State>, steps: seq<Step>, k: nat, a: nat) returns (i: nat)
    requires IsRun(run, steps) && k < |run| && a < |run[k].gate.starts|
    requires M.SameRows(run[k].mapping, run[k].config.table) && M.NoCapabilityRows(run[k].config.table)
    ensures var s, g := run[k], run[k].gate.starts[a].grant;
            var mapped := M.MapProposal(s.registry, s.mapping, g.proposal);
            && Minting(s, i) && Obj(g.permit) == PermitOf(s.mints[i]) && mapped.Ok?
            && mapped.value.intent == s.mints[i].mint.intent
  {
    i := EveryStartAuthorised(run, steps, k, a);
    RunInv(run, steps, k);
    var s := run[k];
    var g := s.gate.starts[a].grant;
    StartedBody(s, a);
    hide PG.Inv, CF.Inv, GuardOk, GateKnown, PermitOf, MintOk, Digest, IsRun, M.MapProposal, M.Resolve, M.SameRows,
         M.NoCapabilityRows, GS.QueryFor, RecordsOk, RepliesKnown, ValidProposal;
    M.ResolvedIsMapped(s.registry, s.mapping, s.config.table, g.proposal, s.mints[i].mint.intent);
  }

  /** In every run, a confirmation is registered only once: its id is one the manager has never seen. */
  lemma RegistrationIsNew(run: seq<State>, steps: seq<Step>, k: nat)
    requires IsRun(run, steps) && k < |steps| && steps[k].TurnReply?
    requires VerdictOf(run[k], steps[k].turn, steps[k].body).Asks?
    ensures var s, block := run[k], VerdictOf(run[k], steps[k].turn, steps[k].body).confirmation;
            && Get(block, ConfirmationId) !in s.manager.table && FromParking(s.parked, block)
            && Get(block, ProposalId) == Get(s.turns[steps[k].turn].proposal, ProposalId)
  {
    RunInv(run, steps, k);
    RegistersNew(run[k], steps[k].turn, steps[k].body);
    hide Inv, VerdictOf, FromParking, Next;
  }

  lemma ExecutesShape(proposal: Fields, mapped: M.Mapped, body: Fields)
    requires ValidProposal(proposal) && TurnVerdict(proposal, mapped, body).Executes?
    ensures Get(body, Permit).Obj? && Get(body[Permit].fields, ProposalDigest) == Digest(proposal)
    ensures Get(body[Permit].fields, Intent) == Str(mapped.intent)
  {
    PermitExactlyOnAllow(body);
    hide Digest;
  }

  lemma MintNamesIntent(m: Minted)
    requires ValidProposal(m.mint.proposal)
    ensures Get(PermitOf(m).fields, Intent) == Str(m.mint.intent)
  {}

  // ---- a genuine permit is good for its proposal, once, in time -------------------------------------------------------------

  /** An ALLOW reply minted for `proposal`, as the guardrail sends it. */
  ghost predicate Genuine(body: Fields, proposal: Fields, stamp: Stamp) {
    && ValidResult(body) && Get(body, Kind) == Word(DecisionKind) && Allows(body) && ValidProposal(proposal)
    && Short(stamp.id) && Intent in body && body[Intent].Str? && RuleId in body && body[RuleId].Str?
    && StateVersion in body && body[StateVersion].Int? && PolicyChecksum in body
    && Get(body, Permit) == Obj(MintPermit(Digest(proposal), body[Intent].s, body[RuleId].s, body[StateVersion].i,
                                           body[PolicyChecksum], stamp))
  }

  /**
   The gateway accepts a genuine reply exactly while its permit is unused, not revoked and inside its two
   seconds, and it never accepts it for a proposal with another digest.
   */
  lemma GenuinePermitAccepted(l: PG.Ledger, body: Fields, proposal: Fields, stamp: Stamp, now: int)
    requires Genuine(body, proposal, stamp)
    ensures PG.Verify(l, proposal, Obj(body), now).Ok? <==>
            && Str(stamp.id) !in l.consumed && !PG.Revoked(l, proposal[SessionId], stamp.at)
            && stamp.at <= now <= stamp.at + PERMIT_TTL
    ensures forall q | ValidProposal(q) && Digest(q) != Digest(proposal) :: PG.Verify(l, q, Obj(body), now).Err?
  {
    hide ValidResult, ValidProposal, Digest, PG.Revoked;
    var permit := body[Permit].fields;
    MintFields(Digest(proposal), body[Intent].s, body[RuleId].s, body[StateVersion].i, body[PolicyChecksum], stamp);
    hide MintPermit;
    assert PG.Extract(Obj(body)) == Ok((permit, Some(body)));
    assert PG.Matches(body, permit);
  }
}
