/**
 Who confirmed an action, and when: every confirmed permit goes back to one confirm request on the guardrail, by the
 proposal's own session, and to the request that asked, at most thirty seconds before. And what is allowed does run.
 */
module Accountability {
  import opened Wrappers
  import opened Wire
  import opened EndToEnd
  import PolicyEngine
  import GS = GuardrailService
  import GV = GuardrailVerdicts
  import M = ToolMapping
  import PG = PermitGateway

  /** Step `j` serves the request on which the `i`-th mint was issued. */
  ghost predicate MintedAt(run: seq<State>, steps: seq<Step>, j: nat, i: nat, mint: GS.Mint)
    requires |run| == |steps| + 1
  {
    && j < |steps| && steps[j].Serve? && |run[j].mints| == i && Served(run[j], steps[j]).mint == Some(mint)
  }

  /** Step `h` serves the request that asked, and parked the token. */
  ghost predicate ParkedAt(run: seq<State>, steps: seq<Step>, h: nat, id: Json, token: GS.Token)
    requires |run| == |steps| + 1
  {
    && h < |steps| && steps[h].Serve?
    && var parking := Served(run[h], steps[h]).parking;
       parking.Some? && parking.value.id == id && parking.value.token == token
  }

  lemma MintsGrow(s: State, step: Step)
    requires Enabled(s, step)
    ensures s.mints <= Next(s, step).mints && (|Next(s, step).mints| > |s.mints| ==>
              && step.Serve? && |Next(s, step).mints| == |s.mints| + 1
              && Served(s, step).mint == Some(Next(s, step).mints[|s.mints|].mint))
  {
    hide Served, Enabled, TurnNext, ConfirmedEntry, WithParking;
    if step.TurnReply? { TurnKeeps(s, step); }
  }

  lemma TurnKeeps(s: State, step: Step)
    requires Enabled(s, step) && step.TurnReply?
    ensures Next(s, step).mints == s.mints && Next(s, step).parked == s.parked && Next(s, step).tokens == s.tokens
  {
    hide VerdictOf, Registration;
  }

  lemma {:induction false} MintServed(run: seq<State>, steps: seq<Step>, k: nat, i: nat) returns (j: nat)
    requires IsRun(run, steps) && k < |run| && i < |run[k].mints|
    ensures j < k && MintedAt(run, steps, j, i, run[k].mints[i].mint)
    decreases k
  {
    hide Enabled, Next, Served;
    assert Init(run[0]);
    MintsGrow(run[k - 1], steps[k - 1]);
    if i < |run[k - 1].mints| {
      j := MintServed(run, steps, k - 1, i);
    } else {
      j := k - 1;
    }
  }

  lemma ParkedGrows(s: State, step: Step, id: Json)
    requires Enabled(s, step) && id in Next(s, step).parked
    ensures if step.Serve? && Served(s, step).parking.Some? && Served(s, step).parking.value.id == id
            then Next(s, step).parked[id].parking == Served(s, step).parking.value
            else id in s.parked && Next(s, step).parked[id] == s.parked[id]
  {
    hide Served, Enabled, TurnNext, ConfirmedEntry;
    if step.TurnReply? { TurnKeeps(s, step); }
  }

  lemma {:induction false} ParkingServed(run: seq<State>, steps: seq<Step>, k: nat, id: Json) returns (h: nat)
    requires IsRun(run, steps) && k < |run| && id in run[k].parked
    ensures h < k && ParkedAt(run, steps, h, id, run[k].parked[id].parking.token)
    decreases k
  {
    hide Enabled, Next, Served;
    assert Init(run[0]);
    var s, step := run[k - 1], steps[k - 1];
    ParkedGrows(s, step, id);
    if step.Serve? && Served(s, step).parking.Some? && Served(s, step).parking.value.id == id {
      h := k - 1;
    } else {
      h := ParkingServed(run, steps, k - 1, id);
    }
  }

  /** A parked token is the proposal's own session's, and lapses thirty seconds after it was asked for. */
  lemma ParkedFor(s: State, step: Step)
    requires Inv(s) && step.Serve? && Enabled(s, step) && Served(s, step).parking.Some?
    ensures var t := Served(s, step).parking.value.token;
            && ValidProposal(t.proposal) && t.session == Get(t.proposal, SessionId) && t.session != Str("")
            && t.expiresAt == step.nonce.now + 30_000_000
  {
    hide GS.Handle, GS.TokensMove, GS.ShowsParking, GS.TokensOk, GS.QueryFor, GS.SameRuleConfirm;
    assert GuardOk(s);
    ServedTokens(s, step);
    var t := Served(s, step).parking.value.token;
    GS.ResolvedValid(s.config, t.proposal, t.intent);
    SessionNamed(t.proposal);
  }

  lemma SessionNamed(p: Fields)
    requires ValidProposal(p)
    ensures Get(p, SessionId) != Str("")
  {}

  lemma MintTakes(s: State, step: Step)
    requires Inv(s) && step.Serve? && Enabled(s, step)
    requires Served(s, step).mint.Some? && Served(s, step).mint.value.origin.Confirmed?
    ensures var m := Served(s, step).mint.value;
            && step.route.ConfirmRoute? && step.payload.Obj? && m.origin.token == Get(step.payload.fields, ConfirmationId)
            && m.origin.token in s.tokens.pending && m.origin.token in s.parked
            && var t := s.tokens.pending[m.origin.token];
               && s.parked[m.origin.token].parking.token == t && t.proposal == m.proposal && t.intent == m.intent
               && t.originRule == m.origin.rule
               && GV.Owns(t, Get(step.payload.fields, SessionId)) && step.nonce.now <= t.expiresAt
  {
    hide GS.Handle, GS.Justified, GS.TokensOk, GS.ParkingOk, GS.Consume, Enabled;
    assert GuardOk(s);
    TokensAreOk(s.config, s.tokens, s.parked);
    GS.MintJustified(s.config, s.tokens, step.route, step.payload, step.supplied, step.snap, step.nonce);
    var m := Served(s, step).mint.value;
    GV.TakeExactly(s.tokens, m.origin.token, Get(step.payload.fields, SessionId), step.nonce.now);
  }

  /**
   In every run, a confirmed mint was issued on a confirm request that named the token, came from the session of the
   proposal itself, and reached the guardrail at most thirty seconds after the request that asked and parked it.
   */
  lemma ConfirmedBySession(run: seq<State>, steps: seq<Step>, k: nat, i: nat) returns (j: nat, h: nat)
    requires IsRun(run, steps) && k < |run| && i < |run[k].mints| && run[k].mints[i].mint.origin.Confirmed?
    ensures var m := run[k].mints[i].mint;
            && h < j < k && MintedAt(run, steps, j, i, m) && steps[j].route.ConfirmRoute? && steps[j].payload.Obj?
            && Get(steps[j].payload.fields, ConfirmationId) == m.origin.token
            && Get(steps[j].payload.fields, SessionId) == Get(m.proposal, SessionId)
            && steps[h].Serve? && steps[j].nonce.now <= steps[h].nonce.now + 30_000_000
            && exists t :: ParkedAt(run, steps, h, m.origin.token, t) && t.proposal == m.proposal && t.intent == m.intent
                           && t.originRule == m.origin.rule
  {
    hide Inv, Next, Served, Enabled, Init;
    var m := run[k].mints[i].mint;
    j := MintServed(run, steps, k, i);
    RunInv(run, steps, j);
    MintTakes(run[j], steps[j]);
    h := ParkingServed(run, steps, j, m.origin.token);
    RunInv(run, steps, h);
    ParkedFor(run[h], steps[h]);
    assert ParkedAt(run, steps, h, m.origin.token, run[j].tokens.pending[m.origin.token]);
  }

  // ---- what is allowed does run -----------------------------------------------------------------------------------------

  lemma AllowedBody(c: GS.Config, tokens: GS.Tokens, p: Fields, requestId: Json, snap: GS.Snapshot, nonce: GS.Fresh, intent: string)
    requires GS.WellNamed(c) && GS.FreshOk(nonce) && IsIdentifier(requestId) && ValidProposal(p)
    requires M.Resolve(c.table, p[Tool], p[Arguments].fields) == Ok(intent)
    requires PolicyEngine.Decide(GS.QueryFor(c, snap, p, intent, GS.Direct)).outcome == Some(PolicyEngine.ALLOW)
    ensures var body := GS.EvaluateAction(c, tokens, p, requestId, snap, nonce).body;
            && Genuine(body, p, nonce.stamp) && Get(body, ProposalId) == Get(p, ProposalId) && Get(body, Intent) == Str(intent)
  {
    hide GS.EvaluateAction, PolicyEngine.Decide, M.Resolve, ValidResult, GS.Spell, GS.ReasonName, GS.Wired, GS.QueryFor,
         GV.SaysError, GS.FaultName, GS.ResolveName, ValidProposal, GS.WellNamed, GS.Good, Genuine, GS.Justified, GS.UsesToken;
    GV.ValidHasNoFault(p);
    PolicyEngine.FailClosed(GS.QueryFor(c, snap, p, intent, GS.Direct));
    GV.ActionVerdict(c, tokens, p, requestId, snap, nonce);
    GS.ActionGood(c, tokens, p, requestId, snap, nonce);
    GS.ActionMint(c, tokens, p, requestId, snap, nonce);
    GoodIsGenuine(GS.EvaluateAction(c, tokens, p, requestId, snap, nonce), p, nonce.stamp);
  }

  /** The permit of a good reply repeats its decision, so it is the one minted for what the decision says. */
  lemma GoodIsGenuine(r: GS.Response, p: Fields, stamp: Stamp)
    requires GS.Good(r) && r.mint.Some? && r.mint.value.proposal == p && r.mint.value.stamp == stamp && Short(stamp.id)
    requires ValidProposal(p)
    ensures Genuine(r.body, p, stamp)
  {
    var m := r.mint.value;
    PermitExactlyOnAllow(r.body);
    MintFields(Digest(p), m.intent, m.rule, r.body[StateVersion].i, r.body[PolicyChecksum], stamp);
    ResultAccepted(r.body);
    hide ValidResult, MintPermit, Digest, ValidProposal, PermitShape, ErrorShape, IsIdentifier;
  }

  /**
   Whatever the guardrail itself resolves as the agent mapped it, and evaluates to ALLOW, makes the turn execute, and the
   gateway accepts its permit exactly while it is unused, unrevoked and within its two seconds.
   */
  lemma AllowedCallRuns(c: GS.Config, tokens: GS.Tokens, p: Fields, requestId: Json, snap: GS.Snapshot, nonce: GS.Fresh,
                        mapped: M.Mapped, l: PG.Ledger, now: int)
    requires GS.WellNamed(c) && GS.FreshOk(nonce) && IsIdentifier(requestId) && ValidProposal(p)
    requires M.Resolve(c.table, p[Tool], p[Arguments].fields) == Ok(mapped.intent) && mapped.digest == Digest(p)
    requires PolicyEngine.Decide(GS.QueryFor(c, snap, p, mapped.intent, GS.Direct)).outcome == Some(PolicyEngine.ALLOW)
    ensures var body := GS.EvaluateAction(c, tokens, p, requestId, snap, nonce).body;
            && TurnVerdict(p, mapped, body).Executes?
            && (PG.Verify(l, p, Obj(body), now).Ok? <==>
                  && Str(nonce.stamp.id) !in l.consumed && !PG.Revoked(l, p[SessionId], nonce.stamp.at)
                  && nonce.stamp.at <= now <= nonce.stamp.at + 2_000_000)
  {
    hide GS.EvaluateAction, PolicyEngine.Decide, M.Resolve, PG.Verify, PG.Revoked, TurnVerdict, GS.QueryFor, ValidProposal;
    AllowedBody(c, tokens, p, requestId, snap, nonce, mapped.intent);
    var body := GS.EvaluateAction(c, tokens, p, requestId, snap, nonce).body;
    GenuinePermitAccepted(l, body, p, nonce.stamp, now);
    TurnDecides(p, mapped, body);
    GenuineDigest(body, p, nonce.stamp);
    hide Genuine, ValidResult, Digest;
  }

  lemma GenuineDigest(body: Fields, p: Fields, stamp: Stamp)
    requires Genuine(body, p, stamp)
    ensures Get(body, Permit).Obj? && Get(body[Permit].fields, ProposalDigest) == Digest(p)
    ensures ValidResult(body) && Get(body, Kind) == Word(DecisionKind)
    ensures Get(body, OutcomeKey) == Word(OutcomeWord(PolicyEngine.ALLOW))
  {
    hide ValidResult, Digest;
  }
}
