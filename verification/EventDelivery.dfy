/**
 Ordered event delivery (agent/src/vehicle_agent/events/).

 The transition system below has one step per critical section of `EventStreamAdapter`. A callback
 runs between two steps, so it may re-enter any operation; an activation of `notify` or
 `subscribe_session` that still owes drains is a `Frame`. `logs` and `notified` are history only.
 */
module EventDelivery {
  import opened Wrappers

  type Token = nat
  type FrameId = nat

  const MAX_PENDING_EVENTS: nat := 256
  const MAX_EVENTS_PER_SESSION: nat := 4096

  datatype Event = Event(session: string, sequence: nat, payload: string)

  datatype Subscriber = Subscriber(session: string, lastSequence: nat, pending: seq<Event>,
                                   delivering: bool, highWatermark: nat)

  /** An activation that drains `todo[0]`, then `todo[1]`, ...; `holding` is inside a callback. */
  datatype Frame = Frame(todo: seq<Token>, holding: Option<Event>)

  /** Every callback invocation ever started for one subscription. */
  datatype Log = Log(session: string, since: nat, started: seq<Event>)

  datatype State = State(store: map<string, seq<Event>>, notified: map<string, nat>,
                         subs: map<Token, Subscriber>, frames: map<FrameId, Frame>,
                         logs: map<Token, Log>)
  {
    function Stored(session: string): seq<Event> {
      if session in store then store[session] else []
    }

    function Notified(session: string): nat {
      if session in notified then notified[session] else 0
    }
  }

  // ---- the critical sections, as functions of the subscriber table ----------------------------

  predicate Accepts(sub: Subscriber, e: Event) {
    sub.session == e.session && e.sequence > sub.highWatermark
  }

  predicate Overflows(sub: Subscriber, e: Event) {
    Accepts(sub, e) && |sub.pending| >= MAX_PENDING_EVENTS
  }

  /** The notifier becomes the drainer of this subscription. */
  predicate Elects(sub: Subscriber, e: Event) {
    Accepts(sub, e) && !Overflows(sub, e) && !sub.delivering
  }

  function Enqueue(sub: Subscriber, e: Event): Subscriber {
    if Accepts(sub, e)
    then sub.(pending := sub.pending + [e], highWatermark := e.sequence, delivering := true)
    else sub
  }

  function NotifyTable(subs: map<Token, Subscriber>, e: Event): map<Token, Subscriber> {
    map t | t in subs && !Overflows(subs[t], e) :: Enqueue(subs[t], e)
  }

  predicate IsElection(subs: map<Token, Subscriber>, e: Event, ready: seq<Token>) {
    && Distinct(ready)
    && (forall t | t in subs && Elects(subs[t], e) :: t in ready)
    && (forall t | t in ready :: t in subs && Elects(subs[t], e))
  }

  function EventsSince(stored: seq<Event>, since: nat): seq<Event> {
    if since <= |stored| then stored[since..] else []
  }

  function NewSubscriber(session: string, since: nat, history: seq<Event>): Subscriber {
    Subscriber(session, since, history, history != [],
               if history == [] then since else history[|history| - 1].sequence)
  }

  /** The locked part at the top of the drain loop. */
  function TakeTable(subs: map<Token, Subscriber>, t: Token): map<Token, Subscriber> {
    if t !in subs then subs
    else if subs[t].pending == [] then subs[t := subs[t].(delivering := false)]
    else subs[t := subs[t].(pending := subs[t].pending[1..])]
  }

  function AckTable(subs: map<Token, Subscriber>, t: Token, e: Event): map<Token, Subscriber> {
    if t in subs then subs[t := subs[t].(lastSequence := e.sequence)] else subs
  }

  // ---- the transition system -------------------------------------------------------------------

  datatype Step =
    | Append(session: string, payload: string)
    | Notify(frame: FrameId, session: string, index: nat, ready: seq<Token>)
    | Subscribe(frame: FrameId, token: Token, session: string, since: nat)
    | Unsubscribe(token: Token)
    | Take(frame: FrameId)
    | CallbackReturns(frame: FrameId)
    | CallbackRaises(frame: FrameId)

  ghost predicate Init(s: State) {
    s == State(map[], map[], map[], map[], map[])
  }

  predicate Enabled(s: State, step: Step) {
    match step
    case Append(session, _) => |s.Stored(session)| < MAX_EVENTS_PER_SESSION
    case Notify(f, session, i, ready) =>
      f !in s.frames && i < |s.Stored(session)| && IsElection(s.subs, s.Stored(session)[i], ready)
    case Subscribe(f, t, session, since) =>
      f !in s.frames && t !in s.logs && |EventsSince(s.Stored(session), since)| <= MAX_PENDING_EVENTS
    case Unsubscribe(_) => true
    case Take(f) => f in s.frames && s.frames[f].todo != [] && s.frames[f].holding.None?
    case CallbackReturns(f) => f in s.frames && s.frames[f].todo != [] && s.frames[f].holding.Some?
    case CallbackRaises(f) => f in s.frames && s.frames[f].todo != [] && s.frames[f].holding.Some?
  }

  function Next(s: State, step: Step): State
    requires Enabled(s, step)
  {
    match step
    case Append(session, payload) =>
      var stored := s.Stored(session);
      s.(store := s.store[session := stored + [Event(session, |stored| + 1, payload)]])
    case Notify(f, session, i, ready) =>
      s.(subs := NotifyTable(s.subs, s.Stored(session)[i]),
         notified := s.notified[session := i + 1],
         frames := s.frames[f := Frame(ready, None)])
    case Subscribe(f, t, session, since) =>
      var history := EventsSince(s.Stored(session), since);
      s.(subs := s.subs[t := NewSubscriber(session, since, history)],
         logs := s.logs[t := Log(session, since, [])],
         frames := s.frames[f := Frame(if history == [] then [] else [t], None)])
    case Unsubscribe(t) =>
      s.(subs := s.subs - {t})
    case Take(f) =>
      var frame := s.frames[f];
      var t := frame.todo[0];
      if t !in s.subs || s.subs[t].pending == [] then
        s.(subs := TakeTable(s.subs, t), frames := s.frames[f := Frame(frame.todo[1..], None)])
      else
        var e := s.subs[t].pending[0];
        s.(subs := TakeTable(s.subs, t),
           frames := s.frames[f := Frame(frame.todo, Some(e))],
           logs := RecordStart(s.logs, t, e))
    case CallbackReturns(f) =>
      var frame := s.frames[f];
      var t := frame.todo[0];
      s.(subs := AckTable(s.subs, t, frame.holding.value),
         frames := s.frames[f := Frame(if t in s.subs then frame.todo else frame.todo[1..], None)])
    case CallbackRaises(f) =>
      var frame := s.frames[f];
      s.(subs := s.subs - {frame.todo[0]}, frames := s.frames[f := Frame(frame.todo[1..], None)])
  }

  function RecordStart(logs: map<Token, Log>, t: Token, e: Event): map<Token, Log> {
    if t in logs then logs[t := logs[t].(started := logs[t].started + [e])] else logs
  }

  /** A finite execution from the empty system. */
  ghost predicate IsRun(states: seq<State>, steps: seq<Step>) {
    && |states| == |steps| + 1
    && Init(states[0])
    && forall i | 0 <= i < |steps| :: IsStep(states[i], steps[i], states[i + 1])
  }

  ghost predicate IsStep(s: State, step: Step, s': State) {
    Enabled(s, step) && s' == Next(s, step)
  }

  // ---- what holds in every reachable state ----------------------------------------------------

  /** Everything one subscription has been handed or still has queued, in order. */
  function Content(s: State, t: Token): seq<Event>
    requires t in s.logs
  {
    s.logs[t].started + if t in s.subs then s.subs[t].pending else []
  }

  function LastSequence(since: nat, es: seq<Event>): nat {
    if es == [] then since else es[|es| - 1].sequence
  }

  /** `es` are stored events after `since`, in strictly increasing sequence. */
  predicate Ordered(stored: seq<Event>, since: nat, es: seq<Event>) {
    && (forall i | 0 <= i < |es| ::
          since < es[i].sequence <= |stored| && es[i] == stored[es[i].sequence - 1])
    && (forall i, j | 0 <= i < j < |es| :: es[i].sequence < es[j].sequence)
  }

  predicate SessionStream(session: string, stored: seq<Event>) {
    forall i | 0 <= i < |stored| :: stored[i].session == session && stored[i].sequence == i + 1
  }

  ghost predicate StoreOk(s: State) {
    forall session | session in s.store :: SessionStream(session, s.store[session])
  }

  ghost predicate StreamOk(s: State, t: Token)
    requires t in s.logs
  {
    Ordered(s.Stored(s.logs[t].session), s.logs[t].since, Content(s, t))
  }

  /** A live subscription is bounded and its watermark is the last sequence it accepted. */
  ghost predicate LiveOk(s: State, t: Token)
    requires t in s.subs && t in s.logs
  {
    && s.subs[t].session == s.logs[t].session
    && |s.subs[t].pending| <= MAX_PENDING_EVENTS
    && s.subs[t].highWatermark == LastSequence(s.logs[t].since, Content(s, t))
  }

  ghost predicate StreamInv(s: State) {
    && StoreOk(s)
    && s.subs.Keys <= s.logs.Keys
    && (forall t | t in s.logs :: StreamOk(s, t))
    && (forall t | t in s.subs :: LiveOk(s, t))
  }

  ghost predicate Drains(s: State, f: FrameId, t: Token) {
    f in s.frames && t in s.frames[f].todo
  }

  /** `delivering` is set exactly while a drainer exists, and nothing waits without one. */
  ghost predicate Elected(s: State, t: Token)
    requires t in s.subs
  {
    && (s.subs[t].delivering <==> exists f :: Drains(s, f, t))
    && (s.subs[t].pending != [] ==> s.subs[t].delivering)
  }

  /** At most one activation drains a subscription, and its todo lists it once. */
  ghost predicate OneDrainer(s: State) {
    && (forall f | f in s.frames :: Distinct(s.frames[f].todo))
    && (forall f, g, t | Drains(s, f, t) && Drains(s, g, t) :: f == g)
  }

  ghost predicate DrainInv(s: State) {
    && OneDrainer(s)
    && (forall f, t | Drains(s, f, t) :: t in s.logs)
    && (forall t | t in s.subs :: Elected(s, t))
  }

  ghost predicate Holds(s: State, f: FrameId, t: Token) {
    f in s.frames && s.frames[f].holding.Some? && s.frames[f].todo != [] && s.frames[f].todo[0] == t
  }

  /** The callback in flight, if any, is the last one started. */
  ghost predicate HoldOk(s: State, f: FrameId, t: Token) {
    Holds(s, f, t) ==>
      && t in s.logs && s.logs[t].started != []
      && s.frames[f].holding.value == s.logs[t].started[|s.logs[t].started| - 1]
  }

  /** `last_sequence` trails the started callbacks by exactly the one in flight, if any. */
  ghost predicate AckOk(s: State, t: Token)
    requires t in s.subs && t in s.logs
  {
    var started := s.logs[t].started;
    if exists f :: Holds(s, f, t)
    then started != [] && s.subs[t].lastSequence == LastSequence(s.logs[t].since, started[..|started| - 1])
    else s.subs[t].lastSequence == LastSequence(s.logs[t].since, started)
  }

  ghost predicate AckInv(s: State)
    requires s.subs.Keys <= s.logs.Keys
  {
    && (forall f | f in s.frames && s.frames[f].holding.Some? :: s.frames[f].todo != [])
    && (forall f, t :: HoldOk(s, f, t))
    && (forall t | t in s.subs :: AckOk(s, t))
  }

  ghost predicate Inv(s: State) {
    StreamInv(s) && DrainInv(s) && AckInv(s)
  }

  // ---- preservation: the streams ---------------------------------------------------------------

  lemma OrderedPrefix(stored: seq<Event>, since: nat, es: seq<Event>, tail: seq<Event>)
    requires Ordered(stored, since, es + tail)
    ensures Ordered(stored, since, es)
  {
    assert forall i | 0 <= i < |es| :: (es + tail)[i] == es[i];
  }

  lemma OrderedAppend(stored: seq<Event>, since: nat, es: seq<Event>, e: Event)
    requires Ordered(stored, since, es)
    requires LastSequence(since, es) < e.sequence <= |stored| && e == stored[e.sequence - 1]
    ensures Ordered(stored, since, es + [e])
  {
    if es != [] { assert since < es[|es| - 1].sequence; }
  }

  lemma StreamNotify(s: State, s': State, e: Event, t: Token)
    requires t in s.logs && StreamOk(s, t) && (t in s.subs ==> LiveOk(s, t))
    requires 1 <= e.sequence <= |s.Stored(e.session)| && e == s.Stored(e.session)[e.sequence - 1]
    requires s'.store == s.store && s'.logs == s.logs && s'.subs == NotifyTable(s.subs, e)
    ensures StreamOk(s', t)
    ensures t in s'.subs ==>
      && LiveOk(s', t)
      && Content(s', t) == Content(s, t) + if Accepts(s.subs[t], e) then [e] else []
  {
    if t in s'.subs && Accepts(s.subs[t], e) {
      assert Content(s', t) == Content(s, t) + [e];
      OrderedAppend(s.Stored(e.session), s.logs[t].since, Content(s, t), e);
    } else if t in s.subs && t !in s'.subs {
      assert Content(s', t) == s.logs[t].started;
      OrderedPrefix(s.Stored(s.logs[t].session), s.logs[t].since, s.logs[t].started, s.subs[t].pending);
    } else {
      assert Content(s', t) == Content(s, t);
    }
  }

  lemma HistoryOrdered(session: string, stored: seq<Event>, since: nat)
    requires SessionStream(session, stored)
    ensures Ordered(stored, since, EventsSince(stored, since))
    ensures var h := EventsSince(stored, since); h != [] ==> h[|h| - 1].sequence == |stored|
  {
    var h := EventsSince(stored, since);
    forall i | 0 <= i < |h| ensures h[i] == stored[since + i] && h[i].sequence == since + i + 1 {}
  }

  lemma StreamSubscribe(s: State, s': State, t: Token, session: string, since: nat)
    requires StoreOk(s) && s'.store == s.store
    requires t in s'.logs && s'.logs[t] == Log(session, since, [])
    requires t in s'.subs && s'.subs[t] == NewSubscriber(session, since, EventsSince(s.Stored(session), since))
    requires |EventsSince(s.Stored(session), since)| <= MAX_PENDING_EVENTS
    ensures StreamOk(s', t) && LiveOk(s', t) && Content(s', t) == EventsSince(s.Stored(session), since)
  {
    hide Ordered, EventsSince, SessionStream, NewSubscriber, StreamOk, LiveOk, Content;
    StoredStream(s, session);
    HistoryOrdered(session, s.Stored(session), since);
    StreamFresh(s', t, session, since, EventsSince(s.Stored(session), since));
  }

  lemma StoredStream(s: State, session: string)
    requires StoreOk(s)
    ensures SessionStream(session, s.Stored(session))
  {}

  /** A subscription that has been handed nothing and has `history` queued. */
  lemma StreamFresh(s: State, t: Token, session: string, since: nat, history: seq<Event>)
    requires t in s.logs && s.logs[t] == Log(session, since, [])
    requires t in s.subs && s.subs[t] == NewSubscriber(session, since, history) && |history| <= MAX_PENDING_EVENTS
    requires Ordered(s.Stored(session), since, history)
    ensures StreamOk(s, t) && LiveOk(s, t) && Content(s, t) == history
  {
    hide Ordered;
    assert [] + history == history;
  }

  /** Storing more, dropping the subscriber or moving an event into a callback keeps the order. */
  lemma StreamKept(s: State, s': State, t: Token, tail: seq<Event>)
    requires t in s.logs && t in s'.logs && StreamOk(s, t)
    requires s.Stored(s.logs[t].session) <= s'.Stored(s.logs[t].session)
    requires s'.logs[t].session == s.logs[t].session && s'.logs[t].since == s.logs[t].since
    requires Content(s, t) == Content(s', t) + tail
    ensures StreamOk(s', t)
  {
    OrderedPrefix(s.Stored(s.logs[t].session), s.logs[t].since, Content(s', t), tail);
  }

  lemma StreamAppend(s: State, step: Step)
    requires StreamInv(s) && Enabled(s, step) && step.Append?
    ensures StreamInv(Next(s, step))
  {
    hide Ordered;
    var s' := Next(s, step);
    assert SessionStream(step.session, s.Stored(step.session));
    forall t | t in s.logs ensures StreamOk(s', t) { StreamKept(s, s', t, []); }
    forall t | t in s'.subs ensures LiveOk(s', t) { assert LiveOk(s, t) && Content(s', t) == Content(s, t); }
  }

  lemma StreamTakeContent(s: State, s': State, t: Token)
    requires s.subs.Keys <= s.logs.Keys && t in s.logs
    requires s'.subs == TakeTable(s.subs, t)
    requires s'.logs == if t in s.subs && s.subs[t].pending != [] then RecordStart(s.logs, t, s.subs[t].pending[0]) else s.logs
    ensures Content(s', t) == Content(s, t)
  {
    if t in s.subs && s.subs[t].pending != [] {
      var p := s.subs[t].pending;
      assert p == [p[0]] + p[1..];
      assert s.logs[t].started + ([p[0]] + p[1..]) == s.logs[t].started + [p[0]] + p[1..];
    }
  }

  /** Steps that only move events between a queue and its callback history. */
  lemma StreamMoved(s: State, s': State)
    requires StreamInv(s) && s'.store == s.store && s'.subs.Keys == s.subs.Keys && s'.logs.Keys == s.logs.Keys
    requires forall t | t in s.logs ::
      && s'.logs[t].session == s.logs[t].session && s'.logs[t].since == s.logs[t].since
      && Content(s', t) == Content(s, t)
    requires forall t | t in s.subs ::
      && s'.subs[t].session == s.subs[t].session && |s'.subs[t].pending| <= |s.subs[t].pending|
      && s'.subs[t].highWatermark == s.subs[t].highWatermark
    ensures StreamInv(s')
  {
    hide Ordered;
    forall t | t in s.logs ensures StreamOk(s', t) { StreamKept(s, s', t, []); }
    forall t | t in s'.subs ensures LiveOk(s', t) { assert LiveOk(s, t); }
  }

  lemma StreamTake(s: State, f: FrameId)
    requires StreamInv(s) && Enabled(s, Take(f))
    ensures StreamInv(Next(s, Take(f)))
  {
    hide StreamOk, LiveOk, StoreOk;
    var s' := Next(s, Take(f));
    var t0 := s.frames[f].todo[0];
    if t0 in s.subs {
      StreamTakeContent(s, s', t0);
      assert forall t | t in s.logs && t != t0 :: s'.logs[t] == s.logs[t];
      assert forall t | t in s.subs && t != t0 :: s'.subs[t] == s.subs[t];
    }
    StreamMoved(s, s');
  }

  lemma StreamDropped(s: State, s': State, u: Token)
    requires StreamInv(s)
    requires s'.store == s.store && s'.logs == s.logs && s'.subs == s.subs - {u}
    ensures StreamInv(s')
  {
    hide Ordered, StreamOk, LiveOk;
    forall t | t in s.logs ensures StreamOk(s', t) {
      if t == u && u in s.subs { DroppedOk(s, s', t); } else { SameStream(s, s', t); }
    }
    forall t | t in s'.subs ensures LiveOk(s', t) { SameStream(s, s', t); }
  }

  lemma DroppedOk(s: State, s': State, t: Token)
    requires t in s.logs && t in s'.logs && s'.logs[t] == s.logs[t] && StreamOk(s, t) && t in s.subs && t !in s'.subs
    requires s.Stored(s.logs[t].session) <= s'.Stored(s.logs[t].session)
    ensures StreamOk(s', t)
  {
    hide Ordered;
    StreamKept(s, s', t, s.subs[t].pending);
  }

  /** A subscription whose log and queue stay the same stays in order. */
  lemma SameStream(s: State, s': State, t: Token)
    requires t in s.logs && t in s'.logs && s'.logs[t] == s.logs[t] && StreamOk(s, t)
    requires t in s'.subs <==> t in s.subs
    requires t in s.subs ==> s'.subs[t] == s.subs[t] && LiveOk(s, t)
    requires s.Stored(s.logs[t].session) <= s'.Stored(s.logs[t].session)
    ensures StreamOk(s', t) && (t in s'.subs ==> LiveOk(s', t))
  {
    hide Ordered;
    assert Content(s', t) == Content(s, t);
    StreamKept(s, s', t, []);
  }

  lemma StreamNotifyAll(s: State, step: Step)
    requires StreamInv(s) && Enabled(s, step) && step.Notify?
    ensures StreamInv(Next(s, step))
  {
    var s' := Next(s, step);
    assert SessionStream(step.session, s.store[step.session]);
    forall t | t in s.logs ensures StreamOk(s', t) && (t in s'.subs ==> LiveOk(s', t)) {
      StreamNotify(s, s', s.Stored(step.session)[step.index], t);
    }
  }

  lemma StreamSubscribeAll(s: State, step: Step)
    requires StreamInv(s) && Enabled(s, step) && step.Subscribe?
    ensures StreamInv(Next(s, step))
  {
    hide Ordered, StreamOk, LiveOk, EventsSince, NewSubscriber, SessionStream;
    var s' := Next(s, step);
    StreamSubscribe(s, s', step.token, step.session, step.since);
    forall t | t in s.logs ensures StreamOk(s', t) && (t in s'.subs ==> LiveOk(s', t)) { SameStream(s, s', t); }
  }

  lemma StreamAck(s: State, f: FrameId)
    requires StreamInv(s) && Enabled(s, CallbackReturns(f))
    ensures StreamInv(Next(s, CallbackReturns(f)))
  {
    hide Ordered;
    StreamMoved(s, Next(s, CallbackReturns(f)));
  }

  lemma StreamStep(s: State, step: Step)
    requires StreamInv(s) && Enabled(s, step)
    ensures StreamInv(Next(s, step))
  {
    match step
    case Append(_, _) => StreamAppend(s, step);
    case Notify(_, _, _, _) => StreamNotifyAll(s, step);
    case Subscribe(_, _, _, _) => StreamSubscribeAll(s, step);
    case Unsubscribe(u) => StreamDropped(s, Next(s, step), u);
    case Take(f) => StreamTake(s, f);
    case CallbackReturns(f) => StreamAck(s, f);
    case CallbackRaises(f) => StreamDropped(s, Next(s, step), s.frames[f].todo[0]);
  }

  // ---- preservation: the drainers --------------------------------------------------------------

  /** A new activation may list subscriptions nobody drains yet. */
  lemma FrameAdded(s: State, s': State, f: FrameId, todo: seq<Token>)
    requires OneDrainer(s) && f !in s.frames && s'.frames == s.frames[f := Frame(todo, None)]
    requires Distinct(todo) && forall t, g | t in todo :: !Drains(s, g, t)
    ensures OneDrainer(s')
    ensures forall g, t :: Drains(s', g, t) <==> Drains(s, g, t) || (g == f && t in todo)
    ensures forall g, t :: Holds(s', g, t) <==> Holds(s, g, t)
  {
    assert forall g, t :: Drains(s', g, t) <==> Drains(s, g, t) || (g == f && t in todo);
  }

  /** An activation keeps its todo or is done with its first entry. */
  lemma FrameMoved(s: State, s': State, f: FrameId)
    requires OneDrainer(s) && f in s.frames && s.frames[f].todo != [] && s'.frames.Keys == s.frames.Keys
    requires forall g | g in s.frames && g != f :: s'.frames[g] == s.frames[g]
    requires s'.frames[f].todo == s.frames[f].todo || s'.frames[f].todo == s.frames[f].todo[1..]
    ensures OneDrainer(s')
    ensures forall g, t | t != s.frames[f].todo[0] :: Drains(s', g, t) <==> Drains(s, g, t)
    ensures forall g :: Drains(s', g, s.frames[f].todo[0]) <==> g == f && s'.frames[f].todo == s.frames[f].todo
    ensures forall g, t | t != s.frames[f].todo[0] && s'.frames[f].holding.None? :: Holds(s', g, t) ==> Holds(s, g, t)
    ensures forall g, t | g != f :: Holds(s', g, t) <==> Holds(s, g, t)
  {
    var todo := s.frames[f].todo;
    assert Drains(s, f, todo[0]);
    assert forall t | t in todo[1..] :: t in todo && t != todo[0];
    assert forall t | t in todo && t != todo[0] :: t in todo[1..];
    forall g, t | t != todo[0] ensures Drains(s', g, t) <==> Drains(s, g, t) {}
    forall g ensures Drains(s', g, todo[0]) <==> g == f && s'.frames[f].todo == todo {
      if g != f && g in s.frames && Drains(s, g, todo[0]) { assert false; }
    }
  }

  lemma DrainNotify(s: State, step: Step)
    requires DrainInv(s) && s.subs.Keys <= s.logs.Keys && Enabled(s, step) && step.Notify?
    ensures DrainInv(Next(s, step))
  {
    var s' := Next(s, step);
    var e := s.Stored(step.session)[step.index];
    forall t, g | t in step.ready ensures !Drains(s, g, t) { assert Elected(s, t); }
    FrameAdded(s, s', step.frame, step.ready);
    forall t | t in s'.subs ensures Elected(s', t) {
      assert Elected(s, t);
      if s'.subs[t].delivering {
        if s.subs[t].delivering {
          var g :| Drains(s, g, t);
          assert Drains(s', g, t);
        } else {
          assert Drains(s', step.frame, t);
        }
      }
    }
  }

  lemma DrainSubscribe(s: State, step: Step)
    requires DrainInv(s) && s.subs.Keys <= s.logs.Keys && Enabled(s, step) && step.Subscribe?
    ensures DrainInv(Next(s, step))
  {
    var s' := Next(s, step);
    FrameAdded(s, s', step.frame, s'.frames[step.frame].todo);
    forall t | t in s'.subs ensures Elected(s', t) {
      if t == step.token {
        if s'.subs[t].delivering { assert Drains(s', step.frame, t); }
      } else {
        assert Elected(s, t);
        if g :| Drains(s, g, t) { assert Drains(s', g, t); }
      }
    }
  }

  lemma DrainSame(s: State, s': State)
    requires DrainInv(s) && s'.frames == s.frames && s.logs.Keys <= s'.logs.Keys
    requires s'.subs.Keys <= s.subs.Keys && forall t | t in s'.subs :: s'.subs[t] == s.subs[t]
    ensures DrainInv(s')
  {
    assert forall f, t :: Drains(s', f, t) <==> Drains(s, f, t);
    forall t | t in s'.subs ensures Elected(s', t) {
      assert Elected(s, t);
      if g :| Drains(s, g, t) { assert Drains(s', g, t); }
    }
  }

  lemma DrainMoved(s: State, step: Step)
    requires DrainInv(s) && s.subs.Keys <= s.logs.Keys && Enabled(s, step)
    requires step.Take? || step.CallbackReturns? || step.CallbackRaises?
    ensures DrainInv(Next(s, step))
  {
    var s' := Next(s, step);
    var t0 := s.frames[step.frame].todo[0];
    FrameMoved(s, s', step.frame);
    assert Drains(s, step.frame, t0);
    forall t | t in s'.subs ensures Elected(s', t) {
      assert Elected(s, t);
      if t == t0 {
        if s'.subs[t].delivering { assert Drains(s', step.frame, t); }
      } else {
        assert s'.subs[t] == s.subs[t];
        if g :| Drains(s, g, t) { assert Drains(s', g, t); }
      }
    }
  }

  lemma DrainStep(s: State, step: Step)
    requires DrainInv(s) && s.subs.Keys <= s.logs.Keys && Enabled(s, step)
    ensures DrainInv(Next(s, step))
  {
    match step
    case Append(_, _) => DrainSame(s, Next(s, step));
    case Notify(_, _, _, _) => DrainNotify(s, step);
    case Subscribe(_, _, _, _) => DrainSubscribe(s, step);
    case Unsubscribe(_) => DrainSame(s, Next(s, step));
    case Take(_) => DrainMoved(s, step);
    case CallbackReturns(_) => DrainMoved(s, step);
    case CallbackRaises(_) => DrainMoved(s, step);
  }

  // ---- preservation: acknowledgements ----------------------------------------------------------

  lemma AckKept(s: State, s': State, t: Token)
    requires t in s.subs && t in s'.subs && t in s.logs && t in s'.logs && AckOk(s, t)
    requires s'.logs[t] == s.logs[t] && s'.subs[t].lastSequence == s.subs[t].lastSequence
    requires forall g :: Holds(s', g, t) <==> Holds(s, g, t)
    ensures AckOk(s', t)
  {
    if g :| Holds(s, g, t) { assert Holds(s', g, t); }
  }

  lemma AckUnheld(s: State, s': State)
    requires s.subs.Keys <= s.logs.Keys && s'.subs.Keys <= s'.logs.Keys && AckInv(s)
    requires forall f | f in s'.frames && s'.frames[f].holding.Some? :: f in s.frames && s'.frames[f] == s.frames[f]
    requires forall g, t :: Holds(s', g, t) <==> Holds(s, g, t)
    requires s.logs.Keys <= s'.logs.Keys && forall t | t in s.logs :: s'.logs[t] == s.logs[t]
    requires forall t | t in s'.subs :: if t in s.subs then s'.subs[t].lastSequence == s.subs[t].lastSequence
                                        else t !in s.logs && s'.logs[t].started == [] && s'.subs[t].lastSequence == s'.logs[t].since
    ensures AckInv(s')
  {
    forall f, t ensures HoldOk(s', f, t) { assert HoldOk(s, f, t); }
    forall t | t in s'.subs ensures AckOk(s', t) {
      if t in s.subs {
        AckKept(s, s', t);
      } else {
        forall g ensures !Holds(s', g, t) { assert HoldOk(s, g, t); }
      }
    }
  }

  /** A drain step of `f` leaves every other subscription's acknowledgement alone. */
  lemma AckOthers(s: State, s': State, f: FrameId)
    requires OneDrainer(s) && s.subs.Keys <= s.logs.Keys && s'.logs.Keys == s.logs.Keys && s'.subs.Keys <= s.subs.Keys
    requires AckInv(s) && f in s.frames && s.frames[f].todo != [] && s'.frames.Keys == s.frames.Keys
    requires forall g | g in s.frames && g != f :: s'.frames[g] == s.frames[g]
    requires s'.frames[f].todo == s.frames[f].todo || (s'.frames[f].holding.None? && s'.frames[f].todo == s.frames[f].todo[1..])
    requires forall t | t in s.logs && t != s.frames[f].todo[0] :: s'.logs[t] == s.logs[t]
    requires forall t | t in s'.subs && t != s.frames[f].todo[0] :: s'.subs[t] == s.subs[t]
    ensures forall g, t | t != s.frames[f].todo[0] || g != f :: HoldOk(s', g, t)
    ensures forall g | g != f :: !Holds(s', g, s.frames[f].todo[0]) && !Holds(s, g, s.frames[f].todo[0])
    ensures forall t | t in s'.subs && t != s.frames[f].todo[0] :: AckOk(s', t)
  {
    var t0 := s.frames[f].todo[0];
    assert Drains(s, f, t0);
    assert forall g, t :: Holds(s, g, t) ==> Drains(s, g, t);
    assert forall g, t | t != t0 :: Holds(s', g, t) <==> Holds(s, g, t);
    forall g | g != f ensures !Holds(s', g, t0) && !Holds(s, g, t0) {
      assert !Drains(s, g, t0);
      assert Holds(s', g, t0) ==> Holds(s, g, t0);
    }
    forall g, t | t != t0 ensures HoldOk(s', g, t) { assert HoldOk(s, g, t); }
    forall t | t in s'.subs && t != t0 ensures AckOk(s', t) { AckKept(s, s', t); }
  }

  lemma HoldNothing(s: State, f: FrameId, t: Token)
    requires !Holds(s, f, t)
    ensures HoldOk(s, f, t)
  {}

  /** Starting a callback leaves `last_sequence` one event behind. */
  lemma AckStarted(s: State, s': State, f: FrameId, t: Token, e: Event)
    requires t in s.subs && t in s.logs && t in s'.subs && t in s'.logs && AckOk(s, t)
    requires forall g :: !Holds(s, g, t)
    requires s'.logs[t] == s.logs[t].(started := s.logs[t].started + [e])
    requires s'.subs[t].lastSequence == s.subs[t].lastSequence
    requires Holds(s', f, t) && s'.frames[f].holding == Some(e)
    ensures AckOk(s', t) && HoldOk(s', f, t)
  {
    assert s'.logs[t].started[..|s.logs[t].started|] == s.logs[t].started;
  }

  lemma AckTaken(s: State, f: FrameId)
    requires OneDrainer(s) && s.subs.Keys <= s.logs.Keys && AckInv(s) && Enabled(s, Take(f))
    ensures AckInv(Next(s, Take(f)))
  {
    hide OneDrainer, AckOk, HoldOk;
    var s', t0 := Next(s, Take(f)), s.frames[f].todo[0];
    AckOthers(s, s', f);
    assert !Holds(s, f, t0);
    if t0 in s.subs && s.subs[t0].pending != [] {
      AckStarted(s, s', f, t0, s.subs[t0].pending[0]);
    } else {
      assert !Holds(s', f, t0);
      HoldNothing(s', f, t0);
      if t0 in s.subs { AckKept(s, s', t0); }
    }
  }

  lemma AckReturned(s: State, f: FrameId)
    requires OneDrainer(s) && s.subs.Keys <= s.logs.Keys && AckInv(s) && Enabled(s, CallbackReturns(f))
    ensures AckInv(Next(s, CallbackReturns(f)))
  {
    hide OneDrainer, AckOk, HoldOk, LastSequence;
    var s', t0 := Next(s, CallbackReturns(f)), s.frames[f].todo[0];
    assert Holds(s, f, t0) && HoldOk(s, f, t0) && !Holds(s', f, t0);
    AckOthers(s, s', f);
    HoldNothing(s', f, t0);
    if t0 in s'.subs {
      AckAcknowledged(s, s', f, t0);
    }
  }

  /** The returned callback was the last one started, so nothing is in flight any more. */
  lemma AckAcknowledged(s: State, s': State, f: FrameId, t: Token)
    requires t in s.subs && t in s.logs && t in s'.subs && t in s'.logs
    requires Holds(s, f, t) && HoldOk(s, f, t) && (forall g :: !Holds(s', g, t)) && s'.logs[t] == s.logs[t]
    requires s'.subs[t].lastSequence == s.frames[f].holding.value.sequence
    ensures AckOk(s', t)
  {}

  lemma AckRaised(s: State, f: FrameId)
    requires OneDrainer(s) && s.subs.Keys <= s.logs.Keys && AckInv(s) && Enabled(s, CallbackRaises(f))
    ensures AckInv(Next(s, CallbackRaises(f)))
  {
    hide OneDrainer;
    var s', t0 := Next(s, CallbackRaises(f)), s.frames[f].todo[0];
    AckOthers(s, s', f);
    assert !Holds(s', f, t0);
  }

  lemma AckStep(s: State, step: Step)
    requires DrainInv(s) && s.subs.Keys <= s.logs.Keys && AckInv(s) && Enabled(s, step)
    ensures Next(s, step).subs.Keys <= Next(s, step).logs.Keys && AckInv(Next(s, step))
  {
    hide AckOk, HoldOk, OneDrainer, Elected;
    match step
    case Append(_, _) => AckUnheld(s, Next(s, step));
    case Notify(_, _, _, _) => AckUnheld(s, Next(s, step));
    case Subscribe(_, _, _, _) => AckUnheld(s, Next(s, step));
    case Unsubscribe(_) => AckUnheld(s, Next(s, step));
    case Take(f) => AckTaken(s, f);
    case CallbackReturns(f) => AckReturned(s, f);
    case CallbackRaises(f) => AckRaised(s, f);
  }

  // ---- every run ---------------------------------------------------------------------------------

  lemma {:induction false} RunInvariant(states: seq<State>, steps: seq<Step>, n: nat)
    requires IsRun(states, steps) && n < |states|
    ensures Inv(states[n])
  {
    if n > 0 {
      RunInvariant(states, steps, n - 1);
      assert IsStep(states[n - 1], steps[n - 1], states[n]);
      StreamStep(states[n - 1], steps[n - 1]);
      DrainStep(states[n - 1], steps[n - 1]);
      AckStep(states[n - 1], steps[n - 1]);
    }
  }

  /**
   In every reachable state, under every interleaving: a subscription has at most one drainer, and has
   one whenever something is pending; at most 256 events are pending; and what was handed over plus
   what is pending are its own session's stored events after `since`, strictly in order.
   */
  lemma DeliverySafety(states: seq<State>, steps: seq<Step>, n: nat, t: Token)
    requires IsRun(states, steps) && n < |states| && t in states[n].logs
    ensures var s := states[n];
      && Ordered(s.Stored(s.logs[t].session), s.logs[t].since, Content(s, t))
      && (forall e | e in Content(s, t) :: e.session == s.logs[t].session)
      && (forall f, g | Drains(s, f, t) && Drains(s, g, t) :: f == g)
      && (forall f | f in s.frames :: Distinct(s.frames[f].todo))
      && (t in s.subs ==>
            && |s.subs[t].pending| <= MAX_PENDING_EVENTS
            && (s.subs[t].delivering <==> exists f :: Drains(s, f, t))
            && (s.subs[t].pending != [] ==> exists f :: Drains(s, f, t)))
  {
    RunInvariant(states, steps, n);
    var s := states[n];
    assert StreamOk(s, t);
    forall e | e in Content(s, t) ensures e.session == s.logs[t].session {
      var i :| 0 <= i < |Content(s, t)| && Content(s, t)[i] == e;
      assert SessionStream(s.logs[t].session, s.Stored(s.logs[t].session));
    }
    if t in s.subs { assert LiveOk(s, t) && Elected(s, t); }
  }

  // ---- what a notify does, and which subscriptions survive ---------------------------------------

  /** The event is news to this subscription. */
  predicate IsNews(sub: Subscriber, session: string, sequence: nat) {
    sub.session == session && sequence > sub.highWatermark
  }

  /**
   A notify drops exactly the subscriptions for which the event is news while 256 events wait; news is queued by
   all others and moves their watermark, and whatever is not news leaves a subscription as it was.
   */
  lemma NotifyEffect(s: State, step: Step, t: Token)
    requires StreamInv(s) && Enabled(s, step) && step.Notify? && t in s.subs
    ensures var s', sub, e := Next(s, step), s.subs[t], s.Stored(step.session)[step.index];
            var news := IsNews(sub, step.session, step.index + 1);
            && e.session == step.session && e.sequence == step.index + 1
            && (t !in s'.subs <==> news && |sub.pending| == MAX_PENDING_EVENTS)
            && (t in s'.subs && news ==>
                  && s'.subs[t].pending == sub.pending + [e] && s'.subs[t].highWatermark == e.sequence
                  && s'.subs[t].session == sub.session && s'.subs[t].lastSequence == sub.lastSequence)
            && (t in s'.subs && !news ==> s'.subs[t] == sub)
            && (t in step.ready <==> news && !sub.delivering && |sub.pending| < MAX_PENDING_EVENTS)
  {
    hide StreamOk, Ordered;
    assert LiveOk(s, t);
    assert SessionStream(step.session, s.store[step.session]);
  }

  /** The same of the subscriber table alone, whatever is in it. */
  ghost predicate OnlyTheFullAreDropped(subs: map<Token, Subscriber>, e: Event, subs': map<Token, Subscriber>) {
    && subs'.Keys <= subs.Keys
    && forall t | t in subs ::
         var sub, news := subs[t], IsNews(subs[t], e.session, e.sequence);
         && (t !in subs' <==> news && |sub.pending| >= MAX_PENDING_EVENTS)
         && (t in subs' ==>
               subs'[t] == if news then Subscriber(sub.session, sub.lastSequence, sub.pending + [e], true, e.sequence)
                           else sub)
  }

  lemma NotifyTableEffect(subs: map<Token, Subscriber>, e: Event)
    ensures OnlyTheFullAreDropped(subs, e, NotifyTable(subs, e))
  {}

  /** The only three ways to lose a live subscription. */
  predicate Loses(s: State, step: Step, t: Token)
    requires t in s.subs
  {
    match step
    case Unsubscribe(u) => u == t
    case CallbackRaises(f) => f in s.frames && s.frames[f].todo != [] && s.frames[f].todo[0] == t
    case Notify(_, session, i, _) => IsNews(s.subs[t], session, i + 1) && |s.subs[t].pending| == MAX_PENDING_EVENTS
    case _ => false
  }

  lemma SurvivesStep(s: State, step: Step, t: Token)
    requires StreamInv(s) && Enabled(s, step) && t in s.subs
    ensures t in Next(s, step).subs <==> !Loses(s, step, t)
  {
    hide StreamInv, Enabled, Next;
    if step.Notify? { NotifyEffect(s, step, t); } else { SurvivesOthers(s, step, t); }
  }

  lemma SurvivesOthers(s: State, step: Step, t: Token)
    requires Enabled(s, step) && t in s.subs && !step.Notify?
    ensures t in Next(s, step).subs <==> !Loses(s, step, t)
  {
    hide RecordStart, NewSubscriber, EventsSince, IsElection, NotifyTable;
  }

  lemma GoneForever(s: State, step: Step, t: Token)
    requires Enabled(s, step) && t in s.logs
    ensures t in Next(s, step).logs && (t !in s.subs ==> t !in Next(s, step).subs)
  {}

  /**
   Over all runs a subscription is live at a later moment exactly when no step in between was its unsubscribe, a
   callback of its own that raised, or a notify with news that found 256 events waiting.
   */
  lemma {:induction false} SurvivesExactly(states: seq<State>, steps: seq<Step>, i: nat, j: nat, t: Token)
    requires IsRun(states, steps) && i <= j < |states| && t in states[i].subs
    ensures t in states[j].logs
    ensures t in states[j].subs <==> forall k | i <= k < j && t in states[k].subs :: !Loses(states[k], steps[k], t)
    decreases j
  {
    hide StreamOk, LiveOk, Enabled, Next, Loses, DrainInv, AckInv;
    RunInvariant(states, steps, i);
    if i < j {
      var s, step := states[j - 1], steps[j - 1];
      SurvivesExactly(states, steps, i, j - 1, t);
      RunInvariant(states, steps, j - 1);
      assert IsStep(s, step, states[j]);
      GoneForever(s, step, t);
      if t in s.subs { SurvivesStep(s, step, t); }
    }
  }

  // ---- exactness: no gap and no duplicate ------------------------------------------------------

  /** The stored events with `low < sequence <= high`. */
  function Window(stored: seq<Event>, low: nat, high: nat): seq<Event> {
    if low < high <= |stored| then stored[low..high] else []
  }

  /** Delivered, in flight and pending are exactly the stored run from `since` to the watermark. */
  ghost predicate Exact(s: State, t: Token)
    requires t in s.subs && t in s.logs
  {
    Content(s, t) == Window(s.Stored(s.logs[t].session), s.logs[t].since, s.subs[t].highWatermark)
  }

  /** Every event this subscription accepted in the first `n` steps followed its watermark directly. */
  ghost predicate Contiguous(states: seq<State>, steps: seq<Step>, n: nat, t: Token)
    requires n <= |steps| < |states|
  {
    forall i | 0 <= i < n && t in states[i].subs :: ContiguousAt(states[i], steps[i], t)
  }

  ghost predicate ContiguousAt(s: State, step: Step, t: Token)
    requires t in s.subs
  {
    step.Notify? && step.session == s.subs[t].session && step.index + 1 > s.subs[t].highWatermark ==>
      step.index == s.subs[t].highWatermark
  }

  lemma {:induction false} OrderedLow(stored: seq<Event>, since: nat, es: seq<Event>, i: nat)
    requires Ordered(stored, since, es) && i < |es|
    ensures since + i + 1 <= es[i].sequence
  {
    if i > 0 { OrderedLow(stored, since, es, i - 1); }
  }

  lemma {:induction false} OrderedHigh(stored: seq<Event>, since: nat, es: seq<Event>, i: nat)
    requires Ordered(stored, since, es) && i < |es|
    ensures es[i].sequence <= LastSequence(since, es) - (|es| - 1 - i)
    decreases |es| - i
  {
    if i < |es| - 1 { OrderedHigh(stored, since, es, i + 1); }
  }

  lemma OrderedSpan(stored: seq<Event>, since: nat, es: seq<Event>)
    requires Ordered(stored, since, es)
    ensures since + |es| <= LastSequence(since, es)
    ensures since + |es| == LastSequence(since, es) <==> es == Window(stored, since, LastSequence(since, es))
  {
    var last := LastSequence(since, es);
    if es != [] {
      OrderedLow(stored, since, es, |es| - 1);
      if since + |es| == last {
        forall i | 0 <= i < |es| ensures es[i] == Window(stored, since, last)[i] {
          OrderedLow(stored, since, es, i);
          OrderedHigh(stored, since, es, i);
        }
      }
    }
  }

  lemma ExactMeansCount(s: State, t: Token)
    requires StreamInv(s) && t in s.subs
    ensures s.logs[t].since + |Content(s, t)| <= s.subs[t].highWatermark
    ensures Exact(s, t) <==> s.logs[t].since + |Content(s, t)| == s.subs[t].highWatermark
  {
    assert StreamOk(s, t) && LiveOk(s, t);
    OrderedSpan(s.Stored(s.logs[t].session), s.logs[t].since, Content(s, t));
  }

  /** One step moves the watermark and the count together exactly when it is contiguous. */
  lemma ContentStep(s: State, step: Step, s': State, t: Token)
    requires s.subs.Keys <= s.logs.Keys && IsStep(s, step, s') && t in s.subs && t in s'.subs
    ensures t in s.logs && t in s'.logs && s'.logs[t].since == s.logs[t].since
    ensures step.Notify? ==> |Content(s', t)| == |Content(s, t)| + |s'.subs[t].pending| - |s.subs[t].pending|
    ensures s'.subs[t].session == s.subs[t].session
    ensures !step.Notify? ==> |Content(s', t)| == |Content(s, t)| && s'.subs[t].highWatermark == s.subs[t].highWatermark
  {
    if step.Take? {
      var t0 := s.frames[step.frame].todo[0];
      if t0 in s.subs { StreamTakeContent(s, s', t0); }
    }
  }

  /** One step moves the watermark and the count together exactly when it is contiguous. */
  lemma ExactStep(s: State, step: Step, s': State, t: Token)
    requires StreamInv(s) && IsStep(s, step, s') && t in s.subs && t in s'.subs
    ensures t in s.logs && t in s'.logs && s'.logs[t].since == s.logs[t].since
    ensures s'.subs[t].highWatermark - |Content(s', t)| >= s.subs[t].highWatermark - |Content(s, t)|
    ensures s'.subs[t].highWatermark - |Content(s', t)| == s.subs[t].highWatermark - |Content(s, t)|
            <==> ContiguousAt(s, step, t)
  {
    hide StreamOk, LiveOk;
    ContentStep(s, step, s', t);
    if step.Notify? {
      hide Content;
      assert SessionStream(step.session, s.store[step.session]);
      assert s'.subs[t] == Enqueue(s.subs[t], s.Stored(step.session)[step.index]);
    }
  }

  /**
   Replay and live events join without gap or duplicate exactly when no notify skipped past the
   watermark of this subscription, i.e. `sequence == high_watermark + 1` at every acceptance.
   */
  lemma {:induction false} ExactIffContiguous(states: seq<State>, steps: seq<Step>, n: nat, t: Token)
    requires IsRun(states, steps) && n < |states| && t in states[n].subs
    ensures t in states[n].logs
    ensures Exact(states[n], t) <==> Contiguous(states, steps, n, t)
  {
    hide StreamOk, LiveOk, ContiguousAt, Content, Init, DrainInv, AckInv;
    RunInvariant(states, steps, n);
    ExactMeansCount(states[n], t);
    if n > 0 {
      hide Exact;
      assert IsStep(states[n - 1], steps[n - 1], states[n]);
      RunInvariant(states, steps, n - 1);
      if t in states[n - 1].subs {
        ExactMeansCount(states[n - 1], t);
        ExactStep(states[n - 1], steps[n - 1], states[n], t);
        ExactIffContiguous(states, steps, n - 1, t);
      } else {
        FirstSubscription(states[n - 1], steps[n - 1], states[n], t);
        NeverBefore(states, steps, n - 1, t);
      }
    } else {
      assert Init(states[0]);
      InitHasNone(states[0], t);
    }
  }

  lemma InitHasNone(s: State, t: Token)
    requires Init(s)
    ensures t !in s.subs
  {}

  lemma FirstSubscription(s: State, step: Step, s': State, t: Token)
    requires StreamInv(s) && IsStep(s, step, s') && t !in s.subs && t in s'.subs
    ensures t !in s.logs && t in s'.logs && Exact(s', t)
  {
    hide Ordered, StreamOk, LiveOk;
    assert step.Subscribe? && step.token == t;
    FirstIsExact(s, s', t, step.session, step.since);
  }

  lemma FirstIsExact(s: State, s': State, t: Token, session: string, since: nat)
    requires StoreOk(s) && s'.store == s.store
    requires t in s'.logs && s'.logs[t] == Log(session, since, [])
    requires t in s'.subs && s'.subs[t] == NewSubscriber(session, since, EventsSince(s.Stored(session), since))
    requires |EventsSince(s.Stored(session), since)| <= MAX_PENDING_EVENTS
    ensures Exact(s', t)
  {
    assert Content(s', t) == EventsSince(s.Stored(session), since);
    HistoryIsWindow(session, s.Stored(session), since) by {
      if session in s.store { assert SessionStream(session, s.store[session]); }
    }
  }

  lemma HistoryIsWindow(session: string, stored: seq<Event>, since: nat)
    requires SessionStream(session, stored)
    ensures var h := EventsSince(stored, since);
      h == Window(stored, since, NewSubscriber(session, since, h).highWatermark)
  {
    HistoryOrdered(session, stored, since);
  }

  /** Tokens are fresh, so a token not yet logged was never subscribed. */
  lemma {:induction false} NeverBefore(states: seq<State>, steps: seq<Step>, n: nat, t: Token)
    requires IsRun(states, steps) && n < |states| && t !in states[n].logs
    ensures forall i | 0 <= i <= n :: t !in states[i].subs
  {
    RunInvariant(states, steps, n);
    if n > 0 {
      assert IsStep(states[n - 1], steps[n - 1], states[n]);
      NeverBefore(states, steps, n - 1, t);
    }
  }

  /** Each session's events are notified in the order they were appended. */
  ghost predicate NotifiedInOrder(states: seq<State>, steps: seq<Step>, n: nat)
    requires n <= |steps| < |states|
  {
    forall i | 0 <= i < n && steps[i].Notify? :: steps[i].index == states[i].Notified(steps[i].session)
  }

  ghost predicate CaughtUp(s: State) {
    && (forall session :: s.Notified(session) <= |s.Stored(session)|)
    && (forall t | t in s.subs :: s.Notified(s.subs[t].session) <= s.subs[t].highWatermark)
  }

  lemma CaughtUpStep(s: State, step: Step, s': State)
    requires StreamInv(s) && CaughtUp(s) && IsStep(s, step, s')
    requires step.Notify? ==> step.index == s.Notified(step.session)
    ensures CaughtUp(s')
  {
    hide StreamOk, LiveOk, Content, Ordered;
    if step.Notify? {
      CaughtUpNotify(s, step, s');
    } else {
      StoredGrows(s, step, s');
      forall t | t in s'.subs ensures s'.Notified(s'.subs[t].session) <= s'.subs[t].highWatermark {
        CaughtUpSub(s, step, s', t);
      }
    }
  }

  lemma StoredGrows(s: State, step: Step, s': State)
    requires IsStep(s, step, s') && !step.Notify?
    ensures forall session :: s'.Notified(session) == s.Notified(session) && |s.Stored(session)| <= |s'.Stored(session)|
  {}

  lemma CaughtUpSub(s: State, step: Step, s': State, t: Token)
    requires StreamInv(s) && CaughtUp(s) && IsStep(s, step, s') && !step.Notify? && t in s'.subs
    ensures s'.Notified(s'.subs[t].session) <= s'.subs[t].highWatermark
  {
    hide StreamOk, LiveOk, Content, Ordered;
    StoredGrows(s, step, s');
    if t in s.subs {
      ContentStep(s, step, s', t);
      SessionKept(s, step, s', t);
    } else {
      HistoryOrdered(step.session, s.Stored(step.session), step.since) by {
        if step.session in s.store { assert SessionStream(step.session, s.store[step.session]); }
      }
    }
  }

  lemma SessionKept(s: State, step: Step, s': State, t: Token)
    requires StreamInv(s) && IsStep(s, step, s') && t in s.subs && t in s'.subs
    ensures s'.subs[t].session == s.subs[t].session
  {
    hide StreamOk, LiveOk, Content, Ordered;
  }

  lemma CaughtUpNotify(s: State, step: Step, s': State)
    requires StoreOk(s) && CaughtUp(s) && IsStep(s, step, s')
    requires step.Notify? && step.index == s.Notified(step.session)
    ensures CaughtUp(s')
  {
    var e := s.Stored(step.session)[step.index];
    assert SessionStream(step.session, s.store[step.session]);
    assert forall session | session != step.session :: s'.Notified(session) == s.Notified(session);
    forall t | t in s'.subs ensures s'.Notified(s'.subs[t].session) <= s'.subs[t].highWatermark {
      assert s'.subs[t] == Enqueue(s.subs[t], e);
    }
    assert forall session :: s'.Stored(session) == s.Stored(session);
  }

  /** One past the index of the session's last notify among the first `n` steps. */
  ghost function LastNotified(steps: seq<Step>, n: nat, session: string): nat
    requires n <= |steps|
  {
    if n == 0 then 0
    else if IsNotifyOf(steps[n - 1], session) then steps[n - 1].index + 1 else LastNotified(steps, n - 1, session)
  }

  lemma {:induction false} NotifiedIsLast(states: seq<State>, steps: seq<Step>, n: nat, session: string)
    requires IsRun(states, steps) && n < |states|
    ensures states[n].Notified(session) == LastNotified(steps, n, session)
  {
    hide IsStep, Init;
    if n > 0 {
      NotifiedIsLast(states, steps, n - 1, session);
      NotifiedStep(states[n - 1], steps[n - 1], states[n], session);
    } else {
      NothingNotified(states[0], session);
    }
  }

  lemma NothingNotified(s: State, session: string)
    requires Init(s)
    ensures s.Notified(session) == 0
  {}

  lemma NotifiedStep(s: State, step: Step, s': State, session: string)
    requires IsStep(s, step, s')
    ensures s'.Notified(session) == if IsNotifyOf(step, session) then step.index + 1 else s.Notified(session)
  {
    hide NotifyTable, TakeTable, AckTable, RecordStart, IsElection, NewSubscriber, EventsSince;
  }

  predicate IsNotifyOf(step: Step, session: string) {
    step.Notify? && step.session == session
  }

  /** No session ever holds more than 4096 events, and stored events are never lost or changed. */
  lemma {:induction false} StoreGrowsBounded(states: seq<State>, steps: seq<Step>, m: nat, n: nat, session: string)
    requires IsRun(states, steps) && m <= n < |states|
    ensures |states[n].Stored(session)| <= MAX_EVENTS_PER_SESSION && states[m].Stored(session) <= states[n].Stored(session)
    decreases n
  {
    if n > 0 {
      StoreGrowsBounded(states, steps, if m < n then m else n - 1, n - 1, session);
      assert IsStep(states[n - 1], steps[n - 1], states[n]);
    }
  }

  lemma {:induction false} InOrderCatchesUp(states: seq<State>, steps: seq<Step>, n: nat)
    requires IsRun(states, steps) && n < |states| && NotifiedInOrder(states, steps, n)
    ensures CaughtUp(states[n])
  {
    if n > 0 {
      InOrderCatchesUp(states, steps, n - 1);
      RunInvariant(states, steps, n - 1);
      assert IsStep(states[n - 1], steps[n - 1], states[n]);
      CaughtUpStep(states[n - 1], steps[n - 1], states[n]);
    }
  }

  /**
   When notifies follow append order per session, every live subscription has received, is receiving
   or has queued exactly the stored run after its `since_sequence` up to its watermark.
   */
  lemma InOrderIsExact(states: seq<State>, steps: seq<Step>, n: nat, t: Token)
    requires IsRun(states, steps) && n < |states| && NotifiedInOrder(states, steps, n)
    requires t in states[n].subs
    ensures t in states[n].logs && Exact(states[n], t)
  {
    forall i | 0 <= i < n && t in states[i].subs ensures ContiguousAt(states[i], steps[i], t) {
      InOrderCatchesUp(states, steps, i);
      RunInvariant(states, steps, i);
      assert IsStep(states[i], steps[i], states[i + 1]);
    }
    ExactIffContiguous(states, steps, n, t);
  }

  /** The callbacks ever started for a subscription are a run of its session's stored events right after `since`. */
  ghost predicate Gapless(s: State, t: Token)
    requires t in s.logs
  {
    var stored, log := s.Stored(s.logs[t].session), s.logs[t];
    || log.started == []
    || (log.since + |log.started| <= |stored| && log.started == stored[log.since..log.since + |log.started|])
  }

  lemma ExactIsGapless(s: State, t: Token)
    requires t in s.subs && t in s.logs && Exact(s, t)
    ensures Gapless(s, t)
  {
    var stored, log, content := s.Stored(s.logs[t].session), s.logs[t], Content(s, t);
    if log.started != [] {
      assert log.started == content[..|log.started|];
      assert content == stored[log.since..s.subs[t].highWatermark];
    }
  }

  /** What no longer is, or is not yet, subscribed starts no callback. */
  lemma GoneStartsNothing(s: State, step: Step, s': State, t: Token)
    requires IsStep(s, step, s') && t in s'.logs && t !in s'.subs
    ensures t in s.logs && s'.logs[t] == s.logs[t]
    ensures forall session :: s.Stored(session) <= s'.Stored(session)
  {}

  /**
   When notifies follow append order, also a subscription that was dropped on overflow or failure, or was
   unsubscribed, had received its events without a gap or a duplicate up to that moment.
   */
  lemma {:induction false} StartedIsGapless(states: seq<State>, steps: seq<Step>, n: nat, t: Token)
    requires IsRun(states, steps) && n < |states| && NotifiedInOrder(states, steps, n) && t in states[n].logs
    ensures Gapless(states[n], t)
    decreases n
  {
    hide IsStep, Exact, Gapless, Init;
    if t in states[n].subs {
      InOrderIsExact(states, steps, n, t);
      ExactIsGapless(states[n], t);
    } else if n > 0 {
      GoneStartsNothing(states[n - 1], steps[n - 1], states[n], t);
      StartedIsGapless(states, steps, n - 1, t);
      GaplessKept(states[n - 1], states[n], t);
    } else {
      InitLogsNothing(states[0], t);
    }
  }

  lemma InitLogsNothing(s: State, t: Token)
    requires Init(s)
    ensures t !in s.logs
  {}

  lemma GaplessKept(s: State, s': State, t: Token)
    requires t in s.logs && t in s'.logs && s'.logs[t] == s.logs[t] && Gapless(s, t)
    requires s.Stored(s.logs[t].session) <= s'.Stored(s.logs[t].session)
    ensures Gapless(s', t)
  {}

  /** Whoever still has something to drain can go on. */
  lemma DrainerCanStep(s: State, f: FrameId, t: Token)
    requires Drains(s, f, t)
    ensures Enabled(s, Take(f)) || (Enabled(s, CallbackReturns(f)) && Enabled(s, CallbackRaises(f)))
  {}

  /**
   With notifies in append order, a live subscription nobody drains has nothing waiting and has been called back with
   exactly the stored events after its `since_sequence`, up to its watermark and at least to the last one notified.
   */
  lemma QuietMeansDelivered(states: seq<State>, steps: seq<Step>, n: nat, t: Token)
    requires IsRun(states, steps) && n < |states| && NotifiedInOrder(states, steps, n)
    requires t in states[n].subs && forall f :: !Drains(states[n], f, t)
    ensures var s := states[n];
      && t in s.logs && s.subs[t].pending == [] && s.Notified(s.subs[t].session) <= s.subs[t].highWatermark
      && s.logs[t].started == Window(s.Stored(s.logs[t].session), s.logs[t].since, s.subs[t].highWatermark)
      && s.subs[t].lastSequence == s.subs[t].highWatermark
  {
    hide Ordered, Window, IsStep;
    RunInvariant(states, steps, n);
    InOrderCatchesUp(states, steps, n);
    InOrderIsExact(states, steps, n, t);
    var s := states[n];
    assert Elected(s, t) && LiveOk(s, t) && AckOk(s, t);
    assert s.logs[t].started + [] == s.logs[t].started;
    forall f ensures !Holds(s, f, t) { assert !Drains(s, f, t); }
  }

  /**
   Two producers append 1 and 2 and notify 2 first: the subscriber never sees event 1. The order
   `emit_raw` leaves between `append` and `notify` is therefore needed for exactness.
   */
  lemma OutOfOrderLosesAnEvent() returns (states: seq<State>, steps: seq<Step>)
    ensures IsRun(states, steps)
    ensures var s := states[|states| - 1]; 0 in s.subs && 0 in s.logs && !Exact(s, 0)
  {
    hide IsStep, Exact;
    var steps0, states0 := BothAppended();
    var s3 := states0[3];
    var e1, e2 := s3.store["s"][0], s3.store["s"][1];
    var sub, behind := s3.subs[0], s3.subs[0].(pending := [e2], delivering := true, highWatermark := 2);
    var step3, step4 := Notify(1, "s", 1, [0]), Notify(2, "s", 0, []);
    var s4 := s3.(subs := map[0 := behind], notified := s3.notified["s" := 2], frames := s3.frames[1 := Frame([0], None)]);
    var s5 := s4.(notified := s4.notified["s" := 1], frames := s4.frames[2 := Frame([], None)]);
    assert Enqueue(sub, e2) == behind by { assert sub.pending + [e2] == [e2]; }
    NotifyStepOf(s3, step3, s4, sub, e2);
    NotifyStepOf(s4, step4, s5, behind, e1);
    assert !Exact(s5, 0) by { Behind(s5, e1, e2); }
    steps, states := steps0 + [step3, step4], states0 + [s4, s5];
    assert steps[..3] == steps0 && states[..4] == states0;
  }

  lemma Behind(s: State, e1: Event, e2: Event)
    requires 0 in s.subs && 0 in s.logs && s.logs[0] == Log("s", 0, []) && s.Stored("s") == [e1, e2]
    requires s.subs[0].pending == [e2] && s.subs[0].highWatermark == 2
    ensures !Exact(s, 0)
  {
    assert |Content(s, 0)| == 1;
  }

  lemma BothAppended() returns (steps: seq<Step>, states: seq<State>)
    ensures IsRun(states, steps) && |steps| == 3
    ensures var s := states[3];
      s == State(map["s" := [Event("s", 1, "a"), Event("s", 2, "b")]], map[],
                 map[0 := Subscriber("s", 0, [], false, 0)], map[0 := Frame([], None)], map[0 := Log("s", 0, [])])
  {
    var e1, e2 := Event("s", 1, "a"), Event("s", 2, "b");
    var s0 := State(map[], map[], map[], map[], map[]);
    var s1 := State(map[], map[], map[0 := Subscriber("s", 0, [], false, 0)], map[0 := Frame([], None)], map[0 := Log("s", 0, [])]);
    var s2 := s1.(store := map["s" := [e1]]);
    var s3 := s1.(store := map["s" := [e1, e2]]);
    steps := [Subscribe(0, 0, "s", 0), Append("s", "a"), Append("s", "b")];
    hide IsStep;
    SubscribeStepOf(s0, steps[0], s1);
    assert [] + [e1] == [e1] && [e1] + [e2] == [e1, e2];
    AppendStepOf(s1, steps[1], s2, []);
    AppendStepOf(s2, steps[2], s3, [e1]);
    states := [s0, s1, s2, s3];
  }

  lemma SubscribeStepOf(s: State, step: Step, s': State)
    requires s == State(map[], map[], map[], map[], map[]) && step == Subscribe(0, 0, "s", 0)
    requires s' == State(map[], map[], map[0 := Subscriber("s", 0, [], false, 0)], map[0 := Frame([], None)],
                         map[0 := Log("s", 0, [])])
    ensures IsStep(s, step, s')
  {}

  lemma AppendStepOf(s: State, step: Step, s': State, stored: seq<Event>)
    requires step.Append? && |stored| < MAX_EVENTS_PER_SESSION && s.Stored(step.session) == stored
    requires s' == s.(store := map[step.session := stored + [Event(step.session, |stored| + 1, step.payload)]])
    requires s.store.Keys <= {step.session}
    ensures IsStep(s, step, s')
  {
    assert s.store[step.session := s'.store[step.session]] == s'.store;
  }

  /** A notify seen by the only subscriber. */
  lemma NotifyStepOf(s: State, step: Step, s': State, sub: Subscriber, e: Event)
    requires step.Notify? && step.frame !in s.frames && step.index < |s.Stored(step.session)|
    requires e == s.Stored(step.session)[step.index] && s.subs == map[0 := sub] && !Overflows(sub, e)
    requires step.ready == if Elects(sub, e) then [0] else []
    requires s' == s.(subs := map[0 := Enqueue(sub, e)], notified := s.notified[step.session := step.index + 1],
                      frames := s.frames[step.frame := Frame(step.ready, None)])
    ensures IsStep(s, step, s')
  {
    assert NotifyTable(s.subs, e) == map[0 := Enqueue(sub, e)];
  }

  // ---- the notify loop, prefix by prefix ----------------------------------------------------------

  ghost function NotifyPrefix(subs: map<Token, Subscriber>, done: seq<Token>, e: Event): map<Token, Subscriber> {
    map t | t in subs && !(t in done && Overflows(subs[t], e)) :: if t in done then Enqueue(subs[t], e) else subs[t]
  }

  ghost function Chosen(tokens: seq<Token>, subs: map<Token, Subscriber>, want: Subscriber -> bool): seq<Token> {
    if tokens == [] then []
    else
      var t := tokens[|tokens| - 1];
      Chosen(tokens[..|tokens| - 1], subs, want) + if t in subs && want(subs[t]) then [t] else []
  }

  /** Where the locked loop stands after the subscriptions in `done`. */
  ghost predicate NotifyLoop(subs: map<Token, Subscriber>, done: seq<Token>, e: Event, table: map<Token, Subscriber>,
                             ready: seq<Token>, dropped: seq<Token>) {
    && table == NotifyPrefix(subs, done, e)
    && ready == Chosen(done, subs, sub => Elects(sub, e))
    && dropped == Chosen(done, subs, sub => Overflows(sub, e))
  }

  lemma NotifyLoopStarts(subs: map<Token, Subscriber>, e: Event)
    ensures NotifyLoop(subs, [], e, subs, [], [])
  {}

  lemma NotifyLoopStep(subs: map<Token, Subscriber>, done: seq<Token>, e: Event, table: map<Token, Subscriber>,
                       ready: seq<Token>, dropped: seq<Token>, t: Token)
    requires NotifyLoop(subs, done, e, table, ready, dropped) && t in subs && t !in done
    ensures t in table
    ensures var sub := table[t];
            if Overflows(sub, e) then NotifyLoop(subs, done + [t], e, table - {t}, ready, dropped + [t])
            else NotifyLoop(subs, done + [t], e, table[t := Enqueue(sub, e)],
                            if Elects(sub, e) then ready + [t] else ready, dropped)
  {
    NotifyPrefixStep(subs, done, t, e);
    ChosenStep(subs, done, t, sub => Elects(sub, e));
    ChosenStep(subs, done, t, sub => Overflows(sub, e));
    hide NotifyPrefix, Chosen, Enqueue;
  }

  lemma NotifyLoopEnds(subs: map<Token, Subscriber>, tokens: seq<Token>, e: Event, table: map<Token, Subscriber>,
                       ready: seq<Token>, dropped: seq<Token>)
    requires NotifyLoop(subs, tokens, e, table, ready, dropped)
    requires Distinct(tokens) && forall t :: t in tokens <==> t in subs
    ensures table == NotifyTable(subs, e) && table.Keys <= subs.Keys && OnlyTheFullAreDropped(subs, e, table)
    ensures IsElection(subs, e, ready)
    ensures forall t :: t in dropped <==> t in subs && Overflows(subs[t], e)
  {
    ChosenMembers(subs, tokens, sub => Elects(sub, e));
    ChosenMembers(subs, tokens, sub => Overflows(sub, e));
    NotifyTableEffect(subs, e);
    hide OnlyTheFullAreDropped;
  }

  lemma NotifyPrefixStep(subs: map<Token, Subscriber>, done: seq<Token>, t: Token, e: Event)
    requires t in subs && t !in done
    ensures t in NotifyPrefix(subs, done, e) && NotifyPrefix(subs, done, e)[t] == subs[t]
    ensures NotifyPrefix(subs, done + [t], e) ==
            if Overflows(subs[t], e) then NotifyPrefix(subs, done, e) - {t}
            else NotifyPrefix(subs, done, e)[t := Enqueue(subs[t], e)]
  {}

  lemma ChosenStep(subs: map<Token, Subscriber>, done: seq<Token>, t: Token, want: Subscriber -> bool)
    requires t in subs
    ensures Chosen(done + [t], subs, want) == Chosen(done, subs, want) + if want(subs[t]) then [t] else []
  {
    assert (done + [t])[..|done|] == done;
  }

  lemma {:induction false} ChosenMembers(subs: map<Token, Subscriber>, tokens: seq<Token>, want: Subscriber -> bool)
    ensures forall t :: t in Chosen(tokens, subs, want) <==> t in tokens && t in subs && want(subs[t])
    ensures Distinct(tokens) ==> Distinct(Chosen(tokens, subs, want))
  {
    if tokens != [] {
      var init, t := tokens[..|tokens| - 1], tokens[|tokens| - 1];
      assert tokens == init + [t];
      ChosenMembers(subs, init, want);
      assert Distinct(tokens) ==> t !in init;
    }
  }

  // ---- the objects, one method per critical section ---------------------------------------------

  class AgentEventStore {
    var events: map<string, seq<Event>>

    ghost predicate Valid()
      reads this
    {
      forall session | session in events :: SessionStream(session, events[session])
    }

    function Stream(session: string): seq<Event>
      reads this
    {
      if session in events then events[session] else []
    }

    constructor ()
      ensures Valid() && events == map[]
    {
      events := map[];
    }

    /** `accepted` is the verdict of the contract's `validate_next_event` on the numbered event. */
    method Append(session: string, payload: string, accepted: bool) returns (r: Result<Event, string>)
      requires Valid()
      modifies this
      ensures Valid()
      ensures r.Ok? <==> session != "" && |old(Stream(session))| < MAX_EVENTS_PER_SESSION && accepted
      ensures r.Ok? ==> r.value == Event(session, |old(Stream(session))| + 1, payload)
      ensures Stream(session) == old(Stream(session)) + if r.Ok? then [r.value] else []
      ensures forall other | other != session :: Stream(other) == old(Stream(other))
    {
      if session == "" { return Err("INVALID_SESSION"); }
      var stream := Stream(session);
      if |stream| >= MAX_EVENTS_PER_SESSION { return Err("EVENT_STORE_SESSION_LIMIT"); }
      if !accepted { return Err("INVALID_EVENT"); }
      assert stream != [] ==> SessionStream(session, events[session]);
      var event := Event(session, |stream| + 1, payload);
      events := events[session := stream + [event]];
      return Ok(event);
    }

    method GetEvents(session: string, since: nat) returns (filtered: seq<Event>)
      requires Valid()
      ensures filtered == EventsSince(Stream(session), since)
    {
      var stream := Stream(session);
      assert SessionStream(session, stream);
      filtered := [];
      for i := 0 to |stream|
        invariant filtered == EventsSince(stream[..i], since)
      {
        if stream[i].sequence > since { filtered := filtered + [stream[i]]; }
        assert stream[..i + 1] == stream[..i] + [stream[i]];
      }
      assert stream[..|stream|] == stream;
    }
  }

  class EventStreamAdapter {
    /** `_session_subscribers`: the dictionary and its insertion order. */
    var subs: map<Token, Subscriber>
    var order: seq<Token>

    ghost predicate Valid()
      reads this
    {
      Distinct(order) && forall t :: t in order <==> t in subs
    }

    constructor ()
      ensures Valid() && subs == map[]
    {
      subs, order := map[], [];
    }

    /** The locked loop of `notify`: `ready` must then be drained by the caller, in that order. */
    method NotifyLocked(e: Event) returns (ready: seq<Token>, dropped: seq<Token>)
      requires Valid()
      modifies this
      ensures Valid()
      ensures subs == NotifyTable(old(subs), e)
      ensures OnlyTheFullAreDropped(old(subs), e, subs)
      ensures IsElection(old(subs), e, ready)
      ensures forall t :: t in dropped <==> t in old(subs) && Overflows(old(subs)[t], e)
    {
      ready, dropped := [], [];
      ghost var before := subs;
      var tokens, table := order, subs;
      NotifyLoopStarts(before, e);
      hide NotifyLoop, OnlyTheFullAreDropped, Enqueue, Overflows, Elects, NotifyTable, IsElection;
      for i := 0 to |tokens|
        invariant NotifyLoop(before, tokens[..i], e, table, ready, dropped)
      {
        var t := tokens[i];
        assert tokens[..i + 1] == tokens[..i] + [t] && t !in tokens[..i];
        NotifyLoopStep(before, tokens[..i], e, table, ready, dropped, t);
        var sub := table[t];
        if Overflows(sub, e) {
          table, dropped := table - {t}, dropped + [t];
        } else {
          table := table[t := Enqueue(sub, e)];
          if Elects(sub, e) { ready := ready + [t]; }
        }
      }
      assert tokens[..|tokens|] == tokens;
      NotifyLoopEnds(before, tokens, e, table, ready, dropped);
      subs, order := table, Remaining(tokens, table);
    }

    /** The replay is read under the same lock as the registration; the caller drains when there is one. */
    method SubscribeLocked(store: AgentEventStore, token: Token, session: string, since: nat) returns (ok: bool)
      requires Valid() && store.Valid() && token !in subs
      modifies this
      ensures Valid()
      ensures var history := EventsSince(store.Stream(session), since);
              && (ok <==> session != "" && |history| <= MAX_PENDING_EVENTS)
              && subs == if ok then old(subs)[token := NewSubscriber(session, since, history)] else old(subs)
    {
      if session == "" { return false; }
      var history := store.GetEvents(session, since);
      if |history| > MAX_PENDING_EVENTS { return false; }
      subs, order := subs[token := NewSubscriber(session, since, history)], order + [token];
      return true;
    }

    method UnsubscribeSession(token: Token)
      requires Valid()
      modifies this
      ensures Valid() && subs == old(subs) - {token}
    {
      subs := subs - {token};
      order := Remaining(order, subs);
    }

    /** The top of the drain loop: the next event, or None once the drainer has stood down. */
    method DrainTake(token: Token) returns (next: Option<Event>)
      requires Valid()
      modifies this`subs
      ensures Valid() && subs == TakeTable(old(subs), token)
      ensures next == if token in old(subs) && old(subs)[token].pending != []
                      then Some(old(subs)[token].pending[0]) else None
    {
      if token !in subs { return None; }
      var sub := subs[token];
      if sub.pending == [] {
        subs := subs[token := sub.(delivering := false)];
        return None;
      }
      subs := subs[token := sub.(pending := sub.pending[1..])];
      return Some(sub.pending[0]);
    }

    method DrainAcknowledge(token: Token, e: Event) returns (live: bool)
      requires Valid()
      modifies this`subs
      ensures Valid() && live == (token in old(subs)) && subs == AckTable(old(subs), token, e)
    {
      if token !in subs { return false; }
      subs := subs[token := subs[token].(lastSequence := e.sequence)];
      return true;
    }
  }

  /** The dictionary order once only the keys of `table` remain. */
  function Remaining(order: seq<Token>, table: map<Token, Subscriber>): (r: seq<Token>)
    requires Distinct(order)
    ensures Distinct(r) && forall t :: t in r <==> t in order && t in table
  {
    if order == [] then []
    else
      assert order == [order[0]] + order[1..] && order[0] !in order[1..];
      (if order[0] in table then [order[0]] else []) + Remaining(order[1..], table)
  }
}
