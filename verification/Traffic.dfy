/**
  Messages through the broker, over every run: SENDs become bus requests, bus messages
  become API events, and API events become the frames clients read.
 */
module Traffic {
  import opened Options
  import opened Routing
  import opened Subscriptions
  import opened HeartBeat
  import opened Connection
  import opened Server
  import opened Endpoint
  import opened Broker

  // ----- SENDs become requests -----

  function FlatMap<T, U>(f: T -> seq<U>, xs: seq<T>): seq<U> {
    if xs == [] then [] else FlatMap(f, xs[..|xs| - 1]) + f(xs[|xs| - 1])
  }

  lemma FlatMapAppend<T, U>(f: T -> seq<U>, xs: seq<T>, x: T)
    ensures FlatMap(f, xs + [x]) == FlatMap(f, xs) + f(x)
  {
    assert (xs + [x])[..|xs|] == xs;
  }

  lemma {:induction false} FlatMapJoin<T, U>(f: T -> seq<U>, xs: seq<T>, ys: seq<T>)
    ensures FlatMap(f, xs + ys) == FlatMap(f, xs) + FlatMap(f, ys)
    decreases |ys|
  {
    if ys == [] {
      assert xs + ys == xs;
    } else {
      var n := |ys| - 1;
      FlatMapJoin(f, xs, ys[..n]);
      FlatMapAppend(f, xs + ys[..n], ys[n]);
      assert xs + ys == xs + ys[..n] + [ys[n]];
    }
  }

  /** A connection's own events; Starting is queued for it by the accept loop. */
  function Own(es: seq<Event>, id: string): seq<Event> {
    FlatMap((e: Event) => if e.conn == id && !e.ConnectionStarting? then [e] else [], es)
  }

  function Sends(es: seq<Event>): seq<Event> {
    FlatMap((e: Event) => if e.IncomingMessage? then [e] else [], es)
  }

  function RequestsOf(cfg: EndpointConfig, es: seq<Event>): seq<BusRequest> {
    FlatMap((e: Event) => RequestsFor(cfg, e), es)
  }

  function EventsOf(ts: seq<Turn>): seq<Event> {
    FlatMap((t: Turn) => [t.event], ts)
  }

  /** What reached the bus in these turns. */
  function ReachedOf(cfg: EndpointConfig, ts: seq<Turn>): seq<BusRequest> {
    FlatMap((t: Turn) => Reaching(cfg, t), ts)
  }

  /** A SEND whose channel existed at that moment. */
  predicate Reaches(cfg: EndpointConfig, t: Turn) {
    && t.event.IncomingMessage?
    && var route := RouteOf(cfg, t.event.destination);
       route.Some? && route.value.channel in t.table
  }

  function ReachingTurns(cfg: EndpointConfig, ts: seq<Turn>): seq<Turn> {
    FlatMap((t: Turn) => if Reaches(cfg, t) then [t] else [], ts)
  }

  predicate IsTagged(r: BusRequest, id: string) {
    r.brokerDestination.Some? && r.brokerDestination.value.conn == id
  }

  /** The private requests of one connection. */
  function Tagged(rs: seq<BusRequest>, id: string): seq<BusRequest> {
    FlatMap((r: BusRequest) => if IsTagged(r, id) then [r] else [], rs)
  }

  function EmittedBy(conns: map<string, Conn>, id: string): seq<Event> {
    if id in conns then conns[id].emitted else []
  }

  /**
    The request carries the body, its channel is the destination without the prefix, and
    it is tagged with the sender and its user queue exactly when the queue prefix matches.
   */
  predicate Routes(cfg: EndpointConfig, e: Event, r: BusRequest) {
    && e.IncomingMessage? && r.body == e.body
    && var isPrivate := cfg.appRequestQueuePrefix != "" && cfg.appRequestQueuePrefix <= e.destination;
       && e.destination == (if isPrivate then cfg.appRequestQueuePrefix else cfg.appRequestPrefix) + r.channel
       && r.brokerDestination ==
          if isPrivate then Some(BrokerDestination(e.conn, cfg.userQueuePrefix + r.channel)) else None
  }

  ghost predicate SendsAccepted(cfg: EndpointConfig, es: seq<Event>) {
    forall e :: e in es && e.IncomingMessage? ==> Accepts(AppPrefixes(cfg), e.destination)
  }

  /** No event of a connection is lost, repeated or reordered on its way through the queue. */
  ghost predicate FlowOk(cfg: EndpointConfig, b: Broker) {
    && (forall id :: Own(EventsOf(b.handled) + b.queue, id) == EmittedBy(b.conns, id))
    && SendsAccepted(cfg, EventsOf(b.handled) + b.queue)
    && b.requests == ReachedOf(cfg, b.handled)
  }

  lemma OwnAppend(es: seq<Event>, e: Event, id: string)
    ensures Own(es + [e], id) == Own(es, id) + if e.conn == id && !e.ConnectionStarting? then [e] else []
  {
    FlatMapAppend((e: Event) => if e.conn == id && !e.ConnectionStarting? then [e] else [], es, e);
  }

  lemma RequestsAppend(cfg: EndpointConfig, es: seq<Event>, e: Event)
    ensures RequestsOf(cfg, es + [e]) == RequestsOf(cfg, es) + RequestsFor(cfg, e)
  {
    FlatMapAppend((e: Event) => RequestsFor(cfg, e), es, e);
  }

  lemma SendsAppend(es: seq<Event>, e: Event)
    ensures Sends(es + [e]) == Sends(es) + if e.IncomingMessage? then [e] else []
  {
    FlatMapAppend((e: Event) => if e.IncomingMessage? then [e] else [], es, e);
  }

  /** A connection's own action tells at most one event, of its own, and only accepted SENDs. */
  lemma MovedTells(cfg: EndpointConfig, b: Broker, a: Action)
    requires ConnsOk(b.conns) && Enabled(cfg, b, a)
    requires a.Receive? || a.WriteOut? || a.Beat? || a.HangUp?
    ensures var c, c' := b.conns[a.id], Moved(cfg, b.conns[a.id], a);
            && c'.emitted == c.emitted + NewEvents(c, c') && |NewEvents(c, c')| <= 1
            && forall e :: e in NewEvents(c, c') ==>
                 && e.conn == a.id && !e.ConnectionStarting?
                 && (e.IncomingMessage? ==> Accepts(AppPrefixes(cfg), e.destination))
  {
    var c, c' := b.conns[a.id], Moved(cfg, b.conns[a.id], a);
    MovedOk(cfg, b, a);
    if Quiet(c, c') {
      assert NewEvents(c, c') == [];
    } else {
      var e :| Tells(c, c', e);
      assert NewEvents(c, c') == [e];
      NeverStarting(c');
      if e.IncomingMessage? {
        OnlyAcceptedSends(cfg, c, a, e);
      }
    }
  }

  lemma NeverStarting(c: Conn)
    requires ConnInv(c) && c.emitted != []
    ensures !c.emitted[|c.emitted| - 1].ConnectionStarting?
  {
    var es := if c.phase.Closed? then c.emitted[..|c.emitted| - 1] else c.emitted;
    assert es != [] ==> !es[|es| - 1].ConnectionStarting?;
  }

  /** Every message event a step added passed the filter. */
  ghost predicate TellsAccepted(prefixes: seq<string>, c: Conn, c': Conn) {
    forall i :: |c.emitted| <= i < |c'.emitted| && c'.emitted[i].IncomingMessage? ==>
      Accepts(prefixes, c'.emitted[i].destination)
  }

  lemma ConnectTellsAccepted(c: Conn, cfg: ServerConfig, f: ClientFrame, ok: bool)
    ensures TellsAccepted(cfg.prefixes, c, HandleConnect(c, cfg, f, ok).conn)
  {
  }

  lemma FrameTellsAccepted(c: Conn, cfg: ServerConfig, f: ClientFrame, ok: bool)
    ensures TellsAccepted(cfg.prefixes, c, HandleFrame(c, cfg, f, ok).conn)
  {
    match f.command
    case CONNECT => ConnectTellsAccepted(c, cfg, f, ok);
    case STOMP => ConnectTellsAccepted(c, cfg, f, ok);
    case _ =>
  }

  lemma OnlyAcceptedSends(cfg: EndpointConfig, c: Conn, a: Action, e: Event)
    requires e.IncomingMessage? && Moved(cfg, c, a).emitted == c.emitted + [e]
    ensures Accepts(AppPrefixes(cfg), e.destination)
  {
    assert Moved(cfg, c, a).emitted[|c.emitted|] == e;
    if a.Receive? {
      FrameTellsAccepted(c, ConfigOf(cfg), a.frame, a.ok);
      var d := HandleFrame(c, ConfigOf(cfg), a.frame, a.ok).conn;
      assert Moved(cfg, c, a).emitted in {d.emitted, d.emitted + [ConnectionClosed(d.id)]};
    }
  }

  /** One more own event, told by a connection and queued for the server. */
  lemma EventKeepsFlow(cfg: EndpointConfig, b: Broker, c': Conn, e: Event)
    requires ConnsOk(b.conns) && FlowOk(cfg, b) && c'.id in b.conns
    requires c'.emitted == b.conns[c'.id].emitted + [e] && e.conn == c'.id && !e.ConnectionStarting?
    requires e.IncomingMessage? ==> Accepts(AppPrefixes(cfg), e.destination)
    ensures FlowOk(cfg, b.(conns := b.conns[c'.id := c'], queue := b.queue + [e]))
  {
    var b' := b.(conns := b.conns[c'.id := c'], queue := b.queue + [e]);
    var es := EventsOf(b.handled) + b.queue;
    assert EventsOf(b'.handled) + b'.queue == es + [e];
    forall id ensures Own(EventsOf(b'.handled) + b'.queue, id) == EmittedBy(b'.conns, id) {
      OwnAppend(es, e, id);
    }
  }

  lemma MoveKeepsFlow(cfg: EndpointConfig, b: Broker, a: Action)
    requires ConnsOk(b.conns) && FlowOk(cfg, b) && Enabled(cfg, b, a)
    requires a.Receive? || a.WriteOut? || a.Beat? || a.HangUp?
    ensures FlowOk(cfg, Step(cfg, b, a))
  {
    MovedTells(cfg, b, a);
    MovedOk(cfg, b, a);
    var c, c' := b.conns[a.id], Moved(cfg, b.conns[a.id], a);
    var es := NewEvents(c, c');
    if es == [] {
      assert b.queue + es == b.queue;
      SameFlow(cfg, b, Step(cfg, b, a));
    } else {
      assert es == [es[0]] && es[0] in es;
      EventKeepsFlow(cfg, b, c', es[0]);
    }
  }

  lemma AnnounceKeepsFlow(cfg: EndpointConfig, b: Broker, id: string)
    requires FlowOk(cfg, b)
    ensures FlowOk(cfg, b.(queue := b.queue + [ConnectionStarting(id)]))
  {
    var es, q := EventsOf(b.handled) + b.queue, b.queue + [ConnectionStarting(id)];
    assert EventsOf(b.handled) + q == es + [ConnectionStarting(id)];
    forall x ensures Own(EventsOf(b.handled) + q, x) == EmittedBy(b.conns, x) {
      OwnAppend(es, ConnectionStarting(id), x);
    }
  }

  lemma HandledKeepsFlow(cfg: EndpointConfig, b: Broker, dropped: seq<Subscription>)
    requires FlowOk(cfg, b) && b.queue != []
    ensures FlowOk(cfg, Handled(cfg, b, dropped))
  {
    var t, b' := Turn(b.queue[0], b.endpoint.channels), Handled(cfg, b, dropped);
    FlatMapAppend((t: Turn) => [t.event], b.handled, t);
    FlatMapAppend((t: Turn) => Reaching(cfg, t), b.handled, t);
    assert EventsOf(b'.handled) + b'.queue == EventsOf(b.handled) + b.queue;
  }

  lemma SameFlow(cfg: EndpointConfig, b: Broker, b': Broker)
    requires FlowOk(cfg, b)
    requires b'.handled == b.handled && b'.queue == b.queue && b'.requests == b.requests
    requires forall id :: EmittedBy(b'.conns, id) == EmittedBy(b.conns, id)
    ensures FlowOk(cfg, b')
  {
  }

  lemma StepKeepsFlow(cfg: EndpointConfig, b: Broker, a: Action)
    requires ConnsOk(b.conns) && FlowOk(cfg, b)
    ensures FlowOk(cfg, Step(cfg, b, a))
  {
    if Enabled(cfg, b, a) {
      match a
      case Announce(id) => AnnounceKeepsFlow(cfg, b, id);
      case HandleEvent(dropped) => HandledKeepsFlow(cfg, b, dropped);
      case Receive(_, _, _, _) => MoveKeepsFlow(cfg, b, a);
      case WriteOut(_, _) => MoveKeepsFlow(cfg, b, a);
      case Beat(_, _) => MoveKeepsFlow(cfg, b, a);
      case HangUp(_) => MoveKeepsFlow(cfg, b, a);
      case _ => SameFlow(cfg, b, Step(cfg, b, a));
    }
  }

  lemma {:induction false} RunKeepsFlow(cfg: EndpointConfig, actions: seq<Action>)
    ensures FlowOk(cfg, Run(cfg, actions))
  {
    if actions != [] {
      RunKeepsFlow(cfg, actions[..|actions| - 1]);
      RunKeeps(cfg, actions[..|actions| - 1]);
      StepKeepsFlow(cfg, Run(cfg, actions[..|actions| - 1]), actions[|actions| - 1]);
    }
  }

  lemma RoutedOnce(cfg: EndpointConfig, e: Event)
    requires e.IncomingMessage? && Accepts(AppPrefixes(cfg), e.destination)
    ensures |RequestsFor(cfg, e)| == 1 && Routes(cfg, e, RequestsFor(cfg, e)[0])
  {
    var i :| 0 <= i < 2 && AppPrefixes(cfg)[i] != "" && AppPrefixes(cfg)[i] <= e.destination;
    assert RouteOf(cfg, e.destination).Some?;
    RouteSplitsDestination(cfg, e.destination);
  }

  lemma TurnReaches(cfg: EndpointConfig, t: Turn)
    requires t.event.IncomingMessage? ==> Accepts(AppPrefixes(cfg), t.event.destination)
    ensures !Reaches(cfg, t) ==> Reaching(cfg, t) == []
    ensures Reaches(cfg, t) ==>
              var rs := Reaching(cfg, t); |rs| == 1 && Routes(cfg, t.event, rs[0]) && rs[0].channel in t.table
  {
    if t.event.IncomingMessage? {
      RoutedOnce(cfg, t.event);
    }
  }

  lemma {:induction false} RequestsPair(cfg: EndpointConfig, ts: seq<Turn>)
    requires SendsAccepted(cfg, EventsOf(ts))
    ensures var rs, reaching := ReachedOf(cfg, ts), ReachingTurns(cfg, ts);
            |rs| == |reaching| && forall i :: 0 <= i < |rs| ==> Pairs(cfg, reaching[i], rs[i])
  {
    if ts != [] {
      var before, t := ts[..|ts| - 1], ts[|ts| - 1];
      assert ts == before + [t];
      FlatMapAppend((t: Turn) => [t.event], before, t);
      FlatMapAppend((t: Turn) => Reaching(cfg, t), before, t);
      FlatMapAppend((t: Turn) => if Reaches(cfg, t) then [t] else [], before, t);
      assert t.event in EventsOf(ts) && forall e :: e in EventsOf(before) ==> e in EventsOf(ts);
      RequestsPair(cfg, before);
      TurnReaches(cfg, t);
    }
  }

  /** The request this turn put on the bus, on a channel that existed. */
  predicate Pairs(cfg: EndpointConfig, t: Turn, r: BusRequest) {
    Routes(cfg, t.event, r) && r.channel in t.table
  }

  /**
    In every run, what the server has handled of a connection, followed by what is queued,
    is everything that connection let through, in order; and the requests on the bus are
    the handled SENDs whose channel existed at that moment, one each and in their order,
    routed by the prefixes. The other SENDs are lost.
   */
  lemma AcceptedSendIsRouted(cfg: EndpointConfig, actions: seq<Action>, id: string)
    ensures var b := Run(cfg, actions);
            var reaching := ReachingTurns(cfg, b.handled);
            && Own(EventsOf(b.handled), id) + Own(b.queue, id) == EmittedBy(b.conns, id)
            && |b.requests| == |reaching|
            && forall i :: 0 <= i < |b.requests| ==> Pairs(cfg, reaching[i], b.requests[i])
  {
    RunKeepsFlow(cfg, actions);
    var b := Run(cfg, actions);
    OwnJoin(EventsOf(b.handled), b.queue, id);
    assert SendsAccepted(cfg, EventsOf(b.handled));
    RequestsPair(cfg, b.handled);
  }

  lemma OwnJoin(xs: seq<Event>, ys: seq<Event>, id: string)
    ensures Own(xs + ys, id) == Own(xs, id) + Own(ys, id)
  {
    FlatMapJoin((e: Event) => if e.conn == id && !e.ConnectionStarting? then [e] else [], xs, ys);
  }

  /** The server loop is about to take its `k`-th turn, and it is this one. */
  ghost predicate IsTurn(b: Broker, k: nat, t: Turn) {
    |b.handled| == k && b.queue != [] && t == Turn(b.queue[0], b.endpoint.channels)
  }

  /** The recorded tables are the channel tables at the moments the events were handled. */
  lemma {:induction false} TableAtThatMoment(cfg: EndpointConfig, actions: seq<Action>, k: nat)
    requires k < |Run(cfg, actions).handled|
    ensures exists n: nat :: n < |actions| && IsTurn(Run(cfg, actions[..n]), k, Run(cfg, actions).handled[k])
  {
    var n: nat := |actions| - 1;
    var b := Run(cfg, actions[..n]);
    HandledStep(cfg, b, actions[n]);
    if k < |b.handled| {
      TableAtThatMoment(cfg, actions[..n], k);
      var m: nat :| m < n && IsTurn(Run(cfg, actions[..n][..m]), k, b.handled[k]);
      assert actions[..n][..m] == actions[..m];
    }
  }

  lemma HandledStep(cfg: EndpointConfig, b: Broker, a: Action)
    ensures Step(cfg, b, a).handled ==
            b.handled + if a.HandleEvent? && Enabled(cfg, b, a) then [Turn(b.queue[0], b.endpoint.channels)] else []
  {
  }

  lemma TaggedJoin(xs: seq<BusRequest>, ys: seq<BusRequest>, id: string)
    ensures Tagged(xs + ys, id) == Tagged(xs, id) + Tagged(ys, id)
  {
    FlatMapJoin((r: BusRequest) => if IsTagged(r, id) then [r] else [], xs, ys);
  }

  lemma TaggedAppend(cfg: EndpointConfig, es: seq<Event>, e: Event, id: string)
    ensures Tagged(RequestsOf(cfg, es + [e]), id) == Tagged(RequestsOf(cfg, es), id) + Tagged(RequestsFor(cfg, e), id)
    ensures e.conn != id || e.ConnectionStarting? ==> Tagged(RequestsFor(cfg, e), id) == []
  {
    RequestsAppend(cfg, es, e);
    TaggedJoin(RequestsOf(cfg, es), RequestsFor(cfg, e), id);
  }

  lemma TaggedStep(cfg: EndpointConfig, es: seq<Event>, e: Event, id: string)
    requires Tagged(RequestsOf(cfg, es), id) == Tagged(RequestsOf(cfg, Own(es, id)), id)
    ensures Tagged(RequestsOf(cfg, es + [e]), id) == Tagged(RequestsOf(cfg, Own(es + [e], id)), id)
  {
    var own := Own(es, id);
    OwnAppend(es, e, id);
    TaggedAppend(cfg, es, e, id);
    TaggedAppend(cfg, own, e, id);
    assert own + [] == own;
  }

  /** Only a connection's own events cause requests tagged with it. */
  lemma {:induction false} TaggedAreOwn(cfg: EndpointConfig, es: seq<Event>, id: string)
    ensures Tagged(RequestsOf(cfg, es), id) == Tagged(RequestsOf(cfg, Own(es, id)), id)
  {
    if es != [] {
      var before, e := es[..|es| - 1], es[|es| - 1];
      TaggedAreOwn(cfg, before, id);
      TaggedStep(cfg, before, e, id);
      assert before + [e] == es;
    }
  }

  /** A private SEND of the connection, handled while its channel did not exist. */
  predicate IsLost(cfg: EndpointConfig, t: Turn, id: string) {
    t.event.conn == id && Tagged(RequestsFor(cfg, t.event), id) != [] && !Reaches(cfg, t)
  }

  function WishedBy(cfg: EndpointConfig, es: seq<Event>, id: string): seq<BusRequest> {
    Tagged(RequestsOf(cfg, es), id)
  }

  lemma LostStep(cfg: EndpointConfig, ts: seq<Turn>, t: Turn, id: string)
    requires t.event.IncomingMessage? ==> Accepts(AppPrefixes(cfg), t.event.destination)
    ensures var lost := if IsLost(cfg, t, id) then Tagged(RequestsFor(cfg, t.event), id) else [];
            var more := if IsLost(cfg, t, id) then [] else Tagged(RequestsFor(cfg, t.event), id);
            && Tagged(ReachedOf(cfg, ts + [t]), id) == Tagged(ReachedOf(cfg, ts), id) + more
            && WishedBy(cfg, EventsOf(ts + [t]), id) == WishedBy(cfg, EventsOf(ts), id) + more + lost
  {
    FlatMapAppend((t: Turn) => [t.event], ts, t);
    FlatMapAppend((t: Turn) => Reaching(cfg, t), ts, t);
    TaggedJoin(ReachedOf(cfg, ts), Reaching(cfg, t), id);
    TaggedAppend(cfg, EventsOf(ts), t.event, id);
    TurnReaches(cfg, t);
    if !Reaches(cfg, t) && Tagged(RequestsFor(cfg, t.event), id) != [] {
      assert t.event.conn == id;
    }
  }

  /** What reached the bus is what was wished for, exactly when nothing was lost. */
  lemma {:induction false} NothingLost(cfg: EndpointConfig, ts: seq<Turn>, id: string)
    requires SendsAccepted(cfg, EventsOf(ts))
    ensures |Tagged(ReachedOf(cfg, ts), id)| <= |WishedBy(cfg, EventsOf(ts), id)|
    ensures (forall k :: 0 <= k < |ts| ==> !IsLost(cfg, ts[k], id)) ==>
              Tagged(ReachedOf(cfg, ts), id) == WishedBy(cfg, EventsOf(ts), id)
    ensures (exists k :: 0 <= k < |ts| && IsLost(cfg, ts[k], id)) ==>
              |Tagged(ReachedOf(cfg, ts), id)| < |WishedBy(cfg, EventsOf(ts), id)|
  {
    if ts != [] {
      var before, t := ts[..|ts| - 1], ts[|ts| - 1];
      assert ts == before + [t];
      FlatMapAppend((t: Turn) => [t.event], before, t);
      assert t.event in EventsOf(ts) && forall e :: e in EventsOf(before) ==> e in EventsOf(ts);
      NothingLost(cfg, before, id);
      LostStep(cfg, before, t, id);
      assert forall k :: 0 <= k < |ts| - 1 ==> before[k] == ts[k];
    }
  }

  /**
    In every run, each client's private requests reach the bus exactly once and in the
    order it sent them (those on the bus, then those still queued, are all it ever sent)
    if and only if each was handled while its channel existed.
   */
  lemma PrivateRequestIsTagged(cfg: EndpointConfig, actions: seq<Action>, id: string)
    ensures var b := Run(cfg, actions);
            Tagged(b.requests, id) + WishedBy(cfg, b.queue, id) == WishedBy(cfg, EmittedBy(b.conns, id), id)
            <==> forall k :: 0 <= k < |b.handled| ==> !IsLost(cfg, b.handled[k], id)
  {
    RunKeepsFlow(cfg, actions);
    var b := Run(cfg, actions);
    var es := EventsOf(b.handled);
    FlatMapJoin((e: Event) => RequestsFor(cfg, e), es, b.queue);
    TaggedJoin(RequestsOf(cfg, es), RequestsOf(cfg, b.queue), id);
    TaggedAreOwn(cfg, es + b.queue, id);
    assert WishedBy(cfg, es, id) + WishedBy(cfg, b.queue, id) == WishedBy(cfg, EmittedBy(b.conns, id), id);
    assert SendsAccepted(cfg, es);
    NothingLost(cfg, b.handled, id);
  }

  lemma {:induction false} ReachingTurnsAre(cfg: EndpointConfig, ts: seq<Turn>, t: Turn)
    requires t in ReachingTurns(cfg, ts)
    ensures t in ts && t.event in Own(EventsOf(ts), t.event.conn)
  {
    var before, last := ts[..|ts| - 1], ts[|ts| - 1];
    assert ts == before + [last];
    FlatMapAppend((t: Turn) => [t.event], before, last);
    FlatMapAppend((t: Turn) => if Reaches(cfg, t) then [t] else [], before, last);
    OwnAppend(EventsOf(before), last.event, t.event.conn);
    if t in ReachingTurns(cfg, before) {
      ReachingTurnsAre(cfg, before, t);
    }
  }

  /** A client sent the request, and it was handled while its channel existed. */
  ghost predicate WasSent(cfg: EndpointConfig, b: Broker, r: BusRequest, conn: string) {
    exists t :: t in b.handled && Pairs(cfg, t, r) && t.event in EmittedBy(b.conns, conn)
  }

  /** A tagged request on the bus was sent by the client it is tagged with. */
  lemma PrivateRequestHasSender(cfg: EndpointConfig, actions: seq<Action>, i: nat)
    requires var b := Run(cfg, actions); i < |b.requests| && b.requests[i].brokerDestination.Some?
    ensures var b := Run(cfg, actions); WasSent(cfg, b, b.requests[i], b.requests[i].brokerDestination.value.conn)
  {
    var b := Run(cfg, actions);
    AcceptedSendIsRouted(cfg, actions, "");
    var t := ReachingTurns(cfg, b.handled)[i];
    AcceptedSendIsRouted(cfg, actions, t.event.conn);
    ReachingTurnsAre(cfg, b.handled, t);
    assert Pairs(cfg, t, b.requests[i]);
    assert t.event in EmittedBy(b.conns, t.event.conn);
  }

  // ----- delivery -----

  /** The frames a set of subscriptions of one connection stands for. */
  ghost function FramesOf(subs: Index, body: string): set<OutFrame> {
    set t | t in subs :: OutMessage(t.destination, t.id, body)
  }

  /** Whatever the order of delivery, a connection gets one frame per subscription of its own. */
  lemma {:induction false} FramesEnumerate(id: string, order: seq<Subscription>, all: Index, body: string)
    requires Enumerates(order, all)
    ensures Enumerates(FramesFor(id, Deliveries(order, body)), FramesOf(OfConn(all, id), body))
    decreases |order|
  {
    if order == [] {
      assert OfConn(all, id) == {};
    } else {
      var t, rest := order[0], all - {order[0]};
      EnumeratesTail(order, all);
      FramesEnumerate(id, order[1..], rest, body);
      assert Deliveries(order, body)[1..] == Deliveries(order[1..], body);
      var fs := FramesFor(id, Deliveries(order[1..], body));
      if t.conn == id {
        var f := OutMessage(t.destination, t.id, body);
        assert OfConn(all, id) == OfConn(rest, id) + {t};
        FramesOfAdd(OfConn(rest, id), t, body);
        assert Enumerates([f], {f});
        EnumeratesJoin([f], {f}, fs, FramesOf(OfConn(rest, id), body));
        assert {f} + FramesOf(OfConn(rest, id), body) == FramesOf(OfConn(all, id), body);
      } else {
        assert OfConn(all, id) == OfConn(rest, id);
        assert FramesFor(id, Deliveries(order, body)) == fs;
      }
    }
  }

  lemma FramesOfAdd(subs: Index, t: Subscription, body: string)
    requires t !in subs && forall u :: u in subs ==> u.conn == t.conn
    ensures FramesOf(subs + {t}, body) == FramesOf(subs, body) + {OutMessage(t.destination, t.id, body)}
    ensures OutMessage(t.destination, t.id, body) !in FramesOf(subs, body)
  {
    var f := OutMessage(t.destination, t.id, body);
    forall u | u in subs ensures OutMessage(u.destination, u.id, body) != f {
      assert u != Subscription(t.destination, t.conn, t.id);
    }
    forall g | g in FramesOf(subs, body) + {f} ensures g in FramesOf(subs + {t}, body) {
      if g == f { assert t in subs + {t}; }
    }
  }

  /**
    Handling an API event appends to every connection exactly one frame per addressed
    subscription of its own: all of them for a broadcast, none for other connections
    when the event is private. So a private send is the broadcast seen by one client.
   */
  lemma DeliveryIsExact(cfg: EndpointConfig, actions: seq<Action>, order: seq<Subscription>, id: string)
    requires var b := Run(cfg, actions); Enabled(cfg, b, HandleApi(order)) && id in b.conns
    ensures var b, b' := Run(cfg, actions), Run(cfg, actions + [HandleApi(order)]);
            var a := b.api[0];
            var fs := FramesFor(id, Deliveries(order, a.body));
            && id in b'.conns && b'.conns[id] == b.conns[id].(out := b.conns[id].out + fs)
            && (a.SendPrivateMessage? && a.conn != id ==> fs == [])
            && (a.SendMessage? || a.conn == id ==>
                  Enumerates(fs, FramesOf(OfConn(AtDestination(b.index, a.destination), id), a.body)))
  {
    var b := Run(cfg, actions);
    assert (actions + [HandleApi(order)])[..|actions|] == actions;
    var a := b.api[0];
    FramesEnumerate(id, order, Targets(b.index, a), a.body);
    if a.SendPrivateMessage? && a.conn != id {
      var ds := Deliveries(order, a.body);
      forall i | 0 <= i < |ds| ensures ds[i].conn != id {
        assert order[i] in Targets(b.index, a);
      }
      NoFramesFor(id, ds);
    } else {
      assert OfConn(Targets(b.index, a), id) == OfConn(AtDestination(b.index, a.destination), id);
    }
  }

  lemma PublishForwards(cfg: EndpointConfig, actions: seq<Action>, ch: string, m: BusMessage)
    requires ch in Run(cfg, actions).endpoint.channels
    ensures var b := Run(cfg, actions);
            var f := Forward(cfg, b.endpoint, ch, m);
            Run(cfg, actions + [Publish(ch, m)]) ==
            if f.None? then b else b.(forwarding := b.forwarding + multiset{f.value})
  {
    assert (actions + [Publish(ch, m)])[..|actions|] == actions;
  }

  /** The endpoint listens on the channel for some subscription, and on the live channel. */
  ghost predicate Listens(cfg: EndpointConfig, b: Broker, ch: string) {
    && (exists t :: t in b.index && Maps(cfg, t, ch))
    && ch in b.endpoint.mappings && b.endpoint.mappings[ch].attached
  }

  /**
    In every run, a tagged response published on an existing channel puts exactly one
    private send to the tagged connection under way if some unprotected subscription
    resolves to the channel and its mapping is attached, and nothing otherwise. The
    requester's own user-queue subscription resolves unless the channel is protected or
    another topic prefix captures the destination.
   */
  lemma PrivateResponseIsForwarded(cfg: EndpointConfig, actions: seq<Action>, ch: string,
                                   tag: BrokerDestination, body: string)
    requires ch in Run(cfg, actions).endpoint.channels
    ensures var b, b' := Run(cfg, actions), Run(cfg, actions + [Publish(ch, BusResponse(Some(tag), body))]);
            && (ch in b.endpoint.mappings <==> exists t :: t in b.index && Maps(cfg, t, ch))
            && (Listens(cfg, b, ch) ==>
                  b' == b.(forwarding := b.forwarding + multiset{SendPrivateMessage(tag.conn, tag.destination, body)}))
            && (!Listens(cfg, b, ch) ==> b' == b)
            && (cfg.userQueuePrefix != "" ==> forall t: Subscription :: t.destination == cfg.userQueuePrefix + ch ==>
                  (Maps(cfg, t, ch) <==>
                     && !IsProtected(ch)
                     && (!(cfg.topicPrefix <= t.destination) || cfg.topicPrefix == cfg.userQueuePrefix)))
  {
    MappingsFollowIndex(cfg, actions, ch);
    PublishForwards(cfg, actions, ch, BusResponse(Some(tag), body));
    if cfg.userQueuePrefix != "" {
      UserQueueResolves(cfg, ch);
    }
  }

  // ----- the private round trip -----

  /** The API events the server took during `more`. */
  ghost function ApiTaken(cfg: EndpointConfig, before: seq<Action>, more: seq<Action>): nat {
    if more == [] then 0
    else
      var n := |more| - 1;
      ApiTaken(cfg, before, more[..n])
      + if more[n].HandleApi? && Enabled(cfg, Run(cfg, before + more[..n]), more[n]) then 1 else 0
  }

  lemma RunOn(cfg: EndpointConfig, before: seq<Action>, more: seq<Action>)
    requires more != []
    ensures Run(cfg, before + more) ==
            Step(cfg, Run(cfg, before + more[..|more| - 1]), more[|more| - 1])
  {
    assert (before + more)[..|before + more| - 1] == before + more[..|more| - 1];
  }

  lemma ApiStep(cfg: EndpointConfig, b: Broker, a: Action)
    ensures Step(cfg, b, a).api ==
            if !Enabled(cfg, b, a) then b.api
            else if a.HandleApi? then b.api[1..] else if a.Enqueue? then b.api + [a.event] else b.api
  {
  }

  /** The API queue is first in, first out. */
  lemma {:induction false} ApiInOrder(cfg: EndpointConfig, before: seq<Action>, more: seq<Action>)
    requires ApiTaken(cfg, before, more) <= |Run(cfg, before).api|
    ensures Run(cfg, before).api[ApiTaken(cfg, before, more)..] <= Run(cfg, before + more).api
    decreases |more|
  {
    if more == [] {
      assert before + more == before;
    } else {
      ApiInOrder(cfg, before, more[..|more| - 1]);
      RunOn(cfg, before, more);
      ApiStep(cfg, Run(cfg, before + more[..|more| - 1]), more[|more| - 1]);
    }
  }

  /** A forwarding goroutine waits until it enqueues its event. */
  lemma {:induction false} ForwardingWaits(cfg: EndpointConfig, before: seq<Action>, more: seq<Action>, e: ApiEvent)
    requires e in Run(cfg, before).forwarding && Enqueue(e) !in more
    ensures e in Run(cfg, before + more).forwarding
    decreases |more|
  {
    if more == [] {
      assert before + more == before;
    } else {
      ForwardingWaits(cfg, before, more[..|more| - 1], e);
      RunOn(cfg, before, more);
      assert more[|more| - 1] in more;
    }
  }

  /** A service can answer request `i` of the run with its broker destination copied. */
  ghost predicate CanAnswer(cfg: EndpointConfig, b: Broker, i: nat) {
    && i < |b.requests| && b.requests[i].brokerDestination.Some?
    && b.requests[i].channel in b.endpoint.channels
    && Listens(cfg, b, b.requests[i].channel)
  }

  ghost function Answer(r: BusRequest, body: string): Action {
    Publish(r.channel, BusResponse(r.brokerDestination, body))
  }

  function PrivateEvent(r: BusRequest, body: string): ApiEvent
    requires r.brokerDestination.Some?
  {
    SendPrivateMessage(r.brokerDestination.value.conn, r.brokerDestination.value.destination, body)
  }

  /** Publishing the answer puts one private event for the requester under way. */
  lemma AnswerIsForwarded(cfg: EndpointConfig, before: seq<Action>, i: nat, body: string)
    requires CanAnswer(cfg, Run(cfg, before), i)
    ensures var b := Run(cfg, before); var r := b.requests[i];
            && r.brokerDestination.value.destination == cfg.userQueuePrefix + r.channel
            && Run(cfg, before + [Answer(r, body)]) == b.(forwarding := b.forwarding + multiset{PrivateEvent(r, body)})
  {
    var b := Run(cfg, before);
    var r := b.requests[i];
    PrivateRequestHasSender(cfg, before, i);
    PrivateResponseIsForwarded(cfg, before, r.channel, r.brokerDestination.value, body);
  }

  /** The event, enqueued at any later time, is what the server handles when all before it are. */
  lemma AnswerIsHandled(cfg: EndpointConfig, before: seq<Action>, more: seq<Action>, e: ApiEvent)
    requires Enabled(cfg, Run(cfg, before), Enqueue(e))
    requires ApiTaken(cfg, before + [Enqueue(e)], more) == |Run(cfg, before).api|
    ensures var b := Run(cfg, before + [Enqueue(e)] + more); b.api != [] && b.api[0] == e
  {
    RunOn(cfg, before, [Enqueue(e)]);
    assert before + [Enqueue(e)][..0] == before;
    ApiInOrder(cfg, before + [Enqueue(e)], more);
    var n := |Run(cfg, before).api|;
    assert Run(cfg, before + [Enqueue(e)]).api[n..] == [e];
  }

  /** The service answers, things happen, the goroutine reaches the server, things happen. */
  ghost function RoundTrip(r: BusRequest, before: seq<Action>, body: string,
                           meanwhile: seq<Action>, after: seq<Action>): seq<Action>
    requires r.brokerDestination.Some?
  {
    before + [Answer(r, body)] + meanwhile + [Enqueue(PrivateEvent(r, body))] + after
  }

  /** Request `i` can be answered, and the server has come to the answer. */
  ghost predicate IsRoundTrip(cfg: EndpointConfig, before: seq<Action>, i: nat, body: string,
                              meanwhile: seq<Action>, after: seq<Action>, order: seq<Subscription>)
  {
    && CanAnswer(cfg, Run(cfg, before), i)
    && var r := Run(cfg, before).requests[i];
       var t := before + [Answer(r, body)] + meanwhile;
       && Enqueue(PrivateEvent(r, body)) !in meanwhile
       && ApiTaken(cfg, t + [Enqueue(PrivateEvent(r, body))], after) == |Run(cfg, t).api|
       && Enabled(cfg, Run(cfg, RoundTrip(r, before, body, meanwhile, after)), HandleApi(order))
  }

  /**
    A private request's response reaches only the requester, once per subscription it
    holds on its user queue. In any run: request `i` on the bus was sent by the client it
    is tagged with, while its channel existed; a service answers it; whatever happens until the handler goroutine
    reaches the server, and until the server has taken the API events before it, the
    server then appends to the requester exactly one frame per subscription on the user
    queue, and nothing to any other connection.
   */
  lemma PrivateRoundTrip(cfg: EndpointConfig, before: seq<Action>, i: nat, body: string,
                         meanwhile: seq<Action>, after: seq<Action>, order: seq<Subscription>, id: string)
    requires IsRoundTrip(cfg, before, i, body, meanwhile, after, order)
    requires id in Run(cfg, RoundTrip(Run(cfg, before).requests[i], before, body, meanwhile, after)).conns
    ensures var r := Run(cfg, before).requests[i];
            var (conn, queue) := (r.brokerDestination.value.conn, cfg.userQueuePrefix + r.channel);
            var t2 := RoundTrip(r, before, body, meanwhile, after);
            var b, b' := Run(cfg, t2), Run(cfg, t2 + [HandleApi(order)]);
            && WasSent(cfg, Run(cfg, before), r, conn)
            && id in b'.conns
            && (id != conn ==> b'.conns[id] == b.conns[id])
            && (id == conn ==> exists fs ::
                  && b'.conns[id] == b.conns[id].(out := b.conns[id].out + fs)
                  && Enumerates(fs, FramesOf(OfConn(AtDestination(b.index, queue), id), body)))
  {
    var r := Run(cfg, before).requests[i];
    var e, t1 := PrivateEvent(r, body), before + [Answer(r, body)] + meanwhile;
    PrivateRequestHasSender(cfg, before, i);
    AnswerIsForwarded(cfg, before, i, body);
    ForwardingWaits(cfg, before + [Answer(r, body)], meanwhile, e);
    AnswerIsHandled(cfg, t1, after, e);
    DeliveryIsExact(cfg, t1 + [Enqueue(e)] + after, order, id);
  }

  // ----- a round trip: one client connects, subscribes to its user queue and sends one request -----

  const SAMPLE := EndpointConfig("t/", "q/", "p/", "r/", 0)

  const CONNECTING := ClientFrame(CONNECT, None, None, None, false, Some(["1.2"]), NoHeartBeat, "")
  const SUBSCRIBING := ClientFrame(SUBSCRIBE, Some("s"), Some("q/a"), None, false, None, NoHeartBeat, "")
  const SENDING := ClientFrame(SEND, None, Some("r/a"), None, false, None, NoHeartBeat, "")

  ghost function OneClient(c: Conn): Broker { Init().(conns := map["c" := c], queue := c.emitted) }

  lemma Longer(actions: seq<Action>, a: Action) returns (longer: seq<Action>)
    ensures longer == actions + [a] && Run(SAMPLE, longer) == Step(SAMPLE, Run(SAMPLE, actions), a)
  {
    longer := actions + [a];
    assert longer[..|actions|] == actions;
  }

  lemma ClientSends(c: Conn, f: ClientFrame, c': Conn)
    requires c.id == "c" && !c.phase.Closed?
    requires c' == OnInFrame(c, ConfigOf(SAMPLE), f, true, true) && c.emitted <= c'.emitted
    ensures Step(SAMPLE, OneClient(c), Receive("c", f, true, true)) == OneClient(c')
  {
    ClientMoves(c, c');
    assert OneClient(c).conns["c"] == c;
  }

  lemma ClientMoves(c: Conn, c': Conn)
    requires c.id == "c" && c.emitted <= c'.emitted
    ensures MoveConn(OneClient(c), c, c') == OneClient(c')
  {
    assert c.emitted + NewEvents(c, c') == c'.emitted;
    assert map["c" := c]["c" := c'] == map["c" := c'];
  }

  lemma FirstTwoFrames() returns (c1: Conn, c2: Conn)
    ensures c1 == OnInFrame(NewConn("c"), ConfigOf(SAMPLE), CONNECTING, true, true)
    ensures c2 == OnInFrame(c1, ConfigOf(SAMPLE), SUBSCRIBING, true, true)
    ensures c1.id == c2.id == "c" && c1.phase.Connected? && c2.phase.Connected?
    ensures c1.emitted == [ConnectionEstablished("c")]
    ensures c2.emitted == [ConnectionEstablished("c"), SubscribeToTopic("c", "s", "q/a")]
  {
    c1 := OnInFrame(NewConn("c"), ConfigOf(SAMPLE), CONNECTING, true, true);
    c2 := OnInFrame(c1, ConfigOf(SAMPLE), SUBSCRIBING, true, true);
  }

  lemma LastFrame(c: Conn) returns (c': Conn)
    requires c.id == "c" && c.phase.Connected?
    ensures c' == OnInFrame(c, ConfigOf(SAMPLE), SENDING, true, true)
    ensures c'.emitted == c.emitted + [IncomingMessage("c", "r/a", "")]
  {
    assert AppPrefixes(SAMPLE)[1] == "r/" <= "r/a";
    c' := OnInFrame(c, ConfigOf(SAMPLE), SENDING, true, true);
  }

  lemma ThreeFrames() returns (actions: seq<Action>, c: Conn)
    ensures Run(SAMPLE, actions) == OneClient(c)
    ensures c.emitted ==
            [ConnectionEstablished("c"), SubscribeToTopic("c", "s", "q/a"), IncomingMessage("c", "r/a", "")]
  {
    var c1, c2 := FirstTwoFrames();
    c := LastFrame(c2);
    actions := Longer([], Accept("c"));
    assert NoHash("c");
    assert Run(SAMPLE, actions) == OneClient(NewConn("c"));
    ClientSends(NewConn("c"), CONNECTING, c1);
    actions := Longer(actions, Receive("c", CONNECTING, true, true));
    ClientSends(c1, SUBSCRIBING, c2);
    actions := Longer(actions, Receive("c", SUBSCRIBING, true, true));
    ClientSends(c2, SENDING, c);
    actions := Longer(actions, Receive("c", SENDING, true, true));
  }

  lemma SampleRoutes()
    ensures ChannelOf(SAMPLE, "q/a") == Some("a") && !IsProtected("a") && !(SAMPLE.topicPrefix <= "q/a")
    ensures RequestsFor(SAMPLE, IncomingMessage("c", "r/a", "")) ==
            [BusRequest("a", Some(BrokerDestination("c", "q/a")), "")]
  {
    assert "q/a" == "q/" + "a" && "r/a" == "r/" + "a";
    assert "t/"[0] != "q/a"[0];
    assert AppPrefixes(SAMPLE)[1] == "r/" <= "r/a";
    assert |INTERNAL_CHANNEL_PREFIX| > |"a"|;
    assert "r/a"[2..] == "a" && "q/a"[2..] == "a";
  }

  ghost predicate HasRequest(b: Broker) {
    && b.index == {Subscription("q/a", "c", "s")}
    && b.requests == [BusRequest("a", Some(BrokerDestination("c", "q/a")), "")]
    && "a" in b.endpoint.channels && b.api == []
    && "a" in b.endpoint.mappings && b.endpoint.mappings["a"].attached
  }

  lemma Requested() returns (actions: seq<Action>)
    ensures HasRequest(Run(SAMPLE, actions))
  {
    var c: Conn;
    actions, c := ThreeFrames();
    actions := Longer(actions, HandleEvent([]));
    actions := Longer(actions, HandleEvent([]));
    actions := Longer(actions, HandleEvent([]));
    SampleHandled(OneClient(c));
  }

  lemma SampleHandled(b: Broker)
    requires b.queue == [ConnectionEstablished("c"), SubscribeToTopic("c", "s", "q/a"), IncomingMessage("c", "r/a", "")]
    requires b.index == {} && b.endpoint == EndpointState(map[], {}) && b.requests == [] && b.api == []
    ensures var e := HandleEvent([]); HasRequest(Step(SAMPLE, Step(SAMPLE, Step(SAMPLE, b, e), e), e))
  {
    var b1 := Step(SAMPLE, b, HandleEvent([]));
    var b2 := SampleSubscribed(b1);
    SampleSent(b2);
  }

  lemma SampleSent(b: Broker)
    requires b.queue == [IncomingMessage("c", "r/a", "")] && "a" in b.endpoint.channels
    ensures var b' := Step(SAMPLE, b, HandleEvent([]));
            && b'.requests == b.requests + [BusRequest("a", Some(BrokerDestination("c", "q/a")), "")]
            && b'.index == b.index && b'.endpoint == b.endpoint && b'.api == b.api
  {
    SampleRoutes();
  }

  lemma SampleSubscribed(b: Broker) returns (b': Broker)
    requires b.queue == [SubscribeToTopic("c", "s", "q/a"), IncomingMessage("c", "r/a", "")]
    requires b.index == {} && b.endpoint == EndpointState(map[], {})
    ensures b' == Step(SAMPLE, b, HandleEvent([])) && b'.requests == b.requests && b'.api == b.api
    ensures b'.queue == [IncomingMessage("c", "r/a", "")] && b'.index == {Subscription("q/a", "c", "s")}
    ensures "a" in b'.endpoint.channels && "a" in b'.endpoint.mappings && b'.endpoint.mappings["a"].attached
  {
    SampleRoutes();
    OneCall(SAMPLE, b.endpoint, SubscribeCall(Subscription("q/a", "c", "s")));
    b' := Step(SAMPLE, b, HandleEvent([]));
  }

  lemma SampleCanAnswer(b: Broker)
    requires HasRequest(b)
    ensures CanAnswer(SAMPLE, b, 0)
  {
    SampleRoutes();
    assert Subscription("q/a", "c", "s") in b.index && Maps(SAMPLE, Subscription("q/a", "c", "s"), "a");
  }

  lemma SampleDelivers(b: Broker)
    requires b.index == {Subscription("q/a", "c", "s")}
    requires b.api != [] && b.api[0] == SendPrivateMessage("c", "q/a", "")
    ensures Enabled(SAMPLE, b, HandleApi([Subscription("q/a", "c", "s")]))
  {
    assert Targets(b.index, b.api[0]) == b.index;
  }

  /** Round trips happen. */
  lemma RoundTripHappens()
    ensures exists before, order :: IsRoundTrip(SAMPLE, before, 0, "", [], [], order)
  {
    var before := Requested();
    var r := Run(SAMPLE, before).requests[0];
    SampleCanAnswer(Run(SAMPLE, before));
    AnswerIsForwarded(SAMPLE, before, 0, "");
    var t1 := before + [Answer(r, "")];
    var t2 := Longer(t1, Enqueue(PrivateEvent(r, "")));
    assert t1 + [] == t1 && t2 + [] == t2;
    assert RoundTrip(r, before, "", [], []) == t2;
    SampleDelivers(Run(SAMPLE, t2));
    assert IsRoundTrip(SAMPLE, before, 0, "", [], [], [Subscription("q/a", "c", "s")]);
  }

  /** A SEND to a channel nobody has created is accepted and handled, and its request is lost. */
  lemma SendIsLost()
    ensures exists actions ::
              var b := Run(SAMPLE, actions);
              && b.queue == [] && IncomingMessage("c", "r/a", "") in EmittedBy(b.conns, "c")
              && WishedBy(SAMPLE, EmittedBy(b.conns, "c"), "c") != [] && b.requests == []
  {
    var actions, c := TwoFrames();
    actions := Longer(actions, HandleEvent([]));
    actions := Longer(actions, HandleEvent([]));
    LostRequest(OneClient(c));
    WishedRequest();
    assert IncomingMessage("c", "r/a", "") in EmittedBy(Run(SAMPLE, actions).conns, "c");
  }

  lemma LostRequest(b: Broker)
    requires b.queue == [ConnectionEstablished("c"), IncomingMessage("c", "r/a", "")]
    requires b.endpoint == EndpointState(map[], {}) && b.requests == []
    ensures var b' := Step(SAMPLE, Step(SAMPLE, b, HandleEvent([])), HandleEvent([]));
            b'.requests == [] && b'.queue == [] && b'.conns == b.conns
  {
    var b1 := Step(SAMPLE, b, HandleEvent([]));
    assert b1.queue == [IncomingMessage("c", "r/a", "")] && b1.requests == [] && b1.endpoint == b.endpoint;
    SampleRoutes();
  }

  lemma WishedRequest()
    ensures WishedBy(SAMPLE, [ConnectionEstablished("c"), IncomingMessage("c", "r/a", "")], "c") != []
  {
    var e := IncomingMessage("c", "r/a", "");
    SampleRoutes();
    TaggedAppend(SAMPLE, [ConnectionEstablished("c")], e, "c");
    assert [ConnectionEstablished("c")] + [e] == [ConnectionEstablished("c"), e];
    assert Tagged(RequestsFor(SAMPLE, e), "c") != [];
  }

  lemma TwoFrames() returns (actions: seq<Action>, c: Conn)
    ensures Run(SAMPLE, actions) == OneClient(c)
    ensures c.emitted == [ConnectionEstablished("c"), IncomingMessage("c", "r/a", "")]
  {
    var c1, _ := FirstTwoFrames();
    c := LastFrame(c1);
    actions := Longer([], Accept("c"));
    assert NoHash("c");
    assert Run(SAMPLE, actions) == OneClient(NewConn("c"));
    ClientSends(NewConn("c"), CONNECTING, c1);
    actions := Longer(actions, Receive("c", CONNECTING, true, true));
    ClientSends(c1, SENDING, c);
    actions := Longer(actions, Receive("c", SENDING, true, true));
  }

  // ----- public messages stay on their channel -----

  /** The destination a mapping's error handler captured resolves to its channel. */
  ghost predicate ErrorsResolve(cfg: EndpointConfig, e: EndpointState) {
    forall ch :: ch in e.mappings ==> ChannelOf(cfg, e.mappings[ch].errorDestination) == Some(ch)
  }

  lemma {:induction false} CallsKeepErrors(cfg: EndpointConfig, e: EndpointState, calls: seq<Call>)
    requires ErrorsResolve(cfg, e)
    ensures ErrorsResolve(cfg, OnCalls(cfg, e, calls))
    decreases |calls|
  {
    if calls != [] {
      assert ErrorsResolve(cfg, OnCall(cfg, e, calls[0]));
      CallsKeepErrors(cfg, OnCall(cfg, e, calls[0]), calls[1..]);
    }
  }

  lemma {:induction false} RunKeepsErrors(cfg: EndpointConfig, actions: seq<Action>)
    ensures ErrorsResolve(cfg, Run(cfg, actions).endpoint)
  {
    if actions != [] {
      var n := |actions| - 1;
      RunKeepsErrors(cfg, actions[..n]);
      var b, a := Run(cfg, actions[..n]), actions[n];
      if a.HandleEvent? && Enabled(cfg, b, a) {
        CallsKeepErrors(cfg, b.endpoint, CallsFor(b.index, b.queue[0], a.dropped));
      }
    }
  }

  /** Where an untagged response or an error of a mapped channel goes. */
  function PublicDestination(cfg: EndpointConfig, e: EndpointState, ch: string, m: BusMessage): string
    requires ch in e.mappings
  {
    if m.BusError? then e.mappings[ch].errorDestination else cfg.topicPrefix + ch
  }

  ghost function Broadcast(cfg: EndpointConfig, e: EndpointState, ch: string, m: BusMessage): ApiEvent
    requires ch in e.mappings
  {
    SendMessage(PublicDestination(cfg, e, ch, m), if m.BusError? then m.error else m.body)
  }

  /**
    In every run, a message without a broker destination, published on a channel with a
    live mapping, puts one broadcast under way; a response goes to the channel's topic, an
    error to a destination of the same channel, so whoever is subscribed to it, whenever
    it is handled, is subscribed to this channel.
   */
  lemma PublicMessagesStayOnChannel(cfg: EndpointConfig, actions: seq<Action>, ch: string, m: BusMessage)
    requires m.BusError? || m.brokerDestination.None?
    requires var b := Run(cfg, actions);
             ch in b.endpoint.channels && ch in b.endpoint.mappings && b.endpoint.mappings[ch].attached
    ensures var b, b' := Run(cfg, actions), Run(cfg, actions + [Publish(ch, m)]);
            && b' == b.(forwarding := b.forwarding + multiset{Broadcast(cfg, b.endpoint, ch, m)})
            && forall t: Subscription ::
                 t.destination == PublicDestination(cfg, b.endpoint, ch, m) ==> Maps(cfg, t, ch)
  {
    RunKeeps(cfg, actions);
    RunKeepsErrors(cfg, actions);
    var b := Run(cfg, actions);
    PublishForwards(cfg, actions, ch, m);
    ProtectedUnmapped(cfg, b.endpoint, b.index, ch);
    assert (cfg.topicPrefix + ch)[|cfg.topicPrefix|..] == ch;
  }

  /** When the server comes to it, exactly the subscriptions then indexed on its destination get a frame. */
  lemma BroadcastReaches(cfg: EndpointConfig, actions: seq<Action>, ch: string, m: BusMessage,
                         later: seq<Action>, order: seq<Subscription>, id: string)
    requires m.BusError? || m.brokerDestination.None?
    requires var b := Run(cfg, actions);
             && ch in b.endpoint.channels && ch in b.endpoint.mappings && b.endpoint.mappings[ch].attached
             && var b1 := Run(cfg, actions + [Publish(ch, m)] + later);
                && Enabled(cfg, b1, HandleApi(order)) && id in b1.conns
                && b1.api[0] == Broadcast(cfg, b.endpoint, ch, m)
    ensures var e := Broadcast(cfg, Run(cfg, actions).endpoint, ch, m);
            var b1 := Run(cfg, actions + [Publish(ch, m)] + later);
            var b2 := Run(cfg, actions + [Publish(ch, m)] + later + [HandleApi(order)]);
            var receivers := OfConn(AtDestination(b1.index, e.destination), id);
            && (forall t :: t in receivers ==> Maps(cfg, t, ch))
            && id in b2.conns
            && exists fs :: b2.conns[id] == b1.conns[id].(out := b1.conns[id].out + fs)
                         && Enumerates(fs, FramesOf(receivers, e.body))
  {
    PublicMessagesStayOnChannel(cfg, actions, ch, m);
    DeliveryIsExact(cfg, actions + [Publish(ch, m)] + later, order, id);
  }

  /** The event that made the mapping: the first subscription to the channel while it was unmapped. */
  ghost predicate MadeMapping(cfg: EndpointConfig, actions: seq<Action>, n: nat, ch: string, destination: string) {
    && n < |actions|
    && var b := Run(cfg, actions[..n]);
       && ch !in b.endpoint.mappings && actions[n].HandleEvent? && b.queue != []
       && b.queue[0].SubscribeToTopic? && b.queue[0].destination == destination
  }

  ghost predicate MappedSince(cfg: EndpointConfig, actions: seq<Action>, n: nat, ch: string) {
    forall m :: n < m <= |actions| ==> ch in Run(cfg, actions[..m]).endpoint.mappings
  }

  /** What a present mapping says, and the action that made it: its error destination, and whether it still listens. */
  ghost predicate IsMappingSince(cfg: EndpointConfig, actions: seq<Action>, ch: string, m: Mapping, n: nat) {
    && MadeMapping(cfg, actions, n, ch, m.errorDestination)
    && MappedSince(cfg, actions, n, ch)
    && (m.attached <==> Destroy(ch) !in actions[n + 1..])
  }

  /**
    In every run, a mapping was made by the first subscription to the channel while it was
    unmapped. Errors go to the destination that subscription named. The mapping listens on
    the live channel if and only if nobody has destroyed the channel since.
   */
  lemma {:induction false} MappingHistory(cfg: EndpointConfig, actions: seq<Action>, ch: string)
    requires ch in Run(cfg, actions).endpoint.mappings
    ensures exists n: nat :: IsMappingSince(cfg, actions, ch, Run(cfg, actions).endpoint.mappings[ch], n)
  {
    var k: nat := |actions| - 1;
    var b, b', a := Run(cfg, actions[..k]), Run(cfg, actions), actions[k];
    var m := b'.endpoint.mappings[ch];
    assert actions[..|actions|] == actions;
    StepErrors(cfg, b, a, ch);
    if ch in b.endpoint.mappings {
      MappingHistory(cfg, actions[..k], ch);
      var n: nat :| IsMappingSince(cfg, actions[..k], ch, b.endpoint.mappings[ch], n);
      StillMapped(cfg, actions, ch, b.endpoint.mappings[ch], m, n);
    } else {
      NewlyMapped(cfg, actions, ch, m);
    }
  }

  /** Errors reach only subscribers of the destination that the subscription named which made the present mapping. */
  lemma ErrorsGoToFirst(cfg: EndpointConfig, actions: seq<Action>, ch: string)
    requires ch in Run(cfg, actions).endpoint.mappings
    ensures exists n: nat ::
              && MadeMapping(cfg, actions, n, ch, Run(cfg, actions).endpoint.mappings[ch].errorDestination)
              && MappedSince(cfg, actions, n, ch)
  {
    MappingHistory(cfg, actions, ch);
    var n: nat :| IsMappingSince(cfg, actions, ch, Run(cfg, actions).endpoint.mappings[ch], n);
    assert MappedSince(cfg, actions, n, ch);
  }

  lemma NewlyMapped(cfg: EndpointConfig, actions: seq<Action>, ch: string, m: Mapping)
    requires actions != [] && ch in Run(cfg, actions).endpoint.mappings && m.attached
    requires MadeMapping(cfg, actions, |actions| - 1, ch, m.errorDestination)
    ensures IsMappingSince(cfg, actions, ch, m, |actions| - 1)
  {
    var k: nat := |actions| - 1;
    assert actions[k + 1..] == [] && actions[..k + 1] == actions;
  }

  /** In every run, nobody having destroyed the channel since it was last unmapped, a mapped channel is listened on. */
  lemma MappedChannelsListen(cfg: EndpointConfig, actions: seq<Action>, ch: string)
    requires ch in Run(cfg, actions).endpoint.mappings && Destroy(ch) !in actions
    ensures Listens(cfg, Run(cfg, actions), ch)
  {
    MappingHistory(cfg, actions, ch);
    MappingsFollowIndex(cfg, actions, ch);
    var n: nat :| IsMappingSince(cfg, actions, ch, Run(cfg, actions).endpoint.mappings[ch], n);
    assert forall a :: a in actions[n + 1..] ==> a in actions;
  }

  lemma StillMapped(cfg: EndpointConfig, actions: seq<Action>, ch: string, before: Mapping, m: Mapping, n: nat)
    requires actions != [] && ch in Run(cfg, actions).endpoint.mappings
    requires IsMappingSince(cfg, actions[..|actions| - 1], ch, before, n)
    requires m.errorDestination == before.errorDestination
    requires m.attached <==> before.attached && actions[|actions| - 1] != Destroy(ch)
    ensures IsMappingSince(cfg, actions, ch, m, n)
  {
    NotSince(actions, n + 1, Destroy(ch));
    StillMade(cfg, actions, n, ch, m.errorDestination);
    StillMappedSince(cfg, actions, n, ch);
  }

  lemma NotSince<T>(xs: seq<T>, n: nat, x: T)
    requires n < |xs|
    ensures x !in xs[n..] <==> x !in xs[..|xs| - 1][n..] && x != xs[|xs| - 1]
  {
    assert xs[n..] == xs[..|xs| - 1][n..] + [xs[|xs| - 1]];
  }

  lemma StillMade(cfg: EndpointConfig, actions: seq<Action>, n: nat, ch: string, d: string)
    requires actions != [] && MadeMapping(cfg, actions[..|actions| - 1], n, ch, d)
    ensures MadeMapping(cfg, actions, n, ch, d)
  {
    PrefixOf(actions, |actions| - 1, n);
  }

  lemma PrefixOf<T>(xs: seq<T>, k: nat, n: nat)
    requires n <= k <= |xs|
    ensures xs[..k][..n] == xs[..n] && (n < k ==> xs[..k][n] == xs[n])
  {
  }

  lemma StillMappedSince(cfg: EndpointConfig, actions: seq<Action>, n: nat, ch: string)
    requires actions != [] && ch in Run(cfg, actions).endpoint.mappings
    requires MappedSince(cfg, actions[..|actions| - 1], n, ch)
    ensures MappedSince(cfg, actions, n, ch)
  {
    forall i | n < i <= |actions| ensures ch in Run(cfg, actions[..i]).endpoint.mappings {
      if i < |actions| {
        PrefixOf(actions, |actions| - 1, i);
      } else {
        assert actions[..i] == actions;
      }
    }
  }

  /** A step keeps a mapping, or destroys its channel, or is the subscription that makes it. */
  lemma StepErrors(cfg: EndpointConfig, b: Broker, a: Action, ch: string)
    requires ch in Step(cfg, b, a).endpoint.mappings
    ensures var m := Step(cfg, b, a).endpoint.mappings[ch];
            if ch in b.endpoint.mappings then
              && m.errorDestination == b.endpoint.mappings[ch].errorDestination
              && (m.attached <==> b.endpoint.mappings[ch].attached && a != Destroy(ch))
            else
              && a.HandleEvent? && b.queue != [] && b.queue[0].SubscribeToTopic?
              && b.queue[0].destination == m.errorDestination && m.attached
  {
    if a.HandleEvent? && Enabled(cfg, b, a) {
      var e := b.queue[0];
      match e
      case SubscribeToTopic(c, s, d) => OneCall(cfg, b.endpoint, SubscribeCall(Subscription(d, c, s)));
      case UnsubscribeFromTopic(c, s, d) => OneCall(cfg, b.endpoint, UnsubscribeCall(Subscription(d, c, s)));
      case ConnectionClosed(_) => DropsMakeNothing(cfg, b.endpoint, a.dropped, ch);
      case _ =>
    }
  }

  lemma {:induction false} DropsMakeNothing(cfg: EndpointConfig, e: EndpointState, subs: seq<Subscription>, ch: string)
    requires ch in OnCalls(cfg, e, Drops(subs)).mappings
    ensures ch in e.mappings
    ensures var m := OnCalls(cfg, e, Drops(subs)).mappings[ch];
            m.errorDestination == e.mappings[ch].errorDestination && m.attached == e.mappings[ch].attached
    decreases |subs|
  {
    if subs != [] {
      assert Drops(subs)[1..] == Drops(subs[1..]);
      DropsMakeNothing(cfg, RemoveSub(cfg, e, subs[0]), subs[1..], ch);
    }
  }

  /** A subscription to an internal channel never makes the endpoint listen on it; one to any other channel does. */
  lemma InternalChannelsAreClosed(cfg: EndpointConfig, actions: seq<Action>, name: string)
    ensures var b := Run(cfg, actions);
            && "_transportInternal/" + name !in b.endpoint.mappings
            && (!("_transportInternal/" <= name)
                && (exists t :: t in b.index && ChannelOf(cfg, t.destination) == Some(name)) ==>
                  name in b.endpoint.mappings)
  {
    MappingsFollowIndex(cfg, actions, name);
    MappingsFollowIndex(cfg, actions, "_transportInternal/" + name);
    assert "_transportInternal/" <= "_transportInternal/" + name;
    var b := Run(cfg, actions);
    if t :| t in b.index && ChannelOf(cfg, t.destination) == Some(name) {
      assert !("_transportInternal/" <= name) ==> Maps(cfg, t, name);
    }
  }

  // ----- every MESSAGE belongs to a subscription its client made -----

  ghost predicate Told(conns: map<string, Conn>, t: Subscription) {
    t.conn in conns && Made(conns[t.conn], t.destination, t.id)
  }

  ghost predicate AllTold(b: Broker) {
    && (forall t :: t in b.index ==> Told(b.conns, t))
    && (forall e :: e in b.queue && e.SubscribeToTopic? ==> Told(b.conns, Subscription(e.destination, e.conn, e.id)))
    && (forall id :: id in b.conns ==> Deserved(b.conns[id]))
  }

  lemma FaithfulExtends(c: Conn, c': Conn)
    requires FaithfulStep(c, c')
    ensures c.emitted <= c'.emitted && forall e :: e in NewEvents(c, c') ==> e in c'.emitted
  {
  }

  lemma MoveKeepsTold(b: Broker, c': Conn)
    requires ConnsOk(b.conns) && AllTold(b)
    requires c'.id in b.conns && FaithfulStep(b.conns[c'.id], c') && Deserved(c')
    ensures AllTold(MoveConn(b, b.conns[c'.id], c'))
  {
    var c := b.conns[c'.id];
    var b' := MoveConn(b, c, c');
    FaithfulExtends(c, c');
    forall t | Told(b.conns, t) ensures Told(b'.conns, t) {
    }
    forall e | e in b'.queue && e.SubscribeToTopic?
      ensures Told(b'.conns, Subscription(e.destination, e.conn, e.id))
    {
      if e !in b.queue {
        assert e in NewEvents(c, c');
        NewEventsAreOwn(c, c', e);
      }
    }
  }

  lemma NewEventsAreOwn(c: Conn, c': Conn, e: Event)
    requires FaithfulStep(c, c') && e in NewEvents(c, c')
    ensures e.conn == c.id
  {
    assert !Quiet(c, c');
    var e' :| Tells(c, c', e');
    assert NewEvents(c, c') == [e'];
  }

  lemma MovedDeserved(cfg: EndpointConfig, c: Conn, a: Action)
    requires Deserved(c) && FaithfulStep(c, Moved(cfg, c, a))
    ensures Deserved(Moved(cfg, c, a))
  {
    FaithfulExtends(c, Moved(cfg, c, a));
    match a
    case Receive(_, f, ok, okError) => InFrameKeepsDeserved(c, ConfigOf(cfg), f, ok, okError);
    case WriteOut(_, ok) => if c.out != [] { OutFrameKeepsDeserved(c, ok); }
    case _ =>
  }

  lemma ConnActionKeepsTold(cfg: EndpointConfig, b: Broker, a: Action)
    requires Inv(cfg, b) && AllTold(b) && Enabled(cfg, b, a)
    requires a.Receive? || a.WriteOut? || a.Beat? || a.HangUp?
    ensures AllTold(Step(cfg, b, a))
  {
    MovedOk(cfg, b, a);
    MovedDeserved(cfg, b.conns[a.id], a);
    MoveKeepsTold(b, Moved(cfg, b.conns[a.id], a));
  }

  lemma {:induction false} FramesComeFrom(id: string, ds: seq<Delivery>, f: OutFrame)
    requires f in FramesFor(id, ds)
    ensures exists i :: 0 <= i < |ds| && ds[i] == Delivery(id, f)
  {
    if ds[0] != Delivery(id, f) {
      FramesComeFrom(id, ds[1..], f);
      var i :| 0 <= i < |ds[1..]| && ds[1..][i] == Delivery(id, f);
      assert ds[i + 1] == Delivery(id, f);
    }
  }

  lemma HandleApiKeepsTold(cfg: EndpointConfig, b: Broker, order: seq<Subscription>)
    requires AllTold(b) && Enabled(cfg, b, HandleApi(order)) && ConnsOk(b.conns)
    ensures AllTold(Step(cfg, b, HandleApi(order)))
  {
    var b' := Step(cfg, b, HandleApi(order));
    var ds := Deliveries(order, b.api[0].body);
    forall t | Told(b.conns, t) ensures Told(b'.conns, t) {
    }
    forall id | id in b'.conns ensures Deserved(b'.conns[id]) {
      assert Deserved(b.conns[id]);
      forall f | f in b'.conns[id].out && f.OutMessage? ensures Made(b'.conns[id], f.destination, f.subscription) {
        if f !in b.conns[id].out {
          FramesComeFrom(id, ds, f);
          var i :| 0 <= i < |ds| && ds[i] == Delivery(id, f);
          assert order[i] in Targets(b.index, b.api[0]);
          assert Told(b.conns, order[i]);
        }
      }
    }
  }

  lemma OthersKeepTold(cfg: EndpointConfig, b: Broker, a: Action)
    requires Inv(cfg, b) && AllTold(b) && Enabled(cfg, b, a)
    requires !(a.Receive? || a.WriteOut? || a.Beat? || a.HangUp? || a.HandleApi?)
    ensures AllTold(Step(cfg, b, a))
  {
    var b' := Step(cfg, b, a);
    assert a.Accept? ==> Deserved(NewConn(a.id));
    forall t | Told(b.conns, t) ensures Told(b'.conns, t) {
    }
  }

  /**
    In every run, every MESSAGE that reached a client, and every one still queued for
    it, carries a subscription id and destination that this client subscribed itself.
   */
  lemma {:induction false} MessagesAreDeserved(cfg: EndpointConfig, actions: seq<Action>)
    ensures AllTold(Run(cfg, actions))
  {
    if actions != [] {
      var n := |actions| - 1;
      MessagesAreDeserved(cfg, actions[..n]);
      RunKeeps(cfg, actions[..n]);
      var b, a := Run(cfg, actions[..n]), actions[n];
      if Enabled(cfg, b, a) {
        match a
        case HandleApi(order) => HandleApiKeepsTold(cfg, b, order);
        case Receive(_, _, _, _) => ConnActionKeepsTold(cfg, b, a);
        case WriteOut(_, _) => ConnActionKeepsTold(cfg, b, a);
        case Beat(_, _) => ConnActionKeepsTold(cfg, b, a);
        case HangUp(_) => ConnActionKeepsTold(cfg, b, a);
        case _ => OthersKeepTold(cfg, b, a);
      }
    }
  }

  // ----- clients read what was sent to them -----

  /** The MESSAGE frames a client has read, as they were queued for it. */
  function Shown(w: seq<Written>): seq<OutFrame> {
    if w == [] then []
    else
      var f := w[|w| - 1];
      Shown(w[..|w| - 1]) + if f.MessageFrame? then [OutMessage(f.destination, f.subscription, f.body)] else []
  }

  /** What was read and what waits are all frames so far; a closed connection stops at some point. */
  ghost predicate Caught(c: Conn, frames: seq<OutFrame>) {
    if c.phase.Closed? then Shown(c.written) <= frames else Shown(c.written) + c.out == frames
  }

  ghost predicate SentOk(b: Broker) {
    && (forall i :: 0 <= i < |b.sent| ==> b.sent[i].conn in b.conns)
    && (forall id :: id in b.conns ==> Caught(b.conns[id], FramesFor(id, b.sent)))
  }

  lemma {:induction false} ShownSame(w: seq<Written>, w': seq<Written>)
    requires w <= w' && forall i :: |w| <= i < |w'| ==> !w'[i].MessageFrame?
    ensures Shown(w') == Shown(w)
    decreases |w'|
  {
    if |w'| > |w| {
      ShownSame(w, w'[..|w'| - 1]);
    } else {
      assert w == w';
    }
  }

  lemma MovedCaught(cfg: EndpointConfig, b: Broker, a: Action, frames: seq<OutFrame>)
    requires Enabled(cfg, b, a) && (a.Receive? || a.WriteOut? || a.Beat? || a.HangUp?)
    requires Caught(b.conns[a.id], frames) && !b.conns[a.id].closeDone
    ensures Caught(Moved(cfg, b.conns[a.id], a), frames)
  {
    var c, c' := b.conns[a.id], Moved(cfg, b.conns[a.id], a);
    if a.WriteOut? {
      OutFrameCaught(c, a.ok, frames);
    } else {
      if a.Receive? {
        HandlersWriteNoMessage(c, ConfigOf(cfg), a.frame, a.ok);
      }
      assert NoNewMessage(c, c');
      ShownSame(c.written, c'.written);
    }
  }

  lemma OutFrameCaught(c: Conn, ok: bool, frames: seq<OutFrame>)
    requires !c.phase.Closed? && !c.closeDone && c.out != [] && Caught(c, frames)
    ensures Caught(OnOutFrame(c, ok), frames)
  {
    var w, f, rest := c.written, c.out[0], c.out[1..];
    match f
    case OutMessage(d, s, body) =>
      if ok {
        ShownAppend(w, MessageFrame(d, s, (c.messageId + 1) % TWO_64, body));
        assert Shown(w) + [f] + rest == Shown(w) + c.out;
      }
    case OutError(e) => ShownAppend(w, ErrorFrame(e));
  }

  lemma ShownAppend(w: seq<Written>, f: Written)
    ensures Shown(w + [f]) ==
            Shown(w) + if f.MessageFrame? then [OutMessage(f.destination, f.subscription, f.body)] else []
  {
    assert (w + [f])[..|w|] == w;
  }

  lemma {:induction false} FramesForJoin(id: string, xs: seq<Delivery>, ys: seq<Delivery>)
    ensures FramesFor(id, xs + ys) == FramesFor(id, xs) + FramesFor(id, ys)
  {
    if xs == [] {
      assert xs + ys == ys;
    } else {
      var first := if xs[0].conn == id then [xs[0].frame] else [];
      assert (xs + ys)[0] == xs[0] && (xs + ys)[1..] == xs[1..] + ys;
      assert FramesFor(id, xs + ys) == first + FramesFor(id, xs[1..] + ys);
      FramesForJoin(id, xs[1..], ys);
      assert first + (FramesFor(id, xs[1..]) + FramesFor(id, ys)) == FramesFor(id, xs) + FramesFor(id, ys);
    }
  }

  lemma CaughtMore(c: Conn, frames: seq<OutFrame>, more: seq<OutFrame>)
    requires Caught(c, frames)
    ensures Caught(c.(out := c.out + more), frames + more)
  {
    assert Shown(c.written) + (c.out + more) == Shown(c.written) + c.out + more;
  }

  lemma DeliverCaught(conns: map<string, Conn>, sent: seq<Delivery>, ds: seq<Delivery>, id: string)
    requires id in conns && Caught(conns[id], FramesFor(id, sent))
    ensures Caught(Deliver(conns, ds)[id], FramesFor(id, sent + ds))
  {
    var fs := FramesFor(id, ds);
    FramesForJoin(id, sent, ds);
    CaughtMore(conns[id], FramesFor(id, sent), fs);
    assert Deliver(conns, ds)[id] == conns[id].(out := conns[id].out + fs);
  }

  lemma TargetsAreKnown(cfg: EndpointConfig, b: Broker, order: seq<Subscription>)
    requires Seen(b) && Enabled(cfg, b, HandleApi(order))
    ensures forall i :: 0 <= i < |order| ==> order[i].conn in b.conns
  {
    forall i | 0 <= i < |order| ensures order[i].conn in b.conns {
      assert order[i] in Targets(b.index, b.api[0]);
      assert PastConnecting(b.conns, order[i].conn);
    }
  }

  lemma HandleApiKeepsSent(cfg: EndpointConfig, b: Broker, order: seq<Subscription>)
    requires Seen(b) && SentOk(b) && Enabled(cfg, b, HandleApi(order))
    ensures SentOk(Step(cfg, b, HandleApi(order)))
  {
    var ds := Deliveries(order, b.api[0].body);
    TargetsAreKnown(cfg, b, order);
    forall id | id in b.conns ensures Caught(Deliver(b.conns, ds)[id], FramesFor(id, b.sent + ds)) {
      DeliverCaught(b.conns, b.sent, ds, id);
    }
  }

  lemma MoveKeepsSent(cfg: EndpointConfig, b: Broker, a: Action)
    requires ConnsOk(b.conns) && SentOk(b) && Enabled(cfg, b, a)
    requires a.Receive? || a.WriteOut? || a.Beat? || a.HangUp?
    ensures SentOk(Step(cfg, b, a))
  {
    MovedCaught(cfg, b, a, FramesFor(a.id, b.sent));
    assert Step(cfg, b, a).conns == b.conns[a.id := Moved(cfg, b.conns[a.id], a)];
  }

  lemma StepKeepsSent(cfg: EndpointConfig, b: Broker, a: Action)
    requires Inv(cfg, b) && SentOk(b)
    ensures SentOk(Step(cfg, b, a))
  {
    if Enabled(cfg, b, a) {
      match a
      case HandleApi(order) => HandleApiKeepsSent(cfg, b, order);
      case Accept(id) => NoFramesFor(id, b.sent);
      case Receive(_, _, _, _) => MoveKeepsSent(cfg, b, a);
      case WriteOut(_, _) => MoveKeepsSent(cfg, b, a);
      case Beat(_, _) => MoveKeepsSent(cfg, b, a);
      case HangUp(_) => MoveKeepsSent(cfg, b, a);
      case _ => assert Step(cfg, b, a).conns == b.conns && Step(cfg, b, a).sent == b.sent;
    }
  }

  /**
    In every run, a connection's MESSAGE frames are exactly those the server sent to it,
    in order: what the client has read, followed by what waits to be written, is all of
    them while the connection is not closed; afterwards the client has read a prefix.
   */
  lemma {:induction false} ClientsReadWhatIsSent(cfg: EndpointConfig, actions: seq<Action>)
    ensures SentOk(Run(cfg, actions))
  {
    if actions != [] {
      ClientsReadWhatIsSent(cfg, actions[..|actions| - 1]);
      RunKeeps(cfg, actions[..|actions| - 1]);
      StepKeepsSent(cfg, Run(cfg, actions[..|actions| - 1]), actions[|actions| - 1]);
    }
  }
}
