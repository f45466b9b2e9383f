/**
  The whole STOMP broker as a state machine: any number of connections, the FIFO
  event queue, the server loop with its index and callbacks, the endpoint's mappings
  and the bus channel table. An action is one turn of one goroutine; a run is any
  sequence of actions, so every interleaving is a run. An action that cannot happen
  in a state leaves it unchanged.
 */
module Broker {
  import opened Options
  import opened Routing
  import opened Subscriptions
  import opened Connection
  import opened Server
  import opened Endpoint

  /** An event the server loop has taken from the queue, and the bus channels there were then. */
  datatype Turn = Turn(event: Event, table: set<string>)

  /**
    `handled`: the turns of the server loop over `queue`; `external`: the channels
    others created and did not destroy; `forwarding`: goroutines of the endpoint's message
    handlers on their way to the server; `sent`: what the server handed to connections;
    `requests`: what reached the bus.
   */
  datatype Broker = Broker(
    conns: map<string, Conn>,
    queue: seq<Event>,
    handled: seq<Turn>,
    index: Index,
    calls: seq<Call>,
    endpoint: EndpointState,
    external: set<string>,
    requests: seq<BusRequest>,
    forwarding: multiset<ApiEvent>,
    api: seq<ApiEvent>,
    sent: seq<Delivery>)

  datatype Action =
    /** A client connects; the Starting event is queued by another goroutine, later. */
    | Accept(id: string)
    | Announce(id: string)
    /** The three arms of a connection's loop, and the end of its input. */
    | Receive(id: string, frame: ClientFrame, ok: bool, okError: bool)
    | WriteOut(id: string, ok: bool)
    | Beat(id: string, ok: bool)
    | HangUp(id: string)
    /** The two arms of the server loop. */
    | HandleEvent(dropped: seq<Subscription>)
    | HandleApi(order: seq<Subscription>)
    /** A service sends on a bus channel; the handler goroutine reaches the server later. */
    | Publish(channel: string, message: BusMessage)
    | Enqueue(event: ApiEvent)
    /** Others create and destroy bus channels, auto-created ones too. */
    | Create(channel: string)
    | Destroy(channel: string)

  function Init(): Broker {
    Broker(map[], [], [], {}, [], EndpointState(map[], {}), {}, [], multiset{}, [], [])
  }

  function ConfigOf(cfg: EndpointConfig): ServerConfig {
    ServerConfig(cfg.heartbeat, AppPrefixes(cfg))
  }

  /** The subscriptions an API event addresses. */
  function Targets(index: Index, a: ApiEvent): Index {
    match a
    case SendMessage(d, _) => AtDestination(index, d)
    case SendPrivateMessage(c, d, _) => OfConn(AtDestination(index, d), c)
  }

  function FramesFor(id: string, ds: seq<Delivery>): seq<OutFrame> {
    if ds == [] then []
    else (if ds[0].conn == id then [ds[0].frame] else []) + FramesFor(id, ds[1..])
  }

  function Deliver(conns: map<string, Conn>, ds: seq<Delivery>): map<string, Conn> {
    map id | id in conns :: conns[id].(out := conns[id].out + FramesFor(id, ds))
  }

  function RequestsFor(cfg: EndpointConfig, e: Event): seq<BusRequest> {
    if !e.IncomingMessage? || !Accepts(AppPrefixes(cfg), e.destination) then []
    else match Bridge(cfg, e.destination, e.body, e.conn)
      case None => []
      case Some(r) => [r]
  }

  /** `SendRequestMessage` sends nothing on a channel that does not exist; its error is ignored. */
  function Reaching(cfg: EndpointConfig, t: Turn): seq<BusRequest> {
    var rs := RequestsFor(cfg, t.event);
    if rs != [] && rs[0].channel in t.table then rs else []
  }

  ghost predicate Alive(b: Broker, id: string) {
    id in b.conns && !b.conns[id].phase.Closed?
  }

  ghost predicate Enabled(cfg: EndpointConfig, b: Broker, a: Action) {
    match a
    case Accept(id) => id !in b.conns && NoHash(id)
    case Announce(id) => id in b.conns
    case Receive(id, _, _, _) => Alive(b, id)
    case WriteOut(id, _) => Alive(b, id) && b.conns[id].out != []
    case Beat(id, _) => Alive(b, id) && b.conns[id].writeTimeout > 0
    case HangUp(id) => Alive(b, id)
    case HandleEvent(dropped) => b.queue != [] && IsDropOrder(b.index, b.queue[0], dropped)
    case HandleApi(order) => b.api != [] && Enumerates(order, Targets(b.index, b.api[0]))
    case Publish(ch, _) => ch in b.endpoint.channels
    case Enqueue(e) => e in b.forwarding
    case Create(_) => true
    case Destroy(_) => true
  }

  /** The connection a connection's own action leaves behind. */
  function Moved(cfg: EndpointConfig, c: Conn, a: Action): Conn {
    match a
    case Receive(_, f, ok, okError) => OnInFrame(c, ConfigOf(cfg), f, ok, okError)
    case WriteOut(_, ok) => if c.out != [] then OnOutFrame(c, ok) else c
    case Beat(_, ok) => OnTimer(c, ok)
    case HangUp(_) => Close(c)
    case _ => c
  }

  function MoveConn(b: Broker, c: Conn, c': Conn): Broker {
    b.(conns := b.conns[c.id := c'], queue := b.queue + NewEvents(c, c'))
  }

  function Handled(cfg: EndpointConfig, b: Broker, dropped: seq<Subscription>): Broker
    requires b.queue != []
  {
    var e := b.queue[0];
    var t := Turn(e, b.endpoint.channels);
    var calls := CallsFor(b.index, e, dropped);
    b.(queue := b.queue[1..],
       handled := b.handled + [t],
       index := Apply(b.index, e),
       calls := b.calls + calls,
       endpoint := OnCalls(cfg, b.endpoint, calls),
       requests := b.requests + Reaching(cfg, t))
  }

  ghost function Step(cfg: EndpointConfig, b: Broker, a: Action): Broker {
    if !Enabled(cfg, b, a) then b
    else match a
      case Accept(id) => b.(conns := b.conns[id := NewConn(id)])
      case Announce(id) => b.(queue := b.queue + [ConnectionStarting(id)])
      case HandleEvent(dropped) => Handled(cfg, b, dropped)
      case HandleApi(order) =>
        var ds := Deliveries(order, b.api[0].body);
        b.(api := b.api[1..], conns := Deliver(b.conns, ds), sent := b.sent + ds)
      case Publish(ch, m) =>
        var f := Forward(cfg, b.endpoint, ch, m);
        if f.None? then b else b.(forwarding := b.forwarding + multiset{f.value})
      case Enqueue(e) => b.(forwarding := b.forwarding - multiset{e}, api := b.api + [e])
      case Create(ch) => b.(endpoint := CreateByOther(b.endpoint, ch), external := b.external + {ch})
      case Destroy(ch) => b.(endpoint := DestroyByOther(b.endpoint, ch), external := b.external - {ch})
      case _ => MoveConn(b, b.conns[a.id], Moved(cfg, b.conns[a.id], a))
  }

  ghost function Run(cfg: EndpointConfig, actions: seq<Action>): Broker {
    if actions == [] then Init()
    else Step(cfg, Run(cfg, actions[..|actions| - 1]), actions[|actions| - 1])
  }

  /**
    A connection's own action is one turn of its loop: the frame, the first waiting frame,
    the heart-beat or the end. Its new events are queued; nobody else is touched.
   */
  lemma ConnectionActs(cfg: EndpointConfig, b: Broker, a: Action)
    requires Enabled(cfg, b, a) && (a.Receive? || a.WriteOut? || a.Beat? || a.HangUp?) && b.conns[a.id].id == a.id
    ensures var c, b' := b.conns[a.id], Step(cfg, b, a);
            && b'.conns.Keys == b.conns.Keys
            && (forall id :: id in b.conns && id != a.id ==> b'.conns[id] == b.conns[id])
            && b'.queue == b.queue + NewEvents(c, b'.conns[a.id])
            && (a.Receive? ==> b'.conns[a.id] == OnInFrame(c, ConfigOf(cfg), a.frame, a.ok, a.okError))
            && (a.WriteOut? ==> b'.conns[a.id] == OnOutFrame(c, a.ok))
            && (a.Beat? ==> b'.conns[a.id] == OnTimer(c, a.ok))
            && (a.HangUp? && !c.closeDone ==> b'.conns[a.id].phase.Closed?)
  {
  }

  // ----- the invariant -----

  /** The union of the live connections' own tables. */
  ghost function Live(conns: map<string, Conn>): Index {
    set id, t | id in conns && t in LiveOf(conns[id]) :: t
  }

  ghost predicate ConnsOk(conns: map<string, Conn>) {
    forall id :: id in conns ==> conns[id].id == id && NoHash(id) && ConnInv(conns[id])
  }

  ghost predicate PastConnecting(conns: map<string, Conn>, id: string) {
    id in conns && !conns[id].phase.Connecting?
  }

  /** Only connections that got their CONNECTED frame appear in the index or subscribe in the queue. */
  ghost predicate Seen(b: Broker) {
    && (forall t :: t in b.index ==> PastConnecting(b.conns, t.conn))
    && (forall e :: e in b.queue && e.SubscribeToTopic? ==> PastConnecting(b.conns, e.conn))
  }

  ghost predicate IndexOk(b: Broker) {
    && Drain(b.index, b.queue) == Live(b.conns)
    && WellFormed(b.index, b.queue)
    && Functional(b.index)
  }

  ghost predicate Inv(cfg: EndpointConfig, b: Broker) {
    ConnsOk(b.conns) && Seen(b) && IndexOk(b) && Agrees(cfg, b.endpoint, b.index) && Balanced(b.calls, b.index)
  }

  /** What one connection contributes. */
  ghost function LiveAt(conns: map<string, Conn>, id: string): Index {
    if id in conns then LiveOf(conns[id]) else {}
  }

  lemma LiveMember(conns: map<string, Conn>, t: Subscription)
    requires ConnsOk(conns)
    ensures t in Live(conns) <==> t in LiveAt(conns, t.conn)
  {
    if t in Live(conns) {
      var id :| id in conns && t in LiveOf(conns[id]);
      LiveOfHolds(conns[id]);
    }
  }

  lemma LiveEqual(conns: map<string, Conn>, conns': map<string, Conn>)
    requires ConnsOk(conns) && ConnsOk(conns')
    requires forall id :: LiveAt(conns', id) == LiveAt(conns, id)
    ensures Live(conns') == Live(conns)
  {
    forall t ensures t in Live(conns') <==> t in Live(conns) {
      LiveMember(conns, t);
      LiveMember(conns', t);
    }
  }

  /** One connection's event does to the union what it does to that connection's table. */
  lemma LiveAfterEvent(conns: map<string, Conn>, c': Conn, e: Event)
    requires ConnsOk(conns) && c'.id in conns && ConnInv(c') && Tells(conns[c'.id], c', e)
    ensures Legal(Live(conns), e)
    ensures Live(conns[c'.id := c']) == Apply(Live(conns), e)
  {
    var conns' := conns[c'.id := c'];
    forall t
      ensures t in Live(conns') <==> t in Apply(Live(conns), e)
      ensures t in Live(conns) && t.conn == e.conn ==> t in LiveOf(conns[c'.id])
    {
      LiveMember(conns, t);
      LiveMember(conns', t);
      ApplyIsLocal(Live(conns), LiveOf(conns[c'.id]), e, t);
    }
    LiveMember(conns, Subscription(if e.UnsubscribeFromTopic? then e.destination else "", e.conn,
                                   if e.UnsubscribeFromTopic? then e.id else ""));
  }

  lemma MoveKeepsIndex(b: Broker, c': Conn)
    requires ConnsOk(b.conns) && IndexOk(b)
    requires c'.id in b.conns && ConnInv(c') && FaithfulStep(b.conns[c'.id], c')
    ensures IndexOk(MoveConn(b, b.conns[c'.id], c'))
  {
    var c := b.conns[c'.id];
    var b' := MoveConn(b, c, c');
    if Quiet(c, c') {
      assert b'.queue == b.queue;
      LiveEqual(b.conns, b'.conns);
    } else {
      var e :| Tells(c, c', e);
      assert NewEvents(c, c') == [e];
      LiveAfterEvent(b.conns, c', e);
      DrainAppend(b.index, b.queue, e);
      WellFormedAppend(b.index, b.queue, e);
    }
  }

  lemma MoveKeepsSeen(b: Broker, c': Conn)
    requires ConnsOk(b.conns) && Seen(b) && c'.id in b.conns && FaithfulStep(b.conns[c'.id], c')
    ensures Seen(MoveConn(b, b.conns[c'.id], c'))
  {
    var c := b.conns[c'.id];
    var b' := MoveConn(b, c, c');
    if !Quiet(c, c') {
      var e :| Tells(c, c', e);
      assert NewEvents(c, c') == [e];
    }
  }

  lemma MoveKeeps(cfg: EndpointConfig, b: Broker, c': Conn)
    requires Inv(cfg, b)
    requires c'.id in b.conns && ConnInv(c') && FaithfulStep(b.conns[c'.id], c')
    ensures Inv(cfg, MoveConn(b, b.conns[c'.id], c'))
  {
    var c := b.conns[c'.id];
    var b' := MoveConn(b, c, c');
    MoveKeepsIndex(b, c');
    MoveKeepsSeen(b, c');
  }

  lemma MovedOk(cfg: EndpointConfig, b: Broker, a: Action)
    requires ConnsOk(b.conns) && Enabled(cfg, b, a)
    requires a.Receive? || a.WriteOut? || a.Beat? || a.HangUp?
    ensures ConnInv(Moved(cfg, b.conns[a.id], a)) && FaithfulStep(b.conns[a.id], Moved(cfg, b.conns[a.id], a))
  {
    var c := b.conns[a.id];
    match a
    case Receive(_, f, ok, okError) => InFrameKeeps(c, ConfigOf(cfg), f, ok, okError);
    case WriteOut(_, ok) => OutFrameKeeps(c, ok);
    case Beat(_, ok) => TimerKeeps(c, ok);
    case HangUp(_) => CloseKeeps(c);
  }

  lemma ConnActionKeeps(cfg: EndpointConfig, b: Broker, a: Action)
    requires Inv(cfg, b) && Enabled(cfg, b, a)
    requires a.Receive? || a.WriteOut? || a.Beat? || a.HangUp?
    ensures Inv(cfg, Step(cfg, b, a))
  {
    MovedOk(cfg, b, a);
    MoveKeeps(cfg, b, Moved(cfg, b.conns[a.id], a));
  }

  lemma AcceptKeeps(cfg: EndpointConfig, b: Broker, id: string)
    requires Inv(cfg, b) && Enabled(cfg, b, Accept(id))
    ensures Inv(cfg, Step(cfg, b, Accept(id)))
  {
    var b' := Step(cfg, b, Accept(id));
    NewConnOk(id);
    LiveEqual(b.conns, b'.conns);
  }

  lemma AnnounceKeeps(cfg: EndpointConfig, b: Broker, id: string)
    requires Inv(cfg, b)
    ensures Inv(cfg, b.(queue := b.queue + [ConnectionStarting(id)]))
  {
    DrainAppend(b.index, b.queue, ConnectionStarting(id));
    WellFormedAppend(b.index, b.queue, ConnectionStarting(id));
  }

  lemma HandleEventKeeps(cfg: EndpointConfig, b: Broker, dropped: seq<Subscription>)
    requires Inv(cfg, b) && Enabled(cfg, b, HandleEvent(dropped))
    ensures Inv(cfg, Handled(cfg, b, dropped))
  {
    var e := b.queue[0];
    LegalKeepsFunctional(b.index, e);
    EventKeepsBalance(b.calls, b.index, e, dropped);
    EventAgrees(cfg, b.endpoint, b.index, e, dropped);
  }

  lemma DeliverKeeps(conns: map<string, Conn>, ds: seq<Delivery>)
    requires ConnsOk(conns)
    requires forall i :: 0 <= i < |ds| ==> PastConnecting(conns, ds[i].conn)
    ensures ConnsOk(Deliver(conns, ds)) && Live(Deliver(conns, ds)) == Live(conns)
  {
    forall id | id in conns ensures ConnInv(Deliver(conns, ds)[id]) {
      if conns[id].phase.Connecting? {
        NoFramesFor(id, ds);
      }
    }
    LiveEqual(conns, Deliver(conns, ds));
  }

  lemma {:induction false} NoFramesFor(id: string, ds: seq<Delivery>)
    requires forall i :: 0 <= i < |ds| ==> ds[i].conn != id
    ensures FramesFor(id, ds) == []
  {
    if ds != [] {
      NoFramesFor(id, ds[1..]);
    }
  }

  lemma HandleApiKeeps(cfg: EndpointConfig, b: Broker, order: seq<Subscription>)
    requires Inv(cfg, b) && Enabled(cfg, b, HandleApi(order))
    ensures Inv(cfg, Step(cfg, b, HandleApi(order)))
  {
    var ds := Deliveries(order, b.api[0].body);
    forall i | 0 <= i < |ds| ensures PastConnecting(b.conns, ds[i].conn) {
      assert order[i] in Targets(b.index, b.api[0]);
    }
    DeliverKeeps(b.conns, ds);
  }

  lemma OthersKeep(cfg: EndpointConfig, b: Broker, ch: string)
    requires Agrees(cfg, b.endpoint, b.index)
    ensures Agrees(cfg, CreateByOther(b.endpoint, ch), b.index)
    ensures Agrees(cfg, DestroyByOther(b.endpoint, ch), b.index)
  {
    SameMappingsAgree(cfg, b.endpoint, CreateByOther(b.endpoint, ch), b.index);
    SameMappingsAgree(cfg, b.endpoint, DestroyByOther(b.endpoint, ch), b.index);
  }

  lemma StepKeeps(cfg: EndpointConfig, b: Broker, a: Action)
    requires Inv(cfg, b)
    ensures Inv(cfg, Step(cfg, b, a))
  {
    if Enabled(cfg, b, a) {
      match a
      case Accept(id) => AcceptKeeps(cfg, b, id);
      case Announce(id) => AnnounceKeeps(cfg, b, id);
      case HandleEvent(dropped) => HandleEventKeeps(cfg, b, dropped);
      case HandleApi(order) => HandleApiKeeps(cfg, b, order);
      case Publish(_, _) =>
      case Enqueue(_) =>
      case Create(ch) => OthersKeep(cfg, b, ch);
      case Destroy(ch) => OthersKeep(cfg, b, ch);
      case _ => ConnActionKeeps(cfg, b, a);
    }
  }

  /** Every run keeps the invariant. */
  lemma {:induction false} RunKeeps(cfg: EndpointConfig, actions: seq<Action>)
    ensures Inv(cfg, Run(cfg, actions))
  {
    if actions == [] {
      InitOk(cfg);
    } else {
      RunKeeps(cfg, actions[..|actions| - 1]);
      StepKeeps(cfg, Run(cfg, actions[..|actions| - 1]), actions[|actions| - 1]);
    }
  }

  lemma InitOk(cfg: EndpointConfig)
    ensures Inv(cfg, Init())
  {
    var b := Init();
    forall ch ensures AgreesOn(cfg, b.endpoint, b.index, ch) {
      assert Resolving(cfg, {}, ch) == {};
    }
    assert Live(b.conns) == {};
  }

  // ----- the theorems, over every run -----

  /**
    Once the queue is drained, the server's index is exactly what the connections
    that are not closed hold; nothing is left of a closed one.
   */
  lemma DrainedIndexIsLive(cfg: EndpointConfig, actions: seq<Action>, t: Subscription)
    ensures var b := Run(cfg, actions);
            t in Drain(b.index, b.queue) <==>
            t.conn in b.conns && !b.conns[t.conn].phase.Closed?
            && t.id in b.conns[t.conn].subs && b.conns[t.conn].subs[t.id] == t.destination
  {
    RunKeeps(cfg, actions);
    var b := Run(cfg, actions);
    LiveMember(b.conns, t);
    if t.conn in b.conns {
      LiveOfHolds(b.conns[t.conn]);
    }
  }

  /** A channel is mapped iff an unprotected indexed subscription resolves to it, under exactly their keys. */
  lemma MappingsFollowIndex(cfg: EndpointConfig, actions: seq<Action>, ch: string)
    ensures var b := Run(cfg, actions);
            && (ch in b.endpoint.mappings <==> exists t :: t in b.index && Maps(cfg, t, ch))
            && (ch in b.endpoint.mappings ==>
                  && b.endpoint.mappings[ch].subs != {}
                  && forall c, s | NoHash(c) :: (Key(c, s) in b.endpoint.mappings[ch].subs
                       <==> exists t :: t in b.index && Maps(cfg, t, ch) && t.conn == c && t.id == s))
  {
    RunKeeps(cfg, actions);
    var b := Run(cfg, actions);
    assert AgreesOn(cfg, b.endpoint, b.index, ch);
    if t :| t in b.index && Maps(cfg, t, ch) {
      assert t in Resolving(cfg, b.index, ch);
      assert Key(t.conn, t.id) in b.endpoint.mappings[ch].subs;
    }
    if ch in b.endpoint.mappings {
      var t0 :| t0 in Resolving(cfg, b.index, ch);
      assert t0 in b.index && Maps(cfg, t0, ch);
      forall c, s | NoHash(c)
        ensures Key(c, s) in b.endpoint.mappings[ch].subs
           <==> exists t :: t in b.index && Maps(cfg, t, ch) && t.conn == c && t.id == s
      {
        if Key(c, s) in b.endpoint.mappings[ch].subs {
          var t :| t in Resolving(cfg, b.index, ch) && Key(t.conn, t.id) == Key(c, s);
          KeyInjective(t.conn, t.id, c, s);
        }
        if t :| t in b.index && Maps(cfg, t, ch) && t.conn == c && t.id == s {
          assert t in Resolving(cfg, b.index, ch);
        }
      }
    }
  }

  /**
    How a name stands after a run. Only what others do to it while it is auto-created
    disturbs it: creating it is `Taken`, until they touch the name again; destroying it
    is `Bereft`, until then or until its mapping goes.
   */
  ghost function StandingOf(cfg: EndpointConfig, actions: seq<Action>, ch: string): Standing {
    if actions == [] then Kept
    else
      var n := |actions| - 1;
      var a := actions[n];
      if (a.Create? || a.Destroy?) && a.channel == ch then
        if ch !in AutoMapped(Run(cfg, actions[..n]).endpoint) then Kept else if a.Create? then Taken else Bereft
      else Later(Run(cfg, actions).endpoint, ch, StandingOf(cfg, actions[..n], ch))
  }

  ghost predicate IsKept(cfg: EndpointConfig, actions: seq<Action>, ch: string) {
    StandingOf(cfg, actions, ch).Kept?
  }

  lemma {:induction false} RunStands(cfg: EndpointConfig, actions: seq<Action>, ch: string)
    ensures var b := Run(cfg, actions); Stands(b.endpoint, b.external, ch, StandingOf(cfg, actions, ch))
  {
    if actions != [] {
      var n := |actions| - 1;
      RunStands(cfg, actions[..n], ch);
      StepStands(cfg, Run(cfg, actions[..n]), actions[n], ch, StandingOf(cfg, actions[..n], ch));
    }
  }

  lemma StepStands(cfg: EndpointConfig, b: Broker, a: Action, ch: string, st: Standing)
    requires Stands(b.endpoint, b.external, ch, st)
    ensures var b' := Step(cfg, b, a);
            Stands(b'.endpoint, b'.external, ch,
                   if (a.Create? || a.Destroy?) && a.channel == ch then
                     if ch !in AutoMapped(b.endpoint) then Kept else if a.Create? then Taken else Bereft
                   else Later(b'.endpoint, ch, st))
  {
    if a.HandleEvent? && Enabled(cfg, b, a) {
      EventStands(cfg, b.endpoint, b.external, b.index, b.queue[0], a.dropped, ch, st);
    }
    if a.Create? || a.Destroy? {
      assert AutoMapped(Step(cfg, b, a).endpoint) == AutoMapped(b.endpoint);
    }
  }

  lemma ConservedIffKept(cfg: EndpointConfig, actions: seq<Action>)
    ensures var b := Run(cfg, actions);
            Conserved(b.endpoint, b.external) <==> forall ch :: IsKept(cfg, actions, ch)
  {
    var b := Run(cfg, actions);
    if Conserved(b.endpoint, b.external) {
      forall ch ensures IsKept(cfg, actions, ch) {
        RunStands(cfg, actions, ch);
      }
    }
    if forall ch :: IsKept(cfg, actions, ch) {
      forall ch ensures Stands(b.endpoint, b.external, ch, Kept) {
        assert IsKept(cfg, actions, ch);
        RunStands(cfg, actions, ch);
      }
      AllKept(b.endpoint, b.external);
    }
  }

  /** Others never touched the name while it was auto-created. */
  ghost predicate LeftAlone(cfg: EndpointConfig, actions: seq<Action>, ch: string) {
    forall i :: 0 <= i < |actions| && (actions[i] == Create(ch) || actions[i] == Destroy(ch)) ==>
      ch !in AutoMapped(Run(cfg, actions[..i]).endpoint)
  }

  lemma {:induction false} LeftAloneIsKept(cfg: EndpointConfig, actions: seq<Action>, ch: string)
    requires LeftAlone(cfg, actions, ch)
    ensures IsKept(cfg, actions, ch)
  {
    if actions != [] {
      var n := |actions| - 1;
      forall i | 0 <= i < n && (actions[..n][i] == Create(ch) || actions[..n][i] == Destroy(ch))
        ensures ch !in AutoMapped(Run(cfg, actions[..n][..i]).endpoint)
      {
        assert actions[i] == actions[..n][i] && actions[..n][..i] == actions[..i];
      }
      LeftAloneIsKept(cfg, actions[..n], ch);
    }
  }

  /** Once every connection is closed and the queue is drained, exactly the taken names are missing. */
  lemma TableOnceQuiet(cfg: EndpointConfig, actions: seq<Action>, ch: string)
    requires var b := Run(cfg, actions); b.queue == [] && forall id :: id in b.conns ==> b.conns[id].phase.Closed?
    ensures var b := Run(cfg, actions);
            && b.endpoint.mappings == map[]
            && (ch in b.endpoint.channels <==> ch in b.external && !StandingOf(cfg, actions, ch).Taken?)
  {
    RunKeeps(cfg, actions);
    RunStands(cfg, actions, ch);
    var b := Run(cfg, actions);
    assert Live(b.conns) == {};
    EmptyIndexUnmaps(cfg, b.endpoint);
  }

  /**
    In every run, whatever others do to channels: the table is what they created plus the
    mapped auto-created channels, apart, exactly when every name is kept, and every name
    others left alone while it was auto-created is kept. When every connection is closed
    and the queue is drained, the table is what others hold, less exactly the taken names.
   */
  lemma ChannelsConserved(cfg: EndpointConfig, actions: seq<Action>, ch: string)
    ensures var b := Run(cfg, actions);
            && (Conserved(b.endpoint, b.external) <==> forall ch :: IsKept(cfg, actions, ch))
            && (LeftAlone(cfg, actions, ch) ==> IsKept(cfg, actions, ch))
            && (b.queue == [] && (forall id :: id in b.conns ==> b.conns[id].phase.Closed?) ==>
                  && b.endpoint.mappings == map[]
                  && (ch in b.endpoint.channels <==> ch in b.external && !StandingOf(cfg, actions, ch).Taken?))
  {
    ConservedIffKept(cfg, actions);
    if LeftAlone(cfg, actions, ch) {
      LeftAloneIsKept(cfg, actions, ch);
    }
    var b := Run(cfg, actions);
    if b.queue == [] && forall id :: id in b.conns ==> b.conns[id].phase.Closed? {
      TableOnceQuiet(cfg, actions, ch);
    }
  }

  /** Per subscription the callbacks alternate, starting with subscribe; one is open iff it is indexed. */
  lemma CallbacksAlternate(cfg: EndpointConfig, actions: seq<Action>, t: Subscription)
    ensures var b := Run(cfg, actions);
            Alternates(About(b.calls, t)) && (|About(b.calls, t)| % 2 == 1 <==> t in b.index)
  {
    RunKeeps(cfg, actions);
  }

  /** What reached a client and what its connection told the server, at any time of any run. */
  lemma ConnectionTraces(cfg: EndpointConfig, actions: seq<Action>, id: string)
    requires id in Run(cfg, actions).conns
    ensures var c := Run(cfg, actions).conns[id];
            InLanguage(c.written) && Numbered(c.written) && TellsSession(c.emitted, id, c.phase.Closed?)
  {
    RunKeeps(cfg, actions);
    TracesOf(Run(cfg, actions).conns[id]);
  }
}
