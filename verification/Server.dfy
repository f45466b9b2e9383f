/**
  The STOMP server's event handling and frame delivery (stompserver/server.go), on
  the nested maps the source updates, proved against the flat index.
 */
module Server {
  import opened Options
  import opened Routing
  import opened Subscriptions
  import opened Connection

  /** The `subscription` record shared by a connection and the server. */
  datatype Record = Record(id: string, destination: string)

  type ConnSubs = map<string, Record>
  type SubsMap = map<string, map<string, ConnSubs>>

  datatype Delivery = Delivery(conn: string, frame: OutFrame)

  datatype AppRequest = AppRequest(destination: string, body: string, conn: string)

  ghost predicate Lists(m: SubsMap, t: Subscription) {
    t.destination in m && t.conn in m[t.destination] && t.id in m[t.destination][t.conn]
  }

  ghost function Flatten(m: SubsMap): Index {
    set d, c, s | d in m && c in m[d] && s in m[d][c] :: Subscription(d, c, s)
  }

  lemma FlattenLists(m: SubsMap)
    ensures forall t :: t in Flatten(m) <==> Lists(m, t)
  {
    forall t | Lists(m, t) ensures t in Flatten(m) {
      assert t == Subscription(t.destination, t.conn, t.id);
    }
  }

  /** Records carry the keys they are filed under. */
  ghost predicate Filed(m: SubsMap) {
    forall d, c, s :: d in m && c in m[d] && s in m[d][c] ==> m[d][c][s] == Record(s, d)
  }

  ghost function Named(subs: ConnSubs, conn: string): Index {
    set s | s in subs :: Subscription(subs[s].destination, conn, s)
  }

  /** The same at one destination, where the connection may have none. */
  ghost function NamedIn(subs: map<string, ConnSubs>, conn: string): Index {
    if conn in subs then Named(subs[conn], conn) else {}
  }

  function MessageTo(t: Subscription, body: string): Delivery {
    Delivery(t.conn, OutMessage(t.destination, t.id, body))
  }

  function Deliveries(order: seq<Subscription>, body: string): seq<Delivery> {
    seq(|order|, i requires 0 <= i < |order| => MessageTo(order[i], body))
  }

  class StompServer {
    const config: StompConfig
    var connectionsMap: set<string>
    var subscriptionsMap: SubsMap
    /** Callbacks fired, application requests raised and frames handed to connections, in order. */
    var calls: seq<Call>
    var requests: seq<AppRequest>
    var sent: seq<Delivery>

    ghost predicate Valid()
      reads this
    {
      Filed(subscriptionsMap)
    }

    ghost function Indexed(): Index
      reads this
    {
      Flatten(subscriptionsMap)
    }

    constructor (config: StompConfig)
      ensures Valid() && Indexed() == {} && calls == [] && sent == [] && requests == []
      ensures this.config == config
    {
      this.config := config;
      connectionsMap, subscriptionsMap, calls, requests, sent := {}, map[], [], [], [];
    }

    method OnSubscribe(conn: string, id: string, destination: string)
      requires Valid()
      modifies this`subscriptionsMap, this`calls
      ensures Valid()
      ensures Indexed() == old(Indexed()) + {Subscription(destination, conn, id)}
      ensures calls == old(calls) + [SubscribeCall(Subscription(destination, conn, id))]
    {
      var subsMap := if destination in subscriptionsMap then subscriptionsMap[destination] else map[];
      var conSub: ConnSubs := if conn in subsMap then subsMap[conn] else map[];
      conSub := conSub[id := Record(id, destination)];
      FilePut(subscriptionsMap, conn, id, destination);
      subscriptionsMap := subscriptionsMap[destination := subsMap[conn := conSub]];
      calls := calls + [SubscribeCall(Subscription(destination, conn, id))];
    }

    method OnUnsubscribe(conn: string, id: string, destination: string)
      requires Valid()
      modifies this`subscriptionsMap, this`calls
      ensures Valid()
      ensures Indexed() == old(Indexed()) - {Subscription(destination, conn, id)}
      ensures calls == old(calls) +
                       if Subscription(destination, conn, id) in old(Indexed())
                       then [UnsubscribeCall(Subscription(destination, conn, id))] else []
    {
      FlattenLists(subscriptionsMap);
      if destination in subscriptionsMap {
        var subs := subscriptionsMap[destination];
        if conn in subs && id in subs[conn] {
          subscriptionsMap := subscriptionsMap[destination := subs[conn := subs[conn] - {id}]];
          FlattenLists(subscriptionsMap);
          calls := calls + [UnsubscribeCall(Subscription(destination, conn, id))];
        }
      }
    }

    /** The inner loop of the close branch: announce one destination's subscriptions. */
    method AnnounceDrops(conn: string, subs: ConnSubs) returns (dropped: seq<Subscription>)
      requires forall s :: s in subs ==> subs[s].id == s
      modifies this`calls
      ensures Enumerates(dropped, Named(subs, conn))
      ensures calls == old(calls) + Drops(dropped)
    {
      var todo := subs.Keys;
      dropped := [];
      while todo != {}
        invariant todo <= subs.Keys
        invariant forall t :: t in dropped <==> t in Named(subs, conn) && t.id !in todo
        invariant forall i, j :: 0 <= i < j < |dropped| ==> dropped[i] != dropped[j]
        invariant calls == old(calls) + Drops(dropped)
      {
        var s :| s in todo;
        var t := Subscription(subs[s].destination, conn, subs[s].id);
        DropsAppend(dropped, t);
        calls := calls + [UnsubscribeCall(t)];
        dropped := dropped + [t];
        todo := todo - {s};
      }
    }

    /** One destination of the close loop. */
    method DropFrom(conn: string, d: string) returns (dropped: seq<Subscription>)
      requires d in subscriptionsMap && Valid()
      modifies this`subscriptionsMap, this`calls
      ensures subscriptionsMap == old(subscriptionsMap)[d := old(subscriptionsMap)[d] - {conn}]
      ensures Enumerates(dropped, NamedIn(old(subscriptionsMap)[d], conn))
      ensures calls == old(calls) + Drops(dropped)
    {
      dropped := [];
      if conn in subscriptionsMap[d] {
        var conSub := subscriptionsMap[d][conn];
        subscriptionsMap := subscriptionsMap[d := subscriptionsMap[d] - {conn}];
        dropped := AnnounceDrops(conn, conSub);
      } else {
        assert subscriptionsMap[d] - {conn} == subscriptionsMap[d];
      }
    }

    /** One turn of the close loop. */
    method CloseTurn(conn: string, d: string, ghost before: SubsMap, ghost todo: set<string>,
                     dropped: seq<Subscription>) returns (more: seq<Subscription>)
      requires Filed(before) && Closing(before, subscriptionsMap, todo, conn, dropped) && d in todo
      modifies this`subscriptionsMap, this`calls
      ensures Closing(before, subscriptionsMap, todo - {d}, conn, more)
      ensures forall cs :: old(calls) == cs + Drops(dropped) ==> calls == cs + Drops(more)
    {
      ghost var now := subscriptionsMap;
      PartwayFiled(before, now, todo, conn);
      var part := DropFrom(conn, d);
      PartwayStep(before, now, todo, conn, d, dropped, part);
      more := dropped + part;
    }

    method OnClosed(conn: string) returns (dropped: seq<Subscription>)
      requires Valid()
      modifies this`connectionsMap, this`subscriptionsMap, this`calls
      ensures Valid()
      ensures connectionsMap == old(connectionsMap) - {conn}
      ensures Indexed() == old(Indexed()) - OfConn(old(Indexed()), conn)
      ensures Enumerates(dropped, OfConn(old(Indexed()), conn))
      ensures calls == old(calls) + Drops(dropped)
    {
      connectionsMap := connectionsMap - {conn};
      ghost var before := subscriptionsMap;
      var todo := subscriptionsMap.Keys;
      dropped := [];
      PartwayStart(before, conn);
      while todo != {}
        invariant connectionsMap == old(connectionsMap) - {conn}
        invariant Closing(before, subscriptionsMap, todo, conn, dropped)
        invariant calls == old(calls) + Drops(dropped)
      {
        var d :| d in todo;
        dropped := CloseTurn(conn, d, before, todo, dropped);
        todo := todo - {d};
      }
      PartwayDone(before, subscriptionsMap, conn);
    }

    /** One event of the server loop. */
    method HandleConnectionEvent(e: Event) returns (dropped: seq<Subscription>)
      requires Valid()
      modifies this
      ensures Valid() && sent == old(sent)
      ensures Indexed() == Apply(old(Indexed()), e)
      ensures connectionsMap == if e.ConnectionStarting? then old(connectionsMap) + {e.conn}
                                else if e.ConnectionClosed? then old(connectionsMap) - {e.conn}
                                else old(connectionsMap)
      ensures IsDropOrder(old(Indexed()), e, dropped)
      ensures calls == old(calls) + CallsFor(old(Indexed()), e, dropped)
      ensures requests == old(requests) +
                          if e.IncomingMessage? && Accepts(config.appDestPrefix[..], e.destination)
                          then [AppRequest(e.destination, e.body, e.conn)] else []
    {
      dropped := [];
      match e
      case ConnectionStarting(c) => connectionsMap := connectionsMap + {c};
      case ConnectionEstablished(c) =>
      case ConnectionClosed(c) => dropped := OnClosed(c);
      case SubscribeToTopic(c, s, d) => OnSubscribe(c, s, d);
      case UnsubscribeFromTopic(c, s, d) => OnUnsubscribe(c, s, d);
      case IncomingMessage(c, d, body) =>
        var accepted := config.IsAppRequestDestination(d);
        if accepted {
          requests := requests + [AppRequest(d, body, c)];
        }
    }

    /** The inner loop of both send functions. */
    method SendToSubscriptions(conn: string, subs: ConnSubs, destination: string, body: string)
      returns (order: seq<Subscription>)
      requires forall s :: s in subs ==> subs[s] == Record(s, destination)
      modifies this`sent
      ensures Enumerates(order, Named(subs, conn))
      ensures sent == old(sent) + Deliveries(order, body)
    {
      var todo := subs.Keys;
      order := [];
      while todo != {}
        invariant todo <= subs.Keys
        invariant forall t :: t in order <==> t in Named(subs, conn) && t.id !in todo
        invariant forall i, j :: 0 <= i < j < |order| ==> order[i] != order[j]
        invariant sent == old(sent) + Deliveries(order, body)
      {
        var s :| s in todo;
        sent := sent + [Delivery(conn, OutMessage(destination, subs[s].id, body))];
        order := order + [Subscription(destination, conn, s)];
        todo := todo - {s};
      }
    }

    /** Broadcast: one frame per subscription on the destination, and no other. */
    method SendFrame(destination: string, body: string) returns (order: seq<Subscription>)
      requires Valid()
      modifies this`sent
      ensures Enumerates(order, AtDestination(Indexed(), destination))
      ensures sent == old(sent) + Deliveries(order, body)
    {
      order := [];
      FlattenLists(subscriptionsMap);
      ghost var there := AtDestination(Indexed(), destination);
      if destination in subscriptionsMap {
        var subsMap := subscriptionsMap[destination];
        var todo := subsMap.Keys;
        while todo != {}
          invariant todo <= subsMap.Keys
          invariant Enumerates(order, set t | t in there && t.conn !in todo)
          invariant sent == old(sent) + Deliveries(order, body)
        {
          var c :| c in todo;
          ghost var done := set t | t in there && t.conn !in todo;
          var part := SendToSubscriptions(c, subsMap[c], destination, body);
          ThereStep(subscriptionsMap, destination, todo, c);
          EnumeratesJoin(order, done, part, Named(subsMap[c], c));
          order := order + part;
          todo := todo - {c};
        }
        assert (set t | t in there && t.conn !in todo) == there;
      }
    }

    /** Targeted send: the same restricted to one connection. */
    method SendFrameToClient(conn: string, destination: string, body: string) returns (order: seq<Subscription>)
      requires Valid()
      modifies this`sent
      ensures Enumerates(order, OfConn(AtDestination(Indexed(), destination), conn))
      ensures sent == old(sent) + Deliveries(order, body)
    {
      order := [];
      FlattenLists(subscriptionsMap);
      if destination in subscriptionsMap && conn in subscriptionsMap[destination] {
        NamedAt(subscriptionsMap, destination, conn);
        order := SendToSubscriptions(conn, subscriptionsMap[destination][conn], destination, body);
        assert Named(subscriptionsMap[destination][conn], conn) == OfConn(AtDestination(Indexed(), destination), conn);
      }
    }
  }

  /** The innermost map of a destination and a connection, as triples. */
  lemma NamedAt(m: SubsMap, d: string, c: string)
    requires Filed(m) && d in m && c in m[d]
    ensures forall t :: t in Named(m[d][c], c) <==> Lists(m, t) && t.destination == d && t.conn == c
  {
    forall t | Lists(m, t) && t.destination == d && t.conn == c ensures t in Named(m[d][c], c) {
      assert t == Subscription(m[d][c][t.id].destination, c, t.id);
    }
  }

  function Put(m: SubsMap, conn: string, id: string, destination: string): SubsMap {
    var subsMap := if destination in m then m[destination] else map[];
    var conSub: ConnSubs := if conn in subsMap then subsMap[conn] else map[];
    m[destination := subsMap[conn := conSub[id := Record(id, destination)]]]
  }

  lemma FilePut(m: SubsMap, conn: string, id: string, destination: string)
    requires Filed(m)
    ensures Filed(Put(m, conn, id, destination))
    ensures Flatten(Put(m, conn, id, destination)) == Flatten(m) + {Subscription(destination, conn, id)}
  {
    var m' := Put(m, conn, id, destination);
    forall t ensures t in Flatten(m') <==> t in Flatten(m) || t == Subscription(destination, conn, id) {
      FlattenLists(m);
      FlattenLists(m');
      assert Lists(m', t) <==> Lists(m, t) || t == Subscription(destination, conn, id);
    }
  }

  lemma ThereStep(m: SubsMap, d: string, todo: set<string>, c: string)
    requires Filed(m) && d in m && c in m[d] && c in todo
    ensures var there := AtDestination(Flatten(m), d);
            && (set t | t in there && t.conn !in todo - {c}) ==
               (set t | t in there && t.conn !in todo) + Named(m[d][c], c)
            && (set t | t in there && t.conn !in todo) !! Named(m[d][c], c)
  {
    FlattenLists(m);
    NamedAt(m, d, c);
  }

  /** The close loop has taken `conn` out of every destination but those in `todo`. */
  ghost predicate Partway(before: SubsMap, now: SubsMap, todo: set<string>, conn: string) {
    && todo <= before.Keys && now.Keys == before.Keys
    && forall d :: d in before ==> now[d] == if d in todo then before[d] else before[d] - {conn}
  }

  ghost function Gone(before: SubsMap, todo: set<string>, conn: string): Index {
    set t | t in Flatten(before) && t.conn == conn && t.destination !in todo
  }

  lemma GoneStep(before: SubsMap, todo: set<string>, conn: string, d: string)
    requires Filed(before) && d in todo && d in before
    ensures Gone(before, todo - {d}, conn) == Gone(before, todo, conn) + NamedIn(before[d], conn)
    ensures Gone(before, todo, conn) !! NamedIn(before[d], conn)
  {
    FlattenLists(before);
    if conn in before[d] {
      NamedAt(before, d, conn);
    }
  }

  /** The close loop on its way: what is still filed and what was announced. */
  ghost predicate Closing(before: SubsMap, now: SubsMap, todo: set<string>, conn: string, dropped: seq<Subscription>) {
    Partway(before, now, todo, conn) && Enumerates(dropped, Gone(before, todo, conn))
  }

  lemma PartwayStart(before: SubsMap, conn: string)
    ensures Closing(before, before, before.Keys, conn, [])
  {
    FlattenLists(before);
  }

  lemma PartwayFiled(before: SubsMap, now: SubsMap, todo: set<string>, conn: string)
    requires Filed(before) && Partway(before, now, todo, conn)
    ensures Filed(now)
  {
  }

  lemma PartwayStep(before: SubsMap, now: SubsMap, todo: set<string>, conn: string, d: string,
                    dropped: seq<Subscription>, part: seq<Subscription>)
    requires Filed(before) && d in todo && Partway(before, now, todo, conn)
    requires Enumerates(dropped, Gone(before, todo, conn)) && Enumerates(part, NamedIn(now[d], conn))
    ensures Partway(before, now[d := now[d] - {conn}], todo - {d}, conn)
    ensures Enumerates(dropped + part, Gone(before, todo - {d}, conn))
    ensures Drops(dropped + part) == Drops(dropped) + Drops(part)
  {
    GoneStep(before, todo, conn, d);
    EnumeratesJoin(dropped, Gone(before, todo, conn), part, NamedIn(before[d], conn));
    DropsJoin(dropped, part);
  }

  lemma PartwayDone(before: SubsMap, now: SubsMap, conn: string)
    requires Filed(before) && Partway(before, now, {}, conn)
    ensures Filed(now)
    ensures Flatten(now) == Flatten(before) - OfConn(Flatten(before), conn)
    ensures Gone(before, {}, conn) == OfConn(Flatten(before), conn)
  {
    FlattenLists(before);
    FlattenLists(now);
  }
}
