/**
  Connection events and the subscription index they are folded into
  (stompserver/server.go), with the nested maps flattened to a set of triples.
 */
module Subscriptions {

  datatype Subscription = Subscription(destination: string, conn: string, id: string)

  datatype Event =
    | ConnectionStarting(conn: string)
    | ConnectionEstablished(conn: string)
    | SubscribeToTopic(conn: string, id: string, destination: string)
    | UnsubscribeFromTopic(conn: string, id: string, destination: string)
    | IncomingMessage(conn: string, destination: string, body: string)
    | ConnectionClosed(conn: string)

  type Index = set<Subscription>

  function OfConn(index: Index, conn: string): Index {
    set t | t in index && t.conn == conn
  }

  function AtDestination(index: Index, destination: string): Index {
    set t | t in index && t.destination == destination
  }

  /** The effect of one event on the index. */
  function Apply(index: Index, e: Event): Index {
    match e
    case SubscribeToTopic(c, s, d) => index + {Subscription(d, c, s)}
    case UnsubscribeFromTopic(c, s, d) => index - {Subscription(d, c, s)}
    case ConnectionClosed(c) => index - OfConn(index, c)
    case _ => index
  }

  /** The index once every queued event has been handled. */
  function Drain(index: Index, queue: seq<Event>): Index
    decreases |queue|
  {
    if queue == [] then index else Drain(Apply(index, queue[0]), queue[1..])
  }

  /** No connection holds one subscription id on two destinations. */
  ghost predicate Functional(index: Index) {
    forall t, u :: t in index && u in index && t.conn == u.conn && t.id == u.id ==> t == u
  }

  /** The events a connection may add when the index stands as given. */
  ghost predicate Legal(index: Index, e: Event) {
    match e
    case SubscribeToTopic(c, s, d) => forall t :: t in index ==> !(t.conn == c && t.id == s)
    case UnsubscribeFromTopic(c, s, d) => Subscription(d, c, s) in index
    case _ => true
  }

  /** Every queued event is legal at the moment it will be handled. */
  ghost predicate WellFormed(index: Index, queue: seq<Event>)
    decreases |queue|
  {
    queue == [] || (Legal(index, queue[0]) && WellFormed(Apply(index, queue[0]), queue[1..]))
  }

  lemma {:induction false} DrainAppend(index: Index, queue: seq<Event>, e: Event)
    ensures Drain(index, queue + [e]) == Apply(Drain(index, queue), e)
    decreases |queue|
  {
    if queue == [] {
      assert ([] + [e])[1..] == [];
      assert Drain(Apply(index, e), []) == Apply(index, e);
    } else {
      assert (queue + [e])[1..] == queue[1..] + [e];
      DrainAppend(Apply(index, queue[0]), queue[1..], e);
    }
  }

  lemma {:induction false} WellFormedAppend(index: Index, queue: seq<Event>, e: Event)
    requires WellFormed(index, queue) && Legal(Drain(index, queue), e)
    ensures WellFormed(index, queue + [e])
    decreases |queue|
  {
    if queue == [] {
      assert ([] + [e])[1..] == [];
    } else {
      assert (queue + [e])[1..] == queue[1..] + [e];
      WellFormedAppend(Apply(index, queue[0]), queue[1..], e);
    }
  }

  /** An event concerns the subscriptions of its own connection only. */
  lemma ApplyIsLocal(index: Index, own: Index, e: Event, t: Subscription)
    ensures t.conn != e.conn ==> (t in Apply(index, e) <==> t in index)
    ensures t.conn == e.conn && (t in index <==> t in own) ==> (t in Apply(index, e) <==> t in Apply(own, e))
  {
  }

  lemma LegalKeepsFunctional(index: Index, e: Event)
    requires Functional(index) && Legal(index, e)
    ensures Functional(Apply(index, e))
  {
  }

  /** `ts` lists the set, each member once: one possible map iteration order. */
  ghost predicate Enumerates<T(!new)>(ts: seq<T>, all: set<T>) {
    && (forall t :: t in ts <==> t in all)
    && (forall i, j :: 0 <= i < j < |ts| ==> ts[i] != ts[j])
  }

  lemma EnumeratesTail<T(!new)>(ts: seq<T>, all: set<T>)
    requires Enumerates(ts, all) && ts != []
    ensures Enumerates(ts[1..], all - {ts[0]})
  {
    forall t ensures t in ts[1..] <==> t in all - {ts[0]} {
      if t in all && t != ts[0] {
        var i :| 0 <= i < |ts| && ts[i] == t;
        assert ts[1..][i - 1] == t;
      }
    }
  }

  /** The callbacks the server fires. */
  datatype Call =
    | SubscribeCall(sub: Subscription)
    | UnsubscribeCall(sub: Subscription)

  /** Unsubscribe callbacks for a list of dropped subscriptions, in order. */
  function Drops(subs: seq<Subscription>): seq<Call> {
    if subs == [] then [] else [UnsubscribeCall(subs[0])] + Drops(subs[1..])
  }

  lemma {:induction false} DropsAppend(subs: seq<Subscription>, t: Subscription)
    ensures Drops(subs + [t]) == Drops(subs) + [UnsubscribeCall(t)]
  {
    if subs == [] {
      assert ([] + [t])[1..] == [];
    } else {
      assert (subs + [t])[1..] == subs[1..] + [t];
      DropsAppend(subs[1..], t);
    }
  }

  lemma {:induction false} DropsJoin(a: seq<Subscription>, b: seq<Subscription>)
    ensures Drops(a + b) == Drops(a) + Drops(b)
    decreases |b|
  {
    if b == [] {
      assert a + b == a;
    } else {
      var n := |b| - 1;
      DropsJoin(a, b[..n]);
      DropsAppend(a + b[..n], b[n]);
      DropsAppend(b[..n], b[n]);
      assert a + b == a + b[..n] + [b[n]] && b == b[..n] + [b[n]];
    }
  }

  lemma EnumeratesJoin<T(!new)>(a: seq<T>, all: set<T>, b: seq<T>, more: set<T>)
    requires Enumerates(a, all) && Enumerates(b, more) && all !! more
    ensures Enumerates(a + b, all + more)
  {
    forall i, j | 0 <= i < j < |a + b| ensures (a + b)[i] != (a + b)[j] {
      if i < |a| <= j {
        assert a[i] in all && b[j - |a|] in more;
      }
    }
  }

  /** The callbacks one event causes; `dropped` is the order in which a close is announced. */
  function CallsFor(index: Index, e: Event, dropped: seq<Subscription>): seq<Call> {
    match e
    case SubscribeToTopic(c, s, d) => [SubscribeCall(Subscription(d, c, s))]
    case UnsubscribeFromTopic(c, s, d) =>
      if Subscription(d, c, s) in index then [UnsubscribeCall(Subscription(d, c, s))] else []
    case ConnectionClosed(c) => Drops(dropped)
    case _ => []
  }

  /** A close announces every subscription of the connection once, in any order. */
  ghost predicate IsDropOrder(index: Index, e: Event, dropped: seq<Subscription>) {
    if e.ConnectionClosed? then Enumerates(dropped, OfConn(index, e.conn)) else dropped == []
  }

  // ----- alternation of the callbacks -----

  /** The callbacks about one subscription, in order. */
  function About(calls: seq<Call>, t: Subscription): seq<Call> {
    if calls == [] then []
    else
      var rest := About(calls[..|calls| - 1], t);
      if calls[|calls| - 1].sub == t then rest + [calls[|calls| - 1]] else rest
  }

  /** subscribe, unsubscribe, subscribe, ... */
  ghost predicate Alternates(calls: seq<Call>) {
    forall i :: 0 <= i < |calls| ==> (calls[i].SubscribeCall? <==> i % 2 == 0)
  }

  /** Per subscription the callbacks alternate, and one is open iff it is indexed. */
  ghost predicate Balanced(calls: seq<Call>, index: Index) {
    forall t :: Alternates(About(calls, t)) && (|About(calls, t)| % 2 == 1 <==> t in index)
  }

  lemma SubscribeKeepsBalance(calls: seq<Call>, index: Index, t: Subscription)
    requires Balanced(calls, index) && t !in index
    ensures Balanced(calls + [SubscribeCall(t)], index + {t})
  {
    assert (calls + [SubscribeCall(t)])[..|calls|] == calls;
  }

  lemma UnsubscribeKeepsBalance(calls: seq<Call>, index: Index, t: Subscription)
    requires Balanced(calls, index) && t in index
    ensures Balanced(calls + [UnsubscribeCall(t)], index - {t})
  {
    assert (calls + [UnsubscribeCall(t)])[..|calls|] == calls;
  }

  lemma DropsCons(calls: seq<Call>, subs: seq<Subscription>)
    requires subs != []
    ensures calls + Drops(subs) == calls + [UnsubscribeCall(subs[0])] + Drops(subs[1..])
  {
  }

  lemma {:induction false} DropsKeepBalance(calls: seq<Call>, index: Index, subs: seq<Subscription>, dropped: Index)
    requires Balanced(calls, index) && Enumerates(subs, dropped) && dropped <= index
    ensures Balanced(calls + Drops(subs), index - dropped)
    decreases |subs|
  {
    if subs == [] {
      assert calls + Drops(subs) == calls;
      assert index - dropped == index;
    } else {
      UnsubscribeKeepsBalance(calls, index, subs[0]);
      EnumeratesTail(subs, dropped);
      DropsKeepBalance(calls + [UnsubscribeCall(subs[0])], index - {subs[0]}, subs[1..], dropped - {subs[0]});
      DropsCons(calls, subs);
      assert index - dropped == (index - {subs[0]}) - (dropped - {subs[0]});
    }
  }

  /** Handling one legal event keeps callbacks and index in balance. */
  lemma EventKeepsBalance(calls: seq<Call>, index: Index, e: Event, dropped: seq<Subscription>)
    requires Balanced(calls, index) && Legal(index, e) && IsDropOrder(index, e, dropped)
    ensures Balanced(calls + CallsFor(index, e, dropped), Apply(index, e))
  {
    match e
    case SubscribeToTopic(c, s, d) => SubscribeKeepsBalance(calls, index, Subscription(d, c, s));
    case UnsubscribeFromTopic(c, s, d) => UnsubscribeKeepsBalance(calls, index, Subscription(d, c, s));
    case ConnectionClosed(c) => DropsKeepBalance(calls, index, dropped, OfConn(index, c));
    case _ => assert calls + [] == calls;
  }
}
