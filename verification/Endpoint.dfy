/**
  The fabric endpoint (bus/fabric_endpoint.go): callbacks of the server become
  reference-counted mappings of bus channels, which are created on demand in the
  channel table (bus/channel_manager.go) and destroyed with the last subscription.
 */
module Endpoint {
  import opened Options
  import opened Routing
  import opened Subscriptions

  /**
    `subs`: the `conId#subId` keys; `errorDestination`: the destination the error
    handler captured; `attached`: the message handler still sits on the live channel.
   */
  datatype Mapping = Mapping(subs: set<string>, autoCreated: bool, errorDestination: string, attached: bool)

  datatype EndpointState = EndpointState(mappings: map<string, Mapping>, channels: set<string>)

  function Key(conn: string, id: string): string { conn + "#" + id }

  /** What a subscribe callback does. */
  function AddSub(cfg: EndpointConfig, e: EndpointState, t: Subscription): EndpointState {
    var ch := ChannelOf(cfg, t.destination);
    if ch.None? || IsProtected(ch.value) then e
    else
      var e1 :=
        if ch.value in e.mappings then e
        else EndpointState(
          e.mappings[ch.value := Mapping({}, ch.value !in e.channels, t.destination, true)],
          e.channels + {ch.value});
      var m := e1.mappings[ch.value];
      e1.(mappings := e1.mappings[ch.value := m.(subs := m.subs + {Key(t.conn, t.id)})])
  }

  /** What an unsubscribe callback does. */
  function RemoveSub(cfg: EndpointConfig, e: EndpointState, t: Subscription): EndpointState {
    var ch := ChannelOf(cfg, t.destination);
    if ch.None? || ch.value !in e.mappings || Key(t.conn, t.id) !in e.mappings[ch.value].subs then e
    else
      var m := e.mappings[ch.value];
      var rest := m.subs - {Key(t.conn, t.id)};
      if rest != {} then e.(mappings := e.mappings[ch.value := m.(subs := rest)])
      else EndpointState(e.mappings - {ch.value}, if m.autoCreated then e.channels - {ch.value} else e.channels)
  }

  function OnCall(cfg: EndpointConfig, e: EndpointState, c: Call): EndpointState {
    match c
    case SubscribeCall(t) => AddSub(cfg, e, t)
    case UnsubscribeCall(t) => RemoveSub(cfg, e, t)
  }

  function OnCalls(cfg: EndpointConfig, e: EndpointState, calls: seq<Call>): EndpointState
    decreases |calls|
  {
    if calls == [] then e else OnCalls(cfg, OnCall(cfg, e, calls[0]), calls[1..])
  }

  /** Somebody other than the endpoint creates a bus channel. */
  function CreateByOther(e: EndpointState, ch: string): EndpointState {
    e.(channels := e.channels + {ch})
  }

  /** Somebody other than the endpoint destroys a bus channel; a handler on it is orphaned. */
  function DestroyByOther(e: EndpointState, ch: string): EndpointState {
    EndpointState(
      if ch in e.mappings then e.mappings[ch := e.mappings[ch].(attached := false)] else e.mappings,
      e.channels - {ch})
  }

  // ----- messages leaving and entering the bus -----

  datatype BrokerDestination = BrokerDestination(conn: string, destination: string)

  datatype BusMessage =
    | BusResponse(brokerDestination: Option<BrokerDestination>, body: string)
    | BusError(error: string)

  datatype ApiEvent =
    | SendMessage(destination: string, body: string)
    | SendPrivateMessage(conn: string, destination: string, body: string)

  datatype BusRequest = BusRequest(channel: string, brokerDestination: Option<BrokerDestination>, body: string)

  /** The handler a mapping installs: it turns a bus message into one server API event. */
  function Forward(cfg: EndpointConfig, e: EndpointState, ch: string, m: BusMessage): Option<ApiEvent> {
    if ch !in e.mappings || !e.mappings[ch].attached then None
    else match m
      case BusError(err) => Some(SendMessage(e.mappings[ch].errorDestination, err))
      case BusResponse(Some(b), body) => Some(SendPrivateMessage(b.conn, b.destination, body))
      case BusResponse(None, body) => Some(SendMessage(cfg.topicPrefix + ch, body))
  }

  /** `bridgeMessage`, for a body that parses; `None` when no prefix matches. */
  function Bridge(cfg: EndpointConfig, destination: string, body: string, conn: string): Option<BusRequest> {
    match RouteOf(cfg, destination)
    case None => None
    case Some(r) =>
      Some(BusRequest(
        r.channel,
        if r.isPrivate then Some(BrokerDestination(conn, cfg.userQueuePrefix + r.channel)) else None,
        body))
  }

  // ----- the objects -----

  class ChannelManager {
    var channels: set<string>

    constructor ()
      ensures channels == {}
    {
      channels := {};
    }

    method CreateChannel(name: string)
      modifies this
      ensures channels == old(channels) + {name}
    {
      if name !in channels { channels := channels + {name}; }
    }

    method DestroyChannel(name: string)
      modifies this
      ensures channels == old(channels) - {name}
    {
      channels := channels - {name};
    }

    method CheckChannelExists(name: string) returns (present: bool)
      ensures present == (name in channels)
    {
      present := name in channels;
    }

    /** `ListenStream` succeeds exactly on an existing channel. */
    method ListenStream(name: string) returns (ok: bool)
      ensures ok == (name in channels)
    {
      ok := name in channels;
    }
  }

  class FabricEndpoint {
    const config: EndpointConfig
    const manager: ChannelManager
    var chanMappings: map<string, Mapping>

    ghost function State(): EndpointState
      reads this, manager
    {
      EndpointState(chanMappings, manager.channels)
    }

    constructor (config: EndpointConfig, manager: ChannelManager)
      ensures this.config == Normalise(config) && this.manager == manager && chanMappings == map[]
      ensures IsSlashed(config.topicPrefix, this.config.topicPrefix)
      ensures IsSlashed(config.userQueuePrefix, this.config.userQueuePrefix)
      ensures IsSlashed(config.appRequestPrefix, this.config.appRequestPrefix)
      ensures IsSlashed(config.appRequestQueuePrefix, this.config.appRequestQueuePrefix)
    {
      NormalisedPrefixes(config);
      this.config, this.manager, chanMappings := Normalise(config), manager, map[];
    }

    method AddSubscription(conn: string, id: string, destination: string)
      modifies this, manager
      ensures State() == AddSub(config, old(State()), Subscription(destination, conn, id))
    {
      var ch := ChannelOf(config, destination);
      if ch.None? || IsProtected(ch.value) { return; }
      if ch.value !in chanMappings {
        var autoCreated := false;
        var ok := manager.ListenStream(ch.value);
        if !ok {
          manager.CreateChannel(ch.value);
          ok := manager.ListenStream(ch.value);
          if !ok { return; }
          autoCreated := true;
        }
        chanMappings := chanMappings[ch.value := Mapping({}, autoCreated, destination, true)];
      }
      var m := chanMappings[ch.value];
      chanMappings := chanMappings[ch.value := m.(subs := m.subs + {conn + "#" + id})];
      assert manager.channels == AddSub(config, old(State()), Subscription(destination, conn, id)).channels;
    }

    /** A request goes to an existing channel only; otherwise it is dropped silently. */
    method BridgeMessage(destination: string, body: string, conn: string) returns (sent: Option<BusRequest>)
      ensures sent == match Bridge(config, destination, body, conn)
                      case None => None
                      case Some(r) => if r.channel in manager.channels then Some(r) else None
    {
      var channelName, isPrivate := "", false;
      if config.appRequestQueuePrefix != "" && config.appRequestQueuePrefix <= destination {
        channelName, isPrivate := destination[|config.appRequestQueuePrefix|..], true;
      } else if config.appRequestPrefix != "" && config.appRequestPrefix <= destination {
        channelName := destination[|config.appRequestPrefix|..];
      } else {
        return None;
      }
      var tag := if isPrivate then Some(BrokerDestination(conn, config.userQueuePrefix + channelName)) else None;
      var present := manager.CheckChannelExists(channelName);
      return if present then Some(BusRequest(channelName, tag, body)) else None;
    }

    method RemoveSubscription(conn: string, id: string, destination: string)
      modifies this, manager
      ensures State() == RemoveSub(config, old(State()), Subscription(destination, conn, id))
    {
      var ch := ChannelOf(config, destination);
      if ch.None? { return; }
      if ch.value in chanMappings {
        var m := chanMappings[ch.value];
        var mappingId := conn + "#" + id;
        if mappingId in m.subs {
          m := m.(subs := m.subs - {mappingId});
          chanMappings := chanMappings[ch.value := m];
          if m.subs == {} {
            chanMappings := chanMappings - {ch.value};
            if m.autoCreated {
              manager.DestroyChannel(ch.value);
            }
          }
        }
      }
      assert chanMappings == RemoveSub(config, old(State()), Subscription(destination, conn, id)).mappings;
    }
  }

  // ----- agreement with the index -----

  ghost predicate NoHash(conn: string) { '#' !in conn }

  ghost predicate PlainIds(index: Index) { forall t :: t in index ==> NoHash(t.conn) }

  /** Keys are as good as (connection, id) pairs, because connection ids contain no `#`. */
  lemma KeyInjective(c: string, s: string, c': string, s': string)
    requires NoHash(c) && NoHash(c') && Key(c, s) == Key(c', s')
    ensures c == c' && s == s'
  {
    var k := Key(c, s);
    assert k[|c|] == '#' && k[|c'|] == '#';
    assert forall i :: 0 <= i < |c| ==> k[i] == c[i];
    assert forall i :: 0 <= i < |c'| ==> k[i] == c'[i];
    assert c == k[..|c|] && c' == k[..|c'|];
    assert s == k[|c| + 1..] && s' == k[|c'| + 1..];
  }

  /** The channel a subscription keeps mapped, if any. */
  predicate Maps(cfg: EndpointConfig, t: Subscription, ch: string) {
    ChannelOf(cfg, t.destination) == Some(ch) && !IsProtected(ch)
  }

  /** The indexed subscriptions that resolve to a channel. */
  function Resolving(cfg: EndpointConfig, index: Index, ch: string): Index {
    set t | t in index && Maps(cfg, t, ch)
  }

  /** A mapping holds exactly the keys of the subscriptions resolving to its channel. */
  ghost predicate HoldsKeys(cfg: EndpointConfig, subs: set<string>, index: Index, ch: string) {
    && (forall t :: t in Resolving(cfg, index, ch) ==> Key(t.conn, t.id) in subs)
    && (forall k :: k in subs ==> exists t :: t in Resolving(cfg, index, ch) && Key(t.conn, t.id) == k)
  }

  /** A channel is mapped iff some unprotected subscription resolves to it, with exactly those keys. */
  ghost predicate AgreesOn(cfg: EndpointConfig, e: EndpointState, index: Index, ch: string) {
    && (ch in e.mappings <==> Resolving(cfg, index, ch) != {})
    && (ch in e.mappings ==> HoldsKeys(cfg, e.mappings[ch].subs, index, ch))
  }

  ghost predicate Agrees(cfg: EndpointConfig, e: EndpointState, index: Index) {
    forall ch :: AgreesOn(cfg, e, index, ch)
  }

  /** The channels the endpoint created and still keeps. */
  function AutoMapped(e: EndpointState): set<string> {
    set ch | ch in e.mappings && e.mappings[ch].autoCreated
  }

  /** The channel table is what others created plus the mapped auto-created channels, apart. */
  ghost predicate Conserved(e: EndpointState, external: set<string>) {
    e.channels == external + AutoMapped(e) && external !! AutoMapped(e)
  }

  /**
    How a channel name stands. `Kept`: conserved. `Taken`: others created it while the
    endpoint had it auto-created, so the endpoint will destroy their channel. `Bereft`:
    others destroyed it while the endpoint had it auto-created.
   */
  datatype Standing = Kept | Taken | Bereft

  ghost predicate Stands(e: EndpointState, external: set<string>, ch: string, st: Standing) {
    match st
    case Kept =>
      && (ch in e.channels <==> ch in external || ch in AutoMapped(e))
      && !(ch in external && ch in AutoMapped(e))
    case Taken => ch in external && (ch in e.channels <==> ch in AutoMapped(e))
    case Bereft => ch !in external && ch !in e.channels && ch in AutoMapped(e)
  }

  /** A bereft name is in order again once its mapping is gone. */
  function Later(e: EndpointState, ch: string, st: Standing): Standing {
    if st.Bereft? && ch !in AutoMapped(e) then Kept else st
  }

  lemma AllKept(e: EndpointState, external: set<string>)
    requires forall ch :: Stands(e, external, ch, Kept)
    ensures Conserved(e, external)
  {
    forall ch
      ensures ch in e.channels <==> ch in external + AutoMapped(e)
      ensures !(ch in external && ch in AutoMapped(e))
    {
      assert Stands(e, external, ch, Kept);
    }
  }

  lemma AddAgrees(cfg: EndpointConfig, e: EndpointState, index: Index, t: Subscription)
    requires Agrees(cfg, e, index)
    ensures Agrees(cfg, AddSub(cfg, e, t), index + {t})
  {
    forall ch ensures AgreesOn(cfg, AddSub(cfg, e, t), index + {t}, ch) {
      assert AgreesOn(cfg, e, index, ch);
      if Maps(cfg, t, ch) {
        AddHoldsKeys(cfg, if ch in e.mappings then e.mappings[ch].subs else {}, index, t, ch);
        assert t in Resolving(cfg, index + {t}, ch);
      } else {
        assert Resolving(cfg, index + {t}, ch) == Resolving(cfg, index, ch);
      }
    }
  }

  lemma AddHoldsKeys(cfg: EndpointConfig, subs: set<string>, index: Index, t: Subscription, ch: string)
    requires HoldsKeys(cfg, subs, index, ch) && Maps(cfg, t, ch)
    ensures HoldsKeys(cfg, subs + {Key(t.conn, t.id)}, index + {t}, ch)
  {
    var now := Resolving(cfg, index + {t}, ch);
    assert now == Resolving(cfg, index, ch) + {t};
    forall k | k in subs + {Key(t.conn, t.id)}
      ensures exists u :: u in now && Key(u.conn, u.id) == k
    {
      if k == Key(t.conn, t.id) {
        assert t in now;
      } else {
        var u :| u in Resolving(cfg, index, ch) && Key(u.conn, u.id) == k;
        assert u in now;
      }
    }
  }

  /** Removing relies on ids: no other indexed subscription has this key. */
  lemma RemoveHoldsKeys(cfg: EndpointConfig, subs: set<string>, index: Index, t: Subscription, ch: string)
    requires HoldsKeys(cfg, subs, index, ch) && Maps(cfg, t, ch) && t in index
    requires Functional(index) && PlainIds(index)
    ensures HoldsKeys(cfg, subs - {Key(t.conn, t.id)}, index - {t}, ch)
    ensures subs - {Key(t.conn, t.id)} == {} <==> Resolving(cfg, index - {t}, ch) == {}
  {
    var rest := subs - {Key(t.conn, t.id)};
    var now := Resolving(cfg, index - {t}, ch);
    assert now == Resolving(cfg, index, ch) - {t};
    forall u | u in now ensures Key(u.conn, u.id) in rest {
      if Key(u.conn, u.id) == Key(t.conn, t.id) {
        KeyInjective(u.conn, u.id, t.conn, t.id);
      }
    }
    forall k | k in rest ensures exists u :: u in now && Key(u.conn, u.id) == k {
      var u :| u in Resolving(cfg, index, ch) && Key(u.conn, u.id) == k;
      assert u in now;
    }
    if now != {} {
      var u :| u in now;
      assert Key(u.conn, u.id) in rest;
    }
    if rest != {} {
      var k :| k in rest;
      var u :| u in now && Key(u.conn, u.id) == k;
    }
  }

  lemma RemoveAgrees(cfg: EndpointConfig, e: EndpointState, index: Index, t: Subscription)
    requires Agrees(cfg, e, index) && t in index && Functional(index) && PlainIds(index)
    ensures Agrees(cfg, RemoveSub(cfg, e, t), index - {t})
  {
    forall ch ensures AgreesOn(cfg, RemoveSub(cfg, e, t), index - {t}, ch) {
      assert AgreesOn(cfg, e, index, ch);
      if Maps(cfg, t, ch) {
        assert t in Resolving(cfg, index, ch);
        RemoveHoldsKeys(cfg, e.mappings[ch].subs, index, t, ch);
      } else {
        assert Resolving(cfg, index - {t}, ch) == Resolving(cfg, index, ch);
        ProtectedUnmapped(cfg, e, index, ch);
      }
    }
  }

  /** `removeSubscription` has no protected-channel test; it needs none. */
  lemma ProtectedUnmapped(cfg: EndpointConfig, e: EndpointState, index: Index, ch: string)
    requires Agrees(cfg, e, index)
    ensures IsProtected(ch) ==> ch !in e.mappings
  {
    assert AgreesOn(cfg, e, index, ch);
    if IsProtected(ch) {
      assert Resolving(cfg, index, ch) == {};
    }
  }

  lemma AddStands(cfg: EndpointConfig, e: EndpointState, external: set<string>, t: Subscription,
                  ch: string, st: Standing)
    requires Stands(e, external, ch, st)
    ensures Stands(AddSub(cfg, e, t), external, ch, st)
  {
    var e' := AddSub(cfg, e, t);
    if ch in e.mappings {
      assert e'.mappings[ch].autoCreated == e.mappings[ch].autoCreated;
    }
  }

  lemma RemoveStands(cfg: EndpointConfig, e: EndpointState, external: set<string>, t: Subscription,
                     ch: string, st: Standing)
    requires Stands(e, external, ch, st)
    ensures Stands(RemoveSub(cfg, e, t), external, ch, Later(RemoveSub(cfg, e, t), ch, st))
    ensures AutoMapped(RemoveSub(cfg, e, t)) <= AutoMapped(e)
  {
  }

  /** Announcing any list of drops takes exactly those subscriptions out of the mappings. */
  lemma {:induction false} DropsAgree(cfg: EndpointConfig, e: EndpointState, index: Index,
                                      subs: seq<Subscription>, dropped: Index)
    requires Agrees(cfg, e, index)
    requires Functional(index) && PlainIds(index) && Enumerates(subs, dropped) && dropped <= index
    ensures Agrees(cfg, OnCalls(cfg, e, Drops(subs)), index - dropped)
    decreases |subs|
  {
    if subs == [] {
      assert index - dropped == index;
    } else {
      RemoveAgrees(cfg, e, index, subs[0]);
      EnumeratesTail(subs, dropped);
      DropsAgree(cfg, RemoveSub(cfg, e, subs[0]), index - {subs[0]}, subs[1..], dropped - {subs[0]});
      assert Drops(subs)[1..] == Drops(subs[1..]);
      assert index - dropped == (index - {subs[0]}) - (dropped - {subs[0]});
    }
  }

  lemma {:induction false} DropsStand(cfg: EndpointConfig, e: EndpointState, external: set<string>,
                                      subs: seq<Subscription>, ch: string, st: Standing)
    requires Stands(e, external, ch, st)
    ensures var e' := OnCalls(cfg, e, Drops(subs));
            Stands(e', external, ch, Later(e', ch, st)) && AutoMapped(e') <= AutoMapped(e)
    decreases |subs|
  {
    if subs != [] {
      var e1 := RemoveSub(cfg, e, subs[0]);
      RemoveStands(cfg, e, external, subs[0], ch, st);
      DropsStand(cfg, e1, external, subs[1..], ch, Later(e1, ch, st));
      assert Drops(subs)[1..] == Drops(subs[1..]);
    }
  }

  /** The callbacks of one legal event keep the mappings in step with the index. */
  lemma EventAgrees(cfg: EndpointConfig, e: EndpointState, index: Index, ev: Event, dropped: seq<Subscription>)
    requires Agrees(cfg, e, index)
    requires Functional(index) && PlainIds(index) && Legal(index, ev) && IsDropOrder(index, ev, dropped)
    ensures Agrees(cfg, OnCalls(cfg, e, CallsFor(index, ev, dropped)), Apply(index, ev))
  {
    var calls := CallsFor(index, ev, dropped);
    match ev
    case SubscribeToTopic(c, s, d) =>
      AddAgrees(cfg, e, index, Subscription(d, c, s));
      OneCall(cfg, e, calls[0]);
    case UnsubscribeFromTopic(c, s, d) =>
      RemoveAgrees(cfg, e, index, Subscription(d, c, s));
      OneCall(cfg, e, calls[0]);
    case ConnectionClosed(c) =>
      DropsAgree(cfg, e, index, dropped, OfConn(index, c));
    case _ =>
  }

  lemma OneCall(cfg: EndpointConfig, e: EndpointState, c: Call)
    ensures OnCalls(cfg, e, [c]) == OnCall(cfg, e, c)
  {
    assert OnCalls(cfg, OnCall(cfg, e, c), []) == OnCall(cfg, e, c);
  }

  /** The callbacks of any event leave a name standing as it did, or put a bereft one in order. */
  lemma EventStands(cfg: EndpointConfig, e: EndpointState, external: set<string>, index: Index,
                    ev: Event, dropped: seq<Subscription>, ch: string, st: Standing)
    requires Stands(e, external, ch, st)
    ensures var e' := OnCalls(cfg, e, CallsFor(index, ev, dropped)); Stands(e', external, ch, Later(e', ch, st))
  {
    var calls := CallsFor(index, ev, dropped);
    match ev
    case SubscribeToTopic(c, s, d) =>
      AddStands(cfg, e, external, Subscription(d, c, s), ch, st);
      OneCall(cfg, e, calls[0]);
    case UnsubscribeFromTopic(c, s, d) =>
      RemoveStands(cfg, e, external, Subscription(d, c, s), ch, st);
      if calls != [] { OneCall(cfg, e, calls[0]); }
    case ConnectionClosed(c) =>
      DropsStand(cfg, e, external, dropped, ch, st);
    case _ =>
  }

  /** With no subscription left nothing is mapped. */
  lemma EmptyIndexUnmaps(cfg: EndpointConfig, e: EndpointState)
    requires Agrees(cfg, e, {})
    ensures e.mappings == map[] && AutoMapped(e) == {}
  {
    forall ch ensures ch !in e.mappings {
      assert AgreesOn(cfg, e, {}, ch);
      assert Resolving(cfg, {}, ch) == {};
    }
  }

  lemma SameMappingsAgree(cfg: EndpointConfig, e: EndpointState, e': EndpointState, index: Index)
    requires Agrees(cfg, e, index) && e'.mappings.Keys == e.mappings.Keys
    requires forall ch :: ch in e.mappings ==> e'.mappings[ch].subs == e.mappings[ch].subs
    ensures Agrees(cfg, e', index)
  {
    forall ch ensures AgreesOn(cfg, e', index, ch) {
      assert AgreesOn(cfg, e, index, ch);
    }
  }

  /** Whatever others did before: once every subscription has left, exactly the taken names are missing. */
  lemma TableOnceAllLeft(cfg: EndpointConfig, e: EndpointState, external: set<string>, index: Index,
                         order: seq<Subscription>, ch: string, st: Standing)
    requires Agrees(cfg, e, index) && Stands(e, external, ch, st)
    requires Functional(index) && PlainIds(index) && Enumerates(order, index)
    ensures ch in OnCalls(cfg, e, Drops(order)).channels <==> ch in external && !st.Taken?
  {
    DropsAgree(cfg, e, index, order, index);
    assert index - index == {};
    EmptyIndexUnmaps(cfg, OnCalls(cfg, e, Drops(order)));
    DropsStand(cfg, e, external, order, ch, st);
  }

  /**
    Another party creates a name: the table stays conserved exactly when the name was
    not auto-created at the time. Otherwise their channel goes with the last subscription.
   */
  lemma ForeignCreation(cfg: EndpointConfig, e: EndpointState, external: set<string>, index: Index,
                        ch: string, order: seq<Subscription>)
    requires Agrees(cfg, e, index) && Conserved(e, external)
    requires Functional(index) && PlainIds(index) && Enumerates(order, index)
    ensures Conserved(CreateByOther(e, ch), external + {ch}) <==> ch !in AutoMapped(e)
    ensures OnCalls(cfg, CreateByOther(e, ch), Drops(order)).channels ==
            if ch in AutoMapped(e) then external else external + {ch}
  {
    var e1 := CreateByOther(e, ch);
    assert AutoMapped(e1) == AutoMapped(e);
    SameMappingsAgree(cfg, e, e1, index);
    forall x ensures x in OnCalls(cfg, e1, Drops(order)).channels <==>
                     x in external + {ch} && !(x == ch && ch in AutoMapped(e)) {
      var st := if x == ch && ch in AutoMapped(e) then Taken else Kept;
      TableOnceAllLeft(cfg, e1, external + {ch}, index, order, x, st);
    }
  }

  /**
    Another party destroys a name: conserved exactly when it was not auto-created at the
    time. Otherwise the mapping outlives its channel, until the last subscription leaves;
    the table is then what the others hold either way.
   */
  lemma ForeignDestruction(cfg: EndpointConfig, e: EndpointState, external: set<string>, index: Index,
                           ch: string, order: seq<Subscription>)
    requires Agrees(cfg, e, index) && Conserved(e, external)
    requires Functional(index) && PlainIds(index) && Enumerates(order, index)
    ensures Conserved(DestroyByOther(e, ch), external - {ch}) <==> ch !in AutoMapped(e)
    ensures OnCalls(cfg, DestroyByOther(e, ch), Drops(order)).channels == external - {ch}
  {
    var e1 := DestroyByOther(e, ch);
    assert AutoMapped(e1) == AutoMapped(e);
    SameMappingsAgree(cfg, e, e1, index);
    forall x ensures x in OnCalls(cfg, e1, Drops(order)).channels <==> x in external - {ch} {
      var st := if x == ch && ch in AutoMapped(e) then Bereft else Kept;
      TableOnceAllLeft(cfg, e1, external - {ch}, index, order, x, st);
    }
  }
}
