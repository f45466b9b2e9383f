/**
  The store sync service (bus/store_sync_service.go): which client channels have
  which stores open, which listener forwards which store to which channels, and the
  store streams the listeners hold. The same facts are kept from both sides.
 */
module SyncService {
  import opened Options
  import opened Subscriptions

  /** `stream`: the store stream the listener subscribed when it was made. */
  datatype StoreListener = StoreListener(stream: nat, channels: set<string>)

  /** `live`: the listeners' streams that are subscribed; `nextStream`: how many were ever made. */
  datatype Sync = Sync(
    clients: map<string, set<string>>,
    listeners: map<string, StoreListener>,
    live: set<nat>,
    nextStream: nat)

  function Empty(): Sync { Sync(map[], map[], {}, 0) }

  function Join(s: Sync, channel: string): Sync {
    if channel in s.clients then s else s.(clients := s.clients[channel := {}])
  }

  /** Add a channel to a store's listener, making the listener if there is none. */
  function Attach(s: Sync, channel: string, store: string): Sync {
    if store in s.listeners then
      var l := s.listeners[store];
      s.(listeners := s.listeners[store := l.(channels := l.channels + {channel})])
    else
      s.(listeners := s.listeners[store := StoreListener(s.nextStream, {channel})],
         live := s.live + {s.nextStream}, nextStream := s.nextStream + 1)
  }

  /** Take a channel from a store's listener; an empty listener is unsubscribed and dropped. */
  function Detach(s: Sync, channel: string, store: string): Sync {
    if store !in s.listeners then s
    else
      var l := s.listeners[store];
      var rest := l.channels - {channel};
      if rest != {} then s.(listeners := s.listeners[store := l.(channels := rest)])
      else s.(listeners := s.listeners - {store}, live := s.live - {l.stream})
  }

  function Open(s: Sync, channel: string, store: string): Sync
    requires channel in s.clients
  {
    Attach(s.(clients := s.clients[channel := s.clients[channel] + {store}]), channel, store)
  }

  function CloseStore(s: Sync, channel: string, store: string): Sync
    requires channel in s.clients
  {
    Detach(s.(clients := s.clients[channel := s.clients[channel] - {store}]), channel, store)
  }

  function DetachAll(s: Sync, channel: string, stores: seq<string>): Sync
    decreases |stores|
  {
    if stores == [] then s else Detach(DetachAll(s, channel, stores[..|stores| - 1]), channel, stores[|stores| - 1])
  }

  /** The channel is destroyed; `order` is the order in which its open stores are visited. */
  function Leave(s: Sync, channel: string, order: seq<string>): Sync {
    var s1 := DetachAll(s, channel, order);
    s1.(clients := s1.clients - {channel})
  }

  /** Requests come from JSON: the store id may be missing or empty, the store unknown. */
  datatype Reply = Silent | InvalidRequest | NoSuchStore | Content

  /** A client channel; a request acts on the object its handler was made for. */
  class SyncClientChannel {
    const channelName: string
    var openStores: set<string>

    constructor (channelName: string)
      ensures this.channelName == channelName && openStores == {}
    {
      this.channelName, openStores := channelName, {};
    }
  }

  class StoreSyncService {
    var syncClients: map<string, SyncClientChannel>
    var syncStoreListeners: map<string, StoreListener>
    var liveStreams: set<nat>
    var streamsMade: nat

    ghost predicate Valid()
      reads this
    {
      forall ch :: ch in syncClients ==> syncClients[ch].channelName == ch
    }

    ghost function Model(): Sync
      reads this, syncClients.Values
    {
      Sync(map ch | ch in syncClients :: syncClients[ch].openStores, syncStoreListeners, liveStreams, streamsMade)
    }

    /** The object is the one filed under its name, not one that left and may still get requests. */
    ghost predicate Registered(client: SyncClientChannel)
      reads this
    {
      client.channelName in syncClients && syncClients[client.channelName] == client
    }

    constructor ()
      ensures Valid() && Model() == Empty()
    {
      syncClients, syncStoreListeners, liveStreams, streamsMade := map[], map[], {}, 0;
    }

    method OpenNewClientSyncChannel(channel: string)
      requires Valid()
      modifies this
      ensures Valid() && Model() == Join(old(Model()), channel)
      ensures channel in syncClients && (channel !in old(syncClients) ==> fresh(syncClients[channel]))
    {
      if channel in syncClients { return; }
      var client := new SyncClientChannel(channel);
      syncClients := syncClients[channel := client];
    }

    /** The part `closeStore` and `closeClientSyncChannel` share. */
    method ReleaseListener(channel: string, store: string)
      modifies this`syncStoreListeners, this`liveStreams
      ensures Model() == Detach(old(Model()), channel, store)
    {
      if store in syncStoreListeners {
        var l := syncStoreListeners[store];
        l := l.(channels := l.channels - {channel});
        syncStoreListeners := syncStoreListeners[store := l];
        if l.channels == {} {
          liveStreams := liveStreams - {l.stream};
          syncStoreListeners := syncStoreListeners - {store};
        }
      }
      assert syncStoreListeners == Detach(old(Model()), channel, store).listeners;
    }

    /** The listener of a store, made on demand, starts to serve the channel. */
    method AddToListener(channel: string, store: string)
      modifies this`syncStoreListeners, this`liveStreams, this`streamsMade
      ensures Model() == Attach(old(Model()), channel, store)
    {
      if store !in syncStoreListeners {
        syncStoreListeners := syncStoreListeners[store := StoreListener(streamsMade, {})];
        liveStreams := liveStreams + {streamsMade};
        streamsMade := streamsMade + 1;
      }
      var l := syncStoreListeners[store];
      syncStoreListeners := syncStoreListeners[store := l.(channels := l.channels + {channel})];
      assert syncStoreListeners[store] == Attach(old(Model()), channel, store).listeners[store];
      assert syncStoreListeners == Attach(old(Model()), channel, store).listeners;
    }

    method CloseClientSyncChannel(channel: string) returns (order: seq<string>)
      requires Valid()
      modifies this
      ensures Valid()
      ensures channel !in old(syncClients) ==> order == [] && Model() == old(Model())
      ensures channel in old(syncClients) ==>
                && Enumerates(order, old(syncClients[channel].openStores))
                && Model() == Leave(old(Model()), channel, order)
      ensures Inv(old(Model())) ==> Inv(Model())
    {
      order := [];
      if channel !in syncClients { return; }
      var todo := syncClients[channel].openStores;
      while todo != {}
        invariant syncClients == old(syncClients) && todo <= syncClients[channel].openStores
        invariant forall st :: st in order <==> st in syncClients[channel].openStores && st !in todo
        invariant forall i, j :: 0 <= i < j < |order| ==> order[i] != order[j]
        invariant Model() == DetachAll(old(Model()), channel, order)
      {
        var store :| store in todo;
        ReleaseListener(channel, store);
        assert (order + [store])[..|order|] == order;
        order := order + [store];
        todo := todo - {store};
      }
      syncClients := syncClients - {channel};
      if Inv(old(Model())) { StepKeeps(old(Model()), ClientLeaves(channel, order)); }
    }

    /** What a request does to the client object it reaches. */
    method SetOpenStores(client: SyncClientChannel, stores: set<string>)
      requires Valid()
      modifies client`openStores
      ensures client.openStores == stores
      ensures Model() == old(Model()).(clients := if Registered(client)
                                                  then old(Model()).clients[client.channelName := stores]
                                                  else old(Model()).clients)
    {
      client.openStores := stores;
      assert Model().clients == if Registered(client) then old(Model()).clients[client.channelName := stores]
                                else old(Model()).clients;
    }

    /** The store may be opened for a client that is no longer registered. */
    method OpenStore(client: SyncClientChannel, storeId: Option<string>, present: bool) returns (reply: Reply)
      requires Valid()
      modifies this, client
      ensures Valid() && syncClients == old(syncClients)
      ensures reply == if storeId.None? || storeId.value == "" then InvalidRequest
                       else if !present then NoSuchStore else Content
      ensures client.openStores == old(client.openStores) + if reply.Content? then {storeId.value} else {}
      ensures Model() == if !reply.Content? then old(Model())
                         else Step(old(Model()), OpenRequest(client.channelName, storeId.value, !Registered(client)))
      ensures reply.Content? && Inv(old(Model())) ==>
                (Inv(Model()) <==> Registered(client) || Holding(old(Model()), client.channelName, storeId.value))
    {
      if storeId.None? || storeId.value == "" { return InvalidRequest; }
      if !present { return NoSuchStore; }
      var channel, store := client.channelName, storeId.value;
      ghost var a := OpenRequest(channel, store, !Registered(client));
      SetOpenStores(client, client.openStores + {store});
      AddToListener(channel, store);
      if Inv(old(Model())) { RequestKeepsIff(old(Model()), a); }
      return Content;
    }

    method CloseStoreRequest(client: SyncClientChannel, storeId: Option<string>) returns (reply: Reply)
      requires Valid()
      modifies this, client
      ensures Valid() && syncClients == old(syncClients)
      ensures reply == if storeId.None? || storeId.value == "" then InvalidRequest else Silent
      ensures client.openStores == old(client.openStores) - if reply.Silent? then {storeId.value} else {}
      ensures Model() == if !reply.Silent? then old(Model())
                         else Step(old(Model()), CloseRequest(client.channelName, storeId.value, !Registered(client)))
      ensures reply.Silent? && Inv(old(Model())) ==>
                (Inv(Model()) <==> Registered(client) || !Holding(old(Model()), client.channelName, storeId.value))
    {
      if storeId.None? || storeId.value == "" { return InvalidRequest; }
      ghost var a := CloseRequest(client.channelName, storeId.value, !Registered(client));
      SetOpenStores(client, client.openStores - {storeId.value});
      ReleaseListener(client.channelName, storeId.value);
      if Inv(old(Model())) { RequestKeepsIff(old(Model()), a); }
      return Silent;
    }
  }

  // ----- the two indexes agree -----

  ghost predicate Serves(s: Sync, store: string, channel: string) {
    store in s.listeners && channel in s.listeners[store].channels
  }

  ghost predicate Holding(s: Sync, channel: string, store: string) {
    channel in s.clients && store in s.clients[channel]
  }

  ghost predicate Agree(s: Sync, channel: string, store: string) {
    Serves(s, store, channel) <==> Holding(s, channel, store)
  }

  /** A registered client has a store open iff the store's listener serves it; no one else is served. */
  ghost predicate Symmetric(s: Sync) { forall channel, store :: Agree(s, channel, store) }

  ghost predicate HoldsStream(s: Sync, store: string, n: nat) {
    store in s.listeners && s.listeners[store].stream == n
  }

  /** No listener is empty, and the live streams are the listeners' own, one each. */
  ghost predicate ListenersOk(s: Sync) {
    && (forall store :: store in s.listeners ==>
          s.listeners[store].channels != {} && s.listeners[store].stream in s.live)
    && (forall n :: n in s.live ==> n < s.nextStream && exists store :: HoldsStream(s, store, n))
    && (forall x, y, n :: HoldsStream(s, x, n) && HoldsStream(s, y, n) ==> x == y)
  }

  ghost predicate Inv(s: Sync) { Symmetric(s) && ListenersOk(s) }

  lemma AttachServes(s: Sync, channel: string, store: string)
    ensures forall st, ch :: Serves(Attach(s, channel, store), st, ch) <==>
              Serves(s, st, ch) || (st == store && ch == channel)
  {
  }

  lemma DetachServes(s: Sync, channel: string, store: string)
    ensures forall st, ch :: Serves(Detach(s, channel, store), st, ch) <==>
              Serves(s, st, ch) && !(st == store && ch == channel)
  {
    forall ch | Serves(s, store, ch) && ch != channel ensures Serves(Detach(s, channel, store), store, ch) {
      assert ch in s.listeners[store].channels - {channel};
    }
  }

  lemma AttachListeners(s: Sync, channel: string, store: string)
    requires ListenersOk(s)
    ensures ListenersOk(Attach(s, channel, store))
  {
    var s' := Attach(s, channel, store);
    forall x, n | HoldsStream(s', x, n)
      ensures HoldsStream(s, x, n) || (x == store && store !in s.listeners && n == s.nextStream)
    {
    }
    forall n | n in s'.live ensures n < s'.nextStream && exists st :: HoldsStream(s', st, n) {
      if n in s.live {
        var st :| HoldsStream(s, st, n);
        assert HoldsStream(s', st, n);
      } else {
        assert HoldsStream(s', store, n);
      }
    }
    forall x, y, n | HoldsStream(s', x, n) && HoldsStream(s', y, n) ensures x == y {
      assert HoldsStream(s, x, n) ==> n in s.live;
      assert HoldsStream(s, y, n) ==> n in s.live;
    }
  }

  lemma DetachListeners(s: Sync, channel: string, store: string)
    requires ListenersOk(s)
    ensures ListenersOk(Detach(s, channel, store))
  {
    var s' := Detach(s, channel, store);
    forall x, n | HoldsStream(s', x, n) ensures HoldsStream(s, x, n) {
    }
    forall x | x in s'.listeners ensures s'.listeners[x].channels != {} && s'.listeners[x].stream in s'.live {
      assert HoldsStream(s, x, s.listeners[x].stream);
      if store in s.listeners {
        assert HoldsStream(s, store, s.listeners[store].stream);
      }
    }
    forall n | n in s'.live ensures n < s'.nextStream && exists st :: HoldsStream(s', st, n) {
      var st :| HoldsStream(s, st, n);
      assert HoldsStream(s', st, n);
    }
  }

  lemma {:induction false} DetachAllServes(s: Sync, channel: string, order: seq<string>)
    ensures var s' := DetachAll(s, channel, order);
            && s'.clients == s.clients && (ListenersOk(s) ==> ListenersOk(s'))
            && forall st, ch :: Serves(s', st, ch) <==> Serves(s, st, ch) && !(ch == channel && st in order)
    decreases |order|
  {
    if order != [] {
      var n := |order| - 1;
      DetachAllServes(s, channel, order[..n]);
      var s1 := DetachAll(s, channel, order[..n]);
      if ListenersOk(s) { DetachListeners(s1, channel, order[n]); }
      DetachServes(s1, channel, order[n]);
      forall st ensures st in order <==> st in order[..n] || st == order[n] {
        assert order == order[..n] + [order[n]];
      }
    }
  }

  /** `stale`: the request reached the object of a client that is no longer the registered one. */
  datatype Action =
    | ClientJoins(channel: string)
    | ClientLeaves(channel: string, order: seq<string>)
    | OpenRequest(channel: string, store: string, stale: bool)
    | CloseRequest(channel: string, store: string, stale: bool)

  ghost function Step(s: Sync, a: Action): Sync {
    match a
    case ClientJoins(ch) => Join(s, ch)
    case ClientLeaves(ch, order) =>
      if ch in s.clients && Enumerates(order, s.clients[ch]) then Leave(s, ch, order) else s
    case OpenRequest(ch, st, stale) =>
      if stale then Attach(s, ch, st) else if ch in s.clients then Open(s, ch, st) else s
    case CloseRequest(ch, st, stale) =>
      if stale then Detach(s, ch, st) else if ch in s.clients then CloseStore(s, ch, st) else s
  }

  ghost function Run(actions: seq<Action>): Sync {
    if actions == [] then Empty() else Step(Run(actions[..|actions| - 1]), actions[|actions| - 1])
  }

  lemma SameListeners(s: Sync, s': Sync)
    requires s' == s.(clients := s'.clients)
    ensures ListenersOk(s) ==> ListenersOk(s')
    ensures forall st, c :: Serves(s', st, c) <==> Serves(s, st, c)
  {
    assert forall x, n :: HoldsStream(s', x, n) <==> HoldsStream(s, x, n);
  }

  /** Streams and listeners stay in order whatever requests come. */
  lemma StepKeepsListeners(s: Sync, a: Action)
    requires ListenersOk(s)
    ensures ListenersOk(Step(s, a))
  {
    match a
    case ClientJoins(ch) => SameListeners(s, Join(s, ch));
    case ClientLeaves(ch, order) =>
      DetachAllServes(s, ch, order);
      SameListeners(DetachAll(s, ch, order), Leave(s, ch, order));
    case OpenRequest(ch, st, stale) =>
      var s1 := if stale || ch !in s.clients then s else s.(clients := s.clients[ch := s.clients[ch] + {st}]);
      SameListeners(s, s1);
      AttachListeners(s1, ch, st);
    case CloseRequest(ch, st, stale) =>
      var s1 := if stale || ch !in s.clients then s else s.(clients := s.clients[ch := s.clients[ch] - {st}]);
      SameListeners(s, s1);
      DetachListeners(s1, ch, st);
  }

  // ----- requests of clients that have left -----

  /** The action decides whether the store's listener serves the channel. */
  ghost predicate Settles(s: Sync, a: Action, channel: string, store: string) {
    match a
    case ClientJoins(_) => false
    case ClientLeaves(ch, order) => ch == channel && Holding(s, ch, store) && Enumerates(order, s.clients[ch])
    case OpenRequest(ch, st, stale) => ch == channel && st == store && (stale || ch in s.clients)
    case CloseRequest(ch, st, stale) => ch == channel && st == store && (stale || ch in s.clients)
  }

  /** A stale open while the registered client does not hold the store, or a stale close while it does. */
  ghost predicate Misplaced(s: Sync, a: Action) {
    || (a.OpenRequest? && a.stale && !Holding(s, a.channel, a.store))
    || (a.CloseRequest? && a.stale && Holding(s, a.channel, a.store))
  }

  /** After an action that settles a pair, the indexes agree on it unless it was misplaced; no other action matters. */
  lemma StepAgrees(s: Sync, a: Action, channel: string, store: string)
    ensures Settles(s, a, channel, store) ==> (Agree(Step(s, a), channel, store) <==> !Misplaced(s, a))
    ensures !Settles(s, a, channel, store) ==> (Agree(Step(s, a), channel, store) <==> Agree(s, channel, store))
  {
    match a
    case ClientJoins(ch) => SameListeners(s, Join(s, ch));
    case ClientLeaves(ch, order) => LeaveAgrees(s, ch, order, channel, store);
    case OpenRequest(ch, st, stale) =>
      var s1 := if stale || ch !in s.clients then s else s.(clients := s.clients[ch := s.clients[ch] + {st}]);
      SameListeners(s, s1);
      AttachServes(s1, ch, st);
    case CloseRequest(ch, st, stale) =>
      var s1 := if stale || ch !in s.clients then s else s.(clients := s.clients[ch := s.clients[ch] - {st}]);
      SameListeners(s, s1);
      DetachServes(s1, ch, st);
  }

  lemma LeaveAgrees(s: Sync, ch: string, order: seq<string>, channel: string, store: string)
    ensures var a := ClientLeaves(ch, order);
            && (Settles(s, a, channel, store) ==> Agree(Step(s, a), channel, store))
            && (!Settles(s, a, channel, store) ==> (Agree(Step(s, a), channel, store) <==> Agree(s, channel, store)))
  {
    if ch in s.clients && Enumerates(order, s.clients[ch]) {
      DetachAllServes(s, ch, order);
      SameListeners(DetachAll(s, ch, order), Leave(s, ch, order));
    }
  }

  /** A registered client's open and close take effect on both sides, and leaving takes everything away. */
  lemma RequestsTakeEffect(s: Sync, channel: string, store: string, order: seq<string>)
    requires Inv(s) && channel in s.clients && Enumerates(order, s.clients[channel])
    ensures var s' := Step(s, OpenRequest(channel, store, false));
            Holding(s', channel, store) && Serves(s', store, channel)
    ensures var s' := Step(s, CloseRequest(channel, store, false));
            !Holding(s', channel, store) && !Serves(s', store, channel)
    ensures var s' := Step(s, ClientLeaves(channel, order));
            channel !in s'.clients && forall st :: !Serves(s', st, channel)
  {
    RequestKeepsIff(s, OpenRequest(channel, store, false));
    RequestKeepsIff(s, CloseRequest(channel, store, false));
    RequestKeepsIff(s, ClientLeaves(channel, order));
    assert Agree(Step(s, OpenRequest(channel, store, false)), channel, store);
    assert Agree(Step(s, CloseRequest(channel, store, false)), channel, store);
    DetachAllServes(s, channel, order);
    forall st ensures !Serves(Step(s, ClientLeaves(channel, order)), st, channel) {
      assert Agree(Step(s, ClientLeaves(channel, order)), channel, st);
    }
  }

  /** Joining registers a new client without open stores. */
  lemma JoinRegisters(s: Sync, channel: string)
    ensures channel in Join(s, channel).clients
    ensures channel !in s.clients ==> forall st :: !Holding(Join(s, channel), channel, st)
    ensures forall ch, st :: ch != channel || ch in s.clients ==>
              (Holding(Join(s, channel), ch, st) <==> Holding(s, ch, st))
  {
  }

  /** The last action that settled the pair was a misplaced stale request. */
  ghost predicate LeftStale(actions: seq<Action>, channel: string, store: string) {
    actions != [] &&
    var n := |actions| - 1;
    var s := Run(actions[..n]);
    if Settles(s, actions[n], channel, store) then Misplaced(s, actions[n]) else LeftStale(actions[..n], channel, store)
  }

  /** From a state in order, exactly the misplaced requests break the symmetry. */
  lemma RequestKeepsIff(s: Sync, a: Action)
    requires Inv(s)
    ensures Inv(Step(s, a)) <==> !Misplaced(s, a)
  {
    StepKeepsListeners(s, a);
    if Misplaced(s, a) {
      StepAgrees(s, a, a.channel, a.store);
      assert !Agree(Step(s, a), a.channel, a.store);
    } else {
      forall ch, st ensures Agree(Step(s, a), ch, st) {
        assert Agree(s, ch, st);
        StepAgrees(s, a, ch, st);
      }
    }
  }

  lemma StepKeeps(s: Sync, a: Action)
    requires Inv(s) && !Misplaced(s, a)
    ensures Inv(Step(s, a))
  {
    RequestKeepsIff(s, a);
  }

  /**
    Over every run, stale requests included: a client has a store open iff the store's
    listener serves it, exactly unless the last action that settled the pair was a
    misplaced stale request; no listener is without channels, and the subscribed streams
    are exactly the listeners'.
   */
  lemma {:induction false} IndexesAgree(actions: seq<Action>, channel: string, store: string)
    ensures var s := Run(actions);
            && ListenersOk(s)
            && (Agree(s, channel, store) <==> !LeftStale(actions, channel, store))
            && (store in s.listeners ==> s.listeners[store].channels != {})
            && s.live == (set st | st in s.listeners :: s.listeners[st].stream)
    decreases |actions|
  {
    if actions != [] {
      var n := |actions| - 1;
      IndexesAgree(actions[..n], channel, store);
      StepKeepsListeners(Run(actions[..n]), actions[n]);
      StepAgrees(Run(actions[..n]), actions[n], channel, store);
    }
    var s := Run(actions);
    forall n ensures n in s.live <==> n in set st | st in s.listeners :: s.listeners[st].stream {
      if n in s.live {
        var st :| HoldsStream(s, st, n);
      }
    }
  }

  /** In a run without misplaced requests everything agrees, and only registered clients are served. */
  lemma {:induction false} TimelyRunsAgree(actions: seq<Action>)
    requires forall i :: 0 <= i < |actions| ==> !Misplaced(Run(actions[..i]), actions[i])
    ensures Inv(Run(actions))
    ensures var s := Run(actions); forall st :: st in s.listeners ==> s.listeners[st].channels <= s.clients.Keys
  {
    if actions != [] {
      var n := |actions| - 1;
      forall i | 0 <= i < n ensures !Misplaced(Run(actions[..n][..i]), actions[..n][i]) {
        assert actions[..n][..i] == actions[..i];
      }
      TimelyRunsAgree(actions[..n]);
      StepKeeps(Run(actions[..n]), actions[n]);
    }
    var s := Run(actions);
    forall st, ch | st in s.listeners && ch in s.listeners[st].channels ensures ch in s.clients {
      assert Agree(s, ch, st);
    }
  }

  /** When the last client has left, a listener remains exactly where a misplaced request was the last word. */
  lemma NothingLeaks(actions: seq<Action>)
    requires Run(actions).clients == map[]
    ensures var s := Run(actions);
            && (s.listeners == map[] <==> s.live == {})
            && (s.listeners == map[] <==> forall ch, st :: !LeftStale(actions, ch, st))
  {
    var s := Run(actions);
    IndexesAgree(actions, "", "");
    if s.listeners != map[] {
      var st :| st in s.listeners;
      IndexesAgree(actions, "", st);
      var ch :| ch in s.listeners[st].channels;
      assert Serves(s, st, ch);
      IndexesAgree(actions, ch, st);
    }
    if ch, st :| LeftStale(actions, ch, st) {
      IndexesAgree(actions, ch, st);
      assert Serves(s, st, ch);
    }
  }

  /**
    An open request handled for a client object that is no longer the registered one
    reaches the listener but not the registered client: the indexes then agree exactly
    when the registered client of that name had the store open anyway.
   */
  lemma StaleOpenRequest(s: Sync, channel: string, store: string)
    requires Inv(s)
    ensures Symmetric(Attach(s, channel, store)) <==> Holding(s, channel, store)
  {
    RequestKeepsIff(s, OpenRequest(channel, store, true));
    AttachListeners(s, channel, store);
  }

  /**
    A stale close takes the registered client from the listener: the indexes agree exactly
    when that client did not have the store open.
   */
  lemma StaleCloseRequest(s: Sync, channel: string, store: string)
    requires Inv(s)
    ensures Symmetric(Detach(s, channel, store)) <==> !Holding(s, channel, store)
  {
    RequestKeepsIff(s, CloseRequest(channel, store, true));
    DetachListeners(s, channel, store);
  }
}
