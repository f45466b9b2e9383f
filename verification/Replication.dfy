/**
  Galactic replication: a server store, the notification goroutines of its changes,
  the sync listener that turns them into update responses, the snapshot sent when a
  client opens the store (bus/store_sync_service.go), and the client's replica
  (bus/store.go). Goroutines run and messages arrive in any order. The theorems say what
  the replica then holds, and exactly when it ends up equal to the server.
 */
module Replication {
  import opened Options
  import opened Store

  datatype Snapshot = Snapshot(items: Items, version: int, position: nat)

  /** Messages to the client; an update is named by its position in the server's log. */
  datatype Packet = SnapshotPacket | UpdatePacket(position: nat)

  /**
    `registeredAt`: log length and number of notifications already run when the
    listener was registered; `pending`: changes whose goroutine has not run;
    `notified`: the order in which they ran; `delivered`: the order of arrival.
   */
  datatype System = System(
    base: Items,
    baseVersion: int,
    server: Store,
    registeredAt: Option<(nat, nat)>,
    snapshot: Option<Snapshot>,
    pending: set<nat>,
    notified: seq<nat>,
    inFlight: set<Packet>,
    delivered: seq<Packet>,
    replica: Store)

  datatype Action =
    | Perform(op: Op)
    | Register
    | ReadSnapshot
    | Notify(position: nat)
    | Deliver(packet: Packet)

  function Init(base: Items, version: int): System {
    System(base, version, Store(base, version, false, true, []), None, None, {}, [], {}, [], NewStore(true))
  }

  predicate Enabled(s: System, a: Action) {
    match a
    case Perform(_) => true
    case Register => s.registeredAt.None?
    case ReadSnapshot => s.registeredAt.Some? && s.snapshot.None?
    case Notify(i) => i in s.pending
    case Deliver(p) => p in s.inFlight
  }

  /** What the client does with a packet. */
  function Receive(r: Store, log: seq<StoreChange>, snapshot: Option<Snapshot>, p: Packet): Store {
    match p
    case SnapshotPacket =>
      if snapshot.None? then r else OnContent(r, snapshot.value.items, Some(snapshot.value.version))
    case UpdatePacket(i) =>
      if i >= |log| then r
      else OnUpdate(r, log[i].id, if log[i].isDelete then Nil else log[i].value, Some(log[i].version))
  }

  function Step(s: System, a: Action): System {
    if !Enabled(s, a) then s
    else match a
      case Perform(op) =>
        var server := Do(s.server, op);
        s.(server := server,
           pending := if |server.log| > |s.server.log| then s.pending + {|s.server.log|} else s.pending)
      case Register => s.(registeredAt := Some((|s.server.log|, |s.notified|)))
      case ReadSnapshot =>
        s.(snapshot := Some(Snapshot(s.server.items, s.server.version, |s.server.log|)),
           inFlight := s.inFlight + {SnapshotPacket})
      case Notify(i) =>
        s.(pending := s.pending - {i},
           notified := s.notified + [i],
           inFlight := if s.registeredAt.Some? then s.inFlight + {UpdatePacket(i)} else s.inFlight)
      case Deliver(p) =>
        s.(inFlight := s.inFlight - {p},
           delivered := s.delivered + [p],
           replica := Receive(s.replica, s.server.log, s.snapshot, p))
  }

  function Run(base: Items, version: int, actions: seq<Action>): System {
    if actions == [] then Init(base, version)
    else Step(Run(base, version, actions[..|actions| - 1]), actions[|actions| - 1])
  }

  // ----- replaying updates over a snapshot that already contains some of them -----

  function Lookup(items: Items, k: string): Option<Value> {
    if k in items then Some(items[k]) else None
  }

  /** On the wire a nil value means removal. */
  function Wired(items: Items, c: StoreChange): Items {
    if c.isDelete || c.value.Nil? then items - {c.id} else items[c.id := c.value]
  }

  function WireReplay(items: Items, cs: seq<StoreChange>): Items {
    if cs == [] then items else Wired(WireReplay(items, cs[..|cs| - 1]), cs[|cs| - 1])
  }

  /** The last change of a key. */
  function LastOf(cs: seq<StoreChange>, k: string): Option<StoreChange> {
    if cs == [] then None
    else if cs[|cs| - 1].id == k then Some(cs[|cs| - 1])
    else LastOf(cs[..|cs| - 1], k)
  }

  function Left(c: StoreChange): Option<Value> { if c.isDelete then None else Some(c.value) }

  function LeftOnWire(c: StoreChange): Option<Value> {
    if c.isDelete || c.value.Nil? then None else Some(c.value)
  }

  lemma {:induction false} LastChangeWins(items: Items, cs: seq<StoreChange>, k: string)
    ensures Lookup(Replay(items, cs), k) ==
            (match LastOf(cs, k) case None => Lookup(items, k) case Some(c) => Left(c))
    ensures Lookup(WireReplay(items, cs), k) ==
            (match LastOf(cs, k) case None => Lookup(items, k) case Some(c) => LeftOnWire(c))
  {
    if cs != [] {
      LastChangeWins(items, cs[..|cs| - 1], k);
    }
  }

  /** The server's items after the first `n` changes. */
  function ItemsAt(base: Items, log: seq<StoreChange>, n: nat): Items
    requires n <= |log|
  {
    Replay(base, log[..n])
  }

  lemma SameItems(x: Items, y: Items)
    ensures x == y <==> forall k :: Lookup(x, k) == Lookup(y, k)
  {
    if forall k :: Lookup(x, k) == Lookup(y, k) {
      assert forall k :: k in x <==> k in y by {
        forall k ensures k in x <==> k in y {
          assert Lookup(x, k) == Lookup(y, k);
        }
      }
      forall k | k in x ensures x[k] == y[k] {
        assert Lookup(x, k) == Lookup(y, k);
      }
      assert x == y;
    }
  }

  // ----- the invariant -----

  predicate InRange(xs: seq<nat>, n: nat) { forall i :: 0 <= i < |xs| ==> xs[i] < n }

  ghost predicate DistinctSeq<T>(xs: seq<T>) { forall i, j :: 0 <= i < j < |xs| ==> xs[i] != xs[j] }

  /** Every change is either still to be announced or was announced once. */
  ghost predicate NotifiedOk(s: System) {
    && DistinctSeq(s.notified)
    && (forall i :: i in s.pending ==> i < |s.server.log| && i !in s.notified)
    && (forall i :: 0 <= i < |s.server.log| ==> i in s.pending || i in s.notified)
    && InRange(s.notified, |s.server.log|)
  }

  /** The notifications that found the listener registered. */
  function Heard(s: System): seq<nat> {
    if s.registeredAt.Some? && s.registeredAt.value.1 <= |s.notified| then s.notified[s.registeredAt.value.1..] else []
  }

  /** What is or was under way is exactly what was heard, and the snapshot. */
  ghost predicate PacketsOk(s: System) {
    && DistinctSeq(s.delivered)
    && (forall p :: p in s.inFlight ==> p !in s.delivered)
    && (forall i :: UpdatePacket(i) in s.inFlight || UpdatePacket(i) in s.delivered <==> i in Heard(s))
    && (SnapshotPacket in s.inFlight || SnapshotPacket in s.delivered <==> s.snapshot.Some?)
  }

  /** The listener is registered before the snapshot is read, so what it missed is in the snapshot. */
  ghost predicate SnapshotOk(s: System) {
    && (s.registeredAt.Some? ==>
          && s.registeredAt.value.0 <= |s.server.log|
          && s.registeredAt.value.1 <= |s.notified|
          && InRange(s.notified[..s.registeredAt.value.1], s.registeredAt.value.0))
    && (s.snapshot.Some? ==>
          && s.registeredAt.Some?
          && s.registeredAt.value.0 <= s.snapshot.value.position <= |s.server.log|
          && s.snapshot.value.items == ItemsAt(s.base, s.server.log, s.snapshot.value.position)
          && s.snapshot.value.version == s.baseVersion + s.snapshot.value.position)
  }

  /** The replica is what the delivered packets make of a new galactic store. */
  function ReplicaOf(log: seq<StoreChange>, snapshot: Option<Snapshot>, ps: seq<Packet>): Store {
    if ps == [] then NewStore(true)
    else Receive(ReplicaOf(log, snapshot, ps[..|ps| - 1]), log, snapshot, ps[|ps| - 1])
  }

  ghost predicate Inv(s: System) {
    && !s.server.galactic && LogOk(s.base, s.baseVersion, s.server)
    && NotifiedOk(s) && PacketsOk(s) && SnapshotOk(s)
    && s.replica == ReplicaOf(s.server.log, s.snapshot, s.delivered)
  }

  /** Packets already under way mean the same after the log has grown. */
  lemma {:induction false} ReplicaStable(log: seq<StoreChange>, log': seq<StoreChange>,
                                         snapshot: Option<Snapshot>, ps: seq<Packet>)
    requires log <= log'
    requires forall p :: p in ps && p.UpdatePacket? ==> p.position < |log|
    ensures ReplicaOf(log', snapshot, ps) == ReplicaOf(log, snapshot, ps)
  {
    if ps != [] {
      ReplicaStable(log, log', snapshot, ps[..|ps| - 1]);
      assert ps[|ps| - 1] in ps;
    }
  }

  lemma {:induction false} ReplicaBeforeSnapshot(log: seq<StoreChange>, snapshot: Option<Snapshot>, ps: seq<Packet>)
    requires SnapshotPacket !in ps
    ensures ReplicaOf(log, snapshot, ps) == ReplicaOf(log, None, ps)
  {
    if ps != [] {
      ReplicaBeforeSnapshot(log, snapshot, ps[..|ps| - 1]);
      assert ps[|ps| - 1] in ps;
    }
  }

  lemma PerformKeeps(s: System, op: Op)
    requires Inv(s)
    ensures Inv(Step(s, Perform(op)))
  {
    var s' := Step(s, Perform(op));
    DoKeepsLog(s.base, s.baseVersion, s.server, op);
    if s.snapshot.Some? {
      assert s'.server.log[..s.snapshot.value.position] == s.server.log[..s.snapshot.value.position];
    }
    forall p | p in s.delivered && p.UpdatePacket? ensures p.position < |s.server.log| {
      assert UpdatePacket(p.position) in s.delivered;
      assert p.position in Heard(s);
    }
    ReplicaStable(s.server.log, s'.server.log, s.snapshot, s.delivered);
    assert Heard(s') == Heard(s);
    PerformKeepsNotified(s, op);
  }

  lemma PerformKeepsNotified(s: System, op: Op)
    requires NotifiedOk(s)
    ensures NotifiedOk(Step(s, Perform(op)))
  {
  }

  lemma ReadSnapshotKeeps(s: System)
    requires Inv(s) && Enabled(s, ReadSnapshot)
    ensures Inv(Step(s, ReadSnapshot))
  {
    var s' := Step(s, ReadSnapshot);
    assert s.server.log[..|s.server.log|] == s.server.log;
    ReplicaBeforeSnapshot(s.server.log, s'.snapshot, s.delivered);
    assert Heard(s') == Heard(s);
  }

  lemma NotifyKeeps(s: System, i: nat)
    requires Inv(s) && Enabled(s, Notify(i))
    ensures Inv(Step(s, Notify(i)))
  {
    var s' := Step(s, Notify(i));
    if s.registeredAt.Some? {
      assert Heard(s') == Heard(s) + [i];
      assert s'.notified[..s.registeredAt.value.1] == s.notified[..s.registeredAt.value.1];
      assert i !in Heard(s);
    } else {
      assert Heard(s') == Heard(s);
    }
  }

  lemma RegisterKeeps(s: System)
    requires Inv(s) && Enabled(s, Register)
    ensures Inv(Step(s, Register))
  {
    var s' := Step(s, Register);
    assert s.notified[..|s.notified|] == s.notified;
    assert Heard(s') == [] == Heard(s);
  }

  lemma DeliverKeeps(s: System, p: Packet)
    requires Inv(s) && Enabled(s, Deliver(p))
    ensures Inv(Step(s, Deliver(p)))
  {
    var s' := Step(s, Deliver(p));
    assert s'.delivered[..|s'.delivered| - 1] == s.delivered;
    DeliverKeepsPackets(s, p);
  }

  lemma DeliverKeepsPackets(s: System, p: Packet)
    requires PacketsOk(s) && p in s.inFlight
    ensures PacketsOk(Step(s, Deliver(p)))
  {
    var s' := Step(s, Deliver(p));
    assert Heard(s') == Heard(s);
    assert forall q :: q in s'.delivered <==> q in s.delivered || q == p;
  }

  lemma {:induction false} RunKeeps(base: Items, version: int, actions: seq<Action>)
    ensures Inv(Run(base, version, actions))
    ensures Run(base, version, actions).base == base && Run(base, version, actions).baseVersion == version
  {
    if actions != [] {
      var n := |actions| - 1;
      RunKeeps(base, version, actions[..n]);
      var s := Run(base, version, actions[..n]);
      if Enabled(s, actions[n]) {
        match actions[n]
        case Perform(op) => PerformKeeps(s, op);
        case Register => RegisterKeeps(s);
        case ReadSnapshot => ReadSnapshotKeeps(s);
        case Notify(i) => NotifyKeeps(s, i);
        case Deliver(p) => DeliverKeeps(s, p);
      }
    }
  }

  // ----- convergence -----

  /** Every notification has run, everything sent has arrived, the snapshot among it. */
  ghost predicate Settled(s: System) {
    s.pending == {} && s.inFlight == {} && s.snapshot.Some?
  }

  ghost predicate Increasing(xs: seq<nat>) { forall i, j :: 0 <= i < j < |xs| ==> xs[i] < xs[j] }

  /** Notifications ran and updates arrived in version order. */
  ghost predicate InVersionOrder(s: System) {
    Increasing(s.notified) && UpdatesIncrease(s.delivered)
  }

  ghost predicate UpdatesIncrease(ds: seq<Packet>) {
    forall i, j :: 0 <= i < j < |ds| && ds[i].UpdatePacket? && ds[j].UpdatePacket? ==> ds[i].position < ds[j].position
  }

  /** No update newer than the snapshot arrived before it. */
  ghost predicate NotOvertaken(s: System) {
    s.snapshot.Some? ==>
      forall i, j :: 0 <= i < j < |s.delivered| && s.delivered[i].UpdatePacket? && s.delivered[j].SnapshotPacket?
        ==> s.delivered[i].position < s.snapshot.value.position
  }

  // ----- what the replica holds, whatever the order of arrival -----

  lemma ReceiveUpdate(r: Store, log: seq<StoreChange>, snapshot: Option<Snapshot>, i: nat)
    requires i < |log|
    ensures var r' := Receive(r, log, snapshot, UpdatePacket(i));
            r'.items == Wired(r.items, log[i]) && r'.galactic == r.galactic
            && (r.galactic ==> r'.version == log[i].version)
  {
  }

  /** The changes that arrived after the snapshot, in order of arrival. */
  function Arrivals(log: seq<StoreChange>, ds: seq<Packet>): seq<StoreChange> {
    if ds == [] then []
    else
      match ds[|ds| - 1]
      case SnapshotPacket => []
      case UpdatePacket(i) => Arrivals(log, ds[..|ds| - 1]) + if i < |log| then [log[i]] else []
  }

  lemma {:induction false} ReplicaReplays(log: seq<StoreChange>, snap: Snapshot, ds: seq<Packet>)
    requires SnapshotPacket in ds
    ensures ReplicaOf(log, Some(snap), ds).items == WireReplay(snap.items, Arrivals(log, ds))
  {
    var n := |ds| - 1;
    if ds[n].UpdatePacket? {
      assert SnapshotPacket in ds[..n];
      ReplicaReplays(log, snap, ds[..n]);
      var cs := Arrivals(log, ds[..n]);
      var i := ds[n].position;
      if i < |log| {
        ReceiveUpdate(ReplicaOf(log, Some(snap), ds[..n]), log, Some(snap), i);
        assert (cs + [log[i]])[..|cs|] == cs;
      } else {
        assert cs + [] == cs;
      }
    }
  }

  lemma {:induction false} ReplicaIsGalactic(log: seq<StoreChange>, snapshot: Option<Snapshot>, ps: seq<Packet>)
    ensures ReplicaOf(log, snapshot, ps).galactic
  {
    if ps != [] {
      ReplicaIsGalactic(log, snapshot, ps[..|ps| - 1]);
    }
  }

  /** The first `upTo` changes, as far as one key is concerned; learnt `byUpdate` or from the snapshot. */
  datatype Knowledge = Knowledge(upTo: nat, byUpdate: bool)

  predicate IsAbout(log: seq<StoreChange>, p: Packet, k: string) {
    p.SnapshotPacket? || (p.position < |log| && log[p.position].id == k)
  }

  /** What the last arrival about a key told: the snapshot tells about every key. */
  function Known(log: seq<StoreChange>, v: nat, ds: seq<Packet>, k: string): Knowledge {
    if ds == [] then Knowledge(0, false)
    else
      var p := ds[|ds| - 1];
      if !IsAbout(log, p, k) then Known(log, v, ds[..|ds| - 1], k)
      else if p.SnapshotPacket? then Knowledge(v, false) else Knowledge(p.position + 1, true)
  }

  ghost predicate KnownAt(log: seq<StoreChange>, v: nat, ds: seq<Packet>, k: string, m: nat) {
    && m < |ds| && IsAbout(log, ds[m], k)
    && (forall i :: m < i < |ds| ==> !IsAbout(log, ds[i], k))
    && Known(log, v, ds, k) ==
       if ds[m].SnapshotPacket? then Knowledge(v, false) else Knowledge(ds[m].position + 1, true)
  }

  lemma {:induction false} KnownFrom(log: seq<StoreChange>, v: nat, ds: seq<Packet>, k: string) returns (m: nat)
    requires SnapshotPacket in ds
    ensures KnownAt(log, v, ds, k, m)
  {
    var n := |ds| - 1;
    if IsAbout(log, ds[n], k) {
      m := n;
    } else {
      assert SnapshotPacket in ds[..n];
      m := KnownFrom(log, v, ds[..n], k);
      assert ds[..n][m] == ds[m];
      forall i | m < i < |ds| ensures !IsAbout(log, ds[i], k) {
        if i < n { assert ds[..n][i] == ds[i]; }
      }
    }
  }

  /** What the replica holds for a key it knows this much about. */
  function Held(base: Items, log: seq<StoreChange>, kn: Knowledge, k: string): Option<Value>
    requires kn.upTo <= |log|
  {
    var was := Lookup(ItemsAt(base, log, kn.upTo), k);
    if kn.byUpdate && was == Some(Nil) then None else was
  }

  lemma ItemsAtNext(base: Items, log: seq<StoreChange>, n: nat)
    requires n < |log|
    ensures ItemsAt(base, log, n + 1) == Replayed(ItemsAt(base, log, n), log[n])
  {
    assert log[..n + 1][..n] == log[..n];
  }

  lemma {:induction false} ReplicaHolds(base: Items, log: seq<StoreChange>, snap: Snapshot, ds: seq<Packet>, k: string)
    requires SnapshotPacket in ds && snap.position <= |log| && snap.items == ItemsAt(base, log, snap.position)
    ensures var kn := Known(log, snap.position, ds, k);
            kn.upTo <= |log| && Lookup(ReplicaOf(log, Some(snap), ds).items, k) == Held(base, log, kn, k)
  {
    var n := |ds| - 1;
    if ds[n].UpdatePacket? {
      assert SnapshotPacket in ds[..n];
      ReplicaHolds(base, log, snap, ds[..n], k);
      var i := ds[n].position;
      if i < |log| {
        ReceiveUpdate(ReplicaOf(log, Some(snap), ds[..n]), log, Some(snap), i);
        ItemsAtNext(base, log, i);
      }
    }
  }

  function KnownIn(s: System, k: string): Knowledge {
    Known(s.server.log, if s.snapshot.Some? then s.snapshot.value.position else 0, s.delivered, k)
  }

  /**
    At any time of any run after the snapshot arrived, whatever the order of arrival: for
    each key the replica holds what the server held after the last change that arrived
    about it, or at the snapshot if none did; nil that came by an update is absent. The
    updates replayed over the snapshot in order of arrival give the same.
   */
  lemma ReplicaShowsPast(base: Items, version: int, actions: seq<Action>, k: string)
    requires SnapshotPacket in Run(base, version, actions).delivered
    ensures var s := Run(base, version, actions);
            && KnownIn(s, k).upTo <= |s.server.log|
            && Lookup(s.replica.items, k) == Held(base, s.server.log, KnownIn(s, k), k)
            && s.snapshot.Some?
            && var arrived := Arrivals(s.server.log, s.delivered);
               && s.replica.items == WireReplay(s.snapshot.value.items, arrived)
               && Lookup(s.replica.items, k) == (match LastOf(arrived, k)
                                                 case None => Lookup(s.snapshot.value.items, k)
                                                 case Some(c) => LeftOnWire(c))
  {
    RunKeeps(base, version, actions);
    var s := Run(base, version, actions);
    ReplicaHolds(base, s.server.log, s.snapshot.value, s.delivered, k);
    ReplicaReplays(s.server.log, s.snapshot.value, s.delivered);
    LastChangeWins(s.snapshot.value.items, Arrivals(s.server.log, s.delivered), k);
  }

  ghost predicate ChangedSince(log: seq<StoreChange>, n: nat, k: string) {
    exists q :: n <= q < |log| && log[q].id == k
  }

  /** The key changed after the last thing that arrived about it. */
  ghost predicate Outdated(s: System, k: string) { ChangedSince(s.server.log, KnownIn(s, k).upTo, k) }

  lemma {:induction false} UnchangedSince(base: Items, log: seq<StoreChange>, n: nat, m: nat, k: string)
    requires n <= m <= |log| && forall q :: n <= q < m ==> log[q].id != k
    ensures Lookup(ItemsAt(base, log, n), k) == Lookup(ItemsAt(base, log, m), k)
    decreases m
  {
    if n < m {
      UnchangedSince(base, log, n, m - 1, k);
      ItemsAtNext(base, log, m - 1);
    }
  }

  /** The key came by an update and the server holds nil for it. */
  ghost predicate NilByUpdate(s: System, k: string) {
    KnownIn(s, k).byUpdate && Lookup(s.server.items, k) == Some(Nil)
  }

  /** An outdated key holds by coincidence what the server went back to; any other key holds no nil from an update. */
  ghost predicate InStep(s: System, k: string)
    requires KnownIn(s, k).upTo <= |s.server.log|
  {
    if Outdated(s, k) then Held(s.base, s.server.log, KnownIn(s, k), k) == Lookup(s.server.items, k)
    else !NilByUpdate(s, k)
  }

  ghost predicate LastIsNewest(s: System) {
    && s.delivered != [] && s.snapshot.Some?
    && match s.delivered[|s.delivered| - 1]
       case SnapshotPacket => s.snapshot.value.position == |s.server.log|
       case UpdatePacket(i) => i + 1 == |s.server.log|
  }

  /**
    Any run that has settled, with notifications and arrivals in any order: the replica has
    the server's items exactly when every key is in step, and the server's version exactly
    when the last arrival is the newest change or a snapshot that is still current.
   */
  lemma SettledReplica(base: Items, version: int, actions: seq<Action>)
    requires Settled(Run(base, version, actions))
    ensures var s := Run(base, version, actions);
            && (forall k :: KnownIn(s, k).upTo <= |s.server.log|)
            && (s.replica.items == s.server.items <==> forall k :: InStep(s, k))
            && (s.replica.version == s.server.version <==> LastIsNewest(s))
  {
    RunKeeps(base, version, actions);
    var s := Run(base, version, actions);
    assert SnapshotPacket in s.delivered;
    forall k
      ensures KnownIn(s, k).upTo <= |s.server.log|
      ensures InStep(s, k) <==> Lookup(s.replica.items, k) == Lookup(s.server.items, k)
    {
      ReplicaShowsPast(base, version, actions, k);
      KeyInStep(s, k);
    }
    SameItems(s.replica.items, s.server.items);
    SettledVersion(s);
  }

  lemma KeyInStep(s: System, k: string)
    requires s.server.items == Replay(s.base, s.server.log) && KnownIn(s, k).upTo <= |s.server.log|
    requires Lookup(s.replica.items, k) == Held(s.base, s.server.log, KnownIn(s, k), k)
    ensures InStep(s, k) <==> Lookup(s.replica.items, k) == Lookup(s.server.items, k)
  {
    if !Outdated(s, k) {
      var log := s.server.log;
      UnchangedSince(s.base, log, KnownIn(s, k).upTo, |log|, k);
      assert log[..|log|] == log;
    }
  }

  lemma SettledVersion(s: System)
    requires Inv(s) && Settled(s)
    ensures s.replica.version == s.server.version <==> LastIsNewest(s)
  {
    var n := |s.delivered| - 1;
    assert SnapshotPacket in s.delivered;
    ReplicaIsGalactic(s.server.log, s.snapshot, s.delivered[..n]);
    if s.delivered[n].UpdatePacket? {
      assert UpdatePacket(s.delivered[n].position) in s.delivered;
      var before := ReplicaOf(s.server.log, s.snapshot, s.delivered[..n]);
      ReceiveUpdate(before, s.server.log, s.snapshot, s.delivered[n].position);
    }
  }

  ghost predicate NoNilPut(s: System) {
    forall i :: 0 <= i < |s.server.log| ==> s.server.log[i].value != Nil
  }

  /** No key goes back to a value it had before. */
  ghost predicate NeverReturns(s: System) {
    forall n, k :: 0 <= n <= |s.server.log| && ChangedSince(s.server.log, n, k) ==>
      Lookup(ItemsAt(s.base, s.server.log, n), k) != Lookup(s.server.items, k)
  }

  /**
    Without nil and without values that come back, a settled replica equals its server
    exactly when for every key the last thing to arrive about it is not older than the
    key's last change.
   */
  lemma ConvergesIffCurrent(base: Items, version: int, actions: seq<Action>)
    requires var s := Run(base, version, actions); Settled(s) && NoNilPut(s) && NeverReturns(s)
    ensures var s := Run(base, version, actions);
            s.replica.items == s.server.items <==> forall k :: !Outdated(s, k)
  {
    RunKeeps(base, version, actions);
    SettledReplica(base, version, actions);
    var s := Run(base, version, actions);
    forall k ensures InStep(s, k) <==> !Outdated(s, k) {
      KnownValue(s, k);
      if !Outdated(s, k) {
        UnchangedSince(s.base, s.server.log, KnownIn(s, k).upTo, |s.server.log|, k);
        assert s.server.log[..|s.server.log|] == s.server.log;
      }
    }
  }

  /** What an update leaves is never nil. */
  lemma KnownValue(s: System, k: string)
    requires Inv(s) && Settled(s) && NoNilPut(s)
    ensures var kn := KnownIn(s, k);
            && kn.upTo <= |s.server.log|
            && (kn.byUpdate ==> Lookup(ItemsAt(s.base, s.server.log, kn.upTo), k) != Some(Nil))
  {
    assert SnapshotPacket in s.delivered;
    var m := KnownFrom(s.server.log, s.snapshot.value.position, s.delivered, k);
    if s.delivered[m].UpdatePacket? {
      ItemsAtNext(s.base, s.server.log, s.delivered[m].position);
    }
  }

  // ----- convergence when each key keeps its order -----

  predicate SameKey(log: seq<StoreChange>, p: nat, q: nat) { p < |log| && q < |log| && log[p].id == log[q].id }

  predicate SameKeyPackets(log: seq<StoreChange>, p: Packet, q: Packet) {
    p.UpdatePacket? && q.UpdatePacket? && SameKey(log, p.position, q.position)
  }

  /** Changes of one key are notified and arrive in their order; different keys may pass each other. */
  ghost predicate InKeyOrder(s: System) {
    && (forall i, j :: 0 <= i < j < |s.notified| && SameKey(s.server.log, s.notified[i], s.notified[j]) ==>
          s.notified[i] < s.notified[j])
    && (forall i, j :: 0 <= i < j < |s.delivered| && SameKeyPackets(s.server.log, s.delivered[i], s.delivered[j]) ==>
          s.delivered[i].position < s.delivered[j].position)
  }

  ghost predicate IsLastChange(log: seq<StoreChange>, q: nat, k: string) {
    q < |log| && log[q].id == k && forall r :: q < r < |log| ==> log[r].id != k
  }

  ghost predicate ArrivesBefore(s: System, p: Packet, p': Packet) {
    exists i, j :: 0 <= i < j < |s.delivered| && s.delivered[i] == p && s.delivered[j] == p'
  }

  ghost predicate OvertookAt(s: System, q: nat, k: string)
    requires s.snapshot.Some?
  {
    && IsLastChange(s.server.log, q, k)
    && s.snapshot.value.position <= q
    && ArrivesBefore(s, UpdatePacket(q), SnapshotPacket)
  }

  /** The key's last change is newer than the snapshot and arrived before it. */
  ghost predicate Overtook(s: System, k: string) {
    s.snapshot.Some? && exists q :: OvertookAt(s, q, k)
  }

  lemma {:induction false} LastChange(log: seq<StoreChange>, n: nat, m: nat, k: string) returns (q: nat)
    requires n <= m <= |log| && exists p :: n <= p < m && log[p].id == k
    requires forall r :: m <= r < |log| ==> log[r].id != k
    ensures n <= q < m && IsLastChange(log, q, k)
    decreases m
  {
    if log[m - 1].id == k {
      q := m - 1;
    } else {
      q := LastChange(log, n, m - 1, k);
    }
  }

  /** A change either found no listener, and is then in the snapshot, or has arrived. */
  lemma HeardOrMissed(s: System, q: nat)
    requires Inv(s) && Settled(s) && q < |s.server.log|
    ensures UpdatePacket(q) in s.delivered ||
            (q in s.notified[..s.registeredAt.value.1] && q < s.snapshot.value.position)
  {
    var r := s.registeredAt.value.1;
    assert q in s.notified;
    var y :| 0 <= y < |s.notified| && s.notified[y] == q;
    if y < r {
      assert s.notified[..r][y] == q;
    } else {
      assert Heard(s)[y - r] == q;
    }
  }

  /** A change of the key that was missed was notified before any that arrived. */
  lemma MissedComesFirst(s: System, q: nat, p: nat)
    requires Inv(s) && Settled(s) && q in s.notified[..s.registeredAt.value.1] && UpdatePacket(p) in s.delivered
    ensures exists i, j :: 0 <= i < j < |s.notified| && s.notified[i] == q && s.notified[j] == p
  {
    var r := s.registeredAt.value.1;
    var y :| 0 <= y < r && s.notified[..r][y] == q;
    assert p in Heard(s);
    var x :| 0 <= x < |Heard(s)| && Heard(s)[x] == p;
    assert s.notified[y] == q && s.notified[r + x] == p;
  }

  /** Where the snapshot arrived, and the last arrival about a key. */
  lemma KnownSince(s: System, k: string) returns (j: nat, m: nat)
    requires Inv(s) && Settled(s)
    ensures j <= m < |s.delivered| && s.delivered[j] == SnapshotPacket
    ensures KnownAt(s.server.log, s.snapshot.value.position, s.delivered, k, m)
    ensures m == j || (s.delivered[m].UpdatePacket? && s.delivered[m].position < |s.server.log|)
  {
    assert SnapshotPacket in s.delivered;
    j :| 0 <= j < |s.delivered| && s.delivered[j] == SnapshotPacket;
    m := KnownFrom(s.server.log, s.snapshot.value.position, s.delivered, k);
  }

  /** If the last change arrived, it did so before the snapshot, which does not contain it. */
  lemma OutdatedByArrival(s: System, k: string, q: nat, j: nat, m: nat, i: nat)
    requires InKeyOrder(s) && s.snapshot.Some? && IsLastChange(s.server.log, q, k) && KnownIn(s, k).upTo <= q
    requires j <= m < |s.delivered| && s.delivered[j] == SnapshotPacket
    requires m == j || s.delivered[m].UpdatePacket?
    requires KnownAt(s.server.log, s.snapshot.value.position, s.delivered, k, m)
    requires i < |s.delivered| && s.delivered[i] == UpdatePacket(q)
    ensures i < j && s.snapshot.value.position <= q
  {
    if j < m && i < m {
      assert SameKeyPackets(s.server.log, s.delivered[i], s.delivered[m]);
      assert false;
    }
  }

  lemma OutdatedOvertook(s: System, k: string)
    requires Inv(s) && Settled(s) && InKeyOrder(s) && Outdated(s, k)
    ensures Overtook(s, k)
  {
    var j, m := KnownSince(s, k);
    var q := LastChange(s.server.log, KnownIn(s, k).upTo, |s.server.log|, k);
    HeardOrMissed(s, q);
    if UpdatePacket(q) in s.delivered {
      var i :| 0 <= i < |s.delivered| && s.delivered[i] == UpdatePacket(q);
      OutdatedByArrival(s, k, q, j, m, i);
      assert s.delivered[j] == SnapshotPacket;
      assert OvertookAt(s, q, k);
    } else if j < m {
      MissedComesFirst(s, q, s.delivered[m].position);
      assert SameKey(s.server.log, q, s.delivered[m].position);
      assert false;
    }
  }

  lemma OvertookOutdated(s: System, k: string)
    requires Inv(s) && Settled(s) && InKeyOrder(s) && Overtook(s, k)
    ensures Outdated(s, k)
  {
    var j, m := KnownSince(s, k);
    var q: nat :| OvertookAt(s, q, k);
    var i, j' :| 0 <= i < j' < |s.delivered| && s.delivered[i] == UpdatePacket(q) && s.delivered[j'] == SnapshotPacket;
    if j < m {
      assert false;
    }
    assert s.server.log[q].id == k;
  }

  /** In key order, exactly the keys whose last change overtook the snapshot are outdated. */
  lemma OutdatedIffOvertook(s: System, k: string)
    requires Inv(s) && Settled(s) && InKeyOrder(s)
    ensures Outdated(s, k) <==> Overtook(s, k)
  {
    if Outdated(s, k) { OutdatedOvertook(s, k); }
    if Overtook(s, k) { OvertookOutdated(s, k); }
  }

  lemma NoneOvertook(s: System, k: string)
    requires s.snapshot.Some? && NotOvertaken(s)
    ensures !Overtook(s, k)
  {
  }

  /** No key of an update that arrived after the snapshot holds nil on the server. */
  ghost predicate NoNilReplayed(s: System) {
    forall i, j :: 0 <= j < i < |s.delivered| && s.delivered[j].SnapshotPacket? && s.delivered[i].UpdatePacket?
                   && s.delivered[i].position < |s.server.log|
      ==> Lookup(s.server.items, s.server.log[s.delivered[i].position].id) != Some(Nil)
  }

  lemma NilReplayed(s: System)
    requires Inv(s) && Settled(s)
    ensures NoNilReplayed(s) <==> forall k :: !NilByUpdate(s, k)
  {
    var log, ds, v := s.server.log, s.delivered, s.snapshot.value.position;
    assert SnapshotPacket in ds;
    var j :| 0 <= j < |ds| && ds[j] == SnapshotPacket;
    if NoNilReplayed(s) {
      forall k ensures !NilByUpdate(s, k) {
        var m := KnownFrom(log, v, ds, k);
        assert m >= j;
      }
    }
    if forall k :: !NilByUpdate(s, k) {
      forall i | j < i < |ds| ensures Lookup(s.server.items, log[ds[i].position].id) != Some(Nil) {
        var k := log[ds[i].position].id;
        var m := KnownFrom(log, v, ds, k);
        assert m >= i;
        assert !NilByUpdate(s, k);
      }
    }
  }

  /**
    Convergence. When everything has settled, changes of one key kept their order and no
    update newer than the snapshot overtook it, the replica has the server's items exactly
    when no replayed key holds nil there; updates the snapshot already contains may be
    replayed after it. In version order it has the server's version too.
   */
  lemma ReplicaConverges(base: Items, version: int, actions: seq<Action>)
    requires var s := Run(base, version, actions);
             Settled(s) && (InKeyOrder(s) || InVersionOrder(s)) && NotOvertaken(s)
    ensures var s := Run(base, version, actions);
            && (s.replica.items == s.server.items <==> NoNilReplayed(s))
            && (InVersionOrder(s) ==> s.replica.version == s.server.version)
  {
    RunKeeps(base, version, actions);
    SettledReplica(base, version, actions);
    var s := Run(base, version, actions);
    if InVersionOrder(s) {
      VersionOrderIsKeyOrder(s);
      NewestInOrder(s);
    }
    InStepUnlessNil(s);
  }

  lemma InStepUnlessNil(s: System)
    requires Inv(s) && Settled(s) && InKeyOrder(s) && NotOvertaken(s)
    requires forall k :: KnownIn(s, k).upTo <= |s.server.log|
    ensures (forall k :: InStep(s, k)) <==> NoNilReplayed(s)
  {
    forall k ensures InStep(s, k) <==> !NilByUpdate(s, k) {
      OutdatedIffOvertook(s, k);
      NoneOvertook(s, k);
    }
    NilReplayed(s);
  }

  lemma NewestInOrder(s: System)
    requires Inv(s) && Settled(s) && InVersionOrder(s) && NotOvertaken(s)
    ensures LastIsNewest(s)
  {
    VersionInOrder(s);
    assert SnapshotPacket in s.delivered;
    if s.delivered[|s.delivered| - 1].SnapshotPacket? {
      CurrentUnlessOvertaken(s);
    }
  }

  /** In version order no change is newer than the last update to arrive. */
  lemma LastUpdateIsNewest(s: System, q: nat)
    requires Inv(s) && Settled(s) && InVersionOrder(s) && q < |s.server.log|
    requires s.delivered != [] && s.delivered[|s.delivered| - 1].UpdatePacket?
    ensures q <= s.delivered[|s.delivered| - 1].position
  {
    var last := s.delivered[|s.delivered| - 1];
    assert UpdatePacket(last.position) in s.delivered;
    HeardOrMissed(s, q);
    if UpdatePacket(q) in s.delivered {
      var i :| 0 <= i < |s.delivered| && s.delivered[i] == UpdatePacket(q);
    } else {
      MissedComesFirst(s, q, last.position);
    }
  }

  lemma VersionOrderIsKeyOrder(s: System)
    requires InVersionOrder(s)
    ensures InKeyOrder(s)
  {
  }

  /** In version order the versions agree iff an update followed the snapshot or the snapshot is current. */
  lemma VersionInOrder(s: System)
    requires Inv(s) && Settled(s) && InVersionOrder(s)
    ensures LastIsNewest(s) <==>
            s.delivered[|s.delivered| - 1].UpdatePacket? || s.snapshot.value.position == |s.server.log|
  {
    assert SnapshotPacket in s.delivered;
    var last := s.delivered[|s.delivered| - 1];
    if last.UpdatePacket? {
      assert UpdatePacket(last.position) in s.delivered;
      assert last.position in Heard(s);
      LastUpdateIsNewest(s, |s.server.log| - 1);
    }
  }

  lemma CurrentUnlessOvertaken(s: System)
    requires Inv(s) && Settled(s) && NotOvertaken(s)
    requires s.delivered != [] && s.delivered[|s.delivered| - 1].SnapshotPacket?
    ensures s.snapshot.value.position == |s.server.log|
  {
    if s.snapshot.value.position < |s.server.log| {
      HeardOrMissed(s, |s.server.log| - 1);
      assert false;
    }
  }

  /**
    When a key loses its order the replica can stay behind for good: a notification delayed
    past the registration re-announces an old value after the snapshot.
   */
  lemma DelayedNotificationDiverges()
    ensures exists actions: seq<Action> ::
              var s := Run(map[], 1, actions);
              Settled(s) && NotOvertaken(s) && Outdated(s, "k") && s.replica.items != s.server.items
  {
    var t0: seq<Action> := [];
    var t1 := Longer(t0, Perform(Put("k", Val("1"), "")));
    var t2 := Longer(t1, Perform(Put("k", Val("2"), "")));
    var t3 := Longer(t2, Notify(1));
    var t4 := Longer(t3, Register);
    var t5 := Longer(t4, Notify(0));
    var t6 := Longer(t5, ReadSnapshot);
    var t7 := Longer(t6, Deliver(SnapshotPacket));
    var t8 := Longer(t7, Deliver(UpdatePacket(0)));
    assert Run(map[], 1, t8).server.items["k"] == Val("2");
    assert Run(map[], 1, t8).replica.items["k"] == Val("1");
    assert Run(map[], 1, t8).server.log[1].id == "k";
  }

  /** Two changes made after a client has opened the store and has its snapshot. */
  lemma TwoPuts() returns (actions: seq<Action>)
    ensures var s := Run(map[], 1, actions);
            var log := [StoreChange("a", Val("1"), "", false, 2), StoreChange("b", Val("2"), "", false, 3)];
            && s.server == Store(map["a" := Val("1"), "b" := Val("2")], 3, false, true, log)
            && s.registeredAt.Some? && s.snapshot.Some? && s.pending == {0, 1} && s.notified == [] && s.inFlight == {}
            && s.replica == Store(map[], 1, true, true, [])
  {
    var t0: seq<Action> := [];
    var t1 := Longer(t0, Register);
    var t2 := Longer(t1, ReadSnapshot);
    var t3 := Longer(t2, Deliver(SnapshotPacket));
    var t4 := Longer(t3, Perform(Put("a", Val("1"), "")));
    actions := Longer(t4, Perform(Put("b", Val("2"), "")));
  }

  /** Order across keys is not needed: two keys, notified and delivered the other way round. */
  lemma KeysMayPassEachOther()
    ensures exists actions: seq<Action> ::
              var s := Run(map[], 1, actions);
              Settled(s) && !InVersionOrder(s) && s.replica.items == s.server.items != map[]
  {
    var t0 := TwoPuts();
    var t1 := Longer(t0, Notify(1));
    var t2 := Longer(t1, Notify(0));
    var t3 := Longer(t2, Deliver(UpdatePacket(1)));
    var t4 := Longer(t3, Deliver(UpdatePacket(0)));
    var s := Run(map[], 1, t4);
    assert s.notified[0] == 1 && s.notified[1] == 0 && !Increasing(s.notified);
    assert s.replica.items == map["a" := Val("1"), "b" := Val("2")];
    assert "a" in s.server.items;
  }

  lemma Longer(actions: seq<Action>, a: Action) returns (longer: seq<Action>)
    ensures longer == actions + [a]
    ensures Run(map[], 1, longer) == Step(Run(map[], 1, actions), a)
  {
    longer := actions + [a];
    assert longer[..|longer| - 1] == actions;
  }
}
