/**
  The versioned store (bus/store.go): items, version and the changes it announces,
  as a value and as the object updated in place. A galactic store is a replica: its
  version comes from the wire.
 */
module Store {
  import opened Options

  /** Go's nil is a storable value. */
  datatype Value = Nil | Val(text: string)

  type Items = map<string, Value>

  datatype StoreChange = StoreChange(id: string, value: Value, state: string, isDelete: bool, version: int)

  /** `log`: the changes announced, in the order they were made. */
  datatype Store = Store(items: Items, version: int, galactic: bool, ready: bool, log: seq<StoreChange>)

  const INITIAL_VERSION := 1

  function NewStore(galactic: bool): Store { Store(map[], INITIAL_VERSION, galactic, false, []) }

  function PutIn(s: Store, id: string, value: Value, state: string): Store {
    var v := if s.galactic then s.version else s.version + 1;
    s.(items := s.items[id := value], version := v, log := s.log + [StoreChange(id, value, state, false, v)])
  }

  function RemoveIn(s: Store, id: string, state: string): Store {
    if id !in s.items then s
    else
      var v := if s.galactic then s.version else s.version + 1;
      s.(items := s.items - {id}, version := v, log := s.log + [StoreChange(id, s.items[id], state, true, v)])
  }

  /** A `storeContentResponse`; a version that cannot be read counts as 1. */
  function OnContent(s: Store, items: Items, version: Option<int>): Store {
    s.(items := items, version := if version.Some? then version.value else INITIAL_VERSION, ready := true)
  }

  /** An `updateStoreResponse`; a nil value means removal. */
  function OnUpdate(s: Store, id: string, value: Value, version: Option<int>): Store {
    var s1 := s.(version := if version.Some? then version.value else INITIAL_VERSION);
    if value.Nil? then RemoveIn(s1, id, "galacticSyncRemove") else PutIn(s1, id, value, "galacticSyncUpdate")
  }

  class BusStore {
    const isGalactic: bool
    var items: Items
    var storeVersion: int
    var ready: bool
    var changes: seq<StoreChange>

    ghost function Model(): Store
      reads this
    {
      Store(items, storeVersion, isGalactic, ready, changes)
    }

    constructor (galactic: bool)
      ensures Model() == NewStore(galactic)
      ensures items == map[] && storeVersion == 1 && !ready && changes == []
    {
      isGalactic := galactic;
      items, storeVersion, ready, changes := map[], INITIAL_VERSION, false, [];
    }

    method PutInternal(id: string, value: Value, state: string)
      modifies this
      ensures Model() == PutIn(old(Model()), id, value, state)
      ensures forall base, v :: !isGalactic && LogOk(base, v, old(Model())) ==> LogOk(base, v, Model())
    {
      LogKept(Model(), Put(id, value, state));
      if !isGalactic { storeVersion := storeVersion + 1; }
      items := items[id := value];
      changes := changes + [StoreChange(id, value, state, false, storeVersion)];
    }

    method RemoveInternal(id: string, state: string) returns (removed: bool)
      modifies this
      ensures removed == (id in old(items))
      ensures Model() == RemoveIn(old(Model()), id, state)
      ensures forall base, v :: !isGalactic && LogOk(base, v, old(Model())) ==> LogOk(base, v, Model())
    {
      LogKept(Model(), Remove(id, state));
      if id !in items { return false; }
      var value := items[id];
      if !isGalactic { storeVersion := storeVersion + 1; }
      items := items - {id};
      changes := changes + [StoreChange(id, value, state, true, storeVersion)];
      return true;
    }

    method Populate(given: Items) returns (ok: bool)
      modifies this
      ensures ok == (!isGalactic && old(items) == map[])
      ensures Model() == if ok then old(Model()).(items := given, ready := true) else old(Model())
    {
      if isGalactic { return false; }
      if |items| > 0 { return false; }
      var todo := given.Keys;
      while todo != {}
        invariant todo <= given.Keys
        invariant items == map k | k in given && k !in todo :: given[k]
        invariant Model() == old(Model()).(items := items)
      {
        var k :| k in todo;
        items := items[k := given[k]];
        todo := todo - {k};
      }
      ready := true;
      return true;
    }

    method Reset()
      modifies this
      ensures Model() == NewStore(isGalactic).(log := old(changes))
      ensures items == map[] && storeVersion == 1 && !ready && changes == old(changes)
    {
      items, storeVersion, ready := map[], INITIAL_VERSION, false;
    }

    /** The copy and the version are read under one lock. */
    method AllValuesAndVersion() returns (values: Items, version: int)
      ensures values == items && version == storeVersion
    {
      values := map[];
      var todo := items.Keys;
      while todo != {}
        invariant todo <= items.Keys
        invariant values == map k | k in items && k !in todo :: items[k]
      {
        var k :| k in todo;
        values := values[k := items[k]];
        todo := todo - {k};
      }
      version := storeVersion;
    }

    method UpdateVersionFromResponse(version: Option<int>)
      modifies this`storeVersion
      ensures storeVersion == if version.Some? then version.value else INITIAL_VERSION
    {
      match version
      case Some(v) => storeVersion := v;
      case None => storeVersion := INITIAL_VERSION;
    }

    method HandleContentResponse(content: Items, version: Option<int>)
      modifies this
      ensures Model() == OnContent(old(Model()), content, version)
    {
      UpdateVersionFromResponse(version);
      items := map[];
      var todo := content.Keys;
      while todo != {}
        invariant todo <= content.Keys
        invariant items == map k | k in content && k !in todo :: content[k]
        invariant storeVersion == (if version.Some? then version.value else INITIAL_VERSION)
        invariant ready == old(ready) && changes == old(changes)
      {
        var k :| k in todo;
        items := items[k := content[k]];
        todo := todo - {k};
      }
      ready := true;
    }

    method HandleUpdateResponse(id: string, value: Value, version: Option<int>)
      modifies this
      ensures Model() == OnUpdate(old(Model()), id, value, version)
    {
      UpdateVersionFromResponse(version);
      if value.Nil? {
        var _ := RemoveInternal(id, "galacticSyncRemove");
      } else {
        PutInternal(id, value, "galacticSyncUpdate");
      }
    }
  }

  // ----- the change log refines the store -----

  datatype Op = Put(id: string, value: Value, state: string) | Remove(id: string, state: string)

  function Do(s: Store, op: Op): Store {
    match op
    case Put(id, v, st) => PutIn(s, id, v, st)
    case Remove(id, st) => RemoveIn(s, id, st)
  }

  function DoAll(s: Store, ops: seq<Op>): Store {
    if ops == [] then s else Do(DoAll(s, ops[..|ops| - 1]), ops[|ops| - 1])
  }

  predicate IsEffective(s: Store, op: Op) { op.Put? || op.id in s.items }

  function Replayed(items: Items, c: StoreChange): Items {
    if c.isDelete then items - {c.id} else items[c.id := c.value]
  }

  function Replay(items: Items, cs: seq<StoreChange>): Items {
    if cs == [] then items else Replayed(Replay(items, cs[..|cs| - 1]), cs[|cs| - 1])
  }

  /** The changes newer than a version, in order. */
  function NewerThan(cs: seq<StoreChange>, version: int): seq<StoreChange> {
    if cs == [] then []
    else
      var rest := NewerThan(cs[..|cs| - 1], version);
      if cs[|cs| - 1].version > version then rest + [cs[|cs| - 1]] else rest
  }

  /** Since a point with `base` items and version: one version per change, no gaps, and they replay. */
  ghost predicate LogOk(base: Items, version: int, s: Store) {
    && s.version == version + |s.log|
    && (forall i :: 0 <= i < |s.log| ==> s.log[i].version == version + i + 1)
    && s.items == Replay(base, s.log)
  }

  lemma DoKeepsLog(base: Items, version: int, s: Store, op: Op)
    requires LogOk(base, version, s) && !s.galactic
    ensures LogOk(base, version, Do(s, op))
    ensures Do(s, op).version == s.version + if IsEffective(s, op) then 1 else 0
    ensures !IsEffective(s, op) ==> Do(s, op) == s
    ensures Do(s, op).items == if op.Put? then s.items[op.id := op.value] else s.items - {op.id}
    ensures Do(s, op).galactic == s.galactic && s.log <= Do(s, op).log
  {
    var s' := Do(s, op);
    if IsEffective(s, op) {
      assert s'.log[..|s'.log| - 1] == s.log;
    }
  }

  /**
    What an effective operation announces, as the last change and with the new version: its
    own item and state, the value put or the value removed.
   */
  lemma ChangeIsAnnounced(s: Store, op: Op)
    requires IsEffective(s, op)
    ensures var s' := Do(s, op);
            && |s'.log| == |s.log| + 1 && s.log <= s'.log
            && s'.version == (if s.galactic then s.version else s.version + 1)
            && s'.ready == s.ready && s'.galactic == s.galactic
            && var c := s'.log[|s.log|];
               && c.id == op.id && c.state == op.state && c.version == s'.version
               && (op.Put? ==> !c.isDelete && c.value == op.value && op.id in s'.items && s'.items[op.id] == op.value)
               && (op.Remove? ==> c.isDelete && c.value == s.items[op.id] && op.id !in s'.items)
  {
  }

  /** What a response from the wire makes of a replica; what it announces tells removals from updates. */
  lemma WireTakesEffect(s: Store, id: string, value: Value, version: int, items: Items)
    requires s.galactic
    ensures var s' := OnUpdate(s, id, value, Some(version));
            && s'.version == version && s'.ready == s.ready
            && s'.items == (if value.Nil? then s.items - {id} else s.items[id := value])
            && (value.Nil? && id !in s.items ==> s'.log == s.log)
            && (!value.Nil? || id in s.items ==>
                  && |s'.log| == |s.log| + 1
                  && s'.log[|s.log|].id == id && s'.log[|s.log|].isDelete == value.Nil?
                  && s'.log[|s.log|].version == version
                  && s'.log[|s.log|].state == (if value.Nil? then "galacticSyncRemove" else "galacticSyncUpdate"))
    ensures var s' := OnContent(s, items, Some(version));
            s'.items == items && s'.version == version && s'.ready && s'.log == s.log
    ensures OnUpdate(s, id, value, None).version == 1 && OnContent(s, items, None).version == 1
  {
  }

  lemma LogKept(s: Store, op: Op)
    ensures forall base, v :: !s.galactic && LogOk(base, v, s) ==> LogOk(base, v, Do(s, op))
  {
    forall base, v | !s.galactic && LogOk(base, v, s) ensures LogOk(base, v, Do(s, op)) {
      DoKeepsLog(base, v, s, op);
    }
  }

  /** A store right after creation, Populate or Reset, with its log emptied. */
  ghost predicate AtBase(s: Store) { s.log == [] && !s.galactic }

  lemma {:induction false} DoAllKeepsLog(s: Store, ops: seq<Op>)
    requires AtBase(s)
    ensures LogOk(s.items, s.version, DoAll(s, ops)) && !DoAll(s, ops).galactic
  {
    if ops != [] {
      var n := |ops| - 1;
      DoAllKeepsLog(s, ops[..n]);
      DoKeepsLog(s.items, s.version, DoAll(s, ops[..n]), ops[n]);
    }
  }

  lemma {:induction false} LogGrows(s: Store, ops: seq<Op>, k: nat)
    requires k <= |ops|
    ensures DoAll(s, ops[..k]).log <= DoAll(s, ops).log
    decreases |ops|
  {
    if k == |ops| {
      assert ops[..k] == ops;
    } else {
      var n := |ops| - 1;
      LogGrows(s, ops[..n], k);
      assert ops[..n][..k] == ops[..k];
      assert DoAll(s, ops[..n]).log <= Do(DoAll(s, ops[..n]), ops[n]).log;
    }
  }

  /** Splitting a sequence at `k` and dropping its last element commute. */
  lemma WithoutLast<T>(cs: seq<T>, k: nat)
    requires k < |cs|
    ensures cs[..|cs| - 1][..k] == cs[..k]
    ensures cs[k..] == cs[..|cs| - 1][k..] + [cs[|cs| - 1]]
    ensures cs[k..][..|cs[k..]| - 1] == cs[..|cs| - 1][k..]
  {
  }

  lemma {:induction false} ReplaySplit(base: Items, cs: seq<StoreChange>, k: nat)
    requires k <= |cs|
    ensures Replay(base, cs) == Replay(Replay(base, cs[..k]), cs[k..])
    decreases |cs|
  {
    if k == |cs| {
      assert cs[..k] == cs && cs[k..] == [];
    } else {
      var n := |cs| - 1;
      ReplaySplit(base, cs[..n], k);
      WithoutLast(cs, k);
    }
  }

  lemma {:induction false} NewerThanIsSuffix(cs: seq<StoreChange>, version: int, k: nat)
    requires k <= |cs| && forall i :: 0 <= i < |cs| ==> cs[i].version == version + i + 1
    ensures NewerThan(cs, version + k) == cs[k..]
    decreases |cs|
  {
    if cs != [] {
      var n := |cs| - 1;
      if k <= n {
        NewerThanIsSuffix(cs[..n], version, k);
        WithoutLast(cs, k);
      } else {
        NewerThanIsSuffix(cs[..n], version, n);
        NoneNewer(cs, version + k);
      }
    }
  }

  lemma {:induction false} NoneNewer(cs: seq<StoreChange>, version: int)
    requires forall i :: 0 <= i < |cs| ==> cs[i].version <= version
    ensures NewerThan(cs, version) == []
  {
    if cs != [] {
      NoneNewer(cs[..|cs| - 1], version);
    }
  }

  lemma EarlierPlusNewer(base: Items, version: int, early: Store, now: Store)
    requires LogOk(base, version, early) && LogOk(base, version, now) && early.log <= now.log
    ensures Replay(early.items, NewerThan(now.log, early.version)) == now.items
  {
    var k := |early.log|;
    assert now.log[..k] == early.log;
    NewerThanIsSuffix(now.log, version, k);
    ReplaySplit(base, now.log, k);
  }

  /**
    After any operations, replaying the changes newer than `v` onto the snapshot taken
    at version `v` rebuilds the current items, for every snapshot ever taken.
   */
  lemma SnapshotPlusNewerChanges(s: Store, ops: seq<Op>, k: nat)
    requires AtBase(s) && k <= |ops|
    ensures var early, now := DoAll(s, ops[..k]), DoAll(s, ops);
            Replay(early.items, NewerThan(now.log, early.version)) == now.items
  {
    DoAllKeepsLog(s, ops);
    DoAllKeepsLog(s, ops[..k]);
    LogGrows(s, ops, k);
    EarlierPlusNewer(s.items, s.version, DoAll(s, ops[..k]), DoAll(s, ops));
  }
}
