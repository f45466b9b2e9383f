/**
  A bus channel's handler slice (bus/channel.go): subscribing, the shift-delete in
  place, and `Send` with its removal of spent run-once handlers.
 */
module Channel {
  import opened Options

  datatype Handler = Handler(uuid: int, runOnce: bool)

  /** Delete by position; a position past the end changes nothing. */
  function RemoveAt<T>(s: seq<T>, i: nat): seq<T> {
    if i < |s| then s[..i] + s[i + 1..] else s
  }

  function FirstAt(hs: seq<Handler>, uuid: int): (at: Option<nat>)
    ensures at.Some? ==> at.value < |hs| && hs[at.value].uuid == uuid
  {
    if hs == [] then None
    else if hs[0].uuid == uuid then Some(0)
    else match FirstAt(hs[1..], uuid)
      case None => None
      case Some(i) => Some(i + 1)
  }

  /** The simple form of unsubscribing: the others, in their order. */
  function Without(hs: seq<Handler>, uuid: int): seq<Handler> {
    if hs == [] then []
    else (if hs[0].uuid == uuid then [] else [hs[0]]) + Without(hs[1..], uuid)
  }

  ghost predicate Distinct(hs: seq<Handler>) {
    forall i, j :: 0 <= i < j < |hs| ==> hs[i].uuid != hs[j].uuid
  }

  type Counts = map<int, nat>

  predicate IsSpent(h: Handler, counts: Counts) {
    h.runOnce && h.uuid in counts && counts[h.uuid] > 0
  }

  /** The handlers a message is dispatched to. */
  function Fresh(hs: seq<Handler>, counts: Counts): seq<Handler> {
    if hs == [] then []
    else (if IsSpent(hs[0], counts) then [] else [hs[0]]) + Fresh(hs[1..], counts)
  }

  /** The removals of `Send`: positions are those of the copy, the slice is the live one. */
  function Sweep(copy: seq<Handler>, counts: Counts, n: nat, live: seq<Handler>): seq<Handler>
    decreases |copy| - n
  {
    if n >= |copy| then live
    else Sweep(copy, counts, n + 1, if IsSpent(copy[n], counts) then RemoveAt(live, n) else live)
  }

  /** The handlers in a filled stretch of slots. */
  ghost function Values(os: seq<Option<Handler>>): (hs: seq<Handler>)
    requires forall i :: 0 <= i < |os| ==> os[i].Some?
    ensures |hs| == |os| && forall i :: 0 <= i < |os| ==> hs[i] == os[i].value
  {
    seq(|os|, i requires 0 <= i < |os| => os[i].value)
  }

  class Channel {
    var slots: array<Option<Handler>>
    var count: nat
    var wg: nat
    var runCounts: Counts
    /** The handlers goroutines were started for, in order. */
    var dispatched: seq<Handler>

    ghost predicate Valid()
      reads this, slots
    {
      count <= slots.Length && forall i :: 0 <= i < count ==> slots[i].Some?
    }

    ghost function Handlers(): seq<Handler>
      requires Valid()
      reads this, slots
    {
      Values(slots[..count])
    }

    constructor ()
      ensures Valid() && Handlers() == [] && wg == 0 && dispatched == [] && runCounts == map[] && fresh(slots)
    {
      slots := new Option<Handler>[0];
      count, wg, runCounts, dispatched := 0, 0, map[], [];
    }

    /** Make room for one more, as `append` does. */
    method Grow()
      requires Valid()
      modifies this`slots
      ensures Valid() && count < slots.Length && fresh(slots) && Handlers() == old(Handlers())
    {
      var grown := new Option<Handler>[2 * count + 1](_ => None);
      for i := 0 to count
        invariant unchanged(this) && unchanged(slots)
        invariant forall j :: 0 <= j < i ==> grown[j] == slots[j]
      {
        grown[i] := slots[i];
      }
      slots := grown;
    }

    method SubscribeHandler(h: Handler)
      requires Valid()
      modifies this`slots, this`count, slots
      ensures Valid() && (slots == old(slots) || fresh(slots))
      ensures Handlers() == old(Handlers()) + [h]
    {
      if count == slots.Length {
        Grow();
      }
      slots[count] := Some(h);
      count := count + 1;
    }

    /** The `copy` of the tail one place down. */
    method ShiftDown(index: nat)
      requires Valid() && index < count
      modifies slots
      ensures Valid()
      ensures forall j :: index <= j < count - 1 ==> slots[j] == old(slots[j + 1])
      ensures forall j :: 0 <= j < index ==> slots[j] == old(slots[j])
    {
      for i := index to count - 1
        invariant Valid()
        invariant forall j :: index <= j < i ==> slots[j] == old(slots[j + 1])
        invariant forall j :: 0 <= j < index || i <= j < count ==> slots[j] == old(slots[j])
      {
        slots[i] := slots[i + 1];
      }
    }

    method RemoveEventHandler(index: nat)
      requires Valid()
      modifies this`count, slots
      ensures Valid() && Handlers() == RemoveAt(old(Handlers()), index)
    {
      if count <= 0 { return; }
      if index >= count { return; }
      ShiftDown(index);
      slots[count - 1] := None;
      count := count - 1;
      RemoveAtIs(old(Handlers()), index, Handlers());
    }

    method UnsubscribeHandler(uuid: int) returns (found: bool)
      requires Valid()
      modifies this`count, slots
      ensures Valid()
      ensures found == FirstAt(old(Handlers()), uuid).Some?
      ensures Handlers() == if found then RemoveAt(old(Handlers()), FirstAt(old(Handlers()), uuid).value)
                            else old(Handlers())
    {
      ghost var hs := Handlers();
      for i := 0 to count
        invariant Valid() && Handlers() == hs && count == |hs|
        invariant forall j :: 0 <= j < i ==> hs[j].uuid != uuid
      {
        if slots[i].value.uuid == uuid {
          FirstAtIs(hs, uuid, i);
          RemoveEventHandler(i);
          return true;
        }
      }
      FirstAtNone(hs, uuid);
      return false;
    }

    /** One turn of the loop in `Send`. */
    method DispatchOrDrop(n: nat, h: Handler)
      requires Valid()
      modifies this`count, this`wg, this`dispatched, slots
      ensures Valid()
      ensures Handlers() == if IsSpent(h, runCounts) then RemoveAt(old(Handlers()), n) else old(Handlers())
      ensures dispatched == old(dispatched) + if IsSpent(h, runCounts) then [] else [h]
      ensures wg == old(wg) + if IsSpent(h, runCounts) then 0 else 1
    {
      if IsSpent(h, runCounts) {
        RemoveEventHandler(n);
      } else {
        wg := wg + 1;
        dispatched := dispatched + [h];
      }
    }

    /** Dispatch to a copy of the handlers; spent run-once handlers are deleted on the way. */
    method Send()
      requires Valid()
      modifies this`count, this`wg, this`dispatched, slots
      ensures Valid()
      ensures Handlers() == Sweep(old(Handlers()), runCounts, 0, old(Handlers()))
      ensures dispatched == old(dispatched) + Fresh(old(Handlers()), runCounts)
      ensures wg == old(wg) + |Fresh(old(Handlers()), runCounts)|
    {
      ghost var hs := Handlers();
      var copy := CopyHandlers();
      ghost var live := hs;
      ghost var news: seq<Handler> := [];
      for n := 0 to |copy|
        invariant Valid() && Handlers() == live
        invariant Sweep(copy, runCounts, n, live) == Sweep(copy, runCounts, 0, hs)
        invariant news == Fresh(copy[..n], runCounts)
        invariant dispatched == old(dispatched) + news && wg == old(wg) + |news|
      {
        FreshAppend(copy, runCounts, n);
        DispatchOrDrop(n, copy[n]);
        live := if IsSpent(copy[n], runCounts) then RemoveAt(live, n) else live;
        news := news + if IsSpent(copy[n], runCounts) then [] else [copy[n]];
      }
      assert copy[..|copy|] == copy;
    }

    method CopyHandlers() returns (copy: seq<Handler>)
      requires Valid()
      ensures copy == Handlers()
    {
      copy := [];
      for i := 0 to count
        invariant |copy| == i && forall j :: 0 <= j < i ==> copy[j] == slots[j].value
      {
        copy := copy + [slots[i].value];
      }
    }

    /** The end of a delivery goroutine. */
    method FinishDelivery(h: Handler)
      requires wg > 0
      modifies this`wg, this`runCounts
      ensures wg == old(wg) - 1
      ensures runCounts == old(runCounts)[h.uuid := 1 + if h.uuid in old(runCounts) then old(runCounts)[h.uuid] else 0]
    {
      runCounts := runCounts[h.uuid := 1 + if h.uuid in runCounts then runCounts[h.uuid] else 0];
      wg := wg - 1;
    }
  }

  lemma RemoveAtIs<T>(s: seq<T>, i: nat, r: seq<T>)
    requires i < |s| && |r| == |s| - 1
    requires forall k :: 0 <= k < i ==> r[k] == s[k]
    requires forall k :: i <= k < |r| ==> r[k] == s[k + 1]
    ensures r == RemoveAt(s, i)
  {
  }

  lemma RemoveAtCons<T>(s: seq<T>, i: nat)
    requires 0 < i < |s|
    ensures RemoveAt(s, i) == [s[0]] + RemoveAt(s[1..], i - 1)
  {
    RemoveAtIs(s, i, [s[0]] + RemoveAt(s[1..], i - 1));
  }

  lemma {:induction false} FreshAppend(hs: seq<Handler>, counts: Counts, n: nat)
    requires n < |hs|
    ensures Fresh(hs[..n + 1], counts) == Fresh(hs[..n], counts) + if IsSpent(hs[n], counts) then [] else [hs[n]]
    decreases |hs|
  {
    if n == 0 {
      assert hs[..1] == [hs[0]] && hs[..1][1..] == [];
    } else {
      FreshAppend(hs[1..], counts, n - 1);
      assert hs[..n + 1][1..] == hs[1..][..n] && hs[..n][1..] == hs[1..][..n - 1];
    }
  }

  lemma {:induction false} FirstAtIs(hs: seq<Handler>, uuid: int, i: nat)
    requires i < |hs| && hs[i].uuid == uuid && forall j :: 0 <= j < i ==> hs[j].uuid != uuid
    ensures FirstAt(hs, uuid) == Some(i)
  {
    if i > 0 {
      assert hs[0].uuid != uuid;
      FirstAtIs(hs[1..], uuid, i - 1);
    }
  }

  lemma {:induction false} FirstAtNone(hs: seq<Handler>, uuid: int)
    requires forall j :: 0 <= j < |hs| ==> hs[j].uuid != uuid
    ensures FirstAt(hs, uuid) == None
    ensures Without(hs, uuid) == hs
  {
    if hs != [] {
      FirstAtNone(hs[1..], uuid);
    }
  }

  /** Unsubscribing by uuid takes that handler out and keeps the others in order. */
  lemma {:induction false} UnsubscribeKeepsOthers(hs: seq<Handler>, uuid: int)
    requires Distinct(hs)
    ensures Without(hs, uuid) ==
            (match FirstAt(hs, uuid) case None => hs case Some(i) => RemoveAt(hs, i))
  {
    if hs != [] {
      if hs[0].uuid == uuid {
        FirstAtNone(hs[1..], uuid);
      } else {
        UnsubscribeKeepsOthers(hs[1..], uuid);
        if FirstAt(hs, uuid).Some? {
          var i := FirstAt(hs[1..], uuid).value;
          RemoveAtCons(hs, i + 1);
        }
      }
    }
  }

  // ----- when does Send delete the right handlers? -----

  ghost predicate AtMostOneSpent(hs: seq<Handler>, counts: Counts) {
    forall i, j :: 0 <= i < j < |hs| ==> !(IsSpent(hs[i], counts) && IsSpent(hs[j], counts))
  }

  lemma {:induction false} SweepNothing(copy: seq<Handler>, counts: Counts, n: nat, m: nat, live: seq<Handler>)
    requires n <= m <= |copy| && forall k :: n <= k < m ==> !IsSpent(copy[k], counts)
    ensures Sweep(copy, counts, n, live) == Sweep(copy, counts, m, live)
    decreases m - n
  {
    if n < m {
      SweepNothing(copy, counts, n + 1, m, live);
    }
  }

  /** Positions below the sweep's are final. */
  lemma {:induction false} SweepKeepsLow(copy: seq<Handler>, counts: Counts, n: nat, live: seq<Handler>, k: nat)
    requires k < n && k < |live|
    ensures k < |Sweep(copy, counts, n, live)| && Sweep(copy, counts, n, live)[k] == live[k]
    decreases |copy| - n
  {
    if n < |copy| {
      SweepKeepsLow(copy, counts, n + 1, if IsSpent(copy[n], counts) then RemoveAt(live, n) else live, k);
    }
  }

  lemma {:induction false} FreshHasNoSpent(hs: seq<Handler>, counts: Counts)
    ensures forall h :: h in Fresh(hs, counts) ==> !IsSpent(h, counts)
    ensures (forall k :: 0 <= k < |hs| ==> !IsSpent(hs[k], counts)) ==> Fresh(hs, counts) == hs
  {
    if hs != [] {
      FreshHasNoSpent(hs[1..], counts);
    }
  }

  /** A message is dispatched to exactly the handlers that are not spent, in their order. */
  lemma FreshIsFilter(hs: seq<Handler>, h: Handler, counts: Counts)
    ensures Fresh([], counts) == []
    ensures Fresh(hs + [h], counts) ==
            Fresh(hs, counts) + if h.runOnce && h.uuid in counts && counts[h.uuid] > 0 then [] else [h]
  {
    var all := hs + [h];
    FreshAppend(all, counts, |hs|);
    assert all[..|hs| + 1] == all && all[..|hs|] == hs;
  }

  lemma {:induction false} FreshSkipsOne(hs: seq<Handler>, counts: Counts, i: nat)
    requires i < |hs| && IsSpent(hs[i], counts)
    requires forall k :: 0 <= k < |hs| && k != i ==> !IsSpent(hs[k], counts)
    ensures Fresh(hs, counts) == RemoveAt(hs, i)
  {
    if i == 0 {
      FreshHasNoSpent(hs[1..], counts);
    } else {
      assert forall k :: 0 <= k < |hs[1..]| ==> hs[1..][k] == hs[k + 1];
      FreshSkipsOne(hs[1..], counts, i - 1);
      RemoveAtCons(hs, i);
    }
  }

  /** With a single spent handler the sweep deletes it. */
  lemma OneSpentSwept(hs: seq<Handler>, counts: Counts, i: nat)
    requires i < |hs| && IsSpent(hs[i], counts)
    requires forall k :: 0 <= k < |hs| && k != i ==> !IsSpent(hs[k], counts)
    ensures Sweep(hs, counts, 0, hs) == Fresh(hs, counts)
  {
    SweepNothing(hs, counts, 0, i, hs);
    SweepNothing(hs, counts, i + 1, |hs|, RemoveAt(hs, i));
    FreshSkipsOne(hs, counts, i);
  }

  /** With two, the second one stays. */
  lemma SecondSpentStays(hs: seq<Handler>, counts: Counts, i: nat, j: nat)
    requires i < j < |hs| && IsSpent(hs[i], counts) && IsSpent(hs[j], counts)
    requires forall k :: 0 <= k < j && k != i ==> !IsSpent(hs[k], counts)
    ensures hs[j] in Sweep(hs, counts, 0, hs)
  {
    var live := RemoveAt(hs, i);
    SweepNothing(hs, counts, 0, i, hs);
    SweepNothing(hs, counts, i + 1, j, live);
    assert live[j - 1] == hs[j];
    assert RemoveAt(live, j)[j - 1] == live[j - 1];
    SweepKeepsLow(hs, counts, j + 1, RemoveAt(live, j), j - 1);
  }

  /**
    `Send` leaves exactly the handlers that are not spent if and only if at most one is
    spent: a second deletion uses a position of the copy in a slice already shifted.
   */
  lemma SendDeletesSpentIff(hs: seq<Handler>, counts: Counts)
    ensures Sweep(hs, counts, 0, hs) == Fresh(hs, counts) <==> AtMostOneSpent(hs, counts)
  {
    FreshHasNoSpent(hs, counts);
    if forall k :: 0 <= k < |hs| ==> !IsSpent(hs[k], counts) {
      SweepNothing(hs, counts, 0, |hs|, hs);
    } else {
      var i := NextSpent(hs, counts, 0);
      if forall k :: i < k < |hs| ==> !IsSpent(hs[k], counts) {
        OneSpentSwept(hs, counts, i);
      } else {
        var j := NextSpent(hs, counts, i + 1);
        SecondSpentStays(hs, counts, i, j);
      }
    }
  }

  lemma NextSpent(hs: seq<Handler>, counts: Counts, from: nat) returns (i: nat)
    requires exists k :: from <= k < |hs| && IsSpent(hs[k], counts)
    ensures from <= i < |hs| && IsSpent(hs[i], counts)
    ensures forall k :: from <= k < i ==> !IsSpent(hs[k], counts)
  {
    i := from;
    while !IsSpent(hs[i], counts)
      invariant from <= i < |hs|
      invariant forall k :: from <= k < i ==> !IsSpent(hs[k], counts)
      invariant exists k :: i <= k < |hs| && IsSpent(hs[k], counts)
      decreases |hs| - i
    {
      i := i + 1;
    }
  }

  /** Two spent handlers and one other: the other is deleted in place of the second. */
  lemma SendCanDeleteTheWrongHandler()
    ensures var hs := [Handler(0, true), Handler(1, true), Handler(2, false)];
            var counts: Counts := map[0 := 1, 1 := 1];
            Sweep(hs, counts, 0, hs) == [Handler(1, true)] && Fresh(hs, counts) == [Handler(2, false)]
  {
    var hs := [Handler(0, true), Handler(1, true), Handler(2, false)];
    var counts: Counts := map[0 := 1, 1 := 1];
    assert RemoveAt(hs, 0) == [Handler(1, true), Handler(2, false)];
    assert RemoveAt(RemoveAt(hs, 0), 1) == [Handler(1, true)];
    assert Sweep(hs, counts, 2, [Handler(1, true)]) == Sweep(hs, counts, 3, [Handler(1, true)]);
    assert hs[1..] == [Handler(1, true), Handler(2, false)];
    assert hs[1..][1..] == [Handler(2, false)];
    assert hs[1..][1..][1..] == [];
  }
}
