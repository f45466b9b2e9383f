/**
  Store streams (bus/store_stream.go) and the store's slice of them with its
  swap-delete (bus/store.go).
 */
module StoreStreams {
  import opened Options
  import opened Store

  datatype StreamFilter = StreamFilter(states: seq<string>, itemId: string, matchAllItems: bool)

  ghost predicate Wants(f: StreamFilter, c: StoreChange) {
    (f.matchAllItems || f.itemId == c.id) && (f.states == [] || c.state in f.states)
  }

  /** A stream sees a put or removal exactly by its item and by the state it was made with. */
  lemma StreamSeesChange(s: Store, op: Op, f: StreamFilter)
    requires IsEffective(s, op)
    ensures |Do(s, op).log| == |s.log| + 1
    ensures Wants(f, Do(s, op).log[|s.log|]) <==>
            (f.matchAllItems || f.itemId == op.id) && (f.states == [] || op.state in f.states)
  {
    ChangeIsAnnounced(s, op);
  }

  /** The read-only search of `streamFilter.match`. */
  method Match(f: StreamFilter, c: StoreChange) returns (matched: bool)
    ensures matched <==> Wants(f, c)
  {
    if f.matchAllItems || f.itemId == c.id {
      if |f.states| == 0 { return true; }
      for i := 0 to |f.states|
        invariant c.state !in f.states[..i]
      {
        if f.states[i] == c.state { return true; }
      }
      assert f.states[..|f.states|] == f.states;
    }
    return false;
  }

  /** The last element takes the place of the deleted one. */
  function SwapDelete<T>(s: seq<T>, i: nat): seq<T>
    requires i < |s|
  {
    s[i := s[|s| - 1]][..|s| - 1]
  }

  lemma SwapDeleteSplits<T>(s: seq<T>, i: nat)
    requires i < |s| - 1
    ensures var n := |s| - 1;
            SwapDelete(s, i) == s[..i] + [s[n]] + s[i + 1..n] && s == s[..i] + [s[i]] + s[i + 1..n] + [s[n]]
  {
  }

  lemma OneLess<T>(a: seq<T>, x: T, b: seq<T>, y: T)
    ensures multiset(a + [y] + b) == multiset(a + [x] + b + [y]) - multiset{x}
  {
  }

  /** As a multiset, swap-delete removes exactly one occurrence of the element. */
  lemma SwapDeleteRemovesOne<T>(s: seq<T>, i: nat)
    requires i < |s|
    ensures multiset(SwapDelete(s, i)) == multiset(s) - multiset{s[i]}
  {
    var n := |s| - 1;
    if i == n {
      assert SwapDelete(s, i) == s[..n];
      assert s == s[..n] + [s[n]];
    } else {
      SwapDeleteSplits(s, i);
      OneLess(s[..i], s[i], s[i + 1..n], s[n]);
    }
  }

  function FirstIndex<T(==)>(s: seq<T>, x: T): (i: nat)
    requires x in s
    ensures i < |s| && s[i] == x && x !in s[..i]
  {
    if s[0] == x then 0 else
      var i := FirstIndex(s[1..], x);
      assert s[..i + 1] == [s[0]] + s[1..][..i];
      i + 1
  }

  /** What unsubscribing makes of the slice. */
  function Deleted<T(==)>(s: seq<T>, x: T): seq<T> {
    if x in s then SwapDelete(s, FirstIndex(s, x)) else s
  }

  lemma DeletedRemovesOne<T>(s: seq<T>, x: T)
    ensures multiset(Deleted(s, x)) == multiset(s) - multiset{x}
  {
    if x in s {
      SwapDeleteRemovesOne(s, FirstIndex(s, x));
    } else {
      assert multiset(s)[x] == 0;
    }
  }

  class StoreStream {
    const filter: StreamFilter
    var handler: Option<nat>

    constructor (filter: StreamFilter)
      ensures handler == None && this.filter == filter
    {
      this.filter, handler := filter, None;
    }
  }

  /** The entries whose handler a change starts; a stream listed twice is among them twice. */
  ghost function Hearing(streams: seq<StoreStream?>, c: StoreChange): seq<StoreStream?>
    reads set x | x in streams
  {
    if streams == [] then []
    else
      var x := streams[|streams| - 1];
      Hearing(streams[..|streams| - 1], c)
      + if x != null && x.handler.Some? && Wants(x.filter, c) then [x] else []
  }

  /** The `storeStreams` slice of one store. */
  class StreamTable {
    var slots: array<StoreStream?>
    var count: nat

    ghost predicate Valid()
      reads this, slots
    {
      count <= slots.Length && forall i :: 0 <= i < count ==> slots[i] != null
    }

    ghost function Listed(): seq<StoreStream?>
      requires Valid()
      reads this, slots
    {
      slots[..count]
    }

    constructor ()
      ensures Valid() && Listed() == [] && fresh(slots)
    {
      slots := new StoreStream?[0];
      count := 0;
    }

    /** Make room for one more, as `append` does. */
    method Grow()
      requires Valid()
      modifies this`slots
      ensures Valid() && count < slots.Length && fresh(slots) && Listed() == old(Listed())
    {
      var grown := new StoreStream?[2 * count + 1](_ => null);
      for i := 0 to count
        invariant unchanged(this) && unchanged(slots)
        invariant forall j :: 0 <= j < i ==> grown[j] == slots[j]
      {
        grown[i] := slots[i];
      }
      slots := grown;
    }

    method OnStreamSubscribe(stream: StoreStream)
      requires Valid()
      modifies this, slots
      ensures Valid() && (slots == old(slots) || fresh(slots))
      ensures Listed() == old(Listed()) + [stream]
    {
      if count == slots.Length {
        Grow();
      }
      slots[count] := stream;
      count := count + 1;
    }

    method OnStreamUnsubscribe(stream: StoreStream)
      requires Valid()
      modifies this`count, slots
      ensures Valid()
      ensures Listed() == Deleted(old(Listed()), stream)
    {
      var i, n := 0, count;
      while i < n && slots[i] != stream
        invariant 0 <= i <= n
        invariant stream !in slots[..i]
      {
        i := i + 1;
      }
      if i < n {
        assert Listed()[i] == stream && Listed()[..i] == slots[..i];
        assert FirstIndex(Listed(), stream) == i;
        slots[i] := slots[n - 1];
        count := n - 1;
        assert Listed() == SwapDelete(old(Listed()), i);
      } else {
        assert Listed() == slots[..i];
      }
    }

    /** `onStoreChange`: every listed stream that has a handler and wants the change starts it, in order. */
    method Announce(c: StoreChange) returns (started: seq<nat>)
      requires Valid()
      ensures |started| <= count
      ensures forall i :: 0 <= i < count && slots[i].handler.Some? && Wants(slots[i].filter, c) ==>
                slots[i].handler.value in started
      ensures forall h :: h in started ==>
                exists i :: 0 <= i < count && slots[i].handler == Some(h) && Wants(slots[i].filter, c)
      ensures |started| == |Hearing(Listed(), c)|
    {
      started := [];
      for i := 0 to count
        invariant |started| <= i
        invariant forall j :: 0 <= j < i && slots[j].handler.Some? && Wants(slots[j].filter, c) ==>
                    slots[j].handler.value in started
        invariant forall h :: h in started ==>
                    exists j :: 0 <= j < i && slots[j].handler == Some(h) && Wants(slots[j].filter, c)
        invariant |started| == |Hearing(slots[..i], c)|
      {
        var matched := Match(slots[i].filter, c);
        assert slots[..i + 1][..i] == slots[..i];
        if matched && slots[i].handler.Some? {
          started := started + [slots[i].handler.value];
        }
      }
    }

    /** The part of the store's Reset that concerns its streams: they keep their handlers. */
    method Clear()
      modifies this
      ensures Valid() && Listed() == [] && fresh(slots)
    {
      slots := new StoreStream?[0];
      count := 0;
    }

    /** A stream is listed once if it has a handler, and not at all otherwise. */
    ghost predicate Tidy(stream: StoreStream)
      requires Valid()
      reads this, slots, stream
    {
      multiset(Listed())[stream] == if stream.handler.Some? then 1 else 0
    }

    method Subscribe(stream: StoreStream, handler: Option<nat>) returns (ok: bool)
      requires Valid() && Tidy(stream)
      modifies this, slots, stream
      ensures Valid() && Tidy(stream) && (slots == old(slots) || fresh(slots))
      ensures ok == (handler.Some? && old(stream.handler).None?)
      ensures stream.handler == if ok then handler else old(stream.handler)
      ensures forall t :: t != stream ==> multiset(Listed())[t] == multiset(old(Listed()))[t]
    {
      if handler.None? { return false; }
      if stream.handler.Some? { return false; }
      stream.handler := handler;
      OnStreamSubscribe(stream);
      return true;
    }

    method Unsubscribe(stream: StoreStream) returns (ok: bool)
      requires Valid() && Tidy(stream)
      modifies this, slots, stream
      ensures Valid() && Tidy(stream)
      ensures ok == old(stream.handler).Some? && stream.handler == None
      ensures forall t :: t != stream ==> multiset(Listed())[t] == multiset(old(Listed()))[t]
    {
      if stream.handler.None? { return false; }
      stream.handler := None;
      DeletedRemovesOne(Listed(), stream);
      OnStreamUnsubscribe(stream);
      return true;
    }
  }

  // ----- calls that interleave -----

  /**
    Subscribe and Unsubscribe take two locks in turn, the stream's and the store's, and let
    go of the first before the second. `subscribed`: the streams with a handler; `adding`,
    `removing`: calls between their two regions; `missed`: removals that found nothing;
    `wiped`: entries a Reset dropped.
   */
  datatype Table = Table(
    list: seq<nat>,
    subscribed: set<nat>,
    adding: multiset<nat>,
    removing: multiset<nat>,
    missed: multiset<nat>,
    wiped: multiset<nat>)

  datatype Turn =
    | TakeHandler(stream: nat)
    | AddToList(stream: nat)
    | DropHandler(stream: nat)
    | DeleteFromList(stream: nat)
    | ResetStore

  function Turned(t: Table, a: Turn): Table {
    match a
    case TakeHandler(s) =>
      if s in t.subscribed then t else t.(subscribed := t.subscribed + {s}, adding := t.adding + multiset{s})
    case AddToList(s) =>
      if s !in t.adding then t else t.(list := t.list + [s], adding := t.adding - multiset{s})
    case DropHandler(s) =>
      if s !in t.subscribed then t else t.(subscribed := t.subscribed - {s}, removing := t.removing + multiset{s})
    case DeleteFromList(s) =>
      if s !in t.removing then t
      else t.(list := Deleted(t.list, s), removing := t.removing - multiset{s},
              missed := if s in t.list then t.missed else t.missed + multiset{s})
    case ResetStore => t.(list := [], wiped := t.wiped + multiset(t.list))
  }

  function Turns(turns: seq<Turn>): Table {
    if turns == [] then Table([], {}, multiset{}, multiset{}, multiset{}, multiset{})
    else Turned(Turns(turns[..|turns| - 1]), turns[|turns| - 1])
  }

  function Handlers(t: Table, s: nat): nat { if s in t.subscribed then 1 else 0 }

  function Listings(t: Table, s: nat): nat { multiset(t.list)[s] }

  ghost predicate Counted(t: Table, s: nat) {
    Listings(t, s) + t.adding[s] + t.wiped[s] == Handlers(t, s) + t.removing[s] + t.missed[s]
  }

  lemma DeletionKeepsCount(t: Table, x: nat, s: nat)
    requires Counted(t, s)
    ensures Counted(Turned(t, DeleteFromList(x)), s)
  {
    DeletedRemovesOne(t.list, x);
  }

  lemma AdditionKeepsCount(t: Table, x: nat, s: nat)
    requires Counted(t, s)
    ensures Counted(Turned(t, AddToList(x)), s)
  {
    assert multiset(t.list + [x])[s] == multiset(t.list)[s] + if x == s then 1 else 0;
  }

  lemma TurnKeepsCount(t: Table, a: Turn, s: nat)
    requires Counted(t, s)
    ensures Counted(Turned(t, a), s)
  {
    match a
    case DeleteFromList(x) => DeletionKeepsCount(t, x, s);
    case AddToList(x) => AdditionKeepsCount(t, x, s);
    case _ =>
  }

  /**
    Over every interleaving, Resets included: when no call is half-way, a stream is listed
    once for its handler, once more for every removal that ran before its entry was there,
    and once less for every entry a Reset dropped. So it is listed exactly while it has a
    handler if and only if those are equally many.
   */
  lemma {:induction false} ListedWhileHandled(turns: seq<Turn>, s: nat)
    ensures var t := Turns(turns);
            && Counted(t, s)
            && (t.adding[s] == 0 && t.removing[s] == 0 ==>
                  (Listings(t, s) == Handlers(t, s) <==> t.missed[s] == t.wiped[s]))
  {
    if turns != [] {
      var n := |turns| - 1;
      ListedWhileHandled(turns[..n], s);
      TurnKeepsCount(Turns(turns[..n]), turns[n], s);
    }
  }

  /** A stream's calls without a Reset: how many of each are half-way. */
  ghost predicate IsMidway(turns: seq<Turn>, listed: nat, adding: nat, removing: nat) {
    && ResetStore !in turns
    && var t := Turns(turns);
       Listings(t, 0) == |t.list| == listed && t.subscribed == {} && t.adding[0] == adding && t.removing[0] == removing
  }

  lemma OneMore(turns: seq<Turn>, a: Turn) returns (longer: seq<Turn>)
    ensures longer == turns + [a] && Turns(longer) == Turned(Turns(turns), a)
    ensures ResetStore !in turns && a != ResetStore ==> ResetStore !in longer
  {
    longer := turns + [a];
    assert longer[..|longer| - 1] == turns;
  }

  lemma {:induction false} HandlersComeAndGo(n: nat) returns (turns: seq<Turn>)
    ensures IsMidway(turns, 0, n, n)
  {
    turns := [];
    if n > 0 {
      turns := HandlersComeAndGo(n - 1);
      turns := OneMore(turns, TakeHandler(0));
      turns := OneMore(turns, DropHandler(0));
    }
  }

  lemma {:induction false} DeletionsFirst(turns: seq<Turn>, n: nat, k: nat) returns (longer: seq<Turn>)
    requires IsMidway(turns, 0, n, k)
    ensures IsMidway(longer, 0, n, 0)
    decreases k
  {
    longer := turns;
    if k > 0 {
      longer := OneMore(longer, DeleteFromList(0));
      longer := DeletionsFirst(longer, n, k - 1);
    }
  }

  lemma {:induction false} AdditionsLast(turns: seq<Turn>, listed: nat, k: nat) returns (longer: seq<Turn>)
    requires IsMidway(turns, listed, k, 0)
    ensures IsMidway(longer, listed + k, 0, 0)
    decreases k
  {
    longer := turns;
    if k > 0 {
      longer := OneMore(longer, AddToList(0));
      longer := AdditionsLast(longer, listed + 1, k - 1);
    }
  }

  /**
    Without a Reset a stream ends up listed at least as often as it has a handler, and
    every such number of listings does happen: `n` entries that nobody handles can be left
    behind, and the change is then handled that many times more.
   */
  lemma LeftoversHappen(n: nat, handled: bool)
    ensures exists turns :: ResetStore !in turns &&
              var t := Turns(turns);
              && t.adding[0] == t.removing[0] == 0
              && (0 in t.subscribed <==> handled)
              && Listings(t, 0) == Handlers(t, 0) + n
  {
    var turns := HandlersComeAndGo(n);
    turns := DeletionsFirst(turns, n, n);
    turns := AdditionsLast(turns, 0, n);
    if handled {
      turns := OneMore(turns, TakeHandler(0));
      turns := OneMore(turns, AddToList(0));
    }
    var t := Turns(turns);
    assert ResetStore !in turns && t.adding[0] == t.removing[0] == 0 && (0 in t.subscribed <==> handled);
  }

  /** Only a Reset makes listings fall short. */
  lemma NothingWiped(turns: seq<Turn>, s: nat)
    requires ResetStore !in turns && Turns(turns).adding[s] == 0
    ensures Listings(Turns(turns), s) >= Handlers(Turns(turns), s)
  {
    ListedWhileHandled(turns, s);
    NoResetNoWipe(turns);
  }

  lemma OnlyResetWipes(t: Table, a: Turn)
    requires a != ResetStore
    ensures Turned(t, a).wiped == t.wiped
  {
  }

  lemma {:induction false} NoResetNoWipe(turns: seq<Turn>)
    requires ResetStore !in turns
    ensures Turns(turns).wiped == multiset{}
  {
    if turns != [] {
      var n := |turns| - 1;
      NoResetNoWipe(turns[..n]);
      OnlyResetWipes(Turns(turns[..n]), turns[n]);
    }
  }
}
