/**
  Concurrent dispatch on any number of channels: `Send` starts a goroutine per listener
  subscribed on the channel and counts it in the channel's wait group (bus/channel.go),
  the goroutine runs the listener's wrapper with its `sync.Once` (bus/eventbus.go),
  callbacks may send on any channel, and `Fire` waits for the group of its own channel
  (bus/message_handler.go). Every interleaving is a run. Bus listeners subscribe with the
  channel's own run-once flag off, so `Send` skips none of them.
 */
module Dispatch {
  import opened Options
  import opened Messages

  /** The life of a delivery goroutine; `Returned` is before the wait group's Done. */
  datatype Stage = Queued | Running | Returned | Done

  /**
    `root`: the top-level send this delivery was, directly or by nested sends, caused by;
    `home`: every send of that chain was on the channel of the top-level one.
   */
  datatype Delivery = Delivery(
    listener: nat,
    channel: nat,
    message: Message,
    root: nat,
    home: bool,
    stage: Stage)

  datatype OnceState = Unused | Busy(delivery: nat) | Used

  /** `calls`: the deliveries whose callback was run. */
  datatype Listener = Listener(
    channel: nat,
    filter: Filter,
    runOnce: bool,
    subscribed: bool,
    once: OnceState,
    calls: seq<nat>)

  /**
    `wg`: the counters of the channels; `roots`: the channels of the top-level sends;
    `waited`: the top-level sends whose `Fire` has returned.
   */
  datatype Bus = Bus(
    listeners: seq<Listener>,
    deliveries: seq<Delivery>,
    wg: map<nat, int>,
    roots: seq<nat>,
    waited: set<nat>)

  datatype Action =
    | Listen(channel: nat, filter: Filter, runOnce: bool)
    | CloseListener(h: nat)
    /** A send from outside, or from the running callback of a delivery. */
    | Send(parent: Option<nat>, channel: nat, message: Message)
    | Start(d: nat)
    | Finish(d: nat)
    | Release(d: nat)
    /** `Fire` for a root returns: the wait group of its channel was seen at zero. */
    | FireReturns(root: nat)

  function Init(): Bus { Bus([], [], map[], [], {}) }

  /** The counter of a channel. */
  function Counter(b: Bus, ch: nat): int { if ch in b.wg then b.wg[ch] else 0 }

  /** One queued delivery per listener subscribed on the channel, in order. */
  function Fan(ls: seq<Listener>, ch: nat, m: Message, root: nat, home: bool): seq<Delivery> {
    if ls == [] then []
    else
      var n := |ls| - 1;
      Fan(ls[..n], ch, m, root, home)
      + if ls[n].subscribed && ls[n].channel == ch then [Delivery(n, ch, m, root, home, Queued)] else []
  }

  function VerdictOf(b: Bus, d: nat): Verdict
    requires d < |b.deliveries|
  {
    var x := b.deliveries[d];
    if x.listener < |b.listeners| then Classify(b.listeners[x.listener].filter, x.message) else Ignored
  }

  predicate AtStage(b: Bus, d: nat, stage: Stage) {
    d < |b.deliveries| && b.deliveries[d].stage == stage && b.deliveries[d].listener < |b.listeners|
  }

  predicate Enabled(b: Bus, a: Action) {
    match a
    case Listen(_, _, _) => true
    case CloseListener(h) => h < |b.listeners|
    case Send(None, _, _) => true
    case Send(Some(p), _, _) => AtStage(b, p, Running)
    case Start(d) =>
      && AtStage(b, d, Queued)
      && var l := b.listeners[b.deliveries[d].listener];
         l.runOnce && l.once.Busy? ==> VerdictOf(b, d).Ignored?
    case Finish(d) => AtStage(b, d, Running)
    case Release(d) => AtStage(b, d, Returned)
    case FireReturns(root) => root < |b.roots| && Counter(b, b.roots[root]) == 0
  }

  function SetStage(b: Bus, d: nat, stage: Stage): Bus
    requires d < |b.deliveries|
  {
    b.(deliveries := b.deliveries[d := b.deliveries[d].(stage := stage)])
  }

  function SetListener(b: Bus, h: nat, l: Listener): Bus
    requires h < |b.listeners|
  {
    b.(listeners := b.listeners[h := l])
  }

  /** The wrapper runs: filter, once-guard, callback begins. */
  function Started(b: Bus, d: nat): Bus
    requires AtStage(b, d, Queued)
  {
    var h := b.deliveries[d].listener;
    var l := b.listeners[h];
    if VerdictOf(b, d).Ignored? || (l.runOnce && l.once.Used?) then SetStage(b, d, Returned)
    else
      SetListener(SetStage(b, d, Running), h,
                  l.(calls := l.calls + [d], once := if l.runOnce then Busy(d) else l.once))
  }

  /** The callback returned; a run-once listener is spent and unsubscribed. */
  function Finished(b: Bus, d: nat): Bus
    requires AtStage(b, d, Running)
  {
    var h := b.deliveries[d].listener;
    var l := b.listeners[h];
    SetListener(SetStage(b, d, Returned), h, if l.runOnce then l.(once := Used, subscribed := false) else l)
  }

  function RootOf(b: Bus, parent: Option<nat>): nat
    requires parent.Some? ==> parent.value < |b.deliveries|
  {
    if parent.Some? then b.deliveries[parent.value].root else |b.roots|
  }

  function IsHome(b: Bus, parent: Option<nat>, ch: nat): bool
    requires parent.Some? ==> parent.value < |b.deliveries|
  {
    parent.Some? ==> b.deliveries[parent.value].home && b.deliveries[parent.value].channel == ch
  }

  function Sent(b: Bus, parent: Option<nat>, ch: nat, m: Message): Bus
    requires parent.Some? ==> parent.value < |b.deliveries|
  {
    var fan := Fan(b.listeners, ch, m, RootOf(b, parent), IsHome(b, parent, ch));
    b.(deliveries := b.deliveries + fan,
       wg := b.wg[ch := Counter(b, ch) + |fan|],
       roots := if parent.Some? then b.roots else b.roots + [ch])
  }

  function Released(b: Bus, d: nat): Bus
    requires d < |b.deliveries|
  {
    var ch := b.deliveries[d].channel;
    SetStage(b, d, Done).(wg := b.wg[ch := Counter(b, ch) - 1])
  }

  function Step(b: Bus, a: Action): Bus {
    if !Enabled(b, a) then b
    else match a
      case Listen(ch, f, once) => b.(listeners := b.listeners + [Listener(ch, f, once, true, Unused, [])])
      case CloseListener(h) => SetListener(b, h, b.listeners[h].(subscribed := false))
      case Send(p, ch, m) => Sent(b, p, ch, m)
      case Start(d) => Started(b, d)
      case Finish(d) => Finished(b, d)
      case Release(d) => Released(b, d)
      case FireReturns(root) => b.(waited := b.waited + {root})
  }

  function Run(actions: seq<Action>): Bus {
    if actions == [] then Init() else Step(Run(actions[..|actions| - 1]), actions[|actions| - 1])
  }

  // ----- counting unfinished deliveries -----

  predicate IsUnfinished(x: Delivery, ch: nat) { x.channel == ch && !x.stage.Done? }

  /** The dispatched and unfinished deliveries of a channel. */
  function Unfinished(ds: seq<Delivery>, ch: nat): nat {
    if ds == [] then 0 else Unfinished(ds[..|ds| - 1], ch) + if IsUnfinished(ds[|ds| - 1], ch) then 1 else 0
  }

  lemma {:induction false} UnfinishedUpdate(ds: seq<Delivery>, d: nat, x: Delivery, ch: nat)
    requires d < |ds| && !ds[d].stage.Done? && x.channel == ds[d].channel
    ensures Unfinished(ds[d := x], ch) == Unfinished(ds, ch) - if x.stage.Done? && x.channel == ch then 1 else 0
  {
    var n := |ds| - 1;
    if d < n {
      UnfinishedUpdate(ds[..n], d, x, ch);
      assert ds[d := x][..n] == ds[..n][d := x];
    } else {
      assert ds[d := x][..n] == ds[..n];
    }
  }

  lemma {:induction false} UnfinishedAppend(ds: seq<Delivery>, more: seq<Delivery>, to: nat, ch: nat)
    requires forall i :: 0 <= i < |more| ==> more[i].stage.Queued? && more[i].channel == to
    ensures Unfinished(ds + more, ch) == Unfinished(ds, ch) + if ch == to then |more| else 0
    decreases |more|
  {
    if more == [] {
      assert ds + more == ds;
    } else {
      var n := |more| - 1;
      UnfinishedAppend(ds, more[..n], to, ch);
      assert (ds + more)[..|ds + more| - 1] == ds + more[..n];
    }
  }

  lemma {:induction false} NoneUnfinished(ds: seq<Delivery>, ch: nat)
    requires Unfinished(ds, ch) == 0
    ensures forall i :: 0 <= i < |ds| ==> !IsUnfinished(ds[i], ch)
  {
    if ds != [] {
      NoneUnfinished(ds[..|ds| - 1], ch);
      assert forall i :: 0 <= i < |ds| - 1 ==> ds[..|ds| - 1][i] == ds[i];
    }
  }

  lemma {:induction false} FanIsQueued(ls: seq<Listener>, ch: nat, m: Message, root: nat, home: bool)
    ensures forall i :: 0 <= i < |Fan(ls, ch, m, root, home)| ==>
              var x := Fan(ls, ch, m, root, home)[i];
              x.stage.Queued? && x.channel == ch && x.root == root && x.home == home && x.listener < |ls|
  {
    if ls != [] {
      FanIsQueued(ls[..|ls| - 1], ch, m, root, home);
    }
  }

  // ----- the invariant -----

  predicate Matches(b: Bus, d: nat) { d < |b.deliveries| && !VerdictOf(b, d).Ignored? }

  /** A run-once listener: unused, busy with its one call, or used by it. */
  ghost predicate OnceOk(b: Bus, h: nat)
    requires h < |b.listeners|
  {
    var l := b.listeners[h];
    l.runOnce ==>
      match l.once
      case Unused => l.calls == []
      case Busy(d) => l.calls == [d] && AtStage(b, d, Running) && b.deliveries[d].listener == h
      case Used => |l.calls| == 1 && !l.subscribed
  }

  ghost predicate DeliveryOk(b: Bus, d: nat)
    requires d < |b.deliveries|
  {
    var x := b.deliveries[d];
    && x.listener < |b.listeners|
    && x.root < |b.roots|
    && (x.home ==> x.channel == b.roots[x.root])
    && (x.home && x.root in b.waited ==> x.stage.Done?)
    && var l := b.listeners[x.listener];
       && (l.runOnce && x.stage.Running? ==> l.once == Busy(d))
       && (l.runOnce && (x.stage.Returned? || x.stage.Done?) && Matches(b, d) ==> l.once.Used?)
  }

  ghost predicate Inv(b: Bus) {
    && (forall ch: nat :: Counter(b, ch) == Unfinished(b.deliveries, ch))
    && (forall r :: r in b.waited ==> r < |b.roots|)
    && (forall h :: 0 <= h < |b.listeners| ==> OnceOk(b, h))
    && (forall d :: 0 <= d < |b.deliveries| ==> DeliveryOk(b, d))
  }

  lemma SentKeeps(b: Bus, parent: Option<nat>, ch: nat, m: Message)
    requires Inv(b) && Enabled(b, Send(parent, ch, m))
    ensures Inv(Sent(b, parent, ch, m))
  {
    var b' := Sent(b, parent, ch, m);
    var root, home := RootOf(b, parent), IsHome(b, parent, ch);
    var fan := Fan(b.listeners, ch, m, root, home);
    FanIsQueued(b.listeners, ch, m, root, home);
    forall c: nat ensures Counter(b', c) == Unfinished(b'.deliveries, c) {
      UnfinishedAppend(b.deliveries, fan, ch, c);
    }
    assert forall d :: 0 <= d < |b.deliveries| ==> b'.deliveries[d] == b.deliveries[d];
    if parent.Some? {
      assert DeliveryOk(b, parent.value);
    }
    forall h | 0 <= h < |b'.listeners| ensures OnceOk(b', h) {
      assert OnceOk(b, h);
    }
    forall d | 0 <= d < |b'.deliveries| ensures DeliveryOk(b', d) {
      if d < |b.deliveries| {
        assert DeliveryOk(b, d);
      } else {
        assert b'.deliveries[d] == fan[d - |b.deliveries|];
      }
    }
  }

  /** Moving one delivery, and perhaps its listener, leaves the others as they were. */
  lemma MovedKeeps(b: Bus, b': Bus, d: nat, h: nat)
    requires Inv(b) && d < |b.deliveries| && h == b.deliveries[d].listener && h < |b.listeners|
    requires !b.deliveries[d].stage.Done? && |b'.deliveries| == |b.deliveries| && |b'.listeners| == |b.listeners|
    requires b'.deliveries == b.deliveries[d := b.deliveries[d].(stage := b'.deliveries[d].stage)]
    requires b'.listeners == b.listeners[h := b'.listeners[h]]
    requires b'.listeners[h].filter == b.listeners[h].filter && b'.listeners[h].runOnce == b.listeners[h].runOnce
    requires b'.roots == b.roots && b'.waited == b.waited
    requires forall ch: nat :: Counter(b', ch) ==
               Counter(b, ch) - if b'.deliveries[d].stage.Done? && b.deliveries[d].channel == ch then 1 else 0
    requires OnceOk(b', h) && DeliveryOk(b', d)
    requires b'.listeners[h].runOnce ==>
               b'.listeners[h].once == b.listeners[h].once || b.listeners[h].once.Unused? || b'.listeners[h].once.Used?
    requires b.deliveries[d].stage.Running? && b'.listeners[h].runOnce ==> b.listeners[h].once == Busy(d)
    requires b'.listeners[h].once.Used? && b'.listeners[h].runOnce && !b.listeners[h].once.Used? ==>
               b.listeners[h].once == Busy(d)
    ensures Inv(b')
  {
    forall ch: nat ensures Counter(b', ch) == Unfinished(b'.deliveries, ch) {
      UnfinishedUpdate(b.deliveries, d, b'.deliveries[d], ch);
    }
    forall k | 0 <= k < |b'.listeners| ensures OnceOk(b', k) {
      assert OnceOk(b, k);
    }
    forall e | 0 <= e < |b'.deliveries| ensures DeliveryOk(b', e) {
      assert DeliveryOk(b, e);
      assert OnceOk(b, b.deliveries[e].listener);
    }
  }

  lemma StartedKeeps(b: Bus, d: nat)
    requires Inv(b) && Enabled(b, Start(d))
    ensures Inv(Started(b, d))
  {
    assert DeliveryOk(b, d);
    assert OnceOk(b, b.deliveries[d].listener);
    var b' := Started(b, d);
    MovedKeeps(b, b', d, b.deliveries[d].listener);
  }

  lemma FinishedKeeps(b: Bus, d: nat)
    requires Inv(b) && Enabled(b, Finish(d))
    ensures Inv(Finished(b, d))
  {
    assert DeliveryOk(b, d);
    assert OnceOk(b, b.deliveries[d].listener);
    MovedKeeps(b, Finished(b, d), d, b.deliveries[d].listener);
  }

  lemma ReleaseKeeps(b: Bus, d: nat)
    requires Inv(b) && Enabled(b, Release(d))
    ensures Inv(Step(b, Release(d)))
  {
    assert DeliveryOk(b, d);
    var h := b.deliveries[d].listener;
    assert OnceOk(b, h);
    var b' := Step(b, Release(d));
    assert b'.listeners == b.listeners[h := b.listeners[h]];
    MovedKeeps(b, b', d, h);
  }

  /** Listening and closing touch no delivery. */
  lemma ListenersKeep(b: Bus, a: Action)
    requires Inv(b) && Enabled(b, a) && (a.Listen? || a.CloseListener?)
    ensures Inv(Step(b, a))
  {
    var b' := Step(b, a);
    forall h | 0 <= h < |b'.listeners| ensures OnceOk(b', h) {
      if h < |b.listeners| {
        assert OnceOk(b, h);
      }
    }
    forall d | 0 <= d < |b'.deliveries| ensures DeliveryOk(b', d) {
      assert DeliveryOk(b, d);
    }
  }

  lemma FireKeeps(b: Bus, root: nat)
    requires Inv(b) && Enabled(b, FireReturns(root))
    ensures Inv(Step(b, FireReturns(root)))
  {
    var b' := Step(b, FireReturns(root));
    NoneUnfinished(b.deliveries, b.roots[root]);
    forall h | 0 <= h < |b'.listeners| ensures OnceOk(b', h) {
      assert OnceOk(b, h);
    }
    forall d | 0 <= d < |b'.deliveries| ensures DeliveryOk(b', d) {
      assert DeliveryOk(b, d);
    }
  }

  lemma StepKeeps(b: Bus, a: Action)
    requires Inv(b)
    ensures Inv(Step(b, a))
  {
    if Enabled(b, a) {
      match a
      case Listen(_, _, _) => ListenersKeep(b, a);
      case CloseListener(_) => ListenersKeep(b, a);
      case Send(p, ch, m) => SentKeeps(b, p, ch, m);
      case Start(d) => StartedKeeps(b, d);
      case Finish(d) => FinishedKeeps(b, d);
      case Release(d) => ReleaseKeeps(b, d);
      case FireReturns(root) => FireKeeps(b, root);
    }
  }

  lemma {:induction false} RunKeeps(actions: seq<Action>)
    ensures Inv(Run(actions))
  {
    if actions != [] {
      RunKeeps(actions[..|actions| - 1]);
      StepKeeps(Run(actions[..|actions| - 1]), actions[|actions| - 1]);
    }
  }

  // ----- the theorems, over every run -----

  /** A channel's wait-group counter is the number of its dispatched and unfinished deliveries. */
  lemma WaitGroupCounts(actions: seq<Action>, ch: nat)
    ensures Counter(Run(actions), ch) == Unfinished(Run(actions).deliveries, ch)
  {
    RunKeeps(actions);
  }

  predicate Causes(b: Bus, root: nat, d: nat) { d < |b.deliveries| && b.deliveries[d].root == root }

  /**
    Once `Fire` has returned for a request, every delivery it caused by sends that all
    stayed on the fired channel is done; this holds ever after, and no further one appears.
   */
  lemma FireWaitsForAllItCaused(actions: seq<Action>, later: seq<Action>, root: nat, d: nat)
    requires root in Run(actions).waited
    requires Causes(Run(actions + later), root, d) && Run(actions + later).deliveries[d].home
    ensures Run(actions + later).deliveries[d].stage.Done?
    ensures d < |Run(actions).deliveries|
  {
    WaitedStays(actions, later, root);
    RunKeeps(actions + later);
    assert DeliveryOk(Run(actions + later), d);
    NoneLater(actions, later, root, d);
  }

  ghost predicate StaysQuiet(actions: seq<Action>, root: nat) {
    forall later: seq<Action>, d: nat :: Causes(Run(actions + later), root, d) ==>
      Run(actions + later).deliveries[d].stage.Done? && d < |Run(actions).deliveries|
  }

  /**
    `Fire` does not wait for other channels. When it has returned, everything the request
    caused is done, and nothing more of it ever comes, exactly when the deliveries caused
    by way of another channel are done by then.
   */
  lemma FireWaitsForEverythingIff(actions: seq<Action>, root: nat)
    requires root in Run(actions).waited
    ensures StaysQuiet(actions, root) <==>
            forall d: nat :: Causes(Run(actions), root, d) && !Run(actions).deliveries[d].home ==>
              Run(actions).deliveries[d].stage.Done?
  {
    RunKeeps(actions);
    var b := Run(actions);
    assert actions + [] == actions;
    if StaysQuiet(actions, root) {
      forall d: nat | Causes(b, root, d) ensures b.deliveries[d].stage.Done? {
        assert Causes(Run(actions + []), root, d);
      }
    }
    if forall d: nat :: Causes(b, root, d) && !b.deliveries[d].home ==> b.deliveries[d].stage.Done? {
      forall d: nat | Causes(b, root, d) ensures b.deliveries[d].stage.Done? {
        assert DeliveryOk(b, d);
      }
      forall later: seq<Action>, d: nat | Causes(Run(actions + later), root, d)
        ensures Run(actions + later).deliveries[d].stage.Done? && d < |Run(actions).deliveries|
      {
        QuietForGood(actions, later, root, |b.deliveries|);
      }
    }
  }

  /** The request is quiet and all it caused is among the first `n` deliveries. */
  ghost predicate QuietSince(b: Bus, root: nat, n: nat) {
    root < |b.roots| && forall d: nat :: Causes(b, root, d) ==> d < n && b.deliveries[d].stage.Done?
  }

  lemma {:induction false} QuietForGood(actions: seq<Action>, later: seq<Action>, root: nat, n: nat)
    requires QuietSince(Run(actions), root, n)
    ensures QuietSince(Run(actions + later), root, n)
    decreases |later|
  {
    if later == [] {
      assert actions + later == actions;
    } else {
      var k := |later| - 1;
      RunLonger(actions, later);
      QuietForGood(actions, later[..k], root, n);
      QuietStep(Run(actions + later[..k]), later[k], root, n);
    }
  }

  lemma QuietStep(b: Bus, a: Action, root: nat, n: nat)
    requires QuietSince(b, root, n)
    ensures QuietSince(Step(b, a), root, n)
  {
    var b' := Step(b, a);
    if Enabled(b, a) && a.Send? {
      FanIsQueued(b.listeners, a.channel, a.message, RootOf(b, a.parent), IsHome(b, a.parent, a.channel));
      if a.parent.Some? {
        assert Causes(b, RootOf(b, a.parent), a.parent.value) && !b.deliveries[a.parent.value].stage.Done?;
      }
    }
    forall d: nat | Causes(b', root, d) ensures d < n && b'.deliveries[d].stage.Done? {
      assert d < |b.deliveries| ==> Causes(b, root, d);
    }
  }

  lemma {:induction false} NoneLater(actions: seq<Action>, later: seq<Action>, root: nat, d: nat)
    requires root in Run(actions).waited
    requires Causes(Run(actions + later), root, d) && Run(actions + later).deliveries[d].home
    ensures d < |Run(actions).deliveries|
    decreases |later|
  {
    if later == [] {
      assert actions + later == actions;
    } else {
      var n := |later| - 1;
      RunLonger(actions, later);
      WaitedStays(actions, later[..n], root);
      RunKeeps(actions + later[..n]);
      OldRoot(Run(actions + later[..n]), later[n], root, d);
      NoneLater(actions, later[..n], root, d);
    }
  }

  /** The longer run of which `before` is all but the last action. */
  lemma RunIs(all: seq<Action>, before: seq<Action>, a: Action)
    requires all != [] && all[..|all| - 1] == before && all[|all| - 1] == a
    ensures Run(all) == Step(Run(before), a)
  {
  }

  lemma RunLonger(actions: seq<Action>, later: seq<Action>)
    requires later != []
    ensures Run(actions + later) == Step(Run(actions + later[..|later| - 1]), later[|later| - 1])
  {
    RunIs(actions + later, actions + later[..|later| - 1], later[|later| - 1]);
  }

  lemma RunSnoc(actions: seq<Action>, a: Action)
    ensures Run(actions + [a]) == Step(Run(actions), a)
  {
    RunIs(actions + [a], actions, a);
  }

  /** A home delivery of a root already waited for was there before the step. */
  lemma OldRoot(b: Bus, a: Action, root: nat, d: nat)
    requires Inv(b) && root in b.waited
    requires Causes(Step(b, a), root, d) && Step(b, a).deliveries[d].home
    ensures Causes(b, root, d) && b.deliveries[d].home
  {
    if d >= |b.deliveries| {
      NoNewForWaited(b, a, root, d);
    }
  }

  lemma {:induction false} WaitedStays(actions: seq<Action>, later: seq<Action>, root: nat)
    requires root in Run(actions).waited
    ensures root in Run(actions + later).waited
    decreases |later|
  {
    if later == [] {
      assert actions + later == actions;
    } else {
      var n := |later| - 1;
      RunLonger(actions, later);
      WaitedStays(actions, later[..n], root);
    }
  }

  /** A step adds no home delivery for a root already waited for. */
  lemma NoNewForWaited(b: Bus, a: Action, root: nat, d: nat)
    requires Inv(b) && root in b.waited
    requires |b.deliveries| <= d < |Step(b, a).deliveries|
    ensures Step(b, a).deliveries[d].root != root || !Step(b, a).deliveries[d].home
  {
    FanIsQueued(b.listeners, a.channel, a.message, RootOf(b, a.parent), IsHome(b, a.parent, a.channel));
    if a.parent.Some? {
      assert DeliveryOk(b, a.parent.value);
    }
  }

  lemma Longer(actions: seq<Action>, a: Action) returns (longer: seq<Action>)
    ensures longer == actions + [a] && Run(longer) == Step(Run(actions), a)
  {
    longer := actions + [a];
    RunSnoc(actions, a);
  }

  const PING := Message(RequestDir, None, "ping")
  const EVERY_REQUEST := Filter(false, true, false, None, true, false)

  const L0 := Listener(0, EVERY_REQUEST, false, true, Unused, [])
  const L1 := Listener(1, EVERY_REQUEST, false, true, Unused, [])

  const QUEUED := Bus([L0, L1], [Delivery(0, 0, PING, 0, true, Queued)], map[0 := 1], [0], {})
  const RUNNING := Bus([L0.(calls := [0]), L1], [Delivery(0, 0, PING, 0, true, Running)], map[0 := 1], [0], {})

  lemma TwoListen()
    ensures Step(Step(Init(), Listen(0, EVERY_REQUEST, false)), Listen(1, EVERY_REQUEST, false))
            == Init().(listeners := [L0, L1])
  {
  }

  lemma FirstSend()
    ensures Step(Init().(listeners := [L0, L1]), Send(None, 0, PING)) == QUEUED
  {
    TwoListeners(L0, L1, 0, 0, true);
  }

  lemma FirstStart()
    ensures Step(QUEUED, Start(0)) == RUNNING
  {
    assert VerdictOf(QUEUED, 0) == Success && L0.calls + [0] == [0];
    assert Started(QUEUED, 0) == SetListener(SetStage(QUEUED, 0, Running), 0, L0.(calls := [0]));
    assert QUEUED.deliveries[0 := QUEUED.deliveries[0].(stage := Running)] == RUNNING.deliveries;
    assert QUEUED.listeners[0 := L0.(calls := [0])] == RUNNING.listeners;
  }

  /** A handler on channel 0 sends on channel 1 and returns. */
  lemma CrossingRun() returns (actions: seq<Action>)
    ensures var b := Run(actions);
            && b.listeners == [L0.(calls := [0]), L1] && b.roots == [0] && b.waited == {}
            && b.deliveries == [Delivery(0, 0, PING, 0, true, Done), Delivery(1, 1, PING, 0, false, Queued)]
            && Counter(b, 0) == 0 && Counter(b, 1) == 1
  {
    actions := Longer([], Listen(0, EVERY_REQUEST, false));
    actions := Longer(actions, Listen(1, EVERY_REQUEST, false));
    TwoListen();
    actions := Longer(actions, Send(None, 0, PING));
    FirstSend();
    actions := Longer(actions, Start(0));
    FirstStart();
    actions := Longer(actions, Send(Some(0), 1, PING));
    actions := Longer(actions, Finish(0));
    actions := Longer(actions, Release(0));
    SendAndReturn(RUNNING);
  }

  lemma SendAndReturn(b: Bus)
    requires b == RUNNING
    ensures var b' := Step(Step(Step(b, Send(Some(0), 1, PING)), Finish(0)), Release(0));
            && b'.listeners == b.listeners && b'.roots == [0] && b'.waited == {}
            && b'.deliveries == [Delivery(0, 0, PING, 0, true, Done), Delivery(1, 1, PING, 0, false, Queued)]
            && Counter(b', 0) == 0 && Counter(b', 1) == 1
  {
    TwoListeners(b.listeners[0], b.listeners[1], 1, 0, false);
    var b1 := Step(b, Send(Some(0), 1, PING));
    assert b1.deliveries == [Delivery(0, 0, PING, 0, true, Running), Delivery(1, 1, PING, 0, false, Queued)];
    assert b1.listeners == b.listeners && b1.wg == map[0 := 1, 1 := 1];
    var b2 := Step(b1, Finish(0));
    assert b2.listeners == b.listeners && b2.deliveries[0] == Delivery(0, 0, PING, 0, true, Returned);
  }

  lemma TwoListeners(l0: Listener, l1: Listener, ch: nat, root: nat, home: bool)
    requires l0.channel == 0 && l1.channel == 1 && l0.subscribed && l1.subscribed && ch < 2
    ensures Fan([l0, l1], ch, PING, root, home) == [Delivery(ch, ch, PING, root, home, Queued)]
  {
    assert [l0, l1][..1] == [l0] && [l0][..0] == [];
    assert Fan([], ch, PING, root, home) == [];
    assert Fan([l0], ch, PING, root, home) == if ch == 0 then [Delivery(0, 0, PING, root, home, Queued)] else [];
  }

  /**
    The condition is needed: the handler on channel 1 runs after `Fire` on channel 0 has
    returned and sends on channel 0 again, so a delivery on the fired channel that the
    request caused appears afterwards.
   */
  lemma FireCanReturnTooEarly()
    ensures exists actions, later: seq<Action>, d: nat ::
              && 0 in Run(actions).waited && |Run(actions).roots| > 0 && |Run(actions).deliveries| <= d
              && Causes(Run(actions + later), 0, d)
              && Run(actions + later).deliveries[d].channel == Run(actions).roots[0]
              && !Run(actions + later).deliveries[d].stage.Done?
  {
    var t := CrossingRun();
    var fired := Longer(t, FireReturns(0));
    var t1 := Longer(fired, Start(1));
    var b := Run(t1);
    assert b.deliveries[1] == Delivery(1, 1, PING, 0, false, Running);
    TwoListeners(b.listeners[0], b.listeners[1], 0, 0, false);
    assert b.listeners == [b.listeners[0], b.listeners[1]];
    var t2 := Longer(t1, Send(Some(1), 0, PING));
    var later := [Start(1), Send(Some(1), 0, PING)];
    assert fired + later == t2;
    assert Causes(Run(fired + later), 0, 2);
  }

  /**
    A run-once listener's callbacks run at most once in total, whatever was dispatched
    before it unsubscribed, and exactly once as soon as one matching delivery has got
    past it.
   */
  lemma RunOnceRunsOnce(actions: seq<Action>, h: nat)
    requires h < |Run(actions).listeners| && Run(actions).listeners[h].runOnce
    ensures var b := Run(actions);
            && |b.listeners[h].calls| <= 1
            && ((exists d: nat :: Matches(b, d) && b.deliveries[d].listener == h
                             && (b.deliveries[d].stage.Returned? || b.deliveries[d].stage.Done?))
                ==> |b.listeners[h].calls| == 1)
  {
    RunKeeps(actions);
    var b := Run(actions);
    assert OnceOk(b, h);
    forall d: nat | Matches(b, d) && b.deliveries[d].listener == h
                    && (b.deliveries[d].stage.Returned? || b.deliveries[d].stage.Done?)
      ensures |b.listeners[h].calls| == 1
    {
      assert DeliveryOk(b, d);
    }
  }

  // ----- every subscribed listener gets every message -----

  ghost predicate IsNamed(ds: seq<Delivery>, h: nat) { exists i :: 0 <= i < |ds| && ds[i].listener == h }

  /** One delivery of the message to each listener subscribed on the channel, in their order, and no other. */
  ghost predicate IsFan(ds: seq<Delivery>, ls: seq<Listener>, ch: nat, m: Message) {
    && (forall i, j :: 0 <= i < j < |ds| ==> ds[i].listener < ds[j].listener)
    && (forall i :: 0 <= i < |ds| ==> ds[i].message == m && ds[i].listener < |ls| && ds[i].stage.Queued?)
    && forall h: nat :: Wants(ls, h, ch) <==> IsNamed(ds, h)
  }

  lemma {:induction false} FanIsExact(ls: seq<Listener>, ch: nat, m: Message, root: nat, home: bool)
    ensures IsFan(Fan(ls, ch, m, root, home), ls, ch, m)
  {
    if ls != [] {
      var n := |ls| - 1;
      FanIsExact(ls[..n], ch, m, root, home);
      var before, fan := Fan(ls[..n], ch, m, root, home), Fan(ls, ch, m, root, home);
      forall h: nat ensures Wants(ls, h, ch) <==> IsNamed(fan, h) {
        if Wants(ls, h, ch) {
          if h < n {
            assert Wants(ls[..n], h, ch) && IsNamed(before, h);
            var i :| 0 <= i < |before| && before[i].listener == h;
            assert fan[i] == before[i];
          } else {
            assert fan[|before|].listener == h;
          }
        }
        if i :| 0 <= i < |fan| && fan[i].listener == h {
          if i < |before| {
            assert before[i].listener == h && IsNamed(before, h);
            assert Wants(ls[..n], h, ch);
          }
        }
      }
    }
  }

  predicate Wants(ls: seq<Listener>, h: nat, ch: nat) { h < |ls| && ls[h].subscribed && ls[h].channel == ch }

  /** In every run, a send dispatches its message once to every listener then subscribed, and to no other. */
  lemma SendReachesAll(actions: seq<Action>, parent: Option<nat>, ch: nat, m: Message)
    requires Enabled(Run(actions), Send(parent, ch, m))
    ensures var b, b' := Run(actions), Run(actions + [Send(parent, ch, m)]);
            b.deliveries <= b'.deliveries && IsFan(b'.deliveries[|b.deliveries|..], b.listeners, ch, m)
  {
    var b := Run(actions);
    RunSnoc(actions, Send(parent, ch, m));
    FanIsExact(b.listeners, ch, m, RootOf(b, parent), IsHome(b, parent, ch));
    var fan := Fan(b.listeners, ch, m, RootOf(b, parent), IsHome(b, parent, ch));
    var b' := Sent(b, parent, ch, m);
    assert b'.deliveries == b.deliveries + fan && b'.deliveries[|b.deliveries|..] == fan;
    assert Run(actions + [Send(parent, ch, m)]) == b';
  }

  // ----- a listener runs for every match -----

  ghost predicate HasStarted(b: Bus, h: nat, d: nat) {
    Matches(b, d) && b.deliveries[d].listener == h && !b.deliveries[d].stage.Queued?
  }

  /** A listener's calls are matching deliveries of its own that have started, each once; all unless run-once. */
  ghost predicate CallsOk(b: Bus, h: nat)
    requires h < |b.listeners|
  {
    var l := b.listeners[h];
    && (forall i, j :: 0 <= i < j < |l.calls| ==> l.calls[i] != l.calls[j])
    && (forall d :: d in l.calls ==> HasStarted(b, h, d))
    && (!l.runOnce ==> forall d: nat :: HasStarted(b, h, d) ==> d in l.calls)
  }

  ghost predicate AllCallsOk(b: Bus) { forall h :: 0 <= h < |b.listeners| ==> CallsOk(b, h) }

  lemma StartedKeepsCalls(b: Bus, d: nat)
    requires Inv(b) && AllCallsOk(b) && Enabled(b, Start(d))
    ensures AllCallsOk(Started(b, d))
  {
    var b' := Started(b, d);
    forall h | 0 <= h < |b'.listeners| ensures CallsOk(b', h) {
      assert CallsOk(b, h);
      forall e: nat ensures e != d ==> (HasStarted(b', h, e) <==> HasStarted(b, h, e)) {
      }
      assert !HasStarted(b, h, d);
    }
  }

  /** Steps that start nothing change no call. */
  lemma OthersKeepCalls(b: Bus, a: Action)
    requires Inv(b) && AllCallsOk(b) && Enabled(b, a) && !a.Start?
    ensures AllCallsOk(Step(b, a))
  {
    var b' := Step(b, a);
    if a.Send? {
      FanIsQueued(b.listeners, a.channel, a.message, RootOf(b, a.parent), IsHome(b, a.parent, a.channel));
    }
    forall h | 0 <= h < |b'.listeners| ensures CallsOk(b', h) {
      forall e: nat ensures HasStarted(b', h, e) <==> HasStarted(b, h, e) {
        if e < |b.deliveries| {
          assert DeliveryOk(b, e);
        }
      }
      if h < |b.listeners| {
        assert CallsOk(b, h);
      }
    }
  }

  lemma {:induction false} RunKeepsCalls(actions: seq<Action>)
    ensures AllCallsOk(Run(actions))
  {
    if actions != [] {
      var b, a := Run(actions[..|actions| - 1]), actions[|actions| - 1];
      RunKeepsCalls(actions[..|actions| - 1]);
      RunKeeps(actions[..|actions| - 1]);
      if Enabled(b, a) {
        if a.Start? {
          StartedKeepsCalls(b, a.d);
        } else {
          OthersKeepCalls(b, a);
        }
      }
    }
  }

  /**
    In every run, a listener that is not run-once has run its callback exactly once for every
    matching delivery that has started, and for nothing else.
   */
  lemma ListenerRunsForEveryMatch(actions: seq<Action>, h: nat)
    requires h < |Run(actions).listeners| && !Run(actions).listeners[h].runOnce
    ensures var b := Run(actions);
            var calls := b.listeners[h].calls;
            && (forall i, j :: 0 <= i < j < |calls| ==> calls[i] != calls[j])
            && forall d: nat :: d in calls <==> HasStarted(b, h, d)
  {
    RunKeepsCalls(actions);
    assert CallsOk(Run(actions), h);
  }

  /** A listener once unsubscribed, by closing it or by its one call, stays so: no later send reaches it. */
  lemma {:induction false} UnsubscribedForGood(actions: seq<Action>, later: seq<Action>, h: nat)
    requires h < |Run(actions).listeners| && !Run(actions).listeners[h].subscribed
    ensures h < |Run(actions + later).listeners| && !Run(actions + later).listeners[h].subscribed
    decreases |later|
  {
    if later == [] {
      assert actions + later == actions;
    } else {
      UnsubscribedForGood(actions, later[..|later| - 1], h);
      RunLonger(actions, later);
    }
  }

  /** Closing a listener unsubscribes it, and so does the one call of a run-once listener. */
  lemma ClosedListenersGetNothing(actions: seq<Action>, h: nat)
    requires h < |Run(actions).listeners|
    ensures !Run(actions + [CloseListener(h)]).listeners[h].subscribed
    ensures var l := Run(actions).listeners[h]; l.runOnce && l.once.Used? ==> !l.subscribed
  {
    RunSnoc(actions, CloseListener(h));
    RunKeeps(actions);
    assert OnceOk(Run(actions), h);
  }

  /** In every run, when the one call of a run-once listener returns, the listener is unsubscribed. */
  lemma SpentListenerUnsubscribes(actions: seq<Action>, d: nat)
    requires Enabled(Run(actions), Finish(d))
    ensures var b' := Run(actions + [Finish(d)]);
            && d < |b'.deliveries| && b'.deliveries[d].stage.Returned? && b'.deliveries[d].listener < |b'.listeners|
            && (b'.listeners[b'.deliveries[d].listener].runOnce ==>
                  !b'.listeners[b'.deliveries[d].listener].subscribed)
  {
    RunSnoc(actions, Finish(d));
    RunKeeps(actions + [Finish(d)]);
  }
}
