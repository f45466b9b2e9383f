/**
  Every run of one transaction over the bus. Requests are executed, replies and errors
  are dispatched and delivered, stores become ready, and callbacks run, in any order
  and with any messages. A request's listener passes at most one message on: taking it
  (`Deliver`) and running the callback under the transaction's lock (`Callback`) are
  separate steps.
 */
module TransactionRuns {
  import opened Options
  import opened Messages
  import opened Transaction

  /** Where a request stands; `Calling` has consumed its once-guard and not yet run. */
  datatype Status =
    | Idle
    | Issued
    | Listening(id: int)
    | WaitingForStore
    | Calling(ok: bool, message: Message)
    | Spent

  datatype Packet = Packet(request: nat, message: Message)

  /** A request message on the bus, under the id its listener waits for. */
  datatype SentRequest = SentRequest(channel: string, payload: string, id: int)

  /**
    `sent`: the request messages sent, in order; `stores`: the ready stores with their
    content, which may change at any time.
   */
  datatype System = System(
    tx: Tx,
    status: seq<Status>,
    ids: map<nat, int>,
    nextId: int,
    sent: seq<SentRequest>,
    inFlight: multiset<Packet>,
    stores: map<string, string>)

  datatype Action =
    | AddRequest(channel: string, payload: string)
    | AddStore(store: string)
    | AddComplete(handler: nat)
    | AddError(handler: nat)
    | Commit
    | Execute(i: nat, found: bool)
    | Dispatch(i: nat, message: Message)
    | Deliver(i: nat, message: Message)
    | StoreChanges(store: string, content: string)
    | StoreReady(i: nat)
    | Callback(i: nat)

  function Init(kind: Kind): System { System(NewTx(kind), [], map[], 0, [], multiset{}, map[]) }

  function Issue(status: seq<Status>, issues: seq<nat>): seq<Status> {
    seq(|status|, i requires 0 <= i < |status| => if i in issues then Issued else status[i])
  }

  function StoreOf(s: System, i: nat): string {
    if i < |s.tx.requests| then s.tx.requests[i].storeName else ""
  }

  /** The content of the store, read as the request's store has become ready. */
  function StoreRead(s: System, i: nat): System
    requires i < |s.status| && StoreOf(s, i) in s.stores
  {
    s.(status := s.status[i := Calling(true, Message(ResponseDir, None, s.stores[StoreOf(s, i)]))])
  }

  ghost predicate Enabled(s: System, a: Action) {
    match a
    case AddRequest(_, _) => s.tx.phase.Uncommitted?
    case AddStore(_) => s.tx.phase.Uncommitted?
    case AddComplete(_) => s.tx.phase.Uncommitted?
    case AddError(_) => s.tx.phase.Uncommitted?
    case Commit => CanCommit(s.tx)
    case Execute(i, _) => i < |s.status| && s.status[i].Issued?
    case Dispatch(i, _) => i in s.ids
    case Deliver(i, m) => Packet(i, m) in s.inFlight
    case StoreChanges(_, _) => true
    case StoreReady(i) => i < |s.status| && s.status[i].WaitingForStore? && StoreOf(s, i) in s.stores
    case Callback(i) => i < |s.status| && s.status[i].Calling? && i < |s.tx.responses|
  }

  /** `executeRequest`: listen or wait, or fail when the channel or store is missing. */
  function Executed(s: System, i: nat, found: bool): System
    requires i < |s.status|
  {
    if !found then s.(status := s.status[i := Spent], tx := Fail(s.tx, "missing"))
    else if i >= |s.tx.requests| || s.tx.requests[i].storeName != "" then
      s.(status := s.status[i := WaitingForStore])
    else
      s.(status := s.status[i := Listening(s.nextId)],
         ids := s.ids[i := s.nextId],
         nextId := s.nextId + 1,
         sent := s.sent + [SentRequest(s.tx.requests[i].channelName, s.tx.requests[i].payload, s.nextId)])
  }

  /** A message reaches request `i`'s listener; only a listening one can be moved by it. */
  function Delivered(s: System, i: nat, m: Message): System {
    var s1 := s.(inFlight := s.inFlight - multiset{Packet(i, m)});
    if i >= |s.status| || !s.status[i].Listening? then s1
    else match Classify(ReplyFilter(s.status[i].id), m)
      case Ignored => s1
      case Success => s1.(status := s.status[i := Calling(true, m)])
      case Failure => s1.(status := s.status[i := Calling(false, m)])
  }

  function CalledBack(s: System, i: nat): System
    requires i < |s.status| && s.status[i].Calling? && i < |s.tx.responses|
  {
    var spent := s.status[i := Spent];
    if s.status[i].ok then
      s.(tx := Succeed(s.tx, i, s.status[i].message), status := Issue(spent, SucceedIssues(s.tx, i)))
    else
      s.(tx := Fail(s.tx, s.status[i].message.payload), status := spent)
  }

  ghost function Step(s: System, a: Action): System {
    if !Enabled(s, a) then s
    else match a
      case AddRequest(ch, p) => s.(tx := Add(s.tx, "", ch, p))
      case AddStore(st) => s.(tx := Add(s.tx, st, "", ""))
      case AddComplete(h) => s.(tx := s.tx.(onComplete := s.tx.onComplete + [h]))
      case AddError(h) => s.(tx := s.tx.(onError := s.tx.onError + [h]))
      case Commit =>
        s.(tx := CommitTx(s.tx),
           status := Issue(seq(|s.tx.requests|, _ => Idle), CommitIssues(s.tx)))
      case Execute(i, found) => Executed(s, i, found)
      case Dispatch(i, m) => s.(inFlight := s.inFlight + multiset{Packet(i, m)})
      case Deliver(i, m) => Delivered(s, i, m)
      case StoreChanges(store, content) => s.(stores := s.stores[store := content])
      case StoreReady(i) => StoreRead(s, i)
      case Callback(i) => CalledBack(s, i)
  }

  ghost function Run(kind: Kind, actions: seq<Action>): System {
    if actions == [] then Init(kind)
    else Step(Run(kind, actions[..|actions| - 1]), actions[|actions| - 1])
  }

  // ----- counting filled slots -----

  function Filled(rs: Replies): nat {
    if rs == [] then 0 else Filled(rs[..|rs| - 1]) + if rs[|rs| - 1].Some? then 1 else 0
  }

  lemma {:induction false} FillOne(rs: Replies, i: nat, m: Message)
    requires i < |rs| && rs[i].None?
    ensures Filled(rs[i := Some(m)]) == Filled(rs) + 1
  {
    var n := |rs| - 1;
    if i < n {
      FillOne(rs[..n], i, m);
      assert rs[i := Some(m)][..n] == rs[..n][i := Some(m)];
    } else {
      assert rs[i := Some(m)][..n] == rs[..n];
    }
  }

  lemma {:induction false} FilledBound(rs: Replies)
    ensures Filled(rs) <= |rs|
    ensures Filled(rs) == |rs| <==> forall i :: 0 <= i < |rs| ==> rs[i].Some?
  {
    if rs != [] {
      var n := |rs| - 1;
      FilledBound(rs[..n]);
      assert forall i :: 0 <= i < n ==> rs[..n][i] == rs[i];
    }
  }

  lemma {:induction false} FilledNone(n: nat)
    ensures Filled(seq(n, _ => None)) == 0
  {
    if n > 0 {
      var rs: Replies := seq(n, _ => None);
      FilledNone(n - 1);
      assert rs[..n - 1] == seq(n - 1, _ => None);
    }
  }

  // ----- the invariant -----

  predicate IsStore(s: System, i: nat) { StoreOf(s, i) != "" }

  /** A reply to request `i`: addressed to the id it listens under, or its store's content. */
  ghost predicate OwnReply(s: System, i: nat, m: Message) {
    && m.direction.ResponseDir?
    && if IsStore(s, i) then m.destination.None? else i in s.ids && m.destination == Some(s.ids[i])
  }

  ghost predicate RequestOk(s: System, i: nat)
    requires i < |s.status| && i < |s.tx.responses|
  {
    && (s.tx.responses[i].Some? ==> s.status[i].Spent? && OwnReply(s, i, s.tx.responses[i].value))
    && (s.status[i].Spent? && s.tx.responses[i].None? ==> s.tx.phase.Aborted?)
    && (s.status[i].Calling? && s.status[i].ok ==> OwnReply(s, i, s.status[i].message))
    && (s.status[i].Listening? ==> !IsStore(s, i) && i in s.ids && s.ids[i] == s.status[i].id)
    && (s.status[i].WaitingForStore? ==> IsStore(s, i))
  }

  /** A sync transaction works on request `completed` and on no other. */
  ghost predicate InSequence(s: System)
    requires |s.status| == |s.tx.responses|
  {
    forall i :: 0 <= i < |s.status| ==>
      && (i < s.tx.completed <==> s.tx.responses[i].Some?)
      && (i > s.tx.completed ==> s.status[i].Idle?)
      && (i == s.tx.completed ==> !s.status[i].Idle?)
  }

  ghost predicate OutcomeOk(tx: Tx) {
    match tx.phase
    case Uncommitted => tx.spawned == []
    case Committed => tx.spawned == []
    case Completed => tx.spawned == Completes(tx.onComplete, tx.responses)
    case Aborted => exists e :: tx.spawned == Errors(tx.onError, e)
  }

  ghost predicate IdsOk(s: System) {
    && (forall i :: i in s.ids ==> s.ids[i] < s.nextId)
    && (forall i, j :: i in s.ids && j in s.ids && s.ids[i] == s.ids[j] ==> i == j)
  }

  /** An issued request has not been given an id yet. */
  ghost predicate FreshWhenIssued(s: System) {
    forall i :: i in s.ids ==> i < |s.status| && !s.status[i].Idle? && !s.status[i].Issued?
  }

  ghost predicate Inv(s: System) {
    && OutcomeOk(s.tx) && IdsOk(s) && FreshWhenIssued(s)
    && s.tx.completed == Filled(s.tx.responses)
    && (if s.tx.phase.Uncommitted? then s.status == [] && s.tx.responses == []
        else
          && |s.status| == |s.tx.responses| == |s.tx.requests| > 0
          && (forall i :: 0 <= i < |s.status| ==> RequestOk(s, i))
          && (s.tx.phase.Completed? ==> s.tx.completed == |s.tx.requests|)
          && (s.tx.phase.Committed? ==> s.tx.completed < |s.tx.requests|)
          && (s.tx.kind.Sync? ==> InSequence(s))
          && (s.tx.kind.Async? ==> forall i :: 0 <= i < |s.status| ==> !s.status[i].Idle?))
  }

  lemma CommitKeeps(s: System)
    requires Inv(s) && Enabled(s, Commit)
    ensures Inv(Step(s, Commit))
  {
    var s' := Step(s, Commit);
    FilledNone(|s.tx.requests|);
    assert s.ids == map[];
    assert s.tx.completed == 0;
    assert s'.tx.responses == seq(|s.tx.requests|, _ => None);
    if s.tx.kind.Async? {
      forall i | 0 <= i < |s'.status| ensures s'.status[i].Issued? {
        assert UpTo(|s.tx.requests|)[i] == i;
      }
    }
  }

  lemma FailKeeps(s: System, i: nat, error: string)
    requires Inv(s) && i < |s.status| && !s.status[i].Idle? && !s.tx.phase.Uncommitted?
    requires s.status[i].Issued? || s.status[i].Calling?
    ensures Inv(s.(tx := Fail(s.tx, error), status := s.status[i := Spent]))
  {
    var s' := s.(tx := Fail(s.tx, error), status := s.status[i := Spent]);
    assert RequestOk(s, i);
    FilledBound(s.tx.responses);
    if !s.tx.phase.Aborted? {
      assert !s.tx.phase.Completed?;
      assert s'.tx.spawned == Errors(s.tx.onError, error);
    }
    forall j | 0 <= j < |s'.status| ensures RequestOk(s', j) {
      assert RequestOk(s, j);
    }
  }

  /** A move of one unfilled request that leaves the transaction alone. */
  lemma StatusKeeps(s: System, s': System, i: nat)
    requires Inv(s) && !s.tx.phase.Uncommitted? && i < |s.status|
    requires s'.tx == s.tx && |s'.status| == |s.status| && s'.status == s.status[i := s'.status[i]]
    requires !s.status[i].Idle? && !s.status[i].Spent?
    requires !s'.status[i].Idle? && !s'.status[i].Spent? && !s'.status[i].Issued?
    requires IdsOk(s') && (forall j :: j in s.ids ==> j in s'.ids && s'.ids[j] == s.ids[j])
    requires forall j :: j in s'.ids ==> j in s.ids || j == i
    requires RequestOk(s', i)
    ensures Inv(s')
  {
    forall j | 0 <= j < |s'.status| ensures RequestOk(s', j) {
      assert RequestOk(s, j);
    }
  }

  /** A late reply to an aborted transaction only spends its request. */
  lemma LateReplyKeeps(s: System, i: nat)
    requires Inv(s) && Enabled(s, Callback(i)) && s.status[i].ok && s.tx.phase.Aborted?
    ensures Inv(CalledBack(s, i))
  {
    var s' := CalledBack(s, i);
    assert s'.tx == s.tx && s'.status == s.status[i := Spent];
    assert RequestOk(s, i);
    forall j | 0 <= j < |s'.status| ensures RequestOk(s', j) {
      assert RequestOk(s, j);
    }
  }

  lemma ReplyFillsSlot(s: System, i: nat)
    requires Inv(s) && Enabled(s, Callback(i)) && s.status[i].ok
    requires !s.tx.phase.Uncommitted? && !s.tx.phase.Aborted?
    ensures s.tx.phase.Committed? && s.tx.responses[i].None?
    ensures s.tx.kind.Sync? ==> i == s.tx.completed
    ensures var tx' := Succeed(s.tx, i, s.status[i].message);
            && tx'.completed == Filled(tx'.responses) <= |tx'.requests|
            && OutcomeOk(tx')
  {
    assert RequestOk(s, i);
    FilledBound(s.tx.responses);
    FillOne(s.tx.responses, i, s.status[i].message);
    var tx' := Succeed(s.tx, i, s.status[i].message);
    FilledBound(tx'.responses);
  }

  lemma ReplyKeepsRequests(s: System, i: nat, j: nat)
    requires Inv(s) && Enabled(s, Callback(i)) && s.status[i].ok && s.tx.phase.Committed? && j < |s.status|
    requires s.tx.responses[i].None? && (s.tx.kind.Sync? ==> i == s.tx.completed)
    ensures RequestOk(CalledBack(s, i), j)
  {
    assert RequestOk(s, j) && RequestOk(s, i);
    var s' := CalledBack(s, i);
    if j != i {
      assert s'.tx.responses[j] == s.tx.responses[j];
      assert s'.status[j] == s.status[j] || (s.tx.kind.Sync? && j == i + 1 && s'.status[j].Issued?);
    }
  }

  lemma SucceedKeeps(s: System, i: nat)
    requires Inv(s) && Enabled(s, Callback(i)) && s.status[i].ok && !s.tx.phase.Uncommitted?
    ensures Inv(CalledBack(s, i))
  {
    if s.tx.phase.Aborted? {
      LateReplyKeeps(s, i);
    } else {
      ReplyFillsSlot(s, i);
      var s' := CalledBack(s, i);
      forall j | 0 <= j < |s'.status| ensures RequestOk(s', j) {
        ReplyKeepsRequests(s, i, j);
      }
      ReplyKeepsIds(s, i);
      ReplyKeepsSequence(s, i);
    }
  }

  lemma ReplyKeepsIds(s: System, i: nat)
    requires Inv(s) && Enabled(s, Callback(i)) && s.status[i].ok && s.tx.phase.Committed?
    requires s.tx.kind.Sync? ==> i == s.tx.completed
    ensures FreshWhenIssued(CalledBack(s, i))
  {
  }

  lemma ReplyKeepsSequence(s: System, i: nat)
    requires Inv(s) && Enabled(s, Callback(i)) && s.status[i].ok && s.tx.phase.Committed?
    requires s.tx.kind.Sync? ==> i == s.tx.completed
    ensures var s' := CalledBack(s, i);
            && |s'.status| == |s'.tx.responses|
            && (s.tx.kind.Sync? ==> InSequence(s'))
            && (s.tx.kind.Async? ==> forall j :: 0 <= j < |s'.status| ==> !s'.status[j].Idle?)
  {
  }

  lemma ExecuteKeeps(s: System, i: nat, found: bool)
    requires Inv(s) && Enabled(s, Execute(i, found))
    ensures Inv(Executed(s, i, found))
  {
    assert RequestOk(s, i);
    if found {
      var s' := Executed(s, i, found);
      assert RequestOk(s', i);
      StatusKeeps(s, s', i);
    } else {
      FailKeeps(s, i, "missing");
    }
  }

  lemma DeliveryKeeps(s: System, i: nat, m: Message)
    requires Inv(s)
    ensures Inv(Delivered(s, i, m))
  {
    var s' := Delivered(s, i, m);
    if i < |s.status| && s.status[i].Listening? && Classify(ReplyFilter(s.status[i].id), m) != Ignored {
      assert RequestOk(s, i);
      assert RequestOk(s', i);
      StatusKeeps(s, s', i);
    } else {
      SameTransaction(s, s');
    }
  }

  lemma StoreReadyKeeps(s: System, i: nat)
    requires Inv(s) && Enabled(s, StoreReady(i))
    ensures Inv(StoreRead(s, i))
  {
    var s' := StoreRead(s, i);
    assert RequestOk(s, i);
    assert RequestOk(s', i);
    StatusKeeps(s, s', i);
  }

  lemma StepKeeps(s: System, a: Action)
    requires Inv(s)
    ensures Inv(Step(s, a))
  {
    if Enabled(s, a) {
      match a
      case Commit => CommitKeeps(s);
      case Execute(i, found) => ExecuteKeeps(s, i, found);
      case Deliver(i, m) => DeliveryKeeps(s, i, m);
      case StoreChanges(_, _) => SameTransaction(s, Step(s, a));
      case StoreReady(i) => StoreReadyKeeps(s, i);
      case Callback(i) =>
        if s.status[i].ok {
          SucceedKeeps(s, i);
        } else {
          FailKeeps(s, i, s.status[i].message.payload);
        }
      case Dispatch(i, m) => SameTransaction(s, Step(s, a));
      case _ => PreparationKeeps(s, a);
    }
  }

  lemma PreparationKeeps(s: System, a: Action)
    requires Inv(s) && Enabled(s, a) && (a.AddRequest? || a.AddStore? || a.AddComplete? || a.AddError?)
    ensures Inv(Step(s, a))
  {
  }

  lemma SameTransaction(s: System, s': System)
    requires Inv(s) && s' == s.(inFlight := s'.inFlight, stores := s'.stores)
    ensures Inv(s')
  {
    if !s.tx.phase.Uncommitted? {
      forall j | 0 <= j < |s'.status| ensures RequestOk(s', j) {
        assert RequestOk(s, j);
      }
    }
  }

  lemma {:induction false} RunKeeps(kind: Kind, actions: seq<Action>)
    ensures Inv(Run(kind, actions))
  {
    if actions != [] {
      RunKeeps(kind, actions[..|actions| - 1]);
      StepKeeps(Run(kind, actions[..|actions| - 1]), actions[|actions| - 1]);
    }
  }

  // ----- the theorems, over every run -----

  /**
    No run starts both complete and error handlers, and whichever set starts, starts
    once: the goroutines started are none, or one per complete handler with all the
    replies, or one per error handler with one error.
   */
  lemma OneOutcome(kind: Kind, actions: seq<Action>)
    ensures var tx := Run(kind, actions).tx;
            || (tx.spawned == [] && (tx.phase.Uncommitted? || tx.phase.Committed?))
            || (tx.spawned == Completes(tx.onComplete, tx.responses) && tx.phase.Completed?)
            || (tx.phase.Aborted? && exists e :: tx.spawned == Errors(tx.onError, e))
  {
    RunKeeps(kind, actions);
  }

  /** A completed transaction never changes again, although the guard alone would let it abort. */
  lemma CompletedIsFinal(kind: Kind, actions: seq<Action>, a: Action)
    requires Run(kind, actions).tx.phase.Completed?
    ensures Run(kind, actions + [a]).tx == Run(kind, actions).tx
  {
    RunKeeps(kind, actions);
    assert (actions + [a])[..|actions|] == actions;
    var s := Run(kind, actions);
    FilledBound(s.tx.responses);
    forall i | 0 <= i < |s.status| ensures s.status[i].Spent? {
      assert RequestOk(s, i);
    }
  }

  /** The transition that no run takes is allowed by the code of `onTransactionError`. */
  lemma GuardAloneWouldAbort(tx: Tx, error: string)
    requires tx.phase.Completed? && tx.spawned == Completes(tx.onComplete, tx.responses)
    requires tx.onComplete != [] && tx.onError != []
    ensures var tx' := Fail(tx, error);
            && tx'.phase.Aborted?
            && (exists c :: c in tx'.spawned && c.CompleteCall?) && (exists c :: c in tx'.spawned && c.ErrorCall?)
  {
    var tx' := Fail(tx, error);
    assert tx'.spawned[0] == CompleteCall(tx.onComplete[0], tx.responses);
    assert tx'.spawned[|tx.spawned|] == ErrorCall(tx.onError[0], error);
  }

  /**
    Accounting: `completedRequests` counts the filled slots, and unless the transaction
    aborted it is complete exactly when all are filled, whatever the order of arrival.
   */
  lemma CompleteWhenAllFilled(kind: Kind, actions: seq<Action>)
    requires !Run(kind, actions).tx.phase.Uncommitted?
    ensures var s := Run(kind, actions);
            && |s.tx.responses| == |s.tx.requests|
            && s.tx.completed == Filled(s.tx.responses)
            && (!s.tx.phase.Aborted? ==>
                  (s.tx.phase.Completed? <==> forall i :: 0 <= i < |s.tx.responses| ==> s.tx.responses[i].Some?))
            && ((forall i :: 0 <= i < |s.status| ==> s.status[i].Spent?) ==>
                  s.tx.phase.Completed? || s.tx.phase.Aborted?)
  {
    RunKeeps(kind, actions);
    var s := Run(kind, actions);
    FilledBound(s.tx.responses);
    if s.tx.phase.Committed? {
      var i :| 0 <= i < |s.tx.responses| && s.tx.responses[i].None?;
      assert RequestOk(s, i);
    }
  }

  // ----- what a reply and an error do -----

  lemma Longer(kind: Kind, actions: seq<Action>, a: Action)
    ensures Run(kind, actions + [a]) == Step(Run(kind, actions), a)
  {
    assert (actions + [a])[..|actions|] == actions;
  }

  ghost predicate IsListening(s: System, i: nat, m: Message) {
    i < |s.status| && s.status[i].Listening? && Packet(i, m) in s.inFlight
  }

  /** The listener passes on a response addressed to it and any error, and nothing else. */
  lemma ListenerPassesOn(s: System, i: nat, m: Message)
    requires IsListening(s, i, m)
    ensures Delivered(s, i, m).status[i] ==
            if m.direction.ErrorDir? then Calling(false, m)
            else if m.direction.ResponseDir? && m.destination == Some(s.status[i].id) then Calling(true, m)
            else s.status[i]
    ensures |Delivered(s, i, m).status| == |s.status| && Delivered(s, i, m).tx == s.tx
  {
    ReachesExactly(ReplyFilter(s.status[i].id), m);
  }

  /**
    In every run, an error delivered to a listening request aborts the transaction when its
    callback runs, unless it is over already, and starts every error handler with its text.
   */
  lemma ErrorAborts(kind: Kind, actions: seq<Action>, i: nat, m: Message)
    requires IsListening(Run(kind, actions), i, m) && m.direction.ErrorDir?
    ensures var tx, tx' := Run(kind, actions).tx, Run(kind, actions + [Deliver(i, m)] + [Callback(i)]).tx;
            && tx'.phase.Aborted?
            && (tx.phase.Committed? ==> tx'.spawned == Errors(tx.onError, m.payload))
            && (tx.phase.Aborted? ==> tx' == tx)
  {
    var s := Run(kind, actions);
    RunKeeps(kind, actions);
    ListenerPassesOn(s, i, m);
    Longer(kind, actions, Deliver(i, m));
    Longer(kind, actions + [Deliver(i, m)], Callback(i));
    ListeningIsOpen(s, i);
    CallbackFails(Delivered(s, i, m), i, m);
  }

  /** A transaction with a listening request is committed or aborted. */
  lemma ListeningIsOpen(s: System, i: nat)
    requires Inv(s) && i < |s.status| && s.status[i].Listening?
    ensures i < |s.tx.responses| && (s.tx.phase.Committed? || s.tx.phase.Aborted?)
    ensures s.tx.responses[i].None? && OutcomeOk(s.tx)
  {
    assert RequestOk(s, i);
    FilledBound(s.tx.responses);
  }

  lemma CallbackFails(s: System, i: nat, m: Message)
    requires Enabled(s, Callback(i)) && s.status[i] == Calling(false, m) && OutcomeOk(s.tx)
    ensures var tx' := CalledBack(s, i).tx;
            && tx'.phase.Aborted?
            && (s.tx.phase.Committed? ==> tx'.spawned == Errors(s.tx.onError, m.payload))
            && (s.tx.phase.Aborted? ==> tx' == s.tx)
  {
    if s.tx.phase.Committed? {
      FailStarts(s.tx, m.payload);
    }
  }

  lemma CallbackFills(s: System, i: nat, m: Message)
    requires Enabled(s, Callback(i)) && s.status[i] == Calling(true, m) && s.tx.phase.Committed?
    ensures var tx' := CalledBack(s, i).tx;
            tx'.responses == s.tx.responses[i := Some(m)] && tx'.completed == s.tx.completed + 1
  {
  }

  /** In every run, a response addressed to a listening request fills its slot when its callback runs. */
  lemma ReplyFills(kind: Kind, actions: seq<Action>, i: nat, m: Message)
    requires IsListening(Run(kind, actions), i, m) && Run(kind, actions).tx.phase.Committed?
    requires m.direction.ResponseDir? && m.destination == Some(Run(kind, actions).status[i].id)
    ensures var tx, tx' := Run(kind, actions).tx, Run(kind, actions + [Deliver(i, m)] + [Callback(i)]).tx;
            && i < |tx.responses| && tx.responses[i].None?
            && tx'.responses == tx.responses[i := Some(m)] && tx'.completed == tx.completed + 1
  {
    RunKeeps(kind, actions);
    var s := Run(kind, actions);
    var s1 := Delivered(s, i, m);
    ListenerPassesOn(s, i, m);
    Longer(kind, actions, Deliver(i, m));
    Longer(kind, actions + [Deliver(i, m)], Callback(i));
    ListeningIsOpen(s, i);
    assert Run(kind, actions + [Deliver(i, m)]) == s1 && Enabled(s1, Callback(i));
    CallbackFills(s1, i, m);
  }

  /**
    In every run, executing an issued request makes it wait for its store, or listen under a
    new id with its message sent; if the channel or store is missing the transaction aborts.
   */
  lemma ExecuteTakesEffect(kind: Kind, actions: seq<Action>, i: nat, found: bool)
    requires Enabled(Run(kind, actions), Execute(i, found))
    ensures var s, s' := Run(kind, actions), Run(kind, actions + [Execute(i, found)]);
            && |s'.status| == |s.status|
            && (found && IsStore(s, i) ==> s'.status[i].WaitingForStore? && s'.sent == s.sent)
            && (found && !IsStore(s, i) ==>
                  && s'.status[i].Listening? && i in s'.ids && s'.ids[i] == s'.status[i].id
                  && |s'.sent| == |s.sent| + 1 && s'.sent[|s.sent|].id == s'.status[i].id)
            && (!found ==> s'.tx.phase.Aborted? && s'.status[i].Spent?)
  {
    RunKeeps(kind, actions);
    Longer(kind, actions, Execute(i, found));
  }

  /** In every run, once its store is ready the request's slot is filled with the content when its callback runs. */
  lemma StoreFills(kind: Kind, actions: seq<Action>, i: nat)
    requires Enabled(Run(kind, actions), StoreReady(i)) && Run(kind, actions).tx.phase.Committed?
    ensures var s, tx' := Run(kind, actions), Run(kind, actions + [StoreReady(i)] + [Callback(i)]).tx;
            && i < |s.tx.responses| && StoreOf(s, i) in s.stores
            && tx'.responses == s.tx.responses[i := Some(Message(ResponseDir, None, s.stores[StoreOf(s, i)]))]
            && tx'.completed == s.tx.completed + 1
  {
    RunKeeps(kind, actions);
    var s := Run(kind, actions);
    var s1 := StoreRead(s, i);
    Longer(kind, actions, StoreReady(i));
    Longer(kind, actions + [StoreReady(i)], Callback(i));
    assert Run(kind, actions + [StoreReady(i)]) == s1 && Enabled(s1, Callback(i));
    CallbackFills(s1, i, s1.status[i].message);
  }

  /** The step aborts the transaction, with this error. */
  ghost predicate AbortsWith(s: System, a: Action, error: string) {
    && Enabled(s, a) && !s.tx.phase.Aborted?
    && (|| (a.Execute? && !a.found && error == "missing")
        || (a.Callback? && !s.status[a.i].ok && error == s.status[a.i].message.payload))
  }

  /**
    In every run that aborted, some action aborted it: a request whose channel or store was
    missing, or the callback of an error; the error handlers were started with that error.
   */
  lemma {:induction false} AbortHasCause(kind: Kind, actions: seq<Action>)
    requires Run(kind, actions).tx.phase.Aborted?
    ensures exists n: nat, error: string :: n < |actions| && AbortsWith(Run(kind, actions[..n]), actions[n], error)
              && Run(kind, actions).tx.spawned == Errors(Run(kind, actions).tx.onError, error)
  {
    var k: nat := |actions| - 1;
    var s, a := Run(kind, actions[..k]), actions[k];
    RunKeeps(kind, actions[..k]);
    RunKeeps(kind, actions);
    if s.tx.phase.Aborted? {
      AbortHasCause(kind, actions[..k]);
      var n: nat, e: string :| n < k && AbortsWith(Run(kind, actions[..k][..n]), actions[..k][n], e)
                               && s.tx.spawned == Errors(s.tx.onError, e);
      assert actions[..k][..n] == actions[..n];
      AbortedStays(s, a);
    } else {
      AbortingStep(s, a);
    }
  }

  lemma AbortedStays(s: System, a: Action)
    requires Inv(s) && s.tx.phase.Aborted?
    ensures Step(s, a).tx == s.tx
  {
  }

  /** No action changes an aborted transaction: late replies and further errors are ignored. */
  lemma AbortedIsFinal(kind: Kind, actions: seq<Action>, a: Action)
    requires Run(kind, actions).tx.phase.Aborted?
    ensures Run(kind, actions + [a]).tx == Run(kind, actions).tx
  {
    RunKeeps(kind, actions);
    Longer(kind, actions, a);
    AbortedStays(Run(kind, actions), a);
  }

  lemma AbortingStep(s: System, a: Action)
    requires Inv(s) && !s.tx.phase.Aborted? && Step(s, a).tx.phase.Aborted?
    ensures exists e: string :: AbortsWith(s, a, e) && Step(s, a).tx.spawned == Errors(Step(s, a).tx.onError, e)
  {
    var i := if a.Callback? then a.i else if a.Execute? then a.i else 0;
    assert RequestOk(s, i);
    FilledBound(s.tx.responses);
    var e := if a.Execute? then "missing" else s.status[i].message.payload;
    assert AbortsWith(s, a, e);
    FailStarts(s.tx, e);
    assert Step(s, a).tx == Fail(s.tx, e);
  }

  lemma FailStarts(tx: Tx, e: string)
    requires OutcomeOk(tx) && tx.phase.Committed?
    ensures Fail(tx, e).spawned == Errors(tx.onError, e) && Fail(tx, e).onError == tx.onError
  {
    assert [] + Errors(tx.onError, e) == Errors(tx.onError, e);
  }

  // ----- the requests that go out -----

  ghost predicate IsTaken(ids: map<nat, int>, id: int) { exists i :: i in ids && ids[i] == id }

  /** The messages sent and the requests that have an id stand for each other, with channel and payload. */
  ghost predicate SentOk(s: System) {
    && s.nextId == |s.sent|
    && (forall i :: i in s.ids ==>
          && i < |s.tx.requests| && 0 <= s.ids[i] < |s.sent|
          && s.sent[s.ids[i]] == SentRequest(s.tx.requests[i].channelName, s.tx.requests[i].payload, s.ids[i]))
    && (forall k :: 0 <= k < |s.sent| ==> s.sent[k].id == k && IsTaken(s.ids, k))
  }

  lemma ExecuteKeepsSent(s: System, i: nat, found: bool)
    requires Inv(s) && SentOk(s) && Enabled(s, Execute(i, found))
    ensures SentOk(Executed(s, i, found))
  {
    var s' := Executed(s, i, found);
    if s'.sent != s.sent {
      forall k | 0 <= k < |s'.sent| ensures s'.sent[k].id == k && IsTaken(s'.ids, k) {
        if k < |s.sent| {
          assert s'.sent[k] == s.sent[k];
          var j :| j in s.ids && s.ids[j] == k;
          assert j != i;
          assert s'.ids[j] == k;
        } else {
          assert s'.ids[i] == k;
        }
      }
    }
  }

  lemma SameSent(s: System, s': System)
    requires SentOk(s) && s'.sent == s.sent && s'.ids == s.ids && s'.nextId == s.nextId
    requires s.tx.requests <= s'.tx.requests
    ensures SentOk(s')
  {
  }

  lemma StepKeepsSent(s: System, a: Action)
    requires Inv(s) && SentOk(s)
    ensures SentOk(Step(s, a))
  {
    if Enabled(s, a) && a.Execute? {
      ExecuteKeepsSent(s, a.i, a.found);
    } else {
      OnlyExecuteSends(s, a);
      RequestsStay(s, a);
      SameSent(s, Step(s, a));
    }
  }

  lemma OnlyExecuteSends(s: System, a: Action)
    requires !a.Execute? || !Enabled(s, a)
    ensures var s' := Step(s, a);
            s'.sent == s.sent && s'.ids == s.ids && s'.nextId == s.nextId
  {
    if Enabled(s, a) {
      match a
      case Deliver(i, m) => assert Delivered(s, i, m).sent == s.sent;
      case Callback(i) => assert CalledBack(s, i).sent == s.sent;
      case _ =>
    }
  }

  lemma RequestsStay(s: System, a: Action)
    ensures s.tx.requests <= Step(s, a).tx.requests
  {
    match a
    case AddRequest(_, _) =>
    case AddStore(_) =>
    case _ => assert Step(s, a).tx.requests == s.tx.requests;
  }

  /**
    In every run, each request that got an id has sent exactly one message, on its own
    channel, with its own payload and under that id, and no other message was sent; and a
    request listening for a reply has an id.
   */
  lemma {:induction false} RequestsAreSent(kind: Kind, actions: seq<Action>)
    ensures var s := Run(kind, actions);
            && SentOk(s)
            && forall i :: 0 <= i < |s.status| && s.status[i].Listening? ==> i in s.ids && s.ids[i] == s.status[i].id
  {
    if actions != [] {
      RequestsAreSent(kind, actions[..|actions| - 1]);
      RunKeeps(kind, actions[..|actions| - 1]);
      StepKeepsSent(Run(kind, actions[..|actions| - 1]), actions[|actions| - 1]);
    }
    RunKeeps(kind, actions);
    var s := Run(kind, actions);
    forall i | 0 <= i < |s.status| && s.status[i].Listening? ensures i in s.ids && s.ids[i] == s.status[i].id {
      assert RequestOk(s, i);
    }
  }

  // ----- where the content of a slot comes from -----

  /** The message is in slot `i` or on its way there. */
  ghost predicate Gained(s: System, i: nat, m: Message) {
    || (i < |s.status| && s.status[i] == Calling(true, m))
    || (i < |s.tx.responses| && s.tx.responses[i] == Some(m))
  }

  /** Request `i` read this content from the store when the store had become ready for it. */
  ghost predicate ReadFromStore(kind: Kind, actions: seq<Action>, i: nat, store: string, content: string) {
    exists n :: 0 <= n < |actions| && actions[n] == StoreReady(i)
             && store in Run(kind, actions[..n]).stores && Run(kind, actions[..n]).stores[store] == content
  }

  ghost predicate HasOrigin(kind: Kind, actions: seq<Action>, i: nat, m: Message) {
    var s := Run(kind, actions);
    && (Packet(i, m) in s.inFlight ==> Dispatch(i, m) in actions)
    && (Gained(s, i, m) ==>
          if IsStore(s, i) then ReadFromStore(kind, actions, i, StoreOf(s, i), m.payload)
          else Dispatch(i, m) in actions)
  }

  /** A callback moves the message into the slot. */
  lemma CallbackGainsNothing(s: System, k: nat, i: nat, m: Message)
    requires Enabled(s, Callback(k)) && Gained(CalledBack(s, k), i, m)
    ensures Gained(s, i, m) && StoreOf(CalledBack(s, k), i) == StoreOf(s, i)
  {
    if s.status[k].ok && !s.tx.phase.Aborted? && k != i && i < |s.tx.responses| {
      assert CalledBack(s, k).tx.responses[i] == s.tx.responses[i];
    }
  }

  lemma DeliveryGains(s: System, k: nat, x: Message, i: nat, m: Message)
    requires Inv(s) && Enabled(s, Deliver(k, x)) && Gained(Delivered(s, k, x), i, m)
    ensures Gained(s, i, m) || (!IsStore(s, i) && Packet(i, m) in s.inFlight)
  {
    if k == i && i < |s.status| && s.status[i].Listening? {
      assert RequestOk(s, i);
    }
  }

  /** Preparing, committing and executing gain nothing. */
  lemma OthersGainNothing(s: System, a: Action, i: nat, m: Message)
    requires Inv(s) && Enabled(s, a) && !a.Callback? && !a.Deliver? && !a.StoreReady?
    requires Gained(Step(s, a), i, m)
    ensures Gained(s, i, m) && StoreOf(Step(s, a), i) == StoreOf(s, i)
  {
  }

  /** One step gains a message for a slot only from the slot's store or from a delivered packet. */
  lemma GainedBy(s: System, a: Action, i: nat, m: Message)
    requires Inv(s) && Gained(Step(s, a), i, m)
    ensures StoreOf(Step(s, a), i) == StoreOf(s, i)
    ensures || Gained(s, i, m)
            || (IsStore(s, i) && a == StoreReady(i)
                && StoreOf(s, i) in s.stores && s.stores[StoreOf(s, i)] == m.payload)
            || (!IsStore(s, i) && Packet(i, m) in s.inFlight)
  {
    if Enabled(s, a) {
      match a
      case Callback(k) => CallbackGainsNothing(s, k, i, m);
      case Deliver(k, x) => DeliveryGains(s, k, x, i, m);
      case StoreReady(k) => assert RequestOk(s, k);
      case _ => OthersGainNothing(s, a, i, m);
    }
  }

  lemma PacketsAreDispatched(s: System, a: Action, p: Packet)
    requires p in Step(s, a).inFlight
    ensures p in s.inFlight || a == Dispatch(p.request, p.message)
  {
  }

  lemma {:induction false} ReplyHasOrigin(kind: Kind, actions: seq<Action>, i: nat, m: Message)
    ensures HasOrigin(kind, actions, i, m)
  {
    if actions != [] {
      var n := |actions| - 1;
      var s, a := Run(kind, actions[..n]), actions[n];
      ReplyHasOrigin(kind, actions[..n], i, m);
      RunKeeps(kind, actions[..n]);
      assert actions == actions[..n] + [a];
      if Packet(i, m) in Step(s, a).inFlight {
        PacketsAreDispatched(s, a, Packet(i, m));
      }
      if Gained(Step(s, a), i, m) {
        GainedBy(s, a, i, m);
        if Gained(s, i, m) && IsStore(s, i) {
          LaterReads(kind, actions, i, StoreOf(s, i), m.payload);
        }
      }
    }
  }

  lemma LaterReads(kind: Kind, actions: seq<Action>, i: nat, store: string, content: string)
    requires actions != [] && ReadFromStore(kind, actions[..|actions| - 1], i, store, content)
    ensures ReadFromStore(kind, actions, i, store, content)
  {
    var before := actions[..|actions| - 1];
    var n :| 0 <= n < |before| && before[n] == StoreReady(i)
             && store in Run(kind, before[..n]).stores && Run(kind, before[..n]).stores[store] == content;
    assert before[..n] == actions[..n];
  }

  /**
    A slot holds a reply to its own request. For a channel request it is a message that was
    dispatched to it under its id, which is no other request's; for a store request it is
    what that very store held at the moment of the run at which it had become ready.
   */
  lemma SlotsHoldOwnReplies(kind: Kind, actions: seq<Action>, i: nat, j: nat)
    requires var s := Run(kind, actions); i < |s.tx.responses| && s.tx.responses[i].Some?
    ensures var s := Run(kind, actions);
            var m := s.tx.responses[i].value;
            && m.direction.ResponseDir?
            && (IsStore(s, i) ==> m.destination.None? && ReadFromStore(kind, actions, i, StoreOf(s, i), m.payload))
            && (!IsStore(s, i) ==> i in s.ids && m.destination == Some(s.ids[i]) && Dispatch(i, m) in actions)
            && (!IsStore(s, i) && j in s.ids && j != i ==> m.destination != Some(s.ids[j]))
  {
    RunKeeps(kind, actions);
    var s := Run(kind, actions);
    assert RequestOk(s, i);
    ReplyHasOrigin(kind, actions, i, s.tx.responses[i].value);
  }

  predicate IsOutstanding(s: System, i: nat) { i < |s.status| && !s.status[i].Idle? && !s.status[i].Spent? }

  /**
    A sync transaction goes on: while it is committed exactly one request is outstanding,
    and it is the one after those that are filled.
   */
  lemma SyncGoesOn(actions: seq<Action>, i: nat)
    requires Run(Sync, actions).tx.phase.Committed?
    ensures var s := Run(Sync, actions); IsOutstanding(s, i) <==> i == s.tx.completed
  {
    RunKeeps(Sync, actions);
    KindIsFixed(Sync, actions);
    var s := Run(Sync, actions);
    assert s.tx.completed < |s.status| && RequestOk(s, s.tx.completed);
    if i < |s.status| {
      assert RequestOk(s, i);
    }
  }

  /** An async transaction has started every request: while committed exactly the unfilled ones are outstanding. */
  lemma AsyncStartsAll(actions: seq<Action>, i: nat)
    requires var s := Run(Async, actions); s.tx.phase.Committed? && i < |s.tx.requests|
    ensures var s := Run(Async, actions);
            |s.tx.responses| == |s.tx.requests| && (IsOutstanding(s, i) <==> s.tx.responses[i].None?)
  {
    RunKeeps(Async, actions);
    KindIsFixed(Async, actions);
    assert RequestOk(Run(Async, actions), i);
  }

  /** A sync transaction fills its slots as a prefix and never has two requests outstanding. */
  lemma SyncInOrder(actions: seq<Action>, i: nat, j: nat)
    requires var s := Run(Sync, actions); i < j < |s.status| && j < |s.tx.responses|
    ensures var s := Run(Sync, actions);
            && (s.tx.responses[j].Some? ==> s.tx.responses[i].Some?)
            && (s.status[i].Idle? || s.status[i].Spent? || s.status[j].Idle? || s.status[j].Spent?)
  {
    RunKeeps(Sync, actions);
    KindIsFixed(Sync, actions);
    var s := Run(Sync, actions);
    assert RequestOk(s, i) && RequestOk(s, j);
  }

  lemma {:induction false} KindIsFixed(kind: Kind, actions: seq<Action>)
    ensures Run(kind, actions).tx.kind == kind
  {
    if actions != [] {
      KindIsFixed(kind, actions[..|actions| - 1]);
    }
  }
}
