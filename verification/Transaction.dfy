/**
  Bus transactions (bus/transaction.go): the value of a transaction, what each locked
  region makes of it, and the object that does it in place. Handlers are numbers;
  `spawned` lists the handler goroutines started, `issued` the requests handed to
  `executeRequest`.
 */
module Transaction {
  import opened Options
  import opened Messages

  datatype Kind = Async | Sync

  datatype TxPhase = Uncommitted | Committed | Completed | Aborted

  /** A store is waited for exactly when `storeName` is not empty. */
  datatype Request = Request(index: nat, storeName: string, channelName: string, payload: string)

  type Replies = seq<Option<Message>>

  datatype Spawn =
    | CompleteCall(handler: nat, replies: Replies)
    | ErrorCall(handler: nat, error: string)

  datatype Tx = Tx(
    kind: Kind,
    phase: TxPhase,
    requests: seq<Request>,
    responses: Replies,
    completed: nat,
    onComplete: seq<nat>,
    onError: seq<nat>,
    spawned: seq<Spawn>)

  function NewTx(kind: Kind): Tx {
    Tx(kind, Uncommitted, [], [], 0, [], [], [])
  }

  function Completes(handlers: seq<nat>, replies: Replies): seq<Spawn> {
    seq(|handlers|, i requires 0 <= i < |handlers| => CompleteCall(handlers[i], replies))
  }

  function Errors(handlers: seq<nat>, error: string): seq<Spawn> {
    seq(|handlers|, i requires 0 <= i < |handlers| => ErrorCall(handlers[i], error))
  }

  /** `SendRequest` (empty store name) and `WaitForStoreReady`; refused after commit. */
  function Add(tx: Tx, storeName: string, channelName: string, payload: string): Tx {
    if !tx.phase.Uncommitted? then tx
    else tx.(requests := tx.requests + [Request(|tx.requests|, storeName, channelName, payload)])
  }

  function CanCommit(tx: Tx): bool { tx.phase.Uncommitted? && tx.requests != [] }

  function CommitTx(tx: Tx): Tx {
    if !CanCommit(tx) then tx
    else tx.(phase := Committed, responses := seq(|tx.requests|, _ => None))
  }

  function UpTo(n: nat): seq<nat> { seq(n, i => i) }

  /** The requests a commit executes: all of them, or the first. */
  function CommitIssues(tx: Tx): seq<nat> {
    if !CanCommit(tx) then [] else if tx.kind.Async? then UpTo(|tx.requests|) else [0]
  }

  /** `onTransactionRequestSuccess`, the locked part and the handlers it starts. */
  function Succeed(tx: Tx, i: nat, m: Message): Tx
    requires i < |tx.responses|
  {
    if tx.phase.Aborted? then tx
    else
      var rs := tx.responses[i := Some(m)];
      var tx1 := tx.(responses := rs, completed := tx.completed + 1);
      if tx1.completed == |tx.requests| then
        tx1.(phase := Completed, spawned := tx.spawned + Completes(tx.onComplete, rs))
      else tx1
  }

  /** The request a sync transaction goes on to. */
  function SucceedIssues(tx: Tx, i: nat): seq<nat> {
    if !tx.phase.Aborted? && tx.completed + 1 != |tx.requests| && tx.kind.Sync? && i + 1 < |tx.requests|
    then [i + 1] else []
  }

  /** `onTransactionError`: the guard refuses an aborted transaction only. */
  function Fail(tx: Tx, error: string): Tx {
    if tx.phase.Aborted? then tx
    else tx.(phase := Aborted, spawned := tx.spawned + Errors(tx.onError, error))
  }

  class BusTransaction {
    const kind: Kind
    var state: TxPhase
    var requests: seq<Request>
    var responses: array<Option<Message>>
    var completedRequests: nat
    var onCompleteHandlers: seq<nat>
    var onErrorHandlers: seq<nat>
    var spawned: seq<Spawn>
    var issued: seq<nat>

    ghost function Model(): Tx
      reads this, responses
    {
      Tx(kind, state, requests, responses[..], completedRequests, onCompleteHandlers, onErrorHandlers, spawned)
    }

    constructor (kind: Kind)
      ensures Model() == NewTx(kind) && issued == []
      ensures fresh(responses)
    {
      this.kind := kind;
      state, requests, completedRequests := Uncommitted, [], 0;
      onCompleteHandlers, onErrorHandlers, spawned, issued := [], [], [], [];
      responses := new Option<Message>[0];
    }

    method SendRequest(channel: string, payload: string) returns (ok: bool)
      modifies this`requests
      ensures ok == old(state).Uncommitted?
      ensures Model() == Add(old(Model()), "", channel, payload)
      ensures requests == old(requests) + if ok then [Request(|old(requests)|, "", channel, payload)] else []
    {
      if state != Uncommitted { return false; }
      requests := requests + [Request(|requests|, "", channel, payload)];
      return true;
    }

    method WaitForStoreReady(store: string, present: bool) returns (ok: bool)
      modifies this`requests
      ensures ok == (old(state).Uncommitted? && present)
      ensures Model() == if present then Add(old(Model()), store, "", "") else old(Model())
      ensures requests == old(requests) + if ok then [Request(|old(requests)|, store, "", "")] else []
    {
      if state != Uncommitted { return false; }
      if !present { return false; }
      requests := requests + [Request(|requests|, store, "", "")];
      return true;
    }

    method OnComplete(handler: nat) returns (ok: bool)
      modifies this`onCompleteHandlers
      ensures ok == old(state).Uncommitted?
      ensures Model() == if ok then old(Model()).(onComplete := old(onCompleteHandlers) + [handler]) else old(Model())
    {
      if state != Uncommitted { return false; }
      onCompleteHandlers := onCompleteHandlers + [handler];
      return true;
    }

    method OnError(handler: nat) returns (ok: bool)
      modifies this`onErrorHandlers
      ensures ok == old(state).Uncommitted?
      ensures Model() == if ok then old(Model()).(onError := old(onErrorHandlers) + [handler]) else old(Model())
    {
      if state != Uncommitted { return false; }
      onErrorHandlers := onErrorHandlers + [handler];
      return true;
    }

    method Commit() returns (ok: bool)
      modifies this
      ensures ok == CanCommit(old(Model())) == (old(state).Uncommitted? && old(requests) != [])
      ensures Model() == CommitTx(old(Model()))
      ensures ok ==> fresh(responses)
      ensures issued == old(issued) + CommitIssues(old(Model()))
      ensures ok ==> forall i :: 0 <= i < |requests| && (kind.Async? || i == 0) ==> i in issued
    {
      if state != Uncommitted { return false; }
      if |requests| == 0 { return false; }
      state := Committed;
      var slots := new Option<Message>[|requests|](_ => None);
      responses := slots;
      assert responses[..] == CommitTx(old(Model())).responses;
      if kind == Async {
        for i := 0 to |requests|
          invariant Model() == CommitTx(old(Model())) && responses == slots
          invariant requests == old(requests)
          invariant issued == old(issued) + UpTo(i)
        {
          issued := issued + [i];
        }
        forall k | 0 <= k < |requests| ensures k in issued {
          assert UpTo(|requests|)[k] == k && k in UpTo(|requests|);
        }
      } else {
        issued := issued + [0];
      }
      return true;
    }

    method OnTransactionError(error: string)
      modifies this`state, this`spawned
      ensures Model() == Fail(old(Model()), error)
    {
      if state == Aborted { return; }
      state := Aborted;
      for i := 0 to |onErrorHandlers|
        invariant state == Aborted
        invariant spawned == old(spawned) + Errors(onErrorHandlers[..i], error)
      {
        spawned := spawned + [ErrorCall(onErrorHandlers[i], error)];
      }
      assert onErrorHandlers[..|onErrorHandlers|] == onErrorHandlers;
    }

    method OnTransactionRequestSuccess(i: nat, m: Message)
      requires i < responses.Length
      modifies this`state, this`completedRequests, this`spawned, this`issued, responses
      ensures Model() == Succeed(old(Model()), i, m)
      ensures issued == old(issued) + SucceedIssues(old(Model()), i)
      ensures old(state).Committed? && kind.Sync? && i + 1 < |requests| && state.Committed? ==> i + 1 in issued
    {
      if state == Aborted { return; }
      responses[i] := Some(m);
      completedRequests := completedRequests + 1;
      var triggerOnCompleteHandler := false;
      if completedRequests == |requests| {
        state := Completed;
        triggerOnCompleteHandler := true;
      }
      assert responses[..] == old(responses[..])[i := Some(m)];
      if triggerOnCompleteHandler {
        for k := 0 to |onCompleteHandlers|
          invariant state == Completed && completedRequests == old(completedRequests) + 1
          invariant issued == old(issued) && responses[..] == old(responses[..])[i := Some(m)]
          invariant spawned == old(spawned) + Completes(onCompleteHandlers[..k], responses[..])
        {
          spawned := spawned + [CompleteCall(onCompleteHandlers[k], responses[..])];
        }
        assert onCompleteHandlers[..|onCompleteHandlers|] == onCompleteHandlers;
        return;
      }
      if kind == Sync && i + 1 < |requests| {
        issued := issued + [i + 1];
      }
    }
  }
}
