/**
  Bus messages and the filter `wrapMessageHandler` (bus/eventbus.go) puts in front
  of a listener's success and error callbacks.
 */
module Messages {
  import opened Options

  datatype Direction = RequestDir | ResponseDir | ErrorDir

  datatype Message = Message(direction: Direction, destination: Option<int>, payload: string)

  /**
    What a listener asked for. Listeners ask for responses or for requests, never for
    errors; either callback may be missing.
   */
  datatype Filter = Filter(
    forResponses: bool,
    ignoreId: bool,
    allTraffic: bool,
    destination: Option<int>,
    hasSuccess: bool,
    hasError: bool)

  datatype Verdict = Ignored | Success | Failure

  function Wanted(f: Filter): Direction {
    if f.forResponses then ResponseDir else RequestDir
  }

  /** Which callback, if any, a message reaches. */
  function Classify(f: Filter, m: Message): Verdict {
    if m.direction.ErrorDir? then (if f.hasError then Failure else Ignored)
    else if !f.hasSuccess then Ignored
    else if f.allTraffic then Success
    else if m.direction != Wanted(f) then Ignored
    else if f.ignoreId then Success
    else if m.destination.Some? && f.destination == m.destination then Success
    else Ignored
  }

  /**
    From the filter and the message alone. An error reaches the error callback of every
    listener that has one, whatever its id and direction. Any other message reaches the
    success callback of a listener that has one exactly if the listener takes all traffic,
    or it has the wanted direction and the id is ignored or is the listener's own.
   */
  lemma ReachesExactly(f: Filter, m: Message)
    ensures Classify(f, m).Failure? <==> m.direction.ErrorDir? && f.hasError
    ensures Classify(f, m).Success? <==>
            && !m.direction.ErrorDir? && f.hasSuccess
            && (|| f.allTraffic
                || (&& (m.direction.ResponseDir? <==> f.forResponses)
                    && (f.ignoreId || (m.destination.Some? && f.destination.Some?
                                       && m.destination.value == f.destination.value))))
  {
  }

  /** `ListenOnceForDestination` with both callbacks set, as a transaction uses it. */
  function ReplyFilter(id: int): Filter {
    Filter(true, false, false, Some(id), true, true)
  }

  /** A callback that was run. */
  datatype Invocation = RanSuccess(message: Message) | RanError(message: Message)

  /**
    The wrapped handler as one goroutine at a time sees it: the filter's branches, the
    once-guard, the run count, and the unsubscription after a run-once callback.
   */
  class MessageHandler {
    const filter: Filter
    const runOnce: bool
    var invoked: bool
    var runCount: nat
    var subscribed: bool
    var calls: seq<Invocation>

    ghost predicate Valid()
      reads this
    {
      runCount == |calls| && (runOnce ==> (invoked <==> calls != []) && |calls| <= 1)
    }

    constructor (filter: Filter, runOnce: bool)
      ensures Valid() && calls == [] && subscribed
      ensures this.filter == filter && this.runOnce == runOnce
    {
      this.filter, this.runOnce := filter, runOnce;
      invoked, runCount, subscribed, calls := false, 0, true, [];
    }

    /** Whether the once-guard still lets a callback through. */
    ghost predicate Armed()
      reads this
    {
      !(runOnce && invoked)
    }

    method Invoke(c: Invocation)
      requires Valid()
      modifies this
      ensures Valid()
      ensures calls == if old(Armed()) then old(calls) + [c] else old(calls)
      ensures runOnce ==> invoked
      ensures subscribed == (old(subscribed) && !(runOnce && old(Armed())))
    {
      if runOnce {
        if !invoked {
          invoked := true;
          runCount := runCount + 1;
          calls := calls + [c];
          subscribed := false;
        }
      } else {
        runCount := runCount + 1;
        calls := calls + [c];
      }
    }

    /** The wrapper runs the callback the filter names, if the once-guard is still armed. */
    method HandlerWrapper(m: Message)
      requires Valid()
      modifies this
      ensures Valid()
      ensures calls == old(calls) +
                       if Classify(filter, m).Ignored? || !old(Armed()) then []
                       else if Classify(filter, m).Success? then [RanSuccess(m)] else [RanError(m)]
      ensures subscribed == (old(subscribed) && !(runOnce && old(Armed()) && !Classify(filter, m).Ignored?))
      ensures m.direction.ErrorDir? && filter.hasError && old(Armed()) ==> calls == old(calls) + [RanError(m)]
      ensures !m.direction.ErrorDir? ==> calls == old(calls) || calls == old(calls) + [RanSuccess(m)]
    {
      ReachesExactly(filter, m);
      if filter.allTraffic {
        if m.direction == ErrorDir {
          if filter.hasError { Invoke(RanError(m)); }
        } else {
          if filter.hasSuccess { Invoke(RanSuccess(m)); }
        }
      } else {
        if m.direction == (if filter.forResponses then ResponseDir else RequestDir) {
          if !filter.ignoreId && m.destination.Some? && filter.destination.Some?
             && filter.destination.value == m.destination.value {
            if filter.hasSuccess { Invoke(RanSuccess(m)); }
          }
          if filter.ignoreId {
            if filter.hasSuccess { Invoke(RanSuccess(m)); }
          }
        }
        if m.direction == ErrorDir {
          if filter.hasError { Invoke(RanError(m)); }
        }
      }
    }
  }
}
