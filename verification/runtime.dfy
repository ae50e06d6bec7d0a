/** The pipeline while items flow. Execution is single-threaded and
    cooperative, so a run is a sequence of events: an item arrives, an
    admitted item's chain finishes, the source ends, an asynchronous error
    handler acknowledges, or a check queued for the next tick runs. Each
    event is a function from pipeline to pipeline. */
module Runtime {
  import opened Values
  import opened Pipeline
  import Chain

  datatype Event<V> =
    | Data(obj: Item<V>)         // the source emits an item
    | Complete(slot: nat)        // the chain of the in-flight item at `slot` finishes
    | SourceEnd                  // the source signals its end
    | AsyncErrorAck              // an asynchronous error handler calls its acknowledgement
    | DeferredEndCheck           // an end check queued for the next tick runs

  /** What end handlers receive: the accumulator, or `undefined` without a
      reducer. */
  function FinalValue<V, E, A, H>(s: EnumStream<V, E, A, H>): (r: Option<A>)
    ensures r.Some? <==> s.reducer.Some?
    ensures r.Some? ==> r.value == s.reducer.value.value
  {
    if s.reducer.Some? then Some(s.reducer.value.value) else None
  }

  /** Calls to `handlers`, one each, in registration order. */
  function EndCalls<E, A, H>(handlers: seq<H>, result: Option<A>): (r: seq<Effect<E, A, H>>)
    ensures |r| == |handlers|
    ensures forall i :: 0 <= i < |handlers| ==> r[i] == EndHandlerCalled(handlers[i], result)
  {
    seq(|handlers|, i requires 0 <= i < |handlers| => EndHandlerCalled(handlers[i], result))
  }

  function ErrorCalls<E, A, H>(handlers: seq<H>, error: E): (r: seq<Effect<E, A, H>>)
    ensures |r| == |handlers|
    ensures forall i :: 0 <= i < |handlers| ==> r[i] == ErrorHandlerCalled(handlers[i], error)
  {
    seq(|handlers|, i requires 0 <= i < |handlers| => ErrorHandlerCalled(handlers[i], error))
  }

  function AsyncErrorCalls<E, A, H>(handlers: seq<H>, error: E): (r: seq<Effect<E, A, H>>)
    ensures |r| == |handlers|
    ensures forall i :: 0 <= i < |handlers| ==> r[i] == AsyncErrorHandlerCalled(handlers[i], error)
  {
    seq(|handlers|, i requires 0 <= i < |handlers| => AsyncErrorHandlerCalled(handlers[i], error))
  }

  /** No call in `effects` is a call to an end handler. */
  ghost predicate CallsNoEndHandler<E, A, H>(effects: seq<Effect<E, A, H>>)
  {
    forall i :: 0 <= i < |effects| ==> !effects[i].EndHandlerCalled?
  }

  /** The end check. It does nothing once the end handlers have run. When
      the source has ended and no item is in flight, it either runs every
      end handler with the final value, or, while asynchronous error
      handlers are still unacknowledged, installs itself as the hook run
      when their counter reaches zero. */
  function CallEndHandlersIfNecessary<V, E, A, H>(s: EnumStream<V, E, A, H>): (r: EnumStream<V, E, A, H>)
    ensures r.endHandlersCalled <==>
              s.endHandlersCalled
              || (s.source.ended && s.numWorkers == 0 && s.numRunningAsyncErrorHandlers <= 0)
    ensures !s.endHandlersCalled && r.endHandlersCalled ==>
              r.effects == s.effects + EndCalls(s.endHandlers, FinalValue(s))
    ensures s.endHandlersCalled || !r.endHandlersCalled ==> r.effects == s.effects
    ensures r.endCheckOnZero <==>
              s.endCheckOnZero
              || (!s.endHandlersCalled && s.source.ended && s.numWorkers == 0 && s.numRunningAsyncErrorHandlers > 0)
    ensures r == s.(endHandlersCalled := r.endHandlersCalled, endCheckOnZero := r.endCheckOnZero, effects := r.effects)
  {
    if s.endHandlersCalled then s
    else if s.source.ended && s.numWorkers == 0 then
      if s.numRunningAsyncErrorHandlers > 0 then
        s.(endCheckOnZero := true)
      else
        s.(effects := s.effects + EndCalls(s.endHandlers, FinalValue(s)), endHandlersCalled := true)
    else s
  }

  /** A chain error: every synchronous error handler is called with it, in
      registration order, then the asynchronous ones, after their number has
      been added to the count of outstanding acknowledgements. */
  function CallErrorHandlers<V, E, A, H>(s: EnumStream<V, E, A, H>, error: E): (r: EnumStream<V, E, A, H>)
    ensures |r.effects| == |s.effects| + |s.errorHandlers| + |s.asyncErrorHandlers|
    ensures r.effects[..|s.effects|] == s.effects
    ensures forall i :: 0 <= i < |s.errorHandlers| ==>
              r.effects[|s.effects| + i] == ErrorHandlerCalled(s.errorHandlers[i], error)
    ensures forall i :: 0 <= i < |s.asyncErrorHandlers| ==>
              r.effects[|s.effects| + |s.errorHandlers| + i] == AsyncErrorHandlerCalled(s.asyncErrorHandlers[i], error)
    ensures CallsNoEndHandler(r.effects[|s.effects|..])
    ensures r.numRunningAsyncErrorHandlers == s.numRunningAsyncErrorHandlers + |s.asyncErrorHandlers|
    ensures r == s.(numRunningAsyncErrorHandlers := r.numRunningAsyncErrorHandlers, effects := r.effects)
  {
    var synchronous := s.(effects := s.effects + ErrorCalls(s.errorHandlers, error));
    if |s.asyncErrorHandlers| > 0 then
      synchronous.(
        numRunningAsyncErrorHandlers := s.numRunningAsyncErrorHandlers + |s.asyncErrorHandlers|,
        effects := synchronous.effects + AsyncErrorCalls(s.asyncErrorHandlers, error))
    else
      synchronous
  }

  /** Admission of an item the source emits: one more worker, and a pause
      request when the worker count reaches the concurrency bound. A source
      that has ended emits nothing more. */
  function OnObject<V, E, A, H>(s: EnumStream<V, E, A, H>, obj: Item<V>): (r: EnumStream<V, E, A, H>)
    ensures s.source.ended ==> r == s
    ensures !s.source.ended ==> r.numWorkers == s.numWorkers + 1 && r.inFlight == s.inFlight + [obj]
    ensures !s.source.ended ==> (r.source.paused <==> s.source.paused || s.numWorkers + 1 >= s.concurrency)
    ensures !s.source.ended ==>
              r.effects == s.effects + (if s.numWorkers + 1 >= s.concurrency then [Paused] else [])
    ensures r == s.(numWorkers := r.numWorkers, inFlight := r.inFlight,
                    source := s.source.(paused := r.source.paused), effects := r.effects)
  {
    if s.source.ended then s
    else
      var admitted := s.(numWorkers := s.numWorkers + 1, inFlight := s.inFlight + [obj]);
      if admitted.numWorkers >= admitted.concurrency then
        admitted.(source := admitted.source.(paused := true), effects := admitted.effects + [Paused])
      else
        admitted
  }

  /** Removes position `slot` from a sequence. */
  function RemoveAt<T>(items: seq<T>, slot: nat): (r: seq<T>)
    requires slot < |items|
    ensures |r| == |items| - 1
  {
    items[..slot] + items[slot + 1..]
  }

  /** The part of a completion that depends on the chain: an error goes to
      the error handlers, any other outcome changes nothing. */
  function ReportOutcome<V, E, A, H>(s: EnumStream<V, E, A, H>, outcome: Report<Item<V>, E>): (r: EnumStream<V, E, A, H>)
    ensures outcome.Ok? ==> r == s
    ensures outcome.Err? ==> r == CallErrorHandlers(s, outcome.error)
    ensures r.effects[..|s.effects|] == s.effects
    ensures CallsNoEndHandler(r.effects[|s.effects|..])
    ensures r == s.(numRunningAsyncErrorHandlers := r.numRunningAsyncErrorHandlers, effects := r.effects)
  {
    if outcome.Err? then CallErrorHandlers(s, outcome.error) else s
  }

  /** The resume request at the end of a completion: made exactly when the
      source is paused and the worker count is below the bound. */
  function ResumeIfBelowBound<V, E, A, H>(s: EnumStream<V, E, A, H>): (r: EnumStream<V, E, A, H>)
    ensures r.source.paused <==> s.source.paused && s.numWorkers >= s.concurrency
    ensures r.effects == s.effects + (if s.source.paused && s.numWorkers < s.concurrency then [Resumed] else [])
    ensures r == s.(source := s.source.(paused := r.source.paused), effects := r.effects)
  {
    if s.source.paused && s.numWorkers < s.concurrency then
      s.(source := s.source.(paused := false), effects := s.effects + [Resumed])
    else s
  }

  /** The continuation handed to the chain of the in-flight item at `slot`,
      called with the chain's `outcome`. Its error, if any, goes to the
      error handlers; the reducer folds the item as it was
      admitted, whatever the chain produced; the worker count drops, the
      source resumes if it is paused and the count is below the bound, and
      an end check is queued for the next tick. */
  function OnComplete<V, E, A, H>(s: EnumStream<V, E, A, H>, slot: nat, outcome: Report<Item<V>, E>): (r: EnumStream<V, E, A, H>)
    ensures slot >= |s.inFlight| ==> r == s
    ensures slot < |s.inFlight| ==>
              && r.inFlight == RemoveAt(s.inFlight, slot)
              && r.completed == s.completed + [s.inFlight[slot]]
              && r.numWorkers == s.numWorkers - 1
              && r.pendingEndChecks == s.pendingEndChecks + 1
    // the fold uses the admitted item, never the chain's result
    ensures slot < |s.inFlight| ==>
              r.reducer == (if s.reducer.Some? then Some(ReducerHandler(s.reducer.value, s.inFlight[slot])) else None)
    // a chain error reaches the error handlers; a resume request follows
    // exactly when the source is paused and the count is below the bound
    ensures slot < |s.inFlight| ==>
              var handled := ReportOutcome(s, outcome);
              && r.numRunningAsyncErrorHandlers == handled.numRunningAsyncErrorHandlers
              && r.effects == handled.effects + (if s.source.paused && s.numWorkers - 1 < s.concurrency then [Resumed] else [])
    ensures slot < |s.inFlight| ==>
              (r.source.paused <==> s.source.paused && s.numWorkers - 1 >= s.concurrency)
    ensures r.effects[..|s.effects|] == s.effects
    ensures CallsNoEndHandler(r.effects[|s.effects|..])
    ensures r == s.(inFlight := r.inFlight, completed := r.completed, numWorkers := r.numWorkers,
                    pendingEndChecks := r.pendingEndChecks, reducer := r.reducer,
                    numRunningAsyncErrorHandlers := r.numRunningAsyncErrorHandlers,
                    source := s.source.(paused := r.source.paused), effects := r.effects)
  {
    if slot >= |s.inFlight| then s
    else
      var handled := ReportOutcome(s, outcome);
      var resumed := ResumeIfBelowBound(Retire(handled, slot));
      resumed.(pendingEndChecks := resumed.pendingEndChecks + 1)
  }

  /** The bookkeeping of a completion: the item leaves the in-flight set,
      the reducer (if any) folds it, and the worker count drops. */
  function Retire<V, E, A, H>(s: EnumStream<V, E, A, H>, slot: nat): (r: EnumStream<V, E, A, H>)
    requires slot < |s.inFlight|
    ensures r.inFlight == RemoveAt(s.inFlight, slot)
    ensures r.completed == s.completed + [s.inFlight[slot]]
    ensures r.numWorkers == s.numWorkers - 1
    ensures r.reducer == (if s.reducer.Some? then Some(ReducerHandler(s.reducer.value, s.inFlight[slot])) else None)
    ensures r == s.(inFlight := r.inFlight, completed := r.completed, numWorkers := r.numWorkers, reducer := r.reducer)
  {
    var obj := s.inFlight[slot];
    s.(reducer := if s.reducer.Some? then Some(ReducerHandler(s.reducer.value, obj)) else None,
       numWorkers := s.numWorkers - 1,
       inFlight := RemoveAt(s.inFlight, slot),
       completed := s.completed + [obj])
  }

  /** The acknowledgement an asynchronous error handler receives. It
      decrements the count of outstanding acknowledgements; the decrement to
      zero runs the hook, which is the deferred end check if one was
      installed and a no-op otherwise. Each acknowledgement is assumed to be
      called once, so one arriving with nothing outstanding changes nothing. */
  function OnAsyncErrorAck<V, E, A, H>(s: EnumStream<V, E, A, H>): (r: EnumStream<V, E, A, H>)
    ensures s.numRunningAsyncErrorHandlers <= 0 ==> r == s
    ensures s.numRunningAsyncErrorHandlers > 0 ==>
              r.numRunningAsyncErrorHandlers == s.numRunningAsyncErrorHandlers - 1
    ensures s.numRunningAsyncErrorHandlers == 1 && s.endCheckOnZero ==>
              r == CallEndHandlersIfNecessary(s.(numRunningAsyncErrorHandlers := 0))
    ensures s.numRunningAsyncErrorHandlers > 0 && !(s.numRunningAsyncErrorHandlers == 1 && s.endCheckOnZero) ==>
              r == s.(numRunningAsyncErrorHandlers := s.numRunningAsyncErrorHandlers - 1)
    // only an acknowledgement that empties the counter can run the end handlers
    ensures !s.endHandlersCalled && r.endHandlersCalled ==>
              s.numRunningAsyncErrorHandlers == 1 && s.endCheckOnZero
  {
    if s.numRunningAsyncErrorHandlers <= 0 then s
    else
      var acked := s.(numRunningAsyncErrorHandlers := s.numRunningAsyncErrorHandlers - 1);
      if acked.numRunningAsyncErrorHandlers == 0 && acked.endCheckOnZero then
        CallEndHandlersIfNecessary(acked)
      else
        acked
  }

  /** The source's end signal: the source is marked ended and the end check
      runs. The source signals its end once; a repeated signal changes
      nothing. */
  function OnSourceEnd<V, E, A, H>(s: EnumStream<V, E, A, H>): (r: EnumStream<V, E, A, H>)
    ensures r.source.ended
    ensures s.source.ended ==> r == s
    ensures !s.source.ended ==> r == CallEndHandlersIfNecessary(s.(source := s.source.(ended := true)))
  {
    if s.source.ended then s
    else CallEndHandlersIfNecessary(s.(source := s.source.(ended := true)))
  }

  /** One end check queued by a completion runs. */
  function OnDeferredEndCheck<V, E, A, H>(s: EnumStream<V, E, A, H>): (r: EnumStream<V, E, A, H>)
    ensures s.pendingEndChecks == 0 ==> r == s
    ensures s.pendingEndChecks > 0 ==>
              r == CallEndHandlersIfNecessary(s.(pendingEndChecks := s.pendingEndChecks - 1))
  {
    if s.pendingEndChecks == 0 then s
    else CallEndHandlersIfNecessary(s.(pendingEndChecks := s.pendingEndChecks - 1))
  }

  /** The chain outcome of the in-flight item at `slot`, as its continuation
      receives it. */
  function ChainOutcome<V, E, A, H>(s: EnumStream<V, E, A, H>, slot: nat): Report<Item<V>, E>
    requires slot < |s.inFlight|
  {
    Chain.ProcessActions(s.actions, s.inFlight[slot], 0).outcome
  }

  /** Dispatches one event to its handler. */
  function Step<V, E, A, H>(s: EnumStream<V, E, A, H>, event: Event<V>): EnumStream<V, E, A, H>
  {
    match event
    case Data(obj) => OnObject(s, obj)
    case Complete(slot) =>
      if slot < |s.inFlight| then OnComplete(s, slot, ChainOutcome(s, slot)) else s
    case SourceEnd => OnSourceEnd(s)
    case AsyncErrorAck => OnAsyncErrorAck(s)
    case DeferredEndCheck => OnDeferredEndCheck(s)
  }

  /** The pipeline after a sequence of events. */
  function Run<V, E, A, H>(s: EnumStream<V, E, A, H>, events: seq<Event<V>>): EnumStream<V, E, A, H>
    decreases |events|
  {
    if |events| == 0 then s else Run(Step(s, events[0]), events[1..])
  }
}
