/** What holds of the pipeline over every sequence of events, starting from
    a pipeline that has been built but has not seen an item yet. */
module Properties {
  import opened Values
  import opened Pipeline
  import opened Runtime
  import Stages

  /** The end-handler calls in a log, in order. */
  function EndEffects<E, A, H>(effects: seq<Effect<E, A, H>>): (r: seq<Effect<E, A, H>>)
    ensures |r| <= |effects|
    ensures forall k :: 0 <= k < |r| ==> r[k].EndHandlerCalled?
    decreases |effects|
  {
    if |effects| == 0 then []
    else (if effects[0].EndHandlerCalled? then [effects[0]] else []) + EndEffects(effects[1..])
  }

  lemma {:induction false} EndEffectsAppend<E, A, H>(a: seq<Effect<E, A, H>>, b: seq<Effect<E, A, H>>)
    ensures EndEffects(a + b) == EndEffects(a) + EndEffects(b)
    decreases |a|
  {
    if |a| == 0 {
      assert a + b == b;
    } else {
      var head := if a[0].EndHandlerCalled? then [a[0]] else [];
      assert (a + b)[0] == a[0];
      assert (a + b)[1..] == a[1..] + b;
      assert EndEffects(a + b) == head + EndEffects(a[1..] + b);
      EndEffectsAppend(a[1..], b);
      assert head + (EndEffects(a[1..]) + EndEffects(b)) == (head + EndEffects(a[1..])) + EndEffects(b);
    }
  }

  lemma {:induction false} EndEffectsOfQuiet<E, A, H>(effects: seq<Effect<E, A, H>>)
    requires CallsNoEndHandler(effects)
    ensures EndEffects(effects) == []
    decreases |effects|
  {
    if |effects| > 0 {
      EndEffectsOfQuiet(effects[1..]);
    }
  }

  lemma {:induction false} EndEffectsOfEndCalls<E, A, H>(effects: seq<Effect<E, A, H>>)
    requires forall i :: 0 <= i < |effects| ==> effects[i].EndHandlerCalled?
    ensures EndEffects(effects) == effects
    decreases |effects|
  {
    if |effects| > 0 {
      EndEffectsOfEndCalls(effects[1..]);
      assert effects == [effects[0]] + effects[1..];
    }
  }

  /** A log that grows by calls other than end-handler calls keeps its
      end-handler calls. */
  lemma QuietExtension<E, A, H>(before: seq<Effect<E, A, H>>, after: seq<Effect<E, A, H>>)
    requires |before| <= |after| && after[..|before|] == before
    requires CallsNoEndHandler(after[|before|..])
    ensures EndEffects(after) == EndEffects(before)
  {
    assert after == before + after[|before|..];
    EndEffectsAppend(before, after[|before|..]);
    EndEffectsOfQuiet(after[|before|..]);
  }

  /** The bookkeeping invariant:
      - the worker count is the number of items in flight;
      - the count of outstanding acknowledgements is never negative;
      - the deferred-end hook is installed only after the source ended with
        nothing in flight;
      - end handlers have run only after the source ended, with nothing in
        flight and nothing to acknowledge;
      - the end-handler calls in the log are each end handler once, with
        the final value, if the end handlers have run, and none otherwise. */
  ghost predicate Bookkeeping<V, E, A, H>(s: EnumStream<V, E, A, H>)
  {
    && s.numWorkers == |s.inFlight|
    && s.numRunningAsyncErrorHandlers >= 0
    && (s.endCheckOnZero ==> s.source.ended && s.inFlight == [])
    && (s.endHandlersCalled ==> s.source.ended && s.inFlight == [] && s.numRunningAsyncErrorHandlers == 0)
    && EndEffects(s.effects) == (if s.endHandlersCalled then EndCalls(s.endHandlers, FinalValue(s)) else [])
  }

  /** Once the source has ended with nothing in flight, and the end handlers
      have not run, something that will run the end check is still to come:
      a queued end check, or an outstanding acknowledgement with the hook
      installed. An installed hook always has an acknowledgement to wait
      for. */
  ghost predicate EndIsComing<V, E, A, H>(s: EnumStream<V, E, A, H>)
  {
    && (s.source.ended && s.inFlight == [] && !s.endHandlersCalled ==>
          s.pendingEndChecks > 0 || (s.endCheckOnZero && s.numRunningAsyncErrorHandlers > 0))
    && (s.endCheckOnZero && !s.endHandlersCalled ==> s.numRunningAsyncErrorHandlers > 0)
  }

  ghost predicate Inv<V, E, A, H>(s: EnumStream<V, E, A, H>)
  {
    Bookkeeping(s) && EndIsComing(s)
  }

  lemma FreshInv<V, E, A, H>(s: EnumStream<V, E, A, H>)
    requires Fresh(s)
    ensures Inv(s)
  {
  }

  /** The end check keeps the bookkeeping invariant, changes nothing unless
      the source has ended with nothing in flight, and otherwise leaves the
      end handlers run or the hook installed with acknowledgements
      outstanding. */
  lemma EndCheckInv<V, E, A, H>(s: EnumStream<V, E, A, H>)
    requires Bookkeeping(s)
    ensures Bookkeeping(CallEndHandlersIfNecessary(s))
    ensures !(s.source.ended && s.inFlight == []) ==> CallEndHandlersIfNecessary(s) == s
    ensures s.source.ended && s.inFlight == [] ==>
              var r := CallEndHandlersIfNecessary(s);
              r.endHandlersCalled || (r.endCheckOnZero && r.numRunningAsyncErrorHandlers > 0)
  {
    var r := CallEndHandlersIfNecessary(s);
    if !s.endHandlersCalled && r.endHandlersCalled {
      var calls := EndCalls<E, A, H>(s.endHandlers, FinalValue(s));
      EndEffectsAppend(s.effects, calls);
      EndEffectsOfEndCalls(calls);
      assert FinalValue(r) == FinalValue(s);
    }
  }

  lemma OnObjectInv<V, E, A, H>(s: EnumStream<V, E, A, H>, obj: Item<V>)
    requires Inv(s)
    ensures Inv(OnObject(s, obj))
  {
    var r := OnObject(s, obj);
    QuietExtension(s.effects, r.effects);
  }

  lemma OnCompleteInv<V, E, A, H>(s: EnumStream<V, E, A, H>, slot: nat, outcome: Report<Item<V>, E>)
    requires Inv(s)
    ensures Inv(OnComplete(s, slot, outcome))
  {
    var r := OnComplete(s, slot, outcome);
    QuietExtension(s.effects, r.effects);
  }

  lemma OnAsyncErrorAckInv<V, E, A, H>(s: EnumStream<V, E, A, H>)
    requires Inv(s)
    ensures Inv(OnAsyncErrorAck(s))
  {
    if s.numRunningAsyncErrorHandlers > 0 {
      EndCheckInv(s.(numRunningAsyncErrorHandlers := 0));
    }
  }

  lemma OnSourceEndInv<V, E, A, H>(s: EnumStream<V, E, A, H>)
    requires Inv(s)
    ensures Inv(OnSourceEnd(s))
  {
    if !s.source.ended {
      EndCheckInv(s.(source := s.source.(ended := true)));
    }
  }

  lemma OnDeferredEndCheckInv<V, E, A, H>(s: EnumStream<V, E, A, H>)
    requires Inv(s)
    ensures Inv(OnDeferredEndCheck(s))
  {
    if s.pendingEndChecks > 0 {
      EndCheckInv(s.(pendingEndChecks := s.pendingEndChecks - 1));
    }
  }

  lemma StepInv<V, E, A, H>(s: EnumStream<V, E, A, H>, event: Event<V>)
    requires Inv(s)
    ensures Inv(Step(s, event))
  {
    match event
    case Data(obj) => OnObjectInv(s, obj);
    case Complete(slot) =>
      if slot < |s.inFlight| {
        OnCompleteInv(s, slot, ChainOutcome(s, slot));
      }
    case SourceEnd => OnSourceEndInv(s);
    case AsyncErrorAck => OnAsyncErrorAckInv(s);
    case DeferredEndCheck => OnDeferredEndCheckInv(s);
  }

  lemma {:induction false} RunInv<V, E, A, H>(s: EnumStream<V, E, A, H>, events: seq<Event<V>>)
    requires Inv(s)
    ensures Inv(Run(s, events))
    decreases |events|
  {
    if |events| > 0 {
      StepInv(s, events[0]);
      RunInv(Step(s, events[0]), events[1..]);
    }
  }

  lemma {:induction false} RunAppend<V, E, A, H>(s: EnumStream<V, E, A, H>, a: seq<Event<V>>, b: seq<Event<V>>)
    ensures Run(s, a + b) == Run(Run(s, a), b)
    decreases |a|
  {
    if |a| == 0 {
      assert a + b == b;
    } else {
      assert (a + b)[0] == a[0];
      assert (a + b)[1..] == a[1..] + b;
      RunAppend(Step(s, a[0]), a[1..], b);
    }
  }

  /** Two pipelines with the same registrations (the reducer's callback
      included, not its accumulator) and the same concurrency bound. */
  ghost predicate SameRegistrations<V, E, A, H>(s: EnumStream<V, E, A, H>, t: EnumStream<V, E, A, H>)
  {
    && t.concurrency == s.concurrency
    && t.actions == s.actions
    && t.errorHandlers == s.errorHandlers
    && t.asyncErrorHandlers == s.asyncErrorHandlers
    && t.endHandlers == s.endHandlers
    && (t.reducer.Some? <==> s.reducer.Some?)
    && (t.reducer.Some? ==> t.reducer.value.combine == s.reducer.value.combine)
  }

  lemma StepKeepsRegistrations<V, E, A, H>(s: EnumStream<V, E, A, H>, event: Event<V>)
    ensures SameRegistrations(s, Step(s, event))
  {
    match event
    case Data(obj) =>
    case Complete(slot) =>
    case SourceEnd =>
    case AsyncErrorAck =>
    case DeferredEndCheck =>
  }

  lemma {:induction false} RunKeepsRegistrations<V, E, A, H>(s: EnumStream<V, E, A, H>, events: seq<Event<V>>)
    ensures SameRegistrations(s, Run(s, events))
    decreases |events|
  {
    if |events| > 0 {
      StepKeepsRegistrations(s, events[0]);
      RunKeepsRegistrations(Step(s, events[0]), events[1..]);
    }
  }

  /** End handlers run at most once, each once, in registration order,
      with the final value; and only after the source has ended with no
      item in flight and no acknowledgement outstanding. */
  lemma EndHandlersRunAtMostOnce<V, E, A, H>(s0: EnumStream<V, E, A, H>, events: seq<Event<V>>)
    requires Fresh(s0)
    ensures var s := Run(s0, events);
            EndEffects(s.effects) == (if s.endHandlersCalled then EndCalls(s0.endHandlers, FinalValue(s)) else [])
    ensures var s := Run(s0, events);
            s.endHandlersCalled ==> s.source.ended && s.numWorkers == 0 && s.numRunningAsyncErrorHandlers == 0
  {
    FreshInv(s0);
    RunInv(s0, events);
    RunKeepsRegistrations(s0, events);
  }

  /** Once the source has ended, some continuation of the run makes the end
      handlers run: the in-flight items complete, the queued end checks run,
      and the outstanding acknowledgements arrive. */
  function Drain<V, E, A, H>(s: EnumStream<V, E, A, H>): (events: seq<Event<V>>)
    requires Inv(s) && s.source.ended
    ensures Run(s, events).endHandlersCalled
    decreases |s.inFlight|, s.numRunningAsyncErrorHandlers + s.pendingEndChecks
  {
    if s.endHandlersCalled then []
    else
      var event: Event<V> :=
        if |s.inFlight| > 0 then Complete(0)
        else if s.pendingEndChecks > 0 then DeferredEndCheck
        else AsyncErrorAck;
      StepInv(s, event);
      var rest := Drain(Step(s, event));
      assert ([event] + rest)[1..] == rest;
      [event] + rest
  }

  /** Whatever happened before, once the source has ended the end handlers
      are bound to run. */
  lemma EndHandlersEventuallyRun<V, E, A, H>(s0: EnumStream<V, E, A, H>, events: seq<Event<V>>)
    requires Fresh(s0)
    requires Run(s0, events).source.ended
    ensures Inv(Run(s0, events))
    ensures Run(s0, events + Drain(Run(s0, events))).endHandlersCalled
  {
    FreshInv(s0);
    RunInv(s0, events);
    RunAppend(s0, events, Drain(Run(s0, events)));
  }

  function Acks<V>(n: nat): (events: seq<Event<V>>)
    ensures |events| == n
  {
    if n == 0 then [] else [AsyncErrorAck] + Acks(n - 1)
  }

  /** An end check made while acknowledgements are outstanding is not lost:
      the acknowledgement that empties the counter runs the end handlers. */
  lemma {:induction false} AcksReleaseDeferredEnd<V, E, A, H>(s: EnumStream<V, E, A, H>)
    requires Inv(s)
    requires s.endCheckOnZero && !s.endHandlersCalled
    ensures Run(s, Acks<V>(s.numRunningAsyncErrorHandlers)).endHandlersCalled
    decreases s.numRunningAsyncErrorHandlers
  {
    var n := s.numRunningAsyncErrorHandlers;
    var events := Acks<V>(n);
    assert events[0] == AsyncErrorAck;
    assert events[1..] == Acks<V>(n - 1);
    var next := Step(s, AsyncErrorAck);
    StepInv(s, AsyncErrorAck);
    if n > 1 {
      AcksReleaseDeferredEnd(next);
    }
  }

  /** The source is paused exactly when the worker count is at or above
      the concurrency bound. */
  ghost predicate PausedAtBound<V, E, A, H>(s: EnumStream<V, E, A, H>)
  {
    s.source.paused <==> s.numWorkers >= s.concurrency
  }

  lemma StepPausedAtBound<V, E, A, H>(s: EnumStream<V, E, A, H>, event: Event<V>)
    requires PausedAtBound(s)
    ensures PausedAtBound(Step(s, event))
    ensures Step(s, event).concurrency == s.concurrency
  {
  }

  /** Once "paused" and "at the bound" are in step, every admission and
      completion keeps them so: a pause is requested when an admission
      reaches the bound, a resume when a completion drops below it. */
  lemma {:induction false} PauseTracksBound<V, E, A, H>(s: EnumStream<V, E, A, H>, events: seq<Event<V>>)
    requires PausedAtBound(s)
    ensures PausedAtBound(Run(s, events))
    decreases |events|
  {
    if |events| > 0 {
      StepPausedAtBound(s, events[0]);
      PauseTracksBound(Step(s, events[0]), events[1..]);
    }
  }

  /** A fresh pipeline with a bound of at least one starts in step. */
  lemma FreshPausedAtBound<V, E, A, H>(s: EnumStream<V, E, A, H>)
    requires Fresh(s) && s.concurrency >= 1
    ensures PausedAtBound(s)
  {
  }

  /** The source delivers items only while it is not paused. */
  ghost predicate HonoursPause<V, E, A, H>(s: EnumStream<V, E, A, H>, events: seq<Event<V>>)
    decreases |events|
  {
    |events| == 0
    || ((events[0].Data? ==> !s.source.paused) && HonoursPause(Step(s, events[0]), events[1..]))
  }

  /** Against a source that honours pause requests, the number of items in
      flight never exceeds the concurrency bound. */
  lemma {:induction false} WorkersWithinBound<V, E, A, H>(s: EnumStream<V, E, A, H>, events: seq<Event<V>>)
    requires PausedAtBound(s) && s.numWorkers <= s.concurrency
    requires HonoursPause(s, events)
    ensures Run(s, events).numWorkers <= s.concurrency
    decreases |events|
  {
    if |events| > 0 {
      StepPausedAtBound(s, events[0]);
      WorkersWithinBound(Step(s, events[0]), events[1..]);
    }
  }

  /** Pausing is advisory: with an asynchronous stage whose callback has not
      reported yet, a source that keeps delivering while paused pushes the
      worker count past the bound. */
  lemma PauseIsAdvisory<V, E, A, H>(mapper: V -> Report<Item<V>, E>, x: Item<V>, y: Item<V>)
    ensures Pipeline.MapAsync(Create<V, E, A, H>(None), mapper).Success?
    ensures var s0 := Pipeline.MapAsync(Create<V, E, A, H>(None), mapper).value;
            var s := Run(s0, [Data(x), Data(y)]);
            && s0.actions == [Stages.MapAsync(mapper)]
            && s.inFlight == [x, y]
            && s.numWorkers == 2 > s.concurrency && s.source.paused
  {
    var s0 := Pipeline.MapAsync(Create<V, E, A, H>(None), mapper).value;
    var s1 := Step(s0, Data(x));
    var s2 := Step(s1, Data(y));
    var both: seq<Event<V>> := [Data(x), Data(y)];
    var second: seq<Event<V>> := [Data(y)];
    assert both[1..] == second;
    assert second[1..] == [];
    assert Run(s1, second) == Run(s2, []) == s2;
    assert Run(s0, both) == s2;
  }

  /** An admission followed by that item's completion leaves the worker
      count, the in-flight items and the pause state as they were. */
  lemma AdmitCompleteBalanced<V, E, A, H>(s: EnumStream<V, E, A, H>, obj: Item<V>, outcome: Report<Item<V>, E>)
    requires !s.source.ended && s.numWorkers == |s.inFlight|
    requires PausedAtBound(s)
    ensures var r := OnComplete(OnObject(s, obj), |s.inFlight|, outcome);
            r.numWorkers == s.numWorkers && r.inFlight == s.inFlight && r.source.paused == s.source.paused
  {
    var admitted := OnObject(s, obj);
    assert RemoveAt(admitted.inFlight, |s.inFlight|) == s.inFlight;
  }

  /** The left fold of `combine` over `items`, starting at `acc`. */
  function FoldItems<V, A>(combine: (A, Item<V>) -> A, acc: A, items: seq<Item<V>>): A
    decreases |items|
  {
    if |items| == 0 then acc
    else combine(FoldItems(combine, acc, items[..|items| - 1]), items[|items| - 1])
  }

  /** The reducer's accumulator is the fold, from `initial`, of the
      completed items as they were admitted, in completion order. */
  ghost predicate FoldsCompleted<V, E, A, H>(initial: Option<Reducer<V, A>>, s: EnumStream<V, E, A, H>)
  {
    match initial
    case None => s.reducer.None?
    case Some(red) => s.reducer == Some(Reducer(red.combine, FoldItems(red.combine, red.value, s.completed)))
  }

  lemma StepFoldsCompleted<V, E, A, H>(initial: Option<Reducer<V, A>>, s: EnumStream<V, E, A, H>, event: Event<V>)
    requires FoldsCompleted(initial, s)
    ensures FoldsCompleted(initial, Step(s, event))
  {
    if event.Complete? && event.slot < |s.inFlight| && initial.Some? {
      var r := Step(s, event);
      assert r.completed[..|s.completed|] == s.completed;
    }
  }

  /** Every completion folds the item as it was admitted — whether its chain
      ended in a value, the filtered marker or an error — and never the
      chain's result. */
  lemma {:induction false} ReducerFoldsAdmittedItems<V, E, A, H>(s0: EnumStream<V, E, A, H>, events: seq<Event<V>>)
    requires s0.completed == []
    ensures FoldsCompleted(s0.reducer, Run(s0, events))
  {
    FoldsAlong(s0.reducer, s0, events);
  }

  lemma {:induction false} FoldsAlong<V, E, A, H>(initial: Option<Reducer<V, A>>, s: EnumStream<V, E, A, H>, events: seq<Event<V>>)
    requires FoldsCompleted(initial, s)
    ensures FoldsCompleted(initial, Run(s, events))
    decreases |events|
  {
    if |events| > 0 {
      StepFoldsCompleted(initial, s, events[0]);
      FoldsAlong(initial, Step(s, events[0]), events[1..]);
    }
  }

  /** Two pipelines that agree on the items in flight, the items completed,
      the reducer and the source's end, whatever their stages, counters and
      handlers. */
  ghost predicate AgreeOnItems<V, E, A, H>(s: EnumStream<V, E, A, H>, t: EnumStream<V, E, A, H>)
  {
    && s.inFlight == t.inFlight
    && s.completed == t.completed
    && s.reducer == t.reducer
    && s.source.ended == t.source.ended
  }

  /** Completing the same slot retires the same item and folds it the same
      way, whatever either chain produced. */
  lemma CompleteAgreeOnItems<V, E, A, H>(s: EnumStream<V, E, A, H>, t: EnumStream<V, E, A, H>, slot: nat,
                                         outcomeS: Report<Item<V>, E>, outcomeT: Report<Item<V>, E>)
    requires AgreeOnItems(s, t)
    ensures AgreeOnItems(OnComplete(s, slot, outcomeS), OnComplete(t, slot, outcomeT))
  {
  }

  lemma AckAgreeOnItems<V, E, A, H>(s: EnumStream<V, E, A, H>, t: EnumStream<V, E, A, H>)
    requires AgreeOnItems(s, t)
    ensures AgreeOnItems(OnAsyncErrorAck(s), OnAsyncErrorAck(t))
  {
  }

  lemma DeferredEndCheckAgreeOnItems<V, E, A, H>(s: EnumStream<V, E, A, H>, t: EnumStream<V, E, A, H>)
    requires AgreeOnItems(s, t)
    ensures AgreeOnItems(OnDeferredEndCheck(s), OnDeferredEndCheck(t))
  {
  }

  lemma StepAgreeOnItems<V, E, A, H>(s: EnumStream<V, E, A, H>, t: EnumStream<V, E, A, H>, event: Event<V>)
    requires AgreeOnItems(s, t)
    ensures AgreeOnItems(Step(s, event), Step(t, event))
  {
    match event
    case Data(obj) =>
    case Complete(slot) =>
      if slot < |s.inFlight| {
        CompleteAgreeOnItems(s, t, slot, ChainOutcome(s, slot), ChainOutcome(t, slot));
      }
    case SourceEnd =>
    case AsyncErrorAck =>
      AckAgreeOnItems(s, t);
    case DeferredEndCheck =>
      DeferredEndCheckAgreeOnItems(s, t);
  }

  /** The fold never looks at what the chains produce: two pipelines that
      differ in their stages (and so in every chain's result, errors
      included) end up with the same completed items and the same
      accumulator after the same events. */
  lemma {:induction false} FoldIgnoresStages<V, E, A, H>(s: EnumStream<V, E, A, H>, t: EnumStream<V, E, A, H>,
                                                         events: seq<Event<V>>)
    requires AgreeOnItems(s, t)
    ensures Run(s, events).reducer == Run(t, events).reducer
    ensures Run(s, events).completed == Run(t, events).completed
    decreases |events|
  {
    if |events| > 0 {
      StepAgreeOnItems(s, t, events[0]);
      FoldIgnoresStages(Step(s, events[0]), Step(t, events[0]), events[1..]);
    }
  }
}
