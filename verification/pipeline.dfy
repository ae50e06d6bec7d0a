/** The pipeline object: its stage list, optional reducer, handler
    registries and bookkeeping counters, and the builder calls that fill
    them in before items flow. */
module Pipeline {
  import opened Values
  import Stages

  /** The fold attached by `reduce`: the user's combining callback and the
      running accumulator. */
  datatype Reducer<!V, !A> = Reducer(combine: (A, Item<V>) -> A, value: A)

  /** Folds one item into the accumulator. */
  function ReducerHandler<V, A>(reducer: Reducer<V, A>, obj: Item<V>): (r: Reducer<V, A>)
    ensures r.combine == reducer.combine
    ensures r.value == reducer.combine(reducer.value, obj)
  {
    reducer.(value := reducer.combine(reducer.value, obj))
  }

  /** Thrown by `addAction` on a reduced pipeline. */
  datatype InvalidActionError = InvalidActionError

  /** The source as the pipeline sees it: whether it is paused, and whether
      it has signalled its end. */
  datatype Source = Source(paused: bool, ended: bool)

  /** The calls the pipeline makes to the outside world, in order. Handlers
      are opaque values of type `H`; the final value is `None` for
      `undefined`. */
  datatype Effect<E, A, H> =
    | Paused
    | Resumed
    | ErrorHandlerCalled(errorHandler: H, error: E)
    | AsyncErrorHandlerCalled(asyncErrorHandler: H, asyncError: E)
    | EndHandlerCalled(endHandler: H, result: Option<A>)

  /** The pipeline object. The first fields are those of the JavaScript
      `EnumStream` object; `endCheckOnZero` says whether the "counter reached zero" hook
      is the deferred end check (true) or still the initial no-op (false).
      The remaining fields are the model's view of its surroundings:
      the source's flags, the items admitted and not yet completed, the
      items completed in completion order, the number of end checks queued
      for the next tick, and the log of outside calls. */
  datatype EnumStream<!V, E, !A, H> = EnumStream(
    concurrency: int,
    actions: seq<Stages.Stage<V, E>>,
    reducer: Option<Reducer<V, A>>,
    errorHandlers: seq<H>,
    asyncErrorHandlers: seq<H>,
    endHandlers: seq<H>,
    numWorkers: int,
    numRunningAsyncErrorHandlers: int,
    endCheckOnZero: bool,
    endHandlersCalled: bool,
    source: Source,
    inFlight: seq<Item<V>>,
    completed: seq<Item<V>>,
    pendingEndChecks: nat,
    effects: seq<Effect<E, A, H>>)

  /** Nothing has happened yet: no item admitted, no acknowledgement
      outstanding, no end check made or queued, the source flowing. */
  ghost predicate Fresh<V, E, A, H>(s: EnumStream<V, E, A, H>)
  {
    && s.numWorkers == 0
    && s.numRunningAsyncErrorHandlers == 0
    && !s.endCheckOnZero
    && !s.endHandlersCalled
    && s.source == Source(false, false)
    && s.inFlight == []
    && s.completed == []
    && s.pendingEndChecks == 0
    && s.effects == []
  }

  /** A new pipeline over a source; `concurrency` defaults to 1. */
  function Create<V, E, A, H>(concurrency: Option<int>): (r: EnumStream<V, E, A, H>)
    ensures Fresh(r)
    ensures concurrency.None? ==> r.concurrency == 1
    ensures concurrency.Some? ==> r.concurrency == concurrency.value
    ensures r.actions == [] && r.reducer.None?
    ensures r.errorHandlers == [] && r.asyncErrorHandlers == [] && r.endHandlers == []
  {
    EnumStream(
      concurrency := if concurrency.Some? then concurrency.value else 1,
      actions := [],
      reducer := None,
      errorHandlers := [],
      asyncErrorHandlers := [],
      endHandlers := [],
      numWorkers := 0,
      numRunningAsyncErrorHandlers := 0,
      endCheckOnZero := false,
      endHandlersCalled := false,
      source := Source(false, false),
      inFlight := [],
      completed := [],
      pendingEndChecks := 0,
      effects := [])
  }

  /** Appends a stage, unless a reducer is attached, which makes the
      pipeline terminal. */
  function AddAction<V, E, A, H>(s: EnumStream<V, E, A, H>, action: Stages.Stage<V, E>)
    : (r: Result<EnumStream<V, E, A, H>, InvalidActionError>)
    ensures r.Failure? <==> s.reducer.Some?
    ensures r.Success? ==> r.value.actions == s.actions + [action]
    ensures r.Success? ==> r.value == s.(actions := r.value.actions)
  {
    if s.reducer.Some? then Failure(InvalidActionError)
    else Success(s.(actions := s.actions + [action]))
  }

  function Map<V, E, A, H>(s: EnumStream<V, E, A, H>, callback: V -> Item<V>)
    : (r: Result<EnumStream<V, E, A, H>, InvalidActionError>)
    ensures r.Failure? <==> s.reducer.Some?
    ensures r.Success? ==> r.value.actions == s.actions + [Stages.Map(callback)]
    ensures r.Success? ==> r.value == s.(actions := r.value.actions)
  {
    AddAction(s, Stages.Map(callback))
  }

  function MapAsync<V, E, A, H>(s: EnumStream<V, E, A, H>, callback: V -> Report<Item<V>, E>)
    : (r: Result<EnumStream<V, E, A, H>, InvalidActionError>)
    ensures r.Failure? <==> s.reducer.Some?
    ensures r.Success? ==> r.value.actions == s.actions + [Stages.MapAsync(callback)]
    ensures r.Success? ==> r.value == s.(actions := r.value.actions)
  {
    AddAction(s, Stages.MapAsync(callback))
  }

  function Filter<V, E, A, H>(s: EnumStream<V, E, A, H>, callback: V -> bool)
    : (r: Result<EnumStream<V, E, A, H>, InvalidActionError>)
    ensures r.Failure? <==> s.reducer.Some?
    ensures r.Success? ==> r.value.actions == s.actions + [Stages.Filter(callback)]
    ensures r.Success? ==> r.value == s.(actions := r.value.actions)
  {
    AddAction(s, Stages.Filter(callback))
  }

  function FilterAsync<V, E, A, H>(s: EnumStream<V, E, A, H>, callback: V -> Report<bool, E>)
    : (r: Result<EnumStream<V, E, A, H>, InvalidActionError>)
    ensures r.Failure? <==> s.reducer.Some?
    ensures r.Success? ==> r.value.actions == s.actions + [Stages.FilterAsync(callback)]
    ensures r.Success? ==> r.value == s.(actions := r.value.actions)
  {
    AddAction(s, Stages.FilterAsync(callback))
  }

  function ForEach<V, E, A, H>(s: EnumStream<V, E, A, H>, callback: V -> ())
    : (r: Result<EnumStream<V, E, A, H>, InvalidActionError>)
    ensures r.Failure? <==> s.reducer.Some?
    ensures r.Success? ==> r.value.actions == s.actions + [Stages.Iterate(callback)]
    ensures r.Success? ==> r.value == s.(actions := r.value.actions)
  {
    AddAction(s, Stages.Iterate(callback))
  }

  /** Attaches (or replaces) the reducer. From then on every stage append
      is refused. */
  function Reduce<V, E, A, H>(s: EnumStream<V, E, A, H>, callback: (A, Item<V>) -> A, initialValue: A)
    : (r: EnumStream<V, E, A, H>)
    ensures r.reducer == Some(Reducer(callback, initialValue))
    ensures r == s.(reducer := r.reducer)
  {
    s.(reducer := Some(Reducer(callback, initialValue)))
  }

  /** After `reduce`, appending any stage fails and leaves the stage list
      as it was. */
  lemma NoActionsAfterReduce<V, E, A, H>(s: EnumStream<V, E, A, H>, callback: (A, Item<V>) -> A, initialValue: A,
                                         action: Stages.Stage<V, E>)
    ensures AddAction(Reduce(s, callback, initialValue), action).Failure?
    ensures Reduce(s, callback, initialValue).actions == s.actions
  {
  }

  function End<V, E, A, H>(s: EnumStream<V, E, A, H>, handler: H): (r: EnumStream<V, E, A, H>)
    ensures r.endHandlers == s.endHandlers + [handler]
    ensures r == s.(endHandlers := r.endHandlers)
  {
    s.(endHandlers := s.endHandlers + [handler])
  }

  function Errors<V, E, A, H>(s: EnumStream<V, E, A, H>, handler: H): (r: EnumStream<V, E, A, H>)
    ensures r.errorHandlers == s.errorHandlers + [handler]
    ensures r == s.(errorHandlers := r.errorHandlers)
  {
    s.(errorHandlers := s.errorHandlers + [handler])
  }

  function ErrorsAsync<V, E, A, H>(s: EnumStream<V, E, A, H>, handler: H): (r: EnumStream<V, E, A, H>)
    ensures r.asyncErrorHandlers == s.asyncErrorHandlers + [handler]
    ensures r == s.(asyncErrorHandlers := r.asyncErrorHandlers)
  {
    s.(asyncErrorHandlers := s.asyncErrorHandlers + [handler])
  }
}
