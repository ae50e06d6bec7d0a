# enum-stream in Dafny

A model of `EnumStream`, a pipeline that consumes items from a Node
readable stream. Each item runs through an ordered chain of stages:
`map`, `mapAsync`, `filter`, `filterAsync` and `forEach`. The pipeline can
fold items into a reducer, routes chain errors to error handlers, and calls
its end handlers once everything has settled.

The model has two parts.

- **The per-item chain.**
  - `Stages.Stage` is the closed set of five stage kinds. Each kind holds an
    opaque user callback.
  - `Stages.Handler` is one invocation of a stage.
  - `Chain.ProcessActions` is the driver. It starts at a stage index and
    stops at the end of the list, at the filtered marker, or at the first
    error.
  - A value is an `Item`: either a plain value or the filtered marker
    (`Filtered`). The marker is an ordinary value, so a map callback or the
    source can produce it too.
  - An asynchronous callback is a function from its input to the report it
    eventually passes on: an error, or a result.
- **The bookkeeping state machine.**
  - `Pipeline.EnumStream` mirrors the pipeline object. It holds the stage
    list, the reducer, the handler registries, `numWorkers`,
    `numRunningAsyncErrorHandlers`, the deferred-end hook and
    `endHandlersCalled`.
  - It also holds what the model needs from the surroundings:
    - the source's `paused` and `ended` flags;
    - the items in flight;
    - the items completed, in completion order;
    - the number of end checks queued for the next tick;
    - a log of the calls the pipeline makes to the outside world (pause,
      resume, and the three kinds of handler).
  - Execution is single-threaded, so a run is a sequence of `Runtime.Event`s:
    - an item arrives;
    - an in-flight item's chain finishes;
    - the source ends;
    - an asynchronous error handler acknowledges;
    - a queued end check runs.
  - `Runtime.Run` applies a sequence of events. The lemmas in `Properties`
    hold for every sequence.

The reducer folds the admitted item itself (the same reference the stages received), not the chain's result. The
code folds on every completion, including ones that end in an error or the
filtered marker (`lib/enum-stream.js:161-167`), and the model does the same.

## Model

| member | source | states |
|---|---|---|
| `Stages.Handler` | lib/enum-stream.js:180-245 | The synchronous kinds never report an error. Only the map kinds can change the value; filters and `forEach` pass the item unchanged or drop it. Map reports its callback's result and MapAsync forwards its callback's report exactly. Filter keeps the item iff the predicate holds. FilterAsync forwards an error unchanged, and otherwise keeps the item iff the reported flag is true. `forEach` always passes the item on. |
| `Chain.ProcessActions` | lib/enum-stream.js:100-116 | On the marker, or past the last stage, no stage is invoked and the value is returned. Otherwise the stages invoked are exactly the consecutive indices from the start index, each receiving the plain value its predecessor produced. The outcome is the last invoked stage's report. A plain value comes out only after every stage has run, so the chain stops early only on an error or the marker. |
| `Chain.ChainIsComposition` | lib/enum-stream.js:100-116 | Started at index 0, the driver computes exactly the in-order composition of the stages. The reference composition is defined from the last stage backwards and carries an error or the marker through unchanged. |
| `Chain.AppendStages` | lib/enum-stream.js:100-116 | Running `a + b` equals running `a`, then running `b` on `a`'s value. An error from `a` is returned as is. That no stage of `b` then runs follows from the contract of `Chain.ProcessActions`, which stops at the first error. |
| `Chain.ObserverInFront` | lib/enum-stream.js:241-244 | A `forEach` stage at the head of the list hands every item, plain or marker, to the rest of the chain unchanged, so the outcome is that of the rest alone. |
| `Chain.ObserverIsTransparent` | lib/enum-stream.js:236-245 | Inserting a `forEach` stage anywhere in the list never changes the chain's outcome, for an observer that does not mutate the item (see Left out). |
| `Chain.ObserverSeesSurvivors` | lib/enum-stream.js:200-245 | With `filter(p)` followed by `forEach`, the observer is invoked on `x` iff `p(x)`. The item then comes out unchanged. Otherwise the marker comes out after one invocation. |
| `Pipeline.ReducerHandler` | lib/enum-stream.js:249-258 | Folding keeps the combining callback and sets the accumulator to `combine(previous accumulator, item)`. |
| `Pipeline.Create` | lib/enum-stream.js:8-35 | A new pipeline has nothing registered, no counters above zero and nothing in flight. Its concurrency is the given one, or 1 when none is given. |
| `Pipeline.AddAction` | lib/enum-stream.js:48-58 | It fails with `InvalidActionError` iff a reducer is attached. Otherwise it appends exactly the given stage at the end and changes nothing else. |
| `Pipeline.Map` | lib/enum-stream.js:60-62 | It fails iff a reducer is attached. Otherwise it appends one Map stage holding the callback and changes nothing else. |
| `Pipeline.MapAsync` | lib/enum-stream.js:64-66 | It fails iff a reducer is attached. Otherwise it appends one MapAsync stage holding the callback and changes nothing else. |
| `Pipeline.Filter` | lib/enum-stream.js:68-70 | It fails iff a reducer is attached. Otherwise it appends one Filter stage holding the predicate and changes nothing else. |
| `Pipeline.FilterAsync` | lib/enum-stream.js:72-74 | It fails iff a reducer is attached. Otherwise it appends one FilterAsync stage holding the predicate and changes nothing else. |
| `Pipeline.ForEach` | lib/enum-stream.js:76-78 | It fails iff a reducer is attached. Otherwise it appends one Iterate stage holding the callback and changes nothing else. |
| `Pipeline.Reduce` | lib/enum-stream.js:80-83 | It attaches a reducer, replacing any earlier one, with the callback and the initial accumulator. Nothing else changes: the stages, the handler lists and the runtime state stay as they were. |
| `Pipeline.NoActionsAfterReduce` | lib/enum-stream.js:48-58 | After `reduce`, appending any stage fails, and the stage list is the one before `reduce`. |
| `Pipeline.End` | lib/enum-stream.js:85-88 | It appends the handler to the end handlers and changes nothing else. |
| `Pipeline.Errors` | lib/enum-stream.js:90-93 | It appends the handler to the synchronous error handlers and changes nothing else. |
| `Pipeline.ErrorsAsync` | lib/enum-stream.js:95-98 | It appends the handler to the asynchronous error handlers and changes nothing else. |
| `Runtime.FinalValue` | lib/enum-stream.js:131 | End handlers receive the accumulator when a reducer is attached, and `undefined` otherwise. |
| `Runtime.CallEndHandlersIfNecessary` | lib/enum-stream.js:122-136 | End handlers have run afterwards iff they had run before, or the source has ended with no worker and no outstanding acknowledgement. When they run, every end handler is called once, in registration order, with the final value. Otherwise the log is unchanged. The hook is installed iff the check found the source ended and idle with acknowledgements outstanding. |
| `Runtime.CallErrorHandlers` | lib/enum-stream.js:138-151 | Every synchronous error handler is called with the error, in registration order, followed by every asynchronous one. The outstanding count grows by the number of asynchronous handlers. No end handler is called and nothing else changes. |
| `Runtime.OnObject` | lib/enum-stream.js:153-158 | Admission adds the item to the in-flight items and increments the worker count. A pause is requested iff the new count is at or above the bound. An ended source delivers nothing more. |
| `Runtime.Retire` | lib/enum-stream.js:165-169 | The item leaves the in-flight items and joins the completed ones, and the worker count drops by one. The reducer, if any, folds the admitted item itself, not the chain's result. |
| `Runtime.ResumeIfBelowBound` | lib/enum-stream.js:171-173 | A resume is requested, and the source un-paused, iff it was paused and the worker count is below the bound. |
| `Runtime.OnComplete` | lib/enum-stream.js:160-176 | An error outcome goes to the error handlers, and any other outcome calls none. The reducer folds the admitted item whatever the outcome. The worker count drops and a resume follows iff the source is paused and below the bound. One end check is queued. No end handler is called. |
| `Runtime.OnAsyncErrorAck` | lib/enum-stream.js:142-146 | Each acknowledgement decrements the outstanding count. The decrement to zero runs the deferred end check when the hook is installed. Only that acknowledgement can make the end handlers run. |
| `Runtime.OnSourceEnd` | lib/enum-stream.js:40 | The source is marked ended and the end check runs. |
| `Runtime.OnDeferredEndCheck` | lib/enum-stream.js:175 | A queued end check runs the end check, and the queue shrinks by one. |
| `Properties.RunInv` | lib/enum-stream.js:122-176 | Several facts hold after every event sequence. The worker count equals the number of items in flight. The outstanding count is never negative. The hook is installed only once the source has ended with nothing in flight. End handlers have run only once the source has ended with nothing in flight and nothing outstanding. While end handlers are still due, an end check is queued or the hook waits for an acknowledgement. |
| `Properties.EndHandlersRunAtMostOnce` | lib/enum-stream.js:122-136 | From a fresh pipeline, after any events, the log's end-handler calls are empty if the end handlers have not run. If they have run, the calls are each registered end handler exactly once, in order, with the final value. They have run only after the source ended with no worker and no outstanding acknowledgement. |
| `Properties.Drain` | lib/enum-stream.js:122-176 | From any state meeting the invariant with the source ended, the chosen continuation makes the end handlers run. The continuation completes the in-flight items, runs the queued checks, then delivers the acknowledgements. |
| `Properties.EndHandlersEventuallyRun` | lib/enum-stream.js:122-176 | After any run from a fresh pipeline in which the source has ended, the end handlers are bound to run. |
| `Properties.AcksReleaseDeferredEnd` | lib/enum-stream.js:122-151 | A check that found acknowledgements outstanding is not lost: delivering them makes the end handlers run. |
| `Properties.PauseTracksBound` | lib/enum-stream.js:153-173 | Once the source is paused exactly when the worker count is at or above the bound, every event sequence keeps it so. |
| `Properties.WorkersWithinBound` | lib/enum-stream.js:153-173 | The worker count never exceeds the bound when the source delivers only while not paused. |
| `Properties.PauseIsAdvisory` | lib/enum-stream.js:153-158 | The pause is only a request. Take a pipeline with one `mapAsync` stage whose callback has not yet reported, and the default bound of 1. If the source delivers two items regardless, both are in flight, the worker count is 2 and the source is paused. |
| `Properties.AdmitCompleteBalanced` | lib/enum-stream.js:153-173 | An admission followed by that item's completion restores the worker count, the in-flight items and the pause state. |
| `Properties.ReducerFoldsAdmittedItems` | lib/enum-stream.js:160-167 | After any events, the accumulator is the left fold, from the initial value, of the admitted items themselves, in completion order. It does not depend on what the chains produced. |
| `Properties.FoldIgnoresStages` | lib/enum-stream.js:160-167 | Two pipelines that differ only in stages, counters or handlers get the same completed items and the same accumulator from the same events. The fold never sees a chain's result. |
| `Scenarios.ReducerSeesOriginalItems` | lib/enum-stream.js:160-167 | Take `map(x => x + 1)` then `reduce(+, 0)`, over 1, 2, 3 with concurrency 1. The single end handler is called once, with 6 and not 9. |

## Left out

- Stream wiring is not modelled: `registerListeners`, the `_readableState.ended` probe, and the real `pause`/`resume`/`isPaused` calls. The source is two flags and three events (item, end, nothing more after end). The readable state can say "ended" before the `end` event fires. The model does not tell these apart, and treats "ended" as "no more items will arrive".
- `process.nextTick` is not modelled as a scheduler. Each completion queues one end check, and a `DeferredEndCheck` event runs one queued check at any point of a run.
- Exceptions thrown by synchronous callbacks, error handlers or end handlers are not modelled. The source does not catch them.
- An acknowledgement called more than once is not modelled. Each acknowledgement is assumed to be called once, so an acknowledgement arriving with nothing outstanding changes nothing.
- An asynchronous callback that never reports leaves its item in flight. In the model, that item's `Complete` event never occurs.
- An asynchronous callback is a function of its input. Each stage has its own callback, so any sequence of reports within one chain can be expressed.
- The stage, handler and reducer registrations are fixed before the first item. In the source, a stage appended while items are in flight would be seen by them, because the chain reads the stage list lazily. The model does not cover that case.
- The generic option-copying loop of the constructor is not modelled; only `concurrency` with its default of 1 is. A non-numeric `concurrency`, such as an explicit `undefined`, is not modelled either.
- The empty `processReducers`, the `InvalidActionError` message text and the module's export table are not modelled.
- The invocations of stage callbacks are recorded per chain (`Chain.ChainResult.calls`). They are not copied into the pipeline's log of outside calls.
- A stage callback that reports more than once is not modelled. Each asynchronous callback is a function of its input and reports exactly once. In the code, the index that a second report advances (`lib/enum-stream.js:114`) is shared with the first report. A second `next` from a `mapAsync` or `filterAsync` callback would therefore restart the chain one stage further on. It would also reach the completion continuation twice: the worker count would drop twice, the reducer would fold the item twice, and a second end check would be queued.
- A concurrency bound below 1 is accepted by the code but not covered by the backpressure guarantee from a fresh pipeline. With a bound of 0, the first admission pauses the source and no completion resumes it. `Properties.PauseTracksBound` holds for every bound. A fresh pipeline starts with "paused" and "at the bound" in step only when the bound is at least 1 (`Properties.FreshPausedAtBound`). So `Properties.WorkersWithinBound` applies from a fresh pipeline only for such bounds.
- The model allows more interleavings than the code. In the model, completing an item is always a separate event that comes after its admission. In the code, a chain with no `mapAsync` or `filterAsync` stage completes inside the `onObject` call that admitted it (`lib/enum-stream.js:103-106` and `160-175`). So does a chain whose asynchronous callbacks report synchronously. Such a code run is the model's run with the item's `Complete` event placed right after its `Data` event. The lemmas that hold over every event sequence therefore cover the code's runs. A witness for a single run, such as `Properties.PauseIsAdvisory`, uses an asynchronous stage so that the run it describes can occur.
- Stage callbacks and the reducer's callback are pure functions of their arguments. In-place mutation of an item is not modelled. In the code, every stage, every `forEach` observer and `reducer.handler(obj)` (`lib/enum-stream.js:166`) receive the same object reference. So a callback that mutates its argument changes what later stages see and what the reducer folds. `Chain.ObserverIsTransparent` and `Properties.ReducerFoldsAdmittedItems` hold for callbacks that do not mutate.
