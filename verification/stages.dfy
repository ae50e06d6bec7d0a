/** The five stage kinds a pipeline can be built from, and what one
    invocation of a stage reports to the chain driver. */
module Stages {
  import opened Values

  /** A stage wraps one user callback. The callbacks are opaque; for the
      asynchronous kinds the callback's result is the report it eventually
      passes to its continuation. */
  datatype Stage<!V, E> =
    | Map(mapper: V -> Item<V>)
    | MapAsync(asyncMapper: V -> Report<Item<V>, E>)
    | Filter(test: V -> bool)
    | FilterAsync(asyncTest: V -> Report<bool, E>)
      /** `forEach`: the callback's return value is ignored. */
    | Iterate(observer: V -> ())

  /** One invocation of `stage` on the current value `obj`: the report the
      stage hands to its `next` continuation. */
  function Handler<V, E>(stage: Stage<V, E>, obj: V): (r: Report<Item<V>, E>)
    // the synchronous kinds never report an error
    ensures stage.Map? || stage.Filter? || stage.Iterate? ==> r.Ok?
    // only the map kinds can change the value; the others keep it or drop it
    ensures !(stage.Map? || stage.MapAsync?) && r.Ok? ==> r.value == Plain(obj) || r.value == Filtered
    ensures stage.Map? ==> r == Ok(stage.mapper(obj))
    ensures stage.MapAsync? ==> r == stage.asyncMapper(obj)
    ensures stage.Iterate? ==> r == Ok(Plain(obj))
    ensures stage.Filter? ==> (r == Ok(Plain(obj)) <==> stage.test(obj))
    ensures stage.FilterAsync? ==> (r.Err? <==> stage.asyncTest(obj).Err?)
    ensures stage.FilterAsync? && r.Err? ==> r.error == stage.asyncTest(obj).error
    ensures stage.FilterAsync? && stage.asyncTest(obj).Ok? ==>
              (r == Ok(Plain(obj)) <==> stage.asyncTest(obj).value)
  {
    match stage
    case Map(mapper) => Ok(mapper(obj))
    case MapAsync(asyncMapper) => asyncMapper(obj)
    case Filter(test) =>
      if test(obj) then Ok(Plain(obj)) else Ok(Filtered)
    case FilterAsync(asyncTest) =>
      (match asyncTest(obj)
       case Err(error) => Err(error)
       case Ok(shouldStayInStream) =>
         if shouldStayInStream then Ok(Plain(obj)) else Ok(Filtered))
    case Iterate(observer) =>
      var _ := observer(obj);
      Ok(Plain(obj))
  }
}
