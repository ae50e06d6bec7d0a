/** The values the pipeline hands around: items (which may be the filtered
    marker), the `(error, result)` reports of asynchronous callbacks, and the
    small optional/failure wrappers the rest of the model uses. */
module Values {

  /** A value travelling through the stage chain. `Filtered` stands for an
      instance of the filtered-marker class; every other JavaScript value is
      `Plain`. The marker is an ordinary value, so a source or a map callback
      may produce it as well. */
  datatype Item<+V> = Plain(value: V) | Filtered

  /** What an asynchronous callback passes to its continuation: a truthy
      `error`, or a falsy one together with a result. */
  datatype Report<+R, +E> = Ok(value: R) | Err(error: E)

  /** `undefined` versus a present value. */
  datatype Option<+T> = None | Some(value: T)

  /** A call that either returns a value or throws. */
  datatype Result<+R, +Err> = Success(value: R) | Failure(error: Err)
}
