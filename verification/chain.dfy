/** The per-item chain driver: runs the stages from a given index, passing
    each stage's result to the next, and stops at the end of the stage list,
    at the filtered marker, or at the first error. */
module Chain {
  import opened Values
  import opened Stages

  /** One invocation of a stage's callback: which stage, on which value. */
  datatype Call<V> = Call(stage: nat, arg: V)

  /** What the driver hands its final callback, and the stage invocations
      made on the way there, in the order they happened. */
  datatype ChainResult<V, E> = ChainResult(outcome: Report<Item<V>, E>, calls: seq<Call<V>>)

  function Last<T>(s: seq<T>): T
    requires |s| > 0
  {
    s[|s| - 1]
  }

  /** The chain driver started at `actionIdx`. The contract determines the
      whole run: the invoked stages are exactly `actionIdx, actionIdx + 1, ...`
      with no gap, each one receives what the previous one produced, the run
      stops only at the end of the list, at the marker or at an error, and
      the final outcome is the last invoked stage's report (or the value
      itself when no stage ran). */
  function ProcessActions<V, E>(actions: seq<Stage<V, E>>, obj: Item<V>, actionIdx: nat): (r: ChainResult<V, E>)
    // short-circuit: past the last stage, or on the marker, nothing is invoked
    ensures actionIdx >= |actions| || obj.Filtered? ==> r.calls == []
    ensures r.calls == [] ==> r.outcome == Ok(obj)
    // stages are invoked in index order, starting at actionIdx, none skipped
    ensures forall k :: 0 <= k < |r.calls| ==> r.calls[k].stage == actionIdx + k < |actions|
    ensures |r.calls| > 0 ==> obj == Plain(r.calls[0].arg)
    // each invoked stage receives the plain value its predecessor produced
    ensures forall k :: 0 < k < |r.calls| ==>
              Handler(actions[r.calls[k - 1].stage], r.calls[k - 1].arg) == Ok(Plain(r.calls[k].arg))
    // the outcome is what the last invoked stage reported
    ensures |r.calls| > 0 ==> r.outcome == Handler(actions[Last(r.calls).stage], Last(r.calls).arg)
    // a plain value comes out only once every stage has run
    ensures r.outcome.Ok? && r.outcome.value.Plain? ==> actionIdx + |r.calls| >= |actions|
    decreases |actions| - actionIdx
  {
    if actionIdx >= |actions| || obj.Filtered? then
      ChainResult(Ok(obj), [])
    else
      var here := Call(actionIdx, obj.value);
      match Handler(actions[actionIdx], obj.value)
      case Err(error) => ChainResult(Err(error), [here])
      case Ok(result) =>
        var rest := ProcessActions(actions, result, actionIdx + 1);
        ChainResult(rest.outcome, [here] + rest.calls)
  }

  /** Reference definition of the chain: the stages applied in index order,
      written from the last stage backwards. An error or the marker produced
      by a prefix is carried through the remaining stages untouched. */
  ghost function Compose<V, E>(actions: seq<Stage<V, E>>, obj: Item<V>): Report<Item<V>, E>
  {
    if |actions| == 0 then Ok(obj)
    else
      match Compose(actions[..|actions| - 1], obj)
      case Err(error) => Err(error)
      case Ok(value) =>
        if value.Filtered? then Ok(Filtered) else Handler(Last(actions), value.value)
  }

  /** One step of the driver on a plain value: run the stage at `actionIdx`,
      stop on its error, otherwise carry on from the next index with what it
      produced. */
  lemma StepOutcome<V, E>(actions: seq<Stage<V, E>>, v: V, actionIdx: nat)
    requires actionIdx < |actions|
    ensures ProcessActions(actions, Plain(v), actionIdx).outcome ==
              match Handler(actions[actionIdx], v)
              case Err(error) => Err(error)
              case Ok(result) => ProcessActions(actions, result, actionIdx + 1).outcome
  {
  }

  /** Running the stages of `b` placed after `a` is running them on their own
      with shifted indices. */
  lemma {:induction false} ShiftStages<V, E>(a: seq<Stage<V, E>>, b: seq<Stage<V, E>>, obj: Item<V>, j: nat)
    ensures ProcessActions(a + b, obj, |a| + j).outcome == ProcessActions(b, obj, j).outcome
    decreases |b| - j
  {
    if j < |b| && obj.Plain? {
      assert (a + b)[|a| + j] == b[j];
      match Handler(b[j], obj.value)
      case Err(_) =>
      case Ok(result) =>
        ShiftStages(a, b, result, j + 1);
    }
  }

  /** Appending stages: the chain over `a + b` is the chain over `a`, then,
      unless `a` ended in an error, the chain over `b` on `a`'s result. */
  lemma {:induction false} AppendStages<V, E>(a: seq<Stage<V, E>>, b: seq<Stage<V, E>>, obj: Item<V>, actionIdx: nat)
    requires actionIdx <= |a|
    ensures var ra := ProcessActions(a, obj, actionIdx).outcome;
            ProcessActions(a + b, obj, actionIdx).outcome ==
              (if ra.Ok? then ProcessActions(b, ra.value, 0).outcome else ra)
    decreases |a| - actionIdx
  {
    if actionIdx == |a| {
      ShiftStages(a, b, obj, 0);
    } else if obj.Plain? {
      assert (a + b)[actionIdx] == a[actionIdx];
      StepOutcome(a, obj.value, actionIdx);
      StepOutcome(a + b, obj.value, actionIdx);
      if Handler(a[actionIdx], obj.value).Ok? {
        AppendStages(a, b, Handler(a[actionIdx], obj.value).value, actionIdx + 1);
      }
    }
  }

  /** With the chain started at index 0, the driver computes exactly the
      in-order composition of the stages. */
  lemma {:induction false} ChainIsComposition<V, E>(actions: seq<Stage<V, E>>, obj: Item<V>)
    ensures ProcessActions(actions, obj, 0).outcome == Compose(actions, obj)
    decreases |actions|
  {
    if |actions| > 0 {
      var prefix := actions[..|actions| - 1];
      var last := Last(actions);
      assert actions == prefix + [last];
      ChainIsComposition(prefix, obj);
      AppendStages(prefix, [last], obj, 0);
    }
  }

  /** An observer at the front of the list hands every item on unchanged. */
  lemma ObserverInFront<V, E>(observer: V -> (), b: seq<Stage<V, E>>, obj: Item<V>)
    ensures ProcessActions([Iterate(observer)] + b, obj, 0).outcome == ProcessActions(b, obj, 0).outcome
  {
    if obj.Plain? {
      assert ([Iterate(observer)] + b)[0] == Iterate(observer);
      ShiftStages([Iterate(observer)], b, obj, 0);
    }
  }

  /** A `forEach` stage inserted anywhere never changes what the chain
      produces. */
  lemma ObserverIsTransparent<V, E>(a: seq<Stage<V, E>>, b: seq<Stage<V, E>>, observer: V -> (), obj: Item<V>)
    ensures ProcessActions(a + [Iterate(observer)] + b, obj, 0).outcome == ProcessActions(a + b, obj, 0).outcome
  {
    var withObserver := [Iterate(observer)] + b;
    assert a + [Iterate(observer)] + b == a + withObserver;
    AppendStages(a, withObserver, obj, 0);
    AppendStages(a, b, obj, 0);
    var ra := ProcessActions(a, obj, 0).outcome;
    if ra.Ok? {
      ObserverInFront(observer, b, ra.value);
    }
  }

  /** A filter followed by an observer: the observer is invoked on exactly
      the items the test keeps, and with the item unchanged. */
  lemma ObserverSeesSurvivors<V, E>(test: V -> bool, observer: V -> (), x: V)
    ensures var r := ProcessActions<V, E>([Filter(test), Iterate(observer)], Plain(x), 0);
            (Call(1, x) in r.calls <==> test(x))
            && (test(x) ==> r.outcome == Ok(Plain(x)))
            && (!test(x) ==> r.outcome == Ok(Filtered) && |r.calls| == 1)
  {
    var actions: seq<Stage<V, E>> := [Filter(test), Iterate(observer)];
    var r := ProcessActions(actions, Plain(x), 0);
    if test(x) {
      assert ProcessActions(actions, Plain(x), 1).calls == [Call(1, x)];
    } else {
      assert r.calls == [Call(0, x)];
    }
  }
}
