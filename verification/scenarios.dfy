/** Concrete runs of small pipelines over integers. */
module Scenarios {
  import opened Values
  import opened Pipeline
  import opened Runtime
  import opened Properties
  import Chain

  function Increment(x: int): Item<int>
  {
    Plain(x + 1)
  }

  function Sum(acc: int, x: Item<int>): int
  {
    acc + (if x.Plain? then x.value else 0)
  }

  /** `map(x => x + 1).reduce((acc, x) => acc + x, 0)` with one end handler
      `h`, concurrency 1. */
  function IncrementThenSum(h: nat): (s: EnumStream<int, string, int, nat>)
    ensures Fresh(s) && s.concurrency == 1 && s.endHandlers == [h]
    ensures |s.actions| == 1 && s.actions[0].Map?
    ensures s.reducer.Some? && s.reducer.value.value == 0
  {
    var built := Pipeline.Map(Create<int, string, int, nat>(None), Increment);
    End(Reduce(built.value, Sum, 0), h)
  }

  /** Item `x` is admitted, and its chain completes. */
  function AdmitThenComplete(x: int): seq<Event<int>>
  {
    [Data(Plain(x)), Complete(0)]
  }

  /** The items 1, 2, 3 are admitted and completed one at a time, then the
      source ends. */
  function OneTwoThree(): seq<Event<int>>
  {
    AdmitThenComplete(1) + AdmitThenComplete(2) + AdmitThenComplete(3) + [SourceEnd]
  }

  /** The state of `IncrementThenSum` between items: nothing in flight or
      outstanding, the source flowing, the accumulator at `total`. */
  ghost predicate Idle(s: EnumStream<int, string, int, nat>, h: nat, total: int, completed: seq<Item<int>>)
  {
    && s.actions == IncrementThenSum(h).actions
    && s.endHandlers == [h]
    && s.concurrency == 1
    && s.reducer == Some(Reducer(Sum, total))
    && s.completed == completed
    && s.numWorkers == 0 && s.inFlight == []
    && s.numRunningAsyncErrorHandlers == 0
    && !s.source.ended && !s.endHandlersCalled
  }

  lemma OneItem(s: EnumStream<int, string, int, nat>, h: nat, total: int, completed: seq<Item<int>>, x: int)
    requires Idle(s, h, total, completed)
    ensures Idle(Run(s, AdmitThenComplete(x)), h, total + x, completed + [Plain(x)])
  {
    var s1 := OnObject(s, Plain(x));
    assert s1.inFlight == [Plain(x)];
    assert ChainOutcome(s1, 0) == Ok(Plain(x + 1));
    var s2 := OnComplete(s1, 0, Ok(Plain(x + 1)));
    assert Step(s1, Complete(0)) == s2;
    var last: seq<Event<int>> := [Complete(0)];
    assert Run(s1, last) == s2 by {
      assert last[1..] == [];
    }
    assert AdmitThenComplete(x)[1..] == [Complete(0)];
    assert Run(s, AdmitThenComplete(x)) == s2;
    assert s2.reducer == Some(Reducer(Sum, total + x));
  }

  /** After the three items, the pipeline is idle with the accumulator at
      1 + 2 + 3. */
  lemma ThreeItems(h: nat)
    ensures Idle(Run(IncrementThenSum(h), OneTwoThree()[..6]), h, 6, [Plain(1), Plain(2), Plain(3)])
  {
    var s0 := IncrementThenSum(h);
    var e1, e2, e3 := AdmitThenComplete(1), AdmitThenComplete(2), AdmitThenComplete(3);
    assert OneTwoThree()[..6] == e1 + e2 + e3;
    OneItem(s0, h, 0, [], 1);
    var s1 := Run(s0, e1);
    OneItem(s1, h, 1, [Plain(1)], 2);
    var s2 := Run(s1, e2);
    OneItem(s2, h, 3, [Plain(1), Plain(2)], 3);
    RunAppend(s0, e1, e2);
    RunAppend(s0, e1 + e2, e3);
  }

  /** The source ending on an idle pipeline fires the end handlers with the
      accumulator. */
  lemma EndWhenIdle(s: EnumStream<int, string, int, nat>, h: nat, total: int, completed: seq<Item<int>>)
    requires Idle(s, h, total, completed)
    ensures var r := Run(s, [SourceEnd]);
            && r.completed == completed
            && r.reducer == Some(Reducer(Sum, total))
            && r.endHandlersCalled
            && FinalValue(r) == Some(total)
  {
    var end: seq<Event<int>> := [SourceEnd];
    assert end[1..] == [];
    assert Run(s, end) == Step(s, SourceEnd);
  }

  /** Each item's chain produces its successor, yet the reducer folds the
      items as they arrived: the end handler receives 1 + 2 + 3 = 6, not
      2 + 3 + 4 = 9. */
  lemma ReducerSeesOriginalItems(h: nat)
    ensures var s := Run(IncrementThenSum(h), OneTwoThree());
            && s.completed == [Plain(1), Plain(2), Plain(3)]
            && s.reducer == Some(Reducer(Sum, 6))
            && s.endHandlersCalled
            && EndEffects(s.effects) == [EndHandlerCalled(h, Some(6))]
  {
    var s0 := IncrementThenSum(h);
    var items := OneTwoThree()[..6];
    var end: seq<Event<int>> := [SourceEnd];
    ThreeItems(h);
    assert OneTwoThree() == items + end;
    RunAppend(s0, items, end);
    var s := Run(s0, OneTwoThree());
    assert s == Run(Run(s0, items), end);
    EndWhenIdle(Run(s0, items), h, 6, [Plain(1), Plain(2), Plain(3)]);
    assert s.endHandlersCalled && FinalValue(s) == Some(6);
    EndHandlersRunAtMostOnce(s0, OneTwoThree());
    assert EndEffects(s.effects) == EndCalls([h], Some(6));
    var calls := EndCalls<string, int, nat>([h], Some(6));
    assert calls == [EndHandlerCalled(h, Some(6))];
  }
}
