/** One task type's life after `define`, as a sequence of the things that can
    happen to it: a `push`, a retry timer firing, or one of its running
    handlers settling. A world records, beside the type's state, everything
    observable so far: the tasks whose handlers are still running, the
    emitted signals, the start times, the started tasks and every task ever
    queued. The theorems at the end hold for every such sequence. */
module Runs {
  import opened Defaults
  import opened Signals
  import opened Lanes

  /** What can happen to a type: `push(task)` at `now`; a call of
      `tryRunTask` at `now`, from a `setTimeout` retry or from the last `.then`
      of a settled handler's chain; or the handler of the `index`-th running
      task settling with `outcome`. Settling and the re-dispatch that follows
      it are separate callbacks, so other inputs may come between them. */
  datatype Input<V> =
    | Push(task: Task<V>, now: int)
    | Retry(now: int)
    | Settle(index: nat, outcome: Outcome<V>)

  /** `startTimes[0]` is the last-start reading the run began with (0 when
      the type never started); `startTimes[k + 1]` is the time of `started[k]`. */
  datatype World<V> = World(
    lane: Lane<V>,
    inFlight: seq<Task<V>>,
    signals: seq<Signal<V>>,
    startTimes: seq<int>,
    started: seq<Task<V>>,
    admitted: seq<Task<V>>)

  /** The world right after `define(type, handler, options)` on a type whose
      handlers have all settled; tasks pushed before are still queued. */
  function Init<V>(l: Lane<V>, options: TaskOptions): World<V>
  {
    World(Redefine(l, options), [], [], [DefaultValue(l.lastStart, 0)], [], l.queue)
  }

  /** Runs the dispatch decision on `l` and records what it did. */
  function Commit<V>(w: World<V>, l: Lane<V>, emitted: seq<Signal<V>>,
                     inFlight: seq<Task<V>>, admitted: seq<Task<V>>, now: int): World<V>
  {
    var d := Dispatch(l, now);
    match d.decision
    case Ran(task) =>
      World(d.lane, inFlight + [task], w.signals + emitted + d.signals,
            w.startTimes + [now], w.started + [task], admitted)
    case _ =>
      World(d.lane, inFlight, w.signals + emitted + d.signals, w.startTimes, w.started, admitted)
  }

  /** One event: `push` enqueues and dispatches; a retry dispatches; a
      settling handler does the finish bookkeeping only. Settling a task that
      is not running cannot happen and changes nothing. */
  function Step<V>(w: World<V>, i: Input<V>): (r: World<V>)
    ensures r.lane.options == w.lane.options
    // the traces only grow
    ensures w.signals <= r.signals && w.startTimes <= r.startTimes && w.started <= r.started
    // at most one task starts per event
    ensures |w.started| <= |r.started| <= |w.started| + 1
    ensures |r.startTimes| - |w.startTimes| == |r.started| - |w.started|
  {
    match i
    case Push(task, now) =>
      Commit(w, Enqueue(w.lane, task), [], w.inFlight, w.admitted + [task], now)
    case Retry(now) =>
      Commit(w, w.lane, [], w.inFlight, w.admitted, now)
    case Settle(k, outcome) =>
      if k < |w.inFlight| then
        var f := Finish(w.lane, w.inFlight[k], outcome);
        w.(lane := f.lane, inFlight := Remove(w.inFlight, k), signals := w.signals + f.signals)
      else
        w
  }

  /** The world after the events, applied in order. */
  function Run<V>(w: World<V>, inputs: seq<Input<V>>): World<V>
    decreases |inputs|
  {
    if |inputs| == 0 then w
    else Step(Run(w, inputs[..|inputs| - 1]), inputs[|inputs| - 1])
  }

  /** The tasks pushed by the events, in order. */
  function Arrivals<V>(inputs: seq<Input<V>>): seq<Task<V>>
    decreases |inputs|
  {
    if |inputs| == 0 then []
    else
      Arrivals(inputs[..|inputs| - 1])
      + match inputs[|inputs| - 1]
        case Push(task, _) => [task]
        case _ => []
  }

  /** Consecutive times are at least `gap` apart. */
  ghost predicate Spaced(ts: seq<int>, gap: int)
  {
    forall i :: 0 <= i < |ts| - 1 ==> ts[i] + gap <= ts[i + 1]
  }

  /** No two tasks share a promise. */
  ghost predicate DistinctIds<V>(s: seq<Task<V>>)
  {
    forall i, j :: 0 <= i < j < |s| ==> s[i].id != s[j].id
  }

  /** What a type's state and its history agree on at every point of a run. */
  ghost predicate HistoryOk<V>(l: Lane<V>, inFlight: seq<Task<V>>, signals: seq<Signal<V>>,
                                startTimes: seq<int>, started: seq<Task<V>>, admitted: seq<Task<V>>)
  {
    && l.counter == |inFlight|
    && AtMost(l.counter, MaxTasks(l.options))
    && Alternates(Flags(signals), l.running)
    && |startTimes| == |started| + 1
    && startTimes[|startTimes| - 1] == DefaultValue(l.lastStart, 0)
    && Spaced(startTimes, IntervalMs(l.options))
    && started + l.queue == admitted
  }

  ghost predicate Inv<V>(w: World<V>)
  {
    HistoryOk(w.lane, w.inFlight, w.signals, w.startTimes, w.started, w.admitted)
  }

  /** A dispatch keeps `queueRunning` / `queueDrained` alternating in step
      with the flag. */
  lemma DispatchKeepsAlternation<V>(l: Lane<V>, before: seq<Signal<V>>, now: int)
    requires Alternates(Flags(before), l.running)
    ensures var d := Dispatch(l, now);
      Alternates(Flags(before + d.signals), d.lane.running)
  {
    var d := Dispatch(l, now);
    DispatchFlags(l, now);
    FlagsAppend(before, d.signals);
    if d.lane.running != l.running {
      FlipKeepsAlternation(Flags(before), l.running);
    }
  }

  /** A start at least `gap` after the last recorded one keeps the times spaced. */
  lemma StartKeepsSpacing(ts: seq<int>, gap: int, now: int)
    requires Spaced(ts, gap) && |ts| > 0 && ts[|ts| - 1] + gap <= now
    ensures Spaced(ts + [now], gap)
  {
    var ts' := ts + [now];
    forall i | 0 <= i < |ts'| - 1 ensures ts'[i] + gap <= ts'[i + 1] {
      if i < |ts| - 1 {
        assert ts'[i] == ts[i] && ts'[i + 1] == ts[i + 1];
      }
    }
  }

  lemma CommitKeepsInv<V>(w: World<V>, l: Lane<V>, emitted: seq<Signal<V>>,
                          inFlight: seq<Task<V>>, admitted: seq<Task<V>>, now: int)
    requires HistoryOk(l, inFlight, w.signals + emitted, w.startTimes, w.started, admitted)
    ensures Inv(Commit(w, l, emitted, inFlight, admitted, now))
  {
    var d := Dispatch(l, now);
    DispatchKeepsAlternation(l, w.signals + emitted, now);
    match d.decision
    case Ran(task) =>
      assert l.queue == [task] + d.lane.queue;
      assert (w.started + [task]) + d.lane.queue == w.started + l.queue;
      StartKeepsSpacing(w.startTimes, IntervalMs(l.options), now);
    case _ =>
  }

  lemma StepKeepsInv<V>(w: World<V>, i: Input<V>)
    requires Inv(w)
    ensures Inv(Step(w, i))
    ensures Step(w, i).admitted == w.admitted + match i case Push(task, _) => [task] case _ => []
  {
    match i
    case Push(task, now) =>
      var l := Enqueue(w.lane, task);
      assert w.signals + [] == w.signals;
      assert w.started + l.queue == w.admitted + [task];
      CommitKeepsInv(w, l, [], w.inFlight, w.admitted + [task], now);
    case Retry(now) =>
      assert w.signals + [] == w.signals;
      CommitKeepsInv(w, w.lane, [], w.inFlight, w.admitted, now);
    case Settle(k, outcome) =>
      if k < |w.inFlight| {
        var f := Finish(w.lane, w.inFlight[k], outcome);
        FinishEmitsNoFlag(w.lane, w.inFlight[k], outcome);
        FlagsAppend(w.signals, f.signals);
        assert Flags(w.signals) + [] == Flags(w.signals);
      }
  }

  lemma {:induction false} RunKeepsInv<V>(w: World<V>, inputs: seq<Input<V>>)
    requires Inv(w)
    ensures var r := Run(w, inputs);
      && Inv(r)
      && r.lane.options == w.lane.options
      && r.admitted == w.admitted + Arrivals(inputs)
      && w.startTimes <= r.startTimes
    decreases |inputs|
  {
    if |inputs| != 0 {
      var prefix := inputs[..|inputs| - 1];
      RunKeepsInv(w, prefix);
      StepKeepsInv(Run(w, prefix), inputs[|inputs| - 1]);
    }
  }

  /** Everything below follows from this: a run that starts right after
      `define` keeps the type's state consistent with its history. */
  lemma {:induction false} RunFromDefine<V>(l0: Lane<V>, options: TaskOptions, inputs: seq<Input<V>>)
    ensures var w := Run(Init(l0, options), inputs);
      && Inv(w)
      && w.lane.options == options
      && w.admitted == l0.queue + Arrivals(inputs)
      && w.startTimes[0] == DefaultValue(l0.lastStart, 0)
  {
    var w0 := Init(l0, options);
    assert [] + l0.queue == l0.queue;
    assert Flags<V>([]) == [];
    RunKeepsInv(w0, inputs);
  }

  /** The running counter always equals the number of handlers still running
      and never exceeds the concurrency cap. */
  lemma {:induction false} CounterWithinCap<V>(l0: Lane<V>, options: TaskOptions, inputs: seq<Input<V>>)
    ensures var w := Run(Init(l0, options), inputs);
      0 <= w.lane.counter == |w.inFlight| && AtMost(w.lane.counter, MaxTasks(options))
  {
    RunFromDefine(l0, options, inputs);
  }

  /** With a concurrency of 1, no two tasks of the type ever run at once. */
  lemma {:induction false} OneAtATime<V>(l0: Lane<V>, options: TaskOptions, inputs: seq<Input<V>>)
    requires options.concurrency == Some(Finite(1))
    ensures |Run(Init(l0, options), inputs).inFlight| <= 1
  {
    CounterWithinCap(l0, options, inputs);
  }

  /** Tasks start in the order they were queued: the started tasks followed by
      the still pending ones are exactly the tasks queued before `define`
      followed by the pushed ones. */
  lemma {:induction false} StartsInPushOrder<V>(l0: Lane<V>, options: TaskOptions, inputs: seq<Input<V>>)
    ensures var w := Run(Init(l0, options), inputs);
      w.started + w.lane.queue == l0.queue + Arrivals(inputs)
  {
    RunFromDefine(l0, options, inputs);
  }

  /** When every queued task has its own promise, no task starts twice and no
      started task is still pending. */
  lemma {:induction false} StartsEachTaskOnce<V>(l0: Lane<V>, options: TaskOptions, inputs: seq<Input<V>>)
    requires DistinctIds(l0.queue + Arrivals(inputs))
    ensures var w := Run(Init(l0, options), inputs);
      && DistinctIds(w.started)
      && forall i, j :: 0 <= i < |w.started| && 0 <= j < |w.lane.queue| ==> w.started[i].id != w.lane.queue[j].id
  {
    var w := Run(Init(l0, options), inputs);
    StartsInPushOrder(l0, options, inputs);
    var all := w.started + w.lane.queue;
    forall i, j | 0 <= i < j < |w.started| ensures w.started[i].id != w.started[j].id {
      assert all[i] == w.started[i] && all[j] == w.started[j];
    }
    forall i, j | 0 <= i < |w.started| && 0 <= j < |w.lane.queue|
      ensures w.started[i].id != w.lane.queue[j].id
    {
      assert all[i] == w.started[i] && all[|w.started| + j] == w.lane.queue[j];
    }
  }

  lemma {:induction false} SpacedApart(ts: seq<int>, gap: nat, i: nat, j: nat)
    requires Spaced(ts, gap) && i <= j < |ts|
    ensures ts[i] + (j - i) * gap <= ts[j]
    decreases j - i
  {
    if i < j {
      SpacedApart(ts, gap, i, j - 1);
      assert ts[j - 1] + gap <= ts[j];
      assert (j - i) * gap == (j - 1 - i) * gap + gap;
    }
  }

  /** Starts are spaced by the interval: the first start of the run comes at
      least one interval after the last start before it (time 0 if none),
      and the k-th start after any earlier one comes at least k intervals
      after it. */
  lemma {:induction false} StartsSpacedByInterval<V>(l0: Lane<V>, options: TaskOptions, inputs: seq<Input<V>>)
    ensures var w := Run(Init(l0, options), inputs);
      && |w.startTimes| == |w.started| + 1
      && w.startTimes[0] == DefaultValue(l0.lastStart, 0)
      && forall i, j :: 0 <= i < j < |w.startTimes| ==>
           w.startTimes[i] + (j - i) * IntervalMs(options) <= w.startTimes[j]
  {
    var w := Run(Init(l0, options), inputs);
    RunFromDefine(l0, options, inputs);
    forall i, j | 0 <= i < j < |w.startTimes|
      ensures w.startTimes[i] + (j - i) * IntervalMs(options) <= w.startTimes[j]
    {
      SpacedApart(w.startTimes, IntervalMs(options), i, j);
    }
  }

  /** `queueRunning` and `queueDrained` strictly alternate, starting with
      `queueRunning`, and the flag tells which of them came last. */
  lemma {:induction false} QueueSignalsAlternate<V>(l0: Lane<V>, options: TaskOptions, inputs: seq<Input<V>>)
    ensures var w := Run(Init(l0, options), inputs);
      Alternates(Flags(w.signals), w.lane.running)
  {
    RunFromDefine(l0, options, inputs);
  }


  /** The worlds of the scenario below: a cap of 1, an empty queue at
      `define`, then task A (data `x`) and later B (data `y`) pushed, all at
      time 0. */
  function Scenario<V>(k: nat, x: V, y: V): World<V>
  {
    var options := TaskOptions(Some(Finite(1)), None);
    var a := Task(0, x);
    var b := Task(1, y);
    var announced := [Signal(QueueRunning, None), Signal(Started, Some(x))];
    var settled := announced + [Signal(Finished, Some(x)), Signal(Success, Some(x))];
    match k
    case 0 => World(Lane(options, [], 0, None, false), [], [], [0], [], [])
    case 1 => World(Lane(options, [], 1, Some(0), true), [a], announced, [0, 0], [a], [a])
    case 2 => World(Lane(options, [], 0, Some(0), true), [], settled, [0, 0], [a], [a])
    case 3 => World(Lane(options, [], 1, Some(0), true), [b], settled + [Signal(Started, Some(y))],
                    [0, 0, 0], [a, b], [a, b])
    case _ => World(Lane(options, [], 1, Some(0), false), [b],
                    settled + [Signal(Started, Some(y)), Signal(QueueDrained, None)],
                    [0, 0, 0], [a, b], [a, b])
  }

  /** The inputs of the scenario: A is pushed and starts at once; A's handler
      returns `r`; its caller pushes B, which starts at once; then the settled
      chain's last `.then` dispatches again. */
  function ScenarioInputs<V>(x: V, y: V, r: V): seq<Input<V>>
  {
    [Push(Task(0, x), 0), Settle(0, Returned(r)), Push(Task(1, y), 0), Retry(0)]
  }

  lemma ScenarioStarts<V>(x: V, y: V, r: V)
    ensures Init(Lane(TaskOptions(Some(Finite(1)), None), [], 0, None, false),
                 TaskOptions(Some(Finite(1)), None)) == Scenario(0, x, y)
    ensures Step(Scenario(0, x, y), ScenarioInputs(x, y, r)[0]) == Scenario(1, x, y)
  {
    var w := Scenario(0, x, y);
    var l := Enqueue(w.lane, Task(0, x));
    assert Dispatch(l, 0).decision == Ran(Task(0, x));
    assert w.signals + [] + Dispatch(l, 0).signals == Scenario(1, x, y).signals;
  }

  lemma ScenarioSettles<V>(x: V, y: V, r: V)
    ensures Step(Scenario(1, x, y), ScenarioInputs(x, y, r)[1]) == Scenario(2, x, y)
  {
    var w := Scenario(1, x, y);
    assert Remove(w.inFlight, 0) == [];
  }

  lemma ScenarioPushes<V>(x: V, y: V, r: V)
    ensures Step(Scenario(2, x, y), ScenarioInputs(x, y, r)[2]) == Scenario(3, x, y)
  {
    var w := Scenario(2, x, y);
    var l := Enqueue(w.lane, Task(1, y));
    assert Dispatch(l, 0).decision == Ran(Task(1, y));
    assert w.signals + [] + Dispatch(l, 0).signals == Scenario(3, x, y).signals;
  }

  lemma ScenarioDrains<V>(x: V, y: V, r: V)
    ensures Step(Scenario(3, x, y), ScenarioInputs(x, y, r)[3]) == Scenario(4, x, y)
  {
    var w := Scenario(3, x, y);
    assert Dispatch(w.lane, 0).decision == Drained;
    assert w.signals + [] + Dispatch(w.lane, 0).signals == Scenario(4, x, y).signals;
  }

  lemma ScenarioEnds<V>(x: V, y: V)
    ensures var w := Scenario(4, x, y);
      && w.inFlight == [Task(1, y)]
      && !w.lane.running
      && w.signals == [Signal(QueueRunning, None), Signal(Started, Some(x)),
                       Signal(Finished, Some(x)), Signal(Success, Some(x)),
                       Signal(Started, Some(y)), Signal(QueueDrained, None)]
  {
  }

  /** Four events in a row, one world after another. */
  lemma RunFour<V>(ws: seq<World<V>>, inputs: seq<Input<V>>)
    requires |ws| == 5 && |inputs| == 4
    requires forall k :: 0 <= k < 4 ==> Step(ws[k], inputs[k]) == ws[k + 1]
    ensures Run(ws[0], inputs) == ws[4]
  {
    assert inputs[..0] == [];
    assert inputs[..1][..0] == [] && inputs[..2][..1] == inputs[..1];
    assert inputs[..3][..2] == inputs[..2] && inputs[..4][..3] == inputs[..3] && inputs[..4] == inputs;
    assert Run(ws[0], inputs[..1]) == ws[1];
    assert Run(ws[0], inputs[..2]) == ws[2];
    assert Run(ws[0], inputs[..3]) == ws[3];
  }

  /** Settling and the re-dispatch that follows are separate events, so
      another input can come between them. With a cap of 1 and a fresh type,
      A is pushed and starts; A's caller pushes B after A settles: B starts at once, and the re-dispatch from A's chain
      then emits `queueDrained` while B is running. */
  lemma DrainedWhileRunning<V>(x: V, y: V, r: V)
    ensures var options := TaskOptions(Some(Finite(1)), None);
      var w := Run(Init(Lane(options, [], 0, None, false), options), ScenarioInputs(x, y, r));
      && w.inFlight == [Task(1, y)]
      && !w.lane.running
      && w.signals == [Signal(QueueRunning, None), Signal(Started, Some(x)),
                       Signal(Finished, Some(x)), Signal(Success, Some(x)),
                       Signal(Started, Some(y)), Signal(QueueDrained, None)]
  {
    ScenarioStarts(x, y, r);
    ScenarioSettles(x, y, r);
    ScenarioPushes(x, y, r);
    ScenarioDrains(x, y, r);
    var ws := [Scenario(0, x, y), Scenario(1, x, y), Scenario(2, x, y), Scenario(3, x, y), Scenario(4, x, y)];
    RunFour(ws, ScenarioInputs(x, y, r));
    ScenarioEnds(x, y);
    assert ws[0] == Scenario(0, x, y) && ws[4] == Scenario(4, x, y);
  }
}
