/** The state one task type has in the scheduler, and the pure step functions
    that specify what `tryRunTask`, a task's completion, `push` and `define`
    do to it. The class in TaskQueues is proved against these. */
module Lanes {
  import opened Defaults
  import opened Signals

  /** A queued item: the pushed data and the identity of the promise `push`
      returned for it (its resolve/reject pair). */
  datatype Task<V> = Task(id: nat, data: V)

  /** How a handler invocation ended: it returned a value or threw. */
  datatype Outcome<V> = Returned(value: V) | Threw(error: V)

  /** What one dispatch decision did: started the given task, asked to be
      called again after `waitTime` milliseconds, hit the concurrency cap,
      reported the queue drained, or nothing at all. */
  datatype Decision<V> =
    | Ran(task: Task<V>)
    | Deferred(waitTime: int)
    | Blocked
    | Drained
    | Idle

  /** One type's slice of the six maps: its options, its pending items, its
      running counter, the time of its last start (None before the first)
      and its queue-active flag. */
  datatype Lane<V> = Lane(
    options: TaskOptions,
    queue: seq<Task<V>>,
    counter: int,
    lastStart: Option<int>,
    running: bool)

  /** The lane after a dispatch, the signals it emitted, and its decision. */
  datatype Dispatched<V> = Dispatched(lane: Lane<V>, signals: seq<Signal<V>>, decision: Decision<V>)

  /** The lane after a completion, and the signals it emitted. */
  datatype Completion<V> = Completion(lane: Lane<V>, signals: seq<Signal<V>>)

  /** The sequence with its `k`-th element taken out. */
  function Remove<T>(s: seq<T>, k: nat): (r: seq<T>)
    requires k < |s|
    ensures |r| == |s| - 1
    ensures forall i :: 0 <= i < k ==> r[i] == s[i]
    ensures forall i :: k <= i < |r| ==> r[i] == s[i + 1]
  {
    s[..k] + s[k + 1..]
  }

  /** `waitTime` for this lane at time `now`. */
  function Wait<V>(l: Lane<V>, now: int): int
  {
    RemainingInterval(l.options, l.lastStart, now)
  }

  /** The dispatch decision of `tryRunTask` at time `now`. */
  function Dispatch<V>(l: Lane<V>, now: int): (r: Dispatched<V>)
    ensures r.lane.options == l.options
    // a task starts exactly when the queue is non-empty, the wait is over and there is room
    ensures r.decision.Ran? <==> |l.queue| > 0 && Wait(l, now) <= 0 && Below(l.counter, MaxTasks(l.options))
    // a start takes the head, and only the head, of the queue
    ensures r.decision.Ran? ==>
      && r.decision.task == l.queue[0]
      && r.lane.queue == l.queue[1..]
      && r.lane.counter == l.counter + 1
      && r.lane.lastStart == Some(now)
      && r.lane.running
      && r.signals == (if l.running then [] else [Signal(QueueRunning, None)])
                      + [Signal(Started, Some(l.queue[0].data))]
    // a start keeps the minimum spacing after the previous one
    ensures r.decision.Ran? ==> DefaultValue(l.lastStart, 0) + IntervalMs(l.options) <= now
    // a delay changes nothing and asks for a retry exactly when the wait is over
    ensures r.decision.Deferred? <==> |l.queue| > 0 && Wait(l, now) > 0
    ensures r.decision.Deferred? ==>
      && r.decision.waitTime == Wait(l, now) > 0
      && Wait(l, now + r.decision.waitTime) == 0
      && r.lane == l
      && r.signals == [Signal(Delayed, None)]
    // at the cap nothing changes and no retry is asked for
    ensures r.decision.Blocked? <==> |l.queue| > 0 && Wait(l, now) <= 0 && !Below(l.counter, MaxTasks(l.options))
    ensures r.decision.Blocked? ==> r.lane == l && r.signals == [Signal(ConcurrencyReached, None)]
    // an empty queue clears a set flag
    ensures r.decision.Drained? <==> |l.queue| == 0 && l.running
    ensures r.decision.Drained? ==> r.lane == l.(running := false) && r.signals == [Signal(QueueDrained, None)]
    ensures r.decision.Idle? ==> r.lane == l && r.signals == []
    // the cap is never exceeded
    ensures AtMost(l.counter, MaxTasks(l.options)) ==> AtMost(r.lane.counter, MaxTasks(l.options))
  {
    var waitTime := Wait(l, now);
    if |l.queue| > 0 then
      if waitTime <= 0 then
        if Below(l.counter, MaxTasks(l.options)) then
          var task := l.queue[0];
          var announced := if l.running then [] else [Signal(QueueRunning, None)];
          var l' := l.(queue := l.queue[1..], counter := l.counter + 1, lastStart := Some(now), running := true);
          Dispatched(l', announced + [Signal(Started, Some(task.data))], Ran(task))
        else
          Dispatched(l, [Signal(ConcurrencyReached, None)], Blocked)
      else
        Dispatched(l, [Signal(Delayed, None)], Deferred(waitTime))
    else if l.running then
      Dispatched(l.(running := false), [Signal(QueueDrained, None)], Drained)
    else
      Dispatched(l, [], Idle)
  }

  /** The bookkeeping of a completed task (`markSuccess` / `markFailed`): the
      counter drops by one and `finished` then `success` or `failed` are
      emitted with the task's data; nothing else changes. */
  function Finish<V>(l: Lane<V>, task: Task<V>, outcome: Outcome<V>): (r: Completion<V>)
    ensures r.lane == l.(counter := l.counter - 1)
    ensures |r.signals| == 2
    ensures r.signals[0] == Signal(Finished, Some(task.data))
    ensures r.signals[1].payload == Some(task.data)
    ensures r.signals[1].name == Success <==> outcome.Returned?
    ensures r.signals[1].name == Failed <==> outcome.Threw?
  {
    var last := if outcome.Returned? then Success else Failed;
    Completion(l.(counter := l.counter - 1),
             [Signal(Finished, Some(task.data)), Signal(last, Some(task.data))])
  }

  /** `push` appends one task at the end of the queue and touches nothing else. */
  function Enqueue<V>(l: Lane<V>, task: Task<V>): (r: Lane<V>)
    ensures |r.queue| == |l.queue| + 1
    ensures r.queue[..|l.queue|] == l.queue && r.queue[|l.queue|] == task
    ensures r.(queue := l.queue) == l
  {
    l.(queue := l.queue + [task])
  }

  /** `define` on an already known type: new options, counter 0, flag clear;
      the pending items and the last-start time are kept. */
  function Redefine<V>(l: Lane<V>, options: TaskOptions): (r: Lane<V>)
    ensures r.queue == l.queue && r.lastStart == l.lastStart
    ensures r.options == options && r.counter == 0 && !r.running
  {
    l.(options := options, counter := 0, running := false)
  }

  /** Signals a completion emits never touch the running flag. */
  lemma FinishEmitsNoFlag<V>(l: Lane<V>, task: Task<V>, outcome: Outcome<V>)
    ensures Flags(Finish(l, task, outcome).signals) == []
  {
    var s := Finish(l, task, outcome).signals;
    assert s == [s[0]] + [s[1]];
    FlagsAppend([s[0]], [s[1]]);
    assert [s[0]][1..] == [] && [s[1]][1..] == [];
  }

  /** A dispatch flips the flag only with the matching signal: `queueRunning`
      when it sets the flag, `queueDrained` when it clears it. */
  lemma DispatchFlags<V>(l: Lane<V>, now: int)
    ensures var r := Dispatch(l, now);
      Flags(r.signals) == if r.lane.running == l.running then [] else [r.lane.running]
  {
    var r := Dispatch(l, now);
    match r.decision
    case Ran(_) =>
      var started := [Signal(Started, Some(l.queue[0].data))];
      if !l.running {
        FlagsAppend([Signal(QueueRunning, None)], started);
      }
    case _ =>
  }
}
