/** The whole state of the closure `createTaskQueue` builds, as one value: the
    six per-type maps, the trace of emitted events, the promise each `push`
    returned, and the items whose handler is still running. Each step the
    scheduler takes is a function on this value, and each keeps the
    bookkeeping consistent. */
module Scheduler {
  import opened Defaults
  import opened Signals
  import opened Lanes
  import opened Bookkeeping

  datatype Env<V> = Env(
    handlers: map<TaskType, Option<HandlerId>>,
    taskOptions: map<TaskType, TaskOptions>,
    tasks: map<TaskType, seq<Task<V>>>,
    counters: map<TaskType, int>,
    starts: map<TaskType, int>,
    running: map<TaskType, bool>,
    // everything emitted so far, in order
    events: seq<Event<V>>,
    // the promise returned for item `id` is `promises[id]`
    promises: seq<Settlement<V>>,
    // the items whose handler is still running, per type, in start order
    active: map<TaskType, seq<Task<V>>>)

  /** Proof-only records: where each item is, how many of a type's handlers
      were already running when it was last defined, and the length of the
      trace at that moment. */
  datatype Ledger = Ledger(place: seq<Place>, stale: map<TaskType, int>, since: map<TaskType, nat>)

  ghost predicate Consistent<V>(e: Env<V>, g: Ledger)
  {
    && KeysOk(e.handlers, e.taskOptions, e.counters, e.running, g.stale, g.since, e.tasks, e.starts, e.active)
    && QueuesOk(e.tasks, g.place)
    && ActiveOk(e.active, g.place)
    && PromisesOk(g.place, e.promises)
    && CountersOk(e.handlers, e.taskOptions, e.counters, g.stale, e.active)
    && FlagsMatch(e.events, g.since, e.running)
  }

  /** `define` has been called for `t`. */
  predicate Known<V>(e: Env<V>, t: TaskType)
  {
    t in e.taskOptions && t in e.counters && t in e.running
  }

  /** `starts[type]`, which is undefined before the type's first start. */
  function StartOf<V>(e: Env<V>, t: TaskType): Option<int>
  {
    if t in e.starts then Some(e.starts[t]) else None
  }

  /** Type `t`'s slice of the maps. */
  function LaneOf<V>(e: Env<V>, t: TaskType): Lane<V>
    requires Known(e, t)
  {
    Lane(e.taskOptions[t], Items(e.tasks, t), e.counters[t], StartOf(e, t), e.running[t])
  }

  /** Outside type `t`'s slice nothing differs: the handlers, the options and
      every other type's queue, counter, start time, flag and running items. */
  ghost predicate Untouched<V>(e0: Env<V>, e1: Env<V>, t: TaskType)
  {
    && e1.handlers == e0.handlers
    && e1.taskOptions == e0.taskOptions
    && e1.tasks - {t} == e0.tasks - {t}
    && e1.counters - {t} == e0.counters - {t}
    && e1.starts - {t} == e0.starts - {t}
    && e1.running - {t} == e0.running - {t}
    && e1.active - {t} == e0.active - {t}
  }

  /** A step confined to `t` leaves every other type's slice as it was. */
  lemma UntouchedLanes<V>(e0: Env<V>, e1: Env<V>, t: TaskType, u: TaskType)
    requires Untouched(e0, e1, t) && u != t && Known(e0, u)
    ensures Known(e1, u) && LaneOf(e1, u) == LaneOf(e0, u)
    ensures Items(e1.active, u) == Items(e0.active, u)
  {
    assert u in e0.counters - {t} && u in e0.running - {t};
    assert (e1.counters - {t})[u] == e1.counters[u];
    assert (e1.running - {t})[u] == e1.running[u];
    assert u in e1.tasks <==> u in e0.tasks - {t};
    if u in e1.tasks {
      assert (e1.tasks - {t})[u] == e1.tasks[u];
    }
    assert u in e1.starts <==> u in e0.starts - {t};
    if u in e1.starts {
      assert (e1.starts - {t})[u] == e1.starts[u];
    }
    assert u in e1.active <==> u in e0.active - {t};
    if u in e1.active {
      assert (e1.active - {t})[u] == e1.active[u];
    }
  }

  /** A type's counter never exceeds its cap. It counts the handlers started
      since the type's last `define`: when none was running at that
      `define`, it is exactly the number running, and so never negative. */
  lemma CounterBounds<V>(e: Env<V>, g: Ledger, t: TaskType)
    requires Consistent(e, g) && t in e.handlers
    ensures t in e.counters && t in e.taskOptions && t in g.stale
    ensures AtMost(e.counters[t], MaxTasks(e.taskOptions[t]))
    ensures e.counters[t] + g.stale[t] == |Items(e.active, t)|
    ensures g.stale[t] == 0 ==> 0 <= e.counters[t] == |Items(e.active, t)|
  {
  }

  /** Each item is in one place only: no item is both queued and running, so
      none starts twice, and the promise of every queued or running item is
      still pending, so none is settled before its handler settles. */
  lemma OnePlaceEach<V>(e: Env<V>, g: Ledger, u: TaskType, i: nat, v: TaskType, j: nat)
    requires Consistent(e, g)
    requires u in e.tasks && i < |e.tasks[u]| && v in e.active && j < |e.active[v]|
    ensures e.tasks[u][i].id != e.active[v][j].id
    ensures e.tasks[u][i].id < |e.promises| && e.promises[e.tasks[u][i].id].Pending?
    ensures e.active[v][j].id < |e.promises| && e.promises[e.active[v][j].id].Pending?
  {
  }

  /** `taskQueue.emit("name:type", payload)`. */
  function Emitted<V>(e: Env<V>, t: TaskType, s: Signal<V>): Env<V>
  {
    e.(events := e.events + [Event(t, s)])
  }

  /** `markQueueRunning` (flag set) or `markQueueDrained` (flag cleared):
      the event, then the flag. */
  function Flipped<V>(e: Env<V>, t: TaskType, flag: bool): Env<V>
  {
    var e' := Emitted(e, t, Signal(if flag then QueueRunning else QueueDrained, None));
    e'.(running := e'.running[t := flag])
  }

  /** `markStarted`: one more running, the start time, `started`. */
  function StartMarked<V>(e: Env<V>, t: TaskType, task: Task<V>, now: int): Env<V>
    requires t in e.counters
  {
    var e' := e.(counters := e.counters[t := e.counters[t] + 1]);
    Emitted(e'.(starts := e'.starts[t := now]), t, Signal(Started, Some(task.data)))
  }

  /** `markFinished`: one fewer running, `finished`. */
  function FinishMarked<V>(e: Env<V>, t: TaskType, task: Task<V>): Env<V>
    requires t in e.counters
  {
    Emitted(e.(counters := e.counters[t := e.counters[t] - 1]), t, Signal(Finished, Some(task.data)))
  }

  /** `markSuccess` (`ok`) or `markFailed`: `markFinished`, then `success`
      or `failed`. */
  function OutcomeMarked<V>(e: Env<V>, t: TaskType, task: Task<V>, ok: bool): Env<V>
    requires t in e.counters
  {
    Emitted(FinishMarked(e, t, task), t, Signal(if ok then Success else Failed, Some(task.data)))
  }

  /** `tasks[type].shift()`. */
  function Shifted<V>(e: Env<V>, t: TaskType): Env<V>
    requires t in e.tasks && |e.tasks[t]| > 0
  {
    e.(tasks := e.tasks[t := e.tasks[t][1..]])
  }

  /** The handler has been called on `task` and has not settled yet. */
  function Invoked<V>(e: Env<V>, t: TaskType, task: Task<V>): Env<V>
  {
    e.(active := e.active[t := Items(e.active, t) + [task]])
  }

  /** What `runTask` does before the handler settles: the head of the queue
      is shifted off and started, and its handler is running. */
  function Launched<V>(e: Env<V>, t: TaskType, now: int): Env<V>
    requires t in e.tasks && |e.tasks[t]| > 0 && t in e.counters
  {
    var task := e.tasks[t][0];
    Invoked(StartMarked(Shifted(e, t), t, task, now), t, task)
  }

  /** What `tryRunTask(type)` does to the closure at time `now`: start the
      head when the wait is over and there is room, otherwise announce the
      cap or the delay; with an empty queue, clear a set flag. */
  function Tried<V>(e: Env<V>, t: TaskType, now: int): Env<V>
    requires Known(e, t) && t in e.tasks
  {
    var maxTasks := MaxTasks(e.taskOptions[t]);
    var waitTime := RemainingInterval(e.taskOptions[t], StartOf(e, t), now);
    if |e.tasks[t]| > 0 then
      if waitTime <= 0 then
        if Below(e.counters[t], maxTasks) then
          Launched(if e.running[t] then e else Flipped(e, t, true), t, now)
        else
          Emitted(e, t, Signal(ConcurrencyReached, None))
      else
        Emitted(e, t, Signal(Delayed, None))
    else if e.running[t] then
      Flipped(e, t, false)
    else
      e
  }

  /** The `k`-th running handler of `t` has settled. */
  function Retired<V>(e: Env<V>, t: TaskType, k: nat): Env<V>
    requires t in e.active && k < |e.active[t]|
  {
    e.(active := e.active[t := Remove(e.active[t], k)])
  }

  /** `task.resolve(result)` or `task.reject(err)` on item `id`'s promise. */
  function Fulfilled<V>(e: Env<V>, id: nat, s: Settlement<V>): Env<V>
    requires id < |e.promises|
  {
    e.(promises := e.promises[id := s])
  }

  /** What the continuation of `runTask` does when the `k`-th running handler
      of `t` settles, before it calls `tryRunTask` again: `markSuccess` and
      `resolve`, or `markFailed` and `reject`. */
  function Settled<V>(e: Env<V>, t: TaskType, k: nat, outcome: Outcome<V>): Env<V>
    requires t in e.active && k < |e.active[t]| && t in e.counters
    requires e.active[t][k].id < |e.promises|
  {
    var task := e.active[t][k];
    Fulfilled(OutcomeMarked(Retired(e, t, k), t, task, outcome.Returned?), task.id, Settle(outcome))
  }

  /** The deferred promise `push` creates, still pending. */
  function Promised<V>(e: Env<V>): Env<V>
  {
    e.(promises := e.promises + [Pending])
  }

  /** `tasks[type].push(...)`, creating the queue first when there is none. */
  function Appended<V>(e: Env<V>, t: TaskType, task: Task<V>): Env<V>
  {
    e.(tasks := e.tasks[t := Items(e.tasks, t) + [task]])
  }

  /** What `push` does before it calls `tryRunTask`: a new pending promise,
      and its item at the end of the (possibly new) queue. */
  function Enqueued<V>(e: Env<V>, t: TaskType, data: V): Env<V>
  {
    Appended(Promised(e), t, Task(|e.promises|, data))
  }

  /** `define(type, handler, options)`. */
  function Defined<V>(e: Env<V>, t: TaskType, handler: Option<HandlerId>, options: Option<TaskOptions>): Env<V>
  {
    e.(handlers := e.handlers[t := handler],
       taskOptions := e.taskOptions[t := DefaultValue(options, NoOptions)],
       counters := e.counters[t := 0],
       running := e.running[t := false])
  }

  lemma EmittedKeeps<V>(e: Env<V>, g: Ledger, t: TaskType, s: Signal<V>)
    requires Consistent(e, g)
    requires !s.name.QueueRunning? && !s.name.QueueDrained?
    ensures Consistent(Emitted(e, t, s), g)
  {
    QuietEmit(e.events, g.since, e.running, Event(t, s));
  }

  lemma FlippedKeeps<V>(e: Env<V>, g: Ledger, t: TaskType, flag: bool)
    requires Consistent(e, g)
    requires t in e.running && e.running[t] == !flag
    ensures Consistent(Flipped(e, t, flag), g)
  {
    var e' := Flipped(e, t, flag);
    assert KeysOk(e'.handlers, e'.taskOptions, e'.counters, e'.running, g.stale, g.since, e'.tasks, e'.starts, e'.active);
    FlippedKeepsFlags(e, g, t, flag);
  }

  lemma FlippedKeepsFlags<V>(e: Env<V>, g: Ledger, t: TaskType, flag: bool)
    requires FlagsMatch(e.events, g.since, e.running)
    requires t in e.running && e.running[t] == !flag
    ensures var e' := Flipped(e, t, flag);
      FlagsMatch(e'.events, g.since, e'.running)
  {
    FlipEmit(e.events, g.since, e.running, t, flag, Signal(if flag then QueueRunning else QueueDrained, None));
  }

  /** Starting a task keeps everything consistent, provided there was room
      under the cap, which is what `tryRunTask` checks before `runTask`. */
  lemma LaunchedKeeps<V>(e: Env<V>, g: Ledger, t: TaskType, now: int)
    requires Consistent(e, g)
    requires t in e.tasks && |e.tasks[t]| > 0
    requires Below(e.counters[t], MaxTasks(e.taskOptions[t]))
    ensures Consistent(Launched(e, t, now), g.(place := g.place[e.tasks[t][0].id := Active(t)]))
  {
    var e' := Launched(e, t, now);
    assert KeysOk(e'.handlers, e'.taskOptions, e'.counters, e'.running, g.stale, g.since, e'.tasks, e'.starts, e'.active);
    LaunchedKeepsPlaces(e, g, t, now);
    LaunchedKeepsCounts(e, g, t, now);
    LaunchedKeepsFlags(e, g, t, now);
  }

  lemma LaunchedKeepsPlaces<V>(e: Env<V>, g: Ledger, t: TaskType, now: int)
    requires QueuesOk(e.tasks, g.place) && ActiveOk(e.active, g.place) && PromisesOk(g.place, e.promises)
    requires t in e.tasks && |e.tasks[t]| > 0 && t in e.counters
    ensures var e' := Launched(e, t, now);
      var g' := g.(place := g.place[e.tasks[t][0].id := Active(t)]);
      QueuesOk(e'.tasks, g'.place) && ActiveOk(e'.active, g'.place) && PromisesOk(g'.place, e'.promises)
  {
    StartKeepsPlaces(e.tasks, e.active, g.place, t);
  }

  lemma LaunchedKeepsCounts<V>(e: Env<V>, g: Ledger, t: TaskType, now: int)
    requires CountersOk(e.handlers, e.taskOptions, e.counters, g.stale, e.active)
    requires t in e.handlers && t in e.tasks && |e.tasks[t]| > 0
    requires Below(e.counters[t], MaxTasks(e.taskOptions[t]))
    ensures var e' := Launched(e, t, now);
      CountersOk(e'.handlers, e'.taskOptions, e'.counters, g.stale, e'.active)
  {
    var task := e.tasks[t][0];
    var e' := Launched(e, t, now);
    assert e'.handlers == e.handlers && e'.taskOptions == e.taskOptions;
    assert e'.counters == e.counters[t := e.counters[t] + 1];
    assert e'.active == e.active[t := Items(e.active, t) + [task]];
    StartKeepsCounters(e.handlers, e.taskOptions, e.counters, g.stale, e.active, t, task);
  }

  lemma LaunchedKeepsFlags<V>(e: Env<V>, g: Ledger, t: TaskType, now: int)
    requires FlagsMatch(e.events, g.since, e.running)
    requires t in e.tasks && |e.tasks[t]| > 0 && t in e.counters
    ensures var e' := Launched(e, t, now);
      FlagsMatch(e'.events, g.since, e'.running)
  {
    var task := e.tasks[t][0];
    QuietEmit(e.events, g.since, e.running, Event(t, Signal(Started, Some(task.data))));
  }

  /** Only a running item's handler settles, and its promise was pending
      until then: every promise is settled at most once. */
  lemma SettledKeeps<V>(e: Env<V>, g: Ledger, t: TaskType, k: nat, outcome: Outcome<V>)
    requires Consistent(e, g)
    requires t in e.active && k < |e.active[t]|
    ensures t in e.counters && e.active[t][k].id < |e.promises|
    ensures e.promises[e.active[t][k].id].Pending?
    ensures Consistent(Settled(e, t, k, outcome), g.(place := g.place[e.active[t][k].id := Done]))
  {
    SettledKeepsPlaces(e, g, t, k, outcome);
    assert t in e.handlers;
    SettledKeepsCounts(e, g, t, k, outcome);
    SettledKeepsFlags(e, g, t, k, outcome);
  }

  lemma SettledKeepsPlaces<V>(e: Env<V>, g: Ledger, t: TaskType, k: nat, outcome: Outcome<V>)
    requires Consistent(e, g)
    requires t in e.active && k < |e.active[t]|
    ensures t in e.counters && e.active[t][k].id < |e.promises|
    ensures e.promises[e.active[t][k].id].Pending?
    ensures var e' := Settled(e, t, k, outcome);
      var g' := g.(place := g.place[e.active[t][k].id := Done]);
      && KeysOk(e'.handlers, e'.taskOptions, e'.counters, e'.running, g'.stale, g'.since, e'.tasks, e'.starts, e'.active)
      && QueuesOk(e'.tasks, g'.place) && ActiveOk(e'.active, g'.place) && PromisesOk(g'.place, e'.promises)
  {
    FinishKeepsPlaces(e.tasks, e.active, g.place, t, k);
    SettleKeepsPromises(g.place, e.promises, e.active[t][k].id, Settle(outcome));
  }

  lemma SettledKeepsCounts<V>(e: Env<V>, g: Ledger, t: TaskType, k: nat, outcome: Outcome<V>)
    requires CountersOk(e.handlers, e.taskOptions, e.counters, g.stale, e.active)
    requires t in e.handlers && t in e.active && k < |e.active[t]| && e.active[t][k].id < |e.promises|
    ensures var e' := Settled(e, t, k, outcome);
      CountersOk(e'.handlers, e'.taskOptions, e'.counters, g.stale, e'.active)
  {
    var e' := Settled(e, t, k, outcome);
    assert e'.handlers == e.handlers && e'.taskOptions == e.taskOptions;
    assert e'.counters == e.counters[t := e.counters[t] - 1];
    assert e'.active == e.active[t := Remove(e.active[t], k)];
    FinishKeepsCounters(e.handlers, e.taskOptions, e.counters, g.stale, e.active, t, k);
  }

  lemma SettledKeepsFlags<V>(e: Env<V>, g: Ledger, t: TaskType, k: nat, outcome: Outcome<V>)
    requires FlagsMatch(e.events, g.since, e.running)
    requires t in e.counters && t in e.active && k < |e.active[t]| && e.active[t][k].id < |e.promises|
    ensures var e' := Settled(e, t, k, outcome);
      FlagsMatch(e'.events, g.since, e'.running)
  {
    var task := e.active[t][k];
    var last := if outcome.Returned? then Success else Failed;
    var e1 := Event(t, Signal(Finished, Some(task.data)));
    var e2 := Event(t, Signal(last, Some(task.data)));
    QuietEmit(e.events, g.since, e.running, e1);
    QuietEmit(e.events + [e1], g.since, e.running, e2);
    assert e.events + [e1, e2] == e.events + [e1] + [e2];
  }

  lemma EnqueuedKeeps<V>(e: Env<V>, g: Ledger, t: TaskType, data: V)
    requires Consistent(e, g)
    requires t in e.handlers
    ensures Consistent(Enqueued(e, t, data), g.(place := g.place + [Queued(t)]))
  {
    PushKeepsPlaces(e.tasks, e.active, g.place, e.promises, t, data);
  }

  /** `define` keeps everything consistent: the counter restarts at 0, the
      handlers still running become stale, and the flag's alternation starts
      afresh. */
  lemma DefinedKeeps<V>(e: Env<V>, g: Ledger, t: TaskType, handler: Option<HandlerId>, options: Option<TaskOptions>)
    requires Consistent(e, g)
    ensures Consistent(Defined(e, t, handler, options),
                       g.(stale := g.stale[t := |Items(e.active, t)|], since := g.since[t := |e.events|]))
  {
    RestartFlags(e.events, g.since, e.running, t);
    DefineKeepsCounters(e.handlers, e.taskOptions, e.counters, g.stale, e.active, t, handler, DefaultValue(options, NoOptions));
  }

  /** An event other than a flag change touches only the trace. */
  lemma EmittedAgrees<V>(e: Env<V>, t: TaskType, s: Signal<V>)
    requires Known(e, t)
    ensures var e' := Emitted(e, t, s);
      && Known(e', t) && LaneOf(e', t) == LaneOf(e, t)
      && e'.events == e.events + Tag(t, [s])
      && e'.active == e.active && e'.promises == e.promises
      && Untouched(e, e', t)
  {
    assert Tag(t, [s]) == [Event(t, s)];
  }

  /** A flag change touches only the flag and the trace. */
  lemma FlippedAgrees<V>(e: Env<V>, t: TaskType, flag: bool)
    requires Known(e, t)
    ensures var e' := Flipped(e, t, flag);
      var s: Signal<V> := Signal(if flag then QueueRunning else QueueDrained, None);
      && Known(e', t) && LaneOf(e', t) == LaneOf(e, t).(running := flag)
      && e'.events == e.events + Tag(t, [s])
      && e'.active == e.active && e'.promises == e.promises
      && Untouched(e, e', t)
  {
    var s: Signal<V> := Signal(if flag then QueueRunning else QueueDrained, None);
    assert Tag(t, [s]) == [Event(t, s)];
  }

  /** `runTask` touches only `t`'s queue, counter, start time, running
      items and the trace. */
  lemma StartAgrees<V>(e: Env<V>, t: TaskType, now: int)
    requires Known(e, t) && t in e.tasks && |e.tasks[t]| > 0
    ensures var e' := Launched(e, t, now);
      var l := LaneOf(e, t);
      var task := e.tasks[t][0];
      && Known(e', t)
      && LaneOf(e', t) == l.(queue := l.queue[1..], counter := l.counter + 1, lastStart := Some(now))
      && e'.events == e.events + [Event(t, Signal(Started, Some(task.data)))]
      && e'.active == e.active[t := Items(e.active, t) + [task]]
      && e'.promises == e.promises
      && Untouched(e, e', t)
  {
    LaunchedStaysInLane(e, t, now);
  }

  lemma LaunchedStaysInLane<V>(e: Env<V>, t: TaskType, now: int)
    requires t in e.counters && t in e.tasks && |e.tasks[t]| > 0
    ensures Untouched(e, Launched(e, t, now), t)
  {
  }

  lemma UntouchedTrans<V>(e0: Env<V>, e1: Env<V>, e2: Env<V>, t: TaskType)
    requires Untouched(e0, e1, t) && Untouched(e1, e2, t)
    ensures Untouched(e0, e2, t)
  {
  }

  /** Starting the head of the queue, after setting the flag if it was
      clear, is the `Ran` case of `Dispatch`. */
  lemma LaunchedAgrees<V>(e: Env<V>, t: TaskType, now: int)
    requires Known(e, t) && t in e.tasks && |e.tasks[t]| > 0
    ensures var e1 := if e.running[t] then e else Flipped(e, t, true);
      var e' := Launched(e1, t, now);
      var task := e.tasks[t][0];
      var l := LaneOf(e, t);
      && Known(e', t)
      && LaneOf(e', t) == l.(queue := l.queue[1..], counter := l.counter + 1, lastStart := Some(now), running := true)
      && e'.events == e.events + Tag(t, (if l.running then [] else [Signal(QueueRunning, None)])
                                        + [Signal(Started, Some(task.data))])
      && e'.active == e.active[t := Items(e.active, t) + [task]]
      && e'.promises == e.promises
      && Untouched(e, e', t)
  {
    var task := e.tasks[t][0];
    var started := Signal(Started, Some(task.data));
    var e1 := if e.running[t] then e else Flipped(e, t, true);
    if e.running[t] {
      StartAgrees(e, t, now);
      assert Tag(t, [started]) == [Event(t, started)];
    } else {
      FlippedAgrees(e, t, true);
      StartAgrees(e1, t, now);
      UntouchedTrans(e, e1, Launched(e1, t, now), t);
      var s: Signal<V> := Signal(QueueRunning, None);
      assert Tag(t, [s, started]) == [Event(t, s), Event(t, started)];
      assert e1.events == e.events + [Event(t, s)];
    }
  }

  /** `tryRunTask` does to `t`'s slice exactly what `Dispatch` specifies,
      emits exactly its signals, starts exactly the item it picks, settles no
      promise and leaves every other type alone. */
  lemma TriedAgrees<V>(e: Env<V>, t: TaskType, now: int)
    requires Known(e, t) && t in e.tasks
    ensures var e' := Tried(e, t, now);
      var r := Dispatch(LaneOf(e, t), now);
      && Known(e', t)
      && LaneOf(e', t) == r.lane
      && e'.events == e.events + Tag(t, r.signals)
      && e'.active == (if r.decision.Ran? then e.active[t := Items(e.active, t) + [r.decision.task]] else e.active)
      && e'.promises == e.promises
      && Untouched(e, e', t)
  {
    var r := Dispatch(LaneOf(e, t), now);
    match r.decision
    case Ran(_) => LaunchedAgrees(e, t, now);
    case Deferred(_) => EmittedAgrees(e, t, Signal(Delayed, None));
    case Blocked => EmittedAgrees(e, t, Signal(ConcurrencyReached, None));
    case Drained => FlippedAgrees(e, t, false);
    case Idle => assert Tag(t, r.signals) == [];
  }

  /** A handler settling does to `t`'s slice exactly what `Finish` specifies,
      emits exactly its signals, settles exactly that item's promise and
      leaves every other type alone. */
  lemma SettledAgrees<V>(e: Env<V>, t: TaskType, k: nat, outcome: Outcome<V>)
    requires Known(e, t) && t in e.active && k < |e.active[t]| && e.active[t][k].id < |e.promises|
    ensures var e' := Settled(e, t, k, outcome);
      var task := e.active[t][k];
      var f := Finish(LaneOf(e, t), task, outcome);
      && Known(e', t)
      && LaneOf(e', t) == f.lane
      && e'.events == e.events + Tag(t, f.signals)
      && e'.active == e.active[t := Remove(e.active[t], k)]
      && e'.promises == e.promises[task.id := Settle(outcome)]
      && Untouched(e, e', t)
  {
    var task := e.active[t][k];
    var f := Finish(LaneOf(e, t), task, outcome);
    assert Tag(t, f.signals) == [Event(t, f.signals[0]), Event(t, f.signals[1])];
    SettledStaysInLane(e, t, k, outcome);
  }

  lemma SettledStaysInLane<V>(e: Env<V>, t: TaskType, k: nat, outcome: Outcome<V>)
    requires t in e.counters && t in e.active && k < |e.active[t]| && e.active[t][k].id < |e.promises|
    ensures Untouched(e, Settled(e, t, k, outcome), t)
  {
  }

  /** `push` appends exactly one item, with the next promise, to `t`'s queue
      as `Enqueue` specifies, emits nothing and leaves every other type
      alone. */
  lemma EnqueuedAgrees<V>(e: Env<V>, t: TaskType, data: V)
    requires Known(e, t)
    ensures var e' := Enqueued(e, t, data);
      && Known(e', t)
      && LaneOf(e', t) == Enqueue(LaneOf(e, t), Task(|e.promises|, data))
      && e'.events == e.events
      && e'.active == e.active
      && e'.promises == e.promises + [Pending]
      && Untouched(e, e', t)
  {
  }

  /** `define` gives `t` a fresh lane over the items already queued, and on a
      known type it is exactly `Redefine`. */
  lemma DefinedAgrees<V>(e: Env<V>, t: TaskType, handler: Option<HandlerId>, options: Option<TaskOptions>)
    ensures var e' := Defined(e, t, handler, options);
      && Known(e', t)
      && LaneOf(e', t) == Lane(DefaultValue(options, NoOptions), Items(e.tasks, t), 0, StartOf(e, t), false)
      && (Known(e, t) ==> LaneOf(e', t) == Redefine(LaneOf(e, t), DefaultValue(options, NoOptions)))
      && e'.events == e.events && e'.active == e.active && e'.promises == e.promises
  {
  }
}
