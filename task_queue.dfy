/** The scheduler object `createTaskQueue` returns. Its closure's state is the
    single value `env` (see Scheduler), updated step by step as the source's
    helper functions update the closure's maps. Handlers are opaque: a
    handler settling is the external call `Complete`, and the `setTimeout`
    retry a delay asks for is the external call `TryRunTask`. */
module TaskQueues {
  import opened Defaults
  import opened Signals
  import opened Lanes
  import opened Bookkeeping
  import opened Scheduler

  /** The scheduler's own error, `TaskQueueError`. */
  datatype QueueError = NoSuchTaskType
  {
    function Message(): string
    {
      "No such task type exists."
    }
  }

  /** A promise settled by the scheduler itself: fulfilled, or rejected with
      its error. */
  datatype Result<T> = Ok(value: T) | Err(error: QueueError)

  /** An accepted `push`: the item's promise, and what the dispatch it
      triggered decided. */
  datatype Pushed<V> = Pushed(id: nat, decision: Decision<V>)

  class TaskQueue<V> {
    var env: Env<V>
    ghost var ledger: Ledger

    ghost predicate Valid()
      reads this
    {
      Consistent(env, ledger)
    }

    /** `createTaskQueue()`: every map empty, nothing emitted. */
    constructor ()
      ensures Valid()
      ensures env == Env(map[], map[], map[], map[], map[], map[], [], [], map[])
    {
      env := Env(map[], map[], map[], map[], map[], map[], [], [], map[]);
      ledger := Ledger([], map[], map[]);
    }

    /** `taskQueue.emit("name:type", payload)`. */
    method Emit(t: TaskType, s: Signal<V>)
      modifies this
      ensures env == Emitted(old(env), t, s) && ledger == old(ledger)
    {
      env := env.(events := env.events + [Event(t, s)]);
    }

    /** `markStarted`. */
    method MarkStarted(t: TaskType, task: Task<V>, now: int)
      requires t in env.counters
      modifies this
      ensures env == StartMarked(old(env), t, task, now) && ledger == old(ledger)
    {
      env := env.(counters := env.counters[t := env.counters[t] + 1]);
      env := env.(starts := env.starts[t := now]);
      Emit(t, Signal(Started, Some(task.data)));
    }

    /** `markFinished`. */
    method MarkFinished(t: TaskType, task: Task<V>)
      requires t in env.counters
      modifies this
      ensures env == FinishMarked(old(env), t, task) && ledger == old(ledger)
    {
      env := env.(counters := env.counters[t := env.counters[t] - 1]);
      Emit(t, Signal(Finished, Some(task.data)));
    }

    /** `markSuccess`. */
    method MarkSuccess(t: TaskType, task: Task<V>)
      requires t in env.counters
      modifies this
      ensures env == OutcomeMarked(old(env), t, task, true) && ledger == old(ledger)
    {
      MarkFinished(t, task);
      Emit(t, Signal(Success, Some(task.data)));
    }

    /** `markFailed`. */
    method MarkFailed(t: TaskType, task: Task<V>)
      requires t in env.counters
      modifies this
      ensures env == OutcomeMarked(old(env), t, task, false) && ledger == old(ledger)
    {
      MarkFinished(t, task);
      Emit(t, Signal(Failed, Some(task.data)));
    }

    /** `markQueueRunning`. */
    method MarkQueueRunning(t: TaskType)
      modifies this
      ensures env == Flipped(old(env), t, true) && ledger == old(ledger)
    {
      Emit(t, Signal(QueueRunning, None));
      env := env.(running := env.running[t := true]);
    }

    /** `markQueueDrained`. */
    method MarkQueueDrained(t: TaskType)
      modifies this
      ensures env == Flipped(old(env), t, false) && ledger == old(ledger)
    {
      Emit(t, Signal(QueueDrained, None));
      env := env.(running := env.running[t := false]);
    }

    /** `runTask`: the head of the queue is shifted off and started, and its
        handler is running. Called only with room under the cap, it keeps
        every invariant. */
    method RunTask(t: TaskType, now: int) returns (task: Task<V>)
      requires Valid() && t in env.tasks && |env.tasks[t]| > 0
      requires Below(env.counters[t], MaxTasks(env.taskOptions[t]))
      modifies this
      ensures Valid()
      ensures task == old(env.tasks[t][0])
      ensures env == Launched(old(env), t, now)
    {
      LaunchedKeeps(env, ledger, t, now);
      task := env.tasks[t][0];
      ledger := ledger.(place := ledger.place[task.id := Active(t)]);
      env := env.(tasks := env.tasks[t := env.tasks[t][1..]]);
      MarkStarted(t, task, now);
      env := env.(active := env.active[t := Items(env.active, t) + [task]]);
    }

    /** `tryRunTask`: one dispatch decision for `t` at time `now`, exactly the
        one `Dispatch` specifies, on `t`'s slice alone. A `Deferred` decision
        is the `setTimeout` the source arms: the caller calls `TryRunTask`
        again `waitTime` milliseconds later. */
    method TryRunTask(t: TaskType, now: int) returns (d: Decision<V>)
      requires Valid() && t in env.tasks
      modifies this
      ensures Valid()
      ensures Known(old(env), t) && env == Tried(old(env), t, now)
      ensures var r := Dispatch(LaneOf(old(env), t), now);
        && d == r.decision
        && LaneOf(env, t) == r.lane
        && env.events == old(env.events) + Tag(t, r.signals)
      ensures env.active == if d.Ran? then old(env.active)[t := Items(old(env.active), t) + [d.task]] else old(env.active)
      ensures env.promises == old(env.promises)
      ensures Untouched(old(env), env, t)
    {
      TriedAgrees(env, t, now);
      var maxTasks := MaxTasks(env.taskOptions[t]);
      var waitTime := RemainingInterval(env.taskOptions[t], StartOf(env, t), now);
      if |env.tasks[t]| > 0 {
        if waitTime <= 0 {
          if Below(env.counters[t], maxTasks) {
            if !env.running[t] {
              FlippedKeeps(env, ledger, t, true);
              MarkQueueRunning(t);
            }
            var task := RunTask(t, now);
            d := Ran(task);
          } else {
            EmittedKeeps(env, ledger, t, Signal(ConcurrencyReached, None));
            Emit(t, Signal(ConcurrencyReached, None));
            d := Blocked;
          }
        } else {
          EmittedKeeps(env, ledger, t, Signal(Delayed, None));
          Emit(t, Signal(Delayed, None));
          d := Deferred(waitTime);
        }
      } else if env.running[t] {
        FlippedKeeps(env, ledger, t, false);
        MarkQueueDrained(t);
        d := Drained;
      } else {
        d := Idle;
      }
    }

    /** The `then` / `catch` callbacks of `runTask`'s promise chain: the
        `k`-th running handler of `t` returned or threw, so the completion is
        recorded and the item's promise, pending until now, is resolved or
        rejected. */
    method Conclude(t: TaskType, k: nat, outcome: Outcome<V>)
      requires Valid() && t in env.active && k < |env.active[t]|
      modifies this
      ensures Valid()
      ensures var task := old(env.active[t][k]);
        && t in old(env.counters) && task.id < |old(env.promises)|
        && old(env.promises[task.id]).Pending?
        && env == Settled(old(env), t, k, outcome)
    {
      var task := env.active[t][k];
      SettledKeeps(env, ledger, t, k, outcome);
      ledger := ledger.(place := ledger.place[task.id := Done]);
      env := env.(active := env.active[t := Remove(env.active[t], k)]);
      if outcome.Returned? {
        MarkSuccess(t, task);
        env := env.(promises := env.promises[task.id := Resolved(outcome.value)]);
      } else {
        MarkFailed(t, task);
        env := env.(promises := env.promises[task.id := Rejected(outcome.error)]);
      }
    }

    /** The whole continuation of `runTask`: `Conclude`, then the chain's
        last `then`, which calls `tryRunTask` again. */
    method Complete(t: TaskType, k: nat, outcome: Outcome<V>, now: int) returns (d: Decision<V>)
      requires Valid() && t in env.active && k < |env.active[t]|
      modifies this
      ensures Valid()
      ensures var task := old(env.active[t][k]);
        && task.id < |old(env.promises)|
        && old(env.promises[task.id]).Pending?
        && env.promises == old(env.promises)[task.id := Settle(outcome)]
      ensures Known(old(env), t) && Known(env, t)
      ensures var task := old(env.active[t][k]);
        var f := Finish(LaneOf(old(env), t), task, outcome);
        var r := Dispatch(f.lane, now);
        && d == r.decision
        && LaneOf(env, t) == r.lane
        && env.events == old(env.events) + Tag(t, f.signals) + Tag(t, r.signals)
      ensures var rest := old(env.active)[t := Remove(old(env.active[t]), k)];
        env.active == if d.Ran? then rest[t := Items(rest, t) + [d.task]] else rest
      ensures Untouched(old(env), env, t)
    {
      ghost var e0 := env;
      Conclude(t, k, outcome);
      SettledAgrees(e0, t, k, outcome);
      d := TryRunTask(t, now);
      UntouchedTrans(e0, Settled(e0, t, k, outcome), env, t);
    }

    /** The part of `push` before `tryRunTask`, once a handler is known: the
        deferred promise, and its item at the end of the type's queue (created
        on first use). */
    method Accept(t: TaskType, data: V) returns (id: nat)
      requires Valid() && t in env.handlers
      modifies this
      ensures Valid()
      ensures id == |old(env.promises)| && env == Enqueued(old(env), t, data)
    {
      id := |env.promises|;
      EnqueuedKeeps(env, ledger, t, data);
      ledger := ledger.(place := ledger.place + [Queued(t)]);
      env := env.(promises := env.promises + [Pending]);
      var queue := if t in env.tasks then env.tasks[t] else [];
      env := env.(tasks := env.tasks[t := queue + [Task(id, data)]]);
    }

    /** `push(type, data)`: rejected with `TaskQueueError` when no handler is
        defined for the type; otherwise `Accept`, then a dispatch. */
    method Push(t: TaskType, data: V, now: int) returns (r: Result<Pushed<V>>)
      requires Valid()
      modifies this
      ensures Valid()
      ensures r.Err? <==> t !in old(env.handlers) || old(env.handlers[t]).None?
      ensures r.Err? ==> r.error == NoSuchTaskType && env == old(env)
      ensures r.Ok? ==>
        && r.value.id == |old(env.promises)|
        && env.promises == old(env.promises) + [Pending]
        && Known(old(env), t) && Known(env, t)
        && var q := Dispatch(Enqueue(LaneOf(old(env), t), Task(r.value.id, data)), now);
           && r.value.decision == q.decision
           && LaneOf(env, t) == q.lane
           && env.events == old(env.events) + Tag(t, q.signals)
           && env.active == (if q.decision.Ran? then old(env.active)[t := Items(old(env.active), t) + [q.decision.task]]
                             else old(env.active))
           && Untouched(old(env), env, t)
    {
      if t !in env.handlers || env.handlers[t].None? {
        return Err(NoSuchTaskType);
      }
      ghost var e0 := env;
      var id := Accept(t, data);
      EnqueuedAgrees(e0, t, data);
      var d := TryRunTask(t, now);
      UntouchedTrans(e0, Enqueued(e0, t, data), env, t);
      r := Ok(Pushed(id, d));
    }

    /** `define(type, handler, options)`: installs (or silently replaces) the
        handler and options, restarts the counter at 0 and clears the flag;
        queued items and the last start time are kept. */
    method Define(t: TaskType, handler: Option<HandlerId>, options: Option<TaskOptions>)
      requires Valid()
      modifies this
      ensures Valid()
      ensures env == Defined(old(env), t, handler, options)
      ensures Known(env, t)
      ensures LaneOf(env, t) == Lane(DefaultValue(options, NoOptions), Items(old(env.tasks), t), 0, StartOf(old(env), t), false)
      ensures Known(old(env), t) ==> LaneOf(env, t) == Redefine(LaneOf(old(env), t), DefaultValue(options, NoOptions))
    {
      DefinedKeeps(env, ledger, t, handler, options);
      DefinedAgrees(env, t, handler, options);
      ledger := ledger.(stale := ledger.stale[t := |Items(env.active, t)|], since := ledger.since[t := |env.events|]);
      env := env.(handlers := env.handlers[t := handler],
                  taskOptions := env.taskOptions[t := DefaultValue(options, NoOptions)],
                  counters := env.counters[t := 0],
                  running := env.running[t := false]);
    }
  }
}
