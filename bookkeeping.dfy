/** The facts the scheduler's maps keep about one another, stated over map and
    sequence values, and the one-step lemmas showing which updates keep them.
    Every item ever pushed has a promise and a place: queued under its type,
    running under its type, or settled. */
module Bookkeeping {
  import opened Defaults
  import opened Signals
  import opened Lanes

  /** Stands for the handler function given to `define`. */
  type HandlerId = nat

  /** The state of the promise `push` returned for one item. */
  datatype Settlement<V> = Pending | Resolved(value: V) | Rejected(reason: V)

  /** Where an item is: in its type's queue, running, or settled. */
  datatype Place = Queued(taskType: TaskType) | Active(taskType: TaskType) | Done

  /** `task.resolve(result)` or `task.reject(err)`. */
  function Settle<V>(o: Outcome<V>): (s: Settlement<V>)
    ensures !s.Pending?
    ensures s.Resolved? <==> o.Returned?
    ensures o.Returned? ==> s.value == o.value
    ensures o.Threw? ==> s.reason == o.error
  {
    match o
    case Returned(v) => Resolved(v)
    case Threw(e) => Rejected(e)
  }

  /** The list a per-type map holds for `t`, empty when it holds none. */
  function Items<V>(m: map<TaskType, seq<Task<V>>>, t: TaskType): (r: seq<Task<V>>)
    ensures t !in m ==> r == []
  {
    if t in m then m[t] else []
  }

  /** Every type `define` has seen has options, a counter, a flag and the
      ghost records; only such a type can have a queue; only a type with a
      queue has a start time or running items. */
  ghost predicate KeysOk<V>(handlers: map<TaskType, Option<HandlerId>>, taskOptions: map<TaskType, TaskOptions>,
                            counters: map<TaskType, int>, running: map<TaskType, bool>,
                            stale: map<TaskType, int>, since: map<TaskType, nat>,
                            tasks: map<TaskType, seq<Task<V>>>, starts: map<TaskType, int>,
                            active: map<TaskType, seq<Task<V>>>)
  {
    && (forall t :: t in handlers ==>
          t in taskOptions && t in counters && t in running && t in stale && t in since)
    && (forall t :: t in tasks ==> t in handlers)
    && (forall t :: t in starts ==> t in tasks)
    && (forall t :: t in active ==> t in tasks)
  }

  /** Every queued item is recorded as queued under its own type; ids grow
      along a queue, so no item is queued twice. */
  ghost predicate QueuesOk<V>(tasks: map<TaskType, seq<Task<V>>>, place: seq<Place>)
  {
    && (forall t, i :: t in tasks && 0 <= i < |tasks[t]| ==>
          tasks[t][i].id < |place| && place[tasks[t][i].id] == Queued(t))
    && (forall t, i, j :: t in tasks && 0 <= i < j < |tasks[t]| ==>
          tasks[t][i].id < tasks[t][j].id)
  }

  /** Every running item is recorded as running under its own type, once. */
  ghost predicate ActiveOk<V>(active: map<TaskType, seq<Task<V>>>, place: seq<Place>)
  {
    && (forall t, i :: t in active && 0 <= i < |active[t]| ==>
          active[t][i].id < |place| && place[active[t][i].id] == Active(t))
    && (forall t, i, j :: t in active && 0 <= i < j < |active[t]| ==>
          active[t][i].id != active[t][j].id)
  }

  /** An item's promise is settled exactly when the item is done. */
  ghost predicate PromisesOk<V>(place: seq<Place>, promises: seq<Settlement<V>>)
  {
    && |place| == |promises|
    && forall id :: 0 <= id < |place| ==> (place[id].Done? <==> !promises[id].Pending?)
  }

  /** A type's counter is the number of its running handlers, less the
      `stale` ones that were already running when it was last defined, and
      never exceeds the type's cap. */
  ghost predicate CountersOk<V>(handlers: map<TaskType, Option<HandlerId>>, taskOptions: map<TaskType, TaskOptions>,
                                counters: map<TaskType, int>, stale: map<TaskType, int>,
                                active: map<TaskType, seq<Task<V>>>)
  {
    forall t :: t in handlers ==>
      && t in counters && t in stale && t in taskOptions
      && counters[t] == |Items(active, t)| - stale[t]
      && 0 <= stale[t]
      && AtMost(counters[t], MaxTasks(taskOptions[t]))
  }

  /** Since the last `define` of each type, the type's `queueRunning` and
      `queueDrained` events alternate and agree with its flag. */
  ghost predicate FlagsMatch<V>(evs: seq<Event<V>>, since: map<TaskType, nat>, running: map<TaskType, bool>)
  {
    forall u :: u in since ==>
      && u in running
      && since[u] <= |evs|
      && Alternates(Flags(Project(evs[since[u]..], u)), running[u])
  }

  /** An event other than `queueRunning`/`queueDrained` keeps the flags in step. */
  lemma QuietEmit<V>(evs: seq<Event<V>>, since: map<TaskType, nat>, running: map<TaskType, bool>, e: Event<V>)
    requires FlagsMatch(evs, since, running)
    requires !e.signal.name.QueueRunning? && !e.signal.name.QueueDrained?
    ensures FlagsMatch(evs + [e], since, running)
  {
    assert Tag(e.taskType, [e.signal]) == [e];
    assert Flags([e.signal]) == [];
    forall u: TaskType | u in since
      ensures Alternates(Flags(Project((evs + [e])[since[u]..], u)), running[u])
    {
      FlagsAfterEmit(evs, since[u], e.taskType, [e.signal], u);
    }
  }

  /** `queueRunning` while the flag is clear, together with setting it, or
      `queueDrained` while it is set, together with clearing it, keeps the
      flags in step. */
  lemma FlipEmit<V>(evs: seq<Event<V>>, since: map<TaskType, nat>, running: map<TaskType, bool>,
                    t: TaskType, flag: bool, s: Signal<V>)
    requires FlagsMatch(evs, since, running)
    requires t in running && running[t] == !flag
    requires s == Signal(if flag then QueueRunning else QueueDrained, None)
    ensures FlagsMatch(evs + [Event(t, s)], since, running[t := flag])
  {
    assert Tag(t, [s]) == [Event(t, s)];
    assert Flags([s]) == [flag];
    forall u: TaskType | u in since
      ensures Alternates(Flags(Project((evs + [Event(t, s)])[since[u]..], u)), running[t := flag][u])
    {
      FlagsAfterEmit(evs, since[u], t, [s], u);
      if u == t {
        FlipKeepsAlternation(Flags(Project(evs[since[u]..], u)), running[u]);
      }
    }
  }

  /** `define` starts a fresh alternation for its type. */
  lemma RestartFlags<V>(evs: seq<Event<V>>, since: map<TaskType, nat>, running: map<TaskType, bool>, t: TaskType)
    requires FlagsMatch(evs, since, running)
    ensures FlagsMatch(evs, since[t := |evs|], running[t := false])
  {
    assert evs[|evs|..] == [];
    assert Project<V>([], t) == [];
    assert Flags<V>([]) == [];
  }

  /** Starting the head of `t`'s queue: it leaves the queue and becomes
      running under `t`. */
  lemma StartKeepsPlaces<V>(tasks: map<TaskType, seq<Task<V>>>, active: map<TaskType, seq<Task<V>>>,
                            place: seq<Place>, t: TaskType)
    requires QueuesOk(tasks, place) && ActiveOk(active, place)
    requires t in tasks && |tasks[t]| > 0
    ensures var head := tasks[t][0];
      && QueuesOk(tasks[t := tasks[t][1..]], place[head.id := Active(t)])
      && ActiveOk(active[t := Items(active, t) + [head]], place[head.id := Active(t)])
  {
    var head := tasks[t][0];
    var tasks': map<TaskType, seq<Task<V>>> := tasks[t := tasks[t][1..]];
    var active': map<TaskType, seq<Task<V>>> := active[t := Items(active, t) + [head]];
    var place': seq<Place> := place[head.id := Active(t)];
    forall u: TaskType, i: int | u in tasks' && 0 <= i < |tasks'[u]|
      ensures tasks'[u][i].id < |place'| && place'[tasks'[u][i].id] == Queued(u)
    {
      if u == t {
        assert tasks'[u][i] == tasks[t][i + 1];
        assert tasks[t][0].id < tasks[t][i + 1].id;
      } else {
        assert place[tasks[u][i].id] == Queued(u);
      }
    }
    forall u: TaskType, i: int, j: int | u in tasks' && 0 <= i < j < |tasks'[u]|
      ensures tasks'[u][i].id < tasks'[u][j].id
    {
      if u == t {
        assert tasks'[u][i] == tasks[t][i + 1] && tasks'[u][j] == tasks[t][j + 1];
      }
    }
    forall u: TaskType, i: int | u in active' && 0 <= i < |active'[u]|
      ensures active'[u][i].id < |place'| && place'[active'[u][i].id] == Active(u)
    {
      if u == t && i == |Items(active, t)| {
        assert active'[u][i] == head;
      } else {
        assert u in active && i < |active[u]| && active'[u][i] == active[u][i];
        assert place[active[u][i].id] == Active(u);
      }
    }
    forall u: TaskType, i: int, j: int | u in active' && 0 <= i < j < |active'[u]|
      ensures active'[u][i].id != active'[u][j].id
    {
      if u == t && j == |Items(active, t)| {
        assert active'[u][i] == active[u][i];
        assert place[active[u][i].id] == Active(u);
      } else {
        assert active'[u][i] == active[u][i] && active'[u][j] == active[u][j];
      }
    }
  }

  /** Starting a task adds one running handler and one to the counter; the
      counter was below the cap, so it stays within it. */
  lemma StartKeepsCounters<V>(handlers: map<TaskType, Option<HandlerId>>, taskOptions: map<TaskType, TaskOptions>,
                              counters: map<TaskType, int>, stale: map<TaskType, int>,
                              active: map<TaskType, seq<Task<V>>>, t: TaskType, head: Task<V>)
    requires CountersOk(handlers, taskOptions, counters, stale, active)
    requires t in handlers && Below(counters[t], MaxTasks(taskOptions[t]))
    ensures CountersOk(handlers, taskOptions, counters[t := counters[t] + 1], stale,
                       active[t := Items(active, t) + [head]])
  {
    var active': map<TaskType, seq<Task<V>>> := active[t := Items(active, t) + [head]];
    assert Items(active', t) == Items(active, t) + [head];
    forall u: TaskType | u in handlers && u != t
      ensures Items(active', u) == Items(active, u)
    {
    }
  }

  /** The `k`-th running item of `t` settles: it stops running and is done. */
  lemma FinishKeepsPlaces<V>(tasks: map<TaskType, seq<Task<V>>>, active: map<TaskType, seq<Task<V>>>,
                             place: seq<Place>, t: TaskType, k: nat)
    requires QueuesOk(tasks, place) && ActiveOk(active, place)
    requires t in active && k < |active[t]|
    ensures var id := active[t][k].id;
      && QueuesOk(tasks, place[id := Done])
      && ActiveOk(active[t := Remove(active[t], k)], place[id := Done])
  {
    var id := active[t][k].id;
    var active': map<TaskType, seq<Task<V>>> := active[t := Remove(active[t], k)];
    var place': seq<Place> := place[id := Done];
    forall u: TaskType, i: int | u in tasks && 0 <= i < |tasks[u]|
      ensures tasks[u][i].id < |place'| && place'[tasks[u][i].id] == Queued(u)
    {
      assert place[tasks[u][i].id] == Queued(u);
    }
    forall u: TaskType, i: int | u in active' && 0 <= i < |active'[u]|
      ensures active'[u][i].id < |place'| && place'[active'[u][i].id] == Active(u)
    {
      if u == t {
        var i0 := if i < k then i else i + 1;
        assert active'[u][i] == active[t][i0];
        assert active[t][i0].id != active[t][k].id;
      }
    }
    forall u: TaskType, i: int, j: int | u in active' && 0 <= i < j < |active'[u]|
      ensures active'[u][i].id != active'[u][j].id
    {
      if u == t {
        var i0 := if i < k then i else i + 1;
        var j0 := if j < k then j else j + 1;
        assert active'[u][i] == active[t][i0] && active'[u][j] == active[t][j0];
      }
    }
  }

  /** Settling the promise of an item that was not done keeps promises and
      places in step. */
  lemma SettleKeepsPromises<V>(place: seq<Place>, promises: seq<Settlement<V>>, id: nat, s: Settlement<V>)
    requires PromisesOk(place, promises)
    requires id < |place| && !place[id].Done? && !s.Pending?
    ensures promises[id].Pending?
    ensures PromisesOk(place[id := Done], promises[id := s])
  {
  }

  /** A completion removes one running handler and takes one from the
      counter; both sides of the count drop together. */
  lemma FinishKeepsCounters<V>(handlers: map<TaskType, Option<HandlerId>>, taskOptions: map<TaskType, TaskOptions>,
                               counters: map<TaskType, int>, stale: map<TaskType, int>,
                               active: map<TaskType, seq<Task<V>>>, t: TaskType, k: nat)
    requires CountersOk(handlers, taskOptions, counters, stale, active)
    requires t in handlers && t in active && k < |active[t]|
    ensures CountersOk(handlers, taskOptions, counters[t := counters[t] - 1], stale,
                       active[t := Remove(active[t], k)])
  {
    var active': map<TaskType, seq<Task<V>>> := active[t := Remove(active[t], k)];
    assert |Items(active', t)| == |Items(active, t)| - 1;
    forall u: TaskType | u in handlers && u != t
      ensures Items(active', u) == Items(active, u)
    {
    }
  }

  /** `push` appends a new item, with the next id, to `t`'s queue. */
  lemma PushKeepsPlaces<V>(tasks: map<TaskType, seq<Task<V>>>, active: map<TaskType, seq<Task<V>>>,
                           place: seq<Place>, promises: seq<Settlement<V>>, t: TaskType, data: V)
    requires QueuesOk(tasks, place) && ActiveOk(active, place) && PromisesOk(place, promises)
    ensures var task := Task(|place|, data);
      && QueuesOk(tasks[t := Items(tasks, t) + [task]], place + [Queued(t)])
      && ActiveOk(active, place + [Queued(t)])
      && PromisesOk(place + [Queued(t)], promises + [Pending])
  {
    var task := Task(|place|, data);
    var tasks': map<TaskType, seq<Task<V>>> := tasks[t := Items(tasks, t) + [task]];
    var place': seq<Place> := place + [Queued(t)];
    forall u: TaskType, i: int | u in tasks' && 0 <= i < |tasks'[u]|
      ensures tasks'[u][i].id < |place'| && place'[tasks'[u][i].id] == Queued(u)
    {
      if u == t && i == |Items(tasks, t)| {
        assert tasks'[u][i] == task;
      } else {
        assert tasks'[u][i] == tasks[u][i];
        assert place[tasks[u][i].id] == Queued(u);
      }
    }
    forall u: TaskType, i: int, j: int | u in tasks' && 0 <= i < j < |tasks'[u]|
      ensures tasks'[u][i].id < tasks'[u][j].id
    {
      if u == t && j == |Items(tasks, t)| {
        assert tasks'[u][i] == tasks[u][i];
        assert tasks[u][i].id < |place|;
      } else {
        assert tasks'[u][i] == tasks[u][i] && tasks'[u][j] == tasks[u][j];
      }
    }
    forall u: TaskType, i: int | u in active && 0 <= i < |active[u]|
      ensures active[u][i].id < |place'| && place'[active[u][i].id] == Active(u)
    {
      assert place[active[u][i].id] == Active(u);
    }
  }

  /** `define` resets the counter to 0; the handlers still running from
      before become the type's stale ones. */
  lemma DefineKeepsCounters<V>(handlers: map<TaskType, Option<HandlerId>>, taskOptions: map<TaskType, TaskOptions>,
                               counters: map<TaskType, int>, stale: map<TaskType, int>,
                               active: map<TaskType, seq<Task<V>>>,
                               t: TaskType, handler: Option<HandlerId>, options: TaskOptions)
    requires CountersOk(handlers, taskOptions, counters, stale, active)
    ensures CountersOk(handlers[t := handler], taskOptions[t := options], counters[t := 0],
                       stale[t := |Items(active, t)|], active)
  {
    var m := MaxTasks(options);
    assert AtMost(0, m);
  }
}
