/** Option values, the `defaultValue` helper and the per-type limits the
    scheduler derives from a type's options: the concurrency cap and the
    minimum spacing between two starts. */
module Defaults {

  /** A JavaScript value that may be `null` or `undefined` (None). */
  datatype Option<T> = None | Some(value: T)

  /** `defaultValue(value, defaultVal)`: a value that is neither `null` nor
      `undefined` is kept as it is (even `0`); otherwise the default is used. */
  function DefaultValue<T>(value: Option<T>, default: T): (r: T)
    ensures value.Some? ==> r == value.value
    ensures value.None? ==> r == default
  {
    match value
    case Some(v) => v
    case None => default
  }

  /** A concurrency cap: a whole number of tasks, or `Infinity`. */
  datatype Limit = Finite(n: nat) | Infinity

  /** The options object given to `define`; each field may be absent. The
      interval, given in seconds, is held as a whole number of thousandths of
      a second, so that intervals such as 0.5 seconds are covered. */
  datatype TaskOptions = TaskOptions(concurrency: Option<Limit>, interval: Option<nat>)

  /** The `{}` that `define` stores when it is given no options. */
  const NoOptions: TaskOptions := TaskOptions(None, None)

  /** `maxTasks`: the configured concurrency, or `Infinity` when unset. */
  function MaxTasks(o: TaskOptions): (m: Limit)
    ensures o.concurrency.None? ==> m == Infinity
    ensures o.concurrency.Some? ==> m == o.concurrency.value
  {
    DefaultValue(o.concurrency, Infinity)
  }

  /** `counter < maxTasks`: there is room for one more running task. */
  predicate Below(counter: int, m: Limit)
  {
    match m
    case Infinity => true
    case Finite(n) => counter < n
  }

  /** `counter <= maxTasks`: the cap is respected. */
  predicate AtMost(counter: int, m: Limit)
  {
    match m
    case Infinity => true
    case Finite(n) => counter <= n
  }

  /** The interval in milliseconds: seconds times 1000, 0 when unset. */
  function IntervalMs(o: TaskOptions): (ms: nat)
    ensures o.interval.None? ==> ms == 0
    ensures o.interval.Some? ==> ms == o.interval.value
  {
    DefaultValue(o.interval, 0)
  }

  /** `remainingInterval`: milliseconds still to wait before the next start
      may happen, counting a type that never started as started at time 0.
      The wait is over exactly when a whole interval has elapsed since the
      last start. */
  function RemainingInterval(o: TaskOptions, lastStart: Option<int>, now: int): (w: int)
    ensures w <= 0 <==> now - DefaultValue(lastStart, 0) >= IntervalMs(o)
    ensures now >= DefaultValue(lastStart, 0) ==> w <= IntervalMs(o)
  {
    (DefaultValue(lastStart, 0) + IntervalMs(o)) - now
  }
}
