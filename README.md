# promise-task-queue, modelled in Dafny

`createTaskQueue` builds a scheduler for typed tasks. Each task type is
registered with `define(type, handler, options)`. `push(type, data)` queues an
item and returns a promise for the handler's result. For each type the
scheduler keeps six maps in its closure:

- the handler;
- the options (`concurrency`, `interval` in seconds);
- the FIFO queue of pending items;
- the count of running handlers;
- the time of the last start;
- a queue-active flag.

`tryRunTask(type)` makes one decision each time it runs:

- start the head of the queue, when the queue is non-empty, at least `interval` seconds have passed since the last start, and the count is below the cap;
- otherwise emit `delayed` and retry once the wait is over;
- or emit `concurrencyReached`;
- or, with an empty queue, emit `queueDrained` if the flag was set.

A handler that settles updates the count and emits `finished` followed by
`success` or `failed`. It then settles the item's promise, and `tryRunTask`
runs again. `src/index.js` is the source and `lib/index.js` its ES5
transpilation. The two match statement by statement, on the same lines up to
`push`, which ends at line 146 in one and 147 in the other.

The project is built in layers:

- `Defaults` (defaults.dfy): `defaultValue`, the concurrency cap, the interval in milliseconds, and `remainingInterval`.
- `Signals` (signals.dfy): event names; the emitted trace; its projection on one type and on the flag events; and the alternation of `queueRunning` and `queueDrained`.
- `Lanes` (lanes.dfy): one type's slice of the six maps, and pure functions specifying a dispatch (`Dispatch`), a completion (`Finish`), a `push` (`Enqueue`) and a `define` (`Redefine`).
- `Bookkeeping` (bookkeeping.dfy): the invariants tying the maps, the running items, the promises and the trace together, and one lemma per kind of update showing it keeps them.
- `Scheduler` (scheduler.dfy): the closure state as one value `Env`, with one function per helper of the source. Two kinds of lemma sit on top. The `…Keeps` lemmas show each step keeps the invariant. The `…Agrees` lemmas show each closure-level step does to its type's slice exactly what the `Lanes` functions specify, and leaves every other type alone.
- `TaskQueues` (task_queue.dfy): the class `TaskQueue`, with one method per function of the source, updating `env` step by step as the source updates its maps. Each method is proved against the `Scheduler` functions, and the public ones against the `Lanes` specification.
- `Runs` (runs.dfy): one type's life after a `define`, as an arbitrary sequence of pushes, dispatches and handler settlements. A settlement and the dispatch its chain runs afterwards are separate events, so other events can fall between them. It carries the theorems over whole runs: the cap, FIFO starts, each item started once, spacing of starts, and alternation of the flag events.

Each item is identified by the index of its promise. A handler settling is
the external call `Complete(type, k, outcome, now)` on the type's `k`-th
running item. `Complete` is `Conclude` (the settlement callback) followed by
`TryRunTask` (the chain's last `.then`). Because these are separate callbacks
in the source, a caller may also call `Conclude` and, later, `TryRunTask`
with other calls in between. The clock reading `Date.now()` is the parameter
`now`. A `setTimeout` retry is a later external call to `TryRunTask`.

## Model

| member | source | states |
|---|---|---|
| Defaults.DefaultValue | src/index.js:12-18 | a present value (even 0) is kept as it is; a missing one (`null`/`undefined`) gives the default |
| Defaults.MaxTasks | src/index.js:29 | an unset concurrency means no cap (`Infinity`); otherwise it is the configured cap |
| Defaults.IntervalMs | src/index.js:58 | the interval in milliseconds: the configured seconds times 1000, which is the whole number of thousandths the model holds, and 0 when unset |
| Defaults.RemainingInterval | src/index.js:57-62 | the wait is over (`<= 0`) exactly when a whole interval has passed since the last start, counting "never started" as time 0; it never exceeds one interval once the clock has passed the last start |
| Lanes.Dispatch | src/index.js:28-55 | a start happens iff the queue is non-empty, the wait is over and the count is below the cap. It takes only the head, adds one to the count, records `now`, sets the flag, and emits `queueRunning` (only if the flag was clear) then `started` with the item's data. A delay happens iff the wait is not over; it changes nothing, emits `delayed`, and asks for a retry after exactly `waitTime`, at which point the wait is over. At the cap nothing changes and only `concurrencyReached` is emitted. An empty queue clears a set flag with `queueDrained`, and otherwise does nothing. The cap is never exceeded, and a start is at least one interval after the previous one |
| Lanes.Finish | src/index.js:88-101 | a completion takes one from the count and emits `finished` then `success` (handler returned) or `failed` (handler threw), both with the item's data |
| Lanes.Enqueue | src/index.js:132-140 | `push` puts exactly the one new item at the end of the queue and changes nothing else |
| Lanes.Redefine | src/index.js:114-119 | `define` of a known type installs the new options, resets the count to 0 and clears the flag, and keeps the queued items and the last start time |
| Lanes.FinishEmitsNoFlag | src/index.js:93-101 | a completion emits no `queueRunning`/`queueDrained` |
| Lanes.DispatchFlags | src/index.js:35-53 | a dispatch emits a flag event exactly when it changes the flag, and the event names the flag's new value |
| Signals.ProjectAppend | src/index.js:82-111 | supporting lemma for the single append-only stream the mark helpers emit into: the events of one type in a trace extended by more events are that type's old events followed by its new ones |
| Signals.ProjectTag | src/index.js:82-111 | supporting lemma for the per-type event names (`name:type`) the mark helpers emit: events emitted for one type are not part of any other type's events |
| Signals.FlagsAppend | src/index.js:103-111 | the flag events of a trace extended by more events are the old ones followed by the new ones |
| Signals.FlagsAfterEmit | src/index.js:103-111 | emitting signals for one type adds flag events to that type's history alone |
| Signals.EventName.Label | src/index.js:41-109 | every event name, the part of a channel before the colon, is non-empty and contains no colon |
| Signals.LabelsDiffer | src/index.js:41-109 | different event names have different labels |
| Signals.ChannelMatches | src/index.js:41-109 | a listener on `name:type` receives an event exactly when the event has that name and that type, so the per-type projection of the trace is what that type's listeners receive |
| Signals.FlipKeepsAlternation | src/index.js:103-111 | flipping the flag with its matching event keeps `queueRunning`/`queueDrained` alternating, in step with the flag |
| Bookkeeping.Settle | src/index.js:71-76 | a returned value resolves the promise with that value; a thrown error rejects it with that error; it is no longer pending |
| Bookkeeping.Items | src/index.js:132-134 | a type with no queue yet has an empty one |
| Bookkeeping.QuietEmit | src/index.js:82-101 | an event other than `queueRunning`/`queueDrained` keeps every type's flag history in step with its flag |
| Bookkeeping.FlipEmit | src/index.js:103-111 | setting a clear flag with `queueRunning`, or clearing a set one with `queueDrained`, keeps the flag histories in step |
| Bookkeeping.RestartFlags | src/index.js:114-119 | after `define` clears the flag, the type's flag history restarts from that point |
| Bookkeeping.StartKeepsPlaces | src/index.js:64-67 | moving the head of a queue to the running items keeps each item in exactly one place, with queues in push order and running items distinct |
| Bookkeeping.StartKeepsCounters | src/index.js:82-86 | a start below the cap keeps `count == running − stale` and keeps the count within the cap |
| Bookkeeping.FinishKeepsPlaces | src/index.js:69-76 | removing a settled item from the running items keeps every other item where it was |
| Bookkeeping.SettleKeepsPromises | src/index.js:71-76 | only an item that has not settled can settle; its promise was pending until then and is settled afterwards |
| Bookkeeping.FinishKeepsCounters | src/index.js:88-91 | a completion takes one from the count and removes one running item, keeping `count == running − stale` and the cap |
| Bookkeeping.PushKeepsPlaces | src/index.js:126-140 | a pushed item gets the next promise, pending, at the end of its queue; queues stay in push order |
| Bookkeeping.DefineKeepsCounters | src/index.js:114-119 | `define` resets the count to 0; the handlers still running become stale, and the invariant still holds |
| Scheduler.UntouchedLanes | src/index.js:21-26 | a step confined to one type leaves every other type's slice and running items as they were |
| Scheduler.CounterBounds | src/index.js:34 | the count never exceeds the cap. Count plus stale equals the number of running handlers, so with none stale the count is exactly that number and never negative |
| Scheduler.OnePlaceEach | src/index.js:64-76 | no item is both queued and running, and every queued or running item's promise is still pending |
| Scheduler.EmittedKeeps | src/index.js:40-45 | emitting `delayed` or `concurrencyReached` keeps every invariant |
| Scheduler.FlippedKeeps | src/index.js:103-111 | `markQueueRunning` on a clear flag, or `markQueueDrained` on a set one, keeps every invariant |
| Scheduler.FlippedKeepsFlags | src/index.js:103-111 | the same, for the flag histories |
| Scheduler.LaunchedKeeps | src/index.js:64-69 | starting the head of a queue below the cap keeps every invariant; the item is now running |
| Scheduler.LaunchedKeepsPlaces | src/index.js:64-69 | the same, for the items' places and the promises |
| Scheduler.LaunchedKeepsCounts | src/index.js:82-86 | the same, for the counts |
| Scheduler.LaunchedKeepsFlags | src/index.js:85 | the same, for the flag histories |
| Scheduler.SettledKeeps | src/index.js:71-79 | a running item settling keeps every invariant. Its promise was pending until then, so no promise settles twice |
| Scheduler.SettledKeepsPlaces | src/index.js:71-76 | the same, for the places and the promises |
| Scheduler.SettledKeepsCounts | src/index.js:88-91 | the same, for the counts |
| Scheduler.SettledKeepsFlags | src/index.js:88-101 | the same, for the flag histories |
| Scheduler.EnqueuedKeeps | src/index.js:126-140 | `push` keeps every invariant |
| Scheduler.DefinedKeeps | src/index.js:114-119 | `define`, even of a type whose handlers are running, keeps every invariant |
| Scheduler.EmittedAgrees | src/index.js:41 | emitting an event changes only the trace, by exactly that event |
| Scheduler.FlippedAgrees | src/index.js:103-111 | a flag change changes only the flag, and the trace by exactly the matching event |
| Scheduler.StartAgrees | src/index.js:64-86 | `runTask` takes the head off, adds one to the count, records `now`, emits `started`, and marks the head running; it changes nothing else |
| Scheduler.LaunchedStaysInLane | src/index.js:64-86 | `runTask` leaves every other type alone |
| Scheduler.LaunchedAgrees | src/index.js:35-39 | setting a clear flag and then `runTask` is exactly the start case of `Dispatch` |
| Scheduler.TriedAgrees | src/index.js:28-55 | `tryRunTask` on the closure does to the type's slice exactly what `Dispatch` specifies. It emits exactly `Dispatch`'s signals, marks running exactly the item `Dispatch` starts, settles no promise, and leaves every other type alone |
| Scheduler.SettledAgrees | src/index.js:71-76 | a handler settling does to the slice exactly what `Finish` specifies. It emits exactly `Finish`'s signals, settles exactly that item's promise with the handler's outcome, and leaves every other type alone |
| Scheduler.SettledStaysInLane | src/index.js:71-76 | a handler settling leaves every other type alone |
| Scheduler.EnqueuedAgrees | lib/index.js:126-141 | `push` adds exactly one item, with the next pending promise, as `Enqueue` specifies. It emits nothing and leaves every other type alone |
| Scheduler.DefinedAgrees | lib/index.js:114-119 | `define` gives the type a fresh slice with the given or empty options, count 0, flag clear, and the queued items and last start kept; on a known type that is exactly `Redefine` |
| TaskQueues.TaskQueue.constructor | src/index.js:20-26 | a new scheduler has every map empty, an empty trace and no promises, and satisfies the invariant |
| TaskQueues.TaskQueue.Emit | src/index.js:41 | appends exactly one event to the trace |
| TaskQueues.TaskQueue.MarkStarted | src/index.js:82-86 | the new state is `markStarted` applied to the old |
| TaskQueues.TaskQueue.MarkFinished | src/index.js:88-91 | the new state is `markFinished` applied to the old |
| TaskQueues.TaskQueue.MarkSuccess | src/index.js:93-96 | the new state is `markFinished` then `success` applied to the old |
| TaskQueues.TaskQueue.MarkFailed | src/index.js:98-101 | the new state is `markFinished` then `failed` applied to the old |
| TaskQueues.TaskQueue.MarkQueueRunning | src/index.js:103-106 | emits `queueRunning`, then sets the flag |
| TaskQueues.TaskQueue.MarkQueueDrained | src/index.js:108-111 | emits `queueDrained`, then clears the flag |
| TaskQueues.TaskQueue.RunTask | src/index.js:64-69 | starts exactly the head of the queue and keeps the invariant, given room under the cap |
| TaskQueues.TaskQueue.TryRunTask | src/index.js:28-55 | keeps the invariant. Its decision, the type's new slice and the emitted events are exactly those of `Dispatch`; it settles no promise and changes no other type |
| TaskQueues.TaskQueue.Conclude | lib/index.js:71-76 | the settled item's promise was pending. The count drops, `finished` and `success`/`failed` are emitted, and the promise is resolved or rejected with the handler's outcome; the invariant holds |
| TaskQueues.TaskQueue.Complete | lib/index.js:71-79 | keeps the invariant and settles exactly the completed item's pending promise. The type's slice and events are `Finish` followed by `Dispatch`, and no other type changes |
| TaskQueues.TaskQueue.Accept | lib/index.js:126-141 | gives the item the next promise, pending, and appends it to the type's queue, which is created if absent; the invariant holds |
| TaskQueues.TaskQueue.Push | lib/index.js:120-147 | fails with "No such task type exists." exactly when the type has no handler, and then changes nothing. Otherwise it returns the next promise, pending, and the type's slice and events are exactly those of `Dispatch` after `Enqueue`; no other type changes |
| TaskQueues.TaskQueue.Define | lib/index.js:114-119 | installs the handler and options (`{}` when absent), resets the count to 0 and clears the flag, keeps queued items and the last start, and keeps the invariant |
| Runs.Step | src/index.js:28-146 | a push enqueues and dispatches, a retry or a chain's last `.then` only dispatches, and a handler settling only does the finish bookkeeping. Each event starts at most one item, and the trace and start history only grow |
| Runs.DispatchKeepsAlternation | src/index.js:35-37 | a dispatch keeps `queueRunning`/`queueDrained` alternating, in step with the flag |
| Runs.StartKeepsSpacing | src/index.js:30-33 | a start at least one interval after the previous one keeps all start times spaced by the interval |
| Runs.CommitKeepsInv | src/index.js:28-55 | a dispatch keeps a type's state consistent with its history (count, cap, flag alternation, spacing of starts, push order) |
| Runs.StepKeepsInv | src/index.js:64-146 | a push, a dispatch or a handler settling keeps the state consistent with the history |
| Runs.RunKeepsInv | src/index.js:28-146 | any sequence of events keeps the state consistent with the history |
| Runs.RunFromDefine | src/index.js:114-119 | a run that starts right after `define` stays consistent |
| Runs.CounterWithinCap | src/index.js:34 | without a re-`define`, the count always equals the number of running handlers and never exceeds the cap |
| Runs.OneAtATime | src/index.js:29-34 | with a concurrency of 1, at most one handler of the type runs at a time |
| Runs.StartsInPushOrder | src/index.js:65 | items start in FIFO order: the started items followed by the still queued ones are exactly the pushed ones, in push order |
| Runs.StartsEachTaskOnce | src/index.js:65 | no item starts twice, and no started item is still queued |
| Runs.SpacedApart | src/index.js:30-33 | with every gap at least `gap`, the k-th later time is at least k gaps later |
| Runs.StartsSpacedByInterval | src/index.js:30-33 | starts are at least one interval apart. The first comes at least one interval after the last start before the run (time 0 if none), and the k-th later start at least k intervals after |
| Runs.QueueSignalsAlternate | src/index.js:103-111 | `queueRunning` and `queueDrained` strictly alternate, starting with `queueRunning`, and the flag tells which came last |
| Runs.DrainedWhileRunning | src/index.js:69-79 | the settlement (lines 71-73) and the re-dispatch (lines 77-79) are separate callbacks. With a cap of 1, a `push` between them starts the new item at once, and the re-dispatch then emits `queueDrained` while that item runs; this trace is a run of the model |

## Left out

- Object keys: the maps are `map<string, …>`. Plain-object quirks, such as a task type named after an inherited property like `constructor`, are not modelled.
- The EventEmitter and its listeners: emitted events are recorded in a trace, and listeners are assumed not to throw. A listener throwing during `markSuccess` would be caught by the `.catch` of the same chain, and `markFailed` would take a second one from the count.
- Promises: bluebird, `Promise.try` and the resolve/reject pair are modelled as one settlement record per item (pending, resolved, rejected). Asynchrony itself is not modelled. The rejected promise `push` returns for an unknown type is the `Err` result.
- Handlers: they are opaque. Their running is the item being in the running list, and their settling is the external `Complete` call on a running item, addressed by its position in that list.
- Listeners that call back into the scheduler: listeners are assumed neither to throw nor to call `push` or `define`. `emit` runs listeners synchronously, and `markQueueRunning` (src/index.js:103-106) emits before it sets the flag. Take concurrency 1, item A queued, and a `queueRunning` listener that pushes item B once. The nested `tryRunTask` still sees the flag clear, so it emits a second `queueRunning` and starts A. The outer call then reaches `runTask` (src/index.js:39) without checking the cap again (src/index.js:34), and starts B as well. Two handlers run under a cap of 1, and `queueRunning` is emitted twice in a row. The model treats each emit as atomic, so it cannot produce this behaviour of the source, and its cap and alternation theorems do not cover it.
- Timers and the clock: `Date.now()` is the parameter `now` (see the next line), and `setTimeout` is the `Deferred(waitTime)` decision followed by a later call to `TryRunTask`. Several pending retries may exist at once, since each is just another call.
- Runs.StartsSpacedByInterval: the source reads the clock twice per start, once for the check in `remainingInterval` (src/index.js:61) and once for the record in `markStarted` (src/index.js:84). `Lanes.Dispatch` and `TaskQueues.TaskQueue.TryRunTask` use one reading `now` for both. The spacing of recorded starts therefore assumes the wall clock does not step back between those two lines.
- Numbers: the interval is held as a whole number of milliseconds, so intervals such as 0.5 seconds are covered. Intervals finer than a millisecond, floating-point rounding of `interval * 1000`, and a non-integer or `NaN` cap are not modelled; the cap is a natural number or `Infinity`.
- Options by reference: `define` stores the caller's options object itself (src/index.js:116), and every dispatch reads `concurrency` and `interval` from it again (src/index.js:29, 58). The model stores the options as a value, fixed at `define`. It thus assumes the caller never changes the object afterwards. If the caller does, the cap and spacing theorems (`Scheduler.CounterBounds`, `Runs.CounterWithinCap`, `Runs.StartsSpacedByInterval`) need not hold. For example, lowering `concurrency` from 2 to 1 while two handlers run leaves the count above the new cap.
- Runs: whole-run theorems reach the class through the functions both share. Each class operation is proved to act on its type's slice and events exactly as the `Lanes` function does (`TaskQueue.TryRunTask`, `Complete`, `Push`). `Runs.Step` is built from those same functions. No separate lemma maps a sequence of class calls to a `Runs.Run`.
- `TaskQueueError` construction: the error is the `NoSuchTaskType` variant, whose message is "No such task type exists.".
- The closure's six maps, the trace, the promises and the running items are held as one record field `env` of the class, not as separate fields. The methods update it field by field in the source's order.
- Scheduler.CounterBounds: after a `define` while handlers of the type are still running, the count restarts at 0 and later drops below 0. The number of running handlers can then exceed the cap. The model proves only the upper bound of the count in general, plus the exact count for types with no stale handlers.
- Runs.RunFromDefine: whole-run theorems cover the runs after a `define` made while no handler of the type was running, and with no further `define` in the run. The class invariant covers re-definitions, but for alternation only since the last `define`, because `define` clears the flag without emitting an event.
- test.js is not part of this model: it is a demonstration script with no assertions.
