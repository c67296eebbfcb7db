/** The lifecycle notifications the scheduler emits. Every notification is
    emitted on the channel `name:type`; task-level ones carry the task's
    data, queue-level ones carry nothing. */
module Signals {
  import opened Defaults

  /** A task type is a string key. */
  type TaskType = string

  datatype EventName =
    | Started | Finished | Success | Failed
    | QueueRunning | QueueDrained | Delayed | ConcurrencyReached
  {
    /** The name as it appears in front of the colon of the channel. */
    function Label(): (s: string)
      ensures |s| > 0 && ':' !in s
    {
      match this
      case Started => "started"
      case Finished => "finished"
      case Success => "success"
      case Failed => "failed"
      case QueueRunning => "queueRunning"
      case QueueDrained => "queueDrained"
      case Delayed => "delayed"
      case ConcurrencyReached => "concurrencyReached"
    }
  }

  /** A notification of one type, before the type is attached. */
  datatype Signal<V> = Signal(name: EventName, payload: Option<V>)

  /** A notification as it appears in the scheduler's event trace. */
  datatype Event<V> = Event(taskType: TaskType, signal: Signal<V>)
  {
    /** The channel a listener subscribes to, e.g. "started:build". */
    function Channel(): string
    {
      signal.name.Label() + ":" + taskType
    }
  }

  /** Different names have different labels. */
  lemma LabelsDiffer(m: EventName, n: EventName)
    ensures m.Label() == n.Label() ==> m == n
  {
  }

  /** The position of the first colon of `s`, or `|s|` when there is none. */
  function FirstColon(s: string): (k: nat)
    ensures k <= |s|
  {
    if |s| == 0 || s[0] == ':' then 0 else 1 + FirstColon(s[1..])
  }

  /** In `a:x`, with no colon in `a`, the first colon comes right after `a`. */
  lemma {:induction false} ColonAfter(a: string, x: string)
    requires ':' !in a
    ensures FirstColon(a + ":" + x) == |a|
  {
    if |a| != 0 {
      assert a[0] in a;
      assert (a + ":" + x)[1..] == a[1..] + ":" + x;
      assert forall i :: 0 <= i < |a[1..]| ==> a[1..][i] == a[i + 1];
      ColonAfter(a[1..], x);
    }
  }

  /** A listener on `name:type` receives exactly the events of that name and
      that type: since no label contains a colon, the channel determines both. */
  lemma ChannelMatches<V>(e: Event<V>, n: EventName, t: TaskType)
    ensures e.Channel() == n.Label() + ":" + t <==> e.signal.name == n && e.taskType == t
  {
    var a, b := e.signal.name.Label(), n.Label();
    var c := e.Channel();
    if c == b + ":" + t {
      assert c == a + ":" + e.taskType;
      ColonAfter(a, e.taskType);
      ColonAfter(b, t);
      assert a == c[..|a|] == b;
      LabelsDiffer(e.signal.name, n);
      assert e.taskType == c[|a| + 1..] == t;
    }
  }

  /** The events that emitting the given signals for type `t` appends. */
  ghost function Tag<V>(t: TaskType, sigs: seq<Signal<V>>): (r: seq<Event<V>>)
    ensures |r| == |sigs|
    ensures forall i :: 0 <= i < |sigs| ==> r[i] == Event(t, sigs[i])
  {
    if |sigs| == 0 then [] else [Event(t, sigs[0])] + Tag(t, sigs[1..])
  }

  /** The signals of type `t` in a trace, in emission order. */
  ghost function Project<V>(evs: seq<Event<V>>, t: TaskType): seq<Signal<V>>
  {
    if |evs| == 0 then []
    else (if evs[0].taskType == t then [evs[0].signal] else []) + Project(evs[1..], t)
  }

  /** The running-flag transitions a list of signals records: `true` for
      each `queueRunning`, `false` for each `queueDrained`. */
  ghost function Flags<V>(sigs: seq<Signal<V>>): seq<bool>
  {
    if |sigs| == 0 then []
    else
      (match sigs[0].name
       case QueueRunning => [true]
       case QueueDrained => [false]
       case _ => []) + Flags(sigs[1..])
  }

  /** `queueRunning` and `queueDrained` strictly alternate, starting with
      `queueRunning`, and the flag is set exactly when the last of them was
      `queueRunning`. */
  ghost predicate Alternates(h: seq<bool>, flag: bool)
  {
    (forall i :: 0 <= i < |h| ==> h[i] == (i % 2 == 0))
    && (flag <==> |h| % 2 == 1)
  }

  lemma {:induction false} ProjectAppend<V>(a: seq<Event<V>>, b: seq<Event<V>>, t: TaskType)
    ensures Project(a + b, t) == Project(a, t) + Project(b, t)
  {
    if |a| == 0 {
      assert a + b == b;
    } else {
      var head: seq<Signal<V>> := if a[0].taskType == t then [a[0].signal] else [];
      assert (a + b)[0] == a[0];
      assert (a + b)[1..] == a[1..] + b;
      ProjectAppend(a[1..], b, t);
      calc {
        Project(a + b, t);
        head + Project(a[1..] + b, t);
        head + (Project(a[1..], t) + Project(b, t));
        (head + Project(a[1..], t)) + Project(b, t);
      }
    }
  }

  /** Emitting signals for `t` adds exactly those signals to `t`'s part of the
      trace and nothing to any other type's part. */
  lemma {:induction false} ProjectTag<V>(t: TaskType, sigs: seq<Signal<V>>, u: TaskType)
    ensures Project(Tag(t, sigs), u) == if u == t then sigs else []
  {
    if |sigs| != 0 {
      var r := Tag(t, sigs);
      assert r[1..] == Tag(t, sigs[1..]);
      ProjectTag(t, sigs[1..], u);
    }
  }

  lemma {:induction false} FlagsAppend<V>(a: seq<Signal<V>>, b: seq<Signal<V>>)
    ensures Flags(a + b) == Flags(a) + Flags(b)
  {
    if |a| == 0 {
      assert a + b == b;
    } else {
      assert (a + b)[1..] == a[1..] + b;
      FlagsAppend(a[1..], b);
    }
  }

  /** The part of `t`'s trace after position `k`, once `sigs` have been
      emitted for type `e`, records the old transitions followed by those of
      `sigs` when `e` is `t`. */
  lemma FlagsAfterEmit<V>(evs: seq<Event<V>>, k: nat, e: TaskType, sigs: seq<Signal<V>>, t: TaskType)
    requires k <= |evs|
    ensures Flags(Project((evs + Tag(e, sigs))[k..], t))
         == Flags(Project(evs[k..], t)) + (if e == t then Flags(sigs) else [])
  {
    assert (evs + Tag(e, sigs))[k..] == evs[k..] + Tag(e, sigs);
    ProjectAppend(evs[k..], Tag(e, sigs), t);
    ProjectTag(e, sigs, t);
    FlagsAppend(Project(evs[k..], t), Project(Tag(e, sigs), t));
  }

  /** Appending a `queueRunning` while the flag is clear, or a `queueDrained`
      while it is set, keeps the transitions alternating. */
  lemma FlipKeepsAlternation(h: seq<bool>, flag: bool)
    requires Alternates(h, flag)
    ensures Alternates(h + [!flag], !flag)
  {
    var h' := h + [!flag];
    forall i | 0 <= i < |h'| ensures h'[i] == (i % 2 == 0) {
      if i < |h| { assert h'[i] == h[i]; }
    }
  }
}
