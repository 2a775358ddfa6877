/** `SupportNotificationQueue`: per-stream-key scheduling of support alerts.

    Each stream key owns a priority "test" list and a "main" list and at most
    one processor. A processor waits a settle delay once, then repeatedly pops
    the next notification (test list first), hands it to the registered
    callback, waits the kind's display duration and then the space delay, and
    finally deletes every trace of the key when both lists are empty.

    JavaScript runs every synchronous stretch of code without interruption,
    so the model is a state machine whose transitions are those stretches:
    an enqueue (which may start a processor), a callback registration, the
    passage of time, and the resumption of one suspended processor. Timers
    are replaced by a natural-number clock: a suspended processor records the
    instant its timer fires, and it is resumed exactly then. */
module NotificationQueue {
  import opened Optional
  import opened SupportTypes
  import opened QueueConfig

  type Key = string

  /** Identifies a registered callback; the callback itself is the caller's. */
  type CallbackId = nat

  /** The one-off wait before a new processor takes its first notification. */
  const SETTLE_DELAY: nat := 100

  /** Where a running processor is suspended, and until when. */
  datatype Phase =
    | Settling(wake: nat)    // the initial settle delay
    | Displaying(wake: nat)  // the display duration of the last delivery
    | Spacing(wake: nat)     // the space delay after it

  /** One pass through the processor's delivery statement: the notification
      taken, the list it came from, the time, and the callback that received
      it (`None` when no callback was registered, so nobody received it). */
  datatype Delivery<P> = Delivery(
    key: Key, item: Notification<P>, fromTest: bool, at: nat, callback: Option<CallbackId>)

  /** One accepted call of `addNotification` or `addNotificationTest`. */
  datatype Request<P> = Request(key: Key, item: Notification<P>, toTest: bool)

  /** The scheduler's state. `mainQueues`, `testQueues` and the key set of
      `started` are the three maps of `SupportNotificationQueue`; the phase stored in
      `started` is the point where that key's processor is suspended.
      `requests` and `log` record the history, for stating properties. */
  datatype Queue<P> = Queue(
    config: Config,
    mainQueues: map<Key, seq<Notification<P>>>,
    testQueues: map<Key, seq<Notification<P>>>,
    started: map<Key, Phase>,
    callback: Option<CallbackId>,
    now: nat,
    requests: seq<Request<P>>,
    log: seq<Delivery<P>>)

  /** Everything the three maps hold for one key. */
  datatype Lane<P> = Lane(
    main: Option<seq<Notification<P>>>,
    test: Option<seq<Notification<P>>>,
    phase: Option<Phase>)

  function LaneOf<P>(q: Queue<P>, k: Key): Lane<P> {
    Lane(Get(q.mainQueues, k), Get(q.testQueues, k), Get(q.started, k))
  }

  /** The notifications waiting on one of a key's lists; an absent list is
      empty, as the processor's `testQueue && testQueue.length > 0` reads it. */
  function Pending<P>(q: Queue<P>, k: Key, test: bool): seq<Notification<P>> {
    (if test then LaneOf(q, k).test else LaneOf(q, k).main).GetOr([])
  }

  predicate Running<P>(q: Queue<P>, k: Key) {
    LaneOf(q, k).phase.Some?
  }

  /** The instant a suspended processor will next look at its lists. */
  function NextLook(p: Phase, c: Config): nat {
    match p
    case Settling(w) => w
    case Displaying(w) => w + c.space
    case Spacing(w) => w
  }

  /** A new scheduler: every map empty, no callback. */
  function Create<P>(options: Option<Options>, now: nat): (q: Queue<P>)
    ensures q.config == MakeConfig(options)
    ensures forall k :: LaneOf(q, k) == Lane(None, None, None)
    ensures q.callback == None && q.now == now
    ensures q.log == [] && q.requests == []
  {
    Queue(MakeConfig(options), map[], map[], map[], None, now, [], [])
  }

  /** `startQueueProcessor` up to its first `await`: a key that already has a
      processor is left alone; otherwise one is marked started and begins its
      settle delay. */
  function StartQueueProcessor<P>(q: Queue<P>, k: Key): (q': Queue<P>)
    ensures q'.started.Keys == q.started.Keys + {k}
    ensures forall j :: j in q.started ==> q'.started[j] == q.started[j]
    ensures k !in q.started ==> q'.started[k] == Settling(q.now + SETTLE_DELAY)
    ensures q'.mainQueues == q.mainQueues && q'.testQueues == q.testQueues && q'.log == q.log
    ensures q'.now == q.now && q'.config == q.config && q'.callback == q.callback && q'.requests == q.requests
  {
    if k in q.started then q
    else q.(started := q.started[k := Settling(q.now + SETTLE_DELAY)])
  }

  /** `addNotification` (`toTest` false) and `addNotificationTest` (`toTest`
      true): fetch or create the key's list, push the notification to its
      back, and start the processor. */
  function Enqueue<P>(q: Queue<P>, k: Key, n: Notification<P>, toTest: bool): (q': Queue<P>)
    ensures Pending(q', k, toTest) == Pending(q, k, toTest) + [n]
    ensures Pending(q', k, !toTest) == Pending(q, k, !toTest)
    ensures LaneOf(q', k).main.Some? == (LaneOf(q, k).main.Some? || !toTest)
    ensures LaneOf(q', k).test.Some? == (LaneOf(q, k).test.Some? || toTest)
    ensures Running(q, k) ==> LaneOf(q', k).phase == LaneOf(q, k).phase
    ensures !Running(q, k) ==> LaneOf(q', k).phase == Some(Settling(q.now + SETTLE_DELAY))
    ensures forall j :: j != k ==> LaneOf(q', j) == LaneOf(q, j)
    ensures q'.requests == q.requests + [Request(k, n, toTest)]
    ensures q'.log == q.log && q'.now == q.now && q'.config == q.config && q'.callback == q.callback
  {
    var q1 :=
      if toTest then q.(testQueues := q.testQueues[k := Pending(q, k, true) + [n]])
      else q.(mainQueues := q.mainQueues[k := Pending(q, k, false) + [n]]);
    StartQueueProcessor(q1.(requests := q.requests + [Request(k, n, toTest)]), k)
  }

  function AddNotification<P>(q: Queue<P>, k: Key, n: Notification<P>): (q': Queue<P>)
    ensures Pending(q', k, false) == Pending(q, k, false) + [n]
    ensures Pending(q', k, true) == Pending(q, k, true)
    ensures Running(q', k)
  {
    Enqueue(q, k, n, false)
  }

  function AddNotificationTest<P>(q: Queue<P>, k: Key, n: Notification<P>): (q': Queue<P>)
    ensures Pending(q', k, true) == Pending(q, k, true) + [n]
    ensures Pending(q', k, false) == Pending(q, k, false)
    ensures Running(q', k)
  {
    Enqueue(q, k, n, true)
  }

  /** `setNotifyCallback`: the single slot is overwritten; nothing else moves. */
  function SetNotifyCallback<P>(q: Queue<P>, cb: CallbackId): (q': Queue<P>)
    ensures q'.callback == Some(cb)
    ensures forall k :: LaneOf(q', k) == LaneOf(q, k)
    ensures q'.log == q.log && q'.now == q.now && q'.requests == q.requests
  {
    q.(callback := Some(cb))
  }

  /** The result of the processor's dequeue decision. */
  datatype Pop<P> = Pop(item: Notification<P>, fromTest: bool, test: seq<Notification<P>>, main: seq<Notification<P>>)

  /** The dequeue decision: the head of the test list if it has one,
      otherwise the head of the main list, otherwise nothing. It takes the
      front of `test + main`: test items come first and each list is FIFO. */
  function PopNext<P>(test: seq<Notification<P>>, main: seq<Notification<P>>): (r: Option<Pop<P>>)
    ensures r.None? <==> test == [] && main == []
    ensures r.Some? ==> [r.value.item] + r.value.test + r.value.main == test + main
    ensures r.Some? ==> (r.value.fromTest <==> test != [])
    ensures r.Some? && r.value.fromTest ==> [r.value.item] + r.value.test == test && r.value.main == main
    ensures r.Some? && !r.value.fromTest ==> [r.value.item] + r.value.main == main && r.value.test == test
  {
    if |test| > 0 then Some(Pop(test[0], true, test[1..], main))
    else if |main| > 0 then Some(Pop(main[0], false, test, main[1..]))
    else None
  }

  /** A processor may resume when its timer fires. */
  predicate CanResume<P>(q: Queue<P>, k: Key) {
    k in q.started && q.started[k].wake == q.now
  }

  /** The processor's loop body once a list is non-empty: shift the item off
      its list, call the callback (if any) with key and item, and await the
      display duration; a kind the `switch` does not name skips straight to
      the space delay. */
  function Deliver<P>(q: Queue<P>, k: Key, p: Pop<P>): (q': Queue<P>)
    requires k in q.started
    requires PopNext(Pending(q, k, true), Pending(q, k, false)) == Some(p)
    ensures forall j :: j != k ==> LaneOf(q', j) == LaneOf(q, j)
    ensures q'.now == q.now && q'.config == q.config && q'.callback == q.callback && q'.requests == q.requests
    ensures q'.log == q.log + [Delivery(k, p.item, p.fromTest, q.now, q.callback)]
    ensures Pending(q', k, p.fromTest) == (if p.fromTest then p.test else p.main)
    ensures [p.item] + Pending(q', k, p.fromTest) == Pending(q, k, p.fromTest)
    ensures Pending(q', k, !p.fromTest) == Pending(q, k, !p.fromTest)
    ensures LaneOf(q', k).main.Some? == LaneOf(q, k).main.Some? && LaneOf(q', k).test.Some? == LaneOf(q, k).test.Some?
    ensures k in q'.started && q'.started[k].wake >= q.now
    ensures NextLook(q'.started[k], q.config) == q.now + WaitAfter(q.config, p.item.kind)
  {
    var q1 :=
      if p.fromTest then q.(testQueues := q.testQueues[k := p.test])
      else q.(mainQueues := q.mainQueues[k := p.main]);
    var next :=
      if Recognised(p.item.kind) then Displaying(q.now + DisplayDuration(q.config, p.item.kind))
      else Spacing(q.now + q.config.space);
    q1.(log := q.log + [Delivery(k, p.item, p.fromTest, q.now, q.callback)],
        started := q.started[k := next])
  }

  /** The processor's exit: both lists are empty, so all three maps forget
      the key. */
  function Cleanup<P>(q: Queue<P>, k: Key): (q': Queue<P>)
    ensures forall j :: j != k ==> LaneOf(q', j) == LaneOf(q, j)
    ensures LaneOf(q', k) == Lane(None, None, None)
    ensures q'.log == q.log && q'.now == q.now && q'.config == q.config
    ensures q'.callback == q.callback && q'.requests == q.requests
  {
    q.(testQueues := q.testQueues - {k}, mainQueues := q.mainQueues - {k}, started := q.started - {k})
  }

  /** One resumption of the processor of `k`, when its timer fires. After the
      display duration it only starts the space delay; after the settle or
      the space delay it runs the loop body once. */
  function Resume<P>(q: Queue<P>, k: Key): (q': Queue<P>)
    requires CanResume(q, k)
    // other keys, and the bookkeeping, are untouched
    ensures forall j :: j != k ==> LaneOf(q', j) == LaneOf(q, j)
    ensures q'.now == q.now && q'.config == q.config && q'.callback == q.callback && q'.requests == q.requests
    // the processor ends exactly when it looks at two empty lists
    ensures !Running(q', k) <==>
      !q.started[k].Displaying? && Pending(q, k, true) == [] && Pending(q, k, false) == []
    ensures !Running(q', k) ==> LaneOf(q', k) == Lane(None, None, None) && q'.log == q.log
    // leaving the display delay starts the space delay and nothing else
    ensures q.started[k].Displaying? ==>
      && q'.log == q.log
      && LaneOf(q', k) == LaneOf(q, k).(phase := Some(Spacing(q.now + q.config.space)))
    // it delivers at most one notification: the front of test + main
    ensures |q'.log| == |q.log| || |q'.log| == |q.log| + 1
    ensures |q'.log| == |q.log| + 1 <==> Running(q', k) && !q.started[k].Displaying?
    ensures |q'.log| == |q.log| + 1 ==>
      var d := q'.log[|q.log|];
      && q'.log == q.log + [d]
      && d.key == k && d.at == q.now && d.callback == q.callback
      && (d.fromTest <==> Pending(q, k, true) != [])
      && [d.item] + Pending(q', k, true) + Pending(q', k, false) == Pending(q, k, true) + Pending(q, k, false)
      && Pending(q', k, !d.fromTest) == Pending(q, k, !d.fromTest)
      && NextLook(q'.started[k], q.config) == q.now + WaitAfter(q.config, d.item.kind)
    // a processor that keeps running keeps its lists' presence
    ensures Running(q', k) ==>
      LaneOf(q', k).main.Some? == LaneOf(q, k).main.Some? && LaneOf(q', k).test.Some? == LaneOf(q, k).test.Some?
  {
    if q.started[k].Displaying? then
      q.(started := q.started[k := Spacing(q.now + q.config.space)])
    else
      match PopNext(Pending(q, k, true), Pending(q, k, false))
      case None => Cleanup(q, k)
      case Some(p) => Deliver(q, k, p)
  }

  /** Time may pass up to the earliest pending timer, but not beyond it. */
  predicate CanAdvance<P>(q: Queue<P>, t: nat) {
    q.now <= t && forall k :: k in q.started ==> t <= q.started[k].wake
  }

  /** A timer firing: the clock moves forward to `t`, which no pending
      timer precedes, and nothing but the clock changes. */
  function Advance<P>(q: Queue<P>, t: nat): (q': Queue<P>)
    requires CanAdvance(q, t)
    ensures q'.now == t && q.now <= q'.now
    ensures forall k :: k in q'.started ==> q'.now <= q'.started[k].wake
    ensures forall k :: LaneOf(q', k) == LaneOf(q, k)
    ensures q'.log == q.log && q'.requests == q.requests && q'.config == q.config && q'.callback == q.callback
  {
    q.(now := t)
  }

  /** The atomic steps of the event loop that touch the scheduler. */
  datatype Step<P> =
    | Add(key: Key, item: Notification<P>)
    | AddTest(key: Key, item: Notification<P>)
    | SetCallback(cb: CallbackId)
    | Tick(until: nat)
    | Wake(key: Key)

  predicate Enabled<P>(q: Queue<P>, s: Step<P>) {
    match s
    case Tick(t) => CanAdvance(q, t)
    case Wake(k) => CanResume(q, k)
    case _ => true
  }

  function Apply<P>(q: Queue<P>, s: Step<P>): Queue<P>
    requires Enabled(q, s)
  {
    match s
    case Add(k, n) => AddNotification(q, k, n)
    case AddTest(k, n) => AddNotificationTest(q, k, n)
    case SetCallback(cb) => SetNotifyCallback(q, cb)
    case Tick(t) => Advance(q, t)
    case Wake(k) => Resume(q, k)
  }

  /** Runs a schedule of steps; `None` if some step is not enabled. */
  function Run<P>(q: Queue<P>, steps: seq<Step<P>>): Option<Queue<P>>
    decreases |steps|
  {
    if steps == [] then Some(q)
    else if Enabled(q, steps[0]) then Run(Apply(q, steps[0]), steps[1..])
    else None
  }
}
