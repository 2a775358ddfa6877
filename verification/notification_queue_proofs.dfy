/** Properties of the support-notification scheduler that hold after every
    sequence of atomic steps: no list is left without a processor, no timer
    is overdue, every accepted notification is either still queued or was
    taken exactly once in FIFO order, and two deliveries to one stream key
    are at least the first one's display duration plus the space delay
    apart. */
module NotificationQueueProofs {
  import opened Optional
  import opened SupportTypes
  import opened QueueConfig
  import opened NotificationQueue

  /** The notifications taken from key `k`'s test (or main) list, in order. */
  function SentOn<P>(log: seq<Delivery<P>>, k: Key, fromTest: bool): seq<Notification<P>>
    decreases |log|
  {
    if log == [] then []
    else
      var d := log[|log| - 1];
      SentOn(log[..|log| - 1], k, fromTest) + (if d.key == k && d.fromTest == fromTest then [d.item] else [])
  }

  /** The notifications accepted for key `k`'s test (or main) list, in order. */
  function Received<P>(reqs: seq<Request<P>>, k: Key, toTest: bool): seq<Notification<P>>
    decreases |reqs|
  {
    if reqs == [] then []
    else
      var r := reqs[|reqs| - 1];
      Received(reqs[..|reqs| - 1], k, toTest) + (if r.key == k && r.toTest == toTest then [r.item] else [])
  }

  lemma SentOnAppend<P>(log: seq<Delivery<P>>, d: Delivery<P>, k: Key, fromTest: bool)
    ensures SentOn(log + [d], k, fromTest)
         == SentOn(log, k, fromTest) + (if d.key == k && d.fromTest == fromTest then [d.item] else [])
  {
    assert (log + [d])[..|log|] == log;
  }

  lemma ReceivedAppend<P>(reqs: seq<Request<P>>, r: Request<P>, k: Key, toTest: bool)
    ensures Received(reqs + [r], k, toTest)
         == Received(reqs, k, toTest) + (if r.key == k && r.toTest == toTest then [r.item] else [])
  {
    assert (reqs + [r])[..|reqs|] == reqs;
  }

  /** When the key's processor next looks at its lists, or the present time
      for a key without a processor. */
  function Horizon<P>(q: Queue<P>, k: Key): nat {
    match LaneOf(q, k).phase
    case None => q.now
    case Some(p) => NextLook(p, q.config)
  }

  /** Any key that has a list also has a processor. */
  ghost predicate NoStrandedItems<P>(q: Queue<P>) {
    && (forall k :: k in q.mainQueues ==> k in q.started)
    && (forall k :: k in q.testQueues ==> k in q.started)
  }

  /** No processor's timer lies in the past. */
  ghost predicate TimersAhead<P>(q: Queue<P>) {
    forall k :: k in q.started ==> q.now <= q.started[k].wake
  }

  /** Taken-so-far followed by still-queued is exactly what was accepted, per
      key and per list: nothing is lost, duplicated or reordered. */
  ghost predicate Ledger<P>(q: Queue<P>) {
    forall k, b :: SentOn(q.log, k, b) + Pending(q, k, b) == Received(q.requests, k, b)
  }

  /** No delivery lies in the future, and the log is in time order. */
  ghost predicate Chronological<P>(q: Queue<P>) {
    && (forall i :: 0 <= i < |q.log| ==> q.log[i].at <= q.now)
    && (forall i, j :: 0 <= i < j < |q.log| ==> q.log[i].at <= q.log[j].at)
  }

  /** Each delivery's display and space delays end no later than the key's
      next look at its lists. */
  ghost predicate WithinHorizon<P>(q: Queue<P>) {
    forall i :: 0 <= i < |q.log| ==>
      q.log[i].at + WaitAfter(q.config, q.log[i].item.kind) <= Horizon(q, q.log[i].key)
  }

  /** Two deliveries to one key are separated by at least the first one's
      display duration plus the space delay. */
  ghost predicate Spaced<P>(log: seq<Delivery<P>>, c: Config) {
    forall i, j :: 0 <= i < j < |log| && log[i].key == log[j].key ==>
      log[i].at + WaitAfter(c, log[i].item.kind) <= log[j].at
  }

  ghost predicate Inv<P>(q: Queue<P>) {
    && NoStrandedItems(q)
    && TimersAhead(q)
    && Ledger(q)
    && Chronological(q)
    && WithinHorizon(q)
    && Spaced(q.log, q.config)
  }

  /** A key's horizon never lies before the present time. */
  lemma HorizonAhead<P>(q: Queue<P>, k: Key)
    requires TimersAhead(q)
    ensures q.now <= Horizon(q, k)
  {
    if k in q.started {
      assert LaneOf(q, k).phase == Some(q.started[k]);
    }
  }

  lemma CreateInv<P>(options: Option<Options>, now: nat)
    ensures Inv(Create<P>(options, now))
  {
    var q := Create<P>(options, now);
    forall k, b ensures SentOn(q.log, k, b) + Pending(q, k, b) == Received(q.requests, k, b) {
      assert LaneOf(q, k) == Lane(None, None, None);
    }
  }

  lemma EnqueueInv<P>(q: Queue<P>, k: Key, n: Notification<P>, toTest: bool)
    requires Inv(q)
    ensures Inv(Enqueue(q, k, n, toTest))
  {
    EnqueueLedger(q, k, n, toTest);
    EnqueueHorizon(q, k, n, toTest);
    EnqueueMaps(q, k, n, toTest);
  }

  lemma EnqueueLedger<P>(q: Queue<P>, k: Key, n: Notification<P>, toTest: bool)
    requires Ledger(q)
    ensures Ledger(Enqueue(q, k, n, toTest))
  {
    var q' := Enqueue(q, k, n, toTest);
    forall j, b ensures SentOn(q'.log, j, b) + Pending(q', j, b) == Received(q'.requests, j, b) {
      ReceivedAppend(q.requests, Request(k, n, toTest), j, b);
      assert SentOn(q.log, j, b) + Pending(q, j, b) == Received(q.requests, j, b);
      if j == k && b == toTest {
        assert SentOn(q'.log, j, b) + Pending(q', j, b) == (SentOn(q.log, j, b) + Pending(q, j, b)) + [n];
      } else {
        assert Pending(q', j, b) == Pending(q, j, b);
      }
    }
  }

  lemma EnqueueHorizon<P>(q: Queue<P>, k: Key, n: Notification<P>, toTest: bool)
    requires WithinHorizon(q)
    ensures WithinHorizon(Enqueue(q, k, n, toTest))
  {
    var q' := Enqueue(q, k, n, toTest);
    forall i | 0 <= i < |q'.log|
      ensures q'.log[i].at + WaitAfter(q'.config, q'.log[i].item.kind) <= Horizon(q', q'.log[i].key)
    {
      var j := q'.log[i].key;
      assert q.log[i].at + WaitAfter(q.config, q.log[i].item.kind) <= Horizon(q, j);
      assert Horizon(q, j) <= Horizon(q', j);
    }
  }

  lemma EnqueueMaps<P>(q: Queue<P>, k: Key, n: Notification<P>, toTest: bool)
    requires NoStrandedItems(q) && TimersAhead(q)
    ensures NoStrandedItems(Enqueue(q, k, n, toTest)) && TimersAhead(Enqueue(q, k, n, toTest))
  {
    var q' := Enqueue(q, k, n, toTest);
    forall j | j in q'.mainQueues ensures j in q'.started {
      assert LaneOf(q', j).main.Some?;
    }
    forall j | j in q'.testQueues ensures j in q'.started {
      assert LaneOf(q', j).test.Some?;
    }
    forall j | j in q'.started ensures q'.now <= q'.started[j].wake {
      assert LaneOf(q', j).phase == Some(q'.started[j]);
    }
  }

  lemma SetCallbackInv<P>(q: Queue<P>, cb: CallbackId)
    requires Inv(q)
    ensures Inv(SetNotifyCallback(q, cb))
  {
    var q' := SetNotifyCallback(q, cb);
    assert q' == q.(callback := Some(cb));
  }

  lemma AdvanceInv<P>(q: Queue<P>, t: nat)
    requires Inv(q) && CanAdvance(q, t)
    ensures Inv(Advance(q, t))
  {
    var q' := Advance(q, t);
    assert q' == q.(now := t);
    forall i | 0 <= i < |q'.log|
      ensures q'.log[i].at + WaitAfter(q'.config, q'.log[i].item.kind) <= Horizon(q', q'.log[i].key)
    {
      var j := q'.log[i].key;
      assert q.log[i].at + WaitAfter(q.config, q.log[i].item.kind) <= Horizon(q, j);
    }
  }

  /** Leaving the display delay for the space delay keeps the invariant:
      the key's next look at its lists does not move. */
  lemma StartSpacingInv<P>(q: Queue<P>, k: Key)
    requires Inv(q) && CanResume(q, k) && q.started[k].Displaying?
    ensures Inv(Resume(q, k))
  {
    var q' := Resume(q, k);
    assert q' == q.(started := q.started[k := Spacing(q.now + q.config.space)]);
    assert Horizon(q', k) == Horizon(q, k);
    forall i | 0 <= i < |q'.log|
      ensures q'.log[i].at + WaitAfter(q'.config, q'.log[i].item.kind) <= Horizon(q', q'.log[i].key)
    {
      var j := q'.log[i].key;
      assert q.log[i].at + WaitAfter(q.config, q.log[i].item.kind) <= Horizon(q, j);
      assert Horizon(q, j) == Horizon(q', j);
    }
  }

  /** The processor's exit keeps the invariant: the key's lists were empty,
      and its horizon becomes the present, which is when it looked. */
  lemma CleanupInv<P>(q: Queue<P>, k: Key)
    requires Inv(q) && CanResume(q, k) && !q.started[k].Displaying?
    requires Pending(q, k, true) == [] && Pending(q, k, false) == []
    ensures Inv(Cleanup(q, k))
  {
    var q' := Cleanup(q, k);
    assert LaneOf(q, k).phase == Some(q.started[k]);
    assert Horizon(q', k) == Horizon(q, k);
    forall i | 0 <= i < |q'.log|
      ensures q'.log[i].at + WaitAfter(q'.config, q'.log[i].item.kind) <= Horizon(q', q'.log[i].key)
    {
      var j := q'.log[i].key;
      assert q.log[i].at + WaitAfter(q.config, q.log[i].item.kind) <= Horizon(q, j);
      assert Horizon(q, j) == Horizon(q', j);
    }
    forall j, b ensures SentOn(q'.log, j, b) + Pending(q', j, b) == Received(q'.requests, j, b) {
      assert SentOn(q.log, j, b) + Pending(q, j, b) == Received(q.requests, j, b);
    }
    forall j | j in q'.mainQueues ensures j in q'.started {
      assert LaneOf(q', j).main.Some? && LaneOf(q, j).main.Some?;
    }
    forall j | j in q'.testQueues ensures j in q'.started {
      assert LaneOf(q', j).test.Some? && LaneOf(q, j).test.Some?;
    }
    forall j | j in q'.started ensures q'.now <= q'.started[j].wake {
      assert LaneOf(q', j).phase == Some(q'.started[j]);
    }
  }

  /** A delivery happens at the key's horizon, which every earlier delivery
      to that key respects, and it moves the horizon to its own end. */
  lemma DeliverTiming<P>(q: Queue<P>, k: Key, p: Pop<P>)
    requires Inv(q) && CanResume(q, k) && !q.started[k].Displaying?
    requires PopNext(Pending(q, k, true), Pending(q, k, false)) == Some(p)
    ensures TimersAhead(Deliver(q, k, p))
    ensures Chronological(Deliver(q, k, p))
    ensures WithinHorizon(Deliver(q, k, p))
    ensures Spaced(Deliver(q, k, p).log, q.config)
  {
    DeliverTimers(q, k, p);
    DeliverChronological(q, k, p);
    DeliverHorizon(q, k, p);
    DeliverSpaced(q, k, p);
  }

  lemma DeliverTimers<P>(q: Queue<P>, k: Key, p: Pop<P>)
    requires TimersAhead(q) && CanResume(q, k)
    requires PopNext(Pending(q, k, true), Pending(q, k, false)) == Some(p)
    ensures TimersAhead(Deliver(q, k, p))
  {
    var q' := Deliver(q, k, p);
    forall j | j in q'.started ensures q'.now <= q'.started[j].wake {
      assert LaneOf(q', j).phase == Some(q'.started[j]);
    }
  }

  lemma DeliverChronological<P>(q: Queue<P>, k: Key, p: Pop<P>)
    requires Chronological(q) && CanResume(q, k)
    requires PopNext(Pending(q, k, true), Pending(q, k, false)) == Some(p)
    ensures Chronological(Deliver(q, k, p))
  {
    var log' := Deliver(q, k, p).log;
    assert log' == q.log + [Delivery(k, p.item, p.fromTest, q.now, q.callback)];
  }

  lemma DeliverHorizon<P>(q: Queue<P>, k: Key, p: Pop<P>)
    requires Inv(q) && CanResume(q, k) && !q.started[k].Displaying?
    requires PopNext(Pending(q, k, true), Pending(q, k, false)) == Some(p)
    ensures WithinHorizon(Deliver(q, k, p))
  {
    var q' := Deliver(q, k, p);
    assert LaneOf(q, k).phase == Some(q.started[k]);
    assert Horizon(q, k) == q.now;
    forall i | 0 <= i < |q'.log|
      ensures q'.log[i].at + WaitAfter(q'.config, q'.log[i].item.kind) <= Horizon(q', q'.log[i].key)
    {
      if i < |q.log| {
        var j := q.log[i].key;
        assert q'.log[i] == q.log[i];
        assert q.log[i].at + WaitAfter(q.config, q.log[i].item.kind) <= Horizon(q, j);
        assert Horizon(q, j) <= Horizon(q', j);
      }
    }
  }

  lemma DeliverSpaced<P>(q: Queue<P>, k: Key, p: Pop<P>)
    requires Inv(q) && CanResume(q, k) && !q.started[k].Displaying?
    requires PopNext(Pending(q, k, true), Pending(q, k, false)) == Some(p)
    ensures Spaced(Deliver(q, k, p).log, q.config)
  {
    var log' := Deliver(q, k, p).log;
    assert LaneOf(q, k).phase == Some(q.started[k]);
    assert Horizon(q, k) == q.now;
    forall i, j | 0 <= i < j < |log'| && log'[i].key == log'[j].key
      ensures log'[i].at + WaitAfter(q.config, log'[i].item.kind) <= log'[j].at
    {
      if j == |q.log| {
        assert log'[i] == q.log[i];
        assert q.log[i].at + WaitAfter(q.config, q.log[i].item.kind) <= Horizon(q, k);
      } else {
        assert log'[i] == q.log[i] && log'[j] == q.log[j];
      }
    }
  }

  /** A delivery keeps the ledger: the item leaves the front of its list and
      joins the end of that list's taken-so-far. */
  lemma DeliverLedger<P>(q: Queue<P>, k: Key, p: Pop<P>)
    requires Ledger(q) && CanResume(q, k)
    requires PopNext(Pending(q, k, true), Pending(q, k, false)) == Some(p)
    ensures Ledger(Deliver(q, k, p))
  {
    assert k in q.testQueues || k in q.mainQueues by {
      assert Pending(q, k, true) != [] || Pending(q, k, false) != [];
    }
    forall j, b ensures SentOn(Deliver(q, k, p).log, j, b) + Pending(Deliver(q, k, p), j, b) == Received(q.requests, j, b) {
      DeliverLedgerAt(q, k, p, j, b);
    }
  }

  lemma DeliverLedgerAt<P>(q: Queue<P>, k: Key, p: Pop<P>, j: Key, b: bool)
    requires Ledger(q) && CanResume(q, k)
    requires PopNext(Pending(q, k, true), Pending(q, k, false)) == Some(p)
    ensures SentOn(Deliver(q, k, p).log, j, b) + Pending(Deliver(q, k, p), j, b) == Received(q.requests, j, b)
  {
    assert SentOn(q.log, j, b) + Pending(q, j, b) == Received(q.requests, j, b);
    if j == k && b == p.fromTest {
      DeliverLedgerTaken(q, k, p);
    } else {
      DeliverLedgerOther(q, k, p, j, b);
    }
  }

  /** The list the item came from lost exactly that item, which the log gained. */
  lemma DeliverLedgerTaken<P>(q: Queue<P>, k: Key, p: Pop<P>)
    requires CanResume(q, k)
    requires PopNext(Pending(q, k, true), Pending(q, k, false)) == Some(p)
    ensures SentOn(Deliver(q, k, p).log, k, p.fromTest) + Pending(Deliver(q, k, p), k, p.fromTest)
         == SentOn(q.log, k, p.fromTest) + Pending(q, k, p.fromTest)
  {
    var q' := Deliver(q, k, p);
    var b := p.fromTest;
    SentOnAppend(q.log, Delivery(k, p.item, p.fromTest, q.now, q.callback), k, b);
    assert [p.item] + Pending(q', k, b) == Pending(q, k, b);
    assert SentOn(q'.log, k, b) + Pending(q', k, b)
        == SentOn(q.log, k, b) + ([p.item] + Pending(q', k, b));
  }

  /** Every other list and its share of the log are untouched. */
  lemma DeliverLedgerOther<P>(q: Queue<P>, k: Key, p: Pop<P>, j: Key, b: bool)
    requires CanResume(q, k)
    requires PopNext(Pending(q, k, true), Pending(q, k, false)) == Some(p)
    requires j != k || b != p.fromTest
    ensures SentOn(Deliver(q, k, p).log, j, b) == SentOn(q.log, j, b)
    ensures Pending(Deliver(q, k, p), j, b) == Pending(q, j, b)
  {
    SentOnAppend(q.log, Delivery(k, p.item, p.fromTest, q.now, q.callback), j, b);
  }

  lemma DeliverInv<P>(q: Queue<P>, k: Key, p: Pop<P>)
    requires Inv(q) && CanResume(q, k) && !q.started[k].Displaying?
    requires PopNext(Pending(q, k, true), Pending(q, k, false)) == Some(p)
    ensures Inv(Deliver(q, k, p))
  {
    var q' := Deliver(q, k, p);
    DeliverTiming(q, k, p);
    DeliverLedger(q, k, p);
    forall j | j in q'.mainQueues ensures j in q'.started {
      assert LaneOf(q', j).main.Some?;
      if j != k { assert LaneOf(q, j).main.Some?; }
    }
    forall j | j in q'.testQueues ensures j in q'.started {
      assert LaneOf(q', j).test.Some?;
      if j != k { assert LaneOf(q, j).test.Some?; }
    }
  }

  lemma ResumeInv<P>(q: Queue<P>, k: Key)
    requires Inv(q) && CanResume(q, k)
    ensures Inv(Resume(q, k))
  {
    if q.started[k].Displaying? {
      StartSpacingInv(q, k);
    } else {
      match PopNext(Pending(q, k, true), Pending(q, k, false))
      case None => CleanupInv(q, k);
      case Some(p) => DeliverInv(q, k, p);
    }
  }

  /** Every enabled step preserves the invariant. */
  lemma StepInv<P>(q: Queue<P>, s: Step<P>)
    requires Inv(q) && Enabled(q, s)
    ensures Inv(Apply(q, s))
  {
    match s
    case Add(k, n) => EnqueueInv(q, k, n, false);
    case AddTest(k, n) => EnqueueInv(q, k, n, true);
    case SetCallback(cb) => SetCallbackInv(q, cb);
    case Tick(t) => AdvanceInv(q, t);
    case Wake(k) => ResumeInv(q, k);
  }

  /** Every schedule of steps from a state satisfying the invariant keeps it;
      `CreateInv` supplies the starting case of a new scheduler. */
  lemma {:induction false} RunInv<P>(q: Queue<P>, steps: seq<Step<P>>)
    requires Inv(q)
    requires Run(q, steps).Some?
    ensures Inv(Run(q, steps).value)
    decreases |steps|
  {
    if steps != [] {
      StepInv(q, steps[0]);
      RunInv(Apply(q, steps[0]), steps[1..]);
    }
  }
}

/** Timing and ordering of one stream key's processor, stated over steps. */
module ProcessorTiming {
  import opened Optional
  import opened SupportTypes
  import opened QueueConfig
  import opened NotificationQueue
  import opened NotificationQueueProofs

  /** Every enabled step other than the processor of `k` looking at its
      lists leaves that processor running and its next look where it was:
      enqueues never restart it, other keys never delay it, and ending the
      display delay only starts the space delay that was due. */
  lemma NextLookStable<P>(q: Queue<P>, s: Step<P>, k: Key)
    requires Inv(q) && Enabled(q, s) && Running(q, k)
    requires s.Wake? && s.key == k ==> q.started[k].Displaying?
    ensures Running(Apply(q, s), k)
    ensures Horizon(Apply(q, s), k) == Horizon(q, k)
  {
    var q' := Apply(q, s);
    match s
    case Wake(j) =>
      if j == k {
        assert LaneOf(q, k).phase == Some(q.started[k]);
        assert q.started[k].wake == q.now;
      }
    case _ =>
  }

  /** The processor of `k` looking at its lists at its horizon: it delivers
      the front of test + main there, and its next look is that delivery's
      display duration plus the space delay later. */
  lemma LookDeliversAtHorizon<P>(q: Queue<P>, k: Key)
    requires Inv(q) && CanResume(q, k) && !q.started[k].Displaying?
    requires Pending(q, k, true) + Pending(q, k, false) != []
    ensures var q' := Resume(q, k);
      && |q'.log| == |q.log| + 1
      && q'.log[|q.log|].at == Horizon(q, k)
      && q'.log[|q.log|].item == (Pending(q, k, true) + Pending(q, k, false))[0]
      && Running(q', k)
      && Horizon(q', k) == Horizon(q, k) + WaitAfter(q.config, q'.log[|q.log|].item.kind)
  {
    var q' := Resume(q, k);
    assert LaneOf(q, k).phase == Some(q.started[k]);
    var d := q'.log[|q.log|];
    assert [d.item] + Pending(q', k, true) + Pending(q', k, false) == Pending(q, k, true) + Pending(q, k, false);
    assert LaneOf(q', k).phase == Some(q'.started[k]);
  }

  /** The items of a stretch of the delivery log. */
  function Items<P>(log: seq<Delivery<P>>): seq<Notification<P>> {
    seq(|log|, i requires 0 <= i < |log| => log[i].item)
  }

  /** Running a schedule and then one more step. */
  lemma {:induction false} RunSnoc<P>(q: Queue<P>, steps: seq<Step<P>>, s: Step<P>)
    requires Run(q, steps).Some? && Enabled(Run(q, steps).value, s)
    ensures Run(q, steps + [s]) == Some(Apply(Run(q, steps).value, s))
    decreases |steps|
  {
    if steps == [] {
      assert steps + [s] == [s];
      assert [s][1..] == [];
    } else {
      assert (steps + [s])[0] == steps[0];
      assert (steps + [s])[1..] == steps[1..] + [s];
      RunSnoc(Apply(q, steps[0]), steps[1..], s);
    }
  }

  /** How far a processor is from its exit: three units per queued item, and
      two, one or zero for where it is suspended. */
  function Remaining<P>(q: Queue<P>, k: Key): nat {
    3 * (|Pending(q, k, true)| + |Pending(q, k, false)|)
    + match LaneOf(q, k).phase
      case None => 0
      case Some(Displaying(_)) => 2
      case Some(_) => 1
  }

  /** When a processor that started looking at `start` and has made the
      deliveries `run` looks next. */
  function NextAt<P>(run: seq<Delivery<P>>, c: Config, start: nat): nat {
    if run == [] then start
    else run[|run| - 1].at + WaitAfter(c, run[|run| - 1].item.kind)
  }

  /** `run` is the delivery schedule of one processor of key `k`: all to `k`,
      the first at `start`, each later one at the previous one's `NextAt`. */
  ghost predicate Schedule<P>(run: seq<Delivery<P>>, c: Config, k: Key, start: nat) {
    && (forall i :: 0 <= i < |run| ==> run[i].key == k)
    && (|run| > 0 ==> run[0].at == start)
    && (forall i :: 0 <= i < |run| - 1 ==> run[i + 1].at == run[i].at + WaitAfter(c, run[i].item.kind))
  }

  lemma ScheduleSnoc<P>(run: seq<Delivery<P>>, d: Delivery<P>, c: Config, k: Key, start: nat)
    requires Schedule(run, c, k, start)
    requires d.key == k && d.at == NextAt(run, c, start)
    ensures Schedule(run + [d], c, k, start)
    ensures NextAt(run + [d], c, start) == d.at + WaitAfter(c, d.item.kind)
  {
  }

  /** One round of the drain loop: time advances to the processor's timer and
      the processor resumes. */
  function Round<P>(q: Queue<P>, k: Key): Queue<P>
    requires TimersAhead(q) && q.started.Keys == {k}
  {
    Resume(Advance(q, q.started[k].wake), k)
  }

  /** A round keeps the invariant and starts no other processor. */
  lemma RoundInv<P>(q: Queue<P>, k: Key)
    requires Inv(q) && q.started.Keys == {k}
    ensures Inv(Round(q, k)) && Round(q, k).started.Keys <= {k} && Round(q, k).config == q.config
  {
    var w := q.started[k].wake;
    assert CanAdvance(q, w);
    var q1 := Advance(q, w);
    AdvanceInv(q, w);
    ResumeInv(q1, k);
    var q2 := Resume(q1, k);
    forall j | j != k ensures j !in q2.started {
      assert LaneOf(q1, j).phase == None;
      assert LaneOf(q2, j) == LaneOf(q1, j);
    }
  }

  /** Advancing to the processor's timer keeps the invariant and changes no
      lane, log or horizon. */
  lemma RoundStart<P>(q: Queue<P>, k: Key)
    requires Inv(q) && q.started.Keys == {k}
    ensures var q1 := Advance(q, q.started[k].wake);
      && Inv(q1) && CanResume(q1, k) && q1.log == q.log && q1.config == q.config
      && LaneOf(q1, k) == LaneOf(q, k) && Horizon(q1, k) == Horizon(q, k)
      && Round(q, k) == Resume(q1, k)
  {
    var w := q.started[k].wake;
    assert CanAdvance(q, w);
    AdvanceInv(q, w);
    assert LaneOf(q, k).phase == Some(q.started[k]);
  }

  /** A round brings the processor closer to its exit. */
  lemma RoundRemaining<P>(q: Queue<P>, k: Key)
    requires Inv(q) && q.started.Keys == {k}
    ensures Remaining(Round(q, k), k) < Remaining(q, k)
  {
    RoundStart(q, k);
    var q1 := Advance(q, q.started[k].wake);
    var q2 := Resume(q1, k);
    if q1.started[k].Displaying? {
      RoundDisplaying(q1, k);
    } else if Pending(q1, k, true) + Pending(q1, k, false) == [] {
      assert LaneOf(q2, k).phase == None;
    } else {
      RoundDelivers(q1, k);
      var d := q2.log[|q1.log|];
      assert |Pending(q2, k, true) + Pending(q2, k, false)| + 1 == |Pending(q1, k, true) + Pending(q1, k, false)|
        by { assert [d.item] + Pending(q2, k, true) + Pending(q2, k, false) == Pending(q1, k, true) + Pending(q1, k, false); }
    }
  }

  /** A round either delivers nothing and leaves the horizon alone, or
      delivers the front of test + main at the horizon and moves the horizon
      past that delivery's delays. */
  lemma RoundProgress<P>(q: Queue<P>, k: Key)
    requires Inv(q) && q.started.Keys == {k}
    ensures var q2 := Round(q, k);
      && (k !in q2.started ==> LaneOf(q2, k) == Lane(None, None, None) && q2.log == q.log)
      && (|q2.log| == |q.log| || |q2.log| == |q.log| + 1)
      && q2.log[..|q.log|] == q.log
      && (|q2.log| == |q.log| ==>
            && Pending(q2, k, true) + Pending(q2, k, false) == Pending(q, k, true) + Pending(q, k, false)
            && (k in q2.started ==> Horizon(q2, k) == Horizon(q, k)))
      && (|q2.log| == |q.log| + 1 ==>
            var d := q2.log[|q.log|];
            && d.key == k && d.at == Horizon(q, k)
            && [d.item] + Pending(q2, k, true) + Pending(q2, k, false) == Pending(q, k, true) + Pending(q, k, false)
            && k in q2.started
            && Horizon(q2, k) == d.at + WaitAfter(q.config, d.item.kind))
  {
    RoundStart(q, k);
    var q1 := Advance(q, q.started[k].wake);
    if q1.started[k].Displaying? {
      RoundDisplaying(q1, k);
    } else if Pending(q1, k, true) + Pending(q1, k, false) == [] {
      assert Resume(q1, k).log == q1.log;
    } else {
      RoundDelivers(q1, k);
    }
  }

  lemma RoundDisplaying<P>(q1: Queue<P>, k: Key)
    requires Inv(q1) && CanResume(q1, k) && q1.started[k].Displaying?
    ensures var q2 := Resume(q1, k);
      && q2.log == q1.log
      && Pending(q2, k, true) == Pending(q1, k, true) && Pending(q2, k, false) == Pending(q1, k, false)
      && LaneOf(q2, k).phase == Some(Spacing(q1.now + q1.config.space))
      && Horizon(q2, k) == Horizon(q1, k)
  {
    NextLookStable(q1, Wake(k), k);
  }

  lemma RoundDelivers<P>(q1: Queue<P>, k: Key)
    requires Inv(q1) && CanResume(q1, k) && !q1.started[k].Displaying?
    requires Pending(q1, k, true) + Pending(q1, k, false) != []
    ensures var q2 := Resume(q1, k);
      && |q2.log| == |q1.log| + 1
      && q2.log[..|q1.log|] == q1.log
      && var d := q2.log[|q1.log|];
      && d.key == k && d.at == Horizon(q1, k)
      && [d.item] + Pending(q2, k, true) + Pending(q2, k, false) == Pending(q1, k, true) + Pending(q1, k, false)
      && k in q2.started
      && Horizon(q2, k) == d.at + WaitAfter(q1.config, d.item.kind)
  {
    LookDeliversAtHorizon(q1, k);
    var q2 := Resume(q1, k);
    assert LaneOf(q2, k).phase == Some(q2.started[k]);
  }

  /** What the drain loop knows about its current state `q'`, having started
      from `q` whose key `k` had the queued items `all` and looked next at
      `start`. */
  ghost predicate Drained<P>(q: Queue<P>, k: Key, all: seq<Notification<P>>, start: nat, q': Queue<P>) {
    && Inv(q') && q'.started.Keys <= {k} && q'.config == q.config
    && Progress(q.log, k, all, start, q')
  }

  /** The deliveries since `prefix` and the items still queued. */
  ghost predicate Progress<P>(prefix: seq<Delivery<P>>, k: Key, all: seq<Notification<P>>, start: nat, q': Queue<P>) {
    && |prefix| <= |q'.log| && q'.log[..|prefix|] == prefix
    && Items(q'.log[|prefix|..]) + Pending(q', k, true) + Pending(q', k, false) == all
    && Schedule(q'.log[|prefix|..], q'.config, k, start)
    && (k in q'.started ==> Horizon(q', k) == NextAt(q'.log[|prefix|..], q'.config, start))
    && (k !in q'.started ==> LaneOf(q', k) == Lane(None, None, None))
  }

  /** One round of the drain loop keeps what the loop knows. */
  lemma DrainRound<P>(q: Queue<P>, k: Key, all: seq<Notification<P>>, start: nat, q': Queue<P>)
    requires Drained(q, k, all, start, q') && k in q'.started
    ensures q'.started.Keys == {k}
    ensures Drained(q, k, all, start, Round(q', k))
    ensures Remaining(Round(q', k), k) < Remaining(q', k)
  {
    RoundInv(q', k);
    RoundRemaining(q', k);
    RoundProgress(q', k);
    var q2 := Round(q', k);
    if |q2.log| == |q'.log| + 1 {
      ProgressDeliver(q.log, k, all, start, q', q2);
    } else {
      ProgressQuiet(q.log, k, all, start, q', q2);
    }
  }

  lemma ProgressDeliver<P>(prefix: seq<Delivery<P>>, k: Key, all: seq<Notification<P>>, start: nat, q': Queue<P>, q2: Queue<P>)
    requires Progress(prefix, k, all, start, q') && k in q'.started && q2.config == q'.config
    requires |q2.log| == |q'.log| + 1 && q2.log[..|q'.log|] == q'.log
    requires var d := q2.log[|q'.log|];
      && d.key == k && d.at == Horizon(q', k)
      && [d.item] + Pending(q2, k, true) + Pending(q2, k, false) == Pending(q', k, true) + Pending(q', k, false)
      && k in q2.started
      && Horizon(q2, k) == d.at + WaitAfter(q'.config, d.item.kind)
    ensures Progress(prefix, k, all, start, q2)
  {
    var n0 := |prefix|;
    var d := q2.log[|q'.log|];
    var items := Items(q'.log[n0..]);
    assert q2.log == q'.log + [d];
    ExtendRun(prefix, q'.log, d, q'.config, k, start);
    calc {
      Items(q2.log[n0..]) + Pending(q2, k, true) + Pending(q2, k, false);
      (items + [d.item]) + Pending(q2, k, true) + Pending(q2, k, false);
      items + ([d.item] + Pending(q2, k, true) + Pending(q2, k, false));
      items + (Pending(q', k, true) + Pending(q', k, false));
      all;
    }
  }

  lemma ProgressQuiet<P>(prefix: seq<Delivery<P>>, k: Key, all: seq<Notification<P>>, start: nat, q': Queue<P>, q2: Queue<P>)
    requires Progress(prefix, k, all, start, q') && q2.config == q'.config
    requires q2.log == q'.log
    requires Pending(q2, k, true) + Pending(q2, k, false) == Pending(q', k, true) + Pending(q', k, false)
    requires k in q2.started ==> k in q'.started && Horizon(q2, k) == Horizon(q', k)
    requires k !in q2.started ==> LaneOf(q2, k) == Lane(None, None, None)
    ensures Progress(prefix, k, all, start, q2)
  {
    var items := Items(q'.log[|prefix|..]);
    calc {
      Items(q2.log[|prefix|..]) + Pending(q2, k, true) + Pending(q2, k, false);
      items + (Pending(q2, k, true) + Pending(q2, k, false));
      items + (Pending(q', k, true) + Pending(q', k, false));
      all;
    }
  }

  /** Appending a delivery made at the processor's next look to a run. */
  lemma ExtendRun<P>(prefix: seq<Delivery<P>>, log: seq<Delivery<P>>, d: Delivery<P>, c: Config, k: Key, start: nat)
    requires |prefix| <= |log| && Schedule(log[|prefix|..], c, k, start)
    requires d.key == k && d.at == NextAt(log[|prefix|..], c, start)
    ensures (log + [d])[..|prefix|] == log[..|prefix|]
    ensures (log + [d])[|prefix|..] == log[|prefix|..] + [d]
    ensures Items((log + [d])[|prefix|..]) == Items(log[|prefix|..]) + [d.item]
    ensures Schedule((log + [d])[|prefix|..], c, k, start)
    ensures NextAt((log + [d])[|prefix|..], c, start) == d.at + WaitAfter(c, d.item.kind)
  {
    var run := log[|prefix|..];
    assert (log + [d])[|prefix|..] == run + [d];
    ScheduleSnoc(run, d, c, k, start);
  }

  /** A schedule extended by one round's two steps runs to that round. */
  lemma RunRound<P>(q: Queue<P>, steps: seq<Step<P>>, q': Queue<P>, k: Key)
    requires Run(q, steps) == Some(q') && TimersAhead(q') && q'.started.Keys == {k}
    ensures Run(q, steps + [Tick(q'.started[k].wake), Wake(k)]) == Some(Round(q', k))
  {
    var w := q'.started[k].wake;
    assert CanAdvance(q', w);
    RunSnoc(q, steps, Tick(w));
    RunSnoc(q, steps + [Tick(w)], Wake(k));
    assert steps + [Tick(w), Wake(k)] == (steps + [Tick(w)]) + [Wake(k)];
  }

  lemma DrainBegin<P>(q: Queue<P>, k: Key)
    requires Inv(q) && q.started.Keys == {k}
    ensures Drained(q, k, Pending(q, k, true) + Pending(q, k, false), Horizon(q, k), q)
  {
    assert q.log[|q.log|..] == [];
    assert Items<P>([]) == [];
  }

  lemma DrainEnd<P>(q: Queue<P>, k: Key, all: seq<Notification<P>>, start: nat, q': Queue<P>)
    requires Drained(q, k, all, start, q') && k !in q'.started
    ensures q'.started == map[]
    ensures Items(q'.log[|q.log|..]) == all
  {
    assert LaneOf(q', k) == Lane(None, None, None);
    assert Items(q'.log[|q.log|..]) + [] + [] == all;
  }

  /** The processor loop of `startQueueProcessor`, run to completion for a key
      whose processor is the only one running: time advances to each timer in
      turn and the processor resumes. It delivers exactly the queued test
      items and then the queued main items, the first at the key's horizon
      and each later one the previous one's display duration plus the space
      delay after it, and then every map forgets the key. */
  method DrainAlone<P>(q: Queue<P>, k: Key) returns (q': Queue<P>, steps: seq<Step<P>>)
    requires Inv(q) && q.started.Keys == {k}
    ensures Run(q, steps) == Some(q')
    ensures Inv(q') && q'.started == map[]
    ensures LaneOf(q', k) == Lane(None, None, None)
    ensures |q.log| <= |q'.log| && q'.log[..|q.log|] == q.log
    ensures Items(q'.log[|q.log|..]) == Pending(q, k, true) + Pending(q, k, false)
    ensures Schedule(q'.log[|q.log|..], q.config, k, Horizon(q, k))
  {
    ghost var start := Horizon(q, k);
    ghost var all := Pending(q, k, true) + Pending(q, k, false);
    DrainBegin(q, k);
    q' := q;
    steps := [];
    while k in q'.started
      invariant Drained(q, k, all, start, q')
      invariant Run(q, steps) == Some(q')
      decreases Remaining(q', k)
    {
      DrainRound(q, k, all, start, q');
      RunRound(q, steps, q', k);
      steps := steps + [Tick(q'.started[k].wake), Wake(k)];
      q' := Round(q', k);
    }
    DrainEnd(q, k, all, start, q');
  }

  /** The scheduler's state in its own scenario of two `Normal` test
      notifications for one stream key, with a 180 ms display duration and a
      100 ms space delay, right after the two enqueues at time 0. */
  function TwoNormalSetup<P>(first: P, second: P): Queue<P> {
    var options := Some(Options(Some(100), Some(180), None, None));
    var q := SetNotifyCallback(Create<P>(options, 0), 1);
    var q' := AddNotificationTest(q, ScenarioKey, Notification(Normal, first));
    AddNotificationTest(q', ScenarioKey, Notification(Normal, second))
  }

  const ScenarioKey: Key := "0x43434343434343434343"

  /** The scenario's options: space 100, normal 180, the others defaulted. */
  lemma ScenarioConfig()
    ensures MakeConfig(Some(Options(Some(100), Some(180), None, None))) == Config(100, 180, 10000, 30000)
  {
    var c := MakeConfig(Some(Options(Some(100), Some(180), None, None)));
    assert ValueOf(c, Space) == 100;
    assert ValueOf(c, NormalDuration) == 180;
    assert ValueOf(c, VideoDuration) == 10000;
    assert ValueOf(c, AdsDuration) == 30000;
  }

  lemma TwoNormalSetupFacts<P>(first: P, second: P)
    ensures var q := TwoNormalSetup(first, second);
      && Inv(q) && q.started.Keys == {ScenarioKey} && q.log == []
      && q.config == Config(100, 180, 10000, 30000)
      && Pending(q, ScenarioKey, true) == [Notification(Normal, first), Notification(Normal, second)]
      && Pending(q, ScenarioKey, false) == []
      && Horizon(q, ScenarioKey) == SETTLE_DELAY
  {
    var options := Some(Options(Some(100), Some(180), None, None));
    var k := ScenarioKey;
    var n1 := Notification(Normal, first);
    var n2 := Notification(Normal, second);
    var q0 := Create<P>(options, 0);
    CreateInv<P>(options, 0);
    ScenarioConfig();
    var q1 := SetNotifyCallback(q0, 1);
    SetCallbackInv(q0, 1);
    var q2 := AddNotificationTest(q1, k, n1);
    EnqueueInv(q1, k, n1, true);
    var q3 := AddNotificationTest(q2, k, n2);
    EnqueueInv(q2, k, n2, true);
    assert LaneOf(q1, k) == Lane(None, None, None);
    forall j | j != k ensures j !in q3.started {
      assert LaneOf(q1, j) == LaneOf(q0, j) == Lane(None, None, None);
      assert LaneOf(q3, j) == LaneOf(q1, j);
    }
    assert LaneOf(q3, k).phase == Some(Settling(SETTLE_DELAY));
  }

  /** The scheduler's own scenario: the first notification is delivered once
      the 100 ms settle delay is over, the second 180 + 100 ms after it, and
      nothing else is delivered. */
  method TwoNormalForOneStream<P>(first: P, second: P) returns (log: seq<Delivery<P>>)
    ensures |log| == 2
    ensures log[0].item == Notification(Normal, first) && log[1].item == Notification(Normal, second)
    ensures log[0].at == SETTLE_DELAY && log[1].at == SETTLE_DELAY + 180 + 100
  {
    var q := TwoNormalSetup(first, second);
    TwoNormalSetupFacts(first, second);
    var q', steps := DrainAlone(q, ScenarioKey);
    log := q'.log;
    assert log == log[|q.log|..];
    assert Items(log) == [Notification(Normal, first), Notification(Normal, second)];
    assert |Items(log)| == |log| && Items(log)[0] == log[0].item && Items(log)[1] == log[1].item;
  }
}
