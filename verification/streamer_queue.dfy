/** The per-stream FIFO that `QueuemanagerService` and `NotifyService` each
    implement with an identical `class Streamer`; only the message type
    differs, so it is the type parameter `M` here.

    A `Streamer` is created for a stream id on its first message. Its
    constructor sets the list to that message and calls `start()`, whose
    first iteration runs synchronously: the message is shifted off, emitted
    to the stream's room, and the loop awaits 5000 ms. After each wait the
    loop emits the next message, or, when the list is empty, `stop()`
    removes the streamer from the shared map. As in the scheduler model, a
    natural-number clock stands for the timers and a suspended streamer is
    resumed exactly when its wait ends. */
module StreamerQueue {
  import opened Optional

  type StreamId = string

  /** The fixed pause after every emitted message. */
  const SEND_INTERVAL: nat := 5000

  /** A live streamer: its id, the messages not yet emitted, and when its
      current 5000 ms wait ends. */
  datatype Streamer<M> = Streamer(streamId: StreamId, messages: seq<M>, wake: nat)

  /** One `io.to(room).emit('support', message)`. */
  datatype Emit<M> = Emit(room: StreamId, message: M, at: nat)

  /** One accepted `addNotification` call. */
  datatype Accepted<M> = Accepted(streamId: StreamId, message: M)

  /** The service: the shared `queue` map plus the clock and the history. */
  datatype Service<M> = Service(
    queue: map<StreamId, Streamer<M>>,
    now: nat,
    accepted: seq<Accepted<M>>,
    emitted: seq<Emit<M>>)

  /** A new service: `queue = new Map()`, so no stream has a streamer or
      anything waiting, and nothing has been accepted or emitted yet. */
  function Create<M>(now: nat): (s: Service<M>)
    ensures forall id :: id !in s.queue && Waiting(s, id) == []
    ensures s.accepted == [] && s.emitted == [] && s.now == now
  {
    Service(map[], now, [], [])
  }

  /** `sendThroughWebsocket`: the room is the streamer's own id. */
  function SendThroughWebsocket<M>(st: Streamer<M>, m: M, now: nat): Emit<M> {
    Emit(st.streamId, m, now)
  }

  /** One iteration of `start()`'s loop on a non-empty list: shift the head,
      emit it, and begin the 5000 ms wait. */
  function SendNext<M>(st: Streamer<M>, now: nat): (r: (Streamer<M>, Emit<M>))
    requires st.messages != []
    ensures [r.1.message] + r.0.messages == st.messages
    ensures r.0.streamId == st.streamId && r.1.room == st.streamId
    ensures r.1.at == now && r.0.wake == now + SEND_INTERVAL
  {
    var msg := st.messages[0];
    (st.(messages := st.messages[1..], wake := now + SEND_INTERVAL), SendThroughWebsocket(st, msg, now))
  }

  /** The constructor: the list starts as exactly `[message]`, and `start()`
      emits it at once and begins waiting. */
  function Construct<M>(id: StreamId, message: M, now: nat): (r: (Streamer<M>, Emit<M>))
    ensures r.0 == Streamer(id, [], now + SEND_INTERVAL)
    ensures r.1 == Emit(id, message, now)
  {
    SendNext(Streamer(id, [message], now), now)
  }

  /** `addMessage`: push to the back of the list. */
  function AddMessage<M>(st: Streamer<M>, m: M): Streamer<M> {
    st.(messages := st.messages + [m])
  }

  /** The messages waiting for a stream; none when it has no streamer. */
  function Waiting<M>(s: Service<M>, id: StreamId): seq<M> {
    if id in s.queue then s.queue[id].messages else []
  }

  /** `addNotification`: a stream without a streamer gets a new one, which
      emits the message immediately; otherwise the message joins the back of
      the existing streamer's list and no second streamer is made. */
  function AddNotification<M>(s: Service<M>, id: StreamId, message: M): (s': Service<M>)
    ensures id in s'.queue && s'.queue.Keys == s.queue.Keys + {id}
    ensures forall j :: j in s.queue && j != id ==> s'.queue[j] == s.queue[j]
    ensures s'.accepted == s.accepted + [Accepted(id, message)] && s'.now == s.now
    ensures id !in s.queue ==>
      && s'.emitted == s.emitted + [Emit(id, message, s.now)]
      && s'.queue[id] == Streamer(id, [], s.now + SEND_INTERVAL)
    ensures id in s.queue ==>
      && s'.emitted == s.emitted
      && s'.queue[id] == s.queue[id].(messages := s.queue[id].messages + [message])
  {
    var s1 := s.(accepted := s.accepted + [Accepted(id, message)]);
    if id !in s.queue then
      var (st, e) := Construct(id, message, s.now);
      s1.(queue := s.queue[id := st], emitted := s.emitted + [e])
    else
      s1.(queue := s.queue[id := AddMessage(s.queue[id], message)])
  }

  /** `stop()`: the streamer deletes its own id from the shared map. */
  function Stop<M>(s: Service<M>, st: Streamer<M>): (s': Service<M>)
    ensures s'.queue.Keys == s.queue.Keys - {st.streamId}
    ensures forall j :: j in s'.queue ==> s'.queue[j] == s.queue[j]
    ensures s'.emitted == s.emitted && s'.accepted == s.accepted && s'.now == s.now
  {
    s.(queue := s.queue - {st.streamId})
  }

  predicate CanResume<M>(s: Service<M>, id: StreamId) {
    id in s.queue && s.queue[id].wake == s.now
  }

  /** The streamer of `id` after its 5000 ms wait: emit the next message and
      wait again, or stop when the list is empty. */
  function Resume<M>(s: Service<M>, id: StreamId): (s': Service<M>)
    requires CanResume(s, id)
    requires s.queue[id].streamId == id
    ensures forall j :: j != id ==> (j in s'.queue <==> j in s.queue)
    ensures forall j :: j != id && j in s.queue ==> s'.queue[j] == s.queue[j]
    ensures s'.accepted == s.accepted && s'.now == s.now
    ensures id !in s'.queue <==> s.queue[id].messages == []
    ensures id !in s'.queue ==> s'.emitted == s.emitted
    ensures id in s'.queue ==>
      && s'.emitted == s.emitted + [Emit(id, s.queue[id].messages[0], s.now)]
      && s'.queue[id] == Streamer(id, s.queue[id].messages[1..], s.now + SEND_INTERVAL)
  {
    var st := s.queue[id];
    if |st.messages| > 0 then
      var (st', e) := SendNext(st, s.now);
      s.(queue := s.queue[id := st'], emitted := s.emitted + [e])
    else
      Stop(s, st)
  }

  predicate CanAdvance<M>(s: Service<M>, t: nat) {
    s.now <= t && forall id :: id in s.queue ==> t <= s.queue[id].wake
  }

  /** The event-loop steps that touch the service. */
  datatype Step<M> = Add(streamId: StreamId, message: M) | Tick(until: nat) | Wake(streamId: StreamId)

  predicate Enabled<M>(s: Service<M>, step: Step<M>) {
    match step
    case Add(_, _) => true
    case Tick(t) => CanAdvance(s, t)
    case Wake(id) => CanResume(s, id) && s.queue[id].streamId == id
  }

  function Apply<M>(s: Service<M>, step: Step<M>): Service<M>
    requires Enabled(s, step)
  {
    match step
    case Add(id, m) => AddNotification(s, id, m)
    case Tick(t) => s.(now := t)
    case Wake(id) => Resume(s, id)
  }

  function Run<M>(s: Service<M>, steps: seq<Step<M>>): Option<Service<M>>
    decreases |steps|
  {
    if steps == [] then Some(s)
    else if Enabled(s, steps[0]) then Run(Apply(s, steps[0]), steps[1..])
    else None
  }

  /** The messages emitted to a room, in order. */
  function EmittedTo<M>(emitted: seq<Emit<M>>, id: StreamId): seq<M>
    decreases |emitted|
  {
    if emitted == [] then []
    else
      var e := emitted[|emitted| - 1];
      EmittedTo(emitted[..|emitted| - 1], id) + (if e.room == id then [e.message] else [])
  }

  /** The messages accepted for a stream, in order. */
  function AcceptedFor<M>(accepted: seq<Accepted<M>>, id: StreamId): seq<M>
    decreases |accepted|
  {
    if accepted == [] then []
    else
      var a := accepted[|accepted| - 1];
      AcceptedFor(accepted[..|accepted| - 1], id) + (if a.streamId == id then [a.message] else [])
  }

  /** When the last emission to a room happened, if any. */
  function LastEmit<M>(emitted: seq<Emit<M>>, id: StreamId): Option<nat>
    decreases |emitted|
  {
    if emitted == [] then None
    else if emitted[|emitted| - 1].room == id then Some(emitted[|emitted| - 1].at)
    else LastEmit(emitted[..|emitted| - 1], id)
  }

  lemma EmittedToSnoc<M>(emitted: seq<Emit<M>>, e: Emit<M>, id: StreamId)
    ensures EmittedTo(emitted + [e], id) == EmittedTo(emitted, id) + (if e.room == id then [e.message] else [])
    ensures LastEmit(emitted + [e], id) == if e.room == id then Some(e.at) else LastEmit(emitted, id)
  {
    assert (emitted + [e])[..|emitted|] == emitted;
  }

  lemma AcceptedForSnoc<M>(accepted: seq<Accepted<M>>, a: Accepted<M>, id: StreamId)
    ensures AcceptedFor(accepted + [a], id) == AcceptedFor(accepted, id) + (if a.streamId == id then [a.message] else [])
  {
    assert (accepted + [a])[..|accepted|] == accepted;
  }

  /** When the stream's streamer next acts, or the present time for a stream
      without one. */
  function Horizon<M>(s: Service<M>, id: StreamId): nat {
    if id in s.queue then s.queue[id].wake else s.now
  }

  /** Every streamer is filed under its own id, and no wait has overrun. */
  ghost predicate WellFiled<M>(s: Service<M>) {
    forall id :: id in s.queue ==> s.queue[id].streamId == id && s.now <= s.queue[id].wake
  }

  /** Emitted-so-far followed by waiting is exactly what was accepted. */
  ghost predicate Ledger<M>(s: Service<M>) {
    forall id :: EmittedTo(s.emitted, id) + Waiting(s, id) == AcceptedFor(s.accepted, id)
  }

  /** A live streamer's wait ends exactly 5000 ms after its last emission. */
  ghost predicate Paced<M>(s: Service<M>) {
    forall id :: id in s.queue ==>
      LastEmit(s.emitted, id).Some? && LastEmit(s.emitted, id).value + SEND_INTERVAL == s.queue[id].wake
  }

  /** Every emission's pause is over by the room's horizon. */
  ghost predicate WithinHorizon<M>(s: Service<M>) {
    forall i :: 0 <= i < |s.emitted| ==> s.emitted[i].at + SEND_INTERVAL <= Horizon(s, s.emitted[i].room)
  }

  /** Two emissions to one room are at least 5000 ms apart. */
  ghost predicate Spaced<M>(emitted: seq<Emit<M>>) {
    forall i, j :: 0 <= i < j < |emitted| && emitted[i].room == emitted[j].room ==>
      emitted[i].at + SEND_INTERVAL <= emitted[j].at
  }

  ghost predicate Inv<M>(s: Service<M>) {
    WellFiled(s) && Ledger(s) && Paced(s) && WithinHorizon(s) && Spaced(s.emitted)
  }

  lemma EmptyInv<M>(now: nat)
    ensures Inv(Create<M>(now))
  {
  }

  lemma AddLedger<M>(s: Service<M>, id: StreamId, m: M)
    requires Ledger(s)
    ensures Ledger(AddNotification(s, id, m))
  {
    var s' := AddNotification(s, id, m);
    forall j ensures EmittedTo(s'.emitted, j) + Waiting(s', j) == AcceptedFor(s'.accepted, j) {
      AcceptedForSnoc(s.accepted, Accepted(id, m), j);
      assert EmittedTo(s.emitted, j) + Waiting(s, j) == AcceptedFor(s.accepted, j);
      if id !in s.queue {
        EmittedToSnoc(s.emitted, Emit(id, m, s.now), j);
      } else if j == id {
        assert EmittedTo(s'.emitted, j) + Waiting(s', j) == (EmittedTo(s.emitted, j) + Waiting(s, j)) + [m];
      }
    }
  }

  lemma AddTiming<M>(s: Service<M>, id: StreamId, m: M)
    requires Inv(s)
    ensures WellFiled(AddNotification(s, id, m))
    ensures Paced(AddNotification(s, id, m))
    ensures WithinHorizon(AddNotification(s, id, m))
    ensures Spaced(AddNotification(s, id, m).emitted)
  {
    var s' := AddNotification(s, id, m);
    if id !in s.queue {
      var e := Emit(id, m, s.now);
      forall j ensures LastEmit(s'.emitted, j) == if j == id then Some(s.now) else LastEmit(s.emitted, j) {
        EmittedToSnoc(s.emitted, e, j);
      }
      forall i | 0 <= i < |s'.emitted|
        ensures s'.emitted[i].at + SEND_INTERVAL <= Horizon(s', s'.emitted[i].room)
      {
        if i < |s.emitted| {
          assert s'.emitted[i] == s.emitted[i];
          assert s.emitted[i].at + SEND_INTERVAL <= Horizon(s, s.emitted[i].room);
        }
      }
      forall i, j | 0 <= i < j < |s'.emitted| && s'.emitted[i].room == s'.emitted[j].room
        ensures s'.emitted[i].at + SEND_INTERVAL <= s'.emitted[j].at
      {
        assert s'.emitted[i] == s.emitted[i];
        if j == |s.emitted| {
          assert s.emitted[i].at + SEND_INTERVAL <= Horizon(s, id);
        } else {
          assert s'.emitted[j] == s.emitted[j];
        }
      }
    } else {
      forall i | 0 <= i < |s'.emitted|
        ensures s'.emitted[i].at + SEND_INTERVAL <= Horizon(s', s'.emitted[i].room)
      {
        assert s.emitted[i].at + SEND_INTERVAL <= Horizon(s, s.emitted[i].room);
      }
    }
  }

  lemma ResumeLedger<M>(s: Service<M>, id: StreamId)
    requires Inv(s) && CanResume(s, id)
    ensures Ledger(Resume(s, id))
  {
    var s' := Resume(s, id);
    var st := s.queue[id];
    forall j ensures EmittedTo(s'.emitted, j) + Waiting(s', j) == AcceptedFor(s'.accepted, j) {
      assert EmittedTo(s.emitted, j) + Waiting(s, j) == AcceptedFor(s.accepted, j);
      if id in s'.queue {
        var e := Emit(id, st.messages[0], s.now);
        EmittedToSnoc(s.emitted, e, j);
        if j == id {
          assert [st.messages[0]] + st.messages[1..] == st.messages;
          assert EmittedTo(s'.emitted, j) + Waiting(s', j)
              == EmittedTo(s.emitted, j) + ([st.messages[0]] + st.messages[1..]);
        }
      }
    }
  }

  lemma ResumeTiming<M>(s: Service<M>, id: StreamId)
    requires Inv(s) && CanResume(s, id)
    ensures WellFiled(Resume(s, id))
    ensures Paced(Resume(s, id))
    ensures WithinHorizon(Resume(s, id))
    ensures Spaced(Resume(s, id).emitted)
  {
    var s' := Resume(s, id);
    var st := s.queue[id];
    assert Horizon(s, id) == s.now;
    if id in s'.queue {
      var e := Emit(id, st.messages[0], s.now);
      forall j ensures LastEmit(s'.emitted, j) == if j == id then Some(s.now) else LastEmit(s.emitted, j) {
        EmittedToSnoc(s.emitted, e, j);
      }
      forall i | 0 <= i < |s'.emitted|
        ensures s'.emitted[i].at + SEND_INTERVAL <= Horizon(s', s'.emitted[i].room)
      {
        if i < |s.emitted| {
          assert s'.emitted[i] == s.emitted[i];
          assert s.emitted[i].at + SEND_INTERVAL <= Horizon(s, s.emitted[i].room);
        }
      }
      forall i, j | 0 <= i < j < |s'.emitted| && s'.emitted[i].room == s'.emitted[j].room
        ensures s'.emitted[i].at + SEND_INTERVAL <= s'.emitted[j].at
      {
        assert s'.emitted[i] == s.emitted[i];
        if j == |s.emitted| {
          assert s.emitted[i].at + SEND_INTERVAL <= Horizon(s, id);
        } else {
          assert s'.emitted[j] == s.emitted[j];
        }
      }
    } else {
      forall i | 0 <= i < |s'.emitted|
        ensures s'.emitted[i].at + SEND_INTERVAL <= Horizon(s', s'.emitted[i].room)
      {
        assert s.emitted[i].at + SEND_INTERVAL <= Horizon(s, s.emitted[i].room);
      }
    }
  }

  lemma StepInv<M>(s: Service<M>, step: Step<M>)
    requires Inv(s) && Enabled(s, step)
    ensures Inv(Apply(s, step))
  {
    match step
    case Add(id, m) =>
      AddLedger(s, id, m);
      AddTiming(s, id, m);
    case Tick(t) =>
      var s' := s.(now := t);
      forall i | 0 <= i < |s'.emitted|
        ensures s'.emitted[i].at + SEND_INTERVAL <= Horizon(s', s'.emitted[i].room)
      {
        assert s.emitted[i].at + SEND_INTERVAL <= Horizon(s, s.emitted[i].room);
      }
    case Wake(id) =>
      ResumeLedger(s, id);
      ResumeTiming(s, id);
  }

  /** Every schedule of steps keeps the invariant. */
  lemma {:induction false} RunInv<M>(s: Service<M>, steps: seq<Step<M>>)
    requires Inv(s) && Run(s, steps).Some?
    ensures Inv(Run(s, steps).value)
    decreases |steps|
  {
    if steps != [] {
      StepInv(s, steps[0]);
      RunInv(Apply(s, steps[0]), steps[1..]);
    }
  }

  /** A live streamer's next emission comes exactly 5000 ms after its
      previous one: resuming it emits at its wake, which `Paced` ties to the
      last emission to that room. */
  lemma NextSendExactlyAfterInterval<M>(s: Service<M>, id: StreamId)
    requires Inv(s) && CanResume(s, id) && s.queue[id].messages != []
    ensures var s' := Resume(s, id);
      && |s'.emitted| == |s.emitted| + 1
      && LastEmit(s.emitted, id).Some?
      && s'.emitted[|s.emitted|].at == LastEmit(s.emitted, id).value + SEND_INTERVAL
      && s'.emitted[|s.emitted|].room == id
  {
  }
}
