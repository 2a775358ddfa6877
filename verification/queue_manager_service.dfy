/** `QueuemanagerService`: the per-stream FIFO with `Message` payloads. */
module QueueManagerService {
  import SQ = StreamerQueue

  /** `type Message = { amount: number; message: string }`. The queue never
      reads the payload, so `amount` is kept as an integer rather than a
      floating-point number; no property depends on it. */
  datatype Message = Message(amount: int, message: string)

  type Service = SQ.Service<Message>

  /** `addNotification(streamId, message)`: a new stream emits the message to
      its own room at once and keeps an empty list; a known stream queues it
      behind the messages already waiting. */
  function AddNotification(s: Service, streamId: SQ.StreamId, message: Message): (s': Service)
    ensures streamId !in s.queue ==>
      && s'.emitted == s.emitted + [SQ.Emit(streamId, message, s.now)]
      && SQ.Waiting(s', streamId) == []
    ensures streamId in s.queue ==>
      s'.emitted == s.emitted && SQ.Waiting(s', streamId) == SQ.Waiting(s, streamId) + [message]
    ensures forall j :: j != streamId ==> SQ.Waiting(s', j) == SQ.Waiting(s, j)
  {
    SQ.AddNotification(s, streamId, message)
  }
}
