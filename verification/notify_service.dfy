/** `NotifyService`'s queue: the same per-stream FIFO with `ListenResultDTO`
    payloads. Its chain subscription, `watchContract`, is not modelled. */
module NotifyService {
  import SQ = StreamerQueue

  /** `ListenResultDTO`: from, to, amount and symbol, all strings. */
  datatype ListenResult = ListenResult(from: string, to: string, amount: string, symbol: string)

  type Service = SQ.Service<ListenResult>

  /** `addNotification(streamId, message)`: a new stream emits the message to
      its own room at once and keeps an empty list; a known stream queues it
      behind the messages already waiting. */
  function AddNotification(s: Service, streamId: SQ.StreamId, message: ListenResult): (s': Service)
    ensures streamId !in s.queue ==>
      && s'.emitted == s.emitted + [SQ.Emit(streamId, message, s.now)]
      && SQ.Waiting(s', streamId) == []
    ensures streamId in s.queue ==>
      s'.emitted == s.emitted && SQ.Waiting(s', streamId) == SQ.Waiting(s, streamId) + [message]
    ensures forall j :: j != streamId ==> SQ.Waiting(s', j) == SQ.Waiting(s, j)
  {
    SQ.AddNotification(s, streamId, message)
  }
}
