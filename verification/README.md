# Support-notification scheduling in a donation-alert backend

This project models, in Dafny, the part of the streamer donation-alert
backend that decides when each alert reaches a streamer's dashboard:

* `SupportNotificationQueue` (`src/notify/support-notification-queue.ts`):
  per stream key, a priority "test" list and a "main" list, at most one
  processor, a one-off 100 ms settle delay, then a loop that pops the next
  notification (test list first), hands it with its key to the single
  registered callback, waits the kind's display duration and then the space
  delay, and deletes all three map entries for the key once both lists are
  empty. The four durations come from optional constructor options with
  constant defaults.
* The self-cleaning per-stream FIFO written twice, as `class Streamer` plus
  `addNotification`, in `src/queuemanager/queuemanager.service.ts` and
  `src/notify/notify.service.ts`: the first message is emitted to the
  stream's room at once, every emission is followed by a 5000 ms wait, and a
  streamer whose list is empty after a wait removes its own id from the
  shared map. One generic module (`StreamerQueue`, parametrised by the
  message type) covers both copies; `QueueManagerService` and
  `NotifyService` instantiate it.

JavaScript's event loop runs each synchronous stretch of code without
interruption, so both components are modelled as state machines over
immutable values whose transitions are those stretches: an enqueue, a
callback registration, the passage of time, and the resumption of one
suspended processor. `setTimeout` becomes a natural-number clock; a
suspended processor records when its timer fires and resumes exactly then
(`CanAdvance` lets time pass only up to the earliest pending timer).
Histories of accepted requests and of deliveries are kept in the state so
that ordering, exactly-once and timing properties can be stated.

Files:

* `optional.dfy`: `Option` and map lookup.
* `support_types.dfy`: notification kinds and the opaque payload.
* `queue_config.dfy`: the duration constants, option defaulting, and the
  kind-to-duration `switch`.
* `notification_queue.dfy`: the scheduler's state and its atomic steps.
* `notification_queue_proofs.dfy`: the scheduler's invariant, preserved by
  every step (module `NotificationQueueProofs`), and the timing of one
  processor's drain loop (module `ProcessorTiming`).
* `streamer_queue.dfy`: the generic per-stream FIFO, its invariant and
  timing.
* `queue_manager_service.dfy`, `notify_service.dfy`: the two instantiations.

Behaviour of the code that is easy to misread, and that the model follows:

* A notification kind that the `switch` does not name gets no display delay
  at all, only the space delay; it does not fall back to the `Normal`
  duration.
* The settle delay is a hard-coded 100 ms, not a constructor option.
* A delivery callback that throws is not caught by the processor (see
  "Left out").
* With no callback registered, `notifyCallback?.(...)` does nothing: the
  notification is still shifted off its list and is lost. The model logs such
  a pass with `callback == None`.

## Model

| member | source | states |
|---|---|---|
| QueueConfig.MakeConfig | src/notify/support-notification-queue.ts:29-64 | each of the four durations is the option's value when the options object and that field are defined, and its constant otherwise |
| QueueConfig.DefaultConfig | src/notify/support-notification-queue.ts:4-11 | without options the durations are space 10000, normal 10000, video 10000, ads 30000 ms, ads being the longest |
| QueueConfig.DisplayDuration | src/notify/support-notification-queue.ts:97-108 | Normal, Video and Ads take their configured duration; any other kind gets no display delay |
| NotificationQueue.StartQueueProcessor | src/notify/support-notification-queue.ts:67-74 | a key that already has a processor is left exactly as it was; otherwise exactly one processor is added for it, in its settle delay ending 100 ms from now, and no other key's processor changes |
| NotificationQueue.Enqueue | src/notify/support-notification-queue.ts:123-141 | the chosen list (created if absent) gains exactly the new item at its back; the other list and every other key are unchanged; a running processor is not restarted, a missing one is started with a fresh settle delay |
| NotificationQueue.AddNotification | src/notify/support-notification-queue.ts:123-131 | the main list gains the item at its back, the test list is unchanged, and the key has a processor |
| NotificationQueue.AddNotificationTest | src/notify/support-notification-queue.ts:133-141 | the test list gains the item at its back, the main list is unchanged, and the key has a processor |
| NotificationQueue.SetNotifyCallback | src/notify/support-notification-queue.ts:143-147 | the single callback slot holds the new callback and no key's lists or processor change, so re-registration is safe while processors run |
| NotificationQueue.PopNext | src/notify/support-notification-queue.ts:79-92 | the dequeue decision takes the front of test + main: from the test list exactly when it is non-empty, FIFO within each list, and nothing exactly when both are empty |
| NotificationQueue.Deliver | src/notify/support-notification-queue.ts:94-108 | given the dequeue decision for the key's lists, the delivered item is the head of the list it came from and only that item leaves that list; one delivery with key, item, time and current callback is logged, and the processor's next look is the kind's display duration plus the space delay later |
| NotificationQueue.Cleanup | src/notify/support-notification-queue.ts:87-91 | the key disappears from all three maps and nothing else changes |
| NotificationQueue.Resume | src/notify/support-notification-queue.ts:76-112 | one resumption: after the display delay only the space delay starts; otherwise the processor ends exactly when both lists are empty, removing the key everywhere, or delivers exactly one item, the front of test + main, to the current callback; other keys are untouched |
| NotificationQueue.Create | src/notify/support-notification-queue.ts:17-22 | a new scheduler has no lists and no processor for any key, no callback, and nothing accepted or delivered, and its settings come from the options |
| NotificationQueue.Advance | src/notify/support-notification-queue.ts:115-121 | a timer fires: the clock moves forward, never past a pending timer, and no list, processor, callback or log entry changes |
| NotificationQueueProofs.CreateInv | src/notify/support-notification-queue.ts:17-22 | a new scheduler satisfies the invariant |
| NotificationQueueProofs.EnqueueInv | src/notify/support-notification-queue.ts:123-141 | enqueueing keeps the invariant: no list without a processor, no overdue timer, the per-list ledger, and the spacing of deliveries |
| NotificationQueueProofs.SetCallbackInv | src/notify/support-notification-queue.ts:143-147 | registering a callback keeps the invariant |
| NotificationQueueProofs.AdvanceInv | src/notify/support-notification-queue.ts:115-121 | letting time pass up to the earliest timer keeps the invariant |
| NotificationQueueProofs.CleanupInv | src/notify/support-notification-queue.ts:87-91 | the processor's exit keeps the invariant, in particular no key keeps a list without a processor |
| NotificationQueueProofs.DeliverLedger | src/notify/support-notification-queue.ts:83-95 | per key and list, taken-so-far followed by still-queued equals everything accepted, in order, after a delivery: no item is lost, duplicated or reordered |
| NotificationQueueProofs.DeliverSpaced | src/notify/support-notification-queue.ts:95-111 | after a delivery, any two deliveries to one key are at least the first's display duration plus the space delay apart |
| NotificationQueueProofs.ResumeInv | src/notify/support-notification-queue.ts:76-112 | every resumption of a processor keeps the invariant |
| NotificationQueueProofs.StepInv | src/notify/support-notification-queue.ts:67-147 | every enabled atomic step keeps the invariant |
| NotificationQueueProofs.RunInv | src/notify/support-notification-queue.ts:67-147 | every schedule of steps, in any interleaving across keys, keeps the invariant |
| ProcessorTiming.NextLookStable | src/notify/support-notification-queue.ts:67-71 | enqueues, callback registration, time passing, other keys' processors and the end of a display delay never restart or move a running processor's next look at its lists |
| ProcessorTiming.LookDeliversAtHorizon | src/notify/support-notification-queue.ts:83-111 | a processor looking at non-empty lists delivers the front of test + main at that instant and looks again exactly the item's display duration plus the space delay later |
| ProcessorTiming.DrainAlone | src/notify/support-notification-queue.ts:76-112 | the processor loop run to completion delivers exactly the queued test items and then the main items, the first at its next look and each next one the previous one's display duration plus space delay later, then forgets the key |
| ProcessorTiming.TwoNormalForOneStream | src/notify/support-notification-queue.spec.ts:83-137 | with a 180 ms display duration and a 100 ms space delay, two Normal test notifications are delivered at 100 ms and at 380 ms, in order, and nothing else is |
| StreamerQueue.Create | src/queuemanager/queuemanager.service.ts:57 | a new service has no streamer and nothing waiting for any stream, and nothing accepted or emitted |
| StreamerQueue.SendNext | src/queuemanager/queuemanager.service.ts:24-29 | the head of the list is emitted now and removed, and the next action is 5000 ms later |
| StreamerQueue.Construct | src/queuemanager/queuemanager.service.ts:13-21 | a new streamer starting from `[message]` emits that message immediately to its own room and is left with an empty list, waiting 5000 ms |
| StreamerQueue.AddNotification | src/queuemanager/queuemanager.service.ts:61-74 | an absent id gets one new streamer that emits the message at once; a present id's streamer gets the message at the back of its list with nothing emitted and no second streamer; other ids are unchanged |
| StreamerQueue.Stop | src/queuemanager/queuemanager.service.ts:34-41 | the streamer removes only its own id from the shared map |
| StreamerQueue.Resume | src/queuemanager/queuemanager.service.ts:23-32 | after a wait the streamer emits the head of its list to its own room and waits again, or, with an empty list, removes its id; other ids are untouched |
| StreamerQueue.StepInv | src/queuemanager/queuemanager.service.ts:19-45 | every step keeps the invariant: each streamer filed under its own id, emitted-then-waiting equal to accepted per id, a live streamer's wait ending 5000 ms after its last emission, emissions to one room at least 5000 ms apart |
| StreamerQueue.RunInv | src/queuemanager/queuemanager.service.ts:55-74 | every schedule of steps keeps the invariant |
| StreamerQueue.NextSendExactlyAfterInterval | src/queuemanager/queuemanager.service.ts:26-29 | a live streamer's next emission comes exactly 5000 ms after its previous emission to that room |
| QueueManagerService.AddNotification | src/queuemanager/queuemanager.service.ts:61-74 | with `Message` payloads: a new stream emits at once and has nothing waiting; a known stream queues the message behind its waiting ones; other streams' lists are unchanged |
| NotifyService.AddNotification | src/notify/notify.service.ts:124-137 | with `ListenResultDTO` payloads: the same behaviour as the other copy, through the same generic model of `class Streamer` (src/notify/notify.service.ts:8-51) |

## Left out

* Real timers, promises and `Date`: replaced by a natural-number clock on which each timer fires exactly at its deadline; timer jitter and Node's clamping of delays below 1 ms are not modelled.
* Logging: the line printed by `stop()`, the `console.log` in `sendThroughWebsocket` (src/queuemanager/queuemanager.service.ts:48-50, src/notify/notify.service.ts:46-48) and the `Logger` field of the scheduler (src/notify/support-notification-queue.ts:15, never used) have no effect on the queues and are not modelled.
* Negative, fractional or very large option values: durations are natural numbers, and a delay is taken exactly as configured. Node's `setTimeout` treats a delay above 2147483647 ms as 1 ms, so an option such as `adsNotificationDuration: 3000000000` (src/notify/support-notification-queue.ts:150-155) makes the code wait about 1 ms where the model, and the spacing and drain results about it, wait the full duration.
* A delivery callback that throws: the callback is an external collaborator identified by a number. In the code a throw would end the processor's loop without the cleanup, leaving the key marked as started; this path is not modelled.
* A streamer whose emit throws: `sendThroughWebsocket` (src/queuemanager/queuemanager.service.ts:47-51, src/notify/notify.service.ts:45-50) is assumed to succeed. In the code a throw, for example from an unset socket server, rejects `start()` before `stop()` runs, so the id stays in the shared map and later messages for that stream are appended to a streamer that never emits again; this path is not modelled.
* The transport: `io.to(room).emit(...)` and the socket gateway's callback wiring are recorded as log entries (room or key, payload, time) rather than performed.
* `watchContract` in `src/notify/notify.service.ts` and the listener service: blockchain subscriptions through an external client.
* Controllers, Mongoose services, DTOs, schemas, random key generation, bootstrap and deployment configuration: CRUD and wiring with no scheduling logic.
* `SupportType` and `SupportDTO` are declared in a DTO file that is not part of this model; a notification is a kind (`Normal`, `Video`, `Ads`, or any other value) plus an opaque payload.
* ProcessorTiming.DrainAlone: stated for a key whose processor is the only one running, so that time can advance to its timers without other processors' timers coming due first; other keys' independence is stated step by step by the frame clauses of `Enqueue` and `Resume` and by `NextLookStable`.
* Cross-key parallelism: modelled as arbitrary interleaving of the atomic per-key steps.
