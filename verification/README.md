# Verified model of the RainMaker common components

This project models the components that carry the difficult logic and proves what they promise, for
every input, every run or every reachable state. It is checked with

    dafny verify dfyconfig.toml

## What is modelled

* **MQTT subscription glue** (`MqttTable`, `MqttRegions`, `MqttGlue`, `MqttProtocol`, `MqttAcks`,
  `MqttSessions`, `MqttUnsubscribe`, `MqttLifecycle`, `MqttRetry`, `MqttRace`, `MqttEviction`, `MqttWitness`).
  `MqttTable` and `MqttRegions` say what each region under the lock does to the table; `MqttGlue` is the C
  code's own in-place form of those regions, proved equal. `MqttProtocol` interleaves the regions, and the
  calls made between them, of any number of application threads, retry rounds, the event handler, deinits and
  an administrative thread, against a broker that decides freely. The other modules prove six groups of
  properties of all its runs; `MqttWitness` and `MqttEviction` reach, from the initial state, the states that
  their conditions exclude.
* **MQTT delivery** (`MqttTopics`, `MqttDelivery`): wildcard matching and reassembly of fragments.
* **Work queue** (`WorkQueue`, `WorkQueueTask`): worker, producers, and control calls from outside and from
  inside a work item, one access to the shared state per step; and the undisturbed calls in C form.
* **SigV4 signer** (`OutputSink`, `UriEncoding`, `PathNormalizer`, `HeaderTrimming`, `CanonicalHeaders`,
  `CanonicalQuery`, `Permutations`, `SigV4Signer`, `SigV4Format`, `PresignedUrl`): the streaming, bufferless
  C code equals the simple reference in `tools/sigv4_ref.py`, every part of the texts signed and sent reads
  back from them, and what goes on the wire determines what was signed.
* **Request layer** (`ResponseAccum`, `RequestUrl`, `ConnectionPool`, `SignedRequest`, `CredentialCache`):
  one pooled connection with a single guarded retry, the growing response buffer, and credentials tagged
  by host generation.
* **Codec and calendar** (`TlvCodec`, `CmdResponse`, `Calendar`): the chunked TLV codec through the
  dispatcher, and two date algorithms that agree on every year.

`Bytes` holds byte strings and the shared splitting lemmas. Integers are unbounded; byte strings are
sequences of 0..255.

## What the environment is assumed to do

* esp-mqtt: packet ids are positive and never reused; one event is in the handler at a time; a SUBACK is
  reported once; SUBSCRIBEs and UNSUBSCRIBEs reach the broker in the order they were sent, and the broker
  keeps no subscription from an earlier connection; stopping or destroying the client waits for the handler;
  every fragment lies within its message and carries the same total.
* init, deinit and the administrative calls (connect, disconnect, update_config) are serialised by their
  caller; two deinits may race each other.
* Computing the retry delay and posting the timer command is one step.
* The FreeRTOS queue is FIFO and bounded; external work-queue calls are serialised; adding stops before the
  queue is deleted.
* The HTTP port overwrites or removes headers by name, and answers in every other respect as it likes.
* SHA-256 and HMAC are functions of the bytes fed to them.

## Where the code and its promise part

Each of these is kept as the code has it, with the exact condition proved.

* Work queue: a work item that stops its own queue between the check and the write of an outside stop leaves
  the state at STOP_REQUESTED with the worker parked; start and deinit then wait for ever
  (`WorkQueue.LateStopExists`, `WorkQueue.StuckIffLateStop`).
* A stop does not drain the queue: an item accepted before the stop was called can stay behind
  (`WorkQueue.StopLeavesItem`). A parked worker has run exactly the items accepted before it last found the
  queue empty (`WorkQueue.ParkedAfterDrain`).
* A SUBACK that overtakes its recording by more than 5000 ms is lost, and the entry waits for the request
  to expire (`MqttWitness.LateRecordStaysRequested`; `MqttRace.RecordSettlesInTime` has the condition).
* When all four slots hold live SUBACKs, parking a fifth overwrites one, and its sender's recording then leaves
  the entry REQUESTED (`MqttEviction.FifthSubackEvicts`). The one lost is exactly the oldest, the first of them
  if several are equally old (`MqttEviction.LostIffOldest`, `MqttEviction.EvictedStaysRequested`).
* Neither disconnecting nor connecting clears the parked SUBACKs, and recording does not check whose
  reservation it finds, so an entry can be ACKNOWLEDGED by a verdict of a former connection
  (`MqttWitness.StaleAcknowledged`). It happens exactly when the send that settled it spans a connect or
  disconnect (`MqttSessions.AcknowledgedMeansAccepted`), that is, when a sender records its id in a later
  epoch than the one it was sent in (`MqttSessions.SpansIffRecordedLate`).
* UNSUBSCRIBE is sent after the lock is released, so it can cancel a subscription that another thread has made
  and seen acknowledged in between (`MqttWitness.UnsubscribeOvertaken`). Nothing that an entry relies on, or a
  sender is about to record, is ever cut off, exactly in the runs in which each UNSUBSCRIBE is sent while no
  entry relies on its topic and no sender is about to record an id for it (`MqttUnsubscribe.InForceIffClear`).
  In those runs, if besides no send spans a connect or disconnect, ACKNOWLEDGED means subscribed at the broker
  (`MqttUnsubscribe.AcknowledgedMeansActive`). Callers get there by keeping subscribe and unsubscribe of one
  topic apart (`MqttUnsubscribe.SeparateIsClear`).
* A trailing `+` does not match an empty last level (`MqttTopics.ScanIsRule`).
* `unsubscribe` compares only the characters of its argument, so it may detach an entry whose topic merely
  starts with it (`MqttRegions.PicksLonger`). It picks the asked topic exactly when some entry has it and no
  longer topic that starts with it comes first (`MqttRegions.PicksAsked`).
* Trimming differs from Python's `str.split()` on the bytes 0x1C to 0x1F (`HeaderTrimming.TrimMatchesPython`).
* An empty header name beside others loses its `;` in SignedHeaders (`SigV4Signer.SignedHeadersMatch`).
* A pooled connection to a host of 160 bytes or more is remembered truncated, so a request to the truncated
  name goes to it (`ConnectionPool.LongNameReused`; `ConnectionPool.Handle.ConnGet` has the condition).
* `add_tlv` makes room for one header only, so a value of more than 255 bytes can run past the buffer. Some
  buffer lets that happen exactly for those values (`TlvCodec.GuardMisses`); `prepare_payload` allocates enough
  (`CmdResponse.PreparePayload`).
* `rmaker_timegm` reads past its month table exactly for a month that is a negative multiple of 12
  (`Calendar.NormalizedMonth`).
* `get_tlv_encoded_size` is 2 too large exactly for positive multiples of 255 (`TlvCodec.EncodeSize`).

## Model

| member | source | states |
|---|---|---|
| MqttRace.SettledEitherWay | src/esp-mqtt/esp-mqtt-glue.c:346-396 | from any reachable state: a thread reserves a topic while connected, esp-mqtt returns a fresh positive id, nothing competes and, while our SUBACK is parked, no further one is parked when all four slots are live; once the id is recorded and the SUBACK handled, in either order, every entry of the topic is ACKNOWLEDGED or FAILED per the verdict, and until the SUBACK it is REQUESTED under this id |
| MqttRace.WindowStep | src/esp-mqtt/esp-mqtt-glue.c:291-323 | every step the promise allows keeps the send where it stands between reserve, record and SUBACK |
| MqttRace.RecordSettlesInTime | src/esp-mqtt/esp-mqtt-glue.c:311-323 | a SUBACK that came first settles the entries at recording time if and only if it was parked at most 5000 ms ago; otherwise they stay REQUESTED |
| MqttRace.ParkPicksFree | src/esp-mqtt/esp-mqtt-glue.c:291-308 | parking uses a free or expired slot whenever there is one, so it evicts a live SUBACK only when all four are live |
| MqttEviction.LostIffOldest | src/esp-mqtt/esp-mqtt-glue.c:291-308 | when all slots are live, parking one more loses a SUBACK if and only if it is the oldest, the first of equally old ones |
| MqttEviction.EvictedStaysRequested | src/esp-mqtt/esp-mqtt-glue.c:291-323 | with four live SUBACKs parked and a fifth coming, a sender that records in time finds its entries left REQUESTED if and only if its own SUBACK was the oldest, and settled as the broker decided otherwise |
| MqttEviction.FifthSubackEvicts | src/esp-mqtt/esp-mqtt-glue.c:291-323 | a run from the initial state: five senders, five SUBACKs before anyone records, and the first entry stays REQUESTED under an accepted and answered id |
| MqttRace.RefusedSendFails | src/esp-mqtt/esp-mqtt-glue.c:361-379 | a send esp-mqtt refused, or that was not tried while disconnected, leaves every entry of the topic FAILED unless something competes |
| MqttRace.SentOnlyWhileConnected | src/esp-mqtt/esp-mqtt-glue.c:346-365 | what is reserved while disconnected is never handed to esp-mqtt and records a failure; what is reserved while connected is, and records its id |
| MqttSessions.AcknowledgedMeansAccepted | src/esp-mqtt/esp-mqtt-glue.c:346-396 | in every reachable state an ACKNOWLEDGED entry owes its state to an accepted SUBSCRIBE for its very topic that was recorded on the present connection, and was sent on it if and only if the send spanned no connect or disconnect; a REQUESTED entry is reserved or holds the id of a SUBSCRIBE for it recorded on the present connection |
| MqttUnsubscribe.InForceIffClear | src/esp-mqtt/esp-mqtt-glue.c:672-684 | over every run: in all its states whatever an entry relies on or a sender is about to record is not cut off by an UNSUBSCRIBE, if and only if each UNSUBSCRIBE is sent while no entry on its topic is acknowledged or has its request recorded and no sender is about to record an id for it |
| MqttUnsubscribe.AcknowledgedMeansActive | src/esp-mqtt/esp-mqtt-glue.c:672-684 | in such a run, with every record in the epoch of its send, an ACKNOWLEDGED entry has a subscription at the broker on the present connection |
| MqttUnsubscribe.ActiveUnlessCutOff | src/esp-mqtt/esp-mqtt-glue.c:672-684 | the SUBSCRIBE an ACKNOWLEDGED entry relies on is in force if and only if its send spanned no connect or disconnect and no step of the run sent an UNSUBSCRIBE for the topic after it |
| MqttUnsubscribe.SeparateIsClear | src/esp-mqtt/esp-mqtt-glue.c:656-706 | if no subscribe for a topic enters the table or is sent while an UNSUBSCRIBE for it is still to be sent, and no topic is detached while its SUBSCRIBE is sent and not recorded, every UNSUBSCRIBE is sent while nothing relies on its topic |
| MqttSessions.PromptMeansPresent | src/esp-mqtt/esp-mqtt-glue.c:557-565 | in a run where every sender records in the epoch it sent in, every ACKNOWLEDGED entry was accepted on the present connection |
| MqttSessions.SpansIffRecordedLate | src/esp-mqtt/esp-mqtt-glue.c:366-384 | over every run: some send spanned a connect or disconnect if and only if some sender recorded its id in a later epoch than it was sent in |
| MqttWitness.StaleAcknowledged | src/esp-mqtt/esp-mqtt-glue.c:806-816 | a run from the initial state: a send accepted before a reconnect is recorded after it, on a newer reservation, and the entry is ACKNOWLEDGED with nothing in force at the broker |
| MqttWitness.LateRecordStaysRequested | src/esp-mqtt/esp-mqtt-glue.c:311-323 | a run from the initial state: a SUBACK parked for more than 5000 ms is lost and the accepted entry stays REQUESTED |
| MqttWitness.UnsubscribeOvertaken | src/esp-mqtt/esp-mqtt-glue.c:672-684 | a run from the initial state: an UNSUBSCRIBE sent after the lock was released cancels a subscription acknowledged in between |
| MqttAcks.RecordOk | src/esp-mqtt/esp-mqtt-glue.c:366-384 | recording, with or without a parked SUBACK, acknowledges only what the broker accepted |
| MqttAcks.SubackOk | src/esp-mqtt/esp-mqtt-glue.c:833-856 | handling or parking a SUBACK keeps every entry and slot true to the verdicts |
| MqttAcks.SubscribeOk | src/esp-mqtt/esp-mqtt-glue.c:583-641 | a new entry starts ACKNOWLEDGED only beside an acknowledged entry on the same topic |
| MqttRetry.NoPendingForgotten | src/esp-mqtt/esp-mqtt-glue.c:500-555 | in every reachable state that is connected and not deleting, an entry that is not ACKNOWLEDGED implies the timer is armed, timer_arm_pending is set, a round is queued, or some thread has yet to reach its schedule call |
| MqttRetry.BackoffIs | src/esp-mqtt/esp-mqtt-glue.c:479-486 | the retry delay is always min(5000 * 2^k, 60000) after k rounds that re-sent a failed entry since the last reset |
| MqttRetry.RoundSendsOnce | src/esp-mqtt/esp-mqtt-glue.c:400-466 | a pass over the table sends exactly one SUBSCRIBE for every topic with an entry that was never requested or failed, or was requested more than 30 seconds ago without an answer, at the highest QoS of exactly those entries, and none for any other |
| MqttRetry.RoundBacksOff | src/esp-mqtt/esp-mqtt-glue.c:454-486 | a round backs off exactly when it re-sends a topic that failed or was never requested; expired requests and the pass after a connect do not |
| MqttRetry.ExecHanded | src/esp-mqtt/esp-mqtt-glue.c:417-466 | every task either leaves pending subscriptions watched or owes a schedule call itself |
| MqttRetry.ScheduleArms | src/esp-mqtt/esp-mqtt-glue.c:530-555 | a schedule call leaves the timer armed exactly while connected with something not acknowledged; a refused command is noted for the next event |
| MqttRetry.StopPushed | src/esp-mqtt/esp-mqtt-glue.c:558-570 | the retry timer is stopped only after the connection was marked as gone |
| MqttLifecycle.Quiescence | src/esp-mqtt/esp-mqtt-glue.c:127-151 | busy is the number of threads between begin and end, mqtt_data is never used while NULL, and inits, deinits and frees balance |
| MqttLifecycle.FreedAlone | src/esp-mqtt/esp-mqtt-glue.c:1136-1171 | only the deinit that set deleting frees the instance, with no operation inside, no other thread with anything left to do and the client down |
| MqttLifecycle.NoneBeginsWhileDeleting | src/esp-mqtt/esp-mqtt-glue.c:133-136 | from the moment deleting is set until the next init, only threads already inside are ever inside |
| MqttLifecycle.LateRoundTouchesNothing | src/esp-mqtt/esp-mqtt-glue.c:472-476 | after the free, every retry round and every other call before the next init finds no instance and gets no task |
| MqttLifecycle.DeinitKeeps | src/esp-mqtt/esp-mqtt-glue.c:1141-1147 | concurrent deinits: the deleting flag lets exactly one through and the invariant holds |
| MqttTable.CollectIs | src/esp-mqtt/esp-mqtt-glue.c:400-452 | resubscribe_pending collects a topic exactly when some entry was never requested, failed or expired, at the highest QoS of those entries, as unanswered exactly when the first of them awaits a SUBACK |
| MqttTable.CollectDistinct | src/esp-mqtt/esp-mqtt-glue.c:430-441 | no topic is collected twice |
| MqttTable.ReservedUntilExpiry | src/esp-mqtt/esp-mqtt-glue.c:346-385 | a reserved topic is due again exactly when 30 seconds have passed since the reservation, whether or not its id is recorded |
| MqttTable.FirstAwaiting | src/esp-mqtt/esp-mqtt-glue.c:841-849 | the entry whose topic a SUBACK reports is the first one waiting for it |
| MqttTable.TakeSlot | src/esp-mqtt/esp-mqtt-glue.c:311-323 | the slot taken is the first live one for the id, and there is none exactly when the length is returned |
| MqttRegions.UnsubscribeAllSendsOnce | src/esp-mqtt/esp-mqtt-glue.c:954-973 | unsubscribe_all empties the table and sends exactly one UNSUBSCRIBE per topic in it while connected, none otherwise |
| MqttRegions.StopsWhenSettled | src/esp-mqtt/esp-mqtt-glue.c:500-529 | the schedule decision stops the timer exactly when disconnected or everything is acknowledged |
| MqttRegions.BackoffDoubles | src/esp-mqtt/esp-mqtt-glue.c:480-485 | one back-off step is the next value of min(5000 * 2^k, 60000) |
| MqttRegions.LastEntry | src/esp-mqtt/esp-mqtt-glue.c:585-592 | a repeated subscribe updates the last entry with its topic and callback |
| MqttRegions.SubscribeIs | src/esp-mqtt/esp-mqtt-glue.c:577-642 | the entry stored, the QoS and state it gets, when a SUBSCRIBE is due and when the call fails, nothing else changed |
| MqttRegions.UnsubscribeIs | src/esp-mqtt/esp-mqtt-glue.c:656-706 | removes the first prefix match only; UNSUBSCRIBE is due exactly while connected with no other entry on its topic |
| MqttRegions.SubackIs | src/esp-mqtt/esp-mqtt-glue.c:833-856 | settles exactly the entries waiting for the id, or takes one slot |
| MqttRegions.DeletedIs | src/esp-mqtt/esp-mqtt-glue.c:882-892 | fails exactly the entries waiting for the dropped id |
| MqttRegions.ForgetsAll | src/esp-mqtt/esp-mqtt-glue.c:557-565 | a connect and a disconnect reset every entry and the back-off, and keep the parked SUBACKs |
| MqttRegions.EventHeadIs | src/esp-mqtt/esp-mqtt-glue.c:791-803 | a noted timer command is handed out once; any event but a connect attempt ends the wait for one |
| MqttRegions.DelayIs | src/esp-mqtt/esp-mqtt-glue.c:500-529 | the delay posted: back-off and up to five seconds of jitter when something failed, 31 seconds when something is merely unanswered |
| MqttRegions.FirstStarting | src/esp-mqtt/esp-mqtt-glue.c:694-699 | unsubscribe picks the first entry whose topic starts with the given one (the comparison covers strlen(topic) characters only) |
| MqttRegions.PicksAsked | src/esp-mqtt/esp-mqtt-glue.c:694-699 | the entry unsubscribe picks is on the asked topic if and only if some entry is, with no longer topic that starts with it in front |
| MqttRegions.PicksLonger | src/esp-mqtt/esp-mqtt-glue.c:694-699 | a table from which unsubscribing "a" takes "ab" and leaves "a" |
| MqttGlue.GlueData.constructor | src/esp-mqtt/esp-mqtt-glue.c:1111-1117 | a new instance has no subscriptions, free slots and the base delay |
| MqttGlue.GlueData.Reserve | src/esp-mqtt/esp-mqtt-glue.c:348-359 | the reservation loop, in place, against its function |
| MqttGlue.GlueData.Record | src/esp-mqtt/esp-mqtt-glue.c:366-385 | the recording region, in place: takes the parked SUBACK and settles exactly the entries still reserved |
| MqttGlue.GlueData.TakeEarlyAck | src/esp-mqtt/esp-mqtt-glue.c:311-323 | the slot search, in place |
| MqttGlue.GlueData.ParkEarlyAck | src/esp-mqtt/esp-mqtt-glue.c:291-308 | the slot choice and write, in place |
| MqttGlue.GlueData.Suback | src/esp-mqtt/esp-mqtt-glue.c:840-856 | the SUBACK region, in place |
| MqttGlue.GlueData.Deleted | src/esp-mqtt/esp-mqtt-glue.c:882-892 | the dropped-request region, in place |
| MqttGlue.GlueData.Connect | src/esp-mqtt/esp-mqtt-glue.c:811-816 | the CONNECTED region, in place |
| MqttGlue.GlueData.MarkDisconnected | src/esp-mqtt/esp-mqtt-glue.c:558-565 | the disconnect region, in place |
| MqttGlue.GlueData.EventHead | src/esp-mqtt/esp-mqtt-glue.c:791-803 | the region every event starts with |
| MqttGlue.GlueData.Subscribe | src/esp-mqtt/esp-mqtt-glue.c:577-642 | the single pass over the table and the update or insertion |
| MqttGlue.GlueData.Detach | src/esp-mqtt/esp-mqtt-glue.c:658-670 | empties the slot; UNSUBSCRIBE is due when connected and nothing else is on the topic |
| MqttGlue.GlueData.Unsubscribe | src/esp-mqtt/esp-mqtt-glue.c:686-706 | detaches the first prefix match or reports that there is none |
| MqttGlue.GlueData.UnsubscribeAll | src/esp-mqtt/esp-mqtt-glue.c:954-969 | the detach loop over the whole table |
| MqttGlue.GlueData.Collect | src/esp-mqtt/esp-mqtt-glue.c:424-452 | the nested collection loop |
| MqttGlue.GlueData.Backoff | src/esp-mqtt/esp-mqtt-glue.c:480-485 | the doubling with its cap |
| MqttGlue.GlueData.ScheduleSubRetry | src/esp-mqtt/esp-mqtt-glue.c:500-529 | the scan and the delay decision |
| MqttGlue.GlueData.BeginOp | src/esp-mqtt/esp-mqtt-glue.c:127-140 | enters only while not deleting |
| MqttGlue.GlueData.EndOp | src/esp-mqtt/esp-mqtt-glue.c:146-151 | leaves |
| MqttDelivery.DeliveredOnce | src/esp-mqtt/esp-mqtt-glue.c:753-785 | a message that arrives whole or in contiguous non-empty fragments, whatever was left over before, ends in exactly one call per entry matching when the last fragment comes, in table order, each with that entry's callback and private data, the topic and the full payload; nothing earlier and nothing left over |
| MqttDelivery.CalledByRule | src/esp-mqtt/esp-mqtt-glue.c:258-266 | for a topic with a non-empty last level and a filter whose wildcards fill levels, an entry is called exactly when the level-by-level rule matches |
| MqttDelivery.Matching | src/esp-mqtt/esp-mqtt-glue.c:258-267 | the matching entries, each once and in table order |
| MqttDelivery.SubscribeCallback | src/esp-mqtt/esp-mqtt-glue.c:240-273 | collects under the lock and calls afterwards: one call per matching entry, with that entry's callback and private data |
| MqttDelivery.Receiver.ManageLongData | src/esp-mqtt/esp-mqtt-glue.c:753-785 | reassembly in a heap buffer against its function |
| MqttDelivery.Receiver.OnEvent | src/esp-mqtt/esp-mqtt-glue.c:903-923 | the DATA branch against its function |
| MqttTopics.TopicMatches | src/esp-mqtt/esp-mqtt-glue.c:201-228 | the two-cursor scan against its recursive form |
| MqttTopics.ScanIsRule | src/esp-mqtt/esp-mqtt-glue.c:201-228 | the scan is the rule of section 4.7.1.3 of MQTT 3.1.1 except, exactly, a trailing + against an empty last level |
| WorkQueue.Conservation | components/rmaker_work_queue/src/work_queue.c:72-105 | in every reachable state the accepted items in order are those that ran, the one running and those queued, and the entries never exceed the size |
| WorkQueue.ParkedAfterDrain | components/rmaker_work_queue/src/work_queue.c:72-105 | whenever the worker is parked, exactly the items accepted before it last found the queue empty have run; the later ones are still queued |
| WorkQueue.StopLeavesItem | components/rmaker_work_queue/src/work_queue.c:72-105 | a run in which an item accepted before stop was called has not run when the stop has returned and the worker is parked |
| WorkQueue.OneWorker | components/rmaker_work_queue/src/work_queue.c:254-309 | one worker task for life, resumed or deleted only while suspended, and no work item waits for its own worker |
| WorkQueue.StuckIffLateStop | components/rmaker_work_queue/src/work_queue.c:311-324 | a run ends with the worker parked under STOP_REQUESTED for good if and only if an outside stop wrote the state after the worker had written INIT_DONE |
| WorkQueue.StuckForGood | components/rmaker_work_queue/src/work_queue.c:112-126 | from such a state no item ever runs, and an outside start or deinit, already waiting or begun later, waits for ever: it never returns, resumes or deletes |
| WorkQueue.LateStopExists | components/rmaker_work_queue/src/work_queue.c:317-321 | a concrete run in which a work item stops its own queue between the check and the write of an outside stop |
| WorkQueue.ApartIsTimely | components/rmaker_work_queue/src/work_queue.c:311-324 | if no work item stops the queue while an outside stop or deinit is on its way, no stop comes late |
| WorkQueue.ResumesParkedWorker | components/rmaker_work_queue/src/work_queue.c:266-276 | in every run start writes RUNNING on resume, and deinit deletes, only after the INIT_DONE write and suspension |
| WorkQueue.ParkedUnderStop | components/rmaker_work_queue/src/work_queue.c:311-324 | a parked worker is found under STOP_REQUESTED if and only if a stop came late |
| WorkQueue.StopReachesSuspension | components/rmaker_work_queue/src/work_queue.c:94-104 | from every reachable state with a stop requested and with nothing new, every worker step decreases a measure no other step increases, so the worker parks |
| WorkQueue.CallConserved | components/rmaker_work_queue/src/work_queue.c:311-324 | control calls, the wake entry included, lose and duplicate no work |
| WorkQueueTask.PassDrains | components/rmaker_work_queue/src/work_queue.c:72-84 | undisturbed steps of the worker from a receive amount to one pass of the receive loop |
| WorkQueueTask.StopAlone | components/rmaker_work_queue/src/work_queue.c:311-324 | an undisturbed outside stop amounts to the method form |
| WorkQueueTask.Queue.HandleWorkQueue | components/rmaker_work_queue/src/work_queue.c:72-84 | the receive loop runs every queued item once, in order, and skips wake entries |
| WorkQueueTask.Queue.AddTask | components/rmaker_work_queue/src/work_queue.c:128-146 | accepts exactly while there is room |
| WorkQueueTask.Queue.StopInternal | components/rmaker_work_queue/src/work_queue.c:311-324 | requests a stop only from RUNNING and posts a wake entry if it fits |
| SigV4Signer.WireDeterminesUri | components/rmaker_aws_sign/src/esp_rmaker_aws_sign_sigv4.c:550-554 | for every path starting with a slash the streamed URI is the wire path itself for S3, and the encoding of the normalised wire path otherwise |
| SigV4Signer.StreamedIsCanonUri | components/rmaker_aws_sign/tools/sigv4_ref.py:50-55 | for every path the streamed URI is canon_uri() |
| SigV4Signer.StreamedIsReference | components/rmaker_aws_sign/tools/sigv4_ref.py:77-94 | streaming over the collected headers gives the reference canonical request byte for byte |
| SigV4Signer.DigestRequest | components/rmaker_aws_sign/src/esp_rmaker_aws_sign_sigv4.c:541-577 | what the digest has absorbed |
| SigV4Signer.SignCanonical | components/rmaker_aws_sign/src/esp_rmaker_aws_sign_sigv4.c:579-618 | the signature over the digest, failing exactly when a buffer is too small |
| SigV4Signer.SigV4WithQuery | components/rmaker_aws_sign/src/esp_rmaker_aws_sign_sigv4.c:638-719 | succeeds exactly within its limits, with the reference Authorization header |
| SigV4Signer.LimitsAre | components/rmaker_aws_sign/src/esp_rmaker_aws_sign_sigv4.c:638-719 | the limits in figures |
| SigV4Signer.SignedHeadersMatch | components/rmaker_aws_sign/src/esp_rmaker_aws_sign_sigv4.c:346-377 | SignedHeaders is the reference list if and only if no header beside others has an empty name |
| SigV4Signer.PythonMergedIs | components/rmaker_aws_sign/tools/sigv4_ref.py:86-91 | the dictionary built with str.split() trimming is the one built with the C trimming, for ASCII values without 0x1C-0x1F |
| SigV4Signer.HexReadsBack | components/rmaker_aws_sign/src/esp_rmaker_aws_sign_sigv4.c:34-42 | every byte reads back from its two lower-case digits, the high one first |
| SigV4Format.RequestReadsBack | components/rmaker_aws_sign/src/esp_rmaker_aws_sign_sigv4.c:541-577 | split at its newlines the canonical request gives method, URI, query, one line per header name in order with its trimmed values, an empty line, the signed names and the payload hash |
| SigV4Format.SignsAll | components/rmaker_aws_sign/src/esp_rmaker_aws_sign_sigv4.c:656-680 | the signed names are exactly those the signer adds and those of the caller |
| SigV4Format.SignsValues | components/rmaker_aws_sign/src/esp_rmaker_aws_sign_sigv4.c:656-680 | host, date, token and payload hash are signed with the one value given |
| SigV4Format.StringToSignReadsBack | components/rmaker_aws_sign/tools/sigv4_ref.py:97 | split at its newlines the string to sign gives algorithm, date, scope and request hash |
| SigV4Format.ScopeReadsBack | components/rmaker_aws_sign/tools/sigv4_ref.py:96 | split at its slashes the scope gives day, region, service and terminator |
| SigV4Format.AuthorizationReadsBack | components/rmaker_aws_sign/tools/sigv4_ref.py:114-115 | credential, signed names and signature, in this order |
| SigV4Format.KeyChain | components/rmaker_aws_sign/src/esp_rmaker_aws_sign_sigv4.c:579-618 | the key is derived from the secret through day, region, service and terminator, in this order, and applied to the string to sign |
| UriEncoding.PutByteIsEncoded | components/rmaker_aws_sign/src/esp_rmaker_aws_sign_sigv4.c:147-162 | the one-pass form of a byte is that byte encoded once, or twice |
| UriEncoding.PutEncoded | components/rmaker_aws_sign/src/esp_rmaker_aws_sign_sigv4.c:149-162 | streams the reference encoding, applied twice in twice mode |
| UriEncoding.UriEncodeInto | components/rmaker_aws_sign/src/esp_rmaker_aws_sign_sigv4.c:272-279 | the size pass and the writing pass return one length; a fitting buffer holds the encoding and its NUL |
| UriEncoding.DecodeEncode | components/rmaker_aws_sign/tools/sigv4_ref.py:26-34 | decoding an encoding gives the raw bytes back |
| UriEncoding.EncodeInjective | components/rmaker_aws_sign/tools/sigv4_ref.py:26-34 | different inputs have different encodings |
| UriEncoding.EncodeAlphabet | components/rmaker_aws_sign/tools/sigv4_ref.py:26-34 | only unreserved bytes, escapes and kept slashes are written |
| UriEncoding.Unescaped | components/rmaker_aws_sign/tools/sigv4_ref.py:17 | exactly letters, digits, - . _ ~ and a kept slash are left as they are |
| PathNormalizer.PushPopIsKept | components/rmaker_aws_sign/tools/sigv4_ref.py:37-47 | the stack machine in closed form: what the segments pop, and what look-ahead keeps |
| PathNormalizer.StackIsLookAhead | components/rmaker_aws_sign/src/esp_rmaker_aws_sign_sigv4.c:205-218 | the stack keeps exactly the names for which removed_later() is false |
| PathNormalizer.LookAheadIsNormalize | components/rmaker_aws_sign/src/esp_rmaker_aws_sign_sigv4.c:221-241 | the bufferless normaliser is the stack normaliser, trailing slash included |
| PathNormalizer.NormalizeFixedPoint | components/rmaker_aws_sign/tools/sigv4_ref.py:37-47 | normalising twice changes nothing |
| PathNormalizer.NormalizeEncode | components/rmaker_aws_sign/src/esp_rmaker_aws_sign_sigv4.c:149-241 | normalising and encoding commute |
| PathNormalizer.NextSegment | components/rmaker_aws_sign/src/esp_rmaker_aws_sign_sigv4.c:182-202 | the cursor yields the next non-empty segment and its kind |
| PathNormalizer.IsRemovedLater | components/rmaker_aws_sign/src/esp_rmaker_aws_sign_sigv4.c:205-218 | the look-ahead counter decides whether a later .. removes the name |
| PathNormalizer.PutNormalized | components/rmaker_aws_sign/src/esp_rmaker_aws_sign_sigv4.c:221-241 | streams the normalised path, encoded twice on request |
| PathNormalizer.NormalizePathInto | components/rmaker_aws_sign/src/esp_rmaker_aws_sign_sigv4.c:281-287 | writes the normalised path into a buffer |
| HeaderTrimming.EmitIsTrim | components/rmaker_aws_sign/src/esp_rmaker_aws_sign_sigv4.c:245-263 | the two-loop trimmer joins the whitespace-separated words |
| HeaderTrimming.PutTrimmed | components/rmaker_aws_sign/src/esp_rmaker_aws_sign_sigv4.c:245-263 | streams the trimmed value |
| HeaderTrimming.TrimMatchesPython | components/rmaker_aws_sign/tools/sigv4_ref.py:65-66 | on ASCII values it equals " ".join(v.split()) if and only if there is no byte 0x1C-0x1F |
| CanonicalHeaders.CollectHeaders | components/rmaker_aws_sign/src/esp_rmaker_aws_sign_sigv4.c:315-344 | refuses exactly too many, NULL or reserved headers; else a stable sort by name, in place |
| CanonicalHeaders.SortHeaders | components/rmaker_aws_sign/src/esp_rmaker_aws_sign_sigv4.c:333-343 | the insertion sort is a stable sort up to case |
| CanonicalHeaders.StableSortKeepsReference | components/rmaker_aws_sign/tools/sigv4_ref.py:86-91 | a stable sort changes neither the merged dictionary nor its keys |
| CanonicalHeaders.RunLinesAreReference | components/rmaker_aws_sign/src/esp_rmaker_aws_sign_sigv4.c:561-573 | merging runs of equal names gives the reference lines |
| CanonicalHeaders.RunNamesSorted | components/rmaker_aws_sign/src/esp_rmaker_aws_sign_sigv4.c:346-377 | the run names are the sorted dictionary keys |
| CanonicalHeaders.NamesAscend | components/rmaker_aws_sign/tools/sigv4_ref.py:86-91 | the header names ascend byte by byte |
| Bytes.LexLeIs | components/rmaker_aws_sign/src/esp_rmaker_aws_sign_sigv4.c:308-344 | the order is decided by the first difference, a proper prefix first |
| CanonicalHeaders.MergedIs | components/rmaker_aws_sign/tools/sigv4_ref.py:86-89 | the dictionary holds, per lower-cased name, the trimmed values in insertion order |
| CanonicalHeaders.PutCanonicalHeaders | components/rmaker_aws_sign/src/esp_rmaker_aws_sign_sigv4.c:561-573 | the header loop streams one line per run |
| CanonicalHeaders.BuildSignedHeaders | components/rmaker_aws_sign/src/esp_rmaker_aws_sign_sigv4.c:346-377 | the list fits the size computed before and lists the run names |
| CanonicalHeaders.NamesJoinedMatches | components/rmaker_aws_sign/src/esp_rmaker_aws_sign_sigv4.c:346-377 | the list is the ;-join of the names if and only if an empty name is not first among several |
| CanonicalQuery.QueryIgnoresOrder | components/rmaker_aws_sign/src/esp_rmaker_aws_sign_sigv4.c:401-467 | only the multiset of raw pairs matters |
| CanonicalQuery.PermutedQuery | components/rmaker_aws_sign/src/esp_rmaker_aws_sign_sigv4.c:401-467 | every permutation of the parameters gives one query |
| CanonicalQuery.NullIsEmpty | components/rmaker_aws_sign/src/esp_rmaker_aws_sign_sigv4.c:432-440 | a NULL value and an empty one give one query |
| CanonicalQuery.QueryReadsBack | components/rmaker_aws_sign/tools/sigv4_ref.py:58-62 | splitting at & and = gives back exactly the sorted encoded pairs; decoding recovers the raw pairs |
| CanonicalQuery.SortedUnique | components/rmaker_aws_sign/src/esp_rmaker_aws_sign_sigv4.c:441 | whatever order qsort() leaves among equal keys, the sorted list is one |
| CanonicalQuery.QueryAscends | components/rmaker_aws_sign/src/esp_rmaker_aws_sign_sigv4.c:401-441 | the pairs ascend byte by byte by encoded name, and by encoded value under one name |
| CanonicalQuery.EncodeDup | components/rmaker_aws_sign/src/esp_rmaker_aws_sign_sigv4.c:386-399 | the size pass equals the bytes written |
| CanonicalQuery.BuildQuery | components/rmaker_aws_sign/src/esp_rmaker_aws_sign_sigv4.c:408-467 | refuses exactly a NULL name; the query and its NUL fit the allocation |
| PresignedUrl.PresignUrl | components/rmaker_aws_sign/src/esp_rmaker_aws_sign_sigv4.c:758-867 | succeeds exactly within its limits, with the reference URL byte for byte |
| PresignedUrl.LimitsAre | components/rmaker_aws_sign/src/esp_rmaker_aws_sign_sigv4.c:758-800 | the limits in figures, a week of expiry among them |
| PresignedUrl.WriteUrl | components/rmaker_aws_sign/src/esp_rmaker_aws_sign_sigv4.c:849-858 | the URL and its NUL fill the allocation of the size pass exactly |
| PresignedUrl.UrlReadsBack | components/rmaker_aws_sign/src/esp_rmaker_aws_sign_sigv4.c:741-756 | a server reads the signed pairs back in order, then the signature, then an unsigned token; no signed pair is called X-Amz-Signature |
| PresignedUrl.SignedPairsAre | components/rmaker_aws_sign/tools/sigv4_ref.py:121-131 | what is signed: every caller parameter, algorithm, credential, date, expiry, signed names, the token unless it goes after the signature, and nothing more |
| PresignedUrl.DecimalReadsBack | components/rmaker_aws_sign/src/esp_rmaker_aws_sign_sigv4.c:758-867 | the expiry is written in decimal digits without a leading zero |
| PresignedUrl.UrlFrontReadsBack | components/rmaker_aws_sign/src/esp_rmaker_aws_sign_sigv4.c:849-858 | scheme, host, encoded path and query read back from the URL; the path decodes to the one given |
| PresignedUrl.HashIs | components/rmaker_aws_sign/tools/sigv4_ref.py:133 | only S3 leaves the payload unsigned, and only when no hash was given |
| PresignedUrl.ReservedAre | components/rmaker_aws_sign/src/esp_rmaker_aws_sign_sigv4.c:727-739 | the seven reserved names, up to case |
| PresignedUrl.SignsHostAndCaller | components/rmaker_aws_sign/src/esp_rmaker_aws_sign_sigv4.c:785-800 | the signed names are host and those of the caller's headers |
| PresignedUrl.SignsHost | components/rmaker_aws_sign/src/esp_rmaker_aws_sign_sigv4.c:785-800 | the host is signed with the value given |
| PresignedUrl.IsParamReserved | components/rmaker_aws_sign/src/esp_rmaker_aws_sign_sigv4.c:727-739 | the reserved-name loop, up to case |
| OutputSink.Sink.Put | components/rmaker_aws_sign/src/esp_rmaker_aws_sign_sigv4.c:93-105 | appends to the digest or, if it fits, to the buffer, and counts |
| OutputSink.Sink.Finish | components/rmaker_aws_sign/src/esp_rmaker_aws_sign_sigv4.c:117-123 | terminates; when the output fits the buffer holds exactly it |
| ConnectionPool.Handle.Send | components/rmaker_aws_sign/src/esp_rmaker_aws_sign_send_request.c:303-347 | at most two transmissions, each exactly this request, the second only on a fresh connection after a reused one failed before any response; opens minus closes is one exactly when a connection is pooled |
| ConnectionPool.Handle.ConnGet | components/rmaker_aws_sign/src/esp_rmaker_aws_sign_send_request.c:102-152 | reuses exactly when host, timeout (the default when the caller gives none), idle time and retargeting allow; the connection is to the requested host unless it is a reused one whose host name did not fit the 160-byte memory |
| ConnectionPool.LongNameReused | components/rmaker_aws_sign/src/esp_rmaker_aws_sign_send_request.c:102-152 | two requests of which the second, to the first 159 bytes of the first one's host, goes out on the connection to the first host |
| ConnectionPool.Handle.Transfer | components/rmaker_aws_sign/src/esp_rmaker_aws_sign_send_request.c:303-347 | one turn of the loop: what is sent, when a retry is allowed, and the time of last use kept for the idle check |
| ConnectionPool.Handle.ConnClose | components/rmaker_aws_sign/src/esp_rmaker_aws_sign_send_request.c:24-33 | closes and forgets |
| ConnectionPool.SetRequestHeaders | components/rmaker_aws_sign/src/esp_rmaker_aws_sign_send_request.c:197-217 | on success the block is the four signing headers and the caller headers, nothing else |
| ConnectionPool.ClearCallerHeaders | components/rmaker_aws_sign/src/esp_rmaker_aws_sign_send_request.c:189-195 | only names every request overwrites stay |
| ConnectionPool.WireHeadersExact | components/rmaker_aws_sign/src/esp_rmaker_aws_sign_send_request.c:197-217 | with distinct names the wire carries each caller header as given and the signing headers untouched |
| ConnectionPool.WireHeadersLast | components/rmaker_aws_sign/src/esp_rmaker_aws_sign_send_request.c:197-217 | whatever the names: the last header of each name is on the wire, and the signing headers, and no other |
| SignedRequest.SendRequest | components/rmaker_aws_sign/src/esp_rmaker_aws_sign_send_request.c:219-356 | end to end: every transmission carries the method and URL that were signed, the reference Authorization, each header of the caller with its value, the default content type exactly when there is a payload and the caller gave none, the four signing headers, and nothing else |
| SignedRequest.Prepare | components/rmaker_aws_sign/src/esp_rmaker_aws_sign_send_request.c:219-302 | what is handed to the transfer is the signed method, URL and body with the caller's and the computed headers; a bad method or path is refused before anything is signed |
| SignedRequest.CallerNamesAreOwn | components/rmaker_aws_sign/src/esp_rmaker_aws_sign_send_request.c:197-217 | no caller header can stand in for a signing header |
| SignedRequest.ExactHeaders | components/rmaker_aws_sign/src/esp_rmaker_aws_sign_send_request.c:172-217 | the header block of a signed request, in terms of the request's own headers and payload |
| SignedRequest.SentHeadersOwn | components/rmaker_aws_sign/src/esp_rmaker_aws_sign_send_request.c:172-217 | each header of the caller with its value, the content type application/json exactly when there is a payload and the caller gave none, the signing headers, and nothing else |
| SignedRequest.VerbReadsBack | components/rmaker_aws_sign/src/esp_rmaker_aws_sign_send_request.c:57-73 | a method is accepted exactly when it is one of the five texts |
| SignedRequest.SentUrlReadsBack | components/rmaker_aws_sign/src/esp_rmaker_aws_sign_send_request.c:78-97 | host, path and parameters of the request read back from the URL |
| RequestUrl.BuildUrl | components/rmaker_aws_sign/src/esp_rmaker_aws_sign_send_request.c:81-97 | the sizes computed up front are exact |
| RequestUrl.UrlReadsBack | components/rmaker_aws_sign/src/esp_rmaker_aws_sign_send_request.c:78-97 | scheme, host, encoded path and query read back; the path decodes to the one given |
| CredentialCache.RefreshIsFresh | components/rmaker_aws_sign/src/esp_rmaker_aws_sign_creds.c:448-498 | over every interleaving: after OK the struct is fresh, its tag names the host its strings came from, which is the handle's current one; a fetch stores the keys fetched and their expiry, or the fallback exactly when that is past, due again the margin or half the time left before it, whichever is less; nothing is fetched exactly while the struct has keys of this alias and host and is not due; on error nothing changes |
| CredentialCache.RefreshIs | components/rmaker_aws_sign/src/esp_rmaker_aws_sign_creds.c:448-498 | one refresh: the reason for each refusal, when the struct is reused, and what a fetch stores |
| CredentialCache.HostChangeInvalidates | components/rmaker_aws_sign/src/esp_rmaker_aws_sign_creds.c:174-200 | after a host change no struct in existence is reused on that handle |
| CredentialCache.InvAlways | components/rmaker_aws_sign/src/esp_rmaker_aws_sign_creds.c:174-200 | each generation names one host, in every run |
| CredentialCache.Generations.Next | components/rmaker_aws_sign/src/esp_rmaker_aws_sign_creds.c:67-74 | a generation is never 0, also when the counter wraps |
| CredentialCache.Client.CredsRefresh | components/rmaker_aws_sign/src/esp_rmaker_aws_sign_creds.c:448-498 | a refresh in the C code's form: result, keys, expiry and due time as above |
| CredentialCache.Client.SetCredHost | components/rmaker_aws_sign/src/esp_rmaker_aws_sign_creds.c:174-200 | the host and a new generation together |
| ResponseAccum.Accum.Reset | components/rmaker_aws_sign/src/esp_rmaker_aws_sign_accum.c:24-32 | an empty body in the same buffer |
| ResponseAccum.Accum.Reserve | components/rmaker_aws_sign/src/esp_rmaker_aws_sign_accum.c:48-80 | room for the need and the terminator within the limit, or the reason why not |
| ResponseAccum.Accum.Hint | components/rmaker_aws_sign/src/esp_rmaker_aws_sign_accum.c:82-91 | reserves the declared length; a length over the limit is refused |
| ResponseAccum.Accum.Sink | components/rmaker_aws_sign/src/esp_rmaker_aws_sign_accum.c:48-105 | the buffer is the concatenation of the accepted chunks, NUL-terminated also after an empty one; over the limit is always refused; growing has copied at most twice the body, unless a size hint came after body bytes |
| ResponseAccum.Accum.NewCap | components/rmaker_aws_sign/src/esp_rmaker_aws_sign_accum.c:57-66 | the doubling loop stays within the limit |
| CmdResponse.RoundTrip | components/rmaker_cmd_resp/src/cmd_resp.c:353-424 | the handler receives exactly the data sent; a non-deferred response decodes to the same id and command with the status the table, access mask and handler decide |
| CmdResponse.PayloadReads | components/rmaker_cmd_resp/src/cmd_resp.c:115-150 | every field of a payload reads back, also for data of a multiple of 255 |
| CmdResponse.IncompleteIsInvalid | components/rmaker_cmd_resp/src/cmd_resp.c:371-374 | a request without id, role or command is answered, never dispatched |
| CmdResponse.PermittedIsMask | components/rmaker_cmd_resp/src/cmd_resp.c:382 | permitted exactly when access & (role & 0x0F) is not zero |
| CmdResponse.PayloadExample | components/rmaker_cmd_resp/src/cmd_resp.c:200-276 | the bytes of two payloads: type, length and value of each field, the command with its low byte first |
| CmdResponse.TimestampIs | components/rmaker_cmd_resp/src/cmd_resp.c:365-369 | the timestamp is four bytes, the lowest first; any other length counts as none |
| CmdResponse.PreparePayload | components/rmaker_cmd_resp/src/cmd_resp.c:200-276 | never fails for space and never writes past its allocation |
| CmdResponse.RoomSuffices | components/rmaker_cmd_resp/src/cmd_resp.c:153-178 | room for the encoded size satisfies the one-header guard and the encoding |
| CmdResponse.Commands.Register | components/rmaker_cmd_resp/src/cmd_resp.c:286-314 | refuses a duplicate or a full table, else takes the first free slot |
| CmdResponse.Commands.Deregister | components/rmaker_cmd_resp/src/cmd_resp.c:334-346 | frees exactly the slot of the command |
| CmdResponse.Commands.GetCmdInfo | components/rmaker_cmd_resp/src/cmd_resp.c:320-331 | the slot of the command, if registered |
| CmdResponse.Commands.ResponseHandler | components/rmaker_cmd_resp/src/cmd_resp.c:353-424 | the dispatcher against its function |
| TlvCodec.EncodeSize | components/rmaker_cmd_resp/src/cmd_resp.c:463-486 | the encoding has the computed size, 2 fewer exactly for a positive multiple of 255 |
| TlvCodec.ReadEncode | components/rmaker_cmd_resp/src/cmd_resp.c:76-150 | reading undoes encoding for every length when another type or nothing follows |
| TlvCodec.TlvData.AddTlv | components/rmaker_cmd_resp/src/cmd_resp.c:153-178 | refuses exactly when data and one header do not fit; else writes the encoding, or overruns the buffer exactly when the encoding is larger than the room |
| TlvCodec.GuardMisses | components/rmaker_cmd_resp/src/cmd_resp.c:153-178 | the guard lets an overrun through for some buffer if and only if the value has more than 255 bytes |
| TlvCodec.GetTlvLength | components/rmaker_cmd_resp/src/cmd_resp.c:76-109 | the length of the first value of a type |
| TlvCodec.GetValueFromTlv | components/rmaker_cmd_resp/src/cmd_resp.c:115-150 | the first value of a type, when the buffer can hold it |
| Calendar.DaysAgree | components/rmaker_aws_sign/src/esp_rmaker_aws_sign_creds.c:249-257 | the year-by-year count is the closed form for every year, month and day number |
| Calendar.TimegmMatchesCivil | components/rmaker_time_sync/src/time_sync.c:259-283 | rmaker_timegm() is days_from_civil() * 86400 plus the time of day |
| Calendar.RmakerTimegm | components/rmaker_time_sync/src/time_sync.c:259-283 | the two year loops against their specification; no value exactly for a month that is a negative multiple of 12 |
| Calendar.NormalizedMonth | components/rmaker_time_sync/src/time_sync.c:261-265 | month normalisation lands in the table if and only if the month is not a negative multiple of 12 |
| Calendar.NextDayIsOneDay | components/rmaker_aws_sign/src/esp_rmaker_aws_sign_creds.c:249-257 | the next calendar day is one more day by either algorithm |
| Calendar.DayNumbersCountDays | components/rmaker_aws_sign/src/esp_rmaker_aws_sign_creds.c:249-257 | day numbers count days over any number of months and years |
| Calendar.EpochIsZero | components/rmaker_aws_sign/src/esp_rmaker_aws_sign_creds.c:249-257 | 1970-01-01 is day 0 |

## Left out

- ESP-IDF, FreeRTOS, esp-mqtt, PSA, cJSON and esp_http_client internals: only the assumptions above.
- Allocation and crypto failures (except where the accumulator reports them), logging and zeroisation.
- C integer widths: ticks, sizes and dates are unbounded; the 32-bit generation counter wraps in `Generations.Next`, and the runs of the credential cache are those without a wrap.
- `sscanf`, `gmtime_r` and `strftime`: dates start from parsed fields and the formatted `amz_date` is an input.
- qsort in `build_query` is a sorting function; any order it may leave is proved to give the same list.
- MqttGlue: `strdup`, `free` and the pointer table itself; an entry is a value in an array slot.
- MqttProtocol: a callback's own subscribe or unsubscribe is an application thread's, and calling the administrative functions from inside a callback is not modelled.
- WorkQueueTask: start, deinit and the outer loop of the worker wait for another task, so they exist only as the interleaved steps of `WorkQueue`.
- MqttProtocol: the control flow between two regions is a thread's list of tasks, because other threads run in between; the regions themselves are also methods (`MqttGlue`).
- WorkQueueTask.Queue.HandleWorkQueue: work functions that themselves use the queue are covered by the interleaved steps of `WorkQueue`, not by the method.
- Creation failures of the worker task and of the retry timer.
- CredentialCache: the role alias stands for its 32-bit hash, so hash collisions are not modelled; fetching and parsing credentials is an input.
- CmdResponse.RoundTrip: request ids are 1 to 31 bytes without NUL, and payloads are concatenations of whole TLVs; malformed input is not modelled.
- ConnectionPool.WireHeadersExact: caller names distinct up to case; `ConnectionPool.WireHeadersLast` is the general form. Duplicates are joined for signing but overwritten on the wire, so a server sees only the last.
- Port installation and validation, region parsing, time-zone tables, console, system control, factory NVS, PPI string and the test applications are not part of this model.
