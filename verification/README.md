# PLANK: verified models of the transport, media and packaging cores

This project models the concurrent and arithmetic cores of PLANK, a remote-desktop system, and proves
what they promise over every input, every run and every interleaving. One module stands for one
component; `dfyconfig.toml` takes in every file.

- **TapRing**: the lock-free audio ring between the audio callback and the session queue. Every atomic
  access and sample store is one step; unbounded counters kept beside the state show that the wrapping
  32-bit indices never lie.
- **NativeQueues, SendLoop, ReliableLane, MediaLane**: the native endpoint's bounded queues with two
  overflow policies, the notify/park loop of the send lanes, and the reliable and the evicting lanes
  from caller to caller.
- **EndpointGates, EndpointCalls, EndpointEnd, EndpointReach, GateWakeups, StopRace, LaneFailure**: the
  worker's life cycle with its two one-shot gates against any number of concurrent calls: what is safe,
  how it ends, what it can reach, how a stop races with certificate validation, and how a lane that
  overflows takes the endpoint down.
- **VideoRecovery**: key-frame recovery composed with the evicting video queue.
- **ControlStream, LegacyMedia**: the legacy transport's record framing and its two media lanes, carried
  in QUIC DATAGRAM frames (section 4 of RFC 9221).
- **RateControl**: the wire budget, the congestion window and a controller that ignores loss, including
  persistent congestion (section 7.6 of RFC 9002).
- **PackageCollector, PathOrder, ChecksumText**: collecting packages under crashes and in any order.
- **EncodePipeline, FramePacing, ChannelCodes, PixelUnpack**: the two-slot encoder hand-off, frame
  pacing with catch-up, channel packing and the parallel pixel unpack.
- **ReliableCodecs, Wire**: the three packet formats of the reliable lane.

Concurrent components are step functions whose runs are sequences of states; an invariant is proved per
step and the theorems follow for every run. Code that updates objects is also given as classes or array
methods whose contracts equal those step functions, so both views agree. `Notify` is modelled by its
documented meaning: `notify_one` stores at most one permit, `notify_waiters` reaches every `Notified`
already created and stores nothing.

Where the code falls short of what one might expect, the model keeps the code and states the exact
condition:

- A stop can miss a worker that validates the peer's certificate, because that wait does not read the
  stop flag again and the stop's broadcast completes its approval arm as well (`StopCanMissValidation`,
  `StopCanMissWaitingWorker`). It can be missed exactly when its broadcast finds the worker before an
  approval that nobody has given, or about to wait for one whose wakeup another worker can take
  (`StopMayBeMissedIff`); without an approval it ends the worker exactly when the worker was waiting and
  its first step takes the stop arm (`StopEndsWaitIff`).
- Two start calls that both find the endpoint idle start two workers, and the one permit of an opened
  gate wakes only one of them: a wakeup can be lost exactly when there are two workers and the gate can
  be reached (`ApprovalStrandsIff`, `SessionStrandsIff`).
- A setup client with a pinned certificate waits for an approval that the approval call always refuses;
  every other configuration can queue packets on the lanes of its role (`LaneOpensIff`).
- The control decoder accepts payloads that the control encoder never writes (`ControlInverse`).
- The wire budget departs from its formula once 27 times the rate leaves 64 bits (`WireBudget`), which
  no rate the interfaces accept does (`SettableRatesAreExact`); pacing departs from
  its ideal exactly when the lead exceeds the target or the target leaves 64 bits (`ScheduleIsIdealIff`,
  `MachineIsIdealIff`).
- After a collection with `--move` has finished, repeating it is refused although nothing is wrong
  (`RerunCompletes`).

## Model

| member | source | states |
|---|---|---|
| `TapRing.NeverOverwrites` | apps/host/macos/media/audio-tap-buffer.h:31-61 | In every interleaving, across any number of index wraps, a published unconsumed block sits intact in its slot, the producer's next store goes elsewhere, and the block a consumer holds is the oldest one pushed. |
| `TapRing.PublishedCarriesRequest` | apps/host/macos/media/audio-tap-buffer.h:43-56 | In every run a published, unconsumed slot, and the block a consumer holds, carry length, time and every sample of the caller's own buffers, planar or interleaved. |
| `TapRing.RefinesFifo` | apps/host/macos/media/audio-tap-buffer.h:31-70 | Read off shared memory alone, the ring behaves as a FIFO of at most 16 blocks: publish appends exactly the pushed block, pop removes the front, discard drops a prefix, every other access changes nothing. |
| `TapRing.Conservation` | apps/host/macos/media/audio-tap-buffer.h:31-70 | pushed = popped + discarded + (write - read mod 2^32), the distance is at most 16, popped blocks are a strictly rising selection of the pushed ones, and every pushed sample is finite. |
| `TapRing.OverrunReports` | apps/host/macos/media/audio-tap-buffer.h:34-42 | Reported plus pending rejections equal all rejections exactly when no report came after 2^32 pending ones; if every pop follows a discard call, at most one block is popped between a rejection and its report. |
| `TapRing.RunKeeps` | apps/host/macos/media/audio-tap-buffer.h:26-70 | The index, storage, producer, consumer, ledger and report invariants hold after every step of every run. |
| `TapRing.StaleIndexIsSafe` | apps/host/macos/media/audio-tap-buffer.h:34-39 | A read index loaded earlier can only make the producer see the ring fuller than it is, so its room decision stays sound however stale the load. |
| `TapRing.StoresElsewhere` | apps/host/macos/media/audio-tap-buffer.h:43-49 | The slot of any store in progress differs from the slot of every published, unconsumed block. |
| `TapRing.HistoryIsFifo` | apps/host/macos/media/audio-tap-buffer.h:50-70 | Each step changes the published-but-unconsumed history by the queue operation its access stands for. |
| `TapRing.TapBuffer.constructor` | apps/host/macos/media/audio-tap-buffer.h:26-30 | Both indices, both flags and the rejection count start at zero; the blocks keep what they held. |
| `TapRing.TapBuffer.Push` | apps/host/macos/media/audio-tap-buffer.h:31-52 | Publishes exactly when not stopped, with valid arguments, a free slot and finite samples, and then the slot carries the caller's buffers sample by sample; rejection counter and failure flag each exactly under their condition; all of it as the producer's own steps. |
| `TapRing.TapBuffer.Peek` | apps/host/macos/media/audio-tap-buffer.h:53-57 | The read slot exactly when the indices differ, which shows the front of the queue; the consumer's own accesses. |
| `TapRing.TapBuffer.Pop` | apps/host/macos/media/audio-tap-buffer.h:58-61 | Advances the read index by one with wrap-around, and changes nothing else. |
| `TapRing.TapBuffer.DiscardOverrun` | apps/host/macos/media/audio-tap-buffer.h:63-70 | Returns and clears the rejection count and, when it was nonzero, moves the read index to the write index. |
| `NativeQueues.Replace` | protocol/plank-transport/src/native_ffi.rs:1157-1166 | The evicting policy: the newest value comes last, only the oldest ever leaves, the others keep their order. |
| `NativeQueues.NativeEndpoint.VideoSend` | protocol/plank-transport/src/native_ffi.rs:1473-1514 | Accepts exactly valid frames in Ready on a server; the new queue is the evicting enqueue; DROPPED and the drop counter exactly when the queue was full; errors change nothing. |
| `NativeQueues.NativeEndpoint.AudioSend` | protocol/plank-transport/src/native_ffi.rs:1604-1655 | The same for audio packets and their queue of 16; a packet that reports missing samples is an invalid argument. |
| `NativeQueues.NativeEndpoint.InputSend` | protocol/plank-transport/src/native_ffi.rs:1716-1745 | Accepts exactly sized input in Ready on a client; a full queue answers TIMEOUT, and only a full queue does, and is left unchanged; each error code under its own condition. |
| `NativeQueues.NativeEndpoint.DataSend` | protocol/plank-transport/src/native_ffi.rs:1797-1825 | Accepts data in SetupReady or Ready in either role; a full queue answers TIMEOUT, and only a full queue does, and is left unchanged; each error code under its own condition. |
| `NativeQueues.NativeEndpoint.DataReceive` | protocol/plank-transport/src/native_ffi.rs:1831-1870 | For every state and every pattern of wakeups, timeouts and arrivals: the first packet found is returned if it fits and stays at the front if not; without one the answer is the runtime error exactly when the state read again is Failed, and the timeout otherwise. |
| `NativeQueues.AwaitFinds` | protocol/plank-transport/src/native_ffi.rs:1216-1246 | The wait returns the front packet of the first moment there is one, up to the deadline, a stop or a terminal state; |
| `NativeQueues.AwaitFound` | protocol/plank-transport/src/native_ffi.rs:1216-1246 | and it returns a packet only then. |
| `NativeQueues.ArrivalIsFound` | protocol/plank-transport/src/native_ffi.rs:1216-1246 | On a live, unstopped endpoint a packet that arrives before the deadline is found, however many wakeups bring nothing before it. |
| `NativeQueues.FailedEndpointDrains` | protocol/plank-transport/src/native_ffi.rs:1216-1246 | On a failed endpoint that is no longer fed the n-th receive returns the n-th queued packet and every later one the runtime error, whatever the timeouts. |
| `SendLoop.NoLostWakeup` | protocol/plank-transport/src/native_ffi.rs:592-616 | In every run a parked lane has an empty queue once every push has been notified, and no stop outstanding once every stop has been broadcast, with one stored permit at most. |
| `SendLoop.StepKeepsAwake` | protocol/plank-transport/src/native_ffi.rs:285-297 | Each access of loop, caller or stopper keeps the condition that a loop about to sleep will look again. |
| `SendLoop.NothingSkipped` | protocol/plank-transport/src/native_ffi.rs:644-664 | Popping, sending and dying only move packets between queue, worker and channel: nothing is lost, duplicated or reordered. |
| `ReliableLane.DeliversPrefix` | protocol/plank-transport/src/native_ffi.rs:592-685 | End to end the delivered packets are a prefix of the accepted ones; while both tasks live nothing accepted is missing; the packet peeked is the packet popped. |
| `ReliableLane.QuiescentMeansDelivered` | protocol/plank-transport/src/native_ffi.rs:592-685 | Once the send loop sleeps with no notify outstanding and the far side is drained, everything accepted has been delivered. |
| `ReliableLane.EveryListGetsThrough` | protocol/plank-transport/src/native_ffi.rs:592-685 | Every list of packets can be accepted and delivered whole, through queues of any capacity but zero. |
| `ReliableLane.AcceptedExactlyWithRoom` | protocol/plank-transport/src/native_ffi.rs:1726-1741 | In every run a submission is accepted exactly while the send queue has room; a refused one changes nothing. |
| `ReliableLane.PeekedExactlyWhenItFits` | protocol/plank-transport/src/native_ffi.rs:1194-1214 | A receive call takes the front packet exactly when it fits the buffer; otherwise the packet stays. |
| `ReliableLane.RunKeepsFlow` | protocol/plank-transport/src/native_ffi.rs:592-685 | After every step the accepted packets are delivered, queued, lost with a dead task, in the channel, held or waiting, in that order. |
| `MediaLane.DeliversRisingSubsequence` | protocol/plank-transport/src/native_ffi.rs:1562-1584 | Even with evictions between peek and pop, the delivered items are a strictly rising selection of the received ones, audio holes included; the packets received rise in acceptance order; the pop never meets an empty queue and removes the delivered item exactly when no eviction fell between; received = delivered + drops + queued, and every accepted packet is accounted for. |
| `MediaLane.AnyNumberGetsThrough` | protocol/plank-transport/src/native_ffi.rs:285-558 | Any number of packets can go through whole, in order and without a drop. |
| `MediaLane.DropsExactlyWhenFull` | protocol/plank-transport/src/native_ffi.rs:452-480 | Each drop counter moves exactly when its queue is full at a submission or a receipt. |
| `MediaLane.ReceiveKeeps` | protocol/plank-transport/src/native_ffi.rs:452-480 | An eviction that lands under a reader which has already peeked keeps order and accounting. |
| `MediaLane.TakeKeeps` | protocol/plank-transport/src/native_ffi.rs:1576-1584 | The second lock's pop keeps order although it may remove a later item than the one delivered. |
| `MediaLane.RunKeeps` | protocol/plank-transport/src/native_ffi.rs:285-592 | Order and accounting of both halves hold after every step of every run, with lost packets and reported holes. |
| `EndpointGates.GatesHold` | protocol/plank-transport/src/native_ffi.rs:1404-1455 | In every run of concurrent calls and workers, approve and authorize succeed at most once, nothing is queued before certificate approval where the worker waits for it, and no media or input before session authorization in setup mode. |
| `EndpointGates.StoppedOnlyByStop` | protocol/plank-transport/src/native_ffi.rs:1077-1090 | The state is Stopped, or Stopping, only if a local stop call was made. |
| `EndpointEnd.EndedWorkersLeaveFailed` | protocol/plank-transport/src/native_ffi.rs:1077-1090 | However many start calls raced: once all workers have ended, none is about to be spawned and nobody called stop, the state is Failed. |
| `EndpointEnd.EndedWorkerReportsRuntime` | protocol/plank-transport/src/native_ffi.rs:1838-1869 | A receive call that begins and reads the state again after that returns queued packets first and then the runtime error, never a timeout. |
| `EndpointEnd.FinalStays` | protocol/plank-transport/src/native_ffi.rs:1295-1325 | Once no start call that saw Idle is left, this holds at every later point until a stop call. |
| `EndpointEnd.ReceivesAfterTheEnd` | protocol/plank-transport/src/native_ffi.rs:1838-1869 | Receive calls made one after another at any later points of the run return the packets left behind in order, and the runtime error from then on. |
| `EndpointEnd.WorkerEndsInFailed` | protocol/plank-transport/src/native_ffi.rs:1077-1090 | Without a stop call no worker ends but through a step that leaves Failed. |
| `LaneFailure.FullQueueFailsEndpoint` | protocol/plank-transport/src/native_ffi.rs:666-685 | Lane and worker together: a packet that finds the receive queue full drops nothing queued and ends the lane; the worker leaves at its next step, whatever its select reports, never serves again, and without a stop call its third step leaves the endpoint failed. |
| `LaneFailure.DeadLaneEndsWait` | protocol/plank-transport/src/native_ffi.rs:800-813 | A setup worker whose lane has ended does not stay in its wait: it returns, or goes through the gate that was opened. |
| `LaneFailure.RunKeeps` | protocol/plank-transport/src/native_ffi.rs:727-747 | In the composition both halves keep their own invariants. |
| `GateWakeups.GateWakeupsNotLost` | protocol/plank-transport/src/native_ffi.rs:749-891 | The only worker, asleep at an opened gate, has its wakeup stored, or the opener is still about to store it. |
| `GateWakeups.ApprovalStrandsIff` | protocol/plank-transport/src/native_ffi.rs:755-766 | With at most n workers some run strands a worker at the open certificate gate, asleep with no wakeup stored or pending, if and only if n is at least two and the configuration asks for approval. |
| `GateWakeups.SessionStrandsIff` | protocol/plank-transport/src/native_ffi.rs:800-813 | The same for the session gate: if and only if n is at least two and the endpoint is a setup endpoint other than the pinned client. |
| `EndpointReach.LaneOpensIff` | protocol/plank-transport/src/native_ffi.rs:833-853 | Some run queues a packet on a lane if and only if the endpoint's role sends on it and the endpoint is not a setup client with a pinned certificate. |
| `EndpointReach.SetupCarriesData` | protocol/plank-transport/src/native_ffi.rs:1809-1816 | A setup endpoint that can pass validation can queue data before it is authorized. |
| `StopRace.StopMayBeMissedIff` | protocol/plank-transport/src/native_ffi.rs:1920-1928 | At a stop call's own broadcast: a continuation without a further broadcast gets the worker stuck if and only if the worker has yet to pass an approval that nobody has given, or was given one after it looked and can lose the one wakeup to another worker. |
| `StopRace.StopEndsWaitIff` | protocol/plank-transport/src/native_ffi.rs:755-766 | While nobody approves, nobody broadcasts again and the peer stays, such a worker ends if and only if it was waiting at the broadcast and its first step after it takes the stop arm; any other first step leads to a wait that is stuck. |
| `StopRace.StuckIff` | protocol/plank-transport/src/native_ffi.rs:842-853 | A waiting worker is stuck exactly when no broadcast came after its wait was created and no permit is stored or about to be. |
| `StopRace.StopCanMissValidation` | protocol/plank-transport/src/native_ffi.rs:755-766 | A run in which the broadcast comes between the worker's look at the approval and its wait: the stop call sits in its join, the worker is stuck, and a new approval would be refused. |
| `StopRace.StopCanMissWaitingWorker` | protocol/plank-transport/src/native_ffi.rs:755-766 | A run in which the worker already waits when the stop begins, wakes through the approval arm and waits again, with the same end. |
| `EndpointGates.RunKeeps` | protocol/plank-transport/src/native_ffi.rs:727-1090 | State, worker and call positions stay justified by the flags, and the log order holds, after every step. |
| `EndpointCalls.NativeShared.ApprovePeerCertificate` | protocol/plank-transport/src/native_ffi.rs:1404-1431 | OK exactly in PeerValidation with a certificate and no earlier approval on a client that needs one; effect and answer are those of the step machine's own accesses run without interruption. |
| `EndpointCalls.NativeShared.AuthorizeSession` | protocol/plank-transport/src/native_ffi.rs:1436-1455 | OK exactly in SetupReady with no earlier authorization in setup mode; effect and answer are those of the step machine's own accesses run without interruption. |
| `EndpointCalls.NativeShared.RequestStop` | protocol/plank-transport/src/native_ffi.rs:1920-1928 | The code before the join leaves what the step machine's stop accesses leave when run without interruption up to the worker's handle. |
| `EndpointCalls.NativeShared.FinishStop` | protocol/plank-transport/src/native_ffi.rs:1935-1941 | After the join a failure is kept and anything else ends as Stopped, by the step machine's own accesses. |
| `EndpointCalls.NativeShared.FinishWorker` | protocol/plank-transport/src/native_ffi.rs:1077-1090 | The ending worker leaves Stopped exactly after a local stop, Failed otherwise, an orderly close included. |
| `VideoRecovery.MissingFrameIsOwedAKey` | apps/host/macos/media/video-recovery.h:12-24 | Against the 4-deep evicting queue: whenever no key is requested, every frame numbered since the last accepted key was dequeued or is queued, contiguously; any frame missing since then leaves the request standing. |
| `VideoRecovery.OwedIff` | apps/host/macos/media/video-recovery.h:18-24 | After every event of every run a key is owed exactly when one was requested, a frame was refused, a delta frame evicted another, or the debt stood and no key was taken. |
| `VideoRecovery.KeySettlesTheDebt` | apps/host/macos/media/native-video.m:123-143 | An accepted key frame is queued last and leaves no key owed. |
| `VideoRecovery.DeltaFollowsKey` | apps/host/macos/media/native-video.m:123-143 | The delta frame after it enters the queue, and owes a key only if the queue was full. |
| `VideoRecovery.OnlyOwedFramesAreSkipped` | apps/host/macos/media/native-video.m:119-125 | A frame is skipped, and only numbered, exactly when it is a delta frame while a key is owed. |
| `VideoRecovery.RunKeeps` | apps/host/macos/media/native-video.m:110-146 | The contiguity invariant survives every send branch, dequeue, request and completion, with at most one forced key in the encoder. |
| `VideoRecovery.RecoveryState.Begin` | apps/host/macos/media/video-recovery.h:12-16 | Forces a key exactly when one is requested and none is being encoded. |
| `VideoRecovery.RecoveryState.Sent` | apps/host/macos/media/video-recovery.h:18-24 | An accepted key clears the request; a refusal or an eviction raises it; anything else leaves it. |
| `ControlStream.DecodesWhatWasSent` | protocol/plank-transport/src/lib.rs:735-741 | Every list of sendable payloads decodes from its concatenated records to exactly that list, ending between records. |
| `ControlStream.FrameLayout` | protocol/plank-transport/src/lib.rs:735-741 | A record is DSCR, the length most significant byte first, and the payload. |
| `ControlStream.OpenedIff` | protocol/plank-transport/src/lib.rs:799-806 | A header is accepted exactly when it spells DSCR and a length of 2 to 65536. |
| `ControlStream.ControlSender.ControlSend` | protocol/plank-transport/src/lib.rs:1598-1636 | Each code under its condition; an accepted packet is framed and queued last, a full queue of 64 refuses and changes nothing but its counter. |
| `ControlStream.PrefixDecodesToPrefix` | protocol/plank-transport/src/lib.rs:779-837 | A stream cut at any byte yields a prefix of the list and no error. |
| `ControlStream.ReencodesToItself` | protocol/plank-transport/src/lib.rs:779-837 | Decoded records plus the unfinished part re-encode to the bytes read, for every byte string not rejected. |
| `ControlStream.FeedConcat` | protocol/plank-transport/src/lib.rs:779-837 | Decoding in pieces equals decoding at once. |
| `ControlStream.RecordsOnlyGrow` | protocol/plank-transport/src/lib.rs:779-837 | More bytes never retract a record, and a rejected stream stays rejected. |
| `ControlStream.RecvStream.ReadExact` | protocol/plank-transport/src/lib.rs:779-837 | Reads across chunk boundaries without losing or inventing bytes; fails only at the end of the stream. |
| `ControlStream.ReceiveControlRecords` | protocol/plank-transport/src/lib.rs:779-837 | For every chunking the queued records are those of the byte-by-byte decoder in order, cut only by a stop or by a full queue, each exactly where it strikes; otherwise the loop succeeds exactly when the stream ends between records. |
| `LegacyMedia.ParseFrame` | protocol/plank-transport/src/lib.rs:564-589 | A framed datagram parses back to its lane and bytes exactly when it has any. |
| `LegacyMedia.FrameParse` | protocol/plank-transport/src/lib.rs:576-589 | Every accepted datagram is the framing of what it parses to, under the sequence it carries. |
| `LegacyMedia.FrameLayout` | protocol/plank-transport/src/lib.rs:564-574 | A datagram is DSM1, the lane byte, zero, the header length 16, the sequence most significant byte first, and the packet. |
| `LegacyMedia.Conservation` | protocol/plank-transport/src/lib.rs:1313-1420 | In every run and lane: submitted = sent + transport drops + queue drops + queued + in flight, plus the one packet or count its caller has not yet booked. |
| `LegacyMedia.CountersCountAnswers` | protocol/plank-transport/src/lib.rs:610-643 | In every run the sent counter counts exactly the lane's successful sends and the transport drops exactly its failed ones. |
| `LegacyMedia.GapsAreEvictions` | protocol/plank-transport/src/lib.rs:1351-1383 | Numbers handed to the connection rise strictly; the numbers missing among them are exactly the evicted ones; the queue continues them without a gap. |
| `LegacyMedia.AudioFirst` | protocol/plank-transport/src/lib.rs:591-602 | Whenever a video packet is dequeued, every audio packet queued before it has been dequeued or evicted. |
| `LegacyMedia.DatagramsParseBack` | protocol/plank-transport/src/lib.rs:604-620 | Every datagram handed to the connection fits the negotiated size, carries its number modulo 2^64, and parses back to its lane and submitted bytes. |
| `LegacyMedia.RunKeeps` | protocol/plank-transport/src/lib.rs:604-653 | Order, content and ledger invariants of both lanes hold after every step. |
| `LegacyMedia.SendLane.SubmitMediaPacket` | protocol/plank-transport/src/lib.rs:1313-1420 | Each code under its condition with nothing changed by a refusal; otherwise a datagram with the old sequence number and the caller's bytes is queued last, only the oldest leaving a full lane of 512 or 8, and sequence, drops and high-water mark follow; all of it as the model's three steps. |
| `LegacyMedia.PopNextMediaPacket` | protocol/plank-transport/src/lib.rs:591-602 | Takes the oldest audio packet, a video packet only when there is no audio, and nothing else, as the model's dequeue step does. |
| `RateControl.WindowIsExact` | protocol/plank-transport/src/rate_control.rs:36-46 | No saturation occurs for any rate and round-trip time, and the rate term lies in [1.5 BDP, 1.5 BDP + 2). |
| `RateControl.AckDecidesWindow` | protocol/plank-transport/src/rate_control.rs:148-165 | After any run the window that follows an ack lies within two bytes of three halves of the bandwidth-delay product at that ack's round-trip time, held to 100 ms, or is 64 MTU; the bandwidth estimate is the rounded-down delivery rate. |
| `RateControl.SameAckSameWindow` | protocol/plank-transport/src/rate_control.rs:141-144 | The same round-trip time, peak rate and MTU give the same window, whatever came before. |
| `RateControl.WireBudget` | protocol/plank-transport/src/rate_control.rs:29-34 | The wire budget is the exact rounded-up factor plus reserve if and only if 27 times the rate is at most 2^64 + 4. |
| `RateControl.SettableRatesAreExact` | protocol/plank-transport/src/lib.rs:488-490 | Every rate given in 32-bit kilobits per second stays within that bound. |
| `RateControl.InitialWindowIsLargest` | protocol/plank-transport/src/rate_control.rs:129-139 | No round-trip time gives a larger window than the initial 200 ms, clamped to 100 ms. |
| `RateControl.LossIsIgnored` | protocol/plank-transport/src/rate_control.rs:167-180 | Deleting all congestion events from any run, persistent ones included, changes nothing but the two counters; every window stays the same. |
| `RateControl.WindowFloor` | protocol/plank-transport/src/rate_control.rs:45-45 | After any run of events the window is at least 64 times the current MTU. |
| `RateControl.NeverAboveInitial` | protocol/plank-transport/src/rate_control.rs:128-185 | At a fixed rate and MTU no later window exceeds the initial one. |
| `RateControl.RatePolicy.SetRequestedVideo` | protocol/plank-transport/src/rate_control.rs:106-116 | The rate is the request or 10 Mbit/s, the peak at least the rate, the pacer gets the peak's wire budget, the loss counters stay. |
| `RateControl.RateController.OnAck` | protocol/plank-transport/src/rate_control.rs:148-165 | Takes over the sample, sets the window it calls for and the delivery rate, and follows the event semantics of the run theorems. |
| `RateControl.RateController.OnCongestionEvent` | protocol/plank-transport/src/rate_control.rs:167-180 | Only the matching counter moves. |
| `RateControl.RateController.OnMtuUpdate` | protocol/plank-transport/src/rate_control.rs:182-185 | The window called for by the last round-trip time and the new MTU. |
| `PackageCollector.CrashSafe` | scripts/package/collect-package.py:95-116 | Cut short after any write, every manifest entry still has its package present with the recorded digest, and the manifest is sorted without duplicates. |
| `PackageCollector.HistoryStaysSound` | scripts/package/collect-package.py:73-120 | The same after any history of collections, each refused, finished or cut short anywhere. |
| `PackageCollector.RerunCompletes` | scripts/package/collect-package.py:73-120 | From every crash point the same collection run again ends in the tree of the uninterrupted one; it is refused exactly when only the removed source is missing. |
| `PackageCollector.OrderDoesNotMatter` | scripts/package/collect-package.py:78-115 | Non-conflicting collections in any order, from outside the version directory or from within it, give sound trees with the same sorted, duplicate-free manifest and the same SHA256SUMS, made from it. |
| `PackageCollector.SumsReadBack` | scripts/package/collect-package.py:115-115 | A reader who splits SHA256SUMS into lines and each line at its two spaces gets the manifest's digests and paths, in manifest order. |
| `PackageCollector.SumsAreTrue` | scripts/package/collect-package.py:115-115 | In a sound tree with up-to-date sums every line names a package that is there, with the digest it has. |
| `PackageCollector.SidecarReadsBack` | scripts/package/collect-package.py:113-113 | The sidecar reads back as the digest and the file's own name. |
| `ChecksumText.ReadsOneLine` | scripts/package/collect-package.py:113-115 | A written line is read as its digest and name, whatever follows. |
| `PackageCollector.NoneRefused` | scripts/package/collect-package.py:78-97 | Non-conflicting collections all succeed, in whatever order they run. |
| `PackageCollector.AcceptedIff` | scripts/package/collect-package.py:50-104 | A collection of an existing file is accepted exactly when its kind fits the platform, its digest is the expected one, the manifest is this version's, no entry for its path says otherwise, and neither a different package nor a wrong copy is met; each refusal has its own reason. |
| `PackageCollector.MissingIff` | scripts/package/collect-package.py:47-47 | It is refused as missing exactly when the named file is not there. |
| `PackageCollector.SuitedIff` | scripts/package/collect-package.py:50-53 | Linux collects .deb and .rpm files, macOS .pkg and .dmg files, each with a nonempty stem. |
| `PackageCollector.CollectionLeavesFiles` | scripts/package/collect-package.py:98-113 | Afterwards the package is in place with the source's digest, an existing one untouched, and its sidecar holds digest and name. |
| `PackageCollector.CollectionLeavesHeader` | scripts/package/collect-package.py:76-80 | The manifest has schema, version and branch of the request, and the channel the branch stands for. |
| `PackageCollector.CollectionLeavesEntries` | scripts/package/collect-package.py:88-112 | It holds the old entries and one that says of the file, field by field, what the request said, in strict order. |
| `PackageCollector.CollectionRemoves` | scripts/package/collect-package.py:116-120 | Nothing goes away but a moved source that is not the collected file itself. |
| `PackageCollector.RemoveKeeps` | scripts/package/collect-package.py:116-120 | Removing a supplied file never takes a recorded package away. |
| `PackageCollector.ListedAdds` | scripts/package/collect-package.py:110-112 | Append-unless-present and sort keep the list strictly sorted and add exactly the record. |
| `PackageCollector.Directory.Collect` | scripts/package/collect-package.py:73-120 | The script's steps refuse without a trace or perform exactly the planned writes in order, and end in the planned tree. |
| `PackageCollector.Directory.Publish` | scripts/package/collect-package.py:110-115 | Sidecar, manifest and sums are written in that order with the listed packages. |
| `PathOrder.SortIsStrict` | scripts/package/collect-package.py:112-112 | Sorting records with distinct paths gives strictly rising paths. |
| `PathOrder.SortPermutes` | scripts/package/collect-package.py:112-112 | The sort is a permutation. |
| `PathOrder.LessIff` | scripts/package/collect-package.py:112-112 | Paths are compared character by character: the smaller is the one that ends or has the smaller character first. |
| `PathOrder.StrictIsUnique` | scripts/package/collect-package.py:112-115 | A strictly sorted list is determined by its elements alone. |
| `EncodePipeline.DrainsEveryFrameInOrder` | probes/video/plank-probe-video-pipeline.cpp:1092-1149 | In every interleaving a slot is filled only while neither pending nor with the worker, the drained frames are 1, 2, 3, ... in order, and an error-free run drains all of them exactly once. |
| `EncodePipeline.NeverDeadlocks` | probes/video/plank-probe-video-pipeline.cpp:1092-1149 | Until the submit thread has finished, one of the two threads can move. |
| `EncodePipeline.CanFinish` | probes/video/plank-probe-video-pipeline.cpp:1265-1271 | For every number of frames some run finishes without an error with all frames drained. |
| `EncodePipeline.FreeSlotIsUnshared` | probes/video/plank-probe-video-pipeline.cpp:1139-1149 | A next slot that is not marked in use is neither pending nor held by the worker. |
| `EncodePipeline.RunKeeps` | probes/video/plank-probe-video-pipeline.cpp:1247-1271 | Slot marks, pending order and surface contents stay consistent after every step up to a worker error; free slots at a fill and the order of the drained frames survive it. |
| `FramePacing.PacedRun` | probes/video/plank-probe-client-kms.cpp:374-390 | For arbitrary clock readings: each wake lies after now and no later than the scheduled wake or one refresh past now, target minus wake is the lead, successive targets are at least one refresh apart. |
| `FramePacing.TargetsStayOnGrid` | probes/video/plank-probe-client-kms.cpp:374-390 | All targets stay congruent to the first epoch modulo the refresh. |
| `FramePacing.CatchesUp` | probes/video/plank-probe-client-kms.cpp:385-390 | One frame's promises, for every epoch, index, lead and clock reading. |
| `FramePacing.ScheduleIsIdealIff` | probes/video/plank-probe-client-kms.cpp:377-390 | The unsigned 64-bit arithmetic computes the ideal frame, grid and spacing included, if and only if the lead does not reach below time zero and the caught-up target fits in 64 bits. |
| `FramePacing.KeepsPromiseIff` | probes/video/plank-probe-client-kms.cpp:378-390 | From the target it planned, the 64-bit code wakes a frame after now and one lead ahead exactly when the lead does not exceed that target and catching up does not wrap. |
| `FramePacing.MachineIsIdealIff` | probes/video/plank-probe-client-kms.cpp:374-390 | A whole run of the 64-bit code equals the ideal run if and only if the lead does not exceed the first epoch and the last target fits in 64 bits. |
| `FramePacing.ShiftByDivision` | probes/video/plank-probe-client-kms.cpp:386-386 | The quotient skips exactly the periods that adding one refresh at a time would. |
| `FramePacing.CatchUp` | probes/video/plank-probe-client-pipeline.cpp:716-718 | The skipped time, in 64 bits. |
| `FramePacing.PaceByWake` | probes/video/plank-probe-client-pipeline.cpp:711-720 | The second form, which moves the wake and adds the lead back, computes the same frame as the first. |
| `FramePacing.Pace` | probes/video/plank-probe-client-kms.cpp:378-390 | The first form's epoch, target and wake. |
| `FramePacing.KmsState.OnDecoderInput` | probes/video/plank-probe-client-kms.cpp:343-414 | Frame one is unpaced, frame two uses the first epoch with a lead of at least 12 ms, later frames the steady epoch; the stamp is queued with its target unless the buffer, an earlier failure or the sleep drops the frame. |
| `FramePacing.PipelineState.OnDecoderInput` | probes/video/plank-probe-client-pipeline.cpp:702-746 | Every frame is paced unless the lead is zero; the stamp is queued and the depth mark kept unless the sleep fails. |
| `ReliableCodecs.SetupRoundTrip` | protocol/plank-transport/include/plank_transport_setup.h:87-151 | Decoding an encoded valid setup packet returns it. |
| `ReliableCodecs.SetupReencodes` | protocol/plank-transport/include/plank_transport_setup.h:116-151 | Every accepted setup string is the encoding of a valid packet. |
| `ReliableCodecs.SetupDecodesIff` | protocol/plank-transport/include/plank_transport_setup.h:116-151 | A string decodes to a setup packet exactly when its bytes spell it: PLS1, version 1, type, flags, status, request, length and payload at their places, nonzero type and request, known flags. |
| `ReliableCodecs.EventInverse` | protocol/plank-transport/include/plank_transport_event.h:59-95 | Event encode and decode are inverse in both directions. |
| `ReliableCodecs.EventDecodesIff` | protocol/plank-transport/include/plank_transport_event.h:78-95 | A string decodes to an event exactly when it is PLE1, type, length and payload. |
| `ReliableCodecs.ControlRoundTrip` | protocol/plank-transport/include/plank_transport_control.h:64-114 | Zero to three control words round-trip. |
| `ReliableCodecs.ControlInverse` | protocol/plank-transport/include/plank_transport_control.h:94-114 | The decoder accepts more than the encoder writes: an accepted string is an encoding exactly when its payload is zero to three whole words. |
| `ReliableCodecs.ControlDecodesIff` | protocol/plank-transport/include/plank_transport_control.h:94-114 | A string decodes to a control packet exactly when it is PLD1, type, length and payload. |
| `ReliableCodecs.WordsLayout` | protocol/plank-transport/include/plank_transport_control.h:64-92 | Control words stand one after another, each most significant byte first. |
| `ReliableCodecs.OneProtocolPerPacket` | protocol/plank-transport/include/plank_transport_setup.h:116-126 | No byte string decodes under two of the three protocols. |
| `ReliableCodecs.SetupEncode` | protocol/plank-transport/include/plank_transport_setup.h:87-114 | Writes exactly the packet's bytes when it is valid and fits, touches nothing otherwise. |
| `ReliableCodecs.ControlEncode` | protocol/plank-transport/include/plank_transport_control.h:64-92 | Writes exactly the header and words when they are at most three and fit. |
| `ReliableCodecs.EventEncode` | protocol/plank-transport/include/plank_transport_event.h:59-76 | Writes exactly the header and payload when they fit, leaving the rest of the buffer alone. |
| `Wire.GetPutU32` | protocol/plank-transport/include/plank_transport_setup.h:68-85 | Reading back a written big-endian word gives it, anywhere in a packet. |
| `Wire.PutGetU32` | protocol/plank-transport/include/plank_transport_setup.h:68-85 | Writing back a read word reproduces its bytes. |
| `Wire.BigEndian32` | protocol/plank-transport/include/plank_transport_setup.h:68-74 | Words are written most significant byte first. |
| `ChannelCodes.UnpackOfPacked` | probes/x11/plank-probe-x11-native10.cpp:63-69 | For any number of channels with contiguous, pairwise disjoint masks, unpacking an OR of packed codes returns each code reduced to its channel's width: the code itself exactly when it fits. |
| `ChannelCodes.BitOfUnpacked` | probes/x11/plank-probe-x11-native10.cpp:67-69 | An unpacked code is, bit by bit, the pixel under the mask, moved down by the shift, in 32 bits. |
| `ChannelCodes.PackPixel` | probes/x11/plank-probe-x11-native10.cpp:417-424 | The probes' packing loop yields a pixel from which each channel reads the code back exactly when it fits. |
| `ChannelCodes.MakeChannel` | probes/x11/plank-probe-x11-native10.cpp:59-61 | For a contiguous mask, shift and bit count are the position and width of its run. |
| `ChannelCodes.TrailingZeroes` | probes/x11/plank-probe-x11-native10.cpp:38-48 | The loop finds the lowest set bit. |
| `ChannelCodes.BitCount` | probes/x11/plank-probe-x11-native10.cpp:50-57 | The loop counts the set bits. |
| `PixelUnpack.UnpackIdentityRows` | probes/x11/plank-probe-x11-native10.cpp:267-284 | The nested loops fill exactly the band's stretch of the three planes and touch nothing else. |
| `PixelUnpack.UnpackIdentitySingle` | probes/x11/plank-probe-x11-native10.cpp:286-292 | The whole frame is unpacked. |
| `PixelUnpack.PlanesShowPixels` | probes/x11/plank-probe-x11-native10.cpp:272-281 | Each plane holds at y * width + x what its channel reads from the four source bytes at y * pitch + 4 * x, lowest byte first: red, green and blue from the first, second and third channel. |
| `PixelUnpack.ParallelEqualsSingle` | probes/x11/plank-probe-x11-native10.cpp:294-312 | For every frame size, thread count and interleaving of accesses, each thread unpacking its own pixels from the source, the finished planes are those of the single-threaded unpack. |
| `PixelUnpack.StoreIsPut` | probes/x11/plank-probe-x11-native10.cpp:274-282 | What a thread unpacks from its row and column is the sample the plane wants at that offset. |
| `PixelUnpack.NoRace` | probes/x11/plank-probe-x11-native10.cpp:294-312 | No two threads ever work on the same pixel. |
| `PixelUnpack.RowHasOneBand` | probes/x11/plank-probe-x11-native10.cpp:302-306 | Every row lies in one thread's band and in no other. |
| `PixelUnpack.EachStepCounts` | probes/x11/plank-probe-x11-native10.cpp:294-312 | Each access of an unfinished thread takes one from those still to come, so a run that keeps choosing unfinished threads ends. |

## Left out

- QUIC, KyProto, RaptorQ, TLS and Tokio internals: reliable lanes are order-preserving channels, media lanes channels that may lose packets but keep order.
- Weak memory: all atomic accesses are sequentially consistent.
- The gain scaling that the audio session applies in place to the ring block it holds: the ring's own functions do not do it.
- C pointers and null checks, string parsing, panics, sockets, certificate loading and statistics sampling.
- The `macos-fast-send` and `sender-timing` build variants.
- Input receive, video receive and audio receive as separate C calls: `DataReceive` stands for the wait-and-pop they share, and the lane models for their locks.
- The legacy media receive queues and the legacy receive calls: they repeat the evicting policy and the wait proved for the native endpoint.
- The notification of all waiters is one step, although the code notifies each `Notify` in turn; a failing endpoint writes its state and notifies in one step.
- Several workers on one endpoint, which racing start calls can make, are part of the life-cycle models; the lane models have one worker per endpoint.
- The two futures of a gate's wait are created in one step, after the look at the gate.
- Condition variables: a wait is a guard that is checked again on every wakeup.
- The lateness samples that the two pacing functions record, and buffers that are absent.
- Encoder queue depth zero, in which the probe drains each frame itself without a second thread.
- The KMS probe's steady epoch is given from the start, although another thread sets it before frame three, after the first frames were presented.
- Package names, versions and branches are taken as already checked, apart from the extension rule; JSON text, file modes and temporary files are not represented, and nobody but a collection changes the files.
- A supplied package deeper inside the version directory than a platform folder counts as lying outside it.
- The pixel source is read low byte first, as on the machines the probe runs on.
- EDID generation, account policy, permission checks and the 8-to-10-bit expansion: easy or finite.
- Hardware, display and authentication probes, the macOS host classes known only by header, and the build and install scripts.
- PackageCollector.Directory.Collect: does not model a source that changes while it is collected, because no other process is modelled.
