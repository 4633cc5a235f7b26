# A verified model of roboat

roboat links robot-side agents, clients and daemons. This project models the parts of it whose
correctness is a matter of protocol, scheduling and bookkeeping, and proves what they guarantee:

- **Frames and packets** (`Bytes.dfy`, `Protocol.dfy`): the length-prefixed wire format of
  `protocol.rs` (sections 3.2 to 3.4 of `spec/tunnel-protocol.md`), with the reader and writer as objects.
- **Multiplexed connections** (the `Mux*.dfy` files): two daemons, each with open/send/close calls, two class
  queues, a priority write task, a byte transport and a read task that keeps the stream table locked while
  it waits for room (`mux.rs`, section 8 of the protocol specification), as a system of atomic steps. A run
  is any list of moves of either end; a move that is not enabled changes nothing. The system refines one
  plain queue per stream and direction (`MuxRefinement.dfy`), never gets stuck (`MuxProgress.dfy`), and does
  with every frame and call what `MuxEffects.dfy` says. `MuxConn.Connection` is one end as an object; calls
  on two of them make exactly the runs.
- **Fallback gate** (`FallbackGate.dfy`, `GateHistory.dfy`, `GateTiming.dfy`): exponential backoff with
  pruning in front of the legacy TCP trigger, with triggers of many robots running concurrently.
- **Relay hub** (`RelayQueue.dfy`, `RelayHub.dfy`, `RelaySessions.dfy`, `PendingCalls.dfy`,
  `PeerSlots.dfy`, `AttachSessions.dfy`, `UserRelay.dfy`): bounded drop-oldest queues under concurrent
  producers, session preemption, request/response correlation, slot tenure with three admission rules,
  session promotion and the client write loop.
- **Liveness and session evidence** (`ConnState.dfy`, `Evidence.dfy`): summaries and tables kept
  incrementally, compared with the whole history.
- **TURN URLs** (`Text.dfy`, `TurnUrls.dfy`) and the **resolver cache** (`ResolverCache.dfy`).

## How to read it

Concurrent code is modelled as a step function over a state value, one step per lock section, channel
operation or atomic update; theorems quantify over every list of steps. Fields described as history in a
state's comment are read by steps only to compute other history (a channel's `since` is history, computed
from `arrived`), never to decide anything. Sequential objects are classes whose methods
are tied to a function of the old state, and the theorems are about those functions. Inputs from outside
(clock readings, registry replies, write outcomes, which process runs next) are parameters or steps.

Times are integers; the zero time is `None`. Case-insensitive comparison is a parameter `fold`, so the
results hold for any folding. Trimming uses the Unicode White_Space set of both standard libraries.

## Where the code does less than one would hope

- A control item put between the two polls of one `select!`, followed by the drop of the last handle, is
  never written. `MuxWriter.ShutdownLeaves` says exactly which items are left behind;
  `MuxWriter.ControlItemLost` is a run. Also, a task that ends on
  its control arm leaves queued bulk items (`MuxWriter.BulkItemLost`).
- The first stream of a connection can lose its first chunks, because its open message is left to a
  spawned task, and so can a reply that arrives before `open_stream` has inserted its own entry.
  `MuxTheorems.StreamIsFifo` says how much (`since`) and for which streams, `MuxDelivery.SinceIsDropped`
  that it is exactly what the read task had handled before the entry was inserted;
  `MuxWitness.FirstChunkCanBeLost` and `MuxWitness.EarlyReplyCanBeLost` are runs. Likewise a close that is
  handled before the spawned task has made the entry is lost (`MuxWitness.EarlyCloseCanBeLost`); one that is
  handled afterwards is final (`MuxEffects.CloseIsFinal`).
- One stream that its application does not drain stops the whole connection's reads, opens and closes
  (`MuxDelivery.OneFullStreamStopsAll`), exactly until it is drained or dropped
  (`MuxDelivery.DrainingReleases`); `MuxWitness.UndrainedStreamStalls` is a run that gets there.
- Pruning the fallback gate does turn refusals into admissions, because a forgotten key starts counting
  again (`GateHistory.PruningRestartsCount`); `GateHistory.VerdictsDifferIff` and
  `GateHistory.CountsDifferIff` say exactly when. It never loses a block that is in force.
- Two triggers of one robot that overlap are both admitted (`GateTiming.OverlapUnpaced`), and so is one that
  asks 25 minutes after it read the clock, right after a failure (`GateTiming.LateAskUnpaced`).
- A frame survives the wire exactly when its payload is at most 64 MiB; the writer does not check
  (`Protocol.FrameRoundTrip`).
- A relay request reads the active session and sets it in different lock sections. Overtaken requests can
  make a session active twice, whether they promote (`AttachSessions.OvertakenPromotesTwice`) or adopt
  (`AttachSessions.OvertakenAdoptionPromotesTwice`). Sessions only move on to later ones if and only if
  every request that sets one would still be entitled to when it does (`AttachSessions.AscendIffJustified`,
  for every start), and a repetition always has such a request in between (`AttachSessions.RepeatHasCause`).
- A relay that registers after its session was replaced and the preemption has run is never told
  (`RelaySessions.LateRelaySurvives`), and a delayed preemption closes a relay of the active session
  (`RelaySessions.DelayedPreemptionCloses`). `RelaySessions.NoticedIff` and `RelaySessions.UnnoticedIffLate`
  say exactly which relays are told, by what happened when they registered and since.
- Invalidating a resolver entry makes the next attempt ask again if and only if no fetch for the agent was
  under way (`ResolverCache.InvalidationRefetchesIff`, `ResolverCache.OldReplyAfterInvalidation`).
- Sessions are kept for 30 minutes counted from the whole second of the last upsert, which can be up to a
  second short (`Evidence.TableExact`, `Evidence.FractionDropsEarly`).

## Model

| member | source | states |
|---|---|---|
| Protocol.TypeOf | rust/crates/roboat-core/src/protocol.rs:181-207 | a byte is accepted as a frame type exactly when it is the byte assigned to that type |
| Protocol.TypeTable | rust/crates/roboat-core/src/protocol.rs:181-207 | which byte is which type |
| Protocol.FrameLayout | rust/crates/roboat-core/src/protocol.rs:209-220 | one type byte, four length bytes with the most significant first, then the payload |
| Protocol.FrameRoundTrip | rust/crates/roboat-core/src/protocol.rs:209-237 | decoding an encoded frame followed by anything gives back the frame and the rest if and only if the payload is at most 64 MiB |
| Protocol.FrameReencodes | rust/crates/roboat-core/src/protocol.rs:222-237 | every accepted byte string is the encoding of the frame read from it, followed by the rest |
| Protocol.FramePrefix | rust/crates/roboat-core/src/protocol.rs:222-237 | a proper prefix of a frame within the limit is never refused and never accepted |
| Protocol.OversizeRefused | rust/crates/roboat-core/src/protocol.rs:230-232 | a frame over the limit is refused as soon as its five header bytes are in |
| Protocol.PrefixDecodes | rust/crates/roboat-core/src/protocol.rs:209-237 | decoding any byte prefix of a run of frames yields exactly a prefix of the frames, an incomplete next frame and no error |
| Protocol.AllReencodes | rust/crates/roboat-core/src/protocol.rs:222-237 | for any bytes, the frames read re-encode to exactly the bytes consumed |
| Protocol.PacketRoundTrip | rust/crates/roboat-core/src/protocol.rs:44-97 | a tunnel packet survives if and only if topic and type are at most 4096 bytes, the payload at most 64 MiB and the timestamp 64 bits |
| Protocol.PacketLayout | rust/crates/roboat-core/src/protocol.rs:45-63 | the order and the widths of a packet's fields |
| Protocol.PacketReencodes | rust/crates/roboat-core/src/protocol.rs:65-96 | every accepted packet is within its limits and re-encodes to the bytes it was read from |
| Protocol.PacketPrefix | rust/crates/roboat-core/src/protocol.rs:65-96 | a proper prefix of a packet within the limits only asks for more bytes |
| Protocol.Reader.ReadFrame | rust/crates/roboat-core/src/protocol.rs:222-237 | reading step by step from a stream gives the decoder's frame and position, and tells end of stream from a refused frame |
| Protocol.Reader.ReadPacket | rust/crates/roboat-core/src/protocol.rs:65-96 | the same for packets: the decoder's packet and position, refusal at the first field over its limit |
| Protocol.Reader.ReadAllFrames | rust/crates/roboat-daemon/src/mux.rs:269-301 | the read loop sees exactly the frames of the byte stream and why it ended |
| Protocol.Writer.WriteFrame | rust/crates/roboat-core/src/protocol.rs:209-220 | the three writes append exactly the encoding of the frame |
| Protocol.Writer.WritePacket | rust/crates/roboat-core/src/protocol.rs:45-63 | the writes append exactly the encoding of the packet |
| MuxWriter.MsgRoundTrip | rust/crates/roboat-daemon/src/ipc.rs:39-55 | open, data and close items are read back with the same stream id, class and data, so both ends use the same queue |
| MuxWriter.MsgLayout | rust/crates/roboat-daemon/src/mux.rs:145-200 | the frame type, the four id bytes, the class byte and the data of each kind of item |
| MuxWriter.SkippedFrames | rust/crates/roboat-daemon/src/mux.rs:269-333 | frames of other types and frames too short are skipped, and an unassigned class byte reads as control |
| MuxWriter.PollDoes | rust/crates/roboat-daemon/src/mux.rs:218-258 | what one poll takes, and when the task goes on or ends, by where it stands |
| MuxWriter.TaskTakes | rust/crates/roboat-daemon/src/mux.rs:218-258 | an idle task with something queued takes an item within three polls |
| MuxWriter.WireInterleaves | rust/crates/roboat-daemon/src/mux.rs:202-259 | in every run what is taken for the wire interleaves a prefix of each queue's accepted items, in order, and nothing else |
| MuxWriter.AtMostOneBulkAhead | rust/crates/roboat-daemon/src/mux.rs:213-259 | from the moment a control item is queued until it is taken, at most one bulk frame reaches the wire, the one in flight included |
| MuxWriter.ShutdownLeaves | rust/crates/roboat-daemon/src/mux.rs:234-257 | when the task ends without a write error, whatever it has taken is written in full and the unwritten control items are exactly those accepted after its last look at the control queue |
| MuxWriter.ControlItemLost | rust/crates/roboat-daemon/src/mux.rs:235-256 | a run in which such an item is lost |
| MuxWriter.BulkItemLost | rust/crates/roboat-daemon/src/mux.rs:237-245 | a run in which the task ends on its control arm and leaves a bulk item |
| MuxSchedule.WriterRuns | rust/crates/roboat-daemon/src/mux.rs:145-259 | in every run of the whole system the write side of either end is a run of the write task |
| MuxSchedule.SystemInterleaves | rust/crates/roboat-daemon/src/mux.rs:145-259 | so in every run of the system what is taken for the wire interleaves a prefix of each queue's accepted items, in order |
| MuxSchedule.SystemAtMostOneBulkAhead | rust/crates/roboat-daemon/src/mux.rs:145-259 | and from the moment a control item is queued until it is taken, whatever both ends do, at most one bulk frame of that end reaches the wire |
| MuxSchedule.SystemShutdownLeaves | rust/crates/roboat-daemon/src/mux.rs:145-259 | and a write task that is over leaves exactly the control items accepted after its last look |
| MuxSystem.IdsCollide | rust/crates/roboat-daemon/src/mux.rs:149 | two ids handed out by one end are equal exactly when their opens are a multiple of 2^31 apart |
| MuxSystem.FirstIds | rust/crates/roboat-daemon/src/mux.rs:91-117 | the initiator hands out 1, 3, 5 and so on, the responder 2, 4, 6, up to the wrap-around |
| MuxSystem.IndexOfNth | rust/crates/roboat-daemon/src/mux.rs:149 | within 2^31 opens an id determines the open that got it |
| MuxSystem.EndsDisjoint | rust/crates/roboat-daemon/src/mux.rs:91-117 | initiator and responder never hand out the same id, wrapped around or not |
| MuxConn.Connection.ReserveId | rust/crates/roboat-daemon/src/mux.rs:149 | the wrapping counter hands out the k-th id on the k-th open |
| MuxConn.Connection.OpenStream | rust/crates/roboat-daemon/src/mux.rs:145-171 | the call makes the reserve, queue and insert steps in that order, fails only when the write task is gone, and is still waiting for its insert exactly while the read task holds the table |
| MuxConn.Connection.Enqueue | rust/crates/roboat-daemon/src/mux.rs:202-208 | control and meta items go to the back of the priority queue, bulk items to the back of the other, errors only when the write task is gone |
| MuxConn.Connection.SendData | rust/crates/roboat-daemon/src/mux.rs:173-186 | the call makes the send step, for any id and chunk; on a stream in use it fails only when the write task is gone |
| MuxConn.Connection.CloseStream | rust/crates/roboat-daemon/src/mux.rs:188-200 | the call queues the close and then removes the entry, or is still waiting to while the read task holds the table |
| MuxConn.Connection.ReceiveChunk | rust/crates/roboat-daemon/src/mux.rs:162-170 | the application gets the oldest chunk it has not had, if any |
| MuxConn.Connection.InsertFirstEntry | rust/crates/roboat-daemon/src/mux.rs:110-117 | the spawned task's insert is one step of the system, and waits while the table is held |
| MuxConn.Connection.PollWriteTask | rust/crates/roboat-daemon/src/mux.rs:218-258 | one poll of the task is one step of the scheduler |
| MuxConn.Connection.DispatchFrame | rust/crates/roboat-daemon/src/mux.rs:269-301 | the read task's reaction to what it has read is one step of the system, including holding the table while a full channel makes it wait |
| MuxConn.Perform | rust/crates/roboat-daemon/src/mux.rs:145-303 | every step of the system is a call on one of two connection objects |
| MuxConn.Drive | rust/crates/roboat-daemon/src/mux.rs:91-333 | calls on two objects make exactly the run, so everything proved of runs holds of the objects |
| MuxInvariant.FrameInHand | rust/crates/roboat-daemon/src/mux.rs:269-301 | a complete frame in the read buffer is the oldest message under way from the peer, and removing both keeps the transport intact |
| MuxSteps.FirstIsOpen | rust/crates/roboat-daemon/src/manager.rs:243-258 | the first message an accepting side meets on a multiplexed connection is an open, so mode detection succeeds |
| MuxSteps.OpenIsNews | rust/crates/roboat-daemon/src/mux.rs:305-333 | an open message that arrives is for a stream the end has no entry, channel or data of |
| MuxTheorems.StepKeeps | rust/crates/roboat-daemon/src/mux.rs:145-333 | every step of either end keeps the invariant that ties queues, bytes in transit, table, channels and history together |
| MuxTheorems.RunInv | rust/crates/roboat-daemon/src/mux.rs:145-333 | so it holds after every run with at most 2^31 opens per end |
| MuxTheorems.StreamIsFifo | rust/crates/roboat-daemon/src/mux.rs:145-333 | in every interleaving a stream's channel holds a contiguous in-order run of the chunks sent on that stream; it starts at the first chunk unless this end opened the stream or it is the spawned-task stream; while entry and receiver stand, the rest is under way in order |
| MuxTheorems.ReadsArePrefix | rust/crates/roboat-daemon/src/mux.rs:272-286 | what an application reads from a stream whose open the read task handled is a prefix of what the peer sent |
| MuxTheorems.NothingLost | rust/crates/roboat-daemon/src/mux.rs:275-286 | once nothing of a stream is under way, a standing channel holds everything sent since it was made |
| MuxTheorems.TransportIntact | rust/crates/roboat-daemon/src/mux.rs:213-303 | the bytes in buffer, transport and writer always spell the messages under way, up to one cut short by a write error |
| MuxRefinement.StepRefines | rust/crates/roboat-daemon/src/mux.rs:145-333 | every step of either end is, for each stream and direction, one step of a plain queue |
| MuxRefinement.RunRefinesFifo | rust/crates/roboat-daemon/src/mux.rs:145-333 | in every run each move puts one chunk at the back, makes the receiver (once), shuts it (for good), gives it the front chunk while it is open, discards the front chunk while it is not, or leaves the stream alone |
| MuxProgress.EverythingArrives | rust/crates/roboat-daemon/src/mux.rs:145-303 | from every reachable state with both tasks there, the tasks by themselves, with the application taking chunks where a channel is full, can get everything queued across, and then every chunk ever sent has been handled in order |
| MuxEffects.DispatchDoes | rust/crates/roboat-daemon/src/mux.rs:269-333 | what the read task makes of each kind of frame: an open makes an entry, a chunk goes to the back of a standing channel, waits for room in it or is dropped, a close removes the entry, other frames are skipped, and nothing else changes |
| MuxEffects.DetectDoes | rust/crates/roboat-daemon/src/manager.rs:243-258 | the accepting side's first frame selects the mode and is left to a spawned task |
| MuxEffects.CloseIsFinal | rust/crates/roboat-daemon/src/mux.rs:188-200 | in every run, once the peer's close is handled or this end's own close has removed the entry, the entry is gone, other streams are as they were, and the receiver is never given anything more |
| MuxEffects.ReaderGoneForGood | rust/crates/roboat-daemon/src/mux.rs:295-299 | in every run, once the read task is gone that end never takes another byte or frame |
| MuxEffects.ReadTaskEnds | rust/crates/roboat-daemon/src/mux.rs:295-299 | a refused frame or a failed read ends the read task and changes nothing else |
| MuxEffects.EnqueueOpenDoes | rust/crates/roboat-daemon/src/mux.rs:145-160 | the open item goes to the queue of its class |
| MuxEffects.SendDoes | rust/crates/roboat-daemon/src/mux.rs:173-186 | a chunk goes to the queue of its stream's class, by name of the class |
| MuxEffects.CloseDoes | rust/crates/roboat-daemon/src/mux.rs:188-200 | the close item goes to the queue of its class, and the entry goes once the table is free |
| MuxEffects.InsertDoes | rust/crates/roboat-daemon/src/mux.rs:110-168 | the two inserts make a fresh entry of the stream's class, once the table is free |
| MuxEffects.ReceiveDoes | rust/crates/roboat-daemon/src/mux.rs:162-170 | the application takes the oldest chunk it has not had, or gives the receiver up |
| MuxEffects.QueuesByClass | rust/crates/roboat-daemon/src/mux.rs:202-208 | in every run the priority queue only ever accepts items of control and meta streams, the other one only those of bulk streams |
| MuxEffects.UrgentOvertakes | rust/crates/roboat-daemon/src/mux.rs:202-259 | from the moment a chunk is sent on a control or meta stream until it is taken, whatever both ends do, at most one bulk frame of that end reaches the wire |
| MuxDelivery.SinceIsDropped | rust/crates/roboat-daemon/src/mux.rs:110-168 | in every run a channel's start is exactly the number of chunks of its stream that the read task had handled when the entry was inserted, it never changes afterwards, and it is zero when the read task handled the open |
| MuxDelivery.OneFullStreamStopsAll | rust/crates/roboat-daemon/src/mux.rs:282-285 | once the read task waits on a full channel, nothing of any stream is delivered, opened or closed, whatever both ends do, until the application takes a chunk of that very stream or drops it |
| MuxDelivery.DrainingReleases | rust/crates/roboat-daemon/src/mux.rs:282-285 | either of the two lets the next step hand over the chunk and free the table |
| MuxDelivery.HeldMeansFull | rust/crates/roboat-daemon/src/mux.rs:282-285 | in every run the table is held only for a chunk whose stream is full or has just been drained |
| MuxWitness.FirstChunkCanBeLost | rust/crates/roboat-daemon/src/mux.rs:110-117 | a run in which the read task drops the first chunk of the first stream before the spawned task has made its entry |
| MuxWitness.EarlyReplyCanBeLost | rust/crates/roboat-daemon/src/mux.rs:156-168 | a run in which the opener's read task drops a reply before `open_stream` has made its entry |
| MuxWitness.EarlyCloseCanBeLost | rust/crates/roboat-daemon/src/mux.rs:287-294 | a run in which a close is handled before the spawned task makes the entry, which then stands for good |
| MuxWitness.UndrainedStreamStalls | rust/crates/roboat-daemon/src/mux.rs:282-285 | a run in which 65 chunks that nobody takes leave the read task waiting with the table held |
| FallbackGate.FallbackBackoff | go/relay/fallback_gate.go:127-153 | the loop with its cap of eight steps equals 0.5 s (1 s for a teardown) doubled for every failure but the first, at most 8 s (12 s), and the base for no failures |
| FallbackGate.KeysDistinct | go/relay/fallback_gate.go:109-118 | two triggers share a gate key exactly when trimmed robot and kind agree |
| FallbackGate.FallbackTriggerGate.Prune | go/relay/fallback_gate.go:97-107 | exactly the entries not seen for more than 20 minutes go |
| FallbackGate.FallbackTriggerGate.Allow | go/relay/fallback_gate.go:34-52 | refuses exactly while the next-allowed time lies ahead; the table is the pruned one with this key seen now |
| FallbackGate.FallbackTriggerGate.RecordFailure | go/relay/fallback_gate.go:54-74 | the pruned table with one more failure for this key, blocked until now plus the backoff for that count; a forgotten key starts from none |
| FallbackGate.FallbackTriggerGate.RecordSuccess | go/relay/fallback_gate.go:76-95 | the pruned table with this key unblocked and its failures forgotten |
| FallbackGate.TriggerBootstrap | go/relay/server.go:99-151 | the order in which a trigger consults and updates the gate, when TCP is tried, and that exactly a successful teardown clears the active session it names; a blank id names none |
| FallbackGate.TriggerMeans | go/relay/server.go:99-151 | a delivered message or an admitted attempt that succeeds clears the entry, an admitted attempt that fails counts, anything else marks it seen; other entries are only pruned |
| GateHistory.BlockedUntil | go/relay/fallback_gate.go:34-107 | in every history and at every instant the gate refuses exactly while the key has not lapsed and its last failure plus the backoff for the failures since the last success or lapse lies ahead |
| GateHistory.PruningAdmits | go/relay/fallback_gate.go:34-107 | for every history, clock and instant, pruning only admits more, and exactly when it does |
| GateHistory.VerdictsDifferIff | go/relay/fallback_gate.go:34-107 | with a forward clock the verdict differs from that of a table never pruned if and only if the time lies between the end of the backoff for the gate's count and that for the failures since the last success |
| GateHistory.CountsDifferIff | go/relay/fallback_gate.go:97-107 | those counts differ if and only if the key, with failures on its count, went unseen for more than 20 minutes since its last success |
| GateHistory.PruningRestartsCount | go/relay/fallback_gate.go:34-107 | three failures after which the gate admits where one that never forgot would refuse |
| GateTiming.FailuresPaced | go/relay/fallback_gate.go:34-107 | in every interleaving of triggers, if those of one key do not overlap each other and ask within 19 minutes of reading the clock, its n-th failure since the last success comes at least the sum of the first n-1 capped backoffs after the first, pruning or not, however long the attempts take |
| GateTiming.FlightMeans | go/relay/server.go:99-151 | in any state a delivered message or a success ends the streak of failures, a failure adds to it, and asking is followed by an attempt exactly when the gate admits and there is a target |
| GateTiming.SoloTrigger | go/relay/server.go:99-151 | the steps of an uninterrupted trigger add up to the whole of it |
| GateTiming.RunIsTable | go/relay/server.go:99-151 | the table of every run is that of the calls made, in order |
| GateTiming.OverlapUnpaced | go/relay/server.go:99-151 | two overlapping triggers of one key fail at the same instant |
| GateTiming.LateAskUnpaced | go/relay/server.go:99-151 | a trigger that lingers for 25 minutes before asking fails an instant after the last failure |
| RelayQueue.QueueConserves | go/relay/relay.go:204-244 | for any capacity, producers and interleaving the queue is the contiguous suffix of accepted messages, accepted = consumed + evicted + depth, attempts = accepted + refused + undecided, depth within capacity, counters behind only by producers about to count |
| RelayQueue.AcceptedWereBegun | go/relay/relay.go:204-244 | nothing is queued that no producer set out to queue |
| RelayQueue.ConsumeTakesOldest | go/relay/relay.go:1516-1550 | the consumer gets the oldest message |
| RelayQueue.CountersBalance | go/relay/relay.go:720-797 | with no attempt under way the reported counters balance exactly |
| RelayHub.ForcedIsLast | go/relay/relay.go:735-747 | with at least one slot a forced message ends up last and costs at most the oldest, only when full |
| RelayHub.DeliveryMeans | go/relay/relay.go:720-748 | queue and counters after a message, by kind and room |
| RelayHub.SoloAttempt | go/relay/relay.go:720-748 | the steps of one uninterrupted producer add up to the sequential methods |
| RelayHub.AgentControlHub.DeliverRelay | go/relay/relay.go:720-748 | result and queue for known and unknown relays, data and other messages, with and without room |
| RelayHub.AgentControlHub.PreemptRelaysForSession | go/relay/relay.go:750-797 | exactly the relays of this robot under another session get a relay_close for their id with the new key; all others are unchanged |
| RelayHub.AgentControlHub.SetActiveSession | go/relay/relay.go:569-587 | the key is set, and relays are preempted only when it changed |
| RelayHub.AgentControlHub.ClearActiveSessionIfMatch | go/relay/relay.go:611-630 | a key clears only itself, an empty key whatever is active |
| RelayHub.AgentControlHub.RegisterRelay | go/relay/relay.go:655-675 | a relay starts with an empty queue and zero counters |
| RelayHub.AgentControlHub.UnregisterRelay | go/relay/relay.go:677-685 | exactly this relay goes |
| RelaySessions.NoticedIff | go/relay/relay.go:569-587 | in every interleaving, with no preemption under way, a relay has a close notice if and only if its session was replaced after it registered or a preemption for another key was still to come when it did |
| RelaySessions.SectionsMean | go/relay/relay.go:569-675 | what setting, preempting, clearing, registering and unregistering do to the active key, the relays and the notices |
| RelaySessions.UnnoticedIffLate | go/relay/relay.go:569-587 | so a relay of a replaced session has none if and only if its session was replaced before it registered, no preemption concerning it was still to come then, and there was no change to another key since |
| RelaySessions.LateRelaySurvives | go/relay/relay.go:1423-1470 | a request that read the old session registers after the preemption |
| RelaySessions.DelayedPreemptionCloses | go/relay/relay.go:578-586 | a delayed preemption closes a relay of the session that is active |
| RelayHub.PreemptionCloses | go/relay/relay.go:750-797 | every relay of the robot under another session ends with a relay_close for its id that carries the new key and has lost at most its oldest message; all others are unchanged |
| PendingCalls.CallsCorrelate | go/relay/relay.go:491-567 | in every interleaving the one-slot channel is never found full, a caller gets only the response accepted for its id, and its id is gone once it has returned |
| PendingCalls.AcceptedIsReceived | go/relay/relay.go:519-521 | in every run, once an accepted response is out of its responder's hands, a caller that is waiting gets it with its next step |
| PendingCalls.FailuresHaveCause | go/relay/relay.go:512-527 | a caller reports a timeout only if its timer fired, and a missing channel only if its request was not taken |
| PendingCalls.RespondAccepts | go/relay/relay.go:632-653 | a response for a pending id is accepted, and for any other id changes nothing |
| PendingCalls.CallMoves | go/relay/relay.go:491-527 | how a call becomes pending, waits, leaves and is struck off |
| PendingCalls.HandMoves | go/relay/relay.go:647-652 | an accepted response goes from the responder into its caller's channel |
| PendingCalls.ReturnsOnce | go/relay/relay.go:519-527 | a caller's outcome never changes afterwards |
| PendingCalls.StepInv | go/relay/relay.go:632-653 | every step keeps an accepted response in exactly one place |
| PeerSlots.SlotTable.Register | go/relay/relay.go:355-375 | who is accepted under each rule (never a blank id), who is found in the slot, and the table afterwards |
| PeerSlots.SlotTable.Unregister | go/relay/relay.go:377-386 | only the current holder vacates the slot |
| PeerSlots.OneTenure | go/relay/relay.go:412-441 | in every run an accepted peer is current or has ended its tenure exactly once, displaced or left, never both |
| PeerSlots.AcceptedIff | go/relay/relay.go:355-375 | in every run, who is accepted under each rule, vacant or occupied, by times, addresses and ids; who is displaced; and that other slots are untouched |
| PeerSlots.LeavingVacates | go/relay/relay.go:377-386 | a holder that leaves vacates its slot and no other |
| PeerSlots.LateExitHarmless | go/webrtc/signaling.go:207-239 | the exit of a displaced peer changes nothing |
| PeerSlots.IncumbentStays | go/relay/relay.go:369-374 | under reject_new the incumbent keeps its slot until its own unregister |
| PeerSlots.DebouncePaces | go/webrtc/signaling.go:248-268 | successive holders of a slot used by one source are more than a debounce window apart |
| PeerSlots.ChangesTakeTime | go/webrtc/signaling.go:248-268 | so n changes of hands without a vacancy take more than n windows |
| AttachSessions.PromotionsRise | go/relay/relay.go:1402-1436 | undisturbed promotions have strictly rising reference times, never repeat a session, number at most the stored sessions and concern this robot and user |
| AttachSessions.DecideMeans | go/relay/relay.go:1402-1436 | the decision of a request in every case, blank requests included |
| AttachSessions.SnapshotIff | go/relay/relay.go:1307-1339 | which stored sessions count, and by which time |
| AttachSessions.RequestMeans | go/relay/relay.go:1402-1436 | a request later sets exactly what it decided |
| AttachSessions.StartNotPromoted | go/relay/relay.go:1341-1356 | nor is the session active at the start promoted again |
| AttachSessions.AscendIffJustified | go/relay/relay.go:1341-1436 | for every start and interleaving, sessions made active by promotion or adoption only move on to later stored ones if and only if each request that sets one would still be entitled to when it does |
| AttachSessions.JustifiedNeverRepeats | go/relay/relay.go:1402-1436 | then no session is made active twice, and at most one more than are stored |
| AttachSessions.RiseIffJustified | go/relay/relay.go:1341-1436 | then promotions have rising reference times; with a session active at the start, only then |
| AttachSessions.RepeatHasCause | go/relay/relay.go:1402-1436 | between two times a session is made active some request set a session it was no longer entitled to |
| AttachSessions.OvertakenPromotesTwice | go/relay/relay.go:1402-1436 | two overtaking requests make one session active twice |
| AttachSessions.OvertakenAdoptionPromotesTwice | go/relay/relay.go:1424-1436 | so does an overtaken adoption, with no session active at the start |
| UserRelay.AwaitAck | go/relay/relay.go:1516-1550 | everything before the first acknowledgement is held back in order; the acknowledgement decides |
| UserRelay.Relay.SendToClient | go/relay/relay.go:1606-1695 | which events end the relay and which do not, by name; the budget+1st timed-out write in a row does; every counter is exactly the number of its events |
| UserRelay.Relay.Forward | go/relay/relay.go:1674-1695 | events are handled up to and including the first one that ends the relay, and handled data = sent + (timeout drops - exhaustions) + decode errors + hard errors |
| UserRelay.Serve | go/relay/relay.go:1516-1695 | held-back messages are handled first and in order, then the rest |
| ConnState.SummaryDecides | go/connstate/state.go:45-270 | for every history the verdict on the incremental state equals the verdict of the whole history without disconnections that precede the entry |
| ConnState.HeartbeatOrderIrrelevant | go/connstate/state.go:45-92 | once a robot has an entry, where a heartbeat arrives in the history does not change any verdict |
| ConnState.OfflineStays | go/connstate/state.go:185-205 | an offline verdict stays offline at later times without a new event |
| ConnState.PostureIsLastReport | go/connstate/state.go:52-74 | addresses and NAT type are the last ones really reported |
| ConnState.ContentionIsLatest | go/connstate/state.go:143-164 | for every history the contention time is the latest of all and the rivals are those recorded last |
| ConnState.ConnectedAtMeans | go/connstate/state.go:94-230 | when the connection time moves, and to what |
| ConnState.UpdatedMeans | go/connstate/state.go:45-250 | an update is for the trimmed id and no other; a blank one is ignored |
| ConnState.Table.UpsertHeartbeat | go/connstate/state.go:45-92 | exactly this robot's entry changes, to the heartbeat effect that `SummaryDecides` is about; times never move back; a blank id changes nothing |
| ConnState.Table.UpsertControlConnected | go/connstate/state.go:94-141 | exactly this robot's entry changes: connected, the disconnection forgotten, connection time never moved back |
| ConnState.Table.RecordControlContention | go/connstate/state.go:143-164 | exactly this robot's entry changes, created if need be: the rivals are the latest recorded, the time never moves back, and connection and disconnection stay as they were |
| ConnState.Table.TouchControlActivity | go/connstate/state.go:207-230 | exactly this robot's entry changes, to the activity effect that `SummaryDecides` is about |
| ConnState.Table.SetControlDisconnected | go/connstate/state.go:232-250 | the entry after a disconnect, which never creates one |
| Evidence.TableExact | go/connstate/evidence.go:137-180 | with a forward clock the table always holds exactly the sessions whose last upsert, in whole seconds, lay within 30 minutes of the last upsert of any session; upserts with a blank id do nothing |
| Evidence.WholeSeconds | go/connstate/evidence.go:205-216 | with whole-second times that is 30 minutes to the second |
| Evidence.StartsEpisode | go/connstate/evidence.go:148-154 | without supplied start times a session's start is the first upsert of its current unbroken episode |
| Evidence.SuppliedStart | go/connstate/evidence.go:137-180 | a start time that is supplied is taken as it is |
| Evidence.StoredIs | go/connstate/evidence.go:205-216 | times are stored cut to the second |
| Evidence.FractionDropsEarly | go/connstate/evidence.go:205-216 | with fractions a session can go after 1799.6 seconds |
| Evidence.Store.UpsertSession | go/connstate/evidence.go:137-180 | prune, keep or set the start, refresh the update time |
| TurnUrls.ExpandExact | rust/crates/roboat-webrtc/src/client.rs:786-818 | a URL expands, for its own host, to exactly the transports it leaves open, TCP only if enabled, and every entry parses back |
| TurnUrls.ParamIsFirst | rust/crates/roboat-webrtc/src/client.rs:848-857 | the transport is the value of the first part of the query whose key is `transport` |
| TurnUrls.TransportMeans | rust/crates/roboat-webrtc/src/client.rs:820-846 | which URLs ask for UDP and which for TCP |
| TurnUrls.StripTakesCopies | rust/crates/roboat-webrtc/src/client.rs:786-818 | stripping the scheme takes off copies of it and nothing else |
| TurnUrls.SpellingIgnored | rust/crates/roboat-webrtc/src/client.rs:786-846 | white space around a URL and the case of its letters make no difference |
| TurnUrls.SupportedMeans | rust/crates/roboat-webrtc/src/client.rs:778-784 | URLs over UDP are supported, and those over TCP when it is enabled |
| TurnUrls.SupportedExpands | rust/crates/roboat-webrtc/src/client.rs:778-784 | a supported URL has an expansion of its own transport |
| TurnUrls.ExpandStable | rust/crates/roboat-webrtc/src/client.rs:786-818 | expanding an entry again changes nothing if and only if its host does not begin with `turn:` |
| TurnUrls.FilterSupportedTurnUrls | rust/crates/roboat-webrtc/src/client.rs:601-642 | the list is duplicate-free and exactly the expansions, or exactly those of `turns:` URLs when only TLS is wanted and there is one, in the order in which they first come up |
| TurnUrls.FilteredParses | rust/crates/roboat-webrtc/src/client.rs:820-846 | every listed entry parses as UDP or TCP, TCP only when enabled, only TCP under TLS-only |
| TurnUrls.SupportedRepresented | rust/crates/roboat-webrtc/src/client.rs:636-641 | every supported URL is represented with its transport unless TLS-only selection applies |
| TurnUrls.IceNetworkTypes | rust/crates/roboat-webrtc/src/client.rs:554-574 | TCP network types appear exactly when TCP is enabled and some URL needs it |
| ResolverCache.AnswersFresh | rust/crates/roboat-resolver/src/lib.rs:76-124 | in every interleaving an answer is that of this call's own reply, for each kind of reply, or the reply filed last and not dropped since, less than 60 s old, or less than 5 s for a negative one |
| ResolverCache.CachedIff | rust/crates/roboat-resolver/src/lib.rs:76-87 | in every run a resolution is answered from the cache if and only if the last thing that happened to the entry was an endpoint less than 60 s ago or a negative reply less than 5 s ago |
| ResolverCache.ReplyMeans | rust/crates/roboat-resolver/src/lib.rs:94-123 | what each reply does to the cache |
| ResolverCache.InvalidationHolds | rust/crates/roboat-resolver/src/lib.rs:126-130 | after an invalidation nothing is cached for the agent until another reply is filed for it |
| ResolverCache.InvalidationRefetchesIff | rust/crates/roboat-resolver/src/lib.rs:126-130 | however the run goes on, nothing asked for before the invalidation is ever cached after it, if and only if no fetch for the agent was under way |
| ResolverCache.OldReplyAfterInvalidation | rust/crates/roboat-resolver/src/lib.rs:89-130 | a run in which the attempt after the invalidation gets the old answer |
| ResolverCache.Resolver.Invalidate | rust/crates/roboat-resolver/src/lib.rs:126-130 | exactly this agent's entry goes |
| ResolverCache.Resolver.Lookup | rust/crates/roboat-resolver/src/lib.rs:77-87 | a hit exactly for an unexpired entry |
| ResolverCache.Resolver.File | rust/crates/roboat-resolver/src/lib.rs:94-123 | only registry verdicts change the cache; the result for each reply |

## Left out

- MuxConn.Connection.SendData: chunks of 4 GiB and more are refused rather than sent, because the frame
  length is written modulo 2^32 and the byte stream would lose its frames; the daemon's IPC limit of 4 MiB
  keeps chunks far below that. A stream nobody opened or accepted here is refused too: streams are used by
  the task that opened or accepted them, with its class.
- MuxConn.Connection.CloseStream: closing a stream nobody opened or accepted here does nothing, likewise.
- Protocol.PacketReencodes: topics and types are bytes; the lossy UTF-8 conversion, which would not
  re-encode invalid text, is not modelled.
- Protocol.Reader.ReadPacket: the same conversion.
- Evidence.Store.UpsertSession: field cleaning (`cleanStrings`, `normalizeProfile`) and the returned copy,
  only easy members.
- UserRelay.Serve: where the end of the reader or a ping comes before the acknowledgement it is held back
  like a message; neither exists that early.
- AttachSessions.AscendIffJustified: explicit activation or clearing of the session between requests.
- `MuxConn.Connection` objects are driven one call at a time: concurrency is in `MuxSystem`, on values.
- More than 2^31 opens by one end of a connection, when ids come round again.
- MuxProgress.EverythingArrives: what a write task leaves behind after the last handle is dropped, which is
  what `MuxWriter.ShutdownLeaves` is about; and items over 64 MiB, which end the peer's read task.
- Back-pressure of the `incoming_tx` notification channel: it only delays the read task.
- `run_stream_bridge` and direct relay mode: a frame read can be abandoned half way there.
- `DaemonManager`'s stream table, keyed by id alone across connections.
- A server built without a hub or a gate.
- Parsing of the control concurrency policy and of other environment settings.
- Queue wait times of relays: they only feed statistics and are not aligned with the messages.
- Delivery of close notices once queued: a later overflow may drop one as the oldest message.
- Wrap-around of 64-bit statistics counters, and saturation of Go durations at 292 years.
- The signaling session registry, whose removal happens outside the session lock.
- Authentication, signatures, HTTP, WebSocket, JSON, base64, WebRTC and storage.
