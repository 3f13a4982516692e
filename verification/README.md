# chan_discord verification

A model of chan_discord, an Asterisk channel driver that bridges calls to Discord voice channels, with proofs about the
parts where its correctness is hardest to see by reading one function: the voice-session protocol, the receiving mixer,
the packet codec, the outgoing counters and the lock discipline. `dafny verify dfyconfig.toml` checks everything.

## What is modelled

**The voice task** (`ConnectInfo`, `EncryptionModes`, `VoiceTask`, `VoiceTaskSafety`, `VoiceTaskHistory`). A run of the
task is a fold of `Step` over whatever events arrive, in any order, repeated or missing; class `VoiceTaskRunner` is the
loop that changes its fields in place and is proved to compute exactly that run. The same run is told a second time,
without any state, from the events handled so far, and the two are proved equal. What the outside world answers (did a
socket connect, was a message sent, did a packet open) comes in with the event. Panics are outcomes of their own: the
release profile aborts the process on them.

**The session** (`Session`, `SessionSafety`, `SessionHangUps`, `SessionWorkers`, `GuildRegistry`, `CallWorkers`). The
guild registry with its dispatcher, all call workers and all voice tasks form one step relation joined by bounded
channels; its invariant is inductive and gives exclusive ownership per guild. Class `DiscordInner` is the registry's map
changed in place, proved to take the steps of that relation. Class `CallWorker` is one worker's loop with what it issues
to each of its peers.

**Gateway and queues** (`VoiceGateway`, `EventQueue`, `QueueThreads`, `ChannelOrder`, `CallChannels`, `LockDiscipline`).
The gateway's filter and heartbeat deadline; the 32-slot event queue with its reserve-before-receive select; the queue
thread's loop; what an Asterisk channel sees of a call's requests and direct calls once the queue thread has merged them;
and the wait-for relation between Asterisk's threads, the Discord thread and the queue thread.

**The codec and the counters** (`Crypto`, `DataChannel`, `Extensions`, `Counters`, `OutgoingCall`). Sealing and opening
packets in place, over an abstract cipher of which only the law "decrypting with the right tag gives back the message" is
known; the RTP header is that of section 5.1 of RFC 3550. Sequence numbers, timestamps and nonce counters wrap at 16 and
32 bits.

**The mixer** (`Samples`, `JitterBuffers`, `Ownership`, `ReceiverState`, `RtpReceivers`, `ReceiverFetches`,
`ReceiverRuns`, `ReceiverTimes`, `ReceiverWitnesses`). Saturating mixing, in-place stereo-to-mono conversion, RTP time
to milliseconds; the jitter buffer as a foreign queue that may answer anything its return codes allow; class
`RtpReceiver`, with ghost books that say where every boxed payload is, each operation proved to take a step of
`ReceiverRuns.Step`; and what holds over whole runs of such steps.

**Dial strings** (`DialString`). Rust's checked `u64` parse and the split at slashes.

Where the code falls short of what one would like to claim, the model keeps the code and states exactly when the claim holds:

- A run of the voice task panics, and ends without a leave intent, exactly if it handles one of four inputs
  (`VoiceTaskSafety.PanicsExactly`): once connected, a session description with a recognised mode and a key that is not 32
  bytes (`VoiceTaskSafety.MalformedKeyHappens`); user id 0 in a Speaking, ClientConnect or ClientDisconnect event
  (`VoiceTaskSafety.UserIdZeroHappens`); with a Normal-mode key, a packet whose header does not fit the nonce
  (`VoiceTaskSafety.LongHeaderHappens`, `DataChannel.ReceivingPanicsExactlyOnLongHeader`); with a gateway, a heartbeat
  interval that is negative or 2^64 seconds or more (`VoiceTaskSafety.IntervalOutOfRangeHappens`,
  `VoiceGateway.GatewayConnection.NextEvent`).
- A hang-up waits for its voice task, whose events nobody reads any more. If more than 32 of them are unread, the hang-up
  never completes and the guild is refused for good (`SessionHangUps.HangUpCompletesExactly`,
  `SessionHangUps.RefusedForGood`, `SessionHangUps.HopelessHangUpHappens`).
- The hang-up of a call that ends on the other side, and an answer, are queued on the channel directly, but frames through
  the queue thread, so frames can come after either. The hang-up is the last the channel sees exactly if no request for
  the channel was pending when it was made (`CallChannels.HangupLastExactly`, `CallChannels.FrameAfterHangup`,
  `CallChannels.FrameAfterAnswer`).
- Mixing panics exactly if the frames differ in length (`Samples.Mix`). Before a fetch, the buffers can make it panic
  exactly if two participants have frames of different lengths queued and the fetch's time is reached
  (`ReceiverFetches.MayPanicExactly`); decoders that all report one count never do (`ReceiverRuns.OneCountNeverPanics`),
  counts of 480 and 960 can (`ReceiverWitnesses.DifferentCountsPanic`).
- Re-scheduling the remembered participant can move the remembered time past another participant's next frame, which is
  then slept past (`ReceiverRuns.LateExactly`, `ReceiverRuns.BoundOverRun`, `ReceiverWitnesses.OvertakingHappens`).
- A remembered time is never forgotten by a fetch. Once it is reached, no fetch sleeps again until a packet comes or its
  participant goes (`ReceiverRuns.NeverToldAgain`), so a fetch that finds no frame playable waits for nothing at all,
  however soon the next frame is scheduled (`ReceiverFetches.StrandedExactly`, `ReceiverWitnesses.StrandingHappens`).
- A user who is mapped to a new SSRC leaves the old participant behind without a user, and no later event removes it
  (`ReceiverRuns.OrphanedExactly`, `ReceiverRuns.RemovableExactly`, `ReceiverWitnesses.OrphanHappens`).
- Every user's voice state is taken for the bot's own, so the voice gateway can be opened with another user's session
  (`VoiceTaskSafety.OwnSessionExactly`, `VoiceTaskSafety.ForeignSessionAnnounced`).
- `next_event` can be cancelled by the voice task's select between taking a Hello and passing its interval on; the
  interval is then lost (`VoiceGateway.GatewayConnection.NextEvent`, `VoiceGateway.GatewayConnection.SeveralCalls`).
- The queue thread's comment says that the Discord thread never waits for an Asterisk lock. The answer and the hang-up are
  queued from the Discord thread itself, so it can (`LockDiscipline.DirectCallDeadlocks`); without such calls there is no
  deadlock, and with them there is one exactly in a knot of two (`LockDiscipline.DeadlockExactly`), which is also exactly
  when the work at hand is left undone (`LockDiscipline.WorkFinishesExactly`).
- A payload without a header extension whose Opus bytes happen to begin like one, or are the single byte 0xBE, is not
  handed on as it is; all others are (`Extensions.PlainOpusRecoveredExactly`).
- A dial string that names guild or channel 0 panics instead of being rejected (`DialString.PanicsExactly`).
- A `FixUp` request is never answered (`CallWorkers.AnsweredExactlyOnce`).
- An unexpected gateway message ends the call to `next_event` with an error and is lost (`VoiceGateway.GatewayConnection.NextEvent`).

## Model

| member | source | states |
|---|---|---|
| EncryptionModes.NameRoundTrip | chan_discord_common/src/discord/crypto.rs:178-214 | a name is recognised exactly if it is a mode's own name, and then as that mode |
| EncryptionModes.BestMode | chan_discord_common/src/discord/voice_task.rs:216-221 | of the offered names Suffix is chosen whenever it is there, otherwise the last recognised one; nothing only if none is recognised |
| ConnectInfo.ApplyRemembersLast | chan_discord_common/src/discord/voice_task.rs:453-477 | overwriting fields event by event remembers exactly the last update of each kind, so completeness and identity depend on those two alone |
| ConnectInfo.InterleavingIrrelevant | chan_discord_common/src/discord/voice_task.rs:453-491 | histories that agree on the two kinds separately agree on the connect information, however the kinds interleave |
| ConnectInfo.FirstCompleteStep | chan_discord_common/src/discord/voice_task.rs:200-207 | the first complete prefix of a history is never moved by later events, and appears with the event that completes it |
| VoiceTask.VoiceTaskRunner.HandleEvent | chan_discord_common/src/discord/voice_task.rs:175-366 | waiting for an event and handling it in place has exactly the effect, the new state and the result (ok, error, panic) of `Handle`, whichever branch of the select it comes from |
| VoiceTask.VoiceTaskRunner.Close | chan_discord_common/src/discord/voice_task.rs:369-377 | the gateway is closed if there is one, then the leave intent is registered |
| VoiceTask.VoiceTaskRunner.RunTask | chan_discord_common/src/discord/voice_task.rs:157-173 | the task's loop over any events ends in exactly the state, status and trace of `Execute` |
| VoiceTask.OverStaysOver | chan_discord_common/src/discord/voice_task.rs:164-172 | a run that is over is not changed by any further events |
| VoiceTaskSafety.HandleKeepsInvariant | chan_discord_common/src/discord/voice_task.rs:175-327 | every event, repeated or out of order, keeps the loop invariant (gateway present while waiting for Ready, key before session), never lowers the state's rank, and panics on exactly the four kinds of input that `PanicsOn` names |
| VoiceTaskSafety.DatagramAsReceived | chan_discord_common/src/discord/voice_task.rs:388-402 | what the task does with a datagram is what its data channel says of it, whatever the cipher: panic, error or packet |
| VoiceTaskHistory.RunIsItsHistory | chan_discord_common/src/discord/voice_task.rs:157-327 | over every run its status, every effect in order (which worker event, gateway command, answer or encryption each event comes to) and the mode installed are what the events handled say, from the first to the last, without any state |
| VoiceTaskHistory.LastOneNamed | chan_discord_common/src/discord/voice_task.rs:260-270 | the mode installed is that of the last session description handled while connected that names a known mode and has a key of 32 bytes |
| VoiceTaskHistory.NoneNamed | chan_discord_common/src/discord/voice_task.rs:260-270 | no mode is installed only if there was no such session description |
| VoiceTaskSafety.EveryRun | chan_discord_common/src/discord/voice_task.rs:157-173 | every state of every run satisfies the loop or the exit invariant |
| VoiceTaskSafety.RefusedJoin | chan_discord_common/src/discord/voice_task.rs:158-162 | if the join intent fails, nothing but `Closed` is ever emitted |
| VoiceTaskSafety.TraceShape | chan_discord_common/src/discord/voice_task.rs:157-173 | the gateway commands of a run form a prefix of Identify, SelectProtocol, Speaking, each at most once; a finished run goes on with one Close if there was a gateway and then the one leave intent, last |
| VoiceTaskSafety.PanicsExactly | chan_discord_common/src/discord/voice_task.rs:157-327 | a run panics exactly if it handles a malformed session key once connected, user id 0, a long header under a Normal-mode key, or an out-of-range heartbeat interval; so none of its unwraps fails |
| VoiceTaskSafety.MalformedKeyHappens | chan_discord_common/src/discord/rtp.rs:48-55 | a run of four events that ends with an empty key, and panics |
| VoiceTaskSafety.UserIdZeroHappens | chan_discord_common/src/discord/voice_task.rs:250-309 | runs that end with each of the three events about user 0, and panic |
| VoiceTaskSafety.LongHeaderHappens | chan_discord_common/src/discord/rtp.rs:147-171 | a run that receives a packet with fifteen contributing sources, and panics |
| VoiceTaskSafety.IntervalOutOfRangeHappens | chan_discord_common/src/discord/voice_gateway.rs:126-133 | a run whose gateway announces a negative interval, and panics |
| VoiceTaskSafety.RankNeverFalls | chan_discord_common/src/discord/voice_task.rs:62-75 | over any continuation of a run the state's rank never falls and the trace only grows |
| VoiceTaskSafety.KeyBeforeAnnouncement | chan_discord_common/src/discord/voice_task.rs:260-287 | whenever `FullyConnected` has been emitted, a key is installed |
| VoiceTaskSafety.WriteReachesEncryption | chan_discord_common/src/discord/voice_task.rs:177-195 | a write handled by a live task is encrypted if and only if the call has been announced as connected |
| VoiceTaskSafety.OpenedAtFirstCompletePrefix | chan_discord_common/src/discord/voice_task.rs:479-491 | the gateway is opened once, at the first complete prefix of the events heard, with exactly that prefix's last two updates |
| VoiceTaskSafety.OpenedFromHistory | chan_discord_common/src/discord/voice_task.rs:200-207 | the same against a longer history of which the run has heard a prefix |
| VoiceTaskSafety.OwnSessionExactly | chan_discord_common/src/discord/voice_task.rs:454-460 | the session announced is the bot's own exactly if the last state update of the first complete prefix names the bot |
| VoiceTaskSafety.ForeignSessionAnnounced | chan_discord_common/src/discord/voice_task.rs:454-460 | two events after which another user's session is announced |
| SessionSafety.StepKeepsSystem | chan_discord_common/src/discord/mod.rs:105-149 | every step of registry, workers and tasks keeps the invariant on ownership, streams, runs and answers |
| SessionSafety.EveryReachableState | chan_discord/src/thread.rs:131-176 | hence every state any interleaving reaches satisfies it |
| SessionSafety.OneLiveReceiverPerGuild | chan_discord_common/src/discord/mod.rs:103-126 | a guild never has two live receivers, and none is held by a worker and a task at once |
| SessionSafety.RefusedExactlyWhileHeld | chan_discord/src/thread.rs:145-153 | `PrepareCall` is refused exactly while some receiver for the guild is live |
| SessionSafety.HangUpFreesGuild | chan_discord/src/call.rs:275-288 | once a hang-up has completed, the call's receiver is gone, and its guild is refused only if it was before and the registry had already passed to a later call |
| SessionHangUps.HangUpCompletesExactly | chan_discord_common/src/discord/voice_task.rs:150-153 | a reachable leaving worker can end, in some continuation, if and only if its task's unread events fit into the channel and no task has panicked |
| SessionHangUps.RefusedForGood | chan_discord_common/src/discord/voice_task.rs:150-153 | if they do not fit, in every continuation the worker is still leaving and its guild refused |
| SessionHangUps.HopelessHangUpHappens | chan_discord_common/src/discord/voice_task.rs:290-309 | a reachable state of that kind: 33 users join unheard before the hang-up |
| SessionHangUps.StepKeepsPaired | chan_discord/src/call.rs:229-288 | at every step each worker that has started a task holds the open end of that task's events, and no two workers the same |
| SessionWorkers.AlwaysAttentive | chan_discord/src/call.rs:297-373 | in every reachable state a task's events have a reader exactly as long as a worker has the task, the channel has been answered once for each announcement the worker has read, and no worker goes on after reading of the end |
| SessionWorkers.PreparedExactly | chan_discord_common/src/discord/mod.rs:103-126 | a `PrepareCall` is turned away without a trace, or the guild's events go to a new receiver from now on, held by a new worker; without an encoder the guild stays free |
| SessionWorkers.DispatchedExactly | chan_discord_common/src/discord/mod.rs:134-149 | an event for a guild is put into its live listener's channel, or waits exactly if 32 are queued there; a guild without a live listener is forgotten |
| SessionWorkers.HangUpWaits | chan_discord/src/call.rs:275-288 | the worker of a call with a task that is hung up ends no sooner than the task has returned |
| SessionWorkers.JoinStarts | chan_discord/src/call.rs:229-262 | a join hands the prepared receiver to a new task, which registers its join intent first |
| SessionSafety.TaskHearsItsGuild | chan_discord_common/src/discord/mod.rs:134-149 | a task handles a prefix of its guild's events since the subscription, in order, none lost or doubled |
| SessionSafety.TaskOpensItsGuildsGateway | chan_discord_common/src/discord/voice_task.rs:479-491 | across the whole system a joined task announces itself exactly when its guild's events since the subscription first complete the connect information, and with those values |
| SessionSafety.AnswerOnlyWithKey | chan_discord/src/call.rs:319-322 | the Asterisk channel is answered only for a task whose voice channel has a key |
| GuildRegistry.DiscordInner.ExclusiveServerEvents | chan_discord_common/src/discord/mod.rs:103-126 | the map's update under the lock is the registry's part of a `PrepareCall` step, and the caller is turned away exactly if the protocol refuses |
| GuildRegistry.DiscordInner.HandleEvent | chan_discord_common/src/discord/mod.rs:134-149 | an event is delivered, waits for room, or removes a dead entry just as in a `Dispatch` step |
| GuildRegistry.DiscordInner.FinishEvent | chan_discord_common/src/discord/mod.rs:142-146 | a waiting delivery ends as in an `Unblock` step |
| CallWorkers.CallWorker.ServeRequest | chan_discord/src/call.rs:223-295 | a request changes state, channel and what the peers see as `HandleRequest` says, although the state is moved out of its field meanwhile |
| CallWorkers.CallWorker.RunCall | chan_discord/src/call.rs:333-373 | the worker's loop over any events is exactly `Execute` |
| CallWorkers.AnsweredExactlyOnce | chan_discord/src/call.rs:223-295 | over any run each handled request is answered once and in order, except `FixUp`, which never is; the first join succeeds and no other, a write as the task says if there is one, a hang-up always |
| CallWorkers.MixerHearsEverything | chan_discord/src/call.rs:297-318 | over any run the mixer is given exactly the packets, joins, speaking and leaving events handled, each once and in order |
| CallWorkers.HandledExactly | chan_discord/src/call.rs:333-373 | the events handled are all up to the one that ends the call, but for those of a voice task that was never started |
| CallWorkers.IssuedExactly | chan_discord/src/call.rs:319-373 | over any run the worker issues an answering call per announced connection and a request for every mixed frame, in the order of its events, each for the channel of the latest `FixUp`; then one call to hang up, exactly if the call ended on the other side |
| ChannelOrder.ChannelSeesAMerge | chan_discord/src/queue_thread.rs:44-83 | whoever issues what and however slow the queue thread is, a channel has had all direct calls and the first so many requests, each kind once and in order, in some shuffle; the other requests are pending |
| ChannelOrder.AfterLastCall | chan_discord/src/queue_thread.rs:44-83 | after a channel's last issued write, a direct call, the channel gets exactly the requests pending at the call |
| ChannelOrder.DeliveriesAreTheLoop | chan_discord/src/queue_thread.rs:50-66 | so many single deliveries do what the contract of the queue thread's loop says |
| CallChannels.ChannelSeesTheCall | chan_discord/src/call.rs:319-373 | of what a worker has issued for its channel every frame is on the channel or pending and every answer and hang-up on it, once and in order |
| CallChannels.HangupLastExactly | chan_discord/src/call.rs:368-371 | once all requests for the channel are delivered, the hang-up is the last it has seen exactly if none was pending when it was made; otherwise those come after it |
| CallChannels.FrameAfterHangup | chan_discord/src/call.rs:353-371 | a call that mixes a frame, joins and ends, whose channel sees the frame after the hang-up |
| CallChannels.FrameAfterAnswer | chan_discord/src/call.rs:319-359 | a call whose channel sees an earlier frame after the answer |
| CallWorkers.TaskLifecycle | chan_discord/src/call.rs:229-288 | the voice task is started by the first join, with the prepared receiver, then given every frame written with its timestamp, in order, and told to leave exactly by a hang-up |
| VoiceGateway.GatewayConnection.NextEvent | chan_discord_common/src/discord/voice_gateway.rs:114-148 | a call returns the next event to see, as its own kind and with its own content, having passed on every interval before it and passed over nothing else; it panics on an interval that is no `Duration`, and fails at the end or on a fatal event, which is lost; cancelled while it waits for room for an interval, it loses that interval, and while it waits for events, nothing |
| VoiceGateway.StopsExactly | chan_discord_common/src/discord/voice_gateway.rs:126-141 | a call panics exactly on a Hello whose seconds are negative or 2^64 or more, and fails exactly on an unexpected message, or on any other Hello once the socket task is gone |
| VoiceGateway.GatewayConnection.SeveralCalls | chan_discord_common/src/discord/voice_task.rs:348-356 | over any sequence of calls, cancelled or not, everything there is to see is seen in order, and the intervals passed on are exactly those announced with so many Hello events left out, at most one for each call that had to wait over one |
| VoiceGateway.GatewayConnection.EverythingSeen | chan_discord_common/src/discord/voice_gateway.rs:114-148 | repeated calls show everything to be seen in order, up to the end, or right before the first fatal event, or with a panic right before the first interval out of range |
| VoiceGateway.DeadlineFromHistory | chan_discord_common/src/discord/voice_gateway.rs:166-230 | the heartbeat deadline is the interval in force after the last heartbeat or setting, computed from the history alone |
| VoiceGateway.HeartbeatsSpaced | chan_discord_common/src/discord/voice_gateway.rs:219-229 | no heartbeat follows an earlier heartbeat or setting by less than the interval in force |
| EventQueue.StepKeepsInvariant | chan_discord_common/src/discord/voice_task.rs:329-366 | whichever select branch wins, room and order of the queue are kept |
| EventQueue.EveryPacketOnceInOrder | chan_discord_common/src/discord/voice_task.rs:388-401 | items and permits never exceed 32; while the call listens, what it read, what is queued and what is in hand are exactly the packets decrypted, in order; a dropped queue is empty |
| EventQueue.EveryEventOnceInOrder | chan_discord_common/src/discord/voice_task.rs:329-366 | while the call listens, the other events it read, those queued and those still to be sent are exactly what the other branches had to say, in order |
| EventQueue.PermitExactly | chan_discord_common/src/discord/voice_task.rs:388-401 | a slot stays reserved exactly from the reservation, or a packet that could be decrypted, to the task's next step; an error or another branch gives it back |
| EventQueue.PacketHasItsSlot | chan_discord_common/src/discord/voice_task.rs:315-317 | a decrypted packet can always be forwarded at once |
| EventQueue.WaitsOnlyForTheCall | chan_discord_common/src/discord/voice_task.rs:388-401 | the task waits for room exactly when the queue is full of items, never on account of its own permit, and then the call can read |
| QueueThreads.QueueThread.Run | chan_discord/src/queue_thread.rs:44-73 | the loop delivers every request to its channel, once, in order, and to no other channel |
| QueueThreads.WritesForAppend | chan_discord/src/queue_thread.rs:76-83 | the writes for a channel are those of any two consecutive batches of requests, one after the other |
| LockDiscipline.DeadlockExactly | chan_discord/src/queue_thread.rs:9-26 | in any state there is a wait cycle exactly if a direct call wants a lock whose holder awaits the Discord thread's reply |
| LockDiscipline.NoDeadlockWithoutDirectCalls | chan_discord/src/queue_thread.rs:24-26 | if every write goes through the queue thread, no reachable state has a wait cycle |
| LockDiscipline.DirectCallDeadlocks | chan_discord/src/call.rs:319-322 | a reachable state with a wait cycle, by the schedule the queue thread is meant to exclude |
| LockDiscipline.KnottedForGood | chan_discord/src/queue_thread.rs:12-22 | no step of any thread ever undoes such a cycle |
| LockDiscipline.RequestsAreStreamed | chan_discord/src/queue_thread.rs:50-66 | whatever any thread does, what is written, being written and waiting is what was requested, in order |
| LockDiscipline.WorkFinishesExactly | chan_discord/src/queue_thread.rs:9-26 | from any state, direct calls under way included, any schedule of the work at hand gets stuck within a bounded number of steps, and then all of it is done if and only if there was no such cycle |
| LockDiscipline.WorkAlwaysFinishes | chan_discord/src/queue_thread.rs:24-26 | without direct calls every schedule of the work at hand takes the same number of steps; when nobody can go on, every reply has come and every write was made in the order requested |
| Crypto.VoiceEncryption.EncryptPacket | chan_discord_common/src/discord/crypto.rs:59-115 | sealing in place leaves header, tag, ciphertext and suffix as `Wire` lays them out, keeps the header, and moves the Lite counter on |
| Crypto.VoiceDecryption.ExtractNonce | chan_discord_common/src/discord/crypto.rs:128-147 | where nonce and body lie, and exactly when the body is too short |
| Crypto.VoiceDecryption.DecryptPacket | chan_discord_common/src/discord/crypto.rs:149-175 | opening in place has the outcome and leaves the buffer of `Open` |
| Crypto.NonceBytes | chan_discord_common/src/discord/crypto.rs:64-104 | byte by byte: a Normal nonce is the header and then zeros, a Suffix nonce the random bytes, a Lite nonce the counter, most significant byte first, and then zeros |
| Crypto.SealedAs | chan_discord_common/src/discord/crypto.rs:59-115 | a packet on the wire is the header, the tag and the ciphertext the cipher makes of the payload under exactly that nonce, and then none, all 24 or the first four of its bytes |
| Crypto.OpenedAs | chan_discord_common/src/discord/crypto.rs:128-175 | which bytes of a received packet the cipher is asked to open, under which nonce byte by byte, and where the answer goes |
| DataChannel.VoiceDataChannel.SendVoice | chan_discord_common/src/discord/rtp.rs:116-145 | the sequence number moves on whatever happens; with a key the datagram is the sealed header and payload, and the reused buffer's CSRC count stays 0 |
| DataChannel.VoiceDataChannel.ReceivePacket | chan_discord_common/src/discord/rtp.rs:147-189 | truncation, demultiplexing, opening and the two drains together are `ReceivedFrom` |
| DataChannel.OpenUndoesWire | chan_discord_common/src/discord/crypto.rs:59-175 | opening undoes sealing for all modes, headers up to a nonce long, payloads, counters and random bytes |
| DataChannel.HeaderFields | chan_discord_common/src/discord/rtp.rs:116-134 | a stamped header has CSRC count 0 and gives back sequence number, timestamp and SSRC |
| DataChannel.HeaderBits | chan_discord_common/src/discord/rtp.rs:126-134 | the stamped header bit by bit: version 2, no padding, extension or marker, no sources, payload type 120, and the three numbers with their most significant bytes first |
| DataChannel.SentIsReceived | chan_discord_common/src/discord/rtp.rs:116-189 | what one side sends, a side with the same key receives: the same fields, the payload at 28 up to its end, the header unchanged |
| DataChannel.ReceivedFields | chan_discord_common/src/discord/rtp.rs:147-171 | a received packet's fields are read from its header, most significant bytes first, and its payload lies behind the sources it counts and the tag, and before the nonce bytes of the mode |
| DataChannel.RtcpIsHeaderAndPlaintext | chan_discord_common/src/discord/rtp.rs:171-181 | an RTCP packet comes out as exactly its header followed by its plaintext |
| DataChannel.ReceivingPanicsExactlyOnLongHeader | chan_discord_common/src/discord/crypto.rs:128-147 | receiving panics exactly in Normal mode with a header longer than the nonce |
| DataChannel.LongHeaderPanics | chan_discord_common/src/discord/crypto.rs:128-147 | a packet of 72 bytes with fifteen contributing sources does so |
| DataChannel.PacketSizes | chan_discord_common/src/constants.rs:14-16 | every permitted payload fits in every mode and makes a packet of at most 1450 bytes |
| DataChannel.NothingTruncated | chan_discord_common/src/discord/rtp.rs:147-150 | a datagram is received whole exactly if it has at most 1460 bytes, so every permitted packet is |
| Extensions.SkipOverExtensions | chan_discord_common/src/utils/rtp.rs:3-26 | the cursor's walk finds the closed form: a suffix of the payload, or nothing |
| Extensions.ExtensionSkipped | chan_discord_common/src/utils/rtp.rs:3-26 | skipping takes marker, length and words off and leaves the rest |
| Extensions.SkippedExactly | chan_discord_common/src/utils/rtp.rs:3-26 | what is skipped is nothing, for a payload that does not begin an extension, or exactly the extension in front |
| Extensions.RefusedExactly | chan_discord_common/src/utils/rtp.rs:3-26 | a payload is refused exactly if it is empty or begins an extension it does not hold in full |
| Extensions.OpusRecovered | chan_discord/src/rtp_receiver.rs:238-246 | sealed with an extension, sent and received, a packet gives back exactly the Opus bytes |
| Extensions.PlainOpusRecoveredExactly | chan_discord/src/rtp_receiver.rs:238-246 | sealed without an extension, sent and received, exactly the Opus bytes are handed on if and only if they do not look like the beginning of one |
| Counters.CallHandle.WriteFrame | chan_discord/src/call.rs:111-126 | the timestamp moves on by 960 whatever happens; a request goes out exactly if encoding succeeds, with the timestamp before |
| Counters.StampsOfCall | chan_discord_common/src/discord/rtp.rs:117-132 | the k-th frame carries timestamp t0 + 960 k modulo 2^32, the j-th attempt sequence number s0 + j modulo 2^16 |
| Counters.OrderOf960 | chan_discord_common/src/constants.rs:9 | 960 d wraps to 0 modulo 2^32 exactly if 2^26 divides d |
| Counters.StampsRepeatExactly | chan_discord/src/call.rs:111-126 | two attempts of a call are stamped alike exactly if the frames are a multiple of 2^26 and the attempts a multiple of 2^16 apart |
| Counters.NormalNoncesRepeatExactly | chan_discord_common/src/discord/crypto.rs:64-103 | Normal-mode nonces repeat exactly then |
| Counters.NormalNoncesDistinct | chan_discord_common/src/discord/crypto.rs:64-103 | frames less than 2^26 apart never share a nonce |
| Counters.LiteNoncesRepeatExactly | chan_discord_common/src/discord/crypto.rs:64-103 | Lite-mode nonces of one encryption repeat exactly a multiple of 2^32 packets apart |
| OutgoingCall.PacketsUseStamps | chan_discord_common/src/discord/rtp.rs:117-132 | the closed form of a call's packets uses the stamps the two counters hand out |
| OutgoingCall.TalkingSendsPackets | chan_discord_common/src/discord/rtp.rs:116-145 | stepping all three counters frame by frame sends exactly the packets given in closed form |
| OutgoingCall.Talk | chan_discord/src/call.rs:111-126 | write callback and data channel together, over a whole call, put exactly those packets on the wire |
| Samples.Monoize | chan_discord/src/rtp_receiver.rs:257-268 | the overwriting loop leaves the pairwise rounded-up averages of the original samples, and the rest of the buffer alone |
| Samples.AverageCeil | chan_discord/src/rtp_receiver.rs:261-267 | a mono sample is half the sum, rounded up, and lies between its two inputs |
| Samples.Mix | chan_discord/src/rtp_receiver.rs:185-191 | mixing succeeds exactly for frames of one length, and every sample is then the saturating fold of its column |
| Samples.MixedExactly | chan_discord/src/rtp_receiver.rs:187-191 | the mix is the exact sum if neither sign's total leaves the range, and the clamped sum if all samples share a sign |
| Samples.OrderIrrelevantExactly | chan_discord/src/rtp_receiver.rs:150-191 | the mix is the same for every visiting order exactly in those cases |
| Samples.MixIsLipschitz | chan_discord/src/rtp_receiver.rs:187-191 | changing one sample by d changes the mix by at most d |
| Samples.TimestampExact | chan_discord/src/rtp_receiver.rs:277-288 | the jitter timestamp is the true sample offset in milliseconds exactly for offsets within one cycle of 2^32, whatever wrapped |
| Samples.TimestampsContiguous | chan_discord/src/rtp_receiver.rs:269-288 | adjacent frames meet within a millisecond, and without a gap if 48 divides the length; times are monotone and fit an i64 |
| Samples.ContiguousExactly | chan_discord/src/rtp_receiver.rs:269-288 | frames of one length meet without a gap at every offset exactly if 48 divides the length |
| JitterBuffers.DueExactly | asterisk/src/jitterbuffer.rs:134-145 | a frame's instant has come exactly when the floored clock given to the buffer has reached its time |
| JitterBuffers.JitterBuffer.Put | asterisk/src/jitterbuffer.rs:91-131 | for each of the three codes the library's put returns, OK, SCHED and DROP, the box is in the queue or handed back, and the next time moves on SCHED only; the library is given the frame with the buffer's own clock |
| JitterBuffers.JitterBuffer.Get | asterisk/src/jitterbuffer.rs:75-89 | the library is asked with the buffer's own clock and the expected length; for every return code either the oldest frame comes out as a box or the queue is as before, and the result stands for that code |
| JitterBuffers.JitterBuffer.DropBuffer | asterisk/src/jitterbuffer.rs:175-184 | the draining destructor ends with every queued payload freed once |
| JitterBuffers.JitterBuffer.TakeFrame | chan_discord/src/rtp_receiver.rs:156-174 | the drop-and-retry loop ends, having freed exactly the frames the buffer answered DROP for, asking with the same clock and length each time; its first other answer ends the turn |
| Ownership.ExactlyOnePlace | asterisk/src/jitterbuffer.rs:91-131 | a payload on the books is at one index of one queue if queued, and in no queue otherwise |
| Ownership.OwnedAfterPut | asterisk/src/jitterbuffer.rs:91-131 | booking a new payload as queued keeps books and queues in agreement |
| Ownership.OwnedAfterTaking | asterisk/src/jitterbuffer.rs:156-184 | so does taking oldest frames out for good |
| ReceiverState.MappingKeepsFit | chan_discord/src/rtp_receiver.rs:86-105 | mapping a user, mapped elsewhere before or not, to a new SSRC keeps the three map clauses |
| ReceiverState.UnmappingKeepsFit | chan_discord/src/rtp_receiver.rs:107-117 | so does unmapping |
| ReceiverState.RescheduleKeepsBoundExactly | chan_discord/src/rtp_receiver.rs:290-303 | re-scheduling keeps the remembered time a lower bound exactly unless it moves the remembered participant past another one |
| RtpReceivers.RtpReceiver.MapUserId | chan_discord/src/rtp_receiver.rs:86-105 | an occupied SSRC changes nothing; the invariants and the time bound are kept |
| RtpReceivers.RtpReceiver.UnmapUserId | chan_discord/src/rtp_receiver.rs:107-117 | the participant goes, its queued payloads are freed, the remembered time goes with it; invariants and bound are kept |
| RtpReceivers.RtpReceiver.NextFrameTime | chan_discord/src/rtp_receiver.rs:119-138 | the remembered time, or the least of all participants' next times, found and remembered |
| RtpReceivers.RtpReceiver.TakeFrames | chan_discord/src/rtp_receiver.rs:150-179 | in any visiting order every participant with a buffer has one turn: some dropped frames, at most one played, the rest due no earlier, nothing else about it changed |
| RtpReceivers.RtpReceiver.FetchPacket | chan_discord/src/rtp_receiver.rs:141-225 | a fetch is a step of `FetchStep`: a remembered time stays, it says to come back later exactly if that is ahead, and otherwise it gives everybody a turn and mixes exactly the frames played, panicking if they differ in length; every buffer is asked with its own clock and the length last stored for it |
| RtpReceivers.RtpReceiver.MixedPacket | chan_discord/src/call.rs:192-207 | the waiting loop fetches twice at most, sleeps once at most, and ends as its last fetch says |
| RtpReceivers.RtpReceiver.Store | chan_discord/src/rtp_receiver.rs:269-288 | the payload, with its duration and time since the participant's first packet, ends up queued or freed, and is booked so; the buffer's clock is read at the same instant |
| RtpReceivers.RtpReceiver.HandlePacket | chan_discord/src/rtp_receiver.rs:227-314 | a packet is a step of `PacketStep`: ignored exactly if no samples come of it, otherwise stored and booked; the bound survives exactly unless it overtakes |
| RtpReceivers.RtpReceiver.Serve | chan_discord/src/rtp_receiver.rs:86-314 | any calls, up to a panic, make a run, which is returned; no payload is lost and none mixed twice; starting bounded, the bound holds at every state exactly if no packet of the run overtakes |
| RtpReceivers.RtpReceiver.DropReceiver | asterisk/src/jitterbuffer.rs:175-184 | dropping the receiver drains every buffer |
| RtpReceivers.WholeCall | chan_discord/src/rtp_receiver.rs:69-314 | from a new receiver to its end, every payload boxed was mixed once or freed; no panic if all decoders report one count |
| ReceiverRuns.StepKeepsWellFormed | chan_discord/src/rtp_receiver.rs:86-314 | every step keeps the map clauses and the books |
| ReceiverTimes.CountsFromFirst | chan_discord/src/rtp_receiver.rs:272-278 | over any run from a new receiver a participant's time, and its buffer's clock, count from the first packet stored for it since its user was last unmapped |
| ReceiverTimes.BoxedAtTrueOffset | chan_discord/src/rtp_receiver.rs:269-288 | over any such run, a packet x samples after that one, x less than 2^32, that is not refused is boxed with its samples, their length and time x / 48 ms, and queued |
| ReceiverTimes.LengthIsTheLast | chan_discord/src/rtp_receiver.rs:266-269 | over any such run the length a buffer is asked with is that of the last packet stored, 20 ms before the first |
| ReceiverTimes.SentIsHeard | chan_discord/src/rtp_receiver.rs:238-266 | a packet sealed, sent and received is heard as the mono samples the decoder makes of exactly the Opus bytes sealed, if they do not look like an extension |
| ReceiverTimes.ExtendedIsHeard | chan_discord/src/rtp_receiver.rs:238-266 | the same behind any header extension |
| ReceiverRuns.LateExactly | chan_discord/src/rtp_receiver.rs:290-303 | after a step somebody's next frame is due before the remembered time exactly if the step is a packet that overtakes it, or it was so before and the step does not help: by unmapping it or the remembered participant, by a fetch that delays it, or by a packet scheduled no later |
| ReceiverRuns.LateOverRun | chan_discord/src/rtp_receiver.rs:119-148 | over any run a participant is late exactly since a packet that overtook it and that nothing has made up for |
| ReceiverRuns.BoundOverRun | chan_discord/src/rtp_receiver.rs:119-148 | over any run that starts bounded, the remembered time bounds every next frame's time at every state exactly if no packet overtakes |
| ReceiverRuns.NoFrameDueBefore | chan_discord/src/rtp_receiver.rs:141-148 | told to come back while the bound holds: no frame is due by now, or before the time told |
| ReceiverWitnesses.OvertakingHappens | chan_discord/src/rtp_receiver.rs:296-299 | a run from a new receiver in which a packet overtakes, and a fetch then says to come back at 30 ms while a queued frame is due at 20 ms |
| ReceiverRuns.NeverToldAgain | chan_discord/src/rtp_receiver.rs:119-148 | after a fetch that is not told to come back, no later fetch is, until a packet comes or the remembered participant goes |
| ReceiverFetches.RoundPossible | chan_discord/src/rtp_receiver.rs:150-179 | whichever buffers are to play whichever of their frames, some answers give exactly that round, with the books in order and nobody's time moved |
| ReceiverFetches.NoneQueuedExactly | chan_discord/src/rtp_receiver.rs:141-184 | after a fetch: it says that nothing is queued exactly if nothing is scheduled, or the time is reached and no buffer's last answer is a frame |
| ReceiverFetches.StrandedExactly | chan_discord/src/call.rs:202-204 | before a fetch: some answers of the buffers make it wait for nothing although a frame is scheduled afterwards, exactly if one is scheduled and the time is reached |
| ReceiverWitnesses.StrandingHappens | chan_discord/src/call.rs:202-204 | a run with frames due at 40 and 60 ms in which the second is slept past |
| ReceiverFetches.MayPanicExactly | chan_discord/src/rtp_receiver.rs:141-191 | before a fetch: some answers of the buffers make it panic exactly if two participants have frames of different lengths queued and the time is reached: the remembered one, or the earliest scheduled if none is remembered |
| ReceiverRuns.OneCountNeverPanics | chan_discord/src/rtp_receiver.rs:256-268 | over any run, if every decoder reports one count, no fetch panics |
| ReceiverWitnesses.DifferentCountsPanic | chan_discord/src/rtp_receiver.rs:185-191 | a run with counts of 480 and 960 that panics |
| ReceiverRuns.MixedOnceOverRun | chan_discord/src/rtp_receiver.rs:150-179 | over any run nothing boxed is forgotten and exactly what was taken is mixed, once |
| ReceiverRuns.RemovableExactly | chan_discord/src/rtp_receiver.rs:107-117 | some event removes a participant exactly if some user is mapped to it |
| ReceiverRuns.OrphanedExactly | chan_discord/src/rtp_receiver.rs:86-117 | a step leaves a participant without a user exactly if it had none before, or the step maps its user to an SSRC nobody had |
| ReceiverRuns.OrphanForever | chan_discord/src/rtp_receiver.rs:86-314 | over any run such a participant stays |
| ReceiverWitnesses.OrphanHappens | chan_discord/src/rtp_receiver.rs:86-117 | a user who moves from SSRC 1 to SSRC 2 and leaves: participant 1 is still there |
| ReceiverRuns.NothingLeaks | asterisk/src/jitterbuffer.rs:175-184 | once no participant is left, everything ever boxed was mixed or freed |
| DialString.ParseU64 | chan_discord/src/call.rs:77-78 | the checked digit loop computes exactly the number a string denotes, or nothing |
| DialString.NumberExactly | chan_discord/src/call.rs:77-78 | a positive number is denoted by exactly an optional plus, zeros and its decimal form |
| DialString.SplitThenJoin | chan_discord/src/call.rs:76 | splitting at slashes loses nothing and leaves no slash |
| DialString.JoinThenSplit | chan_discord/src/call.rs:76 | and undoes joining slash-free parts |
| DialString.RecognisedExactly | chan_discord/src/call.rs:73-86 | a pair of nonzero ids is recognised in exactly the strings that spell it |
| DialString.DialStringRoundTrip | chan_discord/src/call.rs:73-86 | printing and parsing gives back every pair of nonzero ids |
| DialString.PanicsExactly | chan_discord/src/call.rs:77-78 | parsing panics exactly if the first part is a zero, or a proper id is followed by a zero, whatever comes after |
| DialString.ZeroGuildHappens | chan_discord/src/call.rs:77 | "0/1" does so |
| DialString.ZeroChannelHappens | chan_discord/src/call.rs:78 | so does "1/0/x", although its third part would be rejected |

## Left out

- Asterisk's C side: formats, configuration, logging, module loading and the channel driver's callbacks appear only as locks, queued writes and requests.
- XSalsa20-Poly1305: the cipher is any pair of functions that obeys the decryption law; nothing is said about Suffix-mode nonces being distinct.
- The Opus codec: the decoder may return an error or any samples, at most 960 per channel; the encoder any payload up to its limit.
- Sockets, TLS, JSON, the HTTP client, IP discovery, the packet log and logging.
- The Discord thread's `Setup` and `Stop` requests, and the request channel's own errors: a requester only sees its answer, or an error once the other side is gone.
- Parsing of RTCP: the header's length is the demultiplexer's to say.
- Liveness of a worker and its voice task: the task may wait for room in the event queue while the worker awaits its reply. `LockDiscipline` assumes that the Discord thread's replies come when it is not writing itself, and that Asterisk's threads hold one channel lock at a time and let go of it.
- The bounded channels of the gateway: how long a send waits, and what the socket task does meanwhile. The `Closed` event that the socket task's wrapper creates but never awaits is absent, as in the code.
- The gateway's timers: only the deadline variable is modelled. The voice task's runs do not name heartbeats.
- `Session` lets a voice task see any gateway event, request or packet at any time, which covers more than the real sources produce.
- JitterBuffers.JitterBuffer.JbPut: may answer OK, SCHED or DROP; other codes are not produced by the library's put.
- A participant owns its jitter buffer by value in the map; a call borrows it as an object and writes it back, so aliasing of buffers is not modelled.
- `CallWorkers` keeps a log for each peer, so the order between a reply and a voice-task action is not recorded.
- `ChannelOrder` knows the writes this driver issues; what Asterisk itself queues on a channel in between is not in it.
- Heartbeat intervals and instants are real numbers: neither the rounding of `f64` and `Duration` nor the clock's own range, beyond which adding an interval to the current instant panics in the socket task, is modelled.
- Strings in dial addresses are sequences of characters; input that is not UTF-8, which is rejected, does not occur.
