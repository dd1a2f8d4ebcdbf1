# Gocalis: verified models of the speech proxy's hard parts

Gocalis is a speech proxy: it takes turns on audio devices, plays synthesized speech over
WebRTC, receives a microphone over RTP and records what a user says. This Dafny project
models the small concurrent, streaming and arithmetic components behind that, and proves
what they promise. `dafny verify dfyconfig.toml` checks everything.

| file | component |
|---|---|
| `WaiterHeap.dfy`, `TurnQueue.dfy` | the turn scheduler: indexed heap, monitor, protocol of callers |
| `WorkQueue.dfy` | the array-scan queue of the model workers, and its agreement with the heap |
| `JitterWindow.dfy`, `PacketWindows.dfy` | the receive window, on unbounded numbers and on 16-bit sequence numbers |
| `FaultInjection.dfy`, `FaultSchedule.dfy` | the simulator's disturbance, and when exactly each packet leaves it |
| `DisorderComposition.dfy`, `Transmission.dfy` | that the window undoes the disturbance, and the two objects connected |
| `CaptureEpoch.dfy`, `RemoteTrack.dfy`, `RemoteTimeline.dfy` | epochs, decode loop and gap concealment of the receive path |
| `Resampler.dfy`, `PerChunkResampling.dfy` | streaming and whole-clip resampling, and the path that resamples per chunk |
| `Framing.dfy`, `Talkback.dfy` | framing and paced delivery of an utterance |
| `SpeechStream.dfy` | the bounded PCM buffer between synthesis and playback |
| `Session.dfy` | capture of a turn: pre-roll, onset, barge-in, truncation, and the ask flow around it |
| `NodeDispatch.dfy` | ordered delivery of node state transitions |
| `Wav.dfy` | the WAV codec |
| `Basics.dfy`, `Arithmetic.dfy` | shared data types, and facts about division |

## How the models are built

Concurrent components appear twice. A class holds the fields behind the mutex; its methods
are the critical sections, loops included, and are proved against functions on the fields'
values. A transition system whose steps are those same functions lets callers, wake-ups,
cancellation and shutdown interleave in any order, and the main results hold of every run
of it. A wait on a condition variable is a parked thread; a broadcast makes every parked
thread contend for the lock again; a signal picks any one of them. Cancelling a context and
the goroutine that broadcasts because of it are separate steps.

The streaming components are classes proved against a reference on whole inputs: the
whole-clip resampling, the blocks of a whole clip, the capture of a whole microphone trace,
the ideal jitter window on unbounded packet numbers.

Samples are integers. Interpolation is exact rational arithmetic with Go's truncation
toward zero. 16-bit and 32-bit wrap-around is written out where the code relies on it:
sequence numbers, RTP timestamps, WAV header fields. Times are integers in nanoseconds,
supplied by the caller. The Opus codec, the track, the network and the context package's
internals appear as parameters and events.

## Where the obvious claim is false

- `packetWindow.push` decides `force` once, after insertion, and the flag stays set across
  deliveries until one gap has been skipped. When the fourth packet held fills the gap, the
  next gap is skipped at once (`ForceOutlivesItsGap`); `SkipsEarlyIff` says exactly when.
- A stream's terminal error can be overwritten: `push` stores its size error without looking
  at `done` (`EndOverwritten`); `ErrorKeptIff` says exactly when a step keeps the error. It
  takes a push after a finish, which the only caller (internal/ai/speech.go:507-519) never
  makes: it finishes once generation has returned, in the same goroutine. Under that
  discipline a terminal result is final (`EndIsFinal`, `EndsAgree`).
- `playSession.push` resamples every chunk as a clip of its own. `ChunkingInaudibleIff` says
  exactly which lists of chunk lengths go unheard, for all samples; when upsampling, no clip
  in two or more nonempty chunks does (`UpsampledChunksHeard`).
- A barge-in capture starts with the trigger chunk exactly when no pre-roll is left from an
  earlier capture without speech (`TriggerFirstIff`, `StalePreRoll`). The ask flow never
  gets there (`AskKeepsTrigger`).
- After an Opus decode error, concealment that preceded the failed packet is issued again
  (`FailedDecodeRepeats`). The timeline is exact up to the shortfall exactly when no packet
  fails to decode 2.5 ms or more after the end of what was last heard with concealment
  working (`OpusExactIff`); otherwise it is off by exactly what was concealed in vain
  (`OpusBalance`).
- WAV round trips hold exactly within the 32-bit fields of the format (`RoundTripIff`).

Code and documentation disagree in one place: the comments of internal/webrtc/talkback.go
speak of 20 ms frames, while `frameMs` is 10 and a frame has 480 samples. The model follows
the code.

## Model

| member | source | states |
|---|---|---|
| WaiterHeap.WaiterPQ.Swap | internal/brain/queue.go:111-115 | exchanging two waiters keeps every waiter's `index` equal to its position |
| WaiterHeap.WaiterPQ.Push | internal/brain/queue.go:51 | heap.Push over the indexed slice: the waiter joins, heap order and back-pointers hold again |
| WaiterHeap.WaiterPQ.Pop | internal/brain/queue.go:74 | heap.Pop: exactly the root leaves, with index -1, and heap order and back-pointers hold again |
| WaiterHeap.WaiterPQ.Remove | internal/brain/queue.go:66-68 | heap.Remove: exactly the waiter at that index leaves, wherever it stands, and heap order and back-pointers hold again |
| WaiterHeap.WaiterPQ.Up | internal/brain/queue.go:104-115 | sift-up repairs the one position that may be ahead of its parent and permutes only the heap part |
| WaiterHeap.WaiterPQ.Down | internal/brain/queue.go:104-115 | sift-down fills the hole at its start and reports truthfully whether it moved anything |
| WaiterHeap.RootIsFirst | internal/brain/queue.go:104-109 | heap order puts nobody ahead of the root |
| TurnQueue.RootIsBest | internal/brain/queue.go:73 | `pq[0] == w` holds for exactly one waiter: the one of highest priority and, within it, earliest arrival |
| TurnQueue.NodeQueue.Enter | internal/brain/queue.go:38-51 | a caller is refused exactly when the queue is closed or 32 wait, and otherwise queued with the next arrival number |
| TurnQueue.NodeQueue.Pass | internal/brain/queue.go:61-89 | one pass of the wait loop over the real heap: it fails exactly when cancelled or closed, otherwise owns the node exactly when that is free and the caller at the root, and otherwise parks |
| TurnQueue.NodeQueue.Withdraw | internal/brain/queue.go:66-69 | a failing caller leaves the heap from wherever it stands, and everybody is woken |
| TurnQueue.NodeQueue.Own | internal/brain/queue.go:73-76 | the caller at the root leaves the heap and the node is busy |
| TurnQueue.NodeQueue.Wake | internal/brain/queue.go:54-58 | the cancellation callback wakes every parked waiter and changes nothing else |
| TurnQueue.NodeQueue.Close | internal/brain/queue.go:133-138 | close stops admission and wakes everybody |
| TurnQueue.Turn.Release | internal/brain/queue.go:78-86 | the first call of a release closure frees the node, later calls change nothing |
| TurnQueue.StepInv | internal/brain/queue.go:38-90 | every interleaved step keeps mutual exclusion, distinct arrivals, the bound of 32 and the wake-up conditions |
| TurnQueue.OneTurnAtATime | internal/brain/queue.go:73-86 | in every run at most one turn is out, `busy` holds exactly when one is, and a stale release frees nobody's node |
| TurnQueue.NoLostWakeup | internal/brain/queue.go:61-88 | in every run a free open node with waiters has its best waiter awake, and after close nobody sleeps |
| TurnQueue.OvertakenOnlyByHigher | internal/brain/queue.go:99-109 | over any stretch of a run a waiter is overtaken by later arrivals only of strictly higher priority |
| TurnQueue.GrantsGoToBest | internal/brain/queue.go:61-77 | every grant of every run goes to the maximum by priority, then arrival, of all queued waiters, on a free open node, to a live context, and takes that waiter off the queue |
| TurnQueue.BestIsServed | internal/brain/queue.go:61-77 | in every run the best waiter of a free open node, if not cancelled, can take its pass, and that pass gives it the node |
| TurnQueue.LeavesForCause | internal/brain/queue.go:62-77 | in every run a waiter leaves the queue only with the node, or cancelled, or because the queue is closed |
| TurnQueue.AdmittedWhenRoom | internal/brain/queue.go:38-51 | in every run a caller joins, under a new arrival number, exactly when the queue is open and fewer than 32 wait |
| TurnQueue.NoGrantAfterClose | internal/brain/queue.go:62-72 | after close no turn is granted, in any run |
| TurnQueue.PassesFall | internal/brain/queue.go:61-89 | every pass of an awake waiter lowers a bound on the passes still possible |
| TurnQueue.PassesEnd | internal/brain/queue.go:61-89 | waiters left alone come to rest after a bounded number of passes |
| WorkQueue.Queue.Push | internal/workqueue/queue.go:33-57 | context error first, then closed; otherwise the live entries remain, in order, and the new one is appended unless the queue is then still full |
| WorkQueue.Queue.Compact | internal/workqueue/queue.go:42-50 | the in-place compaction leaves exactly the live entries and clears every slot behind them |
| WorkQueue.Queue.Pop | internal/workqueue/queue.go:59-80 | scan and shift return the pick and leave the others in order, with the freed slot cleared; a closed queue returns nothing |
| WorkQueue.Queue.Close | internal/workqueue/queue.go:84-90 | closing releases all entries |
| WorkQueue.LiveKeepsOrder | internal/workqueue/queue.go:43-50 | what compaction keeps is a subsequence, in order |
| WorkQueue.KeptIff | internal/workqueue/queue.go:44-48 | an entry is kept exactly when its context is not done |
| WorkQueue.Pick | internal/workqueue/queue.go:69-74 | the scan finds the first entry of highest priority |
| WorkQueue.PopAllSorts | internal/workqueue/queue.go:69-79 | popping an open queue to empty yields the stable sort of its entries by descending priority |
| WorkQueue.StableSortUnique | internal/workqueue/queue.go:69-79 | there is only one such order |
| WorkQueue.SameChoice | internal/brain/queue.go:104-109 | on the same arrivals the array scan and the turn queue's order choose the same entry |
| WorkQueue.EveryEntryHasAConsumer | internal/workqueue/queue.go:33-90 | in every interleaving one Signal per Push suffices: while somebody sleeps, as many are awake as there are entries; after Close nobody sleeps; the length stays within capacity |
| JitterWindow.DrainStep | internal/webrtc/jitter.go:35-63 | one drain leaves nothing deliverable, advances `next` by what it delivers or counts lost, and loses exactly when it skips |
| JitterWindow.PushLosesIff | internal/webrtc/jitter.go:32-60 | an accepted arrival gives up on a gap exactly when packets remain behind one and either four are held or that gap has been open 40 ms |
| JitterWindow.RefusedIff | internal/webrtc/jitter.go:24-34 | an arrival is refused exactly when behind `next` or already held, changing nothing else; every other one is handed out at once or held |
| JitterWindow.TimerIs | internal/webrtc/jitter.go:45-59 | a gap counts as open since the call that first found packets behind it, and no gap is timed while nothing is held |
| JitterWindow.RunAccounted | internal/webrtc/jitter.go:18-63 | over every run output is strictly increasing, delivered, held and rejected are together the arrivals, `next` minus the first number is delivered plus lost, and at most three packets stay held |
| JitterWindow.DisorderUndone | internal/webrtc/jitter.go:33-62 | arrivals that permute consecutive numbers from the smallest, never with four held or a gap open 40 ms, come out sorted and complete |
| JitterWindow.ForceOutlivesItsGap | internal/webrtc/jitter.go:33-60 | a gap-filling fourth packet makes the next gap be skipped at once |
| JitterWindow.SkipsEarlyIff | internal/webrtc/jitter.go:33-60 | a gap is skipped early exactly when three packets were held, the arrival is the one waited for, and a further gap follows |
| PacketWindows.UnwrapExactIff | internal/webrtc/jitter.go:24 | 16 bits identify a packet number exactly when it lies in [-32768, 32767] of `next` |
| PacketWindows.Nearest | internal/webrtc/jitter.go:51-56 | the scan over the map finds the distance to the smallest number held, across the wrap |
| PacketWindows.PacketWindow.Push | internal/webrtc/jitter.go:18-34 | a push on 16-bit numbers is the push of the ideal window for the number those bits stand for, with the same output |
| PacketWindows.PacketWindow.Deliver | internal/webrtc/jitter.go:38-43 | the packet waited for is taken out and `next` moves on by one, across the wrap |
| PacketWindows.PacketWindow.Skip | internal/webrtc/jitter.go:51-59 | `next` jumps to the nearest packet held and the distance is counted lost |
| PacketWindows.PacketWindow.Drain | internal/webrtc/jitter.go:35-63 | the drain loop on 16-bit numbers delivers exactly what the ideal drain delivers |
| PacketWindows.PacketWindow.Tick | internal/webrtc/client.go:907 | a timed drain, also of a window that has seen no packet, is the ideal one |
| FaultInjection.FaultInjector.Push | tools/simulator/faults.go:23-54 | the in-place filter and append emit and keep what the step specifies; `FaultSchedule.Disturb` says what that is over whole runs |
| FaultSchedule.Disturb | tools/simulator/faults.go:23-54 | the injector object, for every specification and stream, drops included, emits at each tick exactly the packets the schedule lets leave then, in order |
| FaultSchedule.LeavesWhen | tools/simulator/faults.go:38-46 | the schedule: a packet leaves at the end of the burst it falls into, or at its own tick, a reordered one not before two ticks later |
| FaultSchedule.LastStartIs | tools/simulator/faults.go:39-41 | without drops the last burst began at the last multiple of BurstEvery |
| FaultSchedule.NeverLeavesIff | tools/simulator/faults.go:35-37 | a packet never leaves exactly when its tick is a multiple of DropEvery |
| FaultSchedule.LeaversIff | tools/simulator/faults.go:26-53 | what leaves at a tick are exactly the packets not dropped and due then |
| FaultSchedule.LeaversInOrder | tools/simulator/faults.go:26-33 | packets that leave at the same tick leave in order |
| FaultSchedule.PushFollows | tools/simulator/faults.go:23-54 | one push takes the injector from the schedule after n ticks to the schedule after n + 1 |
| FaultInjection.TickInStep | tools/simulator/faults.go:26-53 | without drops a tick releases a prefix of what is pending, and a packet leaving at once overtakes at most the one before it |
| FaultInjection.TickOvertaken | tools/simulator/faults.go:26-53 | an overtaken packet leaves at the next tick |
| FaultInjection.HeldBound | tools/simulator/faults.go:39-50 | at most max(BurstFrames, 2) packets are held |
| FaultInjection.NothingVanishes | tools/simulator/faults.go:26-53 | without drops every packet is emitted or still pending |
| DisorderComposition.OrderRestored | tools/simulator/faults.go:23-54 | for every specification without drops, any stream and any drains inside the 20 ms ticks, the window hands on the stream in its original order with nothing lost or rejected; the manifest rule is not needed |
| DisorderComposition.OrderRestoredOn16Bits | internal/webrtc/jitter.go:18-63 | what the 16-bit window hands on is a prefix of the stream itself, across any number of wraps, with nothing lost or rejected; the rest is at most one packet in the window and max(BurstFrames, 2) in the injector |
| DisorderComposition.NearRunsAgree | internal/webrtc/jitter.go:24-34 | while every arrival is near `next`, the 16-bit run and the unbounded run coincide in state and in the packets they hand on |
| DisorderComposition.PromptSchedule | tools/simulator/engine.go:297 | every specification and stream has a schedule of the kind the composition theorem speaks about |
| Transmission.Receive | internal/webrtc/client.go:887-907 | the window object receives the packets of a tick at any times of it, with any drains in between, as the 16-bit run |
| Transmission.Forward | tools/simulator/engine.go:297 | one tick of injector and window objects follows the run |
| Transmission.Transmit | tools/simulator/faults.go:23-54 | the injector object and the 16-bit window object connected restore any stream, for every specification without drops and every timing within the ticks |
| CaptureEpoch.NoStaleAudio | internal/webrtc/client.go:876-909 | in every interleaving window and batch hold only packets of the loop's epoch, every callback carries only audio of the epoch current at that call, and at most 32 packets queue |
| CaptureEpoch.ResetIsFinal | internal/webrtc/client.go:946-972 | ResetCapture joins the active callback, and afterwards only packets tagged after it are delivered |
| CaptureEpoch.StepKeeps | internal/webrtc/client.go:822-936 | every step of reader, decoder loop and ResetCapture keeps the loop on one epoch and its calls honest |
| CaptureEpoch.CurrentAudioHeard | internal/webrtc/client.go:825-864 | in every run, while the loop's epoch is current, each decoded packet and each concealed piece reaches the callback; otherwise nothing does |
| CaptureEpoch.AdmittedIffCurrent | internal/webrtc/client.go:887-898 | a received packet goes into its epoch's window exactly when that epoch is current |
| CaptureEpoch.QueueIsFifo | internal/webrtc/client.go:926-941 | the packet queue is first in, first out, and gives up only its oldest entry |
| CaptureEpoch.CallbackGate.DeliverEpoch | internal/webrtc/client.go:946-954 | audio reaches a listening callback exactly when its epoch is the current one |
| CaptureEpoch.CallbackGate.ResetCapture | internal/webrtc/client.go:968-972 | a reset begins the next epoch |
| CaptureEpoch.PushInventsNothing | internal/webrtc/jitter.go:18-63 | the window hands out and keeps only packets it was given, so the protocol's window step covers it |
| RemoteTrack.ReceiveLoop.CatchUp | internal/webrtc/client.go:877-881 | a new epoch starts with a fresh window and no previous packet, an unchanged one keeps both |
| RemoteTrack.ReceiveLoop.OnPacket | internal/webrtc/client.go:887-898 | a stale packet empties the window and yields nothing; a current one is pushed into the window of its epoch, a fresh one if the epoch is new, and exactly what that push hands out is returned |
| RemoteTrack.ReceiveLoop.OnTick | internal/webrtc/client.go:901-907 | a tick catches up with the epoch and returns exactly what a timed drain of its window hands out |
| RemoteTrack.ReceiveLoop.Play | internal/webrtc/client.go:825-864 | a batch goes through decoder and concealment, whatever the Opus decoder makes of it |
| RemoteTrack.ReceiveLoop.Round | internal/webrtc/client.go:887-898 | one received packet, from the queue to the delivered pieces: only packets of its epoch are heard, and a new epoch starts with no previous packet |
| RemoteTimeline.Concealer.Process | internal/webrtc/client.go:825-864 | the loop over a batch delivers the specified pieces, each concealment before the packet whose gap it fills (`PcmuPlacement`, `OpusPlacement`); a failed decode leaves the clock alone |
| RemoteTimeline.Concealer.ConcealBefore | internal/webrtc/client.go:828-849 | the 32-bit arithmetic yields the specified amount, never past the 1920-sample buffer |
| RemoteTimeline.FillFitsBuffer | internal/webrtc/client.go:836-842 | concealment stays within 120 ms and, for Opus, in whole 2.5 ms units, for any timestamps |
| RemoteTimeline.GapIsTrue | internal/webrtc/client.go:830-833 | the wrapped gap is the true one whenever that is non-negative and below 2^31 |
| RemoteTimeline.FillIff | internal/webrtc/client.go:828-849 | exactly which gaps are concealed, PCMU wholly up to 120 ms, Opus by the whole 2.5 ms units in them |
| RemoteTimeline.PcmuTimeline | internal/webrtc/client.go:844-862 | PCMU: heard plus concealed samples are exactly twice the timestamp span plus the last packet, across 32-bit wraps |
| RemoteTimeline.PcmuPlacement | internal/webrtc/client.go:828-862 | PCMU, for every packet: it starts at exactly twice its timestamp offset, after the packets before it, and the concealment of the gap before it stands directly in front of it |
| RemoteTimeline.OpusBalance | internal/webrtc/client.go:828-862 | Opus, any mix of decode and concealment failures: delivered samples equal elapsed time less the shortfall plus what was concealed before failed packets |
| RemoteTimeline.OpusPlacement | internal/webrtc/client.go:828-862 | Opus, for every packet heard and any mix of failures: it starts at its own time, less the shortfall up to it plus what was concealed in vain before it, with its concealment directly in front of it |
| RemoteTimeline.RepeatedIff | internal/webrtc/client.go:852-856 | nothing is concealed twice exactly when no packet fails to decode 2.5 ms or more after what was last heard with concealment working |
| RemoteTimeline.OpusExactIff | internal/webrtc/client.go:828-862 | the timeline is exact up to the shortfall exactly under that condition, for any mix of failures |
| RemoteTimeline.ShortfallBounded | internal/webrtc/client.go:836-842 | concealment never exceeds a gap, and where it succeeds the shortfall is under 40 samples per gap |
| RemoteTimeline.OpusTimeline | internal/webrtc/client.go:828-862 | under that condition, decode failures included, the timeline never runs ahead, and with concealment successful falls short by under 40 samples per gap |
| RemoteTimeline.FailedDecodeRepeats | internal/webrtc/client.go:852-856 | a packet that fails after concealment makes the timeline run ahead |
| Resampler.ChunkInvariance | internal/audio/stream_resample.go:12-44 | for every split into pushes, the pushes and one flush yield the whole-clip resampling, of length floor(N*dst/src) |
| Resampler.ResampleChunks | internal/audio/stream_resample.go:12-44 | the streaming object, pushed any chunks at any rates and flushed once, yields the whole-clip resampling |
| Resampler.PCMResampler.Push | internal/audio/stream_resample.go:12-16 | a push returns exactly the outputs decided by what has been fed, and retains at most 1 + src/dst samples |
| Resampler.PCMResampler.Flush | internal/audio/stream_resample.go:17 | a flush returns every remaining output of the whole clip |
| Resampler.PCMResampler.Emit | internal/audio/stream_resample.go:18-44 | the emit loop stays in range and keeps `base + len(input) == total` with `base` at or before the next output |
| Resampler.DecidedIff | internal/audio/stream_resample.go:24-30 | an output is decided exactly when it is within the length and its right neighbour has arrived |
| Resampler.DecidedStable | internal/audio/stream_resample.go:28-35 | decided outputs do not depend on later samples |
| Resampler.Retained | internal/audio/stream_resample.go:39-42 | fewer than 1 + src/dst samples' worth is retained |
| Resampler.WholeClipFitsInt16 | internal/audio/stream_resample.go:36 | interpolation never leaves the 16-bit range |
| Resampler.WholeClipValue | internal/audio/resample.go:30-53 | output k, with k·src = i·dst + f, is the mean of samples i and i + 1 weighted dst - f and f, rounded toward zero; past the last sample it is the last sample |
| Arithmetic.TruncDivIs | internal/audio/stream_resample.go:36 | Go's conversion and division toward zero: the remainder is smaller than the divisor and has the sign of the dividend |
| Resampler.ResampleInt16 | internal/audio/resample.go:30-53 | the whole-clip loop computes the reference (`WholeClipValue`), including the equal-rate shortcut |
| PerChunkResampling.ChunkingInaudibleIff | internal/webrtc/client.go:524 | any number of separately resampled chunks equal the whole clip, for all samples, exactly when every chunk is aligned with the length of all before it |
| PerChunkResampling.UpsamplingNeverAligned | internal/webrtc/client.go:524 | when upsampling no cut is aligned |
| PerChunkResampling.UpsampledChunksHeard | internal/webrtc/client.go:524 | when upsampling, a clip in two or more nonempty chunks comes out differently for some samples |
| Framing.BlocksSpell | internal/webrtc/talkback.go:312-341 | the blocks spell the stream followed by fewer than 480 zeros, so only the last one is padded |
| Framing.Framer.PushPCM | internal/webrtc/talkback.go:291-310 | frames handed over and the rest kept always spell the resampler's output; an invalid rate is refused |
| Framing.Framer.FlushPCM | internal/webrtc/talkback.go:312-341 | flushing completes exactly the blocks of the whole-clip resampling, and keeps nothing |
| Framing.PlayUtterance | internal/webrtc/client.go:437-454 | an utterance yields the blocks of the whole-clip resampling however it was read |
| Framing.SpellsFlush | internal/webrtc/talkback.go:299-341 | chunk invariance carries over from samples to frames |
| Talkback.PacedQueue.Enqueue | internal/webrtc/talkback.go:343-365 | a cancelled caller fails; a live one is refused exactly when closed, waits exactly when open with 100 frames queued, and otherwise its frame is appended |
| Talkback.PacedQueue.WaitDrained | internal/webrtc/talkback.go:377-395 | nil exactly when open, not cancelled, empty and nothing in flight |
| Talkback.PacedQueue.Take | internal/webrtc/talkback.go:247-265 | the pacer takes the oldest frame and marks it in flight, or silence, or stops |
| Talkback.PacedQueue.WriteDone | internal/webrtc/talkback.go:267-284 | success clears the in-flight mark, failure also closes and empties the queue |
| Talkback.PacedQueue.ClearPending | internal/webrtc/talkback.go:367-375 | the queue is emptied; what is in flight stays in flight |
| Talkback.PacedQueue.Shut | internal/webrtc/talkback.go:399-405 | closing empties the queue and refuses further frames |
| Talkback.StepKeeps | internal/webrtc/talkback.go:224-395 | every interleaved step keeps frames in line, in order and accounted for |
| Talkback.UtterancePlayed | internal/webrtc/client.go:421-456 | an utterance that ends without error has written exactly the blocks of its whole clip, which are the frames it enqueued, in order and after all earlier utterances |
| Talkback.NoFailureWithoutCause | internal/webrtc/client.go:421-456 | in every run without cancellation, closing and failing encoder, track, source or rate, no utterance fails |
| Talkback.CanComplete | internal/webrtc/talkback.go:291-395 | from every state such a run can reach, player and pacer alone bring the utterance to its successful end |
| Talkback.RunCanComplete | internal/webrtc/client.go:421-456 | every undisturbed run with an utterance under way extends to one in which it ends well |
| Talkback.Bounded | internal/webrtc/talkback.go:343-395 | in every run an utterance has written a prefix of what it enqueued, at most 100 frames wait, and nobody sleeps through a condition that holds |
| Talkback.NothingLeftOver | internal/webrtc/talkback.go:367-375 | between utterances, cancelled ones included, no samples, resampler or frames remain |
| Talkback.AtMostOneLate | internal/webrtc/talkback.go:264-286 | after an utterance has been left, only the frame then in flight can still reach the track |
| Talkback.HistoryIsRead | internal/webrtc/client.go:437-450 | the chunks the main theorem speaks of are those read since the utterance began |
| SpeechStream.StreamingAudioStream.BeginPush | internal/ai/speech.go:738-743 | a push beyond 120 seconds in all fails and ends the stream |
| SpeechStream.StreamingAudioStream.Fill | internal/ai/speech.go:744-761 | the push loop does what its rounds do, until it returns or must wait |
| SpeechStream.FilledFillsUp | internal/ai/speech.go:756-759 | a live push alone moves exactly what fits under two seconds |
| SpeechStream.FillOutcome | internal/ai/speech.go:745-755 | every outcome of a push: nothing to do, cancelled before closed, or as much as fits |
| SpeechStream.StreamingAudioStream.Finish | internal/ai/speech.go:764-772 | only the first finish records its result |
| SpeechStream.StreamingAudioStream.ReadPCM16 | internal/ai/speech.go:776-801 | a read fails, waits, ends or takes the oldest samples, in that order of checks |
| SpeechStream.BoundedStream | internal/ai/speech.go:733-801 | in every run samples read are a prefix of samples accepted, at most 2 seconds are buffered and 120 accepted, and producer and consumer never sleep together or through a cancellation |
| SpeechStream.EndMeansDrained | internal/ai/speech.go:789-794 | the end is reported only after the buffer drained, and then everything accepted has been read unless a push gave up |
| SpeechStream.NothingAfterDone | internal/ai/speech.go:753-755 | nothing enters the buffer once the stream is done |
| SpeechStream.ErrorKeptIff | internal/ai/speech.go:738-742 | a finished stream's error survives a step unless the step is a push that fails the size check |
| SpeechStream.ErrorKept | internal/ai/speech.go:764-772 | over any stretch without a push that fails the size check the error stays |
| SpeechStream.EndIsFinal | internal/ai/speech.go:507-519 | for callers that push nothing after finishing, the error or clean end of a done stream never changes, in any run |
| SpeechStream.EndsAgree | internal/ai/speech.go:789-794 | hence all ends reported to such a stream's reader are the same |
| SpeechStream.EndOverwritten | internal/ai/speech.go:738-742 | a reported clean end turns into an error after an oversized push |
| Session.Turn.FeedPCM | internal/session/session.go:132-169 | one feed does what the specification says, and its barge-in send never blocks |
| Session.Turn.ArmBargeIn | internal/session/session.go:76-83 | arming makes a fresh empty channel and forgets an earlier barge-in |
| Session.Turn.DisarmBargeIn | internal/session/session.go:86-92 | disarming reports whether the user barged in |
| Session.Turn.StartCapture | internal/session/session.go:95-103 | a capture starts from nothing |
| Session.Turn.StopCapture | internal/session/session.go:106-111 | stopping returns what was captured |
| Session.Turn.ReceiveBarge | internal/ask/ask.go:163-168 | the listener takes the one barge-in signal, if there is one, and changes nothing else |
| Session.CaptureRefines | internal/session/session.go:132-169 | after StartCapture the buffer is the first 1,920,000 of the last 4,000 samples before the onset and everything from it, for every feed trace |
| Session.FirstAndLast | internal/session/session.go:156-167 | the two truncations keep a prefix and a suffix, of the full limit when there is that much |
| Session.BargeCaptures | internal/session/session.go:139-145 | a barge-in captures the pre-roll held then and the trigger chunk, and signals once |
| Session.TriggerFirstIff | internal/session/session.go:139-153 | a barge-in capture starts with the trigger chunk, whatever it is, exactly when no pre-roll is held |
| Session.StalePreRoll | internal/session/session.go:95-111 | a pre-roll from a silent capture survives into a later barge-in |
| Session.AskKeepsTrigger | internal/ask/ask.go:156-236 | for every feed interleaved with arm, disarm, start and stop, speech while armed is recorded from the trigger chunk on; otherwise the capture is the reference |
| Session.RunAsk | internal/ask/ask.go:156-236 | driving the session object through a turn yields the specified capture |
| NodeDispatch.PhysicalNode.Publish | internal/node/node.go:63-70 | an unchanged state owes no transition, a change owes the one from old to new |
| NodeDispatch.PhysicalNode.Enqueue | internal/node/node.go:73-80 | wait at 64 while open; queue unless closed |
| NodeDispatch.PhysicalNode.Look | internal/node/node.go:89-99 | the dispatcher takes the oldest transition, and exits only when closed and empty |
| NodeDispatch.OneChain | internal/node/node.go:63-112 | before close, delivered, in-hand, queued and owed transitions form one chain from IDLE to the published state without self-loops, and at most 64 queue |
| NodeDispatch.DeliveredInOrder | internal/node/node.go:107-109 | listeners only ever see a chain from IDLE |
| NodeDispatch.SignalSuffices | internal/node/node.go:74-80 | the Signal can only find the dispatcher asleep, so no wake-up is lost |
| NodeDispatch.CloseDrains | internal/node/node.go:121-127 | Close returns only after every queued transition was delivered |
| Wav.EncodeWAVPCM16 | internal/audio/wav.go:11-43 | the encoder's buffer holds the canonical header and the samples |
| Wav.HeaderFields | internal/audio/wav.go:11-43 | every header field reads back as what it stands for, sizes and rates in their low 32 bits, and the samples follow |
| Wav.DecodeWAVPCM16 | internal/audio/wav.go:103-190 | the walk terminates on every byte string, with every index in range, and computes the specified decoding |
| Wav.SplitRendered | internal/audio/wav.go:122-153 | the walk recovers any rendered chunk list: unknown ids, odd sizes, any pad bytes |
| Wav.SplitTruncated | internal/audio/wav.go:126-128 | a truncated final chunk keeps what is there |
| Wav.DecodesLast | internal/audio/wav.go:129-190 | a rendered list decodes to its last data chunk downmixed by its last fmt chunk's channel count, or to the error these determine |
| Wav.BadFmtStops | internal/audio/wav.go:131-140 | a short or non-PCM fmt chunk is the result, whatever follows |
| Wav.AcceptedIff | internal/audio/wav.go:153-167 | which fmt and data bodies are accepted, in their bytes, and which error the others get |
| Wav.DownmixAt | internal/audio/wav.go:179-188 | one average per whole frame |
| Wav.DownmixValue | internal/audio/wav.go:179-188 | each output is the sum of its frame's samples divided by the channel count, rounded toward zero |
| Wav.SumConcat | internal/audio/wav.go:182-186 | the accumulator adds up the samples |
| Wav.DownmixSpread | internal/audio/wav.go:179-188 | downmixing a mono recording put on all channels gives it back |
| Wav.Mono | internal/audio/wav.go:179-188 | the nested loops compute the downmix |
| Wav.RoundTripIff | internal/audio/wav.go:11-43 | decode(encode(s, r)) = (s, r) exactly when 2·len(s) and r fit 32 bits and r is positive |
| Wav.PutUint32LE | internal/audio/wav.go:84-89 | the low 32 bits, least significant byte first |

## Left out

- Floating point: samples are integers and interpolation is exact, so rounding of `float64` and dB gain are not modelled.
- Go's 64-bit `int` and `int64`: overflow of sample counts, arrival numbers and counters is not modelled; `int` is taken to be 64 bits wide.
- Codec state: Opus and mu-law payloads are opaque; that a decoder keeps state across an epoch change is not modelled.
- Statistics: high-water marks, lateness, underruns and the other diagnostics counters, and the window's counters being reset after each batch.
- Speech times: of `speechStarted` and `lastSpeech` only whether speech has started; endpointing by silence is not modelled.
- Contexts in `workqueue`: one Push sees one snapshot of which contexts are done, though the code asks each context in turn.
- The speech stream has one producer, whose pushes share one context, and one consumer, as its callers have; more threads are not modelled.
- Push after Flush on one resampler, and a source rate that changes within an utterance: no caller does either.
- Calling SetState or GetState from a node listener: callbacks are opaque and return.
- `ensureTalkback`, route assertion and signalling: they can only fail an utterance before it feeds anything, which is an event of the talkback protocol.
- The non-talkback playback path beyond its per-chunk resampling (pacing by ticker, mu-law framing).
- The reconnect path, `taskgroup`, `wshub`, registries, `Recorder` and `SliceSource`: easier instances of the same arguments.
- HTTP, MQTT, dashboards, command line, configuration checks, file I/O and the model runtimes.
