# A verified model of PresentMon's analysis core

PresentMon turns an unbounded stream of Windows events into a sequence of analysed frames. This project models
the stateful components that do this and proves what they promise, for every input and over whole runs. Each is
modelled in the form of the original: objects whose methods update their fields are classes, loops are loops, and
every such method is proved against a function or predicate on plain values about which the theorems are stated.
Decoded events are the inputs; an object that the original reaches through a pointer is reached through an id.

| files | component |
|---|---|
| `GpuSpec`, `GpuNode`, `GpuTrace`, `GpuQueues` | GPU work accounting: rings of enqueued packets, per-process counters |
| `GpuProofs`, `GpuFrames`, `GpuSpans`, `GpuRuns` | GPU time over whole runs, and what a frame gets of it |
| `PresentSpec`, `PresentInv`, `PresentSteps`, `PresentEvolution` | presents, the structures that track them, the invariants, one completion |
| `PresentCalls`, `PresentStages`, `PresentLoss`, `PresentLoops` | the mutual recursion of `CompletePresent` and `RemoveLostPresent` |
| `PresentReach`, `PresentTrace`, `PresentDrags`, `PresentOrder`, `PresentCourse` | its course: what it drags along, which waiting presents it lets go, and in which order it goes on |
| `PresentEvents`, `PresentKeys`, `PresentOutcomes` | what the other events do |
| `PresentWaits`, `PresentTimes`, `PresentRecords` | what they mean for one present: its waits, its times, how it is found |
| `CompletedRing`, `PresentConsumer` | the imperative code of the trace consumer |
| `PresentProofs`, `PresentTokens` | what follows for the output thread and for the index of history tokens |
| `PresentOvertaking`, `PresentStaleToken`, `PresentOverdue`, `PresentStopAtStart` | runs that show the limits |
| `QuiesceGate`, `QuiesceAccess` | the gate between event handlers and the controller that resets the tracking data |
| `ChainOutput` | frames of one swap chain on their way to the output, with look-ahead to the next displayed one |
| `Recording`, `RecordingChains`, `RecordingRuns` | reconstruction of the recording state on the output thread, and which rows are written in it |
| `TelemetrySpec`, `TelemetryProofs`, `TelemetryUnique`, `TelemetryChoice`, `Telemetry`, `TelemetryRuns` | correlation of devices, choice of routes, numbering of GPUs |
| `DigitGrouping` | in-place grouping of digits |
| `RingIndex`, `Wrappers` | ring arithmetic and an option type |

**GPU time.** `GpuProofs.Legal` describes any run with nondecreasing, nonzero timestamps. In every run the time
credited to frames plus the time still held by the tracker is the time during which at least one node was running
work of the process. The counters wrap as in the original, and the theorems show that in a run they never do.

**Presents.** `PresentEvents.Steady` is the invariant between events; every event method of `PMTraceConsumer` keeps
it. Its last part (the ghost parameter `shaped`) is the order of displayed presents. It needs the shape that
composition has in practice: only the compositor's process (the ghost parameter `dwm`) has dependents, and they
belong to other processes. The theorems that need it have `shaped` or a `Steady(.., true)` among their premises; all
other invariants, and termination, are proved without it, also for cyclic dependents. That
`CompletePresent` and `RemoveLostPresent` terminate is proved by the `decreases` clauses of the methods: a pair of
"the first completion is still to come" and the number of presents in progress.

**Where the code does not do what is documented or expected**, the exact condition is proved:

- The order of delivery is documented for all presents of a swap chain
  (`PresentData/PresentMonTraceConsumer.hpp:352-353`). It holds after a displayed present; a discarded one overtakes
  every earlier present that is in progress (`OvertakesExactly`, with a run in `OvertakingRun`). The dependents of a
  compositor's frame complete from the last to the first, so that there a discarded one may also overtake an earlier one
  that completes in the same call (`DependentsOvertakeExactly`, `UndisplayedReversed`).
- A history token leads to the present that took it last, but that present no longer carries it if losing the previous
  holder completed both, or let go the taker, which had completed and waited for Present_Stop. For a taker in progress
  this happens exactly if it can be reached from the holder, which is in progress, by going to dependents and, from a
  displayed present, to earlier ones of its chain (`TokenTakenExactly`, `ReachesExactly`, with a run in `StaleTokenRun`).
  A completed taker must be overdue when one of these presents enters the ring; at the head of a ring with room behind it
  that is all it takes (`WaitingTakerExactly`, with a run in `OverdueTokenRun`). The stale entry leads to a completed
  present and breaks no other invariant.
- A completed present is to wait for Present_Stop only if that is still to come
  (`PresentData/PresentMonTraceConsumer.cpp:2164-2171`). One whose Present_Stop has come waits for another one exactly if it
  carries the time stamp of the start (`StopSeenExactly`, with a run in `StopAtStartRun`).
- `UnregisterContext` keeps the running counters right exactly when the hardware queues that it deletes are idle
  (`UnregisterContextExact`, with a run in `DeletedWhileRunning`).
- The engine class of a context is that of its engine exactly as long as no engine in use becomes a video engine later
  (`ClassedStep`, `ClassesExactly`).
- Completing a frame at the very instant its running period began can make the next frame report more GPU time than
  fits into it, or GPU time without a start, and no other cut can (`PunctualExactly`, with a run in `LateStartRun`). If
  what runs ends at the same instant, the next frame fits again (`SameInstantHarmless`).
- Toggles of the recording state are said to be handled if they occurred before the present
  (`PresentMon/OutputThread.cpp:471`). The time compared is the start of the last frame of its chain that is done, or the
  present's own if its process is not known yet; toggles that earlier batches used up count, too; and with look-ahead a
  row is written when the next displayed frame of its chain arrives. In every run what becomes ready with a present is
  written exactly if an odd number of toggles counts by then (`WrittenExactly`), and this agrees with the user's choice
  at a time, such as the start of the frame, exactly if an even number of toggles is misjudged: they count but were made
  since, or do not although made before (`AsOfExactly`). `EarlyRun`, `LateRun` and `DeferredRun` are runs in which it
  does not.
- A build of the telemetry devices visits hash tables. Given the order in which every provider lists its devices, which
  is that of one of them, the correlation is unique if and only if no provider device matches two logical devices when
  its turn comes (`OneResultExactly`), and then so are routes and numbers (`OutcomeUnique`); transitive matching suffices
  (`TransitiveUnambiguous`), and `BridgeExample` has two outcomes. The listing order itself may decide the numbers of
  equal adapters in any case (`ListingExample`).
- While the gate stays on, clearing the tracking data excludes active handlers exactly if the gate is on and no handler
  that is still active passed it while it was off (`SafeExactlyWhenGated`, `GateTurnedOff`).
- Renumbering GPUs keeps every device exactly when there are fewer than 65536 of them or no system device
  (`NoneLostExactly`, with a run in `LostDeviceRun`).

## Model

| member | source | states |
|---|---|---|
| GpuNode.GrowKeepsLive | PresentData/GpuTrace.cpp:279-285 | Inserting 16 empty slots before the head of a full ring keeps the queued packets and their order |
| GpuNode.EraseAroundKeepsLive | PresentData/GpuTrace.cpp:423-437 | Erasing the dead slots on both sides of the live region keeps the queued packets |
| GpuNode.MoveHead | PresentData/GpuTrace.cpp:386-389 | Moving the running packet into the matching slot drops exactly the packets in between |
| GpuNode.Node.Append | PresentData/GpuTrace.cpp:279-302 | The ring refines a queue: enqueueing appends; storage stays a multiple of 16 with fewer than 32 slots to spare |
| GpuNode.Node.Match | PresentData/GpuTrace.cpp:335-392 | The search finds the first packet with the sequence id; stale or unknown ids are ignored, early wait packets flagged, and otherwise everything through the match is dropped |
| GpuNode.Node.Pop | PresentData/GpuTrace.cpp:404-421 | The running packet and the completed wait packets behind it leave the queue; what is next runs if it is not a wait packet |
| GpuNode.Node.Shrink | PresentData/GpuTrace.cpp:423-437 | Giving back storage keeps the queue and makes the storage tight again |
| GpuNode.Node.Complete | PresentData/GpuTrace.cpp:316-440 | A completion changes the queue as the plain description says and names the packet that stops and the one that starts running |
| GpuTracker.GpuTrace.EnqueueWork | PresentData/GpuTrace.cpp:260-310 | Enqueueing in place computes the transition on plain values: a packet starts running only on an empty queue and never if it waits |
| GpuTracker.GpuTrace.CompleteWork | PresentData/GpuTrace.cpp:316-440 | Completion in place computes the transition on plain values, including which trace stops and which starts |
| GpuTracker.GpuTrace.CompleteFrame | PresentData/GpuTrace.cpp:519-588 | Cutting a frame in place moves the counters of the process into the frame as the transition on plain values says |
| GpuTracker.GpuTrace.RegisterHwQueueContext | PresentData/GpuTrace.cpp:141-178 | A hardware queue gets a node of its own, which no other context refers to |
| GpuTracker.GpuTrace.UnregisterContext | PresentData/GpuTrace.cpp:180-203 | The context, its children and their hardware-queue nodes disappear and nothing else changes |
| GpuQueues.CompleteWorkExactly | PresentData/GpuTrace.cpp:316-440 | A completion that is stale or unknown does nothing; that of a wait packet not at the head only flags it; any other one removes everything through the packet, then every leading completed wait packet, and nothing else; only the traces of the old and the new front change |
| GpuQueues.CompletionOnce | PresentData/GpuTrace.cpp:316-440 | This determines the queue |
| GpuQueues.EnqueueWorkExactly | PresentData/GpuTrace.cpp:260-310 | A packet joins the end of the queue and runs at once exactly if it is work and the queue was empty |
| GpuQueues.EnqueueQueuePacketExactly | PresentData/GpuTrace.cpp:442-461 | It counts for the context's process or, if there is none, for the one that the event names, and only on hardware queues |
| GpuQueues.CompletionsExactly | PresentData/GpuTrace.cpp:463-517 | Packets complete only through known contexts, those of hardware queues only through contexts of these |
| GpuQueues.DevicesExactly | PresentData/GpuTrace.cpp:88-100 | A device keeps its first adapter until it is unregistered |
| GpuQueues.RegisterContextClass | PresentData/GpuTrace.cpp:102-139 | A new context refers to its engine and, if its process is known, has the class of that engine |
| GpuQueues.RegisterHwQueueClass | PresentData/GpuTrace.cpp:141-178 | A hardware queue has the class of its parent and an empty queue of the same type |
| GpuQueues.ClassedStep | PresentData/GpuTrace.cpp:205-227 | An event separates the class of some context from the type of its engine if and only if it makes an engine in use a video engine |
| GpuQueues.ClassesExactly | PresentData/GpuTrace.cpp:218-227 | In every run without such an event each context has the class of its engine |
| GpuProofs.CompleteWorkKeeps | PresentData/GpuTrace.cpp:316-440 | Completing work keeps the counters equal to the numbers of running nodes, with skipped events and out-of-order waits |
| GpuProofs.CompleteFrameKeeps | PresentData/GpuTrace.cpp:519-588 | A cut moves time from the counters to the frame without losing or duplicating any |
| GpuProofs.Step | PresentData/GpuTrace.cpp:229-588 | Every admissible event keeps the invariant and conserves the time of every process and engine class |
| GpuProofs.GpuTimeConserved | PresentData/GpuTrace.cpp:229-258 | In every run, credited plus held time is the time during which at least one node ran work of the process and engine class |
| GpuProofs.CountersSummariseQueues | PresentData/GpuTrace.cpp:301-309 | In every reachable state the running count is the number of nodes whose front packet belongs to the trace, and the running period has a start exactly if there is one |
| GpuProofs.ReachableInv | PresentData/GpuTrace.cpp:380-437 | In every reachable state no front packet is flagged completed and every flagged packet is a wait packet |
| GpuProofs.UnregisterContextExact | PresentData/GpuTrace.cpp:180-203 | Deleting hardware-queue nodes keeps the counters right if and only if none of them has a running packet |
| GpuRuns.DeletedWhileRunning | PresentData/GpuTrace.cpp:190-201 | A run of the tracker that leads to a state in which one of them has |
| GpuFrames.CutOtherExact | PresentData/GpuTrace.cpp:540-582 | A cut keeps accumulated time between the first packet and the last completion if and only if it is not at the start of the running period |
| GpuRuns.PunctualExactly | PresentData/GpuTrace.cpp:540-582 | From every state reached without such a cut: after a cut all frames of all continuations without such a cut fit if and only if it was not one itself |
| GpuRuns.CutAtStartBreaks | PresentData/GpuTrace.cpp:564-582 | Whatever the number of running packets at such a cut: if they end a tick later and another packet runs after them, the next frame has a start and a longer duration than fits |
| GpuFrames.DurationFitsFrame | PresentData/GpuTrace.cpp:540-582 | In every run without a cut at the start of a running period each completed frame with work has GPUDuration <= ReadyTime - GPUStartTime |
| GpuSpans.FrameSpanExactly | PresentData/GpuTrace.cpp:519-588 | In every such run a completed frame starts when work of its process first ran since the previous frame and is ready when that last stopped, or now if it still runs |
| GpuRuns.LateStartRun | PresentData/GpuTrace.cpp:569-580 | A run of the tracker after which a frame of length 0 reports a duration of 100 |
| GpuRuns.SameInstantHarmless | PresentData/GpuTrace.cpp:540-582 | If everything that runs at such a cut ends at the same instant, every next frame fits |
| RingIndex.WrapIsModulo | PresentData/GpuTrace.cpp:297-297 | Wrapping once is the remainder that the original computes |
| CompletedPresents.CompletedRing.Insert | PresentData/PresentMonTraceConsumer.cpp:2369-2403 | The ring in place refines the queue: room is used, a full ring blocks, drops a lost present or overwrites its head, and the counters say which |
| PresentRecords.InsertDecides | PresentData/PresentMonTraceConsumer.cpp:2369-2403 | A full ring turns the newcomer away if and only if that is lost, the head is not, and nothing can be delivered; offline with backpressure all that is ready is delivered, otherwise the head alone is overwritten |
| CompletedPresents.CompletedRing.UpdateReadyCount | PresentData/PresentMonTraceConsumer.cpp:2495-2519 | The ready count moves to the first present that still waits |
| CompletedPresents.CompletedRing.Dequeue | PresentData/PresentMonTraceConsumer.cpp:3585-3604 | The ready prefix is handed out in order and the rest stays |
| PresentConsumer.PMTraceConsumer.PropagateToDependents | PresentData/PresentMonTraceConsumer.cpp:2195-2238 | The loop from the last dependent to the first computes propagation; CompositionDecides says what that means |
| PresentConsumer.PMTraceConsumer.RemovePresentFromSubmitSequenceIdTracking | PresentData/PresentMonTraceConsumer.cpp:1941-1970 | All submissions of the present, and no others, leave the index, and no empty inner map stays behind |
| PresentConsumer.PMTraceConsumer.StopTrackingPresent | PresentData/PresentMonTraceConsumer.cpp:1973-2053 | The present leaves every index in place, and its keys are cleared |
| PresentProofs.StopTrackingPurges | PresentData/PresentMonTraceConsumer.cpp:1973-2053 | For a present that is being completed this removes all its entries from all indexes, except its thread while Present_Stop is awaited, and leaves every other entry alone |
| PresentConsumer.PMTraceConsumer.MatchFrameIds | PresentData/PresentMonTraceConsumer.cpp:2316-2353 | The loop over the entries that are not ready computes the hand-over of times of generated frames |
| PresentTimes.FrameTimesExactly | PresentData/PresentMonTraceConsumer.cpp:2316-2367 | The times that arrive, field by field: those of the one waiting entry of the process if it is a generated frame of the same application frame, or those that it had taken over, which it hands on only once |
| PresentTimes.HandedOverTimes | PresentData/PresentMonTraceConsumer.cpp:2310-2403 | What is handed to the output thread carries them |
| PresentConsumer.PMTraceConsumer.Retire | PresentData/PresentMonTraceConsumer.cpp:2310-2435 | Out of tracking, into the ring, and the ready count or the deferral of the head: exactly the transition on plain values, with a possible dequeue before the lock |
| PresentConsumer.PMTraceConsumer.CompletePresent | PresentData/PresentMonTraceConsumer.cpp:2125-2493 | Terminates and keeps all invariants; the first completion flushes; otherwise p enters the ring last, with its outcome, no index leads to it, its dependents are completed and inherit, a displayed one leaves no earlier present of its chain in progress, and nothing else completes |
| PresentWaits.WaitsExactly | PresentData/PresentMonTraceConsumer.cpp:2164-2181 | A present is handed over waiting for Present_Stop if and only if it did before or is not lost and that was not seen, and for flip frame types if and only if it did before or they are reported, it is displayed, not lost, and its layer shows no other present; its outcome is that decided before |
| PresentWaits.EntersReady | PresentData/PresentMonTraceConsumer.cpp:2164-2181 | Hence exactly when it waits for nothing |
| PresentWaits.StopSeenExactly | PresentData/PresentMonTraceConsumer.cpp:2728-2731 | A present that saw its Present_Stop waits for another one if and only if its time stamp is that of the start |
| PresentStopAtStart.StopAtStartRun | PresentData/PresentMonTraceConsumer.cpp:2164-2171 | A run from construction in which a present waits for Present_Stop although its thread, which has returned, leads to it no more |
| PresentWaits.LetGoExactly | PresentData/PresentMonTraceConsumer.cpp:2412-2435 | A head that is let go is lost if and only if it waited for Present_Stop, waits at most for its frame id, and the ready prefix is counted on |
| PresentWaits.AbandonExactly | PresentData/PresentMonTraceConsumer.cpp:2091-2123 | A completed present that is lost does not wait for Present_Stop, and its threads do not lead to it if it did |
| PresentConsumer.PMTraceConsumer.RemoveLostPresent | PresentData/PresentMonTraceConsumer.cpp:2091-2123 | Terminates and keeps all invariants; p and all that completes with it is lost, and a completed waiter is let go |
| PresentConsumer.PMTraceConsumer.FlushOrderedPresents | PresentData/PresentMonTraceConsumer.cpp:2139-2148 | Before the first completion everything in progress is completed as lost, and the loop ends although it changes the maps it visits |
| PresentConsumer.PMTraceConsumer.CompleteEarlierPresents | PresentData/PresentMonTraceConsumer.cpp:2253-2271 | Every earlier present of the swap chain is completed, although the visited map shrinks during the loop |
| PresentLoops.NextSurvives | PresentData/PresentMonTraceConsumer.cpp:2255-2270 | A nested completion erases no entry behind its own in the map of the process, so that the iterator to the next entry stays valid |
| PresentConsumer.PMTraceConsumer.LosePresent | PresentData/PresentMonTraceConsumer.cpp:2091-2123 | Losing a present because of an event leads from one steady state to another |
| PresentConsumer.PMTraceConsumer.SetThreadPresent | PresentData/PresentMonTraceConsumer.cpp:2521-2531 | Whatever the thread worked on is lost first, and the invariants are kept |
| PresentConsumer.PMTraceConsumer.TrackPresent | PresentData/PresentMonTraceConsumer.cpp:2598-2633 | A present that still occupies the next slot is lost, after which the slot is free and the new present takes it |
| PresentConsumer.PMTraceConsumer.RuntimePresentStart | PresentData/PresentMonTraceConsumer.cpp:2635-2668 | A present starts with the announced frame id and type, unless it is a test, and is tracked |
| PresentConsumer.PMTraceConsumer.FindOrCreatePresent | PresentData/PresentMonTraceConsumer.cpp:2539-2596 | The present of the thread, else the oldest in progress that the driver may have deferred, else a new one unless filtered out |
| PresentRecords.UndrivenExactly | PresentData/PresentMonTraceConsumer.cpp:2548-2571 | What only the runtime has seen may be deferred to the driver's thread, until a kernel or window event or another thread is known for it |
| PresentConsumer.PMTraceConsumer.RuntimePresentStop | PresentData/PresentMonTraceConsumer.cpp:2728-2791 | A waiting present is released; a failed or invisible one completes; otherwise only the thread forgets it |
| PresentWaits.VisibleStop | PresentData/PresentMonTraceConsumer.cpp:2728-2791 | A visible present of a tracked display is known by its thread no more and remembers how long Present took |
| PresentWaits.ReleaseExactly | PresentData/PresentMonTraceConsumer.cpp:2733-2742 | Release ends the wait for Present_Stop only, and the ready prefix is counted on |
| PresentConsumer.PMTraceConsumer.FindPresentBySubmitSequence | PresentData/PresentMonTraceConsumer.cpp:653-674 | The oldest present submitted under the number, and none exactly if there is no submission |
| PresentConsumer.PMTraceConsumer.HandleDxgkQueueSubmit | PresentData/PresentMonTraceConsumer.cpp:542-593 | The context's earlier blt is settled, and a present packet is entered under its sequence and context, once per present |
| PresentConsumer.PMTraceConsumer.HandleDxgkQueueComplete | PresentData/PresentMonTraceConsumer.cpp:622-647 | The packet of a front-buffer copy or a flip without flip event is its screen time and completes it |
| PresentConsumer.PMTraceConsumer.HandleDxgkMMIOFlip | PresentData/PresentMonTraceConsumer.cpp:681-701 | The oldest submission becomes ready; an immediate flip is displayed, and completed if it is a legacy flip |
| PresentConsumer.PMTraceConsumer.HandleTokenDiscarded | PresentData/PresentMonTraceConsumer.cpp:1716-1731 | The token leads to the present no more; one never seen in a frame is discarded and completed |
| PresentConsumer.PMTraceConsumer.EndFlipFrameTypes | PresentData/PresentMonTraceConsumer.cpp:1412-1427 | The present of a layer and its dependents wait for no more frame types, the present leaves tracking, and the ready count moves on |
| PresentWaits.FlipFrameTypesExactly | PresentData/PresentMonTraceConsumer.cpp:1412-1427 | The waits of the present and its dependents for flip frame types end, nothing else about any present but its own keys changes, and the ready prefix is counted on |
| PresentConsumer.PMTraceConsumer.ResetPresentTrackingData | PresentData/PresentMonTraceConsumer.cpp:3648-3700 | The consumer is as new |
| PresentOutcomes.ShowInShows | PresentData/PresentMonTraceConsumer.cpp:89-114 | Setting a screen time always leaves one, at most one entry is added, and earlier entries and frame types stay |
| PresentTimes.ShowInExactly | PresentData/PresentMonTraceConsumer.cpp:89-114 | A screen time that is due is the last one afterwards, with its frame type unless one was announced; one that is not due changes nothing |
| PresentTimes.ShowAtExactly | PresentData/PresentMonTraceConsumer.cpp:89-114 | The present is displayed by its first screen time and that of an announced frame, and stays displayed |
| PresentTimes.MMIOFlipExactly | PresentData/PresentMonTraceConsumer.cpp:681-701 | The flip is ready then and not composed; exactly an immediate one is displayed, at the time of the event if one is due |
| PresentTimes.QueueCompleteExactly | PresentData/PresentMonTraceConsumer.cpp:622-647 | Exactly a copy to the front buffer and a flip without flip event are displayed by their packet, and completed unless Present_Info is still to come for the copy |
| PresentRecords.NewPresentExactly | PresentData/PresentMonTraceConsumer.cpp:2635-2668 | Of a new present only its start and what was announced is known |
| PresentRecords.TrackExactly | PresentData/PresentMonTraceConsumer.cpp:2598-2633 | It takes the next slot, slots are used in turn, and it is found at its start; every other entry stays |
| PresentRecords.UntrackedExactly | PresentData/PresentMonTraceConsumer.cpp:1973-2053 | A present that is not tracked any more has no key but that of the driver's thread, and nothing else about it changes |
| PresentRecords.ThreadExactly | PresentData/PresentMonTraceConsumer.cpp:2521-2531 | A thread leads to the present that was set first until it is forgotten |
| PresentRecords.SubmitExactly | PresentData/PresentMonTraceConsumer.cpp:577-592 | A submission is found by number and context, a blt on Windows 7 by its context, too, and no other entry changes |
| PresentRecords.WithdrawRoundTrip | PresentData/PresentMonTraceConsumer.cpp:1941-1970 | Withdrawing the only submission under a number leaves nothing of it but the outcome |
| PresentRecords.CloseContextExactly | PresentData/PresentMonTraceConsumer.cpp:549-573 | Closing a context takes back that it leads to the present |
| PresentRecords.Win32KRoundTrip | PresentData/PresentMonTraceConsumer.cpp:1604-1626 | A Win32K token leads to its present, which is composed, until it is dropped, and nothing else is left of it |
| PresentRecords.DxgkTokenRoundTrip | PresentData/PresentMonTraceConsumer.cpp:760-772 | A history token leads to its present until it is handed to the compositor; the present remembers it |
| PresentRecords.TokenDataRoundTrip | PresentData/PresentMonTraceConsumer.cpp:800-808 | Token data leads to its present until a flip chain names it, and nothing is left of it |
| PresentRecords.DependentWaitsAlike | PresentData/PresentMonTraceConsumer.cpp:2195-2238 | A dependent that takes over a frame's outcome takes over its wait for flip frame types |
| PresentRecords.ComposeExactly | PresentData/PresentMonTraceConsumer.cpp:515-523 | A frame of the compositor has exactly the dependents that waited for it |
| PresentEvents.TrackSteady | PresentData/PresentMonTraceConsumer.cpp:2598-2633 | Tracking a new present in a free slot keeps index consistency and the order of every swap chain |
| PresentEvents.SlotFree | PresentData/PresentMonTraceConsumer.cpp:2605-2612 | Losing the occupant of a slot frees it, because completed presents occupy no slot |
| PresentConsumer.PMTraceConsumer.TakeDxgkToken | PresentData/PresentMonTraceConsumer.cpp:764-769 | The previous holder of a history token is lost before the token is entered, and all invariants are kept |
| PresentTokens.TokenTakenExactly | PresentData/PresentMonTraceConsumer.cpp:764-769 | The present carries the token it takes if and only if the previous holder has completed already or, for a taker in progress, cannot reach it, or, for a completed taker, nothing lets it go; it is let go only for a present that completes along with the holder and started too long after it |
| PresentTokens.WaitingTakerExactly | PresentData/PresentMonTraceConsumer.cpp:2414-2427 | A taker that waits for Present_Stop at the head of a ring with room keeps the token if and only if no present that completes along with the holder started too long after it |
| PresentTokens.ReachesExactly | PresentData/PresentMonTraceConsumer.cpp:2195-2271 | With one compositor: a present is reached from a lost one if and only if it is that one, on its chain and earlier if it is displayed, or so placed with respect to a dependent of such a present |
| PresentReach.DragsExactly | PresentData/PresentMonTraceConsumer.cpp:2175-2271 | A present in progress completes along with a lost one if and only if it can be reached by going to dependents and, from a displayed present, to earlier ones of its chain |
| PresentStaleToken.StaleTokenRun | PresentData/PresentMonTraceConsumer.cpp:764-769 | A run from construction in which the holder drags the taker along, after which the token leads to a present that does not carry it |
| PresentOverdue.OverdueTokenRun | PresentData/PresentMonTraceConsumer.cpp:2414-2427 | Another one, in which the taker has completed and is overdue when the holder enters the ring |
| PresentSteps.StopTrackingKeeps | PresentData/PresentMonTraceConsumer.cpp:1973-2089 | The end of tracking keeps every invariant: keys match entries, presents in progress stay ordered, completed ones are in the ring once |
| PresentSteps.InsertFifo | PresentData/PresentMonTraceConsumer.cpp:2369-2403 | What entered the ring is, in order, what left it followed by what is in it; the overflow counter counts the overwritten |
| PresentSteps.InsertFair | PresentData/PresentMonTraceConsumer.cpp:2381-2394 | In every state, no present was overwritten for one less worth keeping: a lost newcomer only ever displaced a lost head, and offline with backpressure nothing was overwritten while anything was ready |
| PresentSteps.MatchFramesExact | PresentData/PresentMonTraceConsumer.cpp:2316-2367 | Matching ends the waits of all entries of the process, writes only propagated times and that flag, and touches no other present |
| PresentCalls.NestedCall | PresentData/PresentMonTraceConsumer.cpp:2241-2271 | A nested completion adds to what the outer one has done: order, locality and loss are kept |
| PresentStages.NothingEarlier | PresentData/PresentMonTraceConsumer.cpp:2253-2271 | When a displayed present enters the ring, everything of its chain that is not yet in the ring started later, including presents on the call stack |
| PresentProofs.FatesExact | PresentData/PresentMonTraceConsumer.cpp:2369-2403 | Every present handed to the ring was delivered, overwritten, dropped, or is in it, as multisets and in number |
| PresentProofs.InsertedOnce | PresentData/PresentMonTraceConsumer.cpp:2155-2162 | Exactly the completed presents were handed to the ring, once each |
| PresentProofs.DeliveredInOrder | PresentData/PresentMonTraceConsumer.cpp:3585-3604 | All dequeues together are a subsequence of the order of completion |
| PresentProofs.DisplayedInOrder | PresentData/PresentMonTraceConsumer.hpp:352-353 | After a displayed present no earlier present of its swap chain is delivered |
| PresentProofs.OvertakesExactly | PresentData/PresentMonTraceConsumer.cpp:2253-2271 | The present whose completion an event asks for is handed to the ring before an earlier one of its chain that is in progress if and only if it is not displayed; what completes along with it in its process overtakes none |
| PresentProofs.DependentsOvertakeExactly | PresentData/PresentMonTraceConsumer.cpp:2241-2251 | What the dependents of a compositor's frame complete is handed to the ring before an earlier present of its chain if and only if, from the last dependent to the first, it comes before that one and before every displayed one later than that one |
| PresentProofs.UndisplayedReversed | PresentData/PresentMonTraceConsumer.cpp:2241-2251 | Of the dependents of one chain, a later one that is not displayed overtakes an earlier one unless a displayed one behind it takes that along |
| PresentOvertaking.OvertakingRun | PresentData/PresentMonTraceConsumer.hpp:352-353 | A run from construction in which a discarded present enters the ring before an earlier one of its chain |
| PresentProofs.FirstCompletionDiscards | PresentData/PresentMonTraceConsumer.cpp:2139-2148 | The first completion leaves every present completed and lost, every ordered map empty, and each present handed to the ring once |
| PresentProofs.OnlyLostBeforeFirst | PresentMon/OutputThread.cpp:437-440 | Until then everything in the ring or delivered is lost, so that the output loop skips it |
| PresentProofs.ReadyLongest | PresentData/PresentMonTraceConsumer.cpp:2495-2519 | The ready prefix is the longest one in which nothing waits |
| PresentProofs.ReadyIsSafe | PresentData/PresentMonTraceConsumer.cpp:2369-2403 | Offline with backpressure an insertion loses nothing: what was ready stays ready or is delivered, and nothing overflows unless nothing is ready |
| PresentProofs.OneSource | PresentData/PresentMonTraceConsumer.cpp:2316-2367 | Propagated times come from at most one entry of the ring |
| PresentProofs.CompositionDecides | PresentData/PresentMonTraceConsumer.cpp:2195-2241 | What becomes of each dependent of a compositor's frame: its state, its own frame types, the parent's screen times first, or discarded with nothing displayed |
| PresentProofs.OneShownPerWindow | PresentData/PresentMonTraceConsumer.cpp:2203-2213 | Of the dependents composed into one window all but the last are discarded |
| QuiesceGate.InFlightExact | PresentData/PresentMonTraceConsumer.cpp:3736-3779 | In every interleaving the counter is the number of counted scopes alive |
| QuiesceAccess.AdmittedExactly | PresentData/PresentMonTraceConsumer.cpp:3736-3765 | In every run a scope that is constructed is active if and only if the gate was off at its first access or processing was enabled when it read that, and counted exactly in the second case; otherwise it is inactive and uncounted |
| QuiesceAccess.GoesThrough | PresentData/PresentMonTraceConsumer.cpp:3736-3765 | With the gate on and processing enabled a scope that runs alone becomes active and counted and may write every structure |
| QuiesceAccess.BacksOut | PresentData/PresentMonTraceConsumer.cpp:3749-3761 | While processing is disabled it backs out and leaves the counter as it was |
| QuiesceGate.NoHandlerWhileClearing | PresentData/PresentMonTraceConsumer.cpp:3614-3651 | With the gate on no scope is active while the data is cleared |
| QuiesceGate.SafeExactlyWhenGated | PresentData/PresentMonTraceConsumer.cpp:3736-3745 | From every reachable state: no continuation that leaves the gate on clears the data under an active handler if and only if the gate is on and no active scope passed it uncounted |
| QuiesceGate.GateTurnedOff | PresentData/PresentMonTraceConsumer.cpp:3606-3608 | Turning the gate off makes such a continuation possible, even if it was on from the start |
| QuiesceGate.ResetClearsEverything | PresentData/PresentMonTraceConsumer.cpp:3644-3734 | A reset that ends leaves every structure empty, whatever the handlers did meanwhile |
| QuiesceAccess.ResetCompletes | PresentData/PresentMonTraceConsumer.cpp:3614-3651 | When no counted handler is left, the wait ends, everything is cleared, and the reset is over |
| QuiesceAccess.TimesOut | PresentData/PresentMonTraceConsumer.cpp:3622-3631 | A wait that times out leaves data and handlers alone and processing disabled |
| QuiesceAccess.HandledAgain | PresentData/PresentMonTraceConsumer.cpp:3606-3612 | Afterwards handlers back out until processing is enabled, and then go through |
| QuiesceGate.TimedOutWaitClearsNothing | PresentData/PresentMonTraceConsumer.cpp:3622-3631 | Whatever happens during a wait that times out, the data is afterwards what the handlers wrote |
| Recording.ToggleHistory.SetOutputRecordingState | PresentMon/OutputThread.cpp:42-61 | A toggle is noted in real time exactly when the state changes |
| Recording.Recorder.ProcessEvents | PresentMon/OutputThread.cpp:407-562 | A batch consumes a prefix of the toggles, derives its first state from the parity, advances the chains, writes what becomes ready with each present in the state then reached, and counts the recordings that end |
| Recording.WrittenAt | PresentMon/OutputThread.cpp:417-492 | What becomes ready with a present, be it of earlier frames, is written in the state after the toggles consumed up to it |
| Recording.ConsumedExact | PresentMon/OutputThread.cpp:471-481 | Exactly the toggles before a time that some present of the batch consults are consumed |
| RecordingChains.ChainLast | IntelPresentMon/CommonUtilities/mc/UnifiedSwapChain.cpp:57-110 | The last frame that is done is the last to arrive or, with look-ahead, the one before the last displayed frame |
| RecordingChains.DoneOnce | IntelPresentMon/CommonUtilities/mc/UnifiedSwapChain.cpp:57-110 | There is only one such frame |
| RecordingChains.LookExactly | PresentMon/OutputThread.cpp:355-366 | In every run the time that a present consults is its own start if its process is not known, and otherwise the start of that frame among the arrivals on its chain since the chain began |
| Recording.BatchesJoinUp | PresentMon/OutputThread.cpp:417-421 | Under every interleaving a batch starts in the state in which the previous one ended |
| Recording.CaughtUp | PresentMon/OutputThread.cpp:63-77 | With no toggles left the reconstructed state is the user's choice |
| Recording.ConsumedOnceInOrder | PresentMon/OutputThread.cpp:557-560 | Toggles are consumed once each, in order |
| Recording.WrittenExactly | PresentMon/OutputThread.cpp:471-552 | In every run what becomes ready with a present is written if and only if an odd number of toggles is such that some batch up to it knew the toggle and consulted a later time |
| Recording.AsOfExactly | PresentMon/OutputThread.cpp:471-481 | In every run this is the user's choice at a given time if and only if an even number of toggles counts though made since or does not count though made before |
| RecordingRuns.EarlyRun | PresentMon/OutputThread.cpp:471-481 | A run in which a frame that started before the toggle is recorded, because another chain used the toggle up |
| RecordingRuns.LateRun | PresentMon/OutputThread.cpp:363-365 | A run in which a frame that started after the toggle is not recorded, because the previous one of its chain started before |
| RecordingRuns.DeferredRun | PresentMon/OutputThread.cpp:486-500 | A run in which a frame that was handled while recording was off is recorded with the next displayed frame of its chain |
| Recording.OutputThread.HandleBatch | PresentMon/OutputThread.cpp:585-598 | The thread's variables after a batch are those of the transition on plain values |
| ChainOutput.EnqueueFrame | IntelPresentMon/CommonUtilities/mc/UnifiedSwapChain.cpp:57-110 | The queue of a chain releases and blocks frames as the transition on plain values says |
| ChainOutput.OutputFifo | IntelPresentMon/CommonUtilities/mc/UnifiedSwapChain.cpp:57-110 | Every frame of a chain is done once, in the order of arrival, or still pending |
| ChainOutput.LastIsDone | IntelPresentMon/CommonUtilities/mc/UnifiedSwapChain.cpp:57-110 | The start that the chain remembers is that of the last frame that is done |
| ChainOutput.ReadyAtOnce | IntelPresentMon/CommonUtilities/mc/UnifiedSwapChain.cpp:65-70 | Without look-ahead every frame is ready and done at once |
| ChainOutput.PartsExactly | IntelPresentMon/CommonUtilities/mc/UnifiedSwapChain.cpp:78-101 | A displayed frame gives all rows but the last when it arrives and the last one when the next displayed frame does, any other frame its row once, each in the order of arrival |
| ChainOutput.DisplayedCompletes | IntelPresentMon/CommonUtilities/mc/UnifiedSwapChain.cpp:78-101 | A displayed frame completes everything that arrived before it, and is all that is pending afterwards |
| ChainOutput.BlockedUntilDisplayed | IntelPresentMon/CommonUtilities/mc/UnifiedSwapChain.cpp:103-107 | While a displayed frame waits, nothing becomes ready until the next displayed one |
| Telemetry.TelemetryCoordinator.GetOrCreateLogicalDevice | IntelPresentMon/ControlLib/TelemetryCoordinator.cpp:675-723 | Any logical device with a matching provider device, or a new one under the next unused number if there is none |
| Telemetry.TelemetryCoordinator.ChooseRoutes | IntelPresentMon/ControlLib/TelemetryCoordinator.cpp:389-440 | For every metric the best of the provider devices that offer it, and a route exactly if one does |
| Telemetry.TelemetryCoordinator.ReassignGpuLogicalDeviceIdsByMemorySize | IntelPresentMon/ControlLib/TelemetryCoordinator.cpp:447-558 | The GPUs are renumbered in the order of the comparator, in place |
| Telemetry.TelemetryCoordinator.BuildLogicalDevicesAndRoutes | IntelPresentMon/ControlLib/TelemetryCoordinator.cpp:322-445 | All identified provider devices are correlated, every route is best, and both survive the renumbering |
| TelemetryProofs.AttachSound | IntelPresentMon/ControlLib/TelemetryCoordinator.cpp:340-363 | Each provider device belongs to one logical device, matches an earlier one of it, and reports itself as the system exactly if that is the system device |
| TelemetryProofs.CoverageExact | IntelPresentMon/ControlLib/TelemetryCoordinator.cpp:398-415 | Counting a provider device among the candidates counts the metrics it offers |
| TelemetryProofs.FirstIsBest | IntelPresentMon/ControlLib/TelemetryCoordinator.cpp:417-440 | The first candidate has the widest coverage, then the longest array, then the lowest position, among all that offer the metric |
| TelemetryChoice.BestIsWidest | IntelPresentMon/ControlLib/TelemetryCoordinator.cpp:417-440 | In numbers: no offer for the metric comes from a provider device that offers more metrics, none of equal width has a longer array, as far as 32 bits tell, and none of those comes earlier |
| TelemetryChoice.ResolvedExactly | IntelPresentMon/ControlLib/TelemetryCoordinator.cpp:725-771 | What is known of a logical device is what the first of its provider devices says that knows it, and it is integrated if any says so |
| TelemetryChoice.MatchesExactly | IntelPresentMon/ControlLib/TelemetryDeviceFingerprint.cpp:31-63 | Two reports match if and only if both are the system, or they agree in type and vendor and share both PCI numbers, the bus, or a name |
| TelemetryChoice.NormalizeTwice | IntelPresentMon/ControlLib/TelemetryDeviceFingerprint.cpp:11-22 | Names are compared as plain letters and digits |
| TelemetryChoice.NormalizeOne | IntelPresentMon/ControlLib/TelemetryDeviceFingerprint.cpp:15-20 | A letter or digit counts, whatever its case, and nothing else does |
| TelemetryProofs.BestRouteUnique | IntelPresentMon/ControlLib/TelemetryCoordinator.cpp:417-440 | The provider devices and their order determine every route |
| TelemetryProofs.OrderUnique | IntelPresentMon/ControlLib/TelemetryCoordinator.cpp:487-505 | The ranking of given logical devices does not depend on the order in which the hash table is visited |
| TelemetryUnique.OneResultExactly | IntelPresentMon/ControlLib/TelemetryCoordinator.cpp:322-363 | Correlating provider devices in a given order has one result if and only if none matches two logical devices when its turn comes |
| TelemetryUnique.OutcomeUnique | IntelPresentMon/ControlLib/TelemetryCoordinator.cpp:322-558 | Then, given the order in which every provider lists its devices, nothing that a build decides depends on the order in which other hash tables are visited: logical devices, routes and numbers are unique |
| TelemetryUnique.TransitiveUnambiguous | IntelPresentMon/ControlLib/TelemetryCoordinator.cpp:675-700 | Transitive matching is a sufficient condition on the fingerprints alone |
| TelemetryUnique.BridgeExample | IntelPresentMon/ControlLib/TelemetryCoordinator.cpp:678-700 | A catalog and a listing with two different outcomes: a provider device matches two logical devices and may join either |
| TelemetryUnique.ListingExample | IntelPresentMon/ControlLib/TelemetryCoordinator.cpp:332-340 | Two equal adapters get their numbers from the order in which their provider lists them |
| TelemetryProofs.RenumberedExact | IntelPresentMon/ControlLib/TelemetryCoordinator.cpp:507-557 | The numbers are exactly 1 to n besides the system device, and the k-th GPU of the ranking has the number k |
| TelemetryProofs.NoneLostExactly | IntelPresentMon/ControlLib/TelemetryCoordinator.cpp:515-552 | Every device keeps its providers and routes under some number if and only if no GPU gets that of an existing system device |
| TelemetryRuns.LostDeviceRun | IntelPresentMon/ControlLib/TelemetryCoordinator.cpp:515-552 | A build with at least 65536 adapters beside the system loses a device |
| TelemetryProofs.RenumberedSound | IntelPresentMon/ControlLib/TelemetryCoordinator.cpp:507-557 | Renumbering keeps the correlation |
| TelemetryProofs.DiscreteFirst | IntelPresentMon/ControlLib/TelemetryCoordinator.cpp:487-505 | Every GPU that no provider calls integrated has a smaller number than one that some provider does |
| TelemetryChoice.StrongerFirst | IntelPresentMon/ControlLib/TelemetryCoordinator.cpp:482-505 | Among adapters of one kind a smaller number means no less power if every GPU's limit is known, and otherwise no less memory, known before unknown; equal ones keep their order |
| DigitGrouping.AddCommas | PresentData/Debug.cpp:39-57 | The overlapping copy in place leaves the grouped digits, a terminator, and the rest of the buffer alone |
| DigitGrouping.GroupedKeepsDigits | PresentData/Debug.cpp:39-57 | Deleting the commas gives back the digits |
| DigitGrouping.GroupedLength | PresentData/Debug.cpp:44-53 | The length is r + (r - 1) / 3 |
| DigitGrouping.CommaFollowedByTriples | PresentData/Debug.cpp:44-51 | No text starts with a comma, and every comma is followed by a multiple of three digits |

## Left out

Assumptions about the events:

- Presents of one process start at strictly increasing times, and a present's stop is not before its start.
- Keys, thread ids of creating events and context handles are nonzero, where the original uses zero for "none".
- The swap-chain address of a present is fixed when it is created; assigning it at a later flip event is not modelled.
- Toggle times do not decrease.
- Whether the process of a present is known and a target when it is handled, and which chains of ended processes are gone by then, is given with the present.

What the model does not cover:

- Decoding of events, trace sessions, provider enabling, CSV and console output, and the overlay.
- The indexes by display layer and by window and the queue of presents waiting for the compositor: their entries can differ from the keys of the present.
- The loops in which HandleDxgkBlt, HandleDxgkFlip and HandleDxgkPresentHistory retry after losing a present that was found by mistake, and the present modes they deduce.
- Application timing, PC latency, input and NVIDIA data that is copied into presents.
- The flip frame types that arrive before their present and are kept for it.
- Waiting on addresses and condition variables: guards of atomic steps. A producer that waits for room resumes after one dequeue of all that is ready.
- The metrics in a row, averages, and the removal of chains that were not updated for four seconds.
- PresentTokens.TokenTakenExactly: for a completed taker that is not at the head of a ring with room, the condition is that it is let go meanwhile, which depends on when the output thread dequeues.
- PresentProofs.DependentsOvertakeExactly: the dependents of the frame that completes; those of the compositor's earlier frames that complete along with it are covered only as far as what is displayed (PresentProofs.DisplayedInOrder).
- Log messages, and providers or devices that disappear while they are queried.
- PresentConsumer.PMTraceConsumer.StopTrackingPresent: not the entries by display layer and by window, nor those that wait for the compositor.
- PresentProofs.StopTrackingPurges: not the entries by display layer and by window, nor those that wait for the compositor.
- PresentConsumer.PMTraceConsumer.MatchFrameIds: input and click times of a generated frame are not handed on.
- PresentConsumer.PMTraceConsumer.RuntimePresentStop: application timing and hybrid presentation are not recorded.
- PresentConsumer.PMTraceConsumer.HandleDxgkQueueSubmit: the packet is not enqueued for the GPU; GpuTracker.GpuTrace.EnqueueQueuePacket models that.
- PresentConsumer.PMTraceConsumer.HandleDxgkQueueComplete: the packet and the frame are not completed for the GPU; GpuTracker.GpuTrace models both.
- PresentConsumer.PMTraceConsumer.EndFlipFrameTypes: the present of the layer is given; the index that finds it is not modelled.
- PresentConsumer.PMTraceConsumer.CompleteEarlierPresents: the next entry is searched for again after a nested call. The iterator that the original keeps instead stays valid by PresentLoops.NextSurvives if only the compositor has dependents; without that assumption nothing is said about it.
- PresentConsumer.PMTraceConsumer.HandleDxgkPresentHistoryInfo: only the token index; the hand-over to the compositor is not modelled.
- PresentConsumer.PMTraceConsumer.TakeDxgkToken: only the token of HandleDxgkPresentHistory.
- PresentConsumer.PMTraceConsumer.WithdrawPresent: the withdrawn present has no context key, which only Windows 7 sets.
- PresentConsumer.PMTraceConsumer.ResetPresentTrackingData: the reset of the structures that are modelled; the wait before it is the subject of QuiesceGate.
- PresentConsumer.PMTraceConsumer.Retire: an overdue head keeps waiting for its frame id, as the original leaves that flag set.
- GpuTracker.GpuTrace.RegisterHwQueueContext: the handle is fresh, as the original asserts.
- Telemetry.TelemetryCoordinator.ReassignGpuLogicalDeviceIdsByMemorySize: power limits are real numbers, so a limit that is not a number is not modelled; the sort of the standard library is an insertion sort with the same result.
- DigitGrouping.AddCommas: the digits are in the buffer; formatting the number is not part of this model.
