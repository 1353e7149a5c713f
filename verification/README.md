# Hello-flow delivery, bulk-transfer tables and radio probe: a verified model

The firmware sends one message at a time over one of three Sidewalk transports (BLE, FSK, LoRa).
`app/src/cli/app_dut.c` brings a link up, retries, falls back to other links, waits on timeouts and
matches the asynchronous results of the stack.  Every handler runs to completion on one thread, so
the protocol is a state machine, and the Sidewalk stack is an arbitrary environment that may answer
every call and report every status in any way.

The project has four parts.

* **The hello flow.**  `FlowModel` gives each handler as a function from state to state over an
  oracle for the stack, with a log of stack calls and a log of what was decided about messages.
  `HelloFlow` has the statics of `app_dut.c` as a class over 32-bit link masks, with the handlers in
  place; each is proved to do to the abstract state what `FlowModel` says.  `LinkMasks` ties the mask
  helpers to transports.  `FlowInvariant` and `FlowSteps` keep the invariant through the mutual
  recursion and every handler; `FlowRecursion` bounds one handler and `FlowTimer` follows the timeout
  work through all of them.  `FlowCalls` and `FlowConduct` say what each event makes the flow do, told
  from the links: what it stops and starts, what it puts first, what it waits for.
  `FlowDelivery`, `FlowRuns` and `FlowCompletion` hold the results about whole runs; `FlowWitness` holds
  runs that show why their provisos are needed.
* **The system around it.**  `EventQueue` states the bounded queue of `sidewalk.c` as a state
  machine with the memory that travels through it and the timeout work that posts to it; `QueueRuns`
  has the results about its runs and `QueueTimeouts` says when a wait can lose its timeout; the
  class `EventLoop` does it in place over `HelloFlow`, action by action, so the results about all
  runs hold of every state of the object.  `Targets` has the target names of `app_shell.c`,
  `SendOptions` the option loop of its send commands, and the class `Shell` the commands with every
  heap block of a message, from its allocation to the one place that frees it.
* **Bulk data transfer.**  `ScratchBuffer` and `Transfer` are the two static arrays with their
  callbacks, in place; `SlotTables` reads an array of slots as a partial map; `TransferModel` states
  a session as a state machine; `Crc` proves that the incremental update is the CRC-32 of section
  3.2.9 of IEEE 802.3.
* **Bounded arithmetic and printing.**  `Rssi` and `Sweep` cover the receive window of the FSK probe
  and its frequency sweep in the integer types of the code (`CInts`); `Printing` and `Payload` print
  the sensor and power payloads through `snprintk`, and `Json` reads them back (RFC 8259).

Vocabulary.  A message is *covered* when it is in flight, or when a wait stage is armed and the
target is the message's own link.  An error is *discarded* in the two calls of `reach_target` that
cast their result away while the pending message itself is to be sent (app_dut.c:937-938 and
app_dut.c:1260).  A *retarget* is a set or switch that reaches a new target while a message is
pending; its call (app_dut.c:1217) casts the result away too, and counts as a retarget whatever that
was.  A *tag* names the heap block of one send context.  A wait is *watched* while its timeout work
is scheduled; the work comes due at any time, on another thread, and posts the timeout event.  A link
is *open* when it is reported ready and, for LoRa, the time is known.

What the model found out about the code:

* A set or switch can strand a pending message, and so can an error that is discarded.
  `FlowDelivery.StrandedExactly` says from the state before a step whether it strands a message; a run
  with no such step leaves none behind (`FlowRuns.NeverStranded`).
* No LoRa start before time sync rests on the LoRa retry limit of zero: with any other limit it is
  false (`FlowWitness.NoLoraBeforeTimeExactly`).
* The branch of `dut_flow_transition` that repeats a refused stop is never taken
  (`FlowInvariant.StaleStopNeverRetried`).
* Replies keep the id of the message they answer, so fresh ids do not tell their attempts apart: two
  attempts are confused exactly when both are replies to one id on one link, always after a retry and
  never after a fallback (`FlowCompletion.CompletionExactly`; `FlowWitness.ResponsesAreMistaken` is
  one such run).
* Six producers ignore the result of queueing a heap context, and leak it when the queue is full: the
  status (app/src/cli/app.c:94), the two timers of the bulk transfer
  (app/src/cli/sbdt_shell_file_transfer.c:134 and 213), and its cancel, stats and params commands
  (app/src/cli/sbdt_shell.c:133, 329 and 349).  With the first of the timers the received bytes are
  never given back to the stack.  A cancel command with bad arguments leaks its context at any time
  (app/src/cli/sbdt_shell.c:114-131).  No other context leaks (`QueueRuns.LeaksExactly`).
* A timeout event that meets a full queue is lost (app_dut.c:596), and with it the only thing that
  would have ended the wait: a covered message then waits until some other event moves the flow
  (`QueueTimeouts.TimeoutIsMissed`).  No wait loses its timeout in another way (`QueueTimeouts.WaitWatched`).
* The send commands lose the payload they hold when a later `-r` reaches the allocator, whether they
  succeed or fail (`SendOptions.SecondPayloadLosesFirst`, `Shell.Shell.FlowSend`); a later `-r` that
  cannot be read loses nothing, and nothing else of a message is lost.
* A scratch slot stays taken when its allocation fails or when its id is requested again, and refuses
  that id until the stack releases it (`TransferModel.OrphanRefuses`).
* Starting a bulk session does not clear the infos of an earlier one
  (`Transfer.TransferTable.StartSession`).
* All transfers share one stored CRC, so a file's CRC is right exactly when the value read with its last
  chunk is the CRC of the bytes before, whatever the storage answers (`TransferModel.ReportsAnyStorage`);
  with working storage that value is the CRC of the stream in the record
  (`TransferModel.ReportsFileCrcExactly`).
* A sweep whose stop lies one step below its start divides by zero (`Sweep.NoStepsExactly`).

## Model

| member | source | states |
|---|---|---|
| FlowRuns.ReachableShape | app/src/cli/app_dut.c:94-116 | in every reachable state: in flight implies pending, pending implies flow mode and its link marked as attempted, flow mode implies a handle, a wait stage implies flow mode and a target, and at most two transmit retries are counted |
| FlowRuns.NeverSilentlyStranded | app/src/cli/app_dut.c:1221-1262 | in every run from boot, for every stack, a pending message is in flight or waited for on its own target, unless a set or switch came while it was pending or one of the two discarded errors occurred |
| FlowDelivery.StrandedExactly | app/src/cli/app_dut.c:753-842 | a step of any kind strands a covered message if and only if, in the state before it, a set or switch goes to another link and cannot send the message on the way, or a send or a failed result with a retry left cannot reach its link while no wait is armed |
| FlowDelivery.SetStrandsExactly | app/src/cli/app_dut.c:1205-1219 | a set leaves a covered message covered if and only if the message is in flight, the target is its own link, or target and link are both ready, the target is not LoRa without time, and no stop or start that the change needs is refused |
| FlowDelivery.SendDiscards | app/src/cli/app_dut.c:1221-1262 | a send discards an error if and only if the session opens, the new link is not ready, and the stop or start towards it is refused |
| FlowDelivery.ResultDiscards | app/src/cli/app_dut.c:926-938 | a result discards an error if and only if it matches, failed, leaves a retry, the link is not ready, and the stop or start towards it is refused |
| FlowRuns.NeverStranded | app/src/cli/app_dut.c:753-842 | a run none of whose events meets the stranding condition ends with its message in flight or waited for |
| FlowDelivery.StrandedRecovers | app/src/cli/app_dut.c:1151-1186 | a stranded message is covered again by the first status that reports its link ready |
| FlowRuns.BoundedTransmissions | app/src/cli/app_dut.c:913-942 | over its whole life the stack accepts a message at most nine times, three transports with one send and two retries each, and at most twice more per retarget |
| FlowRuns.StrictTransmissions | app/src/cli/app_dut.c:647-654 | over its whole life the stack accepts a message that forbids fallback at most three times, and at most twice more per retarget |
| FlowWitness.NineReached | app/src/cli/app_dut.c:913-942 | nine is reached: a message that fails on all three links is accepted nine times without any retarget |
| FlowRuns.StrictStays | app/src/cli/app_dut.c:647-654 | every `sid_put_msg` of a message that forbids fallback, accepted or refused, uses the link it was sent for |
| FlowRuns.NoLoraBeforeTime | app/src/cli/app_dut.c:805-818 | every `sid_start` with the LoRa bit comes after a TIME_SYNCED status of the current flow session |
| FlowWitness.NoLoraBeforeTimeExactly | app/src/cli/app_dut.c:28-30 | that holds of all runs and all stacks if and only if no LoRa link retry is configured |
| FlowWitness.LoraRetryBreaks | app/src/cli/app_dut.c:737-750 | with a LoRa retry, three events lead to a LoRa start without time |
| FlowRuns.FreedExactlyOnce | app/src/cli/app_dut.c:76-87 | a message handed to the flow once is either pending and not freed, or freed exactly once; through replacement, refused sessions, cancel, failure, success and resets |
| FlowDelivery.StepCounts | app/src/cli/app_dut.c:1231-1248 | each event conserves the copies of a message, adds one for a send, settles only the attempt that a matching result names, and counts a timeout only where one fires |
| FlowDelivery.DroppedExactly | app/src/cli/app_dut.c:601-615 | a status, timeout or result takes a pending message away if and only if it was delivered, or its link was given up and the message is strict, has no link left, or the chosen fallback could not be started |
| FlowDelivery.ExhaustedExactly | app/src/cli/app_dut.c:657-683 | there is no fallback link if and only if FSK was attempted, BLE was if it is up, and LoRa was if it is up or time is cached |
| FlowDelivery.TransitionFails | app/src/cli/app_dut.c:532-590 | a transition fails if and only if the link differs and the stop or the start it needs is refused |
| FlowDelivery.FallBackDrops | app/src/cli/app_dut.c:617-645 | giving up a link drops the message if and only if it is strict, exhausted, or the start that the fallback needs is refused |
| FlowDelivery.TimeoutProgress | app/src/cli/app_dut.c:686-751 | a timeout that finds a wait stage and a pending message drops it or strictly grows its attempted links |
| FlowCompletion.BoundedTimeouts | app/src/cli/app_dut.c:686-751 | a pending message has survived at most two timeouts, none if strict, and at most three fire in its life |
| FlowCompletion.ExactCompletion | app/src/cli/app_dut.c:844-911 | with fresh ids for accepted messages other than replies, a result changes the state only if its attempt is the one in flight |
| FlowCompletion.MistakenExactly | app/src/cli/app_dut.c:890-911 | in every run, with a message in flight, a result of any accepted attempt changes the state if and only if it carries the descriptor in flight; its own result always does, and with fresh ids only a reply's can do so wrongly |
| FlowCompletion.CompletionExactly | app/src/cli/app_dut.c:767-772 | with fresh ids, and replies that keep theirs, a result changes the state if and only if its attempt is in flight, or both are replies to one id on one link; for two attempts of one reply, if and only if they used one link |
| FlowCompletion.SettledAtMostOnce | app/src/cli/app_dut.c:890-911 | in every run, whatever results the stack reports, each attempt settles at most once |
| FlowCompletion.DescNamesAttempt | app/src/cli/app_dut.c:844-851 | with fresh ids, two accepted attempts under one descriptor are the same attempt |
| FlowWitness.DiscardStrands | app/src/cli/app_dut.c:1260 | a send whose link start fails leaves its message pending with no wait armed |
| FlowWitness.SetStrands | app/src/cli/app_dut.c:1205-1219 | such a run: a set for another link, then its status, leave a waiting message with no wait armed and nothing discarded |
| FlowWitness.ResponsesAreMistaken | app/src/cli/app_dut.c:767-772 | a second result of the first attempt of a reply settles its retry although all other ids are fresh |
| FlowTimer.StepTended | app/src/cli/app_dut.c:442-471 | the timeout work is scheduled for a wait stage only; no handler leaves a wait stage without it, a fired timeout always ends or restarts the wait, and only the work itself, when it runs, leaves one unwatched |
| FlowCalls.SeenExactly | app/src/cli/app_dut.c:139-192 | the flow takes itself to be on LoRa, FSK or BLE, in this order, if the status reports one; else on the configured link, else on the one it started last |
| FlowCalls.RestartCalls | app/src/cli/app_dut.c:532-590 | a restart stops the link the flow is on and starts the goal only if that was granted; after a granted start it sets the automatic BLE connection up, for a target with the BLE bit, once per session and the parameters only after the policy, and requests the connection for BLE alone; these are all its calls, and it succeeds if and only if stop and start are granted |
| FlowCalls.StayCalls | app/src/cli/app_dut.c:538-546 | from the goal itself nothing is stopped or started; BLE is asked to connect |
| FlowCalls.ReachBegins | app/src/cli/app_dut.c:798-842 | the first calls on the way to a link, whatever follows, are the stop and the start that lead to it, or to FSK for LoRa before the time is known |
| FlowConduct.TryPutsFirst | app/src/cli/app_dut.c:753-796 | a pending message whose link is ready and that is not in flight is put first, on its link; a granted put leaves it in flight, a refused one of a strict message waits for its link again |
| FlowConduct.RefusedMovesOn | app/src/cli/app_dut.c:771-781 | after a refused put a message that may fall back moves to the next link in the order |
| FlowConduct.RefusedWaitsAgain | app/src/cli/app_dut.c:781-790 | after a refused put with no link left the message waits for its link again |
| FlowConduct.ReachWaits | app/src/cli/app_dut.c:805-842 | a granted move to a link that is not open waits for it, or for FSK on the way to LoRa, with the message untouched |
| FlowConduct.ReachRefused | app/src/cli/app_dut.c:805-842 | a refused move leaves wait and message as they were, with the target changed |
| FlowConduct.ReachSends | app/src/cli/app_dut.c:826-831 | a granted move to an open link puts the message for that link next |
| FlowConduct.ReachArrives | app/src/cli/app_dut.c:826-831 | with nothing pending it ends the wait, and asks for nothing more |
| FlowConduct.NextLinkExactly | app/src/cli/app_dut.c:657-683 | the fallback is the link that a reported one precedes any other, BLE the other reported ones, LoRa a reported FSK, FSK the unreported, and LoRa comes last once the time is cached; no other link |
| FlowConduct.DropEnds | app/src/cli/app_dut.c:601-615 | a message that is dropped takes wait, target, retries and the ownership of the stack with it |
| FlowConduct.SessionStarts | app/src/cli/app_dut.c:473-518 | a closed session gives up an open handle, checks the data, initialises the stack, and on success forgets links, target, retries, policy and time |
| FlowConduct.SessionFirst | app/src/cli/app_dut.c:1205-1219 | a send or set on a closed session does what it does in the session it opens |
| FlowConduct.SendMoves | app/src/cli/app_dut.c:1221-1262 | in an open session a message is put at once, as the first call, on its link if that is ready, with its retries as they are; otherwise the flow stops and starts towards the link and waits; an automatic message takes a reported link, BLE before LoRa before FSK, else FSK, and may fall back |
| FlowConduct.SendRefused | app/src/cli/app_dut.c:1231-1236 | a refused session frees the new message and keeps the old one |
| FlowConduct.SetRefused | app/src/cli/app_dut.c:1205-1213 | a set whose session is refused changes neither target, wait, retries nor message |
| FlowConduct.SetMoves | app/src/cli/app_dut.c:1205-1219 | a set stops and starts towards its target first, waits for it unless it is open, and forgets the retries; a refused one leaves the wait |
| FlowConduct.SwitchMoves | app/src/cli/app_dut.c:1188-1203 | a switch sets off from FSK to LoRa, from LoRa to BLE, and from anything else to FSK |
| FlowConduct.TimeoutMovesOn | app/src/cli/app_dut.c:686-735 | a timeout with the retries of its stage spent moves a message that may fall back to the next link: its first calls are the stop and the start that lead there, or to FSK on the way, and when granted it waits for the link or puts the message on it |
| FlowConduct.TimeoutRestarts | app/src/cli/app_dut.c:703-751 | with a retry left it counts one for the link of the stage, stops and starts that link, forced, and waits again |
| FlowConduct.SuccessCompletes | app/src/cli/app_dut.c:903-912 | a success frees the message, clears the count of transmit retries and asks nothing of the stack; links, target and wait stay |
| FlowConduct.FailureRetries | app/src/cli/app_dut.c:927-942 | a failure with a retry left counts it and puts the same message again on its link, at once if it is ready, else after reaching the link |
| FlowConduct.FailureMovesOn | app/src/cli/app_dut.c:914-925 | a last failure moves a message that may fall back to the next link, as a timeout does |
| FlowConduct.SuccessRenewsRetries | app/src/cli/app_dut.c:903-941 | after a success the next message on a ready link is put three times when its first two results are failures |
| FlowConduct.StatusLeavesFsk | app/src/cli/app_dut.c:1163-1176 | with target LoRa and nothing to send on FSK, a status that reports FSK up and LoRa down stops FSK and, if granted, starts LoRa, if and only if the time is known by then; it then waits for LoRa if both are granted and for FSK if one is refused |
| FlowConduct.StatusArrives | app/src/cli/app_dut.c:1178-1186 | any other status ends the wait for a ready target, puts first a message whose link is ready, and stops and starts nothing for it |
| FlowConduct.StatusQuiet | app/src/cli/app_dut.c:1151-1186 | a status of a stack that is not ready, or with no link up, moves nothing; outside flow mode a status is only stored |
| FlowConduct.LoraMessageGoes | app/src/cli/app_dut.c:798-842 | from boot, on a stack that grants every call: a LoRa message starts FSK, the status with FSK and the time stops FSK and starts LoRa, and the status with LoRa puts the message there |
| FlowConduct.CancelEnds | app/src/cli/app_dut.c:1270-1284 | a cancel frees the message, ends wait, target and ownership, and asks nothing of the stack |
| FlowConduct.ReportSees | app/src/cli/app_dut.c:343-377 | a status report brings the current link up to date and touches nothing else |
| FlowConduct.InitEnds | app/src/cli/app_dut.c:944-958 | a raw init blanks the flow and initialises the stack only after the data check |
| FlowConduct.DeinitEnds | app/src/cli/app_dut.c:960-971 | a raw deinit blanks the flow and gives up the handle |
| FlowConduct.StartStopEnds | app/src/cli/app_dut.c:973-985 | a raw start or stop blanks the flow and makes one call |
| FlowInvariant.StaleStopNeverRetried | app/src/cli/app_dut.c:556-570 | after synchronising, a refused stop is never repeated with another link: exactly one stop is issued and its error is returned |
| FlowInvariant.TryPendingKeeps | app/src/cli/app_dut.c:753-796 | sending or falling back keeps the invariant, and a message that could be sent or was covered ends covered |
| FlowInvariant.SelectFallbackKeeps | app/src/cli/app_dut.c:647-684 | a fallback that succeeds leaves the message covered and inside its transmission budget even when its retries were used up |
| FlowInvariant.FallbackToKeeps | app/src/cli/app_dut.c:617-645 | moving to an untried link restores the transmission budget; success covers the message, failure leaves it out of flight |
| FlowInvariant.ReachTargetKeeps | app/src/cli/app_dut.c:798-842 | reaching a target keeps the invariant; success covers a message for that target, failure changes the target only |
| FlowRecursion.TryPuts | app/src/cli/app_dut.c:753-842 | the mutual recursion puts a message at most once plus once for each link not yet tried, and a strict one at most once, however many sends are refused |
| FlowRecursion.PutsPerEvent | app/src/cli/app_dut.c:753-842 | from any reachable state one event leads to at most three `sid_put_msg` calls, and to at most one for a strict message |
| FlowModel.SelectFallback | app/src/cli/app_dut.c:647-684 | a fallback that succeeds has strictly more links marked; mode, time, handle, status and the message's identity stay |
| FlowModel.TryPending | app/src/cli/app_dut.c:753-796 | only link, attempted links and id of the pending message change, attempted links never shrink, and a strict message keeps its link |
| FlowModel.Candidate | app/src/cli/app_dut.c:657-683 | the link turned to is untried and next in the order: reported before unreported, BLE first and LoRa before FSK of the reported, else FSK, and LoRa after FSK once the time is cached |
| FlowSteps.StepKeeps | app/src/cli/app_dut.c:890-942 | every event keeps the whole-run invariant: shape, time before LoRa, transmission budget, strictness, and the attempt in flight being the last accepted and unsettled |
| FlowSteps.StatusKeeps | app/src/cli/app_dut.c:1151-1186 | a status keeps the invariant and a covered message covered |
| FlowSteps.TimeoutKeeps | app/src/cli/app_dut.c:686-751 | a timeout keeps the invariant, leaves a covered message covered, and discards no error |
| FlowSteps.ResultKeeps | app/src/cli/app_dut.c:890-942 | a result keeps the invariant and a covered message covered unless an error is discarded with no wait armed |
| FlowSteps.SendKeeps | app/src/cli/app_dut.c:1221-1262 | a send keeps the invariant and ends covered unless an error is discarded with no wait armed |
| FlowSteps.PrepareKeeps | app/src/cli/app_dut.c:473-518 | preparing a session keeps the invariant; in flow mode it does nothing, and success means flow mode |
| LinkMasks.StatusToTargetMask | app/src/cli/app_dut.c:139-154 | a reported status maps to the target mask of LoRa, else FSK, else BLE, and to zero exactly when none is up |
| LinkMasks.TargetForSendLink | app/src/cli/app_dut.c:243-254 | a single-transport link gets the target mask of that transport, anything else FSK |
| LinkMasks.Mark | app/src/cli/app_dut.c:268-280 | marking adds exactly the transport of the link to the attempted set |
| LinkMasks.Attempted | app/src/cli/app_dut.c:282-288 | a link counts as attempted if and only if it is one transport and that transport is marked |
| LinkMasks.FallbackMaskMeans | app/src/cli/app_dut.c:657-683 | the mask tests choose exactly the transport that the model's candidate is, and zero when there is none |
| LinkMasks.NormalizeHelloMask | app/src/cli/app_dut.c:520-530 | the three target masks are kept and every other mask becomes BLE |
| LinkMasks.MaskIsReady | app/src/cli/app_dut.c:221-230 | a single-transport link is ready if and only if the stack is and the transport is up |
| LinkMasks.TargetIsReady | app/src/cli/app_dut.c:232-241 | a target is ready if and only if the stack is ready and its transport is up; for LoRa the BLE bit does not matter |
| LinkMasks.MasksInvert | app/src/cli/app_dut.c:243-254 | transports, send links and target masks determine each other |
| HelloFlow.HelloFlow.CancelWait | app/src/cli/app_dut.c:442-446 | the stage is idle and the work cancelled, and nothing else changes |
| HelloFlow.HelloFlow.ScheduleWait | app/src/cli/app_dut.c:448-471 | the stage is entered and the work scheduled, and nothing else changes |
| HelloFlow.HelloFlow.SyncCurrentLinkMask | app/src/cli/app_dut.c:156-192 | the current link becomes the observed one; all other state stays |
| HelloFlow.HelloFlow.Transition | app/src/cli/app_dut.c:532-590 | the statics and the stack calls after a transition are those of the model, for every answer of the stack |
| HelloFlow.HelloFlow.PrepareSession | app/src/cli/app_dut.c:473-518 | a session is opened, or refused with the model's error, without touching the pending message |
| HelloFlow.HelloFlow.TryPendingSend | app/src/cli/app_dut.c:753-796 | the recursive send on the statics refines the model and terminates |
| HelloFlow.HelloFlow.SelectFallback | app/src/cli/app_dut.c:647-684 | the fallback choice over masks refines the choice over transports |
| HelloFlow.HelloFlow.FallbackTo | app/src/cli/app_dut.c:617-645 | moving the pending message to another link refines the model |
| HelloFlow.HelloFlow.ReachTarget | app/src/cli/app_dut.c:798-842 | reaching a target refines the model, with its error |
| HelloFlow.HelloFlow.FailPendingSend | app/src/cli/app_dut.c:601-615 | the message is freed and the flow releases the stack, as in the model |
| HelloFlow.HelloFlow.TimeoutEvent | app/src/cli/app_dut.c:686-751 | the timeout handler refines the model |
| HelloFlow.HelloFlow.TxResult | app/src/cli/app_dut.c:890-942 | the result handler refines the model for every reported link mask; one that is no single transport changes nothing |
| HelloFlow.HelloFlow.NewStatus | app/src/sidewalk_events.c:194-205 | a status is stored and steps the flow as in the model |
| HelloFlow.HelloFlow.FlowSet | app/src/cli/app_dut.c:1205-1219 | the set handler refines the model for every mask |
| HelloFlow.HelloFlow.FlowSwitch | app/src/cli/app_dut.c:1188-1203 | the switch handler refines the model |
| HelloFlow.HelloFlow.FlowSend | app/src/cli/app_dut.c:1221-1262 | the send handler refines the model and keeps at most the new context |
| HelloFlow.HelloFlow.FlowCancel | app/src/cli/app_dut.c:1270-1284 | cancel frees the pending message and refines the model |
| HelloFlow.HelloFlow.DutInit | app/src/cli/app_dut.c:944-958 | the raw init command resets the flow and refines the model |
| HelloFlow.HelloFlow.DutDeinit | app/src/cli/app_dut.c:960-971 | the raw deinit command resets the flow and refines the model |
| HelloFlow.HelloFlow.DutStartStop | app/src/cli/app_dut.c:973-985 | the raw start and stop commands reset the flow and refine the model |
| QueueRuns.MemoryConserved | app/src/sidewalk.c:33-48 | in every run of producers and consumer, every block allocated is in exactly one place: queued, pending, freed once, or leaked |
| QueueRuns.LeaksExactly | app/src/cli/sbdt_shell.c:112-135 | a context allocated is in no queue, not pending and never freed if and only if one of the six producers that ignore the answer posted it to a full queue, or a cancel command with bad arguments left it; every other is in exactly one of these places |
| QueueRuns.ContextsConserved | app/src/sidewalk.c:33-48 | in every run the contexts allocated, by the flow's producers and all others, are those freed, queued, pending and forgotten |
| QueueRuns.QueueIsFifo | app/src/sidewalk.c:72-95 | accepted events are handled in order, none lost and none twice, so a run of the system is a run of the flow |
| QueueRuns.PostExactly | app/src/cli/app_dut.c:853-878 | what becomes of each kind of event that is posted: dropped when nothing waits for it, else queued, or given up with its context freed, or lost by the six producers that ignore the answer |
| QueueRuns.MatchingAccepted | app/src/cli/app_dut.c:856-874 | in every run a result that matches the message in flight is accepted when there is memory and room |
| QueueRuns.TurnsHandle | app/src/sidewalk.c:33-48 | as many turns of the consumer as there are events before it bring every accepted event to its handler |
| QueueTimeouts.WaitWatched | app/src/cli/app_dut.c:592-599 | in every run of the system, while no timeout is queued, a wait stage has no work scheduled if and only if a timeout met a full queue and the wait was not ended or started again since |
| QueueTimeouts.PendingWatched | app/src/cli/app_dut.c:448-471 | a pending message that no event stranded is in flight, or the timeout that ends its wait is scheduled or queued, unless a timeout was missed |
| QueueTimeouts.TimeoutIsMissed | app/src/cli/app_dut.c:592-599 | such a run: an event fills the queue when the work comes due, and a covered message waits with no work scheduled and no event queued |
| QueueRuns.SystemBounds | app/src/sidewalk.c:33-48 | the transmission, timeout and hand-over bounds of the flow hold for every message of every run of the system |
| EventLoop.EventLoop.AnyTime | app/src/sidewalk.c:23-61 | at any time of the running object: every context allocated is queued, pending, freed once or leaked, transmissions are bounded, the flow invariant holds, no LoRa start came before time, and a wait is unwatched exactly after a missed timeout |
| EventLoop.EventLoop.Post | app/src/cli/app_dut.c:853-878 | with room, a result is appended if and only if flow mode is on and a message in flight; every other event but a timeout is appended whenever its context is granted and not abandoned, a status even without its copy; the accounts of contexts follow the system |
| EventLoop.EventLoop.Expire | app/src/cli/app_dut.c:592-599 | the timeout work that comes due is scheduled no more and posts a timeout, which is lost when the queue is full |
| EventLoop.EventLoop.EventSend | app/src/sidewalk.c:72-95 | an event is appended if there is room; otherwise the queue is unchanged and the producer keeps its context |
| EventLoop.EventLoop.DispatchOne | app/src/sidewalk.c:33-48 | the oldest event is taken, its handler steps the flow, its context is freed unless it is a send, and the events behind it keep their meaning |
| Targets.ParsedTargets | app/src/cli/app_shell.c:218-276 | every accepted target name is automatic or a link with its own target mask, and forbids fallback exactly when it is one of the strict names |
| Targets.NamesMean | app/src/cli/app_shell.c:218-276 | `auto` and `any` ask for an automatic link, and every other accepted name for the transport it names; the five plain names allow fallback, the strict ones do not, and any other word is refused |
| Targets.StrictCommandStays | app/src/cli/app_shell.c:1082-1104 | in every run of the system, a message sent with a strict target name is only ever put on the transport that the name says |
| SendOptions.RepeatedPayloads | app/src/cli/app_shell.c:931-953 | a command with any number of readable `-r` payloads keeps the last and asks the allocator for each |
| SendOptions.SecondPayloadLosesFirst | app/src/cli/app_shell.c:947 | `send fsk -r 00 -r 01` is accepted, keeps the second payload and loses the first |
| SendOptions.OptionsReadBack | app/src/cli/app_shell.c:856-1025 | options written out for a message, all but the payload, read back as its type, mode, attribute, link, reply id, acknowledgement, retries in eight bits and time to live |
| SendOptions.WordSkipped | app/src/cli/app_shell.c:856-1041 | any other word is passed over, so that the last one can be the payload |
| SendOptions.StepRefused | app/src/cli/app_shell.c:856-986 | a missing value, or one the option does not take, is refused |
| SendOptions.AckRefused | app/src/cli/app_shell.c:988-1023 | so are wrong values of the acknowledgement option |
| SendOptions.StepSound | app/src/cli/app_shell.c:855-1027 | an option loses the payload held before exactly when it asks for another one, granted or not |
| Shell.Shell.AllocSend | app/src/cli/app_shell.c:838-1061 | on success the command holds one message with the last payload or the last argument, and the kind, link, mode, transmit attributes and reply id that the options ask for; every earlier payload is lost, and on failure nothing else stays |
| Shell.Shell.AllocPayloadSend | app/src/cli/app_shell.c:611-646 | message and payload are allocated together, as a notification that asks for an acknowledgement with three retries and sixty seconds, or nothing stays allocated |
| Shell.Shell.QueueSend | app/src/cli/app_shell.c:573-609 | the message moves, attributes and all, into one queued context, or all its memory is freed and the queue is unchanged; the remembered link changes once the context is allocated |
| Shell.Shell.FlowSend | app/src/cli/app_shell.c:1082-1104 | the target name decides link and fallback whatever link an option named; the error is that of the first thing that fails; exactly the payloads before the last are lost, one fewer than the allocator was asked for, on success and on failure |
| Shell.Shell.SampleSend | app/src/cli/app_shell.c:783-836 | a printed payload is queued or all its memory freed, and nothing is lost |
| Shell.Shell.Dispatch | app/src/cli/app_dut.c:76-87 | handling an event frees the two blocks of every message that the flow noted as freed, each while it is live, and leaves the heap with the blocks of the queued and pending messages |
| Shell.Shell.PostOther | app/src/cli/app_dut.c:853-878 | other producers touch no message |
| Shell.Shell.Expire | app/src/cli/app_dut.c:592-599 | nor does the timeout work |
| Shell.Shell.TwoBlocksEach | app/src/cli/app_shell.c:573-609 | between commands the live blocks are the lost payloads and two for each queued and pending message |
| SlotTables.FullExactly | app/src/sbdt/scratch_buffer.c:43-59 | a table of slots with distinct keys is full exactly when no slot is free |
| SlotTables.FillSlot | app/src/sbdt/scratch_buffer.c:61-67 | taking a free slot for a new key adds that one entry to the map |
| SlotTables.ClearSlot | app/src/sbdt/scratch_buffer.c:74-94 | freeing a slot removes that one entry from the map |
| ScratchBuffer.ScratchTable.Init | app/src/sbdt/scratch_buffer.c:23-28 | the table becomes the empty map and no block changes hands; it is sound afterwards if and only if no buffer was held |
| ScratchBuffer.ScratchTable.Deinit | app/src/sbdt/scratch_buffer.c:30-41 | every live buffer is freed, once, and the table becomes the empty map |
| ScratchBuffer.ScratchTable.Create | app/src/sbdt/scratch_buffer.c:43-72 | a slot is taken exactly for a usable new id with room left, a buffer returned exactly if the allocation then works; the live blocks grow by that buffer only, and the reserved id changes nothing |
| ScratchBuffer.ScratchTable.Scan | app/src/sbdt/scratch_buffer.c:45-59 | the scan refuses assigned ids and otherwise finds a free slot if there is one |
| ScratchBuffer.ScratchTable.Remove | app/src/sbdt/scratch_buffer.c:74-94 | the id leaves the map and exactly its buffer is freed |
| TransferModel.SessionConsistent | app/src/cli/sbdt_shell_file_transfer.c:59-125 | in every run of a session started with both tables empty, every info stands under its own id and owns the scratch buffer of that id, also under duplicate ids, full tables and failed allocations |
| TransferModel.TransferLives | app/src/cli/sbdt_shell_file_transfer.c:88-125 | a transfer keeps its size and its buffer until its own release or a repeated request, whatever other transfers do |
| TransferModel.OrphanRefuses | app/src/sbdt/scratch_buffer.c:61-67 | a slot left without an info refuses its id until it is released |
| TransferModel.ReportsFileCrc | app/src/cli/sbdt_shell_file_transfer.c:162-188 | for any split of a file into chunks delivered in order with working storage, while no other transfer receives data, a CRC is reported exactly with the chunk that completes the file, and it is the CRC-32 of the whole file |
| TransferModel.RequestReports | app/src/cli/sbdt_shell_file_transfer.c:93-188 | from an accepted request on: its file in order is reported exactly with the chunk that reaches the size named in that request, with the CRC-32 of the file if and only if the value read with that chunk is right, whatever else happens |
| TransferModel.RequestReportsFile | app/src/cli/sbdt_shell_file_transfer.c:93-188 | with working storage and no other data meanwhile, the CRC reported for a requested file is its CRC-32 |
| TransferModel.ReportsAnyStorage | app/src/cli/sbdt_shell_file_transfer.c:162-188 | for every interleaving of transfers and every answer of the storage, the completing chunk reports a CRC, and it is the CRC-32 of the file if and only if the value read with that chunk, zero when it is missing or unreadable, is the CRC-32 of the bytes before |
| TransferModel.ReportsFileCrcExactly | app/src/cli/sbdt_shell_file_transfer.c:162-188 | for every interleaving of transfers with working storage, the CRC reported for a file is right if and only if its last chunk is its first, or the bytes handled since the last chunk at offset zero of any transfer have the CRC-32 of the file's bytes before |
| TransferModel.NextCrcExactly | app/src/cli/sbdt_shell_file_transfer.c:162-177 | the same of the running CRC after every chunk |
| TransferModel.RecordIsStream | app/src/cli/sbdt_shell_file_transfer.c:162-188 | the stored record is the CRC of the bytes handled since the last chunk at offset zero |
| TransferModel.SharedRecordExactly | app/src/cli/sbdt_shell_file_transfer.c:162-188 | when another transfer's first chunk comes between two chunks, the reported CRC is right exactly when the two first chunks have equal CRCs |
| Transfer.TransferTable.StartSession | app/src/cli/sbdt_shell_events.c:16-25 | all scratch buffers are freed; the two tables agree afterwards exactly when no info was left over |
| Transfer.TransferTable.ScratchLive | app/src/cli/sbdt_shell_file_transfer.c:111-124 | no info points at a freed buffer, and no two infos share one |
| Transfer.TransferTable.GetFileInfoById | app/src/cli/sbdt_shell_file_transfer.c:29-37 | finds the consumed info of the id if and only if there is one |
| Transfer.TransferTable.AllocateNewInfo | app/src/cli/sbdt_shell_file_transfer.c:39-50 | adds one info under the id, or fails exactly when all are consumed |
| Transfer.TransferTable.ReleaseInfo | app/src/cli/sbdt_shell_file_transfer.c:52-57 | removes exactly the info under that id |
| Transfer.TransferTable.OnTransferRequest | app/src/cli/sbdt_shell_file_transfer.c:59-125 | both arrays end as the session model says; a request gets a buffer, fresh and live, and an info with its own size, block size, scratch size and descriptor, exactly when its id is usable and has no slot, a slot is left and the allocation works, and is then answered with the configured action, which keeps info, slot and buffer even when it is to reject; otherwise it is rejected and ends an earlier transfer of its id |
| Transfer.TransferTable.OnReleaseScratchBuffer | app/src/cli/sbdt_shell_file_transfer.c:245-254 | info and slot of the id are gone and its buffer is freed |
| Transfer.TransferTable.OnDataReceived | app/src/cli/sbdt_shell_file_transfer.c:144-188 | for every storage answer the info gets the chunk's offset and the CRC continued from the value read, the record keeps it if it was written, and it is reported exactly when the chunk ends at the file size; no other chunk changes anything; the timer that returns the bytes is armed for every handled chunk that finds memory |
| Crc.UpdateIsCrc32 | app/src/cli/sbdt_shell_file_transfer.c:177 | the update from zero is the CRC-32 of section 3.2.9 of IEEE 802.3, defined by polynomial division |
| Crc.UpdateConcat | app/src/cli/sbdt_shell_file_transfer.c:165-177 | updating with two chunks in turn is updating with both at once |
| Crc.UpdateInjective | app/src/cli/sbdt_shell_file_transfer.c:177 | different CRCs stay different under the same data |
| Crc.PolynomialIsGenerator | app/src/cli/sbdt_shell_file_transfer.c:177 | the reflected constant is the generator polynomial of the standard |
| Crc.RegisterDivides | app/src/cli/sbdt_shell_file_transfer.c:177 | a shift register holds the remainder of polynomial long division |
| Rssi.RssiStats.Reset | fsk_probe/src/main.c:107-114 | the statistics stand for no sample |
| Rssi.RssiStats.Sample | fsk_probe/src/main.c:116-134 | while the sum stays a 32-bit number, the sample is added, unless it means that there is none; minimum, maximum, last, 32-bit sum and count are those of all samples |
| Rssi.RssiStats.Average | fsk_probe/src/main.c:136-146 | the truncating quotient of sum and count exists exactly when there are samples, and lies between minimum and maximum |
| Rssi.WaitRadioEvent | fsk_probe/src/main.c:148-178 | on a clock that does not run back the wait ends with the first event, error or late round; a round that goes on takes a sample if and only if its reading lies at least a period after the last sample, or it is the first; no more samples than fit are taken |
| Rssi.SamplesEnough | fsk_probe/src/main.c:165-170 | with at most a gap between clock readings, the last reading lies at most a period and three gaps per sample after the start, so that many samples are taken |
| Rssi.SpacedCount | fsk_probe/src/main.c:165-169 | instants a period apart, all but the last before the deadline, number at most two plus the whole periods in the window |
| Rssi.SampleLimitBound | fsk_probe/Kconfig:68-75 | within the configured ranges that is at most 60501 |
| Rssi.Window | fsk_probe/src/main.c:303-346 | one receive window has at most 60501 samples and a sum of at most 1982496768 in magnitude, and its average lies between the extremes |
| Sweep.OffsetOnGrid | fsk_probe/src/main.c:309-314 | with the start not above the stop, every window tunes to a grid offset between them, without overflow |
| Sweep.SweepsUpward | fsk_probe/src/main.c:306-314 | the first window tunes to the start, and every next one a step higher, or back to the start where that would pass the stop |
| Sweep.NoStepsExactly | fsk_probe/src/main.c:311 | the step count that the code divides by is zero exactly when the stop lies at least one and less than two steps below the start |
| Sweep.SweepWithoutWrap | fsk_probe/src/main.c:306-313 | any sweep without a wrap of the window counter takes every grid place exactly once |
| Sweep.WrapExactly | fsk_probe/src/main.c:306-313 | sweeps across the wrap do so too if and only if the number of places divides 2^32 |
| Sweep.RunWindows | fsk_probe/src/main.c:301-315 | in the loop, every stretch of as many windows as there are grid offsets covers the grid, each offset once, before the counter wraps, and across the wrap when the number of offsets divides 2^32 |
| Json.ReadsObject | app/src/cli/app_shell.c:677-690 | a written object is a JSON text that reads back as its members |
| Json.ReadsNumber | app/src/cli/app_shell.c:654 | a number printed with %d reads back as itself |
| Printing.Snprintk | app/src/cli/app_shell.c:654 | the buffer holds the text, cut to its size, and the result is the whole length |
| Printing.JsonIntOrNull | app/src/cli/app_shell.c:648-656 | the field is null exactly when invalid, else the decimal number, cut to the buffer |
| Printing.FieldWhole | app/src/cli/app_shell.c:667-674 | 12 characters hold every 32-bit number and 8 every 16-bit one, so no field is cut |
| Printing.FormatPrints | app/src/cli/app_shell.c:676-681 | a format of literal members around directives prints the JSON object of those members |
| Payload.FormatSensorPayload | app/src/cli/app_shell.c:667-697 | the payload holds the sensor object and its length, or the size error exactly when it does not fit; with 192 bytes it always fits |
| Payload.SensorFits | app/src/cli/app_shell.c:49 | every sample's sensor payload is shorter than 192 |
| Payload.SensorReads | app/src/cli/app_shell.c:667-697 | it is a JSON text whose fields read back as the sample's values, and null where invalid |
| Payload.SensorFields | app/src/cli/app_shell.c:676-690 | every name in it carries the reading of that name, or null where invalid |
| Payload.HumidityReadsBack | app/src/sensor_monitoring/app_sensor.c:324-325 | the humidity, a signed reading kept unsigned, reads back from the payload as the reading, whatever its sign |
| Payload.FormatPowerPayload | app/src/cli/app_shell.c:699-732 | the payload holds the power object and its length, or the size error exactly when it does not fit; with 160 bytes it always fits |
| Payload.PowerFits | app/src/cli/app_shell.c:50 | every sample's power payload is shorter than 160 |
| Payload.PowerReads | app/src/cli/app_shell.c:699-732 | it is a JSON text whose fields read back as the sample's values, and all null without a valid charger |
| Payload.PowerFields | app/src/cli/app_shell.c:709-725 | every name in it carries the reading of that name, all null without a valid charger |

## Left out

- The Sidewalk SDK, Zephyr, radio, heap and storage drivers are not part of this model: their answers are parameters.  A stack call does not call back into the flow while it runs; callbacks arrive as events.
- The numbers behind the SDK's link types are not in the repository: three distinct bits and a fourth value are used.  What an all-zero `sid_status` means is a parameter.
- The clock of the flow: scheduled timeout work may come due at any time, and runs in one step; how long a wait lasts is not modelled.
- The contexts of the bulk transfer timers exist from the callback on; here they are allocated when the timer posts its event.  The finalize callback does not check its allocation (app/src/cli/sbdt_shell_file_transfer.c:226-229); without memory it is taken to do nothing.  What the handlers of the bulk transfer do is modelled on the tables only.
- `dut_flow_sid` is written and never read; logging, the BLE advertiser and the shell registration are not modelled.
- The ship-mode path that clears the handle outside the flow (app/src/cli/app_cli_ui.c:311-327) is not modelled.
- `sidewalk_event_link_switch`, `sidewalk_event_autostart`, `sidewalk_event_exit` and the messages sent outside the flow are not modelled.
- EventLoop.EventLoop.EventSend: does not wait for room; the option that makes it wait (app/src/sidewalk.c:83-87) is set nowhere in the repository.
- SendOptions.StepSound: the C library's number and hexadecimal readers and the link numbers are parameters.
- Targets.StrictCommandStays: states the link of every put, not that the message is delivered.
- Transfer.TransferTable.OnTransferRequest: requires a descriptor that fits its field, which the code asserts of the stack; the response's untouched reject reason is zero.
- Transfer.TransferTable.OnDataReceived: does not model the log of fragments, nor the timer and the event that give the bytes back.
- TransferModel.ReportsFileCrc: a failed storage call is outside it, and covered by `TransferModel.ReportsAnyStorage`.
- `started_transfer` of the bulk context is written and never read; the finalize, cancel and error callbacks, which only log or start a timer, are not modelled.
- The transfer tables across sessions: `Transfer.TransferTable.StartSession` states exactly when they agree; no run over several sessions is stated.
- `dfu_file_transfer.c` forwards to unseen functions and resets the slots without freeing them.
- Crc.UpdateIsCrc32: `crc32_ieee_update` is not part of the repository; it is modelled bit by bit.
- Rssi.WaitRadioEvent: the uptime is an unbounded integer and reaches the deadline at some reading; without that the loop need not end.
- Json.ReadsObject: the reader accepts a part of JSON only (no white space, nesting, escapes or fractions), which is enough for these payloads.
- The telemetry payload, whose 8-byte charger fields can be cut, is not modelled.
- The sensor_monitoring application, the location, certificate and bulk command parsers, build files and overlays are not modelled.
