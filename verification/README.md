# A model of the agent runtime

This project models the backend's agent runtime and proves what it guarantees: the fan-out of work
to subagents and the fan-in of their results, the event hub of a conversation, the approval gate in
front of high-risk tools, the message history with its compaction, keyset paging, the seeding of
system agents and skills, and the cutting of tool results at a UTF-8 boundary.

`dafny verify dfyconfig.toml` checks everything.

## How it is organised

Concurrent code is modelled as step machines. `Next(state, action)` is one step of one goroutine, or
`None` where that goroutine stands elsewhere or is blocked; `After(actions)` is the state after a
whole run from the start. A theorem over all `actions` for which `After` is defined is a theorem over
all interleavings. Code that updates fields in place is modelled a second time as a class whose
methods are tied to the machine or the specification: the registry's and the hub's contracts name the
functions the machine's steps use, the cancel loop's updates are the machine's cancel steps, the
message store's contracts name the functions of the run loop, and the approval hook carries the whole
machine as a ghost field on which each of its methods performs a run of steps.

| files | what they model | source |
|---|---|---|
| `Machines` | runs of a step machine, shared by all of them | |
| `DispatchRegistry` | the registry's three maps and the wait groups, as classes | `server/internal/agent/dispatch.go` |
| `EventHub`, `HubInterleaving` | the hub: as a queue whose drain is one step, as a class, and with the drain loop taken apart into its test and its receive | `server/internal/agent/sse.go`, `server/internal/handler/stream.go` |
| `FanIn`, `FanInProofs`, `FanInTheorems` | orchestrator, subagents, registry, thread rows, cancel endpoint, hub and stream reader together; the parts of `Next` are `Orchestrated` (`run.go` 17-134, `service.go` 100-106), `Worked` (`subagent.go` 36-58, `dispatch.go` 43-52), `TableNext` and `HubNext` | `server/internal/agent/run.go`, `subagent.go`, `dispatch.go`, `service.go`, `server/internal/tool/builtin/dispatch_to_agent.go`, `server/internal/service/thread.go` |
| `ThreadEvents`, `FanInWitnesses`, `TerminalSignals`, `FanInHub`, `SeveralRuns` | what status events tell and how runs end; runs that reach the failures listed below; which terminal signals arrive; the same protocol over the hub whose drain is two steps; the registry alone under several runs at once | the same, and `server/internal/agent/sse.go` |
| `ThreadService` | the cancel loop as a class method, with other writers between its updates | `server/internal/service/thread.go` |
| `Approval`, `ApprovalProofs`, `ApprovalTheorems`, `ApprovalCalls`, `ApprovalDelivery`, `ApprovalHook` | any number of dispatch rounds, decision requests, timeouts and cancellations over approval rows and one-slot channels; then hook and endpoint as classes | `server/internal/hook/approval_hook.go`, `hook.go`, `server/internal/handler/approval_handler.go`, `server/internal/agent/tool_dispatch.go` |
| `Messages`, `Compaction`, `Reloads`, `CompactionRuns`, `OverlappingCompactions` | message rows, their listing order, tool pairing, one compaction and what later loads read of it, and any number of overlapping loads that compact and may fail at each write | `server/internal/agent/compaction.go`, `history.go` |
| `RunLoop`, `MessageStore`, `HistoryWitnesses` | the orchestrator's loop over the message table: what is persisted, loaded, compacted and sent at every turn; first as functions, then as the methods of a class; and tables on which the pairing fails | `server/internal/agent/run.go`, `tool_dispatch.go`, `history.go`, `compaction.go` |
| `Paging` | the list endpoint's query and a client that follows its cursor | `server/internal/service/message.go` |
| `Truncate` | truncation, and the encoder of RFC 3629, section 3 | `server/internal/tool/truncate.go` |
| `Seeding` | racing find-or-create callers, and the startup sequence | `server/internal/service/agent.go`, `skill.go`, `server/cmd/server/wire_gen.go` |

The model's replies, the outcomes of tools, the clock, fresh ids and every database failure are
inputs, so a theorem holds whatever they are unless it names a condition on them.

## Where the code and its comments disagree

The model follows the code. Each point below is a theorem, with the exact condition.

- A push is documented never to block (`sse.go` 76-78). If the reader takes the last queued event
  between the drain loop's test and its receive, the pusher waits for ever while it holds the mutex
  that every other pusher and `Close` need. This is the only way to get stuck
  (`StuckExactly`), and `queue_drained` itself can be the event that never gets out
  (`QueueDrainedCanBlockForEver`). It is also the only way in which the fan-in hangs
  (`FanInHangsExactly`, reached in `FanInCanHang`). A push that no read disturbs is the atomic push
  (`UndisturbedPushIsAtomic`), which is what `FanInTheorems` assumes.
- Neither terminal signal is always delivered, although the hub is drained for their sake (`sse.go`
  57-58, 76-78). Until the next run starts, each is received or still queued exactly if no later push
  has found 256 events queued while it was unread (`SignalArrivesExactly`). At a clean end that always
  holds of `queue_drained` (`CleanQueueDrainedArrives`), and of `round_done` exactly if
  `queue_drained` finds room (`CleanPairExactly`): with no read in between, unless exactly 255 events were queued
  (`TerminalPairExact`, reached in `RoundDoneGetsLost`). With a subagent still streaming, 254 can be
  enough, and both signals can go; with a reader in between, 255 do no harm
  (`StragglerLosesRoundDone`, `StragglerLosesBoth`, `ReaderSavesRoundDone`).
- After a run that did not end on `end_turn`, `queue_drained` need not be the last event: it can be
  overtaken exactly when some subagent has not announced its end (`QueueDrainedIsLastExactly`,
  reached in `QueueDrainedIsOvertaken`).
- A result need not be fanned in by its own run. A run that ends on `end_turn` skips the fan-in
  exactly when every subagent has recorded its result by the time the pending count is read
  (`FanInIsSkippedExactly`, reached in `ResultStaysBehind`); after any run the registry holds what was recorded since the last drain and
  counts what was not (`RegistryWhenIdle`).
- Nothing keeps two runs of one conversation apart (`handler/message.go` 75-76). A subagent added by
  one while the other is between its wait and its drain is forgotten: the pending count is short by
  it and falls below zero with its `Done` (`PendingIsRightExactly`, `PendingTurnsNegativeExactly`,
  reached in `AddBeforeDrainIsForgotten`).
- A recorded decision need not reach its call. It can still arrive exactly while the round has yet to
  take a value and a request, or a value in the slot, still carries it (`DecisionArrivesExactly`).
  So an approval is lost when its request looks for the channel before it is stored, when the timer
  or the context ends the wait first, whether or not the value was already sent, and when the row
  update was reported as failed (`EarlyLookupLosesApproval`, `TimeoutBeforeLookupLosesApproval`,
  `SentApprovalIsLost`, `UnreportedNeverArrives`). The endpoint answers the first three with success.
- Compaction can separate a tool call from its result. The list sent at once is paired exactly when
  both cuts fall between pairs (`CompactionKeepsPairsExactly`, `CompactedPromptExactly`, failing in
  `CompactionSplitsPair`). What later loads read depends on where the summary sorts, too
  (`ReloadPairsExactly`, failing in `SummarySplitsPair`).
- Tool results that the database refuses after it took the calls leave these open, and until a
  compaction nothing repairs that (`ReplyKeepsPairsExactly`, `OpenCallsStayOpen`, reached in
  `RefusedResultsLeaveCallsOpen`).
- The summary is placed one millisecond after the last middle message, "to preserve ordering"
  (`compaction.go` 74). The next load gives the in-memory list exactly when the first tail message
  sorts after the summary (`ReloadMatchesExactly`, failing in `SummarySplitsPair`).
- Two rows written in the same millisecond are ordered by their random ids, so a call and its result
  load back as a pair exactly when the ids happen to be in order (`ReloadedPairExactly`, failing in
  `SameMillisecondSplitsPair`).
- A subagent loads the history while its own dispatch is still an open call, and so is sent an
  unpaired prompt (`MidDispatchPromptExactly`, reached in `SubAgentSeesOpenCall`); its reply breaks
  the orchestrator's pair exactly when it sorts between the calls and their results
  (`InterveningMessageExactly`, reached in `SubAgentReplySplitsPair`).
- Two compactions of the same messages both add a summary but retire the messages once
  (`OverlapBreaksTheBound`; `RowsAreConserved` says what holds all the same, and `SlackStep` and
  `BoundBreaksAtMark` where the bound breaks).
- Seeding agents asks for the skills to be there first (`service/agent.go` 214-215), but startup seeds
  the agents first (`wire_gen.go` 48, 72). One start suffices exactly when every wanted system skill
  was already there (`FirstStartCompletesExactly`, failing in `FirstStartLeavesSkillOut`); two starts
  without an error always do (`TwoStartsReachFixedPoint`).
- A thread cancelled before its subagent has reported stays cancelled exactly if the subagent's own
  status write fails (`CancelledSurvivesExactly`, overwritten in `CancelIsOverwritten`), although a
  terminal thread stays terminal (`TerminalIsForever`).
- Truncation of bytes that are not UTF-8 can lose more than three bytes, and even everything
  (`DropsAtMostThreeExactly`).

## Model

| member | source | states |
|---|---|---|
| DispatchRegistry.Registry.Add | server/internal/agent/dispatch.go:31-40 | One more pending subagent of this conversation and one more on its wait group, made when there is none; no other conversation's entries or counters change |
| DispatchRegistry.Registry.DoneLocked | server/internal/agent/dispatch.go:44-48 | The locked half of Done: the result is appended, pending goes down by one, and the wait group's counter is not yet touched |
| DispatchRegistry.Registry.Done | server/internal/agent/dispatch.go:43-52 | Both halves: the result is appended in completion order, and both counters go down by one |
| DispatchRegistry.Registry.Pending | server/internal/agent/dispatch.go:55-59 | The pending count, zero for an unknown conversation |
| DispatchRegistry.Registry.Drain | server/internal/agent/dispatch.go:72-80 | Hands out all results recorded and leaves the conversation as if it had never dispatched; other conversations are untouched |
| FanInProofs.EveryReachableStateIsConsistent | server/internal/agent/run.go:17-134 | In every interleaving of orchestrator, subagents, cancels and reader: pending count, wait group counter, goroutines, results, thread rows, hub and control position agree |
| FanInProofs.StepEffect | server/internal/agent/dispatch.go:31-80 | What each step does to the sets of live and late subagents and to the results: only Add makes a subagent live, only the locked half of Done ends that and appends its result, only a drain clears |
| FanInTheorems.RegistryMatchesTrace | server/internal/agent/dispatch.go:31-80 | Over any run the registry's results are those recorded since the last drain, in order, and the threads added since are exactly the live ones and those with a recorded result |
| FanInTheorems.FanInIsComplete | server/internal/agent/run.go:98-106 | The batch drained after the wait holds exactly one result per subagent added since the previous drain, in completion order, including those left over from runs that skipped fan-in; each of them has left Done |
| FanInTheorems.FanInIsSkippedExactly | server/internal/agent/run.go:98-110 | After end_turn the fan-in is skipped if and only if every subagent added since the last drain has recorded its result, and then all those results stay in the registry |
| FanInWitnesses.ResultStaysBehind | server/internal/agent/run.go:98-110 | A run that ends on end_turn with its own subagent's result still in the registry |
| FanInTheorems.RegistryWhenIdle | server/internal/agent/run.go:86-132 | Whatever way a run ended, the registry holds the results recorded since the last drain, in order, and one pending count for each subagent yet to record; nothing exactly if none was added since; and after end_turn none is pending and every one added has left its result |
| SeveralRuns.PendingIsRightExactly | server/internal/agent/dispatch.go:31-80 | With several runs of one conversation at once: pending = live subagents less those that were live when somebody last drained, so it is right if and only if there were none |
| SeveralRuns.PendingTurnsNegativeExactly | server/internal/agent/dispatch.go:43-52 | Without a further drain the count can fall below zero if and only if a live subagent was forgotten by the last one |
| SeveralRuns.AddBeforeDrainIsForgotten | server/internal/agent/run.go:98-100 | Another run's Add between Wait and Drain: its subagent is live, pending is 0 and no group is left; its Done takes pending to -1 |
| FanInTheorems.CountersAgree | server/internal/agent/dispatch.go:31-69 | Wait group counter = pending + subagents between unlock and signal, pending = live subagents, and no counter ever is negative |
| FanInTheorems.WaitingMakesProgress | server/internal/agent/dispatch.go:43-69 | While the orchestrator waits nothing is added, 2 x pending + late signallers never grows and drops with either half of Done, and Wait is enabled exactly at zero |
| FanInTheorems.AgentCanFinish | server/internal/agent/subagent.go:36-58 | With a push as one step, a launched subagent alone can run to its end from any state |
| FanInTheorems.FanInCannotHang | server/internal/agent/run.go:98-100 | With a push as one step: from every reachable state in which the orchestrator waits, steps of the subagents alone lead to one in which Wait returns |
| FanInHub.EveryReachableStateIsConsistent | server/internal/agent/sse.go:79-92 | The same system over the two-step drain: the protocol's invariant, the hub's, and a goroutine inside a push holds the mutex and keeps its turn |
| FanInHub.PushCanFinish | server/internal/agent/sse.go:85-91 | There, every push that is not stuck can be brought to its end by its own goroutine |
| FanInHub.WorkCanBePlayed | server/internal/agent/subagent.go:36-58 | Any run of subagents over the atomic hub can be played over the two-step hub, with the same registry and thread rows at the end |
| FanInHub.FanInHangsExactly | server/internal/agent/run.go:98-100 | From a reachable state in which the orchestrator waits, no continuation lets Wait return if and only if the hub is stuck inside a subagent's push |
| FanInHub.FanInCanHang | server/internal/agent/run.go:98-100 | Such a state is reached: the run of a subagent that streams 256 events and a reader that takes one at the wrong moment never ends |
| FanInHub.CleanEndDelivers | server/internal/agent/run.go:98-110 | Over the two-step drain: when a run has ended on end_turn and the hub is open, queue_drained is the last event pushed, only the next run can be pushing, and before it does queue_drained is the last event queued or received |
| FanInTheorems.CleanEndDelivers | server/internal/agent/run.go:98-110 | After end_turn, queue_drained is the last push of the run and of all its subagents, is last in the buffer or last received, and only a new run can push again |
| ThreadEvents.EveryRunCanEnd | server/internal/agent/run.go:81-132 | From every reachable state in which a reply is awaited the run can come to each of its three ends, on end_turn by way of the fan-in if somebody is pending, and its last two events are then round_done and queue_drained |
| ThreadEvents.RunCanStart | server/internal/agent/run.go:17-25 | A run can start whenever none is active, with agent_start as its event; one whose context is gone ends with both signals and nothing else |
| ThreadEvents.RefusedReportEnds | server/internal/agent/run.go:102-104 | A refused report ends the run with both signals |
| ThreadEvents.StreamingPushes | server/internal/agent/run.go:50-78 | A streaming orchestrator or subagent pushes exactly its block events, the orchestrator also its requests for approval, and each such push changes the hub alone |
| ThreadEvents.DispatchLaunches | server/internal/tool/builtin/dispatch_to_agent.go:89-106 | A dispatch writes a running row, raises the pending count by one, launches the subagent, and the orchestrator goes on |
| FanInTheorems.SilenceLasts | server/internal/agent/run.go:108-110 | With every subagent announced, an ended run pushes nothing more in any continuation without a new run |
| FanInTheorems.QueueDrainedIsLastExactly | server/internal/agent/run.go:118-132 | Whatever the exit, a later push can follow queue_drained before the next run exactly when some subagent has yet to announce its end; end_turn rules that out |
| FanInWitnesses.QueueDrainedIsOvertaken | server/internal/agent/run.go:129-131 | A run that ends on another stop reason while its subagent is streaming, and a continuation that pushes after queue_drained |
| FanInTheorems.TerminalIsForever | server/internal/service/thread.go:38-46 | No step takes a thread out of the terminal states; a cancel changes only the row it names, and only if not terminal at that moment |
| FanInTheorems.TerminalOverRuns | server/internal/service/thread.go:29-48 | A terminal thread is terminal after any continuation |
| FanInTheorems.CancelLeavesListedTerminal | server/internal/service/thread.go:29-48 | A finished cancel leaves every thread it listed terminal, whatever ran beside it |
| FanInTheorems.ListsOpenThreads | server/internal/service/thread.go:30-35 | The cancel endpoint lists exactly the threads that are not done, cancelled or in error at that moment |
| FanInTheorems.DrainedThreadsAreTerminal | server/internal/agent/subagent.go:36-57 | Every drained result whose status write succeeded belongs to a thread whose row is error if and only if the result carries an error, and done if and only if it does not |
| ThreadEvents.StatusEventsTellResults | server/internal/agent/subagent.go:47-57 | Every status event ever pushed tells of a result of its own thread, error exactly if it carries one, which is the result the subagent records next or has recorded |
| ThreadEvents.ResultsAreTold | server/internal/agent/subagent.go:47-57 | Every result recorded has been told by such an event before |
| ThreadEvents.SubAgentReports | server/internal/agent/subagent.go:36-51 | A subagent may end with any output and any error, and its row and its event show error or done accordingly |
| FanInTheorems.CancelledSurvivesExactly | server/internal/agent/subagent.go:42-46 | From any moment at which a subagent that has yet to report shows as cancelled, in every continuation: it stays cancelled until its status write, and after it is still cancelled if and only if that write failed |
| FanInWitnesses.CancelIsOverwritten | server/internal/agent/subagent.go:42-46 | A run in which a thread shows as cancelled and then as done |
| ThreadService.ThreadTable.CancelAllThreads | server/internal/service/thread.go:29-48 | With any writes of others before each update, the rows are those of the sweep below after all listed threads, or up to the first refused update; success exactly when none is refused |
| ThreadService.UpdateIsCancelStep | server/internal/service/thread.go:39-42 | Each conditional update, which looks at the status again, is the cancel step of the fan-in machine on its conversation and leaves other conversations alone |
| ThreadService.SweepCancels | server/internal/service/thread.go:37-47 | Whatever others write in between, the threads updated so far are terminal and no thread leaves the terminal states |
| ThreadService.QuietSweep | server/internal/service/thread.go:37-47 | With nobody writing in between, exactly the listed threads change, to cancelled |
| EventHub.HubRefinesLog | server/internal/agent/sse.go:66-92 | For every run of pushes and receives the buffer is a suffix of the push log of at most 256 events, received followed by buffered is an ordered subsequence of it, and pushed = received + buffered + 256 x drains |
| EventHub.PushKeepsInv | server/internal/agent/sse.go:79-92 | A push keeps the refinement of the log, extends the log by its event, and that event is the last one buffered |
| EventHub.ReadKeepsInv | server/internal/handler/stream.go:45-61 | A receive keeps the refinement of the log |
| EventHub.TerminalPairExact | server/internal/agent/sse.go:79-92 | For an undisturbed pair of terminal pushes in any reachable state of the hub: queue_drained survives; round_done survives right before it if and only if the buffer did not hold exactly 255 events |
| EventHub.RoundDoneGetsLost | server/internal/agent/sse.go:79-92 | The losing state of an undisturbed pair is reached: after 255 unread events the reader gets queue_drained alone |
| TerminalSignals.SignalArrivesExactly | server/internal/agent/run.go:108-131 | However a run ends, and whoever reads and pushes meanwhile: each terminal signal is received or still queued at any time before the next run, if and only if no push since its own has found 256 events queued while it was unread |
| TerminalSignals.CleanPairExactly | server/internal/agent/run.go:108-109 | At a clean end round_done is the last event delivered when queue_drained is pushed; everything unread and queue_drained arrive if and only if fewer than 256 events are queued at that moment, and otherwise queue_drained alone replaces what is unread |
| TerminalSignals.CleanQueueDrainedArrives | server/internal/agent/run.go:108-110 | After a clean end queue_drained is not lost in any continuation before the next run |
| TerminalSignals.StragglerLosesRoundDone | server/internal/agent/run.go:129-131 | A run with 254 events queued that loses round_done to a subagent's push between the two signals |
| TerminalSignals.ReaderSavesRoundDone | server/internal/agent/run.go:129-131 | A run with 255 events queued that keeps both, because the reader takes one in between |
| TerminalSignals.StragglerLosesBoth | server/internal/agent/run.go:129-131 | A run whose two signals are both discarded by a subagent's push after them |
| EventHub.Hub.Push | server/internal/agent/sse.go:79-92 | On a closed hub nothing changes; otherwise the loop that empties a full channel and the send together are the atomic push of the log model |
| EventHub.Hub.Receive | server/internal/handler/stream.go:45-61 | The oldest event is taken, as in the log model; a closed, emptied channel yields none, which ends the stream |
| EventHub.Hub.Close | server/internal/agent/sse.go:104-111 | Closing twice is closing once, and buffered events stay |
| HubInterleaving.EveryInterleavingIsSafe | server/internal/agent/sse.go:85-91 | With reads between the steps of the drain loop, nothing is reordered, duplicated or invented, pushed = received + buffered + discarded, and the final send never blocks |
| HubInterleaving.StuckExactly | server/internal/agent/sse.go:87-89 | From a reachable state, a step leaves every goroutine blocked for ever if and only if it is a read of the last event between the loop test and the receive |
| HubInterleaving.QueueDrainedCanBlockForEver | server/internal/agent/sse.go:76-92 | A reachable state, after 256 unread events, in which the push of queue_drained is stuck for ever |
| HubInterleaving.UndisturbedPushIsAtomic | server/internal/agent/sse.go:79-92 | Without a read in between, a push is either still inside itself and not stuck, or has done exactly the atomic push |
| HubInterleaving.ClosedTakesNoMore | server/internal/agent/sse.go:82-84 | Once the hub is closed and no push is under way, nothing more is ever pushed and every push returns at once |
| HubInterleaving.ClosesExactly | server/internal/agent/sse.go:104-111 | Closing waits for a push under way and for nothing else |
| ApprovalProofs.EveryReachableStateIsConsistent | server/internal/hook/approval_hook.go:50-134 | In every interleaving: rows, channels, what was sent on them, requests in flight, rounds and the log of finished calls agree |
| ApprovalProofs.RowsAreStable | server/internal/handler/approval_handler.go:46-49 | A step keeps every row's conversation and round, and the status of every row already decided |
| ApprovalTheorems.HighRiskNeedsApproval | server/internal/agent/tool_dispatch.go:77-106 | Fail-closed: whenever a high-risk tool has been executed, a row inserted by that same round for that same conversation is written approved |
| ApprovalCalls.RiskyToolNeedsApproval | server/internal/hook/approval_hook.go:15-20 | The same in the steps of a run alone: if a round executes the call it began last and that is write_file, edit_file or run_command, a row of that round and conversation is written approved |
| ApprovalCalls.ExecutionIsLogged | server/internal/agent/tool_dispatch.go:86-106 | The log of executed calls has exactly one entry per executed call, with the tool that call began with |
| ApprovalCalls.OrdinaryToolPasses | server/internal/hook/approval_hook.go:51-53 | Any other tool passes the hook in every state of its round, inserts no row and can then be executed |
| ApprovalCalls.RiskyToolIsGated | server/internal/hook/approval_hook.go:55-63 | One of the three is refused in a rejected round, passes in an approved one, and is about to ask in an undecided one |
| ApprovalCalls.WaysToEnd | server/internal/hook/approval_hook.go:65-117 | Another pre-hook may deny any call; an asking round may lack its conversation, have its row refused, or accepted exactly under a new block; a waiting one may time out or be cancelled at any moment |
| ApprovalCalls.RowsAreDecidedByRequests | server/internal/handler/approval_handler.go:46-57 | Every decided row was decided by a request for its block that named its conversation, and shows that request's decision |
| ApprovalCalls.DecisionIsWrittenExactly | server/internal/handler/approval_handler.go:46-57 | A request writes its decision exactly if the row is there, pending and of the conversation it names |
| ApprovalTheorems.RefusedCallNeverRuns | server/internal/hook/approval_hook.go:50-118 | A security denial, settled rejection, missing conversation, failed insert, rejection, timeout or cancellation ends its call for good: in no continuation does that call's handler run |
| ApprovalTheorems.DecidedOnce | server/internal/handler/approval_handler.go:46-57 | Over any run a row leaves pending at most once and its decision never changes |
| ApprovalTheorems.SignalNeverFindsChannelFull | server/internal/hook/approval_hook.go:123-134 | A decision request that has loaded its channel finds it empty and never used: each channel carries at most one value and the default branch of Signal is unreachable |
| ApprovalTheorems.ReceivedIsRecorded | server/internal/hook/approval_hook.go:98-109 | The value a waiting round receives is the status of its row |
| ApprovalTheorems.SettledRoundStaysSettled | server/internal/hook/hook.go:69-99 | Approved and rejected are never both set; once one is, it stays, the round inserts no further row, and every later high-risk call shares the outcome |
| ApprovalTheorems.OpenExactly | server/internal/hook/approval_hook.go:87-89 | A block has a stored channel exactly while the round that inserted its row waits on it or is returning |
| ApprovalTheorems.LookupMissesExactly | server/internal/hook/approval_hook.go:123-127 | A request that looks for its block's channel finds none if and only if its round has not yet stored the channel or has already deleted it |
| ApprovalDelivery.DecisionArrivesExactly | server/internal/handler/approval_handler.go:46-60 | In every reachable state, a recorded decision can still be received in some continuation if and only if its round has inserted the row and not yet taken a value for it, and a request is on its way to signal or has left its value in the slot |
| ApprovalDelivery.RequestArrivesExactly | server/internal/handler/approval_handler.go:59-60 | For a request on its way: if and only if the round waits on the block, or has inserted its row and the request has not looked for the channel yet |
| ApprovalDelivery.BufferedArrivesExactly | server/internal/hook/approval_hook.go:98-99 | For a value already in the slot: if and only if the round still waits |
| ApprovalDelivery.UnreportedNeverArrives | server/internal/handler/approval_handler.go:50-53 | A row update that took effect but was reported as failed is received in no continuation |
| ApprovalDelivery.ApprovedCallRunsExactly | server/internal/hook/approval_hook.go:83-118 | A call whose row is decided before it has taken a value runs in some continuation if and only if the decision is an approval and is still carried |
| ApprovalDelivery.EarlyLookupLosesApproval | server/internal/hook/approval_hook.go:83-98 | A run in which the lookup comes before the channel is stored, and the approval is lost |
| ApprovalDelivery.TimeoutBeforeLookupLosesApproval | server/internal/hook/approval_hook.go:110-114 | A run in which the timer fires between row update and lookup: the lookup finds the channel and the approval is lost all the same |
| ApprovalDelivery.SentApprovalIsLost | server/internal/hook/approval_hook.go:123-134 | Its continuation: the approval is sent into the slot of a call that ends in a denial |
| ApprovalTheorems.EarlyDecisionRefuses | server/internal/hook/approval_hook.go:83-98 | A request that looks for the channel before it is stored, even with an approval, leaves its call refused in every continuation |
| ApprovalHook.Hook.StartRound | server/internal/agent/tool_dispatch.go:74-75 | A fresh, undecided round, as the machine begins one |
| ApprovalHook.Hook.Prompt | server/internal/hook/approval_hook.go:50-96 | Up to the wait the method is the machine's run of Call alone, Call and a refusal, or Call, Insert and Open; it proceeds exactly with an ordinary tool or in an approved round, and blocks exactly with one of the three tools in an undecided round with a conversation and an accepted new row, and only then tells the user |
| ApprovalHook.Hook.Ask | server/internal/hook/approval_hook.go:75-96 | Row, stored channel and event, as Call, Insert and Open |
| ApprovalHook.Hook.Resume | server/internal/hook/approval_hook.go:98-117 | From the wait on the method is Receive, TimeOut or ContextDone, followed by Close; it allows the call only on a received approval, and the round's object shows the machine's decision |
| ApprovalHook.Hook.Signal | server/internal/hook/approval_hook.go:123-134 | The method is LoadMiss, or LoadHit and SendHit; it sends exactly when a channel is stored, whose slot is then always empty, and touches no other channel |
| ApprovalHook.Hook.Record | server/internal/handler/approval_handler.go:46-49 | The conditional update of a pending row is DecideHit |
| ApprovalHook.Hook.Settle | server/internal/handler/approval_handler.go:45-60 | A reported update is DecideHit followed by the steps of Signal, and touches no channel but the block's |
| ApprovalHook.Hook.Decide | server/internal/handler/approval_handler.go:27-63 | The method is nothing, DecideMiss, an unreported DecideHit, or DecideHit followed by the steps of Signal; which of the four answers is given, exactly; only a pending row of this conversation changes, and only its own channel gets a value |
| Messages.ListingIsUnique | server/internal/agent/history.go:19-22 | Ordering by time then id determines the listing: two ordered listings of the same rows are equal |
| Messages.Order | server/internal/agent/history.go:19-24 | Any set of rows with distinct ids is put into that order |
| Messages.PairedMeans | server/internal/agent/tool_dispatch.go:108-127 | The inductive pairing is pairing position by position |
| Messages.WellPairedMeans | server/internal/agent/tool_dispatch.go:108-127 | A list is well-paired if and only if every turn answers exactly the calls of the turn before it, same ids in the same order, the first answers and the last calls nothing, only assistants call and only users answer |
| Messages.IdsOfOne | server/internal/agent/tool_dispatch.go:61-65 | The ids a block calls or answers |
| Messages.TurnsOfOne | server/internal/agent/history.go:35-56 | A message is sent with its role and all its blocks, unless it has none |
| Messages.SplicingPairs | server/internal/agent/compaction.go:31-44 | Replacing a stretch of a paired list by one plain turn keeps the pairing if and only if neither cut separates a call from its answer |
| Messages.SentStaysPaired | server/internal/agent/history.go:35-56 | Dropping messages without blocks, as the conversion does, keeps the pairing |
| Compaction.MarkedExactly | server/internal/agent/compaction.go:90-99 | A message of the snapshot is marked if and only if it lies between the first four and the last ten |
| Compaction.ActiveAfterCompaction | server/internal/agent/compaction.go:49-102 | After insert and update the uncompacted rows are exactly head, summary and tail |
| Compaction.CompactedIsSortedExactly | server/internal/agent/compaction.go:40-44 | The in-memory list is in query order if and only if the summary sorts before the first tail message |
| Compaction.ReloadMatchesExactly | server/internal/agent/compaction.go:75-83 | What the ordered query returns next is always a permutation of the 15 messages handed on, and equal to them if and only if the first tail message sorts after the summary |
| Compaction.CompactionKeepsPairsExactly | server/internal/agent/compaction.go:31-44 | For any well-paired history of 40 or more messages, the in-memory compacted list is well-paired if and only if its fourth message calls no tool and its tenth from the end answers none |
| Reloads.CompactedPromptExactly | server/internal/agent/history.go:26-57 | The same for the list sent, from which messages without blocks are left out |
| Reloads.ReloadIs | server/internal/agent/compaction.go:74-83 | What the ordered query returns next: the head, the k tail rows that sort before the summary, the summary, the other tail rows |
| Reloads.ReloadPairsExactly | server/internal/agent/compaction.go:74-99 | That is well-paired if and only if, for k = 0, both cuts fall between pairs, and for k > 0, the first tail row answers exactly the calls of the fourth message and the k-th tail row calls no tool |
| Reloads.StrandedPairsExactly | server/internal/agent/compaction.go:85-99 | With the summary inserted and the update refused, later loads are well-paired if and only if the row in front of the summary calls no tool |
| CompactionRuns.NothingIsLost | server/internal/agent/compaction.go:49-102 | Under concurrent loads and failures after the summarising call, at the insert and at the update: every compacted row is covered by a summary, and cover links lead through ever younger summaries, without a cycle, to an uncompacted row |
| CompactionRuns.WaysOfAJob | server/internal/agent/compaction.go:49-102 | What a compaction under way may do next: give up, insert its summary, and find its update done, refused, or done although it reported an error |
| CompactionRuns.CoverPath | server/internal/agent/compaction.go:74-99 | The path of summaries from a given row, in any consistent state |
| CompactionRuns.FirstFourArePinned | server/internal/agent/compaction.go:15-33 | If every message persisted later sorts after the fourth, the first four are never compacted in any run and head every load of 40 or more |
| CompactionRuns.HistoryStaysSmall | server/internal/agent/compaction.go:26-45 | With compactions that do not overlap, 25 x compactions + uncompacted rows <= messages persisted + summaries whose update failed |
| OverlappingCompactions.RowsAreConserved | server/internal/agent/compaction.go:49-102 | However compactions overlap and fail: uncompacted + compacted rows = messages persisted + compactions completed + stranded + half done |
| OverlappingCompactions.SlackStep | server/internal/agent/compaction.go:85-101 | The distance from the bound above changes by the rows newly compacted less 26 at a completed compaction, by the rows newly compacted at an update that took effect but reported an error, and at no other step |
| OverlappingCompactions.BoundBreaksAtMark | server/internal/agent/compaction.go:89-99 | So a step breaks the bound if and only if it is an update that newly compacts fewer than 26 rows less the slack left |
| OverlappingCompactions.OverlapRuns | server/internal/agent/compaction.go:26-45 | Two loads of one listing can both complete, and together retire no more rows than one |
| OverlappingCompactions.OverlapBreaksTheBound | server/internal/agent/compaction.go:26-45 | A run of 40 messages and two overlapping compactions that breaks the bound |
| RunLoop.ResultsAnswerCalls | server/internal/agent/tool_dispatch.go:72-120 | Whatever mix of denials, tool errors and unknown tools, the result blocks answer exactly the calls of the assistant message, in order |
| RunLoop.ResultSays | server/internal/agent/tool_dispatch.go:86-113 | The result of each call: flagged exactly if a pre-hook denied it, whose reason it then gives whatever a handler would say; otherwise the MCP client's answer if the name is routed, else the builtin tool's, a failure told as a tool error; else that the tool is unknown |
| RunLoop.DispatchPersistsAnswers | server/internal/agent/tool_dispatch.go:122-127 | The message persisted after the calls is a user message with one such result for each call |
| RunLoop.ReplyExits | server/internal/agent/run.go:85-132 | A turn finishes exactly on an end_turn that is written with nothing to fan in, or on any stop reason but end_turn and tool_use; it loops exactly on an end_turn whose reply and report are written, or tool calls whose message and, if there is a call, results are; it fails otherwise |
| RunLoop.ReplyWrites | server/internal/agent/run.go:85-132 | The rows each stop reason adds, in the order of its writes and up to the first that is refused |
| RunLoop.NoReplyWritesNothing | server/internal/agent/run.go:81-83 | A stream error writes nothing |
| RunLoop.RunStopsAtFirstExit | server/internal/agent/run.go:27-133 | A run sends one prompt for each turn it takes, goes on exactly while turns loop, and stops at the first that does not, with its exit and table |
| RunLoop.KeptOfOne | server/internal/agent/run.go:87-92 | Which blocks the reply's filters keep |
| RunLoop.KeptAppend | server/internal/agent/run.go:87-92 | They keep them in order, block by block |
| RunLoop.CallsAppend | server/internal/agent/tool_dispatch.go:60-65 | The calls of a message in order, block by block |
| RunLoop.LoadWritesSummary | server/internal/agent/compaction.go:26-102 | A load that gets past its insert writes one uncompacted user row with the summary, or the words that there is none, one millisecond after the eleventh message from the end; if the update succeeds, the rows between the first four and the last ten are marked and first four, that row and last ten are handed on, else nothing else changes |
| RunLoop.LoadWithoutSummary | server/internal/agent/compaction.go:26-38 | With fewer than 40 messages, a failed summarising call or a refused insert, nothing changes |
| RunLoop.HistoryAfterPersist | server/internal/agent/history.go:62-72 | A message that sorts last extends the loaded history by exactly itself |
| RunLoop.ReplyKeepsPairsExactly | server/internal/agent/run.go:81-132 | Whatever the reply and whichever writes are refused, a paired history stays paired if and only if it is not the results of accepted calls that are refused |
| RunLoop.RefusedResultsAreMissed | server/internal/agent/tool_dispatch.go:122-127 | After such a refusal the list a later load sends is not well-paired |
| RunLoop.PersistKeepsUnanswered | server/internal/agent/history.go:62-72 | No message that answers nothing, from whomever, repairs that, and after one nothing else does |
| RunLoop.OpenCallsStayOpen | server/internal/agent/run.go:27-133 | So until a compaction every later prompt is not well-paired |
| RunLoop.LoadKeepsPairsExactly | server/internal/agent/history.go:17-58 | A load of a paired history sends a paired list and leaves a paired history if and only if it is clean: no summary; or a marked one between clean cuts that does not sort into a tail pair; or an unmarked one that does not sort between a call and its result |
| RunLoop.EveryPromptIsPaired | server/internal/agent/run.go:27-133 | At every model call of a run, every message with tool calls is followed at once by one user message with exactly their results, given that rows sort in the order they are persisted and every load is clean |
| RunLoop.ReloadedPairExactly | server/internal/agent/history.go:19-24 | A call message and its result message load back as a pair if and only if the first sorts before the second |
| RunLoop.MidDispatchPromptExactly | server/internal/agent/subagent.go:83-91 | A subagent that loads the history between the two writes of a dispatch gets an unpaired prompt whenever the reply calls a tool; with clean compactions it gets a paired one if and only if the reply calls none |
| RunLoop.InterveningMessageExactly | server/internal/agent/subagent.go:145-150 | A plain message of another writer breaks a pair of calls and results if and only if it sorts between them |
| HistoryWitnesses.CompactionSplitsPair | server/internal/agent/compaction.go:31-44 | Forty rows whose fourth calls a tool: a paired history, and an unpaired list sent after its compaction |
| HistoryWitnesses.SummarySplitsPair | server/internal/agent/compaction.go:74-75 | Forty rows with row 30 in the millisecond of row 29: the list sent is paired, the next load differs from it and is not |
| HistoryWitnesses.SameMillisecondSplitsPair | server/internal/agent/history.go:62-72 | A dispatch whose two rows fall into one millisecond with the smaller id on the results: the history is unpaired |
| HistoryWitnesses.SubAgentSeesOpenCall | server/internal/agent/subagent.go:83-91 | A dispatched subagent that loads before the results are written gets an unpaired prompt |
| HistoryWitnesses.SubAgentReplySplitsPair | server/internal/agent/subagent.go:145-150 | Its reply, written before the results, unpairs the history |
| HistoryWitnesses.RefusedResultsLeaveCallsOpen | server/internal/agent/tool_dispatch.go:122-127 | A dispatch whose results are refused leaves its calls open |
| MessageStore.Store.PersistMessage | server/internal/agent/history.go:62-72 | Adds exactly the one uncompacted row, or reports that nothing was added |
| MessageStore.Store.MaybeCompact | server/internal/agent/compaction.go:26-45 | Which list is handed on and what the table then holds, for every point at which the compaction can fail |
| MessageStore.Store.LoadHistory | server/internal/agent/history.go:17-58 | Sends the turns of the compacted list, or of the original one when compaction failed, without those that have no blocks |
| MessageStore.Store.Convert | server/internal/agent/history.go:34-56 | The loop that leaves out messages without blocks and keeps the others in order |
| MessageStore.Store.DispatchTools | server/internal/agent/tool_dispatch.go:54-130 | Persists the assistant message first, then one user message with one result per call in call order, by way of denial, MCP route, builtin tool or unknown name; stops at the first refused write |
| MessageStore.Store.TextBlocks | server/internal/agent/run.go:87-92 | Keeps exactly the text blocks of a reply, in order |
| MessageStore.Store.AssistantBlocks | server/internal/agent/tool_dispatch.go:31-48 | Keeps exactly the text and tool-call blocks of a reply, in order |
| MessageStore.Store.HandleReply | server/internal/agent/run.go:85-132 | The stop-reason branches: what is persisted and whether the run loops, ends or fails |
| MessageStore.Store.TakeTurn | server/internal/agent/run.go:27-133 | One turn of the loop is the first turn of the specified run, for whatever turns follow |
| MessageStore.Store.Run | server/internal/agent/run.go:27-133 | The loop itself: its final table, every prompt it sent and its exit are those of the specified run, to which the pairing theorem applies |
| Paging.MessageService.List | server/internal/service/message.go:43-73 | Refuses exactly a whole cursor that names no message of this conversation; otherwise returns the first rows after the cursor in order, all from the start for half a cursor, 50 when the limit is not positive |
| Paging.PagingMissesNothing | server/internal/service/message.go:49-68 | Under concurrent inserts nothing comes twice or out of order, the next cursor is always valid, and after a short page every message present at the start has been returned |
| Paging.PagesTileTheListing | server/internal/service/message.go:43-73 | Without inserts, n pages are exactly the first n x limit messages of the sorted conversation, for any limit |
| Truncation.Truncate | server/internal/tool/truncate.go:8-18 | For any bytes: unchanged if they fit, else the prefix up to the last place, at or below the cap, that does not continue a character |
| Truncation.CutIsUnique | server/internal/tool/truncate.go:13-17 | There is only one such place |
| Truncation.TruncateIsTruncated | server/internal/tool/truncate.go:8-18 | The contract of Truncate fixes its result, so the theorems below are about that method |
| Truncation.Encode | server/internal/tool/truncate.go:20-23 | RFC 3629, section 3: one to four bytes, of which exactly the first is not a continuation byte |
| Truncation.DecodeEncode | server/internal/tool/truncate.go:20-23 | RFC 3629, section 3: no character is changed by its encoding, each takes the shortest form, and the first byte tells the length |
| Truncation.ContinuationBytes | server/internal/tool/truncate.go:20-23 | The continuation bytes are 80 to BF |
| Truncation.TruncatesAtCharacter | server/internal/tool/truncate.go:6-18 | On valid UTF-8 the result is the encoding of the longest prefix of characters that fits, at most three bytes below the cap |
| Truncation.DropsAtMostThreeExactly | server/internal/tool/truncate.go:6-18 | On any bytes: at most three bytes below the cap are lost if and only if one of the four candidate places does not continue a character (or the cap is at most three); all continuation bytes lose everything |
| Truncation.PrefixIsEnough | server/internal/tool/builtin/fetch_url.go:66-72 | Truncating only the first cap + 1 bytes gives the same as truncating the whole text |
| Truncation.FetchedBody | server/internal/tool/builtin/fetch_url.go:66-72 | Reading one byte past the cap and truncating gives the truncation of the whole body |
| Seeding.RaceLeavesOneRow | server/internal/service/agent.go:170-199 | Any number of racing callers leave one row per name, all that return get its id, and none fails, absent deletes and renames |
| Seeding.EveryCallerCanReturn | server/internal/service/agent.go:170-199 | No racing caller is ever stuck: by steps of its own it can return from wherever it is |
| Seeding.FirstStartCompletesExactly | server/cmd/server/wire_gen.go:48-76 | One start links every agent to every skill it wants if and only if each system skill some agent wants was there before |
| Seeding.FirstStartLeavesSkillOut | server/cmd/server/wire_gen.go:48-76 | The first start of an empty installation leaves an agent without the skill it wants |
| Seeding.TwoStartsReachFixedPoint | server/internal/service/agent.go:216-236 | From any database and for any iteration orders, two starts reach full loadouts and a third changes nothing |
| Seeding.AgentsSeededExtends | server/internal/service/agent.go:216-236 | Seeding agents removes nothing and links each of them to every wanted skill that exists at that time |
| Seeding.AgentsSeededAddsOnly | server/internal/service/agent.go:216-236 | Seeding agents adds no agent but the given ones and no link but from one of them to a skill it wants |
| Seeding.SkillsSeededExtends | server/internal/service/skill.go:126-133 | Seeding skills adds exactly the missing names under new ids and touches no agent and no link |
| Seeding.SeedingService.GetOrCreateSystemAgent | server/internal/service/agent.go:170-199 | With or without a rival that inserts the name in between: at most one new row, and the id of the row of that name; an error adds at most the rival's row |
| Seeding.SeedingService.GetOrCreateSystemSkill | server/internal/service/skill.go:93-123 | The same for a skill |
| Seeding.SeedingService.LoadSkill | server/internal/service/agent.go:108-125 | Links an existing agent to an existing skill, once however often it is called; a missing row or a database error changes nothing |
| Seeding.SeedingService.LoadSkills | server/internal/service/agent.go:222-233 | The inner loop links the agent to the wanted skills that exist, up to the first error |
| Seeding.SeedingService.InitAgent | server/internal/service/agent.go:218-233 | One agent with its loadout, or a valid database with a part of it |
| Seeding.SeedingService.InitAgents | server/internal/service/agent.go:216-236 | Without an error, what the startup theorems say of agent seeding; the first error ends it and leaves a valid database in which rows and links were only added |
| Seeding.SeedingService.InitSkills | server/internal/service/skill.go:126-133 | The same for skill seeding |
| Seeding.SeedingService.Start | server/cmd/server/wire_gen.go:48-76 | Without an error, the actual order of one start, agents before skills, is the start of the theorems; an error ends it and leaves a valid database, from which the fixed-point theorem goes on |

## Left out

- One run per conversation: the fan-in machine assumes it, although the message handler does not enforce it; of several runs at once only the registry is modelled.
- The hub registry, and the deletion of a hub by the stream handler while a run is active: inside the fan-in machine the hub is never deleted.
- The events of the fan-in over the two-step drain: proved there are when that system hangs and what a clean end delivers; the exact conditions on the two signals are for the one-step drain.
- Fairness: that a waiting orchestrator goes on is proved as a decreasing measure and as the existence of a continuation, not under a scheduler.
- RunSubAgent, the dispatch handler and the blocking half of RunPre as single methods: code that waits or runs in its own goroutine is modelled as steps on values, so aliasing of its local variables is not captured.
- Registry.Wait: a wait cannot be a method here; it is the steps `EnterWait` and `WaitReturns` of the fan-in machine.
- RunLoop.EveryPromptIsPaired, MessageStore.Store.Run: no other writer is active during the run; what one writer or reader in the middle of a dispatch does to the pairing is stated separately.
- CompactionRuns.HistoryStaysSmall: for compactions that do not overlap; for others it can fail, exactly as the conservation law says.
- RunLoop.ReplyKeepsPairsExactly, RunLoop.OpenCallsStayOpen: for rows that sort in the order they are written; what happens otherwise is stated of one pair.
- Message ids as strings: ids are numbers, the rank of the id in the order the database compares them by. Times are whole milliseconds.
- Truncation.Truncate: takes a cap that is not negative, because the original panics on a negative one.
- The 120-second timer: it may fire at any moment of a wait. Time-stamps of approval rows and the random id of a block without one are not kept.
- The hook chain's loop, the deny list of the security hook, changes a hook makes to a call, and the audit hook: a denial before the approval hook is one step of the gate, and which calls it denies is open.
- Deletes and renames of agents and skills while seeding.
- The model API's streaming and accumulation, prompt texts, the trimming of the summary text, and the wording of the subagents' report.
- The storage of content blocks as JSON, tool inputs, thread labels and other columns no theorem reads.
- MCP client and routing, page fetching, the container sandbox, path validation and file editing: input, output and foreign calls.
- CRUD handlers, configuration, migrations, report conversations and the frontend: only easy members.
