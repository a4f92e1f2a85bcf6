# Proofs about the LG TV connection manager

This project models the connection manager of the library and proves what its
documentation and its code promise about connecting, reconnecting, cancelling and
passing on commands. The manager is a small distributed system: an event loop
(`src/lgtv_manager.rs`), a state machine task (`src/state_machine.rs`) behind two
first-in-first-out channels, one WebSocket handler task per connection
(`src/websocket_client.rs`), and a network checker that notifies the loop. There is
one explicit state machine and a second, implicit one in the manager's fields; most
of what follows says how the two stay consistent.

`dafny verify dfyconfig.toml` checks the whole project.

## How the model is laid out

| files | what they hold |
|---|---|
| `Wrappers` | options and facts about sequences |
| `StateMachine`, `StateMachineProperties`, `StateMachineSessions` | the two tables, the loop of the task, what every input sequence obeys, and the sessions that run |
| `Backoff`, `ReconnectHistory`, `ReconnectWait` | the delay in 64-bit floating point, the history of a reconnect flow, the wait before a retry |
| `ManagerModel` | the manager's fields as a value, and every handler of the event loop as a function on it |
| `EventLoop` | `LgTvManager`, the object: each method updates fields in place and is proved equal to the function of the same handler |
| `ManagerFacts`, `HandlerLog` | what each handler of the loop keeps, and hands to the WebSocket handler, wherever it is called from |
| `Async`, `AsyncProperties`, `AsyncLog`, `AsyncMemory`, `CheckerProperties`, `PlainProperties` | layer A, the asynchronous system, and its results |
| `Runtime` | `Program`, the running system: object, machine and channels, proved to take the steps of layer A |
| `Drained`, `DrainedInvariant`, `DrainedSteps` | layer B, run to completion, its invariant, and the refinement from layer A |
| `DrainedProperties`, `DrainedFinality`, `DrainedSchedule`, `DrainedLoss`, `DrainedService`, `DrainedSpent`, `DrainedPairing`, `DrainedRequests`, `DrainedReachability` | the results of layer B |
| `HandlerLine`, `Wired`, `WiredSteps` | layer C, layer B with the handler it listens to, and its invariant |
| `WiredFinality`, `WiredLoss`, `WiredDialling`, `WiredProperties`, `WiredReconnect`, `WiredRequests`, `WiredSessions` | the results of layer C: when nothing dials again, the runs that do, and the exact conditions |
| `WiredReachability`, `WiredFailures`, `WiredWitnesses` | what is reached from a start, for any connection asked for; and the states the results speak of, reached |
| `WsHandlerModel`, `WsReports`, `WebSocketClient` | the handler task as a value, what it reports and writes, told from its script, and the task as the loop it is |
| `SsapPayloads`, `SsapProperties`, `SsapShapes` | the response payloads as schemas, first-match decoding, and the answers that fit, field by field |

**Layer A** (`Async`). A state holds the manager, both queues, and the machine. A step
is one branch body of the loop, or one consumed input with the updates it sends. Any
enabled step may come next. Results named *[A]* hold in every run.

**Layer B** (`Drained`). The loop is woken from outside only while both queues are
empty, the case the comment at `src/lgtv_manager/orchestration.rs:53-55` calls good
enough. `Drained.RunsSettle` proves that each such run of layer A is, manager step by
manager step, a run of the settled system, in which the machine has always consumed
everything sent; `DrainedReachability.SettledRunsAreTaken` proves the converse.
Results named *[B]* hold in every such run, up to the caller's ShutDown.

**Layer C** (`Wired`). Layer B with the line from the current handler to the manager:
the messages sent and not yet read, how far each end has got in the conversation, and
whether the handler's task still holds its receiver. A message is read only if the
handler sent it, in order; a handler that is awaited says the rest of its conversation
first; one that has said its last word can still be sent to until its task returns, and
takes nothing after that. The whole conversations of a line are exactly those a handler
is proved to deliver (`HandlerLine.LineFollowsHandler`), and every run of layer C is a
run of layer B (`Wired.MovesAreSteps`). Results named *[C]* say both what no run can do and what some
run does, so what still can happen is never owed to a message no handler would send.

**The outside.** What a handler learns while it runs is a parameter of its step
(`ManagerModel.Env`): the loads of the on-network bit, the outcome of every send to
the WebSocket handler, every reading of the file on disk, and the ticks of the wait
before a retry. They are arbitrary, and so is every event, except for this: unless the
network checker was started and has been given an address to ping, the bit is never set
and the loop is never notified (`src/tv_network_check.rs:70-113`). In layers A and B a
handler's message may be anything at any time while the manager holds a receiver, so
their results do not lean on a handler that behaves. A `Connection` carries the URL that
parsing its host yields, or none, and whether its host is an address.

**Histories.** `marks`, `log`, `started`, `consumed`, `handled`, `accepted` and
`commands` record what happened. No handler reads them; results speak through them.

## What the proofs found

1. *Initial retries need auto-reconnect.* `README.md:211-215` offers retries of an
   initial connection through `with_initial_connect_retries()` alone. By the time a
   connect error reaches the retry decision, `optionally_prepare_for_reconnect` has
   set the flow Inactive unless `auto_reconnect` is on, so nothing is retried; unless
   the caller has asked for a disconnect meanwhile, which leaves the flow Active, and
   then the failed connect *is* retried. `DrainedSchedule.RetryDecision` gives the exact
   condition for both cases, and `WiredWitnesses.InitialRetriesAlone` reaches both.
2. *The wait does not always grow.* `README.md:196-199` promises waits growing from
   250 ms to 10 s. With initial retries off, every retry of a lost connection drops
   the flow to Inactive and the next error zeroes the counter, so every wait is
   250 ms: `DrainedSchedule.BackoffNeverGrowsWithoutInitialRetries`. With both
   settings on the waits are 250, 250, 256, 512, ... : `DrainedSchedule.BackoffSchedule`.
   Both kinds of run exist from a start, with any number of failures:
   `WiredWitnesses.FlatScheduleIsRun`, `WiredWitnesses.ScheduleIsRun`.
3. *A lost connection is not always dialled again.* `README.md:193-199` promises it for
   auto-reconnecting connections. `WiredReconnect.LostConnectionDialsExactly` says
   exactly from which states it can still happen. With a checker it takes something to
   ping: only a URL whose host is an IP address gives that (`src/helpers.rs:29-42`), so
   with hosts like `tv.local`, which `README.md:141-144` allows, every Connect comes
   from a request (`CheckerProperties.HostNamesAreNeverRetried`). Without a checker the
   handler's task must still be there to take the shutdown: once it has returned, the
   refused shutdown resets the manager, which pre-empts the retry and leaves an Active
   flow with nothing to act on it. And a handler that ends without naming a fault, as
   when a write to the socket fails, says only Disconnected, which the machine refuses
   while the connection is up. `WiredWitnesses.ConnectionCanBeLostForGood` reaches both states,
   and `DrainedLoss.LostConnectionDecision` gives the decision for one loss.
   `WiredRequests.UnaskedConnectsExactly` says for which connections a program can
   come to dial unasked at all.
4. *A cancel is not always final.* `WiredProperties.CancelIsFinalExactly`: a cancel
   fails to stop the manager from dialling by itself exactly when it finds the system
   Disconnected with an Active flow, whose connection auto-reconnects, is pinged, and
   has a URL or a way to one: a connection test that fails reads one from disk, and a
   volume still unread makes such a test possible. Such a state is reached from a
   start: `WiredWitnesses.CancelCanFailToBeFinal`.
5. *Nor is a disconnect.* In Communicating it is, for every order of later events.
   Elsewhere the machine may refuse the request, and what goes on then is decided by
   the flow: `WiredProperties.DisconnectIsFinalExactly` gives the exact condition.
   While Connecting with retries left, the request even protects the flow, since
   `optionally_prepare_for_reconnect` then leaves it Active. Every part of the condition
   is reached from a start: `WiredWitnesses.DisconnectCanFailWhileConnecting` and
   `WiredWitnesses.DisconnectCanFailWhileClosing`.
6. *A failed pairing may be dialled again.* The disconnect that ends it is not retried
   (`DrainedPairing.PairingIsNotRetried`), but an auto-reconnecting, pinged connection
   stays remembered, and is dialled once the TV is seen to come back
   (`WiredProperties.PairingDialsExactly`, `WiredWitnesses.PairingCanDial`).
7. *A dead arm.* The Cancelled arm after a connect error (`src/lgtv_manager.rs:532-533`)
   cannot be taken: a reset has just ended any cancelled flow (`ManagerFacts.ResetKeeps`).
8. *Screen-on answers are read as power states.* Every encoded answer to a screen-on
   request decodes as a power state. The arm that updates the screen status is reached
   by an object with an odd `processing` field, or by an array of a flag and a text,
   and by no other JSON (`SsapProperties.ScreenOnExactly`).
9. *A zombie at the end.* A shutdown leaves the status Zombie exactly when there is a
   handler to tell and it cannot be told (`AsyncProperties.ShutDownHolds`).
10. *The announced URL may not be the dialled one.* The status announced during a wait
    names the URL last read from disk, the retry dials the connection's own
    (`ReconnectWait.AnnouncedUrlIsDialed`; reached by `WiredWitnesses.AnnouncedUrlCanDiffer`).
11. *A session can hang in Initializing.* The first volume of a connection makes the
    machine Communicating, but only while none is taken as heard, and connecting does not
    clear that. A volume left unread by a handler that is gone, and read after the reset
    that dropped it, is taken as heard; the next connection then never comes to be
    Communicating: `WiredSessions.InitializingGoesOnExactly`, and
    `WiredWitnesses.SessionCanHang` reaches such a session.
12. *A refused disconnect outlives its connection.* A disconnect asked for is remembered
    until one completes, whether the machine took it or not
    (`AsyncMemory.DisconnectIsRemembered`). Asked for at rest it is refused, and then
    keeps the next connection from being dialled again when that is lost:
    `WiredWitnesses.DisconnectOutlivesItsConnection`.

## Model

| member | source | states |
|---|---|---|
| StateMachine.RunTask | src/state_machine.rs:321-372 | the task's loop sends exactly the updates of the sequential run of the two tables, and ends in its state |
| StateMachine.RunAppend | src/state_machine.rs:321-372 | the run over two input sequences is the run over one and then, from where it ended, over the other |
| StateMachine.MirrorsMachine | src/state_machine.rs:338-355 | whoever reads the whole update stream ends up with the machine's state, for every input sequence |
| StateMachine.StaysReal | src/state_machine.rs:219-265 | the machine never is, and never announces itself, Zombie or WaitingToReconnect |
| StateMachineProperties.CommandsOnlyInOpenSessions | src/state_machine.rs:219-303 | for every input sequence, a command is passed on only if since the latest ConnectToTv(u) there was one SendRegisterPayload, at most one PairWithTv, then one InitializeConnection, and since then only commands; every state away from Disconnected carries that u |
| StateMachineProperties.ChangesArePaidFor | src/state_machine.rs:219-265 | every accepted input that changes the state uses up rank that only an accepted Connect grants |
| StateMachineProperties.ProgressBound | src/state_machine.rs:219-265 | state changes number at most 7 times the accepted Connects |
| StateMachineProperties.OneConnectionAtATime | src/state_machine.rs:219-303 | ConnectToTv outputs minus returns to Disconnected is 0 at Disconnected and 1 elsewhere |
| StateMachineProperties.WaysBack | src/state_machine.rs:219-265 | from every state, two errors take the machine through Disconnected whatever inputs come between them, and leave it there unless one of those is a Connect; one reset does so at once |
| StateMachineSessions.SessionRuns | src/state_machine.rs:219-303 | for every URL and every list of commands, with a pairing or without, the inputs of a session are all accepted and make the machine emit exactly the opening, each command in order, and the disconnect, and be over when that completes |
| StateMachineSessions.ErrorsLead | src/state_machine.rs:219-303 | what an error, and a reset, emit and lead to in each state |
| StateMachineSessions.AcceptedExactly | src/state_machine.rs:219-265 | for each input, the only states that accept it |
| Backoff.FalloffIsClamp | src/helpers.rs:180-188 | the floating-point code is the integer clamp of 2^(attempt+6) for every attempt, also where the power overflows, for bounds up to 2^53 |
| Backoff.FalloffMonotone | src/helpers.rs:180-188 | later attempts never wait less, whatever the bounds |
| Backoff.DelayIsClamp | src/lgtv_manager/orchestration.rs:460 | with the bounds used, every delay is between 250 and 10000 ms and is 10000 ms from the ninth attempt on |
| Backoff.TotalOfDelays | src/lgtv_manager/orchestration.rs:460 | the first n delays total 16628 + 10000(n-8) ms for every n from 8 on |
| ReconnectHistory.WaitsNeverShrink | src/lgtv_manager/orchestration.rs:459-501 | a history that keeps its schedule has no wait shorter than an earlier one of the same stretch, and no wait of length zero |
| ReconnectWait.AnnouncementsCountDown | src/lgtv_manager/orchestration.rs:469-496 | the statuses announced during one wait agree on URL and attempts, never promise more than the delay, and never more than an earlier one while the clock runs forward |
| ReconnectWait.AnnouncedExactly | src/lgtv_manager/orchestration.rs:475-487 | one announcement for each clock reading before the retry is due, in order; each, with the time elapsed, makes up the whole delay, or is 0 once that has passed |
| ReconnectWait.AnnouncedIsCounted | src/lgtv_manager/orchestration.rs:459-487 | every announcement counts the retries the stretch has seen, and the wait is as long as that count has it |
| ReconnectWait.WaitIsRecorded | src/lgtv_manager/orchestration.rs:429-516 | an attempt adds exactly the wait it made to the history, and nothing when it made none |
| ReconnectWait.AnnouncedUrlIsDialed | src/lgtv_manager/orchestration.rs:441-509 | the URL announced while waiting is the one dialled afterwards if and only if the disk has not replaced it |
| EventLoop.LgTvManager.constructor | src/lgtv_manager.rs:275-314 | a new manager is the model's new manager, its URL the one found on disk |
| EventLoop.LgTvManager.Begin | src/lgtv_manager.rs:343-393 | the object enters its loop as the model's started manager |
| EventLoop.LgTvManager.SetManagerStatus | src/lgtv_manager/setters.rs:14-27 | the status changes and nothing else does |
| EventLoop.LgTvManager.SetReconnectFlowStatus | src/lgtv_manager/setters.rs:34-53 | the attempts are forgotten exactly when the old status was not Active; the announcement joins the history |
| EventLoop.LgTvManager.SendToFsm | src/lgtv_manager/message_senders.rs:37-53 | the input goes out while the machine's task is there; the manager turns Zombie, and only then, when it is gone |
| EventLoop.LgTvManager.SendToWs | src/lgtv_manager/message_senders.rs:60-78 | a message refused by the handler's channel forces a reset; without a channel nothing happens |
| EventLoop.LgTvManager.ForceManagerReset | src/lgtv_manager.rs:715-748 | the object's reset is the model's, for every outcome of reading the disk |
| EventLoop.LgTvManager.InitializeManagerState | src/lgtv_manager.rs:751-789 | the target survives exactly in a flow that is to reconnect, a cancelled flow ends, and the disk has the last word on the URL |
| EventLoop.LgTvManager.ImportPersistedState | src/lgtv_manager/persisted_state.rs:29-42 | a readable file overwrites the URL, with none if it holds none; an unreadable one changes nothing |
| EventLoop.LgTvManager.OptionallyPrepareForReconnect | src/lgtv_manager/network_utils.rs:132-156 | the flow is left alone after a manual disconnect or a cancel, and otherwise set as the model says, for both loads of the on-network bit |
| EventLoop.LgTvManager.InitiateConnectToTv | src/lgtv_manager/orchestration.rs:39-132 | a request is accepted exactly when Disconnected, started, and with a URL that parses; only then is anything changed |
| EventLoop.LgTvManager.StartWebSocketHandlerAndConnect | src/lgtv_manager/orchestration.rs:135-160 | both channel ends and the handle now belong to a handler never seen before, for the given URL |
| EventLoop.LgTvManager.InitializeTvConnection | src/lgtv_manager/orchestration.rs:204-232 | six queries in order, each of which may force a reset before the next; the last good connection is the one left after all of them |
| EventLoop.LgTvManager.HandleLgtvResponse | src/lgtv_manager/orchestration.rs:242-376 | each kind of response sends the machine the input the model names, a volume only the first time |
| EventLoop.LgTvManager.InitiateDisconnectFromTv | src/lgtv_manager/orchestration.rs:382-392 | a handler is told to shut down only if one is still to be awaited |
| EventLoop.LgTvManager.HandleDisconnected | src/lgtv_manager/orchestration.rs:395-421 | the object clears its state and then stops, gives up pairing, or retries as the model does |
| EventLoop.LgTvManager.AwaitRetry | src/lgtv_manager/orchestration.rs:469-496 | the wait announces the time left at every tick before the retry is due, and nothing after |
| EventLoop.LgTvManager.InitiateReconnect | src/lgtv_manager/orchestration.rs:429-516 | one attempt: prevented, reset for want of a URL, or waited for, counted and dialled, with exactly the wait and announcements the model computes |
| EventLoop.LgTvManager.AttemptFsmError | src/lgtv_manager/orchestration.rs:522-529 | an Error goes to the machine |
| EventLoop.LgTvManager.EnterZombieState | src/lgtv_manager/orchestration.rs:535-550 | only the status changes, to Zombie |
| EventLoop.LgTvManager.HandleManagerMessage | src/lgtv_manager.rs:402-482 | every caller message leaves the object as the model's handler leaves the value |
| EventLoop.LgTvManager.HandleStateMachineUpdate | src/lgtv_manager.rs:486-549 | every update leaves the object as the model's handler leaves the value |
| EventLoop.LgTvManager.HandleWsUpdate | src/lgtv_manager.rs:558-638 | every handler message leaves the object as the model's handler leaves the value |
| EventLoop.LgTvManager.HandleNetworkNotification | src/lgtv_manager.rs:642-687 | a change of the on-network bit ends, suspends or resumes the flow as the model says; an unchanged bit does nothing |
| Runtime.Program.constructor | src/lgtv_manager.rs:330-393 | the program starts in a start state of layer A |
| Runtime.Program.Consume | src/state_machine.rs:323-372 | one turn of the machine's task is one step of layer A, seen on the real queues |
| Runtime.Program.ReceiveUpdate | src/lgtv_manager.rs:486-549 | one turn of the loop on an update is one step of layer A |
| Runtime.Program.ReceiveEvent | src/lgtv_manager.rs:396-687 | one turn of the loop on an outside event is one step of layer A |
| Runtime.Program.TakeAll | src/lgtv_manager.rs:395-699 | any possible interleaving takes the object to the state layer A computes, and keeps the invariant behind every [A] result |
| ManagerFacts.ResetKeeps | src/lgtv_manager.rs:526-537 | a reset keeps target, counter and command history sound, and leaves no flow Cancelled, so the Cancelled arm after a connect error is dead |
| ManagerFacts.ReconnectKeeps | src/lgtv_manager/orchestration.rs:429-516 | an attempt from a flow that is to reconnect always finds its connection, and dials only that connection's URL |
| ManagerFacts.OutputKeeps | src/lgtv_manager.rs:491-543 | no output's handler dials another target, miscounts a retry, or hands on a command but the one passed on |
| ManagerFacts.ShutDownOutcome | src/lgtv_manager.rs:449-461 | at the end nothing more is sent, and the status is Zombie exactly when the handler could not be told |
| AsyncProperties.EveryConnectDialsTheAcceptedConnection | src/lgtv_manager/orchestration.rs:52-88 | [A] in every run, every Connect sent, retries included, carries the URL of the connection the caller's latest accepted request named, whatever the disk put in `ws_url` meanwhile |
| AsyncProperties.StatusMirrorsMachine | src/lgtv_manager.rs:486-490 | [A] the updates delivered and pending are the sequential run over the inputs consumed; the status overwritten by the pending ones is the machine's state, never Zombie or WaitingToReconnect before ShutDown |
| AsyncProperties.CommandsAreConserved | src/lgtv_manager.rs:514-517 | [A] every command sent is, in order, handled, pending or queued; each one consumed was passed on exactly if the machine was Communicating and otherwise refused once; those handed to the handler are those passed on and handled |
| AsyncProperties.ReconnectHasTarget | src/lgtv_manager.rs:758-768 | [A] a flow Active or WaitingForTvOnNetwork always has its connection, with a URL that parsed |
| AsyncProperties.AttemptsCountTheStretch | src/lgtv_manager/setters.rs:38-42 | [A] while Active, the counter is the number of retries since the flow last became Active; every delay was the one for that number |
| AsyncProperties.DelaysNeverShrink | src/lgtv_manager/orchestration.rs:459-501 | [A] in every run the waits of one uninterrupted stretch never decrease and lie between 250 and 10000 ms |
| AsyncProperties.ShutDownHolds | src/lgtv_manager.rs:449-461 | [A] a shutdown ends the run, sends the machine nothing, and leaves the status Zombie if and only if a handler was there and could not be told |
| AsyncLog.HandlersAreTold | src/lgtv_manager.rs:491-543 | [A] in every run, handlers are handed exactly the registration of each SendRegisterPayload handled, the six queries of each InitializeConnection, the command of each PassCommand and the tests asked for while initialized, in order, each to the handler whose sender is held then; and one shutdown for each reset and for each disconnect told to a handler still to be awaited |
| AsyncLog.SenderIsLatest | src/lgtv_manager/orchestration.rs:135-160 | [A] in every run, one handler is started for each ConnectToTv handled, for its URL, and the sender held is the latest one's |
| AsyncLog.OutputHasHandler | src/lgtv_manager/message_senders.rs:60-78 | [A] whenever an output other than ConnectToTv is to be handled a sender is held |
| AsyncMemory.MemoryIsTold | src/lgtv_manager.rs:751-789 | [A] in every run, a disconnect asked for, a volume heard, a pairing, the number of sessions, the last good connection and the network as last notified are what the steps so far tell |
| AsyncMemory.DisconnectIsRemembered | src/lgtv_manager.rs:435-438 | [A] a disconnect is taken as asked for exactly if some step asked for one and none since completed one |
| AsyncMemory.LastGoodIsDialled | src/lgtv_manager.rs:424-434 | [A] a request for the last good connection made at Disconnected is granted whenever one was initialized, dials its URL, and makes it the target |
| AsyncMemory.ReturnIsImmediate | src/lgtv_manager.rs:678-684 | [A] a TV seen to come back while the flow waits for it is dialled at once: one retry joins the history, and no wait |
| AsyncMemory.UrlIsRead | src/lgtv_manager.rs:751-789 | [A] after a reset or a completed disconnect the URL known is the one in the file if it can be read, else the one known before while a flow is to reconnect, else none |
| AsyncMemory.StartKnowsUrl | src/lgtv_manager.rs:343-393 | [A] a manager begins with the URL in the file as it is started, if it can be read |
| AsyncMemory.AttemptWithoutUrl | src/lgtv_manager/orchestration.rs:441-454 | [A] an attempt that finds no URL ends the flow with one reset, and neither dials nor waits |
| CheckerProperties.WaitingHasChecker | src/lgtv_manager/network_utils.rs:141-150 | [A] in every run, the flow is WaitingForTvOnNetwork only if the network checker was started |
| CheckerProperties.HostNamesAreNeverRetried | src/lgtv_manager/orchestration.rs:65-77 | [A] with the checker started and no accepted request naming an IP address, every Connect of every run is sent by the step that accepts a request |
| Drained.RunsSettle | src/lgtv_manager/orchestration.rs:53-55 | every run in which outside events find the queues empty is, manager step by manager step, a run of the settled system, and ends in the same place |
| DrainedReachability.SettledRunsAreTaken | src/lgtv_manager/orchestration.rs:53-55 | and every run of the settled system is taken by layer A in that way |
| DrainedProperties.HandlerLifecycle | src/lgtv_manager/orchestration.rs:395-403 | [B] whenever drained, the machine is Disconnected if and only if no handler is to be awaited; elsewhere both channel ends and the handle belong to the handler started last, for the URL the machine and the target agree on |
| DrainedProperties.NoHandlerIsOverwritten | src/lgtv_manager/orchestration.rs:135-160 | [B] ConnectToTv is handled only when no handler is left to await |
| DrainedProperties.StaleMessagesAdvanceNothing | src/lgtv_manager.rs:558-638 | [B] a message of an earlier handler is read only at Disconnected; whatever is read there leaves the machine there with nothing but refusals |
| DrainedProperties.FlowAndPairingFollowMachine | src/lgtv_manager.rs:495-513 | [B] in Connected, Pairing, Initializing and Communicating the flow is Inactive; Pairing implies the pairing flag, Initializing and Communicating its absence |
| DrainedPairing.PairingIsNotRetried | src/lgtv_manager/orchestration.rs:409-420 | [B] from every drained state in Pairing, whatever the settings and the order of events, no Connect is sent up to and including the step that brings the machine back to Disconnected, unless the pairing succeeds; a disconnect handled as completed leaves the flow not Active |
| DrainedSchedule.RetryDecision | src/lgtv_manager.rs:526-537 | [B] a connect error while Connecting leads to a Connect if and only if the attempt is not prevented, a URL is there after the import, and: after a manual disconnect, the flow is Active and a retry is left; otherwise, the flow is not Cancelled, auto_reconnect is on, the TV is seen (or the checker inoperative), and initial retries are on or a session was had |
| DrainedLoss.LostConnectionDecision | src/lgtv_manager/orchestration.rs:382-421 | [B] a loss reported while Connected, Pairing, Initializing or Communicating leads, once the shutdown is taken and the handler's last word read, to a Connect if and only if no disconnect was asked for, auto_reconnect is on, the TV is seen as the handler is told (or the checker inoperative), no pairing is under way, the attempt is not prevented, and a URL is there after the import, and then after one wait of 250 ms; when the shutdown is refused, to none, and to Disconnected |
| DrainedService.CommandIsServed | src/lgtv_manager.rs:514-517 | [B] a command asked for while Communicating is handed to the handler once and changes nothing else; with the handler gone the connection is dropped |
| DrainedService.DisconnectIsServed | src/lgtv_manager/orchestration.rs:382-421 | [B] a disconnect asked for while Communicating has the handler told to shut down; its last word read and handled, the manager is at rest with no target, no handler and no request left, and nothing was dialled |
| DrainedSchedule.BackoffSchedule | src/lgtv_manager/orchestration.rs:429-516 | [B] with both settings on, n failures in a row from count k wait exactly the delays for k, k+1, ..., k+n-1 and leave the count at k+n |
| DrainedSchedule.BackoffNeverGrowsWithoutInitialRetries | src/lgtv_manager/setters.rs:34-53 | [B] with initial retries off and a session had, n failures in a row wait 250 ms each, for every n |
| DrainedFinality.CancelledIsFinal | src/lgtv_manager.rs:403-418 | [B] from a drained state away from Disconnected with the flow Cancelled, no Connect is sent before a new request or a registration; back at Disconnected the flow is Inactive and the connection forgotten |
| DrainedFinality.ManualDisconnectIsFinal | src/lgtv_manager.rs:435-438 | [B] after the caller's Disconnect in Communicating, or in any other state away from Disconnected with no flow under way, no Connect is sent until the caller asks, for every order of later events |
| DrainedSpent.HushedStep | src/lgtv_manager/orchestration.rs:409-437 | [B] a flow under way that can make no attempt, or is over, dials in no step not granted to the caller, and stays so |
| HandlerLine.LineFollowsHandler | src/websocket_client.rs:107-304 | the messages said from start to end on a line are exactly the whole conversations of HandlerFollowsProtocol |
| Wired.MovesAreSteps | src/lgtv_manager.rs:551-638 | every run with the handlers is, step for step of the manager, a run of layer B |
| WiredSteps.MoveKeeps | src/lgtv_manager.rs:551-638 | [C] how far the manager has read the conversation always agrees with the machine: before Connected or the failure is read the machine has got no further than Connecting, and afterwards it is past it; a handler not to be awaited has returned |
| WiredFinality.FinalNeverDials | src/lgtv_manager/orchestration.rs:429-437 | [C] from rest without a target that can come back, from a flow that is over or spent, from a pairing whose connection does not come back unless it succeeds, and while Connecting with the handler's Connected unread and no checker, no run dials unasked |
| WiredProperties.DisconnectedDialsExactly | src/lgtv_manager.rs:642-687 | [C] at rest in Disconnected, some run dials unasked if and only if the connection auto-reconnects, is pinged, and has a URL, or the manager is initialized, or a volume is unread |
| WiredProperties.CancelIsFinalExactly | src/lgtv_manager.rs:403-418 | [C] after a cancel of a flow under way in any drained state, some run without a registration dials unasked if and only if the cancel found the machine Disconnected with the flow Active and a connection that can come back as above |
| WiredProperties.DisconnectIsFinalExactly | src/lgtv_manager.rs:435-438 | [C] after the caller's Disconnect in any drained state, some run dials unasked if and only if the machine was Disconnected from a connection that can come back; or Connecting, the flow Active with a retry left, and pinged, or the checker not started and Connected not yet sent; or Disconnecting, with an Active flow, not pairing, and pinged, or the checker not started and the handler's last word not yet read; or Disconnecting with a target kept that auto-reconnects and is pinged |
| WiredProperties.PairingDialsExactly | src/lgtv_manager/orchestration.rs:409-420 | [C] from a drained state in Pairing, some run in which the pairing does not succeed dials unasked if and only if no disconnect was asked for, the connection auto-reconnects, and it is pinged |
| WiredLoss.HopelessNeverDials | src/lgtv_manager/message_senders.rs:60-78 | [C] no run dials unasked from a state that is final; or where every attempt is prevented; or without a flow and without auto_reconnect; or up without a checker, the handler gone or its messages leading to no retry |
| WiredReconnect.LostConnectionDialsExactly | src/lgtv_manager/orchestration.rs:382-421 | [C] from a drained state with a connection up, some run dials unasked if and only if no disconnect was asked for, auto_reconnect is on, and: it is pinged; or the checker is not started, the handler can still take the shutdown, and the messages unread lead to the connection being given up while no pairing holds it, or to neither and the handler may still talk |
| WiredRequests.UnaskedConnectsExactly | src/lgtv_manager/orchestration.rs:429-516 | [A] of the programs only ever granted connections out of a given set, some sends a Connect no request asked for if and only if one of the set has a URL and a setting to retry and, with the checker started, one of the set has a URL with an address |
| WiredSessions.InitializingGoesOnExactly | src/lgtv_manager/orchestration.rs:282-295 | [C] from a drained state in Initializing, some run comes to be Communicating with this connection if and only if no volume is taken as heard already, and one comes before anything that gives the connection up, or may still come |
| WiredReachability.ReachableIsReached | src/lgtv_manager/orchestration.rs:53-55 | every state reached in layer C is one that a run to completion of layer A settles in |
| WiredWitnesses.DisconnectCanFailWhileConnecting | src/lgtv_manager/network_utils.rs:132-137 | a disconnect is not final in a state reached at rest, and in one reached while Connecting, with the checker started or not |
| WiredWitnesses.DisconnectCanFailWhileClosing | src/lgtv_manager/network_utils.rs:139-156 | nor in states reached while Disconnecting, with the flow Active or waiting, pairing or not, and without a checker |
| WiredWitnesses.CancelCanFailToBeFinal | src/lgtv_manager/orchestration.rs:430-435 | a state where a cancel is not final is reached, by way of a retry prevented because the TV went out of sight |
| WiredWitnesses.PairingCanDial | src/lgtv_manager/orchestration.rs:409-420 | a Pairing state from which some run dials unasked is reached |
| WiredWitnesses.ConnectionCanBeLostForGood | src/lgtv_manager/message_senders.rs:60-78 | a connection up that auto-reconnects, with no checker, no pairing and no disconnect asked for, is reached with a loss unread from which some run dials while the handler has not returned, and none once it has; and one with only Disconnected unread, from which none does |
| WiredWitnesses.InitialRetriesAlone | src/lgtv_manager.rs:526-537 | with initial retries alone and the checker started or not, a first connect with the flow Active is reached whose failure is never retried; and one that a disconnect asked for does not keep from being dialled |
| WiredWitnesses.ScheduleIsRun | src/lgtv_manager/orchestration.rs:459-501 | for every n, a state with both settings is reached from which n connect errors in a row run, waiting the growing delays |
| WiredWitnesses.FlatScheduleIsRun | src/lgtv_manager/setters.rs:34-53 | for every n, a state with auto_reconnect alone after a session is reached from which n connect errors in a row run, waiting the first delay each |
| WiredWitnesses.AnnouncedUrlCanDiffer | src/lgtv_manager/orchestration.rs:441-509 | a failed connect is reached whose retry announces a URL read from disk and dials the connection's own, another one |
| WiredWitnesses.CommunicatingIsReached | src/lgtv_manager/orchestration.rs:204-232 | for every connection with a URL, with a checker or without, a state Communicating with it is reached, in which it is the last good connection |
| WiredWitnesses.SessionCanHang | src/lgtv_manager/orchestration.rs:282-295 | an Initializing state is reached, its handler talking, from which no run comes to be Communicating |
| WiredWitnesses.DisconnectOutlivesItsConnection | src/lgtv_manager.rs:435-438 | a connection up that auto-reconnects and is pinged is reached from which no run dials again, for a disconnect asked for before it was |
| WebSocketClient.LgTvWebSocket.Handle | src/websocket_client.rs:148-295 | one turn of the handler's loop sends, writes and remembers what the model's turn does, breaks included |
| WebSocketClient.LgTvWebSocket.Start | src/websocket_client.rs:107-304 | the whole task, for every script of events, ends as the model's run does |
| WsHandlerModel.HandlerFollowsProtocol | src/websocket_client.rs:107-304 | what one handler delivers is always a prefix of Idle ConnectError, or of Idle Connected (Payload or IsConnectionOk)* [ServerClosedConnection or MessageReadError] Disconnected, and is a whole one when the task has ended with nothing refused |
| WsHandlerModel.PingsMatchPasses | src/websocket_client.rs:179-236 | pings written minus passes reported is 1 while a test is pending and 0 otherwise |
| WsReports.HandlerReports | src/websocket_client.rs:107-304 | for every script, a handler whose loop begins sends Idle, Connected, and then exactly the reports due to the events up to the first that ends the loop, each told from the script alone, and Disconnected once one has ended it; and writes exactly the frames due to them: the text of every payload written, a ping for every test begun, a close for a shutdown or a lost manager if it can be written |
| WsReports.FailuresAreOverdueTicks | src/websocket_client.rs:273-293 | in every run, the failed tests reported number exactly the ticks seen more than 1500 ms after the write of the ping still unanswered |
| SsapProperties.RoundTrip | src/ssap_payloads.rs:122-301 | for every schema with distinct field names and no doubly optional value, decoding what was encoded gives the value back |
| SsapProperties.FirstMatchWins | src/ssap_payloads.rs:33-47 | the union decodes to a variant exactly when that variant fits and none listed before it does |
| SsapProperties.VariantIsWellFormed | src/ssap_payloads.rs:93-301 | every variant's fields, nested ones included, have distinct names and no doubly optional value |
| SsapProperties.DecodingInvertsEncoding | src/ssap_payloads.rs:33-47 | an encoded payload decodes to itself, variant and value, if and only if it is not a screen-on answer |
| SsapProperties.ScreenOnReadsAsPowerState | src/ssap_payloads.rs:176-182 | every encoded screen-on answer decodes as a power state with the same state and return value and no processing |
| SsapProperties.ScreenOnExactly | src/ssap_payloads.rs:284-290 | of all JSON values, exactly these reach the screen-on arm: an object its shape fits, its processing field there but neither text nor null, which no other variant listed before fits; and an array of a flag and a text |
| SsapProperties.ScreenOnIsReachable | src/lgtv_manager/orchestration.rs:332-335 | one such object, so the arm is not dead |
| SsapShapes.FitsExactly | src/ssap_payloads.rs:93-301 | the answers that decode as each of the eleven variants, nested records included: exactly the objects with its named fields of the named types, those that may be absent absent, null or of their types, and the arrays with its positions |
| SsapShapes.UnionReads | src/ssap_payloads.rs:33-47 | the union reads an answer if and only if it fits some variant, and then as the first in the listed order that it fits |

## Left out

- Sockets, TLS, scheduling, `arp`, ping, UPnP discovery, Wake-on-LAN and file access: only their results appear, as arbitrary events and values.
- URL and MAC parsing: a connection carries the outcome of the parse; the code's partial functions are not described further.
- EventLoop.LgTvManager.ImportPersistedState: does not track the client key and the MAC address that the file also supplies.
- EventLoop.LgTvManager.InitiateConnectToTv: does not track the client key, which even a rejected request overwrites, and the MAC address.
- EventLoop.LgTvManager.HandleLgtvResponse: does not track what the arms store about the TV (state, inputs, volume, software), the client key a registration brings, and the file written then.
- The TLS flag, and `tv_host_ip`, which nothing reads: no result depends on them. Of the address given to the network checker only its presence is modelled.
- A send to a handler may be refused in the model while the handler still holds its receiver; no result on what some run does makes use of that.
- Messages to the caller: left out, except the statuses announced while waiting for a retry and the transition errors the machine sends back. Discover, EmitAllState, TestTvOnNetwork and WakeLastSeenTv are one message that changes nothing.
- Building the register payload: taken to succeed, so SendRegisterPayload always hands a message on.
- Channel capacities: queues are unbounded, so the possible deadlock of two full channels of 32 is not expressed; nothing is claimed about liveness.
- A wait before a retry is one step: events that arrive during it are handled after it, as in the code.
- Counters are unbounded; `reconnect_attempts` and `session_connection_count` would overflow after 2^64 steps.
- ShutDown: the machine's task is taken to stop before the loop's last actions, as its cancellation token and the wait for it arrange; what the task still does in between is not modelled.
- After ShutDown nothing is claimed in layer B, and in layer A only what `AsyncProperties.ShutDownHolds` says.
- An inactive handler's queue closing (the channel yielding no message) does nothing in the code and is not a step of the model.
- Text-level JSON, duplicate keys in an object, and the top-level `type` tag: decoding starts from a parsed payload. Numbers written with a fraction or an exponent never fit an integer field.
- The handler's channel to the manager: the manager's end is dropped once, after some number of messages; the capacity of the channel plays no part.
- The command payload strings and the register payload are constant tables.
