# Models of the agentd daemon

These Dafny files describe the parts of the agent daemon (`agents/agentd`) that hold state which has
to stay consistent while many things go wrong, and prove what they promise. One walk over session
trees is shared with the command line (`packages/ac-cli`).

Where the source changes state in place there are two layers. A module of values has one function per
critical section, runs of those functions, and the theorems about all runs. A module with a class
has the source's fields and loops, and each method is proved to do to them exactly what the function
does, so the theorems hold for the fields.

| files | what they model |
|---|---|
| `TerminalAuthority`, `TerminalRequests`, `TerminalLoops`, `TerminalTokens`, `Terminal`, `ViewerPty` | several viewers attached to one tmux pane, one of them in control, and where their resume tokens are |
| `CommandSchedule`, `CommandSessions`, `Executor` | the keyed command executor and its worker pool |
| `OutboundLog`, `OutboundQueue` | the durable outbound queue, its log and its acknowledged number |
| `Delivery`, `DeliveryProgress`, `WsClient` | sequence numbers, greeting, replay and live messages over changing connections |
| `Durability`, `StaleNumbers`, `Restarts` | the same over any number of process lives: when a restart is safe, and what is lost when it is not |
| `CaptureText`, `JsonText`, `CapturePages`, `CaptureSnapshots` | anchored scrollback: retention, paging by the size of the JSON string, the snapshot cache |
| `SessionTree`, `SessionKill`, `RemoteTree` | the order in which trees of sessions are killed, and the bookkeeping of a kill |
| `TmuxTopology`, `TmuxSnapshot`, `TopologyDebounce` | the canonical topology snapshot and when it is sent |
| `TerminalOutput` | the output ring of a channel and its wake-up protocol |
| `ShellWords` | printing a launch as a shell command, and reading it back |
| `Options`, `Ordering`, `Text` | shared datatypes, string order, white space |

Running `dafny verify dfyconfig.toml` checks all of it.

## Assumptions

Every tmux command, disk write, socket write and PTY start may fail at any time; a failed one has no
effect. These outcomes are nondeterministic in methods and appear as answers, or as ghost results,
in contracts. A tmux that `obeys`, and a disk or connection that is `sound`, does not fail; contracts
use them to say that nothing else makes an operation fail. Beyond that:

- Terminal requests come from one WebSocket reader and do not overlap; only the sweeper runs beside
  them, and it may run between the two critical sections of a detach. `assignNextViewerController`
  does not look at the controller again, so without this the invariant would not hold. The field
  `promotion` marks that gap.
- A channel id is a non-empty id chosen by the server and a generated resume token is new. Sessions of
  two channels have different names.
- The server takes the frames of one connection in order. It handles a frame only if its number is above
  the highest one it has seen, except for greetings, and remembers that number over connections and over
  lives of the daemon (`services/control-plane/src/ws/agent.ts:284-290`, `:461-467`, `:517-520`). It
  acknowledges only numbers up to that one that the daemon has handed out. A write error ends its
  connection. A greeting or a replay writes only to the connection it was started for, although the code
  reads the connection again for every write.
- The queue holds at least one message (`maxSize >= 1`), and its log was written in increasing order.
- Hashes are injective, generated ids are new, and time is a parameter.

## Where the code is weaker than it looks

- Sequence numbers are not new over restarts. A restart puts the counter at the greatest of 1, the saved
  acknowledgement and the numbers in the log. Volatile messages such as `terminal.output` use numbers that
  never reach the log (`agents/agentd/cmd/agentd/main.go:939-954`), and so do durable ones whose append
  failed. If the daemon dies after the server has seen such a number and before the acknowledgement is
  saved, the next process gives it to another message, which the server skips and acknowledges: a durable
  message is lost. `Restarts.VolatileNumberIsReused` gives the input, `Restarts.RestartIsSafeIff` the exact
  condition, and `Durability.AcceptedMessagesSurvive` holds under it. For single messages, whatever restarts came
  before, `Restarts.MessageIsSafeIff` says which are safe.
- The saved acknowledgement could go back: the number in memory only grows, but each acknowledgement is
  written to disk as it comes. `OutboundLog.OldAckBringsMessagesBack` gives the input for the queue alone,
  `OutboundLog.AckKeepsExact` the exact condition. It does not happen as long as acknowledgements come in
  the order of the frames (`Restarts.SavedNumberNeverFalls`).
- The PTYs of expired viewers are closed, and their tokens removed, after the sweep has released its lock. An
  attach with such a token in between succeeds and then loses its persisted token: `TerminalTokens.SweptTokenIsLost`
  gives the input, `TerminalTokens.RequestIsSafeIff` the exact condition, and `TerminalTokens.TokensFollowViewers`
  holds under it.
- A stale viewer stays writable after a new attach has taken over its pane (`TerminalAuthority.StaleWriterStays`),
  so one writer per pane is true of live channels only. A writable channel that does not control its pane is
  always stale (`TerminalAuthority.WriterControlsOrIsStale`).
- A viewer's own `readOnly` flag is written and never read. It implies the channel's flag but not the
  other way round, because a failed demotion sets only the latter
  (`TerminalAuthority.FailedDemotionSplitsFlags`).
- A session whose id is `cmd:` and the id of a command without a session shares that command's queue
  (`CommandSessions.QueueIsShared`).
- A message whose push fails stays in memory and may still be replayed, although the sender was told
  that it failed (`Delivery.FailedPushStaysQueued`).
- A letterboxed viewer whose window is pinned but cannot be sized leaves the pin behind
  (`agents/agentd/internal/tmux/viewer_pty.go:184-204`: the release is only registered afterwards). After a
  later failure it is left only if the release fails (`ViewerPty.PinIsLeftBehind`).
- A topology change that is undone within the debounce time is sent all the same if a poll reports the undo,
  and replaced if a hook does (`TopologyDebounce.UndoneChangeGoesOut`).

## Model

| member | source | states |
|---|---|---|
| `TerminalAuthority.RunKeepsInv` | `agents/agentd/internal/tmux/terminal.go:220-1376` | Every run of attach, detach, promote, focus, take control, mark stale and sweep, whatever tmux answers, goes through without looking up a viewer that is not there, and ends in a state where channels, viewers, tokens and controllers agree. |
| `TerminalAuthority.OneWriterPerPane` | `agents/agentd/internal/tmux/terminal.go:421-430` | After any run two non-stale writable channels on one pane are the same channel, and it is the pane's recorded controller. |
| `TerminalAuthority.StaleWriterStays` | `agents/agentd/internal/tmux/terminal.go:421-430` | Whenever a connection is lost, a channel that could write still can after a new viewer has attached to its pane and controls it. |
| `TerminalAuthority.WriterControlsOrIsStale` | `agents/agentd/internal/tmux/terminal.go:421-430` | After any run a channel that can write controls its pane or is stale. |
| `TerminalAuthority.FailedDemotionSplitsFlags` | `agents/agentd/internal/tmux/terminal.go:1149-1156` | A failed demotion makes the channel read-only while its viewer's own flag still says otherwise. |
| `TerminalAuthority.InputNeedsControl` | `agents/agentd/internal/tmux/terminal.go:745-786` | After any run a live channel's input is handed to a PTY if and only if the channel is the recorded controller of the pane it is on, and that PTY is then one whose client takes input. |
| `TerminalTokens.TokensFollowViewers` | `agents/agentd/internal/tmux/terminal.go:947-983` | After any run in which nobody attaches with, or is focused to, a token and a pane that a sweep has still to close, the resume token of every viewer is persisted on its pane, and on no other pane unless a focus has failed at removing it from both. |
| `TerminalTokens.RequestIsSafeIff` | `agents/agentd/internal/tmux/terminal.go:248-257` | After such a run the next step is safe, in that no continuation whose later requests keep to that takes any viewer's token away, if and only if it is not itself an attach with, or a focus to, a token and a pane that a sweep has still to close. |
| `TerminalTokens.SweptTokenIsLost` | `agents/agentd/internal/tmux/terminal.go:220-257` | A viewer attaches, leaves and expires; another attaches with its token after the sweep has let go of its lock and before it closes the PTY; then the sweep takes the token away from the live viewer. |
| `TerminalAuthority.LiveChannelsSurvive` | `agents/agentd/internal/tmux/terminal.go:393-480` | No event but a channel's own detach takes a non-stale channel away from its viewer, and only its own focus moves it: a resume never displaces a live viewer. |
| `TerminalAuthority.ControlIsGranted` | `agents/agentd/internal/tmux/terminal.go:1130-1192` | A read-only channel becomes writable only by asking for control or by being promoted after its pane's controller left. |
| `TerminalAuthority.FirstResumeGetsControl` | `agents/agentd/internal/tmux/terminal.go:310-325` | After a lost connection the first channel that resumes on a pane controls it, supersedes the old channel and keeps its token, whatever stale controllers are still recorded. |
| `TerminalRequests.AttachIsLetIn` | `agents/agentd/internal/tmux/terminal.go:338-417` | Each way to refuse an attach has its own cause, in terms of size, channel, and the stored viewer of the token: elsewhere, in use through a connection that is up, or unknown to tmux; without a cause the attach goes through if the PTY starts. |
| `TerminalRequests.AttachGetsFreePane` | `agents/agentd/internal/tmux/terminal.go:421-430` | An attached channel may type, and then controls the pane, if and only if no live channel controlled it before. |
| `TerminalRequests.DetachedViewerResumes` | `agents/agentd/internal/tmux/terminal.go:393-416` | Whoever has detached and is not forgotten comes back with the token: if the capture and the PTY succeed the attach is a resume under that token on that pane. |
| `TerminalRequests.FailedAttachLeavesLiveAlone` | `agents/agentd/internal/tmux/terminal.go:391-510` | A refused attach changes nothing, and one whose PTY does not start takes nothing from a live channel. |
| `TerminalRequests.DetachLeavesViewer` | `agents/agentd/internal/tmux/terminal.go:625-659` | A detach takes away exactly the channel and the control it had, and leaves its viewer under its token, on its pane and in its session, with its PTY unless it is letterboxed. |
| `TerminalRequests.ControlPassesOn` | `agents/agentd/internal/tmux/terminal.go:1350-1376` | When a pane's controller detaches and another viewer on the pane gets a PTY, that viewer controls the pane, its input is accepted, and no other live channel's there is. |
| `TerminalRequests.FailedPromotionGrantsNothing` | `agents/agentd/internal/tmux/terminal.go:1350-1366` | A promotion whose PTY does not start leaves controllers and channels as they were. |
| `TerminalRequests.ControlIsGivenIff` | `agents/agentd/internal/tmux/terminal.go:1131-1192` | Taking control succeeds exactly if the channel has it or the PTYs that are needed start; which failure is reported says who is left in control. |
| `TerminalRequests.TakerMayType` | `agents/agentd/internal/tmux/terminal.go:1168-1175` | Whoever has taken control is recorded, may type, and has a PTY that takes input. |
| `TerminalRequests.OthersAreSilenced` | `agents/agentd/internal/tmux/terminal.go:1168-1175` | When control has changed hands the input of every other channel on the pane is refused, stale or not. |
| `TerminalRequests.FocusMovesControl` | `agents/agentd/internal/tmux/terminal.go:985-1007` | A viewer that moves takes its control along if the new pane is free, loses it otherwise, frees the old pane, and takes nothing from anybody else. |
| `TerminalRequests.LossMarksAttached` | `agents/agentd/internal/tmux/terminal.go:313-325` | A lost connection makes exactly the attached viewers stale, from then on, and changes nothing else. |
| `TerminalRequests.ExpiryIsThirtySeconds` | `agents/agentd/internal/tmux/terminal.go:220-229` | A viewer is forgotten exactly when it has been detached or stale for 30 seconds. |
| `TerminalRequests.ExpiryTakesChannel` | `agents/agentd/internal/tmux/terminal.go:230-252` | A channel and its control go exactly if its viewer does. |
| `TerminalRequests.InputIsAnswered` | `agents/agentd/internal/tmux/terminal.go:745-786` | Input is refused for an unknown channel, a read-only one, or a viewer without a PTY, and otherwise goes to the channel's own viewer. |
| `TerminalRequests.RunGoesOn` | `agents/agentd/internal/tmux/terminal.go:220-1376` | After any run, the next event that can happen is carried out. |
| `TerminalRequests.RequestsAreServed` | `agents/agentd/internal/tmux/terminal.go:220-1376` | After any run, nothing but a pending promotion holds a detach, a take-control, a lost connection or the focus of a viewer with a PTY back, and the sweep not even that. |
| `TerminalRequests.AttachIsServed` | `agents/agentd/internal/tmux/terminal.go:337-485` | So is an attach of a channel that has an id, with a token that nobody holds. |
| `TerminalAuthority.AttachKeepsInv` | `agents/agentd/internal/tmux/terminal.go:391-510` | An attach keeps the invariant through every check, supersession, failed PTY start and early close. |
| `TerminalAuthority.DetachKeepsInv` | `agents/agentd/internal/tmux/terminal.go:625-671` | The first critical section of a detach keeps the invariant and leaves the pane free while a promotion is pending. |
| `TerminalAuthority.PromoteKeepsInv` | `agents/agentd/internal/tmux/terminal.go:1350-1376` | Promoting any viewer on the freed pane keeps the invariant, also when its PTY cannot be restarted. |
| `TerminalAuthority.MoveKeepsInv` | `agents/agentd/internal/tmux/terminal.go:985-1007` | Moving a viewer's authority to the focused pane leaves no second writer on either pane and no controller that is elsewhere. |
| `TerminalAuthority.TakeControlKeepsInv` | `agents/agentd/internal/tmux/terminal.go:1131-1175` | Taking control keeps the invariant in all four outcomes: handed over, demotion failed, promotion failed and restored, restoration failed. |
| `TerminalAuthority.MarkStaleKeepsInv` | `agents/agentd/internal/tmux/terminal.go:313-325` | Marking the viewers of a lost connection keeps the invariant although stale viewers stay writable. |
| `TerminalAuthority.SweepKeepsInv` | `agents/agentd/internal/tmux/terminal.go:220-253` | Forgetting expired viewers keeps the invariant, also between the two halves of a detach. |
| `TerminalLoops.GrantStep` | `agents/agentd/internal/tmux/terminal.go:1169-1175` | Changing the roles on a pane one viewer at a time, in any order, amounts to the same grant. |
| `TerminalLoops.MarkStep` | `agents/agentd/internal/tmux/terminal.go:317-324` | Marking viewers one at a time, in any order, amounts to marking all of them. |
| `TerminalLoops.SweepForget` | `agents/agentd/internal/tmux/terminal.go:223-252` | Forgetting one more expired viewer, whatever was forgotten before, is one step of the whole sweep. |
| `TerminalLoops.ForgetKeepsInv` | `agents/agentd/internal/tmux/terminal.go:230-252` | Forgetting a single viewer already leaves a coherent state. |
| `Terminal.TerminalManager.AttachWithOptions` | `agents/agentd/internal/tmux/terminal.go:337-485` | The maps and viewer objects after an attach, and its result, are those of the attach on values; an attached channel's own viewer has a PTY of the reported role whose session is up, and tmux keeps its token on the pane. While tmux obeys, an attach to a pane that exists fails only for the causes in `AttachIsLetIn`. |
| `Terminal.TerminalManager.CheckAttach` | `agents/agentd/internal/tmux/terminal.go:338-417` | The checks refuse in the source's order and change nothing; an unknown token is let through only if tmux has it stored on the pane, and while tmux obeys it is refused only if tmux has not. |
| `Terminal.TerminalManager.SupersedeViewer` | `agents/agentd/internal/tmux/terminal.go:487-510` | A stale viewer loses channel, control and PTY and stays under its token. |
| `Terminal.TerminalManager.StartAttached` | `agents/agentd/internal/tmux/terminal.go:427-480` | The viewer is stored in all maps with a PTY in the role that the pane's controller leaves it, or nothing is changed when that PTY does not start. |
| `Terminal.TerminalManager.Detach` | `agents/agentd/internal/tmux/terminal.go:625-675` | The maps after the first critical section of a detach are those of the detach on values; a letterboxed viewer's PTY is closed and given up, with its session and its pin unless tmux fails at it, any other viewer keeps its own for a resume; and the zoom it applied is undone. |
| `Terminal.TerminalManager.AssignNextViewerController` | `agents/agentd/internal/tmux/terminal.go:1350-1376` | Some viewer left on the pane, whichever the map yields first, is promoted, and none only if there is none; one that is promoted has a new PTY of its own that takes input, is the recorded controller, and is no longer read-only, and nothing else is recorded. While tmux obeys the promotion goes through. |
| `Terminal.TerminalManager.MoveAuthority` | `agents/agentd/internal/tmux/terminal.go:985-1007` | Controller map, channel maps, viewer and bridge move together. |
| `Terminal.TerminalManager.MoveResumeToken` | `agents/agentd/internal/tmux/terminal.go:947-983` | The persisted token ends on the new pane, on the old one, or on both, according to which tmux commands failed. |
| `TerminalTokens.TokenIsOnOnePane` | `agents/agentd/internal/tmux/terminal.go:947-983` | A token that was on exactly one pane is afterwards on exactly the new pane after success and exactly the old one after failure, except on both when the rollback failed too; other tokens stay. |
| `Terminal.TerminalManager.RestoreFocus` | `agents/agentd/internal/tmux/terminal.go:1009-1039` | A rollback that is reported as complete has brought the previous pane and zoom back, and while tmux obeys it is complete. |
| `Terminal.TerminalManager.ShowPane` | `agents/agentd/internal/tmux/terminal.go:888-921` | Success means that tmux shows exactly the requested pane and zoom; a failure reported as restored means the previous state is shown again. While tmux obeys, a pane of the viewer's group is shown, and asking for another one is undone. |
| `Terminal.TerminalManager.FocusPane` | `agents/agentd/internal/tmux/terminal.go:867-926` | A focus is a transaction: success moves tmux state, authority and token together; failure leaves the authority as it was and the token where the failed commands left it, and when it is reported as restored the previous pane and zoom are shown again. Unknown channels, viewers without a PTY and blank panes are refused, each exactly then, and while tmux obeys a pane of the group is reached. |
| `Terminal.TerminalManager.TakeControl` | `agents/agentd/internal/tmux/terminal.go:1131-1192` | Result and maps are those of taking control on values, for every pattern of PTY failures; on success the channel is recorded and not read-only, the new controller has a writable PTY and the previous one a read-only one, and after a failed promotion that is undone the previous one is writable again. While tmux obeys it succeeds for every known channel. |
| `Terminal.TerminalManager.ReplaceBridge` | `agents/agentd/internal/tmux/terminal.go:1324-1348` | A viewer's PTY is replaced by a new one of the requested role and the old size, or the viewer is left without one and keeps its role. |
| `Terminal.TerminalManager.GrantRoles` | `agents/agentd/internal/tmux/terminal.go:1168-1175` | One loop over the viewers makes the channel the pane's only writer. |
| `Terminal.TerminalManager.MarkChannelsStale` | `agents/agentd/internal/tmux/terminal.go:313-325` | One loop over the attached viewers marks exactly those not marked yet. |
| `Terminal.TerminalManager.Sweep` | `agents/agentd/internal/tmux/terminal.go:220-253` | One loop over the viewers that deletes while it goes forgets exactly the expired ones with all their entries, in any order, and hands back exactly their PTYs to be closed, with the tokens on the panes that the expired viewers had. |
| `Terminal.TerminalManager.CloseExpired` | `agents/agentd/internal/tmux/terminal.go:255-257` | Every forgotten PTY ends up closed, no map is disturbed, and no resume token but theirs is removed, each from the pane of its PTY. |
| `Terminal.TerminalManager.SendInput` | `agents/agentd/internal/tmux/terminal.go:745-786` | Input is refused for unknown, read-only and PTY-less channels and otherwise goes to the channel's own bridge. |
| `Terminal.PutKeepsMaps` | `agents/agentd/internal/tmux/terminal.go:1002-1006` | Writing one channel's pane and role keeps all six channel maps on one domain and in agreement with the viewers. |
| `ViewerPty.Bridge.SelectWindow` | `agents/agentd/internal/tmux/viewer_pty.go:344-371` | A letterboxed viewer takes its size pin along when it changes windows; after a failure the old window stays its target, though that may have lost its pin, and the new window may be left with one. |
| `ViewerPty.Bridge.SelectPane` | `agents/agentd/internal/tmux/viewer_pty.go:310-342` | Only panes of the viewer's own group can be selected, and while tmux obeys all of them; success makes the pane active in the session's current window, takes the pin along and resets the wheel. |
| `ViewerPty.Bridge.SetZoom` | `agents/agentd/internal/tmux/viewer_pty.go:373-396` | Zooming reads first and toggles only on a difference, so success means the window is zoomed exactly as requested. |
| `ViewerPty.Bridge.Close` | `agents/agentd/internal/tmux/viewer_pty.go:438-463` | Closing twice is harmless; the session and a letterboxed window's pin go unless tmux fails, and the resume token only when asked. |
| `ViewerPty.NewBridge` | `agents/agentd/internal/tmux/viewer_pty.go:140-252` | A bridge comes back only with its session on the pane's window, the pane active there, the pin of a letterboxed viewer and the token all in place; a failed start changes no other viewer's session, and which windows are pinned follows from the command that failed and from whether the release failed too. |
| `ViewerPty.PinIsLeftBehind` | `agents/agentd/internal/tmux/viewer_pty.go:178-204` | A failed letterboxed start leaves a window pinned that was not if and only if the window was pinned and then either its sizing failed, or a later command and the release failed. |
| `CommandSchedule.RunKeepsInv` | `agents/agentd/internal/commands/executor.go:53-181` | Every run of submissions, workers and closing keeps the scheduling invariant, whichever sleeping worker each signal wakes. |
| `CommandSchedule.ScheduledOnce` | `agents/agentd/internal/commands/executor.go:96-101` | A key has queued commands exactly when it is ready, at one position only, or held by a worker. |
| `CommandSchedule.OneInFlightPerKey` | `agents/agentd/internal/commands/executor.go:38-39` | Two workers are never busy with one queue, and a held one is never ready as well. |
| `CommandSchedule.SessionOrder` | `agents/agentd/internal/commands/executor.go:129-155` | Per queue, the commands with results followed by those still queued are the submissions in order. |
| `CommandSessions.OneWorkerPerSession` | `agents/agentd/internal/commands/executor.go:38-39` | Two workers that are busy with commands of one session are the same worker with the same command, after any run. |
| `CommandSessions.SessionIsFifo` | `agents/agentd/internal/commands/executor.go:92-155` | After any run the commands of a session that have results, followed by those of the session that wait, are those submitted with its id, in order. |
| `CommandSessions.QueueIsShared` | `agents/agentd/internal/commands/executor.go:92-96` | Two commands wait in one queue only if they are of one session, or one has no session and the other's session is named after its id. |
| `CommandSessions.SubmitIsAnswered` | `agents/agentd/internal/commands/executor.go:74-103` | A submission is refused for an empty id, an empty type, after closing, or for an id submitted before, each exactly then, and otherwise becomes the newest accepted command. |
| `CommandSessions.PoolIsFixed` | `agents/agentd/internal/commands/executor.go:53-72` | After any run there are as many workers as asked for, at least one, and the executor is closed exactly if it was told to. |
| `CommandSessions.ReadyWorkIsTaken` | `agents/agentd/internal/commands/executor.go:129-141` | A worker that looks while a key is ready takes the command at the head of that queue. |
| `CommandSessions.IdleSessionIsReady` | `agents/agentd/internal/commands/executor.go:96-101` | A command whose session has nothing queued is made ready at once, behind those that are. |
| `CommandSessions.ResultIsReported` | `agents/agentd/internal/commands/executor.go:157-181` | A worker's result is for the submitted command that it took, and is ok with the handler's payload exactly if the handler returned. |
| `CommandSchedule.NoLostWakeUp` | `agents/agentd/internal/commands/executor.go:129-155` | While some worker sleeps, ready keys do not outnumber the workers already woken; ready work always has somebody awake. |
| `CommandSchedule.ReadyIsFifo` | `agents/agentd/internal/commands/executor.go:138-140` | The key at position i of the ready list is the one dispatched after exactly i others, in every continuation. |
| `CommandSchedule.AtMostOneResult` | `agents/agentd/internal/commands/executor.go:72-73` | Every result answers an accepted command and no command id gets two, also when handlers panic. |
| `CommandSchedule.DrainedAfterClose` | `agents/agentd/internal/commands/executor.go:105-112` | Once all workers have left, every queue is empty and exactly the accepted ids have a result. |
| `CommandSchedule.WorkersFinish` | `agents/agentd/internal/commands/executor.go:105-112` | After closing, every step of a worker uses up a bounded amount of work and nothing adds to it. |
| `CommandSchedule.CloseReturns` | `agents/agentd/internal/commands/executor.go:105-112` | After closing, every reachable state leads on to one in which all workers have left, within that bound. |
| `CommandSchedule.Execute` | `agents/agentd/internal/commands/executor.go:157-181` | A result is ok exactly if the handler returned, and then has its payload; a failed or panicking handler yields a non-empty code, its message, and no payload, for the same command. |
| `Executor.Executor.Submit` | `agents/agentd/internal/commands/executor.go:74-103` | Queues, ready list and accepted ids change as the submit step says, errors are found in the source's order, and there is none exactly for a new, complete command before closing. |
| `Executor.Executor.Next` | `agents/agentd/internal/commands/executor.go:129-141` | The worker gets the first ready key with the head of its queue, or sleeps, or leaves, as the step says. |
| `Executor.Executor.Report` | `agents/agentd/internal/commands/executor.go:157-181` | One result is handed out for the command that the worker holds, ok exactly if the handler returned. |
| `Executor.Executor.Complete` | `agents/agentd/internal/commands/executor.go:143-155` | The finished command leaves its queue, which is dropped when empty and made ready again otherwise. |
| `Executor.Executor.Close` | `agents/agentd/internal/commands/executor.go:106-112` | Closing refuses further commands and wakes every sleeping worker. |
| `OutboundLog.RunKeepsInv` | `agents/agentd/internal/queue/queue.go:53-211` | Any run of pushes, acknowledgements, failed writes, rewrites, stops and starts keeps disk and memory in step. |
| `OutboundLog.RecoveryKeepsQueue` | `agents/agentd/internal/queue/queue.go:53-75` | In every reachable state, reloading the log and dropping what is known to have arrived yields the queued messages, less those whose append failed, behind messages that had already left the queue. |
| `OutboundLog.PushIsAnswered` | `agents/agentd/internal/queue/queue.go:175-195` | A push queues its message behind the others, of which only the oldest makes room and only in a full queue, and counts as persisted exactly if its line and the rewrite that this calls for took effect. |
| `OutboundLog.AckIsApplied` | `agents/agentd/internal/queue/queue.go:140-211` | An acknowledgement leaves exactly the messages above its number, and the log is rewritten exactly after 100 removals, or after some while it is neither recent nor small. |
| `OutboundLog.PushKeepsExact` | `agents/agentd/internal/queue/queue.go:175-195` | A push keeps disk and memory equal if and only if its append, and the rewrite that an eviction needs, take effect. |
| `OutboundLog.AckKeepsExact` | `agents/agentd/internal/queue/queue.go:197-211` | An acknowledgement keeps disk and memory equal if and only if it rewrites the log or no line lies between the number now saved and the highest one known; never-decreasing saved numbers suffice. |
| `OutboundLog.SteadyRunsAreExact` | `agents/agentd/internal/queue/queue.go:106-211` | When writes succeed and saved numbers never decrease, a restart finds exactly the queued messages, after any run with any number of restarts. |
| `OutboundLog.OldAckBringsMessagesBack` | `agents/agentd/internal/ws/client.go:205-216` | In a run from an empty disk an older acknowledgement that comes later is saved, and then a restart brings an acknowledged message back. |
| `OutboundLog.StartKeepsMessages` | `agents/agentd/cmd/agentd/main.go:460-477` | A start keeps every message not known to have arrived, in order, with contents and distances, all above the greeting's number and at or below the counter, from any log; so no number of a message that was found is used again. |
| `OutboundLog.StartFailsIff` | `agents/agentd/cmd/agentd/main.go:471-477` | A start fails exactly if a rewrite fails that is due: 100 acknowledged messages on disk, or some when the log is neither recent nor small, or an undelivered message with a number up to 1. |
| `OutboundLog.SoundDiskStarts` | `agents/agentd/cmd/agentd/main.go:471-477` | Whatever is on disk, a process starts if its writes take effect. |
| `OutboundLog.CleanDiskStarts` | `agents/agentd/cmd/agentd/main.go:471-477` | If the whole log lies above the saved and the greeting's number, a process starts whatever writes would do, and leaves the log as it is. |
| `OutboundLog.StartWritesOnlyWhatIsDue` | `agents/agentd/cmd/agentd/main.go:471-477` | A start leaves the log alone if nothing has to be removed or renumbered, and goes no further once the removal of acknowledged messages has failed. |
| `OutboundLog.RestartKeepsQueue` | `agents/agentd/cmd/agentd/main.go:460-477` | If disk and memory agree, stopping and starting with writes that take effect gives the same queue back. |
| `OutboundLog.FailedStartKeepsMessages` | `agents/agentd/cmd/agentd/main.go:471-477` | After a start that failed, the next one finds every message that is not known to have arrived. |
| `OutboundLog.RebasedKeeps` | `agents/agentd/internal/queue/queue.go:236-270` | A rebase moves all messages by one offset, clears the floor, and changes nothing exactly when the floor was clear already. |
| `OutboundQueue.Queue.Push` | `agents/agentd/internal/queue/queue.go:175-195` | Memory and log after a push, and whether it counts as persisted, are those of the push on values. |
| `OutboundQueue.Queue.PruneMessages` | `agents/agentd/internal/queue/queue.go:158-173` | The loop keeps exactly the messages above the number and counts the others. |
| `OutboundQueue.Queue.MaybeCompact` | `agents/agentd/internal/queue/queue.go:140-156` | The log is rewritten only after 100 removals, or when neither recent nor small. |
| `OutboundQueue.Queue.AckUpto` | `agents/agentd/internal/queue/queue.go:197-211` | Memory and log after pruning are those of the pruning on values. |
| `OutboundQueue.Queue.MaxSeq` | `agents/agentd/internal/queue/queue.go:223-234` | The loop finds the greatest number, zero for an empty queue. |
| `OutboundQueue.Queue.RebaseAbove` | `agents/agentd/internal/queue/queue.go:240-270` | The loops find the least and the greatest number and shift every message in place, and the result is written out; the greatest number now in use, or the failure, is reported. |
| `Delivery.RunKeepsInv` | `agents/agentd/internal/ws/client.go:120-502` | Connects, greetings, replays, sends, acknowledgements, disconnects and a server that skips numbers it has seen, in any interleaving, keep the delivery invariant. |
| `Delivery.NothingIsLost` | `agents/agentd/internal/ws/client.go:320-364` | In a process whose numbers are new to the server, every accepted durable message that a full queue has not dropped is processed by the server or still queued. |
| `Delivery.OnlyFullQueuesDrop` | `agents/agentd/internal/queue/queue.go:175-195` | No step but a durable send into a full queue takes an accepted message back, and that one only the oldest message queued. |
| `Delivery.FailedPushStaysQueued` | `agents/agentd/internal/ws/client.go:325-337` | A send is reported as not persisted exactly when its push failed, and its message is queued for the next replay all the same. |
| `Delivery.SendIsAnswered` | `agents/agentd/internal/ws/client.go:320-364` | Each answer to a send means one thing: sent is on the wire or, for a durable message without a ready connection, on disk; no other answer leaves a frame on the wire, and a failed write ends the connection. |
| `Delivery.AckIsApplied` | `agents/agentd/internal/ws/client.go:199-217` | An acknowledgement takes exactly the messages up to its number off the queue, raises the acknowledged number or leaves it, and touches nothing else. |
| `Delivery.ReplayIsInOrder` | `agents/agentd/internal/ws/client.go:451-480` | What is replayed are the messages of the queue, each as often as it is queued, in the order of their numbers, in whatever order they were queued. |
| `Delivery.FailedWriteAborts` | `agents/agentd/internal/ws/client.go:396-480` | A greeting or a replay that fails to write leaves the wire as it was and gives the connection up. |
| `Delivery.AbortedIsSilent` | `agents/agentd/internal/ws/client.go:451-480` | Nothing is written to a connection that was given up, and it never becomes ready. |
| `Delivery.ConnectionIsOrdered` | `agents/agentd/internal/ws/client.go:396-480` | On each connection, the current one or one given up, numbers strictly increase from the greeting through the replay to live messages, and no frame overtakes an accepted message still owed. |
| `Delivery.QuietConnectionIsComplete` | `agents/agentd/internal/ws/client.go:451-480` | When a ready connection has been read to its end, everything accepted and not dropped has been processed. |
| `DeliveryProgress.GreetAndReplay` | `agents/agentd/internal/ws/client.go:396-480` | A new connection whose writes succeed carries the greeting and then the queue in the order of its numbers, and is ready. |
| `DeliveryProgress.EverythingGetsThrough` | `agents/agentd/internal/ws/client.go:120-502` | From every reachable state of a process, connecting again and letting the server read has every accepted message processed that no full queue has dropped, with nothing sent anew. |
| `Delivery.NumbersStayFresh` | `agents/agentd/internal/ws/client.go:80-106` | In a process that starts at or above every number in use, the counter stays there: the next message has a number that nothing on any connection has, and a greeting's number is below all queued ones. |
| `Delivery.StartedInv` | `agents/agentd/cmd/agentd/main.go:460-477` | A client that has just started on any sorted log, at or above the server's highest number, satisfies the invariant that all later steps keep. |
| `StaleNumbers.PassedStaysPassed` | `services/control-plane/src/ws/agent.ts:284-290` | Once the server has seen a number, no message with that number that it has not handled is ever handled, whatever is sent again. |
| `StaleNumbers.StaleStartLoses` | `services/control-plane/src/ws/agent.ts:461-467` | A process that starts below a number that the server has seen, or that is on its way to it, can lose an accepted message although every write succeeds and acknowledgements come in order. |
| `Durability.AcceptedMessagesSurvive` | `agents/agentd/cmd/agentd/main.go:460-477` | Through any number of crashes, failed writes and restarts an accepted message that no full queue has dropped is processed, or is still in the queue or on disk for the next start, provided that each process starts with numbers new to the server. |
| `Durability.RenumberedAtMostOnce` | `agents/agentd/internal/queue/queue.go:236-239` | After the first start no later start renumbers a message, so each puts the counter at the greatest number on disk. |
| `Durability.StepKeepsSecure` | `agents/agentd/internal/ws/client.go:320-364` | A message that is accepted under a number above all in use, or is secure already, stays so through every step, whatever numbers later processes start with and later messages have. |
| `Restarts.MessageIsSafeIff` | `agents/agentd/internal/ws/client.go:80-106` | In whatever state a run has led to, stale restarts included, a new message that is accepted is never lost, unless a full queue drops it, if and only if the counter was not below any number that the server had seen or might still see. |
| `Restarts.RestartIsSafeIff` | `agents/agentd/internal/ws/client.go:80-106` | A restart is safe, in that no run from there whose later restarts are fresh loses an accepted message, if and only if the greatest of 1, the saved number and the numbers in the log is at least every number that the server has seen or may still see. |
| `Restarts.VolatileNumberIsReused` | `agents/agentd/cmd/agentd/main.go:939-954` | Not every restart is safe: terminal output uses number 2, the process dies before the acknowledgement, the next process gives 2 to a durable message, and that is lost. |
| `Restarts.SavedNumberNeverFalls` | `agents/agentd/internal/ws/client.go:199-217` | When the frames of each connection are acknowledged in their order, as the server does, no acknowledgement is below the saved one, on any connection of any process. |
| `Restarts.OrderedRunsAreExact` | `agents/agentd/internal/queue/queue.go:197-211` | With acknowledgements in order and writes that take effect, disk and memory agree throughout any run of client, server and disk with any number of restarts. |
| `WsClient.Client.Send` | `agents/agentd/internal/ws/client.go:320-364` | Counter, queue, connection and result are those of the send step; a durable message is the last in the queue, a volatile one is never queued, and on a ready connection the wire gains exactly a frame that is reported as sent. |
| `WsClient.Client.SendHello` | `agents/agentd/internal/ws/client.go:396-414` | The first frame carries the acknowledged number, or 1, which no queued message has. |
| `WsClient.Client.ResendQueued` | `agents/agentd/internal/ws/client.go:451-480` | The wire gains exactly the queue in the order of its numbers before live messages are let through; a failed write leaves the connection unready, and without a connection only an empty queue is replayed. |
| `WsClient.Client.HandleAck` | `agents/agentd/internal/ws/client.go:199-217` | The acknowledged number never decreases in memory, the queue drops what arrived, and the number is saved even if it is an old one. |
| `WsClient.Client.SetLastAckedSeq` | `agents/agentd/internal/ws/client.go:86-106` | The counter ends at or above the acknowledged number, the queue's greatest number, and one. |
| `WsClient.StartClient` | `agents/agentd/cmd/agentd/main.go:460-477` | Starting a client performs the whole start on values, on any log and after any earlier process. There is a client whenever writes take effect or nothing has to be removed or renumbered on disk; there is none only if such a write failed. |
| `CaptureText.SplitThenJoin` | `agents/agentd/cmd/agentd/capture_snapshot.go:150-155` | Splitting a capture loses nothing and leaves no newline in a line. |
| `CaptureText.CaptureRoundTrip` | `agents/agentd/cmd/agentd/capture_snapshot.go:150-155` | The lines of a non-empty capture are the only newline-free lines that join to it, up to one final newline. |
| `CaptureText.LinesAreCaptured` | `agents/agentd/cmd/agentd/capture_snapshot.go:150-155` | Lines that each end with a newline are captured as those lines, the last one also without its newline unless it is empty, and empty text has none. |
| `CaptureText.EncodedJoin` | `agents/agentd/cmd/agentd/capture_snapshot.go:199-208` | The JSON length of joined text is that of its parts and 2 for the newline, for all byte strings, valid UTF-8 or not (section 7 of RFC 8259). |
| `JsonText.TableIsUtf8` | `agents/agentd/cmd/agentd/capture_snapshot.go:199-203` | The byte ranges by which the cost is computed find exactly the sequences of UTF-8: shortest form, no surrogate, up to U+10FFFF (section 3 of RFC 3629). |
| `JsonText.LengthIsEncoded` | `agents/agentd/cmd/agentd/capture_snapshot.go:199-208` | The computed length is that of the JSON string, for every byte string. |
| `JsonText.EncodingIsRead` | `agents/agentd/cmd/agentd/capture_snapshot.go:199-203` | A reader of JSON strings that knows nothing of the encoder reads the encoding, and gets the characters of the text, with U+FFFD for bytes that are none (section 7 of RFC 8259). |
| `JsonText.CharactersAreText` | `agents/agentd/cmd/agentd/capture_snapshot.go:199-203` | Text that is UTF-8 is the UTF-8 of its characters, so reading its encoding gives it back. |
| `JsonText.EncodingIsPlain` | `agents/agentd/cmd/agentd/capture_snapshot.go:199-203` | The encoding has no control byte and none of < > and &. |
| `JsonText.EncodingHasNoSeparator` | `agents/agentd/cmd/agentd/capture_snapshot.go:199-203` | The encoding has no U+2028 and no U+2029. |
| `JsonText.OthersAreKept` | `agents/agentd/cmd/agentd/capture_snapshot.go:199-203` | Nothing else is escaped: text without such characters, quotes, backslashes and control characters is its own encoding. |
| `CapturePages.RetainNewestLines` | `agents/agentd/cmd/agentd/capture_snapshot.go:167-190` | The loop returns the longest suffix within both limits on rows and joined bytes. |
| `CapturePages.NewestIsUnique` | `agents/agentd/cmd/agentd/capture_snapshot.go:167-190` | Only one suffix is the longest within the limits. |
| `CapturePages.BuildPage` | `agents/agentd/cmd/agentd/capture_snapshot.go:192-228` | The loop's page, or its refusal, is the page defined by extending it while it fits; its content is at most 512 KiB in JSON, quotes included, and it is refused exactly if its last line alone is more. |
| `CapturePages.PageStartIsPage` | `agents/agentd/cmd/agentd/capture_snapshot.go:192-228` | That page is within the byte limit and the page size, and no longer page before the same line is. |
| `CapturePages.PageIsBounded` | `agents/agentd/cmd/agentd/capture_snapshot.go:192-228` | The JSON string that the encoder makes of a page is at most 512 KiB, quotes included; a page is refused exactly if that of its last line is longer. |
| `CapturePages.PageIsLongest` | `agents/agentd/cmd/agentd/capture_snapshot.go:210-214` | What a page leaves out in front would make its JSON string longer than 512 KiB or the page longer than asked for. |
| `CapturePages.PagesCoverLines` | `agents/agentd/cmd/agentd/capture_snapshot.go:221-247` | Following next_before ends, and the pages, oldest first, hold all lines once and without a gap, each page as long as it can be. |
| `CapturePages.PagesExistWhenLinesFit` | `agents/agentd/cmd/agentd/capture_snapshot.go:215-220` | Following the pages succeeds if and only if every single line fits into a page. |
| `CaptureSnapshots.FindOldest` | `agents/agentd/cmd/agentd/capture_snapshot.go:127-141` | Whatever order the map yields, the least recently used capture is found, the least id on a tie. |
| `CaptureSnapshots.RoomIsUnique` | `agents/agentd/cmd/agentd/capture_snapshot.go:127-141` | Making room has one outcome whatever the iteration order. |
| `CaptureSnapshots.OldestMakeRoom` | `agents/agentd/cmd/agentd/capture_snapshot.go:127-141` | Room is made for one capture and no more, and what goes was used no later than what stays. |
| `CaptureSnapshots.Cache.Prune` | `agents/agentd/cmd/agentd/capture_snapshot.go:119-125` | Exactly the captures unused for 3600 seconds are forgotten. |
| `CaptureSnapshots.Cache.MakeRoom` | `agents/agentd/cmd/agentd/capture_snapshot.go:127-141` | The oldest captures go until fewer than two are left; the others stay as they were. |
| `CaptureSnapshots.Cache.Create` | `agents/agentd/cmd/agentd/capture_snapshot.go:49-81` | At most two captures are kept; the new one holds the newest lines and the reply describes its last page; if its last line is too long the cache only loses expired entries. |
| `CaptureSnapshots.Cache.Continue` | `agents/agentd/cmd/agentd/capture_snapshot.go:83-110` | A continuation is a slice of the lines captured at creation, whatever other calls did, and is noted as a use; it is refused as expired exactly if the capture is gone, an hour old or for something else, as out of range, or as too long, each exactly then. |
| `CaptureSnapshots.RepliesSatisfySchema` | `packages/ac-schema/src/command.ts:368-415` | Every reply for a page size of 1 to 5000 satisfies the schema's rules across fields. |
| `CaptureSnapshots.CaptureIsComplete` | `agents/agentd/cmd/agentd/capture_snapshot.go:157-165` | A capture is the whole text, up to its final newline, exactly when it is not marked as truncated. |
| `CaptureSnapshots.CaptureIsBounded` | `agents/agentd/cmd/agentd/capture_snapshot.go:157-190` | A capture holds the last lines of the text, at most 100000 and 32 MiB, and marks exactly when lines are missing; one line more would be too much. |
| `SessionTree.OrderIsDescendantFirst` | `packages/ac-cli/src/operations.ts:586-603` | On any finite graph the walk yields exactly what the root leads to, once each and the root last; every other node stands before one of its parents, and every child before its parent unless it leads back to it. |
| `SessionTree.AcyclicOrder` | `packages/ac-cli/src/operations.ts:586-603` | A child that does not lead back to its parent is taken before it. |
| `SessionKill.CollectChildren` | `agents/agentd/cmd/agentd/orchestrator_api.go:334-342` | The children of every session are listed in sorted order, whatever order the sessions were looked at in. |
| `SessionKill.ChildGraphIsUnique` | `agents/agentd/cmd/agentd/orchestrator_api.go:334-342` | There is only one such listing. |
| `SessionKill.Walker.Visit` | `agents/agentd/cmd/agentd/orchestrator_api.go:343-355` | The recursive visit appends and marks as the walk on values does, and ends on cycles. |
| `SessionKill.KillOrder` | `agents/agentd/cmd/agentd/orchestrator_api.go:330-358` | The order is the root alone, or the walk over the sorted children. |
| `SessionKill.TreeOrder` | `agents/agentd/cmd/agentd/orchestrator_api.go:330-358` | Killing a tree takes exactly the root and its descendants, all known, each once, the root last, every other session before its own parent, and with a session every one whose parent link names it, cycles included. |
| `SessionKill.ChildrenDieFirst` | `agents/agentd/cmd/agentd/orchestrator_api.go:246-288` | In a tree the command that kills a session's pane goes out before the one for its parent's. |
| `SessionKill.Backend.Kill` | `agents/agentd/cmd/agentd/orchestrator_api.go:246-328` | A kill is refused exactly if it is not allowed, names no session, or an unknown one. Otherwise kill commands go out for the panes of the ordered sessions, in order; each session is reported as killed or as failed; of the sessions that are known once the panes are dead, whatever others did meanwhile, exactly the killed ones become DONE, without pane and target, with the time of the kill; updates name those and their other known parents once each. |
| `RemoteTree.RemoteWalker.Visit` | `packages/ac-cli/src/operations.ts:586-603` | The recursive visit over fetched edges follows the walk, or stops because some session it leads to has no answer. |
| `RemoteTree.RemoteDescendantFirst` | `packages/ac-cli/src/operations.ts:586-603` | The command fails if and only if a session below the root has no answer, and otherwise yields the walk. |
| `RemoteTree.ChildrenAreEdges` | `packages/ac-cli/src/operations.ts:595-598` | The walk goes from a session to exactly those that the edges of its own answer lead to. |
| `RemoteTree.ChildIdsKeepOrder` | `packages/ac-cli/src/operations.ts:595-598` | It takes them in the order of the edges. |
| `TmuxTopology.SnapshotIsCanonical` | `agents/agentd/cmd/agentd/tmux_topology.go:15-83` | Two snapshots of the same panes in different orders are identical when panes of a window agree on it and are numbered differently. |
| `TmuxTopology.ShowsWhatIsListed` | `agents/agentd/cmd/agentd/tmux_topology.go:15-64` | The snapshot shows exactly the listed panes, each in its own window and session. |
| `TmuxTopology.SessionIsWhatPanesSay` | `agents/agentd/cmd/agentd/tmux_topology.go:23-64` | A session is attached if a pane of it says so, has the most clients that one reports, and none of its windows is empty or described otherwise than by one of its panes. |
| `TmuxTopology.SnapshotIsSorted` | `agents/agentd/cmd/agentd/tmux_topology.go:66-83` | Sessions come by name, windows and panes by number, and no session or window comes twice. |
| `Ordering.LessIsLexicographic` | `agents/agentd/cmd/agentd/tmux_topology.go:66-83` | Names are in dictionary order. |
| `TmuxSnapshot.BuildTopology` | `agents/agentd/cmd/agentd/tmux_topology.go:15-83` | The snapshot lists every pane once under its session and window, sessions and windows strictly sorted, panes sorted, with the attached flag, the most clients and the first listed window data. |
| `TmuxSnapshot.FilePane` | `agents/agentd/cmd/agentd/tmux_topology.go:23-64` | Filing one more pane keeps sessions, windows and the window index map in agreement with the panes listed so far. |
| `TopologyDebounce.NewestIsNotLost` | `agents/agentd/cmd/agentd/tmux_topology.go:93-141` | Until stopped, the newest snapshot let in is on its way out or waits with a live timer that takes exactly it. |
| `TopologyDebounce.ChangeIsLetIn` | `agents/agentd/cmd/agentd/tmux_topology.go:93-119` | After any run a snapshot that is queued waits with a new timer, which alone will take it, unless the agent has stopped or a poll found what was last sent or what waits. |
| `TopologyDebounce.SentIsNoted` | `agents/agentd/cmd/agentd/tmux_topology.go:121-141` | Whatever went out is noted as sent, and a poll that finds it again is passed over. |
| `TopologyDebounce.UndoneChangeGoesOut` | `agents/agentd/cmd/agentd/tmux_topology.go:106-108` | A change that is undone before it was sent goes out all the same if and only if it is a poll that reports the undo; any other reason replaces it. After the former the next poll lets the old state in again. |
| `TopologyDebounce.StoppedIsSilent` | `agents/agentd/cmd/agentd/tmux_topology.go:143-155` | After stopping nothing more goes out, whatever timers still fire. |
| `TopologyDebounce.Debouncer.Queue` | `agents/agentd/cmd/agentd/tmux_topology.go:93-119` | Pending snapshot, hash and generation change as the queue step says. |
| `TopologyDebounce.Debouncer.Fire` | `agents/agentd/cmd/agentd/tmux_topology.go:121-141` | Only the newest timer takes the pending snapshot. |
| `TerminalOutput.RingHoldsNewest` | `agents/agentd/internal/tmux/terminal_output.go:19-39` | After any number of pushes since a drain the ring holds the newest chunks up to its capacity and has counted exactly the others. |
| `TerminalOutput.OutputRing.Push` | `agents/agentd/internal/tmux/terminal_output.go:19-29` | The buffer is shifted in place when full and holds what the push on values says. |
| `TerminalOutput.OutputRing.Drain` | `agents/agentd/internal/tmux/terminal_output.go:31-39` | Draining yields contents and drop count and resets both. |
| `TerminalOutput.NothingUnaccounted` | `agents/agentd/internal/tmux/terminal_output.go:69-103` | Chunks pushed are those handed out, in hand, buffered, reported dropped, and dropped but not yet reported; what is handed out keeps the order it came in. |
| `TerminalOutput.BufferHoldsNewest` | `agents/agentd/internal/tmux/terminal_output.go:19-39` | In every reachable state of the channel the ring holds the newest chunks since the last drain, up to the capacity asked for. |
| `TerminalOutput.BufferedOutputIsAnnounced` | `agents/agentd/internal/tmux/terminal_output.go:69-103` | On an open channel a non-empty ring with nobody on the way always has a wake-up pending. |
| `TerminalOutput.OutputGetsThrough` | `agents/agentd/internal/tmux/terminal_output.go:69-103` | From every reachable state in which the consumer has not left, steps that producers and consumer take by themselves hand out all that is buffered or in hand, in order, and report every drop. |
| `TerminalOutput.ClosedByClose` | `agents/agentd/internal/tmux/terminal_output.go:82-103` | After any run the channel is closed exactly if it was told to, its consumer leaves only then, and no report is of nothing. |
| `TerminalOutput.ConsumerLeaves` | `agents/agentd/internal/tmux/terminal_output.go:82-103` | Once the channel is closed its consumer can finish what it holds and leave. |
| `ShellWords.WordRoundTrip` | `agents/agentd/internal/providers/launch.go:167-172` | A quoted word reads back as the original string, for every string (sections 2.2.2 and 2.2.3 of the POSIX.1-2017 Shell Command Language). |
| `ShellWords.CommandRoundTrip` | `agents/agentd/internal/providers/launch.go:119-150` | Without a preamble the command reads back as the exports in name order and the original argument vector. |
| `ShellWords.BareRoundTrip` | `agents/agentd/internal/providers/launch.go:138-150` | With any preamble, what follows it reads back as the exports in name order and the original argument vector. |
| `ShellWords.PreambleRunsFirst` | `agents/agentd/internal/providers/launch.go:132-150` | The preamble comes first, and what follows it is the command that there would be without one. |
| `ShellWords.PreambleKeepsOrder` | `agents/agentd/internal/providers/launch.go:133-137` | Each preamble command that is not blank stands in parentheses, in its place among the others. |
| `ShellWords.NamesAre` | `agents/agentd/internal/providers/launch.go:121-125` | A name is allowed exactly if it is made of letters, digits and underscores and does not begin with a digit. |
| `ShellWords.ShellCommand` | `agents/agentd/internal/providers/launch.go:119-150` | The loops build that command, independently of the map's order, or report a name that is not allowed; one of the two, exactly. |

## Left out

- The legacy shared-PTY and FIFO modes, `SetPTYMode`, and the branches of `Detach` and `TakeControl` for them.
- Scrolling, wheel arithmetic, `Navigate`, `Resize`, `ViewerState` and `Close` of the terminal manager.
- Audit and status callbacks, which run outside the lock and change none of the modelled fields.
- Orphan sessions that the sweeper removes by name, and whether a letterboxed viewer can be resumed after it expired.
- Terminal.TerminalManager.StartAttached: does not model that the controller entry is written before the PTY starts and deleted again when it fails, because the lock is held throughout and nobody can see it.
- ViewerPty.NewBridge: does not state which pane is active and which window zoomed after a failed start, because the commands that changed them are not undone.
- TerminalAuthority.InputNeedsControl: does not model that the client in a PTY may have exited, in which case the write itself fails.
- TerminalTokens.TokensFollowViewers: does not model that an option goes with its pane when tmux closes the pane.
- Executor.Executor.Close: does not model the waiting for the workers; `CommandSchedule.CloseReturns` shows that it can end.
- Executor.Executor.Next: does not model the waiting itself; a worker that goes to sleep ends its critical section and its next look is another step.
- Executor.Executor.Report: does not model a result handler that panics.
- OutboundQueue.Queue.Push: does not model a line that is written in part; an append takes effect as a whole or not at all.
- OutboundQueue.Queue.MaybeCompact: does not model the clock and the file size; whether a rewrite was recent and the log small are parameters.
- OutboundLog.StartKeepsMessages: does not model lines that cannot be parsed or exceed the scanner's buffer, because those are skipped or stop the start before any message is numbered.
- Delivery.RunKeepsInv: does not model `SendUnsequenced`, whose frames carry no number, nor a client without a queue, nor 64-bit overflow of the counter.
- Durability.AcceptedMessagesSurvive: does not model that the server's memory of its highest number may lag behind, because a lower number only makes it handle a frame twice.
- WsClient.Client.ResendQueued: does not model acknowledgements arriving between two frames of one call; the steps of `Delivery` interleave them freely.
- WsClient.Client.SetLastAckedSeq: does not model the retry of the compare-and-swap loop, because nobody else sends during the start.
- Reconnection delays, pings and read deadlines, which decide when a connection ends but not what is sent on it.
- CapturePages.RetainNewestLines: does not model copying the line strings, which changes no content.
- SessionKill.Backend.Kill: does not model the metadata rollup that is refreshed after a kill, nor the update records beyond the ids they are for.
- RemoteTree.RemoteDescendantFirst: does not model requests whose answer changes between two calls; the graph is fixed.
- TmuxSnapshot.BuildTopology: does not fix the order of panes with equal numbers in one window, because the sort there is not stable.
- TopologyDebounce.Debouncer.Queue: does not model the clock; a timer may fire at any time after it was started.
- ShellWords.CommandRoundTrip: does not read a preamble, whose commands are shell text of their own, nor expansions, patterns and operators other than `&&`, none of which occur in printed commands without one.
- Merging of launch templates and environments, headless launches and `ExecCommand`.
- Session upserts in `syncPanes`, usage parsers, transcript paging, process and port scanners: text scraping and copying with shallow properties.
