# Verified model of the Codex ACP bridge

The bridge lets an ACP client drive Codex. For each session one actor owns the prompts in flight,
the permission requests waiting for the client, the questions waiting for a reply, and the state a
loaded session is rebuilt from. This project models that actor as a step system, together with the
parser of structured answers and the accounting and scanning code around it, and proves what they
keep. `dafny verify dfyconfig.toml` verifies all of it.

## How the model is built

**The actor.** `Events` groups Codex events by how the program routes them. `Runtime` holds what
surrounds the actor: one-shot answer channels whose receivers may be dropped at any time, detached
permission tasks that race with the actor, the queue of their results, and everything submitted or
shown. `SubmissionModel` and `ActorModel` give each operation as a function on values. A step is a
message, a task result, a Codex event (each followed by the sweep of submissions nobody waits for),
a dropped receiver, a client answering a permission request, or a task queueing its result; a run is
any list of steps. Whether Codex accepts an operation, and what the client answers, is part of the
step, so every theorem is about all of them.

`PromptStates.PromptState`, `ThreadActors.ThreadActor` and `SessionState.ActorState` are the same
code as objects updated in place: senders drained one by one, interaction maps drained in any order,
the retain loop, the replay loop. Each method is proved to change the state exactly as its function
says, so what is proved of the functions holds of the objects. `ThreadActor.Perform` takes any step
on the object, and `ThreadActor.Spawn` is the loop with what its surroundings do between its turns.

`RequestKeys` says which permission requests share the key they wait under, and what that costs.

**What the runs keep** is in `ActorInvariants` (answers, tasks, queued results, operations, for every
step), `StaleResults` (which request a queued result can answer), `ActorTheorems` (whole runs, the
end of a turn, replay), `Origins` (which step each result, operation and update of a run comes from),
`RequestOrigins` (the request and the reply behind each operation), `StepEffects` (what a step does to
submissions, callers, tasks, questions, session and settings) and `PendingInput` (the questions a history leaves pending). `Streams` says
what a client sees of one submission's events, and `ClientView` that this is what it sees of the
submission in every run of the actor, whatever stands between those events; `UpdateOrigins` tells
from an update which event shows it.

Some properties one would expect hold only under a condition, and the model says exactly which:

- A submission started under the id of one that is still waited for drops that one's sender. A
  waiting caller is lost exactly by such a prompt, or when the event stream fails
  (`HandleKeeps`, with `ReusedIdLosesItsCaller` as the concrete run).
- A task aborted after it has its answer may still queue its result, and a queued result is matched
  by submission and key only. A new request under the same key is then answered by the old result
  (`AbortedResultAnswersTheNextRequest`). Results stay with their own requests exactly while no
  request is spawned under a key with a result on its way (`HandleKeepsCurrent`).
- A web search is not always over when the callers have their result. An elicitation does not complete
  a running search, and neither does a permission result; either can fail the callers
  (`RefusedDeclineLeavesSearchOpen` gives the events). When an event answers them, a running search
  stays open exactly when the event is an elicitation whose decline Codex refuses
  (`RunSearchOpenAfterAnswerExactlyWhen`); when a failed permission result does, it always stays open
  (`SearchOpenAfterFailure`, `RunResultShowsNothing`).
- Replay knows the questions of a history by their turn, the live actor by their submission, so a
  replayed session may not have the same questions pending (`SlotRebuiltExactlyWhen`, with
  `OtherErrorClearsOnReplay` as the concrete history).
- Request keys do not tell every two elicitations apart. They share a key exactly when their servers are
  equal and their ids print alike, or colons in one's server name and the other's id can be taken for
  the separator (`RequestKeysMeetExactlyWhen`, with `ElicitationKeysCollide` for both ways). Then the
  second replaces the first (`SecondRequestReplacesExactlyWhen`). Without such colons and with ids of
  one variant they are told apart (`ElicitationsToldApart`).
- Of decisions sharing an option id the client's choice submits the last: an option submits its own
  decision exactly when the last one with its id equals it (`ChosenOptionSubmits`, with
  `SharedOptionIdTakesLast`).
- Normalizing the model choice a second time does nothing exactly when the preset then offered supports
  or defaults to the chosen effort (`SecondChangeExactlyWhen`); presets sharing a model name can break
  this (`SharedModelNameSettlesLater`).
- Full access approves a command as the client's "approved" would exactly when that decision is
  available (`AutoApprovalMatchesInteractive`).
- A client sees a streamed message as it is exactly when it was streamed to the letter, or is a final
  answer streamed as empty text (`VisibleExactlyWhenFaithful`).
- A reply printed for a single question is read back exactly when it is no word for cancel, or intends
  nothing (`SingleReplyRoundTripExactlyWhen`).

**The other modules.** `UserInput` and `UserInputRoundTrip`: option matching, the four reply modes,
and the round trip through printed replies. `Approval`: which operation an answer stands for.
`McpBridges`: bridge accounting and the server overlay. `Models`: model and effort normalization.
`RustfmtDiff`: the diff sections of a `rustfmt --check` report. `JsonRpc`: batches as in section 6
of the JSON-RPC 2.0 specification. `CommandArgs`: the `sed`, wrapper and `git` scanners.

Where a label has no ASCII letters or digits its token is empty, which every typed answer extends, so
it takes part in prefix matching; the model keeps this. `TurnAborted` without a turn id clears the
pending questions but does not end the submission (`AnonymousAbortEndsNothing`).

## Model

| member | source | states |
|---|---|---|
| ActorTheorems.NoCallerIsAnsweredTwice | src/thread/submission/responses.rs:26-47 | over every run, whatever is lost, no sender gets two results, none is both held and answered, and none is held by two submissions |
| ActorTheorems.EveryWaitingCallerIsAnsweredOrHeld | src/thread/actor.rs:107-138 | over every run with fresh submission ids and no event-stream failure, a caller whose receiver is open has either been answered or its sender is held, never both |
| ActorTheorems.DrainLeavesNobodyWaiting | src/thread/actor.rs:134-136 | when the loop ends because no message can come and no submission is left, every open receiver has its result |
| ActorTheorems.ReusedIdLosesItsCaller | src/thread/actor.rs:85-87 | a reachable state in which a prompt accepted under the id of a waiting submission leaves an open caller unanswered and its sender in no hand |
| ActorTheorems.NeverMissesItsSubmission | src/thread/actor_prompt.rs:113-119 | the missing-submission error of an answer to pending questions is never returned, from any state |
| ActorTheorems.RunKeeps | src/thread/actor.rs:107-138 | every run keeps the invariants, extends history only, and, losing no caller, keeps every waiting caller accounted for |
| ActorTheorems.InteractionsAreConserved | src/thread/submission/interactions.rs:21-110 | over every run, the interactions spawned are exactly those held under a key plus those resolved, failed, aborted, replaced and dropped with their submission |
| ActorTheorems.OneOperationPerInteraction | src/thread/submission/interactions.rs:70-108 | over every run an interaction causes at most one operation, and only one that was resolved causes any |
| ActorTheorems.FatesAreFinal | src/thread/submission/interactions.rs:70-79 | an interaction's end never changes in any later run |
| ActorTheorems.EndOfTurnLeavesNothing | src/thread/submission_lifecycle.rs:80-125 | after the turn handling a terminal event the submission is gone; all its senders got the end of the turn when it completed, the error when it failed, and a cancellation when it was aborted or shut down; its pending interactions are aborted, nothing was submitted and the slot does not name it; another submission is left, unchanged, exactly when somebody still waits for it or the slot names it |
| ActorTheorems.CallersLearnHowItEnded | src/thread/submission_lifecycle.rs:80-125 | in every later run too, a caller of an ended submission has exactly that result and no other |
| ActorTheorems.EndedTurnSubmitsNothing | src/thread/actor.rs:215-236 | in every later run without early key reuse, no request of an ended submission causes an operation, even if its result was queued |
| ActorTheorems.AnonymousAbortEndsNothing | src/boundary/mapper/actor.rs:47-50 | an abort without a turn id shows its updates and clears the slot for its submission; senders, interactions, other submissions, session, results, queue and operations are as before |
| ActorTheorems.FullAccessApprovesAtOnce | src/thread/actor.rs:305-324 | in full-access mode a command or patch request submits its approval, and the actor and its surroundings are otherwise the same |
| ActorTheorems.EventUpdatesSession | src/thread/actor.rs:256-263 | whatever an event does to submissions, it changes the session state by its updates, or not at all when it repeats the goal |
| ActorTheorems.EventUpdatesSlot | src/thread/actor.rs:265-303 | whatever else an event does, it sets or clears the pending questions by its kind and submission alone |
| ActorTheorems.ReplayRebuildsSession | src/thread/replay.rs:17-56 | an actor replaying a history ends with the usage, mode, agents and goal of one that handled the same events live, whatever order statuses were visited in |
| Origins.ResultsHaveOrigins | src/thread/actor.rs:107-138 | over every run, a caller has a result exactly when some step accounts for it: end of turn when its turn completed or its prompt was answered on the spot, cancelled when it was aborted or shut down, and an error when the turn, a request or the operation for it failed |
| Origins.StepAnswers | src/thread/actor.rs:140-303 | a step hands out exactly the results it accounts for |
| Origins.OperationsHaveOrigins | src/thread/actor.rs:107-138 | over every run, the operations submitted are, in order, those its steps account for: an interrupt for a cancel, a shutdown for a shutdown, the answers to the pending questions under their turn, the operation of a prompt, the reply to a request, the approval given in full access, the decline of an elicitation that cannot be asked |
| Origins.StepSubmits | src/thread/actor.rs:236-254 | a step submits exactly the operation it accounts for |
| Origins.ControlsAreMessages | src/thread/actor.rs:236-254 | over every run, the interrupts and shutdowns submitted are in order exactly the cancel and shutdown messages handled, but for what the routes of prompts carry |
| Origins.UpdatesHaveOrigins | src/thread/actor.rs:107-138 | over every run, the updates shown are, in order, those its steps account for, each under its submission, and questions, replayed histories and answers on the spot under none |
| RequestOrigins.InteractionsWereAsked | src/thread/submission/interactions.rs:28-68 | every pending interaction of a run is that of a request some event asked, under the key of that request |
| RequestOrigins.OperationsAnswerRequests | src/thread/submission/interactions.rs:70-108 | over every run, an operation caused by a permission result answers a request some event asked by what a client replied, and while no key is reused too early by what it replied to that very request |
| RequestOrigins.ResultsAreTakenInOrder | src/thread/actor.rs:107-138 | over every run, the results taken and those still queued are, in order, those the tasks queued |
| StepEffects.FatesHaveOrigins | src/thread/submission/interactions.rs:21-110 | over every run, a permission task ended in some way exactly when a step ended it so: resolved or failed by the result taken for it, aborted by the end of its turn, a cancel, a shutdown or a failure beside it, replaced by the next request under its key, or dropped with its submission |
| StepEffects.StepFates | src/thread/submission/interactions.rs:21-110 | what one step makes of a pending permission task |
| StepEffects.StepPhases | src/thread/submission/interactions.rs:21-68 | how far a pending task gets in a step: it is stopped exactly when it is aborted or replaced while it waits for the client, and whatever else becomes of it goes on to its answer and its result |
| StepEffects.StepStarts | src/thread/submission/interactions.rs:28-68 | a step starts one task, waiting under the key of its request, exactly when it asks the client |
| StepEffects.StepSubmissions | src/thread/actor.rs:127-132 | the submissions after a step are those before it and the one it starts, as long as somebody waits for them or their questions are pending; none when events fail |
| StepEffects.StepWaiters | src/thread/submission/responses.rs:36-47 | who waits for a submission after a step: those before, the caller a prompt adds, and nobody once an event or a failed result answered them |
| StepEffects.PromptReplies | src/thread/actor_prompt.rs:80-173 | what a prompt is told: the error it met, or a fresh open receiver, whose sender joins the submission that asked or is the only one of the new one |
| StepEffects.StepSlot | src/thread/actor_prompt.rs:80-126 | the pending questions after a step: set and cleared by events and replay, cleared by an accepted answer, and otherwise as before |
| StepEffects.StepSession | src/thread/actor.rs:140-234 | the session after a step: changed by events and replay, by setting the mode and by controlling the goal, and otherwise as before |
| StepEffects.StepStatus | src/thread/actor.rs:134-136 | the loop ends exactly when the event stream fails, or when no message can come and no submission is left |
| StepEffects.RunLeavesLastSettings | src/thread/actor.rs:140-234 | over every run, the client capability and the access mode are the last ones set, and messages are closed exactly when they were closed |
| ActorInvariants.HandleKeeps | src/thread/actor.rs:140-303 | every message, result and event keeps the invariants, and a waiting caller is lost exactly by starting a submission under the id of a waiting one or by losing the event stream |
| ActorInvariants.SweepKeeps | src/thread/actor.rs:127-132 | the sweep keeps exactly the submissions with an open sender and the one whose questions are pending, and loses no caller |
| ActorInvariants.SendResultKeeps | src/thread/submission/responses.rs:40-47 | sending a result answers each held sender once and keeps every invariant |
| ActorInvariants.AbortAllKeeps | src/thread/submission/interactions.rs:22-26 | aborting takes every pending interaction of the submission out of the pending tasks, and no other |
| ActorInvariants.SpawnKeeps | src/thread/submission/interactions.rs:28-68 | a spawned request becomes one pending task under its key; one already under the key is replaced, and pending tasks and held interactions stay one to one |
| ActorInvariants.TakenKeeps | src/thread/submission/interactions.rs:70-108 | taking a queued result consumes its task, resolves or fails at most the interaction under its key, and submits at most one operation |
| ActorInvariants.ResolvedKeeps | src/thread/actor.rs:215-234 | a handled result keeps the invariants also when the request failed or Codex refused the operation and the submission is failed |
| ActorInvariants.ResolvedIsTakenThenFailed | src/thread/actor.rs:227-233 | handling a result takes the interaction and, exactly when the request failed or the operation was refused, aborts the rest and answers every caller with the error |
| ActorInvariants.InsertKeeps | src/thread/actor.rs:85-87 | inserting a submission keeps the invariants and loses a caller exactly when its id is that of a waiting submission |
| ActorInvariants.AnswerWithKeeps | src/thread/actor_prompt.rs:94-126 | answering pending questions adds the caller's sender to the submission that asked, creating it if needed, and loses nobody |
| ActorInvariants.StartPromptKeeps | src/thread/actor_prompt.rs:136-172 | a prompt that is refused, answered at once or submitted gets one fresh sender or none, held or answered |
| ActorInvariants.AbortEverythingKeeps | src/thread/actor.rs:250-254 | cancelling and shutting down abort every pending interaction of every submission |
| ActorInvariants.DeliverEventKeeps | src/thread/submission_dispatch.rs:12-144 | delivering any event to a submission keeps the invariants |
| ActorInvariants.TaskSendsKeeps | src/thread/submission/interactions.rs:43-57 | a task queues its result at most once |
| ActorInvariants.ClientRepliesKeeps | src/thread/submission/interactions.rs:43-50 | a client answer changes the phase of one permission task and nothing the actor holds |
| ActorInvariants.NextKeeps | src/thread/actor.rs:107-138 | every step of the actor and its surroundings keeps the invariants |
| StaleResults.HandleKeepsCurrent | src/thread/submission/interactions.rs:59-79 | after any message or event, tasks that can still deliver find their own interaction or none, exactly when no request was spawned under a key with a result on its way |
| StaleResults.SpawnKeepsCurrent | src/thread/submission/interactions.rs:59-67 | the same for one spawn: exactly when every deliverable result under the key is that of the replaced request, still waiting for the client |
| StaleResults.ResultsAnswerTheirOwnRequests | src/thread/submission/interactions.rs:70-108 | over every run without early key reuse, each operation answers the request whose result caused it |
| StaleResults.EndedInteractionsSubmitNothing | src/thread/actor.rs:238-254 | from any point of such a run, an aborted, replaced, dropped or failed interaction causes no operation |
| StaleResults.QueuedResultAnswersTheNewRequest | src/thread/submission/interactions.rs:59-79 | otherwise: a queued result is taken for whatever request holds its key by then, and its operation is built for that request |
| StaleResults.AbortedResultAnswersTheNextRequest | src/thread/submission/interactions.rs:59-79 | a reachable state in which the result of an aborted request is about to answer the next request of its call |
| StaleResults.RunKeepsCurrent | src/thread/actor.rs:107-138 | the invariant on queued results holds over every run without early key reuse |
| RequestKeys.RequestKeysMeetExactlyWhen | src/boundary/permission.rs:378-388 | two requests share a key exactly when they are of one kind and have one call id or, for elicitations, one server and ids that print alike, or a colon in one's server name and one in the other's id can each be taken for the separator |
| SubmissionModel.OperationAnswersItsRequest | src/thread/submission/interactions.rs:80-105 | whatever the client answers, the operation names the request it answers and decides it exactly: a command by the last decision offered under the option chosen, a patch, permissions and an elicitation by the option chosen, and everything else, a dismissed dialog included, against it |
| RequestKeys.ElicitationsToldApart | src/boundary/mcp_approval.rs:146-148 | when no server name with a colon stands against a printed id with one, elicitations share a key exactly when their servers are equal and their ids print alike, and then ids of one variant are equal |
| RequestKeys.PrintAlikeExactlyWhen | src/boundary/mcp_approval.rs:146-148 | two request ids print alike exactly when they are equal, or one is an integer and the other the string spelling it |
| RequestKeys.IntegerIdsToldApart | src/boundary/mcp_approval.rs:146-148 | elicitations with integer ids share a key exactly when server and id are equal, whatever colons the names have |
| RequestKeys.ElicitationKeysCollide | src/boundary/mcp_approval.rs:146-148 | two concrete pairs of different elicitations sharing a key: by a colon in a name, and by an integer and a string id |
| RequestKeys.SecondRequestReplacesExactlyWhen | src/thread/submission/interactions.rs:28-68 | of two requests asked in turn in any state keeping the invariants, the second replaces the first exactly when they share a key; otherwise both are pending under their own keys |
| SubmissionModel.EventAnswersExactlyWhen | src/thread/submission_dispatch.rs:12-144 | an event answers the callers of a submission exactly when it ends the turn, is a command approval whose content cannot be built, or is an elicitation the client cannot be asked about whose decline Codex refuses |
| SubmissionModel.SearchOpenAfterAnswerExactlyWhen | src/boundary/mapper/live.rs:342-366 | when an event answers the callers, a web search stays open exactly when one was open and the event is such a refused decline |
| SubmissionModel.SearchOpenAfterFailure | src/thread/submission/interactions.rs:130-145 | a permission result answers the callers exactly when the request failed or Codex refused the operation, and an open search stays open |
| SubmissionModel.RefusedDeclineLeavesSearchOpen | src/thread/submission_mcp.rs:14-67 | the concrete events: a search begins, a declined elicitation is refused, the caller has its error and the client still sees the search running |
| ClientView.RunShowsStreams | src/thread/submission_dispatch.rs:12-106 | over every run of a new actor, with any results, prompts, cancels, sweeps, replays and other submissions in between: the updates tagged with a submission since it was inserted are the stream of the events delivered to it, and so is what it remembers |
| ClientView.RunSearchesAlternate | src/thread/submission_web_image.rs:8-24 | over every run, the web-search starts and completions shown of a submission alternate with matching ids, and the search its client sees running is the one the submission has open |
| ClientView.RunEndsWithoutSearch | src/boundary/mapper/live.rs:342-366 | over every run, after an event that ends its turn the client sees no search of the submission running |
| ClientView.RunSearchOpenAfterAnswerExactlyWhen | src/boundary/mapper/live.rs:342-366 | in every run, when an event answers callers, the client still sees a search running exactly when it did before and the event is an elicitation whose decline Codex refuses |
| ClientView.RunResultShowsNothing | src/thread/actor.rs:215-234 | in every run, handling a permission result shows nothing of any submission, so a search the client sees running stays so also when the result fails its callers |
| ClientView.RunUpdatesRunningReviews | src/thread/submission_guardian.rs:11-28 | in every run, a review event delivered to a submission updates its tool call exactly when the previous one for its id was in progress, and starts one otherwise |
| ClientView.RunShowsOutputOfRegistered | src/thread/submission_exec.rs:94-129 | in every run, a delivered event shows output of a call only if it is registered and not yet ended, and completes it exactly when it is the end of such a call |
| ClientView.RunDeliversCommandOutput | src/thread/submission_exec.rs:68-129 | in every run, a command begun and ended among the events of a submission is shown from its start to its completion as Streams.CommandOutputIsDelivered says |
| ClientView.RunShowsExactlyWhen | src/thread/submission_dispatch.rs:12-106 | in every run, what a delivered event adds to the client of its submission is exactly what comes from it, each update once |
| UpdateOrigins.ShownExactlyWhen | src/thread/submission_dispatch.rs:12-106 | read backwards, from each kind of update to the events and the past it comes from: an event shows exactly these, each once |
| UpdateOrigins.ReplayedExactlyWhen | src/boundary/mapper/replay.rs:30-93 | the same for replay: full texts, session state, questions and notices, at most one update an event, and no tool call |
| UpdateOrigins.CommandIsRemembered | src/thread/submission.rs:129-151 | what a submission remembers of a command after any events: how it was last registered, and all it produced since |
| ClientView.RunShowsAllMessages | src/thread/submission_lifecycle.rs:17-69 | in every run the client text of a submission is what its message segments make visible, and all messages in order, each once, when every segment is unstreamed or fully streamed |
| ClientView.RunShowsAllReasoning | src/thread/submission_lifecycle.rs:33-78 | the same for its reasoning text |
| Streams.SearchesAlternate | src/thread/submission_web_image.rs:8-24 | over every list of events, web-search starts and completions alternate with matching ids, and the search open for the client is the submission's |
| Streams.NoSearchOpenAtEnd | src/boundary/mapper/live.rs:342-366 | when an event that ends the turn was handled no search is open for the client |
| Streams.GuardianUpdatesRunningReviews | src/thread/submission_guardian.rs:11-28 | a review event updates its tool call exactly when the previous event for its id was in progress, and starts one otherwise |
| Streams.OutputOnlyForRegistered | src/thread/submission_exec.rs:94-129 | command output and completion are shown only for a call registered and not yet ended |
| Streams.BeginShowsStart | src/thread/submission_exec.rs:68-78 | the begin of a command shows its start, exactly once, with a terminal exactly when command and client have one |
| Streams.DeltaCompletesSnapshot | src/boundary/tool_call/exec.rs:183-197 | streamed text plus the closing delta ends with the chosen snapshot, equals it exactly when the text is a prefix of it, and is no longer than both together |
| Streams.SnapshotIsFirstGiven | src/boundary/tool_call/exec.rs:393-407 | the snapshot is the first of the formatted, the streamed and the aggregated output that is not empty |
| Streams.CommandOutputIsDelivered | src/boundary/tool_call/exec.rs:249-407 | one command from begin to end: the client is shown one start, then output, then one completion carrying the snapshot; a terminal client gets data ending with the snapshot, another client no output update at all |
| Streams.FullTextShownWhenNotStreamed | src/thread/submission_lifecycle.rs:53-78 | a full message is shown exactly when nothing was streamed since the last one or it is a final answer that differs; a full reasoning text exactly when none was streamed |
| Streams.ClientSeesMessages | src/thread/submission.rs:169-190 | over every list of events the client's message and reasoning text is what the events make visible, whatever happens between them |
| Streams.VisibleExactlyWhenFaithful | src/thread/submission_lifecycle.rs:53-69 | what the client sees of one message is that message exactly when it was not streamed, streamed to the letter, or a final answer streamed as empty text |
| Streams.ClientTextIsAllMessages | src/thread/submission_lifecycle.rs:17-69 | when every segment is unstreamed or fully streamed the client text is all messages in order, each once |
| Streams.ClientSeesAllReasoning | src/thread/submission_lifecycle.rs:33-78 | the same for reasoning, a section break counting as streaming |
| Streams.ReplayShowsTheLiveText | src/boundary/mapper/replay.rs:37-50 | replay shows every message once, whole, which is what the live client saw when every segment was faithful |
| SessionState.OrderDoesNotMatter | src/boundary/mapper/actor.rs:140-210 | the order in which the statuses of a waiting-end event are visited does not change the resulting state |
| SessionState.LiveUpdateIsReplayUpdate | src/thread/actor.rs:258-263 | stopping early on an unchanged goal is a no-op on the state |
| SessionState.ReplayRebuildsLiveState | src/thread/replay.rs:35-36 | for any event list from equal states, live handling and replay reach the same usage, mode, agents and goal |
| SessionState.HistoryLeavesLast | src/boundary/mapper/actor.rs:140-210 | the mode, usage and goal after any history are those it set last, or the earlier ones |
| SessionState.HistoryLeavesLastSaid | src/boundary/mapper/actor.rs:140-210 | of each agent any history leaves exactly the last thing it says: an entry, a removal, or what was there before |
| PendingInput.LiveLeavesLastAsked | src/thread/actor.rs:256-303 | handling a whole history live leaves the questions asked last, under the id of their submission, unless an end event came for it since |
| PendingInput.ReplayLeavesLastAsked | src/boundary/mapper/replay.rs:80-93 | replaying it leaves the questions asked last, under the id of their turn, unless an end event naming the turn, an error or a shutdown came since |
| PendingInput.SlotRebuiltExactlyWhen | src/boundary/mapper/replay.rs:80-93 | the two agree exactly when there are no questions, or both take the last ones to have ended, or neither does and they were pending before or their turn carries the id of their submission |
| PendingInput.OtherErrorClearsOnReplay | src/boundary/mapper/replay.rs:80-93 | two concrete events, questions and the error of another submission: the live actor keeps the questions, a replayed one has none |
| SessionState.ActorState.UpdateGoal | src/thread/actor_state.rs:68-74 | sets the goal, tells whether it changed, and touches nothing else |
| SessionState.ActorState.RememberEntries | src/thread/actor_state.rs:206-210 | entries are remembered in order, the last for a thread standing |
| SessionState.ActorState.ApplyEventUpdate | src/thread/actor_state.rs:187-216 | one update changes the part of the state it names as the update function says |
| SessionState.ActorState.ApplyEventUpdates | src/thread/actor_state.rs:181-185 | updates are applied in order, and the pending slot is left alone |
| SessionState.ActorState.ClearPendingUserInputForSubmission | src/thread/actor_state.rs:171-179 | the slot is cleared exactly when it names the submission |
| PromptStates.PromptResponses.IsActive | src/thread/submission/responses.rs:26-34 | true exactly when the primary or some additional sender has an open receiver |
| PromptStates.PromptResponses.Add | src/thread/submission/responses.rs:36-38 | the sender joins the others at the end |
| PromptStates.PromptResponses.Send | src/thread/submission/responses.rs:40-47 | every held sender gets the result, the primary first and the others in order, and none is kept |
| PromptStates.PermissionInteractionState.AbortAll | src/thread/submission/interactions.rs:22-26 | in whatever order the map is drained, exactly its tasks are aborted and it is empty |
| PromptStates.PermissionInteractionState.Spawn | src/thread/submission/interactions.rs:28-68 | a new task starts, the key maps to it, and the one formerly under the key, and no other, is aborted |
| PromptStates.PermissionInteractionState.Resolve | src/thread/submission/interactions.rs:70-108 | an unknown key changes nothing; a known one is removed and gives the request's error or the operation for the client's outcome |
| PromptStates.PromptState.constructor | src/thread/submission.rs:200-233 | a new submission holds its sender, if any, and nothing else |
| PromptStates.PromptState.TakeMessageDeltaText | src/thread/submission.rs:178-186 | gives the streamed text once if any delta was seen, and resets it |
| PromptStates.PromptState.HandleText | src/thread/submission_lifecycle.rs:17-78 | text events change the buffers and show text as the stream functions say |
| PromptStates.PromptState.StreamActiveCommandOutput | src/thread/submission.rs:129-151 | output is kept for an active command and shown only to a client that supports terminals |
| PromptStates.PromptState.HandleExec | src/thread/submission_exec.rs:68-129 | begin, output, typed input and end register, extend and remove the command and show what the stream functions say |
| PromptStates.PromptState.CompleteWebSearch | src/thread/submission_web_image.rs:21-24 | a running search is completed once |
| PromptStates.PromptState.GuardianAssessment | src/thread/submission_guardian.rs:11-28 | the set of running reviews decides between start and update and is kept up to date |
| PromptStates.PromptState.ExecApproval | src/thread/submission_exec.rs:16-66 | an approval registers its command and spawns its request, or fails the callers when its content cannot be built |
| PromptStates.PromptState.McpElicitation | src/thread/submission_mcp.rs:14-67 | a supported elicitation is spawned; another is declined, and a refused decline fails the callers |
| PromptStates.PromptState.HandleEnd | src/thread/submission_lifecycle.rs:80-125 | each terminal event aborts pending requests, then gives every caller its result: end of turn, cancelled, or the error |
| PromptStates.PromptState.BeginEvent | src/thread/submission_dispatch.rs:13-18 | the event is counted and a search it shows to be over is completed before anything else |
| PromptStates.PromptState.HandleEvent | src/thread/submission_dispatch.rs:12-144 | one event changes the submission and its surroundings exactly as the delivery function says |
| PromptStates.PromptState.HandlePermissionRequestResolved | src/thread/submission/interactions.rs:130-145 | a task result takes its interaction and reports the request's error or a refused operation |
| ThreadActors.ThreadActor.constructor | src/thread/actor.rs:61-75 | a new actor is the initial state of the step system |
| ThreadActors.ThreadActor.AbortPendingInteractions | src/thread/actor.rs:250-254 | the loop over the submissions, in any order, aborts all their interactions and changes nothing else of them |
| ThreadActors.ThreadActor.InsertSubmission | src/thread/actor.rs:85-87 | the new submission stands under its id, the one there before is dropped, the others stay |
| ThreadActors.ThreadActor.Sweep | src/thread/actor.rs:127-132 | the retain loop leaves exactly the submissions the sweep keeps, in whatever order it visits them |
| ThreadActors.ThreadActor.HandlePendingUserInputPrompt | src/thread/actor_prompt.rs:80-126 | an unreadable answer changes nothing; a readable one is submitted and, if accepted, its caller joins and the slot is cleared |
| ThreadActors.ThreadActor.StartPrompt | src/thread/actor_prompt.rs:136-172 | a prompt is refused, answered on the spot, or becomes a submission with a fresh sender |
| ThreadActors.ThreadActor.HandlePrompt | src/thread/actor_prompt.rs:128-173 | pending questions take precedence over a new turn |
| ThreadActors.ThreadActor.HandleSteer | src/thread/actor_prompt.rs:28-56 | steering starts a turn exactly when there is none to steer |
| ThreadActors.ThreadActor.HandlePermissionRequestResolved | src/thread/actor.rs:215-234 | a result for an unknown submission is ignored; another is resolved, and an error fails the submission |
| ThreadActors.ThreadActor.MaybeAutoApprove | src/thread/actor.rs:305-324 | exactly in full-access mode, commands and patches are approved without asking |
| ThreadActors.ThreadActor.HandleEvent | src/thread/actor.rs:256-303 | an event updates the session, registers questions, is approved, or is delivered, and a terminal one clears the slot that names it |
| ThreadActors.ThreadActor.HandleReplayHistory | src/thread/replay.rs:17-56 | replaying item by item gives the state, slot and updates of the replay functions |
| ThreadActors.ThreadActor.HandleMessage | src/thread/actor.rs:140-254 | every message does what the step system says |
| ThreadActors.ThreadActor.Turn | src/thread/actor.rs:109-137 | one iteration of the loop is one turn of the step system |
| ThreadActors.ThreadActor.Perform | src/thread/actor.rs:109-137 | a turn of the actor, a client answering a permission request, a task queueing its result and a caller going away each take the actor to the next state of the step system |
| ThreadActors.ThreadActor.Spawn | src/thread/actor.rs:107-138 | the loop, with whatever clients, tasks and callers do between its turns, is a run of the step system, for every list of steps |
| UserInput.MatchWasOffered | src/user_input.rs:90-146 | whatever number, exact token or prefix selects was offered, the other label only when allowed |
| UserInput.PrintedNumberSelects | src/user_input.rs:54-68 | each number the prompt prints selects the label printed beside it |
| UserInput.OwnLabelSelects | src/user_input.rs:123-130 | typing a label whose token no other label shares selects it, unless it reads as a number |
| UserInput.AnswerSelectsExactly | src/user_input.rs:90-146 | an answer selects exactly the label it numbers, else the only label of its token, else the only one whose token it starts or continues |
| UserInput.TokenOfSnoc | src/user_input.rs:82-88 | a token keeps the ASCII letters and digits in lower case, in order, and nothing else |
| UserInput.NumberKeyFinds | src/user_input.rs:256-266 | a number as a key means the question it numbers, zero the first one, and a larger one none |
| UserInput.NameKeyFinds | src/user_input.rs:256-266 | a name as a key means the first question whose id or header it spells, and none when there is no such question |
| UserInput.CancelExactly | src/user_input.rs:207-213 | the replies that cancel: a blank one, `cancel` in any case, and `/cancel` |
| UserInput.AnswerRefusedExactly | src/user_input.rs:148-188 | an answer is refused exactly when it selects no option and the question takes no other answer, or it is blank |
| UserInput.LineComesTo | src/user_input.rs:248-276 | what a keyed line comes to: the answer to the question its key means, or the error for a missing colon, an unknown key or a bad answer |
| UserInput.FirstBadLineRefuses | src/user_input.rs:247-276 | a keyed reply is refused with the error of its first bad line |
| UserInput.UnansweredRefuses | src/user_input.rs:278-286 | a keyed reply of good lines that leaves questions out is refused with exactly their ids |
| UserInput.ParseRequestUserInputAnswer | src/user_input.rs:148-188 | the answer vector filled step by step is the parsed answer, and the error is the same |
| UserInput.ParsedAnswerFits | src/user_input.rs:148-188 | a parsed answer starts with an offered label and adds at most a note; free text is a note or nothing |
| UserInput.ParseRequestUserInputResponse | src/user_input.rs:207-287 | in each of its reply modes the parser gives the parsed response or its first error |
| UserInput.ParseKeyedLines | src/user_input.rs:247-286 | the loop over the lines of a keyed reply gives all their answers, or the error of the first line that fails |
| UserInput.ParsedResponseIsComplete | src/user_input.rs:207-287 | in all four reply modes success answers exactly the asked ids, with answers that fit, or empty ones on cancel |
| UserInput.KeyedReplyAccepted | src/user_input.rs:247-286 | a keyed reply is accepted exactly when every line parses, every question is addressed and no two questions share an id |
| UserInputRoundTrip.RenderedReplyParses | src/user_input.rs:148-188 | a printed reply to one question is read back as intended, its note included |
| UserInputRoundTrip.SingleReplyRoundTripExactlyWhen | src/user_input.rs:207-230 | a single question answered as printed gets the intended answer exactly when the reply is no word for cancel, or intends nothing |
| UserInputRoundTrip.PositionalExactlyWhenKeyless | src/user_input.rs:225-247 | printed replies, one per line, are taken by position exactly when none is blank and some has no colon |
| UserInputRoundTrip.PositionalRoundTrip | src/user_input.rs:225-247 | and then two or more questions with distinct ids get exactly the intended answers |
| UserInputRoundTrip.ReplyRoundTrip | src/user_input.rs:207-287 | printing answers as lines in any order, each keyed by the id, the header or the number of its question, and parsing them gives exactly the intended answers |
| Approval.OptionIdTellsKind | src/boundary/permission.rs:40-154 | an option id determines the kind of decision |
| Approval.SubmittedDecisionExactly | src/boundary/approval.rs:99-113 | for every decision list and client outcome, the decision submitted is the last one offered under the option chosen, and Abort when no option that was offered was chosen |
| Approval.DecisionWasOffered | src/boundary/approval.rs:99-113 | a decision other than Abort was offered, and the client chose the option of just that decision |
| Approval.PatchDecisionExactly | src/boundary/approval.rs:99-113 | a patch is approved or denied exactly by choosing so, and aborted otherwise |
| Approval.ChosenOptionSubmits | src/boundary/permission.rs:229-232 | choosing an option submits its decision exactly when no later decision with another value shares its id |
| Approval.DistinctOptionsSubmitTheirOwn | src/boundary/permission.rs:229-232 | with distinct option ids choosing option i submits decision i |
| Approval.SharedOptionIdTakesLast | src/boundary/permission.rs:229-232 | two decisions sharing an option id: the last one is submitted for both |
| Approval.PermissionsGrantIsAllOrNothing | src/boundary/approval.rs:115-146 | a permissions reply grants the requested profile or nothing, by the option chosen |
| Approval.ElicitationAcceptedByOffer | src/boundary/approval.rs:148-162 | an elicitation is accepted exactly by an accepting option that was offered, cancelled otherwise, and persisted for the session or for good exactly by the offered option saying so |
| Approval.AutoApprovalMatchesInteractive | src/boundary/mapper/types.rs:87-101 | the full-access operation equals the interactive one for "approved" exactly when that decision is available; for patches always |
| McpBridges.NamesMeetExactlyWhen | src/codex_agent.rs:245-247 | two names mean the same server exactly when they differ at most in which whitespace character or underscore stands at a place |
| McpBridges.BridgesAreOwnedOrShutOnce | src/codex_agent.rs:954-1043 | however a session is opened and wherever that fails, each bridge started is owned or was shut down once, never both; failure owns none and happens exactly when a server, the configuration or a later stage fails |
| McpBridges.FailsExactly | src/codex_agent.rs:962-1006 | a server fails exactly when its configuration cannot be built or its bridge does not start |
| McpBridges.SessionOwnsExactly | src/codex_agent.rs:954-1043 | an opened session owns exactly the bridges of the ACP servers that no configured server replaces, numbered as they were started |
| McpBridges.ShutdownReleasesTheRest | src/thread.rs:302-320 | shutting an opened session down later leaves every bridge shut down exactly once |
| McpBridges.SessionServersAreOverlay | src/codex_agent.rs:483-489 | with filtering on a configured name keeps its server and any other means the last client server normalizing to it; with filtering off the last client server wins |
| McpBridges.BlankNamesKeepTheirServer | src/codex_agent.rs:483-489 | a configured server whose name has whitespace keeps it whatever the client asks for, with filtering on or off |
| McpBridges.BridgePool.ShutdownAll | src/codex_agent.rs:491-495 | every listed bridge is shut down, in order |
| McpBridges.BridgePool.AddAcp | src/codex_agent.rs:962-1006 | a bridge is kept with its server, shut down when filtered, and on an error shut down with all earlier ones |
| McpBridges.BridgePool.BuildSessionConfig | src/codex_agent.rs:954-1043 | the loop over the servers builds what the build function says, or releases everything it started |
| McpBridges.Thread.Shutdown | src/thread.rs:302-320 | the bridges are released whether or not the actor acknowledges |
| McpBridges.Open | src/codex_agent.rs:1321-1361 | the new, load, resume and fork requests: a thread owning the bridges, or none and all of them released |
| Models.EditForPicker | src/thread/model_picker.rs:21-47 | a preset is offered, with its efforts cut to the high ones, exactly under the picker's conditions |
| Models.FilterModelPresetsForPicker | src/thread/model_picker.rs:17-47 | the list of the presets offered, each edited, in order |
| Models.Resolve | src/thread/model_picker.rs:7-15 | the first preset of the current model when there is one, else the first default one, else the first of a list that is not empty |
| Models.OfferedExactly | src/thread/model_picker.rs:21-47 | a preset is offered exactly when its model is 5.3 or newer, it is shown, the default or the current one, and it has a high effort |
| Models.OfferedAs | src/thread/model_picker.rs:33-44 | an offered preset keeps everything but its efforts, which are the high ones, and defaults to its own default if that is high, else to the first of them |
| Models.HighEffortsOfSnoc | src/thread/model_picker.rs:70-78 | the efforts kept are high, extra high, max and ultra, in order |
| Models.VersionDecides | src/thread/model_picker.rs:49-68 | a printed model version is read back and decides alone whether it is 5.3 or newer |
| Models.VersionExactly | src/thread/model_picker.rs:49-68 | only names spelled `gpt-`, digits, a dot and digits have a version, which is what those digits say |
| Models.FilterIsIdempotent | src/thread/model_picker.rs:17-47 | filtering twice is filtering once |
| Models.SecondChangeExactlyWhen | src/thread/actor_models.rs:141-157 | after an applied change, normalizing again does nothing exactly when the preset then offered for the model supports or defaults to the chosen effort |
| Models.NormalizingSettlesAtOnce | src/thread/actor_models.rs:70-83 | with one preset per model name one application reaches the fixpoint, although the filter depends on the current model |
| Models.SharedModelNameSettlesLater | src/thread/model_picker.rs:17-47 | with two presets of one name a second application can still change the effort |
| Models.ChoiceFitsPreset | src/thread/actor_models.rs:113-139 | an id of the list selects that preset's model with the configured effort if supported, else its default; another name is taken as it is, the empty one refused |
| Models.ChosenExactly | src/thread/actor_models.rs:113-139 | choosing an id takes the model of the first preset with it, at the configured effort if supported and else its default, and is refused exactly when that model has no name |
| Models.NormalizedExactly | src/thread/actor_models.rs:141-157 | normalizing keeps to the resolved preset and an effort that fits, and changes nothing exactly when model and effort are already so |
| Models.SetEffortExactly | src/thread/actor_models.rs:41-68 | the effort is set exactly when Codex accepts it and the first offered preset of the current model supports it, and the model stays |
| Models.AppliedExactly | src/thread/actor_models.rs:91-100 | an accepted selection sets model and effort together, and nothing else changes the configuration |
| Models.EffortStaysHigh | src/thread/actor_models.rs:113-173 | once normalized against a non-empty list the effort is high or higher after every later run of commands |
| Models.ModelConfig.ApplySelectedModel | src/thread/actor_models.rs:91-100 | model and effort change together, and not at all when the change is refused |
| Models.ModelConfig.Perform | src/thread/actor_models.rs:24-83 | each command changes the configuration as the step function says |
| RustfmtDiff.RustfmtDiffSections | src/boundary/file_changes.rs:136-161 | the loop over the lines gives the sections of the output |
| RustfmtDiff.HeaderExactly | src/boundary/file_changes.rs:163-168 | a line is a header for a path exactly when it is spelled as one with a number after the last colon |
| RustfmtDiff.ParseOfPrintedReport | src/boundary/file_changes.rs:136-168 | parsing a printed report gives back paths and patches, ignoring what precedes the first header and leaving out blank diffs |
| RustfmtDiff.NothingLeftOut | src/boundary/file_changes.rs:150-161 | when no diff is blank every file comes back, in order |
| JsonRpc.AcpMcpBridge.HandleMessage | src/acp_mcp_bridge.rs:211-246 | one message is sent on or refused, and answered, as its meaning says |
| JsonRpc.AcpMcpBridge.HandlePayload | src/acp_mcp_bridge.rs:186-209 | a payload sends its calls on in order and gets the payload response |
| JsonRpc.EachItemIsAnswered | src/acp_mcp_bridge.rs:211-246 | an item gets no response exactly when it is a well-formed notification, and else one with its id or null |
| JsonRpc.RefusalsCarryTheirCode | src/acp_mcp_bridge.rs:211-234 | items that cannot be sent on get -32600, or -32602 when only the parameters are wrong, each with its message |
| JsonRpc.CallIsSentOnAsItCame | src/acp_mcp_bridge.rs:211-246 | an item with a method name and object parameters, or none, is sent on under its own name with its own id and parameters |
| JsonRpc.BatchIsAnsweredInOrder | src/acp_mcp_bridge.rs:194-204 | a batch gets one response for each item that is not a notification, in order, with its id, and each call's response carries the reply to its own forwarded message |
| JsonRpc.PayloadAnswer | src/acp_mcp_bridge.rs:186-209 | nothing for notifications only, one error for an empty batch, for another batch the array of its responses, else one response, carrying the reply when it answers a call |
| JsonRpc.CallsAreForwardedInOrder | src/acp_mcp_bridge.rs:211-246 | the items with a method name and acceptable parameters are sent on as they came, each once, in order, and nothing else |
| CommandArgs.SedInputFileCandidates | src/boundary/tool_call/command.rs:234-283 | the loop terminates although its index may jump past the end, and gives the scanned candidates |
| CommandArgs.CandidatesAreInputs | src/boundary/tool_call/command.rs:234-283 | nothing when an in-place option is read before the end of options; else exactly the input arguments by position |
| CommandArgs.CandidatesAreSubsequence | src/boundary/tool_call/command.rs:234-283 | candidates are arguments in the order they stand |
| CommandArgs.InPlaceComesFirst | src/boundary/tool_call/command.rs:285-299 | a short option group edits in place exactly when an `i` stands before any `e` or `f` |
| CommandArgs.OneDash | src/boundary/tool_call/command.rs:234-299 | the role of a word with one dash in front: a script option, editing in place, another option, a group of options by the letters in it, or no option |
| CommandArgs.TwoDashes | src/boundary/tool_call/command.rs:234-283 | the role of a word with two dashes in front |
| CommandArgs.NoDash | src/boundary/tool_call/command.rs:234-283 | a word without a dash in front is no option |
| CommandArgs.StripKnownCommandWrappers | src/boundary/tool_call/command.rs:321-338 | the loop leaves what the stripping function leaves |
| CommandArgs.StrippingIsIdempotent | src/boundary/tool_call/command.rs:321-338 | stripping leaves the suffix after the leading wrappers, and stripping again changes nothing |
| CommandArgs.PathWrapper | src/boundary/tool_call/command.rs:321-338 | a path is a wrapper exactly when its last component is `command` or holds an equals sign |
| CommandArgs.PlainWrapper | src/boundary/tool_call/command.rs:321-338 | the same of a word without a slash |
| CommandArgs.PathOfDots | src/boundary/tool_call/command.rs:321-338 | a path that ends in two dots is no wrapper, and a dot or a slash at its end is passed over |
| CommandArgs.GitSubcommand | src/boundary/tool_call/command.rs:373-390 | the loop finds the position the scan finds and the argument there |
| CommandArgs.SubcommandIsFirstPlain | src/boundary/tool_call/command.rs:373-390 | the subcommand is the first argument that is neither an option nor an option's value |
| CommandArgs.ValueIsSkippedExactly | src/boundary/tool_call/command.rs:373-390 | exactly five options of `git` take the next word as their value |

## Left out

- Transport, login, HTTP serving, rollout files, storage and environment variables: I/O, present only as success or failure.
- ACP payloads (titles, content blocks, metadata, raw JSON): plain formatting; an update names what it shows and carries the text the properties are about.
- Event variants that behave alike are one class; `Other` carries whether it shows something live, shows something on replay, and ends a search.
- Order of the loop's sources: the program prefers messages to task results to events; the model lets any of them come next, so its runs include the program's.
- Response items in a replayed history (tool calls), and raw reasoning content, which replay shows as a generic notification: they change no state.
- The prompt text of questions beyond the numbered option lines, and the secrecy mark: fixed wording.
- Output chunks are taken as already decoded text; in `Streams` and `ClientView` the client's terminal capability is the same whenever an event is delivered.
- The printed form of a request id comes from `codex_protocol`, which is not part of this model: both variants are taken to print their bare value, and integer ids are unbounded.
- Usage, goals and agent statuses are opaque values; collaboration modes are two.
- Integer parsing assumes a 64-bit `usize`, as on every supported platform, and a 32-bit `u32`.
- Upper-case letters outside ASCII never reach the token normaliser, which keeps only ASCII letters and digits.
- What Codex does with a submitted operation, and whether its submission ids are fresh: the conditions are stated in the theorems that need them.
- The request that steering starts when no turn is active hands its receiver to a detached task: the receiver is one the surroundings may drop.
- Attaching a new client to a live session (`replace_client`), and concurrent requests racing on the sessions map.
- Inside `AcpMcpBridge::start` and `shutdown`: bridges are counted, not their remote connections; a start that fails leaves no bridge.
- `read_additional_directories`, approval presets, config option lists, status summaries and slash commands: simple members or user interface.
- `diffy`, `shlex`, `parse_command`, `parse_patch` and the reparse of unknown commands: libraries that are not part of this model.
- Path handling in wrapper stripping follows Unix separators.
