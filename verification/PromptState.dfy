/**
 A submission as the program keeps it: objects updated in place. Every method is proved to do what
 the corresponding function of `SubmissionModel` does.
 */
module PromptStates {
  import opened Wrappers
  import opened Approval
  import opened Events
  import opened StreamModel = Streams
  import opened Runtime
  import opened SubmissionModel

  /** The channels, tasks and threads the objects share. */
  class Surroundings {
    var w: World

    constructor ()
      ensures w == START
    {
      w := START;
    }

    method OpenChannel() returns (sender: Sender)
      modifies this
      ensures sender == old(w).issued
      ensures w == old(w).(open := old(w).open + {old(w).issued}, issued := old(w).issued + 1)
    {
      sender := w.issued;
      w := w.(open := w.open + {sender}, issued := w.issued + 1);
    }

    method Deliver(sender: Sender, result: PromptResult)
      modifies this
      ensures w == old(w).(sent := old(w).sent + [Sent(sender, result)])
    {
      w := w.(sent := w.sent + [Sent(sender, result)]);
    }

    method SettleTask(t: TaskId, fate: Fate)
      modifies this
      ensures w == old(w).(tasks := SettleAll(old(w).tasks, {t}, fate))
    {
      w := w.(tasks := SettleAll(w.tasks, {t}, fate));
    }

    /** The actor takes the first queued task result. */
    method TakeResolution() returns (m: Resolution)
      requires w.queue != []
      modifies this
      ensures m == old(w).queue[0] && w == Receive(old(w))
    {
      m := w.queue[0];
      w := Receive(w);
    }

    /** The client answers the request of a permission task. */
    method ClientAnswers(t: TaskId, response: Response)
      modifies this
      ensures w == ClientReplies(old(w), t, response)
    {
      w := ClientReplies(w, t, response);
    }

    /** A permission task queues the answer it has. */
    method TaskQueues(t: TaskId)
      modifies this
      ensures w == TaskSends(old(w), t)
    {
      w := TaskSends(w, t);
    }

    /** Callers drop their receivers. */
    method LoseReceivers(dropped: set<Sender>)
      modifies this
      ensures w == DropReceivers(old(w), dropped)
    {
      w := DropReceivers(w, dropped);
    }

    method StartTask(submission: string, key: string) returns (t: TaskId)
      modifies this
      ensures t == |old(w).tasks|
      ensures w == old(w).(tasks := old(w).tasks + [Task(submission, key, Waiting, Pending)])
    {
      t := |w.tasks|;
      w := w.(tasks := w.tasks + [Task(submission, key, Waiting, Pending)]);
    }

    method Submit(submitted: Submitted)
      modifies this
      ensures w == old(w).(ops := old(w).ops + [submitted])
    {
      w := w.(ops := w.ops + [submitted]);
    }

    method Notify(submission: Option<string>, update: Update)
      modifies this
      ensures w == old(w).(shown := old(w).shown + [ClientUpdate(submission, update)])
    {
      w := w.(shown := w.shown + [ClientUpdate(submission, update)]);
    }
  }

  // ---------------------------------------------------------------------------------------------
  // Answer senders

  lemma DeliverFirst(sent: seq<Sent>, senders: seq<Sender>, result: PromptResult)
    requires senders != []
    ensures sent + Deliveries(senders, result)
         == sent + [Sent(senders[0], result)] + Deliveries(senders[1..], result)
  {
    assert Deliveries(senders, result) == [Sent(senders[0], result)] + Deliveries(senders[1..], result);
  }

  class PromptResponses {
    var primary: Option<Sender>
    var additional: seq<Sender>

    ghost function View(): Responses
      reads this
    {
      Responses(primary, additional)
    }

    constructor (primary: Option<Sender>)
      ensures View() == Responses(primary, [])
    {
      this.primary, additional := primary, [];
    }

    method IsActive(env: Surroundings) returns (active: bool)
      ensures active <==> SubmissionModel.IsActive(View(), env.w.open)
    {
      if primary.Some? && primary.value in env.w.open {
        return true;
      }
      for i := 0 to |additional|
        invariant forall j :: 0 <= j < i ==> additional[j] !in env.w.open
      {
        if additional[i] in env.w.open {
          return true;
        }
      }
      return false;
    }

    method Add(sender: Sender)
      modifies this
      ensures View() == old(View()).(additional := old(View()).additional + [sender])
    {
      additional := additional + [sender];
    }

    /** Sends the result to every sender and keeps none. */
    method Send(env: Surroundings, result: PromptResult)
      modifies this, env
      ensures View() == Responses(None, [])
      ensures env.w == old(env.w).(sent := old(env.w).sent + Deliveries(old(Senders(View())), result))
    {
      ghost var sent := env.w.sent + Deliveries(Senders(View()), result);
      if primary.Some? {
        DeliverFirst(env.w.sent, Senders(View()), result);
        env.Deliver(primary.value, result);
        primary := None;
      }
      while additional != []
        invariant primary == None
        invariant env.w == old(env.w).(sent := env.w.sent)
        invariant env.w.sent + Deliveries(additional, result) == sent
        decreases |additional|
      {
        DeliverFirst(env.w.sent, additional, result);
        env.Deliver(additional[0], result);
        additional := additional[1..];
      }
    }
  }

  // ---------------------------------------------------------------------------------------------
  // Permission interactions

  lemma SettleMore(tasks: seq<Task>, first: set<TaskId>, rest: set<TaskId>, fate: Fate)
    ensures SettleAll(SettleAll(tasks, first, fate), rest, fate) == SettleAll(tasks, first + rest, fate)
  {}

  lemma TasksOfOneMore(interactions: map<string, Entry>, key: string)
    requires key in interactions
    ensures TasksOf(interactions) == {interactions[key].task} + TasksOf(interactions - {key})
  {
    var rest := interactions - {key};
    forall k | k in interactions ensures interactions[k].task in {interactions[key].task} + TasksOf(rest) {
      if k != key {
        assert k in rest;
      }
    }
    forall k | k in rest ensures rest[k].task in TasksOf(interactions) {
      assert k in interactions;
    }
  }

  class PermissionInteractionState {
    var interactions: map<string, Entry>

    constructor ()
      ensures interactions == map[]
    {
      interactions := map[];
    }

    /** Drains the interactions in any order; their tasks are aborted, or go on with nobody to resolve them. */
    method Drain(env: Surroundings, fate: Fate)
      modifies this, env
      ensures interactions == map[]
      ensures env.w == old(env.w).(tasks := SettleAll(old(env.w).tasks, TasksOf(old(interactions)), fate))
    {
      ghost var tasks, settled: set<TaskId> := env.w.tasks, {};
      while interactions != map[]
        invariant env.w == old(env.w).(tasks := env.w.tasks)
        invariant env.w.tasks == SettleAll(tasks, settled, fate)
        invariant settled + TasksOf(interactions) == TasksOf(old(interactions))
        decreases interactions.Keys
      {
        var key :| key in interactions;
        var t := interactions[key].task;
        TasksOfOneMore(interactions, key);
        SettleMore(tasks, settled, {t}, fate);
        env.SettleTask(t, fate);
        settled, interactions := settled + {t}, interactions - {key};
      }
    }

    method AbortAll(env: Surroundings)
      modifies this, env
      ensures interactions == map[]
      ensures env.w == old(env.w).(tasks := SettleAll(old(env.w).tasks, TasksOf(old(interactions)), Aborted))
    {
      Drain(env, Aborted);
    }

    /** Starts a task for the request; one pending under the same key is aborted. */
    method Spawn(env: Surroundings, submission: string, key: string, request: PermissionRequest)
      modifies this, env
      ensures var replaced := if key in old(interactions) then {old(interactions)[key].task} else {};
              env.w == old(env.w).(tasks := SettleAll(old(env.w).tasks, replaced, Replaced)
                                            + [Task(submission, key, Waiting, Pending)])
      ensures interactions == old(interactions)[key := Entry(|old(env.w).tasks|, request)]
    {
      if key in interactions {
        env.SettleTask(interactions[key].task, Replaced);
      }
      var t := env.StartTask(submission, key);
      interactions := interactions[key := Entry(t, request)];
    }

    /** Takes the interaction under a key and turns the client's answer into an operation for Codex. */
    method Resolve(env: Surroundings, m: Resolution) returns (r: Result<Option<Submitted>, string>)
      modifies this, env
      ensures m.key !in old(interactions) ==>
                r == Ok(None) && env.w == old(env.w) && interactions == old(interactions)
      ensures m.key in old(interactions) ==>
                var entry := old(interactions)[m.key];
                var fate := if m.response.Replied? then Resolved else Failed;
                && interactions == old(interactions) - {m.key}
                && env.w == old(env.w).(tasks := SettleAll(old(env.w).tasks, {entry.task}, fate))
                && r == match m.response
                        case RequestFailed(error) => Err(error)
                        case Replied(outcome) =>
                          Ok(Some(Submitted(OpFor(entry.request, outcome), Some(entry.task), Some(m.task))))
    {
      if m.key !in interactions {
        return Ok(None);
      }
      var entry := interactions[m.key];
      interactions := interactions - {m.key};
      match m.response
      case RequestFailed(error) =>
        env.SettleTask(entry.task, Failed);
        return Err(error);
      case Replied(outcome) =>
        env.SettleTask(entry.task, Resolved);
        return Ok(Some(Submitted(OpFor(entry.request, outcome), Some(entry.task), Some(m.task))));
    }
  }

  // ---------------------------------------------------------------------------------------------
  // The submission

  class PromptState {
    const submissionId: string
    const responses: PromptResponses
    const permissionInteractions: PermissionInteractionState
    var commands: map<string, Command>
    var webSearch: Option<string>
    var guardianAssessments: set<string>
    var seenMessageDeltas: bool
    var messageDeltaText: string
    var seenReasoningDeltas: bool
    var eventCount: nat

    ghost function Repr(): set<object> {
      {this, responses, permissionInteractions}
    }

    ghost function Text(): Buffers
      reads this
    {
      Buffers(seenMessageDeltas, messageDeltaText, seenReasoningDeltas)
    }

    ghost function Tools(): StreamModel.Streams
      reads this
    {
      StreamModel.Streams.Streams(commands, webSearch, guardianAssessments, Text())
    }

    ghost function View(): Submission
      reads this, responses, permissionInteractions
    {
      Submission(responses.View(), permissionInteractions.interactions, Tools(), eventCount)
    }

    constructor (submissionId: string, primary: Option<Sender>)
      ensures this.submissionId == submissionId && View() == NewSubmission(primary)
      ensures fresh(responses) && fresh(permissionInteractions)
    {
      this.submissionId := submissionId;
      responses := new PromptResponses(primary);
      permissionInteractions := new PermissionInteractionState();
      commands, webSearch, guardianAssessments := map[], None, {};
      seenMessageDeltas, messageDeltaText, seenReasoningDeltas := false, "", false;
      eventCount := 0;
    }

    // Streamed text

    method RecordMessageDelta(delta: string)
      modifies this`seenMessageDeltas, this`messageDeltaText
      ensures Text() == Buffers(true, old(messageDeltaText) + delta, seenReasoningDeltas)
    {
      seenMessageDeltas := true;
      messageDeltaText := messageDeltaText + delta;
    }

    method TakeMessageDeltaText() returns (streamed: Option<string>)
      modifies this`seenMessageDeltas, this`messageDeltaText
      ensures streamed == if old(seenMessageDeltas) then Some(old(messageDeltaText)) else None
      ensures Text() == Buffers(false, if old(seenMessageDeltas) then "" else old(messageDeltaText), seenReasoningDeltas)
    {
      if seenMessageDeltas {
        streamed := Some(messageDeltaText);
        seenMessageDeltas, messageDeltaText := false, "";
      } else {
        streamed := None;
      }
    }

    method AgentMessage(message: string, final: bool) returns (effects: seq<Update>)
      modifies this`seenMessageDeltas, this`messageDeltaText
      ensures Text() == NextBuffers(old(Text()), Event.Text(TextEvent.AgentMessage(message, final)))
      ensures effects == TextUpdates(old(Text()), TextEvent.AgentMessage(message, final))
    {
      var streamed := TakeMessageDeltaText();
      var shouldSend := match (final, streamed)
        case (_, None) => true
        case (true, Some(text)) => text != message
        case _ => false;
      effects := if shouldSend then [AgentText(message)] else [];
    }

    method HandleText(e: TextEvent) returns (effects: seq<Update>)
      modifies this`seenMessageDeltas, this`messageDeltaText, this`seenReasoningDeltas
      ensures Text() == NextBuffers(old(Text()), Event.Text(e))
      ensures effects == TextUpdates(old(Text()), e)
    {
      match e
      case MessageDelta(delta) =>
        RecordMessageDelta(delta);
        effects := [AgentText(delta)];
      case AgentMessage(message, final) => effects := AgentMessage(message, final);
      case ReasoningDelta(delta) =>
        seenReasoningDeltas := true;
        effects := [AgentThought(delta)];
      case ReasoningBreak =>
        seenReasoningDeltas := true;
        effects := [AgentThought("\n\n")];
      case AgentReasoning(text) =>
        effects := if seenReasoningDeltas then [] else [AgentThought(text)];
        seenReasoningDeltas := false;
    }

    // Commands, searches, reviews

    method StreamActiveCommandOutput(capable: bool, callId: string, data: string) returns (effect: seq<Update>)
      modifies this`commands
      ensures callId !in old(commands) ==> commands == old(commands) && effect == []
      ensures callId in old(commands) ==>
                var command := old(commands)[callId];
                && commands == old(commands)[callId := command.(output := command.output + data)]
                && effect == if Supports(capable, command) then [CommandOutput(callId, data)] else []
    {
      effect := [];
      if callId in commands {
        var command := commands[callId];
        commands := commands[callId := command.(output := command.output + data)];
        if Supports(capable, command) {
          effect := [CommandOutput(callId, data)];
        }
      }
    }

    method HandleExec(capable: bool, e: ExecEvent) returns (effects: seq<Update>)
      modifies this`commands
      ensures commands == NextCommands(old(commands), Event.Exec(e))
      ensures effects == ExecUpdates(old(commands), capable, e)
    {
      match e
      case ExecBegin(callId, terminal) =>
        commands := commands[callId := Command(terminal, "")];
        effects := [CommandStart(callId, capable && terminal)];
      case ExecOutput(callId, data) => effects := StreamActiveCommandOutput(capable, callId, data);
      case TerminalInput(callId, stdin) =>
        effects := StreamActiveCommandOutput(capable, callId, "\n" + stdin + "\n");
      case ExecEnd(callId, _, _) =>
        effects := [];
        if callId in commands {
          effects := EndUpdates(commands[callId], capable, e);
        }
        commands := commands - {callId};
    }

    method CompleteWebSearch() returns (effects: seq<Update>)
      modifies this`webSearch
      ensures webSearch == None
      ensures effects == if old(webSearch).Some? then [SearchDone(old(webSearch).value)] else []
    {
      effects := if webSearch.Some? then [SearchDone(webSearch.value)] else [];
      webSearch := None;
    }

    method HandleSearch(e: SearchEvent) returns (effects: seq<Update>)
      modifies this`webSearch
      ensures webSearch == if e.SearchBegin? then Some(e.callId) else old(webSearch)
      ensures effects == SearchUpdates(e)
    {
      match e
      case SearchBegin(callId) =>
        webSearch := Some(callId);
        effects := [SearchStart(callId)];
      case SearchEnd(callId, query) => effects := [SearchQuery(callId, query)];
    }

    /** A review in progress starts its tool call the first time; a finished one ends it, or shows it whole. */
    method GuardianAssessment(id: string, inProgress: bool) returns (effects: seq<Update>)
      modifies this`guardianAssessments
      ensures guardianAssessments == NextGuardians(old(guardianAssessments), Event.Guardian(id, inProgress))
      ensures effects == [if id in old(guardianAssessments) then GuardianUpdate(id, inProgress)
                          else GuardianStart(id, inProgress)]
    {
      var known := id in guardianAssessments;
      if inProgress {
        guardianAssessments := guardianAssessments + {id};
      } else {
        guardianAssessments := guardianAssessments - {id};
      }
      effects := [if known then GuardianUpdate(id, inProgress) else GuardianStart(id, inProgress)];
    }

    method Show(env: Surroundings, effects: seq<Update>)
      modifies env
      ensures env.w == old(env.w).(shown := old(env.w).shown + Tagged(Some(submissionId), effects))
    {
      for i := 0 to |effects|
        invariant env.w == old(env.w).(shown := old(env.w).shown + Tagged(Some(submissionId), effects[..i]))
      {
        assert effects[..i + 1] == effects[..i] + [effects[i]];
        env.Notify(Some(submissionId), effects[i]);
      }
      assert effects[..|effects|] == effects;
    }

    // Answers and requests

    method IsActive(env: Surroundings) returns (active: bool)
      ensures active <==> SubmissionModel.IsActive(View().responses, env.w.open)
    {
      active := responses.IsActive(env);
    }

    method AddResponse(env: Surroundings, sender: Sender)
      modifies responses
      ensures Local(View(), env.w) == SubmissionModel.AddSender(old(Local(View(), env.w)), sender)
    {
      responses.Add(sender);
    }

    method SendResult(env: Surroundings, result: PromptResult)
      modifies responses, env
      ensures Local(View(), env.w) == SubmissionModel.SendResult(old(Local(View(), env.w)), result)
    {
      responses.Send(env, result);
    }

    method AbortPendingInteractions(env: Surroundings)
      modifies permissionInteractions, env
      ensures Local(View(), env.w) == AbortAll(old(Local(View(), env.w)))
    {
      permissionInteractions.AbortAll(env);
    }

    method SpawnPermissionRequest(env: Surroundings, key: string, request: PermissionRequest)
      modifies permissionInteractions, env
      ensures Local(View(), env.w) == Spawn(old(Local(View(), env.w)), submissionId, key, request)
    {
      permissionInteractions.Spawn(env, submissionId, key, request);
    }

    /** Runs one effect that submits an operation; Codex may refuse it. */
    method SubmitEffect(env: Surroundings, submitted: Submitted, accepted: bool) returns (r: Result<(), string>)
      modifies env
      ensures env.w == old(env.w).(ops := old(env.w).ops + [submitted])
      ensures r == if accepted then Ok(()) else Err("submit failed")
    {
      env.Submit(submitted);
      r := if accepted then Ok(()) else Err("submit failed");
    }

    method McpElicitation(env: Surroundings, r: RequestEvent, accepted: bool)
      requires r.ElicitationRequest?
      modifies responses, permissionInteractions, env
      ensures Local(View(), env.w) == HandleRequest(old(Local(View(), env.w)), submissionId, r, accepted)
    {
      if r.supported {
        SpawnPermissionRequest(env, RequestKey(r), RequestFor(r));
      } else {
        var submitted := SubmitEffect(env, Submitted(DeclineOp(r), None, None), accepted);
        if submitted.Err? {
          SendResult(env, Err(submitted.error));
        }
      }
    }

    method ExecApproval(env: Surroundings, r: RequestEvent, accepted: bool)
      requires r.ExecApprovalRequest?
      modifies this`commands, responses, permissionInteractions, env
      ensures commands == NextCommands(old(commands), Request(r))
      ensures Local(View().(streams := old(Tools())), env.w)
           == HandleRequest(old(Local(View(), env.w)), submissionId, r, accepted)
    {
      if !r.contentOk {
        SendResult(env, Err("content"));
        return;
      }
      commands := commands[r.callId := Command(r.terminal, "")];
      SpawnPermissionRequest(env, RequestKey(r), RequestFor(r));
    }

    method HandlePermission(env: Surroundings, r: RequestEvent, accepted: bool)
      modifies this`commands, responses, permissionInteractions, env
      ensures commands == NextCommands(old(commands), Request(r))
      ensures Local(View().(streams := old(Tools())), env.w)
           == HandleRequest(old(Local(View(), env.w)), submissionId, r, accepted)
    {
      match r
      case ExecApprovalRequest(_, _, _, _, _, _) => ExecApproval(env, r, accepted);
      case ElicitationRequest(_, _, _, _, _) => McpElicitation(env, r, accepted);
      case _ => SpawnPermissionRequest(env, RequestKey(r), RequestFor(r));
    }

    /** The pending requests are aborted, then every caller gets the result. */
    method EndTurn(env: Surroundings, result: PromptResult)
      modifies responses, permissionInteractions, env
      ensures Local(View(), env.w) == SubmissionModel.SendResult(AbortAll(old(Local(View(), env.w))), result)
    {
      AbortPendingInteractions(env);
      SendResult(env, result);
    }

    /** A terminal event; an abort that names no turn is not one. */
    method HandleEnd(env: Surroundings, e: EndEvent)
      modifies responses, permissionInteractions, env
      ensures Local(View(), env.w)
           == if EndsTurn(End(e)) then SubmissionModel.SendResult(AbortAll(old(Local(View(), env.w))), EndResult(e))
              else old(Local(View(), env.w))
    {
      match e
      case Error(message) => EndTurn(env, Err(message));
      case TurnComplete(_) => EndTurn(env, Ok(StopReason.EndTurn));
      case TurnAborted(turn) =>
        if turn.Some? {
          EndTurn(env, Ok(StopReason.Cancelled));
        }
      case ShutdownComplete => EndTurn(env, Ok(StopReason.Cancelled));
    }

    /** An event that only shows something. */
    method Forward(env: Surroundings, capable: bool, ev: Event)
      requires !ev.End? && !ev.Request?
      modifies this`commands, this`webSearch, this`guardianAssessments
      modifies this`seenMessageDeltas, this`messageDeltaText, this`seenReasoningDeltas, env
      ensures commands == NextCommands(old(commands), ev)
      ensures webSearch == if ev.Search? && ev.search.SearchBegin? then Some(ev.search.callId) else old(webSearch)
      ensures guardianAssessments == NextGuardians(old(guardianAssessments), ev)
      ensures Text() == NextBuffers(old(Text()), ev)
      ensures env.w == old(env.w).(shown := old(env.w).shown + Tagged(Some(submissionId), OwnUpdates(old(Tools()), capable, ev)))
    {
      var effects: seq<Update> := [];
      match ev {
        case Text(e) => effects := HandleText(e);
        case Search(e) => effects := HandleSearch(e);
        case Exec(e) => effects := HandleExec(capable, e);
        case Guardian(id, inProgress) => effects := GuardianAssessment(id, inProgress);
        case Session(e) => effects := if e.TurnStarted? || (e.TokenCount? && !e.shown) then [] else [SessionShown(e)];
        case Other(what, live, _, _) => effects := if live then [Shown(what)] else [];
        case _ =>
      }
      Show(env, effects);
    }

    /** Counts the event and completes a running web search that it shows to be over. */
    method BeginEvent(env: Surroundings, ev: Event)
      modifies this`eventCount, this`webSearch, env
      ensures eventCount == old(eventCount) + 1
      ensures webSearch == if ClosesSearch(ev) then None else old(webSearch)
      ensures env.w
           == old(env.w).(shown := old(env.w).shown + Tagged(Some(submissionId), ClosingUpdates(old(webSearch), ev)))
    {
      eventCount := eventCount + 1;
      if ClosesSearch(ev) {
        var effects := CompleteWebSearch();
        Show(env, effects);
      } else {
        assert Tagged(Some(submissionId), []) == [];
      }
    }

    /** The surroundings after an event that shows nothing of its own completed the running search. */
    lemma BegunShows(l: Local, capable: bool, ev: Event)
      requires OwnUpdates(l.sub.streams, capable, ev) == []
      ensures l.w.shown + Tagged(Some(submissionId), ClosingUpdates(l.sub.streams.search, ev))
           == ShowUpdates(l, submissionId, capable, ev).w.shown
    {
      assert ClosingUpdates(l.sub.streams.search, ev) + [] == ClosingUpdates(l.sub.streams.search, ev);
    }

    method EndEvent(env: Surroundings, capable: bool, e: EndEvent, accepted: bool)
      modifies this`eventCount, this`webSearch, responses, permissionInteractions, env
      ensures Local(View(), env.w)
           == DeliverEvent(old(Local(View(), env.w)), submissionId, capable, Event.End(e), accepted)
    {
      BegunShows(Local(View(), env.w), capable, Event.End(e));
      BeginEvent(env, Event.End(e));
      HandleEnd(env, e);
    }

    method PermissionEvent(env: Surroundings, capable: bool, r: RequestEvent, accepted: bool)
      modifies this`eventCount, this`webSearch, this`commands, responses, permissionInteractions, env
      ensures Local(View(), env.w)
           == DeliverEvent(old(Local(View(), env.w)), submissionId, capable, Request(r), accepted)
    {
      BegunShows(Local(View(), env.w), capable, Request(r));
      BeginEvent(env, Request(r));
      HandlePermission(env, r, accepted);
    }

    method ForwardEvent(env: Surroundings, capable: bool, ev: Event, accepted: bool)
      requires !ev.End? && !ev.Request?
      modifies this, env
      ensures Local(View(), env.w)
           == DeliverEvent(old(Local(View(), env.w)), submissionId, capable, ev, accepted)
    {
      ShownAppend(env.w.shown, Some(submissionId), ClosingUpdates(webSearch, ev), OwnUpdates(Tools(), capable, ev));
      BeginEvent(env, ev);
      Forward(env, capable, ev);
    }

    /** Handles one Codex event; whatever it is, it is counted, and a search it shows to be over completed. */
    method HandleEvent(env: Surroundings, capable: bool, ev: Event, accepted: bool)
      modifies this, responses, permissionInteractions, env
      ensures Local(View(), env.w)
           == DeliverEvent(old(Local(View(), env.w)), submissionId, capable, ev, accepted)
    {
      match ev
      case End(e) => EndEvent(env, capable, e, accepted);
      case Request(r) => PermissionEvent(env, capable, r, accepted);
      case _ => ForwardEvent(env, capable, ev, accepted);
    }

    /** Handles a task result; an error is for the caller to fail the submission with. */
    method HandlePermissionRequestResolved(env: Surroundings, m: Resolution, accepted: bool) returns (r: Result<(), string>)
      modifies permissionInteractions, env
      ensures m.key !in old(permissionInteractions.interactions) ==>
                r == Ok(()) && Local(View(), env.w) == old(Local(View(), env.w))
      ensures m.key in old(permissionInteractions.interactions) ==>
                && Local(View(), env.w) == TakeEntry(old(Local(View(), env.w)), m)
                && r == match m.response
                        case RequestFailed(error) => Err(error)
                        case Replied(_) => if accepted then Ok(()) else Err("submit failed")
    {
      var resolved := permissionInteractions.Resolve(env, m);
      match resolved
      case Err(error) => r := Err(error);
      case Ok(None) => r := Ok(());
      case Ok(Some(submitted)) => r := SubmitEffect(env, submitted, accepted);
    }
  }
}
