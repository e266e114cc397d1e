/**
 What each step does to the rest of the actor: its settings, the pending questions, the session, the
 submissions and who waits for them, and what becomes of the permission tasks.
 */
module StepEffects {
  import opened Wrappers
  import opened Approval
  import opened UserInput
  import opened Events
  import opened SessionState
  import opened Runtime
  import opened SubmissionModel
  import opened ActorModel
  import opened ActorInvariants
  import opened ActorTheorems
  import opened Origins

  // ---------------------------------------------------------------------------------------------
  // Settings, the pending questions and the session

  /** What an input does to the settings: each message changes its own, and nothing else does. */
  ghost predicate Sets(a: Actor, input: Input, b: Actor) {
    && b.capable == (if input.ReplaceClient? then input.capable else a.capable)
    && b.fullAccess == (if input.SetFullAccess? then input.fullAccess else a.fullAccess)
    && (b.messagesOpen <==> a.messagesOpen && !input.MessagesClosed?)
  }

  lemma HandledSettings(a: Actor, input: Input)
    ensures Sets(a, input, Handle(a, input))
  {
    hide HandlePrompt, HandleEvent, HandleResolved;
    match input
    case Prompt(p) => PromptKeepsSettings(a, p);
    case Steer(_, p) => PromptKeepsSettings(a, p);
    case CodexEvent(id, o, accepted) => EventKeepsSettings(a, id, o, accepted);
    case PermissionResolved(accepted) => ResultKeepsSettings(a, accepted);
    case _ =>
  }

  lemma EndOfTurnKeepsSettings(a: Actor, dropped: set<Sender>)
    ensures var b := EndOfTurn(a, dropped);
            b.capable == a.capable && b.fullAccess == a.fullAccess && b.messagesOpen == a.messagesOpen
  {}

  /** Only a handled message changes a setting. */
  lemma StepSettings(a: Actor, step: Step)
    ensures var b := Next(a, step);
            if Handles(a, step) then Sets(a, step.input, b)
            else b.capable == a.capable && b.fullAccess == a.fullAccess && b.messagesOpen == a.messagesOpen
  {
    hide Handle, EndOfTurn;
    if Handles(a, step) {
      HandledSettings(a, step.input);
      EndOfTurnKeepsSettings(Handle(a, step.input), step.dropped);
    }
  }

  ghost predicate SameSettings(a: Actor, b: Actor) {
    b.capable == a.capable && b.fullAccess == a.fullAccess && b.messagesOpen == a.messagesOpen && b.status == a.status
  }

  lemma PromptKeepsSettings(a: Actor, p: PromptInput)
    ensures SameSettings(a, HandlePrompt(a, p).0) && HandlePrompt(a, p).0.session == a.session
  {
    hide ParseResponse;
    if a.slot.Some? {
      var parsed := ParseResponse(a.slot.value.questions, p.text);
      if parsed.Ok? {
        AnsweringKeepsSettings(a, a.slot.value, parsed.value, p.answerAccepted);
      }
    } else {
      StartingKeepsSettings(a, p.route);
    }
  }

  lemma AnsweringKeepsSettings(a: Actor, q: PendingRequest, answers: UserInput.Answers, accepted: bool)
    ensures var b := AnswerWith(a, q, answers, accepted).0;
            SameSettings(a, b) && b.session == a.session && b.slot == if accepted then None else a.slot
  {}

  lemma StartingKeepsSettings(a: Actor, route: Route)
    ensures var b := StartPrompt(a, route).0; SameSettings(a, b) && b.session == a.session && b.slot == a.slot
  {}

  lemma ResultKeepsSettings(a: Actor, accepted: bool)
    ensures var b := Handle(a, PermissionResolved(accepted));
            SameSettings(a, b) && b.session == a.session && b.slot == a.slot
  {
    hide HandlePrompt, HandleEvent;
  }

  lemma EventKeepsSettings(a: Actor, id: string, o: Observed, accepted: bool)
    ensures SameSettings(a, HandleEvent(a, id, o, accepted))
  {
    hide ApplyUpdates, StateUpdates;
  }

  /** The last of a run's handled messages that sets a client's capability, or full access, decides. */
  function LastCapable(a: Actor, steps: seq<Step>): bool {
    if steps == [] then a.capable
    else
      var init, last := steps[..|steps| - 1], steps[|steps| - 1];
      if Handles(Run(a, init), last) && last.input.ReplaceClient? then last.input.capable else LastCapable(a, init)
  }

  function LastAccess(a: Actor, steps: seq<Step>): bool {
    if steps == [] then a.fullAccess
    else
      var init, last := steps[..|steps| - 1], steps[|steps| - 1];
      if Handles(Run(a, init), last) && last.input.SetFullAccess? then last.input.fullAccess else LastAccess(a, init)
  }

  predicate WasClosed(a: Actor, steps: seq<Step>) {
    steps != [] &&
    (var init, last := steps[..|steps| - 1], steps[|steps| - 1];
     WasClosed(a, init) || (Handles(Run(a, init), last) && last.input.MessagesClosed?))
  }

  lemma {:induction false} RunLeavesLastSettings(a: Actor, steps: seq<Step>)
    ensures Run(a, steps).capable == LastCapable(a, steps) && Run(a, steps).fullAccess == LastAccess(a, steps)
    ensures Run(a, steps).messagesOpen <==> a.messagesOpen && !WasClosed(a, steps)
    decreases |steps|
  {
    hide Next;
    if steps != [] {
      var init := steps[..|steps| - 1];
      RunLeavesLastSettings(a, init);
      StepSettings(Run(a, init), steps[|steps| - 1]);
    }
  }

  /** The loop ends exactly when events fail, or when no message can come and no submission is left. */
  lemma StepStatus(a: Actor, step: Step)
    ensures var b := Next(a, step);
            b.status
            == if !Handles(a, step) then a.status
               else if step.input.EventStreamFailed? then EventStreamLost
               else if !b.messagesOpen && b.subs == map[] then Drained else Running
  {
    if Handles(a, step) {
      MessagesKeepStatus(a, step.input);
      TurnEnds(Handle(a, step.input), step.dropped);
    }
  }

  lemma TurnEnds(a: Actor, dropped: set<Sender>)
    requires !a.status.Drained?
    ensures var b := EndOfTurn(a, dropped);
            && b.session == a.session && b.slot == a.slot
            && b.status == if a.status.EventStreamLost? then EventStreamLost
                           else if !b.messagesOpen && b.subs == map[] then Drained else a.status
  {}

  /** The pending questions: set and cleared by events and replay, and cleared by an accepted answer. */
  lemma StepSlot(a: Actor, step: Step)
    ensures Next(a, step).slot
         == if !Handles(a, step) then a.slot
            else
              match step.input
              case CodexEvent(id, o, _) => LiveSlot(a.slot, id, o.event)
              case ReplayHistory(history) => ReplaySlots(a.slot, history)
              case input =>
                if PromptOf(input).Some? && Answered(a.slot, PromptOf(input).value) then None else a.slot
  {
    hide HandlePrompt, HandleEvent, EndOfTurn, HandleResolved;
    if Handles(a, step) {
      MessagesKeepStatus(a, step.input);
      TurnEnds(Handle(a, step.input), step.dropped);
      match step.input
      case Prompt(p) => PromptSlot(a, p);
      case Steer(_, p) => PromptSlot(a, p);
      case CodexEvent(id, o, accepted) => EventUpdatesSlot(a, id, o, accepted);
      case PermissionResolved(accepted) => ResultKeepsSettings(a, accepted);
      case _ =>
    }
  }

  /** A prompt answers the pending questions when it can be read and Codex takes the answers. */
  predicate Answered(slot: Slot, p: PromptInput) {
    slot.Some? && ParseResponse(slot.value.questions, p.text).Ok? && p.answerAccepted
  }

  lemma PromptSlot(a: Actor, p: PromptInput)
    ensures HandlePrompt(a, p).0.slot == if Answered(a.slot, p) then None else a.slot
  {
    hide ParseResponse;
    if a.slot.Some? {
      var parsed := ParseResponse(a.slot.value.questions, p.text);
      if parsed.Ok? {
        AnsweringKeepsSettings(a, a.slot.value, parsed.value, p.answerAccepted);
      }
    } else {
      StartingKeepsSettings(a, p.route);
    }
  }

  /** The session: changed by events and replay, and by the messages that set the mode and the goal. */
  lemma StepSession(a: Actor, step: Step)
    ensures Next(a, step).session
         == if !Handles(a, step) then a.session
            else
              match step.input
              case CodexEvent(_, o, _) => LiveUpdate(a.session, o)
              case ReplayHistory(history) => ReplayRun(a.session, history)
              case SetMode(mode) => a.session.(mode := Some(mode))
              case ControlGoal(goal) => a.session.(goal := goal)
              case _ => a.session
  {
    hide HandlePrompt, HandleEvent, EndOfTurn, HandleResolved;
    if Handles(a, step) {
      MessagesKeepStatus(a, step.input);
      TurnEnds(Handle(a, step.input), step.dropped);
      match step.input
      case Prompt(p) => PromptKeepsSettings(a, p);
      case Steer(_, p) => PromptKeepsSettings(a, p);
      case CodexEvent(id, o, accepted) => EventUpdatesSession(a, id, o, accepted);
      case PermissionResolved(accepted) => ResultKeepsSettings(a, accepted);
      case _ =>
    }
  }

  // ---------------------------------------------------------------------------------------------
  // Submissions, and who waits for them

  /** The reply to a prompt: a fresh receiver, held or answered at once, or the error it met. */
  ghost predicate IsReply(a: Actor, p: PromptInput, b: Actor, reply: PromptReply) {
    match a.slot
    case Some(q) =>
      (match ParseResponse(q.questions, p.text)
       case Err(e) => reply == Err(BadAnswer(e)) && b == a
       case Ok(_) => if p.answerAccepted then JoinsAsked(a, b, q.submissionId, reply) else reply == Err(SubmitRefused))
    case None =>
      (match p.route
       case RefusedPrompt => reply == Err(PromptRefused) && b == a
       case RefusedSubmit(_) => reply == Err(SubmitRefused)
       case Handled(_) => reply == Ok(a.w.issued) && b.w.open == a.w.open + {a.w.issued}
       case SubmittedAs(id, _) =>
         reply == Ok(a.w.issued) && b.w.open == a.w.open + {a.w.issued}
         && id in b.subs && HeldBy(b.subs, id) == [a.w.issued])
  }

  /** The caller joins those who wait for the submission that asked. */
  ghost predicate JoinsAsked(a: Actor, b: Actor, id: string, reply: PromptReply) {
    && reply == Ok(a.w.issued) && b.w.open == a.w.open + {a.w.issued}
    && id in b.subs && HeldBy(b.subs, id) == (if id in a.subs then HeldBy(a.subs, id) else []) + [a.w.issued]
  }

  lemma EnsuredWaiters(a: Actor, id: string)
    ensures var b := EnsureSubmission(a, id);
            && id in b.subs && b.w.open == a.w.open && b.w.issued == a.w.issued
            && HeldBy(b.subs, id) == if id in a.subs then HeldBy(a.subs, id) else []
  {}

  lemma JoiningAddsWaiter(a: Actor, id: string)
    requires id in a.subs
    ensures var b := Put(Issue(a), id, AddSender(Get(Issue(a), id), a.w.issued));
            b.w.open == a.w.open + {a.w.issued} && HeldBy(b.subs, id) == HeldBy(a.subs, id) + [a.w.issued]
  {
    var held := HeldBy(a.subs, id);
    var b := Put(Issue(a), id, AddSender(Get(Issue(a), id), a.w.issued));
    assert HeldBy(b.subs, id) == held + [a.w.issued];
  }

  lemma AnsweringReplies(a: Actor, q: PendingRequest, answers: UserInput.Answers, accepted: bool)
    ensures var (b, reply) := AnswerWith(a, q, answers, accepted);
            if accepted then JoinsAsked(a, b, q.submissionId, reply) else reply == Err(SubmitRefused)
  {
    var a2 := SubmitOp(EnsureSubmission(a, q.submissionId), UserInputAnswer(q.turnId, answers));
    EnsuredWaiters(a, q.submissionId);
    if accepted {
      JoiningAddsWaiter(a2, q.submissionId);
    }
  }

  lemma PromptReplies(a: Actor, p: PromptInput)
    ensures IsReply(a, p, HandlePrompt(a, p).0, HandlePrompt(a, p).1)
  {
    hide ParseResponse;
    if a.slot.Some? {
      var parsed := ParseResponse(a.slot.value.questions, p.text);
      if parsed.Ok? {
        AnsweringReplies(a, a.slot.value, parsed.value, p.answerAccepted);
      }
    }
  }

  /** An event that answers every caller of its submission. */
  predicate EndsWaiting(a: Actor, ev: Event, accepted: bool) {
    match ev
    case End(e) => e.TurnAborted? ==> e.abortedTurn.Some?
    case Request(ExecApprovalRequest(_, _, _, _, _, contentOk)) => !a.fullAccess && !contentOk
    case Request(ElicitationRequest(_, _, supported, _, _)) => !supported && !accepted
    case _ => false
  }

  /** The handled result fails its submission. */
  predicate FailsSubmission(a: Actor, accepted: bool) {
    TakesResult(a) && (a.w.queue[0].response.RequestFailed? || !accepted)
  }

  /** Who waits for a submission after a step. */
  ghost function WaitersAfter(a: Actor, step: Step, id: string): seq<Sender> {
    var before := if id in a.subs then HeldBy(a.subs, id) else [];
    if !Handles(a, step) then before
    else
      match step.input
      case CodexEvent(id', o, accepted) => if id' == id && EndsWaiting(a, o.event, accepted) then [] else before
      case PermissionResolved(accepted) =>
        if FailsSubmission(a, accepted) && a.w.queue[0].submission == id then [] else before
      case input =>
        if PromptOf(input).None? then before
        else
          var p := PromptOf(input).value;
          if a.slot.Some? && a.slot.value.submissionId == id && Answered(a.slot, p) then before + [a.w.issued]
          else if a.slot.None? && p.route.SubmittedAs? && p.route.id == id then [a.w.issued]
          else before
  }

  lemma EventLeavesWaiters(a: Actor, id: string, o: Observed, accepted: bool, other: string)
    requires other in a.subs
    ensures var b := HandleEvent(a, id, o, accepted);
            && b.subs.Keys == a.subs.Keys
            && HeldBy(b.subs, other) == if id == other && EndsWaiting(a, o.event, accepted) then [] else HeldBy(a.subs, other)
  {
    hide ApplyUpdates, StateUpdates;
    if IsRouted(a, o) {
      RoutedEvent(a, id, o, accepted);
      DeliveryLeavesWaiters(a, id, o.event, accepted);
    }
  }

  lemma DeliveryLeavesWaiters(a: Actor, id: string, ev: Event, accepted: bool)
    requires id in a.subs ==> !a.fullAccess || !ev.Request? || !(ev.request.ExecApprovalRequest? || ev.request.PatchApprovalRequest?)
    ensures id in a.subs ==>
              Senders(DeliverEvent(Get(a, id), id, a.capable, ev, accepted).sub.responses)
              == if EndsWaiting(a, ev, accepted) then [] else HeldBy(a.subs, id)
  {}

  lemma TakenLeavesWaiters(a: Actor, other: string)
    requires TakesResult(a) && other in a.subs
    ensures var b := Taken(a);
            b.subs.Keys == a.subs.Keys && a.w.queue[0].submission in b.subs && HeldBy(b.subs, other) == HeldBy(a.subs, other)
  {}

  lemma ResultLeavesWaiters(a: Actor, accepted: bool, other: string)
    requires other in a.subs
    ensures var b := Handle(a, PermissionResolved(accepted));
            && b.subs.Keys == a.subs.Keys
            && HeldBy(b.subs, other)
               == if FailsSubmission(a, accepted) && a.w.queue[0].submission == other then [] else HeldBy(a.subs, other)
  {
    hide HandlePrompt, HandleEvent;
    if TakesResult(a) {
      TakenThenFailed(a, accepted);
      TakenLeavesWaiters(a, other);
    }
  }

  lemma PromptAddsWaiter(a: Actor, p: PromptInput, id: string)
    ensures var b := HandlePrompt(a, p).0;
            id in b.subs ==>
              HeldBy(b.subs, id)
              == if a.slot.Some? && a.slot.value.submissionId == id && Answered(a.slot, p)
                 then (if id in a.subs then HeldBy(a.subs, id) else []) + [a.w.issued]
                 else if a.slot.None? && p.route.SubmittedAs? && p.route.id == id then [a.w.issued]
                 else if id in a.subs then HeldBy(a.subs, id) else []
  {
    hide ParseResponse;
    PromptReplies(a, p);
    if a.slot.Some? {
      var parsed := ParseResponse(a.slot.value.questions, p.text);
      if parsed.Ok? {
        if id != a.slot.value.submissionId || !p.answerAccepted {
          AnsweringLeavesOthers(a, a.slot.value, parsed.value, p.answerAccepted, id);
        }
      }
    }
  }

  lemma AnsweringLeavesOthers(a: Actor, q: PendingRequest, answers: UserInput.Answers, accepted: bool, id: string)
    requires id != q.submissionId || !accepted
    ensures var b := AnswerWith(a, q, answers, accepted).0;
            id in b.subs ==> HeldBy(b.subs, id) == if id in a.subs then HeldBy(a.subs, id) else []
  {}

  lemma MessageLeavesWaiters(a: Actor, input: Input, id: string)
    requires !input.Prompt? && !input.Steer? && !input.PermissionResolved? && !input.CodexEvent?
    ensures id in Handle(a, input).subs ==> id in a.subs && HeldBy(Handle(a, input).subs, id) == HeldBy(a.subs, id)
  {
    hide HandlePrompt, HandleEvent;
  }

  lemma EndOfTurnLeavesWaiters(a: Actor, dropped: set<Sender>, id: string)
    ensures id in EndOfTurn(a, dropped).subs ==>
              id in a.subs && HeldBy(EndOfTurn(a, dropped).subs, id) == HeldBy(a.subs, id)
  {}

  lemma HandledWaiters(a: Actor, step: Step, id: string)
    requires Handles(a, step) && id in Handle(a, step.input).subs
    ensures HeldBy(Handle(a, step.input).subs, id) == WaitersAfter(a, step, id)
  {
    hide HandlePrompt, HandleEvent, HandleResolved;
    match step.input
    case Prompt(p) => PromptAddsWaiter(a, p, id);
    case Steer(_, p) => PromptAddsWaiter(a, p, id);
    case CodexEvent(id', o, accepted) =>
      EventAddsNoSubmission(a, id', o, accepted);
      EventLeavesWaiters(a, id', o, accepted, id);
    case PermissionResolved(accepted) =>
      ResultAddsNoSubmission(a, accepted);
      ResultLeavesWaiters(a, accepted, id);
    case _ => MessageLeavesWaiters(a, step.input, id);
  }

  lemma ResultAddsNoSubmission(a: Actor, accepted: bool)
    ensures Handle(a, PermissionResolved(accepted)).subs.Keys == a.subs.Keys
  {
    hide HandlePrompt, HandleEvent;
  }

  /** Of each submission, those wait after a step who waited before and those the step adds or answers. */
  lemma StepWaiters(a: Actor, step: Step, id: string)
    ensures id in Next(a, step).subs ==> HeldBy(Next(a, step).subs, id) == WaitersAfter(a, step, id)
  {
    hide Handle, EndOfTurn;
    if Handles(a, step) && id in Next(a, step).subs {
      EndOfTurnLeavesWaiters(Handle(a, step.input), step.dropped, id);
      HandledWaiters(a, step, id);
    }
  }

  lemma EventAddsNoSubmission(a: Actor, id: string, o: Observed, accepted: bool)
    ensures HandleEvent(a, id, o, accepted).subs.Keys == a.subs.Keys
  {
    hide ApplyUpdates, StateUpdates;
  }

  /** The submission a prompt starts, or the one whose questions it answers. */
  predicate Inserts(a: Actor, step: Step, id: string) {
    && Handles(a, step) && PromptOf(step.input).Some?
    && var p := PromptOf(step.input).value;
       match a.slot
       case Some(q) => q.submissionId == id && ParseResponse(q.questions, p.text).Ok?
       case None => p.route.SubmittedAs? && p.route.id == id
  }

  lemma PromptInserts(a: Actor, p: PromptInput, id: string)
    ensures id in HandlePrompt(a, p).0.subs <==>
              || id in a.subs
              || (match a.slot
                  case Some(q) => q.submissionId == id && ParseResponse(q.questions, p.text).Ok?
                  case None => p.route.SubmittedAs? && p.route.id == id)
  {
    hide ParseResponse;
    if a.slot.Some? {
      var parsed := ParseResponse(a.slot.value.questions, p.text);
      if parsed.Ok? {
        AnsweringInserts(a, a.slot.value, parsed.value, p.answerAccepted);
      }
    } else {
      StartingInserts(a, p.route);
    }
  }

  lemma AnsweringInserts(a: Actor, q: PendingRequest, answers: UserInput.Answers, accepted: bool)
    ensures AnswerWith(a, q, answers, accepted).0.subs.Keys == a.subs.Keys + {q.submissionId}
  {
    EnsuredWaiters(a, q.submissionId);
    assert EnsureSubmission(a, q.submissionId).subs.Keys == a.subs.Keys + {q.submissionId};
  }

  lemma StartingInserts(a: Actor, route: Route)
    ensures StartPrompt(a, route).0.subs.Keys == a.subs.Keys + if route.SubmittedAs? then {route.id} else {}
  {}

  lemma MessageInsertsNothing(a: Actor, input: Input)
    requires !input.Prompt? && !input.Steer? && !input.CodexEvent?
    ensures Handle(a, input).subs.Keys == if input.EventStreamFailed? then {} else a.subs.Keys
  {
    hide HandlePrompt, HandleEvent;
  }

  lemma HandledSubmissions(a: Actor, step: Step, id: string)
    requires Handles(a, step)
    ensures id in Handle(a, step.input).subs <==>
              !step.input.EventStreamFailed? && (id in a.subs || Inserts(a, step, id))
  {
    match step.input
    case Prompt(p) => PromptInserts(a, p, id);
    case Steer(_, p) => PromptInserts(a, p, id);
    case CodexEvent(id', o, accepted) => EventAddsNoSubmission(a, id', o, accepted);
    case _ => MessageInsertsNothing(a, step.input);
  }

  /** Whom anybody waits for, or whose questions are pending. */
  ghost predicate IsWanted(waiters: seq<Sender>, open: set<Sender>, slot: Slot, id: string) {
    || (exists x :: x in waiters && x in open)
    || (slot.Some? && slot.value.submissionId == id)
  }

  lemma SweepLeavesWanted(a: Actor, dropped: set<Sender>, id: string)
    requires !a.status.EventStreamLost?
    ensures var b := EndOfTurn(a, dropped);
            && b.w.open == a.w.open - dropped
            && (id in b.subs <==> id in a.subs && IsWanted(HeldBy(a.subs, id), b.w.open, b.slot, id))
  {
    if id in a.subs {
      ActiveMeansOpenSender(a.subs[id].responses, a.w.open - dropped);
    }
  }

  /**
   The submissions after a step: those before it and the one it starts, as long as somebody waits for
   them or their questions are pending; none when events fail.
   */
  lemma StepSubmissions(a: Actor, step: Step, id: string)
    ensures var b := Next(a, step);
            id in b.subs <==>
              if !Handles(a, step) then id in a.subs
              else && !step.input.EventStreamFailed?
                   && (id in a.subs || Inserts(a, step, id))
                   && IsWanted(WaitersAfter(a, step, id), b.w.open, b.slot, id)
  {
    hide Handle;
    if Handles(a, step) {
      HandledSubmissions(a, step, id);
      if !step.input.EventStreamFailed? {
        MessagesKeepStatus(a, step.input);
        SweepLeavesWanted(Handle(a, step.input), step.dropped, id);
        if id in Handle(a, step.input).subs {
          HandledWaiters(a, step, id);
        }
      }
    }
  }

  // ---------------------------------------------------------------------------------------------
  // What becomes of permission tasks

  /** The step aborts what is pending of this submission, but for the interaction it takes. */
  predicate Aborts(a: Actor, step: Step, task: Task) {
    && Handles(a, step)
    && match step.input
       case CancelTurn => true
       case ShutdownSession => true
       case CodexEvent(id, o, _) => id == task.submission && EndsTurn(o.event)
       case PermissionResolved(accepted) =>
         FailsSubmission(a, accepted) && a.w.queue[0].submission == task.submission && a.w.queue[0].key != task.key
       case _ => false
  }

  /** The step handles a result for this interaction. */
  predicate Takes(a: Actor, step: Step, task: Task) {
    && Handles(a, step) && step.input.PermissionResolved? && TakesResult(a)
    && a.w.queue[0].submission == task.submission && a.w.queue[0].key == task.key
  }

  /** The step asks the client again under the same key. */
  predicate AsksAgain(a: Actor, step: Step, task: Task) {
    && Handles(a, step) && step.input.CodexEvent? && step.input.id == task.submission
    && var ev := step.input.observed.event;
       && ev.Request? && RequestKey(ev.request) == task.key && AsksClient(ev.request)
       && !(a.fullAccess && (ev.request.ExecApprovalRequest? || ev.request.PatchApprovalRequest?))
  }

  /** What a step makes of a pending task, before submissions are swept. */
  function FateFrom(a: Actor, step: Step, task: Task): Fate {
    if Aborts(a, step, task) then Aborted
    else if Takes(a, step, task) then (if a.w.queue[0].response.Replied? then Resolved else Failed)
    else if AsksAgain(a, step, task) then Replaced
    else Pending
  }

  ghost predicate FateIs(tasks: seq<Task>, t: TaskId, fate: Fate) {
    t < |tasks| && if fate.Pending? then tasks[t].fate.Pending? || tasks[t].fate.Dropped? else tasks[t].fate == fate
  }

  lemma PendingIsHeld(a: Actor, t: TaskId)
    requires Inv(a) && t < |a.w.tasks| && a.w.tasks[t].fate.Pending?
    ensures var task := a.w.tasks[t];
            && task.submission in a.subs && task.key in a.subs[task.submission].interactions
            && a.subs[task.submission].interactions[task.key].task == t
    ensures forall id, k :: id in a.subs && k in a.subs[id].interactions && a.subs[id].interactions[k].task == t ==>
              id == a.w.tasks[t].submission && k == a.w.tasks[t].key
  {
    assert TaskHeld(a.subs, t, a.w.tasks[t]);
    forall id, k | id in a.subs && k in a.subs[id].interactions && a.subs[id].interactions[k].task == t
      ensures id == a.w.tasks[t].submission && k == a.w.tasks[t].key
    {
      assert EntryOk(a.w.tasks, id, k, a.subs[id].interactions[k]);
    }
  }

  lemma AbortingFates(a: Actor, t: TaskId, op: Op)
    requires Inv(a) && t < |a.w.tasks| && a.w.tasks[t].fate.Pending?
    ensures SubmitOp(AbortEverything(a), op).w.tasks[t].fate.Aborted?
  {
    PendingIsHeld(a, t);
    assert t in TasksOutside(a.subs, {});
  }

  lemma DeliveryFates(a: Actor, id: string, ev: Event, accepted: bool, t: TaskId)
    requires Inv(a) && t < |a.w.tasks| && a.w.tasks[t].fate.Pending? && id in a.subs
    ensures var task, b := a.w.tasks[t], DeliverEvent(Get(a, id), id, a.capable, ev, accepted);
            FateIs(b.w.tasks, t, if id == task.submission && EndsTurn(ev) then Aborted
                                 else if id == task.submission && ev.Request? && AsksClient(ev.request)
                                         && RequestKey(ev.request) == task.key then Replaced
                                 else Pending)
  {
    PendingIsHeld(a, t);
    var task, interactions := a.w.tasks[t], a.subs[id].interactions;
    assert t in TasksOf(interactions) <==> id == task.submission;
  }

  /** What an event makes of a pending task. */
  function FateFromEvent(a: Actor, id: string, ev: Event, task: Task): Fate {
    if id != task.submission then Pending
    else if EndsTurn(ev) then Aborted
    else if ev.Request? && AsksClient(ev.request) && RequestKey(ev.request) == task.key
            && !(a.fullAccess && (ev.request.ExecApprovalRequest? || ev.request.PatchApprovalRequest?)) then Replaced
    else Pending
  }

  lemma FateOfEvent(a: Actor, id: string, o: Observed, accepted: bool, dropped: set<Sender>, task: Task)
    requires a.status.Running?
    ensures FateFrom(a, ActorTurn(CodexEvent(id, o, accepted), dropped), task) == FateFromEvent(a, id, o.event, task)
  {}

  lemma UnroutedFates(a: Actor, id: string, o: Observed, accepted: bool, t: TaskId)
    requires t < |a.w.tasks| && a.w.tasks[t].fate.Pending? && !IsRouted(a, o)
    ensures FateIs(HandleEvent(a, id, o, accepted).w.tasks, t, Pending)
    ensures FateFromEvent(a, id, o.event, a.w.tasks[t]) == Pending
  {
    hide ApplyUpdates, StateUpdates;
  }

  lemma RoutedFates(a: Actor, id: string, o: Observed, accepted: bool, t: TaskId)
    requires Inv(a) && t < |a.w.tasks| && a.w.tasks[t].fate.Pending? && IsRouted(a, o)
    ensures FateIs(HandleEvent(a, id, o, accepted).w.tasks, t, FateFromEvent(a, id, o.event, a.w.tasks[t]))
  {
    hide HandleEvent, DeliverEvent, ApplyUpdates, StateUpdates;
    PendingIsHeld(a, t);
    RoutedEvent(a, id, o, accepted);
    if id in a.subs {
      DeliveryFates(a, id, o.event, accepted, t);
    }
  }

  lemma EventFates(a: Actor, id: string, o: Observed, accepted: bool, t: TaskId, dropped: set<Sender>)
    requires Inv(a) && a.status.Running? && t < |a.w.tasks| && a.w.tasks[t].fate.Pending?
    ensures FateIs(HandleEvent(a, id, o, accepted).w.tasks, t,
                   FateFrom(a, ActorTurn(CodexEvent(id, o, accepted), dropped), a.w.tasks[t]))
  {
    hide HandleEvent, FateFrom, FateFromEvent;
    FateOfEvent(a, id, o, accepted, dropped, a.w.tasks[t]);
    if IsRouted(a, o) {
      RoutedFates(a, id, o, accepted, t);
    } else {
      UnroutedFates(a, id, o, accepted, t);
    }
  }

  /** The tasks of a submission, but for the one under a key. */
  lemma RestOfTasks(a: Actor, id: string, key: string, t: TaskId)
    requires Inv(a) && t < |a.w.tasks| && a.w.tasks[t].fate.Pending? && id in a.subs
    ensures t in TasksOf(a.subs[id].interactions - {key}) <==> id == a.w.tasks[t].submission && key != a.w.tasks[t].key
  {
    PendingIsHeld(a, t);
    var rest := a.subs[id].interactions - {key};
    if t in TasksOf(rest) {
      var k :| k in rest && rest[k].task == t;
      assert a.subs[id].interactions[k].task == t;
    }
    if id == a.w.tasks[t].submission && key != a.w.tasks[t].key {
      assert a.w.tasks[t].key in rest;
    }
  }

  /** Taking a result ends the interaction under its key, and no other. */
  lemma TakenFates(a: Actor, t: TaskId)
    requires Inv(a) && TakesResult(a) && t < |a.w.tasks| && a.w.tasks[t].fate.Pending?
    ensures var task, m, b := a.w.tasks[t], a.w.queue[0], Taken(a);
            && m.submission in b.subs
            && b.subs[m.submission].interactions == a.subs[m.submission].interactions - {m.key}
            && t < |b.w.tasks|
            && b.w.tasks[t].fate
               == if m.submission == task.submission && m.key == task.key
                  then (if m.response.Replied? then Resolved else Failed) else Pending
  {
    PendingIsHeld(a, t);
  }

  lemma FailingFates(b: Actor, id: string, r: PromptResult, t: TaskId)
    requires id in b.subs && t < |b.w.tasks|
    ensures var c := Put(b, id, SendResult(AbortAll(Get(b, id)), r));
            t < |c.w.tasks|
            && c.w.tasks[t].fate == if t in TasksOf(b.subs[id].interactions) then Aborted else b.w.tasks[t].fate
  {}

  lemma TakenThenFailed(a: Actor, accepted: bool)
    requires TakesResult(a)
    ensures var b, m := Taken(a), a.w.queue[0];
            m.submission in b.subs
            && Handle(a, PermissionResolved(accepted))
               == if FailsSubmission(a, accepted)
                  then Put(b, m.submission, SendResult(AbortAll(Get(b, m.submission)), ResolveFailure(m, accepted).value))
                  else b
  {
    hide HandlePrompt, HandleEvent;
    ResolvedIsTakenThenFailed(a, accepted);
  }

  lemma TakenResultFates(a: Actor, accepted: bool, t: TaskId)
    requires Inv(a) && TakesResult(a) && t < |a.w.tasks| && a.w.tasks[t].fate.Pending?
    ensures var b, m, task := Handle(a, PermissionResolved(accepted)), a.w.queue[0], a.w.tasks[t];
            t < |b.w.tasks|
            && b.w.tasks[t].fate
               == if m.submission == task.submission && m.key == task.key
                  then (if m.response.Replied? then Resolved else Failed)
                  else if m.submission == task.submission && FailsSubmission(a, accepted) then Aborted
                  else Pending
  {
    var m := a.w.queue[0];
    TakenFates(a, t);
    RestOfTasks(a, m.submission, m.key, t);
    TakenThenFailed(a, accepted);
    if FailsSubmission(a, accepted) {
      FailingFates(Taken(a), m.submission, ResolveFailure(m, accepted).value, t);
    }
  }

  lemma ResultFates(a: Actor, accepted: bool, t: TaskId, dropped: set<Sender>)
    requires Inv(a) && a.status.Running? && t < |a.w.tasks| && a.w.tasks[t].fate.Pending?
    ensures FateIs(Handle(a, PermissionResolved(accepted)).w.tasks, t,
                   FateFrom(a, ActorTurn(PermissionResolved(accepted), dropped), a.w.tasks[t]))
  {
    if TakesResult(a) {
      TakenResultFates(a, accepted, t);
    } else {
      UntakenFates(a, accepted, t);
    }
  }

  lemma UntakenFates(a: Actor, accepted: bool, t: TaskId)
    requires !TakesResult(a) && t < |a.w.tasks|
    ensures var b := Handle(a, PermissionResolved(accepted));
            t < |b.w.tasks| && b.w.tasks[t].fate == a.w.tasks[t].fate
  {
    hide HandlePrompt, HandleEvent;
  }

  lemma RetainFates(a: Actor, keep: set<string>, t: TaskId)
    requires t < |a.w.tasks| && a.w.tasks[t].fate.Pending?
    ensures FateIs(Retain(a, keep).w.tasks, t, Pending)
  {}

  lemma AnsweringFates(a: Actor, q: PendingRequest, answers: UserInput.Answers, accepted: bool, t: TaskId)
    requires t < |a.w.tasks| && a.w.tasks[t].fate.Pending?
    ensures FateIs(AnswerWith(a, q, answers, accepted).0.w.tasks, t, Pending)
  {}

  lemma PromptFates(a: Actor, p: PromptInput, t: TaskId)
    requires t < |a.w.tasks| && a.w.tasks[t].fate.Pending?
    ensures FateIs(HandlePrompt(a, p).0.w.tasks, t, Pending)
  {
    hide ParseResponse;
    if a.slot.Some? {
      var parsed := ParseResponse(a.slot.value.questions, p.text);
      if parsed.Ok? {
        AnsweringFates(a, a.slot.value, parsed.value, p.answerAccepted, t);
      }
    }
  }

  lemma FateOfMessage(a: Actor, step: Step, task: Task)
    requires Handles(a, step) && !step.input.CodexEvent? && !step.input.PermissionResolved?
    ensures FateFrom(a, step, task) == if step.input.CancelTurn? || step.input.ShutdownSession? then Aborted else Pending
  {}

  lemma MessageFates(a: Actor, input: Input, t: TaskId)
    requires Inv(a) && t < |a.w.tasks| && a.w.tasks[t].fate.Pending? && !input.CodexEvent? && !input.PermissionResolved?
    ensures FateIs(Handle(a, input).w.tasks, t, if input.CancelTurn? || input.ShutdownSession? then Aborted else Pending)
  {
    hide HandlePrompt, HandleEvent, HandleResolved;
    match input
    case Prompt(p) => PromptFates(a, p, t);
    case Steer(_, p) => PromptFates(a, p, t);
    case CancelTurn => AbortingFates(a, t, Interrupt);
    case ShutdownSession => AbortingFates(a, t, Shutdown);
    case EventStreamFailed => RetainFates(a, {}, t);
    case _ =>
  }

  lemma HandledFates(a: Actor, step: Step, t: TaskId)
    requires Inv(a) && Handles(a, step) && t < |a.w.tasks| && a.w.tasks[t].fate.Pending?
    ensures FateIs(Handle(a, step.input).w.tasks, t, FateFrom(a, step, a.w.tasks[t]))
  {
    hide HandleEvent, FateFrom;
    match step.input
    case CodexEvent(id, o, accepted) => EventFates(a, id, o, accepted, t, step.dropped);
    case PermissionResolved(accepted) => ResultFates(a, accepted, t, step.dropped);
    case input =>
      FateOfMessage(a, step, a.w.tasks[t]);
      MessageFates(a, input, t);
  }

  /** A task is still that of the interaction under its key. */
  ghost predicate IsHeld(subs: map<string, Submission>, t: TaskId, task: Task) {
    && task.submission in subs && task.key in subs[task.submission].interactions
    && subs[task.submission].interactions[task.key].task == t
  }

  lemma PendingExactlyWhenHeld(a: Actor, t: TaskId)
    requires Inv(a) && t < |a.w.tasks|
    ensures a.w.tasks[t].fate.Pending? <==> IsHeld(a.subs, t, a.w.tasks[t])
  {
    var task := a.w.tasks[t];
    if task.fate.Pending? {
      PendingIsHeld(a, t);
    }
    if IsHeld(a.subs, t, task) {
      assert EntryOk(a.w.tasks, task.submission, task.key, a.subs[task.submission].interactions[task.key]);
    }
  }

  lemma RetainLeavesEnded(a: Actor, keep: set<string>, t: TaskId)
    requires Inv(a) && t < |a.w.tasks| && !a.w.tasks[t].fate.Pending?
    ensures t < |Retain(a, keep).w.tasks| && Retain(a, keep).w.tasks[t].fate == a.w.tasks[t].fate
  {
    forall id, k | id in a.subs && k in a.subs[id].interactions ensures a.subs[id].interactions[k].task != t {
      assert EntryOk(a.w.tasks, id, k, a.subs[id].interactions[k]);
    }
  }

  lemma EndOfTurnFates(a: Actor, dropped: set<Sender>, t: TaskId)
    requires Inv(a) && t < |a.w.tasks|
    ensures var b := EndOfTurn(a, dropped);
            t < |b.w.tasks| && (if a.w.tasks[t].fate.Pending? then FateIs(b.w.tasks, t, Pending)
                                else b.w.tasks[t].fate == a.w.tasks[t].fate)
  {
    if !a.status.EventStreamLost? {
      var a' := a.(w := DropReceivers(a.w, dropped));
      DropReceiversKeeps(a, dropped);
      if a.w.tasks[t].fate.Pending? {
        RetainFates(a', Kept(a'), t);
      } else {
        RetainLeavesEnded(a', Kept(a'), t);
      }
    }
  }

  /**
   What a step makes of a pending permission task: it is aborted, resolved, failed or replaced exactly
   as the step says, and otherwise dropped unless its submission still holds it.
   */
  lemma StepFates(a: Actor, step: Step, t: TaskId)
    requires Inv(a) && t < |a.w.tasks| && a.w.tasks[t].fate.Pending?
    ensures var b := Next(a, step); var task := a.w.tasks[t];
            t < |b.w.tasks|
            && b.w.tasks[t].fate
               == if !FateFrom(a, step, task).Pending? then FateFrom(a, step, task)
                  else if IsHeld(b.subs, t, task) then Pending else Dropped
  {
    hide Handle, EndOfTurn;
    NextKeeps(a, step);
    PendingExactlyWhenHeld(Next(a, step), t);
    if Handles(a, step) {
      HandledFates(a, step, t);
      HandleKeeps(a, step.input);
      EndOfTurnFates(Handle(a, step.input), step.dropped, t);
    }
  }

  // ---------------------------------------------------------------------------------------------
  // How far permission tasks get

  predicate Stops(fate: Fate) {
    fate.Aborted? || fate.Replaced?
  }

  /** A task is stopped exactly when it is aborted or replaced while it waits for the client. */
  predicate PhaseFollows(before: Task, after: Task) {
    && (after.phase == before.phase || (before.phase.Waiting? && after.phase.Stopped? && Stops(after.fate)))
    && (before.fate != after.fate && Stops(after.fate) && before.phase.Waiting? ==> after.phase.Stopped?)
  }

  ghost predicate PhasesFollow(w: World, w': World) {
    |w.tasks| <= |w'.tasks| && forall t :: 0 <= t < |w.tasks| ==> PhaseFollows(w.tasks[t], w'.tasks[t])
  }

  lemma DeliveryPhases(a: Actor, id: string, ev: Event, accepted: bool)
    requires id in a.subs
    ensures PhasesFollow(a.w, DeliverEvent(Get(a, id), id, a.capable, ev, accepted).w)
  {}

  lemma EventPhases(a: Actor, id: string, o: Observed, accepted: bool)
    ensures PhasesFollow(a.w, HandleEvent(a, id, o, accepted).w)
  {
    if IsRouted(a, o) {
      RoutedEvent(a, id, o, accepted);
      if id in a.subs {
        DeliveryPhases(a, id, o.event, accepted);
      }
    }
  }

  lemma AnsweringPhases(a: Actor, q: PendingRequest, answers: UserInput.Answers, accepted: bool)
    ensures PhasesFollow(a.w, AnswerWith(a, q, answers, accepted).0.w)
  {}

  lemma PromptPhases(a: Actor, p: PromptInput)
    ensures PhasesFollow(a.w, HandlePrompt(a, p).0.w)
  {
    hide ParseResponse;
    if a.slot.Some? {
      var parsed := ParseResponse(a.slot.value.questions, p.text);
      if parsed.Ok? {
        AnsweringPhases(a, a.slot.value, parsed.value, p.answerAccepted);
      }
    }
  }

  lemma MessagePhases(a: Actor, input: Input)
    requires !input.Prompt? && !input.Steer? && !input.CodexEvent? && !input.PermissionResolved?
    ensures PhasesFollow(a.w, Handle(a, input).w)
  {
    hide HandlePrompt, HandleEvent;
  }

  /** Phases are the same, and nothing is aborted or replaced. */
  ghost predicate OnlyEnds(w: World, w': World) {
    |w.tasks| == |w'.tasks|
    && forall t :: 0 <= t < |w.tasks| ==>
         && w'.tasks[t].phase == w.tasks[t].phase
         && (w'.tasks[t].fate == w.tasks[t].fate || !Stops(w'.tasks[t].fate))
  }

  lemma TakenPhases(a: Actor)
    requires TakesResult(a)
    ensures OnlyEnds(Receive(a.w), Taken(a).w)
  {}

  lemma FailingPhases(b: Actor, id: string, r: PromptResult)
    requires id in b.subs
    ensures PhasesFollow(b.w, Put(b, id, SendResult(AbortAll(Get(b, id)), r)).w)
  {}

  lemma PhasesThenFollow(w: World, w1: World, w2: World)
    requires OnlyEnds(w, w1) && PhasesFollow(w1, w2)
    ensures PhasesFollow(w, w2)
  {}

  /** Handling a result consumes it; the other tasks are aborted or left. */
  lemma ResultPhases(a: Actor, accepted: bool)
    requires a.w.queue != []
    ensures PhasesFollow(Receive(a.w), Handle(a, PermissionResolved(accepted)).w)
  {
    hide HandlePrompt, HandleEvent;
    if TakesResult(a) {
      var m := a.w.queue[0];
      TakenThenFailed(a, accepted);
      TakenPhases(a);
      if FailsSubmission(a, accepted) {
        FailingPhases(Taken(a), m.submission, ResolveFailure(m, accepted).value);
        PhasesThenFollow(Receive(a.w), Taken(a).w, Handle(a, PermissionResolved(accepted)).w);
      }
    } else {
      assert Handle(a, PermissionResolved(accepted)).w == Receive(a.w);
    }
  }

  lemma EndOfTurnPhases(a: Actor, dropped: set<Sender>)
    ensures |EndOfTurn(a, dropped).w.tasks| == |a.w.tasks|
    ensures forall t :: 0 <= t < |a.w.tasks| ==> EndOfTurn(a, dropped).w.tasks[t].phase == a.w.tasks[t].phase
  {
    EndOfTurnKeepsTask(a, dropped);
  }

  /** The step takes the queued result of this task. */
  predicate Consumes(a: Actor, step: Step, t: TaskId) {
    Handles(a, step) && step.input.PermissionResolved? && a.w.queue != [] && a.w.queue[0].task == t
  }

  lemma HandledPhases(a: Actor, step: Step)
    requires Handles(a, step)
    ensures PhasesFollow(if step.input.PermissionResolved? && a.w.queue != [] then Receive(a.w) else a.w,
                         Handle(a, step.input).w)
  {
    hide HandlePrompt, HandleEvent, HandleResolved;
    match step.input
    case Prompt(p) => PromptPhases(a, p);
    case Steer(_, p) => PromptPhases(a, p);
    case CodexEvent(id, o, accepted) => EventPhases(a, id, o, accepted);
    case PermissionResolved(accepted) =>
      if a.w.queue != [] {
        ResultPhases(a, accepted);
      }
    case _ => MessagePhases(a, step.input);
  }

  /**
   How far a pending task gets in a step: the client's reply answers it while it waits, it then queues
   its result, which the actor consumes; and it is stopped exactly when it is aborted or replaced while
   it waits. Whatever else becomes of it, it goes on.
   */
  lemma StepPhases(a: Actor, step: Step, t: TaskId)
    requires Inv(a) && t < |a.w.tasks| && a.w.tasks[t].fate.Pending?
    ensures var before, b := a.w.tasks[t], Next(a, step);
            t < |b.w.tasks|
            && b.w.tasks[t].phase
               == match step
                  case ClientReply(t', response) =>
                    if t' == t && before.phase.Waiting? then Responded(response) else before.phase
                  case TaskSend(t') => if t' == t && before.phase.Responded? then Queued else before.phase
                  case _ =>
                    if Consumes(a, step, t) then Consumed
                    else if before.phase.Waiting? && Stops(b.w.tasks[t].fate) then Stopped
                    else before.phase
  {
    if Handles(a, step) {
      TurnPhases(a, step, t);
    }
  }

  lemma TurnPhases(a: Actor, step: Step, t: TaskId)
    requires Inv(a) && Handles(a, step) && t < |a.w.tasks| && a.w.tasks[t].fate.Pending?
    ensures var before, b := a.w.tasks[t], Next(a, step);
            t < |b.w.tasks|
            && b.w.tasks[t].phase == if Consumes(a, step, t) then Consumed
                                     else if before.phase.Waiting? && Stops(b.w.tasks[t].fate) then Stopped
                                     else before.phase
  {
    hide Handle, EndOfTurn;
    var h := Handle(a, step.input);
    HandledPhases(a, step);
    TaskBeforeHandling(a, step, t);
    HandleKeeps(a, step.input);
    EndOfTurnPhases(h, step.dropped);
    EndOfTurnFates(h, step.dropped, t);
  }

  lemma TaskBeforeHandling(a: Actor, step: Step, t: TaskId)
    requires Inv(a) && Handles(a, step) && t < |a.w.tasks| && a.w.tasks[t].fate.Pending?
    requires PhasesFollow(if step.input.PermissionResolved? && a.w.queue != [] then Receive(a.w) else a.w,
                          Handle(a, step.input).w)
    ensures t < |Handle(a, step.input).w.tasks|
    ensures var before, after := a.w.tasks[t], Handle(a, step.input).w.tasks[t];
            if Consumes(a, step, t) then after.phase.Consumed? && !before.phase.Waiting?
            else PhaseFollows(before, after)
  {
    if Consumes(a, step, t) {
      assert a.w.tasks[a.w.queue[0].task].phase.Queued?;
    }
  }

  /** The request a step asks the client, and for which submission. */
  function Asks(a: Actor, step: Step): Option<(string, RequestEvent)> {
    if Handles(a, step) && step.input.CodexEvent? && step.input.observed.event.Request? then
      var id, r := step.input.id, step.input.observed.event.request;
      if id in a.subs && AsksClient(r) && !(a.fullAccess && (r.ExecApprovalRequest? || r.PatchApprovalRequest?))
      then Some((id, r)) else None
    else None
  }

  /** The tasks of a, and one for the request asked. */
  ghost predicate Starts(a: Actor, b: Actor, asked: Option<(string, RequestEvent)>) {
    && |b.w.tasks| == |a.w.tasks| + (if asked.Some? then 1 else 0)
    && (asked.Some? ==> b.w.tasks[|a.w.tasks|] == Task(asked.value.0, RequestKey(asked.value.1), Waiting, Pending))
  }

  lemma DeliveryStarts(a: Actor, id: string, ev: Event, accepted: bool)
    requires id in a.subs
    ensures Starts(a, Put(a, id, DeliverEvent(Get(a, id), id, a.capable, ev, accepted)),
                   if ev.Request? && AsksClient(ev.request) then Some((id, ev.request)) else None)
  {}

  lemma EventStarts(a: Actor, id: string, o: Observed, accepted: bool, dropped: set<Sender>)
    requires a.status.Running?
    ensures Starts(a, HandleEvent(a, id, o, accepted), Asks(a, ActorTurn(CodexEvent(id, o, accepted), dropped)))
  {
    if IsRouted(a, o) {
      RoutedEvent(a, id, o, accepted);
      if id in a.subs {
        DeliveryStarts(a, id, o.event, accepted);
      }
    }
  }

  lemma PromptStartsNone(a: Actor, p: PromptInput)
    ensures |HandlePrompt(a, p).0.w.tasks| == |a.w.tasks|
  {
    hide ParseResponse;
    if a.slot.Some? {
      var parsed := ParseResponse(a.slot.value.questions, p.text);
      if parsed.Ok? {
        AnsweringStartsNone(a, a.slot.value, parsed.value, p.answerAccepted);
      }
    }
  }

  lemma AnsweringStartsNone(a: Actor, q: PendingRequest, answers: UserInput.Answers, accepted: bool)
    ensures |AnswerWith(a, q, answers, accepted).0.w.tasks| == |a.w.tasks|
  {}

  lemma ResultStartsNone(a: Actor, accepted: bool)
    ensures |Handle(a, PermissionResolved(accepted)).w.tasks| == |a.w.tasks|
  {
    hide HandlePrompt, HandleEvent;
  }

  lemma MessageStartsNone(a: Actor, input: Input)
    requires !input.Prompt? && !input.Steer? && !input.CodexEvent?
    ensures |Handle(a, input).w.tasks| == |a.w.tasks|
  {
    hide HandlePrompt, HandleEvent, HandleResolved;
    match input
    case PermissionResolved(accepted) => ResultStartsNone(a, accepted);
    case _ =>
  }

  lemma HandledStarts(a: Actor, step: Step)
    requires Handles(a, step)
    ensures Starts(a, Handle(a, step.input), Asks(a, step))
  {
    hide HandlePrompt, HandleEvent, HandleResolved;
    match step.input
    case Prompt(p) => PromptStartsNone(a, p);
    case Steer(_, p) => PromptStartsNone(a, p);
    case CodexEvent(id, o, accepted) => EventStarts(a, id, o, accepted, step.dropped);
    case _ => MessageStartsNone(a, step.input);
  }

  lemma EndOfTurnKeepsTask(a: Actor, dropped: set<Sender>)
    ensures |EndOfTurn(a, dropped).w.tasks| == |a.w.tasks|
    ensures forall t :: 0 <= t < |a.w.tasks| ==>
              var task := EndOfTurn(a, dropped).w.tasks[t];
              task == a.w.tasks[t] || task == a.w.tasks[t].(fate := Dropped)
  {}

  /** Each request asked starts one task, waiting under its key, and nothing else starts any. */
  lemma StepStarts(a: Actor, step: Step)
    ensures var b, asked := Next(a, step), Asks(a, step);
            && |b.w.tasks| == |a.w.tasks| + (if asked.Some? then 1 else 0)
            && (asked.Some? ==>
                  var task := b.w.tasks[|a.w.tasks|];
                  && task.submission == asked.value.0 && task.key == RequestKey(asked.value.1)
                  && task.phase.Waiting? && (task.fate.Pending? || task.fate.Dropped?))
  {
    hide Handle, EndOfTurn;
    if Handles(a, step) {
      HandledStarts(a, step);
      EndOfTurnKeepsTask(Handle(a, step.input), step.dropped);
    }
  }

  /** The step ends this permission task so; one just started may be dropped by the sweep of the same turn. */
  ghost predicate Ends(a: Actor, step: Step, t: TaskId, fate: Fate) {
    if t < |a.w.tasks| then
      var task := a.w.tasks[t];
      && task.fate.Pending?
      && if FateFrom(a, step, task).Pending? then fate.Dropped? && !IsHeld(Next(a, step).subs, t, task)
         else fate == FateFrom(a, step, task)
    else
      t == |a.w.tasks| && fate.Dropped? && t < |Next(a, step).w.tasks| && Next(a, step).w.tasks[t].fate.Dropped?
  }

  lemma StepEnds(a: Actor, step: Step, t: TaskId, fate: Fate)
    requires Inv(a) && t < |Next(a, step).w.tasks| && !fate.Pending?
    ensures Next(a, step).w.tasks[t].fate == fate <==>
              (t < |a.w.tasks| && a.w.tasks[t].fate == fate) || Ends(a, step, t, fate)
  {
    if t < |a.w.tasks| {
      if a.w.tasks[t].fate.Pending? {
        StepFates(a, step, t);
      } else {
        NextKeeps(a, step);
      }
    } else {
      StepStarts(a, step);
    }
  }

  ghost predicate EndsAt(a: Actor, steps: seq<Step>, k: nat, t: TaskId, fate: Fate) {
    k < |steps| && Ends(Run(a, steps[..k]), steps[k], t, fate)
  }

  lemma EndedMeansStarted(a: Actor, step: Step, t: TaskId, fate: Fate)
    requires Inv(a) && Ends(a, step, t, fate)
    ensures t < |Next(a, step).w.tasks|
  {
    NextKeeps(a, step);
  }

  /**
   Over every run, a permission task ended in some way exactly when a step ended it so: it was resolved
   or failed by the result taken for it, aborted by the end of its turn, by a cancel or by a failure
   beside it, replaced by the next request under its key, or dropped with its submission.
   */
  lemma {:induction false} FatesHaveOrigins(a: Actor, steps: seq<Step>, t: TaskId, fate: Fate)
    requires Inv(a) && !fate.Pending?
    ensures t < |Run(a, steps).w.tasks| && Run(a, steps).w.tasks[t].fate == fate <==>
              (t < |a.w.tasks| && a.w.tasks[t].fate == fate) || exists k: nat :: EndsAt(a, steps, k, t, fate)
    decreases |steps|
  {
    hide Ends, Next;
    if steps != [] {
      var n := |steps| - 1;
      var init, b := steps[..n], Run(a, steps[..n]);
      FatesHaveOrigins(a, init, t, fate);
      RunKeeps(a, init);
      NextKeeps(b, steps[n]);
      if t < |Run(a, steps).w.tasks| {
        StepEnds(b, steps[n], t, fate);
      } else if Ends(b, steps[n], t, fate) {
        EndedMeansStarted(b, steps[n], t, fate);
      }
      EndsAtPrefix(a, steps, t, fate);
    }
  }

  lemma EndsAtPrefix(a: Actor, steps: seq<Step>, t: TaskId, fate: Fate)
    requires steps != []
    ensures var n := |steps| - 1;
            (exists k: nat :: EndsAt(a, steps, k, t, fate))
            <==> (exists k: nat :: EndsAt(a, steps[..n], k, t, fate)) || Ends(Run(a, steps[..n]), steps[n], t, fate)
  {
    hide Ends;
    var n := |steps| - 1;
    var init := steps[..n];
    if k: nat :| EndsAt(a, init, k, t, fate) {
      assert init[..k] == steps[..k];
      assert EndsAt(a, steps, k, t, fate);
    }
    if Ends(Run(a, init), steps[n], t, fate) {
      assert EndsAt(a, steps, n, t, fate);
    }
    if k: nat :| EndsAt(a, steps, k, t, fate) {
      assert k < n ==> init[..k] == steps[..k] && EndsAt(a, init, k, t, fate);
    }
  }
}
