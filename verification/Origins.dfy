/**
 Where each result and each operation of a run comes from: the step that caused it, told from what the
 actor had before that step.
 */
module Origins {
  import opened Wrappers
  import opened Approval
  import opened UserInput
  import opened Events
  import opened SessionState
  import Streams
  import opened Runtime
  import opened SubmissionModel
  import opened ActorModel
  import opened ActorInvariants

  /** The message, result or event a running actor handles in a step. */
  predicate Handles(a: Actor, step: Step) {
    step.ActorTurn? && a.status.Running?
  }

  /** The first queued result, if it is for a pending interaction. */
  predicate TakesResult(a: Actor) {
    && a.w.queue != []
    && a.w.queue[0].submission in a.subs && a.w.queue[0].key in a.subs[a.w.queue[0].submission].interactions
  }

  /** The prompt a message brings. */
  function PromptOf(input: Input): Option<PromptInput> {
    match input
    case Prompt(p) => Some(p)
    case Steer(NoActiveTurn, p) => Some(p)
    case _ => None
  }

  // ---------------------------------------------------------------------------------------------
  // Results

  /** The event answers this caller so. */
  ghost predicate EventAnswers(a: Actor, id: string, ev: Event, accepted: bool, s: Sent) {
    && id in a.subs && s.sender in HeldBy(a.subs, id)
    && match ev
       case End(TurnComplete(_)) => s.result == Ok(EndTurn)
       case End(TurnAborted(turn)) => turn.Some? && s.result == Ok(StopReason.Cancelled)
       case End(ShutdownComplete) => s.result == Ok(StopReason.Cancelled)
       case End(Error(message)) => s.result == Err(message)
       case Request(ExecApprovalRequest(_, _, _, _, _, contentOk)) =>
         !a.fullAccess && !contentOk && s.result == Err("content")
       case Request(ElicitationRequest(_, _, supported, _, _)) =>
         !supported && !accepted && s.result == Err("submit failed")
       case _ => false
  }

  /** The handled permission result fails this caller so. */
  ghost predicate ResultFails(a: Actor, accepted: bool, s: Sent) {
    && TakesResult(a) && s.sender in HeldBy(a.subs, a.w.queue[0].submission)
    && match a.w.queue[0].response
       case RequestFailed(error) => s.result == Err(error)
       case Replied(_) => !accepted && s.result == Err("submit failed")
  }

  /** The step hands out this result. */
  ghost predicate Answers(a: Actor, step: Step, s: Sent) {
    && Handles(a, step)
    && match step.input
       case CodexEvent(id, o, accepted) => EventAnswers(a, id, o.event, accepted, s)
       case PermissionResolved(accepted) => ResultFails(a, accepted, s)
       case input =>
         && PromptOf(input).Some? && PromptOf(input).value.route.Handled?
         && a.slot.None? && s == Sent(a.w.issued, Ok(EndTurn))
  }

  lemma InDeliveries(senders: seq<Sender>, r: PromptResult, s: Sent)
    ensures s in Deliveries(senders, r) <==> s.sender in senders && s.result == r
  {
    if s.sender in senders && s.result == r {
      var i :| 0 <= i < |senders| && senders[i] == s.sender;
      assert Deliveries(senders, r)[i] == s;
    }
  }

  lemma DeliveryAnswers(a: Actor, id: string, ev: Event, accepted: bool, s: Sent)
    requires id in a.subs && (a.fullAccess ==> !ev.Request? || !(ev.request.ExecApprovalRequest? || ev.request.PatchApprovalRequest?))
    ensures s in DeliverEvent(Get(a, id), id, a.capable, ev, accepted).w.sent <==>
              s in a.w.sent || EventAnswers(a, id, ev, accepted, s)
  {
    var senders := HeldBy(a.subs, id);
    match ev
    case End(Error(message)) => InDeliveries(senders, Err(message), s);
    case End(TurnComplete(_)) => InDeliveries(senders, Ok(EndTurn), s);
    case End(_) => InDeliveries(senders, Ok(StopReason.Cancelled), s);
    case Request(ExecApprovalRequest(_, _, _, _, _, _)) => InDeliveries(senders, Err("content"), s);
    case Request(_) => InDeliveries(senders, Err("submit failed"), s);
    case _ =>
  }

  lemma EventSends(a: Actor, id: string, o: Observed, accepted: bool, s: Sent)
    ensures s in HandleEvent(a, id, o, accepted).w.sent <==> s in a.w.sent || EventAnswers(a, id, o.event, accepted, s)
  {
    if IsRouted(a, o) {
      RoutedEvent(a, id, o, accepted);
      if id in a.subs {
        DeliveryAnswers(a, id, o.event, accepted, s);
      }
    }
  }

  lemma ResultSends(a: Actor, accepted: bool, s: Sent)
    ensures s in Handle(a, PermissionResolved(accepted)).w.sent <==> s in a.w.sent || ResultFails(a, accepted, s)
  {
    hide HandlePrompt, HandleEvent;
    if TakesResult(a) {
      var m := a.w.queue[0];
      InDeliveries(HeldBy(a.subs, m.submission),
                   Err(match m.response case RequestFailed(error) => error case Replied(_) => "submit failed"), s);
    }
  }

  lemma PromptSends(a: Actor, p: PromptInput, s: Sent)
    ensures s in HandlePrompt(a, p).0.w.sent <==>
              s in a.w.sent || (a.slot.None? && p.route.Handled? && s == Sent(a.w.issued, Ok(EndTurn)))
  {
    hide ParseResponse;
    if a.slot.Some? {
      var parsed := ParseResponse(a.slot.value.questions, p.text);
      if parsed.Ok? {
        AnsweringSendsNothing(a, a.slot.value, parsed.value, p.answerAccepted);
      }
    } else {
      StartingSends(a, p.route);
    }
  }

  lemma AnsweringSendsNothing(a: Actor, q: PendingRequest, answers: UserInput.Answers, accepted: bool)
    ensures AnswerWith(a, q, answers, accepted).0.w.sent == a.w.sent
  {}

  lemma StartingSends(a: Actor, route: Route)
    ensures StartPrompt(a, route).0.w.sent
         == a.w.sent + if route.Handled? then [Sent(a.w.issued, Ok(EndTurn))] else []
  {}

  lemma MessageSends(a: Actor, input: Input)
    requires !input.Prompt? && !input.Steer? && !input.PermissionResolved? && !input.CodexEvent?
    ensures Handle(a, input).w.sent == a.w.sent
  {
    hide HandlePrompt, HandleEvent;
  }

  lemma EndOfTurnSends(a: Actor, dropped: set<Sender>)
    ensures EndOfTurn(a, dropped).w.sent == a.w.sent
  {}

  /** A step hands out exactly the results it accounts for. */
  lemma StepAnswers(a: Actor, step: Step, s: Sent)
    ensures s in Next(a, step).w.sent <==> s in a.w.sent || Answers(a, step, s)
  {
    hide HandlePrompt, HandleEvent, HandleResolved, EndOfTurn;
    if Handles(a, step) {
      EndOfTurnSends(Handle(a, step.input), step.dropped);
      match step.input
      case Prompt(p) => PromptSends(a, p, s);
      case Steer(_, p) => PromptSends(a, p, s);
      case CodexEvent(id, o, accepted) => EventSends(a, id, o, accepted, s);
      case PermissionResolved(accepted) => ResultSends(a, accepted, s);
      case _ => MessageSends(a, step.input);
    }
  }

  ghost predicate AnsweredAt(a: Actor, steps: seq<Step>, k: nat, s: Sent) {
    k < |steps| && Answers(Run(a, steps[..k]), steps[k], s)
  }

  /**
   Over every run, a caller has a result exactly when a step accounts for it: its turn completed, was
   aborted, failed or was shut down, its prompt was answered on the spot, or a request of its
   submission failed.
   */
  lemma {:induction false} ResultsHaveOrigins(a: Actor, steps: seq<Step>, s: Sent)
    ensures s in Run(a, steps).w.sent <==> s in a.w.sent || exists k: nat :: AnsweredAt(a, steps, k, s)
    decreases |steps|
  {
    hide Answers, Next;
    if steps != [] {
      var n := |steps| - 1;
      var init := steps[..n];
      ResultsHaveOrigins(a, init, s);
      StepAnswers(Run(a, init), steps[n], s);
      if k: nat :| AnsweredAt(a, init, k, s) {
        assert init[..k] == steps[..k];
        assert AnsweredAt(a, steps, k, s);
      }
      if Answers(Run(a, init), steps[n], s) {
        assert AnsweredAt(a, steps, n, s);
      }
      if k: nat :| AnsweredAt(a, steps, k, s) {
        assert k < n ==> init[..k] == steps[..k] && AnsweredAt(a, init, k, s);
      }
    }
  }

  // ---------------------------------------------------------------------------------------------
  // Operations

  /** An operation that answers no interaction. */
  function Plain(op: Op): seq<Submitted> {
    [Submitted(op, None, None)]
  }

  /** A prompt submits the answers to the pending questions, or what its own route says. */
  function PromptSubmits(a: Actor, p: PromptInput): seq<Submitted> {
    match a.slot
    case Some(q) =>
      var answers := ParseResponse(q.questions, p.text);
      if answers.Ok? then Plain(UserInputAnswer(q.turnId, answers.value)) else []
    case None =>
      if p.route.RefusedSubmit? || p.route.SubmittedAs? then Plain(p.route.op) else []
  }

  /** A permission result submits the operation its interaction asks for, if the client replied. */
  function ReplySubmits(a: Actor): seq<Submitted> {
    if TakesResult(a) && a.w.queue[0].response.Replied? then
      var m := a.w.queue[0];
      var entry := a.subs[m.submission].interactions[m.key];
      [Submitted(OpFor(entry.request, m.response.outcome), Some(entry.task), Some(m.task))]
    else []
  }

  /** An event submits an approval in full-access mode, or declines what cannot be asked. */
  function EventSubmits(a: Actor, id: string, ev: Event): seq<Submitted> {
    match ev
    case Request(ExecApprovalRequest(callId, approvalId, turnId, _, _, _)) =>
      if a.fullAccess
      then Plain(ExecApproval(if approvalId.Some? then approvalId.value else callId, Some(turnId), Approved)) else []
    case Request(PatchApprovalRequest(callId)) =>
      if a.fullAccess then Plain(PatchApproval(callId, Approved)) else []
    case Request(ElicitationRequest(serverName, requestId, supported, _, _)) =>
      if id in a.subs && !supported
      then Plain(ResolveElicitation(serverName, requestId, ElicitationResolution(Decline, None))) else []
    case _ => []
  }

  /** What a step submits. */
  function Submits(a: Actor, step: Step): seq<Submitted> {
    if !Handles(a, step) then []
    else
      match step.input
      case CancelTurn => Plain(Interrupt)
      case ShutdownSession => Plain(Shutdown)
      case CodexEvent(id, o, _) => EventSubmits(a, id, o.event)
      case PermissionResolved(_) => ReplySubmits(a)
      case input => if PromptOf(input).Some? then PromptSubmits(a, PromptOf(input).value) else []
  }

  function AllSubmitted(a: Actor, steps: seq<Step>): seq<Submitted> {
    if steps == [] then []
    else
      var init := steps[..|steps| - 1];
      AllSubmitted(a, init) + Submits(Run(a, init), steps[|steps| - 1])
  }

  lemma DeliverySubmits(a: Actor, id: string, ev: Event, accepted: bool)
    requires id in a.subs && (a.fullAccess ==> !ev.Request? || !(ev.request.ExecApprovalRequest? || ev.request.PatchApprovalRequest?))
    ensures DeliverEvent(Get(a, id), id, a.capable, ev, accepted).w.ops == a.w.ops + EventSubmits(a, id, ev)
  {}

  lemma EventSubmitsThese(a: Actor, id: string, o: Observed, accepted: bool)
    ensures HandleEvent(a, id, o, accepted).w.ops == a.w.ops + EventSubmits(a, id, o.event)
  {
    hide ApplyUpdates, StateUpdates, DeliverEvent;
    if IsRouted(a, o) {
      RoutedEvent(a, id, o, accepted);
      if id in a.subs {
        DeliverySubmits(a, id, o.event, accepted);
      }
    }
  }

  lemma ReplySubmitsThis(a: Actor, accepted: bool)
    ensures Handle(a, PermissionResolved(accepted)).w.ops == a.w.ops + ReplySubmits(a)
  {
    hide HandlePrompt, HandleEvent;
  }

  lemma AnsweringSubmits(a: Actor, q: PendingRequest, answers: UserInput.Answers, accepted: bool)
    ensures AnswerWith(a, q, answers, accepted).0.w.ops == a.w.ops + Plain(UserInputAnswer(q.turnId, answers))
  {}

  lemma StartingSubmits(a: Actor, route: Route)
    ensures StartPrompt(a, route).0.w.ops
         == a.w.ops + if route.RefusedSubmit? || route.SubmittedAs? then Plain(route.op) else []
  {}

  lemma PromptSubmitsThis(a: Actor, p: PromptInput)
    ensures HandlePrompt(a, p).0.w.ops == a.w.ops + PromptSubmits(a, p)
  {
    hide ParseResponse;
    if a.slot.Some? {
      var parsed := ParseResponse(a.slot.value.questions, p.text);
      if parsed.Ok? {
        AnsweringSubmits(a, a.slot.value, parsed.value, p.answerAccepted);
      }
    } else {
      StartingSubmits(a, p.route);
    }
  }

  lemma SettingSubmitsNothing(a: Actor, input: Input)
    requires !input.Prompt? && !input.Steer? && !input.PermissionResolved? && !input.CodexEvent?
    requires !input.CancelTurn? && !input.ShutdownSession?
    ensures Handle(a, input).w.ops == a.w.ops
  {
    hide HandlePrompt, HandleEvent;
  }

  lemma EndOfTurnSubmitsNothing(a: Actor, dropped: set<Sender>)
    ensures EndOfTurn(a, dropped).w.ops == a.w.ops
  {}

  lemma StepSubmits(a: Actor, step: Step)
    ensures Next(a, step).w.ops == a.w.ops + Submits(a, step)
  {
    hide HandlePrompt, HandleEvent, HandleResolved, EndOfTurn;
    if Handles(a, step) {
      EndOfTurnSubmitsNothing(Handle(a, step.input), step.dropped);
      match step.input
      case Prompt(p) => PromptSubmitsThis(a, p);
      case Steer(_, p) => PromptSubmitsThis(a, p);
      case CodexEvent(id, o, accepted) => EventSubmitsThese(a, id, o, accepted);
      case PermissionResolved(accepted) => ReplySubmitsThis(a, accepted);
      case CancelTurn =>
      case ShutdownSession =>
      case _ => SettingSubmitsNothing(a, step.input);
    }
  }

  /** Over every run, the operations submitted are those its steps account for, in their order. */
  lemma {:induction false} OperationsHaveOrigins(a: Actor, steps: seq<Step>)
    ensures Run(a, steps).w.ops == a.w.ops + AllSubmitted(a, steps)
    decreases |steps|
  {
    hide Submits, Next;
    if steps != [] {
      var init := steps[..|steps| - 1];
      OperationsHaveOrigins(a, init);
      StepSubmits(Run(a, init), steps[|steps| - 1]);
    }
  }

  // ---------------------------------------------------------------------------------------------
  // Cancelling and shutting down

  predicate IsControl(op: Op) {
    op.Interrupt? || op.Shutdown?
  }

  function Controls(ops: seq<Submitted>): seq<Op> {
    if ops == [] then []
    else
      var last := ops[|ops| - 1].op;
      Controls(ops[..|ops| - 1]) + if IsControl(last) then [last] else []
  }

  lemma {:induction false} ControlsAppend(ops: seq<Submitted>, more: seq<Submitted>)
    ensures Controls(ops + more) == Controls(ops) + Controls(more)
    decreases |more|
  {
    if more == [] {
      assert ops + more == ops;
    } else {
      var init, last := more[..|more| - 1], more[|more| - 1];
      ControlsAppend(ops, init);
      assert (ops + more)[..|ops + more| - 1] == ops + init;
    }
  }

  /** The cancel and shutdown messages a run handles, and such operations as the routes of its prompts carry. */
  function ControlsAsked(a: Actor, steps: seq<Step>): seq<Op> {
    if steps == [] then []
    else
      var init, last := steps[..|steps| - 1], steps[|steps| - 1];
      var b := Run(a, init);
      ControlsAsked(a, init)
      + if !Handles(b, last) then []
        else
          match last.input
          case CancelTurn => [Interrupt]
          case ShutdownSession => [Shutdown]
          case input =>
            if b.slot.None? && PromptOf(input).Some? then ControlOf(PromptOf(input).value.route) else []
  }

  function ControlOf(route: Route): seq<Op> {
    if (route.RefusedSubmit? || route.SubmittedAs?) && IsControl(route.op) then [route.op] else []
  }

  lemma ControlsOfStep(a: Actor, step: Step)
    ensures Controls(Submits(a, step)) == ControlsAsked(a, [step])
  {
    var submitted := Submits(a, step);
    assert [step][..0] == [];
    assert |submitted| <= 1;
    if submitted != [] {
      assert submitted[..|submitted| - 1] == [];
    }
  }

  lemma {:induction false} ControlsAreAsked(a: Actor, steps: seq<Step>)
    ensures Controls(AllSubmitted(a, steps)) == ControlsAsked(a, steps)
    decreases |steps|
  {
    hide Submits, Next, Handles;
    if steps != [] {
      var init, last := steps[..|steps| - 1], steps[|steps| - 1];
      ControlsAreAsked(a, init);
      ControlsAppend(AllSubmitted(a, init), Submits(Run(a, init), last));
      ControlsOfStep(Run(a, init), last);
      assert [last][..0] == [];
    }
  }

  /**
   Over every run, Codex is interrupted and shut down exactly as the client asked, in that order, but
   for what the routes of prompts carry.
   */
  lemma ControlsAreMessages(a: Actor, steps: seq<Step>)
    ensures Controls(Run(a, steps).w.ops) == Controls(a.w.ops) + ControlsAsked(a, steps)
  {
    OperationsHaveOrigins(a, steps);
    ControlsAppend(a.w.ops, AllSubmitted(a, steps));
    ControlsAreAsked(a, steps);
  }

  // ---------------------------------------------------------------------------------------------
  // Updates

  /** A repeated goal, and what full access approves at once, show nothing. */
  predicate IsSilent(a: Actor, ev: Event) {
    || (ev.Session? && ev.session.GoalUpdated? && a.session.goal == Some(ev.session.goal))
    || (a.fullAccess && ev.Request? && (ev.request.ExecApprovalRequest? || ev.request.PatchApprovalRequest?))
  }

  /** What an event shows, and of which submission: questions are shown of none. */
  function EventShows(a: Actor, id: string, ev: Event): seq<ClientUpdate> {
    match ev
    case RequestUserInput(_, _, questions) => [ClientUpdate(None, QuestionPrompt(questions))]
    case _ =>
      if id in a.subs && !IsSilent(a, ev)
      then Tagged(Some(id), Streams.Updates(a.subs[id].streams, a.capable, ev)) else []
  }

  /** What a step shows. */
  function Shows(a: Actor, step: Step): seq<ClientUpdate> {
    if !Handles(a, step) then []
    else
      match step.input
      case CodexEvent(id, o, _) => EventShows(a, id, o.event)
      case ReplayHistory(history) => Tagged(None, Streams.Replayed(EventsOf(history)))
      case input =>
        if a.slot.None? && PromptOf(input).Some? && PromptOf(input).value.route.Handled?
        then [ClientUpdate(None, AgentText(PromptOf(input).value.route.message))] else []
  }

  function AllShown(a: Actor, steps: seq<Step>): seq<ClientUpdate> {
    if steps == [] then []
    else
      var init := steps[..|steps| - 1];
      AllShown(a, init) + Shows(Run(a, init), steps[|steps| - 1])
  }

  lemma EventShowsThese(a: Actor, id: string, o: Observed, accepted: bool)
    ensures HandleEvent(a, id, o, accepted).w.shown == a.w.shown + EventShows(a, id, o.event)
  {
    if IsRouted(a, o) {
      RoutedEvent(a, id, o, accepted);
      if id in a.subs {
        DeliverShows(Get(a, id), id, a.capable, o.event, accepted);
      }
    }
  }

  lemma AnsweringShowsNothing(a: Actor, q: PendingRequest, answers: UserInput.Answers, accepted: bool)
    ensures AnswerWith(a, q, answers, accepted).0.w.shown == a.w.shown
  {}

  lemma StartingShows(a: Actor, route: Route)
    ensures StartPrompt(a, route).0.w.shown
         == a.w.shown + if route.Handled? then [ClientUpdate(None, AgentText(route.message))] else []
  {}

  lemma PromptShows(a: Actor, p: PromptInput)
    ensures HandlePrompt(a, p).0.w.shown
         == a.w.shown + if a.slot.None? && p.route.Handled? then [ClientUpdate(None, AgentText(p.route.message))] else []
  {
    hide ParseResponse;
    if a.slot.Some? {
      var parsed := ParseResponse(a.slot.value.questions, p.text);
      if parsed.Ok? {
        AnsweringShowsNothing(a, a.slot.value, parsed.value, p.answerAccepted);
      }
    } else {
      StartingShows(a, p.route);
    }
  }

  lemma MessageShowsNothing(a: Actor, input: Input)
    requires !input.Prompt? && !input.Steer? && !input.CodexEvent? && !input.ReplayHistory?
    ensures Handle(a, input).w.shown == a.w.shown
  {
    hide HandlePrompt, HandleEvent;
  }

  lemma EndOfTurnShowsNothing(a: Actor, dropped: set<Sender>)
    ensures EndOfTurn(a, dropped).w.shown == a.w.shown
  {}

  lemma StepShows(a: Actor, step: Step)
    ensures Next(a, step).w.shown == a.w.shown + Shows(a, step)
  {
    hide HandlePrompt, HandleEvent, HandleResolved, EndOfTurn;
    if Handles(a, step) {
      EndOfTurnShowsNothing(Handle(a, step.input), step.dropped);
      match step.input
      case Prompt(p) => PromptShows(a, p);
      case Steer(_, p) => PromptShows(a, p);
      case CodexEvent(id, o, accepted) => EventShowsThese(a, id, o, accepted);
      case ReplayHistory(_) =>
      case _ => MessageShowsNothing(a, step.input);
    }
  }

  /** Over every run, the updates shown are those its steps account for, in their order. */
  lemma {:induction false} UpdatesHaveOrigins(a: Actor, steps: seq<Step>)
    ensures Run(a, steps).w.shown == a.w.shown + AllShown(a, steps)
    decreases |steps|
  {
    hide Shows, Next;
    if steps != [] {
      var init := steps[..|steps| - 1];
      UpdatesHaveOrigins(a, init);
      StepShows(Run(a, init), steps[|steps| - 1]);
    }
  }
}
