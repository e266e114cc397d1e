/**
 The per-session actor as a step system: client messages, queued permission results and Codex
 events, each followed by the sweep of submissions nobody waits for.
 */
module ActorModel {
  import opened Wrappers
  import opened Approval
  import opened UserInput
  import opened Events
  import opened SessionState
  import Streams
  import opened Runtime
  import opened SubmissionModel

  /** Drained: no message can come and no submission is left. EventStreamLost: Codex events failed. */
  datatype Status = Running | Drained | EventStreamLost

  datatype Actor = Actor(
    subs: map<string, Submission>, slot: Slot, session: SessionData,
    capable: bool, fullAccess: bool, status: Status, messagesOpen: bool, w: World)

  function Initial(capable: bool, fullAccess: bool): Actor {
    Actor(map[], None, EMPTY, capable, fullAccess, Running, true, START)
  }

  /** What becomes of a new prompt: an error, an answer on the spot, or a submission under an id. */
  datatype Route = RefusedPrompt | Handled(message: string) | RefusedSubmit(op: Op) | SubmittedAs(id: string, op: Op)

  datatype PromptInput = PromptInput(text: string, route: Route, answerAccepted: bool)

  datatype SteerOutcome = Injected | NoActiveTurn | SteerFailed

  datatype Input =
    | Prompt(prompt: PromptInput)
    | Steer(outcome: SteerOutcome, prompt: PromptInput)
    | CancelTurn
    | ShutdownSession
    | ReplaceClient(capable: bool)
    | ReplayHistory(history: seq<Observed>)
    | SetFullAccess(fullAccess: bool)
    | SetMode(mode: Mode)
    | ControlGoal(goal: Option<Goal>)
    | OtherMessage
    | PermissionResolved(accepted: bool)
    | CodexEvent(id: string, observed: Observed, accepted: bool)
    | MessagesClosed
    | EventStreamFailed

  datatype PromptError = PromptRefused | BadAnswer(error: InputError) | SubmitRefused | MissingSubmission(callId: string)

  type PromptReply = Result<Sender, PromptError>

  // ---------------------------------------------------------------------------------------------
  // Submissions of the actor

  function Get(a: Actor, id: string): Local
    requires id in a.subs
  {
    Local(a.subs[id], a.w)
  }

  function Put(a: Actor, id: string, l: Local): Actor {
    a.(subs := a.subs[id := l.sub], w := l.w)
  }

  /** Tasks of the submissions whose ids are not kept. */
  function TasksOutside(subs: map<string, Submission>, keep: set<string>): set<TaskId> {
    set id, k | id in subs && id !in keep && k in subs[id].interactions :: subs[id].interactions[k].task
  }

  /** Dropping a submission detaches its tasks: they keep running, and nobody resolves them. */
  function Retain(a: Actor, keep: set<string>): Actor {
    a.(subs := map id | id in a.subs && id in keep :: a.subs[id],
       w := a.w.(tasks := SettleAll(a.w.tasks, TasksOutside(a.subs, keep), Dropped)))
  }

  /** Inserting under an id in use drops the submission that was there. */
  function Insert(a: Actor, id: string, sub: Submission): Actor {
    var rest := Retain(a, a.subs.Keys - {id});
    rest.(subs := rest.subs[id := sub])
  }

  function AbortEverything(a: Actor): Actor {
    a.(subs := map id | id in a.subs :: a.subs[id].(interactions := map[]),
       w := a.w.(tasks := SettleAll(a.w.tasks, TasksOutside(a.subs, {}), Aborted)))
  }

  function Kept(a: Actor): set<string> {
    set id | id in a.subs && (IsActive(a.subs[id].responses, a.w.open) || (a.slot.Some? && a.slot.value.submissionId == id))
  }

  /** The sweep at the end of each turn. */
  function Sweep(a: Actor): Actor {
    Retain(a, Kept(a))
  }

  function SubmitOp(a: Actor, op: Op): Actor {
    a.(w := a.w.(ops := a.w.ops + [Submitted(op, None, None)]))
  }

  function Show(a: Actor, update: Update): Actor {
    a.(w := a.w.(shown := a.w.shown + [ClientUpdate(None, update)]))
  }

  /** A fresh answer channel whose receiver goes to the caller. */
  function Issue(a: Actor): Actor {
    a.(w := a.w.(open := a.w.open + {a.w.issued}, issued := a.w.issued + 1))
  }

  // ---------------------------------------------------------------------------------------------
  // Messages

  /** Restored questions may belong to a submission that is not there yet. */
  function EnsureSubmission(a: Actor, id: string): Actor {
    if id in a.subs then a else Insert(a, id, NewSubmission(None))
  }

  /** The answers go to Codex, and the caller joins those of the submission that asked. */
  function AnswerWith(a: Actor, p: PendingRequest, answers: Answers, accepted: bool): (Actor, PromptReply) {
    var a2 := SubmitOp(EnsureSubmission(a, p.submissionId), UserInputAnswer(p.turnId, answers));
    if !accepted then (a2, Err(SubmitRefused))
    else if p.submissionId !in a2.subs then (a2.(slot := None), Err(MissingSubmission(p.callId)))
    else
      var a3 := Issue(a2);
      (Put(a3, p.submissionId, AddSender(Get(a3, p.submissionId), a.w.issued)).(slot := None), Ok(a.w.issued))
  }

  /** The prompt answers the pending questions. */
  function AnswerPending(a: Actor, p: PendingRequest, text: string, accepted: bool): (Actor, PromptReply) {
    match ParseResponse(p.questions, text)
    case Err(e) => (a, Err(BadAnswer(e)))
    case Ok(answers) => AnswerWith(a, p, answers, accepted)
  }

  function StartPrompt(a: Actor, route: Route): (Actor, PromptReply) {
    match route
    case RefusedPrompt => (a, Err(PromptRefused))
    case Handled(message) =>
      var a1 := Issue(Show(a, AgentText(message)));
      (a1.(w := a1.w.(sent := a1.w.sent + [Sent(a.w.issued, Ok(EndTurn))])), Ok(a.w.issued))
    case RefusedSubmit(op) => (SubmitOp(a, op), Err(SubmitRefused))
    case SubmittedAs(id, op) =>
      (Insert(Issue(SubmitOp(a, op)), id, NewSubmission(Some(a.w.issued))), Ok(a.w.issued))
  }

  function HandlePrompt(a: Actor, p: PromptInput): (Actor, PromptReply) {
    if a.slot.Some? then AnswerPending(a, a.slot.value, p.text, p.answerAccepted)
    else StartPrompt(a, p.route)
  }

  function HandleResolved(a: Actor, m: Resolution, accepted: bool): Actor {
    if m.submission in a.subs then Put(a, m.submission, Resolve(Get(a, m.submission), m, accepted)) else a
  }

  /** Full-access mode approves commands and patches without asking. */
  function AutoApprovalFor(ev: Event): Option<AutoApproval> {
    match ev
    case Request(ExecApprovalRequest(callId, approvalId, turnId, _, _, _)) =>
      Some(ExecAuto(if approvalId.Some? then approvalId.value else callId, turnId))
    case Request(PatchApprovalRequest(callId)) => Some(PatchAuto(callId))
    case _ => None
  }

  function RouteEvent(a: Actor, id: string, ev: Event, accepted: bool): Actor {
    var a1 := if id in a.subs then Put(a, id, DeliverEvent(Get(a, id), id, a.capable, ev, accepted)) else a;
    if ev.End? then a1.(slot := ClearFor(a1.slot, id)) else a1
  }

  function HandleEvent(a: Actor, id: string, o: Observed, accepted: bool): Actor {
    if RepeatsGoal(a.session, o.event) then a
    else
      var a1 := a.(session := ApplyUpdates(a.session, StateUpdates(o)));
      match o.event
      case RequestUserInput(callId, turnId, questions) =>
        Show(a1, QuestionPrompt(questions)).(slot := Some(PendingRequest(id, callId, turnId, questions)))
      case ev =>
        var auto := AutoApprovalFor(ev);
        if a1.fullAccess && auto.Some? then SubmitOp(a1, AutoApprovalOp(auto.value))
        else RouteEvent(a1, id, ev, accepted)
  }

  function EventsOf(history: seq<Observed>): (r: seq<Event>)
    ensures |r| == |history|
    ensures forall i :: 0 <= i < |r| ==> r[i] == history[i].event
  {
    seq(|history|, i requires 0 <= i < |history| => history[i].event)
  }

  function Replay(a: Actor, history: seq<Observed>): Actor {
    a.(session := ReplayRun(a.session, history),
       slot := ReplaySlots(a.slot, history),
       w := a.w.(shown := a.w.shown + Tagged(None, Streams.Replayed(EventsOf(history)))))
  }

  function Handle(a: Actor, input: Input): Actor {
    match input
    case Prompt(p) => HandlePrompt(a, p).0
    case Steer(outcome, p) => if outcome.NoActiveTurn? then HandlePrompt(a, p).0 else a
    case CancelTurn => SubmitOp(AbortEverything(a), Interrupt)
    case ShutdownSession => SubmitOp(AbortEverything(a), Shutdown)
    case ReplaceClient(capable) => a.(capable := capable)
    case ReplayHistory(history) => Replay(a, history)
    case SetFullAccess(full) => a.(fullAccess := full)
    case SetMode(mode) => a.(session := a.session.(mode := Some(mode)))
    case ControlGoal(goal) => a.(session := a.session.(goal := goal))
    case OtherMessage => a
    case PermissionResolved(accepted) =>
      if a.w.queue == [] then a else HandleResolved(a.(w := Receive(a.w)), a.w.queue[0], accepted)
    case CodexEvent(id, o, accepted) => HandleEvent(a, id, o, accepted)
    case MessagesClosed => a.(messagesOpen := false)
    case EventStreamFailed => Retain(a, {}).(status := EventStreamLost)
  }

  /** What follows each message or event: the sweep, and the end of the loop when nothing is left to do. */
  function EndOfTurn(a: Actor, dropped: set<Sender>): Actor {
    if a.status.EventStreamLost? then a
    else
      var swept := Sweep(a.(w := DropReceivers(a.w, dropped)));
      if !swept.messagesOpen && swept.subs == map[] then swept.(status := Drained) else swept
  }

  /** One turn of the loop; callers may drop receivers while it runs. */
  function Turn(a: Actor, input: Input, dropped: set<Sender>): Actor {
    if !a.status.Running? then a else EndOfTurn(Handle(a, input), dropped)
  }

  // ---------------------------------------------------------------------------------------------
  // Runs

  datatype Step =
    | ActorTurn(input: Input, dropped: set<Sender>)
    | ReceiversDropped(dropped: set<Sender>)
    | ClientReply(task: TaskId, response: Response)
    | TaskSend(task: TaskId)

  function Next(a: Actor, step: Step): Actor {
    match step
    case ActorTurn(input, dropped) => Turn(a, input, dropped)
    case ReceiversDropped(dropped) => a.(w := DropReceivers(a.w, dropped))
    case ClientReply(t, response) => a.(w := ClientReplies(a.w, t, response))
    case TaskSend(t) => a.(w := TaskSends(a.w, t))
  }

  function Run(a: Actor, steps: seq<Step>): Actor {
    if steps == [] then a else Next(Run(a, steps[..|steps| - 1]), steps[|steps| - 1])
  }
}
