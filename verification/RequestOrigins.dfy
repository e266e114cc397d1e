/**
 Where the operation that answers a permission request comes from: the event that asked, and the reply
 the client gave.
 */
module RequestOrigins {
  import opened Wrappers
  import opened Approval
  import opened Text
  import opened UserInput
  import opened Events
  import opened SessionState
  import opened Runtime
  import opened SubmissionModel
  import opened ActorModel
  import opened ActorInvariants
  import opened StaleResults
  import opened Origins
  import opened StepEffects

  // ---------------------------------------------------------------------------------------------
  // Interactions and the events that asked

  /** The interaction was there before, or is that of the request the step asks. */
  ghost predicate IsKept(a: Actor, id: string, key: string, entry: Entry) {
    id in a.subs && key in a.subs[id].interactions && a.subs[id].interactions[key] == entry
  }

  ghost predicate IsAsked(a: Actor, asked: Option<(string, RequestEvent)>, id: string, key: string, entry: Entry) {
    && asked.Some? && asked.value.0 == id && key == RequestKey(asked.value.1)
    && entry == Entry(|a.w.tasks|, RequestFor(asked.value.1))
  }

  ghost predicate Holds(a: Actor, b: Actor, asked: Option<(string, RequestEvent)>) {
    forall id, key :: id in b.subs && key in b.subs[id].interactions ==>
      var entry := b.subs[id].interactions[key];
      IsKept(a, id, key, entry) || IsAsked(a, asked, id, key, entry)
  }

  lemma DeliveryHolds(a: Actor, id: string, ev: Event, accepted: bool)
    requires id in a.subs
    ensures Holds(a, Put(a, id, DeliverEvent(Get(a, id), id, a.capable, ev, accepted)),
                  if ev.Request? && AsksClient(ev.request) then Some((id, ev.request)) else None)
  {}

  lemma EventHolds(a: Actor, id: string, o: Observed, accepted: bool, dropped: set<Sender>)
    requires a.status.Running?
    ensures Holds(a, HandleEvent(a, id, o, accepted), Asks(a, ActorTurn(CodexEvent(id, o, accepted), dropped)))
  {
    hide ApplyUpdates, StateUpdates, DeliverEvent;
    if IsRouted(a, o) {
      RoutedEvent(a, id, o, accepted);
      if id in a.subs {
        DeliveryHolds(a, id, o.event, accepted);
      }
    }
  }

  lemma EnsuredHolds(a: Actor, id: string)
    ensures Holds(a, EnsureSubmission(a, id), None) && id in EnsureSubmission(a, id).subs
  {}

  /** Every interaction of the second was there in the first. */
  ghost predicate SameInteractions(b: Actor, c: Actor) {
    forall id :: id in c.subs ==> id in b.subs && c.subs[id].interactions == b.subs[id].interactions
  }

  lemma AnsweringLeavesInteractions(a: Actor, q: PendingRequest, answers: UserInput.Answers, accepted: bool)
    ensures SameInteractions(EnsureSubmission(a, q.submissionId), AnswerWith(a, q, answers, accepted).0)
  {
    hide EnsureSubmission;
    EnsuredHolds(a, q.submissionId);
  }

  lemma AnsweringHolds(a: Actor, q: PendingRequest, answers: UserInput.Answers, accepted: bool)
    ensures Holds(a, AnswerWith(a, q, answers, accepted).0, None)
  {
    hide AnswerWith, EnsureSubmission;
    EnsuredHolds(a, q.submissionId);
    AnsweringLeavesInteractions(a, q, answers, accepted);
  }

  lemma StartingHolds(a: Actor, route: Route)
    ensures Holds(a, StartPrompt(a, route).0, None)
  {}

  lemma PromptHolds(a: Actor, p: PromptInput)
    ensures Holds(a, HandlePrompt(a, p).0, None)
  {
    hide ParseResponse;
    if a.slot.Some? {
      var parsed := ParseResponse(a.slot.value.questions, p.text);
      if parsed.Ok? {
        AnsweringHolds(a, a.slot.value, parsed.value, p.answerAccepted);
      }
    } else {
      StartingHolds(a, p.route);
    }
  }

  lemma TakenHolds(a: Actor)
    requires TakesResult(a)
    ensures Holds(a, Taken(a), None)
  {}

  lemma ResultHolds(a: Actor, accepted: bool)
    ensures Holds(a, Handle(a, PermissionResolved(accepted)), None)
  {
    hide HandlePrompt, HandleEvent;
    if TakesResult(a) {
      TakenThenFailed(a, accepted);
      TakenHolds(a);
    }
  }

  lemma MessageHolds(a: Actor, input: Input)
    requires !input.Prompt? && !input.Steer? && !input.CodexEvent?
    ensures Holds(a, Handle(a, input), None)
  {
    hide HandlePrompt, HandleEvent, HandleResolved;
    match input
    case PermissionResolved(accepted) => ResultHolds(a, accepted);
    case _ =>
  }

  lemma EndOfTurnHolds(a: Actor, dropped: set<Sender>)
    ensures Holds(a, EndOfTurn(a, dropped), None)
  {}

  lemma StepHolds(a: Actor, step: Step)
    ensures Holds(a, Next(a, step), Asks(a, step))
  {
    hide HandlePrompt, HandleEvent, HandleResolved, EndOfTurn;
    if Handles(a, step) {
      EndOfTurnHolds(Handle(a, step.input), step.dropped);
      match step.input
      case Prompt(p) => PromptHolds(a, p);
      case Steer(_, p) => PromptHolds(a, p);
      case CodexEvent(id, o, accepted) => EventHolds(a, id, o, accepted, step.dropped);
      case _ => MessageHolds(a, step.input);
    }
  }

  /** The k-th step asked the client this request, and started this task for it. */
  ghost predicate AskedAt(a: Actor, steps: seq<Step>, k: nat, id: string, r: RequestEvent, t: TaskId) {
    k < |steps| && Asks(Run(a, steps[..k]), steps[k]) == Some((id, r)) && t == |Run(a, steps[..k]).w.tasks|
  }

  ghost predicate WasAsked(a: Actor, steps: seq<Step>, id: string, key: string, entry: Entry) {
    exists k, r :: AskedAt(a, steps, k, id, r, entry.task) && key == RequestKey(r) && entry.request == RequestFor(r)
  }

  lemma AskedInPrefix(a: Actor, steps: seq<Step>, n: nat, k: nat, id: string, r: RequestEvent, t: TaskId)
    requires n <= |steps| && AskedAt(a, steps[..n], k, id, r, t)
    ensures AskedAt(a, steps, k, id, r, t)
  {
    assert steps[..n][..k] == steps[..k] && steps[..n][k] == steps[k];
  }

  lemma AskedBefore(a: Actor, steps: seq<Step>, id: string, key: string, entry: Entry)
    requires steps != [] && WasAsked(a, steps[..|steps| - 1], id, key, entry)
    ensures WasAsked(a, steps, id, key, entry)
  {
    var k, r :| AskedAt(a, steps[..|steps| - 1], k, id, r, entry.task)
                && key == RequestKey(r) && entry.request == RequestFor(r);
    AskedInPrefix(a, steps, |steps| - 1, k, id, r, entry.task);
  }

  /** Every pending interaction of a run is that of a request some step asked, under its key. */
  lemma {:induction false} InteractionsWereAsked(a: Actor, steps: seq<Step>, id: string, key: string)
    requires a.subs == map[]
    requires id in Run(a, steps).subs && key in Run(a, steps).subs[id].interactions
    ensures WasAsked(a, steps, id, key, Run(a, steps).subs[id].interactions[key])
    decreases |steps|
  {
    hide Next, Asks;
    if steps != [] {
      var init, last := steps[..|steps| - 1], steps[|steps| - 1];
      var b, entry := Run(a, init), Run(a, steps).subs[id].interactions[key];
      StepHolds(b, last);
      if IsKept(b, id, key, entry) {
        InteractionsWereAsked(a, init, id, key);
        AskedBefore(a, steps, id, key, entry);
      } else {
        assert AskedAt(a, steps, |steps| - 1, id, Asks(b, last).value.1, entry.task);
      }
    }
  }

  // ---------------------------------------------------------------------------------------------
  // Results and the replies they carry

  /** The client gave a permission task this reply. */
  ghost predicate Replied(steps: seq<Step>, t: TaskId, response: Response) {
    exists j: nat :: j < |steps| && steps[j] == ClientReply(t, response)
  }

  lemma RepliedBefore(steps: seq<Step>, t: TaskId, response: Response)
    requires steps != [] && Replied(steps[..|steps| - 1], t, response)
    ensures Replied(steps, t, response)
  {
    var j: nat :| j < |steps| - 1 && steps[..|steps| - 1][j] == ClientReply(t, response);
    assert steps[j] == ClientReply(t, response);
  }

  /** The actor's own turn gives no task a reply, and leaves this in the queue. */
  ghost predicate LeavesReplies(w: World, w': World, queue: seq<Resolution>) {
    && (forall t :: 0 <= t < |w'.tasks| && w'.tasks[t].phase.Responded? ==>
          t < |w.tasks| && w.tasks[t].phase == w'.tasks[t].phase)
    && w'.queue == queue
  }

  /** Whose queued result the step takes. */
  function Took(a: Actor, step: Step): seq<TaskId> {
    if Handles(a, step) && step.input.PermissionResolved? && a.w.queue != [] then [a.w.queue[0].task] else []
  }

  lemma EventLeavesReplies(a: Actor, id: string, o: Observed, accepted: bool)
    ensures LeavesReplies(a.w, HandleEvent(a, id, o, accepted).w, a.w.queue)
  {
    if IsRouted(a, o) {
      RoutedEvent(a, id, o, accepted);
      if id in a.subs {
        DeliveryLeavesReplies(a, id, o.event, accepted);
      }
    }
  }

  lemma DeliveryLeavesReplies(a: Actor, id: string, ev: Event, accepted: bool)
    requires id in a.subs
    ensures LeavesReplies(a.w, DeliverEvent(Get(a, id), id, a.capable, ev, accepted).w, a.w.queue)
  {}

  lemma AnsweringLeavesReplies(a: Actor, q: PendingRequest, answers: UserInput.Answers, accepted: bool)
    ensures LeavesReplies(a.w, AnswerWith(a, q, answers, accepted).0.w, a.w.queue)
  {}

  lemma StartingLeavesReplies(a: Actor, route: Route)
    ensures LeavesReplies(a.w, StartPrompt(a, route).0.w, a.w.queue)
  {}

  lemma PromptLeavesReplies(a: Actor, p: PromptInput)
    ensures LeavesReplies(a.w, HandlePrompt(a, p).0.w, a.w.queue)
  {
    hide ParseResponse;
    if a.slot.Some? {
      var parsed := ParseResponse(a.slot.value.questions, p.text);
      if parsed.Ok? {
        AnsweringLeavesReplies(a, a.slot.value, parsed.value, p.answerAccepted);
      }
    } else {
      StartingLeavesReplies(a, p.route);
    }
  }

  lemma ResultLeavesReplies(a: Actor, accepted: bool)
    ensures LeavesReplies(a.w, Handle(a, PermissionResolved(accepted)).w, if a.w.queue == [] then [] else a.w.queue[1..])
  {
    hide HandlePrompt, HandleEvent;
    if a.w.queue != [] {
      TakenLeavesReplies(a);
      ResolvedIsTakenThenFailed(a, accepted);
    }
  }

  lemma TakenLeavesReplies(a: Actor)
    requires a.w.queue != []
    ensures LeavesReplies(a.w, Taken(a).w, a.w.queue[1..])
  {}

  lemma MessageLeavesReplies(a: Actor, input: Input)
    requires !input.Prompt? && !input.Steer? && !input.CodexEvent? && !input.PermissionResolved?
    ensures LeavesReplies(a.w, Handle(a, input).w, a.w.queue)
  {
    hide HandlePrompt, HandleEvent;
  }

  lemma EndOfTurnLeavesReplies(a: Actor, dropped: set<Sender>)
    ensures LeavesReplies(a.w, EndOfTurn(a, dropped).w, a.w.queue)
  {}

  lemma TurnLeavesReplies(a: Actor, step: Step)
    requires step.ActorTurn?
    ensures LeavesReplies(a.w, Next(a, step).w, if Took(a, step) == [] then a.w.queue else a.w.queue[1..])
  {
    hide HandlePrompt, HandleEvent, HandleResolved, EndOfTurn;
    if Handles(a, step) {
      EndOfTurnLeavesReplies(Handle(a, step.input), step.dropped);
      match step.input
      case Prompt(p) => PromptLeavesReplies(a, p);
      case Steer(_, p) => PromptLeavesReplies(a, p);
      case CodexEvent(id, o, accepted) => EventLeavesReplies(a, id, o, accepted);
      case PermissionResolved(accepted) => ResultLeavesReplies(a, accepted);
      case _ => MessageLeavesReplies(a, step.input);
    }
  }

  /** What is queued, or about to be, is what the client replied. */
  lemma {:induction false} ResultsWereReplied(a: Actor, steps: seq<Step>, t: TaskId, response: Response)
    requires a.w.queue == [] && a.w.tasks == []
    requires var w := Run(a, steps).w;
             || (t < |w.tasks| && w.tasks[t].phase == Responded(response))
             || exists m :: m in w.queue && m.task == t && m.response == response
    ensures Replied(steps, t, response)
    decreases |steps|
  {
    if steps != [] {
      var init, last := steps[..|steps| - 1], steps[|steps| - 1];
      var w := Run(a, init).w;
      if last == ClientReply(t, response) {
        assert steps[|steps| - 1] == ClientReply(t, response);
      } else {
        if last.ActorTurn? {
          TurnLeavesReplies(Run(a, init), last);
        }
        ResultsWereReplied(a, init, t, response);
        RepliedBefore(steps, t, response);
      }
    }
  }

  /** Who queues a result in the step. */
  function Queues(a: Actor, step: Step): seq<TaskId> {
    if step.TaskSend? && step.task < |a.w.tasks| && a.w.tasks[step.task].phase.Responded? then [step.task] else []
  }

  function AllQueued(a: Actor, steps: seq<Step>): seq<TaskId> {
    if steps == [] then []
    else
      var init := steps[..|steps| - 1];
      AllQueued(a, init) + Queues(Run(a, init), steps[|steps| - 1])
  }

  function AllTaken(a: Actor, steps: seq<Step>): seq<TaskId> {
    if steps == [] then []
    else
      var init := steps[..|steps| - 1];
      AllTaken(a, init) + Took(Run(a, init), steps[|steps| - 1])
  }

  function TasksIn(queue: seq<Resolution>): (r: seq<TaskId>)
    ensures |r| == |queue| && forall i :: 0 <= i < |r| ==> r[i] == queue[i].task
  {
    seq(|queue|, i requires 0 <= i < |queue| => queue[i].task)
  }

  lemma StepTakesFirst(a: Actor, step: Step)
    ensures Took(a, step) + TasksIn(Next(a, step).w.queue) == TasksIn(a.w.queue) + Queues(a, step)
  {
    hide Handle, EndOfTurn;
    if step.ActorTurn? {
      TurnLeavesReplies(a, step);
    }
  }

  /** Over every run, results are taken in the order they were queued, and none is lost or taken twice. */
  lemma {:induction false} ResultsAreTakenInOrder(a: Actor, steps: seq<Step>)
    requires a.w.queue == []
    ensures AllQueued(a, steps) == AllTaken(a, steps) + TasksIn(Run(a, steps).w.queue)
    decreases |steps|
  {
    hide Next, Took, Queues;
    if steps != [] {
      var init, last := steps[..|steps| - 1], steps[|steps| - 1];
      ResultsAreTakenInOrder(a, init);
      StepTakesFirst(Run(a, init), last);
      AppendAssoc(AllTaken(a, init), TasksIn(Run(a, init).w.queue), Queues(Run(a, init), last));
      AppendAssoc(AllTaken(a, init), Took(Run(a, init), last), TasksIn(Run(a, steps).w.queue));
    }
  }

  // ---------------------------------------------------------------------------------------------
  // From the question to the operation

  /** Some step asked this request, and the operation is what the client's reply makes of it. */
  ghost predicate AnswersRequest(a: Actor, steps: seq<Step>, s: Submitted, id: string, k: nat, r: RequestEvent, outcome: Outcome) {
    && s.entry.Some? && s.via.Some?
    && AskedAt(a, steps, k, id, r, s.entry.value)
    && Replied(steps, s.via.value, Response.Replied(outcome))
    && s.op == OpFor(RequestFor(r), outcome)
  }

  ghost predicate IsAnswer(a: Actor, steps: seq<Step>, s: Submitted) {
    exists id, k, r, outcome :: AnswersRequest(a, steps, s, id, k, r, outcome)
  }

  lemma RepliedInPrefix(steps: seq<Step>, n: nat, t: TaskId, response: Response)
    requires n <= |steps| && Replied(steps[..n], t, response)
    ensures Replied(steps, t, response)
  {
    var j: nat :| j < n && steps[..n][j] == ClientReply(t, response);
    assert steps[j] == ClientReply(t, response);
  }

  lemma AnswerInPrefix(a: Actor, steps: seq<Step>, n: nat, s: Submitted)
    requires n <= |steps| && IsAnswer(a, steps[..n], s)
    ensures IsAnswer(a, steps, s)
  {
    var id, k, r, outcome :| AnswersRequest(a, steps[..n], s, id, k, r, outcome);
    AskedInPrefix(a, steps, n, k, id, r, s.entry.value);
    RepliedInPrefix(steps, n, s.via.value, Response.Replied(outcome));
    assert AnswersRequest(a, steps, s, id, k, r, outcome);
  }

  /** The result a run takes next is the client's reply, and its interaction that of a request asked. */
  lemma NextAnswer(a: Actor, steps: seq<Step>, s: Submitted)
    requires a.subs == map[] && a.w.queue == [] && a.w.tasks == []
    requires s in ReplySubmits(Run(a, steps))
    ensures IsAnswer(a, steps, s)
  {
    var b := Run(a, steps);
    var m := b.w.queue[0];
    var entry := b.subs[m.submission].interactions[m.key];
    assert m in b.w.queue;
    InteractionsWereAsked(a, steps, m.submission, m.key);
    ResultsWereReplied(a, steps, m.task, m.response);
    var k, r :| AskedAt(a, steps, k, m.submission, r, entry.task) && m.key == RequestKey(r) && entry.request == RequestFor(r);
    assert AnswersRequest(a, steps, s, m.submission, k, r, m.response.outcome);
  }

  lemma AnswersNoneElsewhere(a: Actor, step: Step, s: Submitted)
    requires s in Submits(a, step) && s.via.Some?
    ensures s in ReplySubmits(a)
  {}

  lemma {:induction false} AnswersHaveOrigins(a: Actor, steps: seq<Step>, s: Submitted)
    requires a.subs == map[] && a.w.queue == [] && a.w.tasks == []
    requires s in AllSubmitted(a, steps) && s.via.Some?
    ensures IsAnswer(a, steps, s)
    decreases |steps|
  {
    hide Submits, Next;
    if steps != [] {
      var n := |steps| - 1;
      if s in AllSubmitted(a, steps[..n]) {
        AnswersHaveOrigins(a, steps[..n], s);
      } else {
        AnswersNoneElsewhere(Run(a, steps[..n]), steps[n], s);
        NextAnswer(a, steps[..n], s);
      }
      AnswerInPrefix(a, steps, n, s);
    }
  }

  /**
   Over every run of a new actor: an operation that a permission result caused answers a request some
   event asked, by what a client replied; and while no key is reused too early, the reply is the one
   given to that very request.
   */
  lemma OperationsAnswerRequests(capable: bool, fullAccess: bool, steps: seq<Step>, s: Submitted)
    requires s in Run(Initial(capable, fullAccess), steps).w.ops && s.via.Some?
    ensures IsAnswer(Initial(capable, fullAccess), steps, s)
    ensures ReusesNoKey(Initial(capable, fullAccess), steps) ==> s.entry == s.via
  {
    var a := Initial(capable, fullAccess);
    OperationsHaveOrigins(a, steps);
    AnswersHaveOrigins(a, steps, s);
    if ReusesNoKey(a, steps) {
      ResultsAnswerTheirOwnRequests(capable, fullAccess, steps);
    }
  }
}
