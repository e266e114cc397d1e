/**
 A permission task that is aborted may already have queued its result. Whether that result can be
 taken for a newer request depends on the reuse of request keys.
 */
module StaleResults {
  import opened Wrappers
  import opened Approval
  import opened UserInput
  import opened Events
  import opened SessionState
  import opened Runtime
  import opened SubmissionModel
  import opened ActorModel
  import opened ActorInvariants

  /** A task that can still deliver a result delivers it to its own interaction, or to none. */
  ghost predicate Current(subs: map<string, Submission>, tasks: seq<Task>) {
    forall t :: 0 <= t < |tasks| && MayDeliver(tasks[t].phase)
                && tasks[t].submission in subs && tasks[t].key in subs[tasks[t].submission].interactions ==>
      subs[tasks[t].submission].interactions[tasks[t].key].task == t
  }

  /** Every operation answers the interaction whose task brought the result. */
  ghost predicate OpsMatch(ops: seq<Submitted>) {
    forall i :: 0 <= i < |ops| ==> ops[i].entry == ops[i].via
  }

  ghost predicate TasksFade(tasks: seq<Task>, tasks': seq<Task>) {
    && |tasks'| == |tasks|
    && forall t :: 0 <= t < |tasks| ==>
         && tasks'[t].submission == tasks[t].submission && tasks'[t].key == tasks[t].key
         && (MayDeliver(tasks'[t].phase) ==> MayDeliver(tasks[t].phase))
  }

  ghost predicate EntriesFade(subs: map<string, Submission>, subs': map<string, Submission>) {
    forall id, k :: id in subs' && k in subs'[id].interactions ==>
      && id in subs && k in subs[id].interactions
      && subs'[id].interactions[k].task == subs[id].interactions[k].task
  }

  /** No interaction or task is added, and results go where they belong. */
  ghost predicate Fades(a: Actor, b: Actor) {
    && TasksFade(a.w.tasks, b.w.tasks)
    && EntriesFade(a.subs, b.subs)
    && (OpsMatch(a.w.ops) ==> OpsMatch(b.w.ops))
  }

  lemma FadingKeepsCurrent(a: Actor, b: Actor)
    requires Current(a.subs, a.w.tasks) && Fades(a, b)
    ensures Current(b.subs, b.w.tasks)
  {}

  lemma FadesTwice(a: Actor, b: Actor, c: Actor)
    requires Fades(a, b) && Fades(b, c)
    ensures Fades(a, c)
  {}

  // ---------------------------------------------------------------------------------------------
  // Steps that spawn nothing

  lemma RetainFades(a: Actor, keep: set<string>)
    ensures Fades(a, Retain(a, keep))
  {}

  lemma InsertFades(a: Actor, id: string, primary: Option<Sender>)
    ensures Fades(a, Insert(a, id, NewSubmission(primary)))
  {
    RetainFades(a, a.subs.Keys - {id});
  }

  lemma SubmitFades(a: Actor, op: Op)
    ensures Fades(a, SubmitOp(a, op))
  {}

  lemma AbortAndSendFades(a: Actor, id: string, r: PromptResult)
    requires id in a.subs
    ensures Fades(a, Put(a, id, SendResult(AbortAll(Get(a, id)), r)))
  {}

  lemma SubmitOrFailFades(a: Actor, id: string, op: Op, accepted: bool)
    requires id in a.subs
    ensures Fades(a, Put(a, id, SubmitOrFail(Get(a, id), Submitted(op, None, None), accepted)))
  {}

  lemma AddSenderFades(a: Actor, id: string)
    requires id in a.subs
    ensures Fades(a, Put(Issue(a), id, AddSender(Get(Issue(a), id), a.w.issued)))
  {}

  lemma AnswerWithFades(a: Actor, p: PendingRequest, answers: Answers, accepted: bool)
    ensures Fades(a, AnswerWith(a, p, answers, accepted).0)
  {
    var a1 := EnsureSubmission(a, p.submissionId);
    var a2 := SubmitOp(a1, UserInputAnswer(p.turnId, answers));
    InsertFades(a, p.submissionId, None);
    SubmitFades(a1, UserInputAnswer(p.turnId, answers));
    FadesTwice(a, a1, a2);
    if accepted {
      AddSenderFades(a2, p.submissionId);
      FadesTwice(a, a2, AnswerWith(a, p, answers, accepted).0);
    }
  }

  lemma AnswerPendingFades(a: Actor, p: PendingRequest, text: string, accepted: bool)
    ensures Fades(a, AnswerPending(a, p, text, accepted).0)
  {
    var parsed := ParseResponse(p.questions, text);
    if parsed.Ok? {
      AnswerWithFades(a, p, parsed.value, accepted);
    }
  }

  lemma StartPromptFades(a: Actor, route: Route)
    ensures Fades(a, StartPrompt(a, route).0)
  {
    if route.SubmittedAs? {
      var b := Issue(SubmitOp(a, route.op));
      InsertFades(b, route.id, Some(a.w.issued));
      FadesTwice(a, b, StartPrompt(a, route).0);
    }
  }

  lemma PromptFades(a: Actor, p: PromptInput)
    ensures Fades(a, HandlePrompt(a, p).0)
  {
    if a.slot.Some? {
      AnswerPendingFades(a, a.slot.value, p.text, p.answerAccepted);
    } else {
      StartPromptFades(a, p.route);
    }
  }

  lemma TakenMatches(a: Actor)
    requires QueueOk(a.w.tasks, a.w.queue) && Current(a.subs, a.w.tasks) && a.w.queue != []
    requires OpsMatch(a.w.ops)
    ensures OpsMatch(Taken(a).w.ops)
  {
    var m := a.w.queue[0];
    assert a.w.tasks[m.task].phase.Queued?;
  }

  lemma ReceiveFades(a: Actor)
    requires a.w.queue != []
    ensures Fades(a, a.(w := Receive(a.w)))
  {}

  lemma TakeEntryFades(a: Actor, m: Resolution)
    requires m.submission in a.subs && m.key in a.subs[m.submission].interactions
    ensures var b := Put(a, m.submission, TakeEntry(Get(a, m.submission), m));
            TasksFade(a.w.tasks, b.w.tasks) && EntriesFade(a.subs, b.subs)
  {}

  lemma TakenFades(a: Actor)
    requires Inv(a) && Current(a.subs, a.w.tasks) && a.w.queue != []
    ensures Fades(a, Taken(a))
  {
    var m, b := a.w.queue[0], a.(w := Receive(a.w));
    ReceiveFades(a);
    if m.submission in b.subs && m.key in b.subs[m.submission].interactions {
      TakeEntryFades(b, m);
    }
    if OpsMatch(a.w.ops) {
      TakenMatches(a);
    }
  }

  lemma ResolvedFades(a: Actor, accepted: bool)
    requires Inv(a) && Current(a.subs, a.w.tasks) && a.w.queue != []
    ensures Fades(a, HandleResolved(a.(w := Receive(a.w)), a.w.queue[0], accepted))
  {
    var m, b := a.w.queue[0], Taken(a);
    TakenFades(a);
    ResolvedIsTakenThenFailed(a, accepted);
    var failure := ResolveFailure(m, accepted);
    if m.submission in b.subs && failure.Some? {
      AbortAndSendFades(b, m.submission, failure.value);
      FadesTwice(a, b, Put(b, m.submission, SendResult(AbortAll(Get(b, m.submission)), failure.value)));
    }
  }

  // ---------------------------------------------------------------------------------------------
  // Spawning

  /** No result under the key is on its way but that of a request still waiting for the client. */
  ghost predicate KeyFree(a: Actor, id: string, key: string)
    requires id in a.subs
  {
    forall t :: 0 <= t < |a.w.tasks| && a.w.tasks[t].submission == id && a.w.tasks[t].key == key
                && MayDeliver(a.w.tasks[t].phase) ==>
      a.w.tasks[t].phase.Waiting? && key in a.subs[id].interactions && a.subs[id].interactions[key].task == t
  }

  /** After a spawn, results still find their own interactions exactly when the key was free. */
  lemma SpawnKeepsCurrent(a: Actor, id: string, key: string, request: PermissionRequest)
    requires Inv(a) && Current(a.subs, a.w.tasks) && id in a.subs
    ensures var b := Put(a, id, Spawn(Get(a, id), id, key, request));
            Current(b.subs, b.w.tasks) <==> KeyFree(a, id, key)
  {
    var b := Put(a, id, Spawn(Get(a, id), id, key, request));
    var n := |a.w.tasks|;
    assert forall t :: 0 <= t < n ==> b.w.tasks[t].submission == a.w.tasks[t].submission && b.w.tasks[t].key == a.w.tasks[t].key;
    if Current(b.subs, b.w.tasks) {
      forall t | 0 <= t < n && a.w.tasks[t].submission == id && a.w.tasks[t].key == key && MayDeliver(a.w.tasks[t].phase)
        ensures a.w.tasks[t].phase.Waiting? && key in a.subs[id].interactions && a.subs[id].interactions[key].task == t
      {
        assert !MayDeliver(b.w.tasks[t].phase);
      }
    }
    if KeyFree(a, id, key) {
      forall t | 0 <= t < |b.w.tasks| && MayDeliver(b.w.tasks[t].phase)
                 && b.w.tasks[t].submission in b.subs && b.w.tasks[t].key in b.subs[b.w.tasks[t].submission].interactions
        ensures b.subs[b.w.tasks[t].submission].interactions[b.w.tasks[t].key].task == t
      {
        if t < n {
          assert MayDeliver(a.w.tasks[t].phase);
        }
      }
    }
  }

  /** An event that spawns an interaction under a key with a result on its way. */
  ghost predicate ReusesKey(a: Actor, input: Input) {
    && input.CodexEvent? && input.id in a.subs
    && IsRouted(a, input.observed)
    && input.observed.event.Request? && AsksClient(input.observed.event.request)
    && !KeyFree(a, input.id, RequestKey(input.observed.event.request))
  }

  lemma RequestKeepsCurrent(a: Actor, id: string, r: RequestEvent, accepted: bool)
    requires Inv(a) && Current(a.subs, a.w.tasks) && id in a.subs
    ensures var b := Put(a, id, HandleRequest(Get(a, id), id, r, accepted));
            && (Current(b.subs, b.w.tasks) <==> (AsksClient(r) ==> KeyFree(a, id, RequestKey(r))))
            && (OpsMatch(a.w.ops) ==> OpsMatch(b.w.ops))
  {
    var b := Put(a, id, HandleRequest(Get(a, id), id, r, accepted));
    if AsksClient(r) {
      SpawnKeepsCurrent(a, id, RequestKey(r), RequestFor(r));
    } else {
      if r.ElicitationRequest? {
        SubmitOrFailFades(a, id, DeclineOp(r), accepted);
      }
      FadingKeepsCurrent(a, b);
    }
  }

  lemma ShowFades(a: Actor, id: string, ev: Event)
    requires id in a.subs
    ensures Fades(a, Put(a, id, ShowUpdates(Get(a, id), id, a.capable, ev)))
  {}

  lemma DeliverIsShownFirst(a: Actor, id: string, ev: Event, accepted: bool)
    requires id in a.subs
    ensures var shown := Put(a, id, ShowUpdates(Get(a, id), id, a.capable, ev));
            var b := Put(a, id, DeliverEvent(Get(a, id), id, a.capable, ev, accepted));
            && (ev.Request? ==> b == Put(shown, id, HandleRequest(Get(shown, id), id, ev.request, accepted)))
            && (!ev.Request? && EndsTurn(ev) ==> b == Put(shown, id, SendResult(AbortAll(Get(shown, id)), EndResult(ev.end))))
            && (!ev.Request? && !EndsTurn(ev) ==> b == shown)
  {
    var shown := Put(a, id, ShowUpdates(Get(a, id), id, a.capable, ev));
    PutTwice(a, id, Get(shown, id), DeliverEvent(Get(a, id), id, a.capable, ev, accepted));
  }

  lemma ShownRequestKeepsCurrent(a: Actor, id: string, ev: Event, accepted: bool)
    requires id in a.subs && ev.Request?
    requires var shown := Put(a, id, ShowUpdates(Get(a, id), id, a.capable, ev));
             Inv(shown) && Current(shown.subs, shown.w.tasks)
    ensures var shown := Put(a, id, ShowUpdates(Get(a, id), id, a.capable, ev));
            var b := Put(shown, id, HandleRequest(Get(shown, id), id, ev.request, accepted));
            && (Current(b.subs, b.w.tasks) <==> (AsksClient(ev.request) ==> KeyFree(a, id, RequestKey(ev.request))))
            && (OpsMatch(a.w.ops) ==> OpsMatch(b.w.ops))
  {
    var shown := Put(a, id, ShowUpdates(Get(a, id), id, a.capable, ev));
    RequestKeepsCurrent(shown, id, ev.request, accepted);
    assert KeyFree(shown, id, RequestKey(ev.request)) == KeyFree(a, id, RequestKey(ev.request));
  }

  lemma EndKeepsCurrent(a: Actor, id: string, r: PromptResult)
    requires id in a.subs && Current(a.subs, a.w.tasks)
    ensures var b := Put(a, id, SendResult(AbortAll(Get(a, id)), r));
            Current(b.subs, b.w.tasks) && (OpsMatch(a.w.ops) ==> OpsMatch(b.w.ops))
  {
    AbortAndSendFades(a, id, r);
    FadingKeepsCurrent(a, Put(a, id, SendResult(AbortAll(Get(a, id)), r)));
  }

  lemma DeliverKeepsCurrent(a: Actor, id: string, ev: Event, accepted: bool)
    requires Inv(a) && Current(a.subs, a.w.tasks) && id in a.subs
    ensures var b := Put(a, id, DeliverEvent(Get(a, id), id, a.capable, ev, accepted));
            var spawns := ev.Request? && AsksClient(ev.request);
            && (Current(b.subs, b.w.tasks) <==> (spawns ==> KeyFree(a, id, RequestKey(ev.request))))
            && (OpsMatch(a.w.ops) ==> OpsMatch(b.w.ops))
  {
    var shown := Put(a, id, ShowUpdates(Get(a, id), id, a.capable, ev));
    ShowKeeps(a, id, ev);
    ShowFades(a, id, ev);
    FadingKeepsCurrent(a, shown);
    DeliverIsShownFirst(a, id, ev, accepted);
    if ev.Request? {
      ShownRequestKeepsCurrent(a, id, ev, accepted);
    } else if EndsTurn(ev) {
      EndKeepsCurrent(shown, id, EndResult(ev.end));
    }
  }

  /** The invariant on results is kept exactly when no key is reused too early. */
  ghost predicate KeepsCurrentUnless(a: Actor, b: Actor, reused: bool) {
    && (Current(b.subs, b.w.tasks) <==> !reused)
    && (OpsMatch(a.w.ops) ==> OpsMatch(b.w.ops))
  }

  lemma RouteKeepsCurrent(a: Actor, id: string, ev: Event, accepted: bool)
    requires Inv(a) && Current(a.subs, a.w.tasks)
    ensures KeepsCurrentUnless(a, RouteEvent(a, id, ev, accepted),
              id in a.subs && ev.Request? && AsksClient(ev.request) && !KeyFree(a, id, RequestKey(ev.request)))
  {
    if id in a.subs {
      DeliverKeepsCurrent(a, id, ev, accepted);
    }
  }

  lemma EventKeepsCurrent(a: Actor, id: string, o: Observed, accepted: bool)
    requires Inv(a) && Current(a.subs, a.w.tasks)
    ensures KeepsCurrentUnless(a, HandleEvent(a, id, o, accepted), ReusesKey(a, CodexEvent(id, o, accepted)))
  {
    if IsRouted(a, o) {
      RoutedEvent(a, id, o, accepted);
      var b := a.(session := ApplyUpdates(a.session, StateUpdates(o)));
      SameState(a, a, b);
      RouteKeepsCurrent(b, id, o.event, accepted);
      if id in a.subs && o.event.Request? {
        assert KeyFree(b, id, RequestKey(o.event.request)) == KeyFree(a, id, RequestKey(o.event.request));
      }
    } else {
      UnroutedEventEmits(a, id, o, accepted);
    }
  }

  lemma FadingKeeps(a: Actor, b: Actor)
    requires Current(a.subs, a.w.tasks) && Fades(a, b)
    ensures KeepsCurrentUnless(a, b, false)
  {
    FadingKeepsCurrent(a, b);
  }

  lemma AbortEverythingFades(a: Actor, op: Op)
    ensures Fades(a, SubmitOp(AbortEverything(a), op))
  {}

  lemma SteerFades(a: Actor, outcome: SteerOutcome, p: PromptInput)
    ensures Fades(a, Handle(a, Steer(outcome, p)))
  {
    PromptFades(a, p);
  }

  lemma ResultFades(a: Actor, accepted: bool)
    requires Inv(a) && Current(a.subs, a.w.tasks)
    ensures Fades(a, Handle(a, PermissionResolved(accepted)))
  {
    if a.w.queue != [] {
      ResolvedFades(a, accepted);
    }
  }

  lemma SettingFades(a: Actor, input: Input)
    requires !input.Prompt? && !input.Steer? && !input.CancelTurn? && !input.ShutdownSession?
    requires !input.PermissionResolved? && !input.CodexEvent? && !input.EventStreamFailed?
    ensures Fades(a, Handle(a, input))
  {}

  lemma MessagesFade(a: Actor, input: Input)
    requires Inv(a) && Current(a.subs, a.w.tasks) && !input.CodexEvent?
    ensures Fades(a, Handle(a, input))
  {
    match input
    case Prompt(p) => PromptFades(a, p);
    case Steer(outcome, p) => SteerFades(a, outcome, p);
    case CancelTurn => AbortEverythingFades(a, Interrupt);
    case ShutdownSession => AbortEverythingFades(a, Shutdown);
    case PermissionResolved(accepted) => ResultFades(a, accepted);
    case EventStreamFailed => RetainFades(a, {});
    case _ => SettingFades(a, input);
  }

  lemma HandleKeepsCurrent(a: Actor, input: Input)
    requires Inv(a) && Current(a.subs, a.w.tasks)
    ensures KeepsCurrentUnless(a, Handle(a, input), ReusesKey(a, input))
  {
    if input.CodexEvent? {
      EventKeepsCurrent(a, input.id, input.observed, input.accepted);
    } else {
      MessagesFade(a, input);
      FadingKeeps(a, Handle(a, input));
    }
  }

  // ---------------------------------------------------------------------------------------------
  // Runs

  lemma EndOfTurnKeepsCurrent(a: Actor, dropped: set<Sender>)
    requires Current(a.subs, a.w.tasks)
    ensures KeepsCurrentUnless(a, EndOfTurn(a, dropped), false)
  {
    var b := a.(w := DropReceivers(a.w, dropped));
    RetainFades(b, Kept(b));
    FadingKeeps(b, Sweep(b));
  }

  lemma NextKeepsCurrent(a: Actor, step: Step)
    requires Inv(a) && Current(a.subs, a.w.tasks)
    requires step.ActorTurn? && a.status.Running? ==> !ReusesKey(a, step.input)
    ensures KeepsCurrentUnless(a, Next(a, step), false)
  {
    match step
    case ActorTurn(input, dropped) =>
      if a.status.Running? {
        HandleKeepsCurrent(a, input);
        EndOfTurnKeepsCurrent(Handle(a, input), dropped);
      }
    case _ => FadingKeeps(a, Next(a, step));
  }

  /** No event of the run spawns an interaction under a key with a result on its way. */
  ghost predicate ReusesNoKey(a: Actor, steps: seq<Step>) {
    steps == [] ||
    (var init, last := steps[..|steps| - 1], steps[|steps| - 1];
     && ReusesNoKey(a, init)
     && (last.ActorTurn? && Run(a, init).status.Running? ==> !ReusesKey(Run(a, init), last.input)))
  }

  lemma {:induction false} RunKeepsCurrent(a: Actor, steps: seq<Step>)
    requires Inv(a) && Current(a.subs, a.w.tasks) && OpsMatch(a.w.ops)
    requires ReusesNoKey(a, steps)
    ensures var b := Run(a, steps);
            Inv(b) && Grows(a.w, b.w) && Current(b.subs, b.w.tasks) && OpsMatch(b.w.ops)
    decreases |steps|
  {
    if steps != [] {
      var init, last := steps[..|steps| - 1], steps[|steps| - 1];
      RunKeepsCurrent(a, init);
      NextKeeps(Run(a, init), last);
      NextKeepsCurrent(Run(a, init), last);
    }
  }

  /** Unless keys are reused too early, every operation answers the request its result was for. */
  lemma ResultsAnswerTheirOwnRequests(capable: bool, fullAccess: bool, steps: seq<Step>)
    requires ReusesNoKey(Initial(capable, fullAccess), steps)
    ensures OpsMatch(Run(Initial(capable, fullAccess), steps).w.ops)
  {
    RunKeepsCurrent(Initial(capable, fullAccess), steps);
  }

  /**
   From any point of such a run: an interaction that was aborted, replaced or dropped, or whose
   request failed, never causes an operation, even if its result was already queued.
   */
  lemma EndedInteractionsSubmitNothing(a: Actor, steps: seq<Step>, t: TaskId)
    requires Inv(a) && Current(a.subs, a.w.tasks) && OpsMatch(a.w.ops)
    requires ReusesNoKey(a, steps)
    requires t < |a.w.tasks| && !a.w.tasks[t].fate.Pending? && !a.w.tasks[t].fate.Resolved?
    ensures forall op :: op in Run(a, steps).w.ops ==> op.entry != Some(t) && op.via != Some(t)
  {
    RunKeepsCurrent(a, steps);
    var w := Run(a, steps).w;
    forall i | 0 <= i < |w.ops| ensures w.ops[i].entry != Some(t) && w.ops[i].via != Some(t) {
      assert w.tasks[t].fate == a.w.tasks[t].fate;
    }
  }

  // ---------------------------------------------------------------------------------------------
  // When a key is reused

  lemma RequestSpawns(a: Actor, id: string, r: RequestEvent, order: seq<ThreadId>, accepted: bool)
    requires id in a.subs && AsksClient(r) && !a.fullAccess
    ensures var b := HandleEvent(a, id, Observed(Request(r), order), accepted);
            && b.subs.Keys == a.subs.Keys
            && b.subs[id].interactions == a.subs[id].interactions[RequestKey(r) := Entry(|a.w.tasks|, RequestFor(r))]
            && b.w.queue == a.w.queue && b.w.ops == a.w.ops
  {
    RoutedEvent(a, id, Observed(Request(r), order), accepted);
  }

  lemma ResultSubmits(a: Actor, accepted: bool)
    requires a.w.queue != []
    requires var m := a.w.queue[0];
             m.response.Replied? && m.submission in a.subs && m.key in a.subs[m.submission].interactions
    ensures var m := a.w.queue[0];
            var e := a.subs[m.submission].interactions[m.key];
            HandleResolved(a.(w := Receive(a.w)), m, accepted).w.ops
            == a.w.ops + [Submitted(OpFor(e.request, m.response.outcome), Some(e.task), Some(m.task))]
  {
    ResolvedIsTakenThenFailed(a, accepted);
  }

  /** A queued result is taken for whatever request holds its key by then. */
  lemma QueuedResultAnswersTheNewRequest(a: Actor, r: RequestEvent, order: seq<ThreadId>, accepted: bool, accepted': bool)
    requires a.w.queue != [] && !a.fullAccess
    requires a.w.queue[0].submission in a.subs && a.w.queue[0].response.Replied?
    requires AsksClient(r) && RequestKey(r) == a.w.queue[0].key
    ensures var m := a.w.queue[0];
            var b := HandleEvent(a, m.submission, Observed(Request(r), order), accepted);
            var op := Submitted(OpFor(RequestFor(r), m.response.outcome), Some(|a.w.tasks|), Some(m.task));
            b.w.queue == a.w.queue && HandleResolved(b.(w := Receive(b.w)), m, accepted').w.ops == a.w.ops + [op]
  {
    var m := a.w.queue[0];
    RequestSpawns(a, m.submission, r, order, accepted);
    var b := HandleEvent(a, m.submission, Observed(Request(r), order), accepted);
    ResultSubmits(b, accepted');
  }

  const PATCH := PatchApprovalRequest("c")
  const KEY := RequestKey(PATCH)
  const ASK := CodexEvent("s", Observed(Request(PATCH), []), true)

  /** A submission "s" with one waiting caller and nothing else in the actor. */
  ghost predicate Alone(a: Actor, interactions: map<string, Entry>, tasks: seq<Task>, queue: seq<Resolution>) {
    && a.status.Running? && a.slot.None? && !a.fullAccess
    && a.subs.Keys == {"s"} && a.subs["s"].responses == Responses(Some(0), []) && a.subs["s"].interactions == interactions
    && a.w.open == {0} && a.w.tasks == tasks && a.w.queue == queue
  }

  lemma SweepKeepsAlone(a: Actor, interactions: map<string, Entry>, tasks: seq<Task>, queue: seq<Resolution>)
    requires Alone(a, interactions, tasks, queue)
    ensures Alone(Sweep(a.(w := DropReceivers(a.w, {}))), interactions, tasks, queue)
  {
    var b := a.(w := DropReceivers(a.w, {}));
    assert b.w.open == {0};
    assert Kept(b) == {"s"};
    assert TasksOutside(b.subs, {"s"}) == {};
    assert Sweep(b).w.tasks == tasks;
  }

  function Turned(a: Actor, input: Input): Actor {
    Turn(a, input, {})
  }

  lemma TurnKeepsAlone(
      a: Actor, input: Input, interactions: map<string, Entry>, tasks: seq<Task>, queue: seq<Resolution>)
    requires a.status.Running? && Alone(Handle(a, input), interactions, tasks, queue)
    ensures Alone(Turned(a, input), interactions, tasks, queue)
  {
    SweepKeepsAlone(Handle(a, input), interactions, tasks, queue);
  }

  const FIRST_PROMPT := Prompt(PromptInput("", SubmittedAs("s", UserTurn("")), true))

  lemma PromptAlone(a: Actor)
    requires a == Initial(false, false)
    ensures Alone(Turned(a, FIRST_PROMPT), map[], [], [])
  {
    var b := HandlePrompt(a, FIRST_PROMPT.prompt).0;
    assert b.subs == map["s" := NewSubmission(Some(0))];
    assert b.w.open == {0} && b.w.tasks == [];
    TurnKeepsAlone(a, FIRST_PROMPT, map[], [], []);
  }

  lemma AskedAlone(a: Actor, tasks: seq<Task>, queue: seq<Resolution>)
    requires Alone(a, map[], tasks, queue)
    ensures Alone(HandleEvent(a, ASK.id, ASK.observed, true), map[KEY := Entry(|tasks|, RequestFor(PATCH))],
                  tasks + [Task("s", KEY, Waiting, Pending)], queue)
  {
    RequestSpawns(a, "s", PATCH, [], true);
    RoutedEvent(a, "s", Observed(Request(PATCH), []), true);
    assert SettleAll(tasks, {}, Replaced) == tasks;
  }

  lemma AskAlone(a: Actor, tasks: seq<Task>, queue: seq<Resolution>)
    requires Alone(a, map[], tasks, queue)
    ensures Alone(Turned(a, ASK), map[KEY := Entry(|tasks|, RequestFor(PATCH))],
                  tasks + [Task("s", KEY, Waiting, Pending)], queue)
  {
    AskedAlone(a, tasks, queue);
    TurnKeepsAlone(a, ASK, map[KEY := Entry(|tasks|, RequestFor(PATCH))], tasks + [Task("s", KEY, Waiting, Pending)], queue);
  }

  lemma CancelAlone(a: Actor, e: Entry, task: Task, queue: seq<Resolution>)
    requires e.task == 0 && Alone(a, map[KEY := e], [task], queue)
    ensures Alone(Turned(a, CancelTurn), map[], [Settle(task, Aborted)], queue)
  {
    var b := Handle(a, CancelTurn);
    assert TasksOutside(a.subs, {}) == {0} by {
      assert "s" in a.subs && KEY in a.subs["s"].interactions;
    }
    assert b.w.tasks == [Settle(task, Aborted)];
    TurnKeepsAlone(a, CancelTurn, map[], [Settle(task, Aborted)], queue);
  }

  /** A state some run of a new actor leads to. */
  ghost predicate Reachable(a: Actor) {
    exists steps: seq<Step> :: a == Run(Initial(false, false), steps)
  }

  lemma ReachableNext(a: Actor, step: Step)
    requires Reachable(a)
    ensures Reachable(Next(a, step))
  {
    var steps: seq<Step> :| a == Run(Initial(false, false), steps);
    assert (steps + [step])[..|steps|] == steps;
    assert Next(a, step) == Run(Initial(false, false), steps + [step]);
  }

  lemma PromptStep() returns (b: Actor)
    ensures Reachable(b) && Alone(b, map[], [], [])
  {
    var a := Initial(false, false);
    assert Run(a, []) == a;
    b := Turned(a, FIRST_PROMPT);
    ReachableNext(a, ActorTurn(FIRST_PROMPT, {}));
    PromptAlone(a);
  }

  lemma AskStep(a: Actor, tasks: seq<Task>, queue: seq<Resolution>) returns (b: Actor)
    requires Reachable(a) && Alone(a, map[], tasks, queue)
    ensures Reachable(b)
    ensures Alone(b, map[KEY := Entry(|tasks|, RequestFor(PATCH))],
                  tasks + [Task("s", KEY, Waiting, Pending)], queue)
  {
    b := Turned(a, ASK);
    ReachableNext(a, ActorTurn(ASK, {}));
    AskAlone(a, tasks, queue);
  }

  lemma ReplyStep(a: Actor, e: Entry, reply: Response) returns (b: Actor)
    requires Reachable(a) && Alone(a, map[KEY := e], [Task("s", KEY, Waiting, Pending)], [])
    ensures Reachable(b)
    ensures Alone(b, map[KEY := e], [Task("s", KEY, Queued, Pending)], [Resolution("s", KEY, reply, 0)])
  {
    var a1 := Next(a, ClientReply(0, reply));
    ReachableNext(a, ClientReply(0, reply));
    b := Next(a1, TaskSend(0));
    ReachableNext(a1, TaskSend(0));
  }

  lemma CancelStep(a: Actor, e: Entry, task: Task, queue: seq<Resolution>) returns (b: Actor)
    requires Reachable(a) && e.task == 0 && Alone(a, map[KEY := e], [task], queue)
    ensures Reachable(b) && Alone(b, map[], [Settle(task, Aborted)], queue)
  {
    b := Turned(a, CancelTurn);
    ReachableNext(a, ActorTurn(CancelTurn, {}));
    CancelAlone(a, e, task, queue);
  }

  /** The client approves a patch, the turn is cancelled before the actor sees it, the call asks again. */
  lemma CancelledThenAskedAgain() returns (a: Actor)
    ensures Reachable(a)
    ensures Alone(a, map[KEY := Entry(1, RequestFor(PATCH))],
                  [Task("s", KEY, Queued, Aborted), Task("s", KEY, Waiting, Pending)],
                  [Resolution("s", KEY, Replied(Selected(APPROVED)), 0)])
  {
    var reply := Replied(Selected(APPROVED));
    var queue := [Resolution("s", KEY, reply, 0)];
    var e := Entry(0, RequestFor(PATCH));
    var a1 := PromptStep();
    var a2 := AskStep(a1, [], []);
    var a3 := ReplyStep(a2, e, reply);
    var a4 := CancelStep(a3, e, Task("s", KEY, Queued, Pending), queue);
    a := AskStep(a4, [Task("s", KEY, Queued, Aborted)], queue);
  }

  /** Task 0 was aborted, and the next result the actor takes is its, under a key now held by task 1. */
  ghost predicate AnswersWithAborted(a: Actor) {
    && |a.w.tasks| == 2 && a.w.tasks[0].fate.Aborted?
    && a.w.queue != []
    && exists op :: Handle(a, PermissionResolved(true)).w.ops == a.w.ops + [Submitted(op, Some(1), Some(0))]
  }

  lemma ResolvingSubmits(a: Actor)
    requires a.w.queue != []
    requires var m := a.w.queue[0];
             && m.response.Replied? && m.submission in a.subs && m.key in a.subs[m.submission].interactions
             && m.task == 0 && a.subs[m.submission].interactions[m.key].task == 1
    requires |a.w.tasks| == 2 && a.w.tasks[0].fate.Aborted?
    ensures AnswersWithAborted(a)
  {
    ResultSubmits(a, true);
  }

  /** There is a run in which an aborted request causes an operation, on the next request of its call. */
  lemma AbortedResultAnswersTheNextRequest()
    ensures exists a :: Reachable(a) && AnswersWithAborted(a)
  {
    var a := CancelledThenAskedAgain();
    ResolvingSubmits(a);
  }
}
