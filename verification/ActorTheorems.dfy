/** What holds over every run of the actor: no answer lost or doubled, no interaction lost. */
module ActorTheorems {
  import opened Wrappers
  import opened Approval
  import opened Events
  import opened SessionState
  import opened Runtime
  import opened SubmissionModel
  import opened ActorModel
  import opened ActorInvariants
  import opened StaleResults

  // ---------------------------------------------------------------------------------------------
  // Answers

  /** No step of the run starts a submission under the id of a waiting one, or loses the events. */
  ghost predicate LosesNoCaller(a: Actor, steps: seq<Step>) {
    steps == [] ||
    (var init := steps[..|steps| - 1];
     LosesNoCaller(a, init) && !StepLosesCaller(Run(a, init), steps[|steps| - 1]))
  }

  lemma InitialOk(capable: bool, fullAccess: bool)
    ensures var a := Initial(capable, fullAccess); Inv(a) && Accounted(a.subs, a.w)
  {}

  lemma {:induction false} RunKeeps(a: Actor, steps: seq<Step>)
    requires Inv(a)
    ensures Inv(Run(a, steps)) && Grows(a.w, Run(a, steps).w)
    ensures LosesNoCaller(a, steps) && Accounted(a.subs, a.w) ==> Accounted(Run(a, steps).subs, Run(a, steps).w)
    decreases |steps|
  {
    if steps != [] {
      var init := steps[..|steps| - 1];
      RunKeeps(a, init);
      NextKeeps(Run(a, init), steps[|steps| - 1]);
    }
  }

  /** Whatever happens, no caller is answered twice, and no sender is in two hands. */
  lemma NoCallerIsAnsweredTwice(capable: bool, fullAccess: bool, steps: seq<Step>)
    ensures var a := Run(Initial(capable, fullAccess), steps);
            && (forall i, j :: 0 <= i < j < |a.w.sent| ==> a.w.sent[i].sender != a.w.sent[j].sender)
            && (forall x :: Held(a.subs, x) ==> !WasSent(a.w.sent, x))
            && (forall id, id', x :: id in a.subs && id' in a.subs && x in HeldBy(a.subs, id) && x in HeldBy(a.subs, id') ==> id == id')
  {
    InitialOk(capable, fullAccess);
    RunKeeps(Initial(capable, fullAccess), steps);
  }

  /** While submission ids are fresh and events keep coming, a waiting caller was answered or is held. */
  lemma EveryWaitingCallerIsAnsweredOrHeld(capable: bool, fullAccess: bool, steps: seq<Step>)
    requires LosesNoCaller(Initial(capable, fullAccess), steps)
    ensures var a := Run(Initial(capable, fullAccess), steps);
            forall x :: x in a.w.open ==> (WasSent(a.w.sent, x) <==> !Held(a.subs, x))
  {
    InitialOk(capable, fullAccess);
    RunKeeps(Initial(capable, fullAccess), steps);
  }

  /** Starting a submission under the id of a waiting one loses that one's caller. */
  ghost predicate LosesItsCaller(a: Actor, p: PromptInput) {
    && Overwrites(a, p)
    && exists x :: x in a.w.open && Held(a.subs, x)
                   && !Held(HandlePrompt(a, p).0.subs, x) && !WasSent(HandlePrompt(a, p).0.w.sent, x)
  }

  lemma ReusedIdLosesItsCaller()
    ensures exists a :: Reachable(a) && LosesItsCaller(a, FIRST_PROMPT.prompt)
  {
    var a := PromptStep();
    var steps: seq<Step> :| a == Run(Initial(false, false), steps);
    InitialOk(false, false);
    RunKeeps(Initial(false, false), steps);
    LosesTheOnlyCaller(a);
  }

  lemma LosesTheOnlyCaller(a: Actor)
    requires Inv(a) && Alone(a, map[], [], [])
    ensures LosesItsCaller(a, FIRST_PROMPT.prompt)
  {
    assert HeldBy(a.subs, "s") == [0];
    assert 0 in HeldBy(a.subs, "s");
    var b := HandlePrompt(a, FIRST_PROMPT.prompt).0;
    assert HeldBy(b.subs, "s") == [a.w.issued];
    assert b.subs.Keys == {"s"};
    assert !Held(b.subs, 0);
  }

  lemma PromptKeepsStatus(a: Actor, p: PromptInput)
    ensures HandlePrompt(a, p).0.status == a.status
  {}

  lemma EventKeepsStatus(a: Actor, id: string, o: Observed, accepted: bool)
    ensures HandleEvent(a, id, o, accepted).status == a.status
  {}

  lemma MessagesKeepStatus(a: Actor, input: Input)
    ensures Handle(a, input).status == if input.EventStreamFailed? then EventStreamLost else a.status
  {
    match input
    case Prompt(p) => PromptKeepsStatus(a, p);
    case Steer(_, p) => PromptKeepsStatus(a, p);
    case CodexEvent(id, o, accepted) => EventKeepsStatus(a, id, o, accepted);
    case _ =>
  }

  lemma DrainedIsEmptyNext(a: Actor, step: Step)
    requires a.status.Drained? ==> a.subs == map[]
    ensures Next(a, step).status.Drained? ==> Next(a, step).subs == map[]
  {
    if step.ActorTurn? {
      MessagesKeepStatus(a, step.input);
    }
  }

  lemma {:induction false} DrainedIsEmpty(capable: bool, fullAccess: bool, steps: seq<Step>)
    ensures var a := Run(Initial(capable, fullAccess), steps); a.status.Drained? ==> a.subs == map[]
    decreases |steps|
  {
    if steps != [] {
      var init := steps[..|steps| - 1];
      DrainedIsEmpty(capable, fullAccess, init);
      DrainedIsEmptyNext(Run(Initial(capable, fullAccess), init), steps[|steps| - 1]);
    }
  }

  /** When the loop ends because there is nothing left to do, nobody waits. */
  lemma DrainLeavesNobodyWaiting(capable: bool, fullAccess: bool, steps: seq<Step>)
    requires LosesNoCaller(Initial(capable, fullAccess), steps)
    requires Run(Initial(capable, fullAccess), steps).status.Drained?
    ensures var a := Run(Initial(capable, fullAccess), steps); forall x :: x in a.w.open ==> WasSent(a.w.sent, x)
  {
    DrainedIsEmpty(capable, fullAccess, steps);
    EveryWaitingCallerIsAnsweredOrHeld(capable, fullAccess, steps);
  }

  /** An answer to pending questions always finds its submission. */
  lemma NeverMissesItsSubmission(a: Actor, p: PromptInput)
    ensures var reply := HandlePrompt(a, p).1; reply.Err? ==> !reply.error.MissingSubmission?
  {}

  // ---------------------------------------------------------------------------------------------
  // Interactions

  ghost function CountFate(tasks: seq<Task>, fate: Fate): nat {
    if tasks == [] then 0
    else CountFate(tasks[..|tasks| - 1], fate) + if tasks[|tasks| - 1].fate == fate then 1 else 0
  }

  ghost function HeldKeys(subs: map<string, Submission>): set<(string, string)> {
    set id, k | id in subs && k in subs[id].interactions :: (id, k)
  }

  ghost function PendingTasks(tasks: seq<Task>): set<TaskId> {
    set t: TaskId | t < |tasks| && tasks[t].fate.Pending?
  }

  lemma {:induction false} PendingTasksCounted(tasks: seq<Task>)
    ensures |PendingTasks(tasks)| == CountFate(tasks, Pending)
    decreases |tasks|
  {
    if tasks == [] {
      assert PendingTasks(tasks) == {};
    } else {
      var n := |tasks| - 1;
      PendingTasksCounted(tasks[..n]);
      var rest := PendingTasks(tasks[..n]);
      assert n !in rest;
      assert PendingTasks(tasks) == if tasks[n].fate.Pending? then rest + {n} else rest;
    }
  }

  lemma {:induction false} EachTaskHasOneFate(tasks: seq<Task>)
    ensures |tasks| == CountFate(tasks, Pending) + CountFate(tasks, Resolved) + CountFate(tasks, Failed)
                     + CountFate(tasks, Aborted) + CountFate(tasks, Replaced) + CountFate(tasks, Dropped)
    decreases |tasks|
  {
    if tasks != [] {
      EachTaskHasOneFate(tasks[..|tasks| - 1]);
    }
  }

  ghost predicate AreHeld(subs: map<string, Submission>, keys: set<(string, string)>) {
    forall p :: p in keys ==> p.0 in subs && p.1 in subs[p.0].interactions
  }

  ghost function TasksAt(subs: map<string, Submission>, keys: set<(string, string)>): set<TaskId>
    requires AreHeld(subs, keys)
  {
    set p | p in keys :: subs[p.0].interactions[p.1].task
  }

  lemma {:induction false} OneTaskPerKey(subs: map<string, Submission>, tasks: seq<Task>, keys: set<(string, string)>)
    requires TasksOk(subs, tasks) && AreHeld(subs, keys)
    ensures |TasksAt(subs, keys)| == |keys|
    decreases |keys|
  {
    if keys == {} {
      assert TasksAt(subs, keys) == {};
    } else {
      var p :| p in keys;
      var rest := keys - {p};
      var t := subs[p.0].interactions[p.1].task;
      OneTaskPerKey(subs, tasks, rest);
      assert t !in TasksAt(subs, rest) by {
        forall q | q in rest ensures subs[q.0].interactions[q.1].task != t {
          assert EntryOk(tasks, p.0, p.1, subs[p.0].interactions[p.1]);
          assert EntryOk(tasks, q.0, q.1, subs[q.0].interactions[q.1]);
        }
      }
      assert keys == rest + {p};
      assert TasksAt(subs, keys) == TasksAt(subs, rest) + {t};
    }
  }

  lemma HeldKeysArePending(subs: map<string, Submission>, tasks: seq<Task>)
    requires TasksOk(subs, tasks)
    ensures |HeldKeys(subs)| == CountFate(tasks, Pending)
  {
    var keys := HeldKeys(subs);
    OneTaskPerKey(subs, tasks, keys);
    PendingTasksCounted(tasks);
    forall t | t in PendingTasks(tasks) ensures t in TasksAt(subs, keys) {
      assert TaskHeld(subs, t, tasks[t]);
      assert (tasks[t].submission, tasks[t].key) in keys;
    }
    assert TasksAt(subs, keys) == PendingTasks(tasks);
  }

  /** Every interaction ever spawned is pending under a key, or had exactly one end. */
  lemma InteractionsAreConserved(capable: bool, fullAccess: bool, steps: seq<Step>)
    ensures var a := Run(Initial(capable, fullAccess), steps); var ts := a.w.tasks;
            |ts| == |HeldKeys(a.subs)| + CountFate(ts, Resolved) + CountFate(ts, Failed)
                  + CountFate(ts, Aborted) + CountFate(ts, Replaced) + CountFate(ts, Dropped)
  {
    var a := Run(Initial(capable, fullAccess), steps);
    InitialOk(capable, fullAccess);
    RunKeeps(Initial(capable, fullAccess), steps);
    HeldKeysArePending(a.subs, a.w.tasks);
    EachTaskHasOneFate(a.w.tasks);
  }

  /** Over every run an interaction causes at most one operation, and only by being resolved. */
  lemma OneOperationPerInteraction(capable: bool, fullAccess: bool, steps: seq<Step>)
    ensures var w := Run(Initial(capable, fullAccess), steps).w;
            forall i :: 0 <= i < |w.ops| && w.ops[i].entry.Some? ==>
              && w.ops[i].entry.value < |w.tasks| && w.tasks[w.ops[i].entry.value].fate.Resolved?
              && forall j :: 0 <= j < |w.ops| && w.ops[j].entry == w.ops[i].entry ==> i == j
  {
    InitialOk(capable, fullAccess);
    RunKeeps(Initial(capable, fullAccess), steps);
  }

  /** An interaction's end is final: no later step changes it. */
  lemma FatesAreFinal(a: Actor, steps: seq<Step>, t: TaskId)
    requires Inv(a) && t < |a.w.tasks| && !a.w.tasks[t].fate.Pending?
    ensures t < |Run(a, steps).w.tasks| && Run(a, steps).w.tasks[t].fate == a.w.tasks[t].fate
  {
    RunKeeps(a, steps);
  }

  // ---------------------------------------------------------------------------------------------
  // The end of a turn

  /** What is left of the submission when its end was handled, before the sweep. */
  ghost function Ended(a: Actor, id: string, ev: Event): Actor
    requires id in a.subs && EndsTurn(ev)
  {
    var shown := ShowUpdates(Get(a, id), id, a.capable, ev);
    Put(a, id, SendResult(AbortAll(shown), EndResult(ev.end))).(slot := ClearFor(a.slot, id))
  }

  lemma EndEvent(a: Actor, id: string, o: Observed, accepted: bool)
    requires id in a.subs && EndsTurn(o.event)
    ensures HandleEvent(a, id, o, accepted) == Ended(a, id, o.event)
  {
    RoutedEvent(a, id, o, accepted);
    assert a.(session := ApplyUpdates(a.session, StateUpdates(o))) == a;
  }

  lemma EndAborts(a: Actor, id: string, ev: Event, t: TaskId)
    requires Inv(a) && id in a.subs && EndsTurn(ev)
    requires t < |a.w.tasks| && a.w.tasks[t].submission == id && a.w.tasks[t].fate.Pending?
    ensures Ended(a, id, ev).w.tasks[t].fate.Aborted?
  {
    assert TaskHeld(a.subs, t, a.w.tasks[t]);
    assert t in TasksOf(a.subs[id].interactions);
  }

  /** Every caller of the submission got this result, and nobody else got any. */
  ghost predicate AnswersAll(a: Actor, b: Actor, id: string, r: PromptResult)
    requires id in a.subs
  {
    b.w.sent == a.w.sent + Deliveries(HeldBy(a.subs, id), r)
  }

  /** All callers of the submission learned how it ended, its interactions are aborted, nothing else moved. */
  ghost predicate EndsSubmission(a: Actor, b: Actor, id: string, ev: Event)
    requires id in a.subs && EndsTurn(ev)
  {
    && (match ev.end
        case TurnComplete(_) => AnswersAll(a, b, id, Ok(EndTurn))
        case Error(message) => AnswersAll(a, b, id, Err(message))
        case _ => AnswersAll(a, b, id, Ok(StopReason.Cancelled)))
    && b.w.ops == a.w.ops
    && |b.w.tasks| == |a.w.tasks|
    && (forall t :: 0 <= t < |a.w.tasks| && a.w.tasks[t].submission == id && a.w.tasks[t].fate.Pending? ==>
          b.w.tasks[t].fate.Aborted?)
    && (forall other :: other in b.subs && other != id ==> other in a.subs && b.subs[other] == a.subs[other])
    && (b.slot.Some? ==> b.slot.value.submissionId != id)
  }

  lemma EndedSubmission(a: Actor, id: string, ev: Event)
    requires Inv(a) && id in a.subs && EndsTurn(ev)
    ensures EndsSubmission(a, Ended(a, id, ev), id, ev)
    ensures Ended(a, id, ev).subs[id].responses == Responses(None, [])
  {
    var b := Ended(a, id, ev);
    forall t | 0 <= t < |a.w.tasks| && a.w.tasks[t].submission == id && a.w.tasks[t].fate.Pending?
      ensures b.w.tasks[t].fate.Aborted?
    {
      EndAborts(a, id, ev, t);
    }
  }

  /** Other submissions are left as they were, those somebody waits for or whose questions are pending. */
  ghost predicate LeavesOthers(a: Actor, b: Actor, id: string, dropped: set<Sender>) {
    forall other :: other in a.subs && other != id ==>
      && (other in b.subs <==> IsActive(a.subs[other].responses, a.w.open - dropped)
                               || (a.slot.Some? && a.slot.value.submissionId == other))
      && (other in b.subs ==> b.subs[other] == a.subs[other])
  }

  lemma EndedLeavesOthers(a: Actor, id: string, ev: Event, dropped: set<Sender>)
    requires Inv(a) && id in a.subs && EndsTurn(ev) && Inv(Ended(a, id, ev))
    ensures var b := Ended(a, id, ev); LeavesOthers(a, Sweep(b.(w := DropReceivers(b.w, dropped))), id, dropped)
  {
    var b := Ended(a, id, ev);
    var b' := b.(w := DropReceivers(b.w, dropped));
    DropReceiversKeeps(b, dropped);
    SweepKeeps(b');
  }

  lemma SweepEndsSubmission(a: Actor, b: Actor, id: string, ev: Event, dropped: set<Sender>)
    requires id in a.subs && EndsTurn(ev) && EndsSubmission(a, b, id, ev)
    requires Inv(b)
    requires id in b.subs ==> b.subs[id].responses == Responses(None, [])
    ensures var c := Sweep(b.(w := DropReceivers(b.w, dropped)));
            EndsSubmission(a, c, id, ev) && id !in c.subs
  {
    var b' := b.(w := DropReceivers(b.w, dropped));
    DropReceiversKeeps(b, dropped);
    SweepKeeps(b');
  }

  lemma TurnOfEnd(a: Actor, id: string, o: Observed, accepted: bool, dropped: set<Sender>)
    requires a.status.Running? && id in a.subs && EndsTurn(o.event)
    ensures var b := Ended(a, id, o.event);
            var swept := Sweep(b.(w := DropReceivers(b.w, dropped)));
            Turn(a, CodexEvent(id, o, accepted), dropped)
            == if !swept.messagesOpen && swept.subs == map[] then swept.(status := Drained) else swept
  {
    EndEvent(a, id, o, accepted);
  }

  /**
   The turn that handles the end of a submission leaves nothing of it: all its callers got the same
   result, its pending interactions are aborted, and neither the map nor the slot names it.
   */
  lemma EndOfTurnLeavesNothing(a: Actor, id: string, o: Observed, accepted: bool, dropped: set<Sender>)
    requires Inv(a) && a.status.Running? && id in a.subs && EndsTurn(o.event)
    ensures var b := Turn(a, CodexEvent(id, o, accepted), dropped);
            EndsSubmission(a, b, id, o.event) && id !in b.subs && LeavesOthers(a, b, id, dropped)
  {
    var b := Ended(a, id, o.event);
    TurnOfEnd(a, id, o, accepted, dropped);
    EndEvent(a, id, o, accepted);
    EventKeeps(a, id, o, accepted);
    EndedSubmission(a, id, o.event);
    SweepEndsSubmission(a, b, id, o.event, dropped);
    EndedLeavesOthers(a, id, o.event, dropped);
  }

  /** In every later run too, a caller of an ended submission has that one result and no other. */
  lemma CallersLearnHowItEnded(
      a: Actor, id: string, o: Observed, accepted: bool, dropped: set<Sender>, steps: seq<Step>, x: Sender, r: PromptResult)
    requires Inv(a) && a.status.Running? && id in a.subs && EndsTurn(o.event) && x in HeldBy(a.subs, id)
    ensures Sent(x, r) in Run(Turn(a, CodexEvent(id, o, accepted), dropped), steps).w.sent <==>
              match o.event.end
              case TurnComplete(_) => r == Ok(EndTurn)
              case Error(message) => r == Err(message)
              case _ => r == Ok(StopReason.Cancelled)
  {
    var b := Turn(a, CodexEvent(id, o, accepted), dropped);
    EndOfTurnLeavesNothing(a, id, o, accepted, dropped);
    NextKeeps(a, ActorTurn(CodexEvent(id, o, accepted), dropped));
    RunKeeps(b, steps);
    var result := match o.event.end
      case TurnComplete(_) => Ok(EndTurn)
      case Error(message) => Err(message)
      case _ => Ok(StopReason.Cancelled);
    EveryoneIsAnswered(a, b, id, x, result);
    AnsweredOnce(b, Run(b, steps), Sent(x, result), r);
  }

  lemma EveryoneIsAnswered(a: Actor, b: Actor, id: string, x: Sender, r: PromptResult)
    requires id in a.subs && x in HeldBy(a.subs, id) && AnswersAll(a, b, id, r)
    ensures Sent(x, r) in b.w.sent
  {
    var i :| 0 <= i < |HeldBy(a.subs, id)| && HeldBy(a.subs, id)[i] == x;
    assert Deliveries(HeldBy(a.subs, id), r)[i] == Sent(x, r);
    assert b.w.sent[|a.w.sent| + i] == Sent(x, r);
  }

  lemma AnsweredOnce(b: Actor, c: Actor, s: Sent, r: PromptResult)
    requires Inv(c) && Grows(b.w, c.w) && s in b.w.sent
    ensures Sent(s.sender, r) in c.w.sent <==> r == s.result
  {
    assert s in c.w.sent;
  }

  /** Once its turn ended, no request of the submission ever causes an operation. */
  lemma EndedTurnSubmitsNothing(
      a: Actor, id: string, o: Observed, accepted: bool, dropped: set<Sender>, steps: seq<Step>, t: TaskId)
    requires Inv(a) && Current(a.subs, a.w.tasks) && OpsMatch(a.w.ops)
    requires a.status.Running? && id in a.subs && EndsTurn(o.event)
    requires t < |a.w.tasks| && a.w.tasks[t].submission == id && a.w.tasks[t].fate.Pending?
    requires ReusesNoKey(Turn(a, CodexEvent(id, o, accepted), dropped), steps)
    ensures forall op :: op in Run(Turn(a, CodexEvent(id, o, accepted), dropped), steps).w.ops ==>
              op.entry != Some(t) && op.via != Some(t)
  {
    var step := ActorTurn(CodexEvent(id, o, accepted), dropped);
    EndOfTurnLeavesNothing(a, id, o, accepted, dropped);
    NextKeeps(a, step);
    NextKeepsCurrent(a, step);
    EndedInteractionsSubmitNothing(Next(a, step), steps, t);
  }

  /**
   An abort that names no turn clears the pending questions of its submission, shows the end of its
   running search, and changes nothing else.
   */
  lemma AnonymousAbortEndsNothing(a: Actor, id: string, order: seq<ThreadId>, accepted: bool)
    requires id in a.subs
    ensures var ev := End(TurnAborted(None));
            HandleEvent(a, id, Observed(ev, order), accepted)
            == Put(a, id, ShowUpdates(Get(a, id), id, a.capable, ev)).(slot := ClearFor(a.slot, id))
    ensures var b := HandleEvent(a, id, Observed(End(TurnAborted(None)), order), accepted);
            && b.w == a.w.(shown := b.w.shown) && b.session == a.session && b.subs.Keys == a.subs.Keys
            && b.subs[id].responses == a.subs[id].responses && b.subs[id].interactions == a.subs[id].interactions
            && forall other :: other in a.subs && other != id ==> b.subs[other] == a.subs[other]
  {
    var o := Observed(End(TurnAborted(None)), order);
    RoutedEvent(a, id, o, accepted);
    assert a.(session := ApplyUpdates(a.session, StateUpdates(o))) == a;
  }

  /** In full-access mode a command or patch is approved as asked, and nothing else changes. */
  lemma FullAccessApprovesAtOnce(a: Actor, id: string, r: RequestEvent, order: seq<ThreadId>, accepted: bool)
    requires a.fullAccess && (r.ExecApprovalRequest? || r.PatchApprovalRequest?)
    ensures var approval :=
              if r.PatchApprovalRequest? then PatchApproval(r.callId, Approved)
              else ExecApproval(if r.approvalId.Some? then r.approvalId.value else r.callId, Some(r.turnId), Approved);
            HandleEvent(a, id, Observed(Request(r), order), accepted)
            == a.(w := a.w.(ops := a.w.ops + [Submitted(approval, None, None)]))
  {
    assert a.(session := ApplyUpdates(a.session, StateUpdates(Observed(Request(r), order)))) == a;
  }

  // ---------------------------------------------------------------------------------------------
  // Live handling and replay

  /** The events of a live session, each with its submission and whether Codex accepts what it submits. */
  datatype Live = Live(id: string, observed: Observed, accepted: bool)

  function HandleAll(a: Actor, events: seq<Live>): Actor
    decreases |events|
  {
    if events == [] then a
    else HandleAll(HandleEvent(a, events[0].id, events[0].observed, events[0].accepted), events[1..])
  }

  lemma EventUpdatesSession(a: Actor, id: string, o: Observed, accepted: bool)
    ensures HandleEvent(a, id, o, accepted).session == LiveUpdate(a.session, o)
  {
    if IsRouted(a, o) {
      RoutedEvent(a, id, o, accepted);
    }
  }

  /** And it changes the pending slot as live handling does: asking fills it, an end clears its own. */
  lemma EventUpdatesSlot(a: Actor, id: string, o: Observed, accepted: bool)
    ensures HandleEvent(a, id, o, accepted).slot == LiveSlot(a.slot, id, o.event)
  {
    if IsRouted(a, o) {
      RoutedEvent(a, id, o, accepted);
    }
  }

  function History(events: seq<Live>): (r: seq<Observed>)
    ensures |r| == |events|
    ensures forall i :: 0 <= i < |r| ==> r[i] == events[i].observed
  {
    seq(|events|, i requires 0 <= i < |events| => events[i].observed)
  }

  lemma {:induction false} EventsUpdateSession(a: Actor, events: seq<Live>)
    ensures HandleAll(a, events).session == LiveRun(a.session, History(events))
    decreases |events|
  {
    if events != [] {
      var first := events[0];
      var b := HandleEvent(a, first.id, first.observed, first.accepted);
      EventUpdatesSession(a, first.id, first.observed, first.accepted);
      EventsUpdateSession(b, events[1..]);
      assert History(events)[1..] == History(events[1..]);
    }
  }

  /**
   An actor that replays a history ends with the session state of one that lived through it,
   whatever else happened to its submissions and in whichever order statuses were visited.
   */
  lemma ReplayRebuildsSession(live: Actor, replaying: Actor, events: seq<Live>, history: seq<Observed>)
    requires live.session == replaying.session
    requires |history| == |events|
    requires forall i :: 0 <= i < |events| ==>
               && events[i].observed.event == history[i].event
               && WellObserved(events[i].observed) && WellObserved(history[i])
    ensures HandleAll(live, events).session == Handle(replaying, ReplayHistory(history)).session
  {
    EventsUpdateSession(live, events);
    ReplayRebuildsLiveState(live.session, History(events), history);
  }
}
