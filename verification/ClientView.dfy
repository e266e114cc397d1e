/**
 What the client is shown of one submission over whole runs of the actor: the stream of the events
 delivered to it, whatever stands between them.
 */
module ClientView {
  import opened Wrappers
  import opened Approval
  import opened UserInput
  import opened Events
  import opened SessionState
  import opened StreamModel = Streams
  import UpdateOrigins
  import opened Runtime
  import opened SubmissionModel
  import opened ActorModel
  import opened ActorInvariants

  // ---------------------------------------------------------------------------------------------
  // What a step inserts, delivers and shows

  /** The submission a prompt inserts: one for questions of an unknown submission, or that of a new turn. */
  function PromptInserts(a: Actor, p: PromptInput): set<string> {
    if a.slot.Some? then
      if ParseResponse(a.slot.value.questions, p.text).Ok? && a.slot.value.submissionId !in a.subs
      then {a.slot.value.submissionId} else {}
    else if p.route.SubmittedAs? then {p.route.id} else {}
  }

  function MessageInserts(a: Actor, input: Input): set<string> {
    match input
    case Prompt(p) => PromptInserts(a, p)
    case Steer(outcome, p) => if outcome.NoActiveTurn? then PromptInserts(a, p) else {}
    case _ => {}
  }

  function Inserts(a: Actor, step: Step): set<string> {
    if step.ActorTurn? && a.status.Running? then MessageInserts(a, step.input) else {}
  }

  /** The event a step delivers to a submission, if any. */
  ghost predicate Delivers(a: Actor, step: Step, id: string) {
    && step.ActorTurn? && a.status.Running? && step.input.CodexEvent?
    && step.input.id == id && id in a.subs && IsRouted(a, step.input.observed)
  }

  /** The updates of one submission. */
  function UpdatesFor(id: string, shown: seq<ClientUpdate>): seq<Update> {
    if shown == [] then []
    else
      var last := shown[|shown| - 1];
      UpdatesFor(id, shown[..|shown| - 1]) + if last.submission == Some(id) then [last.update] else []
  }

  /** How many of the steps lead up to the last insertion of the submission. */
  ghost function InsertedAt(a: Actor, steps: seq<Step>, id: string): nat
    ensures InsertedAt(a, steps, id) <= |steps|
  {
    if steps == [] then 0
    else
      var init := steps[..|steps| - 1];
      if id in Inserts(Run(a, init), steps[|steps| - 1]) then |steps| else InsertedAt(a, init, id)
  }

  /** The events delivered to the submission since it was last inserted. */
  ghost function Delivered(a: Actor, steps: seq<Step>, id: string): seq<Event> {
    if steps == [] then []
    else
      var init, last := steps[..|steps| - 1], steps[|steps| - 1];
      var b := Run(a, init);
      if id in Inserts(b, last) then []
      else Delivered(a, init, id) + if Delivers(b, last, id) then [last.input.observed.event] else []
  }

  /** The client has the given terminal capability whenever an event is delivered since the insertion. */
  ghost predicate SameClient(a: Actor, steps: seq<Step>, id: string, capable: bool) {
    steps == [] ||
    (var init, last := steps[..|steps| - 1], steps[|steps| - 1];
     var b := Run(a, init);
     id in Inserts(b, last)
     || (SameClient(a, init, id, capable) && (Delivers(b, last, id) ==> b.capable == capable)))
  }

  /** What the client was shown of the submission since it was last inserted. */
  ghost function ShownSince(a: Actor, steps: seq<Step>, id: string): seq<Update> {
    var from, all := |Run(a, steps[..InsertedAt(a, steps, id)]).w.shown|, Run(a, steps).w.shown;
    if from <= |all| then UpdatesFor(id, all[from..]) else []
  }

  // ---------------------------------------------------------------------------------------------
  // Steps that show nothing of any submission

  /** Nothing tagged is shown, and streams are as before, or idle where a submission is new. */
  ghost predicate Quiet(a: Actor, b: Actor, added: set<string>) {
    && a.w.shown <= b.w.shown
    && (forall i :: |a.w.shown| <= i < |b.w.shown| ==> b.w.shown[i].submission == None)
    && forall id :: id in b.subs ==>
         if id in added then b.subs[id].streams == IDLE
         else id in a.subs && b.subs[id].streams == a.subs[id].streams
  }

  lemma QuietTwice(a: Actor, b: Actor, c: Actor, added: set<string>)
    requires Quiet(a, b, added) && Quiet(b, c, {})
    ensures Quiet(a, c, added)
  {}

  lemma QuietThenFresh(a: Actor, b: Actor, c: Actor, added: set<string>)
    requires Quiet(a, b, {}) && Quiet(b, c, added)
    ensures Quiet(a, c, added)
  {}

  lemma RetainIsQuiet(a: Actor, keep: set<string>)
    ensures Quiet(a, Retain(a, keep), {})
  {}

  lemma InsertIsQuiet(a: Actor, id: string, primary: Option<Sender>)
    ensures Quiet(a, Insert(a, id, NewSubmission(primary)), {id})
  {}

  lemma AbortEverythingIsQuiet(a: Actor, op: Op)
    ensures Quiet(a, SubmitOp(AbortEverything(a), op), {})
  {}

  lemma SubmitIsQuiet(a: Actor, op: Op)
    ensures Quiet(a, SubmitOp(a, op), {})
  {}

  lemma JoinIsQuiet(a: Actor, id: string, sender: Sender)
    requires id in a.subs
    ensures Quiet(a, Put(Issue(a), id, AddSender(Get(Issue(a), id), sender)), {})
  {}

  lemma AnswerWithIsQuiet(a: Actor, p: PendingRequest, answers: Answers, accepted: bool)
    ensures Quiet(a, AnswerWith(a, p, answers, accepted).0, if p.submissionId in a.subs then {} else {p.submissionId})
  {
    var added := if p.submissionId in a.subs then {} else {p.submissionId};
    var a1 := EnsureSubmission(a, p.submissionId);
    var a2 := SubmitOp(a1, UserInputAnswer(p.turnId, answers));
    InsertIsQuiet(a, p.submissionId, None);
    assert Quiet(a, a1, added);
    SubmitIsQuiet(a1, UserInputAnswer(p.turnId, answers));
    QuietTwice(a, a1, a2, added);
    if accepted {
      JoinIsQuiet(a2, p.submissionId, a.w.issued);
      QuietTwice(a, a2, AnswerWith(a, p, answers, accepted).0, added);
    }
  }

  lemma StartPromptIsQuiet(a: Actor, route: Route)
    ensures Quiet(a, StartPrompt(a, route).0, if route.SubmittedAs? then {route.id} else {})
  {
    if route.SubmittedAs? {
      var b := Issue(SubmitOp(a, route.op));
      InsertIsQuiet(b, route.id, Some(a.w.issued));
      QuietThenFresh(a, b, StartPrompt(a, route).0, {route.id});
    }
  }

  lemma PromptIsQuiet(a: Actor, p: PromptInput)
    ensures Quiet(a, HandlePrompt(a, p).0, PromptInserts(a, p))
  {
    if a.slot.Some? {
      var parsed := ParseResponse(a.slot.value.questions, p.text);
      if parsed.Ok? {
        AnswerWithIsQuiet(a, a.slot.value, parsed.value, p.answerAccepted);
      }
    } else {
      StartPromptIsQuiet(a, p.route);
    }
  }

  lemma AbortAndSendIsQuiet(a: Actor, id: string, r: PromptResult)
    requires id in a.subs
    ensures Quiet(a, Put(a, id, SendResult(AbortAll(Get(a, id)), r)), {})
  {}

  lemma TakenIsQuiet(a: Actor)
    requires a.w.queue != []
    ensures Quiet(a, Taken(a), {})
  {}

  lemma ResolvedIsQuiet(a: Actor, accepted: bool)
    requires a.w.queue != []
    ensures Quiet(a, HandleResolved(a.(w := Receive(a.w)), a.w.queue[0], accepted), {})
  {
    var m, b := a.w.queue[0], Taken(a);
    TakenIsQuiet(a);
    ResolvedIsTakenThenFailed(a, accepted);
    var failure := ResolveFailure(m, accepted);
    if m.submission in b.subs && failure.Some? {
      AbortAndSendIsQuiet(b, m.submission, failure.value);
      QuietTwice(a, b, Put(b, m.submission, SendResult(AbortAll(Get(b, m.submission)), failure.value)), {});
    }
  }

  lemma ReplayIsQuiet(a: Actor, history: seq<Observed>)
    ensures Quiet(a, Replay(a, history), {})
  {}

  lemma SettingIsQuiet(a: Actor, input: Input)
    requires !input.Prompt? && !input.Steer? && !input.CancelTurn? && !input.ShutdownSession? && !input.ReplayHistory?
    requires !input.PermissionResolved? && !input.CodexEvent? && !input.EventStreamFailed?
    ensures Quiet(a, Handle(a, input), {})
  {}

  lemma MessageIsQuiet(a: Actor, input: Input)
    requires !input.CodexEvent?
    ensures Quiet(a, Handle(a, input), MessageInserts(a, input))
  {
    match input
    case Prompt(p) => PromptIsQuiet(a, p);
    case Steer(_, p) => PromptIsQuiet(a, p);
    case CancelTurn => AbortEverythingIsQuiet(a, Interrupt);
    case ShutdownSession => AbortEverythingIsQuiet(a, Shutdown);
    case ReplayHistory(history) => ReplayIsQuiet(a, history);
    case PermissionResolved(accepted) => if a.w.queue != [] { ResolvedIsQuiet(a, accepted); }
    case EventStreamFailed => RetainIsQuiet(a, {});
    case _ => SettingIsQuiet(a, input);
  }

  lemma EndOfTurnIsQuiet(a: Actor, dropped: set<Sender>)
    ensures Quiet(a, EndOfTurn(a, dropped), {})
  {
    var b := a.(w := DropReceivers(a.w, dropped));
    RetainIsQuiet(b, Kept(b));
  }

  lemma SurroundingsAreQuiet(a: Actor, step: Step)
    requires !step.ActorTurn?
    ensures Quiet(a, ActorModel.Next(a, step), {})
  {}

  // ---------------------------------------------------------------------------------------------
  // Steps that deliver an event

  /** One event was delivered to a submission: its streams moved, its updates were shown, nothing else. */
  ghost predicate Heard(a: Actor, b: Actor, id: string, ev: Event)
    requires id in a.subs
  {
    && b.w.shown == a.w.shown + Tagged(Some(id), Updates(a.subs[id].streams, a.capable, ev))
    && forall other :: other in b.subs ==>
         && other in a.subs
         && b.subs[other].streams == if other == id then StreamModel.Next(a.subs[id].streams, ev) else a.subs[other].streams
  }

  lemma HeardThenQuiet(a: Actor, b: Actor, c: Actor, id: string, ev: Event)
    requires id in a.subs && Heard(a, b, id, ev)
    requires b.w.shown == c.w.shown && Quiet(b, c, {})
    ensures Heard(a, c, id, ev)
  {}

  lemma DeliveryIsHeard(a: Actor, id: string, ev: Event, accepted: bool)
    requires id in a.subs
    ensures Heard(a, Put(a, id, DeliverEvent(Get(a, id), id, a.capable, ev, accepted)), id, ev)
  {
    DeliverShows(Get(a, id), id, a.capable, ev, accepted);
  }

  lemma EventIsHeard(a: Actor, id: string, o: Observed, accepted: bool)
    requires id in a.subs && IsRouted(a, o)
    ensures Heard(a, HandleEvent(a, id, o, accepted), id, o.event)
  {
    RoutedEvent(a, id, o, accepted);
    DeliveryIsHeard(a, id, o.event, accepted);
    assert a.(session := ApplyUpdates(a.session, StateUpdates(o))).subs == a.subs;
  }

  lemma UnroutedEventIsQuiet(a: Actor, id: string, o: Observed, accepted: bool)
    requires !IsRouted(a, o)
    ensures Quiet(a, HandleEvent(a, id, o, accepted), {})
  {}

  lemma UnknownEventIsQuiet(a: Actor, id: string, ev: Event, accepted: bool)
    requires id !in a.subs
    ensures Quiet(a, RouteEvent(a, id, ev, accepted), {})
  {}

  lemma UnheardEventIsQuiet(a: Actor, id: string, o: Observed, accepted: bool)
    requires id !in a.subs || !IsRouted(a, o)
    ensures Quiet(a, HandleEvent(a, id, o, accepted), {})
  {
    if IsRouted(a, o) {
      RoutedEvent(a, id, o, accepted);
      UnknownEventIsQuiet(a.(session := ApplyUpdates(a.session, StateUpdates(o))), id, o.event, accepted);
    } else {
      UnroutedEventIsQuiet(a, id, o, accepted);
    }
  }

  // ---------------------------------------------------------------------------------------------
  // One step, for one submission

  lemma {:induction false} UpdatesForAppend(id: string, shown: seq<ClientUpdate>, more: seq<ClientUpdate>)
    ensures UpdatesFor(id, shown + more) == UpdatesFor(id, shown) + UpdatesFor(id, more)
    decreases |more|
  {
    if more == [] {
      assert shown + more == shown;
    } else {
      var init, last := more[..|more| - 1], more[|more| - 1];
      UpdatesForAppend(id, shown, init);
      assert (shown + more)[..|shown + more| - 1] == shown + init;
    }
  }

  lemma {:induction false} UpdatesForOthers(id: string, shown: seq<ClientUpdate>)
    requires forall i :: 0 <= i < |shown| ==> shown[i].submission != Some(id)
    ensures UpdatesFor(id, shown) == []
  {
    if shown != [] {
      UpdatesForOthers(id, shown[..|shown| - 1]);
    }
  }

  lemma {:induction false} UpdatesForTagged(id: string, updates: seq<Update>)
    ensures UpdatesFor(id, Tagged(Some(id), updates)) == updates
  {
    if updates != [] {
      var init := updates[..|updates| - 1];
      UpdatesForTagged(id, init);
      assert Tagged(Some(id), updates)[..|updates| - 1] == Tagged(Some(id), init);
    }
  }

  /** What one step does to a submission's streams, and shows of it. */
  ghost predicate Follows(a: Actor, b: Actor, id: string, added: bool, heard: Option<Event>) {
    && a.w.shown <= b.w.shown
    && (heard.Some? ==> id in a.subs)
    && (id in b.subs && added ==> b.subs[id].streams == IDLE)
    && (id in b.subs && !added ==>
          id in a.subs
          && b.subs[id].streams
             == if heard.Some? then StreamModel.Next(a.subs[id].streams, heard.value) else a.subs[id].streams)
    && UpdatesFor(id, b.w.shown[|a.w.shown|..])
       == if heard.Some? then Updates(a.subs[id].streams, a.capable, heard.value) else []
  }

  lemma QuietFollows(a: Actor, b: Actor, id: string, added: set<string>)
    requires Quiet(a, b, added)
    ensures Follows(a, b, id, id in added, None)
  {
    UpdatesForOthers(id, b.w.shown[|a.w.shown|..]);
  }

  lemma HeardFollows(a: Actor, b: Actor, id: string, heard: string, ev: Event)
    requires heard in a.subs && Heard(a, b, heard, ev)
    ensures Follows(a, b, id, false, if id == heard then Some(ev) else None)
  {
    var updates := Updates(a.subs[heard].streams, a.capable, ev);
    assert b.w.shown[|a.w.shown|..] == Tagged(Some(heard), updates);
    if id == heard {
      UpdatesForTagged(id, updates);
    } else {
      UpdatesForOthers(id, Tagged(Some(heard), updates));
    }
  }

  lemma EndOfTurnShowsNothing(a: Actor, dropped: set<Sender>)
    ensures EndOfTurn(a, dropped).w.shown == a.w.shown
  {}

  ghost function HeardIn(a: Actor, step: Step, id: string): Option<Event> {
    if Delivers(a, step, id) then Some(step.input.observed.event) else None
  }

  lemma HeardEventFollows(a: Actor, input: Input, dropped: set<Sender>, id: string)
    requires input.CodexEvent? && input.id in a.subs && IsRouted(a, input.observed)
    ensures Follows(a, EndOfTurn(HandleEvent(a, input.id, input.observed, input.accepted), dropped), id, false,
                    if id == input.id then Some(input.observed.event) else None)
  {
    var b := HandleEvent(a, input.id, input.observed, input.accepted);
    var c := EndOfTurn(b, dropped);
    EventIsHeard(a, input.id, input.observed, input.accepted);
    EndOfTurnIsQuiet(b, dropped);
    EndOfTurnShowsNothing(b, dropped);
    HeardThenQuiet(a, b, c, input.id, input.observed.event);
    HeardFollows(a, c, id, input.id, input.observed.event);
  }

  lemma UnheardEventFollows(a: Actor, input: Input, dropped: set<Sender>, id: string)
    requires input.CodexEvent? && (input.id !in a.subs || !IsRouted(a, input.observed))
    ensures Follows(a, EndOfTurn(HandleEvent(a, input.id, input.observed, input.accepted), dropped), id, false, None)
  {
    var b := HandleEvent(a, input.id, input.observed, input.accepted);
    var c := EndOfTurn(b, dropped);
    UnheardEventIsQuiet(a, input.id, input.observed, input.accepted);
    EndOfTurnIsQuiet(b, dropped);
    QuietTwice(a, b, c, {});
    QuietFollows(a, c, id, {});
  }

  lemma EventFollows(a: Actor, input: Input, dropped: set<Sender>, id: string)
    requires a.status.Running? && input.CodexEvent?
    ensures Follows(a, EndOfTurn(HandleEvent(a, input.id, input.observed, input.accepted), dropped), id, false,
                    HeardIn(a, ActorTurn(input, dropped), id))
  {
    if input.id in a.subs && IsRouted(a, input.observed) {
      HeardEventFollows(a, input, dropped, id);
    } else {
      UnheardEventFollows(a, input, dropped, id);
    }
  }

  lemma MessageFollows(a: Actor, input: Input, dropped: set<Sender>, id: string)
    requires a.status.Running? && !input.CodexEvent?
    ensures Follows(a, EndOfTurn(Handle(a, input), dropped), id, id in MessageInserts(a, input), None)
  {
    var b := Handle(a, input);
    MessageIsQuiet(a, input);
    EndOfTurnIsQuiet(b, dropped);
    QuietTwice(a, b, EndOfTurn(b, dropped), MessageInserts(a, input));
    QuietFollows(a, EndOfTurn(b, dropped), id, MessageInserts(a, input));
  }

  lemma TurnFollows(a: Actor, input: Input, dropped: set<Sender>, id: string)
    requires a.status.Running?
    ensures Follows(a, EndOfTurn(Handle(a, input), dropped), id, id in MessageInserts(a, input),
                    HeardIn(a, ActorTurn(input, dropped), id))
  {
    if input.CodexEvent? {
      EventFollows(a, input, dropped, id);
    } else {
      MessageFollows(a, input, dropped, id);
    }
  }

  lemma StepFollows(a: Actor, step: Step, id: string)
    ensures Follows(a, ActorModel.Next(a, step), id, id in Inserts(a, step), HeardIn(a, step, id))
  {
    if !step.ActorTurn? {
      SurroundingsAreQuiet(a, step);
      QuietFollows(a, ActorModel.Next(a, step), id, {});
    } else if !a.status.Running? {
      QuietFollows(a, a, id, {});
    } else {
      TurnFollows(a, step.input, step.dropped, id);
    }
  }

  // ---------------------------------------------------------------------------------------------
  // Whole runs

  /** The streams of a submission and its client agree with the events delivered to it. */
  ghost predicate Told(a: Actor, id: string, events: seq<Event>, shown: seq<Update>, capable: bool) {
    && (id in a.subs ==> a.subs[id].streams == After(IDLE, events))
    && shown == Seen(IDLE, capable, events)
  }

  lemma ToldMore(a: Actor, b: Actor, id: string, heard: Option<Event>, events: seq<Event>, shown: seq<Update>, capable: bool)
    requires Told(a, id, events, shown, capable) && Follows(a, b, id, false, heard)
    requires heard.Some? ==> a.capable == capable
    ensures Told(b, id, events + (if heard.Some? then [heard.value] else []),
                 shown + UpdatesFor(id, b.w.shown[|a.w.shown|..]), capable)
  {
    if heard.Some? {
      RunAppend(IDLE, capable, events, heard.value);
    } else {
      assert events + [] == events && shown + [] == shown;
    }
  }

  lemma {:induction false} ShownGrows(a: Actor, steps: seq<Step>, n: nat)
    requires n <= |steps|
    ensures Run(a, steps[..n]).w.shown <= Run(a, steps).w.shown
    decreases |steps|
  {
    if n == |steps| {
      assert steps[..n] == steps;
    } else {
      var init, last := steps[..|steps| - 1], steps[|steps| - 1];
      ShownGrows(a, init, n);
      assert init[..n] == steps[..n];
      StepFollows(Run(a, init), last, "");
    }
  }

  lemma ShownAtInsertion(a: Actor, steps: seq<Step>, id: string)
    requires steps != [] && id in Inserts(Run(a, steps[..|steps| - 1]), steps[|steps| - 1])
    ensures ShownSince(a, steps, id) == [] && Delivered(a, steps, id) == []
  {
    assert steps[..|steps|] == steps;
    var all := Run(a, steps).w.shown;
    assert all[|all|..] == [];
  }

  lemma ShownOneMore(a: Actor, steps: seq<Step>, id: string)
    requires steps != []
    requires var b := Run(a, steps[..|steps| - 1]);
             id !in Inserts(b, steps[|steps| - 1]) && b.w.shown <= Run(a, steps).w.shown
    ensures var init := steps[..|steps| - 1];
            ShownSince(a, steps, id)
            == ShownSince(a, init, id) + UpdatesFor(id, Run(a, steps).w.shown[|Run(a, init).w.shown|..])
  {
    var init := steps[..|steps| - 1];
    var n := InsertedAt(a, init, id);
    assert init[..n] == steps[..n];
    ShownGrows(a, init, n);
    var from, before, all := |Run(a, init[..n]).w.shown|, Run(a, init).w.shown, Run(a, steps).w.shown;
    assert all[from..] == before[from..] + all[|before|..];
    UpdatesForAppend(id, before[from..], all[|before|..]);
  }

  /**
   Over every run of a new actor, whatever prompts, results, cancels, sweeps and other submissions
   stand between the events: what the client is shown of a submission since it was inserted is the
   stream of the events delivered to it, and so is what the submission remembers.
   */
  lemma {:induction false} RunShowsStreams(capable: bool, fullAccess: bool, steps: seq<Step>, id: string, client: bool)
    requires SameClient(Initial(capable, fullAccess), steps, id, client)
    ensures var a := Initial(capable, fullAccess);
            Told(Run(a, steps), id, Delivered(a, steps, id), ShownSince(a, steps, id), client)
    decreases |steps|
  {
    var a := Initial(capable, fullAccess);
    if steps != [] {
      var init, last := steps[..|steps| - 1], steps[|steps| - 1];
      var b := Run(a, init);
      StepFollows(b, last, id);
      if id in Inserts(b, last) {
        ShownAtInsertion(a, steps, id);
      } else {
        RunShowsStreams(capable, fullAccess, init, id, client);
        ShownOneMore(a, steps, id);
        ToldMore(b, Run(a, steps), id, HeardIn(b, last, id), Delivered(a, init, id), ShownSince(a, init, id), client);
      }
    }
  }

  // ---------------------------------------------------------------------------------------------
  // What follows for the client of a run

  /** Searches are bracketed in every run, and the search the client sees running is the submission's. */
  lemma RunSearchesAlternate(capable: bool, fullAccess: bool, steps: seq<Step>, id: string, client: bool)
    requires SameClient(Initial(capable, fullAccess), steps, id, client)
    ensures var a := Initial(capable, fullAccess); var shown := ShownSince(a, steps, id);
            && SearchesBracketed(shown)
            && (id in Run(a, steps).subs ==> OpenSearch(shown) == Run(a, steps).subs[id].streams.search)
  {
    RunShowsStreams(capable, fullAccess, steps, id, client);
    SearchesAlternate(client, Delivered(Initial(capable, fullAccess), steps, id));
  }

  /** After an event that ends the turn, the client of the run sees no search running. */
  lemma RunEndsWithoutSearch(capable: bool, fullAccess: bool, steps: seq<Step>, id: string, client: bool)
    requires SameClient(Initial(capable, fullAccess), steps, id, client)
    requires var events := Delivered(Initial(capable, fullAccess), steps, id);
             events != [] && EndsTurn(events[|events| - 1])
    ensures OpenSearch(ShownSince(Initial(capable, fullAccess), steps, id)) == None
  {
    RunShowsStreams(capable, fullAccess, steps, id, client);
    NoSearchAfterEnd(client, Delivered(Initial(capable, fullAccess), steps, id));
  }

  lemma OneMoreStep(a: Actor, steps: seq<Step>, step: Step)
    ensures (steps + [step])[..|steps|] == steps
    ensures Run(a, steps + [step]) == ActorModel.Next(Run(a, steps), step)
  {
    assert (steps + [step])[..|steps|] == steps;
  }

  /** Only delivering an event can answer a submission's callers. */
  lemma AnsweringEventIsDelivered(a: Actor, id: string, o: Observed, accepted: bool)
    requires HandleEvent(a, id, o, accepted).w.sent != a.w.sent
    ensures id in a.subs && IsRouted(a, o)
    ensures DeliverEvent(Get(a, id), id, a.capable, o.event, accepted).w.sent != a.w.sent
  {
    if IsRouted(a, o) {
      RoutedEvent(a, id, o, accepted);
    }
  }

  lemma TurnSends(a: Actor, input: Input, dropped: set<Sender>)
    requires a.status.Running?
    ensures Turn(a, input, dropped).w.sent == Handle(a, input).w.sent
  {}

  lemma EventTurnAnswers(a: Actor, input: Input, dropped: set<Sender>)
    requires input.CodexEvent? && Turn(a, input, dropped).w.sent != a.w.sent
    ensures Delivers(a, ActorTurn(input, dropped), input.id)
    ensures NextSearch(a.subs[input.id].streams.search, input.observed.event).Some?
       <==> a.subs[input.id].streams.search.Some? && IsRefusedDecline(input.observed.event, input.accepted)
  {
    TurnSends(a, input, dropped);
    AnsweringEventIsDelivered(a, input.id, input.observed, input.accepted);
    SearchOpenAfterAnswerExactlyWhen(Get(a, input.id), input.id, a.capable, input.observed.event, input.accepted);
    DeliverShows(Get(a, input.id), input.id, a.capable, input.observed.event, input.accepted);
  }

  /**
   When an event of a run answers callers, the client still sees a search running exactly when it saw
   one before and the event is an elicitation whose decline Codex refuses.
   */
  lemma RunSearchOpenAfterAnswerExactlyWhen(
      capable: bool, fullAccess: bool, steps: seq<Step>, input: Input, dropped: set<Sender>, client: bool)
    requires input.CodexEvent?
    requires SameClient(Initial(capable, fullAccess), steps + [ActorTurn(input, dropped)], input.id, client)
    requires var a := Run(Initial(capable, fullAccess), steps); Turn(a, input, dropped).w.sent != a.w.sent
    ensures OpenSearch(ShownSince(Initial(capable, fullAccess), steps + [ActorTurn(input, dropped)], input.id)).Some?
       <==> OpenSearch(ShownSince(Initial(capable, fullAccess), steps, input.id)).Some?
            && IsRefusedDecline(input.observed.event, input.accepted)
  {
    var a, step, id := Initial(capable, fullAccess), ActorTurn(input, dropped), input.id;
    var all := steps + [step];
    OneMoreStep(a, steps, step);
    EventTurnAnswers(Run(a, steps), input, dropped);
    RunShowsStreams(capable, fullAccess, steps, id, client);
    RunShowsStreams(capable, fullAccess, all, id, client);
    RunAppend(IDLE, client, Delivered(a, steps, id), input.observed.event);
    SearchesAlternate(client, Delivered(a, steps, id));
    SearchesAlternate(client, Delivered(a, all, id));
  }

  /** A handled result shows the client of no submission anything, so a search it sees running stays open. */
  lemma RunResultShowsNothing(
      a: Actor, steps: seq<Step>, accepted: bool, dropped: set<Sender>, id: string)
    ensures ShownSince(a, steps + [ActorTurn(PermissionResolved(accepted), dropped)], id) == ShownSince(a, steps, id)
  {
    var step := ActorTurn(PermissionResolved(accepted), dropped);
    OneMoreStep(a, steps, step);
    StepFollows(Run(a, steps), step, id);
    ShownOneMore(a, steps + [step], id);
  }

  /** In every run, an event delivered to a submission shows what its stream shows of it. */
  lemma RunShowsEvent(
      capable: bool, fullAccess: bool, steps: seq<Step>, step: Step, id: string, client: bool)
    requires var a := Initial(capable, fullAccess);
             SameClient(a, steps + [step], id, client) && Delivers(Run(a, steps), step, id)
    ensures var a := Initial(capable, fullAccess);
            ShownSince(a, steps + [step], id)
            == ShownSince(a, steps, id)
               + Updates(After(IDLE, Delivered(a, steps, id)), client, step.input.observed.event)
  {
    var a := Initial(capable, fullAccess);
    OneMoreStep(a, steps, step);
    RunShowsStreams(capable, fullAccess, steps, id, client);
    RunShowsStreams(capable, fullAccess, steps + [step], id, client);
    RunAppend(IDLE, client, Delivered(a, steps, id), step.input.observed.event);
  }

  /** In every run, what an event adds to a submission's client is exactly what comes from it, each once. */
  lemma RunShowsExactlyWhen(
      capable: bool, fullAccess: bool, steps: seq<Step>, step: Step, id: string, client: bool, u: Update)
    requires var a := Initial(capable, fullAccess);
             SameClient(a, steps + [step], id, client) && Delivers(Run(a, steps), step, id)
    ensures var a := Initial(capable, fullAccess);
            var events, before, after :=
              Delivered(a, steps, id), ShownSince(a, steps, id), ShownSince(a, steps + [step], id);
            && before <= after
            && UpdateOrigins.Distinct(after[|before|..])
            && (u in after[|before|..] <==>
                  UpdateOrigins.ComesFrom(u, After(IDLE, events), client, step.input.observed.event))
  {
    var s, ev := After(IDLE, Delivered(Initial(capable, fullAccess), steps, id)), step.input.observed.event;
    RunShowsEvent(capable, fullAccess, steps, step, id, client);
    UpdateOrigins.ShownExactlyWhen(s, client, ev, u);
    var before := ShownSince(Initial(capable, fullAccess), steps, id);
    assert (before + Updates(s, client, ev))[|before|..] == Updates(s, client, ev);
  }

  /** In every run, a review updates its tool call exactly when the previous one for its id was in progress. */
  lemma RunUpdatesRunningReviews(
      capable: bool, fullAccess: bool, steps: seq<Step>, step: Step, id: string, client: bool)
    requires var a := Initial(capable, fullAccess);
             && SameClient(a, steps + [step], id, client) && Delivers(Run(a, steps), step, id)
             && step.input.observed.event.Guardian?
    ensures var a, ev := Initial(capable, fullAccess), step.input.observed.event;
            ShownSince(a, steps + [step], id)
            == ShownSince(a, steps, id)
               + [if ReviewRunning(Delivered(a, steps, id), ev.id) then GuardianUpdate(ev.id, ev.inProgress)
                  else GuardianStart(ev.id, ev.inProgress)]
  {
    var ev := step.input.observed.event;
    RunShowsEvent(capable, fullAccess, steps, step, id, client);
    GuardianUpdatesRunningReviews(client, Delivered(Initial(capable, fullAccess), steps, id), ev.id, ev.inProgress);
  }

  /**
   In every run, a step shows output of a call only if the submission has it registered and not yet
   ended, and completes it exactly when it delivers the end of such a call.
   */
  lemma RunShowsOutputOfRegistered(
      capable: bool, fullAccess: bool, steps: seq<Step>, step: Step, id: string, client: bool, callId: string)
    requires var a := Initial(capable, fullAccess);
             SameClient(a, steps + [step], id, client) && Delivers(Run(a, steps), step, id)
    ensures var a := Initial(capable, fullAccess);
            var events, before, after :=
              Delivered(a, steps, id), ShownSince(a, steps, id), ShownSince(a, steps + [step], id);
            && before <= after
            && ((exists u :: u in after[|before|..] && IsOutputFor(u, callId)) ==> Registered(events, callId))
            && ((exists u :: u in after[|before|..] && IsCompletionFor(u, callId))
                <==> Ends(step.input.observed.event, callId) && Registered(events, callId))
  {
    var a := Initial(capable, fullAccess);
    RunShowsEvent(capable, fullAccess, steps, step, id, client);
    OutputOnlyForRegistered(client, Delivered(a, steps, id), step.input.observed.event, callId);
    var before := ShownSince(a, steps, id);
    var updates := Updates(After(IDLE, Delivered(a, steps, id)), client, step.input.observed.event);
    assert (before + updates)[|before|..] == updates;
  }

  /**
   In every run, one command from begin to end shows its start, its output and its completion, in this
   order.
   */
  lemma RunDeliversCommandOutput(
      capable: bool, fullAccess: bool, steps: seq<Step>, id: string, client: bool,
      past: seq<Event>, begin: ExecEvent, events: seq<Event>, end: ExecEvent)
    requires SameClient(Initial(capable, fullAccess), steps, id, client)
    requires begin.ExecBegin? && end.ExecEnd? && end.callId == begin.callId
    requires Undisturbed(events, begin.callId)
    requires Delivered(Initial(capable, fullAccess), steps, id)
          == past + ([Event.Exec(begin)] + events + [Event.Exec(end)])
    ensures var before, shown := Seen(IDLE, client, past), ShownSince(Initial(capable, fullAccess), steps, id);
            && before <= shown
            && CommandDelivered(shown[|before|..], client && begin.terminal, begin.callId, Produced(events, begin.callId),
                                CompletionSnapshot(end.formatted, Produced(events, begin.callId), end.aggregated))
  {
    var command := [Event.Exec(begin)] + events + [Event.Exec(end)];
    RunShowsStreams(capable, fullAccess, steps, id, client);
    var all := Delivered(Initial(capable, fullAccess), steps, id);
    RunInParts(IDLE, client, all, |past|);
    assert all[..|past|] == past && all[|past|..] == command;
    CommandOutputIsDelivered(After(IDLE, past), client, begin, events, end);
    var before, updates := Seen(IDLE, client, past), Seen(After(IDLE, past), client, command);
    assert (before + updates)[|before|..] == updates;
  }

  /** In every run, the client text of a submission is what its message segments make visible. */
  lemma RunShowsAllMessages(
      capable: bool, fullAccess: bool, steps: seq<Step>, id: string, client: bool, segs: seq<Segment>)
    requires SameClient(Initial(capable, fullAccess), steps, id, client)
    requires OnlyMessages(Delivered(Initial(capable, fullAccess), steps, id)) == SegmentEvents(segs)
    ensures MessageText(ShownSince(Initial(capable, fullAccess), steps, id)) == VisibleText(segs)
    ensures (forall seg :: seg in segs ==> Faithful(seg)) ==>
              MessageText(ShownSince(Initial(capable, fullAccess), steps, id)) == FullText(segs)
  {
    RunShowsStreams(capable, fullAccess, steps, id, client);
    ClientTextIsAllMessages(client, Delivered(Initial(capable, fullAccess), steps, id), segs);
  }

  /** And the reasoning text is what its pieces and full texts make visible. */
  lemma RunShowsAllReasoning(
      capable: bool, fullAccess: bool, steps: seq<Step>, id: string, client: bool, rs: seq<Reasoning>)
    requires SameClient(Initial(capable, fullAccess), steps, id, client)
    requires WellFormed(rs) && OnlyReasoning(Delivered(Initial(capable, fullAccess), steps, id)) == ReasoningEvents(rs)
    ensures ThoughtText(ShownSince(Initial(capable, fullAccess), steps, id)) == VisibleThoughts(rs)
    ensures (forall r :: r in rs ==> r.pieces == [] || PieceText(r.pieces) == r.full) ==>
              ThoughtText(ShownSince(Initial(capable, fullAccess), steps, id)) == FullReasoning(rs)
  {
    RunShowsStreams(capable, fullAccess, steps, id, client);
    ClientSeesAllReasoning(client, Delivered(Initial(capable, fullAccess), steps, id), rs);
  }
}
