/**
 The updates read backwards: which event, and which past, each kind of update comes from. Nothing else
 shows it, and nothing shows it twice.
 */
module UpdateOrigins {
  import opened Wrappers
  import opened Text
  import opened Events
  import opened Streams

  /** Events across which a running web search goes on. */
  predicate LeavesSearch(ev: Event) {
    || ev.Text? || ev.Guardian? || ev.RequestUserInput?
    || (ev.Search? && ev.search.SearchEnd?)
    || (ev.Exec? && ev.exec.TerminalInput?)
    || (ev.Request? && (ev.request.PermissionsRequest? || ev.request.ElicitationRequest?))
    || (ev.Session? && !ev.session.TurnStarted?)
    || (ev.Other? && !ev.closesSearch)
  }

  /** A full message is news to a client that saw nothing of it, or saw another text of a final answer. */
  predicate IsNews(b: Buffers, message: string, final: bool) {
    !b.seenMessage || (final && b.messageText != message)
  }

  /** What an event owes the terminal of a command that has one. */
  predicate Owes(command: Command, ev: ExecEvent, data: string) {
    match ev
    case ExecOutput(_, chunk) => data == chunk
    case TerminalInput(_, typed) => data == "\n" + typed + "\n"
    case ExecEnd(_, formatted, aggregated) =>
      CompletionDelta(command.output, CompletionSnapshot(formatted, command.output, aggregated)) == Some(data)
    case ExecBegin(_, _) => false
  }

  /** The event shows the update to a client of this capability, given what came before. */
  predicate ComesFrom(u: Update, s: Streams, capable: bool, ev: Event) {
    match u
    case AgentText(text) =>
      ev.Text? && (ev.text == MessageDelta(text)
                   || (ev.text.AgentMessage? && ev.text.message == text && IsNews(s.buffers, text, ev.text.final)))
    case AgentThought(text) =>
      ev.Text? && (ev.text == ReasoningDelta(text)
                   || (ev.text.ReasoningBreak? && text == "\n\n")
                   || (ev.text == AgentReasoning(text) && !s.buffers.seenReasoning))
    case CommandStart(callId, terminal) =>
      ev.Exec? && ev.exec.ExecBegin? && ev.exec.callId == callId && (terminal <==> capable && ev.exec.terminal)
    case CommandOutput(callId, data) =>
      && ev.Exec? && ev.exec.callId == callId && callId in s.commands
      && capable && s.commands[callId].terminalOutput && Owes(s.commands[callId], ev.exec, data)
    case CommandDone(callId, snapshot, terminal) =>
      && ev.Exec? && ev.exec.ExecEnd? && ev.exec.callId == callId && callId in s.commands
      && snapshot == CompletionSnapshot(ev.exec.formatted, s.commands[callId].output, ev.exec.aggregated)
      && (terminal <==> capable && s.commands[callId].terminalOutput)
    case SearchStart(callId) => ev == Event.Search(SearchBegin(callId))
    case SearchQuery(callId, query) => ev == Event.Search(SearchEnd(callId, query))
    case SearchDone(callId) => s.search == Some(callId) && !LeavesSearch(ev)
    case GuardianStart(id, inProgress) => ev == Guardian(id, inProgress) && id !in s.guardians
    case GuardianUpdate(id, inProgress) => ev == Guardian(id, inProgress) && id in s.guardians
    case SessionShown(e) => ev == Session(e) && !e.TurnStarted? && (e.TokenCount? ==> e.shown)
    case QuestionPrompt(_) => false
    case Shown(what) => ev.Other? && ev.what == what && ev.live
  }

  predicate Distinct(updates: seq<Update>) {
    forall i, j :: 0 <= i < j < |updates| ==> updates[i] != updates[j]
  }

  lemma CommandUpdatesComeFrom(s: Streams, capable: bool, e: ExecEvent, u: Update)
    ensures u in ExecUpdates(s.commands, capable, e) ==> ComesFrom(u, s, capable, Event.Exec(e))
    ensures (u.CommandStart? || u.CommandOutput? || u.CommandDone?) && ComesFrom(u, s, capable, Event.Exec(e)) ==>
              u in ExecUpdates(s.commands, capable, e)
    ensures Distinct(ExecUpdates(s.commands, capable, e))
  {}

  lemma OwnUpdatesComeFrom(s: Streams, capable: bool, ev: Event, u: Update)
    ensures !u.SearchDone? ==> (u in OwnUpdates(s, capable, ev) <==> ComesFrom(u, s, capable, ev))
    ensures u.SearchDone? ==> u !in OwnUpdates(s, capable, ev)
    ensures Distinct(OwnUpdates(s, capable, ev))
  {
    if ev.Exec? {
      CommandUpdatesComeFrom(s, capable, ev.exec, u);
    }
  }

  lemma SearchIsCompletedBy(s: Streams, capable: bool, ev: Event, u: Update)
    ensures u in ClosingUpdates(s.search, ev) <==> u.SearchDone? && ComesFrom(u, s, capable, ev)
  {}

  /** An event shows exactly the updates that come from it, each once. */
  lemma ShownExactlyWhen(s: Streams, capable: bool, ev: Event, u: Update)
    ensures u in Updates(s, capable, ev) <==> ComesFrom(u, s, capable, ev)
    ensures Distinct(Updates(s, capable, ev))
  {
    OwnUpdatesComeFrom(s, capable, ev, u);
    SearchIsCompletedBy(s, capable, ev, u);
    if s.search.Some? {
      OwnUpdatesComeFrom(s, capable, ev, SearchDone(s.search.value));
    }
  }

  /** On replay, an event shows full texts, session state, questions and notices, and no tool call. */
  predicate ReplayedFrom(u: Update, ev: Event) {
    match u
    case AgentText(text) => ev.Text? && ev.text.AgentMessage? && ev.text.message == text
    case AgentThought(text) => ev == Event.Text(AgentReasoning(text))
    case SessionShown(e) => ev == Session(e) && !e.TurnStarted? && !e.TokenCount?
    case QuestionPrompt(questions) => ev.RequestUserInput? && ev.questions == questions
    case Shown(what) => ev.Other? && ev.what == what && ev.replayed
    case _ => false
  }

  lemma ReplayedExactlyWhen(ev: Event, u: Update)
    ensures u in ReplayUpdates(ev) <==> ReplayedFrom(u, ev)
    ensures |ReplayUpdates(ev)| <= 1
  {}

  // ---------------------------------------------------------------------------------------------
  // What a submission remembers

  /** Whether a registration gives the command a display-only terminal. */
  predicate TerminalOf(ev: Event) {
    match ev
    case Exec(ExecBegin(_, terminal)) => terminal
    case Request(ExecApprovalRequest(_, _, _, _, terminal, _)) => terminal
    case _ => false
  }

  /** Registered by the n-th event and not ended since, with all it produced since then. */
  ghost predicate RememberedFrom(events: seq<Event>, n: nat, callId: string, command: Command) {
    && n < |events| && Registers(events[n], callId) && Undisturbed(events[n + 1..], callId)
    && command == Command(TerminalOf(events[n]), Produced(events[n + 1..], callId))
  }

  lemma RegistrationIsRemembered(events: seq<Event>, callId: string)
    requires events != [] && Registers(events[|events| - 1], callId)
    ensures callId in After(IDLE, events).commands
    ensures RememberedFrom(events, |events| - 1, callId, After(IDLE, events).commands[callId])
  {
    assert events[|events|..] == [];
  }

  lemma RememberedFurtherOn(events: seq<Event>, n: nat, callId: string, before: Command, after: Command)
    requires events != []
    requires var init, last := events[..|events| - 1], events[|events| - 1];
             && RememberedFrom(init, n, callId, before) && !Registers(last, callId) && !Ends(last, callId)
             && after == before.(output := before.output + ProducedBy(last, callId))
    ensures RememberedFrom(events, n, callId, after)
  {
    var init, since := events[..|events| - 1], events[n + 1..];
    assert since[..|since| - 1] == init[n + 1..];
    assert events[n] == init[n];
    forall ev | ev in since ensures !Registers(ev, callId) && !Ends(ev, callId) {
      assert ev in init[n + 1..] || ev == events[|events| - 1];
    }
  }

  lemma EventLeavesOthers(s: Streams, ev: Event, callId: string)
    requires callId in NextCommands(s.commands, ev) && !Registers(ev, callId)
    ensures callId in s.commands && !Ends(ev, callId)
  {}

  /** What a submission remembers of a command: how it was registered, and all it produced since. */
  lemma {:induction false} CommandIsRemembered(events: seq<Event>, callId: string)
    requires callId in After(IDLE, events).commands
    ensures exists n: nat :: RememberedFrom(events, n, callId, After(IDLE, events).commands[callId])
    decreases |events|
  {
    if events != [] {
      var init, last := events[..|events| - 1], events[|events| - 1];
      if Registers(last, callId) {
        RegistrationIsRemembered(events, callId);
      } else {
        var before := After(IDLE, init);
        EventLeavesOthers(before, last, callId);
        CommandIsRemembered(init, callId);
        var n: nat :| RememberedFrom(init, n, callId, before.commands[callId]);
        EventAddsOutput(before.commands, last, callId);
        RememberedFurtherOn(events, n, callId, before.commands[callId], After(IDLE, events).commands[callId]);
      }
    }
  }
}
