/**
 The client-visible streams of one submission: command output, streamed text, web searches and
 guardian reviews, as a function from events to updates, with its whole-run properties.
 */
module Streams {
  import opened Wrappers
  import opened Text
  import opened Events

  datatype Command = Command(terminalOutput: bool, output: string)

  datatype Buffers = Buffers(seenMessage: bool, messageText: string, seenReasoning: bool)

  datatype Streams = Streams(
    commands: map<string, Command>,
    search: Option<string>,
    guardians: set<string>,
    buffers: Buffers)

  const IDLE := Streams(map[], None, {}, Buffers(false, "", false))

  // ---------------------------------------------------------------------------------------------
  // Commands

  function CompletionSnapshot(formatted: string, output: string, aggregated: string): string {
    if formatted != "" then formatted else if output != "" then output else aggregated
  }

  /** What is still owed to the display-only terminal when a command ends. */
  function CompletionDelta(output: string, snapshot: string): Option<string> {
    if snapshot == "" then None
    else if output == "" then Some(snapshot)
    else if output <= snapshot then
      (if snapshot == output then None else Some(snapshot[|output|..]))
    else Some(snapshot)
  }

  /** The output an event adds to a command; what is typed into the terminal shows on its own lines. */
  function Chunk(e: ExecEvent): Option<string> {
    match e
    case ExecOutput(_, data) => Some(data)
    case TerminalInput(_, stdin) => Some("\n" + stdin + "\n")
    case _ => None
  }

  predicate Supports(capable: bool, command: Command) {
    capable && command.terminalOutput
  }

  function NextCommands(commands: map<string, Command>, ev: Event): map<string, Command> {
    match ev
    case Request(ExecApprovalRequest(callId, _, _, _, terminal, contentOk)) =>
      if contentOk then commands[callId := Command(terminal, "")] else commands
    case Exec(ExecBegin(callId, terminal)) => commands[callId := Command(terminal, "")]
    case Exec(ExecEnd(callId, _, _)) => commands - {callId}
    case Exec(e) =>
      if e.callId in commands then
        var command := commands[e.callId];
        commands[e.callId := command.(output := command.output + Chunk(e).value)]
      else commands
    case _ => commands
  }

  function EndUpdates(command: Command, capable: bool, e: ExecEvent): seq<Update>
    requires e.ExecEnd?
  {
    var supports := Supports(capable, command);
    var snapshot := CompletionSnapshot(e.formatted, command.output, e.aggregated);
    var delta := if supports then CompletionDelta(command.output, snapshot) else None;
    (if delta.Some? then [CommandOutput(e.callId, delta.value)] else [])
    + [CommandDone(e.callId, snapshot, supports)]
  }

  function ExecUpdates(commands: map<string, Command>, capable: bool, e: ExecEvent): seq<Update> {
    if e.ExecBegin? then [CommandStart(e.callId, capable && e.terminal)]
    else if e.callId !in commands then []
    else if e.ExecEnd? then EndUpdates(commands[e.callId], capable, e)
    else if Supports(capable, commands[e.callId]) then [CommandOutput(e.callId, Chunk(e).value)]
    else []
  }

  // ---------------------------------------------------------------------------------------------
  // Text, searches, reviews

  function NextBuffers(b: Buffers, ev: Event): Buffers {
    match ev
    case Text(MessageDelta(delta)) => b.(seenMessage := true, messageText := b.messageText + delta)
    case Text(AgentMessage(_, _)) => Buffers(false, if b.seenMessage then "" else b.messageText, b.seenReasoning)
    case Text(ReasoningDelta(_)) => b.(seenReasoning := true)
    case Text(ReasoningBreak) => b.(seenReasoning := true)
    case Text(AgentReasoning(_)) => b.(seenReasoning := false)
    case _ => b
  }

  function TextUpdates(b: Buffers, e: TextEvent): seq<Update> {
    match e
    case MessageDelta(delta) => [AgentText(delta)]
    case AgentMessage(message, final) =>
      if !b.seenMessage || (final && b.messageText != message) then [AgentText(message)] else []
    case ReasoningDelta(delta) => [AgentThought(delta)]
    case ReasoningBreak => [AgentThought("\n\n")]
    case AgentReasoning(message) => if !b.seenReasoning then [AgentThought(message)] else []
  }

  function NextSearch(search: Option<string>, ev: Event): Option<string> {
    if ev.Search? && ev.search.SearchBegin? then Some(ev.search.callId)
    else if ClosesSearch(ev) then None
    else search
  }

  function ClosingUpdates(search: Option<string>, ev: Event): seq<Update> {
    if ClosesSearch(ev) && search.Some? then [SearchDone(search.value)] else []
  }

  function SearchUpdates(e: SearchEvent): seq<Update> {
    match e
    case SearchBegin(callId) => [SearchStart(callId)]
    case SearchEnd(callId, query) => [SearchQuery(callId, query)]
  }

  function NextGuardians(guardians: set<string>, ev: Event): set<string> {
    match ev
    case Guardian(id, inProgress) => if inProgress then guardians + {id} else guardians - {id}
    case _ => guardians
  }

  // ---------------------------------------------------------------------------------------------
  // One event, and a run of events

  function OwnUpdates(s: Streams, capable: bool, ev: Event): seq<Update> {
    match ev
    case Text(e) => TextUpdates(s.buffers, e)
    case Search(e) => SearchUpdates(e)
    case Exec(e) => ExecUpdates(s.commands, capable, e)
    case Guardian(id, inProgress) =>
      [if id in s.guardians then GuardianUpdate(id, inProgress) else GuardianStart(id, inProgress)]
    case Session(e) => if e.TurnStarted? || (e.TokenCount? && !e.shown) then [] else [SessionShown(e)]
    case Other(what, live, _, _) => if live then [Shown(what)] else []
    case _ => []
  }

  /** A running search is completed first, then the event shows its own updates. */
  function Updates(s: Streams, capable: bool, ev: Event): seq<Update> {
    ClosingUpdates(s.search, ev) + OwnUpdates(s, capable, ev)
  }

  function Next(s: Streams, ev: Event): Streams {
    Streams(NextCommands(s.commands, ev), NextSearch(s.search, ev),
            NextGuardians(s.guardians, ev), NextBuffers(s.buffers, ev))
  }

  function After(s: Streams, events: seq<Event>): Streams {
    if events == [] then s else Next(After(s, events[..|events| - 1]), events[|events| - 1])
  }

  /** What replay shows of an event: full texts rather than deltas, and no tool calls. */
  function ReplayUpdates(ev: Event): seq<Update> {
    match ev
    case Text(AgentMessage(message, _)) => [AgentText(message)]
    case Text(AgentReasoning(text)) => [AgentThought(text)]
    case Session(e) => if e.TurnStarted? || e.TokenCount? then [] else [SessionShown(e)]
    case RequestUserInput(_, _, questions) => [QuestionPrompt(questions)]
    case Other(what, _, replayed, _) => if replayed then [Shown(what)] else []
    case _ => []
  }

  function Replayed(events: seq<Event>): seq<Update> {
    if events == [] then []
    else Replayed(events[..|events| - 1]) + ReplayUpdates(events[|events| - 1])
  }

  /** Everything shown to a client of fixed terminal capability over a run. */
  function Seen(s: Streams, capable: bool, events: seq<Event>): seq<Update> {
    if events == [] then []
    else
      var init, last := events[..|events| - 1], events[|events| - 1];
      Seen(s, capable, init) + Updates(After(s, init), capable, last)
  }

  lemma RunAppend(s: Streams, capable: bool, events: seq<Event>, ev: Event)
    ensures After(s, events + [ev]) == Next(After(s, events), ev)
    ensures Seen(s, capable, events + [ev]) == Seen(s, capable, events) + Updates(After(s, events), capable, ev)
  {
    assert (events + [ev])[..|events|] == events;
  }

  lemma RunOfNone(s: Streams, capable: bool, events: seq<Event>)
    requires events == []
    ensures Seen(s, capable, events) == [] && After(s, events) == s
  {}

  /** A run can be taken in two parts. */
  lemma {:induction false} RunInParts(s: Streams, capable: bool, events: seq<Event>, n: nat)
    requires n <= |events|
    ensures var first, rest := events[..n], events[n..];
            && Seen(s, capable, events) == Seen(s, capable, first) + Seen(After(s, first), capable, rest)
            && After(s, events) == After(After(s, first), rest)
    decreases |events|
  {
    var first, rest := events[..n], events[n..];
    if n == |events| {
      assert first == events;
      RunOfNone(After(s, first), capable, rest);
    } else {
      var init, last := events[..|events| - 1], events[|events| - 1];
      RunInParts(s, capable, init, n);
      assert init[..n] == first && init[n..] == rest[..|rest| - 1] && rest[|rest| - 1] == last;
      AppendAssoc(Seen(s, capable, first), Seen(After(s, first), capable, init[n..]), Updates(After(s, init), capable, last));
    }
  }

  // ---------------------------------------------------------------------------------------------
  // Web searches

  /** The search the client believes is running. */
  ghost function OpenSearch(updates: seq<Update>): Option<string> {
    if updates == [] then None
    else
      match updates[|updates| - 1]
      case SearchStart(id) => Some(id)
      case SearchDone(_) => None
      case _ => OpenSearch(updates[..|updates| - 1])
  }

  /** Starts and completions alternate, each completion naming the search last started. */
  ghost predicate SearchesBracketed(updates: seq<Update>) {
    updates == [] ||
    (var init := updates[..|updates| - 1];
     && SearchesBracketed(init)
     && match updates[|updates| - 1]
        case SearchStart(_) => OpenSearch(init) == None
        case SearchDone(id) => OpenSearch(init) == Some(id)
        case _ => true)
  }

  ghost predicate NoSearchEdge(u: Update) {
    !u.SearchStart? && !u.SearchDone?
  }

  lemma {:induction false} AppendPlain(updates: seq<Update>, more: seq<Update>)
    requires forall u :: u in more ==> NoSearchEdge(u)
    ensures OpenSearch(updates + more) == OpenSearch(updates)
    ensures SearchesBracketed(updates + more) == SearchesBracketed(updates)
    decreases |more|
  {
    if more == [] {
      assert updates + more == updates;
    } else {
      var n := |more| - 1;
      assert more[n] in more;
      assert (updates + more)[..|updates + more| - 1] == updates + more[..n];
      AppendPlain(updates, more[..n]);
    }
  }

  lemma AppendEdge(updates: seq<Update>, edge: Update)
    requires edge.SearchStart? || edge.SearchDone?
    requires SearchesBracketed(updates)
    requires OpenSearch(updates) == if edge.SearchStart? then None else Some(edge.callId)
    ensures SearchesBracketed(updates + [edge])
    ensures OpenSearch(updates + [edge]) == if edge.SearchStart? then Some(edge.callId) else None
  {
    assert (updates + [edge])[..|updates|] == updates;
  }

  lemma OwnUpdatesArePlain(s: Streams, capable: bool, ev: Event)
    requires !(ev.Search? && ev.search.SearchBegin?)
    ensures forall u :: u in OwnUpdates(s, capable, ev) ==> NoSearchEdge(u)
  {}

  lemma UpdatesKeepBrackets(s: Streams, capable: bool, ev: Event, before: seq<Update>)
    requires SearchesBracketed(before) && OpenSearch(before) == s.search
    ensures var all := before + Updates(s, capable, ev);
            SearchesBracketed(all) && OpenSearch(all) == Next(s, ev).search
  {
    var closed := before + ClosingUpdates(s.search, ev);
    if ClosesSearch(ev) && s.search.Some? {
      AppendEdge(before, SearchDone(s.search.value));
    } else {
      assert closed == before;
    }
    var own := OwnUpdates(s, capable, ev);
    assert closed + own == before + Updates(s, capable, ev);
    if ev.Search? && ev.search.SearchBegin? {
      AppendEdge(closed, SearchStart(ev.search.callId));
    } else {
      OwnUpdatesArePlain(s, capable, ev);
      AppendPlain(closed, own);
    }
  }

  /** Over every run, searches are bracketed and the client's open search is the submission's. */
  lemma {:induction false} SearchesAlternate(capable: bool, events: seq<Event>)
    ensures SearchesBracketed(Seen(IDLE, capable, events))
    ensures OpenSearch(Seen(IDLE, capable, events)) == After(IDLE, events).search
    decreases |events|
  {
    if events != [] {
      var init, last := events[..|events| - 1], events[|events| - 1];
      SearchesAlternate(capable, init);
      UpdatesKeepBrackets(After(IDLE, init), capable, last, Seen(IDLE, capable, init));
    }
  }

  /** When an event ends the turn, no search is left open. */
  lemma NoSearchOpenAtEnd(capable: bool, events: seq<Event>, last: Event)
    requires EndsTurn(last)
    ensures OpenSearch(Seen(IDLE, capable, events + [last])) == None
  {
    SearchesAlternate(capable, events + [last]);
    RunAppend(IDLE, capable, events, last);
  }

  lemma NoSearchAfterEnd(capable: bool, events: seq<Event>)
    requires events != [] && EndsTurn(events[|events| - 1])
    ensures OpenSearch(Seen(IDLE, capable, events)) == None
  {
    var init, last := events[..|events| - 1], events[|events| - 1];
    NoSearchOpenAtEnd(capable, init, last);
    assert events == init + [last];
  }

  // ---------------------------------------------------------------------------------------------
  // Guardian reviews

  /** Whether the latest review event for an id said it was in progress. */
  ghost predicate ReviewRunning(events: seq<Event>, id: string) {
    events != [] &&
    var last := events[|events| - 1];
    if last.Guardian? && last.id == id then last.inProgress
    else ReviewRunning(events[..|events| - 1], id)
  }

  lemma {:induction false} GuardiansAreRunningReviews(events: seq<Event>, id: string)
    ensures id in After(IDLE, events).guardians <==> ReviewRunning(events, id)
    decreases |events|
  {
    if events != [] {
      GuardiansAreRunningReviews(events[..|events| - 1], id);
    }
  }

  /** A review event updates its tool call exactly when the previous one for its id was in progress. */
  lemma {:induction false} GuardianUpdatesRunningReviews(capable: bool, events: seq<Event>, id: string, inProgress: bool)
    ensures Updates(After(IDLE, events), capable, Guardian(id, inProgress))
         == [if ReviewRunning(events, id) then GuardianUpdate(id, inProgress) else GuardianStart(id, inProgress)]
  {
    GuardiansAreRunningReviews(events, id);
  }

  // ---------------------------------------------------------------------------------------------
  // Command output

  predicate Registers(ev: Event, callId: string) {
    || (ev.Exec? && ev.exec.ExecBegin? && ev.exec.callId == callId)
    || (ev.Request? && ev.request.ExecApprovalRequest? && ev.request.callId == callId && ev.request.contentOk)
  }

  predicate Ends(ev: Event, callId: string) {
    ev.Exec? && ev.exec.ExecEnd? && ev.exec.callId == callId
  }

  /** Registered by a begin or an approval request, and not ended since. */
  ghost predicate Registered(events: seq<Event>, callId: string) {
    events != [] &&
    var last := events[|events| - 1];
    Registers(last, callId) || (!Ends(last, callId) && Registered(events[..|events| - 1], callId))
  }

  lemma {:induction false} CommandsAreRegistered(events: seq<Event>, callId: string)
    ensures callId in After(IDLE, events).commands <==> Registered(events, callId)
    decreases |events|
  {
    if events != [] {
      CommandsAreRegistered(events[..|events| - 1], callId);
    }
  }

  predicate IsOutputFor(u: Update, callId: string) {
    (u.CommandOutput? || u.CommandDone?) && u.callId == callId
  }

  predicate IsCompletionFor(u: Update, callId: string) {
    u.CommandDone? && u.callId == callId
  }

  lemma OwnOutputIsForRegistered(s: Streams, capable: bool, ev: Event, u: Update, callId: string)
    requires u in OwnUpdates(s, capable, ev) && IsOutputFor(u, callId)
    ensures callId in s.commands && ev.Exec? && ev.exec.callId == callId
    ensures u.CommandDone? ==> ev.exec.ExecEnd?
  {}

  /** Output and completion are shown only for a registered call, and an end completes exactly those. */
  lemma OutputOnlyForRegistered(capable: bool, events: seq<Event>, ev: Event, callId: string)
    ensures var updates := Updates(After(IDLE, events), capable, ev);
            && ((exists u :: u in updates && IsOutputFor(u, callId)) ==> Registered(events, callId))
            && ((exists u :: u in updates && IsCompletionFor(u, callId))
                <==> Ends(ev, callId) && Registered(events, callId))
  {
    CommandsAreRegistered(events, callId);
    var s := After(IDLE, events);
    var updates := Updates(s, capable, ev);
    forall u | u in updates && IsOutputFor(u, callId)
      ensures callId in s.commands && (IsCompletionFor(u, callId) ==> Ends(ev, callId))
    {
      OwnOutputIsForRegistered(s, capable, ev, u, callId);
    }
    if Ends(ev, callId) && callId in s.commands {
      assert IsCompletionFor(updates[|updates| - 1], callId);
    }
  }

  /** The terminal data one update carries for a call. */
  function DataIn(u: Update, callId: string): string {
    if u.CommandOutput? && u.callId == callId then u.data else ""
  }

  /** All terminal data shown for one call, in order. */
  ghost function Data(updates: seq<Update>, callId: string): string {
    if updates == [] then ""
    else Data(updates[..|updates| - 1], callId) + DataIn(updates[|updates| - 1], callId)
  }

  predicate IsAbout(u: Update, callId: string) {
    (u.CommandStart? || u.CommandOutput? || u.CommandDone?) && u.callId == callId
  }

  /** All updates about one call, in order. */
  ghost function About(updates: seq<Update>, callId: string): seq<Update> {
    if updates == [] then []
    else
      About(updates[..|updates| - 1], callId)
      + if IsAbout(updates[|updates| - 1], callId) then [updates[|updates| - 1]] else []
  }

  /** What an event adds to the output of a call; typed input stands on lines of its own. */
  function ProducedBy(ev: Event, callId: string): string {
    match ev
    case Exec(ExecOutput(id, data)) => if id == callId then data else ""
    case Exec(TerminalInput(id, stdin)) => if id == callId then "\n" + stdin + "\n" else ""
    case _ => ""
  }

  /** Everything a command produced, as the events report it. */
  ghost function Produced(events: seq<Event>, callId: string): string {
    if events == [] then ""
    else Produced(events[..|events| - 1], callId) + ProducedBy(events[|events| - 1], callId)
  }

  lemma DataOfSnoc(updates: seq<Update>, u: Update, callId: string)
    ensures Data(updates + [u], callId) == Data(updates, callId) + DataIn(u, callId)
    ensures About(updates + [u], callId) == About(updates, callId) + if IsAbout(u, callId) then [u] else []
  {
    assert (updates + [u])[..|updates|] == updates;
  }

  lemma {:induction false} DataOfAppend(updates: seq<Update>, more: seq<Update>, callId: string)
    ensures Data(updates + more, callId) == Data(updates, callId) + Data(more, callId)
    decreases |more|
  {
    if more == [] {
      assert updates + more == updates;
    } else {
      var init, last := more[..|more| - 1], more[|more| - 1];
      DataOfAppend(updates, init, callId);
      assert updates + more == (updates + init) + [last];
      DataOfSnoc(updates + init, last, callId);
      AppendAssoc(Data(updates, callId), Data(init, callId), DataIn(last, callId));
    }
  }

  lemma {:induction false} AboutOfAppend(updates: seq<Update>, more: seq<Update>, callId: string)
    ensures About(updates + more, callId) == About(updates, callId) + About(more, callId)
    decreases |more|
  {
    if more == [] {
      assert updates + more == updates;
    } else {
      var init, last := more[..|more| - 1], more[|more| - 1];
      AboutOfAppend(updates, init, callId);
      assert updates + more == (updates + init) + [last];
      DataOfSnoc(updates + init, last, callId);
      AppendAssoc(About(updates, callId), About(init, callId), if IsAbout(last, callId) then [last] else []);
    }
  }

  lemma DeliveredOfAppend(updates: seq<Update>, more: seq<Update>, callId: string)
    ensures Data(updates + more, callId) == Data(updates, callId) + Data(more, callId)
    ensures About(updates + more, callId) == About(updates, callId) + About(more, callId)
  {
    DataOfAppend(updates, more, callId);
    AboutOfAppend(updates, more, callId);
  }

  lemma DataOfOne(u: Update, callId: string)
    ensures Data([u], callId) == DataIn(u, callId)
    ensures About([u], callId) == if IsAbout(u, callId) then [u] else []
  {
    assert [u][..0] == [];
  }

  lemma {:induction false} NoData(updates: seq<Update>, callId: string)
    requires forall u :: u in updates ==> !IsAbout(u, callId)
    ensures Data(updates, callId) == "" && About(updates, callId) == []
  {
    if updates != [] {
      assert updates[|updates| - 1] in updates;
      NoData(updates[..|updates| - 1], callId);
    }
  }

  lemma DataOfUpdates(s: Streams, capable: bool, ev: Event, callId: string)
    ensures Data(Updates(s, capable, ev), callId) == Data(OwnUpdates(s, capable, ev), callId)
    ensures About(Updates(s, capable, ev), callId) == About(OwnUpdates(s, capable, ev), callId)
  {
    NoData(ClosingUpdates(s.search, ev), callId);
    DeliveredOfAppend(ClosingUpdates(s.search, ev), OwnUpdates(s, capable, ev), callId);
  }

  lemma OtherEventsAreNotAbout(s: Streams, capable: bool, ev: Event, callId: string)
    requires !ev.Exec? || ev.exec.callId != callId
    ensures forall u :: u in OwnUpdates(s, capable, ev) ==> !IsAbout(u, callId)
  {}

  ghost predicate OnlyOutput(updates: seq<Update>) {
    forall u :: u in updates ==> u.CommandOutput?
  }

  /** The begin of a command shows its start, once, and nothing else about the call. */
  lemma BeginShowsStart(s: Streams, capable: bool, e: ExecEvent)
    requires e.ExecBegin?
    ensures About(Updates(s, capable, Exec(e)), e.callId) == [CommandStart(e.callId, capable && e.terminal)]
    ensures Data(Updates(s, capable, Exec(e)), e.callId) == ""
  {
    DataOfUpdates(s, capable, Exec(e), e.callId);
    DataOfOne(CommandStart(e.callId, capable && e.terminal), e.callId);
  }

  /** One event between the begin and the end of a call shows what it produced, where terminals are shown. */
  lemma EventShowsOutput(s: Streams, capable: bool, ev: Event, callId: string)
    requires callId in s.commands && !Registers(ev, callId) && !Ends(ev, callId)
    ensures var supports, updates := Supports(capable, s.commands[callId]), Updates(s, capable, ev);
            && Data(updates, callId) == (if supports then ProducedBy(ev, callId) else "")
            && OnlyOutput(About(updates, callId))
            && (!supports ==> About(updates, callId) == [])
  {
    DataOfUpdates(s, capable, ev, callId);
    if ev.Exec? && ev.exec.callId == callId {
      var own := ExecUpdates(s.commands, capable, ev.exec);
      if own != [] {
        DataOfOne(own[0], callId);
      }
    } else {
      OtherEventsAreNotAbout(s, capable, ev, callId);
      NoData(OwnUpdates(s, capable, ev), callId);
    }
  }

  /** One event between the begin and the end of a call adds what it produced. */
  lemma EventAddsOutput(commands: map<string, Command>, ev: Event, callId: string)
    requires callId in commands && !Registers(ev, callId) && !Ends(ev, callId)
    ensures callId in NextCommands(commands, ev)
    ensures NextCommands(commands, ev)[callId]
         == commands[callId].(output := commands[callId].output + ProducedBy(ev, callId))
  {
    assert commands[callId].output + "" == commands[callId].output;
  }

  ghost predicate Undisturbed(events: seq<Event>, callId: string) {
    forall ev :: ev in events ==> !Registers(ev, callId) && !Ends(ev, callId)
  }

  lemma {:induction false} RunStreams(s: Streams, capable: bool, events: seq<Event>, callId: string)
    requires callId in s.commands && s.commands[callId].output == ""
    requires Undisturbed(events, callId)
    ensures var command, output := s.commands[callId], Produced(events, callId);
            && callId in After(s, events).commands
            && After(s, events).commands[callId] == command.(output := output)
            && Data(Seen(s, capable, events), callId) == (if Supports(capable, command) then output else "")
            && OnlyOutput(About(Seen(s, capable, events), callId))
            && (!Supports(capable, command) ==> About(Seen(s, capable, events), callId) == [])
    decreases |events|
  {
    if events != [] {
      var init, last := events[..|events| - 1], events[|events| - 1];
      RunStreams(s, capable, init, callId);
      assert last in events;
      EventShowsOutput(After(s, init), capable, last, callId);
      EventAddsOutput(After(s, init).commands, last, callId);
      DeliveredOfAppend(Seen(s, capable, init), Updates(After(s, init), capable, last), callId);
    }
  }

  predicate IsSuffix(suffix: string, s: string) {
    |suffix| <= |s| && s[|s| - |suffix|..] == suffix
  }

  lemma DeltaCompletes(output: string, snapshot: string)
    requires snapshot == "" ==> output == ""
    ensures var delta := CompletionDelta(output, snapshot);
            var total := output + if delta.Some? then delta.value else "";
            && IsSuffix(snapshot, total)
            && (total == snapshot <==> output <= snapshot)
            && |total| <= |output| + |snapshot|
  {
    if output <= snapshot {
      assert output + snapshot[|output|..] == snapshot;
      assert output == "" ==> output + snapshot == snapshot;
      assert output == snapshot ==> output + "" == snapshot;
    } else {
      assert (output + snapshot)[|output|..] == snapshot;
      assert |output + snapshot| > |snapshot|;
    }
  }

  /** The streamed text and the closing delta: they end with the snapshot, and repeat it only if they must. */
  lemma DeltaCompletesSnapshot(output: string, formatted: string, aggregated: string)
    ensures var snapshot := CompletionSnapshot(formatted, output, aggregated);
            var delta := CompletionDelta(output, snapshot);
            var total := output + if delta.Some? then delta.value else "";
            && IsSuffix(snapshot, total)
            && (total == snapshot <==> output <= snapshot)
            && |total| <= |output| + |snapshot|
  {
    DeltaCompletes(output, CompletionSnapshot(formatted, output, aggregated));
  }

  /** The end of a command shows what is still owed, where terminals are shown, and then its completion. */
  lemma EndShowsDelta(s: Streams, capable: bool, e: ExecEvent)
    requires e.ExecEnd? && e.callId in s.commands
    ensures var command := s.commands[e.callId];
            var snapshot := CompletionSnapshot(e.formatted, command.output, e.aggregated);
            var delta := if Supports(capable, command) then CompletionDelta(command.output, snapshot) else None;
            var updates := Updates(s, capable, Exec(e));
            && Data(updates, e.callId) == (if delta.Some? then delta.value else "")
            && About(updates, e.callId) == (if delta.Some? then [CommandOutput(e.callId, delta.value)] else [])
                                           + [CommandDone(e.callId, snapshot, Supports(capable, command))]
  {
    var own := EndUpdates(s.commands[e.callId], capable, e);
    var first, last := own[..|own| - 1], own[|own| - 1];
    DataOfUpdates(s, capable, Exec(e), e.callId);
    DeliveredOfAppend(first, [last], e.callId);
    assert own == first + [last];
    DataOfOne(last, e.callId);
    if first != [] {
      DataOfOne(first[0], e.callId);
    }
  }

  /** The snapshot of a command: what Codex formatted, else what was streamed, else what it aggregated. */
  lemma SnapshotIsFirstGiven(formatted: string, output: string, aggregated: string)
    ensures var snapshot := CompletionSnapshot(formatted, output, aggregated);
            && snapshot in {formatted, output, aggregated}
            && (snapshot != formatted ==> formatted == "")
            && (snapshot != formatted && snapshot != output ==> output == "")
            && (snapshot == "" ==> formatted == "" && output == "" && aggregated == "")
  {}

  /** The data holds the output and ends with the snapshot, and repeats no more of it than it must. */
  predicate Completes(data: string, output: string, snapshot: string) {
    && output <= data && IsSuffix(snapshot, data)
    && (data == snapshot <==> output <= snapshot)
    && |data| <= |output| + |snapshot|
  }

  /**
   What the client gets of one command: one start, then output, if it shows terminals, then one
   completion.
   */
  ghost predicate CommandDelivered(updates: seq<Update>, terminal: bool, callId: string, output: string, snapshot: string) {
    var about, data := About(updates, callId), Data(updates, callId);
    && |about| >= 2
    && about[0] == CommandStart(callId, terminal)
    && about[|about| - 1] == CommandDone(callId, snapshot, terminal)
    && OnlyOutput(about[1..|about| - 1])
    && (if terminal then Completes(data, output, snapshot) else |about| == 2 && data == "")
  }

  /** The updates of a command are those of its begin, of what comes between, and of its end. */
  lemma CommandInParts(s: Streams, capable: bool, begin: ExecEvent, events: seq<Event>, end: ExecEvent, callId: string)
    ensures var s0 := Next(s, Exec(begin));
            var first, between, last :=
              Updates(s, capable, Exec(begin)), Seen(s0, capable, events), Updates(After(s0, events), capable, Exec(end));
            && Seen(s, capable, [Exec(begin)] + events + [Exec(end)]) == first + between + last
            && About(first + between + last, callId) == About(first, callId) + About(between, callId) + About(last, callId)
            && Data(first + between + last, callId) == Data(first, callId) + Data(between, callId) + Data(last, callId)
  {
    var begun := [Exec(begin)];
    var all, s0 := begun + events, Next(s, Exec(begin));
    var first, between, last :=
      Updates(s, capable, Exec(begin)), Seen(s0, capable, events), Updates(After(s0, events), capable, Exec(end));
    RunAppend(s, capable, [], Exec(begin));
    assert [] + begun == begun && [] + first == first;
    RunInParts(s, capable, all, 1);
    assert all[..1] == begun && all[1..] == events;
    RunAppend(s, capable, all, Exec(end));
    DeliveredOfAppend(first, between, callId);
    DeliveredOfAppend(first + between, last, callId);
  }

  lemma Bracketed(first: Update, between: seq<Update>, owed: seq<Update>, last: Update)
    requires OnlyOutput(between) && OnlyOutput(owed)
    ensures var all := [first] + between + (owed + [last]);
            && |all| == 2 + |between| + |owed| && all[0] == first && all[|all| - 1] == last
            && OnlyOutput(all[1..|all| - 1])
  {
    var all := [first] + between + (owed + [last]);
    assert all[1..|all| - 1] == between + owed;
  }

  lemma PartsDeliver(
      updates: seq<Update>, terminal: bool, callId: string, output: string, between: seq<Update>, end: ExecEvent)
    requires end.ExecEnd? && OnlyOutput(between) && (!terminal ==> between == [])
    requires var snapshot := CompletionSnapshot(end.formatted, output, end.aggregated);
             var delta := if terminal then CompletionDelta(output, snapshot) else None;
             && About(updates, callId)
                == [CommandStart(callId, terminal)] + between
                   + ((if delta.Some? then [CommandOutput(callId, delta.value)] else [])
                      + [CommandDone(callId, snapshot, terminal)])
             && Data(updates, callId)
                == "" + (if terminal then output else "") + (if delta.Some? then delta.value else "")
    ensures CommandDelivered(updates, terminal, callId, output, CompletionSnapshot(end.formatted, output, end.aggregated))
  {
    hide CompletionSnapshot, CompletionDelta, IsSuffix;
    var snapshot := CompletionSnapshot(end.formatted, output, end.aggregated);
    var delta := if terminal then CompletionDelta(output, snapshot) else None;
    var owed := if delta.Some? then [CommandOutput(callId, delta.value)] else [];
    Bracketed(CommandStart(callId, terminal), between, owed, CommandDone(callId, snapshot, terminal));
    DeltaCompletesSnapshot(output, end.formatted, end.aggregated);
    assert "" + output == output && output + "" == output;
  }

  /**
   One command from begin to end, with any other events in between: the client is shown its start,
   then output, then its completion carrying the snapshot, each once. A terminal-capable client gets
   data that ends with the snapshot and equals it exactly when the streamed output is a prefix of it;
   a client without terminal support gets no output update.
   */
  lemma CommandOutputIsDelivered(s: Streams, capable: bool, begin: ExecEvent, events: seq<Event>, end: ExecEvent)
    requires begin.ExecBegin? && end.ExecEnd? && end.callId == begin.callId
    requires Undisturbed(events, begin.callId)
    ensures var output := Produced(events, begin.callId);
            CommandDelivered(Seen(s, capable, [Exec(begin)] + events + [Exec(end)]), capable && begin.terminal,
                             begin.callId, output, CompletionSnapshot(end.formatted, output, end.aggregated))
  {
    hide CompletionSnapshot, CompletionDelta, CommandDelivered, Updates;
    var callId, s0 := begin.callId, Next(s, Exec(begin));
    var s1 := After(s0, events);
    CommandInParts(s, capable, begin, events, end, callId);
    BeginShowsStart(s, capable, begin);
    RunStreams(s0, capable, events, callId);
    EndShowsDelta(s1, capable, end);
    PartsDeliver(Seen(s, capable, [Exec(begin)] + events + [Exec(end)]), capable && begin.terminal, callId,
                 Produced(events, callId), About(Seen(s0, capable, events), callId), end);
  }

  // ---------------------------------------------------------------------------------------------
  // Streamed text

  /** The deltas received since the last full message, if there were any. */
  ghost function DeltasSince(events: seq<Event>): Option<string> {
    if events == [] then None
    else
      var before := DeltasSince(events[..|events| - 1]);
      match events[|events| - 1]
      case Text(MessageDelta(delta)) => Some((if before.Some? then before.value else "") + delta)
      case Text(AgentMessage(_, _)) => None
      case _ => before
  }

  ghost predicate ReasoningSince(events: seq<Event>) {
    events != [] &&
    match events[|events| - 1]
    case Text(ReasoningDelta(_)) => true
    case Text(ReasoningBreak) => true
    case Text(AgentReasoning(_)) => false
    case _ => ReasoningSince(events[..|events| - 1])
  }

  lemma {:induction false} BuffersHoldDeltas(events: seq<Event>)
    ensures After(IDLE, events).buffers
         == Buffers(DeltasSince(events).Some?,
                    if DeltasSince(events).Some? then DeltasSince(events).value else "",
                    ReasoningSince(events))
    decreases |events|
  {
    if events != [] {
      BuffersHoldDeltas(events[..|events| - 1]);
    }
  }

  /**
   A full message is shown exactly when nothing was streamed since the last one, or it is a final
   answer that differs from what was streamed; a full reasoning text exactly when none was streamed.
   */
  lemma FullTextShownWhenNotStreamed(capable: bool, events: seq<Event>, message: string, final: bool)
    ensures var streamed := DeltasSince(events);
            && Updates(After(IDLE, events), capable, Text(AgentMessage(message, final)))
               == (if streamed.None? || (final && streamed.value != message) then [AgentText(message)] else [])
            && Updates(After(IDLE, events), capable, Text(AgentReasoning(message)))
               == (if ReasoningSince(events) then [] else [AgentThought(message)])
  {
    BuffersHoldDeltas(events);
  }

  /** The message text one update shows. */
  function MessageIn(u: Update): string {
    if u.AgentText? then u.text else ""
  }

  ghost function MessageText(updates: seq<Update>): string {
    if updates == [] then ""
    else MessageText(updates[..|updates| - 1]) + MessageIn(updates[|updates| - 1])
  }

  /** The reasoning text one update shows. */
  function ThoughtIn(u: Update): string {
    if u.AgentThought? then u.text else ""
  }

  ghost function ThoughtText(updates: seq<Update>): string {
    if updates == [] then ""
    else ThoughtText(updates[..|updates| - 1]) + ThoughtIn(updates[|updates| - 1])
  }

  /** What an event makes visible of the agent's message, given the deltas before it. */
  function MessageShown(streamed: Option<string>, ev: Event): string {
    match ev
    case Text(MessageDelta(delta)) => delta
    case Text(AgentMessage(message, final)) =>
      if streamed.None? || (final && streamed.value != message) then message else ""
    case _ => ""
  }

  function ThoughtShown(streamed: bool, ev: Event): string {
    match ev
    case Text(ReasoningDelta(delta)) => delta
    case Text(ReasoningBreak) => "\n\n"
    case Text(AgentReasoning(message)) => if streamed then "" else message
    case _ => ""
  }

  /** What the events of a run make visible, in order. */
  ghost function Messages(events: seq<Event>): string {
    if events == [] then ""
    else
      var init := events[..|events| - 1];
      Messages(init) + MessageShown(DeltasSince(init), events[|events| - 1])
  }

  ghost function Thoughts(events: seq<Event>): string {
    if events == [] then ""
    else
      var init := events[..|events| - 1];
      Thoughts(init) + ThoughtShown(ReasoningSince(init), events[|events| - 1])
  }

  lemma TextOfSnoc(updates: seq<Update>, u: Update)
    ensures MessageText(updates + [u]) == MessageText(updates) + MessageIn(u)
    ensures ThoughtText(updates + [u]) == ThoughtText(updates) + ThoughtIn(u)
  {
    assert (updates + [u])[..|updates|] == updates;
  }

  lemma {:induction false} TextOfAppend(updates: seq<Update>, more: seq<Update>)
    ensures MessageText(updates + more) == MessageText(updates) + MessageText(more)
    ensures ThoughtText(updates + more) == ThoughtText(updates) + ThoughtText(more)
    decreases |more|
  {
    if more == [] {
      assert updates + more == updates;
    } else {
      var init, last := more[..|more| - 1], more[|more| - 1];
      TextOfAppend(updates, init);
      assert updates + more == (updates + init) + [last];
      TextOfSnoc(updates + init, last);
      AppendAssoc(MessageText(updates), MessageText(init), MessageIn(last));
      AppendAssoc(ThoughtText(updates), ThoughtText(init), ThoughtIn(last));
    }
  }

  lemma {:induction false} NoText(updates: seq<Update>)
    requires forall u :: u in updates ==> !u.AgentText? && !u.AgentThought?
    ensures MessageText(updates) == "" && ThoughtText(updates) == ""
  {
    if updates != [] {
      assert updates[|updates| - 1] in updates;
      NoText(updates[..|updates| - 1]);
    }
  }

  function StreamedIn(b: Buffers): Option<string> {
    if b.seenMessage then Some(b.messageText) else None
  }

  lemma TextUpdatesShow(b: Buffers, e: TextEvent)
    ensures MessageText(TextUpdates(b, e)) == MessageShown(StreamedIn(b), Text(e))
    ensures ThoughtText(TextUpdates(b, e)) == ThoughtShown(b.seenReasoning, Text(e))
  {
    var own := TextUpdates(b, e);
    if own != [] {
      assert own[..0] == [];
      assert MessageText(own) == "" + MessageIn(own[0]);
      assert ThoughtText(own) == "" + ThoughtIn(own[0]);
    }
  }

  lemma OtherUpdatesShowNoText(s: Streams, capable: bool, ev: Event)
    requires !ev.Text?
    ensures forall u :: u in OwnUpdates(s, capable, ev) ==> !u.AgentText? && !u.AgentThought?
  {}

  lemma TextEventUpdates(s: Streams, capable: bool, e: TextEvent)
    ensures Updates(s, capable, Text(e)) == TextUpdates(s.buffers, e)
  {
    assert ClosingUpdates(s.search, Text(e)) == [];
  }

  lemma OtherUpdatesHaveNoText(s: Streams, capable: bool, ev: Event)
    requires !ev.Text?
    ensures MessageText(Updates(s, capable, ev)) == "" && ThoughtText(Updates(s, capable, ev)) == ""
  {
    OtherUpdatesShowNoText(s, capable, ev);
    NoText(Updates(s, capable, ev));
  }

  lemma UpdatesShowText(s: Streams, capable: bool, ev: Event)
    ensures MessageText(Updates(s, capable, ev)) == MessageShown(StreamedIn(s.buffers), ev)
    ensures ThoughtText(Updates(s, capable, ev)) == ThoughtShown(s.buffers.seenReasoning, ev)
  {
    if ev.Text? {
      TextEventUpdates(s, capable, ev.text);
      TextUpdatesShow(s.buffers, ev.text);
    } else {
      OtherUpdatesHaveNoText(s, capable, ev);
    }
  }

  /** Over every run, the client sees the text the events make visible, whatever else happens between them. */
  lemma {:induction false} ClientSeesMessages(capable: bool, events: seq<Event>)
    ensures MessageText(Seen(IDLE, capable, events)) == Messages(events)
    ensures ThoughtText(Seen(IDLE, capable, events)) == Thoughts(events)
    decreases |events|
  {
    if events != [] {
      var init, last := events[..|events| - 1], events[|events| - 1];
      ClientSeesMessages(capable, init);
      BuffersHoldDeltas(init);
      UpdatesShowText(After(IDLE, init), capable, last);
      TextOfAppend(Seen(IDLE, capable, init), Updates(After(IDLE, init), capable, last));
    }
  }

  // ---------------------------------------------------------------------------------------------
  // Messages in segments

  /** One message: the deltas streamed for it, then its full text. */
  datatype Segment = Segment(deltas: seq<string>, message: string, final: bool)

  /** What the client sees of one message. */
  ghost function Visible(seg: Segment): string {
    var streamed := Concat(seg.deltas);
    if seg.deltas == [] then seg.message
    else if seg.final && streamed != seg.message then streamed + seg.message
    else streamed
  }

  ghost function DeltaEvents(deltas: seq<string>): seq<Event> {
    if deltas == [] then []
    else DeltaEvents(deltas[..|deltas| - 1]) + [Text(MessageDelta(deltas[|deltas| - 1]))]
  }

  ghost function SegmentEvents(segs: seq<Segment>): seq<Event> {
    if segs == [] then []
    else
      var last := segs[|segs| - 1];
      SegmentEvents(segs[..|segs| - 1]) + DeltaEvents(last.deltas) + [Text(AgentMessage(last.message, last.final))]
  }

  predicate IsMessageEvent(ev: Event) {
    ev.Text? && (ev.text.MessageDelta? || ev.text.AgentMessage?)
  }

  /** The events of a run that carry message text. */
  ghost function OnlyMessages(events: seq<Event>): seq<Event> {
    if events == [] then []
    else
      OnlyMessages(events[..|events| - 1])
      + if IsMessageEvent(events[|events| - 1]) then [events[|events| - 1]] else []
  }

  lemma MessagesOfAppend(events: seq<Event>, ev: Event)
    ensures Messages(events + [ev]) == Messages(events) + MessageShown(DeltasSince(events), ev)
    ensures DeltasSince(events + [ev])
         == match ev
            case Text(MessageDelta(delta)) =>
              Some((if DeltasSince(events).Some? then DeltasSince(events).value else "") + delta)
            case Text(AgentMessage(_, _)) => None
            case _ => DeltasSince(events)
  {
    assert (events + [ev])[..|events|] == events;
  }

  lemma {:induction false} OtherEventsShowNoMessage(events: seq<Event>)
    ensures Messages(events) == Messages(OnlyMessages(events))
    ensures DeltasSince(events) == DeltasSince(OnlyMessages(events))
  {
    if events != [] {
      var init, last := events[..|events| - 1], events[|events| - 1];
      OtherEventsShowNoMessage(init);
      assert events == init + [last];
      MessagesOfAppend(init, last);
      if IsMessageEvent(last) {
        MessagesOfAppend(OnlyMessages(init), last);
      } else {
        assert OnlyMessages(events) == OnlyMessages(init);
      }
    }
  }

  lemma ConcatSnoc(parts: seq<string>)
    requires parts != []
    ensures Concat(parts) == Concat(parts[..|parts| - 1]) + parts[|parts| - 1]
  {
    var init, last := parts[..|parts| - 1], parts[|parts| - 1];
    assert parts == init + [last];
    ConcatOfAppend(init, [last]);
    assert Concat([last]) == last + Concat([][..]);
  }

  lemma DeltaShows(events: seq<Event>, before: string, streamed: string, delta: string)
    requires Messages(events) == before + streamed
    requires DeltasSince(events) == Some(streamed) || (streamed == "" && DeltasSince(events) == None)
    ensures Messages(events + [Text(MessageDelta(delta))]) == before + (streamed + delta)
    ensures DeltasSince(events + [Text(MessageDelta(delta))]) == Some(streamed + delta)
  {
    MessagesOfAppend(events, Text(MessageDelta(delta)));
    AppendAssoc(before, streamed, delta);
  }

  lemma {:induction false} DeltasShow(events: seq<Event>, deltas: seq<string>)
    requires DeltasSince(events) == None
    ensures Messages(events + DeltaEvents(deltas)) == Messages(events) + Concat(deltas)
    ensures DeltasSince(events + DeltaEvents(deltas)) == if deltas == [] then None else Some(Concat(deltas))
    decreases |deltas|
  {
    if deltas == [] {
      assert events + DeltaEvents(deltas) == events;
    } else {
      var init, last := deltas[..|deltas| - 1], deltas[|deltas| - 1];
      DeltasShow(events, init);
      assert events + DeltaEvents(deltas) == events + DeltaEvents(init) + [Text(MessageDelta(last))];
      DeltaShows(events + DeltaEvents(init), Messages(events), Concat(init), last);
      ConcatSnoc(deltas);
    }
  }

  ghost function VisibleText(segs: seq<Segment>): string {
    if segs == [] then "" else VisibleText(segs[..|segs| - 1]) + Visible(segs[|segs| - 1])
  }

  ghost function FullText(segs: seq<Segment>): string {
    if segs == [] then "" else FullText(segs[..|segs| - 1]) + segs[|segs| - 1].message
  }

  lemma SegmentShows(events: seq<Event>, seg: Segment)
    requires DeltasSince(events) == None
    ensures var all := events + DeltaEvents(seg.deltas) + [Text(AgentMessage(seg.message, seg.final))];
            Messages(all) == Messages(events) + Visible(seg) && DeltasSince(all) == None
  {
    var streamed := events + DeltaEvents(seg.deltas);
    DeltasShow(events, seg.deltas);
    MessagesOfAppend(streamed, Text(AgentMessage(seg.message, seg.final)));
    AppendAssoc(Messages(events), Concat(seg.deltas), seg.message);
    assert events + DeltaEvents([]) == events;
    assert Messages(streamed) + "" == Messages(streamed);
  }

  lemma {:induction false} SegmentsShow(segs: seq<Segment>)
    ensures Messages(SegmentEvents(segs)) == VisibleText(segs)
    ensures DeltasSince(SegmentEvents(segs)) == None
  {
    if segs != [] {
      var init, last := segs[..|segs| - 1], segs[|segs| - 1];
      SegmentsShow(init);
      SegmentShows(SegmentEvents(init), last);
    }
  }

  /** The client sees a message once, whole: it was not streamed, or was streamed to the letter. */
  ghost predicate Faithful(seg: Segment) {
    seg.deltas == [] || Concat(seg.deltas) == seg.message || (seg.final && Concat(seg.deltas) == "")
  }

  lemma VisibleExactlyWhenFaithful(seg: Segment)
    ensures Visible(seg) == seg.message <==> Faithful(seg)
  {
    var streamed := Concat(seg.deltas);
    assert |streamed + seg.message| == |streamed| + |seg.message|;
    if streamed == "" {
      assert streamed + seg.message == seg.message;
    }
  }

  lemma {:induction false} FaithfulTexts(segs: seq<Segment>)
    requires forall seg :: seg in segs ==> Faithful(seg)
    ensures VisibleText(segs) == FullText(segs)
  {
    if segs != [] {
      FaithfulTexts(segs[..|segs| - 1]);
      VisibleExactlyWhenFaithful(segs[|segs| - 1]);
    }
  }

  /**
   The client text of any run whose message events are the given segments is the concatenation of
   what each makes visible; when every segment is faithful, it is the concatenation of all messages.
   */
  lemma ClientTextIsAllMessages(capable: bool, events: seq<Event>, segs: seq<Segment>)
    requires OnlyMessages(events) == SegmentEvents(segs)
    ensures MessageText(Seen(IDLE, capable, events)) == VisibleText(segs)
    ensures (forall seg :: seg in segs ==> Faithful(seg)) ==>
              MessageText(Seen(IDLE, capable, events)) == FullText(segs)
  {
    ClientSeesMessages(capable, events);
    OtherEventsShowNoMessage(events);
    SegmentsShow(segs);
    if forall seg :: seg in segs ==> Faithful(seg) {
      FaithfulTexts(segs);
    }
  }

  // ---------------------------------------------------------------------------------------------
  // Replayed text

  /** The full message an event carries. */
  function FullMessage(ev: Event): string {
    if ev.Text? && ev.text.AgentMessage? then ev.text.message else ""
  }

  ghost function FullMessages(events: seq<Event>): string {
    if events == [] then "" else FullMessages(events[..|events| - 1]) + FullMessage(events[|events| - 1])
  }

  lemma ReplayUpdatesShowText(ev: Event)
    ensures MessageText(ReplayUpdates(ev)) == FullMessage(ev)
  {
    var updates := ReplayUpdates(ev);
    if updates != [] {
      assert updates[..0] == [];
      assert MessageText(updates) == "" + MessageIn(updates[0]);
    }
  }

  lemma {:induction false} ReplayShowsMessages(events: seq<Event>)
    ensures MessageText(Replayed(events)) == FullMessages(events)
  {
    if events != [] {
      var init, last := events[..|events| - 1], events[|events| - 1];
      ReplayShowsMessages(init);
      ReplayUpdatesShowText(last);
      TextOfAppend(Replayed(init), ReplayUpdates(last));
    }
  }

  lemma FullOfSnoc(events: seq<Event>, ev: Event)
    ensures FullMessages(events + [ev]) == FullMessages(events) + FullMessage(ev)
  {
    assert (events + [ev])[..|events|] == events;
  }

  lemma {:induction false} OnlyMessagesMatter(events: seq<Event>)
    ensures FullMessages(events) == FullMessages(OnlyMessages(events))
  {
    if events != [] {
      var init, last := events[..|events| - 1], events[|events| - 1];
      OnlyMessagesMatter(init);
      if IsMessageEvent(last) {
        FullOfSnoc(OnlyMessages(init), last);
      } else {
        assert OnlyMessages(events) == OnlyMessages(init);
        assert FullMessages(init) + "" == FullMessages(init);
      }
    }
  }

  lemma {:induction false} DeltasAreNotReplayed(events: seq<Event>, deltas: seq<string>)
    ensures FullMessages(events + DeltaEvents(deltas)) == FullMessages(events)
    decreases |deltas|
  {
    if deltas == [] {
      assert events + DeltaEvents(deltas) == events;
    } else {
      var init, last := deltas[..|deltas| - 1], deltas[|deltas| - 1];
      DeltasAreNotReplayed(events, init);
      AppendAssoc(events, DeltaEvents(init), [Text(MessageDelta(last))]);
      FullOfSnoc(events + DeltaEvents(init), Text(MessageDelta(last)));
      assert FullMessages(events) + "" == FullMessages(events);
    }
  }

  lemma {:induction false} SegmentsReplay(segs: seq<Segment>)
    ensures FullMessages(SegmentEvents(segs)) == FullText(segs)
  {
    if segs != [] {
      var init, last := segs[..|segs| - 1], segs[|segs| - 1];
      SegmentsReplay(init);
      DeltasAreNotReplayed(SegmentEvents(init), last.deltas);
      FullOfSnoc(SegmentEvents(init) + DeltaEvents(last.deltas), Text(AgentMessage(last.message, last.final)));
    }
  }

  /** Replay shows every message once, whole: what the live client saw, if each segment was faithful. */
  lemma ReplayShowsTheLiveText(capable: bool, events: seq<Event>, segs: seq<Segment>)
    requires OnlyMessages(events) == SegmentEvents(segs)
    ensures MessageText(Replayed(events)) == FullText(segs)
    ensures (forall seg :: seg in segs ==> Faithful(seg)) ==>
              MessageText(Replayed(events)) == MessageText(Seen(IDLE, capable, events))
  {
    ReplayShowsMessages(events);
    OnlyMessagesMatter(events);
    SegmentsReplay(segs);
    ClientTextIsAllMessages(capable, events, segs);
  }

  // ---------------------------------------------------------------------------------------------
  // Reasoning in segments

  /** One reasoning text: the deltas and section breaks streamed for it, then the full text. */
  datatype Reasoning = Reasoning(pieces: seq<TextEvent>, full: string)

  predicate IsPiece(e: TextEvent) {
    e.ReasoningDelta? || e.ReasoningBreak?
  }

  ghost predicate WellFormed(rs: seq<Reasoning>) {
    forall r, e :: r in rs && e in r.pieces ==> IsPiece(e)
  }

  ghost function PieceText(pieces: seq<TextEvent>): string {
    if pieces == [] then ""
    else PieceText(pieces[..|pieces| - 1]) + ThoughtShown(true, Text(pieces[|pieces| - 1]))
  }

  ghost function PieceEvents(pieces: seq<TextEvent>): seq<Event> {
    if pieces == [] then []
    else PieceEvents(pieces[..|pieces| - 1]) + [Text(pieces[|pieces| - 1])]
  }

  ghost function ReasoningEvents(rs: seq<Reasoning>): seq<Event> {
    if rs == [] then []
    else
      var last := rs[|rs| - 1];
      ReasoningEvents(rs[..|rs| - 1]) + PieceEvents(last.pieces) + [Text(AgentReasoning(last.full))]
  }

  /** What the client sees: the full texts that were not streamed, and what was streamed of the others. */
  ghost function VisibleThoughts(rs: seq<Reasoning>): string {
    if rs == [] then ""
    else
      var last := rs[|rs| - 1];
      VisibleThoughts(rs[..|rs| - 1]) + if last.pieces == [] then last.full else PieceText(last.pieces)
  }

  predicate IsReasoningEvent(ev: Event) {
    ev.Text? && !IsMessageEvent(ev)
  }

  ghost function OnlyReasoning(events: seq<Event>): seq<Event> {
    if events == [] then []
    else
      OnlyReasoning(events[..|events| - 1])
      + if IsReasoningEvent(events[|events| - 1]) then [events[|events| - 1]] else []
  }

  lemma ThoughtsOfAppend(events: seq<Event>, ev: Event)
    ensures Thoughts(events + [ev]) == Thoughts(events) + ThoughtShown(ReasoningSince(events), ev)
    ensures ReasoningSince(events + [ev])
       <==> if IsReasoningEvent(ev) then IsPiece(ev.text) else ReasoningSince(events)
  {
    assert (events + [ev])[..|events|] == events;
  }

  lemma {:induction false} OtherEventsShowNoThought(events: seq<Event>)
    ensures Thoughts(events) == Thoughts(OnlyReasoning(events))
    ensures ReasoningSince(events) <==> ReasoningSince(OnlyReasoning(events))
  {
    if events != [] {
      var init, last := events[..|events| - 1], events[|events| - 1];
      OtherEventsShowNoThought(init);
      assert events == init + [last];
      ThoughtsOfAppend(init, last);
      if IsReasoningEvent(last) {
        ThoughtsOfAppend(OnlyReasoning(init), last);
      } else {
        assert OnlyReasoning(events) == OnlyReasoning(init);
      }
    }
  }

  lemma PieceShows(events: seq<Event>, before: string, streamed: string, e: TextEvent)
    requires IsPiece(e) && Thoughts(events) == before + streamed
    ensures Thoughts(events + [Text(e)]) == before + (streamed + ThoughtShown(true, Text(e)))
    ensures ReasoningSince(events + [Text(e)])
  {
    ThoughtsOfAppend(events, Text(e));
    AppendAssoc(before, streamed, ThoughtShown(true, Text(e)));
  }

  lemma {:induction false} PiecesShow(events: seq<Event>, pieces: seq<TextEvent>)
    requires !ReasoningSince(events) && forall e :: e in pieces ==> IsPiece(e)
    ensures Thoughts(events + PieceEvents(pieces)) == Thoughts(events) + PieceText(pieces)
    ensures ReasoningSince(events + PieceEvents(pieces)) <==> pieces != []
    decreases |pieces|
  {
    if pieces == [] {
      assert events + PieceEvents(pieces) == events;
    } else {
      var init, last := pieces[..|pieces| - 1], pieces[|pieces| - 1];
      assert last in pieces;
      PiecesShow(events, init);
      assert events + PieceEvents(pieces) == events + PieceEvents(init) + [Text(last)];
      PieceShows(events + PieceEvents(init), Thoughts(events), PieceText(init), last);
    }
  }

  lemma OneReasoningShows(events: seq<Event>, r: Reasoning)
    requires !ReasoningSince(events) && forall e :: e in r.pieces ==> IsPiece(e)
    ensures var all := events + PieceEvents(r.pieces) + [Text(AgentReasoning(r.full))];
            && Thoughts(all) == Thoughts(events) + (if r.pieces == [] then r.full else PieceText(r.pieces))
            && !ReasoningSince(all)
  {
    PiecesShow(events, r.pieces);
    ThoughtsOfAppend(events + PieceEvents(r.pieces), Text(AgentReasoning(r.full)));
    assert events + [] == events;
  }

  lemma {:induction false} ReasoningShows(rs: seq<Reasoning>)
    requires WellFormed(rs)
    ensures Thoughts(ReasoningEvents(rs)) == VisibleThoughts(rs)
    ensures !ReasoningSince(ReasoningEvents(rs))
  {
    if rs != [] {
      var init, last := rs[..|rs| - 1], rs[|rs| - 1];
      assert last in rs;
      ReasoningShows(init);
      OneReasoningShows(ReasoningEvents(init), last);
    }
  }

  ghost function FullReasoning(rs: seq<Reasoning>): string {
    if rs == [] then "" else FullReasoning(rs[..|rs| - 1]) + rs[|rs| - 1].full
  }

  lemma {:induction false} FaithfulReasoning(rs: seq<Reasoning>)
    requires forall r :: r in rs ==> r.pieces == [] || PieceText(r.pieces) == r.full
    ensures VisibleThoughts(rs) == FullReasoning(rs)
  {
    if rs != [] {
      FaithfulReasoning(rs[..|rs| - 1]);
    }
  }

  /** Reasoning likewise: each full text is shown when nothing was streamed for it, and only then. */
  lemma ClientSeesAllReasoning(capable: bool, events: seq<Event>, rs: seq<Reasoning>)
    requires WellFormed(rs) && OnlyReasoning(events) == ReasoningEvents(rs)
    ensures ThoughtText(Seen(IDLE, capable, events)) == VisibleThoughts(rs)
    ensures (forall r :: r in rs ==> r.pieces == [] || PieceText(r.pieces) == r.full) ==>
              ThoughtText(Seen(IDLE, capable, events)) == FullReasoning(rs)
  {
    ClientSeesMessages(capable, events);
    OtherEventsShowNoThought(events);
    ReasoningShows(rs);
    if forall r :: r in rs ==> r.pieces == [] || PieceText(r.pieces) == r.full {
      FaithfulReasoning(rs);
    }
  }
}
