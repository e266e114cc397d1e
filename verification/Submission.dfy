/**
 One submission: its answer senders, pending permission interactions and client-visible streams.
 Each operation is a function on the submission and its surroundings.
 */
module SubmissionModel {
  import opened Wrappers
  import opened Text
  import opened Approval
  import opened Events
  import opened Streams
  import opened Runtime

  datatype Responses = Responses(primary: Option<Sender>, additional: seq<Sender>)

  datatype Entry = Entry(task: TaskId, request: PermissionRequest)

  datatype Submission = Submission(
    responses: Responses, interactions: map<string, Entry>, streams: Streams, eventCount: nat)

  /** A submission in its surroundings. */
  datatype Local = Local(sub: Submission, w: World)

  function NewSubmission(primary: Option<Sender>): Submission {
    Submission(Responses(primary, []), map[], IDLE, 0)
  }

  function Senders(r: Responses): seq<Sender> {
    (if r.primary.Some? then [r.primary.value] else []) + r.additional
  }

  /** Some caller still waits for the result. */
  predicate IsActive(r: Responses, open: set<Sender>) {
    (r.primary.Some? && r.primary.value in open) || exists i :: 0 <= i < |r.additional| && r.additional[i] in open
  }

  function TasksOf(interactions: map<string, Entry>): set<TaskId> {
    set k | k in interactions :: interactions[k].task
  }

  // ---------------------------------------------------------------------------------------------
  // Operations

  function SendResult(l: Local, result: PromptResult): Local {
    Local(l.sub.(responses := Responses(None, [])),
          l.w.(sent := l.w.sent + Deliveries(Senders(l.sub.responses), result)))
  }

  function AddSender(l: Local, sender: Sender): Local {
    l.(sub := l.sub.(responses := l.sub.responses.(additional := l.sub.responses.additional + [sender])))
  }

  function AbortAll(l: Local): Local {
    Local(l.sub.(interactions := map[]),
          l.w.(tasks := SettleAll(l.w.tasks, TasksOf(l.sub.interactions), Aborted)))
  }

  /** A request under a key in use replaces the earlier one. */
  function Spawn(l: Local, id: string, key: string, request: PermissionRequest): Local {
    var t := |l.w.tasks|;
    var replaced := if key in l.sub.interactions then {l.sub.interactions[key].task} else {};
    Local(l.sub.(interactions := l.sub.interactions[key := Entry(t, request)]),
          l.w.(tasks := SettleAll(l.w.tasks, replaced, Replaced) + [Task(id, key, Waiting, Pending)]))
  }

  /** Submits an operation; when Codex refuses it, the callers get the error. */
  function SubmitOrFail(l: Local, submitted: Submitted, accepted: bool): Local {
    var l' := l.(w := l.w.(ops := l.w.ops + [submitted]));
    if accepted then l' else SendResult(l', Err("submit failed"))
  }

  /** Takes the interaction a task result is for, and submits the operation it asks for. */
  function TakeEntry(l: Local, m: Resolution): Local
    requires m.key in l.sub.interactions
  {
    var entry := l.sub.interactions[m.key];
    var rest := l.sub.(interactions := l.sub.interactions - {m.key});
    match m.response
    case RequestFailed(_) => Local(rest, l.w.(tasks := SettleAll(l.w.tasks, {entry.task}, Failed)))
    case Replied(outcome) =>
      var op := Submitted(OpFor(entry.request, outcome), Some(entry.task), Some(m.task));
      Local(rest, l.w.(tasks := SettleAll(l.w.tasks, {entry.task}, Resolved), ops := l.w.ops + [op]))
  }

  /** Handling a task result: a failed request or a refused operation fails the whole submission. */
  function Resolve(l: Local, m: Resolution, accepted: bool): Local {
    if m.key !in l.sub.interactions then l
    else
      var taken := TakeEntry(l, m);
      match m.response
      case RequestFailed(error) => SendResult(AbortAll(taken), Err(error))
      case Replied(_) => if accepted then taken else SendResult(AbortAll(taken), Err("submit failed"))
  }

  function EndResult(e: EndEvent): PromptResult {
    match e
    case Error(message) => Err(message)
    case TurnComplete(_) => Ok(EndTurn)
    case _ => Ok(StopReason.Cancelled)
  }

  /** Either kind of id is printed bare. */
  function PrintedId(id: RequestId): string {
    match id
    case StringId(value) => value
    case IntegerId(number) => PrintInt(number)
  }

  function RequestKey(r: RequestEvent): string {
    match r
    case ExecApprovalRequest(callId, _, _, _, _, _) => "exec:" + callId
    case PatchApprovalRequest(callId) => "patch:" + callId
    case PermissionsRequest(callId, _) => "permissions:" + callId
    case ElicitationRequest(serverName, requestId, _, _, _) =>
      "mcp-elicitation:" + (serverName + ":" + PrintedId(requestId))
  }

  function RequestFor(r: RequestEvent): PermissionRequest {
    match r
    case ExecApprovalRequest(callId, approvalId, turnId, decisions, _, _) =>
      ExecRequest(callId, approvalId, turnId, decisions)
    case PatchApprovalRequest(callId) => Patch(callId, PATCH_OPTIONS)
    case PermissionsRequest(callId, profile) => RequestPermissions(callId, profile)
    case ElicitationRequest(serverName, requestId, _, allowSession, allowAlways) =>
      McpElicitation(serverName, requestId, ElicitationOptions(allowSession, allowAlways))
  }

  function DeclineOp(r: RequestEvent): Op
    requires r.ElicitationRequest?
  {
    ResolveElicitation(r.serverName, r.requestId, ElicitationResolution(Decline, None))
  }

  /** A request the client is asked about; others are answered at once. */
  predicate AsksClient(r: RequestEvent) {
    (r.ExecApprovalRequest? ==> r.contentOk) && (r.ElicitationRequest? ==> r.supported)
  }

  function HandleRequest(l: Local, id: string, r: RequestEvent, accepted: bool): Local {
    if r.ExecApprovalRequest? && !r.contentOk then SendResult(l, Err("content"))
    else if r.ElicitationRequest? && !r.supported then SubmitOrFail(l, Submitted(DeclineOp(r), None, None), accepted)
    else Spawn(l, id, RequestKey(r), RequestFor(r))
  }

  function ShowUpdates(l: Local, id: string, capable: bool, ev: Event): Local {
    Local(l.sub.(streams := Next(l.sub.streams, ev), eventCount := l.sub.eventCount + 1),
          l.w.(shown := l.w.shown + Tagged(Some(id), Updates(l.sub.streams, capable, ev))))
  }

  function DeliverEvent(l: Local, id: string, capable: bool, ev: Event, accepted: bool): Local {
    var l' := ShowUpdates(l, id, capable, ev);
    match ev
    case End(e) => if EndsTurn(ev) then SendResult(AbortAll(l'), EndResult(e)) else l'
    case Request(r) => HandleRequest(l', id, r, accepted)
    case _ => l'
  }

  // ---------------------------------------------------------------------------------------------
  // A run of events

  datatype Delivered = Delivered(event: Event, accepted: bool)

  function DeliverAll(l: Local, id: string, capable: bool, events: seq<Delivered>): Local {
    if events == [] then l
    else
      var last := events[|events| - 1];
      DeliverEvent(DeliverAll(l, id, capable, events[..|events| - 1]), id, capable, last.event, last.accepted)
  }

  function EventsIn(events: seq<Delivered>): (r: seq<Event>)
    ensures |r| == |events|
    ensures forall i :: 0 <= i < |r| ==> r[i] == events[i].event
  {
    seq(|events|, i requires 0 <= i < |events| => events[i].event)
  }

  lemma ShownAppend(shown: seq<ClientUpdate>, submission: Option<string>, updates: seq<Update>, more: seq<Update>)
    ensures shown + Tagged(submission, updates) + Tagged(submission, more) == shown + Tagged(submission, updates + more)
  {
    assert Tagged(submission, updates + more) == Tagged(submission, updates) + Tagged(submission, more);
  }

  /** The client was shown, and the submission went through, exactly the stream of these events. */
  ghost predicate ShowsStream(l: Local, l': Local, id: string, capable: bool, events: seq<Event>) {
    && l'.sub.streams == After(l.sub.streams, events)
    && l'.sub.eventCount == l.sub.eventCount + |events|
    && l'.w.shown == l.w.shown + Tagged(Some(id), Seen(l.sub.streams, capable, events))
  }

  /** One event shows its updates, and leaves the streams as it should. */
  ghost predicate ShowsEvent(l: Local, l': Local, id: string, capable: bool, ev: Event) {
    && l'.sub.streams == Next(l.sub.streams, ev)
    && l'.sub.eventCount == l.sub.eventCount + 1
    && l'.w.shown == l.w.shown + Tagged(Some(id), Updates(l.sub.streams, capable, ev))
  }

  lemma DeliverShows(l: Local, id: string, capable: bool, ev: Event, accepted: bool)
    ensures ShowsEvent(l, DeliverEvent(l, id, capable, ev, accepted), id, capable, ev)
  {}

  lemma ShowsOneMore(l: Local, m: Local, l': Local, id: string, capable: bool, events: seq<Event>, ev: Event)
    requires ShowsStream(l, m, id, capable, events) && ShowsEvent(m, l', id, capable, ev)
    ensures ShowsStream(l, l', id, capable, events + [ev])
  {
    var seen, updates := Seen(l.sub.streams, capable, events), Updates(m.sub.streams, capable, ev);
    RunAppend(l.sub.streams, capable, events, ev);
    ShownAppend(l.w.shown, Some(id), seen, updates);
  }

  /** Whatever a submission's requests and answers do, its client sees exactly its event stream. */
  lemma {:induction false} SubmissionShowsItsStream(l: Local, id: string, capable: bool, events: seq<Delivered>)
    ensures ShowsStream(l, DeliverAll(l, id, capable, events), id, capable, EventsIn(events))
    decreases |events|
  {
    if events == [] {
      assert Tagged(Some(id), []) == [];
    } else {
      var init, last := events[..|events| - 1], events[|events| - 1];
      SubmissionShowsItsStream(l, id, capable, init);
      var m := DeliverAll(l, id, capable, init);
      DeliverShows(m, id, capable, last.event, last.accepted);
      ShowsOneMore(l, m, DeliverAll(l, id, capable, events), id, capable, EventsIn(init), last.event);
      assert EventsIn(events) == EventsIn(init) + [last.event];
    }
  }

  // ---------------------------------------------------------------------------------------------
  // Results and web searches

  /** An elicitation the client cannot be asked about, whose decline Codex refuses. */
  predicate IsRefusedDecline(ev: Event, accepted: bool) {
    ev.Request? && ev.request.ElicitationRequest? && !ev.request.supported && !accepted
  }

  predicate IsUnreadableApproval(ev: Event) {
    ev.Request? && ev.request.ExecApprovalRequest? && !ev.request.contentOk
  }

  /** Exactly these events answer the callers of a submission. */
  lemma EventAnswersExactlyWhen(l: Local, id: string, capable: bool, ev: Event, accepted: bool)
    requires Senders(l.sub.responses) != []
    ensures DeliverEvent(l, id, capable, ev, accepted).w.sent != l.w.sent <==>
              EndsTurn(ev) || IsUnreadableApproval(ev) || IsRefusedDecline(ev, accepted)
  {
    assert forall r :: |l.w.sent + Deliveries(Senders(l.sub.responses), r)| > |l.w.sent|;
  }

  /**
   When an event answers the callers, a search that was running stays open exactly when the event is
   a refused decline; every other such event completes it first.
   */
  lemma SearchOpenAfterAnswerExactlyWhen(l: Local, id: string, capable: bool, ev: Event, accepted: bool)
    requires DeliverEvent(l, id, capable, ev, accepted).w.sent != l.w.sent
    ensures DeliverEvent(l, id, capable, ev, accepted).sub.streams.search.Some?
       <==> l.sub.streams.search.Some? && IsRefusedDecline(ev, accepted)
  {
    if Senders(l.sub.responses) != [] {
      EventAnswersExactlyWhen(l, id, capable, ev, accepted);
    }
  }

  /** A failed request or refused operation answers the callers and leaves a running search open. */
  lemma SearchOpenAfterFailure(l: Local, m: Resolution, accepted: bool)
    ensures Resolve(l, m, accepted).sub.streams == l.sub.streams
    ensures m.key in l.sub.interactions && Senders(l.sub.responses) != [] ==>
              (Resolve(l, m, accepted).w.sent != l.w.sent <==> m.response.RequestFailed? || !accepted)
  {
    assert forall r :: |Deliveries(Senders(l.sub.responses), r)| == |Senders(l.sub.responses)|;
  }

  const SEARCH_THEN_DECLINE: seq<Delivered> := [
    Delivered(Search(SearchBegin("w")), true),
    Delivered(Request(ElicitationRequest("server", StringId("1"), false, false, false)), false)]

  /** The caller has its result while its client still sees the search running. */
  lemma RefusedDeclineLeavesSearchOpen(id: string, capable: bool)
    ensures var l := DeliverAll(Local(NewSubmission(Some(0)), START), id, capable, SEARCH_THEN_DECLINE);
            && l.w.sent == [Sent(0, Err("submit failed"))]
            && l.sub.streams.search == Some("w")
            && OpenSearch(Seen(IDLE, capable, EventsIn(SEARCH_THEN_DECLINE))) == Some("w")
  {
    var l := Local(NewSubmission(Some(0)), START);
    var first, second := SEARCH_THEN_DECLINE[0], SEARCH_THEN_DECLINE[1];
    assert SEARCH_THEN_DECLINE[..1] == [first] && [first][..0] == [];
    var l1 := DeliverEvent(l, id, capable, first.event, true);
    assert DeliverAll(l, id, capable, [first]) == l1;
    assert l1.sub.streams.search == Some("w") && l1.w.sent == [] && l1.sub.responses == l.sub.responses;
    assert Deliveries([0], Err("submit failed")) == [Sent(0, Err("submit failed"))];
    SubmissionShowsItsStream(l, id, capable, SEARCH_THEN_DECLINE);
    SearchesAlternate(capable, EventsIn(SEARCH_THEN_DECLINE));
  }

  // ---------------------------------------------------------------------------------------------
  // Operations and their requests

  /** The decision on a command: the last one offered under the option chosen, and otherwise Abort. */
  ghost predicate DecidesCommand(d: ReviewDecision, decisions: seq<ReviewDecision>, outcome: Outcome) {
    Chooses(outcome, decisions, d) || (d == Abort && forall other :: !Chooses(outcome, decisions, other))
  }

  /**
   Whatever the client answers, the operation names the request it answers, and decides it as the
   client chose among what was offered; a dismissed dialog, or an option nobody offered, decides
   against it.
   */
  lemma OperationAnswersItsRequest(r: RequestEvent, outcome: Outcome)
    ensures var op := OpFor(RequestFor(r), outcome);
            match r
            case ExecApprovalRequest(callId, approvalId, turnId, decisions, _, _) =>
              && op.ExecApproval? && op.id == (if approvalId.Some? then approvalId.value else callId)
              && op.turnId == Some(turnId) && DecidesCommand(op.decision, decisions, outcome)
              && (op.decision != Abort ==> op.decision in decisions && outcome == Selected(OptionId(op.decision)))
            case PatchApprovalRequest(callId) =>
              && op.PatchApproval? && op.id == callId
              && op.decision == (if outcome == Selected("approved") then Approved
                                 else if outcome == Selected("denied") then Denied("rejected by user") else Abort)
            case PermissionsRequest(callId, profile) =>
              && op.RequestPermissionsResponse? && op.id == callId
              && op.response == (if outcome == Selected("approved-for-session") then PermissionsResponse(profile, true, false)
                                 else if outcome == Selected("approved") then PermissionsResponse(profile, false, false)
                                 else PermissionsResponse([], false, true))
            case ElicitationRequest(serverName, requestId, _, allowSession, allowAlways) =>
              && op.ResolveElicitation? && op.serverName == serverName && op.requestId == requestId
              && op.resolution == (if outcome == Selected("approved") then ElicitationResolution(Accept, None)
                                   else if allowSession && outcome == Selected("approved-for-session")
                                   then ElicitationResolution(Accept, Some("session"))
                                   else if allowAlways && outcome == Selected("approved-always")
                                   then ElicitationResolution(Accept, Some("always"))
                                   else ElicitationResolution(CancelElicitation, None))
  {
    match r
    case ExecApprovalRequest(_, _, _, decisions, _, _) =>
      SubmittedDecisionExactly(decisions, outcome, OpFor(RequestFor(r), outcome).decision);
      DecisionWasOffered(decisions, outcome);
    case PatchApprovalRequest(_) => PatchDecisionExactly(outcome);
    case PermissionsRequest(_, profile) => PermissionsGrantIsAllOrNothing(outcome, profile);
    case ElicitationRequest(_, _, _, allowSession, allowAlways) =>
      ElicitationAcceptedByOffer(outcome, allowSession, allowAlways);
  }
}
