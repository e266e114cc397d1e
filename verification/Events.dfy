/** Codex events, grouped as the event mapper routes them, and the updates the client sees. */
module Events {
  import opened Wrappers
  import opened Approval
  import opened UserInput

  type ThreadId = string
  type Goal = string

  datatype Mode = DefaultMode | PlanMode

  datatype Usage = Usage(info: Option<string>, rateLimits: Option<string>)

  datatype AgentEntry = AgentEntry(nickname: Option<string>, role: Option<string>, status: string)

  /** End of a turn. An abort without a turn id does not end the submission. */
  datatype EndEvent =
    | Error(message: string)
    | TurnComplete(turnId: string)
    | TurnAborted(abortedTurn: Option<string>)
    | ShutdownComplete

  /** Events that carry replayable session state. */
  datatype SessionEvent =
    | TurnStarted(mode: Mode)
    | TokenCount(usage: Usage, shown: bool)
    | GoalUpdated(goal: Goal)
    | AgentSpawnEnd(spawned: Option<ThreadId>, entry: AgentEntry)
    | AgentInteractionEnd(thread: ThreadId, entry: AgentEntry)
    | AgentResumeEnd(thread: ThreadId, entry: AgentEntry)
    | AgentWaitingEnd(entries: seq<(ThreadId, AgentEntry)>, statuses: map<ThreadId, string>)
    | AgentCloseEnd(thread: ThreadId)

  datatype TextEvent =
    | MessageDelta(delta: string)
    | AgentMessage(message: string, final: bool)
    | ReasoningDelta(delta: string)
    | ReasoningBreak
    | AgentReasoning(message: string)

  datatype SearchEvent =
    | SearchBegin(callId: string)
    | SearchEnd(callId: string, query: string)

  datatype ExecEvent =
    | ExecBegin(callId: string, terminal: bool)
    | ExecOutput(callId: string, data: string)
    | TerminalInput(callId: string, stdin: string)
    | ExecEnd(callId: string, formatted: string, aggregated: string)

  datatype RequestEvent =
    | ExecApprovalRequest(callId: string, approvalId: Option<string>, turnId: string,
                          decisions: seq<ReviewDecision>, terminal: bool, contentOk: bool)
    | PatchApprovalRequest(callId: string)
    | PermissionsRequest(callId: string, profile: PermissionProfile)
    | ElicitationRequest(serverName: string, requestId: RequestId, supported: bool,
                         allowSession: bool, allowAlways: bool)

  datatype Event =
    | End(end: EndEvent)
    | Session(session: SessionEvent)
    | Text(text: TextEvent)
    | Search(search: SearchEvent)
    | Exec(exec: ExecEvent)
    | Guardian(id: string, inProgress: bool)
    | Request(request: RequestEvent)
    | RequestUserInput(callId: string, turnId: string, questions: seq<Question>)
    // Everything else: one notification or none when live, and one or none on replay.
    | Other(what: string, live: bool, replayed: bool, closesSearch: bool)

  datatype Update =
    | AgentText(text: string)
    | AgentThought(text: string)
    | CommandStart(callId: string, terminal: bool)
    | CommandOutput(callId: string, data: string)
    | CommandDone(callId: string, snapshot: string, terminal: bool)
    | SearchStart(callId: string)
    | SearchQuery(callId: string, query: string)
    | SearchDone(callId: string)
    | GuardianStart(id: string, inProgress: bool)
    | GuardianUpdate(id: string, inProgress: bool)
    | SessionShown(session: SessionEvent)
    | QuestionPrompt(questions: seq<Question>)
    | Shown(what: string)

  /** Events after which a submission owes its callers nothing more. */
  predicate EndsTurn(ev: Event) {
    ev.End? && (ev.end.TurnAborted? ==> ev.end.abortedTurn.Some?)
  }

  /** Events that mean a running web search is over. */
  predicate ClosesSearch(ev: Event) {
    match ev
    case End(_) => true
    case Session(e) => e.TurnStarted?
    case Search(e) => e.SearchBegin?
    case Exec(e) => !e.TerminalInput?
    case Request(e) => e.ExecApprovalRequest? || e.PatchApprovalRequest?
    case Other(_, _, _, closes) => closes
    case _ => false
  }
}
