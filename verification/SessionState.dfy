/**
 The replayable part of the actor state: usage, mode, known agents, goal and the pending-input slot.
 Live events and replayed history update it through the same list of state updates.
 */
module SessionState {
  import opened Wrappers
  import opened Approval
  import opened UserInput
  import opened Events

  datatype SessionData = SessionData(
    usage: Usage, mode: Option<Mode>, agents: map<ThreadId, AgentEntry>, goal: Option<Goal>)

  const EMPTY := SessionData(Usage(None, None), None, map[], None)

  datatype StateUpdate =
    | LatestUsage(usage: Usage)
    | CollaborationMode(mode: Mode)
    | RememberAgent(thread: ThreadId, entry: AgentEntry)
    | RememberAgents(entries: seq<(ThreadId, AgentEntry)>)
    | RemoveAgent(thread: ThreadId)
    | GoalSnapshot(goal: Goal)

  /** An event together with the order in which its unordered agent statuses happen to be visited. */
  datatype Observed = Observed(event: Event, order: seq<ThreadId>)

  ghost predicate VisitsOnce(order: seq<ThreadId>, keys: set<ThreadId>) {
    && (forall i, j :: 0 <= i < j < |order| ==> order[i] != order[j])
    && forall t :: t in order <==> t in keys
  }

  ghost predicate WellObserved(o: Observed) {
    o.event.Session? && o.event.session.AgentWaitingEnd? ==> VisitsOnce(o.order, o.event.session.statuses.Keys)
  }

  function RememberStatuses(statuses: map<ThreadId, string>, order: seq<ThreadId>): seq<StateUpdate> {
    if order == [] then []
    else
      (if order[0] in statuses
       then [RememberAgent(order[0], AgentEntry(None, None, statuses[order[0]]))] else [])
      + RememberStatuses(statuses, order[1..])
  }

  function StateUpdates(o: Observed): seq<StateUpdate> {
    if !o.event.Session? then []
    else
      match o.event.session
      case TurnStarted(mode) => [CollaborationMode(mode)]
      case TokenCount(usage, _) => [LatestUsage(usage)]
      case GoalUpdated(goal) => [GoalSnapshot(goal)]
      case AgentSpawnEnd(spawned, entry) =>
        if spawned.Some? then [RememberAgent(spawned.value, entry)] else []
      case AgentInteractionEnd(thread, entry) => [RememberAgent(thread, entry)]
      case AgentResumeEnd(thread, entry) => [RememberAgent(thread, entry)]
      case AgentWaitingEnd(entries, statuses) =>
        if entries != [] then [RememberAgents(entries)] else RememberStatuses(statuses, o.order)
      case AgentCloseEnd(thread) => [RemoveAgent(thread)]
  }

  /** Entries are remembered in order, so the last one for a thread stands. */
  function RememberAll(agents: map<ThreadId, AgentEntry>, entries: seq<(ThreadId, AgentEntry)>):
      map<ThreadId, AgentEntry>
    decreases |entries|
  {
    if entries == [] then agents
    else RememberAll(agents[entries[0].0 := entries[0].1], entries[1..])
  }

  function ApplyUpdate(s: SessionData, u: StateUpdate): SessionData {
    match u
    case LatestUsage(usage) => s.(usage := usage)
    case CollaborationMode(mode) => s.(mode := Some(mode))
    case RememberAgent(thread, entry) => s.(agents := s.agents[thread := entry])
    case RememberAgents(entries) => s.(agents := RememberAll(s.agents, entries))
    case RemoveAgent(thread) => s.(agents := s.agents - {thread})
    case GoalSnapshot(goal) => s.(goal := Some(goal))
  }

  function ApplyUpdates(s: SessionData, updates: seq<StateUpdate>): SessionData
    decreases |updates|
  {
    if updates == [] then s else ApplyUpdates(ApplyUpdate(s, updates[0]), updates[1..])
  }

  /** A goal update that changes nothing: live handling stops here. */
  predicate RepeatsGoal(s: SessionData, ev: Event) {
    ev.Session? && ev.session.GoalUpdated? && s.goal == Some(ev.session.goal)
  }

  function LiveUpdate(s: SessionData, o: Observed): SessionData {
    if RepeatsGoal(s, o.event) then s else ApplyUpdates(s, StateUpdates(o))
  }

  function LiveRun(s: SessionData, history: seq<Observed>): SessionData
    decreases |history|
  {
    if history == [] then s else LiveRun(LiveUpdate(s, history[0]), history[1..])
  }

  function ReplayRun(s: SessionData, history: seq<Observed>): SessionData
    decreases |history|
  {
    if history == [] then s else ReplayRun(ApplyUpdates(s, StateUpdates(history[0])), history[1..])
  }

  // ---------------------------------------------------------------------------------------------
  // The pending-input slot

  type Slot = Option<PendingRequest>

  function ClearFor(slot: Slot, submission: string): Slot {
    if slot.Some? && slot.value.submissionId == submission then None else slot
  }

  function LiveSlot(slot: Slot, submission: string, ev: Event): Slot {
    match ev
    case RequestUserInput(callId, turnId, questions) => Some(PendingRequest(submission, callId, turnId, questions))
    case End(_) => ClearFor(slot, submission)
    case _ => slot
  }

  /** Replay knows turns, not submissions, and clears the slot on any error or shutdown. */
  function ReplaySlot(slot: Slot, ev: Event): Slot {
    match ev
    case RequestUserInput(callId, turnId, questions) => Some(PendingRequest(turnId, callId, turnId, questions))
    case End(TurnComplete(turn)) => ClearFor(slot, turn)
    case End(TurnAborted(turn)) => if turn.Some? then ClearFor(slot, turn.value) else slot
    case End(_) => None
    case _ => slot
  }

  function ReplaySlots(slot: Slot, history: seq<Observed>): Slot
    decreases |history|
  {
    if history == [] then slot else ReplaySlots(ReplaySlot(slot, history[0].event), history[1..])
  }

  /** The imperative state, updated in place. */
  class ActorState {
    var latestUsage: Usage
    var modeKind: Option<Mode>
    var knownAgents: map<ThreadId, AgentEntry>
    var currentGoal: Option<Goal>
    var pendingUserInput: Slot

    ghost function Data(): SessionData
      reads this
    {
      SessionData(latestUsage, modeKind, knownAgents, currentGoal)
    }

    constructor ()
      ensures Data() == EMPTY && pendingUserInput == None
    {
      latestUsage, modeKind, knownAgents := Usage(None, None), None, map[];
      currentGoal, pendingUserInput := None, None;
    }

    method UpdateGoal(goal: Option<Goal>) returns (changed: bool)
      modifies this
      ensures changed <==> old(currentGoal) != goal
      ensures Data() == old(Data()).(goal := goal) && pendingUserInput == old(pendingUserInput)
    {
      if currentGoal == goal {
        return false;
      }
      currentGoal := goal;
      return true;
    }

    method RememberEntries(entries: seq<(ThreadId, AgentEntry)>)
      modifies this
      ensures Data() == old(Data()).(agents := RememberAll(old(knownAgents), entries))
      ensures pendingUserInput == old(pendingUserInput)
    {
      for i := 0 to |entries|
        invariant RememberAll(knownAgents, entries[i..]) == RememberAll(old(knownAgents), entries)
        invariant Data() == old(Data()).(agents := knownAgents)
        invariant pendingUserInput == old(pendingUserInput)
      {
        assert entries[i..][0] == entries[i] && entries[i..][1..] == entries[i + 1..];
        knownAgents := knownAgents[entries[i].0 := entries[i].1];
      }
    }

    method ApplyEventUpdate(update: StateUpdate)
      modifies this
      ensures Data() == ApplyUpdate(old(Data()), update)
      ensures pendingUserInput == old(pendingUserInput)
    {
      match update
      case LatestUsage(usage) => latestUsage := usage;
      case CollaborationMode(mode) => modeKind := Some(mode);
      case RememberAgent(thread, entry) => knownAgents := knownAgents[thread := entry];
      case RememberAgents(entries) => RememberEntries(entries);
      case RemoveAgent(thread) => knownAgents := knownAgents - {thread};
      case GoalSnapshot(goal) => var _ := UpdateGoal(Some(goal));
    }

    method ApplyEventUpdates(updates: seq<StateUpdate>)
      modifies this
      ensures Data() == ApplyUpdates(old(Data()), updates)
      ensures pendingUserInput == old(pendingUserInput)
    {
      for i := 0 to |updates|
        invariant ApplyUpdates(Data(), updates[i..]) == ApplyUpdates(old(Data()), updates)
        invariant pendingUserInput == old(pendingUserInput)
      {
        assert updates[i..][0] == updates[i] && updates[i..][1..] == updates[i + 1..];
        ApplyEventUpdate(updates[i]);
      }
    }

    method SetPendingUserInput(request: PendingRequest)
      modifies this`pendingUserInput
      ensures pendingUserInput == Some(request)
    {
      pendingUserInput := Some(request);
    }

    method ClearPendingUserInput()
      modifies this`pendingUserInput
      ensures pendingUserInput == None
    {
      pendingUserInput := None;
    }

    method ClearPendingUserInputForSubmission(submission: string)
      modifies this`pendingUserInput
      ensures pendingUserInput == ClearFor(old(pendingUserInput), submission)
    {
      if pendingUserInput.Some? && pendingUserInput.value.submissionId == submission {
        ClearPendingUserInput();
      }
    }
  }

  // ---------------------------------------------------------------------------------------------
  // Replay rebuilds the live state

  ghost function StatusEntries(statuses: map<ThreadId, string>, threads: set<ThreadId>): map<ThreadId, AgentEntry> {
    map t | t in threads && t in statuses :: AgentEntry(None, None, statuses[t])
  }

  lemma OneMoreStatus(
      agents: map<ThreadId, AgentEntry>, statuses: map<ThreadId, string>, t: ThreadId, rest: set<ThreadId>)
    requires t in statuses
    ensures agents[t := AgentEntry(None, None, statuses[t])] + StatusEntries(statuses, rest)
         == agents + StatusEntries(statuses, {t} + rest)
  {}

  ghost function Visited(order: seq<ThreadId>): set<ThreadId> {
    set t | t in order
  }

  lemma {:induction false} RememberStatusesIsUnion(s: SessionData, statuses: map<ThreadId, string>, order: seq<ThreadId>)
    requires forall t :: t in order ==> t in statuses
    ensures ApplyUpdates(s, RememberStatuses(statuses, order))
         == s.(agents := s.agents + StatusEntries(statuses, Visited(order)))
    decreases |order|
  {
    if order == [] {
      assert s.agents + StatusEntries(statuses, Visited(order)) == s.agents;
    } else {
      var t, rest := order[0], order[1..];
      assert t in order;
      var first := RememberAgent(t, AgentEntry(None, None, statuses[t]));
      RememberStatusesIsUnion(ApplyUpdate(s, first), statuses, rest);
      var updates := RememberStatuses(statuses, order);
      assert updates[0] == first && updates[1..] == RememberStatuses(statuses, rest);
      OneMoreStatus(s.agents, statuses, t, Visited(rest));
      assert Visited(order) == {t} + Visited(rest);
    }
  }

  /** The order in which agent statuses are visited does not matter. */
  lemma OrderDoesNotMatter(s: SessionData, a: Observed, b: Observed)
    requires a.event == b.event && WellObserved(a) && WellObserved(b)
    ensures ApplyUpdates(s, StateUpdates(a)) == ApplyUpdates(s, StateUpdates(b))
  {
    if a.event.Session? && a.event.session.AgentWaitingEnd? && a.event.session.entries == [] {
      var statuses := a.event.session.statuses;
      RememberStatusesIsUnion(s, statuses, a.order);
      RememberStatusesIsUnion(s, statuses, b.order);
      assert Visited(a.order) == Visited(b.order);
    }
  }

  /** Skipping an unchanged goal skips nothing: live handling applies what replay applies. */
  lemma LiveUpdateIsReplayUpdate(s: SessionData, live: Observed, replayed: Observed)
    requires live.event == replayed.event && WellObserved(live) && WellObserved(replayed)
    ensures LiveUpdate(s, live) == ApplyUpdates(s, StateUpdates(replayed))
  {
    OrderDoesNotMatter(s, live, replayed);
    if RepeatsGoal(s, live.event) {
      assert StateUpdates(live)[1..] == [];
    }
  }

  /** Replaying a history rebuilds usage, mode, agents and goal exactly as they were live. */
  lemma {:induction false} ReplayRebuildsLiveState(s: SessionData, live: seq<Observed>, replayed: seq<Observed>)
    requires |live| == |replayed|
    requires forall i :: 0 <= i < |live| ==>
               live[i].event == replayed[i].event && WellObserved(live[i]) && WellObserved(replayed[i])
    ensures LiveRun(s, live) == ReplayRun(s, replayed)
    decreases |live|
  {
    if live != [] {
      LiveUpdateIsReplayUpdate(s, live[0], replayed[0]);
      ReplayRebuildsLiveState(LiveUpdate(s, live[0]), live[1..], replayed[1..]);
    }
  }

  // ---------------------------------------------------------------------------------------------
  // What a history leaves behind

  ghost function LastMode(history: seq<Observed>): Option<Mode> {
    if history == [] then None
    else
      match history[|history| - 1].event
      case Session(TurnStarted(mode)) => Some(mode)
      case _ => LastMode(history[..|history| - 1])
  }

  ghost function LastUsage(history: seq<Observed>): Option<Usage> {
    if history == [] then None
    else
      match history[|history| - 1].event
      case Session(TokenCount(usage, _)) => Some(usage)
      case _ => LastUsage(history[..|history| - 1])
  }

  ghost function LastGoal(history: seq<Observed>): Option<Goal> {
    if history == [] then None
    else
      match history[|history| - 1].event
      case Session(GoalUpdated(goal)) => Some(goal)
      case _ => LastGoal(history[..|history| - 1])
  }

  /** What an event says of a thread: nothing, that it is gone, or its entry. */
  datatype Said = Nothing | Gone | Known(entry: AgentEntry)

  ghost function LastEntryOf(entries: seq<(ThreadId, AgentEntry)>, thread: ThreadId): Said {
    if entries == [] then Nothing
    else
      var last := entries[|entries| - 1];
      if last.0 == thread then Known(last.1) else LastEntryOf(entries[..|entries| - 1], thread)
  }

  ghost function SaidOf(ev: Event, thread: ThreadId): Said {
    match ev
    case Session(AgentSpawnEnd(spawned, entry)) => if spawned == Some(thread) then Known(entry) else Nothing
    case Session(AgentInteractionEnd(t, entry)) => if t == thread then Known(entry) else Nothing
    case Session(AgentResumeEnd(t, entry)) => if t == thread then Known(entry) else Nothing
    case Session(AgentCloseEnd(t)) => if t == thread then Gone else Nothing
    case Session(AgentWaitingEnd(entries, statuses)) =>
      if entries != [] then LastEntryOf(entries, thread)
      else if thread in statuses then Known(AgentEntry(None, None, statuses[thread])) else Nothing
    case _ => Nothing
  }

  /** The last thing a history says of a thread. */
  ghost function LastSaid(history: seq<Observed>, thread: ThreadId): Said {
    if history == [] then Nothing
    else
      var said := SaidOf(history[|history| - 1].event, thread);
      if said.Nothing? then LastSaid(history[..|history| - 1], thread) else said
  }

  ghost function AgentIn(agents: map<ThreadId, AgentEntry>, thread: ThreadId): Option<AgentEntry> {
    if thread in agents then Some(agents[thread]) else None
  }

  ghost function AfterSaid(before: Option<AgentEntry>, said: Said): Option<AgentEntry> {
    match said
    case Nothing => before
    case Gone => None
    case Known(entry) => Some(entry)
  }

  lemma {:induction false} RememberAllAppend(
      agents: map<ThreadId, AgentEntry>, entries: seq<(ThreadId, AgentEntry)>, last: (ThreadId, AgentEntry))
    ensures RememberAll(agents, entries + [last]) == RememberAll(agents, entries)[last.0 := last.1]
    decreases |entries|
  {
    var all := entries + [last];
    if entries == [] {
      assert all[1..] == [];
    } else {
      assert all[1..] == entries[1..] + [last];
      RememberAllAppend(agents[entries[0].0 := entries[0].1], entries[1..], last);
    }
  }

  lemma {:induction false} RememberAllKeepsLast(
      agents: map<ThreadId, AgentEntry>, entries: seq<(ThreadId, AgentEntry)>, thread: ThreadId)
    ensures AgentIn(RememberAll(agents, entries), thread) == AfterSaid(AgentIn(agents, thread), LastEntryOf(entries, thread))
    decreases |entries|
  {
    if entries != [] {
      var init, last := entries[..|entries| - 1], entries[|entries| - 1];
      RememberAllKeepsLast(agents, init, thread);
      RememberAllAppend(agents, init, last);
      assert entries == init + [last];
    }
  }

  lemma OneUpdate(s: SessionData, u: StateUpdate)
    ensures ApplyUpdates(s, [u]) == ApplyUpdate(s, u)
  {
    assert [u][1..] == [];
  }

  lemma EventLeaves(s: SessionData, o: Observed, thread: ThreadId)
    requires WellObserved(o)
    ensures AgentIn(ApplyUpdates(s, StateUpdates(o)).agents, thread) == AfterSaid(AgentIn(s.agents, thread), SaidOf(o.event, thread))
  {
    if o.event.Session? && o.event.session.AgentWaitingEnd? && o.event.session.entries == [] {
      RememberStatusesIsUnion(s, o.event.session.statuses, o.order);
      assert thread in Visited(o.order) <==> thread in o.event.session.statuses;
    } else if StateUpdates(o) != [] {
      OneUpdate(s, StateUpdates(o)[0]);
      if o.event.session.AgentWaitingEnd? {
        RememberAllKeepsLast(s.agents, o.event.session.entries, thread);
      }
    }
  }

  lemma EventSets(s: SessionData, o: Observed)
    requires WellObserved(o)
    ensures SetsLast(s, [o], ApplyUpdates(s, StateUpdates(o)))
  {
    if o.event.Session? && o.event.session.AgentWaitingEnd? && o.event.session.entries == [] {
      RememberStatusesIsUnion(s, o.event.session.statuses, o.order);
    } else if StateUpdates(o) != [] {
      OneUpdate(s, StateUpdates(o)[0]);
    }
    assert [o][..0] == [];
  }

  lemma {:induction false} ReplayAppend(s: SessionData, history: seq<Observed>, o: Observed)
    ensures ReplayRun(s, history + [o]) == ApplyUpdates(ReplayRun(s, history), StateUpdates(o))
    decreases |history|
  {
    var all := history + [o];
    if history == [] {
      assert all[1..] == [];
    } else {
      assert all[1..] == history[1..] + [o];
      ReplayAppend(ApplyUpdates(s, StateUpdates(history[0])), history[1..], o);
    }
  }

  lemma {:induction false} ReplaySlotsAppend(slot: Slot, history: seq<Observed>, o: Observed)
    ensures ReplaySlots(slot, history + [o]) == ReplaySlot(ReplaySlots(slot, history), o.event)
    decreases |history|
  {
    var all := history + [o];
    if history == [] {
      assert all[1..] == [];
    } else {
      assert all[1..] == history[1..] + [o];
      ReplaySlotsAppend(ReplaySlot(slot, history[0].event), history[1..], o);
    }
  }

  /** The mode, usage and goal are those the history set last, or the ones before it. */
  ghost predicate SetsLast(s: SessionData, history: seq<Observed>, r: SessionData) {
    && r.mode == (if LastMode(history).Some? then LastMode(history) else s.mode)
    && r.usage == (if LastUsage(history).Some? then LastUsage(history).value else s.usage)
    && r.goal == (if LastGoal(history).Some? then LastGoal(history) else s.goal)
  }

  lemma LastOfAppend(history: seq<Observed>, o: Observed)
    ensures LastMode(history + [o]) == if LastMode([o]).Some? then LastMode([o]) else LastMode(history)
    ensures LastUsage(history + [o]) == if LastUsage([o]).Some? then LastUsage([o]) else LastUsage(history)
    ensures LastGoal(history + [o]) == if LastGoal([o]).Some? then LastGoal([o]) else LastGoal(history)
  {
    assert (history + [o])[..|history|] == history && [o][..0] == [];
  }

  lemma {:induction false} HistoryLeavesLast(s: SessionData, history: seq<Observed>)
    requires forall o :: o in history ==> WellObserved(o)
    ensures SetsLast(s, history, ReplayRun(s, history))
    decreases |history|
  {
    if history != [] {
      var init, o := history[..|history| - 1], history[|history| - 1];
      HistoryLeavesLast(s, init);
      assert history == init + [o] && o in history;
      ReplayAppend(s, init, o);
      EventSets(ReplayRun(s, init), o);
      LastOfAppend(init, o);
    }
  }

  lemma OneMoreEventLeaves(s: SessionData, history: seq<Observed>, o: Observed, thread: ThreadId)
    requires WellObserved(o)
    ensures AgentIn(ReplayRun(s, history + [o]).agents, thread)
         == AfterSaid(AgentIn(ReplayRun(s, history).agents, thread), SaidOf(o.event, thread))
  {
    ReplayAppend(s, history, o);
    EventLeaves(ReplayRun(s, history), o, thread);
  }

  /** Of each agent a history leaves the last thing it says; an agent it never mentions is as before. */
  lemma {:induction false} HistoryLeavesLastSaid(s: SessionData, history: seq<Observed>, thread: ThreadId)
    requires forall o :: o in history ==> WellObserved(o)
    ensures AgentIn(ReplayRun(s, history).agents, thread) == AfterSaid(AgentIn(s.agents, thread), LastSaid(history, thread))
    decreases |history|
  {
    if history != [] {
      var init, o := history[..|history| - 1], history[|history| - 1];
      HistoryLeavesLastSaid(s, init, thread);
      assert history == init + [o] && o in history;
      OneMoreEventLeaves(s, init, o, thread);
    }
  }
}
