/**
 The pending questions after a whole history: what live handling leaves, what replay leaves, and
 exactly when the two agree.
 */
module PendingInput {
  import opened Wrappers
  import opened UserInput
  import opened Events
  import opened SessionState
  import opened ActorModel
  import opened ActorTheorems

  /** One past the last event that asks questions; zero when none does. */
  ghost function AskedAt(events: seq<Live>): (n: nat)
    ensures n <= |events|
    ensures n > 0 ==> events[n - 1].observed.event.RequestUserInput?
  {
    if events == [] then 0
    else if events[|events| - 1].observed.event.RequestUserInput? then |events|
    else AskedAt(events[..|events| - 1])
  }

  /** The questions asked last, under the id of their submission, or those pending before. */
  ghost function AskedLive(slot: Slot, events: seq<Live>): Slot {
    var n := AskedAt(events);
    if n == 0 then slot
    else
      var ask := events[n - 1];
      var ev := ask.observed.event;
      Some(PendingRequest(ask.id, ev.callId, ev.turnId, ev.questions))
  }

  /** The same under the id of their turn, which is all that replay knows. */
  ghost function AskedReplayed(slot: Slot, events: seq<Live>): Slot {
    var asked := AskedLive(slot, events);
    if AskedAt(events) == 0 then asked else Some(asked.value.(submissionId := asked.value.turnId))
  }

  /** Since the questions were asked, an end event came in for their submission. */
  ghost predicate EndedLive(events: seq<Live>, from: nat, id: string) {
    exists i :: from <= i < |events| && events[i].observed.event.End? && events[i].id == id
  }

  /** An event that replay takes for the end of a turn: it names the turn, or is an error or shutdown. */
  predicate EndsReplayed(ev: Event, turn: string) {
    match ev
    case End(TurnComplete(t)) => t == turn
    case End(TurnAborted(t)) => t == Some(turn)
    case End(_) => true
    case _ => false
  }

  ghost predicate EndedReplayed(events: seq<Live>, from: nat, turn: string) {
    exists i :: from <= i < |events| && EndsReplayed(events[i].observed.event, turn)
  }

  lemma {:induction false} HandleAllAppend(a: Actor, events: seq<Live>, e: Live)
    ensures HandleAll(a, events + [e]) == HandleEvent(HandleAll(a, events), e.id, e.observed, e.accepted)
    decreases |events|
  {
    var all := events + [e];
    if events == [] {
      assert all[1..] == [];
    } else {
      assert all[1..] == events[1..] + [e];
      HandleAllAppend(HandleEvent(a, events[0].id, events[0].observed, events[0].accepted), events[1..], e);
    }
  }

  ghost function LeftLive(slot: Slot, events: seq<Live>): Slot {
    var asked := AskedLive(slot, events);
    if asked.Some? && EndedLive(events, AskedAt(events), asked.value.submissionId) then None else asked
  }

  ghost function LeftReplayed(slot: Slot, events: seq<Live>): Slot {
    var asked := AskedReplayed(slot, events);
    if asked.Some? && EndedReplayed(events, AskedAt(events), asked.value.submissionId) then None else asked
  }

  lemma LeftLiveAppend(slot: Slot, events: seq<Live>, e: Live)
    ensures LeftLive(slot, events + [e]) == LiveSlot(LeftLive(slot, events), e.id, e.observed.event)
  {
    var all := events + [e];
    assert all[..|events|] == events;
    var from, asked := AskedAt(events), AskedLive(slot, events);
    if !e.observed.event.RequestUserInput? {
      assert from > 0 ==> all[from - 1] == events[from - 1];
      assert AskedLive(slot, all) == asked;
      if asked.Some? {
        var id := asked.value.submissionId;
        if EndedLive(events, from, id) {
          var i :| from <= i < |events| && events[i].observed.event.End? && events[i].id == id;
          assert all[i] == events[i];
        }
        if e.observed.event.End? && e.id == id {
          assert all[|events|] == e;
        }
      }
    }
  }

  lemma LeftReplayedAppend(slot: Slot, events: seq<Live>, e: Live)
    ensures LeftReplayed(slot, events + [e]) == ReplaySlot(LeftReplayed(slot, events), e.observed.event)
  {
    var all := events + [e];
    assert all[..|events|] == events;
    var from, asked := AskedAt(events), AskedReplayed(slot, events);
    if !e.observed.event.RequestUserInput? {
      assert from > 0 ==> all[from - 1] == events[from - 1];
      assert AskedReplayed(slot, all) == asked;
      if asked.Some? {
        var turn := asked.value.submissionId;
        if EndedReplayed(events, from, turn) {
          var i :| from <= i < |events| && EndsReplayed(events[i].observed.event, turn);
          assert all[i] == events[i];
        }
        if EndsReplayed(e.observed.event, turn) {
          assert all[|events|] == e;
        }
      }
    }
  }

  /** Live handling of a history leaves the questions asked last, unless their submission ended since. */
  lemma {:induction false} LiveLeavesLastAsked(a: Actor, events: seq<Live>)
    ensures HandleAll(a, events).slot == LeftLive(a.slot, events)
    decreases |events|
  {
    if events != [] {
      var init, e := events[..|events| - 1], events[|events| - 1];
      LiveLeavesLastAsked(a, init);
      HandleAllAppend(a, init, e);
      EventUpdatesSlot(HandleAll(a, init), e.id, e.observed, e.accepted);
      LeftLiveAppend(a.slot, init, e);
      assert events == init + [e];
    }
  }

  /** Replay of a history leaves the questions asked last, unless replay takes them to have ended since. */
  lemma {:induction false} ReplayLeavesLastAsked(slot: Slot, events: seq<Live>)
    ensures ReplaySlots(slot, History(events)) == LeftReplayed(slot, events)
    decreases |events|
  {
    if events != [] {
      var init, e := events[..|events| - 1], events[|events| - 1];
      ReplayLeavesLastAsked(slot, init);
      assert History(events) == History(init) + [e.observed];
      ReplaySlotsAppend(slot, History(init), e.observed);
      LeftReplayedAppend(slot, init, e);
      assert events == init + [e];
    }
  }

  lemma {:induction false} OrdersDoNotMatter(slot: Slot, history: seq<Observed>, other: seq<Observed>)
    requires |history| == |other| && forall i :: 0 <= i < |history| ==> history[i].event == other[i].event
    ensures ReplaySlots(slot, history) == ReplaySlots(slot, other)
    decreases |history|
  {
    if history != [] {
      OrdersDoNotMatter(ReplaySlot(slot, history[0].event), history[1..], other[1..]);
    }
  }

  /**
   Replaying a history leaves the same pending questions as living through it exactly when, of the
   questions asked last or pending before, both sides agree whether they ended since, and, if they
   did not, their turn carries the id of their submission.
   */
  lemma SlotRebuiltExactlyWhen(live: Actor, replaying: Actor, events: seq<Live>, history: seq<Observed>)
    requires live.slot == replaying.slot
    requires |history| == |events| && forall i :: 0 <= i < |events| ==> events[i].observed.event == history[i].event
    ensures var n, p, q := AskedAt(events), AskedLive(live.slot, events), AskedReplayed(live.slot, events);
            HandleAll(live, events).slot == Replay(replaying, history).slot <==>
              p.None? ||
              (var ended := EndedLive(events, n, p.value.submissionId);
               && (ended <==> EndedReplayed(events, n, q.value.submissionId))
               && (ended || n == 0 || events[n - 1].id == p.value.turnId))
  {
    LiveLeavesLastAsked(live, events);
    ReplayLeavesLastAsked(live.slot, events);
    OrdersDoNotMatter(live.slot, History(events), history);
  }

  /** Questions, and then an error of another submission: only replay takes the error to end them. */
  lemma OtherErrorClearsOnReplay(a: Actor, callId: string, questions: seq<Question>, order: seq<ThreadId>)
    ensures var events := [Live("s", Observed(RequestUserInput(callId, "s", questions), order), true),
                           Live("o", Observed(End(Error("failed")), order), true)];
            && HandleAll(a, events).slot == Some(PendingRequest("s", callId, "s", questions))
            && ReplaySlots(a.slot, History(events)) == None
  {
    var ask, fail := Live("s", Observed(RequestUserInput(callId, "s", questions), order), true),
                     Live("o", Observed(End(Error("failed")), order), true);
    var b := HandleEvent(a, "s", ask.observed, true);
    EventUpdatesSlot(a, "s", ask.observed, true);
    EventUpdatesSlot(b, "o", fail.observed, true);
    assert [ask][1..] == [] && [ask] + [fail] == [ask, fail];
    assert HandleAll(a, [ask]) == HandleAll(b, []) == b;
    HandleAllAppend(a, [ask], fail);
    assert History([ask, fail]) == [ask.observed] + [fail.observed];
    ReplaySlotsAppend(a.slot, [ask.observed], fail.observed);
  }
}
