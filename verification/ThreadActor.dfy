/**
 The actor as the program keeps it: a map of submission objects, the session state and the loop
 over messages and events. Every method does what `ActorModel` says.
 */
module ThreadActors {
  import opened Wrappers
  import opened Approval
  import opened UserInput
  import opened Events
  import opened SessionState
  import StreamModel = Streams
  import opened Runtime
  import opened SubmissionModel
  import opened ActorModel
  import opened PromptStates

  lemma SettleNothing(tasks: seq<Task>, fate: Fate)
    ensures SettleAll(tasks, {}, fate) == tasks
  {}

  /** The actor when the interactions of all but these submissions are aborted. */
  ghost function AbortedOutside(a: Actor, ids: set<string>): Actor {
    a.(subs := map id | id in a.subs :: if id in ids then a.subs[id] else a.subs[id].(interactions := map[]),
       w := a.w.(tasks := SettleAll(a.w.tasks, TasksOutside(a.subs, ids), Aborted)))
  }

  lemma TasksOutsideOneMore(subs: map<string, Submission>, ids: set<string>, id: string)
    requires id in subs && id in ids
    ensures TasksOutside(subs, ids - {id}) == TasksOutside(subs, ids) + TasksOf(subs[id].interactions)
  {
    forall t | t in TasksOutside(subs, ids - {id}) ensures t in TasksOutside(subs, ids) + TasksOf(subs[id].interactions) {
      var id', k :| id' in subs && id' !in ids - {id} && k in subs[id'].interactions && subs[id'].interactions[k].task == t;
    }
  }

  lemma AbortedOneMore(a: Actor, ids: set<string>, id: string)
    requires id in a.subs && id in ids
    ensures var b := AbortedOutside(a, ids);
            Put(b, id, AbortAll(Get(b, id))) == AbortedOutside(a, ids - {id})
  {
    var b := AbortedOutside(a, ids);
    TasksOutsideOneMore(a.subs, ids, id);
    SettleMore(a.w.tasks, TasksOutside(a.subs, ids), TasksOf(a.subs[id].interactions), Aborted);
    var c := AbortedOutside(a, ids - {id});
    assert b.subs[id := b.subs[id].(interactions := map[])] == c.subs;
  }

  lemma AbortedNone(a: Actor)
    ensures AbortedOutside(a, a.subs.Keys) == a
    ensures AbortedOutside(a, {}) == AbortEverything(a)
  {
    assert TasksOutside(a.subs, a.subs.Keys) == {};
    SettleNothing(a.w.tasks, Aborted);
    assert AbortedOutside(a, a.subs.Keys).subs == a.subs;
    assert AbortedOutside(a, {}).subs == AbortEverything(a).subs;
  }

  lemma RetainOneLess(a: Actor, keep: set<string>, id: string)
    requires id in a.subs && id in keep
    ensures Retain(Retain(a, keep), Retain(a, keep).subs.Keys - {id}) == Retain(a, keep - {id})
  {
    var b := Retain(a, keep);
    TasksOutsideOneMore(a.subs, keep, id);
    TasksOutsideAllBut(b.subs, id);
    SettleMore(a.w.tasks, TasksOutside(a.subs, keep), TasksOf(a.subs[id].interactions), Dropped);
    assert Retain(b, b.subs.Keys - {id}).subs == Retain(a, keep - {id}).subs;
  }

  lemma TasksOutsideAllBut(subs: map<string, Submission>, id: string)
    requires id in subs
    ensures TasksOutside(subs, subs.Keys - {id}) == TasksOf(subs[id].interactions)
  {
    TasksOutsideOneMore(subs, subs.Keys, id);
    assert TasksOutside(subs, subs.Keys) == {};
  }

  lemma RemoveIsRetain(a: Actor, id: string)
    requires id in a.subs
    ensures Retain(a, a.subs.Keys - {id})
         == a.(subs := a.subs - {id}, w := a.w.(tasks := SettleAll(a.w.tasks, TasksOf(a.subs[id].interactions), Dropped)))
  {
    TasksOutsideAllBut(a.subs, id);
    assert Retain(a, a.subs.Keys - {id}).subs == a.subs - {id};
  }

  lemma DetachedThenRemoved(subs: map<string, Submission>, id: string, sub: Submission)
    requires id in subs
    ensures subs[id := sub] - {id} == subs - {id}
  {}

  lemma KeptAfterRetain(a: Actor, keep: set<string>, id: string)
    requires id in a.subs && id in keep
    ensures id in Kept(Retain(a, keep)) <==> id in Kept(a)
  {}

  /** The actor when all but these submissions are swept. */
  ghost function SweptOutside(a: Actor, ids: set<string>): Actor {
    Retain(a, Kept(a) + ids)
  }

  ghost function SweptOne(a: Actor, id: string): Actor {
    if id in Kept(a) then a else Retain(a, a.subs.Keys - {id})
  }

  lemma SweptOneMore(a: Actor, ids: set<string>, id: string)
    requires id in ids && ids <= a.subs.Keys
    ensures id in SweptOutside(a, ids).subs
    ensures SweptOne(SweptOutside(a, ids), id) == SweptOutside(a, ids - {id})
  {
    var keep := Kept(a) + ids;
    KeptAfterRetain(a, keep, id);
    if id in Kept(a) {
      assert Kept(a) + (ids - {id}) == keep;
    } else {
      assert Kept(a) + (ids - {id}) == keep - {id};
      RetainOneLess(a, keep, id);
    }
  }

  lemma SweptNone(a: Actor)
    ensures SweptOutside(a, a.subs.Keys) == a
    ensures SweptOutside(a, {}) == ActorModel.Sweep(a)
  {
    var keep := Kept(a) + a.subs.Keys;
    assert TasksOutside(a.subs, keep) == {};
    SettleNothing(a.w.tasks, Dropped);
    assert Retain(a, keep).subs == a.subs;
    assert Kept(a) + {} == Kept(a);
  }

  lemma InsertFresh(a: Actor, id: string, sub: Submission)
    requires id !in a.subs
    ensures Insert(a, id, sub) == a.(subs := a.subs[id := sub])
  {
    assert a.subs.Keys - {id} == a.subs.Keys;
    SweptNone(a);
    assert TasksOutside(a.subs, a.subs.Keys) == {};
    SettleNothing(a.w.tasks, Dropped);
    assert Retain(a, a.subs.Keys).subs == a.subs;
  }

  lemma InsertAfterRemoval(a: Actor, id: string, sub: Submission)
    requires id in a.subs
    ensures var b := Retain(a, a.subs.Keys - {id});
            id !in b.subs && Insert(a, id, sub) == b.(subs := b.subs[id := sub])
  {}

  ghost function ReplayedUntil(a: Actor, history: seq<Observed>, n: nat): Actor
    requires n <= |history|
  {
    Replay(a, history[..n])
  }

  ghost function ReplayedOne(a: Actor, o: Observed): Actor {
    a.(session := ApplyUpdates(a.session, StateUpdates(o)),
       slot := ReplaySlot(a.slot, o.event),
       w := a.w.(shown := a.w.shown + Tagged(None, StreamModel.ReplayUpdates(o.event))))
  }

  lemma ReplayedOneMore(a: Actor, history: seq<Observed>, n: nat)
    requires n < |history|
    ensures ReplayedOne(ReplayedUntil(a, history, n), history[n]) == ReplayedUntil(a, history, n + 1)
  {
    var init, o := history[..n], history[n];
    assert history[..n + 1] == init + [o];
    ReplayAppend(a.session, init, o);
    ReplaySlotsAppend(a.slot, init, o);
    assert EventsOf(init + [o]) == EventsOf(init) + [o.event];
    assert (EventsOf(init) + [o.event])[..n] == EventsOf(init);
    ShownAppend(a.w.shown, None, StreamModel.Replayed(EventsOf(init)), StreamModel.ReplayUpdates(o.event));
  }

  lemma ReplayedNone(a: Actor, history: seq<Observed>)
    ensures ReplayedUntil(a, history, 0) == a
    ensures ReplayedUntil(a, history, |history|) == Replay(a, history)
  {
    assert history[..|history|] == history;
    assert Tagged(None, []) == [];
    assert EventsOf(history[..0]) == [];
  }

  lemma RetainedNone(a: Actor)
    ensures Retain(a, a.subs.Keys) == a
  {
    assert TasksOutside(a.subs, a.subs.Keys) == {};
    SettleNothing(a.w.tasks, Dropped);
    assert Retain(a, a.subs.Keys).subs == a.subs;
  }

  class ThreadActor {
    const env: Surroundings
    const state: ActorState
    var submissions: map<string, PromptState>
    var capable: bool
    var fullAccess: bool
    var status: Status
    var messagesOpen: bool
    /** The submissions and their parts. */
    ghost var repr: set<object>

    /** Submissions know their id and share no part. */
    ghost predicate Valid()
      reads this
    {
      && env !in repr && state !in repr && this !in repr
      && (forall id :: id in submissions ==> submissions[id].submissionId == id && submissions[id].Repr() <= repr)
      && forall id, id' :: id in submissions && id' in submissions && id != id' ==>
           submissions[id].Repr() !! submissions[id'].Repr()
    }

    ghost function Views(): map<string, Submission>
      requires Valid()
      reads this, repr
    {
      map id | id in submissions :: submissions[id].View()
    }

    ghost function Abs(): Actor
      requires Valid()
      reads this, state, env, repr
    {
      Actor(Views(), state.pendingUserInput, state.Data(), capable, fullAccess, status, messagesOpen, env.w)
    }

    constructor (capable: bool, fullAccess: bool)
      ensures Valid() && Abs() == Initial(capable, fullAccess)
      ensures fresh(env) && fresh(state) && repr == {}
    {
      env := new Surroundings();
      state := new ActorState();
      submissions, repr := map[], {};
      this.capable, this.fullAccess := capable, fullAccess;
      status, messagesOpen := Running, true;
    }

    twostate lemma SameParts(sub: PromptState)
      requires unchanged(sub) && unchanged(sub.responses) && unchanged(sub.permissionInteractions)
      ensures sub.View() == old(sub.View())
    {}

    /** Submissions whose parts did not change look the same. */
    twostate lemma SameViews(ids: set<string>)
      requires old(Valid()) && ids <= old(submissions).Keys
      requires forall id, o :: id in ids && o in old(submissions)[id].Repr() ==> unchanged(o)
      ensures forall id :: id in ids ==> old(submissions)[id].View() == old(submissions[id].View())
    {
      forall id | id in ids ensures old(submissions)[id].View() == old(submissions[id].View()) {
        SameParts(old(submissions)[id]);
      }
    }

    /** Changing the parts of one submission changes no other. */
    twostate lemma OthersUnchanged(id: string)
      requires old(Valid()) && Valid() && id in old(submissions)
      requires submissions == old(submissions) && repr == old(repr)
      requires forall o :: o in repr && o !in submissions[id].Repr() ==> unchanged(o)
      ensures Views() == old(Views())[id := submissions[id].View()]
    {
      SameViews(submissions.Keys - {id});
    }

    /** Taking a submission out of the map changes no other. */
    twostate lemma OthersRemain(id: string)
      requires old(Valid()) && Valid() && repr == old(repr)
      requires submissions == old(submissions) - {id}
      requires forall o :: o in repr ==> unchanged(o)
      ensures Views() == old(Views()) - {id}
    {
      SameViews(submissions.Keys);
    }

    /** A new object in the map changes no other. */
    twostate lemma OthersJoined(id: string, new sub: PromptState)
      requires old(Valid()) && Valid() && id !in old(submissions)
      requires submissions == old(submissions)[id := sub]
      requires forall o :: o in old(repr) ==> unchanged(o)
      ensures Views() == old(Views())[id := sub.View()]
    {
      SameViews(old(submissions).Keys);
    }

    method AbortOne(id: string)
      requires Valid() && id in submissions
      modifies env, submissions[id].permissionInteractions
      ensures Valid() && Abs() == Put(old(Abs()), id, AbortAll(Get(old(Abs()), id)))
    {
      submissions[id].AbortPendingInteractions(env);
      OthersUnchanged(id);
    }

    method AbortPendingInteractions()
      requires Valid()
      modifies env, repr
      ensures Valid() && Abs() == AbortEverything(old(Abs()))
    {
      var ids := submissions.Keys;
      ghost var before := Abs();
      AbortedNone(before);
      assert ids == before.subs.Keys;
      while ids != {}
        invariant Valid() && ids <= submissions.Keys && submissions == old(submissions) && repr == old(repr)
        invariant Abs() == AbortedOutside(before, ids)
        decreases ids
      {
        var id :| id in ids;
        AbortOne(id);
        AbortedOneMore(before, ids, id);
        ids := ids - {id};
      }
    }

    method DetachOne(id: string)
      requires Valid() && id in submissions
      modifies env, submissions[id].permissionInteractions
      ensures Valid() && Views() == old(Views())[id := old(Views())[id].(interactions := map[])]
      ensures env.w == old(env.w).(tasks := SettleAll(old(env.w).tasks, TasksOf(old(Views())[id].interactions), Dropped))
    {
      submissions[id].permissionInteractions.Drain(env, Dropped);
      OthersUnchanged(id);
    }

    method Unmap(id: string)
      requires Valid()
      modifies this`submissions
      ensures Valid() && submissions == old(submissions) - {id} && Views() == old(Views()) - {id}
    {
      submissions := submissions - {id};
      OthersRemain(id);
    }

    /** Takes a submission out of the map; its tasks go on without it. */
    method Remove(id: string)
      requires Valid() && id in submissions
      modifies this`submissions, env, submissions[id].permissionInteractions
      ensures Valid() && submissions == old(submissions) - {id}
      ensures Abs() == Retain(old(Abs()), old(Abs()).subs.Keys - {id})
    {
      ghost var before := Abs();
      DetachOne(id);
      Unmap(id);
      DetachedThenRemoved(before.subs, id, before.subs[id].(interactions := map[]));
      RemoveIsRetain(before, id);
    }

    method IsKept(id: string) returns (kept: bool)
      requires Valid() && id in submissions
      ensures kept <==> id in Kept(Abs())
    {
      var active := submissions[id].IsActive(env);
      assert Abs().subs[id] == submissions[id].View();
      kept := active || (state.pendingUserInput.Some? && state.pendingUserInput.value.submissionId == id);
    }

    method SweepOne(id: string)
      requires Valid() && id in submissions
      modifies this`submissions, env, submissions[id].permissionInteractions
      ensures Valid() && Abs() == SweptOne(old(Abs()), id)
    {
      var kept := IsKept(id);
      if !kept {
        Remove(id);
      }
    }

    /** Drops the submissions nobody waits for, except the one whose questions are pending. */
    method Sweep()
      requires Valid()
      modifies this`submissions, env, repr
      ensures Valid() && Abs() == ActorModel.Sweep(old(Abs()))
    {
      ghost var before := Abs();
      var ids := submissions.Keys;
      SweptNone(before);
      assert ids == before.subs.Keys;
      while ids != {}
        invariant Valid() && ids <= before.subs.Keys && repr == old(repr)
        invariant Abs() == SweptOutside(before, ids)
        decreases ids
      {
        var id :| id in ids;
        SweptOneMore(before, ids, id);
        SweepOne(id);
        ids := ids - {id};
      }
    }

    method InsertNew(id: string, primary: Option<Sender>)
      requires Valid() && id !in submissions
      modifies this`submissions, this`repr
      ensures Valid() && fresh(repr - old(repr)) && id in submissions
      ensures Abs() == old(Abs()).(subs := old(Abs()).subs[id := NewSubmission(primary)])
    {
      var sub := new PromptState(id, primary);
      Join(id, sub);
    }

    method Join(id: string, sub: PromptState)
      requires Valid() && id !in submissions && sub.submissionId == id && sub.Repr() !! repr + {this, env, state}
      modifies this`submissions, this`repr
      ensures Valid() && submissions == old(submissions)[id := sub] && repr == old(repr) + sub.Repr()
      ensures Views() == old(Views())[id := sub.View()]
    {
      submissions := submissions[id := sub];
      repr := repr + sub.Repr();
      OthersJoined(id, sub);
    }

    /** A submission under an id in use replaces the one that was there. */
    method InsertSubmission(id: string, primary: Option<Sender>)
      requires Valid()
      modifies this`submissions, this`repr, env, repr
      ensures Valid() && fresh(repr - old(repr)) && id in submissions
      ensures Abs() == Insert(old(Abs()), id, NewSubmission(primary))
    {
      if id in submissions {
        InsertAfterRemoval(Abs(), id, NewSubmission(primary));
        Remove(id);
      } else {
        InsertFresh(Abs(), id, NewSubmission(primary));
      }
      InsertNew(id, primary);
    }

    // -------------------------------------------------------------------------------------------
    // Prompts

    method Submit(op: Op)
      requires Valid()
      modifies env
      ensures Valid() && Abs() == SubmitOp(old(Abs()), op)
    {
      env.Submit(Submitted(op, None, None));
    }

    method OpenChannel() returns (sender: Sender)
      requires Valid()
      modifies env
      ensures Valid() && sender == old(env.w.issued) && Abs() == Issue(old(Abs()))
    {
      sender := env.OpenChannel();
    }

    method Deliver(sender: Sender, result: PromptResult)
      requires Valid()
      modifies env
      ensures Valid() && Abs() == old(Abs()).(w := old(env.w).(sent := old(env.w).sent + [Sent(sender, result)]))
    {
      env.Deliver(sender, result);
    }

    method ClearPending()
      requires Valid()
      modifies state`pendingUserInput
      ensures Valid() && Abs() == old(Abs()).(slot := None)
    {
      state.ClearPendingUserInput();
    }

    method ClearPendingFor(id: string)
      requires Valid()
      modifies state`pendingUserInput
      ensures Valid() && Abs() == old(Abs()).(slot := ClearFor(old(Abs()).slot, id))
    {
      state.ClearPendingUserInputForSubmission(id);
    }

    method SetPending(request: PendingRequest)
      requires Valid()
      modifies state`pendingUserInput
      ensures Valid() && Abs() == old(Abs()).(slot := Some(request))
    {
      state.SetPendingUserInput(request);
    }

    method Notify(update: Update)
      requires Valid()
      modifies env
      ensures Valid() && Abs() == ActorModel.Show(old(Abs()), update)
    {
      env.Notify(None, update);
    }

    method EnsureSubmission(id: string)
      requires Valid()
      modifies this`submissions, this`repr, env, repr
      ensures Valid() && fresh(repr - old(repr)) && id in submissions
      ensures Abs() == ActorModel.EnsureSubmission(old(Abs()), id)
    {
      if id !in submissions {
        InsertSubmission(id, None);
      }
    }

    method AddResponse(id: string, sender: Sender)
      requires Valid() && id in submissions
      modifies submissions[id].responses
      ensures Valid() && Abs() == Put(old(Abs()), id, AddSender(Get(old(Abs()), id), sender))
    {
      submissions[id].AddResponse(env, sender);
      OthersUnchanged(id);
    }

    /** A new caller joins the submission, and the questions are answered. */
    method JoinPending(id: string) returns (sender: Sender)
      requires Valid() && id in submissions
      modifies state, env, submissions[id].responses
      ensures Valid() && sender == old(env.w.issued)
      ensures var a := Issue(old(Abs()));
              Abs() == Put(a, id, AddSender(Get(a, id), old(env.w.issued))).(slot := None)
    {
      sender := OpenChannel();
      AddResponse(id, sender);
      ClearPending();
    }

    method SendAnswers(p: PendingRequest, answers: Answers)
      requires Valid()
      modifies this`submissions, this`repr, env, repr
      ensures Valid() && fresh(repr - old(repr)) && p.submissionId in submissions
      ensures Abs() == SubmitOp(ActorModel.EnsureSubmission(old(Abs()), p.submissionId), UserInputAnswer(p.turnId, answers))
    {
      EnsureSubmission(p.submissionId);
      Submit(UserInputAnswer(p.turnId, answers));
    }

    method AnswerWith(p: PendingRequest, answers: Answers, accepted: bool) returns (reply: PromptReply)
      requires Valid()
      modifies this`submissions, this`repr, state, env, repr
      ensures Valid() && fresh(repr - old(repr))
      ensures (Abs(), reply) == ActorModel.AnswerWith(old(Abs()), p, answers, accepted)
    {
      SendAnswers(p, answers);
      if !accepted {
        return Err(SubmitRefused);
      }
      var sender := JoinPending(p.submissionId);
      return Ok(sender);
    }

    /** The prompt answers the pending questions; an unreadable answer leaves them pending. */
    method HandlePendingUserInputPrompt(p: PendingRequest, text: string, accepted: bool) returns (reply: PromptReply)
      requires Valid()
      modifies this`submissions, this`repr, state, env, repr
      ensures Valid() && fresh(repr - old(repr))
      ensures (Abs(), reply) == AnswerPending(old(Abs()), p, text, accepted)
    {
      var parsed := ParseRequestUserInputResponse(p.questions, text);
      match parsed
      case Err(e) => reply := Err(BadAnswer(e));
      case Ok(answers) => reply := AnswerWith(p, answers, accepted);
    }

    method AnswerAtOnce(message: string) returns (sender: Sender)
      requires Valid()
      modifies env
      ensures Valid() && (Abs(), Ok(sender)) == ActorModel.StartPrompt(old(Abs()), Handled(message))
    {
      Notify(AgentText(message));
      sender := OpenChannel();
      Deliver(sender, Ok(EndTurn));
    }

    method StartSubmission(id: string, op: Op) returns (sender: Sender)
      requires Valid()
      modifies this`submissions, this`repr, env, repr
      ensures Valid() && fresh(repr - old(repr))
      ensures (Abs(), Ok(sender)) == ActorModel.StartPrompt(old(Abs()), SubmittedAs(id, op))
    {
      Submit(op);
      sender := OpenChannel();
      InsertSubmission(id, Some(sender));
    }

    method StartPrompt(route: Route) returns (reply: PromptReply)
      requires Valid()
      modifies this`submissions, this`repr, env, repr
      ensures Valid() && fresh(repr - old(repr))
      ensures (Abs(), reply) == ActorModel.StartPrompt(old(Abs()), route)
    {
      match route
      case RefusedPrompt => reply := Err(PromptRefused);
      case Handled(message) =>
        var sender := AnswerAtOnce(message);
        reply := Ok(sender);
      case RefusedSubmit(op) =>
        Submit(op);
        reply := Err(SubmitRefused);
      case SubmittedAs(id, op) =>
        var sender := StartSubmission(id, op);
        reply := Ok(sender);
    }

    method HandlePrompt(p: PromptInput) returns (reply: PromptReply)
      requires Valid()
      modifies this`submissions, this`repr, state, env, repr
      ensures Valid() && fresh(repr - old(repr))
      ensures (Abs(), reply) == ActorModel.HandlePrompt(old(Abs()), p)
    {
      if state.pendingUserInput.Some? {
        reply := HandlePendingUserInputPrompt(state.pendingUserInput.value, p.text, p.answerAccepted);
      } else {
        reply := StartPrompt(p.route);
      }
    }

    // -------------------------------------------------------------------------------------------
    // Task results and events

    method TakeResolution() returns (m: Resolution)
      requires Valid() && env.w.queue != []
      modifies env
      ensures Valid() && m == old(env.w.queue[0]) && Abs() == old(Abs()).(w := Receive(old(env.w)))
    {
      m := env.TakeResolution();
    }

    method HandlePermissionRequestResolved(accepted: bool)
      requires Valid() && env.w.queue != []
      modifies env, repr
      ensures Valid() && Abs() == HandleResolved(old(Abs()).(w := Receive(old(env.w))), old(env.w.queue[0]), accepted)
    {
      var m := TakeResolution();
      if m.submission in submissions {
        ResolveIn(m, accepted);
      }
    }

    method ResolveIn(m: Resolution, accepted: bool)
      requires Valid() && m.submission in submissions
      modifies submissions[m.submission].responses, submissions[m.submission].permissionInteractions, env
      ensures Valid() && Abs() == Put(old(Abs()), m.submission, Resolve(Get(old(Abs()), m.submission), m, accepted))
    {
      var sub := submissions[m.submission];
      var r := sub.HandlePermissionRequestResolved(env, m, accepted);
      if r.Err? {
        sub.AbortPendingInteractions(env);
        sub.SendResult(env, Err(r.error));
      }
      OthersUnchanged(m.submission);
    }

    method DeliverTo(id: string, ev: Event, accepted: bool)
      requires Valid() && id in submissions
      modifies submissions[id].Repr(), env
      ensures Valid() && Abs() == Put(old(Abs()), id, DeliverEvent(Get(old(Abs()), id), id, capable, ev, accepted))
    {
      submissions[id].HandleEvent(env, capable, ev, accepted);
      OthersUnchanged(id);
    }

    /** Full-access mode approves without asking. */
    method MaybeAutoApprove(ev: Event) returns (approved: bool)
      requires Valid()
      modifies env
      ensures approved <==> fullAccess && AutoApprovalFor(ev).Some?
      ensures Valid()
      ensures Abs() == if approved then SubmitOp(old(Abs()), AutoApprovalOp(AutoApprovalFor(ev).value)) else old(Abs())
    {
      var approval := AutoApprovalFor(ev);
      approved := fullAccess && approval.Some?;
      if approved {
        env.Submit(Submitted(AutoApprovalOp(approval.value), None, None));
      }
    }

    method RegisterPendingUserInput(id: string, callId: string, turnId: string, questions: seq<Question>)
      requires Valid()
      modifies state`pendingUserInput, env
      ensures Valid()
      ensures Abs() == ActorModel.Show(old(Abs()), QuestionPrompt(questions))
                       .(slot := Some(PendingRequest(id, callId, turnId, questions)))
    {
      Notify(QuestionPrompt(questions));
      SetPending(PendingRequest(id, callId, turnId, questions));
    }

    method RouteEvent(id: string, ev: Event, accepted: bool)
      requires Valid()
      modifies state`pendingUserInput, env, repr
      ensures Valid() && Abs() == ActorModel.RouteEvent(old(Abs()), id, ev, accepted)
    {
      if id in submissions {
        DeliverTo(id, ev, accepted);
      }
      if ev.End? {
        ClearPendingFor(id);
      }
    }

    /** An event that asks no questions: approved at once, or for its submission. */
    method ApproveOrRoute(id: string, ev: Event, accepted: bool)
      requires Valid()
      modifies state`pendingUserInput, env, repr
      ensures Valid()
      ensures Abs() == if fullAccess && AutoApprovalFor(ev).Some?
                       then SubmitOp(old(Abs()), AutoApprovalOp(AutoApprovalFor(ev).value))
                       else ActorModel.RouteEvent(old(Abs()), id, ev, accepted)
    {
      var approved := MaybeAutoApprove(ev);
      if !approved {
        RouteEvent(id, ev, accepted);
      }
    }

    method HandleEvent(id: string, o: Observed, accepted: bool)
      requires Valid()
      modifies state, env, repr
      ensures Valid() && Abs() == ActorModel.HandleEvent(old(Abs()), id, o, accepted)
    {
      if o.event.Session? && o.event.session.GoalUpdated? && state.currentGoal == Some(o.event.session.goal) {
        return;
      }
      ApplyUpdates(StateUpdates(o));
      if o.event.RequestUserInput? {
        RegisterPendingUserInput(id, o.event.callId, o.event.turnId, o.event.questions);
      } else {
        ApproveOrRoute(id, o.event, accepted);
      }
    }

    // -------------------------------------------------------------------------------------------
    // Replay

    method ApplyUpdates(updates: seq<StateUpdate>)
      requires Valid()
      modifies state
      ensures Valid() && Abs() == old(Abs()).(session := SessionState.ApplyUpdates(old(Abs()).session, updates))
    {
      state.ApplyEventUpdates(updates);
    }

    method ReplayPendingInput(ev: Event)
      requires Valid()
      modifies state`pendingUserInput
      ensures Valid() && Abs() == old(Abs()).(slot := ReplaySlot(old(Abs()).slot, ev))
    {
      match ev
      case RequestUserInput(callId, turnId, questions) =>
        SetPending(PendingRequest(turnId, callId, turnId, questions));
      case End(TurnComplete(turn)) => ClearPendingFor(turn);
      case End(TurnAborted(turn)) =>
        if turn.Some? {
          ClearPendingFor(turn.value);
        }
      case End(_) => ClearPending();
      case _ =>
    }

    method ReplayEvent(o: Observed)
      requires Valid()
      modifies state, env
      ensures Valid() && Abs() == ReplayedOne(old(Abs()), o)
    {
      ApplyUpdates(StateUpdates(o));
      NotifyAll(StreamModel.ReplayUpdates(o.event));
      ReplayPendingInput(o.event);
    }

    method NotifyAll(updates: seq<Update>)
      requires Valid()
      modifies env
      ensures Valid() && Abs() == old(Abs()).(w := old(env.w).(shown := old(env.w).shown + Tagged(None, updates)))
    {
      for i := 0 to |updates|
        invariant env.w == old(env.w).(shown := old(env.w).shown + Tagged(None, updates[..i]))
      {
        assert updates[..i + 1] == updates[..i] + [updates[i]];
        env.Notify(None, updates[i]);
      }
      assert updates[..|updates|] == updates;
    }

    /** Replays the items of a history one by one. */
    method HandleReplayHistory(history: seq<Observed>)
      requires Valid()
      modifies state, env
      ensures Valid() && Abs() == Replay(old(Abs()), history)
    {
      ghost var before := Abs();
      ReplayedNone(before, history);
      for i := 0 to |history|
        invariant Valid() && Abs() == ReplayedUntil(before, history, i)
      {
        ReplayedOneMore(before, history, i);
        ReplayEvent(history[i]);
      }
    }

    // -------------------------------------------------------------------------------------------
    // The loop

    method Abort(op: Op)
      requires Valid()
      modifies env, repr
      ensures Valid() && Abs() == SubmitOp(AbortEverything(old(Abs())), op)
    {
      AbortPendingInteractions();
      Submit(op);
    }

    method HandleSteer(outcome: SteerOutcome, p: PromptInput)
      requires Valid()
      modifies this`submissions, this`repr, state, env, repr
      ensures Valid() && fresh(repr - old(repr))
      ensures Abs() == Handle(old(Abs()), Steer(outcome, p))
    {
      if outcome.NoActiveTurn? {
        var _ := HandlePrompt(p);
      }
    }

    method SetCapable(capable: bool)
      requires Valid()
      modifies this`capable
      ensures Valid() && Abs() == old(Abs()).(capable := capable)
    {
      this.capable := capable;
      SameViews(submissions.Keys);
    }

    method SetFullAccess(full: bool)
      requires Valid()
      modifies this`fullAccess
      ensures Valid() && Abs() == old(Abs()).(fullAccess := full)
    {
      fullAccess := full;
      SameViews(submissions.Keys);
    }

    method SetMessagesClosed()
      requires Valid()
      modifies this`messagesOpen
      ensures Valid() && Abs() == old(Abs()).(messagesOpen := false)
    {
      messagesOpen := false;
      SameViews(submissions.Keys);
    }

    method SetStatus(status: Status)
      requires Valid()
      modifies this`status
      ensures Valid() && Abs() == old(Abs()).(status := status)
    {
      this.status := status;
      SameViews(submissions.Keys);
    }

    method SetMode(mode: Mode)
      requires Valid()
      modifies state
      ensures Valid() && Abs() == old(Abs()).(session := old(Abs()).session.(mode := Some(mode)))
    {
      state.ApplyEventUpdate(CollaborationMode(mode));
    }

    method HandleGoalControl(goal: Option<Goal>)
      requires Valid()
      modifies state
      ensures Valid() && Abs() == old(Abs()).(session := old(Abs()).session.(goal := goal))
    {
      var _ := state.UpdateGoal(goal);
    }

    method RemoveAll()
      requires Valid()
      modifies this`submissions, env, repr
      ensures Valid() && Abs() == Retain(old(Abs()), {})
    {
      ghost var before := Abs();
      var ids := submissions.Keys;
      assert ids == before.subs.Keys;
      RetainedNone(before);
      while ids != {}
        invariant Valid() && ids <= before.subs.Keys && repr == old(repr)
        invariant Abs() == Retain(before, ids)
        decreases ids
      {
        var id :| id in ids;
        assert id in Abs().subs;
        RetainOneLess(before, ids, id);
        Remove(id);
        ids := ids - {id};
      }
    }

    method LoseEvents()
      requires Valid()
      modifies this`submissions, this`status, env, repr
      ensures Valid() && Abs() == Handle(old(Abs()), EventStreamFailed)
    {
      RemoveAll();
      SetStatus(EventStreamLost);
    }

    /** Messages that only change a setting, or nothing. */
    method HandleSetting(input: Input)
      requires Valid()
      requires input.ReplaceClient? || input.SetFullAccess? || input.SetMode? || input.ControlGoal?
               || input.OtherMessage? || input.MessagesClosed?
      modifies this`capable, this`fullAccess, this`messagesOpen, state
      ensures Valid() && Abs() == Handle(old(Abs()), input)
    {
      match input
      case ReplaceClient(capable) => SetCapable(capable);
      case SetFullAccess(full) => SetFullAccess(full);
      case SetMode(mode) => SetMode(mode);
      case ControlGoal(goal) => HandleGoalControl(goal);
      case MessagesClosed => SetMessagesClosed();
      case OtherMessage =>
    }

    method HandleResult(accepted: bool)
      requires Valid()
      modifies env, repr
      ensures Valid() && Abs() == Handle(old(Abs()), PermissionResolved(accepted))
    {
      if env.w.queue != [] {
        HandlePermissionRequestResolved(accepted);
      }
    }

    /** Prompts, and messages about turns in flight. */
    method HandleClientMessage(input: Input)
      requires Valid()
      requires input.Prompt? || input.Steer? || input.CancelTurn? || input.ShutdownSession? || input.ReplayHistory?
      modifies this`submissions, this`repr, state, env, repr
      ensures Valid() && fresh(repr - old(repr))
      ensures Abs() == Handle(old(Abs()), input)
    {
      match input
      case Prompt(p) => var _ := HandlePrompt(p);
      case Steer(outcome, p) => HandleSteer(outcome, p);
      case CancelTurn => Abort(Interrupt);
      case ShutdownSession => Abort(Shutdown);
      case ReplayHistory(history) => HandleReplayHistory(history);
    }

    method HandleMessage(input: Input)
      requires Valid()
      modifies this, state, env, repr
      ensures Valid() && fresh(repr - old(repr))
      ensures Abs() == Handle(old(Abs()), input)
    {
      match input
      case PermissionResolved(accepted) => HandleResult(accepted);
      case CodexEvent(id, o, accepted) => HandleEvent(id, o, accepted);
      case EventStreamFailed => LoseEvents();
      case Prompt(_) => HandleClientMessage(input);
      case Steer(_, _) => HandleClientMessage(input);
      case CancelTurn => HandleClientMessage(input);
      case ShutdownSession => HandleClientMessage(input);
      case ReplayHistory(_) => HandleClientMessage(input);
      case _ => HandleSetting(input);
    }

    method LoseReceivers(dropped: set<Sender>)
      requires Valid()
      modifies env
      ensures Valid() && Abs() == old(Abs()).(w := DropReceivers(old(env.w), dropped))
    {
      env.LoseReceivers(dropped);
    }

    method EndIfDrained()
      requires Valid()
      modifies this`status
      ensures Valid()
      ensures Abs() == if !old(messagesOpen) && old(Abs()).subs == map[] then old(Abs()).(status := Drained) else old(Abs())
    {
      assert Abs().subs.Keys == submissions.Keys;
      if !messagesOpen && submissions == map[] {
        SetStatus(Drained);
      }
    }

    /** One turn: a message or event, then the sweep; callers may leave while it runs. */
    method Turn(input: Input, dropped: set<Sender>)
      requires Valid()
      modifies this, state, env, repr
      ensures Valid() && fresh(repr - old(repr))
      ensures Abs() == ActorModel.Turn(old(Abs()), input, dropped)
    {
      if !status.Running? {
        return;
      }
      HandleMessage(input);
      if status.EventStreamLost? {
        return;
      }
      LoseReceivers(dropped);
      Sweep();
      EndIfDrained();
    }

    method ClientAnswers(t: TaskId, response: Response)
      requires Valid()
      modifies env
      ensures Valid() && Abs() == old(Abs()).(w := ClientReplies(old(env.w), t, response))
    {
      env.ClientAnswers(t, response);
    }

    method TaskQueues(t: TaskId)
      requires Valid()
      modifies env
      ensures Valid() && Abs() == old(Abs()).(w := TaskSends(old(env.w), t))
    {
      env.TaskQueues(t);
    }

    /** One step: a turn of the loop, or something the surroundings do between two turns. */
    method Perform(step: Step)
      requires Valid()
      modifies this, state, env, repr
      ensures Valid() && fresh(repr - old(repr))
      ensures Abs() == Next(old(Abs()), step)
    {
      match step
      case ActorTurn(input, dropped) => Turn(input, dropped);
      case ReceiversDropped(dropped) => LoseReceivers(dropped);
      case ClientReply(t, response) => ClientAnswers(t, response);
      case TaskSend(t) => TaskQueues(t);
    }

    /** The loop, with whatever clients, permission tasks and callers do between its turns. */
    method Spawn(steps: seq<Step>)
      requires Valid()
      modifies this, state, env, repr
      ensures Valid() && fresh(repr - old(repr))
      ensures Abs() == Run(old(Abs()), steps)
    {
      for i := 0 to |steps|
        invariant Valid() && fresh(repr - old(repr))
        invariant Abs() == Run(old(Abs()), steps[..i])
      {
        assert steps[..i + 1][..i] == steps[..i];
        Perform(steps[i]);
      }
      assert steps[..|steps|] == steps;
    }
  }
}
