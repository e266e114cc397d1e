/**
 What every step of the actor keeps: who holds each answer sender, what became of each permission
 task, what is queued and what was submitted.
 */
module ActorInvariants {
  import opened Wrappers
  import opened Approval
  import opened UserInput
  import opened Events
  import opened SessionState
  import opened Runtime
  import opened SubmissionModel
  import opened ActorModel

  // ---------------------------------------------------------------------------------------------
  // Senders

  ghost predicate Distinct(s: seq<Sender>) {
    forall i, j :: 0 <= i < j < |s| ==> s[i] != s[j]
  }

  ghost function HeldBy(subs: map<string, Submission>, id: string): seq<Sender>
    requires id in subs
  {
    Senders(subs[id].responses)
  }

  ghost predicate WasSent(sent: seq<Sent>, x: Sender) {
    exists i :: 0 <= i < |sent| && sent[i].sender == x
  }

  ghost predicate Held(subs: map<string, Submission>, x: Sender) {
    exists id :: id in subs && x in HeldBy(subs, id)
  }

  ghost predicate SentOnce(sent: seq<Sent>, issued: nat) {
    && (forall i, j :: 0 <= i < j < |sent| ==> sent[i].sender != sent[j].sender)
    && forall i :: 0 <= i < |sent| ==> sent[i].sender < issued
  }

  /** Each sender is held once at most, by one submission at most, and answered once at most. */
  ghost predicate SendersOk(subs: map<string, Submission>, w: World) {
    && (forall id :: id in subs ==> Distinct(HeldBy(subs, id)))
    && (forall id, x {:trigger x in HeldBy(subs, id)} :: id in subs && x in HeldBy(subs, id) ==> x < w.issued && !WasSent(w.sent, x))
    && (forall id, id', x :: id in subs && id' in subs && x in HeldBy(subs, id) && x in HeldBy(subs, id') ==> id == id')
    && SentOnce(w.sent, w.issued)
    && (forall x :: x in w.open ==> x < w.issued)
  }

  /** A caller still waiting was answered, or its sender is held. */
  ghost predicate Accounted(subs: map<string, Submission>, w: World) {
    forall x :: x in w.open ==> Held(subs, x) || WasSent(w.sent, x)
  }

  // ---------------------------------------------------------------------------------------------
  // Tasks

  ghost predicate EntryOk(tasks: seq<Task>, id: string, k: string, e: Entry) {
    && e.task < |tasks|
    && tasks[e.task].submission == id && tasks[e.task].key == k && tasks[e.task].fate.Pending?
  }

  ghost predicate TaskHeld(subs: map<string, Submission>, t: TaskId, task: Task) {
    && task.submission in subs
    && task.key in subs[task.submission].interactions
    && subs[task.submission].interactions[task.key].task == t
    && MayDeliver(task.phase)
  }

  /** Pending tasks and pending interactions are the same thing, one to one, and each can still deliver. */
  ghost predicate TasksOk(subs: map<string, Submission>, tasks: seq<Task>) {
    && (forall id, k :: id in subs && k in subs[id].interactions ==> EntryOk(tasks, id, k, subs[id].interactions[k]))
    && (forall t :: 0 <= t < |tasks| && tasks[t].fate.Pending? ==> TaskHeld(subs, t, tasks[t]))
  }

  ghost predicate QueueOk(tasks: seq<Task>, queue: seq<Resolution>) {
    && (forall i :: 0 <= i < |queue| ==>
          && queue[i].task < |tasks|
          && tasks[queue[i].task].phase.Queued?
          && tasks[queue[i].task].submission == queue[i].submission
          && tasks[queue[i].task].key == queue[i].key)
    && (forall i, j :: 0 <= i < j < |queue| ==> queue[i].task != queue[j].task)
  }

  /** An operation answers a resolved interaction, and no interaction or task result causes two. */
  ghost predicate OpsOk(tasks: seq<Task>, ops: seq<Submitted>) {
    && (forall i :: 0 <= i < |ops| && ops[i].entry.Some? ==>
          ops[i].entry.value < |tasks| && tasks[ops[i].entry.value].fate.Resolved?)
    && (forall i :: 0 <= i < |ops| && ops[i].via.Some? ==>
          ops[i].via.value < |tasks| && tasks[ops[i].via.value].phase.Consumed?)
    && (forall i, j :: 0 <= i < j < |ops| && ops[i].entry.Some? ==> ops[i].entry != ops[j].entry)
    && (forall i, j :: 0 <= i < j < |ops| && ops[i].via.Some? ==> ops[i].via != ops[j].via)
  }

  ghost predicate Inv(a: Actor) {
    && SendersOk(a.subs, a.w)
    && TasksOk(a.subs, a.w.tasks)
    && QueueOk(a.w.tasks, a.w.queue)
    && OpsOk(a.w.tasks, a.w.ops)
  }

  /** History is only extended: answers, operations, and the fate of a task once it has one. */
  ghost predicate Grows(w: World, w': World) {
    && w.issued <= w'.issued
    && w.sent <= w'.sent
    && w.ops <= w'.ops
    && |w.tasks| <= |w'.tasks|
    && forall t :: 0 <= t < |w.tasks| ==>
         && w'.tasks[t].submission == w.tasks[t].submission
         && w'.tasks[t].key == w.tasks[t].key
         && (!w.tasks[t].fate.Pending? ==> w'.tasks[t].fate == w.tasks[t].fate)
  }

  ghost predicate Keeps(a: Actor, b: Actor) {
    && Inv(b)
    && Grows(a.w, b.w)
    && (Accounted(a.subs, a.w) ==> Accounted(b.subs, b.w))
  }

  lemma KeepsTwice(a: Actor, b: Actor, c: Actor)
    requires Keeps(a, b) && Keeps(b, c)
    ensures Keeps(a, c)
  {}

  // ---------------------------------------------------------------------------------------------
  // Steps that move senders

  lemma SameSenders(a: Actor, b: Actor)
    requires SendersOk(a.subs, a.w)
    requires b.subs.Keys == a.subs.Keys
    requires forall id :: id in a.subs ==> b.subs[id].responses == a.subs[id].responses
    requires b.w.open <= a.w.open && b.w.issued == a.w.issued && b.w.sent == a.w.sent
    ensures SendersOk(b.subs, b.w)
    ensures Accounted(a.subs, a.w) ==> Accounted(b.subs, b.w)
  {
    assert forall id :: id in a.subs ==> HeldBy(b.subs, id) == HeldBy(a.subs, id);
    forall id, x | id in b.subs && x in HeldBy(b.subs, id) ensures x < b.w.issued && !WasSent(b.w.sent, x) {
      assert x in HeldBy(a.subs, id);
    }
    if Accounted(a.subs, a.w) {
      forall x | x in b.w.open ensures Held(b.subs, x) || WasSent(b.w.sent, x) {
        if Held(a.subs, x) {
          var id :| id in a.subs && x in HeldBy(a.subs, id);
          assert x in HeldBy(b.subs, id);
        }
      }
    }
  }

  lemma DeliveriesAreSent(sent: seq<Sent>, senders: seq<Sender>, r: PromptResult, x: Sender)
    ensures WasSent(sent + Deliveries(senders, r), x) <==> WasSent(sent, x) || x in senders
  {
    var all := sent + Deliveries(senders, r);
    if WasSent(sent, x) {
      var i :| 0 <= i < |sent| && sent[i].sender == x;
      assert all[i].sender == x;
    }
    if x in senders {
      var i :| 0 <= i < |senders| && senders[i] == x;
      assert all[|sent| + i].sender == x;
    }
    if WasSent(all, x) {
      var i :| 0 <= i < |all| && all[i].sender == x;
      if i < |sent| {
        assert sent[i].sender == x;
      } else {
        assert senders[i - |sent|] == x;
      }
    }
  }

  lemma SentOnceMore(sent: seq<Sent>, senders: seq<Sender>, r: PromptResult, issued: nat)
    requires SentOnce(sent, issued) && Distinct(senders)
    requires forall x :: x in senders ==> x < issued && !WasSent(sent, x)
    ensures SentOnce(sent + Deliveries(senders, r), issued)
  {
    var all := sent + Deliveries(senders, r);
    forall i, j | 0 <= i < j < |all| ensures all[i].sender != all[j].sender {
      if j < |sent| {
        assert sent[i].sender != sent[j].sender;
      } else if i < |sent| {
        assert senders[j - |sent|] in senders;
        assert WasSent(sent, sent[i].sender);
      } else {
        assert senders[i - |sent|] != senders[j - |sent|];
      }
    }
    forall i | 0 <= i < |all| ensures all[i].sender < issued {
      if i >= |sent| {
        assert senders[i - |sent|] in senders;
      }
    }
  }

  lemma SendResultKeeps(a: Actor, id: string, r: PromptResult)
    requires Inv(a) && id in a.subs
    ensures Keeps(a, Put(a, id, SendResult(Get(a, id), r)))
  {
    var b := Put(a, id, SendResult(Get(a, id), r));
    var senders := HeldBy(a.subs, id);
    assert HeldBy(b.subs, id) == [];
    assert forall id' :: id' in a.subs && id' != id ==> HeldBy(b.subs, id') == HeldBy(a.subs, id');
    forall x | x in senders ensures x < a.w.issued && !WasSent(a.w.sent, x) {
      assert x in HeldBy(a.subs, id);
    }
    SentOnceMore(a.w.sent, senders, r, a.w.issued);
    forall id', x | id' in b.subs && x in HeldBy(b.subs, id') ensures x < b.w.issued && !WasSent(b.w.sent, x) {
      DeliveriesAreSent(a.w.sent, senders, r, x);
    }
    forall x | x in b.w.open && Accounted(a.subs, a.w) ensures Held(b.subs, x) || WasSent(b.w.sent, x) {
      DeliveriesAreSent(a.w.sent, senders, r, x);
      if !WasSent(b.w.sent, x) {
        var id' :| id' in a.subs && x in HeldBy(a.subs, id');
        assert x in HeldBy(b.subs, id');
      }
    }
    TasksFrame(a.subs, b.subs, a.w.tasks);
  }

  lemma TasksFrame(subs: map<string, Submission>, subs': map<string, Submission>, tasks: seq<Task>)
    requires TasksOk(subs, tasks)
    requires subs'.Keys == subs.Keys
    requires forall id :: id in subs ==> subs'[id].interactions == subs[id].interactions
    ensures TasksOk(subs', tasks)
  {}

  // ---------------------------------------------------------------------------------------------
  // Steps that settle tasks

  lemma SettleRest(tasks: seq<Task>, queue: seq<Resolution>, ops: seq<Submitted>, ids: set<TaskId>, fate: Fate)
    requires QueueOk(tasks, queue) && OpsOk(tasks, ops)
    requires forall t :: t in ids && t < |tasks| ==> tasks[t].fate.Pending?
    ensures QueueOk(SettleAll(tasks, ids, fate), queue)
    ensures OpsOk(SettleAll(tasks, ids, fate), ops)
  {}

  lemma SettleGrows(w: World, ids: set<TaskId>, fate: Fate)
    requires forall t :: t in ids && t < |w.tasks| ==> w.tasks[t].fate.Pending?
    ensures Grows(w, w.(tasks := SettleAll(w.tasks, ids, fate)))
  {}

  lemma AbortAllKeeps(a: Actor, id: string)
    requires Inv(a) && id in a.subs
    ensures Keeps(a, Put(a, id, AbortAll(Get(a, id))))
  {
    var b := Put(a, id, AbortAll(Get(a, id)));
    var ids := TasksOf(a.subs[id].interactions);
    forall t | t in ids ensures t < |a.w.tasks| && a.w.tasks[t].submission == id && a.w.tasks[t].fate.Pending? {
      var k :| k in a.subs[id].interactions && a.subs[id].interactions[k].task == t;
    }
    SettleRest(a.w.tasks, a.w.queue, a.w.ops, ids, Aborted);
    SettleGrows(a.w, ids, Aborted);
    SameSenders(a, b);
    forall t | 0 <= t < |b.w.tasks| && b.w.tasks[t].fate.Pending? ensures TaskHeld(b.subs, t, b.w.tasks[t]) {
      assert TaskHeld(a.subs, t, a.w.tasks[t]);
    }
  }

  lemma SpawnKeepsTasks(subs: map<string, Submission>, tasks: seq<Task>, id: string, key: string, request: PermissionRequest)
    requires TasksOk(subs, tasks) && id in subs
    ensures var l := Spawn(Local(subs[id], START.(tasks := tasks)), id, key, request);
            TasksOk(subs[id := l.sub], l.w.tasks)
  {
    var l := Spawn(Local(subs[id], START.(tasks := tasks)), id, key, request);
    var subs', tasks' := subs[id := l.sub], l.w.tasks;
    forall id', k | id' in subs' && k in subs'[id'].interactions ensures EntryOk(tasks', id', k, subs'[id'].interactions[k]) {
      if id' != id || k != key {
        assert EntryOk(tasks, id', k, subs[id'].interactions[k]);
      }
    }
    forall t | 0 <= t < |tasks'| && tasks'[t].fate.Pending? ensures TaskHeld(subs', t, tasks'[t]) {
      if t < |tasks| {
        assert TaskHeld(subs, t, tasks[t]);
      }
    }
  }

  lemma SpawnKeeps(a: Actor, id: string, key: string, request: PermissionRequest)
    requires Inv(a) && id in a.subs
    ensures Keeps(a, Put(a, id, Spawn(Get(a, id), id, key, request)))
  {
    SpawnKeepsTasks(a.subs, a.w.tasks, id, key, request);
    SpawnKeepsRest(a, id, key, request);
    SameSenders(a, Put(a, id, Spawn(Get(a, id), id, key, request)));
  }

  lemma SpawnKeepsRest(a: Actor, id: string, key: string, request: PermissionRequest)
    requires Inv(a) && id in a.subs
    ensures var w := Spawn(Get(a, id), id, key, request).w;
            QueueOk(w.tasks, w.queue) && OpsOk(w.tasks, w.ops) && Grows(a.w, w)
  {
    var interactions := a.subs[id].interactions;
    var ids := if key in interactions then {interactions[key].task} else {};
    assert key in interactions ==> EntryOk(a.w.tasks, id, key, interactions[key]);
    SettleRest(a.w.tasks, a.w.queue, a.w.ops, ids, Replaced);
    SettleGrows(a.w, ids, Replaced);
  }

  lemma RetainKeepsTasks(a: Actor, keep: set<string>)
    requires Inv(a)
    ensures var b := Retain(a, keep);
            TasksOk(b.subs, b.w.tasks) && QueueOk(b.w.tasks, b.w.queue) && OpsOk(b.w.tasks, b.w.ops) && Grows(a.w, b.w)
  {
    var b := Retain(a, keep);
    var ids := TasksOutside(a.subs, keep);
    forall t | t in ids ensures t < |a.w.tasks| && a.w.tasks[t].fate.Pending? && a.w.tasks[t].submission !in keep {
      var id, k :| id in a.subs && id !in keep && k in a.subs[id].interactions && a.subs[id].interactions[k].task == t;
      assert EntryOk(a.w.tasks, id, k, a.subs[id].interactions[k]);
    }
    SettleRest(a.w.tasks, a.w.queue, a.w.ops, ids, Dropped);
    SettleGrows(a.w, ids, Dropped);
    forall id, k | id in b.subs && k in b.subs[id].interactions
      ensures EntryOk(b.w.tasks, id, k, b.subs[id].interactions[k])
    {
      assert EntryOk(a.w.tasks, id, k, a.subs[id].interactions[k]);
    }
    forall t | 0 <= t < |a.w.tasks| && a.w.tasks[t].fate.Pending?
      ensures TaskHeld(a.subs, t, a.w.tasks[t]) && (a.w.tasks[t].submission in keep || t in ids)
    {}
  }

  lemma RetainKeepsSenders(a: Actor, keep: set<string>)
    requires SendersOk(a.subs, a.w)
    ensures SendersOk(Retain(a, keep).subs, Retain(a, keep).w)
    ensures Accounted(a.subs, a.w) && (forall id, x :: id in a.subs && id !in keep && x in HeldBy(a.subs, id) ==> x !in a.w.open) ==>
              Accounted(Retain(a, keep).subs, Retain(a, keep).w)
  {
    var b := Retain(a, keep);
    forall id | id in b.subs ensures HeldBy(b.subs, id) == HeldBy(a.subs, id) {}
    if Accounted(a.subs, a.w)
       && forall id, x :: id in a.subs && id !in keep && x in HeldBy(a.subs, id) ==> x !in a.w.open
    {
      forall x | x in b.w.open ensures Held(b.subs, x) || WasSent(b.w.sent, x) {
        if Held(a.subs, x) {
          var id :| id in a.subs && x in HeldBy(a.subs, id);
          assert x in HeldBy(b.subs, id);
        }
      }
    }
  }

  lemma AbortEverythingKeeps(a: Actor)
    requires Inv(a)
    ensures Keeps(a, AbortEverything(a))
  {
    var b := AbortEverything(a);
    var ids := TasksOutside(a.subs, {});
    forall t | t in ids ensures t < |a.w.tasks| && a.w.tasks[t].fate.Pending? {
      var id, k :| id in a.subs && k in a.subs[id].interactions && a.subs[id].interactions[k].task == t;
      assert EntryOk(a.w.tasks, id, k, a.subs[id].interactions[k]);
    }
    SettleRest(a.w.tasks, a.w.queue, a.w.ops, ids, Aborted);
    SettleGrows(a.w, ids, Aborted);
    SameSenders(a, b);
    forall t | 0 <= t < |a.w.tasks| && a.w.tasks[t].fate.Pending? ensures t in ids {
      assert TaskHeld(a.subs, t, a.w.tasks[t]);
    }
  }

  // ---------------------------------------------------------------------------------------------
  // Taking a queued result

  /** The actor after the first queued result was received and its interaction, if any, taken. */
  ghost function Taken(a: Actor): Actor
    requires a.w.queue != []
  {
    var m, b := a.w.queue[0], a.(w := Receive(a.w));
    if m.submission in b.subs && m.key in b.subs[m.submission].interactions
    then Put(b, m.submission, TakeEntry(Get(b, m.submission), m))
    else b
  }

  lemma ReceiveKeepsRest(w: World)
    requires QueueOk(w.tasks, w.queue) && OpsOk(w.tasks, w.ops) && w.queue != []
    ensures var w' := Receive(w);
            QueueOk(w'.tasks, w'.queue) && OpsOk(w'.tasks, w'.ops) && Grows(w, w')
    ensures w.queue[0].task < |w.tasks|
    ensures forall i :: 0 <= i < |w.ops| ==> w.ops[i].via != Some(w.queue[0].task)
  {
    var w' := Receive(w);
    assert w.tasks[w.queue[0].task].phase.Queued?;
    forall i | 0 <= i < |w'.queue| ensures w'.queue[i] == w.queue[i + 1] {}
  }

  /** Tasks other than the taken one keep their place, or were settled already. */
  ghost predicate OnlySettles(tasks: seq<Task>, tasks': seq<Task>, taken: Option<TaskId>) {
    && |tasks'| == |tasks|
    && forall t :: 0 <= t < |tasks| ==>
         if taken == Some(t) then !tasks'[t].fate.Pending?
         else tasks'[t] == tasks[t] || (!tasks[t].fate.Pending? && !tasks'[t].fate.Pending?)
  }

  lemma RemoveEntryKeepsTasks(subs: map<string, Submission>, tasks: seq<Task>, tasks': seq<Task>, id: string, k: string)
    requires TasksOk(subs, tasks) && id in subs && k in subs[id].interactions
    requires OnlySettles(tasks, tasks', Some(subs[id].interactions[k].task))
    ensures TasksOk(subs[id := subs[id].(interactions := subs[id].interactions - {k})], tasks')
  {
    var subs' := subs[id := subs[id].(interactions := subs[id].interactions - {k})];
    assert EntryOk(tasks, id, k, subs[id].interactions[k]);
    forall id', k' | id' in subs' && k' in subs'[id'].interactions
      ensures EntryOk(tasks', id', k', subs'[id'].interactions[k'])
    {
      assert EntryOk(tasks, id', k', subs[id'].interactions[k']);
    }
    forall t | 0 <= t < |tasks'| && tasks'[t].fate.Pending? ensures TaskHeld(subs', t, tasks'[t]) {
      assert TaskHeld(subs, t, tasks[t]);
    }
  }

  lemma SettledKeepsTasks(subs: map<string, Submission>, tasks: seq<Task>, tasks': seq<Task>)
    requires TasksOk(subs, tasks) && OnlySettles(tasks, tasks', None)
    ensures TasksOk(subs, tasks')
  {
    forall t | 0 <= t < |tasks'| && tasks'[t].fate.Pending? ensures TaskHeld(subs, t, tasks'[t]) {
      assert TaskHeld(subs, t, tasks[t]);
    }
  }

  /** A queued result whose interaction is still pending is that of the interaction under its key. */
  lemma QueuedTaskIsHeld(a: Actor)
    requires QueueOk(a.w.tasks, a.w.queue) && a.w.queue != []
    requires TasksOk(a.subs, a.w.tasks)
    ensures var m := a.w.queue[0];
            && m.task < |a.w.tasks|
            && (a.w.tasks[m.task].fate.Pending? ==>
                  && m.submission in a.subs && m.key in a.subs[m.submission].interactions
                  && a.subs[m.submission].interactions[m.key].task == m.task)
  {
    var m := a.w.queue[0];
    assert a.w.tasks[m.task].phase.Queued?;
    assert a.w.tasks[m.task].fate.Pending? ==> TaskHeld(a.subs, m.task, a.w.tasks[m.task]);
  }

  lemma ReceiveSettlesNothing(a: Actor)
    requires QueueOk(a.w.tasks, a.w.queue) && a.w.queue != []
    requires TasksOk(a.subs, a.w.tasks)
    requires var m := a.w.queue[0];
             !(m.submission in a.subs && m.key in a.subs[m.submission].interactions)
    ensures OnlySettles(a.w.tasks, Receive(a.w).tasks, None)
  {
    QueuedTaskIsHeld(a);
  }

  lemma TakingSettles(a: Actor)
    requires a.w.queue != [] && a.w.queue[0].task < |a.w.tasks|
    requires var m := a.w.queue[0];
             && m.submission in a.subs && m.key in a.subs[m.submission].interactions
             && (a.w.tasks[m.task].fate.Pending? ==> a.subs[m.submission].interactions[m.key].task == m.task)
    ensures var m := a.w.queue[0];
            OnlySettles(a.w.tasks, Taken(a).w.tasks, Some(a.subs[m.submission].interactions[m.key].task))
  {}

  lemma TakingSettlesOne(a: Actor)
    requires QueueOk(a.w.tasks, a.w.queue) && a.w.queue != []
    requires TasksOk(a.subs, a.w.tasks)
    requires var m := a.w.queue[0];
             m.submission in a.subs && m.key in a.subs[m.submission].interactions
    ensures var m := a.w.queue[0];
            OnlySettles(a.w.tasks, Taken(a).w.tasks, Some(a.subs[m.submission].interactions[m.key].task))
  {
    QueuedTaskIsHeld(a);
    TakingSettles(a);
  }

  lemma TakenKeepsTasks(a: Actor)
    requires TasksOk(a.subs, a.w.tasks) && QueueOk(a.w.tasks, a.w.queue) && a.w.queue != []
    ensures TasksOk(Taken(a).subs, Taken(a).w.tasks)
  {
    var m, c := a.w.queue[0], Taken(a);
    if m.submission in a.subs && m.key in a.subs[m.submission].interactions {
      TakingSettlesOne(a);
      RemoveEntryKeepsTasks(a.subs, a.w.tasks, c.w.tasks, m.submission, m.key);
    } else {
      ReceiveSettlesNothing(a);
      SettledKeepsTasks(a.subs, a.w.tasks, c.w.tasks);
    }
  }

  lemma OneMoreOpOk(tasks: seq<Task>, ops: seq<Submitted>, op: Submitted)
    requires OpsOk(tasks, ops)
    requires op.entry.Some? && op.entry.value < |tasks| && tasks[op.entry.value].fate.Resolved?
    requires op.via.Some? && op.via.value < |tasks| && tasks[op.via.value].phase.Consumed?
    requires forall i :: 0 <= i < |ops| ==> ops[i].via != op.via && ops[i].entry != op.entry
    ensures OpsOk(tasks, ops + [op])
  {}

  lemma TakeEntryKeepsRest(w: World, l: Local, m: Resolution)
    requires QueueOk(w.tasks, w.queue) && OpsOk(w.tasks, w.ops)
    requires l.w == w && m.key in l.sub.interactions
    requires var t := l.sub.interactions[m.key].task; t < |w.tasks| && w.tasks[t].fate.Pending?
    requires m.task < |w.tasks| && w.tasks[m.task].phase.Consumed?
    requires forall i :: 0 <= i < |w.ops| ==> w.ops[i].via != Some(m.task)
    ensures var w' := TakeEntry(l, m).w;
            QueueOk(w'.tasks, w'.queue) && OpsOk(w'.tasks, w'.ops) && Grows(w, w')
  {
    var e := l.sub.interactions[m.key];
    var fate := if m.response.RequestFailed? then Failed else Resolved;
    SettleRest(w.tasks, w.queue, w.ops, {e.task}, fate);
    SettleGrows(w, {e.task}, fate);
    if m.response.Replied? {
      assert forall i :: 0 <= i < |w.ops| ==> w.ops[i].entry != Some(e.task);
      OneMoreOpOk(SettleAll(w.tasks, {e.task}, fate), w.ops,
                  Submitted(OpFor(e.request, m.response.outcome), Some(e.task), Some(m.task)));
    }
  }

  lemma TakenKeepsRest(a: Actor)
    requires Inv(a) && a.w.queue != []
    ensures var c := Taken(a);
            QueueOk(c.w.tasks, c.w.queue) && OpsOk(c.w.tasks, c.w.ops) && Grows(a.w, c.w)
  {
    var m, b := a.w.queue[0], a.(w := Receive(a.w));
    ReceiveKeepsRest(a.w);
    if m.submission in b.subs && m.key in b.subs[m.submission].interactions {
      assert EntryOk(a.w.tasks, m.submission, m.key, a.subs[m.submission].interactions[m.key]);
      TakeEntryKeepsRest(b.w, Get(b, m.submission), m);
    }
  }

  lemma TakenKeeps(a: Actor)
    requires Inv(a) && a.w.queue != []
    ensures Keeps(a, Taken(a))
  {
    TakenKeepsRest(a);
    TakenKeepsTasks(a);
    SameSenders(a, Taken(a));
  }

  // ---------------------------------------------------------------------------------------------
  // Steps of the surroundings

  lemma ClientRepliesKeeps(a: Actor, t: TaskId, r: Response)
    requires Inv(a)
    ensures Keeps(a, a.(w := ClientReplies(a.w, t, r)))
  {
    var b := a.(w := ClientReplies(a.w, t, r));
    SameSenders(a, b);
    forall t' | 0 <= t' < |b.w.tasks| && b.w.tasks[t'].fate.Pending? ensures TaskHeld(b.subs, t', b.w.tasks[t']) {
      assert TaskHeld(a.subs, t', a.w.tasks[t']);
    }
  }

  lemma TaskSendsKeeps(a: Actor, t: TaskId)
    requires Inv(a)
    ensures Keeps(a, a.(w := TaskSends(a.w, t)))
  {
    var b := a.(w := TaskSends(a.w, t));
    SameSenders(a, b);
    forall t' | 0 <= t' < |b.w.tasks| && b.w.tasks[t'].fate.Pending? ensures TaskHeld(b.subs, t', b.w.tasks[t']) {
      assert TaskHeld(a.subs, t', a.w.tasks[t']);
    }
  }

  // ---------------------------------------------------------------------------------------------
  // Steps that leave senders and tasks alone

  /** Nothing but the updates shown and operations that answer no interaction. */
  ghost predicate OnlyEmits(a: Actor, b: Actor) {
    && b.subs == a.subs
    && b.w == a.w.(ops := b.w.ops, shown := b.w.shown)
    && a.w.ops <= b.w.ops
    && forall i :: |a.w.ops| <= i < |b.w.ops| ==> b.w.ops[i].entry.None? && b.w.ops[i].via.None?
  }

  lemma EmittingKeeps(a: Actor, b: Actor)
    requires Inv(a) && OnlyEmits(a, b)
    ensures Keeps(a, b)
  {
    SameSenders(a, b);
  }

  lemma PutTwice(a: Actor, id: string, l: Local, l': Local)
    ensures Put(Put(a, id, l), id, l') == Put(a, id, l')
  {
    assert a.subs[id := l.sub][id := l'.sub] == a.subs[id := l'.sub];
  }

  lemma ShowKeeps(a: Actor, id: string, ev: Event)
    requires Inv(a) && id in a.subs
    ensures Keeps(a, Put(a, id, ShowUpdates(Get(a, id), id, a.capable, ev)))
  {
    var b := Put(a, id, ShowUpdates(Get(a, id), id, a.capable, ev));
    SameSenders(a, b);
    TasksFrame(a.subs, b.subs, a.w.tasks);
  }

  lemma DropReceiversKeeps(a: Actor, dropped: set<Sender>)
    requires Inv(a)
    ensures Keeps(a, a.(w := DropReceivers(a.w, dropped)))
  {
    SameSenders(a, a.(w := DropReceivers(a.w, dropped)));
  }

  lemma AbortAndSendKeeps(a: Actor, id: string, r: PromptResult)
    requires Inv(a) && id in a.subs
    ensures Keeps(a, Put(a, id, SendResult(AbortAll(Get(a, id)), r)))
  {
    var b := Put(a, id, AbortAll(Get(a, id)));
    AbortAllKeeps(a, id);
    SendResultKeeps(b, id, r);
    PutTwice(a, id, Get(b, id), SendResult(Get(b, id), r));
    KeepsTwice(a, b, Put(b, id, SendResult(Get(b, id), r)));
  }

  lemma SubmitOrFailKeeps(a: Actor, id: string, op: Op, accepted: bool)
    requires Inv(a) && id in a.subs
    ensures Keeps(a, Put(a, id, SubmitOrFail(Get(a, id), Submitted(op, None, None), accepted)))
  {
    var b := SubmitOp(a, op);
    EmittingKeeps(a, b);
    assert Put(b, id, Get(b, id)) == b;
    if !accepted {
      SendResultKeeps(b, id, Err("submit failed"));
      KeepsTwice(a, b, Put(b, id, SendResult(Get(b, id), Err("submit failed"))));
    }
  }

  lemma HandleRequestKeeps(a: Actor, id: string, r: RequestEvent, accepted: bool)
    requires Inv(a) && id in a.subs
    ensures Keeps(a, Put(a, id, HandleRequest(Get(a, id), id, r, accepted)))
  {
    if r.ExecApprovalRequest? && !r.contentOk {
      SendResultKeeps(a, id, Err("content"));
    } else if r.ElicitationRequest? && !r.supported {
      SubmitOrFailKeeps(a, id, DeclineOp(r), accepted);
    } else {
      SpawnKeeps(a, id, RequestKey(r), RequestFor(r));
    }
  }

  lemma DeliverEventKeeps(a: Actor, id: string, ev: Event, accepted: bool)
    requires Inv(a) && id in a.subs
    ensures Keeps(a, Put(a, id, DeliverEvent(Get(a, id), id, a.capable, ev, accepted)))
  {
    var b := Put(a, id, ShowUpdates(Get(a, id), id, a.capable, ev));
    ShowKeeps(a, id, ev);
    var l := DeliverEvent(Get(a, id), id, a.capable, ev, accepted);
    PutTwice(a, id, Get(b, id), l);
    if EndsTurn(ev) {
      AbortAndSendKeeps(b, id, EndResult(ev.end));
      KeepsTwice(a, b, Put(b, id, l));
    } else if ev.Request? {
      HandleRequestKeeps(b, id, ev.request, accepted);
      KeepsTwice(a, b, Put(b, id, l));
    }
  }

  // ---------------------------------------------------------------------------------------------
  // Whole messages

  lemma SameState(a: Actor, b: Actor, c: Actor)
    requires Keeps(a, b) && c.subs == b.subs && c.w == b.w
    ensures Keeps(a, c)
  {}

  /** A failed request, or an operation Codex refuses, fails the submission. */
  ghost function ResolveFailure(m: Resolution, accepted: bool): Option<PromptResult> {
    if m.response.RequestFailed? then Some(Err(m.response.error))
    else if !accepted then Some(Err("submit failed"))
    else None
  }

  lemma ResolvedIsTakenThenFailed(a: Actor, accepted: bool)
    requires a.w.queue != []
    ensures var m, b := a.w.queue[0], Taken(a);
            var id, failure := m.submission, ResolveFailure(m, accepted);
            var failed := id in a.subs && m.key in a.subs[id].interactions && failure.Some?;
            HandleResolved(a.(w := Receive(a.w)), m, accepted) ==
            if failed then Put(b, id, SendResult(AbortAll(Get(b, id)), failure.value)) else b
  {
    var m, r := a.w.queue[0], a.(w := Receive(a.w));
    var id := m.submission;
    if id in a.subs {
      if m.key in a.subs[id].interactions {
        var taken := TakeEntry(Get(r, id), m);
        var failure := ResolveFailure(m, accepted);
        if failure.Some? {
          PutTwice(r, id, taken, SendResult(AbortAll(taken), failure.value));
        }
      } else {
        assert Put(r, id, Get(r, id)) == r;
      }
    }
  }

  lemma ResolvedKeeps(a: Actor, accepted: bool)
    requires Inv(a) && a.w.queue != []
    ensures Keeps(a, HandleResolved(a.(w := Receive(a.w)), a.w.queue[0], accepted))
  {
    var m, b := a.w.queue[0], Taken(a);
    TakenKeeps(a);
    ResolvedIsTakenThenFailed(a, accepted);
    var failure := ResolveFailure(m, accepted);
    if m.submission in a.subs && m.key in a.subs[m.submission].interactions && failure.Some? {
      AbortAndSendKeeps(b, m.submission, failure.value);
      KeepsTwice(a, b, Put(b, m.submission, SendResult(AbortAll(Get(b, m.submission)), failure.value)));
    }
  }

  lemma RouteEventKeeps(a: Actor, id: string, ev: Event, accepted: bool)
    requires Inv(a)
    ensures Keeps(a, RouteEvent(a, id, ev, accepted))
  {
    if id in a.subs {
      var b := Put(a, id, DeliverEvent(Get(a, id), id, a.capable, ev, accepted));
      DeliverEventKeeps(a, id, ev, accepted);
      SameState(a, b, RouteEvent(a, id, ev, accepted));
    } else {
      EmittingKeeps(a, RouteEvent(a, id, ev, accepted));
    }
  }

  /** What an event does besides routing: nothing, asking the client, or approving at once. */
  ghost predicate IsRouted(a: Actor, o: Observed) {
    && !RepeatsGoal(a.session, o.event)
    && !o.event.RequestUserInput?
    && !(a.fullAccess && AutoApprovalFor(o.event).Some?)
  }

  lemma UnroutedEventEmits(a: Actor, id: string, o: Observed, accepted: bool)
    requires !IsRouted(a, o)
    ensures OnlyEmits(a, HandleEvent(a, id, o, accepted))
  {}

  lemma RoutedEvent(a: Actor, id: string, o: Observed, accepted: bool)
    requires IsRouted(a, o)
    ensures HandleEvent(a, id, o, accepted)
         == RouteEvent(a.(session := ApplyUpdates(a.session, StateUpdates(o))), id, o.event, accepted)
  {}

  lemma EventKeeps(a: Actor, id: string, o: Observed, accepted: bool)
    requires Inv(a)
    ensures Keeps(a, HandleEvent(a, id, o, accepted))
  {
    if IsRouted(a, o) {
      RoutedEvent(a, id, o, accepted);
      var b := a.(session := ApplyUpdates(a.session, StateUpdates(o)));
      EmittingKeeps(a, b);
      RouteEventKeeps(b, id, o.event, accepted);
      KeepsTwice(a, b, RouteEvent(b, id, o.event, accepted));
    } else {
      UnroutedEventEmits(a, id, o, accepted);
      EmittingKeeps(a, HandleEvent(a, id, o, accepted));
    }
  }

  // ---------------------------------------------------------------------------------------------
  // Losing a caller

  /** The invariant is kept, and a waiting caller is lost exactly when `lost` says so. */
  ghost predicate KeepsUnless(a: Actor, b: Actor, lost: bool) {
    && Inv(b)
    && Grows(a.w, b.w)
    && (Accounted(a.subs, a.w) ==> (Accounted(b.subs, b.w) <==> !lost))
  }

  predicate Waited(a: Actor, id: string) {
    id in a.subs && IsActive(a.subs[id].responses, a.w.open)
  }

  lemma ActiveMeansOpenSender(r: Responses, open: set<Sender>)
    ensures IsActive(r, open) <==> exists x :: x in Senders(r) && x in open
  {
    if r.primary.Some? {
      assert Senders(r)[0] == r.primary.value;
      assert Senders(r)[1..] == r.additional;
    } else {
      assert Senders(r) == r.additional;
    }
    forall x | x in Senders(r) && x in open ensures IsActive(r, open) {
      if x in r.additional {
        var i :| 0 <= i < |r.additional| && r.additional[i] == x;
      }
    }
  }

  lemma RetainKeeps(a: Actor, keep: set<string>)
    requires Inv(a)
    ensures KeepsUnless(a, Retain(a, keep), exists id :: id !in keep && Waited(a, id))
  {
    var b := Retain(a, keep);
    RetainKeepsTasks(a, keep);
    RetainKeepsSenders(a, keep);
    forall id | id in a.subs ensures Waited(a, id) <==> exists x :: x in HeldBy(a.subs, id) && x in a.w.open {
      ActiveMeansOpenSender(a.subs[id].responses, a.w.open);
    }
    forall id | id !in keep && Waited(a, id) ensures !Accounted(b.subs, b.w) {
      var x :| x in HeldBy(a.subs, id) && x in a.w.open;
      assert !WasSent(b.w.sent, x);
      forall id' | id' in b.subs ensures x !in HeldBy(b.subs, id') {
        assert HeldBy(b.subs, id') == HeldBy(a.subs, id');
      }
    }
  }

  /** The sweep drops only submissions nobody waits for. */
  lemma SweepKeeps(a: Actor)
    requires Inv(a)
    ensures Keeps(a, Sweep(a))
    ensures forall id :: id in Sweep(a).subs <==>
              id in a.subs && (Waited(a, id) || (a.slot.Some? && a.slot.value.submissionId == id))
  {
    RetainKeeps(a, Kept(a));
  }

  /** The actor after the submission got the sender of a new caller. */
  ghost function Joined(a: Actor, id: string): Actor
    requires id in a.subs
  {
    Put(Issue(a), id, AddSender(Get(Issue(a), id), a.w.issued))
  }

  lemma JoinedSenders(a: Actor, id: string)
    requires id in a.subs
    ensures HeldBy(Joined(a, id).subs, id) == HeldBy(a.subs, id) + [a.w.issued]
    ensures forall other :: other in a.subs && other != id ==> HeldBy(Joined(a, id).subs, other) == HeldBy(a.subs, other)
  {
    var r := a.subs[id].responses;
    var first := if r.primary.Some? then [r.primary.value] else [];
    assert first + (r.additional + [a.w.issued]) == first + r.additional + [a.w.issued];
  }

  lemma JoinedSendersOk(a: Actor, id: string)
    requires SendersOk(a.subs, a.w) && id in a.subs
    ensures SendersOk(Joined(a, id).subs, Joined(a, id).w)
  {
    var n, b := a.w.issued, Joined(a, id);
    JoinedSenders(a, id);
    NewSenderIsFresh(a);
    assert Distinct(HeldBy(b.subs, id)) by {
      assert n !in HeldBy(a.subs, id);
    }
    forall id', x | id' in a.subs && x in HeldBy(b.subs, id')
      ensures x in HeldBy(a.subs, id') || (id' == id && x == n)
    {}
    forall id', x | id' in b.subs && x in HeldBy(b.subs, id') ensures x < b.w.issued && !WasSent(b.w.sent, x) {}
  }

  lemma JoinedAccounted(a: Actor, id: string)
    requires Accounted(a.subs, a.w) && id in a.subs
    ensures Accounted(Joined(a, id).subs, Joined(a, id).w)
  {
    var n, b := a.w.issued, Joined(a, id);
    JoinedSenders(a, id);
    forall x | x in b.w.open ensures Held(b.subs, x) || WasSent(b.w.sent, x) {
      if x == n {
        assert x in HeldBy(b.subs, id);
      } else if Held(a.subs, x) {
        var id' :| id' in a.subs && x in HeldBy(a.subs, id');
        assert x in HeldBy(b.subs, id');
      }
    }
  }

  lemma AddSenderKeeps(a: Actor, id: string)
    requires Inv(a) && id in a.subs
    ensures Keeps(a, Joined(a, id))
  {
    JoinedSendersOk(a, id);
    if Accounted(a.subs, a.w) {
      JoinedAccounted(a, id);
    }
    TasksFrame(a.subs, Joined(a, id).subs, a.w.tasks);
  }

  lemma NewSenderIsFresh(a: Actor)
    requires SendersOk(a.subs, a.w)
    ensures !Held(a.subs, a.w.issued) && !WasSent(a.w.sent, a.w.issued)
  {
    forall id | id in a.subs ensures a.w.issued !in HeldBy(a.subs, id) {}
  }

  /** The actor with a submission under an unused id, holding the sender of a new prompt, if any. */
  ghost function WithNew(a: Actor, id: string, open: bool): Actor {
    var a' := if open then Issue(a) else a;
    a'.(subs := a'.subs[id := NewSubmission(if open then Some(a.w.issued) else None)])
  }

  lemma NewSubmissionSenders(a: Actor, id: string, open: bool)
    requires SendersOk(a.subs, a.w) && id !in a.subs
    ensures SendersOk(WithNew(a, id, open).subs, WithNew(a, id, open).w)
  {
    var b := WithNew(a, id, open);
    NewSenderIsFresh(a);
    assert HeldBy(b.subs, id) == if open then [a.w.issued] else [];
    forall id' | id' in a.subs ensures HeldBy(b.subs, id') == HeldBy(a.subs, id') {}
  }

  lemma NewSubmissionAccounts(a: Actor, id: string, open: bool)
    requires SendersOk(a.subs, a.w) && id !in a.subs
    ensures var b := WithNew(a, id, open); Accounted(a.subs, a.w) <==> Accounted(b.subs, b.w)
  {
    var n, b := a.w.issued, WithNew(a, id, open);
    assert HeldBy(b.subs, id) == if open then [n] else [];
    forall id' | id' in a.subs ensures HeldBy(b.subs, id') == HeldBy(a.subs, id') {}
    forall x | x != n ensures Held(a.subs, x) <==> Held(b.subs, x) {
      if Held(a.subs, x) {
        var id' :| id' in a.subs && x in HeldBy(a.subs, id');
        assert x in HeldBy(b.subs, id');
      }
    }
    if open {
      assert n in HeldBy(b.subs, id);
    }
  }

  lemma NewSubmissionTasks(a: Actor, id: string, open: bool)
    requires TasksOk(a.subs, a.w.tasks) && id !in a.subs
    ensures TasksOk(WithNew(a, id, open).subs, a.w.tasks)
  {
    forall t | 0 <= t < |a.w.tasks| && a.w.tasks[t].fate.Pending?
      ensures TaskHeld(WithNew(a, id, open).subs, t, a.w.tasks[t])
    {
      assert TaskHeld(a.subs, t, a.w.tasks[t]);
    }
  }

  lemma InsertIsRetainThenNew(a: Actor, id: string, open: bool)
    ensures var sub := NewSubmission(if open then Some(a.w.issued) else None);
            Insert(if open then Issue(a) else a, id, sub) == WithNew(Retain(a, a.subs.Keys - {id}), id, open)
  {}

  lemma KeepsUnlessThen(a: Actor, b: Actor, c: Actor, lost: bool)
    requires KeepsUnless(a, b, lost) && Inv(c) && Grows(b.w, c.w)
    requires Accounted(b.subs, b.w) <==> Accounted(c.subs, c.w)
    ensures KeepsUnless(a, c, lost)
  {}

  lemma InsertKeeps(a: Actor, id: string, open: bool)
    requires Inv(a)
    ensures var sub := NewSubmission(if open then Some(a.w.issued) else None);
            KeepsUnless(a, Insert(if open then Issue(a) else a, id, sub), Waited(a, id))
  {
    var keep := a.subs.Keys - {id};
    var b := Retain(a, keep);
    RetainKeeps(a, keep);
    assert (exists other :: other !in keep && Waited(a, other)) <==> Waited(a, id);
    NewSubmissionSenders(b, id, open);
    NewSubmissionAccounts(b, id, open);
    NewSubmissionTasks(b, id, open);
    InsertIsRetainThenNew(a, id, open);
    KeepsUnlessThen(a, b, WithNew(b, id, open), Waited(a, id));
  }

  // ---------------------------------------------------------------------------------------------
  // Prompts

  lemma EnsureSubmissionKeeps(a: Actor, id: string)
    requires Inv(a)
    ensures Keeps(a, EnsureSubmission(a, id)) && id in EnsureSubmission(a, id).subs
  {
    if id !in a.subs {
      InsertKeeps(a, id, false);
    }
  }

  lemma AnswersSubmittedKeeps(a: Actor, id: string, op: Op)
    requires Inv(a)
    ensures Keeps(a, SubmitOp(EnsureSubmission(a, id), op))
  {
    var b := EnsureSubmission(a, id);
    EnsureSubmissionKeeps(a, id);
    EmittingKeeps(b, SubmitOp(b, op));
    KeepsTwice(a, b, SubmitOp(b, op));
  }

  lemma JoinPendingKeeps(a: Actor, id: string)
    requires Inv(a) && id in a.subs
    ensures Keeps(a, Joined(a, id).(slot := None))
  {
    AddSenderKeeps(a, id);
    SameState(a, Joined(a, id), Joined(a, id).(slot := None));
  }

  lemma AnswerWithKeeps(a: Actor, p: PendingRequest, answers: Answers, accepted: bool)
    requires Inv(a)
    ensures Keeps(a, AnswerWith(a, p, answers, accepted).0)
  {
    var op := UserInputAnswer(p.turnId, answers);
    var b := SubmitOp(EnsureSubmission(a, p.submissionId), op);
    AnswersSubmittedKeeps(a, p.submissionId, op);
    if accepted {
      JoinPendingKeeps(b, p.submissionId);
      KeepsTwice(a, b, Joined(b, p.submissionId).(slot := None));
    }
  }

  lemma AnswerPendingKeeps(a: Actor, p: PendingRequest, text: string, accepted: bool)
    requires Inv(a)
    ensures Keeps(a, AnswerPending(a, p, text, accepted).0)
  {
    var parsed := ParseResponse(p.questions, text);
    if parsed.Ok? {
      AnswerWithKeeps(a, p, parsed.value, accepted);
    }
  }

  /** Whether the prompt starts a submission under an id in use by a waiting caller. */
  predicate Overwrites(a: Actor, p: PromptInput) {
    a.slot.None? && p.route.SubmittedAs? && Waited(a, p.route.id)
  }

  lemma AnsweredAtOnceKeeps(a: Actor, message: string)
    requires Inv(a)
    ensures Keeps(a, StartPrompt(a, Handled(message)).0)
  {
    var b := StartPrompt(a, Handled(message)).0;
    var n := a.w.issued;
    NewSenderIsFresh(a);
    SentOnceMore(a.w.sent, [n], Ok(EndTurn), n + 1);
    assert Deliveries([n], Ok(EndTurn)) == [Sent(n, Ok(EndTurn))];
    forall x ensures WasSent(b.w.sent, x) <==> WasSent(a.w.sent, x) || x == n {
      DeliveriesAreSent(a.w.sent, [n], Ok(EndTurn), x);
    }
    forall id | id in a.subs ensures HeldBy(b.subs, id) == HeldBy(a.subs, id) {}
  }

  lemma SubmissionIsInserted(a: Actor, id: string, op: Op)
    ensures var b := SubmitOp(a, op);
            && OnlyEmits(a, b) && Waited(b, id) == Waited(a, id)
            && StartPrompt(a, SubmittedAs(id, op)).0 == Insert(Issue(b), id, NewSubmission(Some(b.w.issued)))
  {}

  lemma SubmissionKeeps(a: Actor, id: string, op: Op)
    requires Inv(a)
    ensures KeepsUnless(a, StartPrompt(a, SubmittedAs(id, op)).0, Waited(a, id))
  {
    SubmissionIsInserted(a, id, op);
    EmittingKeeps(a, SubmitOp(a, op));
    InsertKeeps(SubmitOp(a, op), id, true);
  }

  lemma StartPromptKeeps(a: Actor, route: Route)
    requires Inv(a)
    ensures KeepsUnless(a, StartPrompt(a, route).0, route.SubmittedAs? && Waited(a, route.id))
  {
    match route
    case RefusedPrompt =>
    case Handled(message) => AnsweredAtOnceKeeps(a, message);
    case RefusedSubmit(op) => EmittingKeeps(a, SubmitOp(a, op));
    case SubmittedAs(id, op) => SubmissionKeeps(a, id, op);
  }

  lemma PromptKeeps(a: Actor, p: PromptInput)
    requires Inv(a)
    ensures KeepsUnless(a, HandlePrompt(a, p).0, Overwrites(a, p))
  {
    if a.slot.Some? {
      AnswerPendingKeeps(a, a.slot.value, p.text, p.answerAccepted);
    } else {
      StartPromptKeeps(a, p.route);
    }
  }

  /** A message or event that costs a waiting caller its answer. */
  ghost predicate LosesCaller(a: Actor, input: Input) {
    match input
    case Prompt(p) => Overwrites(a, p)
    case Steer(outcome, p) => outcome.NoActiveTurn? && Overwrites(a, p)
    case EventStreamFailed => exists id :: Waited(a, id)
    case _ => false
  }

  lemma AbortAndSubmitKeeps(a: Actor, op: Op)
    requires Inv(a)
    ensures Keeps(a, SubmitOp(AbortEverything(a), op))
  {
    var b := AbortEverything(a);
    AbortEverythingKeeps(a);
    EmittingKeeps(b, SubmitOp(b, op));
    KeepsTwice(a, b, SubmitOp(b, op));
  }

  lemma SteerKeeps(a: Actor, outcome: SteerOutcome, p: PromptInput)
    requires Inv(a)
    ensures KeepsUnless(a, Handle(a, Steer(outcome, p)), LosesCaller(a, Steer(outcome, p)))
  {
    PromptKeeps(a, p);
  }

  lemma ResultKeeps(a: Actor, accepted: bool)
    requires Inv(a)
    ensures Keeps(a, Handle(a, PermissionResolved(accepted)))
  {
    if a.w.queue != [] {
      ResolvedKeeps(a, accepted);
    }
  }

  lemma StreamFailureKeeps(a: Actor)
    requires Inv(a)
    ensures KeepsUnless(a, Handle(a, EventStreamFailed), LosesCaller(a, EventStreamFailed))
  {
    RetainKeeps(a, {});
    assert (exists id :: id !in {} && Waited(a, id)) <==> exists id :: Waited(a, id);
  }

  lemma SettingKeeps(a: Actor, input: Input)
    requires Inv(a)
    requires !input.Prompt? && !input.Steer? && !input.CancelTurn? && !input.ShutdownSession?
    requires !input.PermissionResolved? && !input.CodexEvent? && !input.EventStreamFailed?
    ensures Keeps(a, Handle(a, input))
  {
    assert OnlyEmits(a, Handle(a, input));
    EmittingKeeps(a, Handle(a, input));
  }

  /** Every message and event keeps the invariant, and these are the only ways to lose a caller. */
  lemma HandleKeeps(a: Actor, input: Input)
    requires Inv(a)
    ensures KeepsUnless(a, Handle(a, input), LosesCaller(a, input))
  {
    match input
    case Prompt(p) => PromptKeeps(a, p);
    case Steer(outcome, p) => SteerKeeps(a, outcome, p);
    case CancelTurn => AbortAndSubmitKeeps(a, Interrupt);
    case ShutdownSession => AbortAndSubmitKeeps(a, Shutdown);
    case PermissionResolved(accepted) => ResultKeeps(a, accepted);
    case CodexEvent(id, o, accepted) => EventKeeps(a, id, o, accepted);
    case EventStreamFailed => StreamFailureKeeps(a);
    case _ => SettingKeeps(a, input);
  }

  lemma EndOfTurnKeeps(a: Actor, dropped: set<Sender>)
    requires Inv(a)
    ensures Keeps(a, EndOfTurn(a, dropped))
  {
    if !a.status.EventStreamLost? {
      var b := a.(w := DropReceivers(a.w, dropped));
      DropReceiversKeeps(a, dropped);
      SweepKeeps(b);
      KeepsTwice(a, b, Sweep(b));
      SameState(a, Sweep(b), EndOfTurn(a, dropped));
    }
  }

  /** The invariant is kept, and no waiting caller is lost unless `lost` says so. */
  ghost predicate KeepsAtLeast(a: Actor, b: Actor, lost: bool) {
    Inv(b) && Grows(a.w, b.w) && (!lost && Accounted(a.subs, a.w) ==> Accounted(b.subs, b.w))
  }

  lemma KeepsAfter(a: Actor, b: Actor, c: Actor, lost: bool)
    requires KeepsUnless(a, b, lost) && Keeps(b, c)
    ensures KeepsAtLeast(a, c, lost)
  {}

  lemma TurnKeeps(a: Actor, input: Input, dropped: set<Sender>)
    requires Inv(a)
    ensures KeepsAtLeast(a, Turn(a, input, dropped), LosesCaller(a, input))
  {
    if a.status.Running? {
      var b := Handle(a, input);
      HandleKeeps(a, input);
      EndOfTurnKeeps(b, dropped);
      KeepsAfter(a, b, EndOfTurn(b, dropped), LosesCaller(a, input));
    }
  }

  ghost predicate StepLosesCaller(a: Actor, step: Step) {
    step.ActorTurn? && a.status.Running? && LosesCaller(a, step.input)
  }

  lemma NextKeeps(a: Actor, step: Step)
    requires Inv(a)
    ensures KeepsAtLeast(a, Next(a, step), StepLosesCaller(a, step))
  {
    match step
    case ActorTurn(input, dropped) => TurnKeeps(a, input, dropped);
    case ReceiversDropped(dropped) => DropReceiversKeeps(a, dropped);
    case ClientReply(t, response) => ClientRepliesKeeps(a, t, response);
    case TaskSend(t) => TaskSendsKeeps(a, t);
  }
}
