/**
 The actor's surroundings: one-shot answer channels, detached permission tasks racing with the
 actor, the queue of their results, and the operations and updates the actor has emitted.
 */
module Runtime {
  import opened Wrappers
  import opened Approval
  import opened Events

  type Sender = nat
  type TaskId = nat

  datatype StopReason = EndTurn | Cancelled

  type PromptResult = Result<StopReason, string>

  /** An answer handed to the receiver of a prompt. */
  datatype Sent = Sent(sender: Sender, result: PromptResult)

  datatype Response = Replied(outcome: Outcome) | RequestFailed(error: string)

  /**
   How far a permission task got. A task whose client has answered can still send its result after
   it is aborted; one that is still waiting cannot.
   */
  datatype Phase = Waiting | Responded(response: Response) | Queued | Consumed | Stopped

  /** What became of the interaction this belongs to. */
  datatype Fate = Pending | Resolved | Failed | Aborted | Replaced | Dropped

  datatype Task = Task(submission: string, key: string, phase: Phase, fate: Fate)

  /** A queued result. Its task id is for the proofs: the actor reads only the other fields. */
  datatype Resolution = Resolution(submission: string, key: string, response: Response, task: TaskId)

  /** An operation submitted to Codex: the interaction it answers and the queued result that caused it. */
  datatype Submitted = Submitted(op: Op, entry: Option<TaskId>, via: Option<TaskId>)

  datatype ClientUpdate = ClientUpdate(submission: Option<string>, update: Update)

  datatype World = World(
    open: set<Sender>, issued: nat, sent: seq<Sent>,
    tasks: seq<Task>, queue: seq<Resolution>,
    ops: seq<Submitted>, shown: seq<ClientUpdate>)

  const START := World({}, 0, [], [], [], [], [])

  function Deliveries(senders: seq<Sender>, result: PromptResult): (r: seq<Sent>)
    ensures |r| == |senders|
    ensures forall i :: 0 <= i < |r| ==> r[i] == Sent(senders[i], result)
  {
    seq(|senders|, i requires 0 <= i < |senders| => Sent(senders[i], result))
  }

  /** Aborting a task stops it only while it waits for the client. */
  function Settle(task: Task, fate: Fate): Task {
    var stops := (fate.Aborted? || fate.Replaced?) && task.phase.Waiting?;
    task.(fate := fate, phase := if stops then Stopped else task.phase)
  }

  function SettleAll(tasks: seq<Task>, ids: set<TaskId>, fate: Fate): (r: seq<Task>)
    ensures |r| == |tasks|
    ensures forall t :: 0 <= t < |tasks| ==> r[t] == if t in ids then Settle(tasks[t], fate) else tasks[t]
  {
    seq(|tasks|, t requires 0 <= t < |tasks| => if t in ids then Settle(tasks[t], fate) else tasks[t])
  }

  function Tagged(submission: Option<string>, updates: seq<Update>): seq<ClientUpdate> {
    seq(|updates|, i requires 0 <= i < |updates| => ClientUpdate(submission, updates[i]))
  }

  predicate MayDeliver(phase: Phase) {
    phase.Waiting? || phase.Responded? || phase.Queued?
  }

  // ---------------------------------------------------------------------------------------------
  // What the surroundings do on their own

  /** A caller drops the receivers of its prompts. */
  function DropReceivers(w: World, dropped: set<Sender>): World {
    w.(open := w.open - dropped)
  }

  /** The client answers a permission request. */
  function ClientReplies(w: World, t: TaskId, response: Response): World {
    if t < |w.tasks| && w.tasks[t].phase.Waiting?
    then w.(tasks := w.tasks[t := w.tasks[t].(phase := Responded(response))])
    else w
  }

  /** A task that has its answer queues it for the actor. */
  function TaskSends(w: World, t: TaskId): World {
    if t < |w.tasks| && w.tasks[t].phase.Responded? then
      var task := w.tasks[t];
      w.(tasks := w.tasks[t := task.(phase := Queued)],
         queue := w.queue + [Resolution(task.submission, task.key, task.phase.response, t)])
    else w
  }

  /** The actor takes the first queued result. */
  function Receive(w: World): World
    requires w.queue != []
  {
    var t := w.queue[0].task;
    w.(queue := w.queue[1..],
       tasks := if t < |w.tasks| then w.tasks[t := w.tasks[t].(phase := Consumed)] else w.tasks)
  }
}
