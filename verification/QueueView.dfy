/** The replicated meaning of the queue: what every replica must agree on. Delivery status,
    deadlines and the nack counter are local to a replica and do not appear. */
module QueueView {
  import opened Tasks
  import opened RaftLog

  datatype View = View(live: map<string, Task>, dlq: seq<Task>, acked: int)

  const EMPTY := View(map[], [], 0)

  function Enqueued(v: View, task: Option<Task>): View {
    if task.None? || task.value.id == "" || task.value.id in v.live then v
    else v.(live := v.live[task.value.id := Core(task.value)])
  }

  function Acked(v: View, id: string): View {
    if id !in v.live then v else v.(live := v.live - {id}, acked := v.acked + 1)
  }

  function Nacked(v: View, maxRetries: int, id: string): View {
    if id !in v.live then v
    else
      var t := v.live[id].(retryCount := v.live[id].retryCount + 1);
      if t.retryCount >= maxRetries then v.(live := v.live - {id}, dlq := v.dlq + [t])
      else v.(live := v.live[id := t])
  }

  function ApplyOp(v: View, maxRetries: int, op: QueueOp): View {
    if op.kind == OP_ENQUEUE then Enqueued(v, op.task)
    else if op.kind == OP_ACK then Acked(v, op.taskId)
    else if op.kind == OP_NACK then Nacked(v, maxRetries, op.taskId)
    else v
  }

  function ApplyCommand(v: View, maxRetries: int, command: Command): View {
    match command
    case None => v
    case Some(op) => ApplyOp(v, maxRetries, op)
  }

  /** The command creates a task. */
  predicate Creates(v: View, command: Command) {
    && command.Some? && command.value.kind == OP_ENQUEUE
    && command.value.task.Some? && command.value.task.value.id != "" && command.value.task.value.id !in v.live
  }

  /** The command changes the queue. */
  predicate TakesEffect(v: View, command: Command) {
    || Creates(v, command)
    || (command.Some? && command.value.kind in {OP_ACK, OP_NACK} && command.value.taskId in v.live)
  }

  /** The queue after the commands of `log`, in order. */
  function Fold(maxRetries: int, log: Log): View {
    if log == [] then EMPTY
    else ApplyCommand(Fold(maxRetries, log[..|log| - 1]), maxRetries, log[|log| - 1].command)
  }

  /** One more entry, one more application. */
  lemma FoldNext(maxRetries: int, log: Log, i: nat)
    requires i < |log|
    ensures Fold(maxRetries, log[..i + 1]) == ApplyCommand(Fold(maxRetries, log[..i]), maxRetries, log[i].command)
  {
    assert log[..i + 1][..i] == log[..i];
  }

  /** A snapshot as a queue writes it: every task once, and pending. */
  ghost predicate Neat(d: SnapshotState) {
    && (forall i :: 0 <= i < |d.tasks| ==> d.tasks[i].status == Pending)
    && (forall i, j :: 0 <= i < j < |d.tasks| ==> d.tasks[i].id != d.tasks[j].id)
  }

  /** What a serialized snapshot stands for. */
  ghost predicate Stands(d: SnapshotState, v: View) {
    && (forall i :: 0 <= i < |d.tasks| ==> d.tasks[i].id in v.live && v.live[d.tasks[i].id] == Core(d.tasks[i]))
    && (forall id :: id in v.live ==> exists i :: 0 <= i < |d.tasks| && d.tasks[i].id == id)
    && Cores(d.dlq) == v.dlq
    && d.acked == v.acked
  }
}
