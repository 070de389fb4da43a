/** How often a task is retried: every nack counts once, from the entry that created the task on,
    and the one that reaches the limit dead-letters it (broker/statemachine.go, broker/broker.go). */
module QueueRetries {
  import opened Tasks
  import opened RaftLog
  import opened QueueView
  import opened QueueMachine
  import opened QueueHeap
  import opened WalCodec
  import B = BrokerModel

  predicate NacksId(command: Command, id: string) {
    command.Some? && command.value.kind == OP_NACK && command.value.taskId == id
  }

  predicate CreatesId(v: View, command: Command, id: string) {
    Creates(v, command) && command.value.task.value.id == id
  }

  /** The task of the last entry that created one under `id`. */
  function Origin(maxRetries: int, log: Log, id: string): Option<Task> {
    if log == [] then None
    else
      var rest, command := log[..|log| - 1], log[|log| - 1].command;
      if CreatesId(Fold(maxRetries, rest), command, id) then command.value.task else Origin(maxRetries, rest, id)
  }

  /** How many nacks of `id` have come since. */
  function NacksSince(maxRetries: int, log: Log, id: string): nat {
    if log == [] then 0
    else
      var rest, command := log[..|log| - 1], log[|log| - 1].command;
      if CreatesId(Fold(maxRetries, rest), command, id) then 0
      else NacksSince(maxRetries, rest, id) + if NacksId(command, id) then 1 else 0
  }

  /** A live task is the one that was enqueued, with one retry for each nack since, and after a
      nack it is below the limit. */
  ghost predicate Counted(maxRetries: int, log: Log, id: string) {
    var v, origin, nacks := Fold(maxRetries, log), Origin(maxRetries, log, id), NacksSince(maxRetries, log, id);
    id in v.live ==>
      && origin.Some?
      && v.live[id] == origin.value.(status := Pending, deadline := 0, retryCount := origin.value.retryCount + nacks)
      && (nacks == 0 || origin.value.retryCount + nacks < maxRetries)
  }

  /** Retries are counted exactly, for every log. */
  lemma {:induction false} RetriesCounted(maxRetries: int, log: Log, id: string)
    ensures Counted(maxRetries, log, id)
  {
    if log != [] {
      RetriesCounted(maxRetries, log[..|log| - 1], id);
    }
  }

  /** The limit is exact: the nack that makes the retries reach it moves the task to the dead
      letters, and every nack before leaves it live. */
  lemma LimitIsExact(maxRetries: int, log: Log, e: Entry, id: string)
    requires NacksId(e.command, id) && id in Fold(maxRetries, log).live
    ensures var origin, nacks := Origin(maxRetries, log, id), NacksSince(maxRetries, log, id);
            var v, v' := Fold(maxRetries, log), Fold(maxRetries, log + [e]);
            && origin.Some?
            && var t := origin.value.(
                          status := Pending, deadline := 0, retryCount := origin.value.retryCount + nacks + 1);
               if origin.value.retryCount + nacks + 1 >= maxRetries
               then id !in v'.live && v'.dlq == v.dlq + [t] && v'.acked == v.acked
               else v'.live == v.live[id := t] && v'.dlq == v.dlq && v'.acked == v.acked
  {
    RetriesCounted(maxRetries, log, id);
    assert (log + [e])[..|log|] == log;
  }

  /** What a nack does on a replica with a complete heap: the counter of nacks rises, and the task
      is pending again with an entry in the heap, or the last dead letter. */
  lemma NackOnReplica(m: Machine, op: QueueOp)
    requires HeapOk(m) && op.kind == OP_NACK && op.taskId in m.tasks
    ensures var m', t := Apply(m, op), m.tasks[op.taskId].task;
            && HeapOk(m') && m'.nacked == m.nacked + 1
            && if t.retryCount + 1 >= m.maxRetries
               then op.taskId !in m'.tasks && m'.dlq == m.dlq + [t.(retryCount := t.retryCount + 1, status := Dead)]
               else
                 && IsPending(m', op.taskId) && ItemOf(m'.tasks[op.taskId]) in m'.heap && m'.dlq == m.dlq
                 && m'.tasks[op.taskId].task == t.(retryCount := t.retryCount + 1, status := Pending, deadline := 0)
  {
    hide HeapOk;
    ApplyHeapOk(m, op);
    PendingHasEntry(Apply(m, op), op.taskId);
  }

  lemma PendingHasEntry(m: Machine, id: string)
    requires HeapOk(m)
    ensures IsPending(m, id) ==> ItemOf(m.tasks[id]) in m.heap
  {
  }

  // ---------------------------------------------------------------- the broker's log

  /** The task of the last enqueue record for `id`, and the nack records since. */
  function Logged(log: seq<LogEntry>, id: string): (Option<Task>, nat) {
    if log == [] then (None, 0)
    else
      var rest, e := log[..|log| - 1], log[|log| - 1];
      if e.op == OP_ENQUEUE && e.task.Some? && e.task.value.id == id then (e.task, 0)
      else
        var (t, nacks) := Logged(rest, id);
        (t, if e.op == OP_NACK && e.taskId == id then nacks + 1 else nacks)
  }

  /** Replaying a log gives every live task the retry count of its enqueue record and one more for
      each nack record since, as pending and without a deadline. */
  lemma {:induction false} ReplayCountsRetries(log: seq<LogEntry>, id: string)
    ensures id in B.Recover(log).live ==>
              var (t, nacks) := Logged(log, id);
              && t.Some?
              && B.Recover(log).live[id]
                 == t.value.(status := Pending, deadline := 0, retryCount := t.value.retryCount + nacks)
  {
    if log != [] {
      ReplayCountsRetries(log[..|log| - 1], id);
    }
  }

  /** Replayed dead letters are marked dead. */
  lemma {:induction false} ReplayMarksDead(log: seq<LogEntry>)
    ensures forall i :: 0 <= i < |B.Recover(log).dlq| ==> B.Recover(log).dlq[i].status == Dead
  {
    if log != [] {
      ReplayMarksDead(log[..|log| - 1]);
      var before := B.Recover(log[..|log| - 1]).dlq;
      assert forall i :: 0 <= i < |before| ==> B.Recover(log).dlq[i] == before[i];
    }
  }
}
