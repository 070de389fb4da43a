/** What becomes of an enqueued task along a log of commands: it stays, live or dead-lettered,
    until an entry acks it (broker/statemachine.go). */
module QueueFate {
  import opened Tasks
  import opened RaftLog
  import opened QueueView
  import opened QueueMachine

  predicate AcksId(command: Command, id: string) {
    command.Some? && command.value.kind == OP_ACK && command.value.taskId == id
  }

  /** Some entry after index `from`, up to index `end`, acks `id`. */
  ghost predicate AckedBetween(log: Log, from: nat, end: nat, id: string) {
    exists j :: from <= j < end <= |log| && AcksId(log[j].command, id)
  }

  /** The queue has the task, with its payload, priority and age, live or dead-lettered. */
  ghost predicate Has(v: View, t: Task) {
    (t.id in v.live && Plain(v.live[t.id]) == Plain(t)) || Among(v.dlq, t)
  }

  ghost predicate MachineHas(m: Machine, t: Task) {
    (t.id in m.tasks && Plain(m.tasks[t.id].task) == Plain(t)) || Among(m.dlq, t)
  }

  /** Nothing but an ack of its id takes a task away. */
  lemma HasNext(v: View, retries: int, command: Command, t: Task)
    requires Has(v, t) && !AcksId(command, t.id)
    ensures Has(ApplyCommand(v, retries, command), t)
  {
    hide Among;
    if command.Some? && command.value.kind == OP_NACK && command.value.taskId in v.live {
      var x := v.live[command.value.taskId];
      AmongAppend(v.dlq, x.(retryCount := x.retryCount + 1), t);
    }
  }

  lemma {:induction false} HasUntilAcked(retries: int, log: Log, from: nat, end: nat, t: Task)
    requires from <= end <= |log| && Has(Fold(retries, log[..from]), t)
    ensures Has(Fold(retries, log[..end]), t) || AckedBetween(log, from, end, t.id)
    decreases end
  {
    hide Fold, Has, ApplyCommand;
    if from < end {
      HasUntilAcked(retries, log, from, end - 1, t);
      if AckedBetween(log, from, end - 1, t.id) {
        var j :| from <= j < end - 1 && AcksId(log[j].command, t.id);
        assert AckedBetween(log, from, end, t.id);
      } else if AcksId(log[end - 1].command, t.id) {
        assert AckedBetween(log, from, end, t.id);
      } else {
        FoldNext(retries, log, end - 1);
        HasNext(Fold(retries, log[..end - 1]), retries, log[end - 1].command, t);
      }
    }
  }

  /** The command asks to enqueue a task under a proper id. */
  predicate AsksFor(command: Command) {
    && command.Some? && command.value.kind == OP_ENQUEUE
    && command.value.task.Some? && command.value.task.value.id != ""
  }

  /** The enqueue at `index` is honoured at position `end`: when it was applied its id was live,
      with the enqueued task unless the call was a retry for an id that was live before, and that
      task is still there or an entry in between acked it. */
  ghost predicate Honoured(retries: int, log: Log, index: nat, end: nat, m: Machine)
    requires 0 < index <= end <= |log| && AsksFor(log[index - 1].command)
  {
    var t := log[index - 1].command.value.task.value;
    var live := Fold(retries, log[..index]).live;
    && t.id in live && live[t.id].id == t.id
    && (Creates(Fold(retries, log[..index - 1]), log[index - 1].command) ==> Plain(live[t.id]) == Plain(t))
    && (MachineHas(m, live[t.id]) || AckedBetween(log, index, end, t.id))
  }

  lemma {:induction false} FoldKeyed(retries: int, log: Log)
    ensures forall id :: id in Fold(retries, log).live ==> Fold(retries, log).live[id].id == id
  {
    if log != [] {
      FoldKeyed(retries, log[..|log| - 1]);
    }
  }

  lemma ViewHas(m: Machine, t: Task)
    ensures Has(ViewOf(m), t) <==> MachineHas(m, t)
  {
    var v := ViewOf(m);
    assert forall i :: 0 <= i < |m.dlq| ==> v.dlq[i] == Core(m.dlq[i]) && Plain(v.dlq[i]) == Plain(m.dlq[i]);
    if Among(m.dlq, t) {
      var i :| 0 <= i < |m.dlq| && Plain(m.dlq[i]) == Plain(t);
      assert Plain(v.dlq[i]) == Plain(t);
    }
  }

  /** Every enqueue of a log is honoured at every later position. */
  lemma EnqueueHonoured(retries: int, log: Log, index: nat, end: nat, m: Machine)
    requires 0 < index <= end <= |log| && AsksFor(log[index - 1].command)
    requires ViewOf(m) == Fold(retries, log[..end])
    ensures Honoured(retries, log, index, end, m)
  {
    hide Among, ViewOf, Fold;
    FoldNext(retries, log, index - 1);
    FoldKeyed(retries, log[..index]);
    var t := log[index - 1].command.value.task.value;
    var kept := Fold(retries, log[..index]).live[t.id];
    HasUntilAcked(retries, log, index, end, kept);
    ViewHas(m, kept);
  }
}
