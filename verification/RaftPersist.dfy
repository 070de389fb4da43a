/** A crash between the two renames that store a snapshot (raft/persist.go): the new snapshot
    file is in place while the state file still describes the old log. */
module RaftPersist {
  import opened Tasks
  import opened RaftLog
  import opened QueueView
  import opened QueueMachine
  import opened RaftStep
  import opened RaftCluster

  /** The disk after the first rename only. */
  function Torn(d: Disk, data: SnapshotState): Disk {
    d.(snapshot := Some(data))
  }

  /** The server after a restart, once it has restored the snapshot found on disk. */
  function Reloaded(n: Node, retries: int): Proc
    requires n.pending.Some?
  {
    var p := PendingTaken(StartProc(n, retries));
    SnapshotConsumed(p.(applier := Idle, channel := [SnapshotMsg(p.applier.install)]))
  }

  // ---------------------------------------------------------------- the queue never goes back

  /** `v'` acked and buried at least as much as `v`, and if no more than that, it still has all
      of its tasks with at least as many retries. */
  ghost predicate NotBehind(v: View, v': View) {
    && v.acked <= v'.acked && |v.dlq| <= |v'.dlq|
    && (v.acked == v'.acked && |v.dlq| == |v'.dlq| ==>
          forall id :: id in v.live ==> id in v'.live && v.live[id].retryCount <= v'.live[id].retryCount)
  }

  lemma CommandAdvances(v: View, retries: int, command: Command)
    ensures var v' := ApplyCommand(v, retries, command);
            && NotBehind(v, v')
            && (TakesEffect(v, command) ==> !NotBehind(v', v)) && (!TakesEffect(v, command) ==> v' == v)
  {
    var v' := ApplyCommand(v, retries, command);
    if TakesEffect(v, command) {
      var op := command.value;
      if op.kind == OP_ENQUEUE {
        assert op.task.value.id in v'.live;
      } else if op.kind == OP_NACK && op.taskId in v'.live {
        assert v'.live[op.taskId].retryCount == v.live[op.taskId].retryCount + 1;
      }
    }
  }

  lemma {:induction false} LaterNotBehind(retries: int, log: Log, a: nat, b: nat)
    requires a <= b <= |log|
    ensures NotBehind(Fold(retries, log[..a]), Fold(retries, log[..b]))
    decreases b - a
  {
    hide Fold;
    if a < b {
      LaterNotBehind(retries, log, a, b - 1);
      FoldNext(retries, log, b - 1);
      hide ApplyCommand;
      CommandAdvances(Fold(retries, log[..b - 1]), retries, log[b - 1].command);
    }
  }

  /** The queue is the same at two positions of the log exactly when no command between them
      takes effect: it never returns to a state it has left. */
  lemma {:induction false} SameQueueExactly(retries: int, log: Log, a: nat, b: nat)
    requires a <= b <= |log|
    ensures Fold(retries, log[..a]) == Fold(retries, log[..b]) <==>
            forall i :: a <= i < b ==> !TakesEffect(Fold(retries, log[..i]), log[i].command)
    decreases b - a
  {
    hide Fold, ApplyCommand, TakesEffect, NotBehind;
    if a < b {
      var v, v', w := Fold(retries, log[..a]), Fold(retries, log[..a + 1]), Fold(retries, log[..b]);
      SameQueueExactly(retries, log, a + 1, b);
      FoldNext(retries, log, a);
      CommandAdvances(v, retries, log[a].command);
      LaterNotBehind(retries, log, a + 1, b);
    }
  }

  // ---------------------------------------------------------------- the torn restart

  /** The restart never meets a log that starts after the snapshot. But it takes the snapshot
      for the state at the old log's start, which is right exactly when none of the entries in
      between, which will now be applied again, takes effect. */
  lemma TornRestartExactly(id: Id, peers: set<Id>, d: Disk, log: Log, index: nat, data: SnapshotState, retries: int)
    requires |d.log| > 0 && First(d.log) < index <= |log| && Stands(data, Fold(retries, log[..index]))
    ensures var first := First(d.log);
            var server := Reloaded(Recover(id, peers, Torn(d, data)), retries).server;
            && server.position == first
            && (ViewOf(server.machine) == Fold(retries, log[..first]) <==>
                forall i :: first <= i < index ==> !TakesEffect(Fold(retries, log[..i]), log[i].command))
  {
    hide Fold, Stands, ViewOf, Restore, TakesEffect;
    SameQueueExactly(retries, log, First(d.log), index);
    RestoreYields(NewMachine(retries), data, Fold(retries, log[..index]));
  }

  /** A first leader's no-op, and a task that is enqueued and acked. */
  function EnqueuedAndAcked(t: Task): Log {
    [Entry(1, 1, None), Entry(2, 1, Some(QueueOp(OP_ENQUEUE, Some(t), ""))),
     Entry(3, 1, Some(QueueOp(OP_ACK, None, t.id)))]
  }

  lemma AckedOnce(t: Task, retries: int)
    requires t.id != ""
    ensures Fold(retries, EnqueuedAndAcked(t)) == View(map[], [], 1)
  {
    var log := EnqueuedAndAcked(t);
    FoldNext(retries, log, 0);
    FoldNext(retries, log, 1);
    FoldNext(retries, log, 2);
    assert log[..0] == [] && log[..3] == log;
  }

  /** One task enqueued and acked in the gap: the restarted replica has the ack before the
      entries, and counts it again when it applies them. */
  lemma AckCountedTwice(id: Id, peers: set<Id>, t: Task, retries: int)
    requires t.id != ""
    ensures var log := EnqueuedAndAcked(t);
            var data, d := SnapshotState([], [], 1), Disk(1, id, [Entry(0, 0, None)] + log, None);
            var m := Reloaded(Recover(id, peers, Torn(d, data)), retries).server.machine;
            && Stands(data, Fold(retries, log)) && Fold(retries, log).acked == 1
            && Apply(Apply(m, log[1].command.value), log[2].command.value).acked == 2
  {
    hide Fold;
    AckedOnce(t, retries);
    RestoreYields(NewMachine(retries), SnapshotState([], [], 1), Fold(retries, EnqueuedAndAcked(t)));
  }
}
