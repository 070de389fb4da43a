/** What the durable broker promises, for every run: any interleaving of clients, sync leaders
    and compactions, any failed fsync, any number of crashes. */
module BrokerTheorems {
  import opened Tasks
  import opened WalCodec
  import opened BrokerModel
  import opened BrokerSystem
  import opened BrokerDurability

  /** What a restart would rebuild if the first `size` bytes of the file survived. */
  ghost function AfterCrash(c: Codec, s: System, size: nat): Recovered
    requires size <= |File(c, s)|
  {
    Recover(ReplayAll(c, File(c, s)[..size]).entries)
  }

  /** What an answered call is remembered by: an enqueue that returned success is owed, and an
      ack that returned success is gone, unless a later record about the id was logged. */
  ghost predicate Booked(s: System, call: Call) {
    call.pc == Returned(true) && !call.superseded ==>
      (call.kind.EnqueueCall? ==> call.kind.task in s.owed) && (call.kind.AckCall? ==> call.id in s.gone)
  }

  ghost predicate AllBooked(s: System) {
    && (forall j :: 0 <= j < |s.calls| ==> Booked(s, s.calls[j]))
    && (forall j :: 0 <= j < |s.calls| && s.calls[j].kind.EnqueueCall? ==> s.calls[j].kind.task.id == s.calls[j].id)
  }

  lemma NextBooked(c: Codec, s: System, s': System, step: Step)
    requires AllBooked(s) && Next(c, s, s', step)
    ensures AllBooked(s')
  {
    hide EncodeAll, AllWritable, Recover, Rebuilt, Lists, Fresh, Writable, First, Enqueued, Requeued, Compacted;
    forall j | 0 <= j < |s'.calls| ensures Booked(s', s'.calls[j]) {
      assert j < |s.calls| ==> Booked(s, s.calls[j]);
    }
  }

  /** Every call that returned success is accounted for in every run: the promises that
      at-least-once delivery speaks of are all those the clients were given. */
  lemma {:induction false} AnsweredIsOwed(c: Codec, run: seq<System>, i: nat)
    requires IsRun(c, run) && i < |run|
    ensures AllBooked(run[i])
    decreases i
  {
    hide Next, AllBooked;
    if i == 0 {
      NothingBooked(run[0]);
    } else {
      AnsweredIsOwed(c, run, i - 1);
      assert StepAt(c, run, i - 1);
      var step :| Next(c, run[i - 1], run[i], step);
      NextBooked(c, run[i - 1], run[i], step);
    }
  }

  lemma NothingBooked(s: System)
    requires Init(s)
    ensures AllBooked(s)
  {
  }

  /** At-least-once delivery: at every moment of every run and for every crash that keeps at
      least the durable bytes, each task whose enqueue returned success and whose ack was not
      logged comes back as pending or dead, with its payload, priority and age, and no task whose
      ack returned success comes back. */
  lemma AtLeastOnce(c: Codec, run: seq<System>, i: nat, size: nat)
    requires c.Valid() && IsRun(c, run) && i < |run|
    requires run[i].durable <= size <= |File(c, run[i])|
    ensures forall t :: t in run[i].owed ==> HoldsTask(AfterCrash(c, run[i], size), t)
    ensures forall id :: id in run[i].gone ==> !Holds(AfterCrash(c, run[i], size), id)
  {
    hide IsRun, EncodeAll, AllWritable, Recover, Recovers, Distinct, ReplayAll, Holds, HoldsTask;
    RunInv(c, run, i);
    var s := run[i];
    var from := Position(s, s.syncedSeq);
    PositionBound(c, s, s.syncedSeq);
    var k := CrashKeepsPrefix(c, s.log, from, size);
    forall t | t in s.owed ensures HoldsTask(AfterCrash(c, s, size), t) {
      assert TaskThere(s.log, k, t);
    }
    forall id | id in s.gone ensures !Holds(AfterCrash(c, s, size), id) {
      assert !There(s.log, k, id);
    }
  }

  /** The recovery invariant: at every moment, replaying the written log yields exactly the
      pending and in-flight tasks as pending, with their retry counts, and the dead letters in
      order; and no task id is in two places. */
  lemma LogMirrorsState(c: Codec, run: seq<System>, i: nat)
    requires c.Valid() && IsRun(c, run) && i < |run|
    ensures Recovers(run[i].broker, ReplayAll(c, File(c, run[i])).entries)
    ensures ReplayAll(c, File(c, run[i])).valid == |File(c, run[i])|
    ensures Distinct(run[i].broker)
  {
    hide IsRun, EncodeAll, AllWritable, Recover, Recovers, Distinct, ReplayAll;
    RunInv(c, run, i);
    var s := run[i];
    assert s.log[..|s.log|] == s.log;
    var k := CrashKeepsPrefix(c, s.log, |s.log|, |File(c, s)|);
    assert File(c, s)[..|File(c, s)|] == File(c, s);
  }

  // ---------------------------------------------------------------- crashes as rollbacks

  /** Call `b` is call `a` at another moment. */
  predicate SameCall(a: Call, b: Call) {
    a.kind == b.kind && a.id == b.id && a.record == b.record
  }

  /** The calls of one process, numbered by the records they wrote. */
  ghost predicate Counted(s: System) {
    |s.calls| == s.writeSeq && forall l :: 0 <= l < |s.calls| ==> s.calls[l].record == l + 1
  }

  ghost predicate CallsGrow(s: System, s': System) {
    |s.calls| <= |s'.calls| && forall l :: 0 <= l < |s.calls| ==> SameCall(s.calls[l], s'.calls[l])
  }

  lemma NextCounted(c: Codec, s: System, s': System, step: Step)
    requires Counted(s) && Next(c, s, s', step)
    ensures Counted(s') && s.epoch <= s'.epoch && (s'.epoch == s.epoch ==> CallsGrow(s, s'))
  {
    hide EncodeAll, AllWritable, Recover, Rebuilt, Lists, Fresh, Writable, First, Enqueued, Requeued, Compacted;
  }

  lemma {:induction false} RunCounted(c: Codec, run: seq<System>, j: nat, i: nat)
    requires IsRun(c, run) && j <= i < |run|
    ensures Counted(run[j]) && Counted(run[i])
    ensures run[j].epoch <= run[i].epoch && (run[j].epoch == run[i].epoch ==> CallsGrow(run[j], run[i]))
    decreases i
  {
    hide Next;
    if i > 0 {
      RunCounted(c, run, if j < i then j else i - 1, i - 1);
      assert StepAt(c, run, i - 1);
      var step :| Next(c, run[i - 1], run[i], step);
      NextCounted(c, run[i - 1], run[i], step);
    }
  }

  /** A step appends at most one entry, or replaces the whole log. */
  lemma StepKeepsLog(c: Codec, s: System, s': System, step: Step)
    requires Next(c, s, s', step)
    ensures || |s'.log| == s'.base
            || (s'.base == s.base && s'.baseSeq == s.baseSeq && s'.epoch == s.epoch
                && s.log <= s'.log && |s'.log| <= |s.log| + 1)
  {
    hide EncodeAll, AllWritable, Recover, Rebuilt, Lists, Fresh, Writable, First, Enqueued, Requeued, Compacted;
  }

  /** Moment `j` of the same process is what the first `k` entries of the file say. */
  ghost predicate WrittenAt(run: seq<System>, i: nat, k: nat, j: nat)
    requires j <= i < |run| && run[i].base <= k <= |run[i].log|
  {
    && run[j].epoch == run[i].epoch
    && run[j].writeSeq == run[i].baseSeq + (k - run[i].base)
    && Recovers(run[j].broker, run[i].log[..k])
  }

  /** Every prefix of the file, from the last rewrite on, is what the file was at some moment. */
  lemma {:induction false} PrefixWasWritten(c: Codec, run: seq<System>, i: nat, k: nat) returns (j: nat)
    requires c.Valid() && IsRun(c, run) && i < |run| && run[i].base <= k <= |run[i].log|
    ensures j <= i && WrittenAt(run, i, k, j)
    decreases i
  {
    hide Next, Recovers, EncodeAll, AllWritable, SyncOk, PromisesOk, Distinct;
    RunInv(c, run, i);
    var s := run[i];
    assert s.log[..|s.log|] == s.log;
    if k == |s.log| {
      j := i;
    } else {
      assert i > 0;
      assert StepAt(c, run, i - 1);
      var step :| Next(c, run[i - 1], run[i], step);
      StepKeepsLog(c, run[i - 1], run[i], step);
      j := PrefixWasWritten(c, run, i - 1, k);
      assert run[i - 1].log[..k] == s.log[..k];
    }
  }

  /** A crash in state `i` that keeps `size` bytes takes the broker back to moment `j` of the same
      process: no earlier than the last sync, and with the operation of every call that had
      returned success already applied. */
  ghost predicate RollsBackTo(c: Codec, run: seq<System>, i: nat, size: nat, j: nat)
    requires j <= i < |run| && size <= |File(c, run[i])|
  {
    && run[j].epoch == run[i].epoch && run[i].syncedSeq <= run[j].writeSeq
    && Recovers(run[j].broker, ReplayAll(c, File(c, run[i])[..size]).entries)
    && forall l :: 0 <= l < |run[i].calls| && run[i].calls[l].pc == Returned(true) ==>
         l < |run[j].calls| && SameCall(run[j].calls[l], run[i].calls[l])
  }

  /** Durability of every operation: whatever a crash leaves of the file beyond the durable bytes,
      the restart recovers the broker of one moment of the run, live tasks with their retry counts
      and dead letters in order, and no enqueue, ack or nack that was answered is undone. */
  lemma CrashIsRollback(c: Codec, run: seq<System>, i: nat, size: nat) returns (j: nat)
    requires c.Valid() && IsRun(c, run) && i < |run|
    requires run[i].durable <= size <= |File(c, run[i])|
    ensures j <= i && RollsBackTo(c, run, i, size, j)
  {
    hide IsRun, EncodeAll, AllWritable, Recovers, Distinct, ReplayAll, PromisesOk;
    RunInv(c, run, i);
    var s := run[i];
    var from := Position(s, s.syncedSeq);
    PositionBound(c, s, s.syncedSeq);
    var k := CrashKeepsPrefix(c, s.log, from, size);
    j := PrefixWasWritten(c, run, i, k);
    RunCounted(c, run, j, i);
    forall l | 0 <= l < |s.calls| && s.calls[l].pc == Returned(true)
      ensures l < |run[j].calls| && SameCall(run[j].calls[l], s.calls[l])
    {
      assert CallOk(c, s, s.calls[l]);
    }
  }

  // ---------------------------------------------------------------- group commit

  /** Group commit: the synced counter never passes the write counter, a sleeping call has a sync
      leader to wake it, and once a call returned success no crash undoes its operation. */
  lemma GroupCommit(c: Codec, run: seq<System>, i: nat, l: nat)
    requires c.Valid() && IsRun(c, run) && i < |run| && l < |run[i].calls|
    ensures run[i].syncedSeq <= run[i].writeSeq
    ensures run[i].calls[l].pc == Sleeping ==> exists x :: 0 <= x < |run[i].calls| && Leads(run[i].calls[x])
    ensures run[i].calls[l].pc == Returned(true) ==>
              forall size :: run[i].durable <= size <= |File(c, run[i])| ==> Survives(c, run, i, size, l)
  {
    hide IsRun, AllWritable, Recovers, Distinct, EncodeAll, PromisesOk, RollsBackTo;
    RunInv(c, run, i);
    var s := run[i];
    assert CallOk(c, s, s.calls[l]);
    if s.calls[l].pc == Returned(true) {
      forall size | s.durable <= size <= |File(c, s)| ensures Survives(c, run, i, size, l) {
        var j := CrashIsRollback(c, run, i, size);
        Rolled(c, run, i, size, j, l);
      }
    }
  }

  /** The crash takes the broker back to a moment at which call `l` was already applied. */
  ghost predicate Survives(c: Codec, run: seq<System>, i: nat, size: nat, l: nat)
    requires i < |run| && size <= |File(c, run[i])|
  {
    exists j: nat :: j <= i && l < |run[j].calls| && RollsBackTo(c, run, i, size, j)
  }

  lemma Rolled(c: Codec, run: seq<System>, i: nat, size: nat, j: nat, l: nat)
    requires j <= i < |run| && size <= |File(c, run[i])| && RollsBackTo(c, run, i, size, j)
    requires l < |run[i].calls| && run[i].calls[l].pc == Returned(true)
    ensures l < |run[j].calls|
  {
  }

  /** What a failed fsync leaves: no call that had not returned success does so any more. */
  ghost predicate NoNewSuccess(s: System, s': System) {
    && s'.failed && |s.calls| <= |s'.calls|
    && (forall l :: 0 <= l < |s'.calls| && s'.calls[l].pc == Returned(true) ==>
          l < |s.calls| && s.calls[l].pc == Returned(true))
    && s'.owed <= s.owed && s'.gone <= s.gone
  }

  lemma FailedStep(c: Codec, s: System, s': System, step: Step)
    requires s.failed && Next(c, s, s', step) && s'.epoch == s.epoch
    ensures NoNewSuccess(s, s')
  {
    hide EncodeAll, AllWritable, Recover, Rebuilt, Lists, Fresh, Writable;
  }

  /** A failed fsync is final: over any stretch of a run without a restart, whatever is called
      afterwards, no further call returns success. */
  lemma {:induction false} FailedSyncIsFinal(c: Codec, run: seq<System>, i: nat, j: nat)
    requires IsRun(c, run) && i <= j < |run| && run[i].failed && run[j].epoch == run[i].epoch
    ensures NoNewSuccess(run[i], run[j])
    decreases j
  {
    hide Next;
    if i < j {
      RunCounted(c, run, i, j - 1);
      RunCounted(c, run, j - 1, j);
      FailedSyncIsFinal(c, run, i, j - 1);
      assert StepAt(c, run, j - 1);
      var step :| Next(c, run[j - 1], run[j], step);
      FailedStep(c, run[j - 1], run[j], step);
    }
  }

  /** The step is one of a call waiting for its sync. */
  predicate IsSyncStep(step: Step) {
    step.Check? || step.Capture? || step.SyncDone?
  }

  ghost predicate SyncStepEnabled(c: Codec, s: System) {
    exists step, s' :: IsSyncStep(step) && Next(c, s, s', step)
  }

  /** No call is stuck: while some call has not returned, a waiting call can take a step, and an
      fsync in progress can succeed. */
  lemma SomeCallCanMove(c: Codec, run: seq<System>, i: nat, l: nat)
    requires c.Valid() && IsRun(c, run) && i < |run| && l < |run[i].calls| && !run[i].calls[l].pc.Returned?
    ensures SyncStepEnabled(c, run[i])
  {
    hide IsRun, AllWritable, Recovers, Distinct, EncodeAll, PromisesOk;
    RunInv(c, run, i);
    var s := run[i];
    assert CallOk(c, s, s.calls[l]);
    var x: nat := l;
    if s.calls[l].pc == Sleeping {
      x :| 0 <= x < |s.calls| && Leads(s.calls[x]);
      assert CallOk(c, s, s.calls[x]);
    }
    CallCanMove(c, s, x);
  }

  lemma CallCanMove(c: Codec, s: System, x: nat)
    requires x < |s.calls| && s.durable <= |File(c, s)| && (s.calls[x].pc == Checking || Leads(s.calls[x]))
    requires s.calls[x].pc.Syncing? ==> s.calls[x].pc.at <= |File(c, s)|
    ensures SyncStepEnabled(c, s)
  {
    hide File;
    if s.calls[x].pc == Checking {
      assert IsSyncStep(Check(x)) && Next(c, s, Checked(s, x), Check(x));
    } else if s.calls[x].pc == Electing {
      var s' := s.(calls := Moved(s, x, Syncing(s.writeSeq, |File(c, s)|)));
      assert IsSyncStep(Capture(x)) && Next(c, s, s', Capture(x));
    } else {
      var step := SyncDone(x, true, |File(c, s)|);
      assert IsSyncStep(step) && Next(c, s, Synced(s, x, true, |File(c, s)|), step);
    }
  }
}
