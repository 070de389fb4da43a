/** What the group commit owes its callers besides safety: no call is refused without a failed
    fsync, a call whose record is on disk is told so, one fsync serves every record written before
    it, and every waiting call can still be answered. */
module BrokerProgress {
  import opened Tasks
  import opened WalCodec
  import opened BrokerModel
  import opened BrokerSystem
  import opened BrokerDurability
  import opened BrokerTheorems

  // ---------------------------------------------------------------- answers

  /** The answer of a check: success if and only if no fsync failed and the record is synced,
      refusal if and only if one failed, and otherwise the call waits or leads the next fsync. */
  lemma CheckExactly(c: Codec, s: System, s': System, l: nat)
    requires Next(c, s, s', Check(l))
    ensures l < |s.calls| && |s'.calls| == |s.calls|
    ensures s'.calls[l].pc == Returned(true) <==> !s.failed && s.calls[l].record <= s.syncedSeq
    ensures s'.calls[l].pc == Returned(false) <==> s.failed
    ensures s'.calls[l].pc == Sleeping <==> !s.failed && s.syncedSeq < s.calls[l].record && s.syncing
    ensures s'.calls[l].pc == Electing <==> !s.failed && s.syncedSeq < s.calls[l].record && !s.syncing
    ensures s' == s.(calls := s'.calls, syncing := s'.syncing, owed := s'.owed, gone := s'.gone)
  {
  }

  ghost predicate RefusedIsFailed(s: System) {
    forall l :: 0 <= l < |s.calls| && s.calls[l].pc == Returned(false) ==> s.failed
  }

  lemma StepRefuses(c: Codec, s: System, s': System, step: Step)
    requires RefusedIsFailed(s) && Next(c, s, s', step)
    ensures RefusedIsFailed(s')
  {
    hide EncodeAll, AllWritable, Recover, Rebuilt, Lists, Fresh, Writable, First, Enqueued, Requeued, Compacted;
  }

  /** In every run, a call that returned an error did so because an fsync of this process failed. */
  lemma {:induction false} RefusedOnlyAfterFailure(c: Codec, run: seq<System>, i: nat, l: nat)
    requires IsRun(c, run) && i < |run| && l < |run[i].calls| && run[i].calls[l].pc == Returned(false)
    ensures run[i].failed
  {
    NoneRefused(c, run, i);
  }

  lemma {:induction false} NoneRefused(c: Codec, run: seq<System>, i: nat)
    requires IsRun(c, run) && i < |run|
    ensures RefusedIsFailed(run[i])
  {
    hide Next;
    if i > 0 {
      NoneRefused(c, run, i - 1);
      assert StepAt(c, run, i - 1);
      var step :| Next(c, run[i - 1], run[i], step);
      StepRefuses(c, run[i - 1], run[i], step);
    }
  }

  // ---------------------------------------------------------------- one fsync for all

  /** Record `w` is synced, or the fsync of call `x` covers it, or the log is poisoned. */
  ghost predicate Covered(s: System, x: nat, w: nat) {
    && x < |s.calls|
    && (|| w <= s.syncedSeq
        || (s.calls[x].pc.Syncing? && w <= s.calls[x].pc.covered)
        || (s.failed && !Leads(s.calls[x])))
    && w <= s.writeSeq
  }

  lemma StepCovers(c: Codec, s: System, s': System, step: Step, x: nat, w: nat)
    requires Covered(s, x, w) && Next(c, s, s', step) && s'.epoch == s.epoch
    ensures Covered(s', x, w)
  {
    hide EncodeAll, AllWritable, Recover, Rebuilt, Lists, Fresh, Writable, First, Enqueued, Requeued, Compacted;
  }

  lemma {:induction false} RunCovers(c: Codec, run: seq<System>, j: nat, k: nat, x: nat, w: nat)
    requires IsRun(c, run) && j <= k < |run| && run[j].epoch == run[k].epoch && Covered(run[j], x, w)
    ensures Covered(run[k], x, w)
    decreases k
  {
    hide Next, Covered;
    if j < k {
      RunCounted(c, run, j, k - 1);
      RunCounted(c, run, k - 1, k);
      RunCovers(c, run, j, k - 1, x, w);
      assert StepAt(c, run, k - 1);
      var step :| Next(c, run[k - 1], run[k], step);
      StepCovers(c, run[k - 1], run[k], step, x, w);
    }
  }

  /** Group commit: when an fsync succeeds, every record that was written before it began is
      synced, whoever wrote it. */
  lemma SyncServesAll(c: Codec, run: seq<System>, j: nat, k: nat, x: nat, durable: nat)
    requires IsRun(c, run) && j < k && k + 1 < |run| && run[j].epoch == run[k].epoch
    requires Next(c, run[j], run[j + 1], Capture(x)) && Next(c, run[k], run[k + 1], SyncDone(x, true, durable))
    ensures run[j].writeSeq <= run[k + 1].syncedSeq
    ensures forall l :: 0 <= l < |run[j].calls| ==> run[j].calls[l].record <= run[k + 1].syncedSeq
  {
    hide EncodeAll, AllWritable;
    RunCounted(c, run, j, j);
    RunCounted(c, run, j + 1, k);
    RunCovers(c, run, j + 1, k, x, run[j].writeSeq);
  }

  // ---------------------------------------------------------------- every call can be answered

  ghost predicate Chain(c: Codec, ss: seq<System>) {
    |ss| > 0 && forall i :: 0 <= i < |ss| - 1 ==> StepAt(c, ss, i)
  }

  lemma ChainOne(c: Codec, s: System)
    ensures Chain(c, [s])
  {
  }

  lemma ChainStep(c: Codec, ss: seq<System>, s': System, step: Step)
    requires Chain(c, ss) && Next(c, ss[|ss| - 1], s', step)
    ensures Chain(c, ss + [s'])
  {
    hide Next;
    var ss' := ss + [s'];
    forall i | 0 <= i < |ss'| - 1 ensures StepAt(c, ss', i) {
      assert i < |ss| - 1 ==> StepAt(c, ss, i);
    }
  }

  lemma ChainRun(c: Codec, run: seq<System>, ss: seq<System>)
    requires IsRun(c, run) && Chain(c, ss) && ss[0] == run[|run| - 1]
    ensures IsRun(c, run + ss[1..])
  {
    hide Next;
    var run' := run + ss[1..];
    forall i | 0 <= i < |run'| - 1 ensures StepAt(c, run', i) {
      if i < |run| - 1 {
        assert StepAt(c, run, i);
      } else {
        assert StepAt(c, ss, i - (|run| - 1));
      }
    }
  }

  /** The same calls with the same promises, and call `l` further on its way. */
  ghost predicate SameWork(s: System, s': System) {
    && s'.broker == s.broker && s'.log == s.log && s'.writeSeq == s.writeSeq && s'.epoch == s.epoch
    && !s'.failed && s.syncedSeq <= s'.syncedSeq && |s'.calls| == |s.calls|
    && forall i :: 0 <= i < |s.calls| ==> s'.calls[i] == s.calls[i].(pc := s'.calls[i].pc)
  }

  /** The one call that leads. */
  lemma TheLeader(c: Codec, s: System, l: nat) returns (x: nat)
    requires SyncOk(c, s) && s.syncing && l < |s.calls|
    ensures x < |s.calls| && Leads(s.calls[x]) && (l != x ==> !Leads(s.calls[l]))
    ensures s.calls[x].pc.Syncing? ==> s.calls[x].pc.at <= |File(c, s)|
  {
    hide EncodeAll;
    x :| 0 <= x < |s.calls| && Leads(s.calls[x]);
    assert CallOk(c, s, s.calls[x]);
  }

  lemma LeaderCaptures(c: Codec, s: System, x: nat) returns (s': System)
    requires x < |s.calls| && s.calls[x].pc == Electing && !s.failed
    ensures Next(c, s, s', Capture(x)) && SameWork(s, s') && s' == s.(calls := s.calls[x := s'.calls[x]])
    ensures s'.calls[x].pc.Syncing? && s'.calls[x].pc.at == |File(c, s')|
  {
    hide EncodeAll;
    s' := s.(calls := Moved(s, x, Syncing(s.writeSeq, |File(c, s)|)));
  }

  lemma LeaderSyncs(c: Codec, s: System, x: nat, l: nat) returns (s': System)
    requires x < |s.calls| && s.calls[x].pc.Syncing? && s.calls[x].pc.at <= |File(c, s)| && s.durable <= |File(c, s)|
    requires !s.failed && l < |s.calls| && (l == x || s.calls[l].pc == Sleeping || s.calls[l].pc == Checking)
    ensures Next(c, s, s', SyncDone(x, true, |File(c, s)|)) && SameWork(s, s') && !s'.syncing
    ensures s'.calls[l].pc == Checking && s'.durable <= |File(c, s')|
  {
    hide EncodeAll;
    s' := Synced(s, x, true, |File(c, s)|);
  }

  /** Whoever leads an fsync finishes it. */
  lemma FinishSync(c: Codec, s: System, l: nat) returns (ss: seq<System>)
    requires SyncOk(c, s) && s.durable <= |File(c, s)| && !s.failed && l < |s.calls| && !s.calls[l].pc.Returned?
    ensures 0 < |ss| <= 3 && Chain(c, ss) && ss[0] == s
    ensures var e := ss[|ss| - 1];
            && SameWork(s, e) && !e.syncing && e.calls[l].pc == Checking && e.durable <= |File(c, e)|
  {
    hide EncodeAll, Chain, Next;
    ChainOne(c, s);
    ss := [s];
    if s.syncing {
      var x := TheLeader(c, s, l);
      var s1 := s;
      if s.calls[x].pc.Electing? {
        s1 := LeaderCaptures(c, s, x);
        ChainStep(c, ss, s1, Capture(x));
        ss := ss + [s1];
      }
      var s2 := LeaderSyncs(c, s1, x, l);
      ChainStep(c, ss, s2, SyncDone(x, true, |File(c, s1)|));
      ss := ss + [s2];
      SameWorkAgain(s, s1, s2);
    } else {
      assert CallOk(c, s, s.calls[l]);
    }
  }

  /** A call that nobody's fsync holds up leads one itself. */
  lemma SyncItself(c: Codec, s: System, l: nat) returns (ss: seq<System>)
    requires s.durable <= |File(c, s)| && !s.failed && !s.syncing && l < |s.calls| && s.calls[l].pc == Checking
    requires s.calls[l].record <= s.writeSeq
    ensures 0 < |ss| <= 4 && Chain(c, ss) && ss[0] == s
    ensures var e := ss[|ss| - 1];
            SameWork(s, e) && e.calls[l].pc == Checking && e.calls[l].record <= e.syncedSeq
  {
    hide EncodeAll;
    ChainOne(c, s);
    ss := [s];
    if s.syncedSeq < s.calls[l].record {
      var s1 := s.(syncing := true, calls := Moved(s, l, Electing));
      assert Next(c, s, s1, Check(l));
      ChainStep(c, ss, s1, Check(l));
      var s2 := s1.(calls := Moved(s1, l, Syncing(s1.writeSeq, |File(c, s1)|)));
      assert Next(c, s1, s2, Capture(l));
      ChainStep(c, ss + [s1], s2, Capture(l));
      var s3 := Synced(s2, l, true, |File(c, s2)|);
      assert Next(c, s2, s3, SyncDone(l, true, |File(c, s2)|));
      ChainStep(c, ss + [s1] + [s2], s3, SyncDone(l, true, |File(c, s2)|));
      ss := ss + [s1] + [s2] + [s3];
    }
  }

  /** Call `l` was told that its operation is durable, and the promise is booked. */
  ghost predicate Succeeded(s: System, l: nat) {
    && l < |s.calls| && s.calls[l].pc == Returned(true)
    && (s.calls[l].kind.EnqueueCall? && !s.calls[l].superseded ==> s.calls[l].kind.task in s.owed)
    && (s.calls[l].kind.AckCall? && !s.calls[l].superseded ==> s.calls[l].id in s.gone)
  }

  lemma AnswerIt(c: Codec, s: System, l: nat) returns (s': System)
    requires l < |s.calls| && s.calls[l].pc == Checking && !s.failed && s.calls[l].record <= s.syncedSeq
    ensures Next(c, s, s', Check(l)) && Succeeded(s', l) && SameWork(s, s')
  {
    s' := Checked(s, l);
  }

  lemma SameWorkAgain(a: System, b: System, d: System)
    requires SameWork(a, b) && SameWork(b, d)
    ensures SameWork(a, d)
  {
  }

  lemma RunFacts(c: Codec, run: seq<System>, l: nat)
    requires c.Valid() && IsRun(c, run) && l < |run[|run| - 1].calls|
    ensures var s := run[|run| - 1];
            SyncOk(c, s) && s.durable <= |File(c, s)| && s.calls[l].record <= s.writeSeq
  {
    hide EncodeAll, AllWritable, StateOk, PromisesOk;
    RunInv(c, run, |run| - 1);
    assert CallOk(c, run[|run| - 1], run[|run| - 1].calls[l]);
  }

  /** No wait is in vain: from every state of every run in which no fsync has failed, any call that
      waits can be answered with success within seven steps of the group commit, with nothing
      else done in between. */
  lemma AnswerIsReachable(c: Codec, run: seq<System>, l: nat) returns (more: seq<System>)
    requires c.Valid() && IsRun(c, run) && !run[|run| - 1].failed
    requires l < |run[|run| - 1].calls| && !run[|run| - 1].calls[l].pc.Returned?
    ensures 0 < |more| <= 7 && IsRun(c, run + more)
    ensures SameWork(run[|run| - 1], more[|more| - 1]) && Succeeded(more[|more| - 1], l)
  {
    hide Init, StepAt, SyncOk, Chain, File, Next, SameWork, Succeeded;
    var s := run[|run| - 1];
    RunFacts(c, run, l);
    var a := FinishSync(c, s, l);
    var s1 := a[|a| - 1];
    SameCall(s, s1, l);
    var b := SyncItself(c, s1, l);
    var s2 := b[|b| - 1];
    SameCall(s1, s2, l);
    var s3 := AnswerIt(c, s2, l);
    ChainJoin(c, a, b);
    var ss := a + b[1..];
    assert ss[|ss| - 1] == s2;
    ChainStep(c, ss, s3, Check(l));
    ChainRun(c, run, ss + [s3]);
    more := (ss + [s3])[1..];
    SameWorkAgain(s, s1, s2);
    SameWorkAgain(s, s2, s3);
  }

  lemma SameCall(s: System, s': System, l: nat)
    requires SameWork(s, s') && l < |s.calls|
    ensures l < |s'.calls| && s'.calls[l].record == s.calls[l].record && s'.writeSeq == s.writeSeq && !s'.failed
  {
  }

  lemma ChainJoin(c: Codec, a: seq<System>, b: seq<System>)
    requires Chain(c, a) && Chain(c, b) && a[|a| - 1] == b[0]
    ensures Chain(c, a + b[1..])
  {
    hide Next;
    var ab := a + b[1..];
    forall i | 0 <= i < |ab| - 1 ensures StepAt(c, ab, i) {
      if i < |a| - 1 {
        assert StepAt(c, a, i);
      } else {
        assert StepAt(c, b, i - (|a| - 1));
      }
    }
  }

  /** A concrete case: the first enqueue of an empty broker is answered with success and owed. */
  lemma FirstEnqueueSucceeds(c: Codec, t: Task, maxRetries: int) returns (run: seq<System>)
    requires c.Valid() && Writable(c, EnqueueEntry(t.(status := Pending)))
    ensures IsRun(c, run)
    ensures var s := run[|run| - 1];
            && |s.calls| == 1 && s.calls[0].pc == Returned(true) && s.calls[0].kind == EnqueueCall(t) && t in s.owed
            && s.broker.pending == [t.(status := Pending)] && s.syncedSeq == s.writeSeq == 1
  {
    var s0 := System(Broker([], map[], [], maxRetries), [], 0, 0, 0, 0, false, false, 0, [], {}, {}, 0);
    var s1 := Logged(s0, Enqueued(s0.broker, t), EnqueueEntry(t.(status := Pending)), EnqueueCall(t), t.id);
    assert Supersede([], false, t.id) == [];
    assert Next(c, s0, s1, Enqueue(t));
    var begin := [s0, s1];
    assert StepAt(c, begin, 0);
    var more := AnswerIsReachable(c, begin, 0);
    run := begin + more;
    SyncedIsWritten(c, run, |run| - 1);
  }

  lemma SyncedIsWritten(c: Codec, run: seq<System>, i: nat)
    requires c.Valid() && IsRun(c, run) && i < |run|
    ensures run[i].syncedSeq <= run[i].writeSeq
    ensures forall l :: 0 <= l < |run[i].calls| && run[i].calls[l].pc == Returned(true) ==>
              0 < run[i].calls[l].record <= run[i].syncedSeq
  {
    hide EncodeAll, AllWritable, StateOk, PromisesOk;
    RunInv(c, run, i);
    forall l | 0 <= l < |run[i].calls| && run[i].calls[l].pc == Returned(true)
      ensures 0 < run[i].calls[l].record <= run[i].syncedSeq
    {
      assert CallOk(c, run[i], run[i].calls[l]);
    }
  }
}
