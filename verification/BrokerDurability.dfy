/** At-least-once delivery over every run and every crash point. */
module BrokerDurability {
  import opened Tasks
  import opened WalCodec
  import opened BrokerModel
  import opened BrokerSystem

  // ---------------------------------------------------------------- what a log prefix holds

  /** The task is recovered, as pending or as dead. */
  ghost predicate Holds(r: Recovered, id: string) {
    id in r.live || InSeq(id, r.dlq)
  }

  ghost predicate There(log: seq<LogEntry>, k: nat, id: string)
    requires k <= |log|
  {
    Holds(Recover(log[..k]), id)
  }

  /** From the first `from` entries on, no prefix of the log holds `id`. */
  ghost predicate AlwaysGone(log: seq<LogEntry>, from: nat, id: string) {
    forall k: nat :: from <= k <= |log| ==> !There(log, k, id)
  }

  /** This very task is recovered, with its payload, priority and age, as pending or as dead. */
  ghost predicate HoldsTask(r: Recovered, t: Task) {
    (t.id in r.live && Plain(r.live[t.id]) == Plain(t)) || Among(r.dlq, t)
  }

  ghost predicate TaskThere(log: seq<LogEntry>, k: nat, t: Task)
    requires k <= |log|
  {
    HoldsTask(Recover(log[..k]), t)
  }

  /** From the first `from` entries on, every prefix of the log holds the task. */
  ghost predicate AlwaysTask(log: seq<LogEntry>, from: nat, t: Task) {
    forall k: nat :: from <= k <= |log| ==> TaskThere(log, k, t)
  }

  ghost predicate ApartAt(log: seq<LogEntry>, k: nat)
    requires k <= |log|
  {
    Apart(Recover(log[..k]))
  }

  /** Only an enqueue of its id brings a task back. */
  lemma GoneNext(r: Recovered, e: LogEntry, id: string)
    requires Tidy(r) && (e.op == OP_ENQUEUE ==> e.task.Some? && e.taskId == e.task.value.id)
    requires !Holds(r, id) && !(e.op == OP_ENQUEUE && e.taskId == id)
    ensures !Holds(Fold1(r, e), id)
  {
    if e.op == OP_DEAD && e.taskId in r.live {
      InSeqAppend(id, r.dlq, r.live[e.taskId].(status := Dead));
    }
  }

  lemma AlwaysGoneNext(log: seq<LogEntry>, e: LogEntry, from: nat, id: string)
    requires AlwaysGone(log, from, id) && from <= |log|
    requires e.op == OP_ENQUEUE ==> e.task.Some? && e.taskId == e.task.value.id && e.taskId != id
    ensures AlwaysGone(log + [e], from, id)
  {
    hide Holds, Recover;
    var log' := log + [e];
    assert !There(log, |log|, id);
    assert log[..|log|] == log;
    RecoverTidy(log);
    GoneNext(Recover(log), e, id);
    RecoverNext(log, e);
    forall k: nat | from <= k <= |log'| ensures !There(log', k, id) {
      if k <= |log| {
        assert log'[..k] == log[..k];
        assert !There(log, k, id);
      } else {
        assert log'[..k] == log';
      }
    }
  }

  /** Only an enqueue or an ack of its id can touch what a task is. */
  lemma HoldsTaskNext(r: Recovered, e: LogEntry, t: Task)
    requires HoldsTask(r, t) && !(e.op in {OP_ACK, OP_ENQUEUE} && e.taskId == t.id)
    requires e.op == OP_ENQUEUE ==> e.task.Some? && e.taskId == e.task.value.id
    ensures HoldsTask(Fold1(r, e), t)
  {
    hide Among;
    if e.op == OP_DEAD && e.taskId in r.live {
      AmongAppend(r.dlq, r.live[e.taskId].(status := Dead), t);
    }
  }

  lemma AlwaysTaskNext(log: seq<LogEntry>, e: LogEntry, from: nat, t: Task)
    requires AlwaysTask(log, from, t) && from <= |log|
    requires e.op == OP_ENQUEUE ==> e.task.Some? && e.taskId == e.task.value.id
    requires !(e.op in {OP_ACK, OP_ENQUEUE} && e.taskId == t.id)
    ensures AlwaysTask(log + [e], from, t)
  {
    hide HoldsTask, Recover;
    var log' := log + [e];
    assert TaskThere(log, |log|, t);
    assert log[..|log|] == log;
    HoldsTaskNext(Recover(log), e, t);
    RecoverNext(log, e);
    forall k: nat | from <= k <= |log'| ensures TaskThere(log', k, t) {
      if k <= |log| {
        assert log'[..k] == log[..k];
        assert TaskThere(log, k, t);
      } else {
        assert log'[..k] == log';
      }
    }
  }

  lemma HoldsTaskId(r: Recovered, t: Task)
    requires HoldsTask(r, t)
    ensures Holds(r, t.id)
  {
    if t.id !in r.live {
      var i :| 0 <= i < |r.dlq| && Plain(r.dlq[i]) == Plain(t);
      assert r.dlq[i].id == t.id;
    }
  }

  lemma EnqueuedHolds(log: seq<LogEntry>, t: Task)
    ensures HoldsTask(Recover(log + [EnqueueEntry(t.(status := Pending))]), t)
  {
    RecoverNext(log, EnqueueEntry(t.(status := Pending)));
  }

  // ---------------------------------------------------------------- the invariant

  /** How many entries of the file the first `record` records account for. */
  function Position(s: System, record: nat): nat {
    if record <= s.baseSeq then s.base else s.base + (record - s.baseSeq)
  }

  ghost predicate LogOk(c: Codec, s: System) {
    && s.base <= |s.log| && s.baseSeq <= s.syncedSeq <= s.writeSeq
    && |s.log| == s.base + (s.writeSeq - s.baseSeq)
    && AllWritable(c, s.log)
    && |EncodeAll(c, s.log[..Position(s, s.syncedSeq)])| <= s.durable <= |File(c, s)|
  }

  ghost predicate StateOk(s: System) {
    && s.base <= |s.log|
    && Distinct(s.broker) && Recovers(s.broker, s.log)
    && forall k: nat :: s.base <= k <= |s.log| ==> ApartAt(s.log, k)
  }

  predicate Leads(call: Call) {
    call.pc.Electing? || call.pc.Syncing?
  }

  /** One caller's view of the group commit. */
  ghost predicate CallOk(c: Codec, s: System, call: Call) {
    && 0 < call.record <= s.writeSeq
    && (call.pc == Returned(true) ==> call.record <= s.syncedSeq)
    && (call.pc == Sleeping || Leads(call) ==> s.syncing)
    && (call.pc.Syncing? ==>
          && s.baseSeq <= call.pc.covered <= s.writeSeq
          && Position(s, call.pc.covered) <= |s.log|
          && |EncodeAll(c, s.log[..Position(s, call.pc.covered)])| <= call.pc.at <= |File(c, s)|)
  }

  ghost predicate SyncOk(c: Codec, s: System) {
    && (forall i :: 0 <= i < |s.calls| ==> CallOk(c, s, s.calls[i]))
    && (forall i, j :: 0 <= i < j < |s.calls| ==> !(Leads(s.calls[i]) && Leads(s.calls[j])))
    && (s.syncing ==> exists i :: 0 <= i < |s.calls| && Leads(s.calls[i]))
  }

  /** What a call promises once it succeeds holds in every log prefix that has its record. */
  ghost predicate Promise(s: System, call: Call) {
    && (call.kind.EnqueueCall? ==> call.kind.task.id == call.id)
    && (call.kind.EnqueueCall? && !call.superseded ==> AlwaysTask(s.log, Position(s, call.record), call.kind.task))
    && (call.kind == AckCall && !call.superseded ==> AlwaysGone(s.log, Position(s, call.record), call.id))
  }

  ghost predicate PromisesOk(s: System) {
    && (forall i :: 0 <= i < |s.calls| ==> Promise(s, s.calls[i]))
    && (forall t :: t in s.owed ==> AlwaysTask(s.log, Position(s, s.syncedSeq), t))
    && (forall id :: id in s.gone ==> AlwaysGone(s.log, Position(s, s.syncedSeq), id))
  }

  ghost predicate Inv(c: Codec, s: System) {
    LogOk(c, s) && StateOk(s) && SyncOk(c, s) && PromisesOk(s)
  }

  // ---------------------------------------------------------------- logging an entry

  lemma PrefixEncoding(c: Codec, log: seq<LogEntry>, e: LogEntry, k: nat)
    requires k <= |log|
    ensures (log + [e])[..k] == log[..k]
    ensures |EncodeAll(c, log)| <= |EncodeAll(c, log + [e])|
  {
    EncodeAllConcat(c, log, [e]);
  }

  /** The bookkeeping of an appended record. */
  lemma LoggedLogOk(c: Codec, s: System, b: Broker, e: LogEntry, kind: Kind, id: string)
    requires LogOk(c, s) && Writable(c, e)
    ensures LogOk(c, Logged(s, b, e, kind, id))
    ensures forall r: nat :: Position(Logged(s, b, e, kind, id), r) == Position(s, r)
  {
    PrefixEncoding(c, s.log, e, Position(s, s.syncedSeq));
  }

  lemma LoggedSyncOk(c: Codec, s: System, b: Broker, e: LogEntry, kind: Kind, id: string)
    requires LogOk(c, s) && SyncOk(c, s)
    ensures SyncOk(c, Logged(s, b, e, kind, id))
  {
    hide EncodeAll, AllWritable;
    var s' := Logged(s, b, e, kind, id);
    forall i | 0 <= i < |s'.calls| ensures CallOk(c, s', s'.calls[i]) {
      if i < |s.calls| {
        assert CallOk(c, s, s.calls[i]);
        if s.calls[i].pc.Syncing? {
          PrefixEncoding(c, s.log, e, Position(s, s.calls[i].pc.covered));
        }
      }
    }
    if s.syncing {
      var i :| 0 <= i < |s.calls| && Leads(s.calls[i]);
      assert Leads(s'.calls[i]);
    }
  }

  lemma SupersedeSyncOk(c: Codec, s: System, acked: bool, id: string, owed: set<Task>, gone: set<string>)
    requires SyncOk(c, s)
    ensures SyncOk(c, s.(calls := Supersede(s.calls, acked, id), owed := owed, gone := gone))
  {
    hide EncodeAll;
    var s' := s.(calls := Supersede(s.calls, acked, id), owed := owed, gone := gone);
    forall i | 0 <= i < |s'.calls| ensures CallOk(c, s', s'.calls[i]) {
      assert CallOk(c, s, s.calls[i]);
    }
    if s.syncing {
      var i :| 0 <= i < |s.calls| && Leads(s.calls[i]);
      assert Leads(s'.calls[i]);
    }
  }

  /** The state after logging: the broker recovers from the longer log, and every prefix is
      apart. */
  lemma LoggedStateOk(s: System, b: Broker, e: LogEntry)
    requires StateOk(s) && Distinct(b) && Recovers(b, s.log + [e])
    ensures forall k: nat :: s.base <= k <= |s.log + [e]| ==> ApartAt(s.log + [e], k)
  {
    var log' := s.log + [e];
    forall k: nat | s.base <= k <= |log'| ensures ApartAt(log', k) {
      if k <= |s.log| {
        assert log'[..k] == s.log[..k];
        assert ApartAt(s.log, k);
      } else {
        assert log'[..k] == log';
        RecoversApart(b, log');
      }
    }
  }

  lemma DeadIds(a: seq<Task>, b: seq<Task>, id: string)
    requires DeadCores(a) == DeadCores(b)
    ensures InSeq(id, a) <==> InSeq(id, b)
  {
    assert |a| == |DeadCores(a)| == |DeadCores(b)| == |b|;
    forall i | 0 <= i < |a| ensures a[i].id == b[i].id {
      assert DeadCores(a)[i] == DeadCores(b)[i];
    }
  }

  lemma RecoversApart(b: Broker, log: seq<LogEntry>)
    requires Distinct(b) && Recovers(b, log)
    ensures Apart(Recover(log))
  {
    hide Recovers;
    RecoversDistinct(b, log);
    var r := Recover(log);
    forall id | id in r.live ensures !InSeq(id, r.dlq) {
      LiveKeys(b, id);
      DeadIds(r.dlq, b.dlq, id);
    }
  }

  /** No enqueue, or no ack, of `id` still promises something. */
  ghost predicate Settled(s: System, enqueues: bool, id: string) {
    forall i :: 0 <= i < |s.calls| && Affects(s.calls[i], enqueues, id) ==> s.calls[i].superseded
  }

  ghost predicate NoneOwed(s: System, id: string) {
    Settled(s, true, id) && forall t :: t in s.owed ==> t.id != id
  }

  /** Entry `e` breaks none of the promises in force. */
  ghost predicate Harmless(s: System, e: LogEntry) {
    && (e.op == OP_ENQUEUE ==> e.task.Some? && e.taskId == e.task.value.id)
    && (e.op in {OP_ACK, OP_ENQUEUE} ==> NoneOwed(s, e.taskId))
    && (e.op == OP_ENQUEUE ==> e.taskId !in s.gone && Settled(s, false, e.taskId))
  }

  lemma PositionBound(c: Codec, s: System, record: nat)
    requires LogOk(c, s) && record <= s.writeSeq
    ensures s.base <= Position(s, record) <= |s.log|
  {
  }

  lemma LoggedPromises(c: Codec, s: System, b: Broker, e: LogEntry, kind: Kind, id: string)
    requires LogOk(c, s) && SyncOk(c, s) && PromisesOk(s) && Harmless(s, e)
    requires kind.EnqueueCall? ==> kind.task.id == id && HoldsTask(Recover(s.log + [e]), kind.task)
    requires kind == AckCall ==> !Holds(Recover(s.log + [e]), id)
    ensures PromisesOk(Logged(s, b, e, kind, id))
  {
    hide EncodeAll, AllWritable, Recover, Holds, HoldsTask;
    var s' := Logged(s, b, e, kind, id);
    forall i | 0 <= i < |s'.calls| ensures Promise(s', s'.calls[i]) {
      if i < |s.calls| {
        var call := s.calls[i];
        assert Promise(s, call) && CallOk(c, s, call);
        PositionBound(c, s, call.record);
        if call.kind.EnqueueCall? && !call.superseded {
          AlwaysTaskNext(s.log, e, Position(s, call.record), call.kind.task);
        }
        if call.kind == AckCall && !call.superseded {
          AlwaysGoneNext(s.log, e, Position(s, call.record), call.id);
        }
      } else {
        NewPromise(s.log, e, id, if kind.EnqueueCall? then Some(kind.task) else None);
        assert Position(s', s.writeSeq + 1) == |s.log| + 1;
      }
    }
    PositionBound(c, s, s.syncedSeq);
    forall x | x in s.owed ensures AlwaysTask(s'.log, Position(s', s'.syncedSeq), x) {
      AlwaysTaskNext(s.log, e, Position(s, s.syncedSeq), x);
    }
    forall x | x in s.gone ensures AlwaysGone(s'.log, Position(s', s'.syncedSeq), x) {
      AlwaysGoneNext(s.log, e, Position(s, s.syncedSeq), x);
    }
  }

  lemma NewPromise(log: seq<LogEntry>, e: LogEntry, id: string, t: Option<Task>)
    ensures !Holds(Recover(log + [e]), id) ==> AlwaysGone(log + [e], |log| + 1, id)
    ensures t.Some? && HoldsTask(Recover(log + [e]), t.value) ==> AlwaysTask(log + [e], |log| + 1, t.value)
  {
    assert (log + [e])[..|log| + 1] == log + [e];
  }

  lemma RecoversHolds(b: Broker, log: seq<LogEntry>, id: string)
    requires Distinct(b) && Recovers(b, log)
    ensures Holds(Recover(log), id) <==> id in b.inflight || InSeq(id, b.pending) || InSeq(id, b.dlq)
  {
    hide Recovers, Distinct;
    RecoversDistinct(b, log);
    LiveKeys(b, id);
    DeadIds(Recover(log).dlq, b.dlq, id);
  }

  /** Fewer promises in force. */
  lemma FewerPromises(s: System, s1: System)
    requires PromisesOk(s) && |s1.calls| == |s.calls|
    requires s1 == s.(calls := s1.calls, owed := s1.owed, gone := s1.gone) && s1.owed <= s.owed && s1.gone <= s.gone
    requires forall i :: 0 <= i < |s.calls| ==>
               s1.calls[i] == s.calls[i] || s1.calls[i] == s.calls[i].(superseded := true)
    ensures PromisesOk(s1)
  {
    hide AlwaysGone, AlwaysTask;
    forall i | 0 <= i < |s1.calls| ensures Promise(s1, s1.calls[i]) {
      assert Promise(s, s.calls[i]);
    }
  }

  lemma EnqueueInv(c: Codec, s: System, s': System, t: Task)
    requires Inv(c, s) && Next(c, s, s', Enqueue(t))
    ensures Inv(c, s')
  {
    hide EncodeAll, AllWritable, Recover, AlwaysGone, AlwaysTask, HoldsTask, Distinct, Recovers, Writable, InSeq;
    var e, b := EnqueueEntry(t.(status := Pending)), Enqueued(s.broker, t);
    var s1 := s.(calls := Supersede(s.calls, false, t.id), gone := s.gone - {t.id});
    FreshIsNotOwed(c, s, t.id);
    EnqueueIsSound(s.broker, s.log, t);
    SupersedeSyncOk(c, s, false, t.id, s.owed, s.gone - {t.id});
    FewerPromises(s, s1);
    LoggedLogOk(c, s1, b, e, EnqueueCall(t), t.id);
    LoggedSyncOk(c, s1, b, e, EnqueueCall(t), t.id);
    LoggedStateOk(s, b, e);
    EnqueuedHolds(s.log, t);
    LoggedPromises(c, s1, b, e, EnqueueCall(t), t.id);
  }

  /** An id that is not in use has no promise on it. */
  lemma FreshIsNotOwed(c: Codec, s: System, id: string)
    requires Inv(c, s) && Fresh(s.broker, id)
    ensures NoneOwed(s, id)
  {
    hide EncodeAll, AllWritable, Recover, HoldsTask, Holds, Distinct, Recovers, AlwaysGone;
    RecoversHolds(s.broker, s.log, id);
    assert s.log[..|s.log|] == s.log;
    PositionBound(c, s, s.syncedSeq);
    forall t | t in s.owed ensures t.id != id {
      assert TaskThere(s.log, |s.log|, t);
      HoldsTaskId(Recover(s.log), t);
    }
    forall i | 0 <= i < |s.calls| && Affects(s.calls[i], true, id) ensures s.calls[i].superseded {
      var call := s.calls[i];
      assert CallOk(c, s, call) && Promise(s, call);
      PositionBound(c, s, call.record);
      if !call.superseded {
        assert TaskThere(s.log, |s.log|, call.kind.task);
        HoldsTaskId(Recover(s.log), call.kind.task);
      }
    }
  }

  lemma AckInv(c: Codec, s: System, s': System, id: string)
    requires Inv(c, s) && Next(c, s, s', Ack(id))
    ensures Inv(c, s')
  {
    hide EncodeAll, AllWritable, Recover, AlwaysGone, AlwaysTask, Recovers, Writable;
    var e, b := IdEntry(OP_ACK, id), AckedTask(s.broker, id);
    var s1 := s.(calls := Supersede(s.calls, true, id), owed := OtherTasks(s.owed, id));
    AckDistinct(s.broker, id);
    AckRecovers(s.broker, s.log, id);
    SupersedeSyncOk(c, s, true, id, OtherTasks(s.owed, id), s.gone);
    FewerPromises(s, s1);
    LoggedLogOk(c, s1, b, e, AckCall, id);
    LoggedSyncOk(c, s1, b, e, AckCall, id);
    LoggedStateOk(s, b, e);
    RecoversHolds(b, s.log + [e], id);
    LoggedPromises(c, s1, b, e, AckCall, id);
  }

  lemma NackInv(c: Codec, s: System, s': System, id: string)
    requires Inv(c, s) && Next(c, s, s', Nack(id))
    ensures Inv(c, s')
  {
    hide EncodeAll, AllWritable, Recover, AlwaysGone, AlwaysTask, Distinct, Recovers, Writable;
    var e, b := RequeueEntry(s.broker, id), Requeued(s.broker, id);
    RequeueDistinct(s.broker, id);
    RequeueRecovers(s.broker, s.log, id);
    LoggedLogOk(c, s, b, e, NackCall, id);
    LoggedSyncOk(c, s, b, e, NackCall, id);
    LoggedStateOk(s, b, e);
    LoggedPromises(c, s, b, e, NackCall, id);
  }

  /** Steps that change the broker but neither the log nor what it owes. */
  lemma BrokerOnly(c: Codec, s: System, b: Broker)
    requires Inv(c, s) && Distinct(b) && LiveOf(b) == LiveOf(s.broker) && b.dlq == s.broker.dlq
    ensures Inv(c, s.(broker := b))
  {
    hide EncodeAll, AllWritable, AlwaysGone, AlwaysTask, Distinct, Recovers;
    var s' := s.(broker := b);
    RecoversDistinct(s.broker, s.log);
    RecoversDistinct(b, s.log);
    forall i | 0 <= i < |s.calls| ensures CallOk(c, s', s'.calls[i]) && Promise(s', s'.calls[i]) {
      assert CallOk(c, s, s.calls[i]) && Promise(s, s.calls[i]);
    }
  }

  // ---------------------------------------------------------------- compaction and crashes

  /** The log was replaced by an equivalent one that is durable as a whole. */
  lemma RewrittenInv(c: Codec, s: System, log: seq<LogEntry>)
    requires Inv(c, s) && !s.syncing && AllWritable(c, log) && Recovers(s.broker, log)
    ensures Inv(c, Rewritten(c, s, log))
  {
    hide EncodeAll, AllWritable, AlwaysGone, AlwaysTask, Distinct, Recovers, Recover;
    var s' := Rewritten(c, s, log);
    assert log[..|log|] == log;
    RecoversApart(s.broker, log);
    assert StateOk(s');
    forall i | 0 <= i < |s'.calls| ensures CallOk(c, s', s'.calls[i]) && Promise(s', s'.calls[i]) {
      var call := s.calls[i];
      assert CallOk(c, s, call) && Promise(s, call);
      PositionBound(c, s, call.record);
      SameGone(s.broker, s.log, log, Position(s, call.record), call.id);
      if call.kind.EnqueueCall? {
        SameTask(s.broker, s.log, log, Position(s, call.record), call.kind.task);
      }
    }
    PositionBound(c, s, s.syncedSeq);
    forall x | x in s.owed ensures AlwaysTask(log, |log|, x) {
      SameTask(s.broker, s.log, log, Position(s, s.syncedSeq), x);
    }
    forall x | x in s.gone ensures AlwaysGone(log, |log|, x) {
      SameGone(s.broker, s.log, log, Position(s, s.syncedSeq), x);
    }
  }

  /** Two logs of the same broker agree on what is gone at the end. */
  lemma SameGone(b: Broker, log: seq<LogEntry>, log': seq<LogEntry>, from: nat, id: string)
    requires Distinct(b) && Recovers(b, log) && Recovers(b, log') && from <= |log|
    ensures AlwaysGone(log, from, id) ==> AlwaysGone(log', |log'|, id)
  {
    hide Recover, Recovers, Distinct;
    RecoversHolds(b, log, id);
    RecoversHolds(b, log', id);
    assert log[..|log|] == log && log'[..|log'|] == log';
    if AlwaysGone(log, from, id) {
      assert !There(log, |log|, id);
    }
  }

  lemma SameDead(a: seq<Task>, b: seq<Task>, t: Task)
    requires DeadCores(a) == DeadCores(b)
    ensures Among(a, t) <==> Among(b, t)
  {
    assert |a| == |DeadCores(a)| == |DeadCores(b)| == |b|;
    forall i | 0 <= i < |a| ensures Plain(a[i]) == Plain(b[i]) {
      assert DeadCores(a)[i] == DeadCores(b)[i];
    }
  }

  lemma SameTask(b: Broker, log: seq<LogEntry>, log': seq<LogEntry>, from: nat, t: Task)
    requires Distinct(b) && Recovers(b, log) && Recovers(b, log') && from <= |log|
    ensures AlwaysTask(log, from, t) ==> AlwaysTask(log', |log'|, t)
  {
    hide Recover, Among, Plain, Recovers, Distinct;
    RecoversDistinct(b, log);
    RecoversDistinct(b, log');
    SameDead(Recover(log).dlq, Recover(log').dlq, t);
    assert log[..|log|] == log && log'[..|log'|] == log';
    if AlwaysTask(log, from, t) {
      assert TaskThere(log, |log|, t);
    }
  }

  lemma CompactInv(c: Codec, s: System, s': System, order: seq<Task>)
    requires Inv(c, s) && Next(c, s, s', Compact(order))
    ensures Inv(c, s')
  {
    hide EncodeAll, AllWritable, AlwaysGone, AlwaysTask, Distinct, Recovers, Recover, Compacted, Lists;
    CompactionExactly(s.broker, order);
    RewrittenInv(c, s, Compacted(s.broker, order));
  }

  lemma RebuiltHolds(r: Recovered, b: Broker, id: string)
    requires Rebuilt(r, b)
    ensures Holds(r, id) <==> InSeq(id, b.pending) || InSeq(id, b.dlq)
  {
    if id in r.live {
      var i :| 0 <= i < |b.pending| && b.pending[i].id == id;
    }
  }

  lemma WholeTask(log: seq<LogEntry>, t: Task)
    requires HoldsTask(Recover(log), t)
    ensures AlwaysTask(log, |log|, t)
  {
    assert log[..|log|] == log;
  }

  /** A crash at any point: the surviving log prefix keeps every promise made. */
  lemma CrashInv(c: Codec, s: System, s': System, size: nat, b: Broker)
    requires c.Valid() && Inv(c, s) && Next(c, s, s', Crash(size, b))
    ensures Inv(c, s')
  {
    hide EncodeAll, AllWritable, Distinct, Recovers, Recover, Compacted, Lists, ReplayAll,
         Rebuilt, Apart, Holds, HoldsTask;
    var from := Position(s, s.syncedSeq);
    PositionBound(c, s, s.syncedSeq);
    var k := CrashKeepsPrefix(c, s.log, from, size);
    var r, log' := Recover(s.log[..k]), Compacted(b, []);
    assert ApartAt(s.log, k);
    RebuiltDistinct(r, b);
    NothingInFlight(r, b);
    CompactionExactly(b, []);
    RecoversApart(b, log');
    assert log'[..|log'|] == log';
    forall id ensures Holds(Recover(log'), id) <==> Holds(r, id) {
      RecoversHolds(b, log', id);
      RebuiltHolds(r, b, id);
    }
    RecoverTidy(s.log[..k]);
    RebuiltRecovers(r, b, s.log[..k]);
    forall t | t in s.owed ensures AlwaysTask(log', |log'|, t) {
      assert TaskThere(s.log, k, t);
      WholeTask(s.log[..k], t);
      SameTask(b, s.log[..k], log', k, t);
    }
    forall id | id in s.gone ensures AlwaysGone(log', |log'|, id) {
      assert !There(s.log, k, id);
    }
  }

  lemma NothingInFlight(r: Recovered, b: Broker)
    requires Rebuilt(r, b)
    ensures b.inflight == map[] && Lists([], b.inflight)
  {
  }

  // ---------------------------------------------------------------- group commit

  /** A later starting point promises less. */
  lemma AlwaysGoneLater(log: seq<LogEntry>, from: nat, from': nat, id: string)
    requires AlwaysGone(log, from, id) && from <= from'
    ensures AlwaysGone(log, from', id)
  {
    hide There;
  }

  lemma AlwaysTaskLater(log: seq<LogEntry>, from: nat, from': nat, t: Task)
    requires AlwaysTask(log, from, t) && from <= from'
    ensures AlwaysTask(log, from', t)
  {
    hide TaskThere;
  }

  /** A call moves within `WaitSync`; log, state and other calls stay. */
  lemma MovedInv(c: Codec, s: System, s': System, i: nat, pc: Pc)
    requires Inv(c, s) && i < |s.calls| && !Leads(s.calls[i])
    requires s' == s.(calls := Moved(s, i, pc), syncing := s'.syncing, owed := s'.owed, gone := s'.gone)
    requires CallOk(c, s', s'.calls[i])
    requires (s'.syncing == s.syncing && !Leads(s'.calls[i])) || (!s.syncing && s'.syncing && Leads(s'.calls[i]))
    requires forall t :: t in s'.owed ==> t in s.owed || AlwaysTask(s.log, Position(s, s.syncedSeq), t)
    requires forall id :: id in s'.gone ==> id in s.gone || AlwaysGone(s.log, Position(s, s.syncedSeq), id)
    ensures Inv(c, s')
  {
    hide EncodeAll, AllWritable, Distinct, Recovers, Recover, AlwaysGone, AlwaysTask;
    forall j | 0 <= j < |s'.calls| ensures CallOk(c, s', s'.calls[j]) && Promise(s', s'.calls[j]) {
      assert CallOk(c, s, s.calls[j]) && Promise(s, s.calls[j]);
    }
    if s'.syncing {
      if s.syncing {
        var j :| 0 <= j < |s.calls| && Leads(s.calls[j]);
        assert Leads(s'.calls[j]);
      } else {
        assert Leads(s'.calls[i]);
      }
    }
  }

  lemma CheckInv(c: Codec, s: System, s': System, i: nat)
    requires Inv(c, s) && Next(c, s, s', Check(i))
    ensures Inv(c, s')
  {
    hide EncodeAll, AllWritable, Distinct, Recovers, Recover, AlwaysGone, AlwaysTask;
    var call := s.calls[i];
    assert CallOk(c, s, call) && Promise(s, call);
    if !s.failed && s.syncedSeq >= call.record && !call.superseded {
      if call.kind.EnqueueCall? {
        AlwaysTaskLater(s.log, Position(s, call.record), Position(s, s.syncedSeq), call.kind.task);
      } else if call.kind == AckCall {
        AlwaysGoneLater(s.log, Position(s, call.record), Position(s, s.syncedSeq), call.id);
      }
    }
    MovedInv(c, s, s', i, s'.calls[i].pc);
  }

  lemma CaptureInv(c: Codec, s: System, s': System, i: nat)
    requires Inv(c, s) && Next(c, s, s', Capture(i))
    ensures Inv(c, s')
  {
    hide EncodeAll, AllWritable, Distinct, Recovers, Recover, AlwaysGone, AlwaysTask;
    assert s.log[..|s.log|] == s.log;
    forall j | 0 <= j < |s'.calls| ensures CallOk(c, s', s'.calls[j]) && Promise(s', s'.calls[j]) {
      assert CallOk(c, s, s.calls[j]) && Promise(s, s.calls[j]);
    }
    assert Leads(s'.calls[i]);
  }

  lemma SyncDoneInv(c: Codec, s: System, s': System, i: nat, ok: bool, durable: nat)
    requires Inv(c, s) && Next(c, s, s', SyncDone(i, ok, durable))
    ensures Inv(c, s')
  {
    hide EncodeAll, AllWritable, Distinct, Recovers, Recover, AlwaysGone, AlwaysTask;
    assert CallOk(c, s, s.calls[i]);
    var calls := Moved(s, i, Checking);
    forall j | 0 <= j < |s'.calls|
      ensures CallOk(c, s', s'.calls[j]) && Promise(s', s'.calls[j]) && !Leads(s'.calls[j])
    {
      assert CallOk(c, s, s.calls[j]) && Promise(s, s.calls[j]);
    }
    forall t | t in s.owed ensures AlwaysTask(s'.log, Position(s', s'.syncedSeq), t) {
      AlwaysTaskLater(s.log, Position(s, s.syncedSeq), Position(s', s'.syncedSeq), t);
    }
    forall id | id in s.gone ensures AlwaysGone(s'.log, Position(s', s'.syncedSeq), id) {
      AlwaysGoneLater(s.log, Position(s, s.syncedSeq), Position(s', s'.syncedSeq), id);
    }
  }

  lemma FlushInv(c: Codec, s: System, durable: nat)
    requires Inv(c, s) && s.durable <= durable <= |File(c, s)|
    ensures Inv(c, s.(durable := durable))
  {
    hide EncodeAll, AllWritable, Distinct, Recovers, Recover, AlwaysGone, AlwaysTask;
    var s' := s.(durable := durable);
    forall j | 0 <= j < |s'.calls| ensures CallOk(c, s', s'.calls[j]) && Promise(s', s'.calls[j]) {
      assert CallOk(c, s, s.calls[j]) && Promise(s, s.calls[j]);
    }
  }

  // ---------------------------------------------------------------- every step

  lemma NextInv(c: Codec, s: System, s': System, step: Step)
    requires c.Valid() && Inv(c, s) && Next(c, s, s', step)
    ensures Inv(c, s')
  {
    match step
    case Enqueue(t) => EnqueueInv(c, s, s', t);
    case Dequeue(i, deadline) =>
      DequeueDistinct(s.broker, i, deadline);
      DequeueKeepsLive(s.broker, i, deadline);
      BrokerOnly(c, s, Dequeued(s.broker, i, deadline));
    case Ack(id) => AckInv(c, s, s', id);
    case Nack(id) => NackInv(c, s, s', id);
    case Tune(maxRetries) => BrokerOnly(c, s, Tuned(s.broker, maxRetries));
    case Compact(order) => CompactInv(c, s, s', order);
    case Check(i) => CheckInv(c, s, s', i);
    case Capture(i) => CaptureInv(c, s, s', i);
    case SyncDone(i, ok, durable) => SyncDoneInv(c, s, s', i, ok, durable);
    case Flush(durable) => FlushInv(c, s, durable);
    case Crash(size, b) => CrashInv(c, s, s', size, b);
  }

  lemma InitInv(c: Codec, s: System)
    requires Init(s)
    ensures Inv(c, s)
  {
    assert s.log[..0] == [];
  }

  lemma {:induction false} RunInv(c: Codec, run: seq<System>, i: nat)
    requires c.Valid() && IsRun(c, run) && i < |run|
    ensures Inv(c, run[i])
    decreases i
  {
    hide Inv, Next, Init;
    if i == 0 {
      InitInv(c, run[0]);
    } else {
      RunInv(c, run, i - 1);
      assert StepAt(c, run, i - 1);
      var step :| Next(c, run[i - 1], run[i], step);
      NextInv(c, run[i - 1], run[i], step);
    }
  }
}
