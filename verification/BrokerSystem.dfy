/** The broker, its write-ahead log and its concurrent callers as interleaved steps: operations
    under the broker lock, the group-committed fsync, compaction by rewrite, and crashes that
    keep any prefix of the file between what is durable and what is written
    (broker/broker.go, broker/wal.go). */
module BrokerSystem {
  import opened Tasks
  import opened WalCodec
  import opened BrokerModel

  datatype Kind = EnqueueCall(task: Task) | AckCall | NackCall

  /** Where a caller stands in `WaitSync`. */
  datatype Pc =
    | Checking                          // holds the sync lock, about to look
    | Sleeping                          // waits for the broadcast
    | Electing                          // became the sync leader, has not read writeSeq yet
    | Syncing(covered: nat, at: nat)    // in fsync: read writeSeq and the file's length
    | Returned(ok: bool)

  /** A client call that wrote record number `record` and waits for it. `superseded` is set when the call's
      promise no longer applies: an enqueue whose task was acked since, an ack whose id was
      enqueued again since. */
  datatype Call = Call(kind: Kind, id: string, record: nat, pc: Pc, superseded: bool)

  datatype System = System(
    broker: Broker,
    log: seq<LogEntry>,   // the entries of the current file
    base: nat,            // how many of them the last rewrite wrote
    baseSeq: nat,         // writeSeq at the last rewrite
    writeSeq: nat,
    syncedSeq: nat,
    syncing: bool,
    failed: bool,         // an fsync failed: the log is poisoned
    durable: nat,         // bytes of the file known to the disk
    calls: seq<Call>,
    owed: set<Task>,      // tasks whose enqueue returned success, with no ack logged since
    gone: set<string>,    // acks that returned success, with no enqueue of the id since
    epoch: nat)           // how often the process was restarted

  function File(c: Codec, s: System): Bytes {
    EncodeAll(c, s.log)
  }

  // ---------------------------------------------------------------- steps

  datatype Step =
    | Enqueue(task: Task)
    | Dequeue(i: nat, deadline: Time)
    | Ack(id: string)
    | Nack(id: string)            // by a worker or by the expiry scan
    | Tune(maxRetries: int)
    | Compact(order: seq<Task>)
    | Check(i: nat)
    | Capture(i: nat)
    | SyncDone(i: nat, ok: bool, durable: nat)
    | Flush(durable: nat)
    | Crash(size: nat, broker: Broker)

  function Logged(s: System, b: Broker, e: LogEntry, kind: Kind, id: string): System {
    s.(broker := b, log := s.log + [e], writeSeq := s.writeSeq + 1,
       calls := s.calls + [Call(kind, id, s.writeSeq + 1, Checking, false)])
  }

  /** The calls about `id` that a logged ack, or a logged enqueue, bears on. */
  predicate Affects(call: Call, acked: bool, id: string) {
    call.id == id && if acked then call.kind.EnqueueCall? else call.kind.AckCall?
  }

  /** They lose their promise: enqueues when the ack is logged, acks when the id comes again. */
  function Supersede(calls: seq<Call>, acked: bool, id: string): (r: seq<Call>)
    ensures |r| == |calls|
    ensures forall i :: 0 <= i < |r| ==>
              r[i] == if Affects(calls[i], acked, id) then calls[i].(superseded := true) else calls[i]
  {
    seq(|calls|, i requires 0 <= i < |calls| =>
      if Affects(calls[i], acked, id) then calls[i].(superseded := true) else calls[i])
  }

  function OtherTasks(ts: set<Task>, id: string): set<Task> {
    set t | t in ts && t.id != id
  }

  function WakeAll(calls: seq<Call>): (r: seq<Call>)
    ensures |r| == |calls|
    ensures forall i :: 0 <= i < |r| ==> r[i] == if calls[i].pc == Sleeping then calls[i].(pc := Checking) else calls[i]
  {
    seq(|calls|, i requires 0 <= i < |calls| =>
      if calls[i].pc == Sleeping then calls[i].(pc := Checking) else calls[i])
  }

  function Moved(s: System, i: nat, pc: Pc): seq<Call>
    requires i < |s.calls|
  {
    s.calls[i := s.calls[i].(pc := pc)]
  }

  function Answer(s: System, i: nat, ok: bool): System
    requires i < |s.calls|
  {
    var call := s.calls[i];
    var promised := ok && !call.superseded;
    s.(calls := Moved(s, i, Returned(ok)),
       owed := if promised && call.kind.EnqueueCall? then s.owed + {call.kind.task} else s.owed,
       gone := if promised && call.kind == AckCall then s.gone + {call.id} else s.gone)
  }

  /** One iteration of the `WaitSync` loop under the sync lock. */
  function Checked(s: System, i: nat): System
    requires i < |s.calls|
  {
    if s.failed then Answer(s, i, false)
    else if s.syncedSeq >= s.calls[i].record then Answer(s, i, true)
    else if s.syncing then s.(calls := Moved(s, i, Sleeping))
    else s.(syncing := true, calls := Moved(s, i, Electing))
  }

  function Synced(s: System, i: nat, ok: bool, durable: nat): System
    requires i < |s.calls| && s.calls[i].pc.Syncing?
  {
    var covered := s.calls[i].pc.covered;
    s.(syncing := false,
       failed := s.failed || !ok,
       syncedSeq := if ok && covered > s.syncedSeq then covered else s.syncedSeq,
       durable := durable,
       calls := WakeAll(Moved(s, i, Checking)))
  }

  function Rewritten(c: Codec, s: System, log: seq<LogEntry>): System {
    s.(log := log, base := |log|, baseSeq := s.writeSeq, syncedSeq := s.writeSeq, durable := |EncodeAll(c, log)|,
       calls := WakeAll(s.calls))
  }

  /** A fresh process on the surviving file: replay it, rebuild the broker, rewrite the log. */
  function Restarted(c: Codec, s: System, b: Broker): System {
    var log := Compacted(b, []);
    System(b, log, |log|, 0, 0, 0, false, false, |EncodeAll(c, log)|, [], s.owed, s.gone, s.epoch + 1)
  }

  /** No task in the heap comes before the one at `i`. */
  predicate First(ts: seq<Task>, i: nat) {
    && i < |ts|
    && forall j :: 0 <= j < |ts| ==>
         ts[i].priority <= ts[j].priority && (ts[i].priority == ts[j].priority ==> ts[i].createdAt <= ts[j].createdAt)
  }

  ghost predicate Next(c: Codec, s: System, s': System, step: Step) {
    match step
    case Enqueue(t) =>
      var e := EnqueueEntry(t.(status := Pending));
      && Fresh(s.broker, t.id) && Writable(c, e)
      && var s1 := s.(calls := Supersede(s.calls, false, t.id), gone := s.gone - {t.id});
         s' == Logged(s1, Enqueued(s.broker, t), e, EnqueueCall(t), t.id)
    case Dequeue(i, deadline) =>
      && First(s.broker.pending, i)
      && s' == s.(broker := Dequeued(s.broker, i, deadline))
    case Ack(id) =>
      && id in s.broker.inflight && Writable(c, IdEntry(OP_ACK, id))
      && var s1 := s.(calls := Supersede(s.calls, true, id), owed := OtherTasks(s.owed, id));
         s' == Logged(s1, AckedTask(s.broker, id), IdEntry(OP_ACK, id), AckCall, id)
    case Nack(id) =>
      && id in s.broker.inflight && Writable(c, RequeueEntry(s.broker, id))
      && s' == Logged(s, Requeued(s.broker, id), RequeueEntry(s.broker, id), NackCall, id)
    case Tune(maxRetries) => s' == s.(broker := Tuned(s.broker, maxRetries))
    case Compact(order) =>
      && !s.syncing && Lists(order, s.broker.inflight) && AllWritable(c, Compacted(s.broker, order))
      && s' == Rewritten(c, s, Compacted(s.broker, order))
    case Check(i) => i < |s.calls| && s.calls[i].pc == Checking && s' == Checked(s, i)
    case Capture(i) =>
      && i < |s.calls| && s.calls[i].pc == Electing
      && s' == s.(calls := Moved(s, i, Syncing(s.writeSeq, |File(c, s)|)))
    case SyncDone(i, ok, durable) =>
      && i < |s.calls| && s.calls[i].pc.Syncing?
      && s.durable <= durable <= |File(c, s)| && (ok ==> s.calls[i].pc.at <= durable)
      && s' == Synced(s, i, ok, durable)
    case Flush(durable) => s.durable <= durable <= |File(c, s)| && s' == s.(durable := durable)
    case Crash(size, b) =>
      && s.durable <= size <= |File(c, s)|
      && Rebuilt(Recover(ReplayAll(c, File(c, s)[..size]).entries), b)
      && AllWritable(c, Compacted(b, []))
      && s' == Restarted(c, s, b)
  }

  ghost predicate Init(s: System) {
    && s.broker.pending == [] && s.broker.inflight == map[] && s.broker.dlq == []
    && s == System(s.broker, [], 0, 0, 0, 0, false, false, 0, [], {}, {}, 0)
  }

  ghost predicate IsRun(c: Codec, run: seq<System>) {
    && |run| > 0 && Init(run[0])
    && forall i :: 0 <= i < |run| - 1 ==> StepAt(c, run, i)
  }

  ghost predicate StepAt(c: Codec, run: seq<System>, i: nat)
    requires i + 1 < |run|
  {
    CanStep(c, run[i], run[i + 1])
  }

  ghost predicate CanStep(c: Codec, s: System, s': System) {
    exists step :: Next(c, s, s', step)
  }
}
