/** The broker as it runs: its log file, its in-flight tracker with the expiry scan, and the
    recovery and compaction loops. Every operation leaves a state that its log recovers, whether
    or not it triggered a compaction. */
module BrokerNode {
  import opened Tasks
  import opened WalCodec
  import opened BrokerModel
  import BrokerSystem
  import opened BrokerScan
  import opened WalFile

  datatype Outcome = Written(record: nat) | ErrClosed | ErrUnknownTask | ErrEmpty | Delivered(task: Task)

  // ---------------------------------------------------------------- helpers about the model

  lemma {:induction false} SomeIsFirst(ts: seq<Task>)
    requires ts != []
    ensures exists i: nat :: i < |ts| && BrokerSystem.First(ts, i)
  {
    var k := |ts| - 1;
    if k == 0 {
      assert BrokerSystem.First(ts, 0);
    } else {
      SomeIsFirst(ts[..k]);
      var i: nat :| i < k && BrokerSystem.First(ts[..k], i);
      assert ts[..k][i] == ts[i];
      assert forall j :: 0 <= j < k ==> ts[..k][j] == ts[j];
      if Sooner(ts[k].priority, ts[k].createdAt, ts[i].priority, ts[i].createdAt) {
        assert BrokerSystem.First(ts, k);
      } else {
        assert BrokerSystem.First(ts, i);
      }
    }
  }

  lemma FirstOfAll(ts: seq<Task>, i: nat)
    requires BrokerSystem.First(ts, i)
    ensures forall u :: u in ts ==>
              ts[i].priority <= u.priority && (ts[i].priority == u.priority ==> ts[i].createdAt <= u.createdAt)
  {
  }

  lemma DeliveryIsTurn(m: Moment, i: nat, deadline: Time, every: int)
    requires i < |m.broker.pending|
    ensures forall due :: Takes(Point(m, due), Delivers(i, deadline), every,
                                Point(m.(broker := Dequeued(m.broker, i, deadline)), due))
  {
  }

  lemma CompactedWellFormed(b: Broker, order: seq<Task>)
    ensures forall i :: 0 <= i < |Compacted(b, order)| ==> WellFormed(Compacted(b, order)[i])
  {
    PairsWellFormed(b.dlq);
  }

  lemma {:induction false} PairsWellFormed(ts: seq<Task>)
    ensures forall i :: 0 <= i < |DeadPairs(ts)| ==> WellFormed(DeadPairs(ts)[i])
  {
    if ts != [] {
      PairsWellFormed(ts[..|ts| - 1]);
    }
  }

  /** `order` lists the part of `m` outside `rest`. */
  ghost predicate ListsOutside(order: seq<Task>, m: map<string, Task>, rest: set<string>) {
    && DistinctIds(order)
    && (forall i :: 0 <= i < |order| ==> order[i].id in m && order[i].id !in rest && m[order[i].id] == order[i])
    && (forall id :: id in m && id !in rest ==> InSeq(id, order))
  }

  lemma ListOneMore(order: seq<Task>, m: map<string, Task>, rest: set<string>, id: string)
    requires ListsOutside(order, m, rest) && id in rest && id in m && m[id].id == id
    ensures ListsOutside(order + [m[id]], m, rest - {id})
  {
    forall x | x in m && x !in rest - {id} ensures InSeq(x, order + [m[id]]) {
      InSeqAppend(x, order, m[id]);
    }
  }

  lemma ListedAll(order: seq<Task>, m: map<string, Task>)
    requires ListsOutside(order, m, {})
    ensures Lists(order, m)
  {
    forall id | id in m ensures exists i :: 0 <= i < |order| && order[i].id == id {
      assert InSeq(id, order);
    }
  }

  /** A state that the longer log recovers is recovered by a compaction of it as well. */
  lemma EitherRecovers(b: Broker, longer: seq<LogEntry>, log: seq<LogEntry>)
    requires Distinct(b) && Recovers(b, longer) && (log == longer || IsCompacted(b, log))
    ensures Recovers(b, log)
  {
    if log != longer {
      CompactedRecovers(b, log);
    }
  }

  // ---------------------------------------------------------------- the in-flight tracker

  class InFlightTracker {
    var tasks: map<string, Task>

    /** Tasks are filed under their own ids. */
    ghost predicate Valid()
      reads this
    {
      Keyed(tasks)
    }

    constructor ()
      ensures Valid() && tasks == map[]
    {
      tasks := map[];
    }

    method Track(t: Task)
      requires Valid()
      modifies this
      ensures Valid() && tasks == old(tasks)[t.id := t]
    {
      tasks := tasks[t.id := t];
    }

    method Remove(id: string) returns (t: Option<Task>)
      requires Valid()
      modifies this
      ensures Valid() && tasks == old(tasks) - {id}
      ensures t == if id in old(tasks) then Some(old(tasks)[id]) else None
    {
      if id !in tasks {
        assert tasks - {id} == tasks;
        return None;
      }
      t := Some(tasks[id]);
      tasks := tasks - {id};
    }

    /** Remove and return the tasks whose deadline has passed: exactly those, each once. */
    method Expired(now: Time) returns (out: seq<Task>)
      requires Valid()
      modifies this
      ensures Valid() && Tracked(out, old(tasks)) && tasks == old(tasks) - IdsOf(out)
      ensures forall id :: id in old(tasks) ==> (id in IdsOf(out) <==> now > old(tasks)[id].deadline)
    {
      out := [];
      ghost var all := tasks;
      ghost var due := map id | id in all && now > all[id].deadline :: all[id];
      var rest := tasks.Keys;
      while rest != {}
        invariant rest <= all.Keys
        invariant tasks == map id | id in all && (id in rest || now <= all[id].deadline) :: all[id]
        invariant ListsOutside(out, due, rest)
      {
        var id :| id in rest;
        if now > tasks[id].deadline {
          ListOneMore(out, due, rest, id);
          out := out + [tasks[id]];
          tasks := tasks - {id};
        }
        rest := rest - {id};
      }
      ListedAll(out, due);
      ListedIds(out, due);
    }
  }

  lemma ListedIds(order: seq<Task>, m: map<string, Task>)
    requires Lists(order, m)
    ensures IdsOf(order) == m.Keys && DistinctIds(order)
  {
    forall id | id in m ensures id in IdsOf(order) {
      var i :| 0 <= i < |order| && order[i].id == id;
    }
  }

  // ---------------------------------------------------------------- the broker

  /** A task as it is enqueued: pending, with an id and a creation time. */
  function Stamped(t: Task, newId: string, now: Time): Task {
    t.(id := if t.id == "" then newId else t.id,
       createdAt := if t.createdAt == ZERO_TIME then now else t.createdAt,
       status := Pending)
  }

  /** The turns of a scan that nothing interrupts. */
  function Callbacks(n: nat): (turns: seq<Turn>)
    ensures |turns| == n && forall k :: 0 <= k < n ==> turns[k] == Expires
  {
    seq(n, i => Expires)
  }

  class DurableBroker {
    const tracker: InFlightTracker
    const wal: WriteAheadLog
    var pq: seq<Task>
    var dlq: seq<Task>
    var acked: nat
    var nacked: nat
    var closed: bool
    var maxRetries: int
    var taskTimeout: int
    const compactEvery: int

    ghost function View(): Broker
      reads this, tracker
    {
      Broker(pq, tracker.tasks, dlq, maxRetries)
    }

    ghost predicate Valid()
      reads this, tracker, wal
    {
      tracker.Valid() && wal.Valid()
    }

    /** Every task is in one place and the log recovers the state. */
    ghost predicate Sound()
      reads this, tracker, wal
    {
      Distinct(View()) && Recovers(View(), wal.Log())
    }

    /** The replay loop. */
    static method FoldEntries(replayed: seq<LogEntry>) returns (live: map<string, Task>, dead: seq<Task>)
      ensures Recovered(live, dead) == Recover(replayed)
    {
      live, dead := map[], [];
      for i := 0 to |replayed|
        invariant Recovered(live, dead) == Recover(replayed[..i])
      {
        var e := replayed[i];
        RecoverNext(replayed[..i], e);
        assert replayed[..i] + [e] == replayed[..i + 1];
        if e.op == OP_ENQUEUE {
          if e.task.Some? {
            var t := e.task.value.(status := Pending, deadline := ZERO_TIME);
            live := live[t.id := t];
          }
        } else if e.op == OP_ACK {
          live := live - {e.taskId};
        } else if e.op == OP_NACK {
          if e.taskId in live {
            var t := live[e.taskId];
            live := live[e.taskId := t.(retryCount := t.retryCount + 1)];
          }
        } else if e.op == OP_DEAD {
          if e.taskId in live {
            dead := dead + [live[e.taskId].(status := Dead)];
            live := live - {e.taskId};
          }
        }
      }
      assert replayed[..|replayed|] == replayed;
    }

    static method HeapOf(live: map<string, Task>) returns (heap: seq<Task>)
      requires Keyed(live)
      ensures Lists(heap, live)
    {
      heap := [];
      var rest := live.Keys;
      while rest != {}
        invariant rest <= live.Keys && ListsOutside(heap, live, rest)
      {
        var id :| id in rest;
        ListOneMore(heap, live, rest, id);
        heap := heap + [live[id]];
        rest := rest - {id};
      }
      ListedAll(heap, live);
    }

    /** Recovery from a file with any content: fold what the scan kept, rebuild heap and dead
        letters, and compact when there was anything to fold. The result is sound exactly when
        no live task shares its id with a dead letter. */
    constructor (c: Codec, bytes: Bytes, maxRetries: int, taskTimeout: int, compactEvery: int)
      requires c.Valid()
      ensures Valid() && fresh(tracker) && fresh(wal)
      ensures Rebuilt(Recover(ReplayAll(c, bytes).entries), View())
      ensures Sound() <==> Apart(Recover(ReplayAll(c, bytes).entries))
      ensures this.maxRetries == maxRetries && this.taskTimeout == taskTimeout && !closed
    {
      hide Recovers, Distinct, Recover, Apart, ReplayAll;
      var log := new WriteAheadLog(c, bytes);
      var replayed := log.ReadAll();
      RecoverTidy(replayed);
      var live, dead := FoldEntries(replayed);
      var heap := HeapOf(live);
      var inflight := new InFlightTracker();
      this.wal, this.tracker := log, inflight;
      this.maxRetries, this.taskTimeout, this.compactEvery := maxRetries, taskTimeout, compactEvery;
      this.closed, this.acked, this.nacked := false, 0, 0;
      pq, dlq := heap, dead;
      new;
      RebuiltRecovers(Recover(replayed), View(), replayed);
      RebuiltDistinct(Recover(replayed), View());
      if |replayed| > 0 {
        Compact();
        if Distinct(View()) {
          CompactedRecovers(View(), wal.Log());
        }
      }
    }

    /** The entries of the live state: pending, then in flight, then dead letters. */
    method LiveEntries() returns (es: seq<LogEntry>)
      requires tracker.Valid()
      ensures IsCompacted(View(), es) && forall i :: 0 <= i < |es| ==> WellFormed(es[i])
    {
      es := [];
      for i := 0 to |pq|
        invariant es == EnqueueEntries(pq[..i])
      {
        es := es + [LogEntry(OP_ENQUEUE, pq[i].id, Some(pq[i]))];
        assert EnqueueEntries(pq[..i + 1]) == EnqueueEntries(pq[..i]) + [EnqueueEntry(pq[i])];
      }
      assert pq[..|pq|] == pq;
      ghost var order: seq<Task> := [];
      var tasks := tracker.tasks;
      var rest := tasks.Keys;
      while rest != {}
        invariant rest <= tasks.Keys && ListsOutside(order, tasks, rest)
        invariant es == EnqueueEntries(pq) + EnqueueEntries(order)
      {
        var id :| id in rest;
        ListOneMore(order, tasks, rest, id);
        es := es + [LogEntry(OP_ENQUEUE, tasks[id].id, Some(tasks[id]))];
        assert EnqueueEntries(order + [tasks[id]]) == EnqueueEntries(order) + [EnqueueEntry(tasks[id])];
        order := order + [tasks[id]];
        rest := rest - {id};
      }
      ListedAll(order, tasks);
      ghost var live := es;
      for i := 0 to |dlq|
        invariant es == live + DeadPairs(dlq[..i])
      {
        es := es + [LogEntry(OP_ENQUEUE, dlq[i].id, Some(dlq[i])), LogEntry(OP_DEAD, dlq[i].id, None)];
        assert dlq[..i + 1][..i] == dlq[..i];
      }
      assert dlq[..|dlq|] == dlq;
      assert es == Compacted(View(), order);
      CompactedWellFormed(View(), order);
    }

    /** Rewrite the log to the live state. */
    method Compact()
      requires Valid()
      modifies wal
      ensures Valid() && IsCompacted(View(), wal.Log()) && wal.entries == 0 && wal.writeSeq == old(wal.writeSeq)
    {
      hide IsCompacted, EncodeAll, ReadsAs, AllWritable;
      var es := LiveEntries();
      wal.Rewrite(es);
    }

    method MaybeCompact()
      requires Valid()
      modifies wal
      ensures Valid() && wal.writeSeq == old(wal.writeSeq)
      ensures if compactEvery > 0 && old(wal.entries) >= compactEvery
              then IsCompacted(View(), wal.Log()) && wal.entries == 0
              else wal.Log() == old(wal.Log()) && wal.entries == old(wal.entries)
    {
      if compactEvery <= 0 || wal.entries < compactEvery {
        return;
      }
      Compact();
    }

    /** The broker and its log between two calls. */
    ghost function Now(): Moment
      reads this, tracker, wal
    {
      Moment(View(), wal.Log(), wal.entries)
    }

    /** The log after an operation that wrote `e` as `record`: one entry longer, or compacted at
        the threshold. */
    twostate predicate LogsEntry(e: LogEntry, record: nat)
      reads this, tracker, wal
    {
      record == wal.writeSeq == old(wal.writeSeq) + 1 && Logs(old(Now()), e, compactEvery, Now())
    }

    /** The call is such a turn of a scan with the tasks `due` to come. */
    twostate predicate IsTurn(turn: Turn, due: seq<Task>)
      reads this, tracker, wal
    {
      Takes(Point(old(Now()), due), turn, compactEvery, Point(Now(), due))
    }

    twostate predicate IsTurnOfAny(turn: Turn)
      reads this, tracker, wal
    {
      forall due :: IsTurn(turn, due)
    }

    /** Nothing was written and nothing changed. */
    twostate predicate Untouched()
      reads this, tracker, wal
    {
      View() == old(View()) && wal.Log() == old(wal.Log()) && wal.writeSeq == old(wal.writeSeq)
    }

    /** Any id is accepted; every task stays in one place, and the log keeps recovering the state,
        if and only if the id is not in use. */
    method Enqueue(task: Task, newId: string, now: Time) returns (r: Outcome)
      requires Valid()
      modifies this`pq, wal
      ensures Valid()
      ensures old(Sound()) ==> (Sound() <==> closed || Fresh(old(View()), Stamped(task, newId, now).id))
      ensures closed ==> r == ErrClosed && Untouched()
      ensures !closed ==> r == Written(wal.writeSeq) && View() == Enqueued(old(View()), Stamped(task, newId, now))
      ensures !closed ==> LogsEntry(EnqueueEntry(Stamped(task, newId, now)), wal.writeSeq)
      ensures !closed ==> pq == old(pq) + [task.(
                id := if task.id == "" then newId else task.id,
                createdAt := if task.createdAt == ZERO_TIME then now else task.createdAt,
                status := Pending)]
      ensures !closed && (compactEvery <= 0 || old(wal.entries) + 1 < compactEvery) ==>
                var t := pq[|old(pq)|];
                wal.Log() == old(wal.Log()) + [LogEntry(OP_ENQUEUE, t.id, Some(t))]
      ensures !closed ==> forall due :: Fresh(With(old(View()), due), Stamped(task, newId, now).id) ==>
                            IsTurn(Enqueues(Stamped(task, newId, now)), due)
    {
      hide Distinct, Recovers, IsCompacted, EncodeAll, ReadsAs, Fits;
      var t := Stamped(task, newId, now);
      if closed {
        return ErrClosed;
      }
      var record := wal.AppendTask(t);
      pq := pq + [t];
      MaybeCompact();
      r := Written(record);
      if old(Sound()) {
        EnqueueIsSound(old(View()), old(wal.Log()), t);
        if Fresh(old(View()), t.id) {
          EitherRecovers(View(), old(wal.Log()) + [EnqueueEntry(t)], wal.Log());
        }
      }
    }

    /** Dequeue hands out a first task by priority and age and logs nothing. */
    method Dequeue(now: Time) returns (r: Outcome)
      requires Valid()
      modifies this`pq, tracker
      ensures Valid() && (old(Sound()) ==> Sound())
      ensures closed ==> r == ErrClosed && Untouched()
      ensures !closed && old(pq) == [] ==> r == ErrEmpty && Untouched()
      ensures !closed && old(pq) != [] ==>
                exists i: nat :: BrokerSystem.First(old(pq), i)
                  && View() == Dequeued(old(View()), i, now + taskTimeout)
                  && IsTurnOfAny(Delivers(i, now + taskTimeout))
                  && r == Delivered(old(pq)[i].(status := InFlight, deadline := now + taskTimeout))
                  && pq == old(pq)[..i] + old(pq)[i + 1..] && tracker.tasks == old(tracker.tasks)[r.task.id := r.task]
      ensures r.Delivered? ==> forall u :: u in old(pq) ==>
                r.task.priority <= u.priority && (r.task.priority == u.priority ==> r.task.createdAt <= u.createdAt)
    {
      hide Distinct, Recovers, BrokerSystem.First, EncodeAll, ReadsAs, Takes;
      if closed {
        return ErrClosed;
      }
      if pq == [] {
        return ErrEmpty;
      }
      SomeIsFirst(pq);
      var i: nat :| i < |pq| && BrokerSystem.First(pq, i);
      if Sound() {
        DequeueIsSound(View(), wal.Log(), i, now + taskTimeout);
      }
      var t := pq[i].(status := InFlight, deadline := now + taskTimeout);
      pq := pq[..i] + pq[i + 1..];
      tracker.Track(t);
      r := Delivered(t);
      FirstOfAll(old(pq), i);
      DeliveryIsTurn(old(Now()), i, now + taskTimeout, compactEvery);
      assert View() == Dequeued(old(View()), i, now + taskTimeout);
    }

    method Ack(id: string) returns (r: Outcome)
      requires Valid()
      modifies this`acked, tracker, wal
      ensures Valid() && (old(Sound()) ==> Sound())
      ensures closed ==> r == ErrClosed && Untouched()
      ensures !closed && id !in old(tracker.tasks) ==> r == ErrUnknownTask && Untouched()
      ensures !closed && id in old(tracker.tasks) ==>
                && r == Written(wal.writeSeq) && acked == old(acked) + 1
                && View() == AckedTask(old(View()), id) && LogsEntry(IdEntry(OP_ACK, id), wal.writeSeq)
                && IsTurnOfAny(Acks(id))
    {
      hide Distinct, Recovers, IsCompacted, EncodeAll, ReadsAs, Fits;
      if closed {
        return ErrClosed;
      }
      var t := tracker.Remove(id);
      if t.None? {
        assert View().inflight == old(View()).inflight;
        return ErrUnknownTask;
      }
      if old(Sound()) {
        AckDistinct(old(View()), id);
        AckRecovers(old(View()), old(wal.Log()), id);
      }
      var record := wal.AppendId(OP_ACK, id);
      acked := acked + 1;
      MaybeCompact();
      r := Written(record);
      if old(Sound()) {
        EitherRecovers(View(), old(wal.Log()) + [IdEntry(OP_ACK, id)], wal.Log());
      }
    }

    /** The path shared by nacks and timeouts, for a task that is out of the tracker: count the
        retry, then dead-letter or requeue. */
    method Requeue(t: Task) returns (record: nat)
      requires Valid()
      modifies this`nacked, this`pq, this`dlq, wal
      ensures Valid() && nacked == old(nacked) + 1
      ensures View() == PutBack(old(View()), t) && LogsEntry(PutBackEntry(old(View()), t), record)
      ensures var t' := t.(retryCount := t.retryCount + 1);
              if t.retryCount + 1 >= maxRetries then pq == old(pq) && dlq == old(dlq) + [t'.(status := Dead)]
              else dlq == old(dlq) && pq == old(pq) + [t'.(status := Pending, deadline := ZERO_TIME)]
    {
      hide IsCompacted, EncodeAll, ReadsAs, Fits;
      nacked := nacked + 1;
      var t1 := t.(retryCount := t.retryCount + 1);
      if t1.retryCount >= maxRetries {
        record := wal.AppendId(OP_DEAD, t.id);
        dlq := dlq + [t1.(status := Dead)];
      } else {
        record := wal.AppendId(OP_NACK, t.id);
        pq := pq + [t1.(status := Pending, deadline := ZERO_TIME)];
      }
      MaybeCompact();
    }

    method Nack(id: string) returns (r: Outcome)
      requires Valid()
      modifies this`nacked, this`pq, this`dlq, tracker, wal
      ensures Valid() && (old(Sound()) ==> Sound())
      ensures closed ==> r == ErrClosed && Untouched()
      ensures !closed && id !in old(tracker.tasks) ==> r == ErrUnknownTask && Untouched()
      ensures !closed && id in old(tracker.tasks) ==>
                && r == Written(wal.writeSeq) && nacked == old(nacked) + 1
                && View() == Requeued(old(View()), id) && LogsEntry(RequeueEntry(old(View()), id), wal.writeSeq)
                && IsTurnOfAny(Nacks(id))
    {
      hide Distinct, Recovers, IsCompacted, PutBack, EncodeAll, ReadsAs;
      if closed {
        return ErrClosed;
      }
      var t := tracker.Remove(id);
      if t.None? {
        assert View().inflight == old(View()).inflight;
        return ErrUnknownTask;
      }
      var record := Requeue(t.value);
      r := Written(record);
      if old(Sound()) {
        RequeueDistinct(old(View()), id);
        RequeueRecovers(old(View()), old(wal.Log()), id);
        EitherRecovers(View(), old(wal.Log()) + [RequeueEntry(old(View()), id)], wal.Log());
      }
    }

    /** The tracker's callback for an overdue task it has already given up. */
    method OnTimeout(t: Task)
      requires Valid()
      modifies this`nacked, this`pq, this`dlq, wal
      ensures Valid()
      ensures if closed then Now() == old(Now()) else TimesOut(old(Now()), t, compactEvery, Now())
    {
      hide IsCompacted, PutBack, EncodeAll, ReadsAs;
      if closed {
        return;
      }
      var record := Requeue(t);
    }

    /** One expiry scan that no other call interrupts: the tracker gives up every overdue task,
        then the callback runs for each. */
    method ScanExpired(now: Time) returns (ghost due: seq<Task>, ghost ps: seq<Point>)
      requires Valid()
      modifies this`nacked, this`pq, this`dlq, tracker, wal
      ensures Valid() && Tracked(due, old(tracker.tasks))
      ensures forall id :: id in old(tracker.tasks) ==> (id in IdsOf(due) <==> now > old(tracker.tasks)[id].deadline)
      ensures |ps| == |due| + 1 && ps[|due|].at == Now()
      ensures ps[0] == Point(Moment(GivenUp(old(View()), due), old(wal.Log()), old(wal.entries)), due)
      ensures if closed then Now() == ps[0].at else IsScan(ps, Callbacks(|due|), compactEvery)
    {
      hide TimesOut, EncodeAll, ReadsAs;
      var expired := tracker.Expired(now);
      due, ps := expired, [Point(Now(), expired)];
      for i := 0 to |expired|
        invariant Valid() && |ps| == i + 1 && ps[i].at == Now() && (closed || ps[i].due == due[i..])
        invariant ps[0] == Point(Moment(GivenUp(old(View()), due), old(wal.Log()), old(wal.entries)), due)
        invariant if closed then Now() == ps[0].at
                  else forall k :: 0 <= k < i ==> TakesAt(ps, Callbacks(|due|), compactEvery, k)
      {
        ghost var before := ps;
        OnTimeout(expired[i]);
        ps := ps + [Point(Now(), due[i + 1..])];
        if !closed {
          assert due[i..][1..] == due[i + 1..];
          forall k | 0 <= k < i + 1 ensures TakesAt(ps, Callbacks(|due|), compactEvery, k) {
            assert k < i ==> TakesAt(before, Callbacks(|due|), compactEvery, k);
          }
        }
      }
    }

    method ApplyTuning(timeout: int, retries: int)
      requires Valid()
      modifies this`taskTimeout, this`maxRetries
      ensures Valid() && (old(Sound()) ==> Sound())
      ensures View() == Tuned(old(View()), retries) && IsTurnOfAny(Tunes(retries))
      ensures taskTimeout == if timeout > 0 then timeout else old(taskTimeout)
      ensures maxRetries == if retries > 0 then retries else old(maxRetries)
    {
      if timeout > 0 {
        taskTimeout := timeout;
      }
      if retries > 0 {
        maxRetries := retries;
      }
    }
  }
}
