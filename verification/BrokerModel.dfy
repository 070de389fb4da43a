/** The durable broker as values (broker/broker.go): its state, its operations, the entries they
    log, and the fold that rebuilds the state from the log. */
module BrokerModel {
  import opened Tasks
  import opened WalCodec

  /** The heap's slice of pending tasks, the in-flight tasks by id, and the dead letters. */
  datatype Broker = Broker(
    pending: seq<Task>,
    inflight: map<string, Task>,
    dlq: seq<Task>,
    maxRetries: int)

  /** What recovery rebuilds: the live tasks by id and the dead letters in order. */
  datatype Recovered = Recovered(live: map<string, Task>, dlq: seq<Task>)

  const NOTHING := Recovered(map[], [])

  // ---------------------------------------------------------------- the replay fold

  function Bump(t: Task): Task {
    t.(retryCount := t.retryCount + 1)
  }

  function Fold1(r: Recovered, e: LogEntry): Recovered {
    if e.op == OP_ENQUEUE && e.task.Some? then
      r.(live := r.live[e.task.value.id := Core(e.task.value)])
    else if e.op == OP_ACK then r.(live := r.live - {e.taskId})
    else if e.op == OP_NACK && e.taskId in r.live then
      r.(live := r.live[e.taskId := Bump(r.live[e.taskId])])
    else if e.op == OP_DEAD && e.taskId in r.live then
      Recovered(r.live - {e.taskId}, r.dlq + [r.live[e.taskId].(status := Dead)])
    else r
  }

  function Fold(r: Recovered, log: seq<LogEntry>): Recovered {
    if log == [] then r else Fold1(Fold(r, log[..|log| - 1]), log[|log| - 1])
  }

  function Recover(log: seq<LogEntry>): Recovered {
    Fold(NOTHING, log)
  }

  lemma {:induction false} FoldConcat(r: Recovered, a: seq<LogEntry>, b: seq<LogEntry>)
    ensures Fold(r, a + b) == Fold(Fold(r, a), b)
  {
    if b == [] {
      assert a + b == a;
    } else {
      assert (a + b)[..|a + b| - 1] == a + b[..|b| - 1];
      FoldConcat(r, a, b[..|b| - 1]);
    }
  }

  lemma RecoverNext(log: seq<LogEntry>, e: LogEntry)
    ensures Recover(log + [e]) == Fold1(Recover(log), e)
  {
    assert (log + [e])[..|log|] == log;
  }

  /** Recovered tasks are filed under their own ids, as pending and without a deadline. */
  ghost predicate Tidy(r: Recovered) {
    forall id :: id in r.live ==> r.live[id].id == id && Core(r.live[id]) == r.live[id]
  }

  lemma {:induction false} RecoverTidy(log: seq<LogEntry>)
    ensures Tidy(Recover(log))
  {
    if log != [] {
      RecoverTidy(log[..|log| - 1]);
    }
  }

  // ---------------------------------------------------------------- operations

  function Enqueued(b: Broker, t: Task): Broker {
    b.(pending := b.pending + [t.(status := Pending)])
  }

  function Without(ts: seq<Task>, i: nat): seq<Task>
    requires i < |ts|
  {
    ts[..i] + ts[i + 1..]
  }

  function Dequeued(b: Broker, i: nat, deadline: Time): Broker
    requires i < |b.pending|
  {
    var t := b.pending[i].(status := InFlight, deadline := deadline);
    b.(pending := Without(b.pending, i), inflight := b.inflight[t.id := t])
  }

  function AckedTask(b: Broker, id: string): Broker {
    b.(inflight := b.inflight - {id})
  }

  /** The shared nack and timeout path for a task that is out of the tracker: count the retry,
      then dead-letter or requeue. */
  function PutBack(b: Broker, t: Task): Broker {
    var t' := Bump(t);
    if t'.retryCount >= b.maxRetries then b.(dlq := b.dlq + [t'.(status := Dead)])
    else b.(pending := b.pending + [Core(t')])
  }

  function PutBackEntry(b: Broker, t: Task): LogEntry {
    IdEntry(if t.retryCount + 1 >= b.maxRetries then OP_DEAD else OP_NACK, t.id)
  }

  function Requeued(b: Broker, id: string): Broker
    requires id in b.inflight
  {
    PutBack(b.(inflight := b.inflight - {id}), b.inflight[id])
  }

  function RequeueEntry(b: Broker, id: string): LogEntry
    requires id in b.inflight
  {
    PutBackEntry(b, b.inflight[id])
  }

  function Tuned(b: Broker, maxRetries: int): Broker {
    if maxRetries > 0 then b.(maxRetries := maxRetries) else b
  }

  // ---------------------------------------------------------------- compaction

  function EnqueueEntries(ts: seq<Task>): (es: seq<LogEntry>)
    ensures |es| == |ts| && forall i :: 0 <= i < |es| ==> es[i] == EnqueueEntry(ts[i])
  {
    seq(|ts|, i requires 0 <= i < |ts| => EnqueueEntry(ts[i]))
  }

  function DeadPairs(ts: seq<Task>): seq<LogEntry> {
    if ts == [] then []
    else DeadPairs(ts[..|ts| - 1]) + [EnqueueEntry(ts[|ts| - 1]), IdEntry(OP_DEAD, ts[|ts| - 1].id)]
  }

  /** `order` lists the in-flight tasks once each, in any order. */
  ghost predicate Lists(order: seq<Task>, m: map<string, Task>) {
    && (forall i, j :: 0 <= i < j < |order| ==> order[i].id != order[j].id)
    && (forall i :: 0 <= i < |order| ==> order[i].id in m && m[order[i].id] == order[i])
    && (forall id :: id in m ==> exists i :: 0 <= i < |order| && order[i].id == id)
  }

  /** The compacted log: an enqueue per pending and in-flight task, then a pair per dead one. */
  function Compacted(b: Broker, order: seq<Task>): seq<LogEntry> {
    EnqueueEntries(b.pending) + EnqueueEntries(order) + DeadPairs(b.dlq)
  }

  // ---------------------------------------------------------------- what the state owes

  /** The live tasks among `ts`, by id; a later task with the same id hides an earlier one. */
  function ById(ts: seq<Task>): map<string, Task> {
    if ts == [] then map[] else ById(ts[..|ts| - 1])[ts[|ts| - 1].id := Core(ts[|ts| - 1])]
  }

  function CoreAll(m: map<string, Task>): map<string, Task> {
    map id | id in m :: Core(m[id])
  }

  /** The pending and in-flight tasks by id, with their retry counts. */
  function LiveOf(b: Broker): map<string, Task> {
    ById(b.pending) + CoreAll(b.inflight)
  }

  function CoresOf(m: map<string, Task>): set<Task> {
    set id | id in m :: Core(m[id])
  }

  /** What must come back after a crash: each pending and each in-flight task, with its retry
      count, and as often as it is there. */
  function Owed(b: Broker): multiset<Task> {
    multiset(Cores(b.pending)) + multiset(CoresOf(b.inflight))
  }

  /** A dead letter without the fields replay does not restore. */
  function DeadCore(t: Task): Task {
    t.(status := Dead, deadline := ZERO_TIME, retryCount := 0)
  }

  function DeadCores(ts: seq<Task>): (r: seq<Task>)
    ensures |r| == |ts| && forall i :: 0 <= i < |ts| ==> r[i] == DeadCore(ts[i])
  {
    seq(|ts|, i requires 0 <= i < |ts| => DeadCore(ts[i]))
  }

  ghost predicate InSeq(id: string, ts: seq<Task>) {
    exists i :: 0 <= i < |ts| && ts[i].id == id
  }

  ghost predicate DistinctIds(ts: seq<Task>) {
    forall i, j :: 0 <= i < j < |ts| ==> ts[i].id != ts[j].id
  }

  /** Every task id is in one place only. */
  ghost predicate Distinct(b: Broker) {
    && DistinctIds(b.pending)
    && Keyed(b.inflight)
    && (forall i :: 0 <= i < |b.pending| ==> b.pending[i].id !in b.inflight)
    && (forall i :: 0 <= i < |b.dlq| ==> b.dlq[i].id !in b.inflight && !InSeq(b.dlq[i].id, b.pending))
  }

  /** The recovery invariant: replaying the log yields exactly the live tasks as pending, none
      dropped and none twice, and the dead letters in order. */
  ghost predicate Recovers(b: Broker, log: seq<LogEntry>) {
    && multiset(CoresOf(Recover(log).live)) == Owed(b)
    && DeadCores(Recover(log).dlq) == DeadCores(b.dlq)
  }

  /** The same with the live tasks taken by id, so that of two with one id the later counts. */
  ghost predicate RecoversById(b: Broker, log: seq<LogEntry>) {
    && Recover(log).live == LiveOf(b)
    && DeadCores(Recover(log).dlq) == DeadCores(b.dlq)
  }

  /** Tasks are filed under their own ids. */
  ghost predicate Keyed(m: map<string, Task>) {
    forall id :: id in m ==> m[id].id == id
  }

  /** No two live tasks share an id. */
  ghost predicate OneEach(b: Broker) {
    DistinctIds(b.pending) && forall i :: 0 <= i < |b.pending| ==> b.pending[i].id !in b.inflight
  }

  // ---------------------------------------------------------------- lemmas about ById

  lemma {:induction false} ByIdKeys(ts: seq<Task>, id: string)
    ensures id in ById(ts) <==> InSeq(id, ts)
  {
    if ts != [] {
      var k := |ts| - 1;
      ByIdKeys(ts[..k], id);
      if InSeq(id, ts[..k]) {
        var i :| 0 <= i < k && ts[..k][i].id == id;
        assert ts[i].id == id;
      }
      if InSeq(id, ts) && id != ts[k].id {
        var i :| 0 <= i < |ts| && ts[i].id == id;
        assert ts[..k][i].id == id;
      }
    }
  }

  lemma {:induction false} ByIdAt(ts: seq<Task>, i: nat)
    requires DistinctIds(ts) && i < |ts|
    ensures ts[i].id in ById(ts) && ById(ts)[ts[i].id] == Core(ts[i])
  {
    var k := |ts| - 1;
    if i < k {
      assert ts[..k][i] == ts[i];
      ByIdAt(ts[..k], i);
    }
  }

  /** Taking one task out of the heap takes exactly its id out of the live tasks. */
  lemma {:induction false} ByIdWithout(ts: seq<Task>, i: nat)
    requires DistinctIds(ts) && i < |ts|
    ensures ById(Without(ts, i)) == ById(ts) - {ts[i].id}
    decreases |ts|
  {
    hide ById, InSeq;
    var k := |ts| - 1;
    assert ts == ts[..k] + [ts[k]];
    ByIdAppend(ts[..k], ts[k]);
    if i == k {
      assert Without(ts, i) == ts[..k];
      LastIsNew(ts);
      ByIdKeys(ts[..k], ts[k].id);
    } else {
      ByIdWithout(ts[..k], i);
      assert Without(ts, i) == Without(ts[..k], i) + [ts[k]];
      ByIdAppend(Without(ts[..k], i), ts[k]);
      assert ts[..k][i] == ts[i];
    }
  }

  lemma LastIsNew(ts: seq<Task>)
    requires DistinctIds(ts) && ts != []
    ensures !InSeq(ts[|ts| - 1].id, ts[..|ts| - 1])
  {
  }

  lemma WithoutDistinct(ts: seq<Task>, i: nat)
    requires DistinctIds(ts) && i < |ts|
    ensures DistinctIds(Without(ts, i)) && !InSeq(ts[i].id, Without(ts, i))
    ensures forall j :: 0 <= j < |Without(ts, i)| ==> InSeq(Without(ts, i)[j].id, ts)
  {
    var rest := Without(ts, i);
    assert forall j :: 0 <= j < |rest| ==> rest[j] == ts[if j < i then j else j + 1];
  }

  lemma ByIdAppend(ts: seq<Task>, t: Task)
    ensures ById(ts + [t]) == ById(ts)[t.id := Core(t)]
  {
    assert (ts + [t])[..|ts|] == ts;
  }

  // ---------------------------------------------------------------- tasks by id and as they are

  lemma CoresOfOne(m: map<string, Task>, t: Task)
    requires Keyed(m) && t.id !in m
    ensures multiset(CoresOf(m[t.id := t])) == multiset(CoresOf(m)) + multiset{Core(t)}
  {
    var m' := m[t.id := t];
    assert Core(m'[t.id]) == Core(t);
    assert forall id :: id in m ==> id in m' && m'[id] == m[id];
    assert CoresOf(m') == CoresOf(m) + {Core(t)};
    assert Core(t) !in CoresOf(m);
  }

  /** Tasks with distinct ids lose nothing by being filed under them. */
  lemma {:induction false} CoresById(ts: seq<Task>)
    requires DistinctIds(ts)
    ensures Keyed(ById(ts)) && multiset(Cores(ts)) == multiset(CoresOf(ById(ts)))
  {
    hide CoresOf, InSeq, Core;
    if ts == [] {
      assert ById(ts) == map[] && Cores(ts) == [];
      NoCores();
    } else {
      var k := |ts| - 1;
      var t := ts[k];
      CoresById(ts[..k]);
      LastIsNew(ts);
      ByIdKeys(ts[..k], t.id);
      CoreOfCore(t);
      CoresOfOne(ById(ts[..k]), Core(t));
      assert Cores(ts) == Cores(ts[..k]) + [Core(t)];
    }
  }

  lemma NoCores()
    ensures CoresOf(map[]) == {}
  {
  }

  lemma CoreOfCore(t: Task)
    ensures Core(Core(t)) == Core(t) && Core(t).id == t.id
  {
  }

  lemma CoresOfMerge(a: map<string, Task>, b: map<string, Task>)
    requires Keyed(a) && Keyed(b) && a.Keys !! b.Keys
    ensures multiset(CoresOf(a + b)) == multiset(CoresOf(a)) + multiset(CoresOf(b))
  {
    var m := a + b;
    assert forall id :: id in a ==> id in m && m[id] == a[id];
    assert forall id :: id in b ==> id in m && m[id] == b[id];
    assert CoresOf(m) == CoresOf(a) + CoresOf(b);
    assert CoresOf(a) !! CoresOf(b);
  }

  lemma CoresOfCoreAll(m: map<string, Task>)
    ensures CoresOf(CoreAll(m)) == CoresOf(m) && (Keyed(m) ==> Keyed(CoreAll(m)))
  {
    var c := CoreAll(m);
    assert forall id :: id in m ==> id in c && Core(c[id]) == Core(m[id]);
  }

  lemma OwedIsLive(b: Broker)
    requires OneEach(b) && Keyed(b.inflight)
    ensures Owed(b) == multiset(CoresOf(LiveOf(b)))
  {
    hide CoresOf, ById, Cores;
    CoresById(b.pending);
    CoresOfCoreAll(b.inflight);
    forall id | id in ById(b.pending) ensures id !in b.inflight {
      ByIdKeys(b.pending, id);
    }
    CoresOfMerge(ById(b.pending), CoreAll(b.inflight));
  }

  lemma Twice(ts: seq<Task>, i: nat, j: nat)
    requires i < j < |ts| && ts[i] == ts[j]
    ensures multiset(ts)[ts[i]] >= 2
  {
    assert ts == ts[..j] + ts[j..];
    assert ts[..j][i] in ts[..j] && ts[j..][0] in ts[j..];
  }

  /** In a table of tasks by id, a task is found under its id. */
  lemma FiledUnderId(m: map<string, Task>, t: Task)
    requires Keyed(m) && t in CoresOf(m)
    ensures t.id in m && Core(m[t.id]) == t
  {
  }

  /** If what is owed has come back filed by id, no two live tasks share an id. */
  lemma OwedOneEach(b: Broker, m: map<string, Task>)
    requires Keyed(m) && Keyed(b.inflight) && Owed(b) == multiset(CoresOf(m))
    ensures OneEach(b)
  {
    hide CoresOf, Owed, Cores;
    forall i, j | 0 <= i < j < |b.pending| ensures b.pending[i].id != b.pending[j].id {
      if b.pending[i].id == b.pending[j].id {
        PendingOnce(b, m, i);
        PendingOnce(b, m, j);
        Twice(Cores(b.pending), i, j);
      }
    }
    forall i | 0 <= i < |b.pending| ensures b.pending[i].id !in b.inflight {
      if b.pending[i].id in b.inflight {
        PendingOnce(b, m, i);
        InFlightOwed(b, b.pending[i].id);
        FiledUnderId(m, Core(b.inflight[b.pending[i].id]));
      }
    }
  }

  /** A pending task that has come back is owed once. */
  lemma PendingOnce(b: Broker, m: map<string, Task>, i: nat)
    requires Keyed(m) && Owed(b) == multiset(CoresOf(m)) && i < |b.pending|
    ensures var t := Core(b.pending[i]);
            && t.id in m && Core(m[t.id]) == t
            && multiset(Cores(b.pending))[t] == 1 && t !in multiset(CoresOf(b.inflight))
  {
    hide CoresOf;
    var cs, t := Cores(b.pending), Core(b.pending[i]);
    assert cs[i] in multiset(cs);
    assert multiset(CoresOf(m))[t] == multiset(cs)[t] + multiset(CoresOf(b.inflight))[t];
    assert t in CoresOf(m) && multiset(CoresOf(m))[t] == 1;
    FiledUnderId(m, t);
  }

  lemma InFlightOwed(b: Broker, id: string)
    requires id in b.inflight
    ensures Core(b.inflight[id]) in multiset(CoresOf(b.inflight)) && Core(b.inflight[id]) in Owed(b)
  {
  }

  /** Tables of tasks by id are as good as the tasks in them. */
  lemma SameTable(a: map<string, Task>, b: map<string, Task>)
    requires Keyed(a) && Keyed(b) && CoresOf(a) == CoresOf(b)
    requires CoreAll(a) == a && CoreAll(b) == b
    ensures a == b
  {
    forall id | id in a ensures id in b && b[id] == a[id] {
      assert Core(a[id]) in CoresOf(a);
      FiledUnderId(b, Core(a[id]));
      assert CoreAll(a)[id] == a[id] && CoreAll(b)[id] == b[id];
    }
    forall id | id in b ensures id in a {
      assert Core(b[id]) in CoresOf(b);
      FiledUnderId(a, Core(b[id]));
    }
  }

  lemma LiveIsCore(b: Broker)
    requires Keyed(b.inflight) && OneEach(b)
    ensures Keyed(LiveOf(b)) && CoreAll(LiveOf(b)) == LiveOf(b)
  {
    CoresById(b.pending);
    ByIdIsCore(b.pending);
  }

  lemma {:induction false} ByIdIsCore(ts: seq<Task>)
    ensures CoreAll(ById(ts)) == ById(ts)
  {
    if ts != [] {
      var k := |ts| - 1;
      ByIdIsCore(ts[..k]);
      var m := ById(ts[..k]);
      forall id | id in ById(ts) ensures Core(ById(ts)[id]) == ById(ts)[id] {
        assert id in m ==> CoreAll(m)[id] == m[id];
      }
    }
  }

  /** Recovery of every live task is recovery by id of live tasks with an id each. */
  lemma RecoversExactly(b: Broker, log: seq<LogEntry>)
    requires Keyed(b.inflight)
    ensures Recovers(b, log) <==> RecoversById(b, log) && OneEach(b)
  {
    hide Recover, CoresOf, Owed, LiveOf, OneEach, DeadCores;
    var live := Recover(log).live;
    RecoverTidy(log);
    assert CoreAll(live) == live;
    if Recovers(b, log) {
      OwedOneEach(b, live);
    }
    if OneEach(b) {
      OwedIsLive(b);
      LiveIsCore(b);
      if multiset(CoresOf(live)) == multiset(CoresOf(LiveOf(b))) {
        assert forall t :: t in CoresOf(live) <==> t in multiset(CoresOf(live));
        assert forall t :: t in CoresOf(LiveOf(b)) <==> t in multiset(CoresOf(LiveOf(b)));
        assert CoresOf(live) == CoresOf(LiveOf(b));
        SameTable(live, LiveOf(b));
      }
    }
  }

  lemma RecoversDistinct(b: Broker, log: seq<LogEntry>)
    requires Distinct(b)
    ensures Recovers(b, log) <==> RecoversById(b, log)
  {
    hide Recovers, RecoversById;
    RecoversExactly(b, log);
  }

  // ---------------------------------------------------------------- every operation keeps recovery

  lemma DeadCoresAppend(ts: seq<Task>, t: Task)
    ensures DeadCores(ts + [t]) == DeadCores(ts) + [DeadCore(t)]
  {
  }

  lemma InSeqAppend(id: string, ts: seq<Task>, t: Task)
    ensures InSeq(id, ts + [t]) <==> InSeq(id, ts) || t.id == id
  {
    if InSeq(id, ts) {
      var j :| 0 <= j < |ts| && ts[j].id == id;
      assert (ts + [t])[j].id == id;
    }
    assert (ts + [t])[|ts|] == t;
  }

  ghost predicate Fresh(b: Broker, id: string) {
    id !in b.inflight && !InSeq(id, b.pending) && !InSeq(id, b.dlq)
  }

  lemma LiveKeys(b: Broker, id: string)
    ensures id in LiveOf(b) <==> id in b.inflight || InSeq(id, b.pending)
  {
    ByIdKeys(b.pending, id);
  }

  /** Ids stay distinct exactly when the new one is not in use. */
  lemma EnqueueDistinct(b: Broker, t: Task)
    ensures Distinct(b) ==> (Distinct(Enqueued(b, t)) <==> Fresh(b, t.id))
  {
    var b' := Enqueued(b, t);
    forall id ensures InSeq(id, b'.pending) <==> InSeq(id, b.pending) || t.id == id {
      InSeqAppend(id, b.pending, t.(status := Pending));
    }
    assert b'.pending[|b.pending|].id == t.id;
    assert forall i :: 0 <= i < |b.pending| ==> b'.pending[i] == b.pending[i];
  }

  /** The log keeps recovering every live task over an enqueue if and only if the id belongs to
      no live task. */
  lemma EnqueueRecovers(b: Broker, log: seq<LogEntry>, t: Task)
    requires Keyed(b.inflight) && Recovers(b, log)
    ensures Recovers(Enqueued(b, t), log + [EnqueueEntry(t.(status := Pending))]) <==>
            t.id !in b.inflight && !InSeq(t.id, b.pending)
  {
    hide ById, DeadCores, Recovers, InSeq;
    var t', b' := t.(status := Pending), Enqueued(b, t);
    var log' := log + [EnqueueEntry(t')];
    RecoversExactly(b, log);
    RecoversExactly(b', log');
    EnqueueOneEach(b, t);
    if t.id !in b.inflight {
      RecoverNext(log, EnqueueEntry(t'));
      ByIdAppend(b.pending, t');
      assert LiveOf(b') == LiveOf(b)[t.id := Core(t')];
    }
  }

  lemma EnqueueIsSound(b: Broker, log: seq<LogEntry>, t: Task)
    requires Distinct(b) && Recovers(b, log)
    ensures Distinct(Enqueued(b, t)) <==> Fresh(b, t.id)
    ensures Fresh(b, t.id) ==> Recovers(Enqueued(b, t), log + [EnqueueEntry(t.(status := Pending))])
  {
    hide Recovers, InSeq;
    EnqueueDistinct(b, t);
    EnqueueRecovers(b, log, t);
  }

  lemma EnqueueOneEach(b: Broker, t: Task)
    requires OneEach(b)
    ensures OneEach(Enqueued(b, t)) <==> t.id !in b.inflight && !InSeq(t.id, b.pending)
  {
    var b' := Enqueued(b, t);
    assert b'.pending[|b.pending|].id == t.id;
    assert forall i :: 0 <= i < |b.pending| ==> b'.pending[i] == b.pending[i];
  }

  lemma DequeueDistinct(b: Broker, i: nat, deadline: Time)
    requires Distinct(b) && i < |b.pending|
    ensures Distinct(Dequeued(b, i, deadline))
  {
    WithoutDistinct(b.pending, i);
    var b', id := Dequeued(b, i, deadline), b.pending[i].id;
    forall j | 0 <= j < |b'.pending| ensures b'.pending[j].id !in b'.inflight {
      assert InSeq(b'.pending[j].id, b.pending);
    }
    forall j | 0 <= j < |b'.dlq| ensures b'.dlq[j].id !in b'.inflight && !InSeq(b'.dlq[j].id, b'.pending) {
      assert !InSeq(b.dlq[j].id, b.pending);
    }
  }

  /** Dequeue is not logged and need not be: what must come back does not change. */
  lemma DequeueKeepsLive(b: Broker, i: nat, deadline: Time)
    requires Distinct(b) && i < |b.pending|
    ensures LiveOf(Dequeued(b, i, deadline)) == LiveOf(b)
  {
    hide ById, InSeq;
    var t := b.pending[i];
    ByIdWithout(b.pending, i);
    ByIdAt(b.pending, i);
    var b' := Dequeued(b, i, deadline);
    assert CoreAll(b'.inflight) == CoreAll(b.inflight)[t.id := Core(t)];
  }

  lemma DequeueIsSound(b: Broker, log: seq<LogEntry>, i: nat, deadline: Time)
    requires Distinct(b) && Recovers(b, log) && i < |b.pending|
    ensures Distinct(Dequeued(b, i, deadline)) && Recovers(Dequeued(b, i, deadline), log)
  {
    hide Distinct, Recovers;
    DequeueDistinct(b, i, deadline);
    RecoversDistinct(b, log);
    RecoversDistinct(Dequeued(b, i, deadline), log);
    DequeueKeepsLive(b, i, deadline);
  }

  lemma AckDistinct(b: Broker, id: string)
    requires Distinct(b)
    ensures Distinct(AckedTask(b, id))
  {
  }

  lemma AckRecovers(b: Broker, log: seq<LogEntry>, id: string)
    requires Distinct(b) && Recovers(b, log) && id in b.inflight
    ensures Recovers(AckedTask(b, id), log + [IdEntry(OP_ACK, id)])
  {
    hide Recovers, Recover, Distinct, LiveOf;
    RecoversDistinct(b, log);
    AckDistinct(b, id);
    RecoversDistinct(AckedTask(b, id), log + [IdEntry(OP_ACK, id)]);
    RecoverNext(log, IdEntry(OP_ACK, id));
    AckLive(b, id);
  }

  lemma AckLive(b: Broker, id: string)
    requires Distinct(b) && id in b.inflight
    ensures LiveOf(AckedTask(b, id)) == LiveOf(b) - {id}
  {
    hide ById;
    ByIdKeys(b.pending, id);
  }

  lemma RequeueDistinct(b: Broker, id: string)
    requires Distinct(b) && id in b.inflight
    ensures Distinct(Requeued(b, id))
  {
    var b' := Requeued(b, id);
    forall i | 0 <= i < |b'.dlq| ensures b'.dlq[i].id !in b'.inflight && !InSeq(b'.dlq[i].id, b'.pending) {
      InSeqAppend(b'.dlq[i].id, b.pending, Core(Bump(b.inflight[id])));
    }
  }

  lemma RequeueRecovers(b: Broker, log: seq<LogEntry>, id: string)
    requires Distinct(b) && Recovers(b, log) && id in b.inflight
    ensures Recovers(Requeued(b, id), log + [RequeueEntry(b, id)])
  {
    hide ById, Recover, DeadCores, Distinct, Recovers;
    var e, r := RequeueEntry(b, id), Recover(log);
    RecoversDistinct(b, log);
    RequeueDistinct(b, id);
    RecoversDistinct(Requeued(b, id), log + [e]);
    RecoverNext(log, e);
    RequeueLive(b, id);
    assert r.live[id] == Core(b.inflight[id]);
    if Bump(b.inflight[id]).retryCount >= b.maxRetries {
      DeadCoresAppend(r.dlq, r.live[id].(status := Dead));
      DeadCoresAppend(b.dlq, Bump(b.inflight[id]).(status := Dead));
    }
  }

  lemma RequeueLive(b: Broker, id: string)
    requires Distinct(b) && id in b.inflight
    ensures b.inflight[id].id == id && id in LiveOf(b) && LiveOf(b)[id] == Core(b.inflight[id])
    ensures var t := Bump(b.inflight[id]);
            LiveOf(Requeued(b, id))
            == if t.retryCount >= b.maxRetries then LiveOf(b) - {id} else LiveOf(b)[id := Core(t)]
  {
    hide ById;
    ByIdKeys(b.pending, id);
    ByIdAppend(b.pending, Core(Bump(b.inflight[id])));
  }

  // ---------------------------------------------------------------- compaction

  lemma {:induction false} FoldEnqueues(r: Recovered, ts: seq<Task>)
    ensures Fold(r, EnqueueEntries(ts)) == r.(live := r.live + ById(ts))
  {
    if ts != [] {
      var k := |ts| - 1;
      FoldEnqueues(r, ts[..k]);
      assert EnqueueEntries(ts)[..k] == EnqueueEntries(ts[..k]);
    } else {
      assert r.live + map[] == r.live;
    }
  }

  function Buried(ts: seq<Task>): (r: seq<Task>)
    ensures |r| == |ts| && forall i :: 0 <= i < |ts| ==> r[i] == Core(ts[i]).(status := Dead)
  {
    seq(|ts|, i requires 0 <= i < |ts| => Core(ts[i]).(status := Dead))
  }

  lemma FoldPair(r: Recovered, t: Task)
    ensures Fold(r, [EnqueueEntry(t), IdEntry(OP_DEAD, t.id)])
         == Recovered(r.live - {t.id}, r.dlq + [Core(t).(status := Dead)])
  {
    var pair := [EnqueueEntry(t), IdEntry(OP_DEAD, t.id)];
    assert pair[..1] == [EnqueueEntry(t)] && [EnqueueEntry(t)][..0] == [];
    var r1 := Fold1(r, EnqueueEntry(t));
    assert Fold(r, pair[..1]) == r1;
    assert r1.live - {t.id} == r.live - {t.id};
  }

  lemma {:induction false} FoldDeadPairs(r: Recovered, ts: seq<Task>)
    ensures Fold(r, DeadPairs(ts)) == Recovered(r.live - IdsOf(ts), r.dlq + Buried(ts))
  {
    hide Fold, IdsOf;
    if ts == [] {
      NoIds();
      NoFold(r);
      assert r.live - {} == r.live && r.dlq + Buried(ts) == r.dlq;
    } else {
      var k := |ts| - 1;
      var t, before := ts[k], DeadPairs(ts[..k]);
      FoldDeadPairs(r, ts[..k]);
      FoldConcat(r, before, [EnqueueEntry(t), IdEntry(OP_DEAD, t.id)]);
      FoldPair(Fold(r, before), t);
      IdsOfLast(ts);
      assert r.live - IdsOf(ts[..k]) - {t.id} == r.live - IdsOf(ts);
      assert r.dlq + Buried(ts) == r.dlq + Buried(ts[..k]) + [Core(t).(status := Dead)];
    }
  }

  lemma NoIds()
    ensures IdsOf([]) == {}
  {
  }

  lemma NoFold(r: Recovered)
    ensures Fold(r, []) == r
  {
  }

  lemma IdsOfLast(ts: seq<Task>)
    requires ts != []
    ensures IdsOf(ts) == IdsOf(ts[..|ts| - 1]) + {ts[|ts| - 1].id}
  {
    var k := |ts| - 1;
    forall id | id in IdsOf(ts) ensures id in IdsOf(ts[..k]) + {ts[k].id} {
      var i :| 0 <= i < |ts| && ts[i].id == id;
      assert i < k ==> ts[..k][i].id == id;
    }
    forall id | id in IdsOf(ts[..k]) ensures id in IdsOf(ts) {
      var i :| 0 <= i < k && ts[..k][i].id == id;
      assert ts[i].id == id;
    }
  }

  lemma ListedIsCore(order: seq<Task>, m: map<string, Task>)
    requires Lists(order, m)
    ensures ById(order) == CoreAll(m)
  {
    assert DistinctIds(order);
    forall id ensures id in ById(order) <==> id in m {
      ByIdKeys(order, id);
    }
    forall id | id in m ensures ById(order)[id] == Core(m[id]) {
      var i :| 0 <= i < |order| && order[i].id == id;
      ByIdAt(order, i);
    }
  }

  /** What replaying a compacted log yields, for any state: the live tasks except those whose id
      is also a dead letter's, and the dead letters with their retry counts. */
  lemma ReplayCompacted(b: Broker, order: seq<Task>)
    requires Lists(order, b.inflight)
    ensures Recover(Compacted(b, order)) == Recovered(LiveOf(b) - IdsOf(b.dlq), Buried(b.dlq))
  {
    hide Fold, ById, Lists, CoreAll, IdsOf, DeadPairs, EnqueueEntries, Buried;
    var p, q, d := EnqueueEntries(b.pending), EnqueueEntries(order), DeadPairs(b.dlq);
    FoldConcat(NOTHING, p + q, d);
    FoldConcat(NOTHING, p, q);
    FoldEnqueues(NOTHING, b.pending);
    FoldEnqueues(Fold(NOTHING, p), order);
    ListedIsCore(order, b.inflight);
    FoldDeadPairs(Fold(NOTHING, p + q), b.dlq);
    assert map[] + ById(b.pending) == ById(b.pending);
    assert [] + Buried(b.dlq) == Buried(b.dlq);
  }

  /** Compacting and then replaying is the identity on what the broker owes if and only if every
      id is in one place: a later task would take the place of an earlier one with its id, and the
      pair written for a dead letter would take a live one with it. */
  lemma CompactionExactly(b: Broker, order: seq<Task>)
    requires Lists(order, b.inflight)
    ensures Recovers(b, Compacted(b, order)) <==> Distinct(b)
  {
    hide Recovers, Compacted, LiveOf, InSeq;
    KeyedByList(order, b.inflight);
    RecoversExactly(b, Compacted(b, order));
    CompactionById(b, order);
    forall i | 0 <= i < |b.dlq|
      ensures b.dlq[i].id in LiveOf(b) <==> b.dlq[i].id in b.inflight || InSeq(b.dlq[i].id, b.pending)
    {
      LiveKeys(b, b.dlq[i].id);
    }
  }

  lemma KeyedByList(order: seq<Task>, m: map<string, Task>)
    requires Lists(order, m)
    ensures Keyed(m)
  {
    forall id | id in m ensures m[id].id == id {
      var i :| 0 <= i < |order| && order[i].id == id;
    }
  }

  lemma CompactionById(b: Broker, order: seq<Task>)
    requires Lists(order, b.inflight)
    ensures RecoversById(b, Compacted(b, order)) <==> forall i :: 0 <= i < |b.dlq| ==> b.dlq[i].id !in LiveOf(b)
  {
    ReplayCompacted(b, order);
    var live, ids := LiveOf(b), IdsOf(b.dlq);
    assert DeadCores(Buried(b.dlq)) == DeadCores(b.dlq);
    if forall i :: 0 <= i < |b.dlq| ==> b.dlq[i].id !in live {
      assert live - ids == live;
    }
    if RecoversById(b, Compacted(b, order)) {
      forall i | 0 <= i < |b.dlq| ensures b.dlq[i].id !in live {
        assert b.dlq[i].id in ids;
        assert b.dlq[i].id !in live - ids;
      }
    }
  }

  /** Recovery rebuilds a broker: the live tasks in some order, nothing in flight. */
  ghost predicate Rebuilt(r: Recovered, b: Broker) {
    b.inflight == map[] && Lists(b.pending, r.live) && b.dlq == r.dlq
  }

  lemma RebuiltRecovers(r: Recovered, b: Broker, log: seq<LogEntry>)
    requires Rebuilt(r, b) && Recover(log) == r && forall id :: id in r.live ==> Core(r.live[id]) == r.live[id]
    ensures Recovers(b, log)
  {
    hide Recovers;
    RecoversExactly(b, log);
    ListedIsCore(b.pending, r.live);
    assert CoreAll(r.live) == r.live;
    assert LiveOf(b) == r.live;
  }

  /** No live task shares its id with a dead letter. */
  ghost predicate Apart(r: Recovered) {
    forall id :: id in r.live ==> !InSeq(id, r.dlq)
  }

  /** A rebuilt broker has every id in one place exactly when the log had. */
  lemma RebuiltDistinct(r: Recovered, b: Broker)
    requires Rebuilt(r, b)
    ensures Distinct(b) <==> Apart(r)
  {
    forall id ensures InSeq(id, b.pending) <==> id in r.live {
      if id in r.live {
        var i :| 0 <= i < |b.pending| && b.pending[i].id == id;
      }
    }
    if Distinct(b) {
      forall id | id in r.live ensures !InSeq(id, r.dlq) {
        assert forall i :: 0 <= i < |b.dlq| ==> !InSeq(b.dlq[i].id, b.pending);
      }
    }
  }

  /** The log is a compaction of `b`. */
  ghost predicate IsCompacted(b: Broker, log: seq<LogEntry>) {
    exists order :: Lists(order, b.inflight) && log == Compacted(b, order)
  }

  lemma CompactedRecovers(b: Broker, log: seq<LogEntry>)
    requires Distinct(b) && IsCompacted(b, log)
    ensures Recovers(b, log)
  {
    var order :| Lists(order, b.inflight) && log == Compacted(b, order);
    CompactionExactly(b, order);
  }

  /** The operations that lead to a clash: a task is enqueued, delivered, nacked to the dead
      letters and enqueued again under its id. */
  function Clash(t: Task): Broker {
    var empty := Broker([], map[], [], 1);
    var buried := Requeued(Dequeued(Enqueued(empty, t), 0, ZERO_TIME), t.id);
    Enqueued(buried, t)
  }

  lemma ClashState(t: Task)
    requires t == Core(t) && t.retryCount == 0
    ensures Clash(t) == Broker([t], map[], [Bump(t.(status := InFlight)).(status := Dead)], 1)
  {
    var b := Enqueued(Broker([], map[], [], 1), t);
    assert b.pending == [t] && Without([t], 0) == [];
    var d := Dequeued(b, 0, ZERO_TIME);
    assert d.inflight - {t.id} == map[];
  }

  /** Such a broker has the task pending, and a compaction writes a log that recovers no task. */
  lemma ClashIsLost(payload: seq<Byte>)
    ensures var t := Task("a", payload, 0, Pending, 0, 1, ZERO_TIME);
            && Clash(t).pending == [t] && Clash(t).inflight == map[] && |Clash(t).dlq| == 1
            && Recover(Compacted(Clash(t), [])).live == map[]
            && !Recovers(Clash(t), Compacted(Clash(t), []))
  {
    hide Clash, Fold, Recover, Compacted, ById, Recovers;
    var t := Task("a", payload, 0, Pending, 0, 1, ZERO_TIME);
    ClashState(t);
    var b := Clash(t);
    ReplayCompacted(b, []);
    ByIdAppend([], t);
    assert [] + [t] == [t];
    LiveKeys(b, "a");
    assert b.pending[0].id == "a" && InSeq("a", b.pending);
    assert b.dlq[0].id == "a" && "a" in IdsOf(b.dlq);
    forall id | id in LiveOf(b) ensures id == "a" {
      LiveKeys(b, id);
    }
    CompactionExactly(b, []);
  }

  lemma TwoEnqueues(t: Task, u: Task)
    requires u == Core(u) && t.id == u.id
    ensures Recover([EnqueueEntry(t), EnqueueEntry(u)]).live == map[u.id := u]
  {
    RecoverNext([], EnqueueEntry(t));
    RecoverNext([EnqueueEntry(t)], EnqueueEntry(u));
    assert [] + [EnqueueEntry(t)] == [EnqueueEntry(t)];
    assert [EnqueueEntry(t)] + [EnqueueEntry(u)] == [EnqueueEntry(t), EnqueueEntry(u)];
  }

  /** Two tasks enqueued under one id are both pending, and of the two the log, which a compaction
      leaves as it is, recovers the second only. */
  lemma TwinIsLost(t: Task, u: Task)
    requires t == Core(t) && u == Core(u) && t.id == u.id
    ensures var b := Enqueued(Enqueued(Broker([], map[], [], 3), t), u);
            var log := [EnqueueEntry(t), EnqueueEntry(u)];
            && b.pending == [t, u] && b.inflight == map[] && Compacted(b, []) == log
            && Recover(log).live == map[u.id := u] && !Recovers(b, log)
  {
    hide Recovers, RecoversById, Recover;
    var b, log := Enqueued(Enqueued(Broker([], map[], [], 3), t), u), [EnqueueEntry(t), EnqueueEntry(u)];
    assert b.pending == [t, u] && b.pending[0].id == b.pending[1].id;
    assert EnqueueEntries([t, u]) == log;
    TwoEnqueues(t, u);
    RecoversExactly(b, log);
  }
}
