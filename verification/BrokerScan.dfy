/** The expiry scan (broker/tracker.go, broker/broker.go): the tracker gives up all overdue tasks
    at once, then each of them is requeued on its own. The broker's lock is free in between, so
    that other calls take their turn, and any logged call may compact the log. The tasks still to
    come are in no container that a compaction looks at. */
module BrokerScan {
  import opened Tasks
  import opened WalCodec
  import opened BrokerModel

  /** The broker between two calls, its log and the entries since the last rewrite. */
  datatype Moment = Moment(broker: Broker, log: seq<LogEntry>, entries: nat)

  /** A moment of a scan, with the overdue tasks that are still to come. */
  datatype Point = Point(at: Moment, due: seq<Task>)

  /** What happens next during a scan: the callback for the next overdue task, or another call. */
  datatype Turn =
    | Expires
    | Enqueues(task: Task)
    | Acks(id: string)
    | Nacks(id: string)
    | Delivers(i: nat, deadline: Time)
    | Tunes(maxRetries: int)

  predicate Logged(turn: Turn) {
    !turn.Delivers? && !turn.Tunes?
  }

  /** The guard of a compaction after one more entry. */
  predicate Compacts(entries: nat, every: int) {
    every > 0 && entries + 1 >= every
  }

  /** A call has logged `e`: the log is one entry longer, or compacted at the threshold. */
  ghost predicate Logs(m: Moment, e: LogEntry, every: int, m': Moment) {
    if Compacts(m.entries, every) then IsCompacted(m'.broker, m'.log) && m'.entries == 0
    else m'.log == m.log + [e] && m'.entries == m.entries + 1
  }

  /** The scan hands task `t` to the broker. */
  ghost predicate TimesOut(m: Moment, t: Task, every: int, m': Moment) {
    m'.broker == PutBack(m.broker, t) && Logs(m, PutBackEntry(m.broker, t), every, m')
  }

  /** The calls that may take their turn during a scan. An enqueue uses an id that is not in use,
      acks and nacks name a task in flight; other acks and nacks are refused and change nothing. */
  ghost predicate Takes(p: Point, turn: Turn, every: int, p': Point) {
    var b := p.at.broker;
    match turn
    case Expires => p.due != [] && p'.due == p.due[1..] && TimesOut(p.at, p.due[0], every, p'.at)
    case Enqueues(t) =>
      && p'.due == p.due && Fresh(With(b, p.due), t.id) && p'.at.broker == Enqueued(b, t)
      && Logs(p.at, EnqueueEntry(t.(status := Pending)), every, p'.at)
    case Acks(id) =>
      && p'.due == p.due && id in b.inflight && p'.at.broker == AckedTask(b, id)
      && Logs(p.at, IdEntry(OP_ACK, id), every, p'.at)
    case Nacks(id) =>
      && p'.due == p.due && id in b.inflight && p'.at.broker == Requeued(b, id)
      && Logs(p.at, RequeueEntry(b, id), every, p'.at)
    case Delivers(i, deadline) => i < |b.pending| && p' == p.(at := p.at.(broker := Dequeued(b, i, deadline)))
    case Tunes(n) => p' == p.(at := p.at.(broker := Tuned(b, n)))
  }

  ghost predicate TakesAt(ps: seq<Point>, turns: seq<Turn>, every: int, k: nat)
    requires k < |turns| && k + 1 < |ps|
  {
    Takes(ps[k], turns[k], every, ps[k + 1])
  }

  /** The points of a scan, complete or not, with whatever took its turn in between. */
  ghost predicate IsScan(ps: seq<Point>, turns: seq<Turn>, every: int) {
    && |ps| == |turns| + 1
    && forall k :: 0 <= k < |turns| ==> TakesAt(ps, turns, every, k)
  }

  /** The records logged in the first `k` turns, by the scan or by others, while a task was still
      to come. */
  function Records(ps: seq<Point>, turns: seq<Turn>, k: nat): nat
    requires |ps| == |turns| + 1 && k <= |turns|
  {
    if k == 0 then 0
    else Records(ps, turns, k - 1) + if Logged(turns[k - 1]) && ps[k].due != [] then 1 else 0
  }

  /** The tasks `due` were in flight, each under its own id. */
  ghost predicate Tracked(due: seq<Task>, inflight: map<string, Task>) {
    && DistinctIds(due)
    && forall i :: 0 <= i < |due| ==> due[i].id in inflight && inflight[due[i].id] == due[i]
  }

  /** The broker after the tracker gave up `due`. */
  function GivenUp(b: Broker, due: seq<Task>): Broker {
    b.(inflight := b.inflight - IdsOf(due))
  }

  function Tabled(ts: seq<Task>): map<string, Task> {
    if ts == [] then map[] else Tabled(ts[1..])[ts[0].id := ts[0]]
  }

  /** The broker with the tasks `ts` still in flight. */
  function With(b: Broker, ts: seq<Task>): Broker {
    b.(inflight := b.inflight + Tabled(ts))
  }

  /** Nothing is lost: the log recovers the broker's tasks and those still to come. */
  ghost predicate NothingLost(p: Point) {
    Recovers(With(p.at.broker, p.due), p.at.log)
  }

  // ---------------------------------------------------------------- tasks on their way

  lemma {:induction false} TabledKeys(ts: seq<Task>)
    ensures Tabled(ts).Keys == IdsOf(ts)
  {
    if ts != [] {
      TabledKeys(ts[1..]);
      HeadIds(ts);
    }
  }

  lemma HeadIds(ts: seq<Task>)
    requires ts != []
    ensures IdsOf(ts) == {ts[0].id} + IdsOf(ts[1..])
  {
    forall i | 0 <= i < |ts| ensures ts[i].id in {ts[0].id} + IdsOf(ts[1..]) {
      if i > 0 {
        assert ts[1..][i - 1] == ts[i];
      }
    }
    assert forall i :: 0 <= i < |ts| - 1 ==> ts[1..][i] == ts[i + 1];
  }

  lemma {:induction false} TabledAt(due: seq<Task>, m: map<string, Task>, id: string)
    requires Tracked(due, m) && id in Tabled(due)
    ensures id in m && Tabled(due)[id] == m[id]
  {
    if due[0].id != id {
      TabledAt(due[1..], m, id);
    }
  }

  /** Before the first turn everything is still there. */
  lemma GivenUpWith(b: Broker, due: seq<Task>)
    requires Tracked(due, b.inflight)
    ensures With(GivenUp(b, due), due) == b
  {
    TabledKeys(due);
    forall id | id in Tabled(due) ensures id in b.inflight && Tabled(due)[id] == b.inflight[id] {
      TabledAt(due, b.inflight, id);
    }
    assert (b.inflight - IdsOf(due)) + Tabled(due) == b.inflight;
  }

  /** The tasks still to come are not in the broker, and every id is in one place. */
  ghost predicate OnTheirWay(p: Point) {
    && DistinctIds(p.due)
    && (forall i :: 0 <= i < |p.due| ==> p.due[i].id !in p.at.broker.inflight)
    && Distinct(With(p.at.broker, p.due))
  }

  lemma Outside(p: Point, id: string)
    requires OnTheirWay(p)
    ensures id in p.at.broker.inflight ==> id !in Tabled(p.due)
    ensures forall i :: 0 <= i < |p.at.broker.pending| ==>
              p.at.broker.pending[i].id !in Tabled(p.due) && p.at.broker.pending[i].id !in IdsOf(p.due)
  {
    TabledKeys(p.due);
  }

  /** Requeueing the next task from the broker is requeueing it from the broker with all. */
  lemma ExpiresInWhole(b: Broker, ts: seq<Task>)
    requires ts != [] && DistinctIds(ts) && ts[0].id !in b.inflight
    ensures ts[0].id in With(b, ts).inflight
    ensures Requeued(With(b, ts), ts[0].id) == With(PutBack(b, ts[0]), ts[1..])
    ensures RequeueEntry(With(b, ts), ts[0].id) == PutBackEntry(b, ts[0])
  {
    TabledKeys(ts[1..]);
    assert ts[0].id !in Tabled(ts[1..]);
    assert With(b, ts).inflight - {ts[0].id} == b.inflight + Tabled(ts[1..]);
  }

  /** So are the other calls. */
  lemma AckInWhole(b: Broker, ts: seq<Task>, id: string)
    requires id in b.inflight && id !in Tabled(ts)
    ensures AckedTask(With(b, ts), id) == With(AckedTask(b, id), ts)
    ensures Requeued(With(b, ts), id) == With(Requeued(b, id), ts)
    ensures RequeueEntry(With(b, ts), id) == RequeueEntry(b, id)
  {
    assert With(b, ts).inflight - {id} == (b.inflight - {id}) + Tabled(ts);
  }

  lemma DeliverInWhole(b: Broker, ts: seq<Task>, i: nat, deadline: Time)
    requires i < |b.pending| && b.pending[i].id !in Tabled(ts)
    ensures Dequeued(With(b, ts), i, deadline) == With(Dequeued(b, i, deadline), ts)
  {
  }

  /** After any turn, compacting or not, every id is in one place. */
  lemma TurnOnTheirWay(p: Point, turn: Turn, every: int, p': Point)
    requires OnTheirWay(p) && Takes(p, turn, every, p')
    ensures OnTheirWay(p')
  {
    hide Distinct, IsCompacted, With, PutBack, Tabled;
    var b, w := p.at.broker, With(p.at.broker, p.due);
    match turn {
      case Expires =>
        ExpiresInWhole(b, p.due);
        RequeueDistinct(w, p.due[0].id);
        PutBackFrame(b, p.due[0]);
      case Enqueues(t) =>
        EnqueueDistinct(w, t);
        EnqueueInWhole(b, p.due, t);
      case Acks(id) =>
        Outside(p, id);
        AckInWhole(b, p.due, id);
        AckDistinct(w, id);
      case Nacks(id) =>
        Outside(p, id);
        AckInWhole(b, p.due, id);
        InWhole(b, p.due, id);
        RequeueDistinct(w, id);
        PutBackFrame(b.(inflight := b.inflight - {id}), b.inflight[id]);
      case Delivers(i, deadline) =>
        Outside(p, "");
        DeliverInWhole(b, p.due, i, deadline);
        InWhole(b, p.due, "");
        DequeueDistinct(w, i, deadline);
      case Tunes(n) => TunedDistinct(b, p.due, n);
    }
  }

  lemma PutBackFrame(b: Broker, t: Task)
    ensures PutBack(b, t).inflight == b.inflight
  {
  }

  lemma InWhole(b: Broker, ts: seq<Task>, id: string)
    ensures id in b.inflight ==> id in With(b, ts).inflight
    ensures With(b, ts).pending == b.pending
  {
  }

  lemma EnqueueInWhole(b: Broker, ts: seq<Task>, t: Task)
    ensures Enqueued(With(b, ts), t) == With(Enqueued(b, t), ts)
  {
  }

  lemma TunedDistinct(b: Broker, ts: seq<Task>, n: int)
    ensures Distinct(With(b, ts)) ==> Distinct(With(Tuned(b, n), ts))
    ensures forall log :: Recovers(With(b, ts), log) ==> Recovers(With(Tuned(b, n), ts), log)
  {
    hide Recover, DeadCores, CoresOf, Cores;
  }

  /** A turn that does not compact loses nothing. */
  lemma TurnKeeps(p: Point, turn: Turn, every: int, p': Point)
    requires OnTheirWay(p) && NothingLost(p) && Takes(p, turn, every, p')
    requires Logged(turn) ==> !Compacts(p.at.entries, every)
    ensures NothingLost(p')
  {
    hide Distinct, Recovers, With, PutBack, Tabled, Fresh;
    var b, w := p.at.broker, With(p.at.broker, p.due);
    match turn {
      case Expires =>
        ExpiresInWhole(b, p.due);
        RequeueRecovers(w, p.at.log, p.due[0].id);
      case Enqueues(t) =>
        EnqueueIsSound(w, p.at.log, t);
        EnqueueInWhole(b, p.due, t);
      case Acks(id) =>
        Outside(p, id);
        AckInWhole(b, p.due, id);
        InWhole(b, p.due, id);
        AckRecovers(w, p.at.log, id);
      case Nacks(id) =>
        Outside(p, id);
        AckInWhole(b, p.due, id);
        InWhole(b, p.due, id);
        RequeueRecovers(w, p.at.log, id);
      case Delivers(i, deadline) =>
        Outside(p, "");
        DeliverInWhole(b, p.due, i, deadline);
        InWhole(b, p.due, "");
        DequeueIsSound(w, p.at.log, i, deadline);
      case Tunes(n) => TunedDistinct(b, p.due, n);
    }
  }

  /** Nor does one after which no task is to come. */
  lemma LastTurnKeeps(p: Point, turn: Turn, every: int, p': Point)
    requires OnTheirWay(p) && NothingLost(p) && Takes(p, turn, every, p') && p'.due == []
    ensures NothingLost(p')
  {
    hide Distinct, Recovers;
    if Logged(turn) && Compacts(p.at.entries, every) {
      TurnOnTheirWay(p, turn, every, p');
      TurnCounts(p, turn, every, p');
      assert With(p'.at.broker, []) == p'.at.broker;
      CompactedRecovers(p'.at.broker, p'.at.log);
    } else {
      TurnKeeps(p, turn, every, p');
    }
  }

  /** A compaction while tasks are on their way writes a log without them. */
  lemma CompactionLoses(p: Point)
    requires p.due != [] && OnTheirWay(p) && IsCompacted(p.at.broker, p.at.log)
    ensures p.due[0].id !in Recover(p.at.log).live && !NothingLost(p)
  {
    hide ById, Recovers;
    var b, w, id := p.at.broker, With(p.at.broker, p.due), p.due[0].id;
    RecoversDistinct(w, p.at.log);
    var order :| Lists(order, b.inflight) && p.at.log == Compacted(b, order);
    ReplayCompacted(b, order);
    assert id in w.inflight;
    assert !InSeq(id, b.pending);
    LiveKeys(b, id);
    LiveKeys(w, id);
  }

  // ---------------------------------------------------------------- the scan as a whole

  /** A scan that starts with nothing lost. */
  ghost predicate Starts(ps: seq<Point>, turns: seq<Turn>, every: int) {
    IsScan(ps, turns, every) && OnTheirWay(ps[0]) && NothingLost(ps[0])
  }

  /** The records logged while a task is to come do not reach the threshold. */
  predicate Below(entries: nat, records: nat, every: int) {
    records == 0 || every <= 0 || entries + records < every
  }

  lemma {:induction false} AllOnTheirWay(ps: seq<Point>, turns: seq<Turn>, every: int, k: nat)
    requires Starts(ps, turns, every) && k <= |turns|
    ensures OnTheirWay(ps[k])
  {
    hide OnTheirWay, Takes, NothingLost;
    if k > 0 {
      AllOnTheirWay(ps, turns, every, k - 1);
      assert TakesAt(ps, turns, every, k - 1);
      TurnOnTheirWay(ps[k - 1], turns[k - 1], every, ps[k]);
    }
  }

  lemma {:induction false} RecordsGrow(ps: seq<Point>, turns: seq<Turn>, k: nat, n: nat)
    requires |ps| == |turns| + 1 && k <= n <= |turns|
    ensures Records(ps, turns, k) <= Records(ps, turns, n)
  {
    if k < n {
      RecordsGrow(ps, turns, k, n - 1);
    }
  }

  /** How one turn counts. */
  lemma TurnCounts(p: Point, turn: Turn, every: int, p': Point)
    requires Takes(p, turn, every, p')
    ensures p'.due != [] ==> p.due != []
    ensures !Logged(turn) ==> p'.at.entries == p.at.entries
    ensures Logged(turn) && !Compacts(p.at.entries, every) ==> p'.at.entries == p.at.entries + 1
    ensures Logged(turn) && Compacts(p.at.entries, every) ==> IsCompacted(p'.at.broker, p'.at.log)
  {
    hide IsCompacted, PutBack, With;
  }

  /** As long as tasks are to come and the threshold is not reached, the log keeps up. */
  lemma {:induction false} KeepsUp(ps: seq<Point>, turns: seq<Turn>, every: int, k: nat)
    requires Starts(ps, turns, every) && k <= |turns| && ps[k].due != []
    requires Below(ps[0].at.entries, Records(ps, turns, k), every)
    ensures NothingLost(ps[k]) && ps[k].at.entries == ps[0].at.entries + Records(ps, turns, k)
  {
    hide OnTheirWay, Takes, NothingLost;
    if k > 0 {
      assert TakesAt(ps, turns, every, k - 1);
      TurnCounts(ps[k - 1], turns[k - 1], every, ps[k]);
      KeepsUp(ps, turns, every, k - 1);
      AllOnTheirWay(ps, turns, every, k - 1);
      TurnKeeps(ps[k - 1], turns[k - 1], every, ps[k]);
    }
  }

  lemma {:induction false} SafeScan(ps: seq<Point>, turns: seq<Turn>, every: int, k: nat)
    requires Starts(ps, turns, every) && k <= |turns|
    requires Below(ps[0].at.entries, Records(ps, turns, |turns|), every)
    ensures NothingLost(ps[k])
  {
    hide OnTheirWay, Takes, NothingLost;
    RecordsGrow(ps, turns, k, |turns|);
    if ps[k].due != [] {
      KeepsUp(ps, turns, every, k);
    } else if k > 0 {
      SafeScan(ps, turns, every, k - 1);
      AllOnTheirWay(ps, turns, every, k - 1);
      assert TakesAt(ps, turns, every, k - 1);
      LastTurnKeeps(ps[k - 1], turns[k - 1], every, ps[k]);
    }
  }

  /** The turn at which a scan that reaches the threshold too early loses a task. */
  lemma {:induction false} LosingTurn(ps: seq<Point>, turns: seq<Turn>, every: int, n: nat) returns (k: nat)
    requires Starts(ps, turns, every) && n <= |turns|
    requires !Below(ps[0].at.entries, Records(ps, turns, n), every)
    ensures k <= n && ps[k].due != [] && ps[k].due[0].id !in Recover(ps[k].at.log).live && !NothingLost(ps[k])
  {
    hide OnTheirWay, Takes, NothingLost, Recover;
    if !Below(ps[0].at.entries, Records(ps, turns, n - 1), every) {
      k := LosingTurn(ps, turns, every, n - 1);
    } else {
      k := n;
      assert TakesAt(ps, turns, every, n - 1);
      TurnCounts(ps[n - 1], turns[n - 1], every, ps[n]);
      KeepsUp(ps, turns, every, n - 1);
      AllOnTheirWay(ps, turns, every, n);
      CompactionLoses(ps[n]);
    }
  }

  lemma ScanStarts(b: Broker, log: seq<LogEntry>, entries: nat, due: seq<Task>, ps: seq<Point>, turns: seq<Turn>,
                   every: int)
    requires Distinct(b) && Recovers(b, log) && Tracked(due, b.inflight)
    requires IsScan(ps, turns, every) && ps[0] == Point(Moment(GivenUp(b, due), log, entries), due)
    ensures Starts(ps, turns, every)
  {
    hide Distinct, Recovers;
    GivenUpWith(b, due);
    assert forall i :: 0 <= i < |due| ==> due[i].id in IdsOf(due);
  }

  /** Expiry is sound at each point of a scan, so that a crash there loses no task, if and only if
      compaction is off, no record is logged while a task is still to come, or those records, by
      the scan and by the calls in between, stay below the threshold. */
  lemma ScanExactly(b: Broker, log: seq<LogEntry>, entries: nat, due: seq<Task>, ps: seq<Point>, turns: seq<Turn>,
                    every: int)
    requires Distinct(b) && Recovers(b, log) && Tracked(due, b.inflight)
    requires IsScan(ps, turns, every) && ps[0] == Point(Moment(GivenUp(b, due), log, entries), due)
    ensures (forall k :: 0 <= k <= |turns| ==> NothingLost(ps[k])) <==>
            var n := Records(ps, turns, |turns|);
            n == 0 || every <= 0 || entries + n < every
  {
    hide Distinct, Recovers, NothingLost, Tracked, Takes, GivenUp;
    ScanStarts(b, log, entries, due, ps, turns, every);
    if Below(entries, Records(ps, turns, |turns|), every) {
      forall k | 0 <= k <= |turns| ensures NothingLost(ps[k]) {
        SafeScan(ps, turns, every, k);
      }
    } else {
      var k := LosingTurn(ps, turns, every, |turns|);
      assert !NothingLost(ps[k]);
    }
  }

  lemma {:induction false} AloneCounts(ps: seq<Point>, turns: seq<Turn>, every: int, k: nat)
    requires IsScan(ps, turns, every) && k <= |turns| == |ps[0].due|
    requires forall j :: 0 <= j < |turns| ==> turns[j] == Expires
    ensures ps[k].due == ps[0].due[k..] && Records(ps, turns, k) == if k == |turns| && k > 0 then k - 1 else k
  {
    if k > 0 {
      AloneCounts(ps, turns, every, k - 1);
      assert TakesAt(ps, turns, every, k - 1);
    }
  }

  /** A scan whose callbacks run without a call in between. */
  lemma ScanAlone(b: Broker, log: seq<LogEntry>, entries: nat, due: seq<Task>, ps: seq<Point>, turns: seq<Turn>,
                  every: int)
    requires Distinct(b) && Recovers(b, log) && Tracked(due, b.inflight)
    requires IsScan(ps, turns, every) && ps[0] == Point(Moment(GivenUp(b, due), log, entries), due)
    requires |turns| == |due| && forall j :: 0 <= j < |turns| ==> turns[j] == Expires
    ensures (forall k :: 0 <= k <= |turns| ==> NothingLost(ps[k])) <==>
            |due| <= 1 || every <= 0 || entries + |due| - 1 < every
  {
    hide Distinct, Recovers, NothingLost, Tracked, Takes, GivenUp;
    AloneCounts(ps, turns, every, |turns|);
    ScanExactly(b, log, entries, due, ps, turns, every);
  }

  // ---------------------------------------------------------------- tasks that are lost

  function Sample(id: string, payload: seq<Byte>): Task {
    Task(id, payload, 0, Pending, 0, 1, ZERO_TIME)
  }

  /** One task in flight, as an enqueue and a delivery leave it. */
  function OneInFlight(x: Task): Broker {
    Dequeued(Enqueued(Broker([], map[], [], 3), x), 0, ZERO_TIME)
  }

  lemma OneTracked(x: Task)
    requires x == Core(x)
    ensures var b, due := OneInFlight(x), [x.(status := InFlight)];
            && b == Broker([], map[x.id := due[0]], [], 3)
            && Distinct(b) && Tracked(due, b.inflight) && GivenUp(b, due) == Broker([], map[], [], 3)
            && Recovers(b, [EnqueueEntry(x)])
  {
    hide Recovers, Recover, DeadCores;
    var b, due := OneInFlight(x), [x.(status := InFlight)];
    assert b.inflight == map[x.id := due[0]] && Without([x], 0) == [];
    assert due[0].id in IdsOf(due);
    OneRecovered(x);
    assert LiveOf(b) == map[x.id := x];
    RecoversDistinct(b, [EnqueueEntry(x)]);
  }

  lemma OneRecovered(x: Task)
    requires x == Core(x)
    ensures Recover([EnqueueEntry(x)]) == Recovered(map[x.id := x], [])
  {
    RecoverNext([], EnqueueEntry(x));
    assert [] + [EnqueueEntry(x)] == [EnqueueEntry(x)];
  }

  /** The broker `b` with nothing in flight and a compacted log. */
  function CompactedPoint(b: Broker, due: seq<Task>): Point {
    Point(Moment(b, Compacted(b, []), 0), due)
  }

  /** A first turn that compacts while a task is to come loses the task. */
  lemma LostAtOnce(b: Broker, log: seq<LogEntry>, due: seq<Task>, p: Point, turn: Turn, p': Point)
    requires Distinct(b) && Recovers(b, log) && Tracked(due, b.inflight)
    requires p == Point(Moment(GivenUp(b, due), log, 0), due) && Logged(turn) && Takes(p, turn, 1, p') && p'.due != []
    ensures IsScan([p, p'], [turn], 1) && p'.due[0].id !in Recover(p'.at.log).live && !NothingLost(p')
  {
    hide Recovers, Distinct, Tracked, NothingLost, Recover, Takes, OnTheirWay, GivenUp;
    var ps, turns := [p, p'], [turn];
    assert TakesAt(ps, turns, 1, 0);
    ScanStarts(b, log, 0, due, ps, turns, 1);
    AllOnTheirWay(ps, turns, 1, 1);
    TurnCounts(p, turn, 1, p');
    CompactionLoses(p');
  }

  lemma EmptyCompaction(b: Broker)
    requires b.inflight == map[]
    ensures IsCompacted(b, Compacted(b, []))
  {
    assert Lists([], b.inflight);
  }

  /** With a compaction due after every entry and one overdue task, an enqueue that takes its turn
      between the tracker giving up the task and the callback makes the broker rewrite its log
      without the task: a crash at that point loses it. */
  lemma OverdueTaskIsLost(payload: seq<Byte>)
    ensures var x, y := Sample("a", payload), Sample("b", payload);
            var b, due, log := OneInFlight(x), [x.(status := InFlight)], [EnqueueEntry(x)];
            && Distinct(b) && Recovers(b, log) && Tracked(due, b.inflight)
            && exists ps: seq<Point> ::
                 && IsScan(ps, [Enqueues(y)], 1) && ps[0] == Point(Moment(GivenUp(b, due), log, 0), due)
                 && "a" !in Recover(ps[1].at.log).live && !NothingLost(ps[1])
  {
    hide Recover, Recovers, Distinct, Tracked, NothingLost, Compacted, IsCompacted;
    var x, y := Sample("a", payload), Sample("b", payload);
    var b, due, log := OneInFlight(x), [x.(status := InFlight)], [EnqueueEntry(x)];
    OneTracked(x);
    var p0 := Point(Moment(GivenUp(b, due), log, 0), due);
    var p1 := CompactedPoint(Enqueued(p0.at.broker, y), due);
    TabledKeys(due);
    assert "b" !in IdsOf(due);
    EmptyCompaction(p1.at.broker);
    LostAtOnce(b, log, due, p0, Enqueues(y), p1);
    assert [p0, p1][1] == p1;
  }

  /** Two tasks in flight, as two enqueues and two deliveries leave them. */
  function TwoInFlight(x: Task, y: Task): Broker {
    var b := Enqueued(Enqueued(Broker([], map[], [], 3), x), y);
    Dequeued(Dequeued(b, 0, ZERO_TIME), 0, ZERO_TIME)
  }

  lemma TwoTracked(x: Task, y: Task)
    requires x.id != y.id && x == Core(x) && y == Core(y)
    ensures var b, due := TwoInFlight(x, y), [x.(status := InFlight), y.(status := InFlight)];
            && b == Broker([], map[x.id := due[0], y.id := due[1]], [], 3)
            && Distinct(b) && Tracked(due, b.inflight) && GivenUp(b, due) == Broker([], map[], [], 3)
            && Recovers(b, [EnqueueEntry(x), EnqueueEntry(y)])
  {
    hide Recovers, Recover, DeadCores;
    var b, due := TwoInFlight(x, y), [x.(status := InFlight), y.(status := InFlight)];
    assert Without([x, y], 0) == [y] && Without([y], 0) == [];
    assert b.inflight == map[x.id := due[0], y.id := due[1]];
    assert due[0].id in IdsOf(due) && due[1].id in IdsOf(due);
    OneRecovered(x);
    RecoverNext([EnqueueEntry(x)], EnqueueEntry(y));
    assert [EnqueueEntry(x)] + [EnqueueEntry(y)] == [EnqueueEntry(x), EnqueueEntry(y)];
    assert LiveOf(b) == map[x.id := x, y.id := y];
    RecoversDistinct(b, [EnqueueEntry(x), EnqueueEntry(y)]);
  }

  /** With two overdue tasks the callback of the first does the same to the second, with no other
      call in between. */
  lemma SecondTaskIsLost(payload: seq<Byte>)
    ensures var x, y := Sample("a", payload), Sample("b", payload);
            var b, due := TwoInFlight(x, y), [x.(status := InFlight), y.(status := InFlight)];
            var log := [EnqueueEntry(x), EnqueueEntry(y)];
            && Distinct(b) && Recovers(b, log) && Tracked(due, b.inflight)
            && exists ps: seq<Point> ::
                 && IsScan(ps, [Expires], 1) && ps[0] == Point(Moment(GivenUp(b, due), log, 0), due)
                 && "b" !in Recover(ps[1].at.log).live && !NothingLost(ps[1])
  {
    hide Recover, Recovers, Distinct, Tracked, NothingLost, Compacted, IsCompacted;
    var x, y := Sample("a", payload), Sample("b", payload);
    var b, due := TwoInFlight(x, y), [x.(status := InFlight), y.(status := InFlight)];
    var log := [EnqueueEntry(x), EnqueueEntry(y)];
    TwoTracked(x, y);
    var p0 := Point(Moment(GivenUp(b, due), log, 0), due);
    var p1 := CompactedPoint(PutBack(p0.at.broker, due[0]), due[1..]);
    EmptyCompaction(p1.at.broker);
    LostAtOnce(b, log, due, p0, Expires, p1);
    assert [p0, p1][1] == p1;
  }
}
