/** The values that flow through the queue: tasks, queue commands and serialized
    queue snapshots (broker/task.go, broker/wal.go, broker/statemachine.go). */
module Tasks {

  datatype Option<+T> = None | Some(value: T)

  type Byte = b: int | 0 <= b < 256

  /** `time.Time` as an integer; the zero time is 0. */
  type Time = int
  const ZERO_TIME: Time := 0

  datatype Status = Pending | InFlight | Done | Dead

  datatype Task = Task(
    id: string,
    payload: seq<Byte>,
    priority: int,
    status: Status,
    retryCount: int,
    createdAt: Time,
    deadline: Time)

  /** The order of delivery: lower priority first, then older. */
  predicate Sooner(priority: int, createdAt: Time, priority': int, createdAt': Time) {
    priority < priority' || (priority == priority' && createdAt < createdAt')
  }

  /** A task as recovery and replication see it: pending, without a deadline. */
  function Core(t: Task): Task {
    t.(status := Pending, deadline := ZERO_TIME)
  }

  function Cores(ts: seq<Task>): (r: seq<Task>)
    ensures |r| == |ts| && forall i :: 0 <= i < |ts| ==> r[i] == Core(ts[i])
  {
    seq(|ts|, i requires 0 <= i < |ts| => Core(ts[i]))
  }

  /** What a task keeps from its enqueue to its ack: all but status, deadline and retries. */
  function Plain(t: Task): Task {
    t.(status := Pending, retryCount := 0, deadline := ZERO_TIME)
  }

  /** One of `ts` is task `t`, whatever its status, deadline and retries. */
  ghost predicate Among(ts: seq<Task>, t: Task) {
    exists i :: 0 <= i < |ts| && Plain(ts[i]) == Plain(t)
  }

  lemma AmongAppend(ts: seq<Task>, x: Task, t: Task)
    ensures Among(ts + [x], t) <==> Among(ts, t) || Plain(x) == Plain(t)
  {
    var ts' := ts + [x];
    if Among(ts, t) {
      var i :| 0 <= i < |ts| && Plain(ts[i]) == Plain(t);
      assert ts'[i] == ts[i];
    }
    assert ts'[|ts|] == x;
  }

  function IdsOf(ts: seq<Task>): set<string> {
    set i | 0 <= i < |ts| :: ts[i].id
  }

  const OP_ENQUEUE: Byte := 0x01
  const OP_ACK: Byte := 0x02
  const OP_NACK: Byte := 0x03
  const OP_DEAD: Byte := 0x04

  /** One replicated queue command. `kind` is the raw type byte: values other than
      enqueue, ack and nack are legal and have no effect. */
  datatype QueueOp = QueueOp(kind: Byte, task: Option<Task>, taskId: string)

  /** The serialized queue state handed to Raft for log compaction. */
  datatype SnapshotState = SnapshotState(tasks: seq<Task>, dlq: seq<Task>, acked: int)

  /** A Raft command: `None` is the empty command of a leader's no-op. */
  type Command = Option<QueueOp>
}
