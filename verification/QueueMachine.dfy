/** One replica's state machine as a value (broker/statemachine.go): the replicated queue,
    the leader-local delivery overlay and the lazily cleaned heap. */
module QueueMachine {
  import opened Tasks
  import opened QueueView

  /** A pointer to a task, as the heap holds it. Id, priority and creation time never change
      after the task is created; `ref` is the pointer's identity. */
  datatype Item = Item(ref: nat, id: string, priority: int, createdAt: Time)

  /** A live task together with the identity of the pointer that refers to it. */
  datatype Cell = Cell(ref: nat, task: Task)

  datatype Machine = Machine(
    maxRetries: int,
    tasks: map<string, Cell>,
    heap: multiset<Item>,
    inHeap: set<string>,
    dlq: seq<Task>,
    acked: int,
    nacked: int,
    nextRef: nat)

  function ItemOf(c: Cell): Item {
    Item(c.ref, c.task.id, c.task.priority, c.task.createdAt)
  }

  function NewMachine(maxRetries: int): Machine {
    Machine(maxRetries, map[], multiset{}, {}, [], 0, 0, 0)
  }

  function Push(m: Machine, c: Cell): Machine {
    if c.task.id in m.inHeap then m
    else m.(heap := m.heap + multiset{ItemOf(c)}, inHeap := m.inHeap + {c.task.id})
  }

  function ApplyEnqueue(m: Machine, task: Option<Task>): Machine {
    if task.None? || task.value.id == "" || task.value.id in m.tasks then m
    else
      var c := Cell(m.nextRef, task.value.(status := Pending));
      Push(m.(tasks := m.tasks[c.task.id := c], nextRef := m.nextRef + 1), c)
  }

  function ApplyAck(m: Machine, id: string): Machine {
    if id !in m.tasks then m else m.(tasks := m.tasks - {id}, acked := m.acked + 1)
  }

  function ApplyNack(m: Machine, id: string): Machine {
    if id !in m.tasks then m
    else
      var c := m.tasks[id];
      var t := c.task.(retryCount := c.task.retryCount + 1);
      var m1 := m.(nacked := m.nacked + 1);
      if t.retryCount >= m.maxRetries then
        m1.(tasks := m.tasks - {id}, dlq := m.dlq + [t.(status := Dead)])
      else
        var c' := c.(task := t.(status := Pending, deadline := ZERO_TIME));
        Push(m1.(tasks := m.tasks[id := c']), c')
  }

  /** One committed command. */
  function Apply(m: Machine, op: QueueOp): Machine {
    if op.kind == OP_ENQUEUE then ApplyEnqueue(m, op.task)
    else if op.kind == OP_ACK then ApplyAck(m, op.taskId)
    else if op.kind == OP_NACK then ApplyNack(m, op.taskId)
    else m
  }

  // ---------------------------------------------------------------- the leader-local overlay

  /** `Less` of the heap. */
  predicate Before(a: Item, b: Item) {
    Sooner(a.priority, a.createdAt, b.priority, b.createdAt)
  }

  /** `x` may be popped: nothing in the heap comes before it. */
  predicate IsMin(heap: multiset<Item>, x: Item) {
    x in heap && forall y :: y in heap ==> !Before(y, x)
  }

  /** A heap item that still refers to a pending live task. */
  predicate Deliverable(m: Machine, x: Item) {
    x.id in m.tasks && m.tasks[x.id].ref == x.ref && m.tasks[x.id].task.status == Pending
  }

  function Popped(m: Machine, x: Item): Machine {
    m.(heap := m.heap - multiset{x}, inHeap := m.inHeap - {x.id})
  }

  function Delivered(m: Machine, x: Item, deadline: Time): Machine
    requires x.id in m.tasks
  {
    var c := m.tasks[x.id];
    Popped(m, x).(tasks := m.tasks[x.id := c.(task := c.task.(status := InFlight, deadline := deadline))])
  }

  /** Pop until a deliverable item turns up or the heap is empty. */
  ghost predicate DequeueStep(m: Machine, deadline: Time, m': Machine, r: Option<Task>)
    decreases |m.heap|, 1
  {
    if m.heap == multiset{} then m' == m && r == None
    else exists x :: DequeuePop(m, deadline, m', r, x)
  }

  /** The iteration of the pop loop that pops `x`, and the iterations after it. */
  ghost predicate DequeuePop(m: Machine, deadline: Time, m': Machine, r: Option<Task>, x: Item)
    requires m.heap != multiset{}
    decreases |m.heap|, 0
  {
    && IsMin(m.heap, x)
    && if Deliverable(m, x) then m' == Delivered(m, x, deadline) && r == Some(m'.tasks[x.id].task)
       else DequeueStep(Popped(m, x), deadline, m', r)
  }

  function RequeuedCell(c: Cell): Cell {
    if c.task.status == InFlight then c.(task := c.task.(status := Pending, deadline := ZERO_TIME)) else c
  }

  /** The in-flight tasks among `ids` that have no entry in the heap. */
  function WithoutEntry(m: Machine, ids: set<string>): set<string> {
    set id | id in m.tasks && id in ids && m.tasks[id].task.status == InFlight && m.tasks[id].task.id !in m.inHeap
  }

  function ItemsOf(tasks: map<string, Cell>, ids: set<string>): set<Item> {
    set id | id in tasks && id in ids :: ItemOf(tasks[id])
  }

  /** The in-flight tasks among `ids` become pending again, and those without an entry in the
      heap get one. */
  function RequeueSome(m: Machine, ids: set<string>): Machine {
    var back := WithoutEntry(m, ids);
    m.(tasks := map id | id in m.tasks :: if id in ids then RequeuedCell(m.tasks[id]) else m.tasks[id],
       heap := m.heap + multiset(ItemsOf(m.tasks, back)),
       inHeap := m.inHeap + set id | id in back :: m.tasks[id].task.id)
  }

  /** Every in-flight task becomes pending again. */
  function Requeue(m: Machine): Machine {
    RequeueSome(m, m.tasks.Keys)
  }

  // ---------------------------------------------------------------- snapshots

  /** `d` lists every live task once, as pending and in any order, with the dead letters and
      the ack counter. */
  ghost predicate IsSnapshot(m: Machine, d: SnapshotState) {
    && (forall i, j :: 0 <= i < j < |d.tasks| ==> d.tasks[i].id != d.tasks[j].id)
    && (forall i :: 0 <= i < |d.tasks| ==> d.tasks[i].id in m.tasks && d.tasks[i] == Core(m.tasks[d.tasks[i].id].task))
    && (forall id :: id in m.tasks ==> exists i :: 0 <= i < |d.tasks| && d.tasks[i].id == id)
    && d.dlq == m.dlq
    && d.acked == m.acked
  }

  function RestoreTask(m: Machine, t: Task): Machine {
    var c := Cell(m.nextRef, t);
    Push(m.(tasks := m.tasks[t.id := c], nextRef := m.nextRef + 1), c)
  }

  function RestoreTasks(m: Machine, ts: seq<Task>): Machine {
    if ts == [] then m
    else RestoreTask(RestoreTasks(m, ts[..|ts| - 1]), ts[|ts| - 1])
  }

  /** The queue is replaced by the snapshot; the nack counter stays. */
  function Restore(m: Machine, d: SnapshotState): Machine {
    RestoreTasks(m.(tasks := map[], heap := multiset{}, inHeap := {}), d.tasks).(dlq := d.dlq, acked := d.acked)
  }

  // ---------------------------------------------------------------- the replicated view

  /** Live tasks are filed under their own ids. */
  ghost predicate Keyed(m: Machine) {
    forall id :: id in m.tasks ==> m.tasks[id].task.id == id
  }

  function ViewOf(m: Machine): View {
    View(map id | id in m.tasks :: Core(m.tasks[id].task), Cores(m.dlq), m.acked)
  }

  lemma EnqueueRefines(m: Machine, task: Option<Task>)
    requires Keyed(m)
    ensures Keyed(ApplyEnqueue(m, task)) && ViewOf(ApplyEnqueue(m, task)) == Enqueued(ViewOf(m), task)
  {
    var m', v' := ApplyEnqueue(m, task), Enqueued(ViewOf(m), task);
    assert ViewOf(m').live == v'.live;
  }

  lemma AckRefines(m: Machine, id: string)
    requires Keyed(m)
    ensures Keyed(ApplyAck(m, id)) && ViewOf(ApplyAck(m, id)) == Acked(ViewOf(m), id)
  {
    var m', v' := ApplyAck(m, id), Acked(ViewOf(m), id);
    assert ViewOf(m').live == v'.live;
  }

  lemma NackRefines(m: Machine, id: string)
    requires Keyed(m)
    ensures Keyed(ApplyNack(m, id)) && ViewOf(ApplyNack(m, id)) == Nacked(ViewOf(m), m.maxRetries, id)
  {
    var m', v' := ApplyNack(m, id), Nacked(ViewOf(m), m.maxRetries, id);
    assert ViewOf(m').live == v'.live;
    assert ViewOf(m').dlq == v'.dlq;
  }

  /** Applying a command to a replica is applying it to the replicated view. */
  lemma ApplyRefines(m: Machine, op: QueueOp)
    requires Keyed(m)
    ensures Keyed(Apply(m, op)) && Apply(m, op).maxRetries == m.maxRetries
    ensures ViewOf(Apply(m, op)) == ApplyOp(ViewOf(m), m.maxRetries, op)
  {
    if op.kind == OP_ENQUEUE {
      EnqueueRefines(m, op.task);
    } else if op.kind == OP_ACK {
      AckRefines(m, op.taskId);
    } else if op.kind == OP_NACK {
      NackRefines(m, op.taskId);
    }
  }

  lemma DeliverKeepsView(m: Machine, x: Item, deadline: Time)
    requires Keyed(m) && x.id in m.tasks
    ensures Keyed(Delivered(m, x, deadline)) && ViewOf(Delivered(m, x, deadline)) == ViewOf(m)
  {
    var m' := Delivered(m, x, deadline);
    assert ViewOf(m').live == ViewOf(m).live;
  }

  /** Handing out a task does not touch the replicated view. */
  lemma {:induction false} DequeueKeepsView(m: Machine, deadline: Time, m': Machine, r: Option<Task>)
    requires Keyed(m) && DequeueStep(m, deadline, m', r)
    ensures Keyed(m') && ViewOf(m') == ViewOf(m) && m'.maxRetries == m.maxRetries
    decreases |m.heap|
  {
    if m.heap != multiset{} {
      var x :| DequeuePop(m, deadline, m', r, x);
      if Deliverable(m, x) {
        DeliverKeepsView(m, x, deadline);
      } else {
        DequeueKeepsView(Popped(m, x), deadline, m', r);
        assert ViewOf(Popped(m, x)) == ViewOf(m);
      }
    }
  }

  /** Losing leadership does not touch the replicated view. */
  lemma RequeueKeepsView(m: Machine)
    requires Keyed(m)
    ensures Keyed(Requeue(m)) && ViewOf(Requeue(m)) == ViewOf(m) && Requeue(m).maxRetries == m.maxRetries
  {
    assert ViewOf(Requeue(m)).live == ViewOf(m).live;
  }

  lemma SnapshotStands(m: Machine, d: SnapshotState)
    requires Keyed(m) && IsSnapshot(m, d)
    ensures Stands(d, ViewOf(m)) && Neat(d)
  {
  }

  ghost predicate Agrees(tasks: map<string, Cell>, v: View) {
    forall id :: id in tasks ==> tasks[id].task.id == id && id in v.live && Core(tasks[id].task) == v.live[id]
  }

  lemma {:induction false} RestoredTasks(m: Machine, ts: seq<Task>, v: View)
    requires m.tasks == map[]
    requires forall i :: 0 <= i < |ts| ==> ts[i].id in v.live && v.live[ts[i].id] == Core(ts[i])
    ensures var m' := RestoreTasks(m, ts);
            && m'.maxRetries == m.maxRetries && m'.nacked == m.nacked && Agrees(m'.tasks, v)
            && (forall i :: 0 <= i < |ts| ==> ts[i].id in m'.tasks)
  {
    hide RestoreTask;
    if ts != [] {
      var k := |ts| - 1;
      RestoredTasks(m, ts[..k], v);
      var before := RestoreTasks(m, ts[..k]);
      RestoredTask(before, ts[k], v);
      assert forall i :: 0 <= i < k ==> ts[..k][i].id in before.tasks;
    }
  }

  lemma RestoredTask(m: Machine, t: Task, v: View)
    requires Agrees(m.tasks, v) && t.id in v.live && v.live[t.id] == Core(t)
    ensures var m' := RestoreTask(m, t);
            && m'.maxRetries == m.maxRetries && m'.nacked == m.nacked
            && Agrees(m'.tasks, v) && m'.tasks.Keys == m.tasks.Keys + {t.id}
  {
  }

  /** Restoring a snapshot yields exactly the view it stands for. */
  lemma RestoreYields(m: Machine, d: SnapshotState, v: View)
    requires Stands(d, v)
    ensures Keyed(Restore(m, d)) && ViewOf(Restore(m, d)) == v
    ensures Restore(m, d).maxRetries == m.maxRetries && Restore(m, d).nacked == m.nacked
  {
    var m0 := m.(tasks := map[], heap := multiset{}, inHeap := {});
    RestoredTasks(m0, d.tasks, v);
    hide RestoreTasks;
    AgreeingView(Restore(m, d), d, v);
  }

  lemma AgreeingView(m: Machine, d: SnapshotState, v: View)
    requires Agrees(m.tasks, v) && Stands(d, v) && m.dlq == d.dlq && m.acked == d.acked
    requires forall i :: 0 <= i < |d.tasks| ==> d.tasks[i].id in m.tasks
    ensures Keyed(m) && ViewOf(m) == v
  {
    forall id | id in v.live ensures id in m.tasks {
      var i :| 0 <= i < |d.tasks| && d.tasks[i].id == id;
    }
    assert ViewOf(m).live == v.live;
  }
}
