/** The lazily cleaned heap refines a plain priority queue: stale entries never hide a pending
    task and never get delivered (broker/statemachine.go). */
module QueueHeap {
  import opened Tasks
  import opened QueueView
  import opened QueueMachine

  ghost predicate HasId(heap: multiset<Item>, id: string) {
    exists x :: x in heap && x.id == id
  }

  /** `inHeap` is the set of ids in the heap, each there once. */
  ghost predicate EntriesOk(heap: multiset<Item>, inHeap: set<string>, nextRef: nat) {
    && (forall x :: x in heap ==> x.ref < nextRef && heap[x] == 1 && x.id in inHeap)
    && (forall x, y :: x in heap && y in heap && x.id == y.id ==> x == y)
    && (forall id :: id in inHeap ==> HasId(heap, id))
  }

  ghost predicate TasksOk(tasks: map<string, Cell>, nextRef: nat) {
    forall id :: id in tasks ==>
      tasks[id].task.id == id && tasks[id].ref < nextRef
      && (tasks[id].task.status == Pending || tasks[id].task.status == InFlight)
  }

  /** The entry of a live task is that very task, and every pending task has its entry. */
  ghost predicate LinksOk(heap: multiset<Item>, tasks: map<string, Cell>) {
    && (forall x :: x in heap && x.id in tasks ==> x == ItemOf(tasks[x.id]))
    && (forall id :: id in tasks && tasks[id].task.status == Pending ==> ItemOf(tasks[id]) in heap)
  }

  ghost predicate HeapOk(m: Machine) {
    EntriesOk(m.heap, m.inHeap, m.nextRef) && TasksOk(m.tasks, m.nextRef) && LinksOk(m.heap, m.tasks)
  }

  lemma RemoveEntry(heap: multiset<Item>, inHeap: set<string>, nextRef: nat, x: Item)
    requires EntriesOk(heap, inHeap, nextRef) && x in heap
    ensures EntriesOk(heap - multiset{x}, inHeap - {x.id}, nextRef)
    ensures forall y :: y in heap - multiset{x} <==> y in heap && y != x
  {
    var heap' := heap - multiset{x};
    forall id | id in inHeap - {x.id} ensures HasId(heap', id) {
      assert HasId(heap, id);
      var y :| y in heap && y.id == id;
      assert y in heap';
    }
  }

  lemma AddEntry(heap: multiset<Item>, inHeap: set<string>, nextRef: nat, x: Item)
    requires EntriesOk(heap, inHeap, nextRef) && x.id !in inHeap && x.ref < nextRef
    ensures EntriesOk(heap + multiset{x}, inHeap + {x.id}, nextRef)
    ensures forall y :: y in heap + multiset{x} <==> y in heap || y == x
  {
    var heap' := heap + multiset{x};
    assert heap[x] == 0;
    forall id | id in inHeap + {x.id} ensures HasId(heap', id) {
      if id in inHeap {
        assert HasId(heap, id);
        var y :| y in heap && y.id == id;
        assert y in heap';
      } else {
        assert x in heap';
      }
    }
  }

  lemma MoreRefs(heap: multiset<Item>, inHeap: set<string>, nextRef: nat, nextRef': nat)
    requires EntriesOk(heap, inHeap, nextRef) && nextRef <= nextRef'
    ensures EntriesOk(heap, inHeap, nextRef')
  {
  }

  /** The entry of an id that is in the heap and live. */
  lemma CurrentEntry(m: Machine, id: string)
    requires HeapOk(m) && id in m.inHeap && id in m.tasks
    ensures ItemOf(m.tasks[id]) in m.heap
  {
    assert HasId(m.heap, id);
    var x :| x in m.heap && x.id == id;
    assert x == ItemOf(m.tasks[x.id]);
  }

  /** A pending task as the plain queue sees it. */
  ghost predicate IsPending(m: Machine, id: string) {
    id in m.tasks && m.tasks[id].task.status == Pending
  }

  /** No pending task has a smaller priority, or the same and an earlier creation time. */
  ghost predicate NextInLine(m: Machine, id: string) {
    && IsPending(m, id)
    && forall other :: IsPending(m, other) ==>
         var t, u := m.tasks[id].task, m.tasks[other].task;
         t.priority <= u.priority && (t.priority == u.priority ==> t.createdAt <= u.createdAt)
  }

  // ---------------------------------------------------------------- dequeue

  lemma PoppedOk(m: Machine, x: Item)
    requires HeapOk(m) && x in m.heap && !Deliverable(m, x)
    ensures HeapOk(Popped(m, x))
  {
    RemoveEntry(m.heap, m.inHeap, m.nextRef, x);
    hide EntriesOk;
    assert LinksOk(m.heap - multiset{x}, m.tasks);
  }

  lemma OnlyEntry(heap: multiset<Item>, inHeap: set<string>, nextRef: nat, x: Item)
    requires EntriesOk(heap, inHeap, nextRef) && x in heap
    ensures forall y :: y in heap && y.id == x.id ==> y == x
  {
  }

  lemma LinksWithout(heap: multiset<Item>, heap': multiset<Item>, tasks: map<string, Cell>, x: Item, c: Cell)
    requires (forall id :: id in tasks ==> tasks[id].task.id == id) && LinksOk(heap, tasks) && c.task.status == InFlight
    requires forall y :: y in heap' <==> y in heap && y != x
    requires forall y :: y in heap && y.id == x.id ==> y == x
    ensures LinksOk(heap', tasks[x.id := c])
  {
    var tasks' := tasks[x.id := c];
    forall id | id in tasks' && tasks'[id].task.status == Pending ensures ItemOf(tasks'[id]) in heap' {
      assert id != x.id;
      assert ItemOf(tasks[id]) in heap;
      assert id in tasks && ItemOf(tasks[id]).id == id;
    }
  }

  lemma DeliveredOk(m: Machine, x: Item, deadline: Time)
    requires HeapOk(m) && x in m.heap && Deliverable(m, x)
    ensures HeapOk(Delivered(m, x, deadline))
  {
    hide EntriesOk, LinksOk;
    RemoveEntry(m.heap, m.inHeap, m.nextRef, x);
    OnlyEntry(m.heap, m.inHeap, m.nextRef, x);
    var m' := Delivered(m, x, deadline);
    LinksWithout(m.heap, m'.heap, m.tasks, x, m'.tasks[x.id]);
  }

  lemma MinIsNext(m: Machine, x: Item)
    requires HeapOk(m) && IsMin(m.heap, x) && Deliverable(m, x)
    ensures NextInLine(m, x.id)
  {
    assert ItemOf(m.tasks[x.id]) == x;
    forall other | IsPending(m, other) ensures !Before(ItemOf(m.tasks[other]), ItemOf(m.tasks[x.id])) {
      assert ItemOf(m.tasks[other]) in m.heap;
    }
  }

  /** What the pop loop delivers: nothing exactly when nothing is pending; otherwise a task that
      is next in line by priority and age, marked in flight, with all other tasks untouched. */
  ghost predicate Delivers(m: Machine, deadline: Time, m': Machine, r: Option<Task>) {
    && (r.None? <==> forall id :: !IsPending(m, id))
    && (r.None? ==> m'.tasks == m.tasks)
    && (r.Some? ==>
          && NextInLine(m, r.value.id)
          && r.value == m.tasks[r.value.id].task.(status := InFlight, deadline := deadline)
          && m'.tasks == m.tasks[r.value.id := m.tasks[r.value.id].(task := r.value)])
    && m' == m.(tasks := m'.tasks, heap := m'.heap, inHeap := m'.inHeap)
  }

  /** A delivered task has the lowest priority value of all pending ones, and among those the
      earliest creation time. */
  lemma DeliversByPriority(m: Machine, deadline: Time, m': Machine, r: Option<Task>, id: string)
    requires Delivers(m, deadline, m', r) && id in m.tasks && m.tasks[id].task.status == Pending
    ensures r.Some?
    ensures var u := m.tasks[id].task;
            r.value.priority <= u.priority && (r.value.priority == u.priority ==> r.value.createdAt <= u.createdAt)
  {
    assert IsPending(m, id);
  }

  lemma {:induction false} DequeueDelivers(m: Machine, deadline: Time, m': Machine, r: Option<Task>)
    requires HeapOk(m) && DequeueStep(m, deadline, m', r)
    ensures HeapOk(m') && Delivers(m, deadline, m', r)
    decreases |m.heap|
  {
    if m.heap != multiset{} {
      var x :| DequeuePop(m, deadline, m', r, x);
      if Deliverable(m, x) {
        DeliveredOk(m, x, deadline);
        MinIsNext(m, x);
        assert IsPending(m, x.id);
      } else {
        PoppedOk(m, x);
        DequeueDelivers(Popped(m, x), deadline, m', r);
        assert forall id :: IsPending(Popped(m, x), id) <==> IsPending(m, id);
      }
    } else {
      assert forall id :: !IsPending(m, id);
    }
  }

  // ---------------------------------------------------------------- committed commands

  lemma LinksWith(heap: multiset<Item>, heap': multiset<Item>, tasks: map<string, Cell>, c: Cell)
    requires LinksOk(heap, tasks - {c.task.id})
    requires forall y :: y in heap' <==> y in heap || y == ItemOf(c)
    requires forall y :: y in heap' && y.id == c.task.id ==> y == ItemOf(c)
    ensures LinksOk(heap', tasks[c.task.id := c])
  {
    var others, tasks' := tasks - {c.task.id}, tasks[c.task.id := c];
    assert forall id :: id in tasks' && id != c.task.id ==> id in others && others[id] == tasks'[id];
  }

  /** A task becomes pending again, or pending for the first time, and is pushed. */
  lemma PushOk(m: Machine, c: Cell)
    requires EntriesOk(m.heap, m.inHeap, m.nextRef) && TasksOk(m.tasks, m.nextRef)
    requires LinksOk(m.heap, m.tasks - {c.task.id})
    requires c.ref < m.nextRef && c.task.status == Pending
    requires c.task.id in m.inHeap ==> ItemOf(c) in m.heap
    ensures HeapOk(Push(m.(tasks := m.tasks[c.task.id := c]), c))
  {
    hide EntriesOk, LinksOk;
    var m' := Push(m.(tasks := m.tasks[c.task.id := c]), c);
    if c.task.id !in m.inHeap {
      AddEntry(m.heap, m.inHeap, m.nextRef, ItemOf(c));
    }
    OnlyEntry(m'.heap, m'.inHeap, m'.nextRef, ItemOf(c));
    LinksWith(m.heap, m'.heap, m.tasks, c);
  }

  lemma LinksFewer(heap: multiset<Item>, tasks: map<string, Cell>, id: string)
    requires LinksOk(heap, tasks)
    ensures LinksOk(heap, tasks - {id})
  {
  }

  lemma AckHeapOk(m: Machine, id: string)
    requires HeapOk(m)
    ensures HeapOk(ApplyAck(m, id))
  {
    hide EntriesOk, LinksOk;
    LinksFewer(m.heap, m.tasks, id);
  }

  lemma NackHeapOk(m: Machine, id: string)
    requires HeapOk(m)
    ensures HeapOk(ApplyNack(m, id))
  {
    hide EntriesOk, LinksOk;
    LinksFewer(m.heap, m.tasks, id);
    if id in m.tasks && m.tasks[id].task.retryCount + 1 < m.maxRetries {
      if id in m.inHeap {
        CurrentEntry(m, id);
      }
      var c := m.tasks[id];
      var t := c.task.(retryCount := c.task.retryCount + 1);
      var c' := c.(task := t.(status := Pending, deadline := ZERO_TIME));
      PushOk(m.(nacked := m.nacked + 1), c');
    }
  }

  /** A committed enqueue is accepted: it names a task that is not live. */
  predicate Accepts(m: Machine, task: Option<Task>) {
    task.Some? && task.value.id != "" && task.value.id !in m.tasks
  }

  lemma NewItem(heap: multiset<Item>, inHeap: set<string>, nextRef: nat, c: Cell)
    requires EntriesOk(heap, inHeap, nextRef) && c.ref == nextRef
    ensures ItemOf(c) !in heap
  {
  }

  lemma Unlinked(heap: multiset<Item>, tasks: map<string, Cell>, id: string)
    requires id in tasks && tasks[id].task.status == Pending && ItemOf(tasks[id]) !in heap
    ensures !LinksOk(heap, tasks)
  {
  }

  /** An accepted enqueue keeps the heap complete exactly when no entry with its id is left in
      the heap. A stale entry of an acked or dead-lettered task with the same id suppresses the
      push, and the new task is pending without an entry. */
  lemma EnqueueHeapExactly(m: Machine, task: Option<Task>)
    requires HeapOk(m) && Accepts(m, task)
    ensures HeapOk(ApplyEnqueue(m, task)) <==> task.value.id !in m.inHeap
  {
    hide EntriesOk, LinksOk;
    var id := task.value.id;
    var c := Cell(m.nextRef, task.value.(status := Pending));
    var m1 := m.(tasks := m.tasks[id := c], nextRef := m.nextRef + 1);
    if id in m.inHeap {
      NewItem(m.heap, m.inHeap, m.nextRef, c);
      assert ApplyEnqueue(m, task).tasks[id] == c;
      Unlinked(m.heap, m1.tasks, id);
    } else {
      MoreRefs(m.heap, m.inHeap, m.nextRef, m.nextRef + 1);
      LinksFewer(m.heap, m.tasks, id);
      PushOk(m.(nextRef := m.nextRef + 1), c);
    }
  }

  /** The heap stays complete over a command that does not reuse an id still in the heap. */
  lemma ApplyHeapOk(m: Machine, op: QueueOp)
    requires HeapOk(m)
    requires op.kind == OP_ENQUEUE && Accepts(m, op.task) ==> op.task.value.id !in m.inHeap
    ensures HeapOk(Apply(m, op))
  {
    if op.kind == OP_ENQUEUE {
      if Accepts(m, op.task) {
        EnqueueHeapExactly(m, op.task);
      }
    } else if op.kind == OP_ACK {
      AckHeapOk(m, op.taskId);
    } else if op.kind == OP_NACK {
      NackHeapOk(m, op.taskId);
    }
  }

  // ---------------------------------------------------------------- losing leadership

  lemma HeapOkKeyed(m: Machine)
    requires HeapOk(m)
    ensures Keyed(m)
  {
  }

  lemma NothingRequeued(m: Machine)
    ensures RequeueSome(m, {}) == m
  {
    assert RequeueSome(m, {}).tasks == m.tasks;
  }

  /** One turn of the loop over the tasks: the task goes back if it is in flight. */
  function RequeueOne(m: Machine, id: string): Machine
    requires id in m.tasks
  {
    var c := RequeuedCell(m.tasks[id]);
    if m.tasks[id].task.status == InFlight then Push(m.(tasks := m.tasks[id := c]), c) else m
  }

  lemma ItemsWith(m: Machine, ids: set<string>, id: string)
    requires Keyed(m) && id in m.tasks && id !in ids
    ensures multiset(ItemsOf(m.tasks, ids + {id})) == multiset(ItemsOf(m.tasks, ids)) + multiset{ItemOf(m.tasks[id])}
  {
    var items, items', x := ItemsOf(m.tasks, ids), ItemsOf(m.tasks, ids + {id}), ItemOf(m.tasks[id]);
    assert items' == items + {x};
    assert x !in items;
  }

  lemma BackWith(m: Machine, ids: set<string>, id: string)
    requires Keyed(m) && id in m.tasks && id !in ids
    ensures var back := WithoutEntry(m, ids);
            id !in back && WithoutEntry(m, ids + {id}) ==
              if m.tasks[id].task.status == InFlight && id !in m.inHeap then back + {id} else back
  {
  }

  lemma EntriesWith(m: Machine, ids: set<string>)
    requires Keyed(m)
    ensures RequeueSome(m, ids) == m.(
              tasks := RequeueSome(m, ids).tasks,
              heap := m.heap + multiset(ItemsOf(m.tasks, WithoutEntry(m, ids))),
              inHeap := m.inHeap + WithoutEntry(m, ids))
  {
  }

  lemma TasksWith(m: Machine, ids: set<string>, id: string)
    requires id in m.tasks && id !in ids
    ensures RequeueSome(m, ids).tasks.Keys == m.tasks.Keys && RequeueSome(m, ids).tasks[id] == m.tasks[id]
    ensures RequeueSome(m, ids + {id}).tasks == RequeueSome(m, ids).tasks[id := RequeuedCell(m.tasks[id])]
  {
  }

  /** Whatever order the loop visits the tasks in, each turn adds its task to those requeued. */
  lemma RequeueTurn(m: Machine, ids: set<string>, id: string)
    requires Keyed(m) && id in m.tasks && id !in ids
    ensures RequeueSome(m, ids).tasks.Keys == m.tasks.Keys
    ensures RequeueOne(RequeueSome(m, ids), id) == RequeueSome(m, ids + {id})
  {
    hide RequeueSome, WithoutEntry, ItemsOf;
    TasksWith(m, ids, id);
    BackWith(m, ids, id);
    EntriesWith(m, ids);
    EntriesWith(m, ids + {id});
    var back := WithoutEntry(m, ids);
    ItemsWith(m, back, id);
    var items, x := multiset(ItemsOf(m.tasks, back)), ItemOf(m.tasks[id]);
    assert m.heap + items + multiset{x} == m.heap + (items + multiset{x});
    assert m.inHeap + back + {id} == m.inHeap + (back + {id});
    assert m.tasks[id].task.status != InFlight ==>
        RequeueSome(m, ids).tasks[id := m.tasks[id]] == RequeueSome(m, ids).tasks;
  }

  lemma RequeueOneOk(m: Machine, id: string)
    requires HeapOk(m) && id in m.tasks
    ensures HeapOk(RequeueOne(m, id))
  {
    hide EntriesOk, LinksOk;
    LinksFewer(m.heap, m.tasks, id);
    if m.tasks[id].task.status == InFlight {
      if id in m.inHeap {
        CurrentEntry(m, id);
      }
      PushOk(m, RequeuedCell(m.tasks[id]));
    }
  }

  lemma {:induction false} RequeueSomeOk(m: Machine, ids: set<string>)
    requires HeapOk(m) && ids <= m.tasks.Keys
    ensures HeapOk(RequeueSome(m, ids))
  {
    hide HeapOk, RequeueSome, RequeueOne;
    HeapOkKeyed(m);
    if ids == {} {
      NothingRequeued(m);
    } else {
      var id :| id in ids;
      RequeueSomeOk(m, ids - {id});
      RequeueTurn(m, ids - {id}, id);
      assert ids - {id} + {id} == ids;
      RequeueOneOk(RequeueSome(m, ids - {id}), id);
    }
  }

  /** After losing leadership every live task is pending and has its entry in the heap. */
  lemma RequeueHeapOk(m: Machine)
    requires HeapOk(m)
    ensures HeapOk(Requeue(m)) && forall id :: id in m.tasks ==> IsPending(Requeue(m), id)
    ensures Requeue(m) == m.(tasks := Requeue(m).tasks, heap := Requeue(m).heap, inHeap := Requeue(m).inHeap)
    ensures forall id :: id in m.tasks ==>
              var t := m.tasks[id].task;
              Requeue(m).tasks[id].task == if t.status == InFlight then t.(status := Pending, deadline := 0) else t
  {
    RequeueSomeOk(m, m.tasks.Keys);
  }

  // ---------------------------------------------------------------- restoring a snapshot

  /** The heap holds nothing but live tasks. */
  ghost predicate NoStale(m: Machine) {
    m.inHeap == m.tasks.Keys
  }

  lemma IdsWith(ts: seq<Task>, t: Task)
    ensures IdsOf(ts + [t]) == IdsOf(ts) + {t.id}
  {
    assert forall i :: 0 <= i < |ts| ==> (ts + [t])[i] == ts[i];
    assert (ts + [t])[|ts|] == t;
  }

  lemma EmptyHeapOk(m: Machine)
    requires m.tasks == map[] && m.heap == multiset{} && m.inHeap == {}
    ensures HeapOk(m) && NoStale(m)
  {
  }

  lemma {:induction false} RestoredOk(m: Machine, ts: seq<Task>)
    requires m.tasks == map[] && m.heap == multiset{} && m.inHeap == {}
    requires forall i :: 0 <= i < |ts| ==> ts[i].status == Pending
    requires forall i, j :: 0 <= i < j < |ts| ==> ts[i].id != ts[j].id
    ensures HeapOk(RestoreTasks(m, ts)) && NoStale(RestoreTasks(m, ts))
    ensures RestoreTasks(m, ts).tasks.Keys == IdsOf(ts)
  {
    hide HeapOk, NoStale, RestoreTask;
    if ts == [] {
      EmptyHeapOk(m);
    } else {
      var k := |ts| - 1;
      RestoredOk(m, ts[..k]);
      IdsWith(ts[..k], ts[k]);
      assert ts[..k] + [ts[k]] == ts;
      RestoreOneOk(RestoreTasks(m, ts[..k]), ts[k]);
    }
  }

  lemma RestoreOneOk(m: Machine, t: Task)
    requires HeapOk(m) && NoStale(m) && t.id !in m.tasks && t.status == Pending
    ensures HeapOk(RestoreTask(m, t)) && NoStale(RestoreTask(m, t))
    ensures RestoreTask(m, t).tasks.Keys == m.tasks.Keys + {t.id}
  {
    hide EntriesOk, LinksOk;
    LinksFewer(m.heap, m.tasks, t.id);
    MoreRefs(m.heap, m.inHeap, m.nextRef, m.nextRef + 1);
    PushOk(m.(nextRef := m.nextRef + 1), Cell(m.nextRef, t));
  }

  lemma SnapshotIds(m: Machine, d: SnapshotState)
    requires IsSnapshot(m, d)
    ensures IdsOf(d.tasks) == m.tasks.Keys
  {
  }

  lemma RestoreNeat(m: Machine, d: SnapshotState)
    requires Neat(d)
    ensures HeapOk(Restore(m, d)) && NoStale(Restore(m, d)) && Restore(m, d).tasks.Keys == IdsOf(d.tasks)
  {
    hide RestoreTasks, EntriesOk, TasksOk, LinksOk;
    RestoredOk(m.(tasks := map[], heap := multiset{}, inHeap := {}), d.tasks);
  }

  /** Restoring a snapshot rebuilds a complete heap without stale entries, whatever state the
      replica was in. */
  lemma RestoreHeapOk(m: Machine, from: Machine, d: SnapshotState)
    requires IsSnapshot(from, d)
    ensures HeapOk(Restore(m, d)) && NoStale(Restore(m, d)) && Restore(m, d).tasks.Keys == from.tasks.Keys
  {
    hide HeapOk, Restore;
    RestoreNeat(m, d);
    SnapshotIds(from, d);
  }
}
