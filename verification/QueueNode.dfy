/** The replicated queue and the server's apply loop as they run: mutable fields, the lazily
    cleaned heap and the loops over the task table (broker/statemachine.go, server/cluster.go). */
module QueueNode {
  import opened Tasks
  import opened RaftLog
  import opened QueueView
  import opened QueueMachine
  import opened QueueHeap
  import opened PriorityQueues
  import opened RaftCluster

  /** What the pop loop delivers from `m` is what it delivers from `m0`. */
  ghost predicate Yields(m: Machine, m0: Machine, deadline: Time) {
    forall m', r :: DequeueStep(m, deadline, m', r) ==> DequeueStep(m0, deadline, m', r)
  }

  lemma YieldsItself(m: Machine, deadline: Time)
    ensures Yields(m, m, deadline)
  {
  }

  /** An entry that is popped and skipped does not decide what the pop loop delivers. */
  lemma SkipStale(m: Machine, x: Item, m0: Machine, deadline: Time)
    requires Yields(m, m0, deadline) && IsMin(m.heap, x) && !Deliverable(m, x)
    ensures Yields(Popped(m, x), m0, deadline) && |Popped(m, x).heap| < |m.heap|
  {
    forall m', r | DequeueStep(Popped(m, x), deadline, m', r) ensures DequeueStep(m0, deadline, m', r) {
      assert DequeuePop(m, deadline, m', r, x);
    }
  }

  lemma DeliverFirst(m: Machine, x: Item, m0: Machine, deadline: Time)
    requires Yields(m, m0, deadline) && IsMin(m.heap, x) && Deliverable(m, x)
    ensures DequeueStep(m0, deadline, Delivered(m, x, deadline), Some(Delivered(m, x, deadline).tasks[x.id].task))
  {
    var m' := Delivered(m, x, deadline);
    assert DequeuePop(m, deadline, m', Some(m'.tasks[x.id].task), x);
  }

  lemma NothingLeft(m: Machine, m0: Machine, deadline: Time)
    requires Yields(m, m0, deadline) && m.heap == multiset{}
    ensures DequeueStep(m0, deadline, m, None)
  {
    assert DequeueStep(m, deadline, m, None);
  }

  /** `d` lists the tasks of `tasks` outside `rest`. */
  ghost predicate Listed(ts: seq<Task>, tasks: map<string, Cell>, rest: set<string>) {
    && (forall i, j :: 0 <= i < j < |ts| ==> ts[i].id != ts[j].id)
    && (forall i :: 0 <= i < |ts| ==> ts[i].id in tasks && ts[i].id !in rest && ts[i] == Core(tasks[ts[i].id].task))
    && (forall id :: id in tasks && id !in rest ==> HasTask(ts, id))
  }

  ghost predicate HasTask(ts: seq<Task>, id: string) {
    exists i :: 0 <= i < |ts| && ts[i].id == id
  }

  lemma ListedNext(ts: seq<Task>, tasks: map<string, Cell>, rest: set<string>, id: string)
    requires Listed(ts, tasks, rest) && id in rest && id in tasks && tasks[id].task.id == id
    ensures Listed(ts + [Core(tasks[id].task)], tasks, rest - {id})
  {
    var ts' := ts + [Core(tasks[id].task)];
    forall x | x in tasks && x !in rest - {id} ensures HasTask(ts', x) {
      if x == id {
        assert ts'[|ts|].id == id;
      } else {
        assert HasTask(ts, x);
        var i :| 0 <= i < |ts| && ts[i].id == x;
        assert ts'[i].id == x;
      }
    }
  }

  lemma {:induction false} RestoredKeyed(m: Machine, ts: seq<Task>)
    requires Keyed(m)
    ensures Keyed(RestoreTasks(m, ts))
  {
    if ts != [] {
      RestoredKeyed(m, ts[..|ts| - 1]);
    }
  }

  lemma NothingRestored(m: Machine, ts: seq<Task>)
    requires ts == []
    ensures RestoreTasks(m, ts) == m
  {
  }

  lemma SameTasksKeyed(m: Machine, m': Machine)
    requires Keyed(m) && m'.tasks == m.tasks
    ensures Keyed(m')
  {
  }

  lemma RestoreNext(m: Machine, ts: seq<Task>, i: nat)
    requires i < |ts|
    ensures RestoreTasks(m, ts[..i + 1]) == RestoreTask(RestoreTasks(m, ts[..i]), ts[i])
  {
    assert ts[..i + 1][..i] == ts[..i];
  }

  class StateMachine {
    const maxRetries: int
    var tasks: map<string, Cell>
    var pq: PriorityQueue
    var inHeap: set<string>
    var dlq: seq<Task>
    var acked: int
    var nacked: int
    var nextRef: nat

    ghost function State(): Machine
      reads this, pq
    {
      Machine(maxRetries, tasks, pq.Contents(), inHeap, dlq, acked, nacked, nextRef)
    }

    ghost predicate Valid()
      reads this, pq
    {
      pq.Valid() && Keyed(State())
    }

    constructor (maxRetries: int)
      ensures Valid() && fresh(pq) && State() == NewMachine(maxRetries)
    {
      this.maxRetries := maxRetries;
      tasks, inHeap, dlq, acked, nacked, nextRef := map[], {}, [], 0, 0, 0;
      pq := new PriorityQueue();
    }

    method PushTask(c: Cell)
      requires pq.Valid()
      modifies this, pq
      ensures pq == old(pq) && pq.Valid() && State() == Push(old(State()), c)
    {
      if c.task.id !in inHeap {
        pq.Push(ItemOf(c));
        inHeap := inHeap + {c.task.id};
      }
    }

    /** One committed command. */
    method Apply(op: QueueOp)
      requires Valid()
      modifies this, pq
      ensures pq == old(pq) && Valid() && State() == QueueMachine.Apply(old(State()), op)
    {
      hide Keyed, ViewOf, ApplyEnqueue, ApplyAck, ApplyNack;
      ApplyRefines(State(), op);
      if op.kind == OP_ENQUEUE {
        Enqueue(op.task);
      } else if op.kind == OP_ACK {
        Ack(op.taskId);
      } else if op.kind == OP_NACK {
        Nack(op.taskId);
      }
    }

    method Enqueue(task: Option<Task>)
      requires pq.Valid()
      modifies this, pq
      ensures pq == old(pq) && pq.Valid() && State() == ApplyEnqueue(old(State()), task)
    {
      if task.None? || task.value.id == "" || task.value.id in tasks {
        return;
      }
      var c := Cell(nextRef, task.value.(status := Pending));
      tasks, nextRef := tasks[c.task.id := c], nextRef + 1;
      PushTask(c);
    }

    method Ack(id: string)
      requires pq.Valid()
      modifies this, pq
      ensures pq == old(pq) && pq.Valid() && State() == ApplyAck(old(State()), id)
    {
      if id in tasks {
        tasks, acked := tasks - {id}, acked + 1;
      }
    }

    method Nack(id: string)
      requires pq.Valid()
      modifies this, pq
      ensures pq == old(pq) && pq.Valid() && State() == ApplyNack(old(State()), id)
    {
      if id !in tasks {
        return;
      }
      nacked := nacked + 1;
      var c := tasks[id];
      var t := c.task.(retryCount := c.task.retryCount + 1);
      if t.retryCount >= maxRetries {
        tasks, dlq := tasks - {id}, dlq + [t.(status := Dead)];
        return;
      }
      c := c.(task := t.(status := Pending, deadline := ZERO_TIME));
      tasks := tasks[id := c];
      PushTask(c);
    }

    /** Pops until a deliverable task turns up. With a complete heap, that task is next in line
        by priority and age, and nothing is returned only when nothing is pending. */
    method Dequeue(deadline: Time) returns (r: Option<Task>)
      requires Valid()
      modifies this, pq
      ensures pq == old(pq) && Valid()
      ensures DequeueStep(old(State()), deadline, State(), r)
      ensures HeapOk(old(State())) ==> HeapOk(State()) && Delivers(old(State()), deadline, State(), r)
    {
      hide Keyed, HeapOk, Delivers, DequeueStep, ViewOf;
      r := PopDeliverable(deadline);
      DequeueKeepsView(old(State()), deadline, State(), r);
      if HeapOk(old(State())) {
        DequeueDelivers(old(State()), deadline, State(), r);
      }
    }

    method PopEntry() returns (x: Option<Item>)
      requires pq.Valid()
      modifies this, pq
      ensures pq == old(pq) && pq.Valid()
      ensures x.None? ==> State() == old(State()) && State().heap == multiset{}
      ensures x.Some? ==> IsMin(old(State()).heap, x.value) && State() == Popped(old(State()), x.value)
    {
      hide IsMin, Heaped;
      x := pq.Pop();
      if x.Some? {
        inHeap := inHeap - {x.value.id};
      }
    }

    method PopDeliverable(deadline: Time) returns (r: Option<Task>)
      requires pq.Valid()
      modifies this, pq
      ensures pq == old(pq) && pq.Valid()
      ensures DequeueStep(old(State()), deadline, State(), r)
    {
      hide DequeueStep, IsMin, Yields, Heaped;
      ghost var m0 := State();
      YieldsItself(m0, deadline);
      while true
        invariant pq == old(pq) && pq.Valid()
        invariant Yields(State(), m0, deadline)
        decreases |pq.Contents()|
      {
        ghost var m := State();
        var x := PopEntry();
        if x.None? {
          NothingLeft(m, m0, deadline);
          return None;
        }
        var item := x.value;
        if item.id in tasks && tasks[item.id].ref == item.ref && tasks[item.id].task.status == Pending {
          var c := tasks[item.id];
          c := c.(task := c.task.(status := InFlight, deadline := deadline));
          tasks := tasks[item.id := c];
          DeliverFirst(m, item, m0, deadline);
          return Some(c.task);
        }
        SkipStale(m, item, m0, deadline);
      }
    }

    /** Whatever order the table is visited in, all in-flight tasks go back and nothing else
        changes. */
    method RequeueInFlight()
      requires Valid()
      modifies this, pq
      ensures pq == old(pq) && Valid() && State() == Requeue(old(State()))
    {
      hide Keyed, RequeueSome, ViewOf;
      ghost var m0 := State();
      ghost var visited: set<string> := {};
      var rest := tasks.Keys;
      NothingRequeued(m0);
      while rest != {}
        invariant pq == old(pq) && pq.Valid()
        invariant rest !! visited && rest + visited == m0.tasks.Keys
        invariant State() == RequeueSome(m0, visited)
        decreases rest
      {
        var id :| id in rest;
        RequeueTurn(m0, visited, id);
        if tasks[id].task.status == InFlight {
          var c := tasks[id];
          c := c.(task := c.task.(status := Pending, deadline := ZERO_TIME));
          tasks := tasks[id := c];
          PushTask(c);
        }
        rest, visited := rest - {id}, visited + {id};
      }
      assert visited == m0.tasks.Keys;
      RequeueKeepsView(m0);
    }

    /** Serializes the queue with every task pending. */
    method Snapshot() returns (d: SnapshotState)
      requires Valid()
      ensures IsSnapshot(State(), d)
    {
      var rest := tasks.Keys;
      var ts: seq<Task> := [];
      while rest != {}
        invariant rest <= tasks.Keys && Listed(ts, tasks, rest)
        decreases rest
      {
        var id :| id in rest;
        ListedNext(ts, tasks, rest, id);
        ts := ts + [tasks[id].task.(status := Pending, deadline := ZERO_TIME)];
        rest := rest - {id};
      }
      d := SnapshotState(ts, dlq, acked);
      assert forall id :: id in tasks ==> HasTask(ts, id);
    }

    /** Replaces the queue by a snapshot. */
    method Restore(d: SnapshotState)
      requires Valid()
      modifies this
      ensures fresh(pq) && Valid() && State() == QueueMachine.Restore(old(State()), d)
    {
      hide RestoreTasks;
      tasks, inHeap := map[], {};
      pq := new PriorityQueue();
      ghost var m0 := State();
      assert m0 == old(State()).(tasks := map[], heap := multiset{}, inHeap := {});
      assert RestoreTasks(m0, d.tasks[..0]) == m0 by { NothingRestored(m0, d.tasks[..0]); }
      RestoredKeyed(m0, d.tasks);
      hide Keyed;
      var i := 0;
      while i < |d.tasks|
        invariant 0 <= i <= |d.tasks| && fresh(pq) && pq.Valid()
        invariant State() == RestoreTasks(m0, d.tasks[..i])
      {
        RestoreNext(m0, d.tasks, i);
        var c := Cell(nextRef, d.tasks[i]);
        tasks, nextRef := tasks[d.tasks[i].id := c], nextRef + 1;
        PushTask(c);
        i := i + 1;
      }
      assert d.tasks[..i] == d.tasks;
      SameTasksKeyed(State(), State().(dlq := d.dlq, acked := d.acked));
      dlq, acked := d.dlq, d.acked;
    }
  }

  // ---------------------------------------------------------------- the apply loop

  function Waiting(waiters: map<nat, Proposal>): set<Proposal> {
    set i | i in waiters :: waiters[i]
  }

  lemma WaitingWithout(waiters: map<nat, Proposal>, index: nat)
    requires forall i :: i in waiters ==> waiters[i].index == i
    ensures Waiting(waiters - {index}) == set p | p in Waiting(waiters) && p.index != index
    ensures index !in waiters ==> waiters - {index} == waiters
  {
    var rest := waiters - {index};
    forall p | p in Waiting(waiters) && p.index != index ensures p in Waiting(rest) {
      assert p.index in rest && rest[p.index] == p;
    }
  }

  lemma WaitingWith(waiters: map<nat, Proposal>, p: Proposal)
    ensures Waiting(waiters[p.index := p]) == Waiting(waiters - {p.index}) + {p}
  {
    var rest, all := waiters - {p.index}, waiters[p.index := p];
    assert forall i :: i in rest ==> i in all && all[i] == rest[i];
    assert p.index in all && all[p.index] == p;
    assert forall i :: i in all && i != p.index ==> i in rest && rest[i] == all[i];
  }

  /** The one call that an entry can wake. */
  lemma WaitingAt(waiters: map<nat, Proposal>, e: Entry, done: set<Proposal>)
    requires forall i :: i in waiters ==> waiters[i].index == i
    requires done == if e.index in waiters && waiters[e.index].term == e.term then {waiters[e.index]} else {}
    ensures done == set p | p in Waiting(waiters) && p.index == e.index && p.term == e.term
  {
    assert e.index in waiters ==> waiters[e.index] in Waiting(waiters);
  }

  class ClusterServer {
    const sm: StateMachine
    const threshold: nat
    var waiters: map<nat, Proposal>
    var sinceSnapshot: nat
    ghost var position: nat
    ghost var issued: set<Proposal>

    ghost predicate Valid()
      reads this, sm, sm.pq
    {
      sm.Valid() && forall i :: i in waiters ==> waiters[i].index == i
    }

    ghost function State(call: Option<SnapshotCall>): Server
      reads this, sm, sm.pq
    {
      Server(sm.State(), position, sinceSnapshot, call, Waiting(waiters), issued)
    }

    constructor (sm: StateMachine, threshold: nat)
      requires sm.Valid()
      ensures Valid() && this.sm == sm && this.threshold == threshold
      ensures State(None) == Server(sm.State(), 0, 0, None, {}, {})
    {
      this.sm, this.threshold := sm, threshold;
      waiters, sinceSnapshot, position, issued := map[], 0, 0, {};
    }

    /** A client call starts to wait for the entry it proposed. */
    method Register(p: Proposal)
      requires Valid()
      modifies this
      ensures Valid() && State(None) == Registered(old(State(None)), p)
    {
      WaitingWithout(waiters, p.index);
      WaitingWith(waiters, p);
      waiters := waiters[p.index := p];
      issued := issued - {p};
    }

    /** One entry from the apply channel. `done` holds the client call that returns success, and
        `call` the snapshot to hand to Raft. */
    method ConsumeEntry(e: Entry) returns (done: set<Proposal>, call: Option<SnapshotCall>)
      requires Valid()
      modifies this, sm, sm.pq
      ensures Valid() && sm.pq == old(sm.pq)
      ensures done == set p | p in Waiting(old(waiters)) && p.index == e.index && p.term == e.term
      ensures exists data :: EntryConsumed(old(State(None)), e, done, data, threshold, State(call))
      ensures call.Some? <==> threshold > 0 && old(sinceSnapshot) + 1 >= threshold
      ensures call.Some? ==> call.value.index == e.index && IsSnapshot(sm.State(), call.value.data)
      ensures sinceSnapshot == if call.Some? then 0 else old(sinceSnapshot) + 1
    {
      ghost var s := State(None);
      WaitingWithout(waiters, e.index);
      if e.command.Some? {
        sm.Apply(e.command.value);
      }
      done := {};
      if e.index in waiters {
        var w := waiters[e.index];
        waiters := waiters - {e.index};
        if w.term == e.term {
          done := {w};
        }
      }
      WaitingAt(old(waiters), e, done);
      position := e.index;
      sinceSnapshot := sinceSnapshot + 1;
      if threshold > 0 && sinceSnapshot >= threshold {
        sinceSnapshot := 0;
        var data := sm.Snapshot();
        call := Some(SnapshotCall(e.index, data));
        assert EntryConsumed(s, e, done, data, threshold, State(call));
      } else {
        call := None;
        assert EntryConsumed(s, e, done, SnapshotState([], [], 0), threshold, State(call));
      }
    }

    /** A snapshot from the apply channel. */
    method ConsumeSnapshot(index: nat, data: SnapshotState)
      requires Valid()
      modifies this, sm
      ensures Valid() && fresh(sm.pq)
      ensures State(None) == old(State(None)).(
                machine := QueueMachine.Restore(old(sm.State()), data), position := index, sinceSnapshot := 0)
    {
      sm.Restore(data);
      sinceSnapshot := 0;
      position := index;
    }
  }
}
