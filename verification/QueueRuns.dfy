/** Whole runs of one replica's queue: committed entries interleaved with deliveries, lost
    leaderships and snapshot reloads (broker/statemachine.go). */
module QueueRuns {
  import opened Tasks
  import opened RaftLog
  import opened QueueView
  import opened QueueMachine
  import opened QueueHeap

  datatype Event =
    | Committed(entry: Entry)
    | Dequeued(deadline: Time, task: Option<Task>)
    | LostLeadership
    | Reloaded(data: SnapshotState)

  /** Only a committed entry is part of the replicated history. */
  ghost predicate Step(m: Machine, e: Event, m': Machine) {
    match e
    case Committed(entry) => m' == if entry.command.Some? then Apply(m, entry.command.value) else m
    case Dequeued(deadline, task) => DequeueStep(m, deadline, m', task)
    case LostLeadership => m' == Requeue(m)
    case Reloaded(data) => IsSnapshot(m, data) && m' == Restore(m, data)
  }

  ghost predicate IsRun(maxRetries: int, ms: seq<Machine>, es: seq<Event>) {
    && |ms| == |es| + 1
    && ms[0] == NewMachine(maxRetries)
    && forall i :: 0 <= i < |es| ==> StepAt(ms, es, i)
  }

  ghost predicate StepAt(ms: seq<Machine>, es: seq<Event>, i: nat)
    requires i < |es| && i + 1 < |ms|
  {
    Step(ms[i], es[i], ms[i + 1])
  }

  /** The committed entries of a run, in order. */
  function CommittedIn(es: seq<Event>): Log {
    if es == [] then []
    else
      var rest := CommittedIn(es[..|es| - 1]);
      if es[|es| - 1].Committed? then rest + [es[|es| - 1].entry] else rest
  }

  // ---------------------------------------------------------------- overlay independence

  lemma StepView(m: Machine, e: Event, m': Machine)
    requires Keyed(m) && Step(m, e, m')
    ensures Keyed(m') && m'.maxRetries == m.maxRetries
    ensures ViewOf(m') == if e.Committed? then ApplyCommand(ViewOf(m), m.maxRetries, e.entry.command) else ViewOf(m)
  {
    hide ViewOf, Keyed, Apply, Requeue, Restore, DequeueStep, IsSnapshot, ApplyOp, Stands;
    match e {
      case Committed(entry) =>
        if entry.command.Some? {
          ApplyRefines(m, entry.command.value);
        }
      case Dequeued(deadline, task) =>
        DequeueKeepsView(m, deadline, m', task);
      case LostLeadership =>
        RequeueKeepsView(m);
      case Reloaded(data) =>
        SnapshotStands(m, data);
        RestoreYields(m, data, ViewOf(m));
    }
  }

  lemma PrefixIsRun(maxRetries: int, ms: seq<Machine>, es: seq<Event>, k: nat)
    requires IsRun(maxRetries, ms, es) && k <= |es|
    ensures IsRun(maxRetries, ms[..k + 1], es[..k])
  {
    var ms', es' := ms[..k + 1], es[..k];
    forall i | 0 <= i < |es'| ensures StepAt(ms', es', i) {
      assert StepAt(ms, es, i);
    }
  }

  /** The replicated queue depends only on the committed entries: deliveries, lost leaderships
      and reloads, wherever they fall, leave no trace in it. */
  lemma {:induction false} OverlayIndependence(maxRetries: int, ms: seq<Machine>, es: seq<Event>)
    requires IsRun(maxRetries, ms, es)
    ensures var m := ms[|es|];
            Keyed(m) && m.maxRetries == maxRetries && ViewOf(m) == Fold(maxRetries, CommittedIn(es))
  {
    if es == [] {
      assert ViewOf(NewMachine(maxRetries)) == EMPTY;
    } else {
      hide Step, ViewOf, Keyed, Apply;
      var k := |es| - 1;
      PrefixIsRun(maxRetries, ms, es, k);
      OverlayIndependence(maxRetries, ms[..k + 1], es[..k]);
      assert StepAt(ms, es, k);
      StepView(ms[k], es[k], ms[k + 1]);
      var log := CommittedIn(es);
      if es[k].Committed? {
        assert log[..|log| - 1] == CommittedIn(es[..k]);
      }
    }
  }

  // ---------------------------------------------------------------- conservation

  /** How many entries of `log` create a task. */
  function Created(maxRetries: int, log: Log): nat {
    if log == [] then 0
    else
      var rest := log[..|log| - 1];
      Created(maxRetries, rest) + if Creates(Fold(maxRetries, rest), log[|log| - 1].command) then 1 else 0
  }

  function Accounted(v: View): int {
    |v.live| + |v.dlq| + v.acked
  }

  lemma AccountedOf(m: Machine)
    ensures Accounted(ViewOf(m)) == |m.tasks| + |m.dlq| + m.acked
  {
    var live := ViewOf(m).live;
    assert live.Keys == m.tasks.Keys;
    assert |live| == |live.Keys| && |m.tasks| == |m.tasks.Keys|;
  }

  lemma OneLess(live: map<string, Task>, id: string)
    requires id in live
    ensures |live - {id}| == |live| - 1
  {
    var rest := live - {id};
    assert rest.Keys == live.Keys - {id};
    assert |live.Keys| == |live| && |rest.Keys| == |rest|;
  }

  lemma CommandConserves(v: View, maxRetries: int, command: Command)
    ensures Accounted(ApplyCommand(v, maxRetries, command)) == Accounted(v) + if Creates(v, command) then 1 else 0
  {
    if command.Some? && command.value.taskId in v.live {
      OneLess(v.live, command.value.taskId);
    }
  }

  /** No task is lost or duplicated: every task ever created is live, dead-lettered or acked. */
  lemma {:induction false} Conservation(maxRetries: int, log: Log)
    ensures Accounted(Fold(maxRetries, log)) == Created(maxRetries, log)
  {
    if log != [] {
      var k := |log| - 1;
      Conservation(maxRetries, log[..k]);
      CommandConserves(Fold(maxRetries, log[..k]), maxRetries, log[k].command);
    }
  }

  // ---------------------------------------------------------------- the heap over a run

  /** The step creates a task whose id is not among the entries of the heap. */
  ghost predicate NoClash(m: Machine, e: Event) {
    e.Committed? && Creates(ViewOf(m), e.entry.command) ==> e.entry.command.value.task.value.id !in m.inHeap
  }

  lemma StepHeap(m: Machine, e: Event, m': Machine)
    requires HeapOk(m) && Step(m, e, m')
    ensures HeapOk(m') <==> NoClash(m, e)
  {
    hide EntriesOk, LinksOk, TasksOk;
    match e {
      case Committed(entry) =>
        if entry.command.Some? {
          var op := entry.command.value;
          assert Creates(ViewOf(m), entry.command) <==> op.kind == OP_ENQUEUE && Accepts(m, op.task);
          if op.kind == OP_ENQUEUE && Accepts(m, op.task) {
            EnqueueHeapExactly(m, op.task);
          } else {
            ApplyHeapOk(m, op);
          }
        }
      case Dequeued(deadline, task) =>
        DequeueDelivers(m, deadline, m', task);
      case LostLeadership =>
        RequeueHeapOk(m);
      case Reloaded(data) =>
        RestoreHeapOk(m, m, data);
    }
  }

  lemma {:induction false} HeapOkUpTo(maxRetries: int, ms: seq<Machine>, es: seq<Event>, n: nat)
    requires IsRun(maxRetries, ms, es) && n <= |es|
    requires forall i :: 0 <= i < n ==> NoClash(ms[i], es[i])
    ensures HeapOk(ms[n])
  {
    hide NoClash, HeapOk, Step;
    if n == 0 {
      EmptyHeapOk(ms[0]);
    } else {
      HeapOkUpTo(maxRetries, ms, es, n - 1);
      assert StepAt(ms, es, n - 1);
      StepHeap(ms[n - 1], es[n - 1], ms[n]);
    }
  }

  /** The heap is complete in every state of a run exactly when no entry of the run creates a
      task whose id the heap still holds. */
  lemma HeapCompleteExactly(maxRetries: int, ms: seq<Machine>, es: seq<Event>)
    requires IsRun(maxRetries, ms, es)
    ensures (forall i :: 0 <= i < |ms| ==> HeapOk(ms[i])) <==> (forall i :: 0 <= i < |es| ==> NoClash(ms[i], es[i]))
  {
    hide NoClash, HeapOk, Step;
    if forall i :: 0 <= i < |es| ==> NoClash(ms[i], es[i]) {
      forall i | 0 <= i < |ms| ensures HeapOk(ms[i]) {
        HeapOkUpTo(maxRetries, ms, es, i);
      }
    }
    if forall i :: 0 <= i < |ms| ==> HeapOk(ms[i]) {
      forall i | 0 <= i < |es| ensures NoClash(ms[i], es[i]) {
        assert StepAt(ms, es, i);
        assert HeapOk(ms[i]) && HeapOk(ms[i + 1]);
        StepHeap(ms[i], es[i], ms[i + 1]);
      }
    }
  }

  // ---------------------------------------------------------------- ids that are never reused

  predicate Enqueues(command: Command) {
    command.Some? && command.value.kind == OP_ENQUEUE && command.value.task.Some?
  }

  /** The ids that `log` asks to enqueue. */
  function EnqueuedIds(log: Log): set<string> {
    set i | 0 <= i < |log| && Enqueues(log[i].command) :: log[i].command.value.task.value.id
  }

  /** Entry `i` does not create a task under an id that an earlier entry enqueued: such an id is
      still live, so the entry is a client's retry, or it does not come back at all. */
  ghost predicate FreshAt(maxRetries: int, log: Log, i: nat)
    requires i < |log|
  {
    Creates(Fold(maxRetries, log[..i]), log[i].command) ==>
      log[i].command.value.task.value.id !in EnqueuedIds(log[..i])
  }

  /** No id is used for a second task. */
  ghost predicate NeverReused(maxRetries: int, log: Log) {
    forall i :: 0 <= i < |log| ==> FreshAt(maxRetries, log, i)
  }

  ghost predicate Within(m: Machine, ids: set<string>) {
    m.inHeap <= ids && m.tasks.Keys <= ids
  }

  lemma {:induction false} DequeueWithin(m: Machine, deadline: Time, m': Machine, r: Option<Task>, ids: set<string>)
    requires DequeueStep(m, deadline, m', r) && Within(m, ids)
    ensures Within(m', ids)
    decreases |m.heap|
  {
    if m.heap != multiset{} {
      var x :| DequeuePop(m, deadline, m', r, x);
      if !Deliverable(m, x) {
        DequeueWithin(Popped(m, x), deadline, m', r, ids);
      }
    }
  }

  lemma StepWithin(m: Machine, e: Event, m': Machine, ids: set<string>)
    requires Keyed(m) && Step(m, e, m') && Within(m, ids)
    ensures Within(m', if e.Committed? && Enqueues(e.entry.command)
                       then ids + {e.entry.command.value.task.value.id} else ids)
  {
    hide DequeueStep, Restore, IsSnapshot, Requeue, HeapOk, Apply;
    match e {
      case Committed(entry) =>
        if entry.command.Some? {
          ApplyWithin(m, entry.command.value, ids);
        }
      case Dequeued(deadline, task) =>
        DequeueWithin(m, deadline, m', task, ids);
      case LostLeadership =>
        RequeueWithin(m, ids);
      case Reloaded(data) =>
        RestoreHeapOk(m, m, data);
    }
  }

  lemma RequeueWithin(m: Machine, ids: set<string>)
    requires Keyed(m) && Within(m, ids)
    ensures Within(Requeue(m), ids)
  {
  }

  lemma ApplyWithin(m: Machine, op: QueueOp, ids: set<string>)
    requires Keyed(m) && Within(m, ids)
    ensures Within(Apply(m, op), if Enqueues(Some(op)) then ids + {op.task.value.id} else ids)
  {
    assert op.kind == OP_NACK ==> Within(Apply(m, op), ids);
  }

  lemma EnqueuedWith(log: Log, e: Entry)
    ensures EnqueuedIds(log + [e]) ==
            if Enqueues(e.command) then EnqueuedIds(log) + {e.command.value.task.value.id} else EnqueuedIds(log)
  {
    var log' := log + [e];
    assert forall i :: 0 <= i < |log| ==> log'[i] == log[i];
    assert log'[|log|] == e;
  }

  lemma {:induction false} RunWithin(maxRetries: int, ms: seq<Machine>, es: seq<Event>)
    requires IsRun(maxRetries, ms, es)
    ensures Within(ms[|es|], EnqueuedIds(CommittedIn(es)))
  {
    if es != [] {
      hide Step, Within, Keyed, EnqueuedIds;
      var k := |es| - 1;
      PrefixIsRun(maxRetries, ms, es, k);
      RunWithin(maxRetries, ms[..k + 1], es[..k]);
      OverlayIndependence(maxRetries, ms[..k + 1], es[..k]);
      assert StepAt(ms, es, k);
      StepWithin(ms[k], es[k], ms[k + 1], EnqueuedIds(CommittedIn(es[..k])));
      if es[k].Committed? {
        EnqueuedWith(CommittedIn(es[..k]), es[k].entry);
      }
    }
  }

  lemma {:induction false} CommittedPrefix(es: seq<Event>, k: nat)
    requires k <= |es|
    ensures CommittedIn(es[..k]) <= CommittedIn(es)
    decreases |es| - k
  {
    if k == |es| {
      assert es[..k] == es;
    } else {
      CommittedPrefix(es, k + 1);
      assert es[..k + 1][..k] == es[..k];
    }
  }

  lemma FreshNoClash(maxRetries: int, ms: seq<Machine>, es: seq<Event>, i: nat)
    requires IsRun(maxRetries, ms, es) && NeverReused(maxRetries, CommittedIn(es)) && i < |es|
    ensures NoClash(ms[i], es[i])
  {
    hide Step, Fold, ViewOf, EnqueuedIds;
    PrefixIsRun(maxRetries, ms, es, i);
    OverlayIndependence(maxRetries, ms[..i + 1], es[..i]);
    RunWithin(maxRetries, ms[..i + 1], es[..i]);
    if es[i].Committed? {
      var log, j := CommittedIn(es), |CommittedIn(es[..i])|;
      CommittedPrefix(es, i + 1);
      assert es[..i + 1][..i] == es[..i];
      assert log[..j] == CommittedIn(es[..i]) && log[j] == es[i].entry;
      assert FreshAt(maxRetries, log, j);
    }
  }

  /** When no id is used for a second task, every delivery of every run hands out the pending
      task that is next in line, and hands out nothing only when nothing is pending. */
  lemma EveryDeliveryIsNext(maxRetries: int, ms: seq<Machine>, es: seq<Event>, i: nat)
    requires IsRun(maxRetries, ms, es) && NeverReused(maxRetries, CommittedIn(es))
    requires i < |es| && es[i].Dequeued?
    ensures HeapOk(ms[i]) && Delivers(ms[i], es[i].deadline, ms[i + 1], es[i].task)
    ensures forall id :: id in ms[i].tasks && ms[i].tasks[id].task.status == Pending ==>
              var r, u := es[i].task, ms[i].tasks[id].task;
              && r.Some? && r.value.priority <= u.priority
              && (r.value.priority == u.priority ==> r.value.createdAt <= u.createdAt)
  {
    hide HeapOk, NoClash, NeverReused, Delivers, DequeueStep;
    forall j | 0 <= j < |es| ensures NoClash(ms[j], es[j]) {
      FreshNoClash(maxRetries, ms, es, j);
    }
    HeapCompleteExactly(maxRetries, ms, es);
    assert StepAt(ms, es, i);
    DequeueDelivers(ms[i], es[i].deadline, ms[i + 1], es[i].task);
    forall id | id in ms[i].tasks && ms[i].tasks[id].task.status == Pending
      ensures var r, u := es[i].task, ms[i].tasks[id].task;
              && r.Some? && r.value.priority <= u.priority
              && (r.value.priority == u.priority ==> r.value.createdAt <= u.createdAt)
    {
      DeliversByPriority(ms[i], es[i].deadline, ms[i + 1], es[i].task, id);
    }
  }

  // ---------------------------------------------------------------- ids that are reused

  /** Pointers in use are older than the next one. */
  ghost predicate RefsOk(m: Machine) {
    && (forall x :: x in m.heap ==> x.ref < m.nextRef)
    && (forall id :: id in m.tasks ==> m.tasks[id].ref < m.nextRef)
  }

  lemma {:induction false} DequeueRefs(m: Machine, deadline: Time, m': Machine, r: Option<Task>)
    requires RefsOk(m) && DequeueStep(m, deadline, m', r)
    ensures RefsOk(m')
    decreases |m.heap|
  {
    if m.heap != multiset{} {
      var x :| DequeuePop(m, deadline, m', r, x);
      if !Deliverable(m, x) {
        DequeueRefs(Popped(m, x), deadline, m', r);
      }
    }
  }

  lemma RequeueRefs(m: Machine)
    requires RefsOk(m)
    ensures RefsOk(Requeue(m))
  {
  }

  lemma StepRefs(m: Machine, e: Event, m': Machine)
    requires RefsOk(m) && Step(m, e, m')
    ensures RefsOk(m')
  {
    hide DequeueStep, Requeue, Restore, IsSnapshot;
    match e {
      case Committed(_) =>
      case Dequeued(deadline, task) => DequeueRefs(m, deadline, m', task);
      case LostLeadership => RequeueRefs(m);
      case Reloaded(data) => RestoreHeapOk(m, m, data);
    }
  }

  lemma {:induction false} RunRefs(maxRetries: int, ms: seq<Machine>, es: seq<Event>, i: nat)
    requires IsRun(maxRetries, ms, es) && i <= |es|
    ensures RefsOk(ms[i])
  {
    if i > 0 {
      hide RefsOk, Step;
      RunRefs(maxRetries, ms, es, i - 1);
      assert StepAt(ms, es, i - 1);
      StepRefs(ms[i - 1], es[i - 1], ms[i]);
    }
  }

  /** Task `id` is pending, but the heap has no entry for it. */
  ghost predicate Stuck(m: Machine, id: string) {
    IsPending(m, id) && forall x :: x in m.heap && x.id == id ==> x.ref != m.tasks[id].ref
  }

  /** The event is no ack or nack of `id` and no reload of the queue. */
  predicate Leaves(e: Event, id: string) {
    match e
    case Committed(entry) =>
      entry.command.Some? && entry.command.value.kind in {OP_ACK, OP_NACK} ==> entry.command.value.taskId != id
    case Reloaded(_) => false
    case _ => true
  }

  lemma {:induction false} DequeueStuck(m: Machine, deadline: Time, m': Machine, r: Option<Task>, id: string)
    requires Keyed(m) && Stuck(m, id) && DequeueStep(m, deadline, m', r)
    ensures Stuck(m', id) && (r.Some? ==> r.value.id != id)
    decreases |m.heap|
  {
    if m.heap != multiset{} {
      var x :| DequeuePop(m, deadline, m', r, x);
      if !Deliverable(m, x) {
        DequeueStuck(Popped(m, x), deadline, m', r, id);
      }
    }
  }

  lemma RequeueStuck(m: Machine, id: string)
    requires Keyed(m) && Stuck(m, id)
    ensures Stuck(Requeue(m), id)
  {
  }

  lemma ApplyStuck(m: Machine, op: QueueOp, id: string)
    requires Keyed(m) && Stuck(m, id) && (op.kind in {OP_ACK, OP_NACK} ==> op.taskId != id)
    ensures Stuck(Apply(m, op), id)
  {
  }

  lemma StepStuck(m: Machine, e: Event, m': Machine, id: string)
    requires Keyed(m) && Stuck(m, id) && Step(m, e, m') && Leaves(e, id)
    ensures Stuck(m', id) && (e.Dequeued? && e.task.Some? ==> e.task.value.id != id)
  {
    hide DequeueStep, Requeue, Apply, Keyed, Stuck;
    match e {
      case Committed(entry) =>
        if entry.command.Some? {
          ApplyStuck(m, entry.command.value, id);
        }
      case Dequeued(deadline, task) => DequeueStuck(m, deadline, m', task, id);
      case LostLeadership => RequeueStuck(m, id);
    }
  }

  /** A task created under an id that the heap still holds gets no entry of its own. */
  lemma ClashSticks(m: Machine, e: Event, m': Machine)
    requires RefsOk(m) && Step(m, e, m') && !NoClash(m, e)
    ensures Stuck(m', e.entry.command.value.task.value.id)
  {
  }

  /** A task created under an id that the heap still holds is pending and never handed out, for as
      long as the run has no ack or nack of the id and no reload of the queue: deliveries, lost
      leaderships and other commands do not help. */
  lemma {:induction false} ReusedIdWaits(maxRetries: int, ms: seq<Machine>, es: seq<Event>, i: nat, j: nat)
    requires IsRun(maxRetries, ms, es) && i < j <= |es| && !NoClash(ms[i], es[i])
    requires forall k :: i < k < j ==> Leaves(es[k], es[i].entry.command.value.task.value.id)
    ensures var id := es[i].entry.command.value.task.value.id;
            && Stuck(ms[j], id)
            && forall k :: i < k < j && es[k].Dequeued? && es[k].task.Some? ==> es[k].task.value.id != id
    decreases j
  {
    hide Step, Stuck, RefsOk, Keyed, ViewOf;
    var id := es[i].entry.command.value.task.value.id;
    var k := j - 1;
    assert StepAt(ms, es, k);
    if k == i {
      RunRefs(maxRetries, ms, es, i);
      ClashSticks(ms[i], es[i], ms[j]);
    } else {
      ReusedIdWaits(maxRetries, ms, es, i, k);
      PrefixIsRun(maxRetries, ms, es, k);
      OverlayIndependence(maxRetries, ms[..k + 1], es[..k]);
      StepStuck(ms[k], es[k], ms[j], id);
    }
  }

  /** A run in which that happens: after "a" is acked while its entry is still in the heap, a
      second "a" is pending, and a delivery finds nothing. */
  lemma ReusedIdIsStuck(maxRetries: int, payload: seq<Byte>, deadline: Time)
    ensures exists ms, es ::
              && IsRun(maxRetries, ms, es) && |es| > 0
              && es[|es| - 1] == Dequeued(deadline, None)
              && IsPending(ms[|es| - 1], "a")
  {
    var t := Task("a", payload, 0, Pending, 0, 0, ZERO_TIME);
    var enqueue, ack := QueueOp(OP_ENQUEUE, Some(t), ""), QueueOp(OP_ACK, None, "a");
    var m0 := NewMachine(maxRetries);
    var m1 := Apply(m0, enqueue);
    var m2 := Apply(m1, ack);
    var m3 := Apply(m2, enqueue);
    var x := ItemOf(Cell(0, t));
    assert m3.heap == multiset{x} && m3.tasks["a"].ref == 1;
    var m4 := Popped(m3, x);
    assert m4.heap == multiset{};
    assert DequeueStep(m4, deadline, m4, None);
    assert DequeuePop(m3, deadline, m4, None, x);
    var ms := [m0, m1, m2, m3, m4];
    var es := [Committed(Entry(1, 1, Some(enqueue))), Committed(Entry(2, 1, Some(ack))),
               Committed(Entry(3, 1, Some(enqueue))), Dequeued(deadline, None)];
    assert StepAt(ms, es, 0) && StepAt(ms, es, 1) && StepAt(ms, es, 2) && StepAt(ms, es, 3);
    assert IsRun(maxRetries, ms, es);
    assert IsPending(ms[3], "a");
  }
}
