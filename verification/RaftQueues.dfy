/** The queue of every server in a run of the cluster: when the entries applied so far use no id for
    a second task, each delivery hands out the pending task that is next in line, after entries,
    installed snapshots, lost leaderships and restarts alike. */
module RaftQueues {
  import opened Tasks
  import opened QueueView
  import opened QueueMachine
  import opened QueueHeap
  import R = QueueRuns
  import opened RaftLog
  import opened RaftHistory
  import opened RaftStep
  import opened RaftInvariant
  import opened RaftCluster
  import opened RaftDelivery
  import opened RaftSafety
  import opened RaftTheorems
  import opened RaftOneLog

  /** The heap is complete, and all ids in the queue were enqueued by the entries applied. */
  ghost predicate QueueGood(m: Machine, at: nat, decided: Log) {
    at <= |decided| && HeapOk(m) && R.Within(m, R.EnqueuedIds(decided[..at]))
  }

  /** The entries that the server has applied, itself or through a snapshot. */
  function Applied(s: Server, decided: Log): Log {
    if s.position <= |decided| then decided[..s.position] else decided
  }

  /** As long as the entries applied reuse no id, the queue is good. */
  ghost predicate ServerGood(s: Server, retries: int, decided: Log) {
    R.NeverReused(retries, Applied(s, decided)) ==> QueueGood(s.machine, s.position, decided)
  }

  /** A live task was enqueued. */
  lemma {:induction false} LiveIsEnqueued(retries: int, log: Log)
    ensures Fold(retries, log).live.Keys <= R.EnqueuedIds(log)
  {
    if log != [] {
      hide R.EnqueuedIds;
      var k := |log| - 1;
      LiveIsEnqueued(retries, log[..k]);
      R.EnqueuedWith(log[..k], log[k]);
      assert log[..k] + [log[k]] == log;
    }
  }

  lemma NewQueueGood(retries: int, decided: Log)
    ensures QueueGood(NewMachine(retries), 0, decided)
  {
    EmptyHeapOk(NewMachine(retries));
  }

  lemma SnapshotQueueGood(m: Machine, retries: int, data: SnapshotState, decided: Log, at: nat)
    requires SnapshotOf(retries, data, decided, at)
    ensures QueueGood(Restore(m, data), at, decided)
  {
    hide HeapOk, Restore, Fold, R.EnqueuedIds;
    RestoreNeat(m, data);
    LiveIsEnqueued(retries, decided[..at]);
    assert IdsOf(data.tasks) <= Fold(retries, decided[..at]).live.Keys;
  }

  /** Fewer entries reuse no id either, and the last one uses a new one. */
  lemma ReusedLater(retries: int, decided: Log, at: nat)
    requires at < |decided| && R.NeverReused(retries, decided[..at + 1])
    ensures R.NeverReused(retries, decided[..at]) && R.FreshAt(retries, decided, at)
  {
    var longer, log := decided[..at + 1], decided[..at];
    hide Fold, R.EnqueuedIds;
    assert R.FreshAt(retries, longer, at) && longer[..at] == log;
    forall i | 0 <= i < |log| ensures R.FreshAt(retries, log, i) {
      assert R.FreshAt(retries, longer, i) && longer[..i] == log[..i];
    }
  }

  lemma EntryQueueGood(m: Machine, at: nat, retries: int, decided: Log, m': Machine)
    requires QueueGood(m, at, decided) && at < |decided| && R.FreshAt(retries, decided, at)
    requires Keyed(m) && ViewOf(m) == Fold(retries, decided[..at]) && R.Step(m, R.Committed(decided[at]), m')
    ensures QueueGood(m', at + 1, decided)
  {
    hide HeapOk, Fold, ViewOf, Keyed, R.EnqueuedIds, R.Step;
    var e := R.Committed(decided[at]);
    R.StepHeap(m, e, m');
    R.StepWithin(m, e, m', R.EnqueuedIds(decided[..at]));
    R.EnqueuedWith(decided[..at], decided[at]);
    assert decided[..at] + [decided[at]] == decided[..at + 1];
  }

  /** What the head of the channel says, in terms of the one log. */
  lemma HeadOfChannel(g: Ghost, id: Id, p: Proc, decided: Log)
    requires ProcInv(g, id, p) && p.node.commit <= |g.h.log[id]| && g.h.log[id][..p.node.commit] <= decided
    requires p.channel != []
    ensures p.channel[0].CommandMsg? ==>
              var e := p.channel[0].entry;
              e.index == p.server.position + 1 <= |decided| && decided[p.server.position] == e
    ensures p.channel[0].SnapshotMsg? ==>
              var i := p.channel[0].install;
              SnapshotOf(g.retries, i.data, decided, i.index)
  {
    hide NodeInv, FlowOk, QueueOk, Stands, Neat, Fold, Proposed;
    var l := g.h.log[id];
    FirstMessage(g.retries, l, p);
    if p.channel[0].CommandMsg? {
      assert l[..p.node.commit][p.server.position] == decided[p.server.position];
    } else {
      var i := p.channel[0].install.index;
      assert l[..i] == l[..p.node.commit][..i] == decided[..i];
    }
  }

  /** The server's own steps keep its queue good. */
  lemma ServerQueueGood(c: Cluster, c': Cluster, g: Ghost, s: Step, id: Id, decided: Log)
    requires id in c.procs && ProcInv(g, id, c.procs[id]) && ServerStepOf(c, c', s) && g.retries == c.retries
    requires c.procs[id].node.commit <= |g.h.log[id]| && g.h.log[id][..c.procs[id].node.commit] <= decided
    requires Serves(c.procs[id], c.retries, decided) && Keyed(c.procs[id].server.machine)
    requires ServerGood(c.procs[id].server, c.retries, decided)
    ensures id in c'.procs && ServerGood(c'.procs[id].server, c.retries, decided)
  {
    hide ProcInv, HeapOk, Fold, ViewOf, Keyed, R.EnqueuedIds, R.NeverReused, Restore, Requeue, Apply, DequeueStep,
         IsSnapshot, TakeSnapshot, SnapshotOf, R.Within, EntryConsumed;
    var server := c.procs[id].server;
    match s {
      case ConsumeSnapshot(x) =>
        if x == id {
          HeadOfChannel(g, id, c.procs[id], decided);
          var i := c.procs[id].channel[0].install;
          SnapshotQueueGood(server.machine, c.retries, i.data, decided, i.index);
        }
      case ConsumeEntry(x, done, data) =>
        if x == id {
          HeadOfChannel(g, id, c.procs[id], decided);
          var s' :| ConsumeStep(c, c', id, done, data, s');
          var e := c.procs[id].channel[0].entry;
          ConsumedStep(server, e, done, data, c.threshold, s');
          if R.NeverReused(c.retries, Applied(s', decided)) {
            ReusedLater(c.retries, decided, server.position);
            EntryQueueGood(server.machine, server.position, c.retries, decided, s'.machine);
          }
        }
      case DequeueTask(x, deadline, machine, task) =>
        if x == id && R.NeverReused(c.retries, Applied(server, decided)) {
          DequeueDelivers(server.machine, deadline, machine, task);
          R.DequeueWithin(server.machine, deadline, machine, task, R.EnqueuedIds(decided[..server.position]));
        }
      case LoseLeadership(x) =>
        if x == id && R.NeverReused(c.retries, Applied(server, decided)) {
          RequeueHeapOk(server.machine);
          R.RequeueWithin(server.machine, R.EnqueuedIds(decided[..server.position]));
        }
      case Register(_, _) =>
      case OfferSnapshot(_) =>
    }
  }

  lemma ConsumedStep(s: Server, e: Entry, done: set<Proposal>, data: SnapshotState, threshold: nat, s': Server)
    requires EntryConsumed(s, e, done, data, threshold, s')
    ensures R.Step(s.machine, R.Committed(e), s'.machine) && s'.position == e.index
  {
    hide Apply, IsSnapshot;
  }

  /** The other steps leave the queue alone, or start it anew. */
  lemma OtherQueueGood(c: Cluster, c': Cluster, s: Step, id: Id, decided: Log)
    requires id in c.procs && ServerGood(c.procs[id].server, c.retries, decided)
    requires RaftStepOf(c, c', s) || ApplierStepOf(c, c', s)
    ensures id in c'.procs && ServerGood(c'.procs[id].server, c.retries, decided)
  {
    hide QueueGood, R.NeverReused, NewMachine, Received, Restart, StartElection, Propose, Replicate, SnapshotFor,
         NextBatch;
    NewQueueGood(c.retries, decided);
  }

  lemma MachineKeyed(g: Ghost, id: Id, p: Proc)
    requires ProcInv(g, id, p)
    ensures Keyed(p.server.machine)
  {
    hide NodeInv, FlowOk, Proposed, Fold, ViewOf, Keyed, SnapshotOf;
  }

  lemma StepQueueGood(run: seq<Cluster>, gs: seq<Ghost>, i: nat, id: Id, decided: Log)
    requires Explains(run, gs) && i + 1 < |run| && StepAt(run, i) && id in run[i].procs
    requires decided == gs[|run| - 1].decided && ServerGood(run[i].procs[id].server, run[i].retries, decided)
    ensures id in run[i + 1].procs && ServerGood(run[i + 1].procs[id].server, run[i].retries, decided)
  {
    hide ClusterInv, GhostGrows, ProcInv, NodeInv, GhostOk, ServerGood, Serves, Keyed, RaftStepOf, ApplierStepOf,
         ServerStepOf;
    var c, c' := run[i], run[i + 1];
    var s :| NextStep(c, c', s);
    CommittedIsDecided(run, gs, i, |run| - 1, id);
    NodeAt(run, gs, i, id);
    if ServerStepOf(c, c', s) {
      ProcServes(gs[i], id, c.procs[id], decided);
      MachineKeyed(gs[i], id, c.procs[id]);
      ServerQueueGood(c, c', gs[i], s, id, decided);
    } else {
      OtherQueueGood(c, c', s, id, decided);
    }
  }

  lemma {:induction false} AllQueuesGood(run: seq<Cluster>, gs: seq<Ghost>, i: nat, id: Id, decided: Log)
    requires IsRun(run) && Explains(run, gs) && i < |run| && id in run[0].procs
    requires decided == gs[|run| - 1].decided
    ensures id in run[i].procs && ServerGood(run[i].procs[id].server, run[i].retries, decided)
  {
    hide Explains, QueueGood, R.NeverReused, StepAt;
    if i == 0 {
      NewQueueGood(run[0].retries, decided);
    } else {
      AllQueuesGood(run, gs, i - 1, id, decided);
      SameRetries(run, i - 1, i);
      assert StepAt(run, i - 1);
      StepQueueGood(run, gs, i - 1, id, decided);
    }
  }

  lemma SameServers(run: seq<Cluster>, gs: seq<Ghost>, i: nat)
    requires Explains(run, gs) && i < |run|
    ensures run[i].procs.Keys == run[0].procs.Keys
  {
    hide GhostOk, ProcInv, MsgInv;
    assert ClusterInv(run[0], gs[0]) && ClusterInv(run[i], gs[i]);
    assert GhostGrows(gs[0], gs[i]);
    GrowsNodes(gs[0].h, gs[i].h);
  }

  /** Whenever the server is asked for a task, it hands out the pending one that is next in line,
      and none only when none is pending. */
  ghost predicate DeliversNext(s: Server) {
    forall deadline, machine, task ::
      DequeueStep(s.machine, deadline, machine, task) ==> Delivers(s.machine, deadline, machine, task)
  }

  /** Priority and age across failover: whatever log explains the run, if the entries that a server
      has applied by some state use no id for a second task, every delivery that the server can
      make in that state is of the task next in line, however the server came to its queue. */
  lemma EveryServerDeliversNext(run: seq<Cluster>, decided: Log, i: nat, id: Id)
    requires IsRun(run) && OneLog(run, decided) && i < |run| && id in run[i].procs
    requires R.NeverReused(run[i].retries, Applied(run[i].procs[id].server, decided))
    ensures DeliversNext(run[i].procs[id].server)
  {
    hide StepAt, Init, Explains, OneLog, R.NeverReused, Delivers, DequeueStep, HeapOk, R.Within;
    var gs := RunHistory(run);
    var known, s := gs[|run| - 1].decided, run[i].procs[id].server;
    HistoryIsOneLog(run, gs);
    OneLogIsDefinite(run, decided, known, i, id);
    assert Applied(s, decided) == decided[..run[i].procs[id].node.commit][..s.position] == Applied(s, known);
    SameServers(run, gs, i);
    AllQueuesGood(run, gs, i, id, known);
    forall deadline, machine, task | DequeueStep(s.machine, deadline, machine, task)
      ensures Delivers(s.machine, deadline, machine, task)
    {
      DequeueDelivers(s.machine, deadline, machine, task);
    }
  }

  lemma HistoryIsOneLog(run: seq<Cluster>, gs: seq<Ghost>)
    requires Explains(run, gs) && |run| > 0
    ensures |gs| == |run| && OneLog(run, gs[|run| - 1].decided)
  {
    hide ClusterInv, GhostGrows, ServesAll;
    forall i | 0 <= i < |run| ensures ServesAll(run[i], gs[|run| - 1].decided) {
      StateServes(run, gs, i);
    }
  }
}
