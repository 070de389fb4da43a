/** The one log of a run is a definite object: logs that explain the run agree up to every commit
    index that any node reaches in it. */
module RaftOneLog {
  import opened Tasks
  import opened QueueView
  import opened QueueMachine
  import opened RaftLog
  import opened RaftStep
  import opened RaftInvariant
  import opened RaftReplicationProof
  import opened RaftCluster
  import opened RaftDelivery
  import opened RaftSafety
  import opened RaftSimulation
  import opened RaftTheorems

  /** Node `id` knows entry `x` to be committed and has not compacted it away. */
  ghost predicate Shows(c: Cluster, id: Id, x: nat) {
    && id in c.procs
    && var n := c.procs[id].node;
       WfLog(n.log) && First(n.log) < x <= n.commit && x <= Last(n.log)
  }

  /** Some node showed entry `x` by state `i`. */
  ghost predicate Shown(run: seq<Cluster>, i: nat, x: nat)
    requires i < |run|
  {
    exists j, id :: 0 <= j <= i && Shows(run[j], id, x)
  }

  ghost predicate ShownUpTo(run: seq<Cluster>, i: nat, k: nat)
    requires i < |run|
  {
    forall x: nat :: 0 < x <= k ==> Shown(run, i, x)
  }

  /** Whatever a node knows to be committed, and whatever a snapshot on its way covers, was shown. */
  ghost predicate AllShown(run: seq<Cluster>, i: nat)
    requires i < |run|
  {
    && (forall id :: id in run[i].procs ==> ShownUpTo(run, i, run[i].procs[id].node.commit))
    && (forall m :: m in run[i].net && m.InstallRequest? ==> ShownUpTo(run, i, m.lastIndex))
  }

  // ---------------------------------------------------------------- where a boundary comes from

  /** The boundary `first` was committed on a node, or came with a snapshot. */
  ghost predicate Known(c: Cluster, first: nat) {
    || (exists b :: b in c.procs && first <= c.procs[b].node.commit)
    || (exists m :: m in c.net && m.InstallRequest? && first <= m.lastIndex)
  }

  ghost predicate KnownNode(c: Cluster, n: Node) {
    |n.log| > 0 && Known(c, First(n.log))
  }

  lemma ReceivedBoundary(n: Node, m: Msg, n': Node, out: set<Msg>)
    requires Received(n, m, n', out)
    ensures |n'.log| > 0 && (First(n'.log) == First(n.log) || (m.InstallRequest? && First(n'.log) == m.lastIndex))
    ensures forall r :: r in out ==> !r.InstallRequest?
  {
    hide HandleAppend, CommitScan, LastOfTerm;
    if m.AppendRequest? {
      AppendKeepsSentinel(n, m);
      AppendFrame(n, n, m);
    }
  }

  /** No step takes a boundary from anywhere else. */
  lemma RaftBoundary(c: Cluster, c': Cluster, g: Ghost, s: Step, id: Id)
    requires ClusterInv(c, g) && RaftStepOf(c, c', s)
    ensures id in c'.procs ==> KnownNode(c, c'.procs[id].node)
    ensures forall m :: m in c'.net && m.InstallRequest? ==> Known(c, m.lastIndex)
  {
    hide ClusterInv, Received, Replicate, SnapshotFor, StartElection, Propose, VoteRequestTo, Restart, Known;
    OldBoundary(c, g, id);
    OldMessages(c);
    match s {
      case Receive(m) =>
        var n', out :| ReceiveStep(c, c', m, n', out);
        OldBoundary(c, g, m.to);
        ReceivedBoundary(c.procs[m.to].node, m, n', out);
      case ElectionTimeout(x) => ElectionBoundary(c.procs[x].node);
      case ClientCall(x, op) => ProposeBoundary(c.procs[x].node, Some(op));
      case Crash(x) => RestartBoundary(c.procs[x].node);
      case SendTo(x, peer) => ReplicateKind(c.procs[x].node, peer);
      case SendInstall(x, peer) =>
        OldBoundary(c, g, x);
        SnapshotKind(c.procs[x].node, peer);
    }
  }

  lemma OldBoundary(c: Cluster, g: Ghost, id: Id)
    requires ClusterInv(c, g)
    ensures id in c.procs ==> KnownNode(c, c.procs[id].node)
  {
    hide NodeInv, MsgInv, GhostOk, ProcInv;
    if id in c.procs {
      assert ProcInv(g, id, c.procs[id]);
      ProcFacts(g, id, c.procs[id]);
      NodeBasics(g, id, c.procs[id].node);
    }
  }

  lemma OldMessages(c: Cluster)
    ensures forall m :: m in c.net && m.InstallRequest? ==> Known(c, m.lastIndex)
  {
  }

  lemma ElectionBoundary(n: Node)
    requires |n.log| > 0
    ensures StartElection(n).log == n.log
    ensures forall q :: !VoteRequestTo(StartElection(n), q).InstallRequest?
  {
  }

  lemma ProposeBoundary(n: Node, command: Command)
    requires |n.log| > 0
    ensures |Propose(n, command).log| > 0 && First(Propose(n, command).log) == First(n.log)
  {
  }

  lemma RestartBoundary(n: Node)
    requires |n.log| > 0
    ensures Restart(n).log == n.log
  {
  }

  lemma ReplicateKind(n: Node, peer: Id)
    requires WfLog(n.log) && peer in n.next && n.next[peer] <= Last(n.log) + 1 && Replicate(n, peer).Some?
    ensures !Replicate(n, peer).value.InstallRequest?
  {
  }

  lemma SnapshotKind(n: Node, peer: Id)
    requires |n.log| > 0 && SnapshotFor(n, peer).Some?
    ensures SnapshotFor(n, peer).value.InstallRequest? && SnapshotFor(n, peer).value.lastIndex == First(n.log)
  {
  }

  lemma LocalBoundary(c: Cluster, c': Cluster, g: Ghost, s: Step, id: Id)
    requires ClusterInv(c, g) && (ApplierStepOf(c, c', s) || ServerStepOf(c, c', s))
    ensures id in c'.procs ==> KnownNode(c, c'.procs[id].node)
    ensures forall m :: m in c'.net && m.InstallRequest? ==> Known(c, m.lastIndex)
  {
    hide ClusterInv, Known, EntryConsumed, DequeueStep, Requeue, Restore, Registered, NextBatch, TakeSnapshot;
    OldBoundary(c, g, id);
    OldMessages(c);
    if s == OfferSnapshot(id) {
      OfferBoundary(c, g, id);
    }
  }

  lemma OfferBoundary(c: Cluster, g: Ghost, id: Id)
    requires ClusterInv(c, g) && id in c.procs && c.procs[id].server.call.Some?
    requires WfLog(c.procs[id].node.log) && c.procs[id].node.applied <= Last(c.procs[id].node.log)
    ensures var call := c.procs[id].server.call.value;
            KnownNode(c, TakeSnapshot(c.procs[id].node, call.index, call.data))
  {
    hide NodeInv, MsgInv, GhostOk, ProcInv;
    assert ProcInv(g, id, c.procs[id]);
    ProcFacts(g, id, c.procs[id]);
    NodeBasics(g, id, c.procs[id].node);
  }

  // ---------------------------------------------------------------- the whole run

  lemma ShownLater(run: seq<Cluster>, i: nat, k: nat)
    requires i + 1 < |run| && ShownUpTo(run, i, k)
    ensures ShownUpTo(run, i + 1, k)
  {
    hide Shows;
    var j := i + 1;
    forall x: nat | 0 < x <= k ensures Shown(run, j, x) {
      assert Shown(run, i, x);
    }
  }

  lemma KnownIsShown(run: seq<Cluster>, i: nat, k: nat)
    requires i + 1 < |run| && AllShown(run, i) && Known(run[i], k)
    ensures ShownUpTo(run, i + 1, k)
  {
    hide Shown;
    if b :| b in run[i].procs && k <= run[i].procs[b].node.commit {
      assert ShownUpTo(run, i, run[i].procs[b].node.commit);
    } else {
      var m :| m in run[i].net && m.InstallRequest? && k <= m.lastIndex;
      assert ShownUpTo(run, i, m.lastIndex);
    }
    ShownLater(run, i, k);
  }

  /** Above its boundary a node shows what it knows. */
  lemma NodeShows(run: seq<Cluster>, gs: seq<Ghost>, i: nat, id: Id)
    requires Explains(run, gs) && i < |run| && id in run[i].procs && |run[i].procs[id].node.log| > 0
    requires ShownUpTo(run, i, First(run[i].procs[id].node.log))
    ensures ShownUpTo(run, i, run[i].procs[id].node.commit)
  {
    hide ClusterInv, GhostGrows, NodeInv, ProcInv, GhostOk;
    NodeAt(run, gs, i, id);
    NodeBasics(gs[i], id, run[i].procs[id].node);
    forall x: nat | 0 < x <= run[i].procs[id].node.commit ensures Shown(run, i, x) {
      assert x > First(run[i].procs[id].node.log) ==> Shows(run[i], id, x);
    }
  }

  lemma {:induction false} EverythingShown(run: seq<Cluster>, gs: seq<Ghost>, i: nat)
    requires IsRun(run) && Explains(run, gs) && i < |run|
    ensures AllShown(run, i)
  {
    hide ClusterInv, GhostGrows, RaftStepOf, ApplierStepOf, ServerStepOf, Known, ShownUpTo;
    if i == 0 {
      NothingToShow(run);
    } else {
      EverythingShown(run, gs, i - 1);
      StateExplained(run, gs, i - 1);
      assert StepAt(run, i - 1);
      var c, c' := run[i - 1], run[i];
      var s :| NextStep(c, c', s);
      forall id | id in c'.procs ensures ShownUpTo(run, i, c'.procs[id].node.commit) {
        StepBoundary(c, c', gs[i - 1], s, id);
        KnownIsShown(run, i - 1, First(c'.procs[id].node.log));
        NodeShows(run, gs, i, id);
      }
      forall m | m in c'.net && m.InstallRequest? ensures ShownUpTo(run, i, m.lastIndex) {
        StepBoundary(c, c', gs[i - 1], s, "");
        KnownIsShown(run, i - 1, m.lastIndex);
      }
    }
  }

  lemma StepBoundary(c: Cluster, c': Cluster, g: Ghost, s: Step, id: Id)
    requires ClusterInv(c, g) && NextStep(c, c', s)
    ensures id in c'.procs ==> KnownNode(c, c'.procs[id].node)
    ensures forall m :: m in c'.net && m.InstallRequest? ==> Known(c, m.lastIndex)
  {
    hide ClusterInv, RaftStepOf, ApplierStepOf, ServerStepOf, Known;
    if RaftStepOf(c, c', s) {
      RaftBoundary(c, c', g, s, id);
    } else {
      LocalBoundary(c, c', g, s, id);
    }
  }

  lemma NothingToShow(run: seq<Cluster>)
    requires |run| > 0 && Init(run[0])
    ensures AllShown(run, 0)
  {
  }

  lemma ShownIsLogged(run: seq<Cluster>, d: Log, d': Log, i: nat, x: nat)
    requires OneLog(run, d) && OneLog(run, d') && i < |run| && 0 < x && Shown(run, i, x)
    ensures x <= |d| && x <= |d'| && d[x - 1] == d'[x - 1]
  {
    hide Shows, ServesAll;
    var j, id :| 0 <= j <= i && Shows(run[j], id, x);
    assert ServesAll(run[j], d) && ServesAll(run[j], d');
    ShowsLogged(run[j], d, id, x);
    ShowsLogged(run[j], d', id, x);
  }

  lemma ShowsLogged(c: Cluster, d: Log, id: Id, x: nat)
    requires ServesAll(c, d) && Shows(c, id, x)
    ensures 0 < x <= |d| && EntryAt(c.procs[id].node.log, x) == d[x - 1]
  {
    hide Fold, ViewOf, Logged;
    assert Serves(c.procs[id], c.retries, d);
    var e := EntryAt(c.procs[id].node.log, x);
  }

  /** Any two logs that explain the run are the same up to every commit index reached in it, and so
      up to every position that a server reaches. */
  lemma OneLogIsDefinite(run: seq<Cluster>, d: Log, d': Log, i: nat, id: Id)
    requires IsRun(run) && OneLog(run, d) && OneLog(run, d') && i < |run| && id in run[i].procs
    ensures var p := run[i].procs[id];
            && p.server.position <= p.node.commit <= |d| && p.node.commit <= |d'|
            && d[..p.node.commit] == d'[..p.node.commit]
  {
    hide IsRun, Explains, OneLog, Shown, NodeInv, FlowOk, Proposed, GhostOk;
    var gs := RunHistory(run);
    EverythingShown(run, gs, i);
    NodeAt(run, gs, i, id);
    var k := run[i].procs[id].node.commit;
    assert ShownUpTo(run, i, k);
    if k > 0 {
      ShownIsLogged(run, d, d', i, k);
    }
    forall y | 0 <= y < k ensures d[y] == d'[y] {
      var x: nat := y + 1;
      assert Shown(run, i, x);
      ShownIsLogged(run, d, d', i, x);
    }
  }
}
