/** Compaction and backtracking in the reachable states of the cluster. */
module RaftRefinement {
  import opened Tasks
  import opened QueueMachine
  import opened RaftLog
  import opened RaftHistory
  import opened RaftStep
  import opened RaftCompaction
  import opened RaftInvariant
  import opened RaftHandlers
  import opened RaftReplicationProof
  import opened RaftCluster
  import opened RaftDelivery
  import opened RaftSafety
  import opened RaftBacktrack
  import opened RaftUncompacted
  import opened RaftSimulation
  import opened RaftTheorems

  // ---------------------------------------------------------------- which whole log it is

  /** A node's log has one completion with a committed beginning, and it is the recorded one. */
  lemma WholeIsRecorded(g: Ghost, g': Ghost, id: Id, n: Node, n': Node, full': Log, prefix: Log)
    requires NodeInv(g, id, n) && NodeInv(g', id, n') && GhostGrows(g, g') && prefix <= g.decided
    requires id in g.h.log && Rep(n'.log, full') && Based(n, n', g.h.log[id], full', prefix)
    ensures id in g'.h.log && full' == g'.h.log[id]
  {
    hide Grows, Committed, SnapOk, VotedOk, CandidateOk, LeaderOk, IdOk;
    var l', f := g'.h.log[id], First(n'.log);
    assert full'[..f] <= g'.decided;
    assert l'[..n'.commit][..f] == l'[..f] <= g'.decided;
    assert full' == full'[..f] + full'[f..] && l' == l'[..f] + l'[f..];
  }

  lemma PrefixIsDecided(g: Ghost, m: Msg)
    requires MsgInv(g, m)
    ensures PrefixOf(g, m) <= g.decided
  {
    hide Committed, SnapshotOf;
  }

  // ---------------------------------------------------------------- one step

  /** The request for `peer` is the one that `u` sends from the same next index. */
  ghost predicate SendsLike(n: Node, u: Node, peer: Id) {
    && WfLog(n.log) && peer in n.next && n.next[peer] <= Last(n.log) + 1
    && WfLog(u.log) && n.next[peer] <= Last(u.log) + 1
    && Replicate(n, peer).Some? && Replicate(u.(next := n.next), peer) == Replicate(n, peer)
  }

  /** The snapshot for `peer` stands for the beginning of the log of `u`, as committed. */
  ghost predicate SendsBeginning(g: Ghost, n: Node, u: Node, peer: Id) {
    && |n.log| > 0 && SnapshotFor(n, peer).Some? && First(n.log) <= u.commit && First(n.log) < |u.log|
    && var m := SnapshotFor(n, peer).value;
       Expanded(m, PrefixOf(g, m))
       == AppendRequest(u.id, peer, u.term, 0, 0, u.log[1..First(n.log) + 1], First(n.log))
  }

  /** What step `s` of the cluster is for a node `u` that stands in for process `id` and never
      compacts: it receives what the message stands for and gives the same answer, it starts the
      same elections and makes the same proposals, it sends the same entries, and its applier
      keeps pace. All other steps, taking a snapshot among them, are none to it. */
  ghost predicate WholeMove(c: Cluster, c': Cluster, g: Ghost, s: Step, id: Id, u: Node, u': Node)
    requires id in c.procs && id in c'.procs
  {
    var n := c.procs[id].node;
    match s
    case Receive(m) =>
      if m.to != id then u' == u
      else
        exists n', out, out' ::
          && ReceiveStep(c, c', m, n', out) && Received(u, Expanded(m, PrefixOf(g, m)), u', out')
          && |n.log| > 0 && SameAnswers(First(n.log), out, out')
    case ElectionTimeout(x) =>
      if x != id then u' == u
      else
        && |u.log| > 0 && u' == StartElection(u)
        && c'.net == c.net + (set q | q in u'.peers :: VoteRequestTo(u', q))
    case ClientCall(x, op) => if x != id then u' == u else |u.log| > 0 && u' == Propose(u, Some(op))
    case SendTo(x, peer) => u' == u && (x == id ==> SendsLike(n, u, peer))
    case SendInstall(x, peer) => u' == u && (x == id ==> SendsBeginning(g, n, u, peer))
    case TakePending(x) => u' == if x != id then u else u.(applied := c'.procs[id].node.applied)
    case CountEntry(x) => u' == if x != id then u else u.(applied := c'.procs[id].node.applied)
    case _ => u' == u
  }

  lemma ReceiveFollowed(c: Cluster, c': Cluster, g: Ghost, g': Ghost, m: Msg, u: Node) returns (u': Node)
    requires ClusterInv(c, g) && ClusterInv(c', g') && GhostGrows(g, g') && RaftStepOf(c, c', Receive(m))
    requires m.to in g.h.log && Simulates(c.procs[m.to].node, u, g.h.log[m.to])
    ensures m.to in c'.procs && m.to in g'.h.log && WholeMove(c, c', g, Receive(m), m.to, u, u')
    ensures Simulates(c'.procs[m.to].node, u', g'.h.log[m.to])
  {
    hide GhostOk, NodeInv, MsgInv, Simulates, Received, SameAnswers, Based, PrefixOf, Expanded, GhostGrows;
    var n', out :| ReceiveStep(c, c', m, n', out);
    var n := c.procs[m.to].node;
    NodeOf(c, g, m.to);
    NodeOf(c', g', m.to);
    assert MsgInv(g, m);
    var out', full';
    u', out', full' := EveryMessageMirrored(g, m.to, n, u, m, n', out);
    PrefixIsDecided(g, m);
    SimulatesRep(n', u', full');
    WholeIsRecorded(g, g', m.to, n, n', full', PrefixOf(g, m));
    assert ReceiveStep(c, c', m, n', out) && Received(u, Expanded(m, PrefixOf(g, m)), u', out');
  }

  lemma NodeOf(c: Cluster, g: Ghost, id: Id)
    requires ClusterInv(c, g) && id in c.procs
    ensures GhostOk(g) && NodeInv(g, id, c.procs[id].node) && id in g.h.log && Rep(c.procs[id].node.log, g.h.log[id])
  {
    hide GhostOk, NodeInv, MsgInv, ProcInv;
    assert ProcInv(g, id, c.procs[id]);
    ProcFacts(g, id, c.procs[id]);
    NodeRep(g, id, c.procs[id].node);
  }

  lemma SimulatesRep(n: Node, u: Node, full: Log)
    requires Simulates(n, u, full)
    ensures Rep(n.log, full)
  {
  }

  /** A move after which the node stands for `full'`, with the boundary committed before. */
  lemma StillRecorded(g: Ghost, g': Ghost, id: Id, n: Node, n': Node, u': Node, full': Log)
    requires NodeInv(g, id, n) && NodeInv(g', id, n') && GhostGrows(g, g')
    requires id in g.h.log && g.h.log[id] <= full' && Simulates(n', u', full')
    requires |n'.log| > 0 && First(n'.log) <= n.commit
    ensures id in g'.h.log && Simulates(n', u', g'.h.log[id])
  {
    hide NodeInv, Simulates, GhostGrows;
    NodeBasics(g, id, n);
    BasedOn(n, n', g.h.log[id], full', []);
    SimulatesRep(n', u', full');
    WholeIsRecorded(g, g', id, n, n', full', []);
  }

  lemma ElectionFollowed(c: Cluster, c': Cluster, g: Ghost, g': Ghost, id: Id, u: Node) returns (u': Node)
    requires ClusterInv(c, g) && ClusterInv(c', g') && GhostGrows(g, g') && RaftStepOf(c, c', ElectionTimeout(id))
    requires id in g.h.log && Simulates(c.procs[id].node, u, g.h.log[id])
    ensures id in c'.procs && id in g'.h.log && WholeMove(c, c', g, ElectionTimeout(id), id, u, u')
    ensures Simulates(c'.procs[id].node, u', g'.h.log[id])
  {
    hide ClusterInv, NodeInv, GhostOk, Simulates, GhostGrows, VoteRequestTo, Rep;
    var n, full := c.procs[id].node, g.h.log[id];
    NodeOf(c, g, id);
    NodeOf(c', g', id);
    NodeBasics(g, id, n);
    LocalStepsMirrored(n, u, full, None, id);
    u' := StartElection(u);
    VotesMirrored(n, u, full);
    StillRecorded(g, g', id, n, c'.procs[id].node, u', full);
  }

  /** The same votes are requested. */
  lemma VotesMirrored(n: Node, u: Node, full: Log)
    requires Simulates(n, u, full)
    ensures |n.log| > 0 && |u.log| > 0
    ensures var n', u' := StartElection(n), StartElection(u);
            && |n'.log| > 0 && |u'.log| > 0
            && (set q | q in n'.peers :: VoteRequestTo(n', q)) == (set q | q in u'.peers :: VoteRequestTo(u', q))
  {
    hide Simulates, VoteRequestTo;
    LocalStepsMirrored(n, u, full, None, "");
    SimulatesPeers(n, u, full);
    var n', u' := StartElection(n), StartElection(u);
    forall q ensures VoteRequestTo(n', q) == VoteRequestTo(u', q) {
      LocalStepsMirrored(n, u, full, None, q);
    }
  }

  lemma ProposalFollowed(c: Cluster, c': Cluster, g: Ghost, g': Ghost, id: Id, op: QueueOp, u: Node)
    returns (u': Node)
    requires ClusterInv(c, g) && ClusterInv(c', g') && GhostGrows(g, g') && RaftStepOf(c, c', ClientCall(id, op))
    requires id in g.h.log && Simulates(c.procs[id].node, u, g.h.log[id])
    ensures id in c'.procs && id in g'.h.log && WholeMove(c, c', g, ClientCall(id, op), id, u, u')
    ensures Simulates(c'.procs[id].node, u', g'.h.log[id])
  {
    hide ClusterInv, NodeInv, GhostOk, Simulates, GhostGrows, Rep;
    var n, full := c.procs[id].node, g.h.log[id];
    NodeOf(c, g, id);
    NodeOf(c', g', id);
    NodeBasics(g, id, n);
    LocalStepsMirrored(n, u, full, Some(op), id);
    u' := Propose(u, Some(op));
    StillRecorded(g, g', id, n, c'.procs[id].node, u', full + [Entry(|full| + 1, n.term, Some(op))]);
  }

  lemma SimulatesPeers(n: Node, u: Node, full: Log)
    requires Simulates(n, u, full)
    ensures u.peers == n.peers && u.id == n.id && u.term == n.term && u.role == n.role && u.commit == n.commit
    ensures u.log == Whole(full) && Rep(n.log, full) && Rep(u.log, full)
  {
    hide Rep;
    SimulatesBasics(n, u, full);
  }

  lemma SendLike(g: Ghost, id: Id, n: Node, u: Node, peer: Id)
    requires GhostOk(g) && NodeInv(g, id, n) && id in g.h.log && Simulates(n, u, g.h.log[id])
    requires n.role == Leader && peer in n.peers && WfLog(n.log) && peer in n.next && n.next[peer] <= Last(n.log) + 1
    requires Replicate(n, peer).Some?
    ensures SendsLike(n, u, peer)
  {
    hide GhostOk, NodeInv, Rep;
    SimulatesBasics(n, u, g.h.log[id]);
    SendsTheSame(g, id, n, peer);
  }

  lemma SendBeginning(g: Ghost, id: Id, n: Node, u: Node, peer: Id)
    requires GhostOk(g) && NodeInv(g, id, n) && id in g.h.log && Simulates(n, u, g.h.log[id])
    requires |n.log| > 0 && SnapshotFor(n, peer).Some?
    ensures SendsBeginning(g, n, u, peer)
  {
    hide GhostOk, Rep, Safe, SnapOk, VotedOk, CandidateOk;
    var full := g.h.log[id];
    SimulatesBasics(n, u, full);
    assert u.log[1..First(n.log) + 1] == full[..First(n.log)];
  }

  /** What the steps of the applier and the server do to a node. */
  lemma QuietNode(c: Cluster, c': Cluster, s: Step, id: Id)
    requires id in c.procs && (ApplierStepOf(c, c', s) || ServerStepOf(c, c', s))
    ensures id in c'.procs
    ensures var n, n' := c.procs[id].node, c'.procs[id].node;
            if s == TakePending(id) || s == CountEntry(id) then n' == n.(pending := n'.pending, applied := n'.applied)
            else if s == OfferSnapshot(id) then
              && WfLog(n.log) && n.applied <= Last(n.log) && c.procs[id].server.call.Some?
              && var call := c.procs[id].server.call.value;
                 n' == TakeSnapshot(n, call.index, call.data)
            else n' == n
  {
    hide EntryConsumed, DequeueStep, Requeue, Restore, Registered, NextBatch, TakeSnapshot;
  }

  lemma QuietSimulated(n: Node, n': Node, u: Node, full: Log)
    requires Simulates(n, u, full) && n' == n.(pending := n'.pending, applied := n'.applied)
    ensures Simulates(n', u.(applied := n'.applied), full)
  {
    hide Rep;
  }

  lemma SnapshotSettled(n: Node, index: nat, data: SnapshotState)
    requires WfLog(n.log) && First(n.log) <= n.commit && n.applied <= n.commit && n.applied <= Last(n.log)
    ensures |TakeSnapshot(n, index, data).log| > 0 && First(TakeSnapshot(n, index, data).log) <= n.commit
  {
  }

  /** Steps of the applier and the server: the log stays, or loses a part that is committed. */
  lemma QuietFollowed(c: Cluster, c': Cluster, g: Ghost, g': Ghost, s: Step, id: Id, u: Node) returns (u': Node)
    requires ClusterInv(c, g) && ClusterInv(c', g') && GhostGrows(g, g') && id in c.procs
    requires ApplierStepOf(c, c', s) || ServerStepOf(c, c', s)
    requires id in g.h.log && Simulates(c.procs[id].node, u, g.h.log[id])
    ensures id in c'.procs && id in g'.h.log && WholeMove(c, c', g, s, id, u, u')
    ensures Simulates(c'.procs[id].node, u', g'.h.log[id])
  {
    hide ClusterInv, NodeInv, GhostGrows, ApplierStepOf, ServerStepOf, Simulates, TakeSnapshot;
    var n, full := c.procs[id].node, g.h.log[id];
    NodeOf(c, g, id);
    NodeBasics(g, id, n);
    QuietNode(c, c', s, id);
    QuietKind(c, c', s);
    u' := u;
    if s == TakePending(id) || s == CountEntry(id) {
      u' := u.(applied := c'.procs[id].node.applied);
      QuietSimulated(n, c'.procs[id].node, u, full);
    } else if s == OfferSnapshot(id) {
      var call := c.procs[id].server.call.value;
      SnapshotStutters(n, u, full, call.index, call.data);
      SnapshotSettled(n, call.index, call.data);
    }
    NodeOf(c', g', id);
    StillRecorded(g, g', id, n, c'.procs[id].node, u', full);
  }

  lemma QuietKind(c: Cluster, c': Cluster, s: Step)
    requires ApplierStepOf(c, c', s) || ServerStepOf(c, c', s)
    ensures !s.Receive? && !s.ElectionTimeout? && !s.ClientCall? && !s.SendTo? && !s.SendInstall?
  {
  }

  lemma RaftFollowed(c: Cluster, c': Cluster, g: Ghost, g': Ghost, s: Step, id: Id, u: Node) returns (u': Node)
    requires ClusterInv(c, g) && ClusterInv(c', g') && GhostGrows(g, g') && id in c.procs
    requires RaftStepOf(c, c', s) && s != Crash(id)
    requires id in g.h.log && Simulates(c.procs[id].node, u, g.h.log[id])
    ensures id in c'.procs && id in g'.h.log && WholeMove(c, c', g, s, id, u, u')
    ensures Simulates(c'.procs[id].node, u', g'.h.log[id])
  {
    hide ClusterInv, NodeInv, GhostOk, GhostGrows, Simulates, Received, Replicate, SnapshotFor, StartElection, Propose,
         SendsLike, SendsBeginning, StartProc, Restart, VoteRequestTo;
    var n := c.procs[id].node;
    NodeOf(c, g, id);
    if s == ElectionTimeout(id) {
      u' := ElectionFollowed(c, c', g, g', id, u);
    } else if s.ClientCall? && s.id == id {
      u' := ProposalFollowed(c, c', g, g', id, s.op, u);
    } else if s.Receive? && s.m.to == id {
      u' := ReceiveFollowed(c, c', g, g', s.m, u);
    } else {
      u' := u;
      if s.SendTo? && s.id == id {
        SendLike(g, id, n, u, s.peer);
      } else if s.SendInstall? && s.id == id {
        SendBeginning(g, id, n, u, s.peer);
      }
      NodeOf(c', g', id);
      NodeBasics(g, id, n);
      assert c'.procs[id].node == n;
      StillRecorded(g, g', id, n, n, u, g.h.log[id]);
    }
  }

  // ---------------------------------------------------------------- a stretch of a run

  /** Step `k` of the run is not a restart of `id`. */
  ghost predicate KeepsRunning(run: seq<Cluster>, k: nat, id: Id)
    requires k + 1 < |run|
  {
    Continues(run[k], run[k + 1], id)
  }

  ghost predicate Continues(c: Cluster, c': Cluster, id: Id) {
    exists s :: StepBeside(c, c', s, id)
  }

  ghost predicate StepBeside(c: Cluster, c': Cluster, s: Step, id: Id) {
    s != Crash(id) && NextStep(c, c', s)
  }

  /** Process `id` in state `k` has the log that the history records, compacted, and `u` has the
      whole of it. */
  ghost predicate StandsIn(run: seq<Cluster>, gs: seq<Ghost>, k: nat, id: Id, u: Node)
    requires k < |run| && k < |gs|
  {
    id in run[k].procs && id in gs[k].h.log && Simulates(run[k].procs[id].node, u, gs[k].h.log[id])
  }

  ghost predicate MovesAlong(run: seq<Cluster>, gs: seq<Ghost>, k: nat, id: Id, u: Node, u': Node)
    requires k + 1 < |run| && k < |gs|
  {
    && id in run[k].procs && id in run[k + 1].procs
    && GoesAlong(run[k], run[k + 1], gs[k], id, u, u')
  }

  ghost predicate GoesAlong(c: Cluster, c': Cluster, g: Ghost, id: Id, u: Node, u': Node)
    requires id in c.procs && id in c'.procs
  {
    exists s :: StepBeside(c, c', s, id) && WholeMove(c, c', g, s, id, u, u')
  }

  /** The nodes `us`, which never compact, stand in for process `id` from state `i` on, and each
      step of the cluster is a step of theirs. */
  ghost predicate RunsAlong(run: seq<Cluster>, gs: seq<Ghost>, i: nat, id: Id, us: seq<Node>)
    requires i + |us| <= |run| && i + |us| <= |gs|
  {
    && (forall k :: 0 <= k < |us| ==> StandsIn(run, gs, i + k, id, us[k]))
    && (forall k :: 0 <= k < |us| - 1 ==> MovesAlong(run, gs, i + k, id, us[k], us[k + 1]))
  }

  lemma StepFollowed(run: seq<Cluster>, gs: seq<Ghost>, k: nat, id: Id, u: Node) returns (u': Node)
    requires Explains(run, gs) && k + 1 < |run| && KeepsRunning(run, k, id) && StandsIn(run, gs, k, id, u)
    ensures MovesAlong(run, gs, k, id, u, u') && StandsIn(run, gs, k + 1, id, u')
  {
    hide ClusterInv, GhostGrows, Simulates, RaftStepOf, ApplierStepOf, ServerStepOf, WholeMove;
    var s :| StepBeside(run[k], run[k + 1], s, id);
    StateExplained(run, gs, k);
    StateExplained(run, gs, k + 1);
    assert GhostGrows(gs[k], gs[k + 1]);
    if RaftStepOf(run[k], run[k + 1], s) {
      u' := RaftFollowed(run[k], run[k + 1], gs[k], gs[k + 1], s, id, u);
    } else {
      u' := QuietFollowed(run[k], run[k + 1], gs[k], gs[k + 1], s, id, u);
    }
  }

  /** Compaction refinement over a run: from any state on, for as long as process `id` does not
      restart, a node that has its whole log and never compacts runs along with it. */
  lemma {:induction false} RunsAlongWhole(run: seq<Cluster>, gs: seq<Ghost>, i: nat, j: nat, id: Id, u: Node)
    returns (us: seq<Node>)
    requires Explains(run, gs) && i <= j < |run| && StandsIn(run, gs, i, id, u)
    requires forall k :: i <= k < j ==> KeepsRunning(run, k, id)
    ensures |us| == j - i + 1 && us[0] == u && RunsAlong(run, gs, i, id, us)
    decreases j
  {
    hide ClusterInv, GhostGrows, KeepsRunning, StandsIn, MovesAlong;
    if i == j {
      us := [u];
    } else {
      var before := RunsAlongWhole(run, gs, i, j - 1, id, u);
      var n := |before| - 1;
      assert StandsIn(run, gs, i + n, id, before[n]);
      assert KeepsRunning(run, j - 1, id);
      var u' := StepFollowed(run, gs, j - 1, id, before[n]);
      us := before + [u'];
      forall k | 0 <= k < |us| ensures StandsIn(run, gs, i + k, id, us[k]) {
        assert k < n + 1 ==> StandsIn(run, gs, i + k, id, before[k]);
      }
      forall k | 0 <= k < |us| - 1 ensures MovesAlong(run, gs, i + k, id, us[k], us[k + 1]) {
        assert k < n ==> MovesAlong(run, gs, i + k, id, before[k], before[k + 1]);
      }
    }
  }

  /** In every run, the process could have been the same process without compaction from any
      state on until its next restart. */
  lemma CompactionIsUnnoticed(run: seq<Cluster>, i: nat, j: nat, id: Id)
    requires IsRun(run) && i <= j < |run| && id in run[i].procs
    requires forall k :: i <= k < j ==> KeepsRunning(run, k, id)
    ensures exists gs: seq<Ghost>, us: seq<Node> ::
              && Explains(run, gs) && |us| == j - i + 1 && id in gs[i].h.log
              && us[0] == Uncompacted(run[i].procs[id].node, gs[i].h.log[id])
              && RunsAlong(run, gs, i, id, us)
  {
    hide IsRun, Explains, NodeInv, Simulates, KeepsRunning, RunsAlong, ProcInv, GhostOk;
    var gs := RunHistory(run);
    var n := run[i].procs[id].node;
    NodeAt(run, gs, i, id);
    NodeRep(gs[i], id, n);
    var u := Uncompacted(n, gs[i].h.log[id]);
    SimulatedByWhole(n, gs[i].h.log[id]);
    var us := RunsAlongWhole(run, gs, i, j, id, u);
  }

  lemma SimulatedByWhole(n: Node, full: Log)
    requires Rep(n.log, full)
    ensures Simulates(n, Uncompacted(n, full), full)
  {
  }

  /** In every reachable state, a leader and a follower of its term can start an exchange, so
      that what is proved about rejections and about where they settle applies to them. */
  lemma ExchangeIsReached(run: seq<Cluster>, i: nat, a: Id, p: Id) returns (g: Ghost)
    requires IsRun(run) && i < |run| && a in run[i].procs && p in run[i].procs
    requires var n, f := run[i].procs[a].node, run[i].procs[p].node;
             && n.role == Leader && f.role == Follower && f.term == n.term
             && WfLog(n.log) && p in n.next && First(n.log) < n.next[p]
    ensures Exchange(g, a, run[i].procs[a].node, p, run[i].procs[p].node)
  {
    hide IsRun, GhostOk, ProcInv, Rep, Safe, SnapshotOf, CandidateOk;
    var gs := RunHistory(run);
    g := gs[i];
    NodeAt(run, gs, i, a);
    NodeAt(run, gs, i, p);
  }
}
