/** What Raft promises, for every run of the cluster: any schedule, any loss, delay or
    repetition of messages, any crashes. */
module RaftTheorems {
  import opened Tasks
  import opened QueueView
  import opened QueueMachine
  import QueueFate
  import QueueRuns
  import opened RaftLog
  import opened RaftHistory
  import E = RaftEvents
  import opened RaftStep
  import opened RaftCompaction
  import opened RaftInvariant
  import opened RaftHandlers
  import opened RaftReplicationProof
  import opened RaftCluster
  import opened RaftDelivery
  import opened RaftSafety

  lemma GhostGrowsTransitive(a: Ghost, b: Ghost, c: Ghost)
    requires GhostGrows(a, b) && GhostGrows(b, c)
    ensures GhostGrows(a, c)
  {
    hide Grows;
    E.GrowsTransitive(a.h, b.h, c.h);
  }

  ghost predicate Explains(run: seq<Cluster>, gs: seq<Ghost>) {
    && |gs| == |run|
    && (forall i {:trigger ClusterInv(run[i], gs[i])} :: 0 <= i < |run| ==> ClusterInv(run[i], gs[i]))
    && (forall i, j {:trigger GhostGrows(gs[i], gs[j])} :: 0 <= i <= j < |gs| ==> GhostGrows(gs[i], gs[j]))
  }

  /** A run has a history that only grows and explains every state. */
  lemma {:induction false} RunHistory(run: seq<Cluster>) returns (gs: seq<Ghost>)
    requires IsRun(run)
    ensures Explains(run, gs) && |gs| == |run|
  {
    hide ClusterInv, GhostGrows, Next, Init;
    if |run| == 1 {
      var g := InitInv(run[0]);
      SelfGrows(run[0], g);
      gs := [g];
    } else {
      var k := |run| - 1;
      assert IsRun(run[..k]) by { RunPrefix(run, k); }
      var gs0 := RunHistory(run[..k]);
      assert ClusterInv(run[..k][k - 1], gs0[k - 1]);
      assert run[..k][k - 1] == run[k - 1];
      assert StepAt(run, k - 1);
      var g := NextInv(run[k - 1], run[k], gs0[k - 1]);
      gs := gs0 + [g];
      SelfGrows(run[k], g);
      forall i | 0 <= i < |run| ensures ClusterInv(run[i], gs[i]) {
        assert i < k ==> ClusterInv(run[..k][i], gs0[i]);
      }
      forall i, j | 0 <= i <= j < |gs| ensures GhostGrows(gs[i], gs[j]) {
        if j < k {
          assert GhostGrows(gs0[i], gs0[j]);
        } else if i < k {
          assert GhostGrows(gs0[i], gs0[k - 1]);
          GhostGrowsTransitive(gs0[i], gs0[k - 1], g);
        }
      }
    }
  }

  lemma RunPrefix(run: seq<Cluster>, k: nat)
    requires IsRun(run) && 0 < k <= |run|
    ensures IsRun(run[..k])
  {
    var r := run[..k];
    forall i | 0 <= i < |r| - 1 ensures StepAt(r, i) {
      assert StepAt(run, i);
    }
  }

  lemma SelfGrows(c: Cluster, g: Ghost)
    requires ClusterInv(c, g)
    ensures GhostGrows(g, g)
  {
    QuietStep(g, "");
  }

  lemma NodeAt(run: seq<Cluster>, gs: seq<Ghost>, i: nat, id: Id)
    requires Explains(run, gs) && i < |run| && id in run[i].procs
    ensures GhostOk(gs[i]) && ProcInv(gs[i], id, run[i].procs[id]) && NodeInv(gs[i], id, run[i].procs[id].node)
    ensures run[i].retries == gs[i].retries
  {
    hide GhostOk, ProcInv, NodeInv, MsgInv, GhostGrows;
    assert ClusterInv(run[i], gs[i]);
    ProcFacts(gs[i], id, run[i].procs[id]);
  }

  /** Election Safety (section 5.2 of the Raft paper): a term has at most one leader in the
      whole run, restarts included. */
  lemma ElectionSafety(run: seq<Cluster>, i: nat, j: nat, a: Id, b: Id)
    requires IsRun(run) && i < |run| && j < |run| && a in run[i].procs && b in run[j].procs
    requires run[i].procs[a].node.role == Leader && run[j].procs[b].node.role == Leader
    requires run[i].procs[a].node.term == run[j].procs[b].node.term
    ensures a == b
  {
    hide IsRun, GhostOk, ProcInv, LogOk, SnapOk, VotedOk, CandidateOk;
    var gs := RunHistory(run);
    NodeAt(run, gs, i, a);
    NodeAt(run, gs, j, b);
    var t := run[i].procs[a].node.term;
    if i <= j {
      assert GhostGrows(gs[i], gs[j]);
      assert LeadGrows(gs[i].h, gs[j].h, t);
    } else {
      assert GhostGrows(gs[j], gs[i]);
      assert LeadGrows(gs[j].h, gs[i].h, t);
    }
  }

  /** The entry a node holds at an index it has not compacted. */
  lemma HeldEntry(g: Ghost, id: Id, n: Node, x: nat)
    requires NodeInv(g, id, n) && First(n.log) < x <= Last(n.log)
    ensures WfLog(n.log) && Last(n.log) == |g.h.log[id]| && EntryAt(n.log, x) == g.h.log[id][x - 1]
  {
    hide Safe, SnapshotOf, CandidateOk, LeaderOk, Rep;
    RepBasics(n.log, g.h.log[id]);
    RepAt(n.log, g.h.log[id], x);
  }

  /** The strong Log Matching property: two logs, of any nodes at any two moments, that agree
      on the term at one index agree on that entry and on every earlier one. */
  lemma LogMatching(run: seq<Cluster>, i: nat, j: nat, a: Id, b: Id, x: nat, y: nat)
    requires IsRun(run) && i <= j < |run| && a in run[i].procs && b in run[j].procs
    requires var m, n := run[i].procs[a].node, run[j].procs[b].node;
             && WfLog(m.log) && WfLog(n.log)
             && First(m.log) < y <= x <= Last(m.log) && First(n.log) < y <= x <= Last(n.log)
             && TermOf(m.log, x) == TermOf(n.log, x)
    ensures EntryAt(run[i].procs[a].node.log, y) == EntryAt(run[j].procs[b].node.log, y)
  {
    hide IsRun, GhostOk, ProcInv, NodeInv, Matches, Grows;
    var gs := RunHistory(run);
    NodeAt(run, gs, i, a);
    NodeAt(run, gs, j, b);
    var m, n := run[i].procs[a].node, run[j].procs[b].node;
    HeldEntry(gs[i], a, m, x);
    HeldEntry(gs[i], a, m, y);
    HeldEntry(gs[j], b, n, x);
    HeldEntry(gs[j], b, n, y);
    IsNode(gs[i], a, m);
    IsNode(gs[j], b, n);
    var k, l := gs[i].h.log[a], gs[j].h.log[b];
    assert GhostGrows(gs[i], gs[j]);
    NodeMatches(gs[i], a);
    NodeMatches(gs[j], b);
    MatchesGrows(gs[i].h, gs[j].h, k);
    SamePrefix(gs[j].h, k, l, x);
    assert k[..x][y - 1] == l[..x][y - 1];
  }

  /** What a node knows to be committed is a prefix of what any later state has decided. */
  lemma CommittedIsDecided(run: seq<Cluster>, gs: seq<Ghost>, i: nat, j: nat, a: Id)
    requires Explains(run, gs) && i <= j < |run| && a in run[i].procs
    ensures NodeInv(gs[i], a, run[i].procs[a].node) && a in gs[i].h.log
    ensures run[i].procs[a].node.commit <= |gs[i].h.log[a]|
    ensures gs[i].h.log[a][..run[i].procs[a].node.commit] <= gs[j].decided
  {
    hide GhostOk, ProcInv, Rep, SnapOk, VotedOk, CandidateOk, LeaderOk, Grows, Committed;
    NodeAt(run, gs, i, a);
    assert GhostGrows(gs[i], gs[j]);
  }

  /** State Machine Safety (section 5.4.3 of the Raft paper): an index that two nodes consider
      committed, at any two moments of the run, holds the same entry on both. */
  lemma StateMachineSafety(run: seq<Cluster>, i: nat, j: nat, a: Id, b: Id, x: nat)
    requires IsRun(run) && i <= j < |run| && a in run[i].procs && b in run[j].procs
    requires var m, n := run[i].procs[a].node, run[j].procs[b].node;
             && WfLog(m.log) && First(m.log) < x <= m.commit && x <= Last(m.log)
             && WfLog(n.log) && First(n.log) < x <= n.commit && x <= Last(n.log)
    ensures EntryAt(run[i].procs[a].node.log, x) == EntryAt(run[j].procs[b].node.log, x)
  {
    hide IsRun, ProcInv, NodeInv, Explains;
    var gs := RunHistory(run);
    var m, n := run[i].procs[a].node, run[j].procs[b].node;
    CommittedIsDecided(run, gs, i, j, a);
    CommittedIsDecided(run, gs, j, j, b);
    HeldEntry(gs[i], a, m, x);
    HeldEntry(gs[j], b, n, x);
    assert gs[i].h.log[a][..m.commit][x - 1] == gs[j].decided[x - 1];
    assert gs[j].h.log[b][..n.commit][x - 1] == gs[j].decided[x - 1];
  }

  /** Leader Completeness (section 5.4 of the Raft paper): what a node knows to be committed, at
      any moment of the run, is in the log of every leader of a later term at any moment, before
      or after, and in the log of the leader of the same term from then on. */
  lemma CommittedIsInLeader(run: seq<Cluster>, i: nat, j: nat, a: Id, b: Id, x: nat)
    requires IsRun(run) && i < |run| && j < |run| && a in run[i].procs && b in run[j].procs
    requires var m, n := run[i].procs[a].node, run[j].procs[b].node;
             && WfLog(m.log) && First(m.log) < x <= m.commit && x <= Last(m.log)
             && n.role == Leader && (m.term < n.term || (m.term == n.term && i <= j))
    ensures var m, n := run[i].procs[a].node, run[j].procs[b].node;
            && WfLog(n.log) && x <= Last(n.log)
            && (First(n.log) < x ==> EntryAt(n.log, x) == EntryAt(m.log, x))
  {
    hide IsRun, ProcInv, Rep, GhostOk, SnapOk, VotedOk, CandidateOk, Grows;
    var gs := RunHistory(run);
    var m, n := run[i].procs[a].node, run[j].procs[b].node;
    NodeAt(run, gs, i, a);
    NodeAt(run, gs, j, b);
    HeldEntry(gs[i], a, m, x);
    NodeBasics(gs[j], b, n);
    var known := gs[i].h.log[a][..m.commit];
    if i <= j {
      assert GhostGrows(gs[i], gs[j]);
      SafeGrows(gs[i], gs[j], known, m.term, n.term);
      LedBy(gs[j], b, n, known);
    } else {
      assert GhostGrows(gs[j], gs[i]);
      LedBefore(gs[j], gs[i], b, n, known, m.term);
    }
    assert known[x - 1] == gs[j].h.log[b][x - 1];
    if First(n.log) < x {
      HeldEntry(gs[j], b, n, x);
    }
  }

  lemma LedBy(g: Ghost, b: Id, n: Node, known: Log)
    requires GhostOk(g) && IdOk(g, b, n) && LeaderOk(g, b, n) && Safe(g, known, n.term)
    ensures known <= g.h.log[b]
  {
    hide Inv, Committed;
    CommittedIsLed(g.h, known, n.term);
  }

  /** A leader of a later term won with everything that an earlier term ever gets committed. */
  lemma LedBefore(g: Ghost, g': Ghost, b: Id, n: Node, known: Log, t: nat)
    requires GhostOk(g) && GhostOk(g') && GhostGrows(g, g')
    requires LeaderOk(g, b, n) && Safe(g', known, t) && t < n.term
    ensures known <= g.h.log[b]
  {
    hide Committed;
    assert LeadGrows(g.h, g'.h, n.term);
    CommittedIsBase(g'.h, known, t, n.term);
    assert LeadOk(g.h, n.term);
  }

  /** matchIndex soundness: a peer holds the leader's log up to the recorded index as long as it
      is still in the leader's term, and holds what the leader knows to be committed forever. */
  lemma MatchIndexSound(run: seq<Cluster>, i: nat, a: Id, p: Id, x: nat)
    requires IsRun(run) && i < |run| && a in run[i].procs && p in run[i].procs
    requires var m, n := run[i].procs[a].node, run[i].procs[p].node;
             && m.role == Leader && p in m.matched && 0 < x <= m.matched[p]
             && (n.term == m.term || x <= m.commit)
    ensures var m, n := run[i].procs[a].node, run[i].procs[p].node;
            && WfLog(m.log) && WfLog(n.log) && x <= Last(m.log) && x <= Last(n.log)
            && (First(m.log) < x && First(n.log) < x ==> EntryAt(m.log, x) == EntryAt(n.log, x))
  {
    hide IsRun, ProcInv, Rep, SnapOk, VotedOk, CandidateOk, Inv, Committed;
    var gs := RunHistory(run);
    var m, n := run[i].procs[a].node, run[i].procs[p].node;
    NodeAt(run, gs, i, a);
    NodeAt(run, gs, i, p);
    NodeBasics(gs[i], a, m);
    NodeBasics(gs[i], p, n);
    if x <= m.commit {
      AckedCommitted(gs[i], a, m, p, x);
    } else {
      AckedPrefix(gs[i], p, n.term, x);
    }
    var k, l := gs[i].h.log[a], gs[i].h.log[p];
    assert k[..x][x - 1] == l[x - 1];
    if First(m.log) < x && First(n.log) < x {
      HeldEntry(gs[i], a, m, x);
      HeldEntry(gs[i], p, n, x);
    }
  }

  /** An acknowledged entry that is committed survives every later leader. */
  lemma AckedCommitted(g: Ghost, a: Id, m: Node, p: Id, x: nat)
    requires GhostOk(g) && p in g.h.nodes && LeaderOk(g, a, m) && 0 < x <= Ack(g.h, p, m.term)
    requires x <= m.commit <= |g.h.log[a]| && Safe(g, g.h.log[a][..m.commit], m.term)
    ensures x <= |g.h.log[a]| && g.h.log[a][..x] <= g.h.log[p]
  {
    hide Committed;
    var t, k := m.term, g.h.lead[m.term];
    assert AckOk(g.h, At(p, t));
    assert Kept(g.h, g.h.log[p], t, x, g.h.term[p] + 1);
    if Diverged(g.h, t, x, g.h.term[p] + 1) {
      var s :| t < s < g.h.term[p] + 1 && s in g.h.base && !(k[..x] <= g.h.base[s]);
      CommittedIsBase(g.h, k[..m.commit], t, s);
      assert false;
    }
  }

  lemma AckedPrefix(g: Ghost, p: Id, t: nat, x: nat)
    requires GhostOk(g) && p in g.h.nodes && g.h.term[p] == t && t in g.h.lead && 0 < x <= Ack(g.h, p, t)
    ensures x <= |g.h.lead[t]| && g.h.lead[t][..x] <= g.h.log[p]
  {
    assert AckOk(g.h, At(p, t));
    assert Kept(g.h, g.h.log[p], t, x, g.h.term[p] + 1);
  }

  // ---------------------------------------------------------------- indexes

  /** Every index the node computes with is in range. */
  ghost predicate InRange(n: Node) {
    && WfLog(n.log)
    && First(n.log) <= n.commit <= Last(n.log)
    && n.applied <= n.commit
    && (n.role == Leader ==> forall p :: p in n.peers ==> p in n.next && n.next[p] <= Last(n.log) + 1)
  }

  /** In every reachable state, log accesses stay in range on every node, and every message
      can be handled: entries are numbered after `prev`, and a request never carries a commit
      index beyond the entries it confirms. */
  lemma IndexesStayInRange(run: seq<Cluster>, i: nat)
    requires IsRun(run) && i < |run|
    ensures forall id :: id in run[i].procs ==> InRange(run[i].procs[id].node)
    ensures forall m :: m in run[i].net && m.AppendRequest? ==>
              Follow(m.entries, m.prev) && m.commit <= m.prev + |m.entries|
  {
    hide IsRun, ProcInv, GhostOk, GhostGrows;
    var gs := RunHistory(run);
    forall id | id in run[i].procs ensures InRange(run[i].procs[id].node) {
      NodeAt(run, gs, i, id);
      NodeInRange(gs[i], id, run[i].procs[id].node);
    }
    forall m | m in run[i].net && m.AppendRequest?
      ensures Follow(m.entries, m.prev) && m.commit <= m.prev + |m.entries|
    {
      assert ClusterInv(run[i], gs[i]);
      assert MsgInv(gs[i], m);
      WholeWindow(gs[i], m);
      WindowFollows(gs[i], m, m.prev, m.prevTerm, m.entries);
    }
  }

  lemma NodeInRange(g: Ghost, id: Id, n: Node)
    requires NodeInv(g, id, n)
    ensures InRange(n)
  {
    hide Rep, Safe, SnapOk, VotedOk, CandidateOk;
    NodeBasics(g, id, n);
  }

  /** Process `id` crashed and started again in the step from `c` to `c'`. */
  ghost predicate Restarted(c: Cluster, c': Cluster, id: Id) {
    && id in c.procs && id in c'.procs && |c.procs[id].node.log| > 0
    && c'.procs[id] == StartProc(Restart(c.procs[id].node), c.retries)
  }

  /** The commit index of `id` does not fall in the step, unless the process restarts. */
  ghost predicate KeepsCommit(c: Cluster, c': Cluster, id: Id)
    requires id in c.procs
  {
    id in c'.procs && (c.procs[id].node.commit <= c'.procs[id].node.commit || Restarted(c, c', id))
  }

  lemma ProcStepKeeps(c: Cluster, c': Cluster, at: Id, p': Proc, out: set<Msg>, id: Id)
    requires id in c.procs && ProcStep(c, c', at, p', out) && c.procs[at].node.commit <= p'.node.commit
    ensures KeepsCommit(c, c', id)
  {
  }

  lemma RaftKeepsCommit(c: Cluster, c': Cluster, g: Ghost, s: Step, id: Id)
    requires ClusterInv(c, g) && id in c.procs && RaftStepOf(c, c', s)
    ensures KeepsCommit(c, c', id)
  {
    hide ClusterInv, Received, StartProc, Restart, Replicate, SnapshotFor, VoteRequestTo, KeepsCommit;
    match s
    case ElectionTimeout(at) =>
      var n' := StartElection(c.procs[at].node);
      ProcStepKeeps(c, c', at, c.procs[at].(node := n'), set q | q in n'.peers :: VoteRequestTo(n', q), id);
    case Receive(m) =>
      var n', out :| ReceiveStep(c, c', m, n', out);
      var _ := ReceiveInv(c, c', g, m, n', out);
      ProcStepKeeps(c, c', m.to, c.procs[m.to].(node := n'), out, id);
    case SendTo(at, peer) =>
      ProcStepKeeps(c, c', at, c.procs[at], {Replicate(c.procs[at].node, peer).value}, id);
    case SendInstall(at, peer) =>
      ProcStepKeeps(c, c', at, c.procs[at], {SnapshotFor(c.procs[at].node, peer).value}, id);
    case ClientCall(at, op) =>
      ProcStepKeeps(c, c', at, c'.procs[at], {}, id);
    case Crash(at) => RestartKeeps(c, c', at, id);
  }

  lemma RestartKeeps(c: Cluster, c': Cluster, at: Id, id: Id)
    requires id in c.procs && RaftStepOf(c, c', Crash(at))
    ensures KeepsCommit(c, c', id)
  {
    hide StartProc, Restart;
  }

  lemma LocalKeepsCommit(c: Cluster, c': Cluster, s: Step, id: Id)
    requires id in c.procs && (ApplierStepOf(c, c', s) || ServerStepOf(c, c', s))
    ensures KeepsCommit(c, c', id)
  {
    hide StartProc, Restart, NextBatch, EntryConsumed, DequeueStep, Requeue, Restore, Registered;
  }

  /** Between restarts a node's commit index never decreases. */
  lemma CommitNeverDecreases(run: seq<Cluster>, i: nat, id: Id)
    requires IsRun(run) && i + 1 < |run| && id in run[i].procs
    ensures id in run[i + 1].procs
    ensures run[i].procs[id].node.commit <= run[i + 1].procs[id].node.commit || Restarted(run[i], run[i + 1], id)
  {
    hide ClusterInv, Explains, RaftStepOf, ApplierStepOf, ServerStepOf;
    var gs := RunHistory(run);
    StateExplained(run, gs, i);
    assert StepAt(run, i);
    var s :| NextStep(run[i], run[i + 1], s);
    if RaftStepOf(run[i], run[i + 1], s) {
      RaftKeepsCommit(run[i], run[i + 1], gs[i], s, id);
    } else {
      LocalKeepsCommit(run[i], run[i + 1], s, id);
    }
  }

  lemma StateExplained(run: seq<Cluster>, gs: seq<Ghost>, i: nat)
    requires Explains(run, gs) && i < |run|
    ensures ClusterInv(run[i], gs[i])
  {
    hide ClusterInv, GhostGrows;
  }

  /** How a server's position may move in one step: it stays and no message is consumed, or the
      message at the head of the channel, and no other, is consumed and takes it to the next index
      or further. */
  ghost predicate MovesInOrder(c: Cluster, c': Cluster, id: Id)
    requires id in c.procs && id in c'.procs
  {
    var p, p' := c.procs[id], c'.procs[id];
    || (p'.server.position == p.server.position && p.channel <= p'.channel)
    || (p'.server.position == p.server.position + 1 && p.channel != [] && p.channel[0].CommandMsg?
        && p.channel[0].entry.index == p'.server.position && p.channel[1..] <= p'.channel)
    || (p'.server.position > p.server.position && p.channel != [] && p.channel[0].SnapshotMsg?
        && p.channel[0].install.index == p'.server.position && p.channel[1..] <= p'.channel)
    || Restarted(c, c', id)
  }

  lemma RaftMovesInOrder(c: Cluster, c': Cluster, s: Step, id: Id)
    requires id in c.procs && RaftStepOf(c, c', s)
    ensures id in c'.procs && MovesInOrder(c, c', id)
  {
    hide Received, StartProc, Restart, Replicate, StartElection, Propose;
  }

  lemma ApplierMovesInOrder(c: Cluster, c': Cluster, s: Step, id: Id)
    requires id in c.procs && ApplierStepOf(c, c', s)
    ensures id in c'.procs && MovesInOrder(c, c', id)
  {
    hide StartProc, Restart, NextBatch;
  }

  lemma ServerMovesInOrder(c: Cluster, c': Cluster, s: Step, id: Id)
    requires id in c.procs && ServerStepOf(c, c', s)
    requires c.procs[id].channel != [] ==> Fits(c.procs[id].server.position, c.procs[id].channel[0])
    ensures id in c'.procs && MovesInOrder(c, c', id)
  {
    hide StartProc, Restart, DequeueStep, Requeue, TakeSnapshot, Restore, Apply, IsSnapshot;
  }

  /** Delivery order: from one state to the next a server's position stays, moves to the very
      next entry, jumps forward with a snapshot, or starts over after a crash. */
  lemma DeliveredInOrder(run: seq<Cluster>, i: nat, id: Id)
    requires IsRun(run) && i + 1 < |run| && id in run[i].procs
    ensures id in run[i + 1].procs && MovesInOrder(run[i], run[i + 1], id)
  {
    hide RaftStepOf, ApplierStepOf, ServerStepOf, MovesInOrder, Explains, GhostGrows, NodeInv, QueueOk, FlowOk, Fits;
    var gs := RunHistory(run);
    var c, c' := run[i], run[i + 1];
    NodeAt(run, gs, i, id);
    assert StepAt(run, i);
    var s :| NextStep(c, c', s);
    if RaftStepOf(c, c', s) {
      RaftMovesInOrder(c, c', s, id);
    } else if ApplierStepOf(c, c', s) {
      ApplierMovesInOrder(c, c', s, id);
    } else {
      if c.procs[id].channel != [] {
        FirstMessage(gs[i].retries, gs[i].h.log[id], c.procs[id]);
      }
      ServerMovesInOrder(c, c', s, id);
    }
  }

  // ---------------------------------------------------------------- end to end

  /** The server's queue is the fold of `decided` up to its position, and the node's committed
      entries are those of `decided`. */
  ghost predicate Serves(p: Proc, retries: int, decided: Log) {
    && p.server.position <= |decided|
    && ViewOf(p.server.machine) == Fold(retries, decided[..p.server.position])
    && WfLog(p.node.log)
    && forall x :: First(p.node.log) < x <= p.node.commit && x <= Last(p.node.log) ==>
         x <= |decided| && EntryAt(p.node.log, x) == decided[x - 1]
  }

  /** The entry that call `a` proposed is in `decided`, at the call's index. */
  predicate Logged(decided: Log, a: Proposal) {
    0 < a.index <= |decided| && decided[a.index - 1] == Entry(a.index, a.term, a.command)
  }

  ghost predicate ServesAll(c: Cluster, decided: Log) {
    && (forall id :: id in c.procs ==> Serves(c.procs[id], c.retries, decided))
    && (forall a :: a in c.acknowledged ==> Logged(decided, a))
  }

  /** `decided` explains every queue and every acknowledgement of the run. */
  ghost predicate OneLog(run: seq<Cluster>, decided: Log) {
    forall i :: 0 <= i < |run| ==> ServesAll(run[i], decided)
  }

  /** End to end: one log explains the whole run. Every queue on every node at every moment is
      the fold of its commands up to the server's position, whether the server got there by
      entries, by an installed snapshot or after a restart, and it holds every command a client
      was told had succeeded. */
  lemma EndToEnd(run: seq<Cluster>)
    requires IsRun(run)
    ensures exists decided: Log :: OneLog(run, decided)
  {
    hide Init, StepAt, ServesAll, Explains;
    var gs := RunHistory(run);
    var decided := gs[|run| - 1].decided;
    forall i | 0 <= i < |run| ensures ServesAll(run[i], decided) {
      StateServes(run, gs, i);
    }
    assert OneLog(run, decided);
  }

  lemma StateServes(run: seq<Cluster>, gs: seq<Ghost>, i: nat)
    requires Explains(run, gs) && i < |run|
    ensures ServesAll(run[i], gs[|run| - 1].decided)
  {
    hide ProcInv, GhostOk, Grows, Serves, NodeInv, MsgInv;
    var decided := gs[|run| - 1].decided;
    forall id | id in run[i].procs ensures Serves(run[i].procs[id], run[i].retries, decided) {
      CommittedIsDecided(run, gs, i, |run| - 1, id);
      NodeAt(run, gs, i, id);
      ProcServes(gs[i], id, run[i].procs[id], decided);
    }
    assert GhostGrows(gs[i], gs[|run| - 1]);
    forall a | a in run[i].acknowledged ensures Logged(decided, a) {
      assert ClusterInv(run[i], gs[i]);
      assert Answered(gs[i], a);
    }
  }

  lemma ProcServes(g: Ghost, id: Id, p: Proc, decided: Log)
    requires ProcInv(g, id, p) && p.node.commit <= |g.h.log[id]| && g.h.log[id][..p.node.commit] <= decided
    ensures Serves(p, g.retries, decided)
  {
    hide NodeInv, FlowOk, Fold, ViewOf, Keyed, SnapshotOf, Proposed;
    var l, at := g.h.log[id], p.server.position;
    NodeBasics(g, id, p.node);
    assert decided[..at] == l[..at];
    forall x | First(p.node.log) < x <= p.node.commit && x <= Last(p.node.log)
      ensures x <= |decided| && EntryAt(p.node.log, x) == decided[x - 1]
    {
      HeldEntry(g, id, p.node, x);
      assert l[..p.node.commit][x - 1] == decided[x - 1];
    }
  }

  /** The tasks on a server are all those its commands created: live, dead-lettered or acked. */
  ghost predicate AccountsFor(c: Cluster, id: Id, decided: Log)
    requires id in c.procs
  {
    var s := c.procs[id].server;
    && s.position <= |decided|
    && |s.machine.tasks| + |s.machine.dlq| + s.machine.acked == QueueRuns.Created(c.retries, decided[..s.position])
  }

  /** Conservation across the cluster: on every server at every moment, every task created up
      to the server's position in the one log is live, dead-lettered or acked, and only once. */
  lemma NothingLost(run: seq<Cluster>)
    requires IsRun(run)
    ensures exists decided: Log ::
              && OneLog(run, decided)
              && forall i, id :: 0 <= i < |run| && id in run[i].procs ==> AccountsFor(run[i], id, decided)
  {
    hide IsRun, Fold, ViewOf;
    EndToEnd(run);
    var decided :| OneLog(run, decided);
    forall i, id | 0 <= i < |run| && id in run[i].procs ensures AccountsFor(run[i], id, decided) {
      assert ServesAll(run[i], decided);
      assert Serves(run[i].procs[id], run[i].retries, decided);
      var s := run[i].procs[id].server;
      QueueRuns.Conservation(run[i].retries, decided[..s.position]);
      QueueRuns.AccountedOf(s.machine);
    }
  }

  /** Call `a` was answered with success by state `i`, it enqueues a task, and the server of `id`
      has come past its entry in state `j`. */
  ghost predicate Acknowledged(run: seq<Cluster>, i: int, j: int, id: Id, a: Proposal) {
    && 0 <= i < |run| && 0 <= j < |run| && a in run[i].acknowledged && QueueFate.AsksFor(a.command)
    && id in run[j].procs && a.index <= run[j].procs[id].server.position
  }

  ghost predicate Honours(c: Cluster, id: Id, decided: Log, a: Proposal)
    requires id in c.procs
  {
    var s := c.procs[id].server;
    && 0 < a.index <= s.position <= |decided|
    && decided[a.index - 1].command == a.command && QueueFate.AsksFor(a.command)
    && QueueFate.Honoured(c.retries, decided, a.index, s.position, s.machine)
  }

  /** At-least-once delivery across failover: one log explains the run, and in it every enqueue
      that a client was told had succeeded, at any moment, is honoured on every server that has
      come that far, at any moment: the task is live with its payload, or dead-lettered, or an
      entry in between acked it. */
  lemma AcknowledgedIsServed(run: seq<Cluster>)
    requires IsRun(run)
    ensures exists decided: Log ::
              && OneLog(run, decided)
              && forall i, j, id, a :: Acknowledged(run, i, j, id, a) ==> Honours(run[j], id, decided, a)
  {
    hide IsRun, Fold, ViewOf, QueueFate.Honoured;
    EndToEnd(run);
    var decided :| OneLog(run, decided);
    forall i, j, id, a | Acknowledged(run, i, j, id, a) ensures Honours(run[j], id, decided, a) {
      assert ServesAll(run[i], decided) && ServesAll(run[j], decided);
      assert Serves(run[j].procs[id], run[j].retries, decided);
      var s := run[j].procs[id].server;
      QueueFate.EnqueueHonoured(run[j].retries, decided, a.index, s.position, s.machine);
    }
  }

  /** The step from `c` to `c'` is the proposal of call `b` on node `id`. */
  ghost predicate Proposes(c: Cluster, c': Cluster, id: Id, b: Proposal) {
    && b.command.Some? && RaftStepOf(c, c', ClientCall(id, b.command.value))
    && b.index == Last(c.procs[id].node.log) + 1 && b.term == c.procs[id].node.term
  }

  /** What is decided at index `x` was in the log of the leader of its term. */
  lemma DecidedIsLed(g: Ghost, x: nat)
    requires GhostOk(g) && 0 < x <= |g.decided|
    ensures var t := g.decided[x - 1].term; t in g.h.lead && x <= |g.h.lead[t]|
  {
    var t: nat, i: nat :| CommittedAt(g.h, g.decided, g.bound, t, i);
    LeadMatches(g.h, t);
    assert MatchesAt(g.h, g.h.lead[t], x - 1);
  }

  /** Real-time order: a call proposed after another one returned success, on any node, that
      returns success in turn has the later entry in the one log. */
  lemma RealTimeOrder(run: seq<Cluster>, i: nat, j: nat, k: nat, id: Id, a: Proposal, b: Proposal)
    requires IsRun(run) && i <= j < k < |run|
    requires a in run[i].acknowledged && Proposes(run[j], run[j + 1], id, b) && b in run[k].acknowledged
    ensures a.index < b.index
  {
    hide IsRun, Explains, GhostOk, ProcInv, MsgInv, NodeInv, Grows;
    var gs := RunHistory(run);
    CallLogged(run, gs, i, j, a);
    CallLogged(run, gs, k, k, b);
    Growth(run, gs, j, k);
    NodeAt(run, gs, j, id);
    var g, n := gs[j], run[j].procs[id].node;
    LeaderLength(g, id, n);
    if b.index <= a.index {
      DecidedIsLed(g, b.index);
    }
  }

  lemma LeaderLength(g: Ghost, id: Id, n: Node)
    requires NodeInv(g, id, n) && n.role == Leader
    ensures WfLog(n.log) && n.term in g.h.lead && |g.h.lead[n.term]| == Last(n.log)
  {
    hide Rep, Safe, SnapOk, VotedOk;
    NodeBasics(g, id, n);
  }

  lemma Growth(run: seq<Cluster>, gs: seq<Ghost>, i: nat, j: nat)
    requires Explains(run, gs) && i <= j < |run|
    ensures GhostGrows(gs[i], gs[j])
  {
    hide ClusterInv, GhostGrows;
  }

  lemma CallLogged(run: seq<Cluster>, gs: seq<Ghost>, i: nat, j: nat, a: Proposal)
    requires Explains(run, gs) && i <= j < |run| && a in run[i].acknowledged
    ensures Logged(gs[j].decided, a)
  {
    hide GhostOk, ProcInv, MsgInv, Grows;
    assert ClusterInv(run[i], gs[i]);
    assert Answered(gs[i], a);
    assert GhostGrows(gs[i], gs[j]);
  }

  /** Two servers that reached the same position, on any nodes at any moments, agree. */
  lemma SamePositionSameQueue(run: seq<Cluster>, i: nat, j: nat, a: Id, b: Id)
    requires IsRun(run) && i < |run| && j < |run| && a in run[i].procs && b in run[j].procs
    requires run[i].procs[a].server.position == run[j].procs[b].server.position
    ensures ViewOf(run[i].procs[a].server.machine) == ViewOf(run[j].procs[b].server.machine)
  {
    hide IsRun, ViewOf, Fold, Explains;
    EndToEnd(run);
    var decided :| OneLog(run, decided);
    assert ServesAll(run[i], decided) && ServesAll(run[j], decided);
    assert run[i].retries == run[j].retries by { SameRetries(run, i, j); }
  }

  lemma SameRetries(run: seq<Cluster>, i: nat, j: nat)
    requires IsRun(run) && i < |run| && j < |run|
    ensures run[i].retries == run[j].retries
  {
    hide IsRun, GhostOk, Grows, ProcInv, MsgInv;
    var gs := RunHistory(run);
    assert ClusterInv(run[i], gs[i]) && ClusterInv(run[j], gs[j]);
    if i <= j {
      assert GhostGrows(gs[i], gs[j]);
    } else {
      assert GhostGrows(gs[j], gs[i]);
    }
  }
}
