/** Every step of the cluster keeps the invariant. */
module RaftSafety {
  import opened Tasks
  import opened QueueView
  import opened QueueMachine
  import opened RaftLog
  import opened RaftHistory
  import E = RaftEvents
  import opened RaftStep
  import opened RaftCompaction
  import opened RaftInvariant
  import opened RaftHandlers
  import opened RaftReplicationProof
  import opened RaftCluster
  import opened RaftDelivery

  /** An acknowledged client call is in the decided log. */
  ghost predicate Answered(g: Ghost, a: Proposal) {
    0 < a.index <= |g.decided| && g.decided[a.index - 1] == Entry(a.index, a.term, a.command)
  }

  ghost predicate ClusterInv(c: Cluster, g: Ghost) {
    && GhostOk(g)
    && c.procs.Keys == g.h.nodes
    && c.retries == g.retries
    && (forall id {:trigger ProcInv(g, id, c.procs[id])} :: id in c.procs ==> ProcInv(g, id, c.procs[id]))
    && (forall m {:trigger MsgInv(g, m)} :: m in c.net ==> MsgInv(g, m))
    && (forall a {:trigger Answered(g, a)} :: a in c.acknowledged ==> Answered(g, a))
  }

  // ---------------------------------------------------------------- steps

  /** One process moved from `g` to `g'` and sent `out`. */
  lemma OneMoves(c: Cluster, c': Cluster, g: Ghost, g': Ghost, id: Id, p': Proc, out: set<Msg>)
    requires ClusterInv(c, g) && ProcStep(c, c', id, p', out)
    requires GhostOk(g') && Local(g, g', id) && ProcInv(g', id, p')
    requires forall m :: m in out ==> MsgInv(g', m)
    ensures ClusterInv(c', g') && GhostGrows(g, g')
  {
    hide GhostOk, ProcInv, MsgInv, OnlyMoves, Grows;
    LocalGrows(g, g', id);
    assert c'.procs.Keys == c.procs.Keys;
    GrowsNodes(g.h, g'.h);
    forall q | q in c'.procs ensures ProcInv(g', q, c'.procs[q]) {
      if q != id {
        assert ProcInv(g, q, c.procs[q]);
        OtherKeepsDelivery(g, g', id, q, c.procs[q]);
      }
    }
    forall m | m in c'.net ensures MsgInv(g', m) {
      if m in c.net {
        assert MsgInv(g, m);
        MsgGrows(g, g', m);
      }
    }
    forall a | a in c'.acknowledged ensures Answered(g', a) {
      assert Answered(g, a);
    }
  }

  lemma GrowsNodes(h: History, h': History)
    requires Grows(h, h')
    ensures h'.nodes == h.nodes
  {
  }

  /** A Raft handler call on process `id`. */
  lemma HandlerMoves(c: Cluster, c': Cluster, g: Ghost, g': Ghost, id: Id, n': Node, out: set<Msg>)
    requires ClusterInv(c, g) && id in c.procs && ProcStep(c, c', id, c.procs[id].(node := n'), out)
    requires StepOk(g, g', id, c.procs[id].node, n')
    requires forall m :: m in out ==> MsgInv(g', m)
    ensures ClusterInv(c', g') && GhostGrows(g, g')
  {
    hide GhostOk, ProcInv, MsgInv, Local, StepOk;
    assert ProcInv(g, id, c.procs[id]);
    StepParts(g, g', id, c.procs[id].node, n');
    HandlerKeepsDelivery(g, g', id, c.procs[id], n');
    OneMoves(c, c', g, g', id, c.procs[id].(node := n'), out);
  }

  /** A step inside process `id` that the history does not see. */
  lemma QuietMoves(c: Cluster, c': Cluster, g: Ghost, id: Id, p': Proc)
    requires ClusterInv(c, g) && ProcStep(c, c', id, p', {}) && ProcInv(g, id, p')
    ensures ClusterInv(c', g) && GhostGrows(g, g)
  {
    hide GhostOk, ProcInv, MsgInv, Local;
    QuietStep(g, id);
    OneMoves(c, c', g, g, id, p', {});
  }

  lemma ProcFacts(g: Ghost, id: Id, p: Proc)
    requires ProcInv(g, id, p)
    ensures NodeInv(g, id, p.node)
    ensures forall a {:trigger Proposed(g.h, a)} :: a in Calls(p.server) ==> Proposed(g.h, a)
  {
  }

  lemma CommitAdvances(g: Ghost, g': Ghost, id: Id, n: Node, n': Node)
    requires StepOk(g, g', id, n, n')
    ensures n.commit <= n'.commit
  {
    hide GhostOk, NodeInv, Local;
  }

  lemma ReceiveInv(c: Cluster, c': Cluster, g: Ghost, m: Msg, n': Node, out: set<Msg>) returns (g': Ghost)
    requires ClusterInv(c, g) && m in c.net && m.to in c.procs && ReceiveStep(c, c', m, n', out)
    ensures ClusterInv(c', g') && GhostGrows(g, g')
    ensures c.procs[m.to].node.commit <= n'.commit
  {
    hide GhostOk, ProcInv, MsgInv, StepOk, HandleAppend, HandleInstall, HandleAppendReply, HandleInstallReply,
         HandleVoteReply, HandleVoteRequest, NodeInv;
    var id, n := m.to, c.procs[m.to].node;
    assert ProcInv(g, id, c.procs[id]) && MsgInv(g, m);
    ProcFacts(g, id, c.procs[id]);
    match m {
      case VoteRequest(_, _, _, _, _) => g' := VoteRequestStep(g, id, n, m);
      case VoteReply(_, _, _, _, _) => g' := VoteReplyStep(g, id, n, m);
      case AppendRequest(_, _, _, _, _, _, _) => g' := AppendStep(g, id, n, m);
      case AppendReply(_, _, _, _, _, _, _, _) => g' := AppendReplyStep(g, id, n, m);
      case InstallRequest(_, _, _, _, _, _) => g' := InstallStep(g, id, n, m);
      case InstallReply(_, _, _, _, _) => g' := InstallReplyStep(g, id, n, m);
    }
    HandlerMoves(c, c', g, g', id, n', out);
    CommitAdvances(g, g', id, n, n');
  }

  lemma ClientCallInv(c: Cluster, c': Cluster, g: Ghost, id: Id, op: QueueOp) returns (g': Ghost)
    requires ClusterInv(c, g) && RaftStepOf(c, c', ClientCall(id, op))
    ensures ClusterInv(c', g') && GhostGrows(g, g')
  {
    hide GhostOk, MsgInv, StepOk, FlowOk, QueueOk, NodeInv, Local, Propose;
    var p := c.procs[id];
    assert ProcInv(g, id, p);
    g' := ProposeStep(g, id, p.node, Some(op));
    NodeBasics(g, id, p.node);
    var n' := Propose(p.node, Some(op));
    StepParts(g, g', id, p.node, n');
    HandlerKeepsDelivery(g, g', id, p, n');
    var call := Proposal(Last(p.node.log) + 1, p.node.term, Some(op));
    var p1, p' := p.(node := n'), p.(node := n', server := p.server.(issued := p.server.issued + {call}));
    SameServer(g'.retries, g'.h.log[id], p1, p');
    OneMoves(c, c', g, g', id, p', {});
  }

  /** Client calls are not part of delivery. */
  lemma SameServer(retries: int, log: Log, p: Proc, p': Proc)
    requires FlowOk(retries, log, p) && QueueOk(retries, log, p)
    requires p' == p.(server := p.server.(waiting := p'.server.waiting, issued := p'.server.issued))
    ensures FlowOk(retries, log, p') && QueueOk(retries, log, p')
  {
    hide Ordered, Truthful, SnapshotOf, Fold;
    assert Undelivered(p') == Undelivered(p);
  }

  lemma RaftInv(c: Cluster, c': Cluster, g: Ghost, s: Step) returns (g': Ghost)
    requires ClusterInv(c, g) && RaftStepOf(c, c', s)
    ensures ClusterInv(c', g') && GhostGrows(g, g')
  {
    hide GhostOk, ProcInv, MsgInv, StepOk, NodeInv, Local, VoteRequestTo, StartElection, Replicate, Received, StartProc;
    match s
    case ElectionTimeout(id) =>
      var p := c.procs[id];
      assert ProcInv(g, id, p);
      ProcFacts(g, id, p);
      g' := StartElectionStep(g, id, p.node);
      var n' := StartElection(p.node);
      SamePeers(p.node);
      HandlerMoves(c, c', g, g', id, n', set q | q in n'.peers :: VoteRequestTo(n', q));
    case Receive(m) =>
      var n', out :| ReceiveStep(c, c', m, n', out);
      g' := ReceiveInv(c, c', g, m, n', out);
    case SendTo(id, peer) =>
      var p := c.procs[id];
      assert ProcInv(g, id, p);
      ProcFacts(g, id, p);
      ReplicateOk(g, id, p.node, peer);
      QuietStep(g, id);
      g' := g;
      OneMoves(c, c', g, g, id, p, {Replicate(p.node, peer).value});
    case SendInstall(id, peer) =>
      var p := c.procs[id];
      assert ProcInv(g, id, p);
      ProcFacts(g, id, p);
      InstallRequestOk(g, id, p.node, peer);
      QuietStep(g, id);
      g' := g;
      OneMoves(c, c', g, g, id, p, {SnapshotFor(p.node, peer).value});
    case ClientCall(id, op) => g' := ClientCallInv(c, c', g, id, op);
    case Crash(id) =>
      assert ProcInv(g, id, c.procs[id]);
      CrashOk(g, id, c.procs[id]);
      g' := g;
      QuietMoves(c, c', g, id, StartProc(Restart(c.procs[id].node), c.retries));
  }

  lemma SamePeers(n: Node)
    ensures StartElection(n).peers == n.peers && StartElection(n).log == n.log
  {
  }

  lemma ApplierInv(c: Cluster, c': Cluster, g: Ghost, s: Step)
    requires ClusterInv(c, g) && ApplierStepOf(c, c', s)
    ensures ClusterInv(c', g) && GhostGrows(g, g)
  {
    hide GhostOk, ProcInv, MsgInv, PendingTaken, NextBatch, EntrySent, EntryCounted;
    var id := s.id;
    var p := c.procs[id];
    assert ProcInv(g, id, p);
    match s {
      case TakePending(_) => TakePendingOk(g, id, p);
      case TakeBatch(_) => TakeBatchOk(g, id, p);
      case SendSnapshot(_) => SendSnapshotOk(g, id, p);
      case SendEntry(_) => SendEntryOk(g, id, p);
      case EndBatch(_) => EndBatchOk(g, id, p);
      case CountEntry(_) => CountEntryOk(g, id, p);
    }
    QuietMoves(c, c', g, id, c'.procs[id]);
  }

  lemma ConsumeInv(c: Cluster, c': Cluster, g: Ghost, id: Id, done: set<Proposal>, data: SnapshotState)
    requires ClusterInv(c, g) && ServerStepOf(c, c', ConsumeEntry(id, done, data))
    ensures ClusterInv(c', g) && GhostGrows(g, g)
  {
    hide GhostOk, ProcInv, MsgInv, EntryConsumed;
    var p := c.procs[id];
    var s' :| ConsumeStep(c, c', id, done, data, s');
    var p' := p.(channel := p.channel[1..], server := s');
    assert ProcInv(g, id, p);
    ConsumeEntryOk(g, id, p, done, data, c.threshold, s');
    var c1 := c.(procs := c.procs[id := p'], net := c.net + {});
    QuietMoves(c, c1, g, id, p');
    forall a | a in c'.acknowledged ensures Answered(g, a) {
      if a in c.acknowledged {
        assert Answered(g, a);
      } else {
        DoneIsWaiting(p.server, p.channel[0].entry, done, data, c.threshold, s', a);
        AnsweredIsDecided(g, id, p, a);
      }
    }
    assert c'.net == c1.net;
  }

  lemma DoneIsWaiting(s: Server, e: Entry, done: set<Proposal>, data: SnapshotState, threshold: nat, s': Server,
                      a: Proposal)
    requires EntryConsumed(s, e, done, data, threshold, s') && a in done
    ensures a in s.waiting && a.index == e.index && a.term == e.term
  {
  }

  lemma ServerInv(c: Cluster, c': Cluster, g: Ghost, s: Step)
    requires ClusterInv(c, g) && ServerStepOf(c, c', s)
    ensures ClusterInv(c', g) && GhostGrows(g, g)
  {
    hide GhostOk, MsgInv, FlowOk, NodeInv, EntryConsumed, SnapshotConsumed, TakeSnapshot, DequeueStep,
         Requeue, ViewOf, Keyed, Fold;
    var id := s.id;
    var p := c.procs[id];
    assert ProcInv(g, id, p);
    match s
    case ConsumeSnapshot(_) =>
      ConsumeSnapshotOk(g, id, p);
      QuietMoves(c, c', g, id, c'.procs[id]);
    case ConsumeEntry(_, done, data) => ConsumeInv(c, c', g, id, done, data);
    case Register(_, call) =>
      SameServer(g.retries, g.h.log[id], p, p.(server := Registered(p.server, call)));
      QuietMoves(c, c', g, id, c'.procs[id]);
    case OfferSnapshot(_) =>
      OfferSnapshotOk(g, id, p);
      QuietMoves(c, c', g, id, c'.procs[id]);
    case DequeueTask(_, deadline, machine, task) =>
      DequeueKeepsView(p.server.machine, deadline, machine, task);
      OverlayOk(g, id, p, machine);
      QuietMoves(c, c', g, id, c'.procs[id]);
    case LoseLeadership(_) =>
      RequeueKeepsView(p.server.machine);
      OverlayOk(g, id, p, Requeue(p.server.machine));
      QuietMoves(c, c', g, id, c'.procs[id]);
  }

  /** Every step of the cluster keeps the invariant, and the history only grows. */
  lemma NextInv(c: Cluster, c': Cluster, g: Ghost) returns (g': Ghost)
    requires ClusterInv(c, g) && Next(c, c')
    ensures ClusterInv(c', g') && GhostGrows(g, g')
  {
    hide ClusterInv, GhostGrows, RaftStepOf, ApplierStepOf, ServerStepOf;
    var s :| NextStep(c, c', s);
    if RaftStepOf(c, c', s) {
      g' := RaftInv(c, c', g, s);
    } else if ApplierStepOf(c, c', s) {
      ApplierInv(c, c', g, s);
      g' := g;
    } else {
      ServerInv(c, c', g, s);
      g' := g;
    }
  }

  lemma InitInv(c: Cluster) returns (g: Ghost)
    requires Init(c)
    ensures ClusterInv(c, g)
  {
    var h := E.Start(c.procs.Keys);
    E.StartOk(c.procs.Keys);
    g := Ghost(h, [], 0, c.retries);
    forall id | id in c.procs ensures ProcInv(g, id, c.procs[id]) {
      InitProc(g, id, c.procs.Keys);
    }
  }

  lemma InitProc(g: Ghost, id: Id, nodes: set<Id>)
    requires g.h == E.Start(nodes) && g.decided == [] && id in nodes
    ensures ProcInv(g, id, StartProc(NewNode(id, nodes - {id}), g.retries))
  {
    hide Inv, ViewOf, Keyed, Fold, Ordered, Truthful;
    var n := NewNode(id, nodes - {id});
    assert NodeInv(g, id, n);
    FreshFlow(g, id, n);
    FreshQueue(g.retries);
    assert g.h.log[id][..0] == [];
  }
}
