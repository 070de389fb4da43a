/** The cluster is never stuck: from every reachable state, whatever was lost, delayed or crashed,
    there is a continuation in which a client's call returns success. */
module RaftAnswer {
  import opened Tasks
  import opened QueueView
  import opened QueueMachine
  import opened RaftLog
  import opened RaftHistory
  import opened RaftStep
  import opened RaftCompaction
  import opened RaftInvariant
  import opened RaftReplicationProof
  import opened RaftCluster
  import RaftDelivery
  import opened RaftSafety
  import opened RaftTheorems
  import opened RaftElection
  import opened RaftCatchUp

  // ---------------------------------------------------------------- the call

  /** Process `id` after its call `call` started to wait; nothing else has happened to it. */
  ghost predicate Waits(p: Proc, retries: int, call: Proposal) {
    && p.applier == Idle && p.channel == []
    && p.server == Server(NewMachine(retries), 0, 0, None, {call}, {})
    && WfLog(p.node.log) && First(p.node.log) < call.index == Last(p.node.log)
    && EntryAt(p.node.log, call.index) == Entry(call.index, call.term, call.command)
    && p.node.applied == First(p.node.log)
  }

  lemma Proposes(c: Cluster, id: Id, t: nat, op: QueueOp) returns (c1: Cluster, c2: Cluster, call: Proposal)
    requires RaftElection.Leads(c, id, t) && JustStarted(c.procs[id], c.retries) && NodeFacts(c, id)
    ensures call.command == Some(op) && call.term == t
    ensures NextStep(c, c1, ClientCall(id, op)) && NextStep(c1, c2, Register(id, call))
    ensures RaftElection.Leads(c2, id, t) && c2.procs.Keys == c.procs.Keys && c2 == c.(procs := c2.procs)
    ensures Waits(c2.procs[id], c2.retries, call) && c2.procs[id].node.peers == c.procs[id].node.peers
  {
    hide NewMachine;
    var p := c.procs[id];
    var n' := Propose(p.node, Some(op));
    call := Proposal(Last(p.node.log) + 1, t, Some(op));
    var p1 := p.(node := n', server := p.server.(issued := p.server.issued + {call}));
    c1 := c.(procs := c.procs[id := p1], net := c.net + {});
    assert c.net + {} == c.net;
    assert RaftStepOf(c, c1, ClientCall(id, op));
    var p2 := p1.(server := Registered(p1.server, call));
    c2 := c1.(procs := c1.procs[id := p2], net := c1.net + {});
    assert p1.server.issued == {call} && p2.server.issued == {} && p2.server.waiting == {call};
    assert ServerStepOf(c1, c2, Register(id, call));
  }

  lemma ClientCalls(run: seq<Cluster>, id: Id, t: nat, op: QueueOp)
    returns (run': seq<Cluster>, call: Proposal)
    requires IsRun(run) && RaftElection.Leads(Now(run), id, t) && JustStarted(Now(run).procs[id], Now(run).retries)
    ensures GoesOn(run, run') && call.command == Some(op) && call.term == t
    ensures RaftElection.Leads(Now(run'), id, t) && Waits(Now(run').procs[id], Now(run').retries, call)
    ensures Now(run').procs[id].node.peers == Now(run).procs[id].node.peers
  {
    hide Init, StepAt, GoesOn, NextStep, NodeFacts, Waits;
    FactsOf(run, id);
    var c1, c2;
    c1, c2, call := Proposes(Now(run), id, t, op);
    var run1 := OneStepOn(run, c1, ClientCall(id, op));
    GoesOnParts(run, run1);
    run' := OneStepOn(run1, c2, Register(id, call));
    GoesFurther(run, run1, run');
    GoesOnParts(run, run');
  }

  // ---------------------------------------------------------------- what is on its way

  /** The call's entry is known to be committed and the next batch will have it. */
  ghost predicate Due(p: Proc, call: Proposal) {
    && p.applier == Idle && p.channel == [] && p.server.call.None? && call in p.server.waiting && p.node.pending.None?
    && WfLog(p.node.log) && First(p.node.log) <= p.node.applied < call.index <= p.node.commit <= Last(p.node.log)
    && EntryAt(p.node.log, call.index) == Entry(call.index, call.term, call.command)
  }

  lemma CommittedIsDue(p: Proc, p': Proc, retries: int, call: Proposal)
    requires Waits(p, retries, call) && p' == p.(node := p'.node) && KnowsMore(p.node, p'.node)
    requires p'.node.commit == Last(p'.node.log) && p'.node.pending.None?
    ensures Due(p', call)
  {
  }

  /** A snapshot that waits for delivery is delivered first. */
  lemma SnapshotFirst(c: Cluster, id: Id, call: Proposal) returns (c1: Cluster, c2: Cluster, c3: Cluster)
    requires id in c.procs && c.procs[id].node.pending.Some?
    requires var p := c.procs[id];
             && p.applier == Idle && p.channel == [] && p.server.call.None? && call in p.server.waiting
             && p.node.pending.value.index == p.node.applied
             && Due(p.(node := p.node.(pending := None)), call)
    ensures NextStep(c, c1, TakePending(id)) && NextStep(c1, c2, SendSnapshot(id))
    ensures NextStep(c2, c3, ConsumeSnapshot(id))
    ensures id in c3.procs && Due(c3.procs[id], call)
  {
    hide Restore;
    var p := c.procs[id];
    var p1 := PendingTaken(p);
    c1 := c.(procs := c.procs[id := p1], net := c.net + {});
    assert ApplierStepOf(c, c1, TakePending(id));
    var p2 := p1.(applier := Idle, channel := p1.channel + [SnapshotMsg(p1.applier.install)]);
    c2 := c1.(procs := c1.procs[id := p2], net := c1.net + {});
    assert ApplierStepOf(c1, c2, SendSnapshot(id));
    var p3 := SnapshotConsumed(p2);
    c3 := c2.(procs := c2.procs[id := p3], net := c2.net + {});
    assert ServerStepOf(c2, c3, ConsumeSnapshot(id));
    assert p3.channel == [];
  }

  lemma PendingIndex(run: seq<Cluster>, id: Id)
    requires IsRun(run) && id in Now(run).procs
    ensures var n := Now(run).procs[id].node; |n.log| > 0 && (n.pending.Some? ==> n.pending.value.index == First(n.log))
    ensures Keyed(Now(run).procs[id].server.machine)
  {
    hide Init, StepAt, GhostOk, Rep, Safe, SnapshotOf, VotedOk, CandidateOk, LeaderOk, RaftDelivery.FlowOk, Explains,
         Keyed, ViewOf, Fold, RaftDelivery.Proposed;
    var gs := RunHistory(run);
    NodeAt(run, gs, |run| - 1, id);
  }

  lemma ComesDue(run: seq<Cluster>, id: Id, call: Proposal, c0: Cluster) returns (run': seq<Cluster>)
    requires IsRun(run) && Worked(c0, Now(run), id) && Waits(c0.procs[id], c0.retries, call)
    requires Now(run).procs[id].node.commit == Last(Now(run).procs[id].node.log)
    ensures GoesOn(run, run') && id in Now(run').procs && Due(Now(run').procs[id], call)
  {
    hide Init, StepAt, GoesOn, NextStep;
    var c := Now(run);
    var p := c.procs[id];
    PendingIndex(run, id);
    if p.node.pending.None? {
      CommittedIsDue(c0.procs[id], p, c0.retries, call);
      run' := run;
      StartsHere(run);
    } else {
      var q := p.(node := p.node.(pending := None));
      WithoutPending(c0.procs[id], p, c0.retries, call);
      var c1, c2, c3 := SnapshotFirst(c, id, call);
      var run1 := OneStepOn(run, c1, TakePending(id));
      GoesOnParts(run, run1);
      var run2 := OneStepOn(run1, c2, SendSnapshot(id));
      GoesOnParts(run1, run2);
      run' := OneStepOn(run2, c3, ConsumeSnapshot(id));
      GoesFurther(run, run1, run2);
      GoesFurther(run, run2, run');
    }
  }

  lemma WithoutPending(p: Proc, p': Proc, retries: int, call: Proposal)
    requires Waits(p, retries, call) && p' == p.(node := p'.node) && KnowsMore(p.node, p'.node)
    requires p'.node.commit == Last(p'.node.log)
    ensures Due(p'.(node := p'.node.(pending := None)), call)
  {
  }

  // ---------------------------------------------------------------- the apply loop

  /** The applier has the call's entry in its batch, and nothing is ahead of the batch. */
  ghost predicate InBatch(p: Proc, call: Proposal) {
    && p.applier.Delivering? && p.channel == [] && p.server.call.None? && call in p.server.waiting
    && var b := p.applier.batch;
       && b != [] && b[0].index <= call.index < b[0].index + |b|
       && (forall k :: 0 <= k < |b| ==> b[k].index == b[0].index + k)
       && b[call.index - b[0].index] == Entry(call.index, call.term, call.command)
  }

  lemma TakesBatch(c: Cluster, id: Id, call: Proposal) returns (c': Cluster)
    requires id in c.procs && Due(c.procs[id], call)
    ensures NextStep(c, c', TakeBatch(id)) && id in c'.procs && InBatch(c'.procs[id], call)
  {
    var p := c.procs[id];
    var n := p.node;
    c' := c.(procs := c.procs[id := p.(applier := Delivering(NextBatch(n)))], net := c.net + {});
    assert ApplierStepOf(c, c', TakeBatch(id));
    var b := NextBatch(n);
    assert forall k :: 0 <= k < |b| ==> b[k] == EntryAt(n.log, n.applied + 1 + k);
  }

  /** Some snapshot of a queue exists. */
  lemma {:induction false} SomeListing(m: Machine, ids: set<string>) returns (ts: seq<Task>)
    requires Keyed(m) && ids <= m.tasks.Keys
    ensures forall i, j :: 0 <= i < j < |ts| ==> ts[i].id != ts[j].id
    ensures forall i :: 0 <= i < |ts| ==> ts[i].id in ids && ts[i] == Core(m.tasks[ts[i].id].task)
    ensures forall id :: id in ids ==> exists i :: 0 <= i < |ts| && ts[i].id == id
    decreases ids
  {
    if ids == {} {
      ts := [];
    } else {
      var id :| id in ids;
      var rest := SomeListing(m, ids - {id});
      ts := rest + [Core(m.tasks[id].task)];
      assert ts[|rest|].id == id;
      forall x | x in ids ensures exists i :: 0 <= i < |ts| && ts[i].id == x {
        if x != id {
          assert x in ids - {id};
          var i :| 0 <= i < |rest| && rest[i].id == x;
          assert ts[i].id == x;
        }
      }
    }
  }

  lemma SomeSnapshot(m: Machine) returns (d: SnapshotState)
    requires Keyed(m)
    ensures IsSnapshot(m, d)
  {
    var ts := SomeListing(m, m.tasks.Keys);
    d := SnapshotState(ts, m.dlq, m.acked);
  }

  function Answered(call: Proposal, e: Entry): set<Proposal> {
    if e.index == call.index && e.term == call.term then {call} else {}
  }

  /** The applier sends the first entry of its batch and counts it. */
  lemma SendsEntry(c: Cluster, id: Id, call: Proposal) returns (c1: Cluster, c2: Cluster)
    requires id in c.procs && InBatch(c.procs[id], call)
    ensures NextStep(c, c1, SendEntry(id)) && NextStep(c1, c2, CountEntry(id))
    ensures id in c2.procs && c2.acknowledged == c.acknowledged && c2.threshold == c.threshold
    ensures var p, p2 := c.procs[id], c2.procs[id];
            && p2.applier == Delivering(p.applier.batch[1..]) && p2.channel == [CommandMsg(p.applier.batch[0])]
            && p2.server == p.server
  {
    var p := c.procs[id];
    var p1 := EntrySent(p);
    c1 := c.(procs := c.procs[id := p1], net := c.net + {});
    assert ApplierStepOf(c, c1, SendEntry(id));
    var p2 := EntryCounted(p1);
    c2 := c1.(procs := c1.procs[id := p2], net := c1.net + {});
    assert ApplierStepOf(c1, c2, CountEntry(id));
    assert p1.channel == [CommandMsg(p.applier.batch[0])];
  }

  /** The server takes it, and answers the call if it is the call's entry. */
  lemma TakesEntry(c: Cluster, id: Id, call: Proposal, e: Entry, data: SnapshotState) returns (c': Cluster)
    requires id in c.procs && c.procs[id].channel == [CommandMsg(e)] && c.procs[id].server.call.None?
    requires call in c.procs[id].server.waiting
    requires var s := c.procs[id].server;
             IsSnapshot(if e.command.Some? then Apply(s.machine, e.command.value) else s.machine, data)
    ensures NextStep(c, c', ConsumeEntry(id, Answered(call, e), data))
    ensures c'.acknowledged == c.acknowledged + Answered(call, e) && id in c'.procs
    ensures var p, p' := c.procs[id], c'.procs[id];
            && p'.applier == p.applier && p'.channel == [] && (e.index != call.index ==> call in p'.server.waiting)
  {
    hide Apply, IsSnapshot;
    var p := c.procs[id];
    var s, done := p.server, Answered(call, e);
    var m' := if e.command.Some? then Apply(s.machine, e.command.value) else s.machine;
    var needed := c.threshold > 0 && s.sinceSnapshot + 1 >= c.threshold;
    var s' := Server(m', e.index, if needed then 0 else s.sinceSnapshot + 1,
                     if needed then Some(SnapshotCall(e.index, data)) else None,
                     (set x | x in s.waiting && x.index != e.index), s.issued);
    assert EntryConsumed(s, e, done, data, c.threshold, s');
    c' := c.(procs := c.procs[id := p.(channel := p.channel[1..], server := s')],
             acknowledged := c.acknowledged + done);
    assert ConsumeStep(c, c', id, done, data, s');
    assert ServerStepOf(c, c', ConsumeEntry(id, done, data));
  }

  /** A snapshot that the apply loop wants to hand to Raft is handed over. */
  lemma HandsOver(run: seq<Cluster>, id: Id) returns (run': seq<Cluster>)
    requires IsRun(run) && id in Now(run).procs
    ensures GoesOn(run, run') && id in Now(run').procs && Now(run').acknowledged == Now(run).acknowledged
    ensures var p, p' := Now(run).procs[id], Now(run').procs[id];
            && p'.applier == p.applier && p'.channel == p.channel && p'.server == p.server.(call := None)
  {
    hide Init, StepAt, GoesOn, TakeSnapshot;
    var c := Now(run);
    var p := c.procs[id];
    FactsOf(run, id);
    if p.server.call.None? {
      run' := run;
      StartsHere(run);
    } else {
      var n' := TakeSnapshot(p.node, p.server.call.value.index, p.server.call.value.data);
      var c' := c.(procs := c.procs[id := p.(node := n', server := p.server.(call := None))], net := c.net + {});
      assert ServerStepOf(c, c', OfferSnapshot(id));
      run' := OneStepOn(run, c', OfferSnapshot(id));
    }
  }

  /** One entry of the batch, from the applier to the server. */
  lemma OneEntry(run: seq<Cluster>, id: Id, call: Proposal) returns (run': seq<Cluster>)
    requires IsRun(run) && id in Now(run).procs && InBatch(Now(run).procs[id], call)
    ensures GoesOn(run, run') && id in Now(run').procs
    ensures var b := Now(run).procs[id].applier.batch;
            || call in Now(run').acknowledged
            || (InBatch(Now(run').procs[id], call) && Now(run').procs[id].applier.batch == b[1..])
  {
    hide Init, StepAt, GoesOn, NextStep, Keyed, IsSnapshot;
    var c := Now(run);
    var b := c.procs[id].applier.batch;
    var c1, c2 := SendsEntry(c, id, call);
    var run1 := OneStepOn(run, c1, SendEntry(id));
    GoesOnParts(run, run1);
    var run2 := OneStepOn(run1, c2, CountEntry(id));
    GoesOnParts(run1, run2);
    PendingIndex(run2, id);
    var m := c2.procs[id].server.machine;
    var d := SnapshotAfter(m, b[0].command);
    var c3 := TakesEntry(c2, id, call, b[0], d);
    var run3 := OneStepOn(run2, c3, ConsumeEntry(id, Answered(call, b[0]), d));
    GoesOnParts(run2, run3);
    run' := HandsOver(run3, id);
    GoesFurther(run, run1, run2);
    GoesFurther(run, run2, run3);
    GoesFurther(run, run3, run');
    GoesOnParts(run, run');
    if b[0].index != call.index {
      assert b[1..][call.index - b[1].index] == b[call.index - b[0].index];
    }
  }

  lemma SnapshotAfter(m: Machine, command: Command) returns (d: SnapshotState)
    requires Keyed(m)
    ensures IsSnapshot(if command.Some? then Apply(m, command.value) else m, d)
  {
    hide IsSnapshot, Apply, Keyed;
    if command.Some? {
      ApplyRefines(m, command.value);
      d := SomeSnapshot(Apply(m, command.value));
    } else {
      d := SomeSnapshot(m);
    }
  }

  /** The whole batch up to the call's entry. */
  lemma {:induction false} Drains(run: seq<Cluster>, id: Id, call: Proposal) returns (run': seq<Cluster>)
    requires IsRun(run) && id in Now(run).procs && InBatch(Now(run).procs[id], call)
    ensures GoesOn(run, run') && call in Now(run').acknowledged
    decreases |Now(run).procs[id].applier.batch|
  {
    hide Init, StepAt, GoesOn;
    var run1 := OneEntry(run, id, call);
    GoesOnParts(run, run1);
    if call in Now(run1).acknowledged {
      run' := run1;
    } else {
      run' := Drains(run1, id, call);
      GoesFurther(run, run1, run');
    }
  }

  // ---------------------------------------------------------------- the theorem

  /** No call of a term that no node has reached was answered. */
  lemma NewTermIsNew(run: seq<Cluster>, call: Proposal)
    requires IsRun(run) && forall q :: q in Now(run).procs ==> Now(run).procs[q].node.term < call.term
    ensures call !in Now(run).acknowledged
  {
    hide Init, StepAt, RaftDelivery.ProcInv, GhostOk, NodeInv, Explains;
    var gs := RunHistory(run);
    var k := |run| - 1;
    if call in run[k].acknowledged {
      CallLogged(run, gs, k, k, call);
      StateExplained(run, gs, k);
      OldTerm(run[k], gs[k], call);
      var q :| q in run[k].procs && call.term <= gs[k].h.term[q];
      NodeAt(run, gs, k, q);
      TermOfNode(gs[k], q, run[k].procs[q].node);
    }
  }

  lemma TermOfNode(g: Ghost, id: Id, n: Node)
    requires NodeInv(g, id, n)
    ensures id in g.h.term && n.term == g.h.term[id]
  {
  }

  lemma OldTerm(c: Cluster, g: Ghost, call: Proposal)
    requires ClusterInv(c, g) && Logged(g.decided, call)
    ensures Domains(g.h) && exists q :: q in c.procs && q in g.h.term && call.term <= g.h.term[q]
  {
    hide RaftDelivery.ProcInv, MsgInv;
    DecidedIsLed(g, call.index);
    assert LeadOk(g.h, call.term);
    var q := g.h.leader[call.term];
    assert q in c.procs;
  }

  /** Whatever state a cluster of at least two nodes is in, a client's call with any command can
      still be proposed in a new term, committed, applied and answered with success. */
  lemma AnyCallCanSucceed(run: seq<Cluster>, op: QueueOp) returns (run': seq<Cluster>, call: Proposal)
    requires IsRun(run) && |Now(run).procs| >= 2
    ensures GoesOn(run, run')
    ensures call.command == Some(op) && call in Now(run').acknowledged && call !in Now(run).acknowledged
    ensures forall q :: q in Now(run).procs ==> Now(run).procs[q].node.term < call.term
  {
    hide Init, StepAt, GoesOn, Waits, Due, InBatch, JustStarted, NextStep, Worked;
    var run1, id, t := ElectionCanBeWon(run);
    GoesOnParts(run, run1);
    var run2;
    run2, call := ClientCalls(run1, id, t, op);
    GoesOnParts(run1, run2);
    WaitsFacts(Now(run2).procs[id], Now(run2).retries, call);
    var run3 := EverythingCanBeCommitted(run2, id, t);
    GoesOnParts(run2, run3);
    var run4 := ComesDue(run3, id, call, Now(run2));
    GoesOnParts(run3, run4);
    var c5 := TakesBatch(Now(run4), id, call);
    var run5 := OneStepOn(run4, c5, TakeBatch(id));
    GoesOnParts(run4, run5);
    run' := Drains(run5, id, call);
    GoesFurther(run, run1, run2);
    GoesFurther(run, run2, run3);
    GoesFurther(run, run3, run4);
    GoesFurther(run, run4, run5);
    GoesFurther(run, run5, run');
    GoesOnParts(run, run');
    NewTermIsNew(run, call);
  }

  lemma WaitsFacts(p: Proc, retries: int, call: Proposal)
    requires Waits(p, retries, call)
    ensures |p.node.log| > 0 && First(p.node.log) < Last(p.node.log)
  {
  }
}
