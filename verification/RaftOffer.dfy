/** The snapshot call of the apply loop against the applier's bookkeeping: when Raft takes the
    snapshot it is offered, and a run in which it does not (raft/replication.go,
    raft/snapshot.go, server/cluster.go). */
module RaftOffer {
  import opened Tasks
  import opened QueueMachine
  import opened RaftLog
  import opened RaftHistory
  import opened RaftStep
  import opened RaftInvariant
  import opened RaftReplicationProof
  import opened RaftCluster
  import opened RaftDelivery
  import opened RaftSafety
  import opened RaftTheorems

  /** The applier has sent entry `i` and not counted it as applied yet. */
  predicate Uncounted(p: Proc, i: nat) {
    p.applier.Counting? && p.applier.index == i
  }

  /** Short of a snapshot beyond it, the server's position is applied unless its entry has not
      been counted yet. */
  lemma PositionApplied(g: Ghost, id: Id, p: Proc)
    requires ProcInv(g, id, p) && |p.node.log| > 0 && First(p.node.log) < p.server.position
    ensures p.server.position <= p.node.applied <==> !Uncounted(p, p.server.position)
  {
    hide QueueOk, Truthful, Proposed, SnapshotOf, LogOk, CandidateOk, LeaderOk;
    var at := p.server.position;
    EndGrows(at, p.channel, Outbox(p.applier));
    if p.applier.Restoring? {
      assert Undelivered(p)[|p.channel|] == SnapshotMsg(p.applier.install);
      assert Fits(RaftDelivery.Before(at, Undelivered(p), |p.channel|), SnapshotMsg(p.applier.install));
      assert RaftDelivery.Before(at, Undelivered(p), |p.channel|) == End(at, p.channel);
    }
  }

  /** In every reachable state, the snapshot that the apply loop offers is taken if and only if
      the log is not compacted that far and the applier has counted the entry as applied. */
  lemma OfferTakenExactly(run: seq<Cluster>, i: nat, id: Id)
    requires IsRun(run) && i < |run| && id in run[i].procs && run[i].procs[id].server.call.Some?
    ensures var p := run[i].procs[id];
            var n, call := p.node, p.server.call.value;
            && WfLog(n.log) && n.applied <= Last(n.log) && call.index == p.server.position
            && (TakeSnapshot(n, call.index, call.data) != n <==>
                  First(n.log) < call.index && !Uncounted(p, call.index))
            && (TakeSnapshot(n, call.index, call.data) != n ==>
                  var n' := TakeSnapshot(n, call.index, call.data);
                  |n'.log| > 0 && First(n'.log) == call.index && n'.snapshot == Some(call.data))
  {
    hide IsRun, GhostOk, FlowOk, NodeInv, SnapshotOf, Proposed, Explains;
    var gs := RunHistory(run);
    var p := run[i].procs[id];
    NodeAt(run, gs, i, id);
    NodeBasics(gs[i], id, p.node);
    if First(p.node.log) < p.server.position {
      PositionApplied(gs[i], id, p);
    }
  }

  // ---------------------------------------------------------------- an offer that is dropped

  const NO_OP := Entry(1, 1, None)
  const SENTINEL := Entry(0, 0, None)
  const EMPTY_QUEUE := SnapshotState([], [], 0)

  const VOTE_REQUEST := VoteRequest("a", "b", 1, 0, 0)
  const VOTE_REPLY := VoteReply("b", "a", 1, true, 1)
  const APPEND := AppendRequest("a", "b", 1, 0, 0, [NO_OP], 0)
  const APPEND_REPLY := AppendReply("b", "a", 1, true, 0, 0, 1, 1)

  /** Node "a" as candidate, as new leader, and after its no-op is committed. */
  const CANDIDATE := NewNode("a", {"b"}).(role := Candidate, term := 1, votedFor := "a", votes := {"a"})
  const LEADER := CANDIDATE.(votes := {"a", "b"}, role := Leader, leaderId := "a", next := map["b" := 1],
                             matched := map["b" := 0, "a" := 1], log := [SENTINEL, NO_OP])
  const COMMITTED := LEADER.(matched := map["b" := 1, "a" := 1], next := map["b" := 2], commit := 1)

  /** Node "b" after its vote, and after it took the no-op. */
  const VOTER := NewNode("b", {"a"}).(term := 1, votedFor := "a")
  const HOLDER := VOTER.(leaderId := "a", log := [SENTINEL, NO_OP])

  lemma Elected()
    ensures StartElection(NewNode("a", {"b"})) == CANDIDATE && VoteRequestTo(CANDIDATE, "b") == VOTE_REQUEST
    ensures HandleVoteRequest(NewNode("b", {"a"}), VOTE_REQUEST) == (VOTER, VOTE_REPLY)
    ensures HandleVoteReply(CANDIDATE, VOTE_REPLY) == LEADER
  {
    assert {"a"} + {"b"} == {"a", "b"} && |{"a", "b"}| == 2 && |{"b"}| == 1;
    assert SetAll(map[], {"b"}, 1) == map["b" := 1];
    assert SetAll(map[], {"b"}, 0)["a" := 1] == map["b" := 0, "a" := 1];
  }

  lemma Replicated()
    ensures WfLog(LEADER.log) && Replicate(LEADER, "b") == Some(APPEND)
    ensures HandleAppend(VOTER, APPEND) == (HOLDER, APPEND_REPLY)
    ensures HandleAppendReply(LEADER, APPEND_REPLY) == COMMITTED
  {
    assert LEADER.log[1..] == [NO_OP];
    assert Merge([SENTINEL], [NO_OP]) == [SENTINEL, NO_OP];
    var n := RaiseMatch(LEADER, "b", 1);
    assert n == LEADER.(matched := map["b" := 1, "a" := 1], next := map["b" := 2]);
    assert (set p | p in n.matched && n.matched[p] >= 1) == {"a", "b"};
    assert |{"a", "b"}| == 2 && |{"b"}| == 1;
    assert CommitScan(n, 1) == 1;
  }

  /** The cluster of "a" and "b", with a snapshot after every entry. */
  function Pair(a: Proc, b: Proc, net: set<Msg>, retries: int): Cluster {
    Cluster(map["a" := a, "b" := b], net, {}, retries, 1)
  }

  lemma StepOfA(a: Proc, a': Proc, b: Proc, net: set<Msg>, out: set<Msg>, retries: int)
    ensures ProcStep(Pair(a, b, net, retries), Pair(a', b, net + out, retries), "a", a', out)
  {
  }

  lemma StepOfB(a: Proc, b: Proc, b': Proc, net: set<Msg>, out: set<Msg>, retries: int)
    ensures ProcStep(Pair(a, b, net, retries), Pair(a, b', net + out, retries), "b", b', out)
  {
  }

  lemma PairStarts(retries: int)
    ensures Init(Pair(StartProc(NewNode("a", {"b"}), retries), StartProc(NewNode("b", {"a"}), retries), {}, retries))
  {
    var c := Pair(StartProc(NewNode("a", {"b"}), retries), StartProc(NewNode("b", {"a"}), retries), {}, retries);
    assert c.procs.Keys == {"a", "b"};
    assert c.procs.Keys - {"a"} == {"b"} && c.procs.Keys - {"b"} == {"a"};
  }

  /** The messages of the election and of the replication of the no-op, one after the other. */
  function Sent(k: nat): set<Msg> {
    if k == 0 then {}
    else if k == 1 then {VOTE_REQUEST}
    else if k == 2 then {VOTE_REQUEST, VOTE_REPLY}
    else if k == 3 then {VOTE_REQUEST, VOTE_REPLY, APPEND}
    else {VOTE_REQUEST, VOTE_REPLY, APPEND, APPEND_REPLY}
  }

  lemma SentNext()
    ensures Sent(0) + {VOTE_REQUEST} == Sent(1) && Sent(1) + {VOTE_REPLY} == Sent(2)
    ensures Sent(2) + {APPEND} == Sent(3) && Sent(3) + {APPEND_REPLY} == Sent(4)
    ensures forall k :: Sent(k) + {} == Sent(k)
  {
  }

  lemma ElectionSteps(retries: int)
    ensures var a0, b0 := StartProc(NewNode("a", {"b"}), retries), StartProc(NewNode("b", {"a"}), retries);
            var a1, a2, b1 := a0.(node := CANDIDATE), a0.(node := LEADER), b0.(node := VOTER);
            && Next(Pair(a0, b0, Sent(0), retries), Pair(a1, b0, Sent(1), retries))
            && Next(Pair(a1, b0, Sent(1), retries), Pair(a1, b1, Sent(2), retries))
            && Next(Pair(a1, b1, Sent(2), retries), Pair(a2, b1, Sent(2), retries))
  {
    hide StartElection, HandleVoteRequest, HandleVoteReply, VoteRequestTo;
    Elected();
    SentNext();
    var a0, b0 := StartProc(NewNode("a", {"b"}), retries), StartProc(NewNode("b", {"a"}), retries);
    var a1, a2, b1 := a0.(node := CANDIDATE), a0.(node := LEADER), b0.(node := VOTER);
    StepOfA(a0, a1, b0, Sent(0), {VOTE_REQUEST}, retries);
    assert (set q | q in CANDIDATE.peers :: VoteRequestTo(CANDIDATE, q)) == {VOTE_REQUEST};
    assert NextStep(Pair(a0, b0, Sent(0), retries), Pair(a1, b0, Sent(1), retries), ElectionTimeout("a"));
    StepOfB(a1, b0, b1, Sent(1), {VOTE_REPLY}, retries);
    assert ReceiveStep(Pair(a1, b0, Sent(1), retries), Pair(a1, b1, Sent(2), retries), VOTE_REQUEST, VOTER,
                       {VOTE_REPLY});
    assert NextStep(Pair(a1, b0, Sent(1), retries), Pair(a1, b1, Sent(2), retries), Receive(VOTE_REQUEST));
    StepOfA(a1, a2, b1, Sent(2), {}, retries);
    assert ReceiveStep(Pair(a1, b1, Sent(2), retries), Pair(a2, b1, Sent(2), retries), VOTE_REPLY, LEADER, {});
    assert NextStep(Pair(a1, b1, Sent(2), retries), Pair(a2, b1, Sent(2), retries), Receive(VOTE_REPLY));
  }

  lemma ReplicationSteps(retries: int)
    ensures var a0, b0 := StartProc(NewNode("a", {"b"}), retries), StartProc(NewNode("b", {"a"}), retries);
            var a2, a3, b1, b2 := a0.(node := LEADER), a0.(node := COMMITTED), b0.(node := VOTER), b0.(node := HOLDER);
            && Next(Pair(a2, b1, Sent(2), retries), Pair(a2, b1, Sent(3), retries))
            && Next(Pair(a2, b1, Sent(3), retries), Pair(a2, b2, Sent(4), retries))
            && Next(Pair(a2, b2, Sent(4), retries), Pair(a3, b2, Sent(4), retries))
  {
    hide Replicate, HandleAppend, HandleAppendReply;
    Replicated();
    SentNext();
    var a0, b0 := StartProc(NewNode("a", {"b"}), retries), StartProc(NewNode("b", {"a"}), retries);
    var a2, a3, b1, b2 := a0.(node := LEADER), a0.(node := COMMITTED), b0.(node := VOTER), b0.(node := HOLDER);
    StepOfA(a2, a2, b1, Sent(2), {APPEND}, retries);
    assert NextStep(Pair(a2, b1, Sent(2), retries), Pair(a2, b1, Sent(3), retries), SendTo("a", "b"));
    StepOfB(a2, b1, b2, Sent(3), {APPEND_REPLY}, retries);
    assert ReceiveStep(Pair(a2, b1, Sent(3), retries), Pair(a2, b2, Sent(4), retries), APPEND, HOLDER, {APPEND_REPLY});
    assert NextStep(Pair(a2, b1, Sent(3), retries), Pair(a2, b2, Sent(4), retries), Receive(APPEND));
    StepOfA(a2, a3, b2, Sent(4), {}, retries);
    assert ReceiveStep(Pair(a2, b2, Sent(4), retries), Pair(a3, b2, Sent(4), retries), APPEND_REPLY, COMMITTED, {});
    assert NextStep(Pair(a2, b2, Sent(4), retries), Pair(a3, b2, Sent(4), retries), Receive(APPEND_REPLY));
  }

  /** Node "a" while its no-op is on its way to the server, and after the server consumed it. */
  function Sending(retries: int): Proc {
    StartProc(COMMITTED, retries).(applier := Delivering([NO_OP]))
  }

  function SentNoOp(retries: int): Proc {
    StartProc(COMMITTED, retries).(applier := Counting(1, []), channel := [CommandMsg(NO_OP)])
  }

  function Offering(retries: int): Proc {
    Proc(COMMITTED, Counting(1, []), [],
         Server(NewMachine(retries), 1, 0, Some(SnapshotCall(1, EMPTY_QUEUE)), {}, {}))
  }

  lemma BatchTaken(b: Proc, net: set<Msg>, retries: int)
    ensures Next(Pair(StartProc(COMMITTED, retries), b, net, retries), Pair(Sending(retries), b, net, retries))
  {
    var c, c' := Pair(StartProc(COMMITTED, retries), b, net, retries), Pair(Sending(retries), b, net, retries);
    StepOfA(StartProc(COMMITTED, retries), Sending(retries), b, net, {}, retries);
    assert net + {} == net;
    assert NextBatch(COMMITTED) == [NO_OP];
    hide NextBatch, Pair;
    assert ApplierStepOf(c, c', TakeBatch("a")) by { assert c.procs["a"] == StartProc(COMMITTED, retries); }
    assert NextStep(c, c', TakeBatch("a"));
  }

  lemma NoOpSent(b: Proc, net: set<Msg>, retries: int)
    ensures Next(Pair(Sending(retries), b, net, retries), Pair(SentNoOp(retries), b, net, retries))
  {
    var c, c' := Pair(Sending(retries), b, net, retries), Pair(SentNoOp(retries), b, net, retries);
    StepOfA(Sending(retries), SentNoOp(retries), b, net, {}, retries);
    assert net + {} == net;
    assert [NO_OP][1..] == [] && [] + [CommandMsg(NO_OP)] == [CommandMsg(NO_OP)];
    assert EntrySent(Sending(retries)) == SentNoOp(retries);
    assert ApplierStepOf(c, c', SendEntry("a"));
    assert NextStep(c, c', SendEntry("a"));
  }

  lemma NoOpConsumed(b: Proc, net: set<Msg>, retries: int)
    ensures Next(Pair(SentNoOp(retries), b, net, retries), Pair(Offering(retries), b, net, retries))
  {
    var a, a' := SentNoOp(retries), Offering(retries);
    var c, c' := Pair(a, b, net, retries), Pair(a', b, net, retries);
    assert EntryConsumed(a.server, NO_OP, {}, EMPTY_QUEUE, 1, a'.server);
    hide EntryConsumed;
    assert c' == c.(procs := c.procs["a" := a']);
    assert a.channel[1..] == [];
    assert ConsumeStep(c, c', "a", {}, EMPTY_QUEUE, a'.server);
    hide ConsumeStep;
    assert ServerStepOf(c, c', ConsumeEntry("a", {}, EMPTY_QUEUE));
    assert NextStep(c, c', ConsumeEntry("a", {}, EMPTY_QUEUE));
  }

  /** The server consumed the entry before the applier counted it: the offer is enabled, and the
      node ignores it. */
  lemma OfferDropped(b: Proc, retries: int)
    ensures var a := Offering(retries);
            && First(a.node.log) < a.server.call.value.index && Uncounted(a, a.server.call.value.index)
            && ServerStepOf(Pair(a, b, Sent(4), retries),
                            Pair(a.(server := a.server.(call := None)), b, Sent(4), retries), OfferSnapshot("a"))
  {
    SentNext();
    var a := Offering(retries);
    StepOfA(a, a.(server := a.server.(call := None)), b, Sent(4), {}, retries);
    assert TakeSnapshot(COMMITTED, 1, EMPTY_QUEUE) == COMMITTED;
  }

  /** The step offers a snapshot that would move the boundary, and the node stays as it was. */
  ghost predicate DropsOffer(c: Cluster, c': Cluster, id: Id) {
    && ServerStepOf(c, c', OfferSnapshot(id))
    && id in c.procs && id in c'.procs && c.procs[id].server.call.Some? && |c.procs[id].node.log| > 0
    && First(c.procs[id].node.log) < c.procs[id].server.call.value.index
    && c'.procs[id].node == c.procs[id].node
  }

  /** The states of the run, from the start to the dropped offer. */
  function Witness(k: nat, retries: int): Cluster {
    var a, b := StartProc(NewNode("a", {"b"}), retries), StartProc(NewNode("b", {"a"}), retries);
    var voter, holder, offering := b.(node := VOTER), b.(node := HOLDER), Offering(retries);
    if k == 0 then Pair(a, b, Sent(0), retries)
    else if k == 1 then Pair(a.(node := CANDIDATE), b, Sent(1), retries)
    else if k == 2 then Pair(a.(node := CANDIDATE), voter, Sent(2), retries)
    else if k == 3 then Pair(a.(node := LEADER), voter, Sent(2), retries)
    else if k == 4 then Pair(a.(node := LEADER), voter, Sent(3), retries)
    else if k == 5 then Pair(a.(node := LEADER), holder, Sent(4), retries)
    else if k == 6 then Pair(a.(node := COMMITTED), holder, Sent(4), retries)
    else if k == 7 then Pair(Sending(retries), holder, Sent(4), retries)
    else if k == 8 then Pair(SentNoOp(retries), holder, Sent(4), retries)
    else if k == 9 then Pair(offering, holder, Sent(4), retries)
    else Pair(offering.(server := offering.server.(call := None)), holder, Sent(4), retries)
  }

  lemma WitnessSteps(retries: int, k: nat)
    requires k < 10
    ensures Next(Witness(k, retries), Witness(k + 1, retries))
  {
    hide Next, Pair, Sent, Sending, SentNoOp, Offering, NewNode, ServerStepOf;
    var holder := StartProc(NewNode("b", {"a"}), retries).(node := HOLDER);
    if k < 3 {
      ElectionSteps(retries);
    } else if k < 6 {
      ReplicationSteps(retries);
    } else if k == 6 {
      BatchTaken(holder, Sent(4), retries);
    } else if k == 7 {
      NoOpSent(holder, Sent(4), retries);
    } else if k == 8 {
      NoOpConsumed(holder, Sent(4), retries);
    } else {
      OfferStep(holder, retries);
    }
  }

  lemma OfferStep(b: Proc, retries: int)
    ensures var a := Offering(retries);
            Next(Pair(a, b, Sent(4), retries), Pair(a.(server := a.server.(call := None)), b, Sent(4), retries))
  {
    hide ServerStepOf, Sent;
    OfferDropped(b, retries);
    var a := Offering(retries);
    assert NextStep(Pair(a, b, Sent(4), retries), Pair(a.(server := a.server.(call := None)), b, Sent(4), retries),
                    OfferSnapshot("a"));
  }

  lemma WitnessDrops(retries: int)
    ensures DropsOffer(Witness(9, retries), Witness(10, retries), "a")
  {
    hide ServerStepOf, Sent;
    OfferDropped(StartProc(NewNode("b", {"a"}), retries).(node := HOLDER), retries);
  }

  /** A snapshot call can be lost: a run of two nodes, with a snapshot due after every entry, in
      which the call for the first entry changes nothing on the node. */
  lemma OfferCanBeDropped(retries: int)
    ensures exists run :: IsRun(run) && |run| == 11 && DropsOffer(run[9], run[10], "a")
  {
    PairStarts(retries);
    assert Init(Witness(0, retries));
    hide Next, Init, DropsOffer, Witness;
    var run := seq(11, k requires 0 <= k < 11 => Witness(k, retries));
    forall i | 0 <= i < |run| - 1 ensures StepAt(run, i) {
      WitnessSteps(retries, i);
    }
    assert IsRun(run);
    WitnessDrops(retries);
  }
}
