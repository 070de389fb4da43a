/** An election can always be won: from every reachable state of a cluster of at least two nodes
    there is a continuation that makes a node with the best log the leader of a new term, followed
    by all others. */
module RaftElection {
  import opened Tasks
  import opened RaftLog
  import opened RaftHistory
  import opened RaftStep
  import opened RaftCompaction
  import opened RaftInvariant
  import opened RaftReplicationProof
  import opened RaftCluster
  import opened RaftDelivery
  import opened RaftSafety
  import opened RaftTheorems
  import opened RaftProgress

  // ---------------------------------------------------------------- continuing a run

  ghost function Now(run: seq<Cluster>): Cluster
    requires |run| > 0
  {
    run[|run| - 1]
  }

  /** Run `run'` goes on where `run` ends. */
  ghost predicate GoesOn(run: seq<Cluster>, run': seq<Cluster>) {
    IsRun(run') && 0 < |run| <= |run'| && run'[..|run|] == run
  }

  lemma StartsHere(run: seq<Cluster>)
    requires IsRun(run)
    ensures GoesOn(run, run)
  {
    assert run[..|run|] == run;
  }

  lemma GoesFurther(a: seq<Cluster>, b: seq<Cluster>, c: seq<Cluster>)
    requires GoesOn(a, b) && GoesOn(b, c)
    ensures GoesOn(a, c)
  {
    hide Init, StepAt;
    assert c[..|a|] == c[..|b|][..|a|];
  }

  lemma OneStepOn(run: seq<Cluster>, c': Cluster, s: Step) returns (run': seq<Cluster>)
    requires IsRun(run) && NextStep(Now(run), c', s)
    ensures GoesOn(run, run') && Now(run') == c'
  {
    hide Init, NextStep;
    run' := run + [c'];
    forall i | 0 <= i < |run'| - 1 ensures StepAt(run', i) {
      if i < |run| - 1 {
        assert StepAt(run, i);
      } else {
        assert Next(run[i], c');
      }
    }
  }

  /** What the invariant says about a node, without the history. */
  ghost predicate NodeFacts(c: Cluster, id: Id)
    requires id in c.procs
  {
    var n := c.procs[id].node;
    && n.id == id && n.peers == c.procs.Keys - {id}
    && WfLog(n.log) && First(n.log) <= n.commit <= Last(n.log) && n.applied <= n.commit
    && n.log[|n.log| - 1].term <= n.term
    && (n.snapshot.None? <==> First(n.log) == 0)
    && (n.role == Leader ==> n.next.Keys == n.peers && n.matched.Keys == c.procs.Keys)
    && (n.role == Leader ==> forall p :: p in n.peers ==> n.next[p] <= Last(n.log) + 1)
  }

  lemma FactsOf(run: seq<Cluster>, id: Id)
    requires IsRun(run) && id in Now(run).procs
    ensures NodeFacts(Now(run), id)
  {
    hide Init, StepAt, GhostOk, ProcInv, MsgInv, GhostGrows, NodeFacts;
    var gs := RunHistory(run);
    var k := |run| - 1;
    StateExplained(run, gs, k);
    NodeAt(run, gs, k, id);
    InvFacts(run[k], gs[k], id);
  }

  lemma InvFacts(c: Cluster, g: Ghost, id: Id)
    requires id in c.procs && c.procs.Keys == g.h.nodes && GhostOk(g) && NodeInv(g, id, c.procs[id].node)
    ensures NodeFacts(c, id)
  {
    hide Rep, Safe, SnapshotOf, VotedOk, CandidateOk, GhostOk;
    var n := c.procs[id].node;
    NodeBasics(g, id, n);
    LeaderRises(g, id, n);
  }

  // ---------------------------------------------------------------- candidacy

  /** The node as a candidate of term `t`. */
  function CandidateOf(n: Node, t: nat): Node {
    n.(role := Candidate, term := t, votedFor := n.id, votes := {n.id})
  }

  ghost predicate Stood(c: Cluster, c': Cluster, id: Id, t: nat) {
    && id in c.procs && |c.procs[id].node.log| > 0
    && c' == c.(procs := c.procs[id := c.procs[id].(node := CandidateOf(c.procs[id].node, t))], net := c'.net)
    && c.net <= c'.net
    && forall q :: q in c.procs[id].node.peers ==> VoteRequestTo(CandidateOf(c.procs[id].node, t), q) in c'.net
  }

  /** A node that is no leader can stand for any later term. */
  lemma {:induction false} CanStand(run: seq<Cluster>, id: Id, t: nat) returns (run': seq<Cluster>)
    requires IsRun(run) && id in Now(run).procs
    requires Now(run).procs[id].node.role != Leader && Now(run).procs[id].node.term < t
    ensures GoesOn(run, run') && Stood(Now(run), Now(run'), id, t)
    decreases t - Now(run).procs[id].node.term
  {
    hide Init, StepAt, GoesOn, NextStep;
    FactsOf(run, id);
    var c, n := Now(run), Now(run).procs[id].node;
    var c1 := TimesOut(c, id);
    var run1 := OneStepOn(run, c1, ElectionTimeout(id));
    GoesOnParts(run, run1);
    if n.term + 1 == t {
      run' := run1;
    } else {
      run' := CanStand(run1, id, t);
      GoesFurther(run, run1, run');
    }
  }

  lemma GoesOnParts(run: seq<Cluster>, run': seq<Cluster>)
    requires GoesOn(run, run')
    ensures |run'| > 0 && IsRun(run')
  {
  }

  lemma TimesOut(c: Cluster, id: Id) returns (c': Cluster)
    requires id in c.procs && |c.procs[id].node.log| > 0 && c.procs[id].node.role != Leader
    ensures NextStep(c, c', ElectionTimeout(id)) && Stood(c, c', id, c.procs[id].node.term + 1)
  {
    var n' := StartElection(c.procs[id].node);
    var out := set q | q in n'.peers :: VoteRequestTo(n', q);
    c' := c.(procs := c.procs[id := c.procs[id].(node := n')], net := c.net + out);
    assert ProcStep(c, c', id, c.procs[id].(node := n'), out);
    assert RaftStepOf(c, c', ElectionTimeout(id));
  }

  // ---------------------------------------------------------------- votes

  /** Node `q` is behind term `t` and its log is no better than that of candidate `n`. */
  ghost predicate Open(c: Cluster, n: Node, t: nat, q: Id) {
    && q in c.procs && |n.log| > 0 && VoteRequest(n.id, q, t, Last(n.log), n.log[|n.log| - 1].term) in c.net
    && var f := c.procs[q].node;
       f.term < t && |f.log| > 0 && NoBetter(f.log, n.log)
  }

  /** Log `a` ends in an earlier term than `b`, or in the same term and not later. */
  predicate NoBetter(a: seq<Entry>, b: seq<Entry>)
    requires |a| > 0 && |b| > 0
  {
    var x, y := a[|a| - 1], b[|b| - 1];
    y.term > x.term || (y.term == x.term && y.index >= x.index)
  }

  /** Node `q` follows in term `t` and has promised its vote to `id`. */
  ghost predicate Pledged(c: Cluster, id: Id, t: nat, q: Id) {
    && q in c.procs && c.procs[q].node.role == Follower && c.procs[q].node.term == t
    && VoteReply(q, id, t, true, t) in c.net
  }

  /** One node votes; no other changes. */
  lemma Votes(run: seq<Cluster>, n: Node, t: nat, q: Id) returns (run': seq<Cluster>)
    requires IsRun(run) && Open(Now(run), n, t, q)
    ensures GoesOn(run, run') && Pledged(Now(run'), n.id, t, q)
    ensures var c, c' := Now(run), Now(run');
            c' == c.(procs := c.procs[q := c'.procs[q]], net := c'.net) && c.net <= c'.net
  {
    hide Init, StepAt, GoesOn;
    FactsOf(run, q);
    var c, f := Now(run), Now(run).procs[q].node;
    var m := VoteRequest(n.id, q, t, Last(n.log), n.log[|n.log| - 1].term);
    VoteGrantedExactly(f, m);
    var (f', r) := HandleVoteRequest(f, m);
    var c' := c.(procs := c.procs[q := c.procs[q].(node := f')], net := c.net + {r});
    assert ReceiveStep(c, c', m, f', {r});
    assert RaftStepOf(c, c', Receive(m));
    run' := OneStepOn(run, c', Receive(m));
  }

  /** Everybody votes, one after the other. */
  lemma {:induction false} AllVote(run: seq<Cluster>, id: Id, t: nat, rest: set<Id>) returns (run': seq<Cluster>)
    requires IsRun(run) && id in Now(run).procs && id !in rest
    requires forall q :: q in rest ==> Open(Now(run), Now(run).procs[id].node, t, q)
    requires Now(run).procs[id].node.id == id
    requires forall q :: q in Now(run).procs && q != id && q !in rest ==> Pledged(Now(run), id, t, q)
    ensures GoesOn(run, run') && Now(run').procs.Keys == Now(run).procs.Keys
    ensures Now(run') == Now(run).(procs := Now(run').procs, net := Now(run').net)
    ensures Now(run').procs[id] == Now(run).procs[id]
    ensures forall q :: q in Now(run).procs && q != id ==> Pledged(Now(run'), id, t, q)
    decreases rest
  {
    hide Init, StepAt, GoesOn, NoBetter;
    if rest == {} {
      run' := run;
      StartsHere(run);
    } else {
      var q :| q in rest;
      var n := Now(run).procs[id].node;
      var run1 := Votes(run, n, t, q);
      GoesOnParts(run, run1);
      forall x | x in rest - {q} ensures Open(Now(run1), n, t, x) {
        assert Open(Now(run), n, t, x);
      }
      forall x | x in Now(run).procs && x != id && x !in rest - {q} ensures Pledged(Now(run1), id, t, x) {
        assert x != q ==> Pledged(Now(run), id, t, x);
      }
      run' := AllVote(run1, id, t, rest - {q});
      GoesFurther(run, run1, run');
    }
  }

  // ---------------------------------------------------------------- counting

  /** Candidate `n` has no majority yet and has counted everybody outside `rest`. */
  ghost predicate CountsOn(n: Node, t: nat, rest: set<Id>) {
    && n.role == Candidate && n.term == t && |n.log| > 0 && rest <= n.peers
    && n.votes == {n.id} + (n.peers - rest) && n.id !in n.peers
    && 2 * |n.votes| <= |n.peers| + 1
  }

  /** A leader fresh from its election: its log is `log` and a no-op of its term. */
  ghost predicate FreshLeader(n: Node, t: nat, log: seq<Entry>) {
    && n.role == Leader && n.term == t && |log| > 0 && n.log == log + [Entry(Last(log) + 1, t, None)]
    && n.id in n.matched && n.matched[n.id] == Last(n.log)
    && forall p :: p in n.peers ==> p in n.next && n.next[p] > 0
  }

  lemma CountsVote(n: Node, t: nat, rest: set<Id>, q: Id)
    requires CountsOn(n, t, rest) && q in rest
    ensures var n' := HandleVoteReply(n, VoteReply(q, n.id, t, true, t));
            && n'.id == n.id && n'.peers == n.peers
            && n' == n.(role := n'.role, log := n'.log, votes := n'.votes, leaderId := n'.leaderId, next := n'.next,
                        matched := n'.matched)
            && (FreshLeader(n', t, n.log) || (CountsOn(n', t, rest - {q}) && n'.log == n.log))
  {
    hide HandleVoteReply;
    var m := VoteReply(q, n.id, t, true, t);
    ElectedExactly(n, m);
    VoteReplyFrame(n, m);
    assert n.votes + {q} == {n.id} + (n.peers - (rest - {q}));
    assert forall p :: p in n.peers ==> p != n.id;
  }

  lemma VoteReplyFrame(n: Node, m: Msg)
    requires |n.log| > 0 && m.VoteReply? && m.term <= n.term
    ensures var n' := HandleVoteReply(n, m);
            n' == n.(role := n'.role, log := n'.log, votes := n'.votes, leaderId := n'.leaderId, next := n'.next,
                     matched := n'.matched)
  {
    hide SetAll;
  }

  /** Not everybody can have voted without a majority. */
  lemma SomeVoteLeft(n: Node, t: nat, rest: set<Id>)
    requires CountsOn(n, t, rest)
    ensures rest != {}
  {
    assert n.votes + rest == n.peers + {n.id};
    assert |n.peers + {n.id}| == |n.peers| + 1;
    assert rest == {} ==> n.votes + rest == n.votes;
  }

  lemma CountsReply(run: seq<Cluster>, id: Id, t: nat, q: Id) returns (run': seq<Cluster>)
    requires IsRun(run) && id in Now(run).procs && VoteReply(q, id, t, true, t) in Now(run).net
    ensures GoesOn(run, run')
    ensures var c, n := Now(run), Now(run).procs[id].node;
            && |n.log| > 0
            && Now(run') == c.(procs := c.procs[id := c.procs[id].(
                                 node := HandleVoteReply(n, VoteReply(q, id, t, true, t)))])
  {
    hide Init, StepAt, GoesOn;
    FactsOf(run, id);
    var c, n, m := Now(run), Now(run).procs[id].node, VoteReply(q, id, t, true, t);
    var n' := HandleVoteReply(n, m);
    var c' := c.(procs := c.procs[id := c.procs[id].(node := n')], net := c.net + {});
    assert c.net + {} == c.net;
    assert ReceiveStep(c, c', m, n', {});
    assert RaftStepOf(c, c', Receive(m));
    run' := OneStepOn(run, c', Receive(m));
  }

  /** Only the candidate changes, and it becomes leader. */
  ghost predicate Won(c: Cluster, c': Cluster, id: Id, t: nat) {
    && id in c.procs && id in c'.procs
    && FreshLeader(c'.procs[id].node, t, c.procs[id].node.log)
    && c' == c.(procs := c.procs[id := c.procs[id].(node := c'.procs[id].node)])
    && c'.procs[id].node.pending == c.procs[id].node.pending
    && c'.procs[id].node.commit == c.procs[id].node.commit && c'.procs[id].node.applied == c.procs[id].node.applied
  }

  lemma {:induction false} AllCounted(run: seq<Cluster>, id: Id, t: nat, rest: set<Id>) returns (run': seq<Cluster>)
    requires IsRun(run) && id in Now(run).procs && Now(run).procs[id].node.id == id
    requires CountsOn(Now(run).procs[id].node, t, rest)
    requires forall q :: q in rest ==> VoteReply(q, id, t, true, t) in Now(run).net
    ensures GoesOn(run, run') && Won(Now(run), Now(run'), id, t)
    decreases rest
  {
    hide Init, StepAt, GoesOn, FreshLeader, CountsOn, HandleVoteReply;
    var n := Now(run).procs[id].node;
    SomeVoteLeft(n, t, rest);
    var q :| q in rest;
    CountsVote(n, t, rest, q);
    var run1 := CountsReply(run, id, t, q);
    GoesOnParts(run, run1);
    if FreshLeader(Now(run1).procs[id].node, t, n.log) {
      run' := run1;
    } else {
      run' := AllCounted(run1, id, t, rest - {q});
      GoesFurther(run, run1, run');
    }
  }

  // ---------------------------------------------------------------- the best log

  /** Some node's log is no worse than any other's. */
  lemma {:induction false} SomeLogIsBest(c: Cluster, ids: set<Id>) returns (id: Id)
    requires ids <= c.procs.Keys && ids != {} && forall q :: q in ids ==> |c.procs[q].node.log| > 0
    ensures id in ids && forall q :: q in ids ==> NoBetter(c.procs[q].node.log, c.procs[id].node.log)
    decreases ids
  {
    var x :| x in ids;
    id := x;
    if ids != {x} {
      var best := SomeLogIsBest(c, ids - {x});
      var a, b := c.procs[x].node.log, c.procs[best].node.log;
      if NoBetter(a, b) {
        id := best;
      } else {
        forall q | q in ids ensures NoBetter(c.procs[q].node.log, a) {
          assert q != x ==> q in ids - {x} && NoBetter(c.procs[q].node.log, b);
        }
      }
    }
  }

  /** A term later than every node's. */
  lemma {:induction false} LaterTerm(c: Cluster, ids: set<Id>) returns (t: nat)
    requires ids <= c.procs.Keys
    ensures forall q :: q in ids ==> c.procs[q].node.term < t
    decreases ids
  {
    t := 0;
    if ids != {} {
      var q :| q in ids;
      t := LaterTerm(c, ids - {q});
      if t <= c.procs[q].node.term {
        t := c.procs[q].node.term + 1;
      }
    }
  }

  // ---------------------------------------------------------------- the election

  /** Process `id` has just started, with all that its node had stored. */
  lemma Restarts(run: seq<Cluster>, id: Id) returns (run': seq<Cluster>)
    requires IsRun(run) && id in Now(run).procs
    ensures |Now(run).procs[id].node.log| > 0
    ensures GoesOn(run, run')
    ensures var c := Now(run);
            Now(run') == c.(procs := c.procs[id := StartProc(Restart(c.procs[id].node), c.retries)])
  {
    hide Init, StepAt, GoesOn;
    FactsOf(run, id);
    var c := Now(run);
    var p' := StartProc(Restart(c.procs[id].node), c.retries);
    var c' := c.(procs := c.procs[id := p'], net := c.net + {});
    assert c.net + {} == c.net;
    assert ProcStep(c, c', id, p', {});
    assert RaftStepOf(c, c', Crash(id));
    run' := OneStepOn(run, c', Crash(id));
  }

  /** Node `id` leads term `t` and all others follow in it. */
  ghost predicate Leads(c: Cluster, id: Id, t: nat) {
    && id in c.procs && c.procs[id].node.role == Leader && c.procs[id].node.term == t
    && (forall q :: q in c.procs && q != id ==> c.procs[q].node.role == Follower && c.procs[q].node.term == t)
    && (forall p :: p in c.procs[id].node.next ==> c.procs[id].node.next[p] > 0)
    && id in c.procs[id].node.matched && |c.procs[id].node.log| > 0
    && c.procs[id].node.matched[id] == Last(c.procs[id].node.log)
    && c.procs[id].node.log[|c.procs[id].node.log| - 1].term == t
  }

  /** The process has applied nothing since its start. */
  ghost predicate JustStarted(p: Proc, retries: int) {
    p == StartProc(p.node, retries) && p.node.commit == p.node.applied && |p.node.log| > 0
    && p.node.applied == First(p.node.log)
  }

  /** An election can always be won. */
  lemma ElectionCanBeWon(run: seq<Cluster>) returns (run': seq<Cluster>, id: Id, t: nat)
    requires IsRun(run) && |Now(run).procs| >= 2
    ensures GoesOn(run, run') && Now(run').procs.Keys == Now(run).procs.Keys
    ensures Leads(Now(run'), id, t) && forall q :: q in Now(run).procs ==> Now(run).procs[q].node.term < t
    ensures JustStarted(Now(run').procs[id], Now(run').retries)
    ensures Now(run').acknowledged == Now(run).acknowledged && Now(run').retries == Now(run).retries
    ensures |Now(run').procs[id].node.peers| > 0
  {
    hide Init, StepAt, GoesOn, NoBetter;
    var c := Now(run);
    forall q | q in c.procs ensures NodeFacts(c, q) {
      FactsOf(run, q);
    }
    assert |c.procs.Keys| == |c.procs|;
    id := SomeLogIsBest(c, c.procs.Keys);
    t := LaterTerm(c, c.procs.Keys);
    var run1 := Restarts(run, id);
    GoesOnParts(run, run1);
    var run2 := CanStand(run1, id, t);
    GoesOnParts(run1, run2);
    OpenToAll(c, Now(run1), Now(run2), id, t);
    var run3 := Chosen(run2, id, t);
    GoesFurther(run, run1, run2);
    GoesFurther(run, run2, run3);
    run' := run3;
  }

  /** A candidate that everybody can vote for. */
  ghost predicate Electable(c: Cluster, id: Id, t: nat) {
    && |c.procs| >= 2 && id in c.procs && JustStarted(c.procs[id], c.retries)
    && var n := c.procs[id].node;
       && n.id == id && n.peers == c.procs.Keys - {id} && n.role == Candidate && n.term == t && n.votes == {id}
       && forall q :: q in n.peers ==> Open(c, n, t, q)
  }

  /** After its restart and its candidacy, the node with the best log is one. */
  lemma OpenToAll(c: Cluster, c1: Cluster, c2: Cluster, id: Id, t: nat)
    requires |c.procs| >= 2 && id in c.procs
    requires forall q :: q in c.procs ==> NodeFacts(c, q) && c.procs[q].node.term < t
    requires |c.procs[id].node.log| > 0 && forall q :: q in c.procs ==>
               |c.procs[q].node.log| > 0 && NoBetter(c.procs[q].node.log, c.procs[id].node.log)
    requires c1 == c.(procs := c.procs[id := StartProc(Restart(c.procs[id].node), c.retries)]) && Stood(c1, c2, id, t)
    ensures Electable(c2, id, t) && c2.procs.Keys == c.procs.Keys
  {
    hide NoBetter;
    assert NodeFacts(c, id);
    assert c2.procs.Keys == c.procs.Keys;
    assert |c2.procs| == |c2.procs.Keys| == |c.procs.Keys| == |c.procs|;
    var n := c2.procs[id].node;
    forall q | q in n.peers ensures Open(c2, n, t, q) {
      assert NodeFacts(c, q) && VoteRequestTo(n, q) in c2.net;
    }
  }

  /** Such a candidate is elected. */
  lemma Chosen(run: seq<Cluster>, id: Id, t: nat) returns (run': seq<Cluster>)
    requires IsRun(run) && Electable(Now(run), id, t)
    ensures GoesOn(run, run') && Now(run').procs.Keys == Now(run).procs.Keys
    ensures Leads(Now(run'), id, t) && JustStarted(Now(run').procs[id], Now(run').retries)
    ensures Now(run').acknowledged == Now(run).acknowledged && Now(run').retries == Now(run).retries
    ensures |Now(run').procs[id].node.peers| > 0
  {
    hide Init, StepAt, GoesOn, NoBetter, Open;
    var n := Now(run).procs[id].node;
    var run1 := AllVote(run, id, t, n.peers);
    GoesOnParts(run, run1);
    PeersCount(Now(run), id);
    assert CountsOn(n, t, n.peers);
    forall q | q in n.peers ensures VoteReply(q, id, t, true, t) in Now(run1).net {
      assert Pledged(Now(run1), id, t, q);
    }
    run' := AllCounted(run1, id, t, n.peers);
    GoesOnParts(run1, run');
    GoesFurther(run, run1, run');
    WonLeads(run', Now(run1), id, t);
    StillStarted(Now(run1), Now(run'), id, t);
    FactsOf(run', id);
  }

  lemma PeersCount(c: Cluster, id: Id)
    requires id in c.procs && |c.procs| >= 2
    ensures |c.procs.Keys - {id}| >= 1
  {
    assert |c.procs.Keys| == |c.procs|;
    assert c.procs.Keys == (c.procs.Keys - {id}) + {id};
  }

  lemma WonLeads(run: seq<Cluster>, c: Cluster, id: Id, t: nat)
    requires IsRun(run) && Won(c, Now(run), id, t)
    requires forall q :: q in c.procs && q != id ==> Pledged(c, id, t, q)
    ensures Leads(Now(run), id, t)
  {
    hide Init, StepAt;
    FactsOf(run, id);
    forall q | q in c.procs && q != id
      ensures Now(run).procs[q].node.role == Follower && Now(run).procs[q].node.term == t
    {
      assert Pledged(c, id, t, q);
    }
  }

  lemma StillStarted(c: Cluster, c': Cluster, id: Id, t: nat)
    requires Won(c, c', id, t) && JustStarted(c.procs[id], c.retries)
    ensures JustStarted(c'.procs[id], c'.retries)
  {
  }
}
