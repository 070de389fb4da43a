/** A leader that all others follow can always bring them up to date and commit its whole log:
    from any next index, through rejections, fast backtracking and snapshots. */
module RaftCatchUp {
  import opened Tasks
  import opened RaftLog
  import opened RaftHistory
  import opened RaftStep
  import opened RaftCompaction
  import opened RaftInvariant
  import opened RaftReplicationProof
  import opened RaftCluster
  import opened RaftDelivery
  import opened RaftSafety
  import opened RaftBacktrack
  import opened RaftTheorems
  import opened RaftProgress
  import opened RaftElection

  // ---------------------------------------------------------------- one exchange

  /** The leader keeps everything but what it knows about its peers and what is committed. */
  ghost predicate KnowsMore(n: Node, n': Node) {
    && n' == n.(next := n'.next, matched := n'.matched, commit := n'.commit) && n.commit <= n'.commit
    && n'.next.Keys == n.next.Keys
    && forall q :: q in n.matched ==> q in n'.matched && n.matched[q] <= n'.matched[q]
  }

  /** The leader knows that `p` holds its whole log, and has committed what most nodes hold. */
  ghost predicate UpToNow(n: Node, p: Id) {
    && |n.log| > 0 && p in n.matched && n.matched[p] >= Last(n.log)
    && forall x: nat :: HeldByMost(n, x) ==> x <= n.commit
  }

  /** One request and its answer: the peer is up to date, or the next request starts earlier. */
  lemma OneExchange(g: Ghost, a: Id, n: Node, p: Id, f: Node)
    requires Exchange(g, a, n, p, f) && a != p
    ensures WfLog(n.log) && n.next[p] <= Last(n.log) + 1 && Replicate(n, p).Some?
    ensures var m := Replicate(n, p).value;
            && m.AppendRequest? && m.from == a && m.to == p && m.term == n.term
            && WfLog(f.log) && Follow(m.entries, m.prev)
            && var (f', r) := HandleAppend(f, m);
               && f'.role == Follower && f'.term == n.term
               && r.AppendReply? && r.from == p && r.to == a
               && var n' := HandleAppendReply(n, r);
                  && KnowsMore(n, n') && n'.next[p] > 0 && n'.next == n.next[p := n'.next[p]]
                  && (UpToNow(n', p) || (n'.next[p] < n.next[p] && n'.matched == n.matched))
                  && (p in n.matched && n.next[p] == n.matched[p] + 1 ==> UpToNow(n', p))
  {
    hide GhostOk, NodeInv, MsgInv, HandleAppend, Common, Replicate, CommitScan, Backtrack;
    RejectionLowersNext(g, a, n, p, f);
    WholeRequest(g, a, n, p);
    NodeBasics(g, a, n);
    NodeBasics(g, p, f);
    var m := Replicate(n, p).value;
    var r := HandleAppend(f, m).1;
    Verdict(f, m);
    SenderIsFollowed(f, m);
    RepliesTo(f, m);
    if r.success {
      CommitFollows(f, m);
      LeaderRises(g, a, n);
      CommitExactly(n, r);
      AllHeldCommitted(n, HandleAppendReply(n, r));
    } else {
      ExchangeContinues(g, a, n, p, f, r);
      if p in n.matched && n.next[p] == n.matched[p] + 1 {
        KnownIsCommon(g, a, n, p, f);
      }
    }
  }

  lemma RepliesTo(f: Node, m: Msg)
    requires WfLog(f.log) && m.AppendRequest? && Follow(m.entries, m.prev)
    ensures HandleAppend(f, m).1.AppendReply? && HandleAppend(f, m).1.to == m.from
  {
    hide Merge, ConflictStart;
  }

  lemma AllHeldCommitted(n: Node, n': Node)
    requires WfLog(n'.log) && n'.log == n.log && Greatest(n', n.commit, Last(n.log), n'.commit)
    ensures n.commit <= n'.commit && forall x: nat :: HeldByMost(n', x) ==> x <= n'.commit
  {
  }

  /** What the leader has recorded for a peer of its term, the peer holds. */
  lemma KnownIsCommon(g: Ghost, a: Id, n: Node, p: Id, f: Node)
    requires Exchange(g, a, n, p, f) && p in n.matched
    ensures a in g.h.log && p in g.h.log && n.matched[p] <= Common(g.h.log[a], g.h.log[p])
  {
    hide Rep, Safe, SnapOk, VotedOk, CandidateOk, Inv, Committed, Common;
    var x := n.matched[p];
    if x > 0 {
      AckedPrefix(g, p, n.term, x);
      CommonAtLeast(g.h.log[a], g.h.log[p], x);
    }
  }

  // ---------------------------------------------------------------- in the cluster

  /** The cluster after replication work of leader `id`: only its node and its peers' nodes, and
      the messages between them, are different. */
  ghost predicate Worked(c: Cluster, c': Cluster, id: Id) {
    && id in c.procs && id in c'.procs && c'.procs.Keys == c.procs.Keys
    && c' == c.(procs := c'.procs, net := c'.net)
    && c'.procs[id] == c.procs[id].(node := c'.procs[id].node)
    && KnowsMore(c.procs[id].node, c'.procs[id].node)
  }

  lemma WorkedOn(a: Cluster, b: Cluster, c: Cluster, id: Id)
    requires Worked(a, b, id) && Worked(b, c, id)
    ensures Worked(a, c, id)
  {
  }

  /** Leader `id` and its peer `p`, about to exchange messages. */
  ghost predicate Facing(c: Cluster, id: Id, t: nat, p: Id) {
    Leads(c, id, t) && p in c.procs && p != id && p in c.procs[id].node.next
  }

  lemma FacingPeer(run: seq<Cluster>, id: Id, t: nat, p: Id)
    requires IsRun(run) && Leads(Now(run), id, t) && p in Now(run).procs && p != id
    ensures Facing(Now(run), id, t, p) && NodeFacts(Now(run), id) && NodeFacts(Now(run), p)
  {
    hide Init, StepAt;
    FactsOf(run, id);
    FactsOf(run, p);
  }

  lemma ExchangeHere(run: seq<Cluster>, id: Id, t: nat, p: Id) returns (g: Ghost)
    requires IsRun(run) && Facing(Now(run), id, t, p)
    requires |Now(run).procs[id].node.log| > 0
    requires First(Now(run).procs[id].node.log) < Now(run).procs[id].node.next[p]
    ensures Exchange(g, id, Now(run).procs[id].node, p, Now(run).procs[p].node)
  {
    hide Init, StepAt, GhostOk, NodeInv, ProcInv, Explains;
    var gs := RunHistory(run);
    NodeAt(run, gs, |run| - 1, id);
    NodeAt(run, gs, |run| - 1, p);
    FactsOf(run, id);
    g := gs[|run| - 1];
  }

  /** What an exchange makes of the cluster. */
  ghost predicate Exchanged(c: Cluster, c': Cluster, id: Id, p: Id, n': Node, f': Node) {
    && id in c.procs && p in c.procs && id != p
    && c' == c.(procs := c.procs[id := c.procs[id].(node := n')][p := c.procs[p].(node := f')], net := c'.net)
  }

  lemma StillLeads(c: Cluster, c': Cluster, id: Id, t: nat, p: Id, n': Node, f': Node)
    requires Facing(c, id, t, p) && Exchanged(c, c', id, p, n', f') && KnowsMore(c.procs[id].node, n')
    requires n'.next[p] > 0 && n'.next == c.procs[id].node.next[p := n'.next[p]]
    requires f'.role == Follower && f'.term == t
    requires id in n'.matched && n'.matched[id] == c.procs[id].node.matched[id]
    ensures Leads(c', id, t) && Worked(c, c', id)
  {
  }

  /** Three steps: the request, its receipt, and the receipt of the answer. */
  lemma ThreeSteps(run: seq<Cluster>, id: Id, p: Id, s: Step, m: Msg, f': Node, r: Msg, n': Node)
    returns (run': seq<Cluster>)
    requires IsRun(run) && id in Now(run).procs && p in Now(run).procs && id != p && m.to == p && r.to == id
    requires ProcStep(Now(run), Now(run).(net := Now(run).net + {m}), id, Now(run).procs[id], {m})
    requires NextStep(Now(run), Now(run).(net := Now(run).net + {m}), s)
    requires Received(Now(run).procs[p].node, m, f', {r}) && Received(Now(run).procs[id].node, r, n', {})
    ensures GoesOn(run, run') && Exchanged(Now(run), Now(run'), id, p, n', f')
  {
    hide Init, StepAt, GoesOn, Received;
    var c := Now(run);
    var c1 := c.(net := c.net + {m});
    var run1 := OneStepOn(run, c1, s);
    GoesOnParts(run, run1);
    var c2 := c1.(procs := c1.procs[p := c1.procs[p].(node := f')], net := c1.net + {r});
    assert ReceiveStep(c1, c2, m, f', {r});
    assert RaftStepOf(c1, c2, Receive(m));
    var run2 := OneStepOn(run1, c2, Receive(m));
    GoesOnParts(run1, run2);
    var c3 := c2.(procs := c2.procs[id := c2.procs[id].(node := n')], net := c2.net + {});
    assert ReceiveStep(c2, c3, r, n', {});
    assert RaftStepOf(c2, c3, Receive(r));
    run' := OneStepOn(run2, c3, Receive(r));
    GoesFurther(run, run1, run2);
    GoesFurther(run, run2, run');
    assert c3.procs == c.procs[id := c.procs[id].(node := n')][p := c.procs[p].(node := f')];
  }

  lemma SendsTo(c: Cluster, id: Id, t: nat, p: Id)
    requires Facing(c, id, t, p) && NodeFacts(c, id)
    requires var n := c.procs[id].node; WfLog(n.log) && n.next[p] <= Last(n.log) + 1 && Replicate(n, p).Some?
    ensures var m := Replicate(c.procs[id].node, p).value;
            && NextStep(c, c.(net := c.net + {m}), SendTo(id, p))
            && ProcStep(c, c.(net := c.net + {m}), id, c.procs[id], {m})
  {
    hide Replicate;
    var m := Replicate(c.procs[id].node, p).value;
    assert c.procs[id := c.procs[id]] == c.procs;
    assert RaftStepOf(c, c.(net := c.net + {m}), SendTo(id, p));
  }

  /** A request and its answer in the cluster. */
  lemma SendRound(run: seq<Cluster>, id: Id, t: nat, p: Id) returns (run': seq<Cluster>)
    requires IsRun(run) && Facing(Now(run), id, t, p) && |Now(run).procs[id].node.log| > 0
    requires First(Now(run).procs[id].node.log) < Now(run).procs[id].node.next[p]
    ensures GoesOn(run, run') && Leads(Now(run'), id, t) && Worked(Now(run), Now(run'), id)
    ensures var n, n' := Now(run).procs[id].node, Now(run').procs[id].node;
            && p in n'.next
            && (UpToNow(n', p) || n'.next[p] < n.next[p])
            && (p in n.matched && n.next[p] == n.matched[p] + 1 ==> UpToNow(n', p))
  {
    hide Init, StepAt, GoesOn, HandleAppend, HandleAppendReply, Replicate, UpToNow, Exchange, NodeFacts;
    var c := Now(run);
    var n, f := c.procs[id].node, c.procs[p].node;
    var g := ExchangeHere(run, id, t, p);
    OneExchange(g, id, n, p, f);
    FacingPeer(run, id, t, p);
    SendsTo(c, id, t, p);
    var m := Replicate(n, p).value;
    var (f', r) := HandleAppend(f, m);
    var n' := HandleAppendReply(n, r);
    run' := ThreeSteps(run, id, p, SendTo(id, p), m, f', r, n');
    GoesOnParts(run, run');
    OwnMatch(n, r);
    StillLeads(c, Now(run'), id, t, p, n', f');
  }

  lemma OwnMatch(n: Node, r: Msg)
    requires WfLog(n.log) && r.AppendReply?
    ensures forall q :: q in n.matched && q != r.from ==>
              q in HandleAppendReply(n, r).matched && HandleAppendReply(n, r).matched[q] == n.matched[q]
  {
    hide CommitScan, Backtrack;
  }

  // ---------------------------------------------------------------- snapshots

  /** A snapshot and its answer: the next request starts right after what the peer holds. */
  lemma InstallExchange(n: Node, p: Id, f: Node)
    requires |n.log| > 0 && n.role == Leader && n.snapshot.Some? && p in n.next && p in n.matched
    requires WfLog(f.log) && First(f.log) <= f.commit && f.term <= n.term && p == f.id && p != n.id
    ensures SnapshotFor(n, p).Some?
    ensures var m := SnapshotFor(n, p).value;
            && m.InstallRequest? && m.from == n.id && m.to == p
            && var (f', r) := HandleInstall(f, m);
               && f'.role == Follower && f'.term == n.term && r.InstallReply? && r.from == p && r.to == n.id
               && var n' := HandleInstallReply(n, r);
                  && KnowsMore(n, n') && n'.next == n.next[p := n'.next[p]] && p in n'.matched
                  && n'.next[p] == n'.matched[p] + 1 && First(n.log) < n'.next[p]
                  && (n.id in n.matched ==> n.id in n'.matched && n'.matched[n.id] == n.matched[n.id])
  {
  }

  lemma SendsSnapshot(c: Cluster, id: Id, t: nat, p: Id)
    requires Facing(c, id, t, p) && NodeFacts(c, id) && SnapshotFor(c.procs[id].node, p).Some?
    ensures var m := SnapshotFor(c.procs[id].node, p).value;
            && NextStep(c, c.(net := c.net + {m}), SendInstall(id, p))
            && ProcStep(c, c.(net := c.net + {m}), id, c.procs[id], {m})
  {
    hide SnapshotFor;
    var m := SnapshotFor(c.procs[id].node, p).value;
    assert c.procs[id := c.procs[id]] == c.procs;
    assert RaftStepOf(c, c.(net := c.net + {m}), SendInstall(id, p));
  }

  lemma InstallRound(run: seq<Cluster>, id: Id, t: nat, p: Id) returns (run': seq<Cluster>)
    requires IsRun(run) && Facing(Now(run), id, t, p) && |Now(run).procs[id].node.log| > 0
    requires Now(run).procs[id].node.next[p] <= First(Now(run).procs[id].node.log)
    ensures GoesOn(run, run') && Leads(Now(run'), id, t) && Worked(Now(run), Now(run'), id)
    ensures var n, n' := Now(run).procs[id].node, Now(run').procs[id].node;
            p in n'.next && p in n'.matched && n'.next[p] == n'.matched[p] + 1 && First(n'.log) < n'.next[p]
  {
    hide Init, StepAt, GoesOn, HandleInstall, HandleInstallReply, SnapshotFor;
    var c := Now(run);
    var n, f := c.procs[id].node, c.procs[p].node;
    FacingPeer(run, id, t, p);
    InstallExchange(n, p, f);
    SendsSnapshot(c, id, t, p);
    var m := SnapshotFor(n, p).value;
    var (f', r) := HandleInstall(f, m);
    var n' := HandleInstallReply(n, r);
    run' := ThreeSteps(run, id, p, SendInstall(id, p), m, f', r, n');
    GoesOnParts(run, run');
    StillLeads(c, Now(run'), id, t, p, n', f');
  }

  // ---------------------------------------------------------------- all rounds

  /** Whatever the next index of a peer is, rounds of replication end with the peer up to date. */
  lemma {:induction false} CatchUp(run: seq<Cluster>, id: Id, t: nat, p: Id) returns (run': seq<Cluster>)
    requires IsRun(run) && Facing(Now(run), id, t, p)
    ensures GoesOn(run, run') && Leads(Now(run'), id, t) && Worked(Now(run), Now(run'), id)
    ensures UpToNow(Now(run').procs[id].node, p)
    decreases Now(run).procs[id].node.next[p]
  {
    hide Init, StepAt, GoesOn, Worked, UpToNow, NodeFacts;
    var c, n := Now(run), Now(run).procs[id].node;
    if First(n.log) < n.next[p] {
      var run1 := SendRound(run, id, t, p);
      GoesOnParts(run, run1);
      if UpToNow(Now(run1).procs[id].node, p) {
        run' := run1;
      } else {
        SameProcs(c, Now(run1), id);
        run' := CatchUp(run1, id, t, p);
        GoesFurther(run, run1, run');
        GoesOnParts(run, run');
        WorkedOn(c, Now(run1), Now(run'), id);
      }
    } else {
      var run1 := InstallRound(run, id, t, p);
      GoesOnParts(run, run1);
      SameProcs(c, Now(run1), id);
      run' := SendRound(run1, id, t, p);
      GoesFurther(run, run1, run');
      GoesOnParts(run, run');
      WorkedOn(c, Now(run1), Now(run'), id);
    }
  }

  lemma SameProcs(c: Cluster, c': Cluster, id: Id)
    requires Worked(c, c', id)
    ensures c'.procs.Keys == c.procs.Keys && c'.procs[id].node.log == c.procs[id].node.log
  {
  }

  /** Everybody outside `rest` is known to hold the leader's log. */
  ghost predicate AllButUpToNow(c: Cluster, id: Id, rest: set<Id>)
    requires id in c.procs && |c.procs[id].node.log| > 0
  {
    var n := c.procs[id].node;
    forall q :: q in c.procs && q !in rest ==> q in n.matched && n.matched[q] >= Last(n.log)
  }

  lemma StillUpToNow(c: Cluster, c': Cluster, id: Id, rest: set<Id>, q: Id)
    requires Worked(c, c', id) && |c.procs[id].node.log| > 0 && AllButUpToNow(c, id, rest)
    requires UpToNow(c'.procs[id].node, q)
    ensures |c'.procs[id].node.log| > 0 && AllButUpToNow(c', id, rest - {q})
  {
  }

  lemma {:induction false} CatchUpAll(run: seq<Cluster>, id: Id, t: nat, rest: set<Id>) returns (run': seq<Cluster>)
    requires IsRun(run) && Leads(Now(run), id, t) && rest <= Now(run).procs.Keys - {id} && rest != {}
    requires AllButUpToNow(Now(run), id, rest)
    ensures GoesOn(run, run') && Leads(Now(run'), id, t) && Worked(Now(run), Now(run'), id)
    ensures AllButUpToNow(Now(run'), id, {})
    ensures forall x: nat :: HeldByMost(Now(run').procs[id].node, x) ==> x <= Now(run').procs[id].node.commit
    decreases rest
  {
    hide Init, StepAt, GoesOn, Worked, AllButUpToNow, HeldByMost, NodeFacts;
    var q :| q in rest;
    FacingPeer(run, id, t, q);
    var run1 := CatchUp(run, id, t, q);
    GoesOnParts(run, run1);
    StillUpToNow(Now(run), Now(run1), id, rest, q);
    SameProcs(Now(run), Now(run1), id);
    if rest == {q} {
      run' := run1;
      assert rest - {q} == {};
    } else {
      run' := CatchUpAll(run1, id, t, rest - {q});
      GoesFurther(run, run1, run');
      GoesOnParts(run, run');
      WorkedOn(Now(run), Now(run1), Now(run'), id);
    }
  }

  /** Everything the leader has is then held by all, and so committed. */
  lemma AllIsCommitted(c: Cluster, id: Id, t: nat)
    requires Leads(c, id, t) && NodeFacts(c, id) && AllButUpToNow(c, id, {})
    requires forall x: nat :: HeldByMost(c.procs[id].node, x) ==> x <= c.procs[id].node.commit
    requires First(c.procs[id].node.log) < Last(c.procs[id].node.log)
    ensures c.procs[id].node.commit == Last(c.procs[id].node.log)
  {
    var n := c.procs[id].node;
    var x := Last(n.log);
    assert (set p | p in n.matched && n.matched[p] >= x) == c.procs.Keys;
    assert c.procs.Keys == n.peers + {id};
    assert |n.peers + {id}| == |n.peers| + 1;
    assert HeldByMost(n, x);
  }

  /** A leader that all others follow can commit its whole log. */
  lemma EverythingCanBeCommitted(run: seq<Cluster>, id: Id, t: nat) returns (run': seq<Cluster>)
    requires IsRun(run) && Leads(Now(run), id, t) && Now(run).procs[id].node.peers != {}
    requires First(Now(run).procs[id].node.log) < Last(Now(run).procs[id].node.log)
    ensures GoesOn(run, run') && Leads(Now(run'), id, t) && Worked(Now(run), Now(run'), id)
    ensures Now(run').procs[id].node.commit == Last(Now(run').procs[id].node.log)
  {
    hide Init, StepAt, GoesOn, HeldByMost;
    FactsOf(run, id);
    run' := CatchUpAll(run, id, t, Now(run).procs[id].node.peers);
    GoesOnParts(run, run');
    FactsOf(run', id);
    AllIsCommitted(Now(run'), id, t);
  }
}
