/** Every handler of a node keeps the invariant: each lemma gives the history events behind
    one handler call. */
module RaftHandlers {
  import opened Tasks
  import opened QueueView
  import opened RaftLog
  import opened RaftHistory
  import E = RaftEvents
  import opened RaftStep
  import opened RaftCompaction
  import opened RaftInvariant

  /** The handler call took `n` to `n'` and moved nobody else. */
  ghost predicate StepOk(g: Ghost, g': Ghost, id: Id, n: Node, n': Node) {
    && GhostOk(g') && Local(g, g', id)
    && NodeInv(g', id, n')
    && Advances(g, g', id, n, n')
  }

  lemma StepParts(g: Ghost, g': Ghost, id: Id, n: Node, n': Node)
    requires StepOk(g, g', id, n, n')
    ensures GhostOk(g') && Local(g, g', id) && GhostGrows(g, g') && NodeInv(g', id, n')
  {
    hide Inv, Committed, Grows, OnlyMoves, Rep, Safe, SnapshotOf;
  }

  lemma StepTransitive(a: Ghost, b: Ghost, c: Ghost, id: Id, n: Node, n': Node, n'': Node)
    requires StepOk(a, b, id, n, n') && StepOk(b, c, id, n', n'')
    ensures StepOk(a, c, id, n, n'')
  {
    hide Inv, Committed, Grows, OnlyMoves, NodeInv;
    E.GrowsTransitive(a.h, b.h, c.h);
    OnlyMovesTransitive(a.h, b.h, c.h, id);
    assert a.h.log[id][..n.commit] <= b.h.log[id][..n'.commit];
  }

  lemma OnlyMovesTransitive(a: History, b: History, c: History, id: Id)
    requires OnlyMoves(a, b, id) && OnlyMoves(b, c, id) && Grows(a, b) && Grows(b, c)
    ensures OnlyMoves(a, c, id)
  {
    forall p | p in a.nodes && p != id
      ensures c.log[p] == a.log[p] && c.term[p] == a.term[p]
    {
      assert b.log[p] == a.log[p];
    }
    forall t | t in c.lead && c.leader[t] != id ensures t in a.lead && c.lead[t] == a.lead[t] {
      assert c.lead[t] == b.lead[t];
      assert LeadGrows(b, c, t);
    }
    forall p, t | p != id && At(p, t) in c.votes ensures At(p, t) in a.votes {
      assert At(p, t) in b.votes;
    }
  }

  lemma GrowsReflexive(h: History)
    requires Domains(h)
    ensures Grows(h, h)
  {
    forall t | t in h.lead ensures LeadGrows(h, h, t) { }
    forall n, t ensures AckGrows(h, h, n, t) { }
  }

  lemma LocalGrows(g: Ghost, g': Ghost, id: Id)
    requires Local(g, g', id)
    ensures GhostGrows(g, g') && Domains(g.h) && Domains(g'.h)
  {
  }

  /** Nothing in the history happened. */
  lemma QuietStep(g: Ghost, id: Id)
    requires GhostOk(g)
    ensures Local(g, g, id)
  {
    GrowsReflexive(g.h);
  }

  /** Histories that differ only in what node `id` does. */
  ghost predicate SameElsewhere(h: History, h': History, id: Id) {
    && id in h.nodes && id in h'.log && id in h'.term
    && h'.log == h.log[id := h'.log[id]]
    && h'.term == h.term[id := h'.term[id]]
    && (h'.lead == h.lead || (h'.term[id] in h'.lead && h'.lead == h.lead[h'.term[id] := h'.lead[h'.term[id]]]))
    && (h'.lead != h.lead ==> h'.term[id] in h'.leader && h'.leader[h'.term[id]] == id)
    && (forall p, t {:trigger At(p, t) in h'.votes} :: p != id && At(p, t) in h'.votes ==> At(p, t) in h.votes)
  }

  lemma SameElsewhereMoves(h: History, h': History, id: Id)
    requires Domains(h) && Domains(h') && SameElsewhere(h, h', id)
    ensures OnlyMoves(h, h', id)
  {
  }

  /** The history moved to `h'` by an event of node `id`. */
  lemma EventStep(g: Ghost, h': History, id: Id)
    requires GhostOk(g) && Inv(h') && Grows(g.h, h') && SameElsewhere(g.h, h', id)
    ensures GhostOk(g.(h := h')) && Local(g, g.(h := h'), id)
  {
    hide Inv, Committed, OnlyMoves, SameElsewhere;
    InvDomains(g.h);
    InvDomains(h');
    SameElsewhereMoves(g.h, h', id);
    CommittedGrows(g.h, h', g.decided, g.bound, g.bound);
  }

  lemma InvDomains(h: History)
    requires Inv(h)
    ensures Domains(h)
  {
  }

  // ---------------------------------------------------------------- terms

  lemma NoLaterVote(h: History, id: Id, t: nat)
    requires Inv(h) && id in h.nodes && h.term[id] < t
    ensures At(id, t) !in h.votes
  {
    assert At(id, t) in h.votes ==> VoteOk(h, At(id, t));
  }

  lemma NewTerm(g: Ghost, id: Id, n: Node, t: nat) returns (g': Ghost)
    requires GhostOk(g) && NodeInv(g, id, n) && n.term < t
    ensures StepOk(g, g', id, n, BecomeFollower(n, t))
    ensures g'.h == g.h.(term := g'.h.term) && g'.h.term[id] == t
  {
    hide Inv, Committed, Grows, OnlyMoves, Rep, SnapshotOf;
    InvDomains(g.h);
    var n' := BecomeFollower(n, t);
    g' := g.(h := E.AdvanceTerm(g.h, id, t));
    E.AdvanceTermKeeps(g.h, id, t);
    NoLaterVote(g.h, id, t);
    EventStep(g, g'.h, id);
    SafeGrows(g, g', g.h.log[id][..n.commit], n.term, t);
    assert LogOk(g', id, n');
    assert VotedOk(g', id, n');
    assert SnapOk(g', id, n');
  }

  /** A follower's own knowledge of the leader changes nothing that matters. */
  lemma FollowerOk(g: Ghost, id: Id, n: Node, n': Node)
    requires NodeInv(g, id, n)
    requires n'.role == Follower && n' == n.(role := Follower, leaderId := n'.leaderId)
    ensures NodeInv(g, id, n')
  {
    hide Committed, Rep, SnapshotOf, LeaderOk, CandidateOk, Domains;
    assert LogOk(g, id, n');
    assert SnapOk(g, id, n');
  }

  lemma StepDown(g: Ghost, id: Id, n: Node, t: nat) returns (g': Ghost)
    requires GhostOk(g) && NodeInv(g, id, n)
    ensures StepOk(g, g', id, n, BecomeFollower(n, t))
    ensures g'.h == g.h.(term := g'.h.term) && g'.h.term[id] == (if t > n.term then t else n.term)
  {
    hide Inv, Committed, Grows, Rep, SnapshotOf, OnlyMoves, Domains, LeaderOk, CandidateOk;
    if t > n.term {
      g' := NewTerm(g, id, n, t);
    } else {
      g' := g;
      QuietStep(g, id);
      FollowerOk(g, id, n, BecomeFollower(n, t));
    }
  }

  lemma FollowsStep(g: Ghost, id: Id, n: Node, t: nat, leader: Id) returns (g': Ghost)
    requires GhostOk(g) && NodeInv(g, id, n) && n.term <= t
    ensures StepOk(g, g', id, n, Follows(n, t, leader))
    ensures g'.h == g.h.(term := g'.h.term) && g'.h.term[id] == t
  {
    hide GhostOk, Local, NodeInv;
    g' := StepDown(g, id, n, t);
    FollowerOk(g', id, BecomeFollower(n, t), Follows(n, t, leader));
  }

  // ---------------------------------------------------------------- elections

  lemma NextTermIsNotMine(h: History, id: Id)
    requires Inv(h) && id in h.nodes && h.term[id] + 1 in h.lead
    ensures h.leader[h.term[id] + 1] != id
  {
    assert LeadOk(h, h.term[id] + 1);
  }

  lemma StartElectionStep(g: Ghost, id: Id, n: Node) returns (g': Ghost)
    requires GhostOk(g) && NodeInv(g, id, n) && n.role != Leader
    ensures StepOk(g, g', id, n, StartElection(n))
    ensures forall p :: p in n.peers ==> MsgInv(g', VoteRequestTo(StartElection(n), p))
  {
    hide Inv, Committed, Grows, OnlyMoves, Rep, SnapshotOf, Safe, CandidateOk;
    InvDomains(g.h);
    var n' := StartElection(n);
    g' := g.(h := E.StartRun(g.h, id));
    E.StartRunKeeps(g.h, id);
    EventStep(g, g'.h, id);
    SafeGrows(g, g', g.h.log[id][..n.commit], n.term, n'.term);
    NewCandidateOk(g, id, n);
    assert LogOk(g', id, n');
    assert VotedOk(g', id, n');
    assert SnapOk(g', id, n');
  }

  /** The candidate runs with its log, has only its own vote, and says so in its requests. */
  lemma NewCandidateOk(g: Ghost, id: Id, n: Node)
    requires GhostOk(g) && NodeInv(g, id, n)
    ensures id in g.h.term && id in g.h.log && |n.log| > 0
    ensures var g' := g.(h := E.StartRun(g.h, id));
            && CandidateOk(g', id, StartElection(n))
            && forall p :: p in n.peers ==> MsgInv(g', VoteRequestTo(StartElection(n), p))
  {
    hide Inv, Committed, Rep, SnapshotOf, VotedOk, LeaderOk, Safe;
    InvDomains(g.h);
    if n.term + 1 in g.h.lead { NextTermIsNotMine(g.h, id); }
    RepBasics(n.log, g.h.log[id]);
  }

  lemma GrantStep(g: Ghost, id: Id, n: Node, m: Msg) returns (g': Ghost)
    requires GhostOk(g) && NodeInv(g, id, n) && m.VoteRequest? && MsgInv(g, m) && m.to == id && m.term == n.term
    ensures StepOk(g, g', id, n, GrantVote(n, m).0) && MsgInv(g', GrantVote(n, m).1)
  {
    hide Inv, Committed, Grows, OnlyMoves, Rep, SnapshotOf;
    InvDomains(g.h);
    RepBasics(n.log, g.h.log[id]);
    var (n', r) := GrantVote(n, m);
    if n'.votedFor == n.votedFor {
      g' := g;
      QuietStep(g, id);
      assert n' == n;
    } else {
      g' := g.(h := E.CastVote(g.h, id, m.from));
      E.CastVoteKeeps(g.h, id, m.from);
      EventStep(g, g'.h, id);
      SafeGrows(g, g', g.h.log[id][..n.commit], n.term, n.term);
      assert LogOk(g', id, n');
      assert VotedOk(g', id, n');
      assert SnapOk(g', id, n');
      assert n.role == Candidate ==> CandidateOk(g', id, n');
      assert n.role == Leader ==> LeaderOk(g', id, n');
    }
  }

  lemma VoteRequestStep(g: Ghost, id: Id, n: Node, m: Msg) returns (g': Ghost)
    requires GhostOk(g) && NodeInv(g, id, n) && m.VoteRequest? && MsgInv(g, m) && m.to == id
    ensures StepOk(g, g', id, n, HandleVoteRequest(n, m).0) && MsgInv(g', HandleVoteRequest(n, m).1)
  {
    hide Inv, Committed, Grows, Rep, SnapshotOf, OnlyMoves, LeaderOk, CandidateOk;
    var n1, g1 := n, g;
    QuietStep(g, id);
    if m.term > n.term {
      n1 := BecomeFollower(n, m.term);
      g1 := StepDown(g, id, n, m.term);
    }
    MsgGrows(g, g1, m);
    if m.term < n1.term {
      g' := g1;
    } else {
      g' := GrantStep(g1, id, n1, m);
      StepTransitive(g, g1, g', id, n, n1, GrantVote(n1, m).0);
    }
  }

  /** The node's log moved but kept everything committed: commit index, boundary and snapshots
      still describe it. */
  lemma LogMoved(g: Ghost, g': Ghost, id: Id, n: Node, n': Node)
    requires GhostOk(g) && NodeInv(g, id, n) && GhostGrows(g, g') && id in g'.h.log
    requires Rep(n'.log, g'.h.log[id]) && First(n'.log) == First(n.log) && n.term <= n'.term
    requires g.h.log[id][..n.commit] <= g'.h.log[id]
    requires n'.commit == n.commit && n'.applied == n.applied && n'.snapshot == n.snapshot && n'.pending == n.pending
    ensures LogOk(g', id, n') && SnapOk(g', id, n') && Advances(g, g', id, n, n')
  {
    hide Inv, Committed, Grows, Rep, SnapshotOf;
    var l, l' := g.h.log[id], g'.h.log[id];
    RepBasics(n'.log, l');
    assert l'[..n.commit] == l[..n.commit];
    SafeGrows(g, g', l[..n.commit], n.term, n'.term);
    assert l'[..First(n.log)] == l[..First(n.log)];
    if n.snapshot.Some? {
      SnapshotOfLonger(g.retries, n.snapshot.value, l, l', First(n.log));
    }
    if n.pending.Some? {
      SnapshotOfLonger(g.retries, n.pending.value.data, l, l', First(n.log));
    }
  }

  lemma TermIsOpen(g: Ghost, id: Id, n: Node)
    requires GhostOk(g) && NodeInv(g, id, n) && n.role == Candidate && |n.votes| >= QuorumSize(n)
    ensures n.term !in g.h.lead && IsQuorum(g.h.nodes, n.votes)
  {
    hide Inv, Committed, Grows, Rep, SnapshotOf;
    assert g.h.nodes == n.peers + {id};
    if n.term in g.h.lead {
      E.QuorumNamesLeader(g.h, id, n.term, n.votes);
    }
  }

  lemma NewLeaderMaps(n: Node, nodes: set<Id>)
    requires |n.log| > 0 && n.id in nodes && n.peers == nodes - {n.id}
    requires n.matched.Keys <= nodes && n.next.Keys <= n.peers
    ensures var n' := BecomeLeader(n);
            && n'.matched.Keys == nodes && n'.next.Keys == n.peers
            && (forall p :: p in n.peers ==> n'.matched[p] == 0 && n'.next[p] == Last(n.log) + 1)
            && n'.matched[n.id] == Last(n.log) + 1
  {
  }

  lemma WinLeaderOk(g: Ghost, g': Ghost, id: Id, n: Node)
    requires IdOk(g, id, n) && |n.log| > 0 && Last(n.log) == |g.h.log[id]|
    requires g'.h == E.Win(g.h, id, n.votes, NoOp(n)) && Domains(g'.h)
    ensures IdOk(g', id, BecomeLeader(n)) && LeaderOk(g', id, BecomeLeader(n))
  {
    hide BecomeLeader, SetAll;
    NewLeaderMaps(n, g.h.nodes);
    NewLeaderFields(n);
    var n' := BecomeLeader(n);
    assert Ack(g'.h, id, n.term) == |g.h.log[id]| + 1;
    assert forall p :: p in g.h.nodes && p != id ==> p in n.peers && n'.matched[p] == 0;
  }

  lemma NewLeaderFields(n: Node)
    requires |n.log| > 0
    ensures BecomeLeader(n).id == n.id && BecomeLeader(n).peers == n.peers && BecomeLeader(n).term == n.term
    ensures BecomeLeader(n).role == Leader
  {
  }

  lemma WinEvent(g: Ghost, id: Id, n: Node) returns (g': Ghost)
    requires GhostOk(g) && NodeInv(g, id, n) && n.role == Candidate && |n.votes| >= QuorumSize(n)
    ensures GhostOk(g') && Local(g, g', id)
    ensures g' == g.(h := E.Win(g.h, id, n.votes, NoOp(n)))
  {
    hide Inv, Committed, Grows, OnlyMoves, Rep, SnapshotOf;
    InvDomains(g.h);
    var e := NoOp(n);
    RepBasics(n.log, g.h.log[id]);
    TermIsOpen(g, id, n);
    g' := g.(h := E.Win(g.h, id, n.votes, e));
    E.WinKeeps(g.h, id, n.votes, e);
    EventStep(g, g'.h, id);
  }

  lemma WinStep(g: Ghost, id: Id, n: Node) returns (g': Ghost)
    requires GhostOk(g) && NodeInv(g, id, n) && n.role == Candidate && |n.votes| >= QuorumSize(n)
    ensures StepOk(g, g', id, n, BecomeLeader(n))
  {
    hide GhostOk, Local, LeaderOk, CandidateOk, Safe, Rep, SnapshotOf;
    g' := WinEvent(g, id, n);
    var n', e := BecomeLeader(n), NoOp(n);
    RepBasics(n.log, g.h.log[id]);
    RepAppend(n.log, g.h.log[id], e);
    LocalGrows(g, g', id);
    LogMoved(g, g', id, n, n');
    WinLeaderOk(g, g', id, n);
  }

  lemma VoteReplyStep(g: Ghost, id: Id, n: Node, m: Msg) returns (g': Ghost)
    requires GhostOk(g) && NodeInv(g, id, n) && m.VoteReply? && MsgInv(g, m) && m.to == id
    ensures StepOk(g, g', id, n, HandleVoteReply(n, m))
  {
    hide Inv, Committed, Grows, Rep, SnapshotOf, OnlyMoves;
    if m.term > n.term {
      g' := StepDown(g, id, n, m.term);
    } else {
      g' := g;
      QuietStep(g, id);
      if n.role == Candidate && n.term == m.reqTerm && m.granted {
        var n1 := n.(votes := n.votes + {m.from});
        assert CandidateOk(g, id, n1);
        assert LogOk(g, id, n1) && SnapOk(g, id, n1) && VotedOk(g, id, n1);
        if |n1.votes| >= QuorumSize(n1) {
          g' := WinStep(g, id, n1);
        }
      }
    }
  }

  lemma ExtendEvent(g: Ghost, id: Id, n: Node, e: Entry) returns (g': Ghost)
    requires GhostOk(g) && NodeInv(g, id, n) && n.role == Leader
    requires e.term == n.term && e.index == |g.h.log[id]| + 1
    ensures GhostOk(g') && Local(g, g', id)
    ensures g' == g.(h := E.Extend(g.h, id, e))
  {
    hide Inv, Committed, Grows, OnlyMoves, Rep, SnapshotOf;
    InvDomains(g.h);
    g' := g.(h := E.Extend(g.h, id, e));
    E.ExtendKeeps(g.h, id, e);
    EventStep(g, g'.h, id);
  }

  lemma ExtendLeaderOk(g: Ghost, g': Ghost, id: Id, n: Node, command: Command)
    requires IdOk(g, id, n) && LeaderOk(g, id, n) && n.role == Leader
    requires |n.log| > 0 && Last(n.log) == |g.h.log[id]| && Domains(g'.h)
    requires g'.h == E.Extend(g.h, id, Entry(Last(n.log) + 1, n.term, command))
    ensures IdOk(g', id, Propose(n, command)) && LeaderOk(g', id, Propose(n, command))
  {
    var n' := Propose(n, command);
    forall p | p in g.h.nodes ensures n'.matched[p] <= Ack(g'.h, p, n.term) {
      assert n.matched[p] <= Ack(g.h, p, n.term);
    }
  }

  lemma ProposeStep(g: Ghost, id: Id, n: Node, command: Command) returns (g': Ghost)
    requires GhostOk(g) && NodeInv(g, id, n)
    ensures StepOk(g, g', id, n, Propose(n, command))
    ensures n.role == Leader ==>
              && n.term in g'.h.lead
              && var i := Last(n.log); i < |g'.h.lead[n.term]| && g'.h.lead[n.term][i] == Entry(i + 1, n.term, command)
  {
    hide GhostOk, Local, LeaderOk, CandidateOk, Safe, Rep, SnapshotOf;
    if n.role == Leader {
      RepBasics(n.log, g.h.log[id]);
      var n', e := Propose(n, command), Entry(Last(n.log) + 1, n.term, command);
      g' := ExtendEvent(g, id, n, e);
      LocalGrows(g, g', id);
      RepAppend(n.log, g.h.log[id], e);
      LogMoved(g, g', id, n, n');
      ExtendLeaderOk(g, g', id, n, command);
    } else {
      g' := g;
      QuietStep(g, id);
    }
  }
}
