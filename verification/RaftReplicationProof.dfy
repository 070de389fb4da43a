/** The replication, snapshot and restart handlers keep the invariant. */
module RaftReplicationProof {
  import opened Tasks
  import opened QueueView
  import opened RaftLog
  import opened RaftHistory
  import E = RaftEvents
  import opened RaftStep
  import opened RaftCompaction
  import opened RaftInvariant
  import opened RaftHandlers

  // ---------------------------------------------------------------- sending

  /** A shorter prefix of a node's committed log is committed. */
  lemma SafePrefix(g: Ghost, log: Log, k: nat, bound: nat)
    requires Safe(g, log, bound) && k <= |log|
    ensures Safe(g, log[..k], bound)
  {
    CommittedPrefix(g.h, log, k, bound);
  }

  lemma InstallRequestOk(g: Ghost, id: Id, n: Node, peer: Id)
    requires GhostOk(g) && NodeInv(g, id, n) && n.role == Leader && peer in n.peers && n.snapshot.Some?
    ensures |n.log| > 0 && SnapshotFor(n, peer).Some? && MsgInv(g, SnapshotFor(n, peer).value)
  {
    hide Inv, Committed, SnapshotOf;
    var l := g.h.log[id];
    SafePrefix(g, l[..n.commit], First(n.log), n.term);
    assert l[..n.commit][..First(n.log)] == l[..First(n.log)];
  }

  lemma AppendRequestOk(g: Ghost, id: Id, n: Node, peer: Id)
    requires GhostOk(g) && NodeInv(g, id, n) && n.role == Leader && peer in n.peers
    requires First(n.log) < n.next[peer]
    ensures WfLog(n.log) && n.next[peer] <= Last(n.log) + 1
    ensures var next := n.next[peer];
            MsgInv(g, AppendRequest(id, peer, n.term, next - 1, TermOf(n.log, next - 1), SliceFrom(n.log, next),
                                    n.commit))
  {
    hide Inv, Committed, SnapOk, VotedOk, Rep;
    var l, next := g.h.log[id], n.next[peer];
    RepAt(n.log, l, next - 1);
    RepSlice(n.log, l, next);
    assert l[next - 1..] == l[next - 1..next - 1 + |l[next - 1..]|];
  }

  /** Whatever a leader sends to a peer tells the truth about its log and its commits. */
  lemma ReplicateOk(g: Ghost, id: Id, n: Node, peer: Id)
    requires GhostOk(g) && NodeInv(g, id, n) && n.role == Leader && peer in n.peers
    ensures WfLog(n.log) && peer in n.next && n.next[peer] <= Last(n.log) + 1
    ensures Replicate(n, peer).Some? ==> MsgInv(g, Replicate(n, peer).value)
  {
    hide Inv, Committed, SnapshotOf, MsgInv;
    RepBasics(n.log, g.h.log[id]);
    if First(n.log) < n.next[peer] {
      AppendRequestOk(g, id, n, peer);
    }
  }

  // ---------------------------------------------------------------- receiving entries

  lemma AcceptEvent(g: Ghost, id: Id, n: Node, k: nat) returns (g': Ghost)
    requires GhostOk(g) && IdOk(g, id, n) && n.term in g.h.lead && k <= |g.h.lead[n.term]|
    ensures GhostOk(g') && Local(g, g', id)
    ensures g' == g.(h := E.Accept(g.h, id, k))
  {
    hide Inv, Committed, Grows, OnlyMoves;
    InvDomains(g.h);
    g' := g.(h := E.Accept(g.h, id, k));
    E.AcceptKeeps(g.h, id, k);
    EventStep(g, g'.h, id);
  }

  /** A follower never loses what it knows to be committed. */
  lemma AcceptedKeepsCommitted(g: Ghost, id: Id, n: Node, k: nat)
    requires GhostOk(g) && NodeInv(g, id, n) && n.term in g.h.lead && k <= |g.h.lead[n.term]|
    ensures g.h.log[id][..n.commit] <= g.h.lead[n.term]
    ensures g.h.log[id][..n.commit] <= E.Accepted(g.h, id, k)
  {
    hide Inv, Committed, Rep, SnapshotOf;
    var l, a := g.h.log[id], g.h.lead[n.term];
    CommittedIsLed(g.h, l[..n.commit], n.term);
    assert n.commit > k ==> a[..k] <= l;
  }

  /** A node learns that more of its log is committed. */
  lemma CommitRaised(g: Ghost, id: Id, n: Node, c: nat)
    requires NodeInv(g, id, n) && n.commit <= c <= |g.h.log[id]| && Safe(g, g.h.log[id][..c], n.term)
    ensures NodeInv(g, id, n.(commit := c))
    ensures n.role == Leader ==> LeaderOk(g, id, n.(commit := c))
  {
    hide Committed, Rep, SnapshotOf, Domains;
    var n' := n.(commit := c);
    assert LogOk(g, id, n') && SnapOk(g, id, n') && VotedOk(g, id, n');
    assert n.role == Candidate ==> CandidateOk(g, id, n');
  }

  /** The node confirms the leader's first `k` entries; `log'` represents the result. */
  lemma AcceptStep(g: Ghost, id: Id, n: Node, k: nat, log': seq<Entry>) returns (g': Ghost)
    requires GhostOk(g) && NodeInv(g, id, n) && n.role == Follower
    requires n.term in g.h.lead && k <= |g.h.lead[n.term]|
    requires Rep(log', E.Accepted(g.h, id, k)) && First(log') == First(n.log)
    ensures StepOk(g, g', id, n, n.(log := log'))
    ensures g' == g.(h := E.Accept(g.h, id, k))
  {
    hide GhostOk, Local, CandidateOk, LeaderOk, Safe, Rep, SnapshotOf, E.Accepted;
    g' := AcceptEvent(g, id, n, k);
    AcceptedKeepsCommitted(g, id, n, k);
    LocalGrows(g, g', id);
    LogMoved(g, g', id, n, n.(log := log'));
  }

  lemma {:induction false} ConflictStartBounds(log: seq<Entry>, i: nat, t: nat)
    requires WfLog(log) && First(log) <= i <= Last(log)
    ensures First(log) <= ConflictStart(log, i, t) <= i
    decreases i
  {
    if i > First(log) + 1 && TermOf(log, i - 1) == t {
      ConflictStartBounds(log, i - 1, t);
    }
  }

  /** The window handed to the consistency check is a piece of the leader's log. */
  ghost predicate Window(g: Ghost, m: Msg, prev: nat, prevTerm: nat, entries: seq<Entry>)
    requires m.AppendRequest?
  {
    && m.term in g.h.lead
    && prev + |entries| == m.prev + |m.entries| <= |g.h.lead[m.term]|
    && prevTerm == TermAt(g.h.lead[m.term], prev)
    && entries == g.h.lead[m.term][prev..prev + |entries|]
  }

  lemma WindowFollows(g: Ghost, m: Msg, prev: nat, prevTerm: nat, entries: seq<Entry>)
    requires GhostOk(g) && m.AppendRequest? && Window(g, m, prev, prevTerm, entries)
    ensures Follow(entries, prev)
  {
    assert LeadOk(g.h, m.term);
  }

  /** Passing the consistency check means sharing the leader's log up to there. */
  lemma CheckedPrefix(g: Ghost, id: Id, n: Node, t: nat, prev: nat)
    requires GhostOk(g) && NodeInv(g, id, n) && t in g.h.lead && prev <= |g.h.lead[t]|
    requires First(n.log) <= prev <= |g.h.log[id]|
    requires TermAt(g.h.log[id], prev) == TermAt(g.h.lead[t], prev)
    ensures g.h.log[id][..prev] == g.h.lead[t][..prev]
  {
    assert NodeOk(g.h, id);
    LeadMatches(g.h, t);
    if prev > 0 {
      SamePrefix(g.h, g.h.log[id], g.h.lead[t], prev);
    }
  }

  lemma MergedRep(g: Ghost, id: Id, n: Node, t: nat, prev: nat, entries: seq<Entry>)
    requires GhostOk(g) && NodeInv(g, id, n) && t == n.term && t in g.h.lead
    requires First(n.log) <= prev <= |g.h.log[id]| && prev + |entries| <= |g.h.lead[t]|
    requires g.h.log[id][..prev] == g.h.lead[t][..prev]
    requires entries == g.h.lead[t][prev..prev + |entries|] && Follow(entries, prev)
    ensures WfLog(n.log) && Last(n.log) == |g.h.log[id]|
    ensures Rep(Merge(n.log, entries), E.Accepted(g.h, id, prev + |entries|))
  {
    assert NodeOk(g.h, id);
    LeadMatches(g.h, t);
    hide Inv, Committed, SnapshotOf, Rep;
    RepMerge(g.h, n.log, g.h.log[id], g.h.lead[t], prev, entries, E.Accepted(g.h, id, prev + |entries|));
  }

  lemma {:induction false} MergeKeepsFirst(log: seq<Entry>, entries: seq<Entry>)
    requires WfLog(log)
    requires entries != [] ==> First(log) < entries[0].index <= Last(log) + 1 && Follow(entries, entries[0].index - 1)
    ensures |Merge(log, entries)| > 0 && Merge(log, entries)[0] == log[0]
    decreases |entries|
  {
    if entries != [] && entries[0].index <= Last(log) && TermOf(log, entries[0].index) == entries[0].term {
      MergeKeepsFirst(log, entries[1..]);
    }
  }

  lemma WindowMerged(g: Ghost, id: Id, n: Node, t: nat, prev: nat, entries: seq<Entry>) returns (g': Ghost)
    requires GhostOk(g) && NodeInv(g, id, n) && n.role == Follower && n.term == t && t in g.h.lead
    requires prev + |entries| <= |g.h.lead[t]| && entries == g.h.lead[t][prev..prev + |entries|]
    requires WfLog(n.log) && Last(n.log) == |g.h.log[id]| && Follow(entries, prev)
    requires First(n.log) <= prev <= |g.h.log[id]| && TermOf(n.log, prev) == TermAt(g.h.lead[t], prev)
    ensures StepOk(g, g', id, n, n.(log := Merge(n.log, entries)))
    ensures g'.h == E.Accept(g.h, id, prev + |entries|)
    ensures g.h.lead[t][..prev + |entries|] <= g'.h.log[id]
  {
    hide GhostOk, Local, CandidateOk, LeaderOk, Safe, Rep, SnapshotOf;
    RepAt(n.log, g.h.log[id], prev);
    CheckedPrefix(g, id, n, t, prev);
    MergedRep(g, id, n, t, prev, entries);
    MergeKeepsFirst(n.log, entries);
    g' := AcceptStep(g, id, n, prev + |entries|, Merge(n.log, entries));
  }

  /** The commit index after an accepted window whose last entry is at `last`. */
  function CommitAfter(n: Node, m: Msg, last: nat): nat
    requires m.AppendRequest?
  {
    if m.commit > n.commit then (if m.commit < last then m.commit else last) else n.commit
  }

  lemma AcceptedReplyOk(g: Ghost, g': Ghost, id: Id, n: Node, m: Msg)
    requires m.AppendRequest? && MsgInv(g', m) && IdOk(g, id, n) && m.to == id && n.term == m.term
    requires n.term in g.h.lead && m.prev + |m.entries| <= |g.h.lead[n.term]|
    requires id in g.h.term && g.h.term[id] == n.term && id in g.h.log
    requires g'.h == E.Accept(g.h, id, m.prev + |m.entries|)
    ensures MsgInv(g', Accepted(n, m))
  {
    hide Safe;
  }

  /** The commit index moves only over entries the request confirmed. */
  lemma AcceptedCommit(g: Ghost, g': Ghost, id: Id, n: Node, m: Msg, log': seq<Entry>, last: nat)
    requires GhostGrows(g, g') && m.AppendRequest? && MsgInv(g, m) && m.prev + |m.entries| == last && n.term == m.term
    requires StepOk(g, g', id, n, n.(log := log')) && id in g'.h.log
    requires last <= |g.h.lead[m.term]| && g.h.lead[m.term][..last] <= g'.h.log[id]
    ensures StepOk(g, g', id, n, n.(log := log', commit := CommitAfter(n, m, last)))
  {
    hide GhostOk, Local, LogOk, SnapOk, VotedOk, CandidateOk, LeaderOk, Safe, GhostGrows;
    if m.commit > n.commit {
      var a := g.h.lead[m.term];
      SafeGrows(g, g', a[..m.commit], m.term, m.term);
      assert g'.h.log[id][..m.commit] == a[..m.commit];
      CommitRaised(g', id, n.(log := log'), m.commit);
    }
  }

  /** An accepted window: the log takes the leader's entries, the commit index follows the
      leader's and never passes what the request confirmed. */
  lemma WindowAccepted(g: Ghost, id: Id, n: Node, m: Msg, prev: nat, prevTerm: nat, entries: seq<Entry>)
    returns (g': Ghost)
    requires GhostOk(g) && NodeInv(g, id, n) && n.role == Follower && n.term == m.term
    requires m.AppendRequest? && MsgInv(g, m) && m.to == id && Window(g, m, prev, prevTerm, entries)
    requires WfLog(n.log) && Last(n.log) == |g.h.log[id]| && Follow(entries, prev)
    requires First(n.log) <= prev <= |g.h.log[id]| && TermOf(n.log, prev) == prevTerm
    ensures StepOk(g, g', id, n, AppendWindow(n, m, prev, prevTerm, entries).0)
    ensures MsgInv(g', AppendWindow(n, m, prev, prevTerm, entries).1)
  {
    hide GhostOk, Local, LogOk, SnapOk, VotedOk, CandidateOk, LeaderOk, Rep, Merge, GhostGrows, MsgInv, Advances;
    var last := prev + |entries|;
    g' := WindowMerged(g, id, n, m.term, prev, entries);
    LocalGrows(g, g', id);
    MsgGrows(g, g', m);
    AcceptedReplyOk(g, g', id, n, m);
    AcceptedCommit(g, g', id, n, m, Merge(n.log, entries), last);
  }

  lemma WindowRejected(g: Ghost, id: Id, n: Node, m: Msg, prev: nat, prevTerm: nat, entries: seq<Entry>)
    requires GhostOk(g) && NodeInv(g, id, n) && m.AppendRequest? && MsgInv(g, m) && m.to == id
    requires Window(g, m, prev, prevTerm, entries)
    requires WfLog(n.log) && Last(n.log) == |g.h.log[id]| && First(n.log) <= prev && Follow(entries, prev)
    requires prev > Last(n.log) || TermOf(n.log, prev) != prevTerm
    ensures AppendWindow(n, m, prev, prevTerm, entries).0 == n
    ensures MsgInv(g, AppendWindow(n, m, prev, prevTerm, entries).1)
  {
    hide GhostOk, CandidateOk, LeaderOk, Safe, Rep, SnapshotOf;
    if prev <= Last(n.log) {
      ConflictStartBounds(n.log, prev, TermOf(n.log, prev));
    }
  }

  lemma WindowStep(g: Ghost, id: Id, n: Node, m: Msg, prev: nat, prevTerm: nat, entries: seq<Entry>) returns (g': Ghost)
    requires GhostOk(g) && NodeInv(g, id, n) && n.role == Follower && n.term == m.term
    requires m.AppendRequest? && MsgInv(g, m) && m.to == id && Window(g, m, prev, prevTerm, entries)
    requires First(n.log) <= prev
    ensures WfLog(n.log) && Follow(entries, prev)
    ensures StepOk(g, g', id, n, AppendWindow(n, m, prev, prevTerm, entries).0)
    ensures MsgInv(g', AppendWindow(n, m, prev, prevTerm, entries).1)
  {
    hide GhostOk, Local, CandidateOk, LeaderOk, Safe, Rep, SnapshotOf, AppendWindow, MsgInv, Window;
    RepBasics(n.log, g.h.log[id]);
    WindowFollows(g, m, prev, prevTerm, entries);
    if prev > Last(n.log) || TermOf(n.log, prev) != prevTerm {
      g' := g;
      QuietStep(g, id);
      WindowRejected(g, id, n, m, prev, prevTerm, entries);
    } else {
      g' := WindowAccepted(g, id, n, m, prev, prevTerm, entries);
    }
  }

  /** A batch that ends below the receiver's snapshot is confirmed without touching the log:
      the receiver holds all of it as committed state. */
  lemma BelowSnapshot(g: Ghost, id: Id, n: Node, m: Msg) returns (g': Ghost)
    requires GhostOk(g) && NodeInv(g, id, n) && n.role == Follower && n.term == m.term
    requires m.AppendRequest? && MsgInv(g, m) && m.to == id && m.prev + |m.entries| < First(n.log)
    ensures StepOk(g, g', id, n, n) && MsgInv(g', Accepted(n, m))
  {
    hide GhostOk, Local, CandidateOk, LeaderOk, Safe, Rep, SnapshotOf;
    var k, l := m.prev + |m.entries|, g.h.log[id];
    AcceptedKeepsCommitted(g, id, n, k);
    assert g.h.lead[m.term][..k] == l[..k];
    assert E.Accepted(g.h, id, k) == l;
    g' := AcceptStep(g, id, n, k, n.log);
    assert n.(log := n.log) == n;
  }

  /** The shifted window starts at the snapshot boundary and is still a piece of the
      leader's log. */
  lemma ShiftedWindow(g: Ghost, id: Id, n: Node, m: Msg)
    requires GhostOk(g) && NodeInv(g, id, n) && n.term == m.term && m.AppendRequest? && MsgInv(g, m)
    requires m.prev < First(n.log) <= m.prev + |m.entries|
    ensures Window(g, m, First(n.log), n.log[0].term, m.entries[First(n.log) - m.prev..])
  {
    hide GhostOk, Local, CandidateOk, LeaderOk, Safe, SnapshotOf;
    var f, l, a := First(n.log), g.h.log[id], g.h.lead[m.term];
    AcceptedKeepsCommitted(g, id, n, 0);
    assert l[..f] == a[..f];
    assert l[f - 1] == a[f - 1];
    assert m.entries[f - m.prev..] == a[f..m.prev + |m.entries|];
  }

  /** A request of the node's own term. */
  lemma AppendCurrent(g: Ghost, id: Id, n: Node, m: Msg) returns (g': Ghost)
    requires GhostOk(g) && NodeInv(g, id, n) && n.role == Follower && n.leaderId == m.from && n.term == m.term
    requires m.AppendRequest? && MsgInv(g, m) && m.to == id && WfLog(n.log) && Follow(m.entries, m.prev)
    ensures StepOk(g, g', id, n, HandleAppend(n, m).0) && MsgInv(g', HandleAppend(n, m).1)
  {
    hide StepOk, GhostOk, NodeInv, MsgInv, AppendWindow;
    var first := First(n.log);
    if m.prev >= first {
      WholeWindow(g, m);
      g' := WindowStep(g, id, n, m, m.prev, m.prevTerm, m.entries);
    } else if first - m.prev > |m.entries| {
      g' := BelowSnapshot(g, id, n, m);
    } else {
      ShiftedWindow(g, id, n, m);
      g' := WindowStep(g, id, n, m, first, n.log[0].term, m.entries[first - m.prev..]);
    }
  }

  lemma WholeWindow(g: Ghost, m: Msg)
    requires m.AppendRequest? && MsgInv(g, m)
    ensures Window(g, m, m.prev, m.prevTerm, m.entries)
  {
    hide Safe;
  }

  lemma NodeBasics(g: Ghost, id: Id, n: Node)
    requires NodeInv(g, id, n)
    ensures WfLog(n.log) && First(n.log) <= n.commit <= Last(n.log) == |g.h.log[id]|
    ensures n.applied <= n.commit && n.id == id
  {
    hide Safe, SnapshotOf, CandidateOk, LeaderOk, Rep;
    RepBasics(n.log, g.h.log[id]);
  }

  lemma AppendStep(g: Ghost, id: Id, n: Node, m: Msg) returns (g': Ghost)
    requires GhostOk(g) && NodeInv(g, id, n) && m.AppendRequest? && MsgInv(g, m) && m.to == id
    ensures WfLog(n.log) && Follow(m.entries, m.prev)
    ensures StepOk(g, g', id, n, HandleAppend(n, m).0) && MsgInv(g', HandleAppend(n, m).1)
  {
    hide GhostOk, NodeInv, StepOk, MsgInv, Window, HandleAppend;
    NodeBasics(g, id, n);
    WholeWindow(g, m);
    WindowFollows(g, m, m.prev, m.prevTerm, m.entries);
    if m.term < n.term {
      g' := g;
      Unmoved(g, id, n);
      StaleReplyOk(g, id, n, m);
      StaleAppend(n, m);
    } else {
      FollowThenHandle(n, m);
      var n1 := Follows(n, m.term, m.from);
      var g1 := FollowsStep(g, id, n, m.term, m.from);
      StepParts(g, g1, id, n, n1);
      MsgGrows(g, g1, m);
      g' := AppendCurrent(g1, id, n1, m);
      StepTransitive(g, g1, g', id, n, n1, HandleAppend(n1, m).0);
    }
  }

  lemma StaleAppend(n: Node, m: Msg)
    requires WfLog(n.log) && m.AppendRequest? && Follow(m.entries, m.prev) && m.term < n.term
    ensures HandleAppend(n, m) == (n, Rejected(n, m, 0, 0))
  {
  }

  lemma Unmoved(g: Ghost, id: Id, n: Node)
    requires GhostOk(g) && NodeInv(g, id, n)
    ensures StepOk(g, g, id, n, n)
  {
    hide Inv, Committed, Grows, OnlyMoves, Rep, Safe, SnapshotOf, CandidateOk, LeaderOk;
    QuietStep(g, id);
    NodeBasics(g, id, n);
  }

  lemma StaleReplyOk(g: Ghost, id: Id, n: Node, m: Msg)
    requires NodeInv(g, id, n) && m.AppendRequest? && MsgInv(g, m) && m.to == id
    ensures MsgInv(g, Rejected(n, m, 0, 0))
  {
    hide Safe, LogOk, VotedOk, SnapOk, CandidateOk, LeaderOk;
  }

  /** Following the sender first and then handling its request is handling the request. */
  lemma FollowThenHandle(n: Node, m: Msg)
    requires WfLog(n.log) && First(n.log) <= n.commit && m.term >= n.term
    ensures m.AppendRequest? && Follow(m.entries, m.prev) ==>
              HandleAppend(Follows(n, m.term, m.from), m) == HandleAppend(n, m)
    ensures m.InstallRequest? ==> HandleInstall(Follows(n, m.term, m.from), m) == HandleInstall(n, m)
  {
    var n1 := Follows(n, m.term, m.from);
    assert Follows(n1, m.term, m.from) == n1;
  }

  // ---------------------------------------------------------------- counting replicas

  /** The current-term commit rule (section 5.4.2 of the Raft paper): an entry of the leader's
      own term known to be on a majority is chosen. */
  lemma CountedIsChosen(g: Ghost, id: Id, n: Node, i: nat)
    requires GhostOk(g) && IdOk(g, id, n) && LeaderOk(g, id, n)
    requires 0 < i <= |g.h.log[id]| && g.h.log[id][i - 1].term == n.term
    requires Holders(n.matched, i) >= QuorumSize(n)
    ensures Chosen(g.h, n.term, i)
  {
    hide Inv, Matches, AckedBy;
    LeaderEntries(g.h, n.term);
    var q := set p | p in n.matched && n.matched[p] >= i;
    assert g.h.nodes == n.peers + {id};
    assert IsQuorum(g.h.nodes, q);
    CountedAcked(g, id, n, i, q);
  }

  lemma LeaderEntries(h: History, t: nat)
    requires Inv(h) && t in h.lead
    ensures h.base[t] <= h.lead[t] && TermsBelow(h.base[t], t)
  {
    assert LeadOk(h, t);
  }

  lemma CountedAcked(g: Ghost, id: Id, n: Node, i: nat, q: set<Id>)
    requires LeaderOk(g, id, n) && q == (set p | p in n.matched && n.matched[p] >= i)
    requires IsQuorum(g.h.nodes, q)
    ensures AckedBy(g.h, q, n.term, i)
  {
  }

  lemma {:induction false} ScanIsCommitted(g: Ghost, id: Id, n: Node, i: nat)
    requires GhostOk(g) && NodeInv(g, id, n) && LeaderOk(g, id, n)
    requires WfLog(n.log) && i <= Last(n.log) == |g.h.log[id]|
    ensures n.commit <= CommitScan(n, i) <= |g.h.log[id]|
    ensures CommitScan(n, i) != n.commit ==> Committed(g.h, g.h.log[id][..CommitScan(n, i)], n.term)
    decreases i
  {
    hide GhostOk, CandidateOk, VotedOk, SnapOk, Safe, Rep, Holders, Chosen;
    if i > n.commit && i > First(n.log) {
      RepAt(n.log, g.h.log[id], i);
      if TermOf(n.log, i) == n.term {
        if Holders(n.matched, i) >= QuorumSize(n) {
          CountedIsChosen(g, id, n, i);
          assert CommittedAt(g.h, g.h.log[id][..i], n.term, n.term, i);
        } else {
          ScanIsCommitted(g, id, n, i - 1);
        }
      }
    }
  }

  /** A newly committed prefix extends what the cluster has decided, or repeats it. */
  lemma Decide(g: Ghost, log: Log, bound: nat) returns (g': Ghost)
    requires GhostOk(g) && Committed(g.h, log, bound)
    ensures GhostOk(g') && g'.h == g.h && GhostGrows(g, g') && Safe(g', log, bound)
  {
    hide Inv, Committed, Grows;
    InvDomains(g.h);
    GrowsReflexive(g.h);
    var b := if bound > g.bound then bound else g.bound;
    CommittedGrows(g.h, g.h, log, bound, b);
    CommittedGrows(g.h, g.h, g.decided, g.bound, b);
    if |log| <= |g.decided| {
      CommittedComparable(g.h, log, g.decided, b);
      g' := g.(bound := b);
    } else {
      CommittedComparable(g.h, g.decided, log, b);
      g' := g.(decided := log, bound := b);
    }
  }

  /** More being decided does not concern a node. */
  lemma NodeGrows(g: Ghost, g': Ghost, id: Id, n: Node)
    requires NodeInv(g, id, n) && GhostGrows(g, g') && g'.h == g.h
    ensures NodeInv(g', id, n)
  {
    hide Committed, Grows, Rep, SnapshotOf;
    SafeGrows(g, g', g.h.log[id][..n.commit], n.term, n.term);
    assert n.role == Candidate ==> CandidateOk(g', id, n);
    assert n.role == Leader ==> LeaderOk(g', id, n);
  }

  lemma AckBound(g: Ghost, p: Id, t: nat)
    requires GhostOk(g) && t in g.h.lead
    ensures Ack(g.h, p, t) <= |g.h.lead[t]|
  {
    assert At(p, t) in g.h.acks ==> AckOk(g.h, At(p, t));
  }

  /** matchIndex soundness: a leader only records what the peer confirmed in this term. */
  lemma RaiseOk(g: Ghost, id: Id, n: Node, peer: Id, i: nat)
    requires GhostOk(g) && NodeInv(g, id, n) && n.role == Leader && peer in n.peers
    requires i <= Ack(g.h, peer, n.term)
    ensures NodeInv(g, id, RaiseMatch(n, peer, i))
  {
    hide GhostOk, CandidateOk, Safe, SnapshotOf, Rep;
    AckBound(g, peer, n.term);
    var n' := RaiseMatch(n, peer, i);
    assert n'.matched.Keys == n.matched.Keys && n'.next.Keys == n.next.Keys;
    assert LeaderOk(g, id, n');
    assert LogOk(g, id, n') && SnapOk(g, id, n') && VotedOk(g, id, n');
  }

  lemma CountStep(g: Ghost, id: Id, n: Node, peer: Id, i: nat) returns (g': Ghost)
    requires GhostOk(g) && NodeInv(g, id, n) && n.role == Leader && peer in n.peers
    requires i <= Ack(g.h, peer, n.term)
    ensures WfLog(n.log)
    ensures var n1 := RaiseMatch(n, peer, i); StepOk(g, g', id, n, n1.(commit := CommitScan(n1, Last(n1.log))))
  {
    hide GhostOk, CandidateOk, SnapshotOf, Rep, OnlyMoves, Grows, Committed, RaiseMatch;
    RepBasics(n.log, g.h.log[id]);
    RaiseOk(g, id, n, peer, i);
    RaiseFrame(n, peer, i);
    var n1 := RaiseMatch(n, peer, i);
    ScanIsCommitted(g, id, n1, Last(n.log));
    var c := CommitScan(n1, Last(n.log));
    QuietStep(g, id);
    if c == n.commit {
      g' := g;
      assert n1.(commit := c) == n1;
    } else {
      g' := Decide(g, g.h.log[id][..c], n.term);
      NodeGrows(g, g', id, n1);
      CommitRaised(g', id, n1, c);
    }
  }

  lemma RaiseFrame(n: Node, peer: Id, i: nat)
    ensures var n1 := RaiseMatch(n, peer, i); n1 == n.(matched := n1.matched, next := n1.next)
  {
  }

  lemma {:induction false} LastOfTermBound(log: seq<Entry>, i: nat, t: nat)
    requires WfLog(log) && i <= Last(log)
    ensures LastOfTerm(log, i, t) <= i
    decreases i
  {
    if i > First(log) && TermOf(log, i) > t {
      LastOfTermBound(log, i - 1, t);
    }
  }

  lemma BacktrackStep(g: Ghost, id: Id, n: Node, peer: Id, t: nat, i: nat)
    requires GhostOk(g) && NodeInv(g, id, n) && n.role == Leader && peer in n.peers && i <= |g.h.log[id]| + 1
    ensures WfLog(n.log)
    ensures NodeInv(g, id, n.(next := n.next[peer := Backtrack(n.log, t, i)]))
  {
    hide GhostOk, CandidateOk, Safe, SnapshotOf;
    RepBasics(n.log, g.h.log[id]);
    LastOfTermBound(n.log, Last(n.log), t);
    var n' := n.(next := n.next[peer := Backtrack(n.log, t, i)]);
    assert n'.next.Keys == n.next.Keys;
    assert LeaderOk(g, id, n');
  }

  lemma AppendReplyStep(g: Ghost, id: Id, n: Node, m: Msg) returns (g': Ghost)
    requires GhostOk(g) && NodeInv(g, id, n) && m.AppendReply? && MsgInv(g, m) && m.to == id
    ensures WfLog(n.log)
    ensures StepOk(g, g', id, n, HandleAppendReply(n, m))
  {
    hide GhostOk, Local, CandidateOk, Safe, SnapshotOf, Rep, RaiseMatch, CommitScan, Backtrack;
    RepBasics(n.log, g.h.log[id]);
    if m.term > n.term {
      g' := StepDown(g, id, n, m.term);
    } else if n.role == Leader && n.term == m.reqTerm && m.success {
      RaiseFrame(n, m.from, m.reqLast);
      g' := CountStep(g, id, n, m.from, m.reqLast);
    } else {
      g' := g;
      QuietStep(g, id);
      if n.role == Leader && n.term == m.reqTerm {
        BacktrackStep(g, id, n, m.from, m.conflictTerm, m.conflictIndex);
      }
    }
  }

  // ---------------------------------------------------------------- snapshots

  lemma InstallReplyStep(g: Ghost, id: Id, n: Node, m: Msg) returns (g': Ghost)
    requires GhostOk(g) && NodeInv(g, id, n) && m.InstallReply? && MsgInv(g, m) && m.to == id
    ensures StepOk(g, g', id, n, HandleInstallReply(n, m))
  {
    hide GhostOk, Local, CandidateOk, Safe, SnapshotOf, Rep, RaiseMatch;
    if m.term > n.term {
      g' := StepDown(g, id, n, m.term);
    } else {
      g' := g;
      QuietStep(g, id);
      if n.role == Leader && n.term == m.reqTerm {
        RaiseOk(g, id, n, m.from, m.reqIndex);
        RaiseFrame(n, m.from, m.reqIndex);
      }
    }
  }

  /** A snapshot the receiver has already committed past is confirmed without a change. */
  lemma InstallKnown(g: Ghost, id: Id, n: Node, m: Msg) returns (g': Ghost)
    requires GhostOk(g) && NodeInv(g, id, n) && n.role == Follower && n.term == m.term
    requires m.InstallRequest? && MsgInv(g, m) && m.to == id && m.lastIndex <= n.commit
    ensures StepOk(g, g', id, n, n)
    ensures MsgInv(g', InstallReply(id, m.from, n.term, m.term, m.lastIndex))
  {
    hide GhostOk, Local, CandidateOk, LeaderOk, Safe, Rep, SnapshotOf;
    var k, l := m.lastIndex, g.h.log[id];
    AcceptedKeepsCommitted(g, id, n, k);
    assert g.h.lead[m.term][..k] == l[..k];
    assert E.Accepted(g.h, id, k) == l;
    g' := AcceptStep(g, id, n, k, n.log);
    assert n.(log := n.log) == n;
  }

  /** The log left by an installed snapshot represents what the node then holds: its own log
      when the boundary entry matches, the leader's prefix otherwise. */
  lemma InstalledRep(g: Ghost, id: Id, n: Node, m: Msg)
    requires GhostOk(g) && NodeInv(g, id, n) && n.term == m.term
    requires m.InstallRequest? && MsgInv(g, m) && m.to == id && n.commit < m.lastIndex
    ensures WfLog(n.log)
    ensures Rep(HandleInstall(n, m).0.log, E.Accepted(g.h, id, m.lastIndex))
  {
    hide GhostOk, Local, CandidateOk, LeaderOk, Safe, SnapshotOf, Rep;
    var i, l, a := m.lastIndex, g.h.log[id], g.h.lead[m.term];
    RepBasics(n.log, l);
    LeadIndexed(g, m.term);
    RepSentinel(a, i);
    if i <= |l| {
      RepAt(n.log, l, i);
    }
    if i <= |l| && TermAt(l, i) == m.lastTerm {
      CheckedPrefix(g, id, n, m.term, i);
      assert E.Accepted(g.h, id, i) == l;
      RepCompact(n.log, l, i);
    } else {
      assert i <= |l| ==> l[i - 1] != a[i - 1];
      assert E.Accepted(g.h, id, i) == a[..i];
      assert HandleInstall(n, m).0.log == [Entry(i, m.lastTerm, None)] + [];
    }
  }

  lemma LeadIndexed(g: Ghost, t: nat)
    requires GhostOk(g) && t in g.h.lead
    ensures Indexed(g.h.lead[t])
  {
    assert LeadOk(g.h, t);
  }

  lemma InstallNew(g: Ghost, id: Id, n: Node, m: Msg) returns (g': Ghost)
    requires GhostOk(g) && NodeInv(g, id, n) && n.role == Follower && n.term == m.term
    requires m.InstallRequest? && MsgInv(g, m) && m.to == id && n.commit < m.lastIndex && WfLog(n.log)
    ensures StepOk(g, g', id, n, HandleInstall(n, m).0)
    ensures MsgInv(g', HandleInstall(n, m).1)
  {
    hide GhostOk, Local, CandidateOk, LeaderOk, Rep, SnapshotOf, Committed;
    var n', i, a := HandleInstall(n, m).0, m.lastIndex, g.h.lead[m.term];
    InstalledRep(g, id, n, m);
    AcceptedKeepsCommitted(g, id, n, i);
    g' := AcceptEvent(g, id, n, i);
    LocalGrows(g, g', id);
    var l' := g'.h.log[id];
    assert l'[..i] == a[..i];
    SafeGrows(g, g', a[..i], m.term, m.term);
    SnapshotOfLonger(g.retries, m.data, a, l', i);
    assert LogOk(g', id, n') && SnapOk(g', id, n');
  }

  lemma StaleInstallOk(g: Ghost, id: Id, n: Node, m: Msg)
    requires NodeInv(g, id, n) && m.InstallRequest? && MsgInv(g, m) && m.to == id && m.term < n.term && WfLog(n.log)
    ensures HandleInstall(n, m).0 == n && MsgInv(g, HandleInstall(n, m).1)
  {
    hide Safe, LogOk, VotedOk, SnapOk, CandidateOk, LeaderOk;
  }

  /** A request of the node's own term. */
  lemma InstallCurrent(g: Ghost, id: Id, n: Node, m: Msg) returns (g': Ghost)
    requires GhostOk(g) && NodeInv(g, id, n) && n.role == Follower && n.leaderId == m.from && n.term == m.term
    requires m.InstallRequest? && MsgInv(g, m) && m.to == id && WfLog(n.log) && First(n.log) <= n.commit && n.id == id
    ensures StepOk(g, g', id, n, HandleInstall(n, m).0) && MsgInv(g', HandleInstall(n, m).1)
  {
    hide GhostOk, NodeInv, StepOk, MsgInv;
    if m.lastIndex <= n.commit {
      g' := InstallKnown(g, id, n, m);
    } else {
      g' := InstallNew(g, id, n, m);
    }
  }

  lemma InstallStep(g: Ghost, id: Id, n: Node, m: Msg) returns (g': Ghost)
    requires GhostOk(g) && NodeInv(g, id, n) && m.InstallRequest? && MsgInv(g, m) && m.to == id
    ensures WfLog(n.log) && First(n.log) <= n.commit
    ensures StepOk(g, g', id, n, HandleInstall(n, m).0) && MsgInv(g', HandleInstall(n, m).1)
  {
    hide GhostOk, NodeInv, StepOk, MsgInv, HandleInstall;
    NodeBasics(g, id, n);
    if m.term < n.term {
      g' := g;
      Unmoved(g, id, n);
      StaleInstallOk(g, id, n, m);
    } else {
      FollowThenHandle(n, m);
      var n1 := Follows(n, m.term, m.from);
      var g1 := FollowsStep(g, id, n, m.term, m.from);
      StepParts(g, g1, id, n, n1);
      MsgGrows(g, g1, m);
      g' := InstallCurrent(g1, id, n1, m);
      StepTransitive(g, g1, g', id, n, n1, HandleInstall(n1, m).0);
    }
  }

  /** The state machine's snapshot of an applied prefix replaces that prefix. */
  lemma SnapshotStep(g: Ghost, id: Id, n: Node, index: nat, data: SnapshotState)
    requires GhostOk(g) && NodeInv(g, id, n) && SnapshotOf(g.retries, data, g.h.log[id], index)
    ensures WfLog(n.log) && n.applied <= Last(n.log)
    ensures NodeInv(g, id, TakeSnapshot(n, index, data))
  {
    hide GhostOk, Safe, SnapshotOf, Rep;
    RepBasics(n.log, g.h.log[id]);
    if First(n.log) < index <= n.applied {
      RepCompact(n.log, g.h.log[id], index);
      var n' := TakeSnapshot(n, index, data);
      assert LogOk(g, id, n') && SnapOk(g, id, n');
      assert n.role == Candidate ==> CandidateOk(g, id, n');
      assert n.role == Leader ==> LeaderOk(g, id, n');
    }
  }

  /** A restarted node has lost nothing the cluster relies on. */
  lemma RestartStep(g: Ghost, id: Id, n: Node)
    requires GhostOk(g) && NodeInv(g, id, n)
    ensures NodeInv(g, id, Restart(n))
  {
    hide GhostOk, Committed, SnapshotOf, Rep, CandidateOk, LeaderOk;
    var n', l := Restart(n), g.h.log[id];
    SafePrefix(g, l[..n.commit], First(n.log), n.term);
    assert l[..n.commit][..First(n.log)] == l[..First(n.log)];
    assert LogOk(g, id, n') && SnapOk(g, id, n');
  }
}
