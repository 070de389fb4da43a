/** What each Raft handler must do, and not only must not do: who gets a vote, who wins an
    election, which index is committed, and what a round of replication achieves. */
module RaftProgress {
  import opened Tasks
  import opened RaftLog
  import opened RaftHistory
  import E = RaftEvents
  import opened RaftStep
  import opened RaftCompaction
  import opened RaftInvariant
  import opened RaftHandlers
  import opened RaftReplicationProof
  import opened RaftCluster
  import opened RaftDelivery
  import opened RaftSafety
  import opened RaftBacktrack
  import opened RaftTheorems

  // ---------------------------------------------------------------- votes

  /** A vote is granted if and only if the request is not stale, the vote is free in its term or
      already the sender's, and the sender's log ends in a later term, or in the same term and not
      earlier. */
  lemma VoteGrantedExactly(n: Node, m: Msg)
    requires |n.log| > 0 && m.VoteRequest?
    ensures var (n', r) := HandleVoteRequest(n, m);
            var term, own := if m.term > n.term then m.term else n.term, n.log[|n.log| - 1];
            && r == VoteReply(n.id, m.from, term, r.granted, m.term)
            && (r.granted <==>
                  && m.term >= n.term && (m.term > n.term || n.votedFor == "" || n.votedFor == m.from)
                  && (m.lastTerm > own.term || (m.lastTerm == own.term && m.lastIndex >= own.index)))
            && n' == n.(term := term, role := if m.term > n.term then Follower else n.role,
                        votedFor := if r.granted then m.from else if m.term > n.term then "" else n.votedFor)
  {
  }

  /** Of two logs, one is up to date against the other. */
  lemma OneIsUpToDate(i: nat, t: nat, j: nat, u: nat)
    ensures UpToDate(i, t, j, u) || UpToDate(j, u, i, t)
    ensures UpToDate(i, t, j, u) <==> t > u || (t == u && i >= j)
  {
  }

  /** A granted reply of the candidate's term makes it leader if and only if the votes are then
      more than half of the cluster. A new leader has a no-op of its term at the end of its log,
      counts itself as holding it, knows nothing of its peers, and starts sending at the no-op. */
  lemma ElectedExactly(n: Node, m: Msg)
    requires |n.log| > 0 && m.VoteReply? && n.role == Candidate && m.granted && m.term <= n.term == m.reqTerm
    ensures var n' := HandleVoteReply(n, m);
            && n'.votes == n.votes + {m.from} && n'.term == n.term
            && (n'.role == Leader <==> 2 * |n.votes + {m.from}| > |n.peers| + 1)
            && (n'.role != Leader ==> n' == n.(votes := n'.votes))
            && (n'.role == Leader ==>
                  && n'.log == n.log + [Entry(Last(n.log) + 1, n.term, None)] && n'.leaderId == n.id
                  && n.id in n'.matched && n'.matched[n.id] == Last(n.log) + 1
                  && forall p :: p in n.peers && p != n.id ==>
                       && p in n'.matched && n'.matched[p] == 0 && p in n'.next && n'.next[p] == Last(n.log) + 1)
  {
  }

  /** Refused, stale and late replies change nothing but a term that is behind. */
  lemma NotElected(n: Node, m: Msg)
    requires |n.log| > 0 && m.VoteReply?
    requires n.role != Candidate || !m.granted || n.term != m.reqTerm || m.term > n.term
    ensures HandleVoteReply(n, m)
         == if m.term > n.term then n.(role := Follower, term := m.term, votedFor := "") else n
  {
  }

  // ---------------------------------------------------------------- following

  /** Whoever sends entries or a snapshot in the node's term or a later one is its leader from then
      on; the vote is free again only in a later term. */
  lemma SenderIsFollowed(n: Node, m: Msg)
    requires WfLog(n.log) && First(n.log) <= n.commit && m.term >= n.term
    requires (m.AppendRequest? && Follow(m.entries, m.prev)) || m.InstallRequest?
    ensures var n' := if m.AppendRequest? then HandleAppend(n, m).0 else HandleInstall(n, m).0;
            && n'.role == Follower && n'.term == m.term && n'.leaderId == m.from
            && n'.votedFor == (if m.term > n.term then "" else n.votedFor)
            && n'.applied == n.applied
  {
  }

  // ---------------------------------------------------------------- commitment

  /** More than half of the cluster holds entry `x`, which is of the leader's own term. */
  ghost predicate HeldByMost(n: Node, x: nat) {
    && WfLog(n.log) && First(n.log) < x <= Last(n.log) && TermOf(n.log, x) == n.term
    && 2 * |set p | p in n.matched && n.matched[p] >= x| > |n.peers| + 1
  }

  /** Index `to` is the greatest such index above `from`, or `from` itself if there is none. */
  ghost predicate Greatest(n: Node, from: nat, upTo: nat, c: nat) {
    && (c == from || (c > from && HeldByMost(n, c)))
    && forall x: nat :: from < x <= upTo && HeldByMost(n, x) ==> x <= c
  }

  /** Terms do not decrease along the log and do not exceed the node's. */
  ghost predicate Rising(n: Node) {
    WfLog(n.log) && Sorted(n.log) && n.log[|n.log| - 1].term <= n.term
  }

  lemma {:induction false} ScanFindsGreatest(n: Node, i: nat)
    requires Rising(n) && i <= Last(n.log)
    ensures Greatest(n, n.commit, i, CommitScan(n, i))
    decreases i
  {
    hide Holders;
    if i > n.commit && i > First(n.log) {
      HoldersCounted(n, i);
      if TermOf(n.log, i) != n.term {
        assert TermOf(n.log, i) <= TermOf(n.log, Last(n.log)) == n.log[|n.log| - 1].term;
        forall x: nat | n.commit < x <= i ensures !HeldByMost(n, x) {
          assert First(n.log) < x ==> TermOf(n.log, x) <= TermOf(n.log, i);
        }
      } else if Holders(n.matched, i) < QuorumSize(n) {
        ScanFindsGreatest(n, i - 1);
      }
    }
  }

  lemma HoldersCounted(n: Node, x: nat)
    ensures Holders(n.matched, x) >= QuorumSize(n) <==>
            2 * |set p | p in n.matched && n.matched[p] >= x| > |n.peers| + 1
  {
  }

  /** A success reply raises the peer's match index to the last entry it confirms, never lowers
      it, sends on from the next entry, and moves the commit index to the greatest index of the
      leader's term that more than half of the cluster holds, if that is above it. */
  lemma CommitExactly(n: Node, m: Msg)
    requires Rising(n) && n.role == Leader && m.AppendReply? && m.success && m.term <= n.term == m.reqTerm
    ensures var n', before := HandleAppendReply(n, m), if m.from in n.matched then n.matched[m.from] else 0;
            var matched := if m.reqLast > before then m.reqLast else before;
            && n'.matched == n.matched[m.from := matched] && n'.next == n.next[m.from := matched + 1]
            && n' == n.(matched := n'.matched, next := n'.next, commit := n'.commit)
            && Greatest(n', n.commit, Last(n.log), n'.commit)
  {
    hide CommitScan;
    var n1 := RaiseMatch(n, m.from, m.reqLast);
    ScanFindsGreatest(n1, Last(n1.log));
    GreatestFrame(n1, n1.(commit := CommitScan(n1, Last(n1.log))), n.commit, Last(n.log), CommitScan(n1, Last(n1.log)));
  }

  lemma GreatestFrame(n: Node, n': Node, from: nat, upTo: nat, c: nat)
    requires n' == n.(commit := n'.commit) && Greatest(n, from, upTo, c)
    ensures Greatest(n', from, upTo, c)
  {
    assert forall x: nat :: HeldByMost(n', x) <==> HeldByMost(n, x);
  }

  lemma LeaderRises(g: Ghost, id: Id, n: Node)
    requires GhostOk(g) && NodeInv(g, id, n)
    ensures Rising(n)
  {
    hide Rep, Safe, SnapshotOf, CandidateOk, LeaderOk;
    MatchingIsSorted(g, id, n);
    RepBasics(n.log, g.h.log[id]);
    LogTermBound(g, id);
  }

  lemma LogTermBound(g: Ghost, id: Id)
    requires GhostOk(g) && id in g.h.nodes
    ensures id in g.h.log && id in g.h.term && LastTerm(g.h.log[id]) <= g.h.term[id]
  {
    assert NodeOk(g.h, id);
  }

  /** In every reachable state, that is what a leader does with a success reply. */
  lemma MajorityCommits(run: seq<Cluster>, i: nat, m: Msg)
    requires IsRun(run) && i < |run| && m in run[i].net && m.AppendReply? && m.to in run[i].procs
    requires var n := run[i].procs[m.to].node; n.role == Leader && m.success && m.term <= n.term == m.reqTerm
    ensures var n := run[i].procs[m.to].node;
            && WfLog(n.log)
            && var n' := HandleAppendReply(n, m);
               Greatest(n', n.commit, Last(n.log), n'.commit)
  {
    hide IsRun, GhostOk, NodeInv, ProcInv, Explains, Greatest, HandleAppendReply;
    var gs := RunHistory(run);
    NodeAt(run, gs, i, m.to);
    LeaderRises(gs[i], m.to, run[i].procs[m.to].node);
    CommitExactly(run[i].procs[m.to].node, m);
  }

  // ---------------------------------------------------------------- rounds of replication

  /** One accepted request brings the follower up to date: it holds the leader's whole log, knows
      as much of it to be committed as the leader, and the leader knows that it holds everything. */
  lemma RoundCompletes(g: Ghost, a: Id, n: Node, p: Id, f: Node) returns (g': Ghost)
    requires Exchange(g, a, n, p, f) && a in g.h.log && p in g.h.log
    requires n.next[p] - 1 <= Common(g.h.log[a], g.h.log[p])
    ensures WfLog(n.log) && n.next[p] <= Last(n.log) + 1 && Replicate(n, p).Some?
    ensures var m := Replicate(n, p).value;
            && m.AppendRequest? && WfLog(f.log) && Follow(m.entries, m.prev)
            && var (f', r) := HandleAppend(f, m);
               && NodeInv(g', p, f') && p in g'.h.log && g.h.log[a] <= g'.h.log[p] && n.commit <= f'.commit
               && r.AppendReply? && r.success && r.term == n.term
               && var n' := HandleAppendReply(n, r);
                  && p in n'.matched && n'.matched[p] >= Last(n.log)
                  && p in n'.next && n'.next[p] == n'.matched[p] + 1
  {
    hide GhostOk, NodeInv, MsgInv, StepOk, HandleAppend, Rep, Common, Replicate;
    RejectionLowersNext(g, a, n, p, f);
    WholeRequest(g, a, n, p);
    NodeBasics(g, a, n);
    NodeBasics(g, p, f);
    var m := Replicate(n, p).value;
    Verdict(f, m);
    g' := AppendStep(g, p, f, m);
    StepParts(g, g', p, f, HandleAppend(f, m).0);
    CommitFollows(f, m);
    SenderIsFollowed(f, m);
    LeaderLog(g, g', a, n, p, HandleAppend(f, m).0, HandleAppend(f, m).1);
  }

  /** A request carries everything the leader has. */
  lemma WholeRequest(g: Ghost, a: Id, n: Node, p: Id)
    requires GhostOk(g) && NodeInv(g, a, n) && n.role == Leader
    requires p in n.peers && p in n.next && First(n.log) < n.next[p]
    ensures WfLog(n.log) && n.next[p] <= Last(n.log) + 1
    ensures Replicate(n, p).Some? && MsgInv(g, Replicate(n, p).value)
    ensures var m := Replicate(n, p).value;
            && m.AppendRequest? && m.from == n.id && m.to == p && m.term == n.term && m.prev == n.next[p] - 1
            && m.prev + |m.entries| == Last(n.log) && m.commit == n.commit
            && forall k :: 0 <= k < |m.entries| ==> m.entries[k] == EntryAt(n.log, n.next[p] + k)
  {
    hide GhostOk, NodeInv, MsgInv;
    ReplicateOk(g, a, n, p);
  }

  lemma CommitFollows(f: Node, m: Msg)
    requires WfLog(f.log) && m.AppendRequest? && Follow(m.entries, m.prev) && HandleAppend(f, m).1.AppendReply?
    requires HandleAppend(f, m).1.success && m.commit <= m.prev + |m.entries| && First(f.log) <= f.commit
    ensures m.commit <= HandleAppend(f, m).0.commit && HandleAppend(f, m).1.reqLast == m.prev + |m.entries|
  {
    hide Merge, ConflictStart;
  }

  /** What a reply acknowledges, the follower of the leader's term holds. */
  lemma LeaderLog(g: Ghost, g': Ghost, a: Id, n: Node, p: Id, f: Node, r: Msg)
    requires GhostOk(g') && GhostGrows(g, g') && NodeInv(g, a, n) && n.role == Leader && NodeInv(g', p, f)
    requires MsgInv(g', r) && r.AppendReply? && r.success && r.from == p && r.reqTerm == n.term && f.term == n.term
    requires a in g.h.log && r.reqLast == |g.h.log[a]|
    ensures p in g'.h.log && g.h.log[a] <= g'.h.log[p]
  {
    hide Rep, Safe, SnapOk, VotedOk, CandidateOk, Inv, Committed;
    assert LeadGrows(g.h, g'.h, n.term);
    if r.reqLast > 0 {
      AckedPrefix(g', p, n.term, r.reqLast);
      assert g'.h.lead[n.term][..r.reqLast] == g.h.log[a];
    }
  }
}
