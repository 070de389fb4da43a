/** Compaction is invisible: a node that has dropped the entries below its snapshot answers and
    changes like a node that kept its whole log. */
module RaftUncompacted {
  import opened Tasks
  import opened RaftLog
  import opened RaftHistory
  import E = RaftEvents
  import opened RaftStep
  import opened RaftCompaction
  import opened RaftInvariant
  import opened RaftHandlers
  import opened RaftReplicationProof
  import opened RaftBacktrack

  /** A log with nothing compacted away: the sentinel is at index 0. */
  function Whole(full: Log): seq<Entry> {
    [Entry(0, 0, None)] + full
  }

  /** The same node with nothing compacted away. */
  function Uncompacted(n: Node, full: Log): Node {
    n.(log := Whole(full))
  }

  lemma UncompactedRep(full: Log)
    requires Indexed(full)
    ensures Rep(Whole(full), full)
  {
    assert Whole(full)[1..] == full;
  }

  lemma ReplicatesTheSame(n: Node, u: Node, full: Log, peer: Id)
    requires Rep(n.log, full) && Rep(u.log, full) && u == n.(log := u.log)
    requires peer in n.next && First(n.log) < n.next[peer] <= |full| + 1 && First(u.log) < n.next[peer]
    ensures WfLog(n.log) && WfLog(u.log) && Last(n.log) == Last(u.log) == |full|
    ensures Replicate(n, peer) == Replicate(u, peer)
  {
    hide Rep;
    var next := n.next[peer];
    RepBasics(n.log, full);
    RepBasics(u.log, full);
    RepAt(n.log, full, next - 1);
    RepAt(u.log, full, next - 1);
    RepSlice(n.log, full, next);
    RepSlice(u.log, full, next);
  }

  /** The same request is sent from either log. */
  lemma SendsTheSame(g: Ghost, id: Id, n: Node, peer: Id)
    requires GhostOk(g) && NodeInv(g, id, n) && n.role == Leader && peer in n.peers
    requires First(n.log) < n.next[peer]
    ensures var u := Uncompacted(n, g.h.log[id]);
            && WfLog(n.log) && n.next[peer] <= Last(n.log) + 1
            && WfLog(u.log) && n.next[peer] <= Last(u.log) + 1
            && Replicate(n, peer) == Replicate(u, peer)
  {
    hide Rep, Safe, SnapshotOf, CandidateOk, Inv, Committed, Replicate;
    var l := g.h.log[id];
    NodeIndexed(g, id);
    UncompactedRep(l);
    ReplicatesTheSame(n, Uncompacted(n, l), l, peer);
  }

  lemma NodeIndexed(g: Ghost, id: Id)
    requires GhostOk(g) && id in g.h.nodes
    ensures id in g.h.log && Indexed(g.h.log[id]) && Matches(g.h, g.h.log[id])
  {
    assert NodeOk(g.h, id);
  }

  /** The run of conflicting entries starts at the same index, or below the boundary. */
  lemma {:induction false} SameConflictStart(log: seq<Entry>, log': seq<Entry>, full: Log, i: nat, t: nat)
    requires Rep(log, full) && Rep(log', full) && First(log') == 0 && First(log) < i <= |full|
    ensures WfLog(log) && WfLog(log') && Last(log) == Last(log') == |full|
    ensures var s, s' := ConflictStart(log, i, t), ConflictStart(log', i, t);
            s == s' || s' < s == First(log) + 1
    decreases i
  {
    hide Rep;
    RepBasics(log, full);
    RepBasics(log', full);
    RepAt(log, full, i - 1);
    RepAt(log', full, i - 1);
    ConflictStartBounds(log', i, t);
    if i > First(log) + 1 && TermAt(full, i - 1) == t {
      SameConflictStart(log, log', full, i - 1, t);
    }
  }

  /** What the two nodes have in common after a request. */
  ghost predicate SameOutcome(first: nat, n': Node, r: Msg, u': Node, s: Msg, full: Log) {
    && Rep(n'.log, full) && Rep(u'.log, full)
    && u' == n'.(log := u'.log)
    && r.AppendReply? && s.AppendReply?
    && s == r.(conflictIndex := s.conflictIndex)
    && (r.conflictIndex == s.conflictIndex || s.conflictIndex < r.conflictIndex == first + 1)
  }

  /** A window that starts at or after the boundary. */
  lemma WindowTheSame(g: Ghost, id: Id, n: Node, m: Msg, l: Log)
    requires GhostOk(g) && NodeInv(g, id, n) && n.role == Follower && n.term == m.term && l == g.h.log[id]
    requires m.AppendRequest? && MsgInv(g, m) && m.to == id && First(n.log) <= m.prev
    requires WfLog(n.log) && Last(n.log) == |l| && Follow(m.entries, m.prev)
    requires var u := Uncompacted(n, l); Rep(u.log, l) && WfLog(u.log) && Last(u.log) == |l|
    ensures var u := Uncompacted(n, l);
            var (n', r) := AppendWindow(n, m, m.prev, m.prevTerm, m.entries);
            var (u', s) := AppendWindow(u, m, m.prev, m.prevTerm, m.entries);
            SameOutcome(First(n.log), n', r, u', s, if r.success then E.Accepted(g.h, id, m.prev + |m.entries|) else l)
  {
    hide Rep, Safe, SnapOk, VotedOk, CandidateOk, LeaderOk, Inv, Committed, Matches, Merge, E.Accepted, ConflictStart;
    var u := Uncompacted(n, l);
    if m.prev <= |l| {
      RepAt(n.log, l, m.prev);
      RepAt(u.log, l, m.prev);
      if TermAt(l, m.prev) == m.prevTerm {
        CheckedPrefix(g, id, n, m.term, m.prev);
        MergedRep(g, id, n, m.term, m.prev, m.entries);
        MergedWhole(g, id, u.log, m.term, m.prev, m.entries);
      } else {
        assert m.prev > First(n.log) by { BoundaryAgrees(g, id, n, m); }
        SameConflictStart(n.log, u.log, l, m.prev, TermAt(l, m.prev));
      }
    }
  }

  lemma MergedWhole(g: Ghost, id: Id, log: seq<Entry>, t: nat, prev: nat, entries: seq<Entry>)
    requires GhostOk(g) && id in g.h.nodes && id in g.h.log && id in g.h.term && t == g.h.term[id] && t in g.h.lead
    requires Rep(log, g.h.log[id]) && First(log) == 0
    requires prev <= |g.h.log[id]| && prev + |entries| <= |g.h.lead[t]|
    requires g.h.log[id][..prev] == g.h.lead[t][..prev]
    requires entries == g.h.lead[t][prev..prev + |entries|] && Follow(entries, prev)
    ensures WfLog(log) && Last(log) == |g.h.log[id]|
    ensures Rep(Merge(log, entries), E.Accepted(g.h, id, prev + |entries|))
  {
    NodeIndexed(g, id);
    LeadMatches(g.h, t);
    hide Rep, Matches, Inv;
    RepMerge(g.h, log, g.h.log[id], g.h.lead[t], prev, entries, E.Accepted(g.h, id, prev + |entries|));
  }

  /** At and below the boundary the node holds the leader's entries. */
  lemma BoundaryAgrees(g: Ghost, id: Id, n: Node, m: Msg)
    requires GhostOk(g) && NodeInv(g, id, n) && n.term == m.term && m.AppendRequest? && MsgInv(g, m)
    ensures m.prev <= First(n.log) ==>
              TermAt(g.h.log[id], m.prev) == m.prevTerm && g.h.log[id][..m.prev] == g.h.lead[m.term][..m.prev]
    ensures m.prev + |m.entries| <= First(n.log) ==> E.Accepted(g.h, id, m.prev + |m.entries|) == g.h.log[id]
  {
    hide Rep, Safe, SnapshotOf, CandidateOk, LeaderOk, Inv, Committed;
    var l, a, f := g.h.log[id], g.h.lead[m.term], First(n.log);
    AcceptedKeepsCommitted(g, id, n, 0);
    assert l[..f] == l[..n.commit][..f] == a[..f];
    if m.prev <= f {
      assert l[..m.prev] == l[..f][..m.prev] == a[..m.prev];
      assert m.prev > 0 ==> l[..m.prev][m.prev - 1] == a[..m.prev][m.prev - 1];
    }
    var k := m.prev + |m.entries|;
    if k <= f {
      assert l[..k] == l[..f][..k] == a[..k];
    }
  }

  /** A window that starts below the boundary: the whole log finds everything up to the
      boundary already there. */
  lemma BelowTheSame(g: Ghost, id: Id, n: Node, m: Msg, l: Log)
    requires GhostOk(g) && NodeInv(g, id, n) && n.role == Follower && n.term == m.term && l == g.h.log[id]
    requires m.AppendRequest? && MsgInv(g, m) && m.to == id && m.prev < First(n.log)
    requires WfLog(n.log) && Last(n.log) == |l| && Follow(m.entries, m.prev)
    requires var u := Uncompacted(n, l); Rep(u.log, l) && WfLog(u.log) && Last(u.log) == |l|
    ensures var u := Uncompacted(n, l);
            var k := m.prev + |m.entries|;
            var (u', s) := AppendWindow(u, m, m.prev, m.prevTerm, m.entries);
            && s == Accepted(n, m)
            && (k < First(n.log) ==> SameOutcome(First(n.log), n, Accepted(n, m), u', s, l))
            && (First(n.log) <= k ==>
                  var (n', r) := AppendWindow(n, m, First(n.log), n.log[0].term, m.entries[First(n.log) - m.prev..]);
                  SameOutcome(First(n.log), n', r, u', s, E.Accepted(g.h, id, k)))
  {
    hide Rep, Safe, SnapshotOf, CandidateOk, LeaderOk, Inv, Committed, Matches, Merge;
    var u, f := Uncompacted(n, l), First(n.log);
    BoundaryAgrees(g, id, n, m);
    RepAt(u.log, l, m.prev);
    MergedWhole(g, id, u.log, m.term, m.prev, m.entries);
    if f <= m.prev + |m.entries| {
      ShiftedWindow(g, id, n, m);
      ShiftedMerge(g, id, n, m);
      RepAt(n.log, l, f);
    }
  }

  lemma ShiftedMerge(g: Ghost, id: Id, n: Node, m: Msg)
    requires GhostOk(g) && NodeInv(g, id, n) && n.role == Follower && n.term == m.term
    requires m.AppendRequest? && MsgInv(g, m) && m.to == id && m.prev < First(n.log) <= m.prev + |m.entries|
    requires Follow(m.entries, m.prev)
    requires Window(g, m, First(n.log), n.log[0].term, m.entries[First(n.log) - m.prev..])
    ensures WfLog(n.log) && Last(n.log) == |g.h.log[id]|
    ensures Rep(Merge(n.log, m.entries[First(n.log) - m.prev..]), E.Accepted(g.h, id, m.prev + |m.entries|))
  {
    hide Rep, Safe, SnapshotOf, CandidateOk, LeaderOk, Inv, Committed, Matches;
    var f, entries := First(n.log), m.entries[First(n.log) - m.prev..];
    RepAt(n.log, g.h.log[id], f);
    CheckedPrefix(g, id, n, m.term, f);
    WindowFollows(g, m, f, n.log[0].term, entries);
    MergedRep(g, id, n, m.term, f, entries);
  }

  /** What the dispatch of a request of the follower's own term comes to. */
  lemma Dispatch(f: Node, m: Msg)
    requires WfLog(f.log) && m.AppendRequest? && Follow(m.entries, m.prev)
    requires f.role == Follower && f.term == m.term && f.leaderId == m.from
    ensures First(f.log) <= m.prev ==> HandleAppend(f, m) == AppendWindow(f, m, m.prev, m.prevTerm, m.entries)
    ensures m.prev + |m.entries| < First(f.log) ==> HandleAppend(f, m) == (f, Accepted(f, m))
    ensures m.prev < First(f.log) <= m.prev + |m.entries| ==>
              HandleAppend(f, m) == AppendWindow(f, m, First(f.log), f.log[0].term, m.entries[First(f.log) - m.prev..])
  {
  }

  lemma AppendWindowReplies(n: Node, m: Msg)
    requires WfLog(n.log) && m.AppendRequest? && Follow(m.entries, m.prev) && First(n.log) <= m.prev
    ensures AppendWindow(n, m, m.prev, m.prevTerm, m.entries).1.AppendReply?
  {
  }

  /** A request of the node's own term. */
  lemma CurrentTheSame(g: Ghost, id: Id, n: Node, m: Msg) returns (full: Log)
    requires GhostOk(g) && NodeInv(g, id, n) && n.role == Follower && n.leaderId == m.from && n.term == m.term
    requires m.AppendRequest? && MsgInv(g, m) && m.to == id && WfLog(n.log) && Follow(m.entries, m.prev)
    ensures WfLog(Uncompacted(n, g.h.log[id]).log)
    ensures var (n', r) := HandleAppend(n, m);
            var (u', s) := HandleAppend(Uncompacted(n, g.h.log[id]), m);
            SameOutcome(First(n.log), n', r, u', s, full)
    ensures n.commit <= |g.h.log[id]| && g.h.log[id][..n.commit] <= full
  {
    hide Rep, GhostOk, NodeInv, MsgInv, Matches, Merge, AppendWindow, HandleAppend, SameOutcome;
    IsMember(g, id, n);
    var l := g.h.log[id];
    NodeBasics(g, id, n);
    NodeIndexed(g, id);
    UncompactedRep(l);
    var u := Uncompacted(n, l);
    RepBasics(u.log, l);
    Dispatch(n, m);
    Dispatch(u, m);
    RequestBounds(g, m);
    AcceptedKeepsCommitted(g, id, n, m.prev + |m.entries|);
    if First(n.log) <= m.prev {
      WindowTheSame(g, id, n, m, l);
      AppendWindowReplies(n, m);
      full := if HandleAppend(n, m).1.success then E.Accepted(g.h, id, m.prev + |m.entries|) else l;
    } else {
      BelowTheSame(g, id, n, m, l);
      full := if m.prev + |m.entries| < First(n.log) then l else E.Accepted(g.h, id, m.prev + |m.entries|);
    }
  }

  lemma RequestBounds(g: Ghost, m: Msg)
    requires m.AppendRequest? && MsgInv(g, m)
    ensures m.term in g.h.lead && m.prev + |m.entries| <= |g.h.lead[m.term]|
  {
  }

  lemma IsMember(g: Ghost, id: Id, n: Node)
    requires NodeInv(g, id, n)
    ensures Domains(g.h) && id in g.h.nodes && id in g.h.log && id in g.h.term && g.h.term[id] == n.term
  {
  }

  /** Compaction refinement: for every append request, the compacted node and the node with its
      whole log give the same verdict and hint, move to the same term, role and commit index,
      and their logs again represent one and the same whole log, which keeps what was committed.
      Only a conflict index that would lie below the snapshot boundary is reported as the
      boundary's successor. */
  lemma CompactionIsInvisible(g: Ghost, id: Id, n: Node, m: Msg) returns (full: Log)
    requires GhostOk(g) && NodeInv(g, id, n) && m.AppendRequest? && MsgInv(g, m) && m.to == id
    ensures WfLog(n.log) && Follow(m.entries, m.prev) && WfLog(Uncompacted(n, g.h.log[id]).log)
    ensures var (n', r) := HandleAppend(n, m);
            var (u', s) := HandleAppend(Uncompacted(n, g.h.log[id]), m);
            SameOutcome(First(n.log), n', r, u', s, full)
    ensures n.commit <= |g.h.log[id]| && g.h.log[id][..n.commit] <= full
  {
    hide GhostOk, NodeInv, MsgInv, StepOk, Window, HandleAppend, Rep, SameOutcome;
    IsMember(g, id, n);
    var l := g.h.log[id];
    var u := Uncompacted(n, l);
    NodeBasics(g, id, n);
    NodeIndexed(g, id);
    UncompactedRep(l);
    RepBasics(u.log, l);
    WholeWindow(g, m);
    WindowFollows(g, m, m.prev, m.prevTerm, m.entries);
    if m.term < n.term {
      StaleAppend(n, m);
      StaleAppend(u, m);
      NodeRep(g, id, n);
      full := l;
      StaleTheSame(n, u, m, l);
    } else {
      full := TakenTheSame(g, id, n, m);
    }
  }

  /** A request of the node's term or a later one. */
  lemma TakenTheSame(g: Ghost, id: Id, n: Node, m: Msg) returns (full: Log)
    requires GhostOk(g) && NodeInv(g, id, n) && m.AppendRequest? && MsgInv(g, m) && m.to == id && n.term <= m.term
    requires WfLog(n.log) && Follow(m.entries, m.prev) && WfLog(Uncompacted(n, g.h.log[id]).log)
    ensures var (n', r) := HandleAppend(n, m);
            var (u', s) := HandleAppend(Uncompacted(n, g.h.log[id]), m);
            SameOutcome(First(n.log), n', r, u', s, full)
    ensures n.commit <= |g.h.log[id]| && g.h.log[id][..n.commit] <= full
  {
    hide GhostOk, NodeInv, MsgInv, StepOk, HandleAppend, SameOutcome;
    IsMember(g, id, n);
    NodeBasics(g, id, n);
    var u := Uncompacted(n, g.h.log[id]);
    FollowThenHandle(n, m);
    FollowThenHandle(u, m);
    var n1 := Follows(n, m.term, m.from);
    var g1 := FollowsStep(g, id, n, m.term, m.from);
    assert Follows(u, m.term, m.from) == Uncompacted(n1, g1.h.log[id]);
    StepParts(g, g1, id, n, n1);
    MsgGrows(g, g1, m);
    full := CurrentTheSame(g1, id, n1, m);
  }

  lemma StaleTheSame(n: Node, u: Node, m: Msg, l: Log)
    requires m.AppendRequest? && u == n.(log := u.log) && Rep(n.log, l) && Rep(u.log, l)
    ensures SameOutcome(First(n.log), n, Rejected(n, m, 0, 0), u, Rejected(u, m, 0, 0), l)
  {
  }

  lemma NodeRep(g: Ghost, id: Id, n: Node)
    requires NodeInv(g, id, n)
    ensures id in g.h.log && Rep(n.log, g.h.log[id])
  {
  }
}
