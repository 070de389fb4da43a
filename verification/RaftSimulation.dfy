/** Compaction as refinement: a node that drops entries below its snapshots is simulated, message
    by message, by a node that keeps its whole log and never sees a snapshot. */
module RaftSimulation {
  import opened Tasks
  import opened RaftLog
  import opened RaftHistory
  import E = RaftEvents
  import opened RaftStep
  import opened RaftCompaction
  import opened RaftInvariant
  import opened RaftHandlers
  import opened RaftReplicationProof
  import opened RaftCluster
  import opened RaftUncompacted

  /** Node `u` has the whole log `full` of which `n` may have compacted a part. They agree on all
      else but what compaction is about: the snapshots, and a next index at or below the boundary. */
  ghost predicate Simulates(n: Node, u: Node, full: Log) {
    && Rep(n.log, full) && u.log == Whole(full)
    && u == n.(log := u.log, next := u.next, snapshot := u.snapshot, pending := u.pending)
    && SameNext(First(n.log), n.next, u.next)
  }

  ghost predicate SameNext(first: nat, next: map<Id, nat>, next': map<Id, nat>) {
    && next'.Keys == next.Keys
    && forall p :: p in next ==> next'[p] == next[p] || next'[p] <= first + 1
  }

  /** What travels in place of `m` when nothing is compacted: a snapshot becomes the leader's
      entries up to its index. */
  function Expanded(m: Msg, prefix: Log): Msg {
    if m.InstallRequest? then AppendRequest(m.from, m.to, m.term, 0, 0, prefix, m.lastIndex) else m
  }

  /** Answer `r` of a node with boundary `first` says what `s` says. */
  ghost predicate SameAnswer(first: nat, r: Msg, s: Msg) {
    match r
    case AppendReply(_, _, _, _, _, index, _, _) =>
      && s.AppendReply? && s == r.(conflictIndex := s.conflictIndex)
      && (s.conflictIndex == index || s.conflictIndex < index == first + 1)
    case InstallReply(from, to, term, reqTerm, reqIndex) =>
      && s.AppendReply? && s.from == from && s.to == to && s.term == term
      && s.reqTerm == reqTerm && s.reqLast == reqIndex && (s.success <==> term == reqTerm)
    case _ => s == r
  }

  ghost predicate SameAnswers(first: nat, out: set<Msg>, out': set<Msg>) {
    (out == {} && out' == {}) || exists r, s :: out == {r} && out' == {s} && SameAnswer(first, r, s)
  }

  /** What `n'` has compacted away of `full'` was committed in `full`, or came as `prefix`. */
  ghost predicate Based(n: Node, n': Node, full: Log, full': Log, prefix: Log) {
    && |n'.log| > 0 && n.commit <= |full| && First(n'.log) <= |full'|
    && (full'[..First(n'.log)] <= full[..n.commit] || full'[..First(n'.log)] == prefix)
  }

  lemma BasedOn(n: Node, n': Node, full: Log, full': Log, prefix: Log)
    requires |n'.log| > 0 && First(n'.log) <= n.commit <= |full| && full[..n.commit] <= full'
    ensures Based(n, n', full, full', prefix)
  {
    assert full'[..First(n'.log)] == full[..n.commit][..First(n'.log)];
  }

  /** Receiving `m` does to `n`, with the whole log `full`, what receiving its expansion does to
      `u`, and leaves both with the whole log `full'`. */
  ghost predicate Mirrors(n: Node, u: Node, m: Msg, prefix: Log, full: Log, full': Log) {
    exists n', out, u', out' ::
      && Received(n, m, n', out) && Received(u, Expanded(m, prefix), u', out')
      && Simulates(n', u', full') && |n.log| > 0 && SameAnswers(First(n.log), out, out')
      && Based(n, n', full, full', prefix)
  }

  /** The node's boundary is committed. */
  ghost predicate Settled(n: Node, full: Log) {
    |n.log| > 0 && First(n.log) <= n.commit <= |full|
  }

  lemma SimulatesBasics(n: Node, u: Node, full: Log)
    requires Simulates(n, u, full)
    ensures WfLog(n.log) && WfLog(u.log) && First(u.log) == 0 && Rep(u.log, full)
    ensures Last(n.log) == Last(u.log) == |full|
    ensures n.log[|n.log| - 1].term == u.log[|u.log| - 1].term == LastTerm(full)
  {
    RepBasics(n.log, full);
    UncompactedRep(full);
    hide Rep;
    RepBasics(u.log, full);
  }

  // ---------------------------------------------------------------- elections

  lemma VoteRequestMirrored(n: Node, u: Node, full: Log, m: Msg)
    requires Simulates(n, u, full) && Settled(n, full) && m.VoteRequest?
    ensures Mirrors(n, u, m, [], full, full)
  {
    hide Rep;
    SimulatesBasics(n, u, full);
    var (n', r) := HandleVoteRequest(n, m);
    var (u', s) := HandleVoteRequest(u, m);
    assert SameAnswers(First(n.log), {r}, {s});
    assert Simulates(n', u', full);
    BasedOn(n, n', full, full, []);
    assert Received(n, m, n', {r}) && Received(u, Expanded(m, []), u', {s});
  }

  lemma LeaderMirrored(n: Node, u: Node, full: Log)
    requires Simulates(n, u, full)
    ensures |n.log| > 0 && |u.log| > 0 && |BecomeLeader(n).log| > 0 && First(BecomeLeader(n).log) == First(n.log)
    ensures Simulates(BecomeLeader(n), BecomeLeader(u), full + [Entry(|full| + 1, n.term, None)])
  {
    hide Rep;
    SimulatesBasics(n, u, full);
    RepAppend(n.log, full, Entry(|full| + 1, n.term, None));
  }

  lemma VoteReplyMirrored(n: Node, u: Node, full: Log, m: Msg) returns (full': Log)
    requires Simulates(n, u, full) && Settled(n, full) && m.VoteReply?
    ensures Mirrors(n, u, m, [], full, full')
  {
    hide Rep, BecomeLeader;
    SimulatesBasics(n, u, full);
    var n', u' := HandleVoteReply(n, m), HandleVoteReply(u, m);
    var n1, u1 := n.(votes := n.votes + {m.from}), u.(votes := u.votes + {m.from});
    full' := full;
    if m.term <= n.term && n.role == Candidate && n.term == m.reqTerm && m.granted && |n1.votes| >= QuorumSize(n1) {
      LeaderMirrored(n1, u1, full);
      full' := full + [Entry(|full| + 1, n.term, None)];
    }
    assert Simulates(n', u', full');
    BasedOn(n, n', full, full', []);
    assert Received(n, m, n', {}) && Received(u, Expanded(m, []), u', {});
  }

  // ---------------------------------------------------------------- replies to a leader

  lemma {:induction false} SameScan(n: Node, u: Node, full: Log, i: nat)
    requires Simulates(n, u, full) && First(n.log) <= n.commit && i <= |full|
    ensures WfLog(n.log) && WfLog(u.log) && Last(n.log) == Last(u.log) == |full|
    ensures CommitScan(n, i) == CommitScan(u, i)
    decreases i
  {
    hide Rep, Holders;
    SimulatesBasics(n, u, full);
    if i > n.commit {
      RepAt(n.log, full, i);
      RepAt(u.log, full, i);
      SameScan(n, u, full, i - 1);
    }
  }

  /** Searching for a term finds the same entry, unless it lies at or below the boundary. */
  lemma {:induction false} SameSearch(log: seq<Entry>, log': seq<Entry>, full: Log, i: nat, t: nat)
    requires Rep(log, full) && Rep(log', full) && First(log') == 0 && i <= |full|
    ensures WfLog(log) && WfLog(log') && Last(log) == Last(log') == |full|
    ensures var l, l' := LastOfTerm(log, i, t), LastOfTerm(log', i, t);
            l == l' || (l == 0 && l' <= First(log))
    decreases i
  {
    hide Rep;
    RepBasics(log, full);
    RepBasics(log', full);
    if i > First(log) {
      RepAt(log, full, i);
      RepAt(log', full, i);
      SameSearch(log, log', full, i - 1, t);
    } else {
      LastOfTermBound(log', i, t);
    }
  }

  lemma SameBacktrack(log: seq<Entry>, log': seq<Entry>, full: Log, t: nat, i: nat)
    requires Rep(log, full) && Rep(log', full) && First(log') == 0
    ensures WfLog(log) && WfLog(log')
    ensures Backtrack(log', t, i) == Backtrack(log, t, i) || Backtrack(log', t, i) <= First(log) + 1
  {
    hide Rep, LastOfTerm;
    SameSearch(log, log', full, |full|, t);
  }

  lemma AppendReplyMirrored(n: Node, u: Node, full: Log, m: Msg)
    requires Simulates(n, u, full) && Settled(n, full) && m.AppendReply?
    ensures Mirrors(n, u, m, [], full, full)
  {
    hide Simulates, HandleAppendReply, Based;
    AppendReplySimulated(n, u, full, m);
    SimulatesBasics(n, u, full);
    var n', u' := HandleAppendReply(n, m), HandleAppendReply(u, m);
    BasedOn(n, n', full, full, []);
    assert Received(n, m, n', {}) && Received(u, Expanded(m, []), u', {});
  }

  lemma AppendReplySimulated(n: Node, u: Node, full: Log, m: Msg)
    requires Simulates(n, u, full) && Settled(n, full) && m.AppendReply?
    ensures WfLog(n.log) && WfLog(u.log)
    ensures Simulates(HandleAppendReply(n, m), HandleAppendReply(u, m), full)
    ensures HandleAppendReply(n, m).log == n.log
  {
    hide Rep, CommitScan, Backtrack;
    SimulatesBasics(n, u, full);
    if m.term <= n.term && n.role == Leader && n.term == m.reqTerm {
      if m.success {
        SameScan(RaiseMatch(n, m.from, m.reqLast), RaiseMatch(u, m.from, m.reqLast), full, |full|);
      } else {
        SameBacktrack(n.log, u.log, full, m.conflictTerm, m.conflictIndex);
      }
    }
  }

  lemma InstallReplyMirrored(n: Node, u: Node, full: Log, m: Msg)
    requires Simulates(n, u, full) && Settled(n, full) && m.InstallReply?
    ensures Mirrors(n, u, m, [], full, full)
  {
    hide Rep;
    SimulatesBasics(n, u, full);
    var n', u' := HandleInstallReply(n, m), HandleInstallReply(u, m);
    assert Simulates(n', u', full);
    BasedOn(n, n', full, full, []);
    assert Received(n, m, n', {}) && Received(u, Expanded(m, []), u', {});
  }

  // ---------------------------------------------------------------- append requests

  lemma WindowFrame(n: Node, u: Node, m: Msg, prev: nat, prevTerm: nat, entries: seq<Entry>)
    requires WfLog(n.log) && m.AppendRequest? && First(n.log) <= prev && Follow(entries, prev)
    requires u == n.(next := u.next, snapshot := u.snapshot, pending := u.pending)
    ensures var (n', r) := AppendWindow(n, m, prev, prevTerm, entries);
            && AppendWindow(u, m, prev, prevTerm, entries)
               == (n'.(next := u.next, snapshot := u.snapshot, pending := u.pending), r)
            && n'.next == n.next && r.AppendReply?
  {
    hide Merge, ConflictStart;
  }

  /** Handling a request neither reads nor writes the fields in which the nodes may differ. */
  lemma AppendFrame(n: Node, u: Node, m: Msg)
    requires WfLog(n.log) && m.AppendRequest? && Follow(m.entries, m.prev)
    requires u == n.(next := u.next, snapshot := u.snapshot, pending := u.pending)
    ensures var (n', r) := HandleAppend(n, m);
            HandleAppend(u, m) == (n'.(next := u.next, snapshot := u.snapshot, pending := u.pending), r)
    ensures HandleAppend(n, m).0.next == n.next && HandleAppend(n, m).1.AppendReply?
  {
    hide AppendWindow;
    var n1, u1, first := Follows(n, m.term, m.from), Follows(u, m.term, m.from), First(n.log);
    if m.prev >= first {
      WindowFrame(n1, u1, m, m.prev, m.prevTerm, m.entries);
    } else if first - m.prev <= |m.entries| {
      WindowFrame(n1, u1, m, first, n.log[0].term, m.entries[first - m.prev..]);
    }
  }

  lemma AppendKeepsSentinel(n: Node, m: Msg)
    requires WfLog(n.log) && m.AppendRequest? && Follow(m.entries, m.prev)
    ensures |HandleAppend(n, m).0.log| > 0 && HandleAppend(n, m).0.log[0] == n.log[0]
  {
    hide Merge, ConflictStart;
    if m.prev >= First(n.log) {
      if m.prev <= Last(n.log) { MergeKeepsFirst(n.log, m.entries); }
    } else if First(n.log) - m.prev <= |m.entries| {
      MergeKeepsFirst(n.log, m.entries[First(n.log) - m.prev..]);
    }
  }

  lemma RepIsWhole(log: seq<Entry>, full: Log)
    requires Rep(log, full) && log[0] == Entry(0, 0, None)
    ensures log == Whole(full)
  {
    assert log == [log[0]] + log[1..];
  }

  lemma AppendRequestMirrored(g: Ghost, id: Id, n: Node, u: Node, m: Msg) returns (full': Log)
    requires GhostOk(g) && NodeInv(g, id, n) && m.AppendRequest? && MsgInv(g, m) && m.to == id
    requires id in g.h.log && Simulates(n, u, g.h.log[id]) && Settled(n, g.h.log[id])
    ensures Mirrors(n, u, m, [], g.h.log[id], full')
  {
    hide GhostOk, NodeInv, MsgInv, HandleAppend, Rep;
    var full := g.h.log[id];
    var v := Uncompacted(n, full);
    full' := CompactionIsInvisible(g, id, n, m);
    var (n', r) := HandleAppend(n, m);
    var (v', s) := HandleAppend(v, m);
    var u' := HandleAppend(u, m).0;
    AppendFrame(v, u, m);
    AppendFrame(n, n, m);
    AppendKeepsSentinel(n, m);
    AppendKeepsSentinel(u, m);
    RepIsWhole(u'.log, full');
    assert Simulates(n', u', full');
    BasedOn(n, n', full, full', []);
    assert SameAnswer(First(n.log), r, s);
    assert SameAnswers(First(n.log), {r}, {s});
    assert Received(n, m, n', {r}) && Received(u, Expanded(m, []), u', {s});
  }

  // ---------------------------------------------------------------- snapshots

  /** The entries that stand for a snapshot: the leader's up to its index. */
  ghost function PrefixOf(g: Ghost, m: Msg): Log {
    if m.InstallRequest? && m.term in g.h.lead && m.lastIndex <= |g.h.lead[m.term]| then g.h.lead[m.term][..m.lastIndex]
    else []
  }

  /** A follower of the sender's term: the snapshot and the entries it stands for leave the same
      commit index and the same whole log. */
  lemma InstallCurrentMirrored(g: Ghost, id: Id, n: Node, u: Node, m: Msg)
    requires GhostOk(g) && NodeInv(g, id, n) && m.InstallRequest? && MsgInv(g, m) && m.to == id
    requires n.role == Follower && n.leaderId == m.from && n.term == m.term
    requires id in g.h.log && id in g.h.term && g.h.term[id] == n.term && Simulates(n, u, g.h.log[id])
    requires WfLog(n.log) && First(n.log) <= n.commit && WfLog(u.log) && First(u.log) == 0
    requires Follow(PrefixOf(g, m), 0)
    ensures m.term in g.h.lead && m.lastIndex <= |g.h.lead[m.term]|
    ensures var m' := Expanded(m, PrefixOf(g, m));
            var (n', r) := HandleInstall(n, m);
            var (u', s) := HandleAppend(u, m');
            Simulates(n', u', E.Accepted(g.h, id, m.lastIndex)) && SameAnswer(First(n.log), r, s)
  {
    hide GhostOk, LogOk, VotedOk, SnapOk, CandidateOk, LeaderOk, Safe, Rep, Merge, SnapshotOf;
    var full, k, prefix := g.h.log[id], m.lastIndex, PrefixOf(g, m);
    var m' := Expanded(m, prefix);
    SimulatesBasics(n, u, full);
    assert prefix == g.h.lead[m.term][0..k];
    MergedWhole(g, id, u.log, m.term, 0, prefix);
    MergeKeepsFirst(u.log, prefix);
    RepIsWhole(Merge(u.log, prefix), E.Accepted(g.h, id, k));
    RepAt(u.log, full, 0);
    assert HandleAppend(u, m') == AppendWindow(u, m', 0, 0, prefix);
    if k <= n.commit {
      KnownIsAccepted(g, id, n, k);
    } else {
      InstalledRep(g, id, n, m);
    }
  }

  /** The boundary of a follower after a snapshot is committed. */
  lemma InstallBased(g: Ghost, id: Id, n: Node, m: Msg)
    requires GhostOk(g) && NodeInv(g, id, n) && m.InstallRequest? && MsgInv(g, m) && n.term == m.term
    requires id in g.h.log && id in g.h.term && g.h.term[id] == n.term && WfLog(n.log) && Settled(n, g.h.log[id])
    ensures m.term in g.h.lead && m.lastIndex <= |g.h.lead[m.term]|
    ensures Based(n, HandleInstall(n, m).0, g.h.log[id], E.Accepted(g.h, id, m.lastIndex), PrefixOf(g, m))
  {
    hide GhostOk, NodeInv, Safe, Rep, SnapshotOf;
    var k := m.lastIndex;
    if k <= n.commit {
      KnownIsAccepted(g, id, n, k);
      BasedOn(n, HandleInstall(n, m).0, g.h.log[id], g.h.log[id], PrefixOf(g, m));
    } else {
      assert E.Accepted(g.h, id, k)[..k] == g.h.lead[m.term][..k];
    }
  }

  lemma KnownIsAccepted(g: Ghost, id: Id, n: Node, k: nat)
    requires GhostOk(g) && NodeInv(g, id, n) && n.term in g.h.lead && k <= n.commit
    requires id in g.h.log && id in g.h.term && g.h.term[id] == n.term && k <= |g.h.lead[n.term]|
    ensures E.Accepted(g.h, id, k) == g.h.log[id]
  {
    hide GhostOk, VotedOk, SnapOk, CandidateOk, LeaderOk, Safe, Rep;
    AcceptedKeepsCommitted(g, id, n, k);
    var l, a := g.h.log[id], g.h.lead[n.term];
    assert l[..n.commit] <= a;
    assert a[..k] == l[..k];
  }

  lemma PrefixFollows(g: Ghost, m: Msg)
    requires GhostOk(g) && m.InstallRequest? && MsgInv(g, m)
    ensures m.term in g.h.lead && m.lastIndex <= |g.h.lead[m.term]| && Follow(PrefixOf(g, m), 0)
  {
    hide GhostOk;
    LeadIndexed(g, m.term);
  }

  /** A new leader is followed alike. */
  lemma FollowsMirrored(n: Node, u: Node, full: Log, t: nat, leader: Id)
    requires Simulates(n, u, full)
    ensures Simulates(Follows(n, t, leader), Follows(u, t, leader), full)
  {
    hide Rep;
  }

  lemma InstallStaleMirrored(g: Ghost, id: Id, n: Node, u: Node, m: Msg)
    requires GhostOk(g) && NodeInv(g, id, n) && m.InstallRequest? && MsgInv(g, m) && m.term < n.term
    requires id in g.h.log && Simulates(n, u, g.h.log[id]) && Settled(n, g.h.log[id])
    ensures Mirrors(n, u, m, PrefixOf(g, m), g.h.log[id], g.h.log[id])
  {
    hide GhostOk, NodeInv, MsgInv, HandleAppend, HandleInstall, Simulates, Based, SameAnswer;
    var full, prefix := g.h.log[id], PrefixOf(g, m);
    var m' := Expanded(m, prefix);
    SimulatesBasics(n, u, full);
    PrefixFollows(g, m);
    SameFields(n, u, full);
    StaleAppend(u, m');
    StaleInstall(n, m);
    BasedOn(n, n, full, full, prefix);
    StaleAnswers(First(n.log), n, u, m, prefix);
    var r, s := HandleInstall(n, m).1, HandleAppend(u, m').1;
    OneAnswer(First(n.log), r, s);
    assert Received(n, m, n, {r}) && Received(u, m', u, {s});
  }

  /** A snapshot of the node's term or a later one. */
  lemma InstallTakenMirrored(g: Ghost, id: Id, n: Node, u: Node, m: Msg) returns (full': Log)
    requires GhostOk(g) && NodeInv(g, id, n) && m.InstallRequest? && MsgInv(g, m) && m.to == id && n.term <= m.term
    requires id in g.h.log && Simulates(n, u, g.h.log[id]) && Settled(n, g.h.log[id])
    ensures WfLog(n.log) && WfLog(u.log) && Follow(PrefixOf(g, m), 0)
    ensures var (n', r) := HandleInstall(n, m);
            var (u', s) := HandleAppend(u, Expanded(m, PrefixOf(g, m)));
            && Simulates(n', u', full') && SameAnswer(First(n.log), r, s)
            && Based(n, n', g.h.log[id], full', PrefixOf(g, m))
  {
    hide GhostOk, NodeInv, MsgInv, HandleAppend, HandleInstall, Simulates, Based, E.Accepted, SameAnswer, StepOk,
         GhostGrows, Local, Rep;
    var full, prefix := g.h.log[id], PrefixOf(g, m);
    SimulatesBasics(n, u, full);
    PrefixFollows(g, m);
    SameFields(n, u, full);
    FollowThenHandle(n, m);
    FollowThenHandle(u, Expanded(m, prefix));
    FollowsMirrored(n, u, full, m.term, m.from);
    var n1, u1 := Follows(n, m.term, m.from), Follows(u, m.term, m.from);
    var g1 := FollowsStep(g, id, n, m.term, m.from);
    StepParts(g, g1, id, n, n1);
    MsgGrows(g, g1, m);
    IsMember(g1, id, n1);
    InstallCurrentMirrored(g1, id, n1, u1, m);
    InstallBased(g1, id, n1, m);
    full' := E.Accepted(g1.h, id, m.lastIndex);
    BasedFrame(n, n1, HandleInstall(n, m).0, full, full', prefix);
  }

  lemma InstallRequestMirrored(g: Ghost, id: Id, n: Node, u: Node, m: Msg) returns (full': Log)
    requires GhostOk(g) && NodeInv(g, id, n) && m.InstallRequest? && MsgInv(g, m) && m.to == id
    requires id in g.h.log && Simulates(n, u, g.h.log[id]) && Settled(n, g.h.log[id])
    ensures Mirrors(n, u, m, PrefixOf(g, m), g.h.log[id], full')
  {
    hide GhostOk, NodeInv, MsgInv, HandleAppend, HandleInstall, Simulates, Based, SameAnswer, PrefixOf;
    if m.term < n.term {
      InstallStaleMirrored(g, id, n, u, m);
      full' := g.h.log[id];
    } else {
      full' := InstallTakenMirrored(g, id, n, u, m);
      var m' := Expanded(m, PrefixOf(g, m));
      var (n', r) := HandleInstall(n, m);
      var (u', s) := HandleAppend(u, m');
      OneAnswer(First(n.log), r, s);
      assert Received(n, m, n', {r}) && Received(u, m', u', {s});
    }
  }

  lemma OneAnswer(first: nat, r: Msg, s: Msg)
    requires SameAnswer(first, r, s)
    ensures SameAnswers(first, {r}, {s})
  {
    hide SameAnswer;
  }

  lemma BasedFrame(n: Node, n1: Node, n': Node, full: Log, full': Log, prefix: Log)
    requires n1.commit == n.commit && Based(n1, n', full, full', prefix)
    ensures Based(n, n', full, full', prefix)
  {
  }

  lemma StaleAnswers(first: nat, n: Node, u: Node, m: Msg, prefix: Log)
    requires m.InstallRequest? && m.term < n.term && |prefix| == m.lastIndex && u.id == n.id && u.term == n.term
    ensures SameAnswer(first, InstallReply(n.id, m.from, n.term, m.term, m.lastIndex),
                       Rejected(u, Expanded(m, prefix), 0, 0))
  {
  }

  lemma SameFields(n: Node, u: Node, full: Log)
    requires Simulates(n, u, full)
    ensures u.id == n.id && u.term == n.term && u.commit == n.commit && u.role == n.role
  {
    hide Rep;
  }

  lemma StaleInstall(n: Node, m: Msg)
    requires WfLog(n.log) && First(n.log) <= n.commit && m.InstallRequest? && m.term < n.term
    ensures HandleInstall(n, m) == (n, InstallReply(n.id, m.from, n.term, m.term, m.lastIndex))
  {
  }

  // ---------------------------------------------------------------- every message, every step

  lemma SomeMirror(g: Ghost, id: Id, n: Node, u: Node, m: Msg) returns (full': Log)
    requires GhostOk(g) && NodeInv(g, id, n) && MsgInv(g, m) && m.to == id
    requires id in g.h.log && Simulates(n, u, g.h.log[id])
    ensures Mirrors(n, u, m, PrefixOf(g, m), g.h.log[id], full')
  {
    hide GhostOk, NodeInv, Simulates, Mirrors, Safe, SnapshotOf;
    full' := g.h.log[id];
    NodeBasics(g, id, n);
    match m {
      case VoteRequest(_, _, _, _, _) => VoteRequestMirrored(n, u, full', m);
      case VoteReply(_, _, _, _, _) => full' := VoteReplyMirrored(n, u, full', m);
      case AppendRequest(_, _, _, _, _, _, _) => full' := AppendRequestMirrored(g, id, n, u, m);
      case AppendReply(_, _, _, _, _, _, _, _) => AppendReplyMirrored(n, u, full', m);
      case InstallRequest(_, _, _, _, _, _) => full' := InstallRequestMirrored(g, id, n, u, m);
      case InstallReply(_, _, _, _, _) => InstallReplyMirrored(n, u, full', m);
    }
  }

  lemma ReceivedOnce(n: Node, m: Msg, n': Node, out: set<Msg>, n1: Node, out1: set<Msg>)
    requires Received(n, m, n', out) && Received(n, m, n1, out1)
    ensures n1 == n' && out1 == out
  {
  }

  /** Compaction refinement: whatever message arrives, the compacted node and the node with its
      whole log move to the same term, role, vote, leader, commit index and whole log and give
      the same answer. A snapshot does what the leader's entries up to its index do. */
  lemma EveryMessageMirrored(g: Ghost, id: Id, n: Node, u: Node, m: Msg, n': Node, out: set<Msg>)
    returns (u': Node, out': set<Msg>, full': Log)
    requires GhostOk(g) && NodeInv(g, id, n) && MsgInv(g, m) && m.to == id
    requires id in g.h.log && Simulates(n, u, g.h.log[id]) && Received(n, m, n', out)
    ensures Received(u, Expanded(m, PrefixOf(g, m)), u', out') && Simulates(n', u', full')
    ensures |n.log| > 0 && SameAnswers(First(n.log), out, out')
    ensures Based(n, n', g.h.log[id], full', PrefixOf(g, m))
  {
    hide GhostOk, NodeInv, MsgInv, Simulates, Received, SameAnswers, Based, PrefixOf, Expanded;
    full' := SomeMirror(g, id, n, u, m);
    var n1, out1, u1, out2 :|
      && Received(n, m, n1, out1) && Received(u, Expanded(m, PrefixOf(g, m)), u1, out2)
      && Simulates(n1, u1, full') && |n.log| > 0 && SameAnswers(First(n.log), out1, out2)
      && Based(n, n1, g.h.log[id], full', PrefixOf(g, m));
    ReceivedOnce(n, m, n', out, n1, out1);
    u', out' := u1, out2;
  }

  /** Taking a snapshot changes nothing the other node can tell. */
  lemma SnapshotStutters(n: Node, u: Node, full: Log, index: nat, data: SnapshotState)
    requires Simulates(n, u, full) && WfLog(n.log) && n.applied <= Last(n.log)
    ensures Simulates(TakeSnapshot(n, index, data), u, full)
  {
    RepBasics(n.log, full);
    if First(n.log) < index <= n.applied {
      RepCompact(n.log, full, index);
    }
    hide Rep;
  }

  /** An election timeout and a proposal are taken alike, and the same votes are requested. */
  lemma LocalStepsMirrored(n: Node, u: Node, full: Log, command: Command, peer: Id)
    requires Simulates(n, u, full)
    ensures |n.log| > 0 && |u.log| > 0
    ensures Simulates(StartElection(n), StartElection(u), full)
    ensures VoteRequestTo(StartElection(n), peer) == VoteRequestTo(StartElection(u), peer)
    ensures var full' := if n.role == Leader then full + [Entry(|full| + 1, n.term, command)] else full;
            Simulates(Propose(n, command), Propose(u, command), full')
  {
    hide Rep;
    SimulatesBasics(n, u, full);
    RepAppend(n.log, full, Entry(|full| + 1, n.term, command));
  }
}
