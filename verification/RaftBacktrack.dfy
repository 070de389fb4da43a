/** Fast backtracking (section 5.3 of the Raft paper): the conflict hint always leads the
    leader closer to the point where the two logs part, and never past it. */
module RaftBacktrack {
  import opened Tasks
  import opened RaftLog
  import opened RaftHistory
  import opened RaftStep
  import opened RaftCompaction
  import opened RaftInvariant
  import opened RaftHandlers
  import opened RaftReplicationProof
  import opened RaftSafety

  /** How many leading entries two logs share. */
  function Common(a: Log, b: Log): (c: nat)
    ensures c <= |a| && c <= |b| && a[..c] == b[..c]
    ensures c < |a| && c < |b| ==> a[c] != b[c]
  {
    if a == [] || b == [] || a[0] != b[0] then 0
    else
      var c := Common(a[1..], b[1..]);
      assert a[..c + 1] == [a[0]] + a[1..][..c] && b[..c + 1] == [b[0]] + b[1..][..c];
      c + 1
  }

  lemma CommonAtLeast(a: Log, b: Log, i: nat)
    requires i <= |a| && i <= |b| && a[..i] == b[..i]
    ensures i <= Common(a, b)
  {
    forall k | 0 <= k < i ensures a[k] == b[k] {
      assert a[..i][k] == b[..i][k];
    }
  }

  /** In matching logs an equal term is an equal prefix. */
  lemma SameTermIsCommon(h: History, a: Log, b: Log, i: nat)
    requires Matches(h, a) && Matches(h, b) && i <= |a| && i <= |b|
    ensures TermAt(a, i) == TermAt(b, i) ==> i <= Common(a, b)
    ensures i <= Common(a, b) ==> TermAt(a, i) == TermAt(b, i)
  {
    if i > 0 && TermAt(a, i) == TermAt(b, i) {
      SamePrefix(h, a, b, i);
      CommonAtLeast(a, b, i);
    }
    var c := Common(a, b);
    if 0 < i <= c {
      assert a[..c][i - 1] == b[..c][i - 1];
    }
  }

  // ---------------------------------------------------------------- the two searches

  /** The follower's hint: the first entry of the run of its conflicting term that ends at `i`. */
  lemma {:induction false} ConflictRun(log: seq<Entry>, i: nat, t: nat)
    requires WfLog(log) && First(log) < i <= Last(log) && TermOf(log, i) == t
    ensures First(log) < ConflictStart(log, i, t) <= i
    ensures forall k :: ConflictStart(log, i, t) <= k <= i ==> TermOf(log, k) == t
    ensures ConflictStart(log, i, t) == First(log) + 1 || TermOf(log, ConflictStart(log, i, t) - 1) != t
    decreases i
  {
    if i > First(log) + 1 && TermOf(log, i - 1) == t {
      ConflictRun(log, i - 1, t);
    }
  }

  /** Terms do not decrease along the part of the log that is still there. */
  ghost predicate Sorted(log: seq<Entry>)
    requires WfLog(log)
  {
    forall i, j :: First(log) < i <= j <= Last(log) ==> TermOf(log, i) <= TermOf(log, j)
  }

  /** The leader's search: `LastOfTerm` is the last index of term `t`, and 0 means there is
      none above the snapshot boundary. */
  lemma {:induction false} LastOfTermFinds(log: seq<Entry>, i: nat, t: nat)
    requires WfLog(log) && Sorted(log) && i <= Last(log)
    ensures var l := LastOfTerm(log, i, t);
            && l <= i
            && (l > 0 ==> First(log) < l && TermOf(log, l) == t)
            && forall k :: First(log) < k <= i && k > l ==> TermOf(log, k) != t
    decreases i
  {
    if i > First(log) && TermOf(log, i) > t {
      LastOfTermFinds(log, i - 1, t);
    }
  }

  lemma MatchingIsSorted(g: Ghost, id: Id, n: Node)
    requires GhostOk(g) && NodeInv(g, id, n)
    ensures WfLog(n.log) && Sorted(n.log)
  {
    hide Rep, Safe, SnapshotOf, CandidateOk, LeaderOk, Inv;
    var l := g.h.log[id];
    RepBasics(n.log, l);
    NodeSorted(g, id);
    forall i, j | First(n.log) < i <= j <= Last(n.log) ensures TermOf(n.log, i) <= TermOf(n.log, j) {
      RepAt(n.log, l, i);
      RepAt(n.log, l, j);
    }
  }

  lemma NodeSorted(g: Ghost, id: Id)
    requires GhostOk(g) && id in g.h.nodes
    ensures id in g.h.log
    ensures forall i, j :: 0 < i <= j <= |g.h.log[id]| ==> TermAt(g.h.log[id], i) <= TermAt(g.h.log[id], j)
    ensures forall i :: 0 < i <= |g.h.log[id]| ==> TermAt(g.h.log[id], i) > 0
  {
    assert NodeOk(g.h, id);
    var l := g.h.log[id];
    forall i, j | 0 < i <= j <= |l| ensures TermAt(l, i) <= TermAt(l, j) && TermAt(l, i) > 0 {
      assert MatchesAt(g.h, l, j - 1) && MatchesAt(g.h, l, i - 1);
      assert LeadOk(g.h, l[j - 1].term) && LeadOk(g.h, l[i - 1].term);
      assert l[..j][i - 1] == g.h.lead[l[j - 1].term][i - 1];
    }
  }

  // ---------------------------------------------------------------- one rejected request

  /** Two compacted logs of one history, ready for a consistency check. */
  ghost predicate Comparable(h: History, ll: seq<Entry>, a: Log, fl: seq<Entry>, b: Log) {
    && Rep(ll, a) && Rep(fl, b) && WfLog(ll) && WfLog(fl)
    && Matches(h, a) && Matches(h, b)
    && Sorted(ll) && (forall i, j :: 0 < i <= j <= |b| ==> TermAt(b, i) <= TermAt(b, j))
  }

  /** The leader holds entries of the conflicting term: its last one is the end of the common
      prefix. */
  lemma LastOfTermIsCommon(h: History, a: Log, b: Log, prev: nat, l: nat)
    requires Matches(h, a) && Matches(h, b) && 0 < prev <= |a| && prev <= |b| && 0 < l <= |a|
    requires TermAt(a, prev) != TermAt(b, prev) && TermAt(a, l) == TermAt(b, prev)
    requires l < |a| ==> TermAt(a, l + 1) != TermAt(a, l)
    requires forall i, j :: 0 < i <= j <= |b| ==> TermAt(b, i) <= TermAt(b, j)
    ensures l < prev && Common(a, b) == l
  {
    var t := TermAt(b, prev);
    assert MatchesAt(h, a, l - 1) && MatchesAt(h, b, prev - 1);
    var lead := h.lead[t];
    assert a[..l] == lead[..l] && b[..prev] == lead[..prev];
    assert b[..l] == b[..prev][..l];
    CommonAtLeast(a, b, l);
    SameTermIsCommon(h, a, b, l);
    if Common(a, b) > l {
      SameTermIsCommon(h, a, b, l + 1);
    }
  }

  /** Where the leader goes on after a rejection at `prev`: strictly earlier, after the common
      prefix, or at its snapshot when the common prefix does not reach beyond it. */
  ghost predicate GoesBack(ll: seq<Entry>, a: Log, b: Log, prev: nat, next: nat)
    requires |ll| > 0
  {
    next <= prev && (Common(a, b) < next || (next == First(ll) && Common(a, b) <= First(ll)))
  }

  /** The leader has no entry of the conflicting term above its snapshot: none of the run of
      that term, where it lies above the snapshot, is common. */
  lemma ConflictIsApart(h: History, ll: seq<Entry>, a: Log, b: Log, prev: nat, start: nat)
    requires Rep(ll, a) && WfLog(ll) && Last(ll) == |a| && Matches(h, a) && Matches(h, b)
    requires 0 < start <= prev <= |a| && prev <= |b| && TermAt(b, start) == TermAt(b, prev) != TermAt(a, prev)
    requires forall i, j :: 0 < i <= j <= |b| ==> TermAt(b, i) <= TermAt(b, j)
    requires forall k :: First(ll) < k <= |a| ==> TermOf(ll, k) != TermAt(b, prev)
    ensures Common(a, b) < start || Common(a, b) <= First(ll)
  {
    hide Rep, Matches;
    var c := Common(a, b);
    if c >= start && c > First(ll) {
      SameTermIsCommon(h, a, b, prev);
      SameTermIsCommon(h, a, b, c);
      RepAt(ll, a, c);
      assert false;
    }
  }

  /** The hint after a term conflict. */
  lemma ConflictHint(h: History, ll: seq<Entry>, a: Log, fl: seq<Entry>, b: Log, prev: nat)
    requires Comparable(h, ll, a, fl, b) && First(ll) <= prev <= |a| && First(fl) < prev <= |b|
    requires TermAt(b, prev) != TermAt(a, prev) && TermAt(b, prev) > 0
    ensures Last(fl) == |b| && TermOf(fl, prev) == TermAt(b, prev)
    ensures var next := Backtrack(ll, TermAt(b, prev), ConflictStart(fl, prev, TermAt(b, prev)));
            GoesBack(ll, a, b, prev, next)
  {
    hide Rep, Matches;
    var t := TermAt(b, prev);
    RepBasics(ll, a);
    RepAt(fl, b, prev);
    ConflictRun(fl, prev, t);
    var start := ConflictStart(fl, prev, t);
    RepAt(fl, b, start);
    LastOfTermFinds(ll, Last(ll), t);
    var l := LastOfTerm(ll, Last(ll), t);
    if l > 0 {
      RepAt(ll, a, l);
      if l < |a| { RepAt(ll, a, l + 1); }
      LastOfTermIsCommon(h, a, b, prev, l);
    } else {
      ConflictIsApart(h, ll, a, b, prev, start);
    }
  }

  /** The hint when the follower's log is too short. */
  lemma ShortHint(ll: seq<Entry>, a: Log, b: Log, prev: nat)
    requires Rep(ll, a) && WfLog(ll) && First(ll) <= prev <= |a| && |b| < prev
    ensures GoesBack(ll, a, b, prev, Backtrack(ll, 0, |b| + 1))
  {
  }

  // ---------------------------------------------------------------- one exchange

  /** A leader `n` and a follower `f` of its term, about to exchange an append request. */
  ghost predicate Exchange(g: Ghost, a: Id, n: Node, p: Id, f: Node) {
    && GhostOk(g) && NodeInv(g, a, n) && NodeInv(g, p, f)
    && n.role == Leader && f.role == Follower && f.term == n.term && p in n.peers
    && p in n.next && First(n.log) < n.next[p]
  }

  lemma ExchangeComparable(g: Ghost, a: Id, n: Node, p: Id, f: Node)
    requires Exchange(g, a, n, p, f)
    ensures a in g.h.log && p in g.h.log && n.id == a && f.id == p
    ensures Comparable(g.h, n.log, g.h.log[a], f.log, g.h.log[p])
    ensures n.next[p] <= |g.h.log[a]| + 1 && First(f.log) <= Common(g.h.log[a], g.h.log[p])
    ensures forall i :: 0 < i <= |g.h.log[p]| ==> TermAt(g.h.log[p], i) > 0
  {
    hide Safe, SnapshotOf, CandidateOk, Inv, Committed;
    RepBasics(n.log, g.h.log[a]);
    RepBasics(f.log, g.h.log[p]);
    MatchingIsSorted(g, a, n);
    NodeSorted(g, p);
    BothMatch(g, a, p);
    AcceptedKeepsCommitted(g, p, f, 0);
    var l, k := g.h.log[p], g.h.log[a];
    assert l[..f.commit] <= k;
    assert l[..First(f.log)] == k[..First(f.log)];
    CommonAtLeast(k, l, First(f.log));
  }

  lemma BothMatch(g: Ghost, a: Id, p: Id)
    requires GhostOk(g) && a in g.h.nodes && p in g.h.nodes
    ensures a in g.h.log && p in g.h.log && Matches(g.h, g.h.log[a]) && Matches(g.h, g.h.log[p])
  {
    assert NodeOk(g.h, a) && NodeOk(g.h, p);
  }

  /** The follower's answer to a request of its own term. */
  lemma Verdict(f: Node, m: Msg)
    requires WfLog(f.log) && m.AppendRequest? && Follow(m.entries, m.prev) && f.role == Follower && f.term == m.term
    ensures var r := HandleAppend(f, m).1;
            && r.AppendReply? && r.from == f.id && r.term == f.term && r.reqTerm == m.term
            && (m.prev < First(f.log) ==> r.success)
            && (m.prev > Last(f.log) ==> !r.success && r.conflictTerm == 0 && r.conflictIndex == Last(f.log) + 1)
            && (First(f.log) <= m.prev <= Last(f.log) ==>
                  var t := TermOf(f.log, m.prev);
                  if t == m.prevTerm then r.success
                  else !r.success && r.conflictTerm == t && r.conflictIndex == ConflictStart(f.log, m.prev, t))
  {
  }

  /** One request against the follower's log: the verdict, and where it sends the leader. */
  lemma VerdictGoesBack(h: History, ll: seq<Entry>, a: Log, f: Node, b: Log, m: Msg)
    requires Comparable(h, ll, a, f.log, b) && First(f.log) <= Common(a, b)
    requires m.AppendRequest? && Follow(m.entries, m.prev) && f.role == Follower && f.term == m.term
    requires First(ll) <= m.prev <= |a| && m.prevTerm == TermAt(a, m.prev)
    requires forall i :: 0 < i <= |b| ==> TermAt(b, i) > 0
    ensures var r := HandleAppend(f, m).1;
            && r.AppendReply? && (r.success <==> m.prev <= Common(a, b))
            && (!r.success ==> GoesBack(ll, a, b, m.prev, Backtrack(ll, r.conflictTerm, r.conflictIndex)))
  {
    hide Matches, Rep, HandleAppend, Sorted, Backtrack, GoesBack;
    var prev := m.prev;
    Verdict(f, m);
    RepBasics(f.log, b);
    if First(f.log) <= prev <= |b| {
      SameTermIsCommon(h, a, b, prev);
      RepAt(f.log, b, prev);
      if TermAt(b, prev) != TermAt(a, prev) {
        ConflictHint(h, ll, a, f.log, b, prev);
      }
    } else if prev > |b| {
      ShortHint(ll, a, b, prev);
    }
  }

  /** The request a leader sends in an exchange. */
  lemma ExchangeRequest(g: Ghost, a: Id, n: Node, p: Id, f: Node)
    requires Exchange(g, a, n, p, f)
    ensures WfLog(n.log) && n.next[p] <= Last(n.log) + 1 && Replicate(n, p).Some? && a in g.h.log
    ensures var m := Replicate(n, p).value;
            && m.AppendRequest? && WfLog(f.log) && Follow(m.entries, m.prev) && m.from == n.id && m.term == n.term
            && m.prev == n.next[p] - 1 <= |g.h.log[a]| && m.prevTerm == TermAt(g.h.log[a], m.prev)
  {
    hide Matches, Rep, GhostOk, NodeInv, Comparable;
    ExchangeComparable(g, a, n, p, f);
    ReplicateOk(g, a, n, p);
    NodeBasics(g, p, f);
    NodeBasics(g, a, n);
    var m := Replicate(n, p).value;
    WholeWindow(g, m);
    WindowFollows(g, m, m.prev, m.prevTerm, m.entries);
    ComparableParts(g.h, n.log, g.h.log[a], f.log, g.h.log[p]);
    RepAt(n.log, g.h.log[a], m.prev);
  }

  /** The follower accepts exactly when the request starts inside the common prefix. A
      rejection makes the leader's next request start strictly earlier and still not inside the
      common prefix, so the first accepted request starts exactly at its end; the one exception
      is a leader that has compacted what lies there and falls back to its snapshot. */
  lemma RejectionLowersNext(g: Ghost, a: Id, n: Node, p: Id, f: Node)
    requires Exchange(g, a, n, p, f)
    ensures WfLog(n.log) && n.next[p] <= Last(n.log) + 1 && Replicate(n, p).Some?
    ensures var m := Replicate(n, p).value;
            && m.AppendRequest? && WfLog(f.log) && Follow(m.entries, m.prev)
            && var r := HandleAppend(f, m).1;
               var common := Common(g.h.log[a], g.h.log[p]);
               && r.AppendReply?
               && (r.success <==> n.next[p] - 1 <= common)
               && (!r.success ==>
                     var next := HandleAppendReply(n, r).next[p];
                     && next < n.next[p]
                     && (common < next || (next == First(n.log) && common <= First(n.log))))
  {
    hide Matches, Rep, GhostOk, NodeInv, HandleAppend, Comparable, Backtrack, Replicate;
    ExchangeComparable(g, a, n, p, f);
    ExchangeRequest(g, a, n, p, f);
    var m := Replicate(n, p).value;
    Verdict(f, m);
    VerdictGoesBack(g.h, n.log, g.h.log[a], f, g.h.log[p], m);
  }

  lemma ComparableParts(h: History, ll: seq<Entry>, a: Log, fl: seq<Entry>, b: Log)
    requires Comparable(h, ll, a, fl, b)
    ensures Rep(ll, a) && Rep(fl, b) && Matches(h, a) && Matches(h, b)
  {
  }

  // ---------------------------------------------------------------- many exchanges

  /** After a rejection the exchange can go on from the new next index. */
  lemma ExchangeContinues(g: Ghost, a: Id, n: Node, p: Id, f: Node, r: Msg)
    requires Exchange(g, a, n, p, f) && WfLog(n.log) && n.next[p] <= Last(n.log) + 1 && Replicate(n, p).Some?
    requires var m := Replicate(n, p).value;
             m.AppendRequest? && WfLog(f.log) && Follow(m.entries, m.prev) && r == HandleAppend(f, m).1
    requires r.AppendReply? && !r.success
    ensures var n' := HandleAppendReply(n, r);
            && n'.log == n.log && p in n'.next && n'.next[p] > 0
            && (First(n'.log) < n'.next[p] ==> Exchange(g, a, n', p, f))
  {
    hide Matches, Rep, GhostOk, NodeInv, HandleAppend, Comparable, Backtrack;
    ExchangeComparable(g, a, n, p, f);
    NodeBasics(g, a, n);
    var m := Replicate(n, p).value;
    Verdict(f, m);
    var l := g.h.log[p];
    NodeBasics(g, p, f);
    if m.prev <= Last(f.log) {
      ConflictStartBounds(f.log, m.prev, TermOf(f.log, m.prev));
    }
    BacktrackStep(g, a, n, p, r.conflictTerm, r.conflictIndex);
    BacktrackPositive(n.log, r.conflictTerm, r.conflictIndex);
  }

  lemma BacktrackPositive(log: seq<Entry>, t: nat, i: nat)
    requires WfLog(log)
    ensures Backtrack(log, t, i) > 0
  {
  }

  /** The next index at which repeated requests to a standing follower are first accepted, or
      the snapshot boundary when they give way to a snapshot. */
  ghost function Settled(g: Ghost, a: Id, n: Node, p: Id, f: Node): nat
    requires Exchange(g, a, n, p, f)
    decreases n.next[p]
  {
    RejectionLowersNext(g, a, n, p, f);
    var r := HandleAppend(f, Replicate(n, p).value).1;
    if r.success then n.next[p]
    else
      ExchangeContinues(g, a, n, p, f, r);
      var n' := HandleAppendReply(n, r);
      if n'.next[p] <= First(n.log) then n'.next[p] else Settled(g, a, n', p, f)
  }

  /** Replication settles at the end of the common prefix: with an uncompacted leader log the
      first accepted request after a rejection starts exactly there. */
  lemma {:induction false} SettlesAtCommonPrefix(g: Ghost, a: Id, n: Node, p: Id, f: Node)
    requires Exchange(g, a, n, p, f)
    ensures var common := Common(g.h.log[a], g.h.log[p]);
            var s := Settled(g, a, n, p, f);
            || s == (if n.next[p] - 1 <= common then n.next[p] else common + 1)
            || (s == First(n.log) && common <= First(n.log))
    decreases n.next[p]
  {
    hide Common, HandleAppend, GhostOk, NodeInv;
    RejectionLowersNext(g, a, n, p, f);
    var r := HandleAppend(f, Replicate(n, p).value).1;
    if !r.success {
      ExchangeContinues(g, a, n, p, f, r);
      var n' := HandleAppendReply(n, r);
      if First(n.log) < n'.next[p] {
        SettlesAtCommonPrefix(g, a, n', p, f);
      }
    }
  }
}
