/** The events that move a Raft history, and the proof that each keeps its invariant. */
module RaftEvents {
  import opened Tasks
  import opened RaftLog
  import opened RaftHistory

  // ---------------------------------------------------------------- parts an event leaves alone

  lemma LeadOkGrows(h: History, h': History, t: nat)
    requires Grows(h, h') && t in h.lead && t in h'.lead && LeadOk(h, t) && h'.lead[t] == h.lead[t]
    ensures LeadOk(h', t)
  {
    assert LeadGrows(h, h', t);
    MatchesGrows(h, h', h.base[t]);
  }

  lemma ElectedOkGrows(h: History, h': History, t: nat)
    requires Grows(h, h') && t in h.lead && t in h'.lead && ElectedOk(h, t)
    ensures ElectedOk(h', t)
  {
    assert LeadGrows(h, h', t);
    assert At(h.leader[t], t) in h'.runs;
  }

  lemma NodeOkGrows(h: History, h': History, n: Id)
    requires Grows(h, h') && n in h.nodes && NodeOk(h, n) && h'.log[n] == h.log[n]
    ensures NodeOk(h', n)
  {
    MatchesGrows(h, h', h.log[n]);
  }

  lemma RunOkGrows(h: History, h': History, a: At)
    requires Grows(h, h') && a in h.runs && RunOk(h, a)
    ensures RunOk(h', a)
  {
    MatchesGrows(h, h', h.runs[a]);
  }

  lemma VoteOkGrows(h: History, h': History, a: At)
    requires Grows(h, h') && a in h.votes && VoteOk(h, a)
    ensures VoteOk(h', a)
  {
    MatchesGrows(h, h', h.votes[a].log);
    assert a in h'.votes && At(h.votes[a].candidate, a.term) in h'.runs;
    assert a.term in h.lead ==> LeadGrows(h, h', a.term);
    if a.term !in h.base || a.node in h.quorum[a.term] {
      VoteKeptGrows(h, h', a);
    }
  }

  lemma AckOkGrows(h: History, h': History, a: At)
    requires Grows(h, h') && a in h.acks && AckOk(h, a)
    requires h'.log[a.node] == h.log[a.node] && a in h'.acks && h'.acks[a] == h.acks[a]
    ensures AckOk(h', a)
  {
    assert LeadGrows(h, h', a.term);
    KeptUpToGrows(h, h', h.log[a.node], a.term, h.acks[a], h.term[a.node] + 1, h'.term[a.node] + 1);
  }

  lemma OldRunsOk(h: History, h': History)
    requires Inv(h) && Grows(h, h')
    ensures forall a {:trigger RunOk(h', a)} :: a in h.runs ==> a in h'.runs && RunOk(h', a)
  {
    forall a | a in h.runs ensures a in h'.runs && RunOk(h', a) {
      assert RunOk(h, a);
      RunOkGrows(h, h', a);
    }
  }

  lemma OldVotesOk(h: History, h': History)
    requires Inv(h) && Grows(h, h')
    ensures forall a {:trigger VoteOk(h', a)} :: a in h.votes ==> a in h'.votes && VoteOk(h', a)
  {
    forall a | a in h.votes ensures a in h'.votes && VoteOk(h', a) {
      assert VoteOk(h, a);
      VoteOkGrows(h, h', a);
    }
  }

  /** An event that only moves terms, runs and votes keeps everything recorded before. */
  lemma OldPartsOk(h: History, h': History)
    requires Inv(h) && Grows(h, h') && h'.log == h.log && h'.lead == h.lead && h'.acks == h.acks
    ensures forall t {:trigger LeadOk(h', t)} :: t in h'.lead ==> LeadOk(h', t)
    ensures forall t {:trigger ElectedOk(h', t)} :: t in h'.lead ==> ElectedOk(h', t)
    ensures forall n {:trigger NodeOk(h', n)} :: n in h'.nodes ==> NodeOk(h', n)
    ensures forall a {:trigger RunOk(h', a)} :: a in h.runs ==> a in h'.runs && RunOk(h', a)
    ensures forall a {:trigger VoteOk(h', a)} :: a in h.votes ==> a in h'.votes && VoteOk(h', a)
    ensures forall a {:trigger AckOk(h', a)} :: a in h'.acks ==> AckOk(h', a)
  {
    hide LeadOk, ElectedOk, NodeOk, RunOk, VoteOk, AckOk;
    forall t | t in h.lead ensures LeadOk(h', t) && ElectedOk(h', t) {
      assert LeadOk(h, t) && ElectedOk(h, t);
      LeadOkGrows(h, h', t);
      ElectedOkGrows(h, h', t);
    }
    forall n | n in h.nodes ensures NodeOk(h', n) {
      assert NodeOk(h, n);
      NodeOkGrows(h, h', n);
    }
    OldRunsOk(h, h');
    OldVotesOk(h, h');
    forall a | a in h.acks ensures AckOk(h', a) {
      assert AckOk(h, a);
      AckOkGrows(h, h', a);
    }
  }

  // ---------------------------------------------------------------- a node learns a newer term

  function AdvanceTerm(h: History, n: Id, t: nat): History {
    h.(term := h.term[n := t])
  }

  lemma AdvanceTermKeeps(h: History, n: Id, t: nat)
    requires Inv(h) && n in h.nodes && h.term[n] <= t
    ensures Inv(AdvanceTerm(h, n, t)) && Grows(h, AdvanceTerm(h, n, t))
  {
    OldPartsOk(h, AdvanceTerm(h, n, t));
  }

  // ---------------------------------------------------------------- votes

  /** What a node acknowledged in earlier terms is covered by the vote it casts now. */
  lemma NewVoteKept(h: History, h': History, a: At)
    requires Inv(h) && Grows(h, h') && h'.lead == h.lead
    requires a in h'.votes && a.node in h.nodes && h'.votes[a].log == h.log[a.node]
    requires a.term !in h.base && h.term[a.node] <= a.term <= h.term[a.node] + 1
    requires forall t: nat :: t < a.term ==> Ack(h', a.node, t) == Ack(h, a.node, t)
    ensures VoteKept(h', a)
  {
    var log := h.log[a.node];
    forall t: nat | t < a.term ensures KeptUpTo(h', log, t, Ack(h', a.node, t), a.term) {
      if Ack(h, a.node, t) > 0 {
        assert AckOk(h, At(a.node, t));
        forall i: nat | 0 < i <= Ack(h, a.node, t) ensures Kept(h', log, t, i, a.term) {
          assert Kept(h, log, t, i, h.term[a.node] + 1);
          KeptGrows(h, h', log, t, i, h.term[a.node] + 1, h.term[a.node] + 1);
          if Diverged(h', t, i, h.term[a.node] + 1) {
            var s :| t < s < h.term[a.node] + 1 && s in h'.base && !(h'.lead[t][..i] <= h'.base[s]);
            assert s in h.base;
            assert s < a.term;
          }
        }
      }
    }
  }

  /** A node starts an election: it enters the next term and votes for itself. */
  function StartRun(h: History, c: Id): History
    requires c in h.term && c in h.log
  {
    var a := At(c, h.term[c] + 1);
    h.(term := h.term[c := a.term], runs := h.runs[a := h.log[c]], votes := h.votes[a := Vote(c, h.log[c])])
  }

  lemma StartRunKeeps(h: History, c: Id)
    requires Inv(h) && c in h.nodes
    ensures Inv(StartRun(h, c)) && Grows(h, StartRun(h, c))
    ensures At(c, h.term[c] + 1) !in h.votes && At(c, h.term[c] + 1) !in h.runs
  {
    hide LeadOk, AckOk, Matches;
    var h' := StartRun(h, c);
    var a := At(c, h.term[c] + 1);
    assert a in h.votes ==> VoteOk(h, a);
    assert a in h.runs ==> RunOk(h, a);
    assert NodeOk(h, c);
    OldPartsOk(h, h');
    MatchesGrows(h, h', h.log[c]);
    assert RunOk(h', a);
    if a.term !in h.base {
      forall t: nat | t < a.term ensures Ack(h', c, t) == Ack(h, c, t) { }
      NewVoteKept(h, h', a);
    } else {
      assert ElectedOk(h, a.term);
    }
    assert VoteOk(h', a);
  }

  /** A node grants its vote in its current term. */
  function CastVote(h: History, n: Id, c: Id): History
    requires n in h.term && n in h.log
  {
    h.(votes := h.votes[At(n, h.term[n]) := Vote(c, h.log[n])])
  }

  lemma CastVoteKeeps(h: History, n: Id, c: Id)
    requires Inv(h) && n in h.nodes
    requires At(n, h.term[n]) !in h.votes && At(c, h.term[n]) in h.runs
    requires var run := h.runs[At(c, h.term[n])];
             UpToDate(|run|, LastTerm(run), |h.log[n]|, LastTerm(h.log[n]))
    ensures Inv(CastVote(h, n, c)) && Grows(h, CastVote(h, n, c))
  {
    var h' := CastVote(h, n, c);
    var a := At(n, h.term[n]);
    OldPartsOk(h, h');
    assert NodeOk(h, n);
    MatchesGrows(h, h', h.log[n]);
    if a.term !in h.base {
      NewVoteKept(h, h', a);
    } else {
      assert ElectedOk(h, a.term);
    }
    assert VoteOk(h', a);
  }

  /** Election Safety at the moment of counting: a quorum of votes for `c` in a term that
      already has a leader can only be votes for that leader. */
  lemma QuorumNamesLeader(h: History, c: Id, t: nat, q: set<Id>)
    requires Inv(h) && t in h.lead && IsQuorum(h.nodes, q)
    requires forall v :: v in q ==> At(v, t) in h.votes && h.votes[At(v, t)].candidate == c
    ensures h.leader[t] == c
  {
    assert ElectedOk(h, t);
    var v := QuorumsIntersect(h.nodes, q, h.quorum[t]);
    assert At(v, t) in h.votes;
  }

  // ---------------------------------------------------------------- a leader's log grows

  /** The candidate wins its term and opens its leader log with a no-op. */
  function Win(h: History, c: Id, q: set<Id>, e: Entry): History
    requires c in h.term && c in h.log
  {
    var t, log := h.term[c], h.log[c] + [e];
    h.(base := h.base[t := h.log[c]], lead := h.lead[t := log], leader := h.leader[t := c],
       quorum := h.quorum[t := q], log := h.log[c := log], acks := h.acks[At(c, t) := |log|])
  }

  /** The leader appends an entry to its log. */
  function Extend(h: History, c: Id, e: Entry): History
    requires c in h.term && c in h.log
  {
    var t, log := h.term[c], h.log[c] + [e];
    h.(lead := h.lead[t := log], log := h.log[c := log], acks := h.acks[At(c, t) := |log|])
  }

  lemma KeptByLonger(h: History, log: Log, log': Log, t: nat, upTo: nat, bound: nat)
    requires KeptUpTo(h, log, t, upTo, bound) && log <= log'
    ensures KeptUpTo(h, log', t, upTo, bound)
  {
    forall i: nat | 0 < i <= upTo ensures Kept(h, log', t, i, bound) {
      assert Kept(h, log, t, i, bound);
    }
  }

  /** `h'` is `h` after the leader (or winner) `c` of its current term appended `e`. */
  ghost predicate Appended(h: History, h': History, c: Id, e: Entry) {
    && c in h.nodes && Grows(h, h') && h'.term == h.term
    && var t, log := h.term[c], h.log[c];
       && e.term == t && e.index == |log| + 1
       && (t in h.lead ==> h.lead[t] == log)
       && h'.log == h.log[c := log + [e]]
       && t in h'.lead && h'.lead[t] == log + [e]
       && h'.acks == h.acks[At(c, t) := |log| + 1]
  }

  lemma AppendedNodeOk(h: History, h': History, c: Id, e: Entry)
    requires Inv(h) && Appended(h, h', c, e)
    ensures NodeOk(h', c)
  {
    var log, log' := h.log[c], h.log[c] + [e];
    assert NodeOk(h, c);
    MatchesGrows(h, h', log);
    forall j | 0 <= j < |log'| ensures MatchesAt(h', log', j) {
      if j < |log| {
        assert MatchesAt(h', log, j);
        assert log'[..j + 1] == log[..j + 1];
      }
    }
  }

  lemma AppendedAckOk(h: History, h': History, c: Id, e: Entry, a: At)
    requires Inv(h) && Appended(h, h', c, e) && a in h'.acks
    ensures AckOk(h', a)
  {
    var log' := h.log[c] + [e];
    if a == At(c, h.term[c]) {
      assert KeptUpTo(h', log', a.term, |log'|, a.term + 1);
    } else {
      assert AckOk(h, a);
      assert LeadGrows(h, h', a.term);
      KeptUpToGrows(h, h', h.log[a.node], a.term, h.acks[a], h.term[a.node] + 1, h.term[a.node] + 1);
      KeptByLonger(h', h.log[a.node], h'.log[a.node], a.term, h.acks[a], h.term[a.node] + 1);
    }
  }

  /** An event that only extends one leader log, its node's log and its acknowledgements. */
  lemma LeaderEventOk(h: History, h': History, c: Id)
    requires Inv(h) && Grows(h, h') && c in h.nodes
    requires h'.log == h.log[c := h'.log[c]] && h'.runs == h.runs && h'.votes == h.votes
    requires var t := h.term[c];
             && t in h'.lead && LeadOk(h', t) && ElectedOk(h', t)
             && forall s :: s in h'.lead && s != t ==> s in h.lead && h'.lead[s] == h.lead[s]
    requires NodeOk(h', c)
    requires forall a {:trigger AckOk(h', a)} :: a in h'.acks ==> AckOk(h', a)
    ensures Inv(h')
  {
    hide LeadOk, ElectedOk, NodeOk, RunOk, VoteOk, AckOk;
    forall t | t in h'.lead && t != h.term[c] ensures LeadOk(h', t) && ElectedOk(h', t) {
      assert LeadOk(h, t) && ElectedOk(h, t);
      LeadOkGrows(h, h', t);
      ElectedOkGrows(h, h', t);
    }
    forall n | n in h.nodes && n != c ensures NodeOk(h', n) {
      assert NodeOk(h, n);
      NodeOkGrows(h, h', n);
    }
    OldRunsOk(h, h');
    OldVotesOk(h, h');
  }

  lemma WinGrows(h: History, c: Id, q: set<Id>, e: Entry)
    requires Inv(h) && c in h.nodes && h.term[c] !in h.lead
    ensures Grows(h, Win(h, c, q, e))
  {
    var a := At(c, h.term[c]);
    assert a in h.acks ==> AckOk(h, a);
  }

  lemma WinKeeps(h: History, c: Id, q: set<Id>, e: Entry)
    requires Inv(h) && c in h.nodes
    requires var t := h.term[c];
             && At(c, t) in h.runs && h.runs[At(c, t)] == h.log[c] && t !in h.lead
             && IsQuorum(h.nodes, q)
             && (forall v :: v in q ==> At(v, t) in h.votes && h.votes[At(v, t)].candidate == c)
             && e.term == t && e.index == |h.log[c]| + 1
    ensures Inv(Win(h, c, q, e)) && Grows(h, Win(h, c, q, e))
  {
    var h', t := Win(h, c, q, e), h.term[c];
    assert RunOk(h, At(c, t));
    WinGrows(h, c, q, e);
    AppendedNodeOk(h, h', c, e);
    forall a | a in h'.acks ensures AckOk(h', a) { AppendedAckOk(h, h', c, e, a); }
    MatchesGrows(h, h', h.log[c]);
    assert NodeOk(h, c);
    assert LeadOk(h', t);
    assert ElectedOk(h', t);
    LeaderEventOk(h, h', c);
  }

  lemma ExtendGrows(h: History, c: Id, e: Entry)
    requires Inv(h) && c in h.nodes && h.term[c] in h.lead && h.log[c] == h.lead[h.term[c]]
    ensures Grows(h, Extend(h, c, e))
  {
    var a := At(c, h.term[c]);
    assert a in h.acks ==> AckOk(h, a);
  }

  lemma ExtendKeeps(h: History, c: Id, e: Entry)
    requires Inv(h) && c in h.nodes
    requires var t := h.term[c];
             && t in h.lead && h.leader[t] == c && h.log[c] == h.lead[t]
             && e.term == t && e.index == |h.log[c]| + 1
    ensures Inv(Extend(h, c, e)) && Grows(h, Extend(h, c, e))
  {
    hide LeadOk, ElectedOk, NodeOk, RunOk, VoteOk, AckOk, Grows;
    var h', t := Extend(h, c, e), h.term[c];
    ExtendGrows(h, c, e);
    AppendedNodeOk(h, h', c, e);
    forall a | a in h'.acks ensures AckOk(h', a) { AppendedAckOk(h, h', c, e, a); }
    ExtendLeadOk(h, c, e);
    LeaderEventOk(h, h', c);
  }

  lemma ExtendLeadOk(h: History, c: Id, e: Entry)
    requires Inv(h) && c in h.nodes && Grows(h, Extend(h, c, e))
    requires var t := h.term[c];
             && t in h.lead && h.leader[t] == c && h.log[c] == h.lead[t]
             && e.term == t && e.index == |h.log[c]| + 1
    ensures LeadOk(Extend(h, c, e), h.term[c]) && ElectedOk(Extend(h, c, e), h.term[c])
  {
    hide RunOk, VoteOk, AckOk, NodeOk, Matches;
    var h', t := Extend(h, c, e), h.term[c];
    assert LeadOk(h, t) && ElectedOk(h, t);
    MatchesGrows(h, h', h.base[t]);
    ElectedOkGrows(h, h', t);
  }

  // ---------------------------------------------------------------- a follower takes the leader's log

  /** The node confirms the first `k` entries of its term's leader: it keeps its log when
      that already starts with them and otherwise takes exactly them. */
  function Accepted(h: History, n: Id, k: nat): Log
    requires n in h.term && n in h.log && h.term[n] in h.lead && k <= |h.lead[h.term[n]]|
  {
    var l := h.lead[h.term[n]][..k];
    if l <= h.log[n] then h.log[n] else l
  }

  function Accept(h: History, n: Id, k: nat): History
    requires n in h.term && n in h.log && h.term[n] in h.lead && k <= |h.lead[h.term[n]]|
  {
    var t := h.term[n];
    var ack := Ack(h, n, t);
    h.(log := h.log[n := Accepted(h, n, k)], acks := h.acks[At(n, t) := if ack < k then k else ack])
  }

  /** Taking the leader's entries loses nothing the node acknowledged, except to a leader
      that was elected without it. */
  lemma AcceptedKeeps(h: History, n: Id, k: nat, t: nat, i: nat)
    requires Inv(h) && n in h.nodes && h.term[n] in h.lead && k <= |h.lead[h.term[n]]|
    requires t <= h.term[n] && Kept(h, h.log[n], t, i, h.term[n] + 1)
    ensures Kept(h, Accepted(h, n, k), t, i, h.term[n] + 1)
  {
    var u := h.term[n];
    assert LeadOk(h, u);
    if !Diverged(h, t, i, u + 1) && Accepted(h, n, k) != h.log[n] {
      if t < u {
        assert h.lead[t][..i] <= h.base[u];
      }
      assert h.lead[t][..i] <= h.lead[u];
      assert i > k ==> h.lead[u][..k] <= h.log[n];
    }
  }

  lemma AcceptGrows(h: History, n: Id, k: nat)
    requires Inv(h) && n in h.nodes && h.term[n] in h.lead && k <= |h.lead[h.term[n]]|
    ensures Grows(h, Accept(h, n, k))
  {
  }

  lemma AcceptedMatches(h: History, n: Id, k: nat)
    requires Inv(h) && n in h.nodes && h.term[n] in h.lead && k <= |h.lead[h.term[n]]|
    ensures Matches(h, Accepted(h, n, k))
  {
    var t, log' := h.term[n], Accepted(h, n, k);
    assert NodeOk(h, n);
    LeadMatches(h, t);
    if log' != h.log[n] {
      forall j | 0 <= j < |log'| ensures MatchesAt(h, log', j) {
        assert MatchesAt(h, h.lead[t], j);
        assert log'[..j + 1] == h.lead[t][..j + 1];
      }
    }
  }

  lemma AcceptedAckOk(h: History, n: Id, k: nat, a: At)
    requires Inv(h) && n in h.nodes && h.term[n] in h.lead && k <= |h.lead[h.term[n]]|
    requires a in Accept(h, n, k).acks && a.node == n && Grows(h, Accept(h, n, k))
    ensures AckOk(Accept(h, n, k), a)
  {
    var h', t, log' := Accept(h, n, k), h.term[n], Accepted(h, n, k);
    var bound := t + 1;
    assert a in h.acks ==> AckOk(h, a);
    forall i: nat | 0 < i <= h'.acks[a] ensures Kept(h', log', a.term, i, bound) {
      if a in h.acks && i <= h.acks[a] {
        assert Kept(h, h.log[n], a.term, i, h.term[n] + 1);
        AcceptedKeeps(h, n, k, a.term, i);
        KeptGrows(h, h', log', a.term, i, bound, bound);
      } else {
        assert h.lead[t][..i] <= log';
      }
    }
  }

  lemma AcceptKeeps(h: History, n: Id, k: nat)
    requires Inv(h) && n in h.nodes && h.term[n] in h.lead && k <= |h.lead[h.term[n]]|
    ensures Inv(Accept(h, n, k)) && Grows(h, Accept(h, n, k))
  {
    var h', t := Accept(h, n, k), h.term[n];
    AcceptGrows(h, n, k);
    assert NodeOk(h, n) && LeadOk(h, t) && ElectedOk(h, t);
    AcceptedMatches(h, n, k);
    MatchesGrows(h, h', Accepted(h, n, k));
    assert NodeOk(h', n);
    forall a | a in h'.acks ensures AckOk(h', a) {
      if a.node == n {
        AcceptedAckOk(h, n, k, a);
      } else {
        assert AckOk(h, a);
        AckOkGrows(h, h', a);
      }
    }
    LeadOkGrows(h, h', t);
    ElectedOkGrows(h, h', t);
    LeaderEventOk(h, h', n);
  }

  /** The empty cluster history: term 0, empty logs, nothing decided. */
  function Start(nodes: set<Id>): History {
    History(nodes, map n | n in nodes :: 0, map n | n in nodes :: [], map[], map[], map[], map[], map[], map[], map[])
  }

  lemma StartOk(nodes: set<Id>)
    ensures Inv(Start(nodes))
  {
    var h := Start(nodes);
    forall n | n in nodes ensures NodeOk(h, n) { }
  }

  lemma GrowsTransitive(a: History, b: History, c: History)
    requires Grows(a, b) && Grows(b, c)
    ensures Grows(a, c)
  {
    forall t | t in a.lead ensures t in c.lead && LeadGrows(a, c, t) {
      assert LeadGrows(a, b, t);
      assert LeadGrows(b, c, t);
    }
    forall n, t ensures AckGrows(a, c, n, t) {
      assert AckGrows(a, b, n, t) && AckGrows(b, c, n, t);
    }
    forall n | n in a.nodes ensures a.term[n] <= c.term[n] {
      assert a.term[n] <= b.term[n];
    }
    forall x | x in a.runs ensures x in c.runs && c.runs[x] == a.runs[x] {
      assert x in b.runs;
    }
    forall x | x in a.votes ensures x in c.votes && c.votes[x] == a.votes[x] {
      assert x in b.votes;
    }
  }
}
