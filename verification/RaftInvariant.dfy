/** What ties a node's volatile and durable state, and every message ever sent, to the
    history of the cluster. */
module RaftInvariant {
  import opened Tasks
  import opened QueueView
  import opened RaftLog
  import opened RaftHistory
  import opened RaftStep
  import opened RaftCompaction

  /** The history, the longest log prefix any node knows to be committed, and the retry limit
      all replicas share. */
  datatype Ghost = Ghost(h: History, decided: Log, bound: nat, retries: int)

  ghost predicate GhostOk(g: Ghost) {
    Inv(g.h) && Committed(g.h, g.decided, g.bound) && "" !in g.h.nodes
  }

  ghost predicate GhostGrows(g: Ghost, g': Ghost) {
    Grows(g.h, g'.h) && g.decided <= g'.decided && g.bound <= g'.bound && g'.retries == g.retries
  }

  /** `log` is committed, by a leader of a term up to `bound`. */
  ghost predicate Safe(g: Ghost, log: Log, bound: nat)
  {
    Domains(g.h) && Committed(g.h, log, bound) && log <= g.decided
  }

  /** `d` is a snapshot of the queue after the first `i` entries of `log`. */
  ghost predicate SnapshotOf(retries: int, d: SnapshotState, log: Log, i: nat) {
    i <= |log| && Stands(d, Fold(retries, log[..i])) && Neat(d)
  }

  // ---------------------------------------------------------------- one node

  ghost predicate IdOk(g: Ghost, id: Id, n: Node) {
    && Domains(g.h) && id in g.h.nodes
    && n.id == id
    && n.peers == g.h.nodes - {id}
    && n.term == g.h.term[id]
    && n.matched.Keys <= g.h.nodes
    && n.next.Keys <= n.peers
  }

  ghost predicate LogOk(g: Ghost, id: Id, n: Node) {
    && id in g.h.log
    && Rep(n.log, g.h.log[id])
    && First(n.log) <= n.commit <= |g.h.log[id]|
    && n.applied <= n.commit
    && Safe(g, g.h.log[id][..n.commit], n.term)
  }

  ghost predicate VotedOk(g: Ghost, id: Id, n: Node) {
    var a := At(id, n.term);
    && (n.votedFor == "" ==> a !in g.h.votes)
    && (n.votedFor != "" ==> a in g.h.votes && g.h.votes[a].candidate == n.votedFor)
  }

  ghost predicate SnapOk(g: Ghost, id: Id, n: Node) {
    && id in g.h.log && |n.log| > 0
    && (n.snapshot.None? <==> First(n.log) == 0)
    && (n.snapshot.Some? ==> SnapshotOf(g.retries, n.snapshot.value, g.h.log[id], First(n.log)))
    && (n.pending.None? ==> First(n.log) <= n.applied)
    && (n.pending.Some? ==> n.pending.value.index == First(n.log) && n.applied <= First(n.log)
                            && SnapshotOf(g.retries, n.pending.value.data, g.h.log[id], First(n.log)))
  }

  ghost predicate CandidateOk(g: Ghost, id: Id, n: Node) {
    var a := At(id, n.term);
    && Domains(g.h) && id in g.h.log
    && a in g.h.runs && g.h.runs[a] == g.h.log[id]
    && (n.term in g.h.lead ==> g.h.leader[n.term] != id)
    && n.votes <= g.h.nodes
    && forall v :: v in n.votes ==> At(v, n.term) in g.h.votes && g.h.votes[At(v, n.term)].candidate == id
  }

  ghost predicate LeaderOk(g: Ghost, id: Id, n: Node) {
    && Domains(g.h) && id in g.h.log
    && n.term in g.h.lead && g.h.leader[n.term] == id && g.h.lead[n.term] == g.h.log[id]
    && n.matched.Keys == g.h.nodes
    && n.next.Keys == n.peers
    && (forall p :: p in g.h.nodes ==> n.matched[p] <= Ack(g.h, p, n.term))
    && (forall p :: p in n.peers ==> n.next[p] <= |g.h.log[id]| + 1)
  }

  ghost predicate NodeInv(g: Ghost, id: Id, n: Node) {
    && IdOk(g, id, n)
    && LogOk(g, id, n)
    && VotedOk(g, id, n)
    && SnapOk(g, id, n)
    && (n.role == Candidate ==> CandidateOk(g, id, n))
    && (n.role == Leader ==> LeaderOk(g, id, n))
  }

  // ---------------------------------------------------------------- one message

  ghost predicate AppendOk(g: Ghost, m: Msg)
    requires m.AppendRequest? && Domains(g.h)
  {
    && m.term in g.h.lead && g.h.leader[m.term] == m.from
    && var l, last := g.h.lead[m.term], m.prev + |m.entries|;
       && last <= |l|
       && m.entries == l[m.prev..last]
       && m.prevTerm == TermAt(l, m.prev)
       && m.commit <= last
       && Safe(g, l[..m.commit], m.term)
  }

  ghost predicate InstallOk(g: Ghost, m: Msg)
    requires m.InstallRequest? && Domains(g.h)
  {
    && m.term in g.h.lead && g.h.leader[m.term] == m.from
    && var l := g.h.lead[m.term];
       && m.lastIndex <= |l|
       && m.lastTerm == TermAt(l, m.lastIndex)
       && Safe(g, l[..m.lastIndex], m.term)
       && SnapshotOf(g.retries, m.data, l, m.lastIndex)
  }

  ghost predicate MsgInv(g: Ghost, m: Msg) {
    && Domains(g.h) && m.from in g.h.nodes && m.to in g.h.nodes && m.from != m.to
    && match m
       case VoteRequest(from, _, term, lastIndex, lastTerm) =>
         var a := At(from, term);
         a in g.h.runs && lastIndex == |g.h.runs[a]| && lastTerm == LastTerm(g.h.runs[a])
       case VoteReply(from, to, term, granted, reqTerm) =>
         granted ==> At(from, reqTerm) in g.h.votes && g.h.votes[At(from, reqTerm)].candidate == to
       case AppendRequest(_, _, _, _, _, _, _) => AppendOk(g, m)
       case AppendReply(from, to, term, success, _, conflictIndex, reqTerm, reqLast) =>
         && reqTerm in g.h.lead && g.h.leader[reqTerm] == to
         && conflictIndex <= |g.h.lead[reqTerm]| + 1
         && (success ==> reqLast <= Ack(g.h, from, reqTerm))
       case InstallRequest(_, _, _, _, _, _) => InstallOk(g, m)
       case InstallReply(from, to, term, reqTerm, reqIndex) =>
         && reqTerm in g.h.lead && g.h.leader[reqTerm] == to
         && reqTerm <= term
         && (term == reqTerm ==> reqIndex <= Ack(g.h, from, reqTerm))
  }

  // ---------------------------------------------------------------- what growth keeps

  lemma SafeGrows(g: Ghost, g': Ghost, log: Log, bound: nat, bound': nat)
    requires GhostGrows(g, g') && Safe(g, log, bound) && bound <= bound'
    ensures Safe(g', log, bound')
  {
    CommittedGrows(g.h, g'.h, log, bound, bound');
  }

  lemma SnapshotOfLonger(retries: int, d: SnapshotState, log: Log, log': Log, i: nat)
    requires SnapshotOf(retries, d, log, i) && i <= |log'| && log[..i] == log'[..i]
    ensures SnapshotOf(retries, d, log', i)
  {
  }

  lemma MsgGrows(g: Ghost, g': Ghost, m: Msg)
    requires GhostGrows(g, g') && MsgInv(g, m)
    ensures MsgInv(g', m)
  {
    match m
    case VoteRequest(from, _, term, _, _) =>
      assert At(from, term) in g'.h.runs;
    case VoteReply(from, _, _, granted, reqTerm) =>
      if granted { assert At(from, reqTerm) in g'.h.votes; }
    case AppendRequest(_, _, term, prev, _, entries, commit) =>
      assert LeadGrows(g.h, g'.h, term);
      assert g'.h.lead[term][..commit] == g.h.lead[term][..commit];
      assert g'.h.lead[term][prev..prev + |entries|] == g.h.lead[term][prev..prev + |entries|];
      SafeGrows(g, g', g.h.lead[term][..commit], term, term);
    case AppendReply(from, _, _, _, _, _, reqTerm, _) =>
      assert LeadGrows(g.h, g'.h, reqTerm);
      assert AckGrows(g.h, g'.h, from, reqTerm);
    case InstallRequest(_, _, term, lastIndex, _, _) =>
      assert LeadGrows(g.h, g'.h, term);
      assert g'.h.lead[term][..lastIndex] == g.h.lead[term][..lastIndex];
      SafeGrows(g, g', g.h.lead[term][..lastIndex], term, term);
    case InstallReply(from, _, _, reqTerm, _) =>
      assert LeadGrows(g.h, g'.h, reqTerm);
      assert AckGrows(g.h, g'.h, from, reqTerm);
  }

  /** No other node's term, log or leader log moved, and no other node voted or was elected. */
  ghost predicate OnlyMoves(h: History, h': History, id: Id) {
    && Domains(h) && Domains(h')
    && (forall p {:trigger h'.log[p]} {:trigger h'.term[p]} :: p in h.nodes && p in h'.nodes && p != id ==>
          h'.log[p] == h.log[p] && h'.term[p] == h.term[p])
    && (forall t {:trigger h'.lead[t]} :: t in h'.lead && h'.leader[t] != id ==>
          t in h.lead && h'.lead[t] == h.lead[t])
    && (forall p, t {:trigger At(p, t) in h'.votes} :: p != id && At(p, t) in h'.votes ==> At(p, t) in h.votes)
  }

  /** The step belonged to node `id`. */
  ghost predicate Local(g: Ghost, g': Ghost, id: Id) {
    GhostGrows(g, g') && OnlyMoves(g.h, g'.h, id)
  }

  lemma OtherNodeOk(g: Ghost, g': Ghost, id: Id, p: Id, n: Node)
    requires Local(g, g', id) && p != id && NodeInv(g, p, n)
    ensures NodeInv(g', p, n)
  {
    assert p in g.h.nodes;
    assert g'.h.log[p] == g.h.log[p];
    SafeGrows(g, g', g.h.log[p][..n.commit], n.term, n.term);
    assert VotedOk(g', p, n) by {
      assert At(p, n.term) in g'.h.votes <==> At(p, n.term) in g.h.votes;
    }
    assert SnapOk(g', p, n);
    if n.role == Candidate {
      OtherCandidateOk(g, g', id, p, n);
    }
    if n.role == Leader {
      OtherLeaderOk(g, g', id, p, n);
    }
  }

  lemma OtherCandidateOk(g: Ghost, g': Ghost, id: Id, p: Id, n: Node)
    requires Local(g, g', id) && p != id && IdOk(g, p, n) && IdOk(g', p, n) && CandidateOk(g, p, n)
    ensures CandidateOk(g', p, n)
  {
    assert At(p, n.term) in g'.h.runs;
    assert n.term in g'.h.lead ==> (g'.h.lead[n.term] == g'.h.lead[n.term]);
    assert n.term in g.h.lead ==> LeadGrows(g.h, g'.h, n.term);
  }

  lemma OtherLeaderOk(g: Ghost, g': Ghost, id: Id, p: Id, n: Node)
    requires Local(g, g', id) && p != id && IdOk(g, p, n) && IdOk(g', p, n) && LeaderOk(g, p, n)
    ensures LeaderOk(g', p, n)
  {
    assert LeadGrows(g.h, g'.h, n.term);
    assert g'.h.lead[n.term] == g.h.lead[n.term];
    forall q | q in g.h.nodes ensures n.matched[q] <= Ack(g'.h, q, n.term) {
      assert AckGrows(g.h, g'.h, q, n.term);
    }
  }

  /** Between two states of one node's uninterrupted life: what it committed stays in its
      log, and its snapshot boundary only jumps together with a snapshot to deliver. */
  ghost predicate Advances(g: Ghost, g': Ghost, id: Id, n: Node, n': Node) {
    && id in g.h.log && id in g'.h.log && |n.log| > 0 && |n'.log| > 0
    && n.commit <= n'.commit && n.commit <= |g.h.log[id]|
    && g.h.log[id][..n.commit] <= g'.h.log[id]
    && n'.applied == n.applied
    && ((n'.pending == n.pending && First(n'.log) == First(n.log))
        || (n'.pending.Some? && n.commit < n'.pending.value.index))
  }
}
