/** The history of a Raft cluster: what was elected, voted, acknowledged and appended in
    every term so far. The cluster steps of `RaftCluster` drive it through the events
    below; it carries the whole consensus argument on uncompacted logs, with no
    messages, snapshots or volatile state in sight. */
module RaftHistory {
  import opened Tasks
  import opened RaftLog

  datatype At = At(node: Id, term: nat)

  /** A granted vote with the voter's log at that moment. */
  datatype Vote = Vote(candidate: Id, log: Log)

  datatype History = History(
    nodes: set<Id>,
    term: map<Id, nat>,         // each node's current term
    log: map<Id, Log>,          // each node's uncompacted durable log
    base: map<nat, Log>,        // the winner's log when it won the term, before its no-op
    lead: map<nat, Log>,        // the append-only log of the term's leader
    leader: map<nat, Id>,
    quorum: map<nat, set<Id>>,  // the votes counted at the election
    runs: map<At, Log>,         // a candidate's log during its candidacy
    votes: map<At, Vote>,
    acks: map<At, nat>)         // how far a node confirmed the log of a term's leader

  function Ack(h: History, n: Id, t: nat): nat {
    if At(n, t) in h.acks then h.acks[At(n, t)] else 0
  }

  /** The strong Log Matching property for one log: the prefix ending at any entry is a
      prefix of the log of that entry's leader. */
  ghost predicate Matches(h: History, log: Log) {
    forall j :: 0 <= j < |log| ==> MatchesAt(h, log, j)
  }

  ghost predicate MatchesAt(h: History, log: Log, j: nat)
    requires j < |log|
  {
    log[j].term in h.lead && log[..j + 1] <= h.lead[log[j].term]
  }

  /** Some leader of a term strictly between `t` and `bound` was elected without the first
      `i` entries of term t's leader. */
  ghost predicate Diverged(h: History, t: nat, i: nat, bound: nat)
    requires t in h.lead && i <= |h.lead[t]|
  {
    exists s :: t < s < bound && s in h.base && !(h.lead[t][..i] <= h.base[s])
  }

  /** `log` still holds what was acknowledged to term t's leader up to `i`, or a later
      leader is to blame. */
  ghost predicate Kept(h: History, log: Log, t: nat, i: nat, bound: nat) {
    t in h.lead && i <= |h.lead[t]| && (h.lead[t][..i] <= log || Diverged(h, t, i, bound))
  }

  ghost predicate KeptUpTo(h: History, log: Log, t: nat, upTo: nat, bound: nat) {
    forall i: nat :: 0 < i <= upTo ==> Kept(h, log, t, i, bound)
  }

  ghost predicate Domains(h: History) {
    && h.term.Keys == h.nodes
    && h.log.Keys == h.nodes
    && h.base.Keys == h.lead.Keys
    && h.leader.Keys == h.lead.Keys
    && h.quorum.Keys == h.lead.Keys
  }

  ghost predicate LeadOk(h: History, t: nat)
    requires Domains(h) && t in h.lead
  {
    && t > 0
    && h.base[t] <= h.lead[t]
    && |h.base[t]| < |h.lead[t]|
    && (forall j :: |h.base[t]| <= j < |h.lead[t]| ==> h.lead[t][j].term == t)
    && TermsBelow(h.base[t], t)
    && Matches(h, h.base[t])
    && Indexed(h.lead[t])
    && h.leader[t] in h.nodes
    && t <= h.term[h.leader[t]]
  }

  /** The term's winner ran with the log it leads with, and a quorum voted for it. */
  ghost predicate ElectedOk(h: History, t: nat)
    requires Domains(h) && t in h.lead
  {
    && At(h.leader[t], t) in h.runs
    && h.base[t] == h.runs[At(h.leader[t], t)]
    && IsQuorum(h.nodes, h.quorum[t])
    && forall v :: v in h.quorum[t] ==> At(v, t) in h.votes && h.votes[At(v, t)].candidate == h.leader[t]
  }

  ghost predicate NodeOk(h: History, n: Id)
    requires Domains(h) && n in h.nodes
  {
    TermsBelow(h.log[n], h.term[n] + 1) && Matches(h, h.log[n]) && Indexed(h.log[n])
  }

  ghost predicate RunOk(h: History, a: At)
    requires Domains(h) && a in h.runs
  {
    && a.node in h.nodes
    && 0 < a.term <= h.term[a.node]
    && TermsBelow(h.runs[a], a.term)
    && Matches(h, h.runs[a])
    && Indexed(h.runs[a])
  }

  /** A vote that elected somebody was cast with everything the voter had acknowledged. */
  ghost predicate VoteKept(h: History, a: At)
    requires a in h.votes
  {
    forall t: nat {:trigger KeptUpTo(h, h.votes[a].log, t, Ack(h, a.node, t), a.term)} ::
      t < a.term ==> KeptUpTo(h, h.votes[a].log, t, Ack(h, a.node, t), a.term)
  }

  ghost predicate VoteOk(h: History, a: At)
    requires Domains(h) && a in h.votes
  {
    var v := h.votes[a];
    && a.node in h.nodes
    && a.term <= h.term[a.node]
    && At(v.candidate, a.term) in h.runs
    && (var run := h.runs[At(v.candidate, a.term)];
        UpToDate(|run|, LastTerm(run), |v.log|, LastTerm(v.log)))
    && Matches(h, v.log)
    && (a.term !in h.base || a.node in h.quorum[a.term] ==> VoteKept(h, a))
  }

  ghost predicate AckOk(h: History, a: At)
    requires Domains(h) && a in h.acks
  {
    && a.node in h.nodes
    && a.term in h.lead
    && a.term <= h.term[a.node]
    && h.acks[a] <= |h.lead[a.term]|
    && KeptUpTo(h, h.log[a.node], a.term, h.acks[a], h.term[a.node] + 1)
  }

  ghost predicate Inv(h: History) {
    && Domains(h)
    && (forall t {:trigger LeadOk(h, t)} :: t in h.lead ==> LeadOk(h, t))
    && (forall t {:trigger ElectedOk(h, t)} :: t in h.lead ==> ElectedOk(h, t))
    && (forall n {:trigger NodeOk(h, n)} :: n in h.nodes ==> NodeOk(h, n))
    && (forall a {:trigger RunOk(h, a)} :: a in h.runs ==> RunOk(h, a))
    && (forall a {:trigger VoteOk(h, a)} :: a in h.votes ==> VoteOk(h, a))
    && (forall a {:trigger AckOk(h, a)} :: a in h.acks ==> AckOk(h, a))
  }

  // ---------------------------------------------------------------- growth

  ghost predicate LeadGrows(h: History, h': History, t: nat)
    requires Domains(h) && Domains(h') && t in h.lead
  {
    && t in h'.lead
    && h.lead[t] <= h'.lead[t]
    && h'.base[t] == h.base[t]
    && h'.leader[t] == h.leader[t]
    && h'.quorum[t] == h.quorum[t]
  }

  /** Acknowledgements only grow, and those of a term the node has left are frozen. */
  ghost predicate AckGrows(h: History, h': History, n: Id, t: nat) {
    && Ack(h, n, t) <= Ack(h', n, t)
    && (n in h.term && t < h.term[n] ==> Ack(h', n, t) == Ack(h, n, t))
  }

  /** What no event ever undoes. */
  ghost predicate Grows(h: History, h': History) {
    && Domains(h) && Domains(h')
    && h'.nodes == h.nodes
    && (forall n {:trigger h'.term[n]} :: n in h.nodes ==> h.term[n] <= h'.term[n])
    && (forall t {:trigger LeadGrows(h, h', t)} :: t in h.lead ==> LeadGrows(h, h', t))
    && (forall a {:trigger h'.runs[a]} {:trigger a in h'.runs} ::
          a in h.runs ==> a in h'.runs && h'.runs[a] == h.runs[a])
    && (forall a {:trigger h'.votes[a]} {:trigger a in h'.votes} ::
          a in h.votes ==> a in h'.votes && h'.votes[a] == h.votes[a])
    && (forall n, t {:trigger AckGrows(h, h', n, t)} :: AckGrows(h, h', n, t))
  }

  lemma MatchesGrows(h: History, h': History, log: Log)
    requires Grows(h, h') && Matches(h, log)
    ensures Matches(h', log)
  {
    forall j | 0 <= j < |log| ensures MatchesAt(h', log, j) {
      assert MatchesAt(h, log, j);
      assert LeadGrows(h, h', log[j].term);
    }
  }

  lemma KeptGrows(h: History, h': History, log: Log, t: nat, i: nat, bound: nat, bound': nat)
    requires Grows(h, h') && Kept(h, log, t, i, bound) && bound <= bound'
    ensures Kept(h', log, t, i, bound')
  {
    assert LeadGrows(h, h', t);
    assert h'.lead[t][..i] == h.lead[t][..i];
    if Diverged(h, t, i, bound) {
      var s :| t < s < bound && s in h.base && !(h.lead[t][..i] <= h.base[s]);
      assert LeadGrows(h, h', s);
      assert Diverged(h', t, i, bound');
    }
  }

  lemma KeptUpToGrows(h: History, h': History, log: Log, t: nat, upTo: nat, bound: nat, bound': nat)
    requires Grows(h, h') && KeptUpTo(h, log, t, upTo, bound) && bound <= bound'
    ensures KeptUpTo(h', log, t, upTo, bound')
  {
    forall i: nat | 0 < i <= upTo ensures Kept(h', log, t, i, bound') {
      KeptGrows(h, h', log, t, i, bound, bound');
    }
  }

  lemma VoteKeptGrows(h: History, h': History, a: At)
    requires Grows(h, h') && a in h.votes && VoteKept(h, a)
    requires a.node in h.nodes && a.term <= h.term[a.node]
    ensures VoteKept(h', a)
  {
    forall t: nat | t < a.term
      ensures KeptUpTo(h', h'.votes[a].log, t, Ack(h', a.node, t), a.term)
    {
      assert AckGrows(h, h', a.node, t);
      assert KeptUpTo(h, h.votes[a].log, t, Ack(h, a.node, t), a.term);
      KeptUpToGrows(h, h', h.votes[a].log, t, Ack(h, a.node, t), a.term, a.term);
    }
  }

  // ---------------------------------------------------------------- commitment

  /** Entry `i` of term t's leader log was appended in term t and acknowledged by a quorum. */
  ghost predicate Chosen(h: History, t: nat, i: nat)
    requires Domains(h)
  {
    && t in h.lead
    && |h.base[t]| < i <= |h.lead[t]|
    && exists q :: AckedBy(h, q, t, i)
  }

  ghost predicate AckedBy(h: History, q: set<Id>, t: nat, i: nat) {
    IsQuorum(h.nodes, q) && forall n :: n in q ==> Ack(h, n, t) >= i
  }

  lemma ChosenGrows(h: History, h': History, t: nat, i: nat)
    requires Grows(h, h') && Chosen(h, t, i)
    ensures Chosen(h', t, i)
  {
    assert LeadGrows(h, h', t);
    var q :| AckedBy(h, q, t, i);
    forall n | n in q ensures Ack(h', n, t) >= i { assert AckGrows(h, h', n, t); }
    assert AckedBy(h', q, t, i);
  }

  /** Two logs that match the history and agree on one entry's term agree up to there. */
  lemma SamePrefix(h: History, a: Log, b: Log, i: nat)
    requires Matches(h, a) && Matches(h, b)
    requires 0 < i <= |a| && i <= |b| && a[i - 1].term == b[i - 1].term
    ensures a[..i] == b[..i]
  {
    assert MatchesAt(h, a, i - 1) && MatchesAt(h, b, i - 1);
    var l := h.lead[a[i - 1].term];
    assert a[..i] == l[..i] && b[..i] == l[..i];
  }

  /** No entry of a matching log has a larger term than the last one. */
  lemma LastTermIsLargest(h: History, log: Log, j: nat)
    requires Domains(h) && (forall t {:trigger LeadOk(h, t)} :: t in h.lead ==> LeadOk(h, t))
    requires Matches(h, log) && j < |log|
    ensures log[j].term <= LastTerm(log)
  {
    assert MatchesAt(h, log, |log| - 1);
    var t := LastTerm(log);
    assert LeadOk(h, t);
    assert log == log[..|log|];
    assert log[j] == h.lead[t][j];
  }

  /** A leader's log matches the history, its own entries included. */
  lemma LeadMatches(h: History, t: nat)
    requires Inv(h) && t in h.lead
    ensures Matches(h, h.lead[t])
  {
    assert LeadOk(h, t);
    var l := h.lead[t];
    forall j | 0 <= j < |l| ensures MatchesAt(h, l, j) {
      if j < |h.base[t]| {
        assert MatchesAt(h, h.base[t], j);
        assert h.base[t][..j + 1] == l[..j + 1];
      } else {
        assert l[j].term == t;
      }
    }
  }

  /** Leader Completeness (section 5.4 of the Raft paper): once an entry is chosen in term
      t, every leader of a later term was elected holding it and everything before it. */
  lemma {:induction false} LeaderCompleteness(h: History, t: nat, i: nat, t': nat)
    requires Inv(h) && Chosen(h, t, i) && t < t' && t' in h.lead
    ensures h.lead[t][..i] <= h.base[t']
    decreases t'
  {
    assert LeadOk(h, t) && LeadOk(h, t') && ElectedOk(h, t');
    var q :| AckedBy(h, q, t, i);
    var v := QuorumsIntersect(h.nodes, q, h.quorum[t']);
    var a := At(v, t');
    assert VoteOk(h, a);
    var mine, run := h.votes[a].log, h.runs[At(h.leader[t'], t')];
    assert RunOk(h, At(h.leader[t'], t'));
    assert KeptUpTo(h, mine, t, Ack(h, v, t), t');
    assert Kept(h, mine, t, i, t');
    if Diverged(h, t, i, t') {
      var s :| t < s < t' && s in h.base && !(h.lead[t][..i] <= h.base[s]);
      LeaderCompleteness(h, t, i, s);
      assert false;
    }
    LastTermIsLargest(h, mine, i - 1);
    assert mine[i - 1] == h.lead[t][i - 1];
    var s := LastTerm(run);
    assert s >= t && run != [];
    assert MatchesAt(h, run, |run| - 1);
    assert run == run[..|run|];
    if s > t {
      LeaderCompleteness(h, t, i, s);
      assert LeadOk(h, s);
      assert h.lead[s][|run| - 1].term == s;
      assert |run| > |h.base[s]|;
    }
  }

  // ---------------------------------------------------------------- committed prefixes

  /** `log` is a prefix of what some leader of a term up to `bound` got chosen. */
  ghost predicate Committed(h: History, log: Log, bound: nat)
    requires Domains(h)
  {
    log == [] || exists t: nat, i: nat :: CommittedAt(h, log, bound, t, i)
  }

  ghost predicate CommittedAt(h: History, log: Log, bound: nat, t: nat, i: nat)
    requires Domains(h)
  {
    t <= bound && Chosen(h, t, i) && |log| <= i && log <= h.lead[t]
  }

  lemma CommittedGrows(h: History, h': History, log: Log, bound: nat, bound': nat)
    requires Grows(h, h') && Committed(h, log, bound) && bound <= bound'
    ensures Committed(h', log, bound')
  {
    if log != [] {
      var t: nat, i: nat :| CommittedAt(h, log, bound, t, i);
      ChosenGrows(h, h', t, i);
      assert LeadGrows(h, h', t);
      assert CommittedAt(h', log, bound', t, i);
    }
  }

  lemma CommittedPrefix(h: History, log: Log, k: nat, bound: nat)
    requires Domains(h) && Committed(h, log, bound) && k <= |log|
    ensures Committed(h, log[..k], bound)
  {
    if log != [] {
      var t: nat, i: nat :| CommittedAt(h, log, bound, t, i);
      assert CommittedAt(h, log[..k], bound, t, i);
    }
  }

  /** Whatever was committed before term `t` was already in the log with which its leader won. */
  lemma CommittedIsBase(h: History, log: Log, s: nat, t: nat)
    requires Inv(h) && Committed(h, log, s) && s < t && t in h.lead
    ensures log <= h.base[t]
  {
    if log != [] {
      var r: nat, i: nat :| CommittedAt(h, log, s, r, i);
      LeaderCompleteness(h, r, i, t);
      assert log == h.lead[r][..|log|];
    }
  }

  /** Whatever was committed up to term `t` is in the log of term t's leader. */
  lemma CommittedIsLed(h: History, log: Log, t: nat)
    requires Inv(h) && Committed(h, log, t) && t in h.lead
    ensures log <= h.lead[t]
  {
    if log != [] {
      var s: nat, i: nat :| CommittedAt(h, log, t, s, i);
      if s < t {
        assert CommittedAt(h, log, s, s, i);
        CommittedIsBase(h, log, s, t);
        assert LeadOk(h, t);
      }
    }
  }

  /** Any two committed logs agree: one is a prefix of the other. */
  lemma CommittedComparable(h: History, a: Log, b: Log, bound: nat)
    requires Inv(h) && Committed(h, a, bound) && Committed(h, b, bound) && |a| <= |b|
    ensures a <= b
  {
    if a != [] {
      var s: nat, i: nat :| CommittedAt(h, a, bound, s, i);
      var t: nat, j: nat :| CommittedAt(h, b, bound, t, j);
      if s < t {
        assert CommittedAt(h, a, t, s, i);
        CommittedIsLed(h, a, t);
      } else {
        assert CommittedAt(h, b, s, t, j);
        CommittedIsLed(h, b, s);
      }
    }
  }
}
