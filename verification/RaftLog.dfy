/** Log entries, uncompacted logs and the up-to-date comparison of section 5.4.1 of
    the Raft paper. */
module RaftLog {
  import opened Tasks

  type Id = string

  datatype Entry = Entry(index: nat, term: nat, command: Command)

  /** An uncompacted log: the entry with absolute index i is at position i - 1. */
  type Log = seq<Entry>

  predicate Indexed(log: Log) {
    forall j :: 0 <= j < |log| ==> log[j].index == j + 1
  }

  /** The term of the entry at absolute index `i`; index 0 stands before every entry. */
  function TermAt(log: Log, i: nat): nat
    requires i <= |log|
  {
    if i == 0 then 0 else log[i - 1].term
  }

  function LastTerm(log: Log): nat {
    TermAt(log, |log|)
  }

  /** A candidate whose log ends at (lastIndex, lastTerm) may receive the vote of a
      node whose log ends at (ownIndex, ownTerm). */
  predicate UpToDate(lastIndex: nat, lastTerm: nat, ownIndex: nat, ownTerm: nat) {
    lastTerm > ownTerm || (lastTerm == ownTerm && lastIndex >= ownIndex)
  }

  predicate TermsBelow(log: Log, bound: nat) {
    forall j :: 0 <= j < |log| ==> log[j].term < bound
  }

  /** The quorum size for a cluster of `size` nodes. */
  function Majority(size: nat): nat {
    size / 2 + 1
  }

  ghost predicate IsQuorum(nodes: set<Id>, q: set<Id>) {
    q <= nodes && |q| >= Majority(|nodes|)
  }

  lemma SubsetSize(a: set<Id>, b: set<Id>)
    requires a <= b
    ensures |a| <= |b|
  {
    if a != {} {
      var x :| x in a;
      SubsetSize(a - {x}, b - {x});
    }
  }

  /** Any two majorities of the same cluster share a node. */
  lemma QuorumsIntersect(nodes: set<Id>, p: set<Id>, q: set<Id>) returns (x: Id)
    requires IsQuorum(nodes, p) && IsQuorum(nodes, q)
    ensures x in p && x in q
  {
    SubsetSize(p + q, nodes);
    assert |p + q| == |p| + |q| - |p * q|;
    assert p * q != {};
    x :| x in p * q;
  }
}
