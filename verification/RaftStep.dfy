/** One Raft node as a value and each of its handlers as a function (raft/raft.go,
    raft/election.go, raft/replication.go, raft/snapshot.go). A handler runs under the node's
    mutex and persists before it unlocks, so one call is one step. */
module RaftStep {
  import opened Tasks
  import opened RaftLog

  datatype Role = Follower | Candidate | Leader

  /** An installed snapshot waiting for delivery to the state machine. */
  datatype Install = Install(index: nat, term: nat, data: SnapshotState)

  datatype Node = Node(
    id: Id,
    peers: set<Id>,
    role: Role,
    term: nat,
    votedFor: Id,            // "" before the node voted in its term
    log: seq<Entry>,         // log[0] is the sentinel at the snapshot boundary
    commit: nat,
    applied: nat,
    next: map<Id, nat>,
    matched: map<Id, nat>,
    votes: set<Id>,          // who granted the running election a vote
    leaderId: Id,
    snapshot: Option<SnapshotState>,
    pending: Option<Install>)

  /** RPC requests and replies. A reply repeats what its caller remembers of the request:
      the reply is handled by the call that sent the request. */
  datatype Msg =
    | VoteRequest(from: Id, to: Id, term: nat, lastIndex: nat, lastTerm: nat)
    | VoteReply(from: Id, to: Id, term: nat, granted: bool, reqTerm: nat)
    | AppendRequest(from: Id, to: Id, term: nat, prev: nat, prevTerm: nat, entries: seq<Entry>, commit: nat)
    | AppendReply(from: Id, to: Id, term: nat, success: bool, conflictTerm: nat, conflictIndex: nat,
                  reqTerm: nat, reqLast: nat)
    | InstallRequest(from: Id, to: Id, term: nat, lastIndex: nat, lastTerm: nat, data: SnapshotState)
    | InstallReply(from: Id, to: Id, term: nat, reqTerm: nat, reqIndex: nat)

  // ---------------------------------------------------------------- the sentinel log

  predicate WfLog(log: seq<Entry>) {
    |log| > 0 && forall j :: 0 <= j < |log| ==> log[j].index == log[0].index + j
  }

  function First(log: seq<Entry>): nat
    requires |log| > 0
  {
    log[0].index
  }

  function Last(log: seq<Entry>): nat
    requires |log| > 0
  {
    log[|log| - 1].index
  }

  function EntryAt(log: seq<Entry>, i: nat): Entry
    requires WfLog(log) && First(log) <= i <= Last(log)
  {
    log[i - First(log)]
  }

  function TermOf(log: seq<Entry>, i: nat): nat
    requires WfLog(log) && First(log) <= i <= Last(log)
  {
    EntryAt(log, i).term
  }

  /** The entries with index at least `i`. */
  function SliceFrom(log: seq<Entry>, i: nat): seq<Entry>
    requires WfLog(log) && First(log) <= i <= Last(log) + 1
  {
    log[i - First(log)..]
  }

  /** Entries numbered consecutively after `prev`. */
  predicate Follow(entries: seq<Entry>, prev: nat) {
    forall j :: 0 <= j < |entries| ==> entries[j].index == prev + 1 + j
  }

  function QuorumSize(n: Node): nat {
    (|n.peers| + 1) / 2 + 1
  }

  // ---------------------------------------------------------------- elections

  function BecomeFollower(n: Node, t: nat): Node {
    if t > n.term then n.(role := Follower, term := t, votedFor := "") else n.(role := Follower)
  }

  function StartElection(n: Node): Node {
    n.(role := Candidate, term := n.term + 1, votedFor := n.id, votes := {n.id})
  }

  function VoteRequestTo(n: Node, peer: Id): Msg
    requires |n.log| > 0
  {
    VoteRequest(n.id, peer, n.term, Last(n.log), n.log[|n.log| - 1].term)
  }

  function GrantVote(n: Node, m: Msg): (r: (Node, Msg))
    requires |n.log| > 0 && m.VoteRequest?
  {
    var upToDate := UpToDate(m.lastIndex, m.lastTerm, Last(n.log), n.log[|n.log| - 1].term);
    if (n.votedFor == "" || n.votedFor == m.from) && upToDate then
      (n.(votedFor := m.from), VoteReply(n.id, m.from, n.term, true, m.term))
    else
      (n, VoteReply(n.id, m.from, n.term, false, m.term))
  }

  function HandleVoteRequest(n: Node, m: Msg): (Node, Msg)
    requires |n.log| > 0 && m.VoteRequest?
  {
    var n1 := if m.term > n.term then BecomeFollower(n, m.term) else n;
    if m.term < n1.term then (n1, VoteReply(n.id, m.from, n1.term, false, m.term)) else GrantVote(n1, m)
  }

  function NoOp(n: Node): Entry
    requires |n.log| > 0
  {
    Entry(Last(n.log) + 1, n.term, None)
  }

  /** `m` with every key of `keys` set to `v`. */
  function SetAll(m: map<Id, nat>, keys: set<Id>, v: nat): map<Id, nat> {
    m + map p | p in keys :: v
  }

  function BecomeLeader(n: Node): Node
    requires |n.log| > 0
  {
    n.(role := Leader,
       leaderId := n.id,
       next := SetAll(n.next, n.peers, Last(n.log) + 1),
       matched := SetAll(n.matched, n.peers, 0)[n.id := Last(n.log) + 1],
       log := n.log + [NoOp(n)])
  }

  function HandleVoteReply(n: Node, m: Msg): Node
    requires |n.log| > 0 && m.VoteReply?
  {
    if m.term > n.term then BecomeFollower(n, m.term)
    else if n.role != Candidate || n.term != m.reqTerm || !m.granted then n
    else
      var n1 := n.(votes := n.votes + {m.from});
      if |n1.votes| >= QuorumSize(n1) then BecomeLeader(n1) else n1
  }

  // ---------------------------------------------------------------- replication, sending side

  function Propose(n: Node, command: Command): Node
    requires |n.log| > 0
  {
    if n.role != Leader then n
    else
      var index := Last(n.log) + 1;
      n.(log := n.log + [Entry(index, n.term, command)], matched := n.matched[n.id := index])
  }

  /** The next replication request for `peer`: the entries from its next index on, or none when
      those are compacted away. */
  function Replicate(n: Node, peer: Id): Option<Msg>
    requires WfLog(n.log) && peer in n.next && n.next[peer] <= Last(n.log) + 1
  {
    var next := n.next[peer];
    if n.role != Leader then None
    else if next <= First(n.log) then None
    else
      Some(AppendRequest(n.id, peer, n.term, next - 1, TermOf(n.log, next - 1), SliceFrom(n.log, next), n.commit))
  }

  /** The leader's snapshot for `peer`. The lock is taken anew for it, so the peer's next index
      may have risen since it was found below the boundary. */
  function SnapshotFor(n: Node, peer: Id): Option<Msg>
    requires |n.log| > 0
  {
    if n.role != Leader || n.snapshot.None? then None
    else Some(InstallRequest(n.id, peer, n.term, First(n.log), n.log[0].term, n.snapshot.value))
  }

  /** How many nodes are known to hold index `i`. */
  function Holders(matched: map<Id, nat>, i: nat): nat {
    |set p | p in matched && matched[p] >= i|
  }

  /** The scan of `advanceCommitLocked` from index `i` downwards. */
  function CommitScan(n: Node, i: nat): nat
    requires WfLog(n.log) && i <= Last(n.log)
  {
    if i <= n.commit || i <= First(n.log) || TermOf(n.log, i) != n.term then n.commit
    else if Holders(n.matched, i) >= QuorumSize(n) then i
    else CommitScan(n, i - 1)
  }

  /** The last index of term `t` at or below `i`, or 0; terms do not decrease along a log, so
      the search stops at a smaller term. */
  function LastOfTerm(log: seq<Entry>, i: nat, t: nat): nat
    requires WfLog(log) && i <= Last(log)
  {
    if i <= First(log) || TermOf(log, i) < t then 0
    else if TermOf(log, i) == t then i
    else LastOfTerm(log, i - 1, t)
  }

  /** The next index after a rejection. */
  function Backtrack(log: seq<Entry>, conflictTerm: nat, conflictIndex: nat): nat
    requires WfLog(log)
  {
    var l := if conflictTerm > 0 then LastOfTerm(log, Last(log), conflictTerm) else 0;
    var next := if l > 0 then l + 1 else conflictIndex;
    var floored := if next <= First(log) then First(log) else next;
    if floored < 1 then 1 else floored
  }

  function Matched(n: Node, peer: Id): nat {
    if peer in n.matched then n.matched[peer] else 0
  }

  function RaiseMatch(n: Node, peer: Id, i: nat): Node {
    var m := if i > Matched(n, peer) then i else Matched(n, peer);
    n.(matched := n.matched[peer := m], next := n.next[peer := m + 1])
  }

  function HandleAppendReply(n: Node, m: Msg): Node
    requires WfLog(n.log) && m.AppendReply?
  {
    if m.term > n.term then BecomeFollower(n, m.term)
    else if n.role != Leader || n.term != m.reqTerm then n
    else if m.success then
      var n1 := RaiseMatch(n, m.from, m.reqLast);
      n1.(commit := CommitScan(n1, Last(n1.log)))
    else
      n.(next := n.next[m.from := Backtrack(n.log, m.conflictTerm, m.conflictIndex)])
  }

  // ---------------------------------------------------------------- replication, receiving side

  /** A request from a leader of the current or a newer term is followed. */
  function Follows(n: Node, t: nat, leader: Id): Node {
    (if t > n.term || n.role != Follower then BecomeFollower(n, t) else n).(leaderId := leader)
  }

  /** The first index of the run of term-`t` entries ending at `i`. */
  function ConflictStart(log: seq<Entry>, i: nat, t: nat): nat
    requires WfLog(log) && First(log) <= i <= Last(log)
  {
    if i > First(log) + 1 && TermOf(log, i - 1) == t then ConflictStart(log, i - 1, t) else i
  }

  /** Entries already held are skipped; from the first missing or conflicting one on, the
      leader's entries replace the tail. */
  function Merge(log: seq<Entry>, entries: seq<Entry>): seq<Entry>
    requires WfLog(log)
    requires entries != [] ==> First(log) < entries[0].index <= Last(log) + 1 && Follow(entries, entries[0].index - 1)
    decreases |entries|
  {
    if entries == [] then log
    else if entries[0].index <= Last(log) then
      if TermOf(log, entries[0].index) == entries[0].term then Merge(log, entries[1..])
      else log[..entries[0].index - First(log)] + entries
    else log + entries
  }

  function Accepted(n: Node, m: Msg): Msg
    requires m.AppendRequest?
  {
    AppendReply(n.id, m.from, n.term, true, 0, 0, m.term, m.prev + |m.entries|)
  }

  function Rejected(n: Node, m: Msg, conflictTerm: nat, conflictIndex: nat): Msg
    requires m.AppendRequest?
  {
    AppendReply(n.id, m.from, n.term, false, conflictTerm, conflictIndex, m.term, m.prev + |m.entries|)
  }

  /** The consistency check and the append, for a window that starts at or after the
      snapshot boundary. */
  function AppendWindow(n: Node, m: Msg, prev: nat, prevTerm: nat, entries: seq<Entry>): (Node, Msg)
    requires WfLog(n.log) && m.AppendRequest? && First(n.log) <= prev && Follow(entries, prev)
  {
    if prev > Last(n.log) then (n, Rejected(n, m, 0, Last(n.log) + 1))
    else if TermOf(n.log, prev) != prevTerm then
      var t := TermOf(n.log, prev);
      (n, Rejected(n, m, t, ConflictStart(n.log, prev, t)))
    else
      var lastNew := prev + |entries|;
      var commit := if m.commit > n.commit then (if m.commit < lastNew then m.commit else lastNew) else n.commit;
      (n.(log := Merge(n.log, entries), commit := commit), Accepted(n, m))
  }

  function HandleAppend(n: Node, m: Msg): (Node, Msg)
    requires WfLog(n.log) && m.AppendRequest? && Follow(m.entries, m.prev)
  {
    if m.term < n.term then (n, Rejected(n, m, 0, 0))
    else
      var n1 := Follows(n, m.term, m.from);
      var first := First(n.log);
      if m.prev >= first then AppendWindow(n1, m, m.prev, m.prevTerm, m.entries)
      else if first - m.prev > |m.entries| then (n1, Accepted(n1, m))
      else AppendWindow(n1, m, first, n.log[0].term, m.entries[first - m.prev..])
  }

  // ---------------------------------------------------------------- snapshots and restart

  function HandleInstall(n: Node, m: Msg): (Node, Msg)
    requires WfLog(n.log) && First(n.log) <= n.commit && m.InstallRequest?
  {
    if m.term < n.term then (n, InstallReply(n.id, m.from, n.term, m.term, m.lastIndex))
    else
      var n1 := Follows(n, m.term, m.from);
      var reply := InstallReply(n.id, m.from, n1.term, m.term, m.lastIndex);
      if m.lastIndex <= n1.commit then (n1, reply)
      else
        var keep := m.lastIndex <= Last(n.log) && TermOf(n.log, m.lastIndex) == m.lastTerm;
        var tail := if keep then SliceFrom(n.log, m.lastIndex + 1) else [];
        (n1.(log := [Entry(m.lastIndex, m.lastTerm, None)] + tail,
             snapshot := Some(m.data),
             commit := m.lastIndex,
             pending := Some(Install(m.lastIndex, m.lastTerm, m.data))),
         reply)
  }

  function HandleInstallReply(n: Node, m: Msg): Node
    requires m.InstallReply?
  {
    if m.term > n.term then BecomeFollower(n, m.term)
    else if n.role != Leader || n.term != m.reqTerm then n
    else RaiseMatch(n, m.from, m.reqIndex)
  }

  /** The state machine offers its state through `index`: the log up to there is dropped. */
  function TakeSnapshot(n: Node, index: nat, data: SnapshotState): Node
    requires WfLog(n.log) && n.applied <= Last(n.log)
  {
    if index <= First(n.log) || index > n.applied then n
    else
      n.(log := [Entry(index, TermOf(n.log, index), None)] + SliceFrom(n.log, index + 1), snapshot := Some(data))
  }

  /** The committed entries not yet delivered. */
  function NextBatch(n: Node): seq<Entry>
    requires WfLog(n.log) && n.commit <= Last(n.log)
  {
    var from := if n.applied + 1 <= First(n.log) then First(n.log) + 1 else n.applied + 1;
    if from > n.commit then [] else n.log[from - First(n.log)..n.commit + 1 - First(n.log)]
  }

  /** A fresh node with nothing on disk. */
  function NewNode(id: Id, peers: set<Id>): Node {
    Node(id, peers, Follower, 0, "", [Entry(0, 0, None)], 0, 0, map[], map[], {}, "", None, None)
  }

  /** What a node keeps on disk. */
  datatype Disk = Disk(term: nat, votedFor: Id, log: seq<Entry>, snapshot: Option<SnapshotState>)

  function DiskOf(n: Node): Disk {
    Disk(n.term, n.votedFor, n.log, n.snapshot)
  }

  /** A node started from its disk: term, vote, log and snapshot are back, everything else is
      fresh, and delivery resumes at the snapshot. */
  function Recover(id: Id, peers: set<Id>, d: Disk): Node
    requires |d.log| > 0
  {
    var pending := if d.snapshot.None? then None
                   else Some(Install(First(d.log), d.log[0].term, d.snapshot.value));
    Node(id, peers, Follower, d.term, d.votedFor, d.log, First(d.log), First(d.log),
         map[], map[], {}, "", d.snapshot, pending)
  }

  function Restart(n: Node): Node
    requires |n.log| > 0
  {
    Recover(n.id, n.peers, DiskOf(n))
  }
}
