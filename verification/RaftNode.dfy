/** The Raft node as it runs: mutable fields, loops and explicit persistence. Every method
    leaves the node exactly where the corresponding function of `RaftStep` says, and leaves on
    disk exactly what the node must not forget before it answers. */
module RaftNode {
  import opened Tasks
  import opened RaftLog
  import opened RaftStep
  import RaftProgress

  lemma SetNone(m: map<Id, nat>, v: nat)
    ensures forall keys: set<Id> :: keys == {} ==> SetAll(m, keys, v) == m
  {
  }

  lemma SetOneMore(m: map<Id, nat>, keys: set<Id>, p: Id, v: nat)
    ensures SetAll(m, keys, v)[p := v] == SetAll(m, keys + {p}, v)
  {
  }

  class RaftPeer {
    const id: Id
    const peers: set<Id>

    var state: Role
    var currentTerm: nat
    var votedFor: Id
    var log: seq<Entry>

    var commitIndex: nat
    var lastApplied: nat
    var nextIndex: map<Id, nat>
    var matchIndex: map<Id, nat>
    var votes: set<Id>
    var leaderId: Id

    var snapshot: Option<SnapshotState>
    var pendingSnapshot: Option<Install>

    var disk: Disk

    ghost function View(): Node
      reads this
    {
      Node(id, peers, state, currentTerm, votedFor, log, commitIndex, lastApplied, nextIndex, matchIndex, votes,
           leaderId, snapshot, pendingSnapshot)
    }

    /** Nothing a restart needs is only in memory. */
    ghost predicate Durable()
      reads this
    {
      disk == DiskOf(View())
    }

    constructor (id: Id, peers: set<Id>, stored: Option<Disk>)
      requires stored.Some? ==> |stored.value.log| > 0
      ensures View() == if stored.Some? then Recover(id, peers, stored.value) else NewNode(id, peers)
      ensures Durable()
    {
      this.id := id;
      this.peers := peers;
      state := Follower;
      nextIndex, matchIndex, votes, leaderId := map[], map[], {}, "";
      if stored.Some? {
        var d := stored.value;
        currentTerm, votedFor, log, snapshot := d.term, d.votedFor, d.log, d.snapshot;
        pendingSnapshot := if d.snapshot.None? then None
                           else Some(Install(First(d.log), d.log[0].term, d.snapshot.value));
        commitIndex, lastApplied := First(d.log), First(d.log);
        disk := d;
      } else {
        currentTerm, votedFor, log, snapshot, pendingSnapshot := 0, "", [Entry(0, 0, None)], None, None;
        commitIndex, lastApplied := 0, 0;
        disk := Disk(0, "", [Entry(0, 0, None)], None);
      }
    }

    method Persist()
      modifies this`disk
      ensures disk == Disk(currentTerm, votedFor, log, old(disk.snapshot))
    {
      disk := Disk(currentTerm, votedFor, log, disk.snapshot);
    }

    method PersistWithSnapshot(data: SnapshotState)
      modifies this`disk
      ensures disk == Disk(currentTerm, votedFor, log, Some(data))
    {
      disk := disk.(snapshot := Some(data));
      Persist();
    }

    method StepDown(term: nat)
      modifies this`state, this`currentTerm, this`votedFor
      ensures View() == BecomeFollower(old(View()), term)
    {
      state := Follower;
      if term > currentTerm {
        currentTerm := term;
        votedFor := "";
      }
    }

    // -------------------------------------------------------------- elections

    method Campaign() returns (requests: set<Msg>)
      requires Durable() && |log| > 0
      modifies this
      ensures View() == StartElection(old(View())) && Durable()
      ensures requests == set p | p in peers :: VoteRequestTo(View(), p)
    {
      state := Candidate;
      currentTerm := currentTerm + 1;
      votedFor := id;
      Persist();
      votes := {id};
      requests := set p | p in peers :: VoteRequest(id, p, currentTerm, Last(log), log[|log| - 1].term);
    }

    method RequestVote(m: Msg) returns (reply: Msg)
      requires Durable() && |log| > 0 && m.VoteRequest?
      modifies this
      ensures (View(), reply) == HandleVoteRequest(old(View()), m) && Durable()
      ensures reply.granted <==>
                && m.term >= old(currentTerm)
                && (m.term > old(currentTerm) || old(votedFor) == "" || old(votedFor) == m.from)
                && (m.lastTerm > log[|log| - 1].term
                    || (m.lastTerm == log[|log| - 1].term && m.lastIndex >= Last(log)))
    {
      if m.term > currentTerm {
        StepDown(m.term);
        Persist();
      }
      reply := VoteReply(id, m.from, currentTerm, false, m.term);
      if m.term < currentTerm {
        return;
      }
      var lastTerm := log[|log| - 1].term;
      var upToDate := m.lastTerm > lastTerm || (m.lastTerm == lastTerm && m.lastIndex >= Last(log));
      if (votedFor == "" || votedFor == m.from) && upToDate {
        votedFor := m.from;
        Persist();
        reply := VoteReply(id, m.from, currentTerm, true, m.term);
      }
    }

    method InitIndexes()
      requires |log| > 0
      modifies this`nextIndex, this`matchIndex
      ensures nextIndex == SetAll(old(nextIndex), peers, Last(log) + 1)
      ensures matchIndex == SetAll(old(matchIndex), peers, 0)
    {
      hide SetAll;
      var rest := peers;
      SetNone(nextIndex, Last(log) + 1);
      SetNone(matchIndex, 0);
      while rest != {}
        invariant rest <= peers
        invariant nextIndex == SetAll(old(nextIndex), peers - rest, Last(log) + 1)
        invariant matchIndex == SetAll(old(matchIndex), peers - rest, 0)
      {
        var p :| p in rest;
        SetOneMore(old(nextIndex), peers - rest, p, Last(log) + 1);
        SetOneMore(old(matchIndex), peers - rest, p, 0);
        nextIndex := nextIndex[p := Last(log) + 1];
        matchIndex := matchIndex[p := 0];
        assert peers - rest + {p} == peers - (rest - {p});
        rest := rest - {p};
      }
      assert peers - rest == peers;
    }

    method BecomeLeader()
      requires Durable() && |log| > 0
      modifies this
      ensures View() == RaftStep.BecomeLeader(old(View())) && Durable()
    {
      hide SetAll;
      state := Leader;
      leaderId := id;
      InitIndexes();
      AppendNoOp();
    }

    method AppendNoOp()
      requires |log| > 0 && disk == DiskOf(View())
      modifies this`log, this`matchIndex, this`disk
      ensures log == old(log) + [NoOp(old(View()))] && matchIndex == old(matchIndex)[id := Last(old(log)) + 1]
      ensures Durable()
    {
      log := log + [Entry(Last(log) + 1, currentTerm, None)];
      Persist();
      matchIndex := matchIndex[id := Last(log)];
    }

    method ReceiveVote(m: Msg)
      requires Durable() && |log| > 0 && m.VoteReply?
      modifies this
      ensures View() == HandleVoteReply(old(View()), m) && Durable()
      ensures old(state) == Candidate && m.granted && m.term <= old(currentTerm) == m.reqTerm ==>
                (state == Leader <==> 2 * |old(votes) + {m.from}| > |peers| + 1)
    {
      if m.term > currentTerm {
        StepDown(m.term);
        Persist();
        return;
      }
      if state != Candidate || currentTerm != m.reqTerm {
        return;
      }
      if m.granted {
        votes := votes + {m.from};
        if |votes| >= (|peers| + 1) / 2 + 1 {
          BecomeLeader();
        }
      }
    }

    // -------------------------------------------------------------- replication, sending side

    method Propose(command: Command) returns (index: nat, term: nat, isLeader: bool)
      requires Durable() && |log| > 0
      modifies this
      ensures View() == RaftStep.Propose(old(View()), command) && Durable()
      ensures isLeader == (state == Leader) && term == currentTerm
      ensures isLeader ==> log == old(log) + [Entry(index, term, command)]
    {
      if state != Leader {
        return 0, currentTerm, false;
      }
      index, term, isLeader := Last(log) + 1, currentTerm, true;
      log := log + [Entry(index, term, command)];
      Persist();
      matchIndex := matchIndex[id := index];
    }

    method SendAppendEntries(peer: Id) returns (m: Option<Msg>)
      requires WfLog(log) && peer in nextIndex && nextIndex[peer] <= Last(log) + 1
      ensures m == Replicate(View(), peer)
    {
      if state != Leader {
        return None;
      }
      var next := nextIndex[peer];
      if next <= First(log) {
        return None;
      }
      var entries := SliceFrom(log, next);
      m := Some(AppendRequest(id, peer, currentTerm, next - 1, TermOf(log, next - 1), entries, commitIndex));
    }

    method SendInstallSnapshot(peer: Id) returns (m: Option<Msg>)
      requires |log| > 0
      ensures m == SnapshotFor(View(), peer)
    {
      if state != Leader || snapshot.None? {
        return None;
      }
      m := Some(InstallRequest(id, peer, currentTerm, First(log), log[0].term, snapshot.value));
    }

    /** The inner loop of commit counting: how many nodes hold index `i`. */
    method CountHolders(i: nat) returns (count: nat)
      ensures count == Holders(matchIndex, i)
    {
      count := 0;
      var rest := matchIndex.Keys;
      ghost var seen: set<Id> := {};
      while rest != {}
        invariant rest <= matchIndex.Keys
        invariant seen == set p | p in matchIndex && p !in rest && matchIndex[p] >= i
        invariant count == |seen|
      {
        var p :| p in rest;
        if matchIndex[p] >= i {
          count := count + 1;
          seen := seen + {p};
        }
        rest := rest - {p};
      }
      assert seen == set p | p in matchIndex && matchIndex[p] >= i;
    }

    method AdvanceCommit()
      requires WfLog(log)
      modifies this`commitIndex
      ensures View() == old(View()).(commit := CommitScan(old(View()), Last(log)))
      ensures RaftProgress.Rising(old(View())) ==>
                RaftProgress.Greatest(View(), old(commitIndex), Last(log), commitIndex)
    {
      if RaftProgress.Rising(View()) {
        RaftProgress.ScanFindsGreatest(View(), Last(log));
        RaftProgress.GreatestFrame(View(), View().(commit := CommitScan(View(), Last(log))), commitIndex, Last(log),
                                   CommitScan(View(), Last(log)));
      }
      var i: nat := Last(log);
      while i > commitIndex && i > First(log)
        invariant i <= Last(log)
        invariant commitIndex == old(commitIndex)
        invariant CommitScan(old(View()), Last(log)) == CommitScan(old(View()), i)
      {
        if TermOf(log, i) != currentTerm {
          break;
        }
        var count := CountHolders(i);
        if count >= (|peers| + 1) / 2 + 1 {
          commitIndex := i;
          return;
        }
        i := i - 1;
      }
    }

    method FindLastOfTerm(t: nat) returns (l: nat)
      requires WfLog(log)
      ensures l == LastOfTerm(log, Last(log), t)
    {
      l := 0;
      var i: nat := Last(log);
      while i > First(log)
        invariant i <= Last(log)
        invariant LastOfTerm(log, Last(log), t) == LastOfTerm(log, i, t)
      {
        if TermOf(log, i) == t {
          return i;
        }
        if TermOf(log, i) < t {
          return 0;
        }
        i := i - 1;
      }
    }

    method ReceiveAppendReply(m: Msg)
      requires Durable() && WfLog(log) && m.AppendReply?
      modifies this
      ensures View() == HandleAppendReply(old(View()), m) && Durable()
    {
      hide CommitScan, LastOfTerm, RaftProgress.Rising, RaftProgress.Greatest;
      if m.term > currentTerm {
        StepDown(m.term);
        Persist();
        return;
      }
      if state != Leader || currentTerm != m.reqTerm {
        return;
      }
      var known := if m.from in matchIndex then matchIndex[m.from] else 0;
      if m.success {
        var matched := if m.reqLast > known then m.reqLast else known;
        matchIndex := matchIndex[m.from := matched];
        nextIndex := nextIndex[m.from := matched + 1];
        AdvanceCommit();
        return;
      }
      var next := m.conflictIndex;
      if m.conflictTerm > 0 {
        var l := FindLastOfTerm(m.conflictTerm);
        if l > 0 {
          next := l + 1;
        }
      }
      if next <= First(log) {
        next := First(log);
      }
      if next < 1 {
        next := 1;
      }
      nextIndex := nextIndex[m.from := next];
    }

    // -------------------------------------------------------------- replication, receiving side

    method FindConflictStart(prev: nat, t: nat) returns (i: nat)
      requires WfLog(log) && First(log) <= prev <= Last(log)
      ensures i == ConflictStart(log, prev, t)
    {
      i := prev;
      while i > First(log) + 1 && TermOf(log, i - 1) == t
        invariant First(log) <= i <= prev
        invariant ConflictStart(log, prev, t) == ConflictStart(log, i, t)
      {
        i := i - 1;
      }
    }

    /** Skip what is held, cut at the first conflict, append the rest. */
    method TakeEntries(prev: nat, entries: seq<Entry>) returns (changed: bool)
      requires WfLog(log) && RaftStep.Follow(entries, prev) && First(log) <= prev <= Last(log)
      modifies this`log
      ensures log == Merge(old(log), entries)
      ensures !changed ==> log == old(log)
    {
      changed := false;
      var i := 0;
      while i < |entries|
        invariant 0 <= i <= |entries| && log == old(log) && !changed
        invariant prev + i <= Last(log)
        invariant RaftStep.Follow(entries[i..], prev + i)
        invariant Merge(log, entries) == Merge(log, entries[i..])
      {
        var e := entries[i];
        if e.index <= Last(log) {
          if TermOf(log, e.index) == e.term {
            assert entries[i..][1..] == entries[i + 1..];
            i := i + 1;
            continue;
          }
          log := log[..e.index - First(log)];
        }
        log := log + entries[i..];
        changed := true;
        break;
      }
    }

    /** A request of the current or a newer term: step down if need be and note the leader. */
    method Follow(term: nat, leader: Id)
      requires Durable() && term >= currentTerm
      modifies this
      ensures View() == Follows(old(View()), term, leader) && Durable()
    {
      if term > currentTerm || state != Follower {
        StepDown(term);
        Persist();
      }
      leaderId := leader;
    }

    method CheckAndAppend(m: Msg, prev: nat, prevTerm: nat, entries: seq<Entry>) returns (reply: Msg)
      requires Durable() && WfLog(log) && m.AppendRequest? && First(log) <= prev && RaftStep.Follow(entries, prev)
      modifies this
      ensures (View(), reply) == AppendWindow(old(View()), m, prev, prevTerm, entries) && Durable()
    {
      var reqLast := m.prev + |m.entries|;
      if prev > Last(log) {
        return AppendReply(id, m.from, currentTerm, false, 0, Last(log) + 1, m.term, reqLast);
      }
      var t := TermOf(log, prev);
      if t != prevTerm {
        var start := FindConflictStart(prev, t);
        return AppendReply(id, m.from, currentTerm, false, t, start, m.term, reqLast);
      }
      var changed := TakeEntries(prev, entries);
      if changed {
        Persist();
      }
      var lastNew := prev + |entries|;
      if m.commit > commitIndex {
        commitIndex := if m.commit < lastNew then m.commit else lastNew;
      }
      reply := AppendReply(id, m.from, currentTerm, true, 0, 0, m.term, reqLast);
    }

    method AppendEntries(m: Msg) returns (reply: Msg)
      requires Durable() && WfLog(log) && m.AppendRequest? && RaftStep.Follow(m.entries, m.prev)
      modifies this
      ensures (View(), reply) == HandleAppend(old(View()), m) && Durable()
    {
      if m.term < currentTerm {
        return AppendReply(id, m.from, currentTerm, false, 0, 0, m.term, m.prev + |m.entries|);
      }
      Follow(m.term, m.from);
      var prev, prevTerm, entries := m.prev, m.prevTerm, m.entries;
      if prev < First(log) {
        var cut := First(log) - prev;
        if cut > |entries| {
          return AppendReply(id, m.from, currentTerm, true, 0, 0, m.term, m.prev + |m.entries|);
        }
        entries := entries[cut..];
        prev := First(log);
        prevTerm := log[0].term;
      }
      reply := CheckAndAppend(m, prev, prevTerm, entries);
    }

    // -------------------------------------------------------------- snapshots

    method InstallSnapshot(m: Msg) returns (reply: Msg)
      requires Durable() && WfLog(log) && First(log) <= commitIndex && m.InstallRequest?
      modifies this
      ensures (View(), reply) == HandleInstall(old(View()), m) && Durable()
    {
      hide SliceFrom, TermOf;
      reply := InstallReply(id, m.from, currentTerm, m.term, m.lastIndex);
      if m.term < currentTerm {
        return;
      }
      Follow(m.term, m.from);
      reply := InstallReply(id, m.from, currentTerm, m.term, m.lastIndex);
      if m.lastIndex <= commitIndex {
        return;
      }
      Replace(m);
    }

    /** The snapshot takes the place of the log, but for a tail that follows its last entry. */
    method Replace(m: Msg)
      requires WfLog(log) && m.InstallRequest? && First(log) <= m.lastIndex
      modifies this
      ensures var keep := m.lastIndex <= Last(old(log)) && TermOf(old(log), m.lastIndex) == m.lastTerm;
              var tail := if keep then SliceFrom(old(log), m.lastIndex + 1) else [];
              View() == old(View()).(
                log := [Entry(m.lastIndex, m.lastTerm, None)] + tail, snapshot := Some(m.data), commit := m.lastIndex,
                pending := Some(Install(m.lastIndex, m.lastTerm, m.data)))
      ensures Durable()
    {
      hide SliceFrom, TermOf;
      var tail := [];
      if m.lastIndex <= Last(log) && TermOf(log, m.lastIndex) == m.lastTerm {
        tail := SliceFrom(log, m.lastIndex + 1);
      }
      log := [Entry(m.lastIndex, m.lastTerm, None)] + tail;
      snapshot := Some(m.data);
      PersistWithSnapshot(m.data);
      commitIndex := m.lastIndex;
      pendingSnapshot := Some(Install(m.lastIndex, m.lastTerm, m.data));
    }

    method ReceiveInstallReply(m: Msg)
      requires Durable() && m.InstallReply?
      modifies this
      ensures View() == HandleInstallReply(old(View()), m) && Durable()
    {
      if m.term > currentTerm {
        StepDown(m.term);
        Persist();
        return;
      }
      if state != Leader || currentTerm != m.reqTerm {
        return;
      }
      var known := if m.from in matchIndex then matchIndex[m.from] else 0;
      var matched := if m.reqIndex > known then m.reqIndex else known;
      matchIndex := matchIndex[m.from := matched];
      nextIndex := nextIndex[m.from := matched + 1];
    }

    method Snapshot(index: nat, data: SnapshotState)
      requires Durable() && WfLog(log) && lastApplied <= Last(log)
      modifies this
      ensures View() == TakeSnapshot(old(View()), index, data) && Durable()
    {
      if index <= First(log) || index > lastApplied {
        return;
      }
      var boundaryTerm := TermOf(log, index);
      var tail := SliceFrom(log, index + 1);
      log := [Entry(index, boundaryTerm, None)] + tail;
      snapshot := Some(data);
      PersistWithSnapshot(data);
    }

    /** The applier collects the committed entries it will deliver next. */
    method CollectBatch() returns (batch: seq<Entry>)
      requires WfLog(log) && commitIndex <= Last(log)
      ensures batch == NextBatch(View())
      ensures var from := if lastApplied < First(log) then First(log) else lastApplied;
              && |batch| == (if from < commitIndex then commitIndex - from else 0)
              && forall k :: 0 <= k < |batch| ==> batch[k] == EntryAt(log, from + 1 + k)
    {
      var from := lastApplied + 1;
      if from <= First(log) {
        from := First(log) + 1;
      }
      batch := [];
      var i := from;
      while i <= commitIndex
        invariant from <= i && (i <= commitIndex + 1 || i == from)
        invariant batch == if i == from then [] else log[from - First(log)..i - First(log)]
      {
        batch := batch + [EntryAt(log, i)];
        i := i + 1;
      }
    }
  }
}
