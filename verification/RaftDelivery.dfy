/** Delivery on one node: the applier, the apply channel and the server's apply loop hand the
    committed log to the queue in order, without gap, repeat or regression. */
module RaftDelivery {
  import opened Tasks
  import opened QueueView
  import opened QueueMachine
  import opened RaftLog
  import opened RaftHistory
  import opened RaftStep
  import opened RaftCompaction
  import opened RaftInvariant
  import opened RaftHandlers
  import opened RaftReplicationProof
  import opened RaftCluster

  function IndexOf(m: ApplyMsg): nat {
    match m
    case CommandMsg(e) => e.index
    case SnapshotMsg(i) => i.index
  }

  /** After reaching index `at`, only the next entry or a snapshot further on may follow. */
  predicate Fits(at: nat, m: ApplyMsg) {
    match m
    case CommandMsg(e) => e.index == at + 1
    case SnapshotMsg(i) => i.index > at
  }

  function Before(at: nat, msgs: seq<ApplyMsg>, i: nat): nat
    requires i <= |msgs|
  {
    if i == 0 then at else IndexOf(msgs[i - 1])
  }

  /** The index reached after `msgs`. */
  function End(at: nat, msgs: seq<ApplyMsg>): nat {
    Before(at, msgs, |msgs|)
  }

  ghost predicate Ordered(at: nat, msgs: seq<ApplyMsg>) {
    forall i {:trigger Before(at, msgs, i)} :: 0 <= i < |msgs| ==> Fits(Before(at, msgs, i), msgs[i])
  }

  /** The message tells what the node's committed log says. */
  ghost predicate Truthful(retries: int, log: Log, commit: nat, m: ApplyMsg) {
    match m
    case CommandMsg(e) => 0 < e.index <= commit && e.index <= |log| && log[e.index - 1] == e
    case SnapshotMsg(i) => i.index <= commit && SnapshotOf(retries, i.data, log, i.index)
  }

  function Commands(entries: seq<Entry>): (r: seq<ApplyMsg>)
    ensures |r| == |entries| && forall i :: 0 <= i < |r| ==> r[i] == CommandMsg(entries[i])
  {
    seq(|entries|, i requires 0 <= i < |entries| => CommandMsg(entries[i]))
  }

  /** What the applier has taken from the node but not yet sent. */
  function Outbox(a: Applier): seq<ApplyMsg> {
    match a
    case Idle => []
    case Restoring(i) => [SnapshotMsg(i)]
    case Delivering(b) => Commands(b)
    case Counting(_, b) => Commands(b)
  }

  function Undelivered(p: Proc): seq<ApplyMsg> {
    p.channel + Outbox(p.applier)
  }

  /** How lastApplied relates to what was sent. */
  ghost predicate AppliedOk(p: Proc) {
    var sent := End(p.server.position, p.channel);
    match p.applier
    case Idle => p.node.pending.Some? || p.node.applied == sent
    case Restoring(i) => p.node.applied == i.index
    case Delivering(_) => p.node.applied == sent
    case Counting(i, _) => i == sent && p.node.applied + 1 == i
  }

  ghost predicate FlowOk(retries: int, log: Log, p: Proc) {
    && p.server.position <= p.node.commit <= |log|
    && Ordered(p.server.position, Undelivered(p))
    && (forall i :: 0 <= i < |Undelivered(p)| ==> Truthful(retries, log, p.node.commit, Undelivered(p)[i]))
    && AppliedOk(p)
    && (p.node.pending.Some? ==> End(p.server.position, Undelivered(p)) < p.node.pending.value.index)
  }

  /** The queue is the fold of the node's log up to the server's position. */
  ghost predicate QueueOk(retries: int, log: Log, p: Proc) {
    && p.server.position <= p.node.commit <= |log|
    && Keyed(p.server.machine) && p.server.machine.maxRetries == retries
    && ViewOf(p.server.machine) == Fold(retries, log[..p.server.position])
    && (p.server.call.Some? ==>
          p.server.call.value.index == p.server.position
          && SnapshotOf(retries, p.server.call.value.data, log, p.server.call.value.index))
  }

  /** A call's entry is in the log of the leader it was proposed to. */
  ghost predicate Proposed(h: History, c: Proposal) {
    && c.term in h.lead && 0 < c.index <= |h.lead[c.term]|
    && h.lead[c.term][c.index - 1] == Entry(c.index, c.term, c.command)
  }

  ghost predicate ProcInv(g: Ghost, id: Id, p: Proc) {
    && NodeInv(g, id, p.node)
    && id in g.h.log
    && FlowOk(g.retries, g.h.log[id], p)
    && QueueOk(g.retries, g.h.log[id], p)
    && forall c {:trigger Proposed(g.h, c)} :: c in Calls(p.server) ==> Proposed(g.h, c)
  }

  // ---------------------------------------------------------------- what Raft does meanwhile

  lemma TruthfulLonger(retries: int, log: Log, commit: nat, log': Log, commit': nat, m: ApplyMsg)
    requires Truthful(retries, log, commit, m) && commit <= commit' && commit <= |log| && log[..commit] <= log'
    ensures Truthful(retries, log', commit', m)
  {
    match m
    case CommandMsg(e) =>
      assert log[..commit][e.index - 1] == log'[e.index - 1];
    case SnapshotMsg(i) =>
      assert log'[..i.index] == log[..i.index];
      SnapshotOfLonger(retries, i.data, log, log', i.index);
  }

  /** Everything undelivered lies within the committed log. */
  lemma EndBounded(retries: int, log: Log, p: Proc)
    requires FlowOk(retries, log, p)
    ensures End(p.server.position, Undelivered(p)) <= p.node.commit
  {
    var u := Undelivered(p);
    if u != [] {
      assert Truthful(retries, log, p.node.commit, u[|u| - 1]);
    }
  }

  lemma FlowAdvances(retries: int, log: Log, log': Log, p: Proc, n': Node)
    requires FlowOk(retries, log, p)
    requires p.node.commit <= n'.commit <= |log'| && log[..p.node.commit] <= log' && n'.applied == p.node.applied
    requires n'.pending == p.node.pending || (n'.pending.Some? && p.node.commit < n'.pending.value.index)
    ensures FlowOk(retries, log', p.(node := n'))
  {
    var p', u := p.(node := n'), Undelivered(p);
    EndBounded(retries, log, p);
    forall i | 0 <= i < |u| ensures Truthful(retries, log', n'.commit, Undelivered(p')[i]) {
      TruthfulLonger(retries, log, p.node.commit, log', n'.commit, u[i]);
    }
  }

  lemma QueueAdvances(retries: int, log: Log, log': Log, p: Proc, n': Node)
    requires QueueOk(retries, log, p)
    requires p.node.commit <= n'.commit <= |log'| && log[..p.node.commit] <= log'
    ensures QueueOk(retries, log', p.(node := n'))
  {
    hide SnapshotOf, Keyed, Fold;
    var s := p.server;
    assert log'[..s.position] == log[..s.position];
    if s.call.Some? {
      assert log'[..s.call.value.index] == log[..s.call.value.index];
      SnapshotOfLonger(retries, s.call.value.data, log, log', s.call.value.index);
    }
  }

  lemma ProposedGrows(h: History, h': History, c: Proposal)
    requires Grows(h, h') && Proposed(h, c)
    ensures Proposed(h', c)
  {
    assert LeadGrows(h, h', c.term);
  }

  lemma CallsGrow(g: Ghost, g': Ghost, calls: set<Proposal>)
    requires GhostGrows(g, g') && forall c {:trigger Proposed(g.h, c)} :: c in calls ==> Proposed(g.h, c)
    ensures forall c {:trigger Proposed(g'.h, c)} :: c in calls ==> Proposed(g'.h, c)
  {
    forall c | c in calls ensures Proposed(g'.h, c) {
      ProposedGrows(g.h, g'.h, c);
    }
  }

  /** A Raft handler call on this node: delivery is not disturbed. */
  lemma HandlerKeepsDelivery(g: Ghost, g': Ghost, id: Id, p: Proc, n': Node)
    requires ProcInv(g, id, p) && StepOk(g, g', id, p.node, n')
    ensures ProcInv(g', id, p.(node := n'))
  {
    hide FlowOk, QueueOk, GhostOk, NodeInv, Grows, OnlyMoves, Proposed;
    NodeBasics(g', id, n');
    FlowAdvances(g.retries, g.h.log[id], g'.h.log[id], p, n');
    QueueAdvances(g.retries, g.h.log[id], g'.h.log[id], p, n');
    CallsGrow(g, g', Calls(p.server));
  }

  /** A handler call on another node. */
  lemma OtherKeepsDelivery(g: Ghost, g': Ghost, id: Id, q: Id, p: Proc)
    requires Local(g, g', id) && q != id && ProcInv(g, q, p)
    ensures ProcInv(g', q, p)
  {
    hide FlowOk, QueueOk, Proposed, Grows, NodeInv;
    OtherNodeOk(g, g', id, q, p.node);
    IsNode(g, q, p.node);
    IsNode(g', q, p.node);
    assert g'.h.log[q] == g.h.log[q];
    CallsGrow(g, g', Calls(p.server));
  }

  lemma IsNode(g: Ghost, id: Id, n: Node)
    requires NodeInv(g, id, n)
    ensures Domains(g.h) && id in g.h.nodes
  {
  }

  // ---------------------------------------------------------------- the applier

  lemma OrderedAppend(at: nat, msgs: seq<ApplyMsg>, more: seq<ApplyMsg>)
    requires Ordered(at, msgs) && Ordered(End(at, msgs), more)
    ensures Ordered(at, msgs + more)
    ensures End(at, msgs + more) == End(End(at, msgs), more)
  {
    hide Fits, IndexOf;
    var all := msgs + more;
    forall i | 0 <= i < |all| ensures Fits(Before(at, all, i), all[i]) {
      if i < |msgs| {
        assert Fits(Before(at, msgs, i), msgs[i]);
      } else {
        assert Fits(Before(End(at, msgs), more, i - |msgs|), more[i - |msgs|]);
      }
    }
  }

  lemma OrderedTail(at: nat, msgs: seq<ApplyMsg>)
    requires Ordered(at, msgs) && msgs != []
    ensures Ordered(IndexOf(msgs[0]), msgs[1..])
    ensures End(IndexOf(msgs[0]), msgs[1..]) == End(at, msgs)
  {
    forall i | 0 <= i < |msgs[1..]| ensures Fits(Before(IndexOf(msgs[0]), msgs[1..], i), msgs[1..][i]) {
      assert Fits(Before(at, msgs, i + 1), msgs[i + 1]);
    }
  }

  /** Node bookkeeping of the applier only: lastApplied and the pending snapshot. */
  lemma ApplierNodeOk(g: Ghost, id: Id, n: Node, n': Node)
    requires NodeInv(g, id, n) && n' == n.(applied := n'.applied, pending := n'.pending)
    requires n'.applied <= n.commit
    requires n'.pending == None || n'.pending == n.pending
    requires n'.pending.None? ==> First(n.log) <= n'.applied
    requires n'.pending.Some? ==> n'.applied <= First(n.log)
    ensures NodeInv(g, id, n')
  {
    hide Safe, SnapshotOf, Rep, Domains;
    assert LogOk(g, id, n') && SnapOk(g, id, n') && VotedOk(g, id, n');
    assert n.role == Candidate ==> CandidateOk(g, id, n');
    assert n.role == Leader ==> LeaderOk(g, id, n');
  }

  lemma PendingFacts(g: Ghost, id: Id, n: Node)
    requires NodeInv(g, id, n)
    ensures id in g.h.log && WfLog(n.log) && First(n.log) <= n.commit
    ensures n.pending.Some? ==> n.pending.value.index == First(n.log) && n.applied <= First(n.log)
                                && SnapshotOf(g.retries, n.pending.value.data, g.h.log[id], First(n.log))
    ensures n.pending.None? ==> First(n.log) <= n.applied
  {
    hide Safe, SnapshotOf, Rep, CandidateOk, LeaderOk;
    RepBasics(n.log, g.h.log[id]);
  }

  lemma TakePendingOk(g: Ghost, id: Id, p: Proc)
    requires ProcInv(g, id, p) && p.applier.Idle? && p.node.pending.Some?
    ensures ProcInv(g, id, PendingTaken(p))
  {
    hide NodeInv, SnapshotOf, QueueOk, Ordered, Proposed;
    var p', i, at := PendingTaken(p), p.node.pending.value, p.server.position;
    PendingFacts(g, id, p.node);
    ApplierNodeOk(g, id, p.node, p'.node);
    assert Undelivered(p) == p.channel;
    assert Ordered(End(at, p.channel), [SnapshotMsg(i)]) by { OrderedOne(End(at, p.channel), SnapshotMsg(i)); }
    OrderedAppend(at, p.channel, [SnapshotMsg(i)]);
    assert Undelivered(p') == p.channel + [SnapshotMsg(i)];
    SameQueue(g.retries, g.h.log[id], p, p');
  }

  lemma OrderedOne(at: nat, m: ApplyMsg)
    requires Fits(at, m)
    ensures Ordered(at, [m])
  {
  }

  lemma SameQueue(retries: int, log: Log, p: Proc, p': Proc)
    requires QueueOk(retries, log, p) && p'.server == p.server && p'.node.commit == p.node.commit
    ensures QueueOk(retries, log, p')
  {
  }

  /** A batch is the committed log right after what was applied. */
  lemma BatchIsNext(g: Ghost, id: Id, n: Node)
    requires NodeInv(g, id, n) && n.pending.None? && n.applied < n.commit
    ensures WfLog(n.log) && n.commit <= Last(n.log) == |g.h.log[id]|
    ensures NextBatch(n) == g.h.log[id][n.applied..n.commit]
  {
    hide Safe, SnapshotOf, CandidateOk, LeaderOk, Rep;
    RepBasics(n.log, g.h.log[id]);
    RepPart(n.log, g.h.log[id], n.applied, n.commit);
  }

  lemma RepPart(log: seq<Entry>, full: Log, from: nat, to: nat)
    requires Rep(log, full) && First(log) <= from <= to <= |full|
    ensures |log| == |full| + 1 - First(log)
    ensures log[from + 1 - First(log)..to + 1 - First(log)] == full[from..to]
  {
    var f := First(log);
    RepSlice(log, full, from + 1);
    assert |log[1..]| == |full[f..]|;
    assert log[from + 1 - f..to + 1 - f] == log[from + 1 - f..][..to - from];
    assert full[from..to] == full[from..][..to - from];
  }

  lemma CommandsOrdered(log: Log, from: nat, to: nat)
    requires Indexed(log) && from <= to <= |log|
    ensures Ordered(from, Commands(log[from..to]))
    ensures End(from, Commands(log[from..to])) == to
  {
  }

  lemma LogIndexed(g: Ghost, id: Id, n: Node)
    requires NodeInv(g, id, n)
    ensures id in g.h.log && Indexed(g.h.log[id])
  {
  }

  lemma TakeBatchOk(g: Ghost, id: Id, p: Proc)
    requires ProcInv(g, id, p) && p.applier.Idle? && p.node.pending.None? && p.node.applied < p.node.commit
    ensures WfLog(p.node.log) && p.node.commit <= Last(p.node.log)
    ensures ProcInv(g, id, p.(applier := Delivering(NextBatch(p.node))))
  {
    hide NodeInv, SnapshotOf, QueueOk, Ordered, Proposed, NextBatch, Stands, Fold;
    var l, n, at := g.h.log[id], p.node, p.server.position;
    BatchIsNext(g, id, n);
    LogIndexed(g, id, n);
    var p' := p.(applier := Delivering(NextBatch(n)));
    var batch := l[n.applied..n.commit];
    assert Undelivered(p) == p.channel;
    CommandsOrdered(l, n.applied, n.commit);
    OrderedAppend(at, p.channel, Commands(batch));
    forall i | 0 <= i < |Undelivered(p')| ensures Truthful(g.retries, l, n.commit, Undelivered(p')[i]) {
      if i < |p.channel| {
        assert Undelivered(p')[i] == Undelivered(p)[i];
      } else {
        assert Undelivered(p')[i] == CommandMsg(l[n.applied + i - |p.channel|]);
      }
    }
    SameQueue(g.retries, l, p, p');
  }

  /** Sending moves a message from the applier to the channel and changes nothing else. */
  lemma SendOk(g: Ghost, id: Id, p: Proc, p': Proc)
    requires ProcInv(g, id, p) && p'.node == p.node && p'.server == p.server
    requires Undelivered(p') == Undelivered(p) && AppliedOk(p')
    ensures ProcInv(g, id, p')
  {
    hide NodeInv, SnapshotOf, QueueOk, Ordered, Proposed, AppliedOk, Truthful;
    SameQueue(g.retries, g.h.log[id], p, p');
  }

  lemma SendSnapshotOk(g: Ghost, id: Id, p: Proc)
    requires ProcInv(g, id, p) && p.applier.Restoring?
    ensures ProcInv(g, id, p.(applier := Idle, channel := p.channel + [SnapshotMsg(p.applier.install)]))
  {
    hide NodeInv, QueueOk, Ordered, Proposed, Truthful;
    SendOk(g, id, p, p.(applier := Idle, channel := p.channel + [SnapshotMsg(p.applier.install)]));
  }

  lemma SendEntryOk(g: Ghost, id: Id, p: Proc)
    requires ProcInv(g, id, p) && p.applier.Delivering? && p.applier.batch != []
    ensures ProcInv(g, id, EntrySent(p))
  {
    hide NodeInv, QueueOk, Proposed, Truthful, Ordered;
    var p', b, at := EntrySent(p), p.applier.batch, p.server.position;
    assert Undelivered(p') == Undelivered(p);
    NextFits(at, p.channel, Commands(b));
    SendOk(g, id, p, p');
  }

  /** The first message still to be sent follows the last one sent. */
  lemma NextFits(at: nat, msgs: seq<ApplyMsg>, more: seq<ApplyMsg>)
    requires Ordered(at, msgs + more) && more != []
    ensures Fits(End(at, msgs), more[0]) && End(at, msgs + [more[0]]) == IndexOf(more[0])
  {
    var all := msgs + more;
    assert all[|msgs|] == more[0];
    assert Fits(Before(at, all, |msgs|), all[|msgs|]);
  }

  lemma EndBatchOk(g: Ghost, id: Id, p: Proc)
    requires ProcInv(g, id, p) && p.applier == Delivering([])
    ensures ProcInv(g, id, p.(applier := Idle))
  {
    hide NodeInv, QueueOk, Ordered, Proposed, Truthful;
    SendOk(g, id, p, p.(applier := Idle));
  }

  lemma CountEntryOk(g: Ghost, id: Id, p: Proc)
    requires ProcInv(g, id, p) && p.applier.Counting?
    ensures ProcInv(g, id, EntryCounted(p))
  {
    hide NodeInv, SnapshotOf, QueueOk, Ordered, Proposed, Stands, Fold;
    var p', l, at, u := EntryCounted(p), g.h.log[id], p.server.position, Undelivered(p);
    PendingFacts(g, id, p.node);
    EndGrows(at, p.channel, Commands(p.applier.batch));
    EndBounded(g.retries, l, p);
    ApplierNodeOk(g, id, p.node, p'.node);
    assert Undelivered(p') == u;
    SameQueue(g.retries, l, p, p');
  }

  /** Later messages only reach further. */
  lemma {:induction false} BeforeGrows(at: nat, msgs: seq<ApplyMsg>, i: nat, j: nat)
    requires Ordered(at, msgs) && i <= j <= |msgs|
    ensures Before(at, msgs, i) <= Before(at, msgs, j)
    decreases j
  {
    if i < j {
      BeforeGrows(at, msgs, i, j - 1);
      assert Fits(Before(at, msgs, j - 1), msgs[j - 1]);
    }
  }

  lemma EndGrows(at: nat, msgs: seq<ApplyMsg>, more: seq<ApplyMsg>)
    requires Ordered(at, msgs + more)
    ensures at <= End(at, msgs) <= End(at, msgs + more)
  {
    hide Ordered;
    var all := msgs + more;
    BeforeGrows(at, all, 0, |msgs|);
    BeforeGrows(at, all, |msgs|, |all|);
    assert Before(at, all, |msgs|) == End(at, msgs);
  }

  // ---------------------------------------------------------------- the server

  lemma EndTail(at: nat, msgs: seq<ApplyMsg>)
    requires msgs != []
    ensures End(IndexOf(msgs[0]), msgs[1..]) == End(at, msgs)
  {
  }

  /** Consuming the front of the channel moves the position and keeps the rest in order. */
  lemma ConsumeFlow(retries: int, log: Log, p: Proc, p': Proc)
    requires FlowOk(retries, log, p) && p.channel != []
    requires p'.node == p.node && p'.applier == p.applier && p'.channel == p.channel[1..]
    requires p'.server.position == IndexOf(p.channel[0])
    ensures FlowOk(retries, log, p')
  {
    hide SnapshotOf, Fits;
    var u, u', m := Undelivered(p), Undelivered(p'), p.channel[0];
    assert u' == u[1..];
    assert Truthful(retries, log, p.node.commit, u[0]);
    OrderedTail(p.server.position, u);
    EndTail(p.server.position, p.channel);
    forall i | 0 <= i < |u'| ensures Truthful(retries, log, p.node.commit, u'[i]) {
      assert u'[i] == u[i + 1];
    }
  }

  lemma FirstMessage(retries: int, log: Log, p: Proc)
    requires FlowOk(retries, log, p) && p.channel != []
    ensures Fits(p.server.position, p.channel[0]) && Truthful(retries, log, p.node.commit, p.channel[0])
    ensures p.node.commit <= |log|
  {
    assert p.channel[0] == Undelivered(p)[0];
    assert Before(p.server.position, Undelivered(p), 0) == p.server.position;
  }

  lemma ConsumeSnapshotOk(g: Ghost, id: Id, p: Proc)
    requires ProcInv(g, id, p) && p.server.call.None? && p.channel != [] && p.channel[0].SnapshotMsg?
    ensures ProcInv(g, id, SnapshotConsumed(p))
  {
    hide NodeInv, FlowOk, Proposed, Fold, ViewOf, Keyed, Restore, Stands;
    var p', l, i := SnapshotConsumed(p), g.h.log[id], p.channel[0].install;
    FirstMessage(g.retries, l, p);
    ConsumeFlow(g.retries, l, p, p');
    RestoreYields(p.server.machine, i.data, Fold(g.retries, l[..i.index]));
  }

  /** The queue after one more entry of the log. */
  lemma ConsumeQueue(retries: int, log: Log, s: Server, commit: nat, e: Entry, done: set<Proposal>,
                     data: SnapshotState, threshold: nat, s': Server)
    requires s.position < e.index == s.position + 1 <= commit <= |log| && log[s.position] == e
    requires Keyed(s.machine) && s.machine.maxRetries == retries
    requires ViewOf(s.machine) == Fold(retries, log[..s.position])
    requires EntryConsumed(s, e, done, data, threshold, s')
    ensures Keyed(s'.machine) && s'.machine.maxRetries == retries && s'.position == e.index
    ensures ViewOf(s'.machine) == Fold(retries, log[..e.index])
    ensures s'.call.Some? ==> s'.call.value.index == e.index && SnapshotOf(retries, s'.call.value.data, log, e.index)
  {
    hide Keyed, ViewOf, Fold, Apply, ApplyOp, IsSnapshot, Stands;
    FoldNext(retries, log, s.position);
    if e.command.Some? {
      ApplyRefines(s.machine, e.command.value);
    }
    if s'.call.Some? {
      SnapshotStands(s'.machine, data);
    }
  }

  lemma ConsumeEntryOk(g: Ghost, id: Id, p: Proc, done: set<Proposal>, data: SnapshotState, threshold: nat, s': Server)
    requires ProcInv(g, id, p) && p.server.call.None? && p.channel != [] && p.channel[0].CommandMsg?
    requires EntryConsumed(p.server, p.channel[0].entry, done, data, threshold, s')
    ensures ProcInv(g, id, p.(channel := p.channel[1..], server := s'))
  {
    hide NodeInv, FlowOk, Proposed, Fold, ViewOf, Keyed, Apply, IsSnapshot, SnapshotOf;
    var p', l, e := p.(channel := p.channel[1..], server := s'), g.h.log[id], p.channel[0].entry;
    FirstMessage(g.retries, l, p);
    ConsumeQueue(g.retries, l, p.server, p.node.commit, e, done, data, threshold, s');
    ConsumeFlow(g.retries, l, p, p');
    forall c | c in Calls(s') ensures Proposed(g.h, c) {
      assert c in Calls(p.server);
    }
  }

  /** A client call that was answered is in the decided log: the entry delivered at its index
      with its term is the very entry it proposed. */
  lemma AnsweredIsDecided(g: Ghost, id: Id, p: Proc, c: Proposal)
    requires GhostOk(g) && ProcInv(g, id, p) && p.channel != [] && p.channel[0].CommandMsg?
    requires c in p.server.waiting && c.index == p.channel[0].entry.index && c.term == p.channel[0].entry.term
    ensures 0 < c.index <= |g.decided| && g.decided[c.index - 1] == Entry(c.index, c.term, c.command)
  {
    var l, e := g.h.log[id], p.channel[0].entry;
    hide FlowOk, QueueOk, Inv, Committed;
    FirstMessage(g.retries, l, p);
    NodeMatches(g, id);
    assert MatchesAt(g.h, l, e.index - 1);
    assert Proposed(g.h, c);
    assert l[..e.index][e.index - 1] == e;
    assert l[..p.node.commit][e.index - 1] == e;
  }

  lemma NodeMatches(g: Ghost, id: Id)
    requires GhostOk(g) && id in g.h.nodes
    ensures id in g.h.log && Matches(g.h, g.h.log[id])
  {
    assert NodeOk(g.h, id);
  }

  lemma OfferSnapshotOk(g: Ghost, id: Id, p: Proc)
    requires GhostOk(g) && ProcInv(g, id, p) && p.server.call.Some?
    ensures WfLog(p.node.log) && p.node.applied <= Last(p.node.log)
    ensures var n' := TakeSnapshot(p.node, p.server.call.value.index, p.server.call.value.data);
            ProcInv(g, id, p.(node := n', server := p.server.(call := None)))
  {
    hide GhostOk, NodeInv, SnapshotOf, Proposed, Fold, ViewOf, Keyed, Ordered, Truthful;
    var c, l := p.server.call.value, g.h.log[id];
    NodeBasics(g, id, p.node);
    SnapshotStep(g, id, p.node, c.index, c.data);
    var n' := TakeSnapshot(p.node, c.index, c.data);
    var p' := p.(node := n', server := p.server.(call := None));
    assert Undelivered(p') == Undelivered(p);
  }

  /** The delivery overlay of the queue is invisible to the log. */
  lemma OverlayOk(g: Ghost, id: Id, p: Proc, machine: Machine)
    requires ProcInv(g, id, p)
    requires Keyed(machine) && ViewOf(machine) == ViewOf(p.server.machine)
    requires machine.maxRetries == p.server.machine.maxRetries
    ensures ProcInv(g, id, p.(server := p.server.(machine := machine)))
  {
    hide NodeInv, SnapshotOf, Proposed, Fold, ViewOf, Keyed, Ordered, Truthful;
    var p' := p.(server := p.server.(machine := machine));
    assert Undelivered(p') == Undelivered(p);
  }

  /** After a crash the queue starts empty and delivery starts over from the snapshot. */
  lemma CrashOk(g: Ghost, id: Id, p: Proc)
    requires GhostOk(g) && ProcInv(g, id, p)
    ensures ProcInv(g, id, StartProc(Restart(p.node), g.retries))
  {
    hide GhostOk, Proposed, SnapshotOf, FlowOk;
    NodeBasics(g, id, p.node);
    RestartStep(g, id, p.node);
    hide NodeInv;
    FreshFlow(g, id, Restart(p.node));
    FreshQueue(g.retries);
  }

  lemma FreshFlow(g: Ghost, id: Id, n: Node)
    requires NodeInv(g, id, n) && n.applied == First(n.log)
    requires n.pending.Some? <==> n.snapshot.Some?
    ensures FlowOk(g.retries, g.h.log[id], StartProc(n, g.retries))
  {
    hide Safe, Rep, SnapshotOf, CandidateOk, LeaderOk, NewMachine;
  }

  lemma FreshQueue(retries: int)
    ensures Keyed(NewMachine(retries)) && ViewOf(NewMachine(retries)) == Fold(retries, [])
  {
  }
}
