/** A cluster of queue servers over Raft: nodes, an unreliable network, and on every node the
    applier, the apply channel and the server's apply loop (raft/replication.go,
    server/cluster.go). */
module RaftCluster {
  import opened Tasks
  import opened QueueMachine
  import opened RaftLog
  import opened RaftStep

  /** A message on the apply channel. */
  datatype ApplyMsg = CommandMsg(entry: Entry) | SnapshotMsg(install: Install)

  /** Where the applier goroutine stands; it holds the node's lock between none of these. */
  datatype Applier =
    | Idle
    | Restoring(install: Install)               // took a pending snapshot, not yet sent
    | Delivering(batch: seq<Entry>)             // entries of a batch still to send
    | Counting(index: nat, batch: seq<Entry>)   // sent an entry, lastApplied not yet raised

  /** A client call and the entry it proposed. */
  datatype Proposal = Proposal(index: nat, term: nat, command: Command)

  datatype SnapshotCall = SnapshotCall(index: nat, data: SnapshotState)

  /** The server's apply loop: its queue, the index it has reached, entries since the last
      snapshot, a snapshot it is about to hand to Raft, the calls waiting for their entries, and
      the calls that have proposed an entry but are not registered as waiting yet. */
  datatype Server = Server(
    machine: Machine,
    position: nat,
    sinceSnapshot: nat,
    call: Option<SnapshotCall>,
    waiting: set<Proposal>,
    issued: set<Proposal>)

  /** The calls that may still be answered. */
  function Calls(s: Server): set<Proposal> {
    s.waiting + s.issued
  }

  datatype Proc = Proc(node: Node, applier: Applier, channel: seq<ApplyMsg>, server: Server)

  /** `net` holds every message ever sent: it can be delivered late, repeatedly or never.
      `acknowledged` collects the client calls that returned success. */
  datatype Cluster = Cluster(
    procs: map<Id, Proc>,
    net: set<Msg>,
    acknowledged: set<Proposal>,
    retries: int,
    threshold: nat)

  function StartProc(node: Node, retries: int): Proc {
    Proc(node, Idle, [], Server(NewMachine(retries), 0, 0, None, {}, {}))
  }

  ghost predicate Init(c: Cluster) {
    && "" !in c.procs
    && c.net == {} && c.acknowledged == {}
    && forall id :: id in c.procs ==> c.procs[id] == StartProc(NewNode(id, c.procs.Keys - {id}), c.retries)
  }

  datatype Step =
    | ElectionTimeout(id: Id)
    | Receive(m: Msg)
    | SendTo(id: Id, peer: Id)
    | SendInstall(id: Id, peer: Id)
    | ClientCall(id: Id, op: QueueOp)
    | Register(id: Id, call: Proposal)
    | TakePending(id: Id)
    | TakeBatch(id: Id)
    | SendSnapshot(id: Id)
    | SendEntry(id: Id)
    | EndBatch(id: Id)
    | CountEntry(id: Id)
    | ConsumeSnapshot(id: Id)
    | ConsumeEntry(id: Id, done: set<Proposal>, data: SnapshotState)
    | OfferSnapshot(id: Id)
    | DequeueTask(id: Id, deadline: Time, machine: Machine, task: Option<Task>)
    | LoseLeadership(id: Id)
    | Crash(id: Id)

  // ---------------------------------------------------------------- messages

  /** What `m` makes its receiver do and answer; a reply is not answered. */
  ghost predicate Received(n: Node, m: Msg, n': Node, out: set<Msg>) {
    && WfLog(n.log)
    && match m
       case VoteRequest(_, _, _, _, _) =>
         var (x, r) := HandleVoteRequest(n, m);
         n' == x && out == {r}
       case VoteReply(_, _, _, _, _) => n' == HandleVoteReply(n, m) && out == {}
       case AppendRequest(_, _, _, prev, _, entries, _) =>
         && Follow(entries, prev)
         && var (x, r) := HandleAppend(n, m);
            n' == x && out == {r}
       case AppendReply(_, _, _, _, _, _, _, _) => n' == HandleAppendReply(n, m) && out == {}
       case InstallRequest(_, _, _, _, _, _) =>
         && First(n.log) <= n.commit
         && var (x, r) := HandleInstall(n, m);
            n' == x && out == {r}
       case InstallReply(_, _, _, _, _) => n' == HandleInstallReply(n, m) && out == {}
  }

  // ---------------------------------------------------------------- applier

  function PendingTaken(p: Proc): Proc
    requires p.node.pending.Some?
  {
    var i := p.node.pending.value;
    p.(node := p.node.(pending := None, applied := if i.index > p.node.applied then i.index else p.node.applied),
       applier := Restoring(i))
  }

  function EntrySent(p: Proc): Proc
    requires p.applier.Delivering? && p.applier.batch != []
  {
    var b := p.applier.batch;
    p.(channel := p.channel + [CommandMsg(b[0])], applier := Counting(b[0].index, b[1..]))
  }

  function EntryCounted(p: Proc): Proc
    requires p.applier.Counting?
  {
    var i := p.applier.index;
    p.(node := p.node.(applied := if i > p.node.applied then i else p.node.applied),
       applier := Delivering(p.applier.batch))
  }

  // ---------------------------------------------------------------- server

  function SnapshotConsumed(p: Proc): Proc
    requires p.channel != [] && p.channel[0].SnapshotMsg?
  {
    var i := p.channel[0].install;
    p.(channel := p.channel[1..],
       server := p.server.(machine := Restore(p.server.machine, i.data), position := i.index, sinceSnapshot := 0))
  }

  /** The apply loop handles entry `e`: apply its command, wake the waiting calls in `done`,
      and every `threshold` entries serialize the queue for Raft. */
  ghost predicate EntryConsumed(s: Server, e: Entry, done: set<Proposal>, data: SnapshotState, threshold: nat,
                                s': Server) {
    var m' := if e.command.Some? then Apply(s.machine, e.command.value) else s.machine;
    var needed := threshold > 0 && s.sinceSnapshot + 1 >= threshold;
    && (forall p :: p in done ==> p in s.waiting && p.index == e.index && p.term == e.term)
    && (needed ==> IsSnapshot(m', data))
    && s' == Server(m', e.index, if needed then 0 else s.sinceSnapshot + 1,
                    if needed then Some(SnapshotCall(e.index, data)) else None,
                    (set p | p in s.waiting && p.index != e.index), s.issued)
  }

  /** A call that has its index and term starts to wait; it takes the place of any other call
      that waits for the same index. */
  function Registered(s: Server, call: Proposal): Server {
    s.(issued := s.issued - {call}, waiting := (set p | p in s.waiting && p.index != call.index) + {call})
  }

  // ---------------------------------------------------------------- the transition relation

  /** A step that changes one process and may send messages. */
  ghost predicate ProcStep(c: Cluster, c': Cluster, id: Id, p': Proc, out: set<Msg>) {
    id in c.procs && c' == c.(procs := c.procs[id := p'], net := c.net + out)
  }

  ghost predicate RaftStepOf(c: Cluster, c': Cluster, s: Step) {
    match s
    case ElectionTimeout(id) =>
      && id in c.procs
      && var p := c.procs[id];
         && p.node.role != Leader && |p.node.log| > 0
         && var n' := StartElection(p.node);
            ProcStep(c, c', id, p.(node := n'), set q | q in n'.peers :: VoteRequestTo(n', q))
    case Receive(m) =>
      && m in c.net && m.to in c.procs
      && exists n', out :: ReceiveStep(c, c', m, n', out)
    case SendTo(id, peer) =>
      && id in c.procs
      && var p := c.procs[id];
         && p.node.role == Leader && peer in p.node.peers
         && WfLog(p.node.log) && peer in p.node.next && p.node.next[peer] <= Last(p.node.log) + 1
         && Replicate(p.node, peer).Some?
         && ProcStep(c, c', id, p, {Replicate(p.node, peer).value})
    case SendInstall(id, peer) =>
      && id in c.procs
      && var p := c.procs[id];
         && peer in p.node.peers && |p.node.log| > 0 && SnapshotFor(p.node, peer).Some?
         && ProcStep(c, c', id, p, {SnapshotFor(p.node, peer).value})
    case ClientCall(id, op) =>
      && id in c.procs
      && var p := c.procs[id];
         && p.node.role == Leader && |p.node.log| > 0
         && var n' := Propose(p.node, Some(op));
            var call := Proposal(Last(p.node.log) + 1, p.node.term, Some(op));
            ProcStep(c, c', id, p.(node := n', server := p.server.(issued := p.server.issued + {call})), {})
    case Crash(id) =>
      && id in c.procs && |c.procs[id].node.log| > 0
      && ProcStep(c, c', id, StartProc(Restart(c.procs[id].node), c.retries), {})
    case _ => false
  }

  ghost predicate ReceiveStep(c: Cluster, c': Cluster, m: Msg, n': Node, out: set<Msg>)
    requires m.to in c.procs
  {
    Received(c.procs[m.to].node, m, n', out) && ProcStep(c, c', m.to, c.procs[m.to].(node := n'), out)
  }

  ghost predicate ApplierStepOf(c: Cluster, c': Cluster, s: Step) {
    match s
    case TakePending(id) =>
      && id in c.procs && c.procs[id].applier.Idle? && c.procs[id].node.pending.Some?
      && ProcStep(c, c', id, PendingTaken(c.procs[id]), {})
    case TakeBatch(id) =>
      && id in c.procs
      && var p := c.procs[id];
         && p.applier.Idle? && p.node.pending.None? && p.node.applied < p.node.commit
         && WfLog(p.node.log) && p.node.commit <= Last(p.node.log)
         && ProcStep(c, c', id, p.(applier := Delivering(NextBatch(p.node))), {})
    case SendSnapshot(id) =>
      && id in c.procs && c.procs[id].applier.Restoring?
      && var p := c.procs[id];
         ProcStep(c, c', id, p.(applier := Idle, channel := p.channel + [SnapshotMsg(p.applier.install)]), {})
    case SendEntry(id) =>
      && id in c.procs && c.procs[id].applier.Delivering? && c.procs[id].applier.batch != []
      && ProcStep(c, c', id, EntrySent(c.procs[id]), {})
    case EndBatch(id) =>
      && id in c.procs && c.procs[id].applier == Delivering([])
      && ProcStep(c, c', id, c.procs[id].(applier := Idle), {})
    case CountEntry(id) =>
      && id in c.procs && c.procs[id].applier.Counting?
      && ProcStep(c, c', id, EntryCounted(c.procs[id]), {})
    case _ => false
  }

  ghost predicate ServerStepOf(c: Cluster, c': Cluster, s: Step) {
    match s
    case ConsumeSnapshot(id) =>
      && id in c.procs
      && var p := c.procs[id];
         && p.server.call.None? && p.channel != [] && p.channel[0].SnapshotMsg?
         && ProcStep(c, c', id, SnapshotConsumed(p), {})
    case ConsumeEntry(id, done, data) =>
      && id in c.procs
      && var p := c.procs[id];
         && p.server.call.None? && p.channel != [] && p.channel[0].CommandMsg?
         && exists s' :: ConsumeStep(c, c', id, done, data, s')
    case Register(id, call) =>
      && id in c.procs && call in c.procs[id].server.issued
      && var s := c.procs[id].server;
         ProcStep(c, c', id, c.procs[id].(server := Registered(s, call)), {})
    case OfferSnapshot(id) =>
      && id in c.procs
      && var p := c.procs[id];
         && p.server.call.Some? && WfLog(p.node.log) && p.node.applied <= Last(p.node.log)
         && var n' := TakeSnapshot(p.node, p.server.call.value.index, p.server.call.value.data);
            ProcStep(c, c', id, p.(node := n', server := p.server.(call := None)), {})
    case DequeueTask(id, deadline, machine, task) =>
      && id in c.procs
      && DequeueStep(c.procs[id].server.machine, deadline, machine, task)
      && ProcStep(c, c', id, c.procs[id].(server := c.procs[id].server.(machine := machine)), {})
    case LoseLeadership(id) =>
      && id in c.procs
      && var s := c.procs[id].server;
         ProcStep(c, c', id, c.procs[id].(server := s.(machine := Requeue(s.machine))), {})
    case _ => false
  }

  ghost predicate ConsumeStep(c: Cluster, c': Cluster, id: Id, done: set<Proposal>, data: SnapshotState, s': Server)
    requires id in c.procs && c.procs[id].channel != [] && c.procs[id].channel[0].CommandMsg?
  {
    var p := c.procs[id];
    && EntryConsumed(p.server, p.channel[0].entry, done, data, c.threshold, s')
    && c' == c.(procs := c.procs[id := p.(channel := p.channel[1..], server := s')],
                acknowledged := c.acknowledged + done)
  }

  ghost predicate Next(c: Cluster, c': Cluster) {
    exists s :: NextStep(c, c', s)
  }

  ghost predicate NextStep(c: Cluster, c': Cluster, s: Step) {
    RaftStepOf(c, c', s) || ApplierStepOf(c, c', s) || ServerStepOf(c, c', s)
  }

  /** A run of the cluster from its first start. */
  ghost predicate IsRun(run: seq<Cluster>) {
    && |run| > 0
    && Init(run[0])
    && forall i :: 0 <= i < |run| - 1 ==> StepAt(run, i)
  }

  ghost predicate StepAt(run: seq<Cluster>, i: nat)
    requires i + 1 < |run|
  {
    Next(run[i], run[i + 1])
  }
}
