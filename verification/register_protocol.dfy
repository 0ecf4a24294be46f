/**
 * One run of the quorum register: n nodes and a bag of messages in flight, delivered in any
 * order, each exactly once. Messages left over from other runs may be in flight as well.
 */
module RegisterProtocol {
  import opened Collections
  import opened Histories
  import opened RegisterNode

  /** The parameters of a run; the workloads together touch each key at most once. */
  datatype Config = Config(n: nat, numKeys: nat, numReads: nat, numWrites: nat, runId: nat, testing: bool) {
    predicate Valid() {
      n >= 1 && numReads + numWrites <= numKeys
    }

    /** How many keys each node operates on. */
    function Planned(): nat {
      numReads + numWrites
    }

    predicate Reads(rank: nat, key: nat) {
      ReadsKey(rank, numReads, numWrites, key)
    }

    function Ranks(): (r: set<nat>)
      ensures forall i: nat :: i in r <==> 1 <= i <= n
    {
      Below(n + 1) - {0}
    }
  }

  lemma RanksSize(cfg: Config)
    ensures |cfg.Ranks()| == cfg.n
  {
    BelowSize(cfg.n + 1);
    assert cfg.Ranks() == Below(cfg.n + 1) - {0};
  }

  // What an observer of the messages and responses knows about an operation.

  datatype OpPhase = Idle | Querying | Imposing(tag: Tag) | Responded(imposed: Option<Tag>) {

    predicate HasTag() {
      Imposing? || (Responded? && imposed.Some?)
    }

    /** The tag the operation broadcast in its Write messages. */
    function TheTag(): Tag
      requires HasTag()
    {
      if Imposing? then tag else imposed.value
    }
  }

  /** `floor`: the tags of the operations on the key that had completed when this one was invoked. */
  datatype OpRecord = OpRecord(phase: OpPhase, floor: set<Tag>)

  datatype System = System(
    nodes: map<nat, Node>,
    net: multiset<Packet>,
    ops: map<OpId, OpRecord>,
    now: int,
    finished: map<nat, Trace>
  )

  /** The tags of the operations on a key that have collected their majority of acknowledgements. */
  function CompletedTags(ops: map<OpId, OpRecord>, key: nat): set<Tag> {
    set op | op in ops && op.0 == key && ops[op].phase.Responded? && ops[op].phase.imposed.Some? ::
      ops[op].phase.imposed.value
  }

  function ObservedPhase(phase: OpPhase, before: Node, after: Node, sent: seq<Packet>): OpPhase {
    if sent != [] && sent[0].msg.Write? then Imposing(Tag(sent[0].msg.ts, sent[0].msg.wr))
    else if after.readCount < before.readCount || after.writeCount < before.writeCount then
      Responded(if phase.Imposing? then Some(phase.tag) else None)
    else phase
  }

  function ObservedOps(cfg: Config, s: System, p: Packet, before: Node, after: Node, sent: seq<Packet>): map<OpId, OpRecord> {
    if p.msg.Run? then
      map op | op in s.ops ::
        if op.1 == p.dst && op.0 < cfg.Planned() then OpRecord(Querying, CompletedTags(s.ops, op.0)) else s.ops[op]
    else if (p.msg.Value? || p.msg.Ack?) && (p.msg.key, p.dst) in s.ops then
      var op := (p.msg.key, p.dst);
      s.ops[op := s.ops[op].(phase := ObservedPhase(s.ops[op].phase, before, after, sent))]
    else s.ops
  }

  function ObservedFinish(s: System, p: Packet, sent: seq<Packet>): map<nat, Trace> {
    if sent != [] && sent[|sent| - 1].msg.TestDone? then s.finished[p.dst := sent[|sent| - 1].msg.timestamps]
    else if sent != [] && sent[|sent| - 1].msg.Done? then s.finished[p.dst := []]
    else s.finished
  }

  /** The system after node `p.dst` has reacted to `p`. */
  function After(cfg: Config, s: System, p: Packet, now: int, node: Node, sent: seq<Packet>): System
    requires p.dst in s.nodes
  {
    System(s.nodes[p.dst := node], s.net - multiset{p} + multiset(sent),
           ObservedOps(cfg, s, p, s.nodes[p.dst], node, sent), now, ObservedFinish(s, p, sent))
  }

  /** Delivers one message at clock time `now`; `None` when its receiver panics. */
  function Deliver(cfg: Config, s: System, p: Packet, now: int): Option<System>
    requires p in s.net && p.dst in s.nodes
  {
    match Receive(s.nodes[p.dst], p.src, p.msg, now)
    case Panicked => None
    case Handled(node, sent) => Some(After(cfg, s, p, now, node, sent))
  }

  /** The clock the nodes read never goes back. */
  ghost predicate Next(cfg: Config, s: System, s': System) {
    exists p, now :: p in s.net && p.dst in s.nodes && s.now <= now && Deliver(cfg, s, p, now) == Some(s')
  }

  // Initial states.

  predicate IsProtocol(m: Msg) {
    m.Read? || m.Value? || m.Write? || m.Ack?
  }

  predicate IsCurrent(cfg: Config, p: Packet) {
    IsProtocol(p.msg) && p.msg.runId == cfg.runId
  }

  predicate IsStale(cfg: Config, p: Packet) {
    IsProtocol(p.msg) && p.msg.runId != cfg.runId
  }

  function InitialNode(cfg: Config, rank: nat): Node {
    Node(cfg.n, rank, cfg.numKeys, cfg.numReads, cfg.numWrites, 0, 0, cfg.runId, cfg.testing,
         map k: nat | k in Below(cfg.numKeys) :: NewRegister,
         map k: nat | k in Below(cfg.numKeys) :: map[], [])
  }

  function RunPacket(rank: nat): Packet {
    Packet(0, rank, Run)
  }

  /** Every node is initialised, each has a Run message waiting, and only stale messages besides. */
  ghost predicate IsInitial(cfg: Config, s: System) {
    && s.nodes == (map i | i in cfg.Ranks() :: InitialNode(cfg, i))
    && (forall i | i in cfg.Ranks() :: s.net[RunPacket(i)] == 1)
    && (forall p | p in s.net :: IsStale(cfg, p) || (p.dst in cfg.Ranks() && p == RunPacket(p.dst)))
    && s.ops.Keys == (set k, i | k in Below(cfg.numKeys) && i in cfg.Ranks() :: (k, i))
    && (forall op | op in s.ops :: s.ops[op] == OpRecord(Idle, {}))
    && s.finished == map[]
  }

  /** A finite run. */
  ghost predicate IsRun(cfg: Config, run: seq<System>) {
    && cfg.Valid() && |run| > 0 && IsInitial(cfg, run[0])
    && forall i: nat | i + 1 < |run| :: StepAt(cfg, run, i)
  }

  ghost predicate StepAt(cfg: Config, run: seq<System>, i: nat)
    requires i + 1 < |run|
  {
    Next(cfg, run[i], run[i + 1])
  }

  // Slots: an operation exchanges at most one message at a time with each node in each phase.

  datatype Slot = Query(op: OpId, responder: nat) | Impose(op: OpId, responder: nat)

  function SlotOf(p: Packet): Slot
    requires IsProtocol(p.msg)
  {
    match p.msg
    case Read(_, key, _) => Query((key, p.src), p.dst)
    case Value(_, key, _, _, _, _, _) => Query((key, p.dst), p.src)
    case Write(_, key, _, _, _, _) => Impose((key, p.src), p.dst)
    case Ack(_, key, _) => Impose((key, p.dst), p.src)
  }

  /** The slots of the current run's messages in flight. */
  function Flying(cfg: Config, net: multiset<Packet>): set<Slot> {
    set p | p in net && IsCurrent(cfg, p) :: SlotOf(p)
  }

  /** The nodes whose reply to the query has arrived. */
  function Replied(cfg: Config, s: System, op: OpId): set<nat> {
    set j | j in cfg.Ranks() && Query(op, j) !in Flying(cfg, s.net)
  }

  /** The nodes whose acknowledgement has arrived. */
  function Acked(cfg: Config, s: System, op: OpId): set<nat> {
    set j | j in cfg.Ranks() && Impose(op, j) !in Flying(cfg, s.net)
  }

  // The invariant.

  ghost predicate HasShape(cfg: Config, s: System) {
    && cfg.Valid() && s.nodes.Keys == cfg.Ranks()
    && (forall k: nat, i | k < cfg.numKeys && i in cfg.Ranks() :: (k, i) in s.ops)
    && (forall op | op in s.ops :: op.0 < cfg.numKeys && op.1 in cfg.Ranks())
    && (forall i | i in cfg.Ranks() :: NodeShape(cfg, i, s.nodes[i]))
  }

  ghost predicate NodeShape(cfg: Config, i: nat, node: Node) {
    && node.n == cfg.n && node.rank == i && node.runId == cfg.runId && node.testing == cfg.testing
    && node.numReads == cfg.numReads && node.numWrites == cfg.numWrites
    && (forall k: nat :: k in node.registers <==> k < cfg.numKeys)
    && (forall k: nat :: k in node.readLists <==> k < cfg.numKeys)
  }

  function TagAt(s: System, j: nat, key: nat): Tag
    requires j in s.nodes && key in s.nodes[j].registers
  {
    s.nodes[j].registers[key].GetTag()
  }

  predicate Started(s: System, i: nat) {
    RunPacket(i) !in s.net
  }

  /** The operation has been sent out as a read or as a write. */
  predicate IsAsked(reg: Register, isRead: bool, rank: nat) {
    reg.rid == 1 && reg.reading == isRead && (!isRead ==> reg.writeval == rank)
  }

  /** After the query majority the read list holds only late replies. */
  predicate QueryDone(cfg: Config, list: ReadList, replied: set<nat>) {
    list.Keys <= replied && |replied| == |list| + cfg.n / 2 + 1
  }

  /** The register fields of an operation fit its phase and the replies that have arrived. */
  predicate OpOk(cfg: Config, isRead: bool, rank: nat, reg: Register, list: ReadList, phase: OpPhase,
                 replied: set<nat>, acked: set<nat>) {
    match phase
    case Idle =>
      reg.rid == 0 && reg.acks == 0 && list == map[] && replied == cfg.Ranks() && acked == cfg.Ranks()
    case Querying =>
      IsAsked(reg, isRead, rank) && reg.acks == 0 && list.Keys == replied && |list| <= cfg.n / 2 && acked == cfg.Ranks()
    case Imposing(tag) =>
      IsAsked(reg, isRead, rank) && QueryDone(cfg, list, replied) && reg.acks == |acked| && |acked| <= cfg.n / 2
    case Responded(None) =>
      isRead && IsAsked(reg, isRead, rank) && QueryDone(cfg, list, replied) && reg.acks == 0 && acked == cfg.Ranks()
    case Responded(Some(_)) =>
      IsAsked(reg, isRead, rank) && QueryDone(cfg, list, replied) && reg.acks + cfg.n / 2 + 1 == |acked|
  }

  ghost predicate OpInv(cfg: Config, s: System, op: OpId)
    requires HasShape(cfg, s) && op in s.ops
  {
    var node := s.nodes[op.1];
    && (s.ops[op].phase.Idle? <==> !Started(s, op.1) || op.0 >= cfg.Planned())
    && OpOk(cfg, cfg.Reads(op.1, op.0), op.1, node.registers[op.0], node.readLists[op.0], s.ops[op].phase,
            Replied(cfg, s, op), Acked(cfg, s, op))
  }

  /** An acknowledged tag is held by the node that acknowledged it, or a larger one is. */
  ghost predicate AcksHold(cfg: Config, s: System, op: OpId)
    requires HasShape(cfg, s) && op in s.ops
  {
    s.ops[op].phase.HasTag() ==>
      forall j | j in Acked(cfg, s, op) :: TagAt(s, j, op.0).AtLeast(s.ops[op].phase.TheTag())
  }

  ghost predicate CurrentPacketInv(cfg: Config, s: System, p: Packet)
    requires HasShape(cfg, s) && IsCurrent(cfg, p)
  {
    && p.src in cfg.Ranks() && p.dst in cfg.Ranks() && p.msg.rid == 1 && p.msg.key < cfg.Planned()
    && var op := SlotOf(p).op; var phase := s.ops[op].phase;
       && !phase.Idle?
       && (p.msg.Value? ==> p.msg.senderRank == p.src)
       && (p.msg.Write? ==> phase.HasTag() && Tag(p.msg.ts, p.msg.wr) == phase.TheTag())
       && (p.msg.Ack? ==> phase.HasTag() && TagAt(s, p.src, p.msg.key).AtLeast(phase.TheTag()))
  }

  /** The message with which node `i` reports to the master. */
  function Report(cfg: Config, i: nat, trace: Trace): Packet {
    Packet(i, 0, if cfg.testing then TestDone(trace) else Done)
  }

  ghost predicate PacketInv(cfg: Config, s: System, p: Packet)
    requires HasShape(cfg, s)
  {
    if IsCurrent(cfg, p) then s.net[p] == 1 && CurrentPacketInv(cfg, s, p)
    else if p.msg.Run? then s.net[p] == 1 && p == RunPacket(p.dst) && p.dst in cfg.Ranks()
    else if p.msg.Done? || p.msg.TestDone? then
      s.net[p] == 1 && p.src in s.finished && p == Report(cfg, p.src, s.finished[p.src])
    else IsStale(cfg, p)
  }

  ghost predicate NetInv(cfg: Config, s: System)
    requires HasShape(cfg, s)
  {
    && (forall p | p in s.net :: PacketInv(cfg, s, p))
    && (forall p, q | p in s.net && q in s.net && IsCurrent(cfg, p) && IsCurrent(cfg, q) && SlotOf(p) == SlotOf(q) :: p == q)
  }

  /** The planned reads (or writes) of a node that have not been answered. */
  function Unanswered(cfg: Config, s: System, i: nat, isRead: bool): set<nat> {
    set k: nat | k in Below(cfg.Planned()) && cfg.Reads(i, k) == isRead
                 && ((k, i) in s.ops ==> !s.ops[(k, i)].phase.Responded?)
  }

  ghost predicate CountInv(cfg: Config, s: System, i: nat)
    requires HasShape(cfg, s) && i in cfg.Ranks()
  {
    var node := s.nodes[i];
    && (!Started(s, i) ==> node.readCount == 0 && node.writeCount == 0 && i !in s.finished)
    && (Started(s, i) ==>
          && node.readCount == |Unanswered(cfg, s, i, true)| && node.writeCount == |Unanswered(cfg, s, i, false)|
          && (i in s.finished <==> cfg.Planned() > 0 && node.readCount == 0 && node.writeCount == 0))
    && (i in s.finished ==> s.net[Report(cfg, i, s.finished[i])] == 1)
  }

  ghost predicate Inv(cfg: Config, s: System) {
    && HasShape(cfg, s) && NetInv(cfg, s)
    && (forall op | op in s.ops :: OpInv(cfg, s, op))
    && (forall op | op in s.ops :: AcksHold(cfg, s, op))
    && (forall i | i in cfg.Ranks() :: CountInv(cfg, s, i))
    && s.finished.Keys <= cfg.Ranks()
  }
}
