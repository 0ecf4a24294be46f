/** What a delivery does to one register and its read list, and which messages it puts on the network. */
module RegisterSpots {
  import opened Collections
  import opened Histories
  import opened RegisterNode
  import opened RegisterProtocol
  import opened RegisterSafety
  import opened RegisterEvents
  import opened RegisterInvariant
  import opened RegisterRuns
  import opened RegisterTheorems
  import opened RegisterDetails
  import opened RegisterValues

  /** A register of a node with its read list. */
  datatype Spot = Spot(reg: Register, list: ReadList)

  function SpotOf(s: System, o: OpId): Spot
    requires o.1 in s.nodes && o.0 in s.nodes[o.1].registers && o.0 in s.nodes[o.1].readLists
  {
    Spot(RegisterOf(s, o), ListOf(s, o))
  }

  function Noting(spot: Spot, m: Msg): Register
    requires m.Value?
  {
    NoteValue(spot.reg, spot.list == map[], m)
  }

  function Applying(r: Register, m: Msg): Register
    requires m.Write?
  {
    if Tag(m.ts, m.wr).Exceeds(r.GetTag()) then r.(ts := m.ts, wr := m.wr, value := m.value) else r
  }

  /** The message of event `e`, meant for the operation on this spot, and what it makes of the spot. */
  ghost predicate SpotMoves(cfg: Config, p: Packet, e: Event, spot: Spot, spot': Spot) {
    match e
    case Ignored => false
    case Invoked => false
    case Told => p.msg.Read? && spot' == spot
    case Applied => p.msg.Write? && spot' == Spot(Applying(spot.reg, p.msg), spot.list)
    case Noted => p.msg.Value? && spot' == Spot(Noting(spot, p.msg), spot.list[p.src := EntryOf(p.msg)])
    case Skipped =>
      && p.msg.Value? && Noting(spot, p.msg).skipImpose && |spot.list[p.src := EntryOf(p.msg)]| > cfg.n / 2
      && spot' == Spot(Noting(spot, p.msg).(value := Noting(spot, p.msg).readval), map[])
    case Imposed(tag) =>
      && p.msg.Value? && (spot.reg.reading ==> !Noting(spot, p.msg).skipImpose) && |spot.list[p.src := EntryOf(p.msg)]| > cfg.n / 2
      && exists max :: IsMaxEntry(spot.list[p.src := EntryOf(p.msg)], max)
                       && spot' == Spot(Noting(spot, p.msg).(readval := max.value), map[])
                       && tag == if cfg.Reads(p.dst, p.msg.key) then max.GetTag() else Tag(max.ts + 1, p.dst)
    case Counted => p.msg.Ack? && spot' == Spot(spot.reg.(acks := spot'.reg.acks), spot.list)
    case Completed => p.msg.Ack? && spot' == Spot(spot.reg.(acks := spot'.reg.acks), spot.list)
  }

  /** How a delivery moves the spot of one operation. */
  ghost predicate SpotStep(cfg: Config, p: Packet, e: Event, o: OpId, spot: Spot, spot': Spot) {
    if e.Invoked? then
      if o.1 == p.dst && o.0 < cfg.Planned()
      then spot' == Spot(if cfg.Reads(o.1, o.0) then Reading(spot.reg) else Writing(spot.reg, o.1), map[])
      else spot' == spot
    else if !e.Ignored? && IsProtocol(p.msg) && o == OpAt(p) then SpotMoves(cfg, p, e, spot, spot')
    else spot' == spot
  }

  lemma EventSpotMoves(cfg: Config, p: Packet, node: Node, phase: OpPhase, node': Node, phase': OpPhase, e: Event, sent: seq<Packet>)
    requires IsCurrent(cfg, p) && node.rank == p.dst && node.Knows(p.msg.key) && node'.Knows(p.msg.key)
    requires Reacts(cfg, p, node, phase, node', phase', e, sent) && Details(cfg, p, node, node', e, sent)
    ensures SpotMoves(cfg, p, e, Spot(node.registers[p.msg.key], node.readLists[p.msg.key]),
                      Spot(node'.registers[p.msg.key], node'.readLists[p.msg.key])) == true
  {
    if e.Imposed? {
      var max, value :| ChoosesFrom(cfg, node, p, max, e.tag, value)
                        && node'.registers[p.msg.key] == NotedAt(node, p).(readval := max.value);
      assert IsMaxEntry(node.readLists[p.msg.key][p.src := EntryOf(p.msg)], max);
    }
  }

  lemma EventSpot(cfg: Config, s: System, p: Packet, s': System, e: Event, sent: seq<Packet>, o: OpId)
    requires HasShape(cfg, s) && HasShape(cfg, s') && IsCurrent(cfg, p) && p.dst in s.nodes && s.nodes[p.dst].rank == p.dst && o in s.ops && o in s'.ops
    requires Happens(cfg, s, p, s', e, sent) == true && Details(cfg, p, s.nodes[p.dst], s'.nodes[p.dst], e, sent) == true
    requires Elsewhere(cfg, s, p, s') && !e.Invoked? && !e.Ignored?
    ensures SpotStep(cfg, p, e, o, SpotOf(s, o), SpotOf(s', o)) == true
  {
    if o == OpAt(p) {
      ReceiverSpot(cfg, s, p, s', e, sent);
    }
  }

  lemma ReceiverSpot(cfg: Config, s: System, p: Packet, s': System, e: Event, sent: seq<Packet>)
    requires HasShape(cfg, s) && HasShape(cfg, s') && IsCurrent(cfg, p) && p.dst in s.nodes && s.nodes[p.dst].rank == p.dst
    requires OpAt(p) in s.ops && OpAt(p) in s'.ops
    requires Happens(cfg, s, p, s', e, sent) && Details(cfg, p, s.nodes[p.dst], s'.nodes[p.dst], e, sent) == true
    ensures SpotMoves(cfg, p, e, SpotOf(s, OpAt(p)), SpotOf(s', OpAt(p))) == true
  {
    EventSpotMoves(cfg, p, s.nodes[p.dst], s.ops[OpAt(p)].phase, s'.nodes[p.dst], s'.ops[OpAt(p)].phase, e, sent);
  }

  lemma InvokedSpot(cfg: Config, s: System, i: nat, s': System, sent: seq<Packet>, o: OpId)
    requires HasShape(cfg, s) && HasShape(cfg, s') && i in cfg.Ranks() && Invokes(cfg, s, i, s', sent) && o in s.ops && o in s'.ops
    ensures SpotStep(cfg, RunPacket(i), Invoked, o, SpotOf(s, o), SpotOf(s', o)) == true
  {
    assert InvokesAt(cfg, i, s.nodes[i], s'.nodes[i]);
  }

  lemma EventSpots(cfg: Config, s: System, p: Packet, s': System, e: Event, sent: seq<Packet>, o: OpId)
    requires HasShape(cfg, s) && HasShape(cfg, s') && o in s.ops && o in s'.ops && !e.Invoked? && !e.Ignored?
    requires Inv(cfg, s) == true && Delivery(cfg, s, p, s', e, sent)
    ensures SpotStep(cfg, p, e, o, SpotOf(s, o), SpotOf(s', o)) == true
  {
    DeliveryDetails(cfg, s, p, s', e, sent);
    EventsAreLocal(cfg, s, p, s', e, sent);
    EventSpot(cfg, s, p, s', e, sent, o);
  }

  lemma DeliverySpot(cfg: Config, s: System, p: Packet, s': System, e: Event, sent: seq<Packet>, o: OpId)
    requires HasShape(cfg, s) && HasShape(cfg, s') && o in s.ops && o in s'.ops
    requires Inv(cfg, s) == true && Delivery(cfg, s, p, s', e, sent) == true
    ensures SpotStep(cfg, p, e, o, SpotOf(s, o), SpotOf(s', o)) == true
  {
    match e {
      case Ignored =>
      case Invoked => InvokedSpot(cfg, s, p.dst, s', sent, o);
      case _ => EventSpots(cfg, s, p, s', e, sent, o);
    }
  }

  /** Which events a message can cause. */
  ghost predicate Causes(cfg: Config, p: Packet, e: Event) {
    match p.msg
    case Run => e.Invoked?
    case Read(_, _, _) => e.Told? || e.Ignored?
    case Value(_, _, _, _, _, _, _) => e.Noted? || e.Skipped? || e.Imposed? || e.Ignored?
    case Write(_, _, _, _, _, _) => e.Applied? || e.Ignored?
    case Ack(_, _, _) => e.Counted? || e.Completed? || e.Ignored?
    case _ => false
  }

  lemma EventCauses(cfg: Config, p: Packet, node: Node, phase: OpPhase, node': Node, phase': OpPhase, e: Event, sent: seq<Packet>)
    requires IsCurrent(cfg, p) && Reacts(cfg, p, node, phase, node', phase', e, sent)
    ensures Causes(cfg, p, e)
  {
  }

  lemma DeliveryCauses(cfg: Config, s: System, p: Packet, s': System, e: Event, sent: seq<Packet>)
    requires Delivery(cfg, s, p, s', e, sent)
    ensures Causes(cfg, p, e) == true && p in s.net && (e.Ignored? <==> IsStale(cfg, p)) && s.now <= s'.now
    ensures p.dst in s.nodes && (p.msg.Run? ==> p == RunPacket(p.dst))
  {
    if !e.Ignored? && !e.Invoked? {
      EventCauses(cfg, p, s.nodes[p.dst], s.ops[OpAt(p)].phase, s'.nodes[p.dst], s'.ops[OpAt(p)].phase, e, sent);
    }
  }

  // Messages.

  /** A message of the run that event `e` sends. */
  ghost predicate MaySend(cfg: Config, p: Packet, e: Event, spot: Spot, q: Packet) {
    match e
    case Invoked => q.msg.Read? && q.src == p.dst && q.msg.key < cfg.Planned()
    case Told => p.msg.Read? && q == ReplyTo(p, spot.reg)
    case Applied => p.msg.Write? && q == AckTo(p)
    case Imposed(tag) => p.msg.Value? && q.msg.Write? && q.src == p.dst && q.msg.key == p.msg.key
    case _ => false
  }

  /** Messages of the run that are in flight were so before, or are sent by the delivery; only the delivered one is gone. */
  ghost predicate NetStep(cfg: Config, s: System, p: Packet, s': System, e: Event)
    requires HasShape(cfg, s)
  {
    && (forall q | q in s.net && q != p :: q in s'.net)
    && forall q | q in s'.net && IsCurrent(cfg, q) ::
         || (q in s.net && (q == p ==> s.net[p] > 1))
         || (e.Invoked? && MaySend(cfg, p, e, Spot(NewRegister, map[]), q))
         || (!e.Invoked? && IsProtocol(p.msg) && OpAt(p) in s.ops && MaySend(cfg, p, e, SpotOf(s, OpAt(p)), q))
  }

  lemma EventMaySend(cfg: Config, p: Packet, node: Node, phase: OpPhase, node': Node, phase': OpPhase, e: Event, sent: seq<Packet>, q: Packet)
    requires IsCurrent(cfg, p) && node.rank == p.dst && node.Knows(p.msg.key)
    requires Reacts(cfg, p, node, phase, node', phase', e, sent) && q in sent && IsCurrent(cfg, q)
    ensures MaySend(cfg, p, e, Spot(node.registers[p.msg.key], node.readLists[p.msg.key]), q) == true
  {
  }

  lemma NetHolds(net: multiset<Packet>, p: Packet, sent: seq<Packet>)
    requires p in net
    ensures forall q | q in net && q != p :: q in NetAfter(net, p, sent)
    ensures forall q | q in NetAfter(net, p, sent) :: q in sent || (q in net && (q == p ==> net[p] > 1))
  {
    forall q | q in NetAfter(net, p, sent) ensures q in sent || (q in net && (q == p ==> net[p] > 1)) {
      assert q !in sent ==> q !in multiset(sent);
    }
  }

  lemma EventNet(cfg: Config, s: System, p: Packet, s': System, e: Event, sent: seq<Packet>)
    requires HasShape(cfg, s) && IsCurrent(cfg, p) && p in s.net && p.dst in s.nodes && s.nodes[p.dst].rank == p.dst && OpAt(p) in s.ops
    requires Happens(cfg, s, p, s', e, sent) && !e.Invoked?
    ensures NetStep(cfg, s, p, s', e) == true
  {
    NetHolds(s.net, p, sent);
    forall q | q in sent && IsCurrent(cfg, q) ensures MaySend(cfg, p, e, SpotOf(s, OpAt(p)), q) == true {
      EventMaySend(cfg, p, s.nodes[p.dst], s.ops[OpAt(p)].phase, s'.nodes[p.dst], s'.ops[OpAt(p)].phase, e, sent, q);
    }
  }

  lemma InvokedNet(cfg: Config, s: System, i: nat, s': System, sent: seq<Packet>)
    requires HasShape(cfg, s) && i in cfg.Ranks() && RunPacket(i) in s.net && Invokes(cfg, s, i, s', sent)
    ensures NetStep(cfg, s, RunPacket(i), s', Invoked) == true
  {
    NetHolds(s.net, RunPacket(i), sent);
  }

  lemma InertNetStep(cfg: Config, s: System, p: Packet, s': System, sent: seq<Packet>)
    requires HasShape(cfg, s) && p in s.net && IsInert(cfg, s, p, s', sent)
    ensures NetStep(cfg, s, p, s', Ignored) == true
  {
    NetHolds(s.net, p, sent);
  }

  lemma EventNets(cfg: Config, s: System, p: Packet, s': System, e: Event, sent: seq<Packet>)
    requires Inv(cfg, s) == true && HasShape(cfg, s) && Delivery(cfg, s, p, s', e, sent) && !e.Invoked? && !e.Ignored?
    ensures NetStep(cfg, s, p, s', e) == true
  {
    DeliveryDetails(cfg, s, p, s', e, sent);
    EventNet(cfg, s, p, s', e, sent);
  }

  lemma DeliveryNet(cfg: Config, s: System, p: Packet, s': System, e: Event, sent: seq<Packet>)
    requires Inv(cfg, s) == true && HasShape(cfg, s) && Delivery(cfg, s, p, s', e, sent) == true
    ensures NetStep(cfg, s, p, s', e) == true
  {
    match e {
      case Ignored => InertNetStep(cfg, s, p, s', sent);
      case Invoked => InvokedNet(cfg, s, p.dst, s', sent);
      case _ => EventNets(cfg, s, p, s', e, sent);
    }
  }

  /** A request is answered at once. */
  lemma RequestIsAnswered(cfg: Config, s: System, p: Packet, s': System, e: Event, sent: seq<Packet>)
    requires HasShape(cfg, s) && IsCurrent(cfg, p) && p.msg.Read? && OpAt(p) in s.ops
    requires Delivery(cfg, s, p, s', e, sent)
    ensures ReplyTo(p, SpotOf(s, OpAt(p)).reg) in s'.net
  {
    EventCauses(cfg, p, s.nodes[p.dst], s.ops[OpAt(p)].phase, s'.nodes[p.dst], s'.ops[OpAt(p)].phase, e, sent);
    assert sent == [ReplyTo(p, SpotOf(s, OpAt(p)).reg)];
    assert sent[0] in multiset(sent);
  }
}
