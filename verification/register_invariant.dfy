/** Every event keeps the protocol's invariant. */
module RegisterInvariant {
  import opened Collections
  import opened Histories
  import opened RegisterNode
  import opened RegisterProtocol
  import opened RegisterSafety
  import opened RegisterEvents

  // What an event leaves alone.

  ghost predicate Elsewhere(cfg: Config, s: System, p: Packet, s': System)
    requires HasShape(cfg, s) && IsCurrent(cfg, p)
  {
    && HasShape(cfg, s') && s'.ops.Keys == s.ops.Keys && OpAt(p) in s.ops
    && (forall j | j in cfg.Ranks() && j != p.dst :: s'.nodes[j] == s.nodes[j])
    && (forall o | o in s.ops && o != OpAt(p) ::
          s'.ops[o] == s.ops[o] && RegisterOf(s', o) == RegisterOf(s, o) && ListOf(s', o) == ListOf(s, o))
    && (forall i | i in cfg.Ranks() :: Started(s', i) == Started(s, i))
  }

  /** Only a response may be followed by a report to the master. */
  ghost predicate SendsFit(cfg: Config, i: nat, e: Event, sent: seq<Packet>) {
    if e.Skipped? || e.Completed? then sent == [] || exists trace :: sent == [Report(cfg, i, trace)]
    else forall q | q in sent :: IsProtocol(q.msg)
  }

  lemma ReactionSends(cfg: Config, p: Packet, node: Node, phase: OpPhase, node': Node, phase': OpPhase, e: Event, sent: seq<Packet>)
    requires IsCurrent(cfg, p) && Reacts(cfg, p, node, phase, node', phase', e, sent)
    ensures SendsFit(cfg, node.rank, e, sent) == true
  {
  }

  lemma ReactionEvolves(cfg: Config, p: Packet, node: Node, phase: OpPhase, node': Node, phase': OpPhase, e: Event, sent: seq<Packet>)
    requires IsCurrent(cfg, p) && Reacts(cfg, p, node, phase, node', phase', e, sent)
    ensures phase'.Idle? ==> phase.Idle?
    ensures phase.HasTag() ==> phase'.HasTag() && phase'.TheTag() == phase.TheTag()
    ensures OnlyAt(node, p.msg.key, node') == true
    ensures node'.registers[p.msg.key].GetTag().AtLeast(node.registers[p.msg.key].GetTag())
  {
  }

  lemma NoRunSent(cfg: Config, s: System, p: Packet, s': System, e: Event, sent: seq<Packet>, i: nat)
    requires IsCurrent(cfg, p) && p in s.net && s'.net == NetAfter(s.net, p, sent) && SendsFit(cfg, p.dst, e, sent)
    ensures Started(s', i) == Started(s, i)
  {
    assert RunPacket(i) !in sent;
    assert RunPacket(i) !in multiset(sent);
  }

  lemma MovesKeepShape(cfg: Config, s: System, p: Packet, s': System, sent: seq<Packet>)
    requires HasShape(cfg, s) && IsCurrent(cfg, p) && Moved(s, p, s', sent)
    requires OnlyAt(s.nodes[p.dst], p.msg.key, s'.nodes[p.dst])
    ensures HasShape(cfg, s') && s'.ops.Keys == s.ops.Keys
  {
    assert s'.nodes.Keys == s.nodes.Keys;
    assert s'.ops.Keys == s.ops.Keys;
    assert NodeShape(cfg, p.dst, s'.nodes[p.dst]);
  }

  lemma MovesAreLocal(cfg: Config, s: System, p: Packet, s': System, sent: seq<Packet>)
    requires HasShape(cfg, s) && HasShape(cfg, s') && s'.ops.Keys == s.ops.Keys && IsCurrent(cfg, p) && Moved(s, p, s', sent)
    requires OnlyAt(s.nodes[p.dst], p.msg.key, s'.nodes[p.dst])
    requires forall i | i in cfg.Ranks() :: Started(s', i) == Started(s, i)
    ensures Elsewhere(cfg, s, p, s') == true
  {
    forall o | o in s.ops && o != OpAt(p)
      ensures s'.ops[o] == s.ops[o] && RegisterOf(s', o) == RegisterOf(s, o) && ListOf(s', o) == ListOf(s, o)
    {
      OtherOpStays(cfg, s, p, s', sent, o);
    }
  }

  lemma OtherOpStays(cfg: Config, s: System, p: Packet, s': System, sent: seq<Packet>, o: OpId)
    requires HasShape(cfg, s) && HasShape(cfg, s') && IsProtocol(p.msg) && Moved(s, p, s', sent) && o in s.ops && o in s'.ops && o != OpAt(p)
    requires OnlyAt(s.nodes[p.dst], p.msg.key, s'.nodes[p.dst])
    ensures s'.ops[o] == s.ops[o] && RegisterOf(s', o) == RegisterOf(s, o) && ListOf(s', o) == ListOf(s, o)
  {
  }

  lemma EventsAreLocal(cfg: Config, s: System, p: Packet, s': System, e: Event, sent: seq<Packet>)
    requires HasShape(cfg, s) == true && IsCurrent(cfg, p) && p in s.net && Happens(cfg, s, p, s', e, sent) == true
    ensures Elsewhere(cfg, s, p, s') == true
  {
    var node, phase, node', phase' := s.nodes[p.dst], s.ops[OpAt(p)].phase, s'.nodes[p.dst], s'.ops[OpAt(p)].phase;
    ReactionEvolves(cfg, p, node, phase, node', phase', e, sent);
    ReactionSends(cfg, p, node, phase, node', phase', e, sent);
    assert node.rank == p.dst;
    forall i | i in cfg.Ranks() ensures Started(s', i) == Started(s, i) {
      NoRunSent(cfg, s, p, s', e, sent, i);
    }
    MovesKeepShape(cfg, s, p, s', sent);
    MovesAreLocal(cfg, s, p, s', sent);
  }

  /** The operation that responds is the reason why its node has not finished. */
  lemma OpenReceiver(cfg: Config, s: System, p: Packet)
    requires Inv(cfg, s) && IsCurrent(cfg, p) && p in s.net && OpAt(p) in s.ops
    requires (p.msg.Value? && s.ops[OpAt(p)].phase.Querying?) || (p.msg.Ack? && s.ops[OpAt(p)].phase.Imposing?)
    ensures p.dst !in s.finished && OpAt(p).0 < cfg.Planned() && Started(s, p.dst)
  {
    RepliesFit(cfg, s, p);
    OpenOpIsCounted(cfg, s, OpAt(p));
  }

  /** Which messages and phases lead to an event. */
  ghost predicate Occurs(p: Packet, phase: OpPhase, e: Event)
    requires IsProtocol(p.msg)
  {
    match e
    case Ignored => false
    case Invoked => false
    case Told => p.msg.Read?
    case Applied => p.msg.Write?
    case Noted => p.msg.Value?
    case Skipped => p.msg.Value? && phase.Querying?
    case Imposed(_) => p.msg.Value? && phase.Querying?
    case Counted => p.msg.Ack?
    case Completed => p.msg.Ack? && phase.Imposing?
  }

  lemma ReactionOccurs(cfg: Config, p: Packet, node: Node, phase: OpPhase, node': Node, phase': OpPhase, e: Event, sent: seq<Packet>)
    requires IsCurrent(cfg, p) && Reacts(cfg, p, node, phase, node', phase', e, sent)
    ensures Occurs(p, phase, e) == true
    ensures p.msg.Write? ==> SlotOf(p) in SentSlots(cfg, sent)
  {
    assert p.msg.Write? ==> IsCurrent(cfg, AckTo(p)) && AckTo(p) in sent;
  }

  lemma ResponderIsOpen(cfg: Config, s: System, p: Packet, e: Event)
    requires Inv(cfg, s) == true && IsCurrent(cfg, p) && p in s.net && OpAt(p) in s.ops && Occurs(p, s.ops[OpAt(p)].phase, e)
    ensures e.Skipped? || e.Completed? ==> p.dst !in s.finished && OpAt(p).0 < cfg.Planned() && Started(s, p.dst)
  {
    if e.Skipped? || e.Completed? {
      OpenReceiver(cfg, s, p);
    }
  }

  lemma FinishedAfter(cfg: Config, s: System, p: Packet, s': System, e: Event, sent: seq<Packet>)
    requires IsProtocol(p.msg) && Moved(s, p, s', sent) && SendsFit(cfg, p.dst, e, sent)
    requires e.Skipped? || e.Completed? ==> p.dst !in s.finished
    ensures s'.finished == s.finished || (e.Skipped? || e.Completed?)
    ensures forall i | i in s.finished :: i in s'.finished && s'.finished[i] == s.finished[i]
    ensures forall i | i != p.dst :: i in s'.finished <==> i in s.finished
  {
    assert sent != [] ==> sent[|sent| - 1] in sent;
  }

  lemma EventsEvolve(cfg: Config, s: System, p: Packet, s': System, e: Event, sent: seq<Packet>)
    requires HasShape(cfg, s) && IsCurrent(cfg, p) && Happens(cfg, s, p, s', e, sent) == true
    requires Elsewhere(cfg, s, p, s') == true && OpAt(p) in s'.ops && s.nodes[p.dst].rank == p.dst
    requires e.Skipped? || e.Completed? ==> p.dst !in s.finished
    ensures Evolves(cfg, s, s') == true
  {
    var node, phase, node', phase' := s.nodes[p.dst], s.ops[OpAt(p)].phase, s'.nodes[p.dst], s'.ops[OpAt(p)].phase;
    ReactionSends(cfg, p, node, phase, node', phase', e, sent);
    FinishedAfter(cfg, s, p, s', e, sent);
    ReactionEvolves(cfg, p, node, phase, node', phase', e, sent);
    LocalMovesEvolve(cfg, s, p, s');
  }

  lemma LocalMovesEvolve(cfg: Config, s: System, p: Packet, s': System)
    requires HasShape(cfg, s) && IsCurrent(cfg, p) && Elsewhere(cfg, s, p, s')
    requires var phase, phase' := s.ops[OpAt(p)].phase, s'.ops[OpAt(p)].phase;
             && (phase'.Idle? ==> phase.Idle?)
             && (phase.HasTag() ==> phase'.HasTag() && phase'.TheTag() == phase.TheTag())
    requires RegisterOf(s', OpAt(p)).GetTag().AtLeast(RegisterOf(s, OpAt(p)).GetTag())
    requires forall i | i in s.finished :: i in s'.finished && s'.finished[i] == s.finished[i]
    ensures Evolves(cfg, s, s') == true
  {
    forall j, k: nat | j in cfg.Ranks() && k < cfg.numKeys
      ensures TagAt(s', j, k).AtLeast(TagAt(s, j, k))
    {
      if (k, j) != OpAt(p) {
        assert (k, j) in s.ops && RegisterOf(s', (k, j)) == RegisterOf(s, (k, j));
      }
    }
  }

  // The slots in use.

  function ImposeSlots(cfg: Config, o: OpId): set<Slot> {
    set j | j in cfg.Ranks() :: Impose(o, j)
  }

  /** The slots in use after an event: a request's slot goes to its reply, a reply's slot becomes free. */
  function SlotsAfter(cfg: Config, net: multiset<Packet>, p: Packet, e: Event): set<Slot>
    requires IsCurrent(cfg, p)
  {
    if e.Told? || e.Applied? then Flying(cfg, net)
    else if e.Imposed? then Flying(cfg, net) - {SlotOf(p)} + ImposeSlots(cfg, OpAt(p))
    else Flying(cfg, net) - {SlotOf(p)}
  }

  lemma BroadcastSlots(cfg: Config, o: OpId, tag: Tag, value: nat)
    ensures SentSlots(cfg, BcastOf(cfg, o, tag, value)) == ImposeSlots(cfg, o)
    ensures forall a, b | 0 <= a < b < cfg.n :: SlotOf(BcastOf(cfg, o, tag, value)[a]) != SlotOf(BcastOf(cfg, o, tag, value)[b])
  {
    var sent := BcastOf(cfg, o, tag, value);
    forall j | j in cfg.Ranks() ensures Impose(o, j) in SentSlots(cfg, sent) {
      assert sent[j - 1] in sent && SlotOf(sent[j - 1]) == Impose(o, j);
    }
  }

  lemma SlotsOfBroadcast(cfg: Config, net: multiset<Packet>, p: Packet, tag: Tag, value: nat)
    requires IsCurrent(cfg, p) && p in net && UniqueSlots(cfg, net)
    requires forall j | j in cfg.Ranks() :: Impose(OpAt(p), j) !in Flying(cfg, net)
    ensures FreshSends(cfg, net, p, BcastOf(cfg, OpAt(p), tag, value)) == true
    ensures Flying(cfg, NetAfter(net, p, BcastOf(cfg, OpAt(p), tag, value))) == Flying(cfg, net) - {SlotOf(p)} + ImposeSlots(cfg, OpAt(p))
  {
    var sent := BcastOf(cfg, OpAt(p), tag, value);
    FlyingAfter(cfg, net, p, sent);
    BroadcastSlots(cfg, OpAt(p), tag, value);
    forall q | q in sent && IsCurrent(cfg, q)
      ensures SlotOf(q) !in Flying(cfg, net)
    {
      assert SlotOf(q) in SentSlots(cfg, sent);
    }
  }

  lemma SlotsOfOne(cfg: Config, net: multiset<Packet>, p: Packet, sent: seq<Packet>)
    requires IsCurrent(cfg, p) && p in net && UniqueSlots(cfg, net) && |sent| <= 1
    requires sent != [] && IsCurrent(cfg, sent[0]) ==> SlotOf(sent[0]) == SlotOf(p)
    ensures FreshSends(cfg, net, p, sent) == true
    ensures Flying(cfg, NetAfter(net, p, sent)) ==
            if sent != [] && IsCurrent(cfg, sent[0]) then Flying(cfg, net) else Flying(cfg, net) - {SlotOf(p)}
  {
    FlyingAfter(cfg, net, p, sent);
    assert SlotOf(p) in Flying(cfg, net);
    if sent != [] {
      assert sent == [sent[0]];
      assert IsCurrent(cfg, sent[0]) ==> SentSlots(cfg, sent) == {SlotOf(p)};
      assert !IsCurrent(cfg, sent[0]) ==> SentSlots(cfg, sent) == {};
    } else {
      assert SentSlots(cfg, sent) == {};
    }
  }

  /** The receiver's sends are fresh when the imposing slots of its querying operation are free. */
  lemma SlotsOfReaction(cfg: Config, net: multiset<Packet>, p: Packet, node: Node, phase: OpPhase, node': Node,
                        phase': OpPhase, e: Event, sent: seq<Packet>)
    requires IsCurrent(cfg, p) && p in net && UniqueSlots(cfg, net) == true && node.rank == p.dst
    requires Reacts(cfg, p, node, phase, node', phase', e, sent)
    requires phase.Querying? ==> forall j | j in cfg.Ranks() :: Impose(OpAt(p), j) !in Flying(cfg, net)
    ensures FreshSends(cfg, net, p, sent) == true
    ensures Flying(cfg, NetAfter(net, p, sent)) == SlotsAfter(cfg, net, p, e)
  {
    if e.Imposed? {
      var value :| sent == BcastOf(cfg, OpAt(p), e.tag, value);
      SlotsOfBroadcast(cfg, net, p, e.tag, value);
    } else {
      SlotsOfOne(cfg, net, p, sent);
    }
  }

  /** What the slots of the messages sent depend on. */
  ghost predicate SlotsFit(cfg: Config, s: System, p: Packet)
    requires IsCurrent(cfg, p)
  {
    && UniqueSlots(cfg, s.net) && p in s.net && p.dst in s.nodes && s.nodes[p.dst].rank == p.dst && OpAt(p) in s.ops
    && (s.ops[OpAt(p)].phase.Querying? ==> forall j | j in cfg.Ranks() :: Impose(OpAt(p), j) !in Flying(cfg, s.net))
  }

  lemma ReceiverSlotsFit(cfg: Config, s: System, p: Packet)
    requires Inv(cfg, s) && IsCurrent(cfg, p) && p in s.net && p.dst in s.nodes && OpAt(p) in s.ops
    ensures SlotsFit(cfg, s, p) == true
  {
    NetMeansUnique(cfg, s);
    var o := OpAt(p);
    assert OpInv(cfg, s, o);
    assert s.ops[o].phase.Querying? ==> forall j | j in cfg.Ranks() :: j in Acked(cfg, s, o) && Impose(o, j) !in Flying(cfg, s.net);
  }

  lemma EventSlots(cfg: Config, s: System, p: Packet, s': System, e: Event, sent: seq<Packet>)
    requires IsCurrent(cfg, p) && SlotsFit(cfg, s, p) && Happens(cfg, s, p, s', e, sent) == true
    ensures FreshSends(cfg, s.net, p, sent) == true && s'.net == NetAfter(s.net, p, sent)
    ensures Flying(cfg, s'.net) == SlotsAfter(cfg, s.net, p, e)
  {
    var o := OpAt(p);
    SlotsOfReaction(cfg, s.net, p, s.nodes[p.dst], s.ops[o].phase, s'.nodes[p.dst], s'.ops[o].phase, e, sent);
  }

  // The messages sent.

  /** The parts of the invariant that the sent messages depend on. */
  ghost predicate SenderFits(cfg: Config, s: System, p: Packet, s': System, e: Event)
    requires HasShape(cfg, s) && IsCurrent(cfg, p)
  {
    && Evolves(cfg, s, s') && CurrentPacketInv(cfg, s, p) && p.dst in cfg.Ranks()
    && (e.Skipped? || e.Completed? ==> p.dst !in s.finished)
  }

  lemma ReplySent(cfg: Config, s: System, p: Packet, s': System, e: Event, sent: seq<Packet>)
    requires HasShape(cfg, s) && IsCurrent(cfg, p) && SenderFits(cfg, s, p, s', e)
    requires s.nodes[p.dst].rank == p.dst && OpAt(p) in s.ops && OpAt(p) in s'.ops
    requires Reacts(cfg, p, s.nodes[p.dst], s.ops[OpAt(p)].phase, s'.nodes[p.dst], s'.ops[OpAt(p)].phase, e, sent)
    requires e.Told? || e.Applied?
    ensures |sent| == 1 && GoodSend(cfg, s, s', sent, sent[0])
  {
  }

  lemma BroadcastSent(cfg: Config, s: System, p: Packet, s': System, tag: Tag, value: nat, q: Packet)
    requires HasShape(cfg, s) && HasShape(cfg, s') && IsCurrent(cfg, p) && CurrentPacketInv(cfg, s, p)
    requires OpAt(p) in s'.ops && s'.ops[OpAt(p)].phase == Imposing(tag) && p.dst in cfg.Ranks()
    requires q in BcastOf(cfg, OpAt(p), tag, value)
    ensures IsCurrent(cfg, q) && CurrentPacketInv(cfg, s', q)
  {
  }

  lemma ReportSent(cfg: Config, s: System, p: Packet, s': System, e: Event, sent: seq<Packet>)
    requires HasShape(cfg, s) && HasShape(cfg, s') && IsCurrent(cfg, p) && SendsFit(cfg, p.dst, e, sent)
    requires s'.finished == ObservedFinish(s, p, sent) && (e.Skipped? || e.Completed?) && p.dst !in s.finished && sent != []
    ensures |sent| == 1 && GoodSend(cfg, s, s', sent, sent[0])
  {
    var trace :| sent == [Report(cfg, p.dst, trace)];
  }

  lemma EventSends(cfg: Config, s: System, p: Packet, s': System, e: Event, sent: seq<Packet>, q: Packet)
    requires HasShape(cfg, s) == true && IsCurrent(cfg, p) && SenderFits(cfg, s, p, s', e) == true
    requires Happens(cfg, s, p, s', e, sent) == true && s.nodes[p.dst].rank == p.dst && q in sent
    ensures HasShape(cfg, s') && GoodSend(cfg, s, s', sent, q) == true
  {
    var o := OpAt(p);
    if e.Skipped? || e.Completed? {
      ReactionSends(cfg, p, s.nodes[p.dst], s.ops[o].phase, s'.nodes[p.dst], s'.ops[o].phase, e, sent);
      ReportSent(cfg, s, p, s', e, sent);
    } else if e.Imposed? {
      var value :| sent == BcastOf(cfg, o, e.tag, value);
      BroadcastSent(cfg, s, p, s', e.tag, value, q);
    } else if sent != [] {
      assert e.Told? || e.Applied?;
      ReplySent(cfg, s, p, s', e, sent);
    }
  }

  // Each operation.

  lemma OtherSlotsKept(cfg: Config, s: System, p: Packet, s': System, e: Event, o: OpId)
    requires IsCurrent(cfg, p) && o != OpAt(p) && Flying(cfg, s'.net) == SlotsAfter(cfg, s.net, p, e)
    requires p.msg.Read? || p.msg.Write? ==> e.Told? || e.Applied?
    ensures Replied(cfg, s', o) == Replied(cfg, s, o) && Acked(cfg, s', o) == Acked(cfg, s, o)
  {
    assert forall j :: Query(o, j) in Flying(cfg, s'.net) <==> Query(o, j) in Flying(cfg, s.net);
    assert forall j :: Impose(o, j) in Flying(cfg, s'.net) <==> Impose(o, j) in Flying(cfg, s.net);
  }

  lemma OthersKept(cfg: Config, s: System, p: Packet, s': System, e: Event, o: OpId)
    requires HasShape(cfg, s) && IsCurrent(cfg, p) && o in s.ops && o != OpAt(p) && OpInv(cfg, s, o) == true
    requires Elsewhere(cfg, s, p, s') && Flying(cfg, s'.net) == SlotsAfter(cfg, s.net, p, e)
    requires p.msg.Read? || p.msg.Write? ==> e.Told? || e.Applied?
    ensures o in s'.ops && OpInv(cfg, s', o) == true
  {
    OtherSlotsKept(cfg, s, p, s', e, o);
    OpKept(cfg, s, s', o);
  }

  /** The replies that have arrived at the receiver's operation, after an event. */
  lemma RepliedAfter(cfg: Config, s: System, p: Packet, s': System, e: Event)
    requires IsCurrent(cfg, p) && p.src in cfg.Ranks()
    requires Flying(cfg, s'.net) == SlotsAfter(cfg, s.net, p, e)
    ensures e.Told? || e.Applied? ==>
      Replied(cfg, s', OpAt(p)) == Replied(cfg, s, OpAt(p)) && Acked(cfg, s', OpAt(p)) == Acked(cfg, s, OpAt(p))
    ensures p.msg.Value? && (e.Noted? || e.Skipped?) ==>
      Replied(cfg, s', OpAt(p)) == Replied(cfg, s, OpAt(p)) + {p.src} && Acked(cfg, s', OpAt(p)) == Acked(cfg, s, OpAt(p))
    ensures p.msg.Value? && e.Imposed? ==>
      Replied(cfg, s', OpAt(p)) == Replied(cfg, s, OpAt(p)) + {p.src} && Acked(cfg, s', OpAt(p)) == {}
    ensures p.msg.Ack? && (e.Counted? || e.Completed?) ==>
      Replied(cfg, s', OpAt(p)) == Replied(cfg, s, OpAt(p)) && Acked(cfg, s', OpAt(p)) == Acked(cfg, s, OpAt(p)) + {p.src}
  {
  }

  /** The arithmetic of the majorities: the register fits its next phase after a reply. */
  lemma ExtendedSize(node: Node, p: Packet, replied: set<nat>)
    requires p.msg.Value? && node.Knows(p.msg.key) && p.src !in replied
    ensures Extended(node, p).Keys == node.readLists[p.msg.key].Keys + {p.src}
    ensures |node.readLists[p.msg.key].Keys| == |node.readLists[p.msg.key]|
    ensures p.src !in node.readLists[p.msg.key].Keys ==> |Extended(node, p)| == |node.readLists[p.msg.key]| + 1
    ensures |replied + {p.src}| == |replied| + 1
  {
    var list, full := node.readLists[p.msg.key], Extended(node, p);
    assert full.Keys == list.Keys + {p.src};
    assert |full| == |full.Keys| && |list| == |list.Keys|;
  }

  lemma ValueKeepsOp(cfg: Config, p: Packet, node: Node, phase: OpPhase, node': Node, phase': OpPhase, e: Event,
                     sent: seq<Packet>, replied: set<nat>, acked: set<nat>, acked': set<nat>)
    requires IsCurrent(cfg, p) && p.msg.Value? && node.rank == p.dst && node.Knows(p.msg.key)
    requires Reacts(cfg, p, node, phase, node', phase', e, sent)
    requires OpOk(cfg, cfg.Reads(p.dst, p.msg.key), p.dst, node.registers[p.msg.key], node.readLists[p.msg.key], phase, replied, acked)
    requires p.src !in replied && !phase.Idle? && acked' == if e.Imposed? then {} else acked
    requires |Extended(node, p)| > cfg.n / 2 && phase.Querying? ==> |Extended(node, p)| == cfg.n / 2 + 1
    ensures OpOk(cfg, cfg.Reads(p.dst, p.msg.key), p.dst, node'.registers[p.msg.key], node'.readLists[p.msg.key], phase',
                 replied + {p.src}, acked') == true
  {
    ExtendedSize(node, p, replied);
    assert !phase.Querying? ==> node.readLists[p.msg.key].Keys <= replied;
  }

  /** The same after an acknowledgement. */
  lemma AckKeepsOp(cfg: Config, p: Packet, node: Node, phase: OpPhase, node': Node, phase': OpPhase, e: Event,
                   sent: seq<Packet>, replied: set<nat>, acked: set<nat>)
    requires IsCurrent(cfg, p) && p.msg.Ack? && node.rank == p.dst && node.Knows(p.msg.key)
    requires Reacts(cfg, p, node, phase, node', phase', e, sent)
    requires OpOk(cfg, cfg.Reads(p.dst, p.msg.key), p.dst, node.registers[p.msg.key], node.readLists[p.msg.key], phase, replied, acked)
    requires p.src !in acked && phase.HasTag()
    ensures OpOk(cfg, cfg.Reads(p.dst, p.msg.key), p.dst, node'.registers[p.msg.key], node'.readLists[p.msg.key], phase',
                 replied, acked + {p.src}) == true
  {
    assert |acked + {p.src}| == |acked| + 1;
  }

  /** Answering a request does not touch the replica's own operation. */
  lemma RequestKeepsOp(cfg: Config, p: Packet, node: Node, phase: OpPhase, node': Node, phase': OpPhase, e: Event,
                       sent: seq<Packet>, replied: set<nat>, acked: set<nat>)
    requires IsCurrent(cfg, p) && (p.msg.Read? || p.msg.Write?) && node.rank == p.dst && node.Knows(p.msg.key)
    requires Reacts(cfg, p, node, phase, node', phase', e, sent)
    requires OpOk(cfg, cfg.Reads(p.dst, p.msg.key), p.dst, node.registers[p.msg.key], node.readLists[p.msg.key], phase, replied, acked)
    ensures OpOk(cfg, cfg.Reads(p.dst, p.msg.key), p.dst, node'.registers[p.msg.key], node'.readLists[p.msg.key], phase',
                 replied, acked) == true
  {
  }

  lemma ReceiverKept(cfg: Config, s: System, p: Packet, s': System, e: Event, sent: seq<Packet>)
    requires HasShape(cfg, s) && IsCurrent(cfg, p) && OpAt(p) in s.ops && OpInv(cfg, s, OpAt(p)) && p.src in cfg.Ranks()
    requires p.msg.Value? || p.msg.Ack? ==> ReplyFits(cfg, s, p)
    requires Elsewhere(cfg, s, p, s') && Flying(cfg, s'.net) == SlotsAfter(cfg, s.net, p, e)
    requires Reacts(cfg, p, s.nodes[p.dst], s.ops[OpAt(p)].phase, s'.nodes[p.dst], s'.ops[OpAt(p)].phase, e, sent) == true
    requires Occurs(p, s.ops[OpAt(p)].phase, e)
    ensures OpInv(cfg, s', OpAt(p)) == true
  {
    var o := OpAt(p);
    var node, phase, node', phase' := s.nodes[p.dst], s.ops[o].phase, s'.nodes[p.dst], s'.ops[o].phase;
    RepliedAfter(cfg, s, p, s', e);
    if p.msg.Value? {
      RepliesAreBounded(cfg, s, p);
      ValueKeepsOp(cfg, p, node, phase, node', phase', e, sent, Replied(cfg, s, o), Acked(cfg, s, o), Acked(cfg, s', o));
    } else if p.msg.Ack? {
      AckKeepsOp(cfg, p, node, phase, node', phase', e, sent, Replied(cfg, s, o), Acked(cfg, s, o));
    } else {
      RequestKeepsOp(cfg, p, node, phase, node', phase', e, sent, Replied(cfg, s, o), Acked(cfg, s, o));
    }
    ReactionKeepsIdle(cfg, p, node, phase, node', phase', e, sent);
  }

  lemma ReactionKeepsIdle(cfg: Config, p: Packet, node: Node, phase: OpPhase, node': Node, phase': OpPhase, e: Event, sent: seq<Packet>)
    requires IsCurrent(cfg, p) && Reacts(cfg, p, node, phase, node', phase', e, sent)
    ensures phase'.Idle? == phase.Idle?
  {
  }

  // The counters.

  lemma UnansweredAfter(cfg: Config, s: System, s': System, o: OpId)
    requires o in s.ops && s'.ops.Keys == s.ops.Keys && o.0 < cfg.Planned()
    requires forall o' | o' in s.ops && o' != o :: s'.ops[o'] == s.ops[o']
    requires !s.ops[o].phase.Responded? && s'.ops[o].phase.Responded?
    ensures |Unanswered(cfg, s', o.1, cfg.Reads(o.1, o.0))| == |Unanswered(cfg, s, o.1, cfg.Reads(o.1, o.0))| - 1
    ensures Unanswered(cfg, s', o.1, !cfg.Reads(o.1, o.0)) == Unanswered(cfg, s, o.1, !cfg.Reads(o.1, o.0))
  {
    var isRead := cfg.Reads(o.1, o.0);
    assert o.0 in Unanswered(cfg, s, o.1, isRead);
    assert Unanswered(cfg, s', o.1, isRead) == Unanswered(cfg, s, o.1, isRead) - {o.0};
  }

  lemma ResponderReports(cfg: Config, s: System, s': System, p: Packet, sent: seq<Packet>)
    requires HasShape(cfg, s) && NetInv(cfg, s) && HasShape(cfg, s') && IsProtocol(p.msg) && p.dst in s.nodes && p in s.net
    requires p.dst !in s.finished && s'.finished == ObservedFinish(s, p, sent) && s'.net == NetAfter(s.net, p, sent)
    requires Answers(cfg, s.nodes[p.dst], p.msg.key, s'.nodes[p.dst], sent) && s.nodes[p.dst].rank == p.dst
    ensures p.dst in s'.finished <==> s'.nodes[p.dst].readCount == 0 && s'.nodes[p.dst].writeCount == 0
    ensures p.dst in s'.finished ==> s'.net[Report(cfg, p.dst, s'.finished[p.dst])] == 1
  {
    if sent != [] {
      var trace :| sent == [Report(cfg, p.dst, trace)];
      ReportsAreFinished(cfg, s, sent[0]);
    }
  }

  lemma ReactionKeepsCounts(cfg: Config, p: Packet, node: Node, phase: OpPhase, node': Node, phase': OpPhase, e: Event, sent: seq<Packet>)
    requires IsCurrent(cfg, p) && Reacts(cfg, p, node, phase, node', phase', e, sent)
    ensures if e.Skipped? || e.Completed? then
              Answers(cfg, node, p.msg.key, node', sent) && !phase.Responded? && phase'.Responded?
            else StaysQuiet(node, node', sent) && phase'.Responded? == phase.Responded?
  {
  }

  lemma ResponderCounts(cfg: Config, s: System, p: Packet, s': System, sent: seq<Packet>)
    requires HasShape(cfg, s) && IsCurrent(cfg, p) && p.dst in cfg.Ranks() && p in s.net && HasShape(cfg, s')
    requires OpAt(p) in s.ops && s'.ops.Keys == s.ops.Keys && forall o | o in s.ops && o != OpAt(p) :: s'.ops[o] == s.ops[o]
    requires NetInv(cfg, s) == true && CountInv(cfg, s, p.dst)
    requires p.dst !in s.finished && OpAt(p).0 < cfg.Planned() && Started(s, p.dst) && Started(s', p.dst)
    requires s'.finished == ObservedFinish(s, p, sent) && s'.net == NetAfter(s.net, p, sent)
    requires Answers(cfg, s.nodes[p.dst], p.msg.key, s'.nodes[p.dst], sent) == true
    requires !s.ops[OpAt(p)].phase.Responded? && s'.ops[OpAt(p)].phase.Responded?
    ensures CountInv(cfg, s', p.dst) == true
  {
    UnansweredAfter(cfg, s, s', OpAt(p));
    ResponderReports(cfg, s, s', p, sent);
  }

  lemma QuietCounts(cfg: Config, s: System, p: Packet, s': System, sent: seq<Packet>, i: nat)
    requires HasShape(cfg, s) && IsCurrent(cfg, p) && p.dst in cfg.Ranks() && p in s.net && Elsewhere(cfg, s, p, s')
    requires i in cfg.Ranks() && CountInv(cfg, s, i) == true && s'.net == NetAfter(s.net, p, sent)
    requires i == p.dst ==> StaysQuiet(s.nodes[i], s'.nodes[i], sent)
    requires i == p.dst ==> s'.ops[OpAt(p)].phase.Responded? == s.ops[OpAt(p)].phase.Responded?
    requires forall q | q in sent && q.src != p.dst :: IsProtocol(q.msg)
    requires i in s'.finished <==> i in s.finished
    requires i in s.finished ==> s'.finished[i] == s.finished[i]
    ensures CountInv(cfg, s', i) == true
  {
    CountKept(cfg, s, s', p, sent, i);
  }

  /** The counters of every node after an event, from what the event did to its receiver. */
  /** What an event does to the counters and reports; `responds` when it answers an operation. */
  ghost predicate CountsMove(cfg: Config, s: System, p: Packet, s': System, responds: bool, sent: seq<Packet>)
    requires HasShape(cfg, s) && IsCurrent(cfg, p)
  {
    && p.dst in cfg.Ranks() && p in s.net && Elsewhere(cfg, s, p, s') && OpAt(p) in s'.ops
    && s'.net == NetAfter(s.net, p, sent) && s'.finished == ObservedFinish(s, p, sent)
    && (if responds then
          && Answers(cfg, s.nodes[p.dst], p.msg.key, s'.nodes[p.dst], sent)
          && !s.ops[OpAt(p)].phase.Responded? && s'.ops[OpAt(p)].phase.Responded?
          && p.dst !in s.finished && OpAt(p).0 < cfg.Planned() && Started(s, p.dst)
        else
          && StaysQuiet(s.nodes[p.dst], s'.nodes[p.dst], sent)
          && s'.ops[OpAt(p)].phase.Responded? == s.ops[OpAt(p)].phase.Responded?
          && s'.finished == s.finished)
    && (forall q | q in sent && q.src != p.dst :: IsProtocol(q.msg))
    && (forall j | j in s.finished :: j in s'.finished && s'.finished[j] == s.finished[j])
    && (forall j | j != p.dst :: j in s'.finished <==> j in s.finished)
  }

  lemma EventCounts(cfg: Config, s: System, p: Packet, s': System, responds: bool, sent: seq<Packet>, i: nat)
    requires HasShape(cfg, s) && IsCurrent(cfg, p) && CountsMove(cfg, s, p, s', responds, sent)
    requires i in cfg.Ranks() && CountInv(cfg, s, i) == true && NetInv(cfg, s) == true
    ensures CountInv(cfg, s', i) == true
  {
    if i == p.dst && responds {
      ResponderCounts(cfg, s, p, s', sent);
    } else {
      QuietCounts(cfg, s, p, s', sent, i);
    }
  }

  // The whole invariant.

  lemma NewTagUnacked(cfg: Config, s: System, p: Packet, s': System, e: Event)
    requires IsCurrent(cfg, p) && Flying(cfg, s'.net) == SlotsAfter(cfg, s.net, p, e) && e.Imposed?
    ensures Acked(cfg, s', OpAt(p)) == {}
  {
    assert forall j | j in cfg.Ranks() :: Impose(OpAt(p), j) in ImposeSlots(cfg, OpAt(p));
  }

  lemma TagsAppear(cfg: Config, p: Packet, node: Node, phase: OpPhase, node': Node, phase': OpPhase, e: Event, sent: seq<Packet>)
    requires IsCurrent(cfg, p) && Reacts(cfg, p, node, phase, node', phase', e, sent)
    ensures !phase.HasTag() && phase'.HasTag() ==> e.Imposed?
  {
  }

  lemma EventAcks(cfg: Config, s: System, p: Packet, s': System, e: Event, sent: seq<Packet>, o: OpId)
    requires Inv(cfg, s) == true && HasShape(cfg, s) && IsCurrent(cfg, p) && p in s.net && o in s.ops
    requires Evolves(cfg, s, s') == true && HasShape(cfg, s') && o in s'.ops && Elsewhere(cfg, s, p, s') == true
    requires s'.net == NetAfter(s.net, p, sent) && Flying(cfg, s'.net) == SlotsAfter(cfg, s.net, p, e)
    requires OpAt(p) in s.ops && OpAt(p) in s'.ops
    requires !s.ops[OpAt(p)].phase.HasTag() && s'.ops[OpAt(p)].phase.HasTag() ==> e.Imposed?
    requires p.msg.Write? ==> SlotOf(p) in SentSlots(cfg, sent)
    ensures AcksHold(cfg, s', o) == true
  {
    if s.ops[o].phase.HasTag() {
      AcksKept(cfg, s, s', p, sent, o);
    } else if s'.ops[o].phase.HasTag() {
      assert Elsewhere(cfg, s, p, s');
      NewTagUnacked(cfg, s, p, s', e);
    }
  }

  /** The part of the invariant about one operation. */
  lemma EventsKeepOps(cfg: Config, s: System, p: Packet, s': System, e: Event, sent: seq<Packet>, o: OpId)
    requires Inv(cfg, s) == true && HasShape(cfg, s) && HasShape(cfg, s') && IsCurrent(cfg, p) && p in s.net && o in s.ops && o in s'.ops
    requires Happens(cfg, s, p, s', e, sent) == true && Elsewhere(cfg, s, p, s') == true
    requires Flying(cfg, s'.net) == SlotsAfter(cfg, s.net, p, e)
    ensures OpInv(cfg, s', o) == true
  {
    assert PacketInv(cfg, s, p) && OpInv(cfg, s, o);
    ReactionOccurs(cfg, p, s.nodes[p.dst], s.ops[OpAt(p)].phase, s'.nodes[p.dst], s'.ops[OpAt(p)].phase, e, sent);
    if o == OpAt(p) {
      if p.msg.Value? || p.msg.Ack? {
        RepliesFit(cfg, s, p);
      }
      ReceiverKept(cfg, s, p, s', e, sent);
    } else {
      OthersKept(cfg, s, p, s', e, o);
    }
  }

  /** What the lemmas above say of an event. */
  ghost predicate Settles(cfg: Config, s: System, p: Packet, s': System, e: Event, sent: seq<Packet>)
    requires HasShape(cfg, s) && IsCurrent(cfg, p)
  {
    && HasShape(cfg, s') && Happens(cfg, s, p, s', e, sent) && Elsewhere(cfg, s, p, s') && Evolves(cfg, s, s')
    && FreshSends(cfg, s.net, p, sent) && s'.net == NetAfter(s.net, p, sent)
    && Flying(cfg, s'.net) == SlotsAfter(cfg, s.net, p, e)
  }

  /** What the receiver of an event may rely on. */
  lemma ReceiverReady(cfg: Config, s: System, p: Packet, s': System, e: Event, sent: seq<Packet>)
    requires Inv(cfg, s) == true && HasShape(cfg, s) && IsCurrent(cfg, p) && p in s.net && Happens(cfg, s, p, s', e, sent) == true
    ensures s.nodes[p.dst].rank == p.dst && SlotsFit(cfg, s, p) == true
    ensures e.Skipped? || e.Completed? ==> p.dst !in s.finished && OpAt(p).0 < cfg.Planned() && Started(s, p.dst)
  {
    ReactionOccurs(cfg, p, s.nodes[p.dst], s.ops[OpAt(p)].phase, s'.nodes[p.dst], s'.ops[OpAt(p)].phase, e, sent);
    ResponderIsOpen(cfg, s, p, e);
    ReceiverSlotsFit(cfg, s, p);
  }

  lemma EventsSettle(cfg: Config, s: System, p: Packet, s': System, e: Event, sent: seq<Packet>)
    requires Inv(cfg, s) == true && HasShape(cfg, s) && IsCurrent(cfg, p) && p in s.net && Happens(cfg, s, p, s', e, sent) == true
    ensures Settles(cfg, s, p, s', e, sent) == true
  {
    ReceiverReady(cfg, s, p, s', e, sent);
    EventsAreLocal(cfg, s, p, s', e, sent);
    EventsEvolve(cfg, s, p, s', e, sent);
    EventSlots(cfg, s, p, s', e, sent);
    assert Elsewhere(cfg, s, p, s');
  }

  lemma AllOpsKept(cfg: Config, s: System, p: Packet, s': System, e: Event, sent: seq<Packet>)
    requires Inv(cfg, s) == true && HasShape(cfg, s) && IsCurrent(cfg, p) && p in s.net
    requires Settles(cfg, s, p, s', e, sent)
    ensures forall o | o in s'.ops :: OpInv(cfg, s', o) == true
  {
    forall o | o in s'.ops ensures OpInv(cfg, s', o) == true {
      EventsKeepOps(cfg, s, p, s', e, sent, o);
    }
  }

  lemma AllAcksKept(cfg: Config, s: System, p: Packet, s': System, e: Event, sent: seq<Packet>)
    requires Inv(cfg, s) == true && HasShape(cfg, s) && IsCurrent(cfg, p) && p in s.net
    requires Settles(cfg, s, p, s', e, sent)
    ensures forall o | o in s'.ops :: AcksHold(cfg, s', o) == true
  {
    var node, phase, node', phase' := s.nodes[p.dst], s.ops[OpAt(p)].phase, s'.nodes[p.dst], s'.ops[OpAt(p)].phase;
    TagsAppear(cfg, p, node, phase, node', phase', e, sent);
    ReactionOccurs(cfg, p, node, phase, node', phase', e, sent);
    forall o | o in s'.ops ensures AcksHold(cfg, s', o) == true {
      EventAcks(cfg, s, p, s', e, sent, o);
    }
  }

  /** What the receiver's reaction does to its counters. */
  ghost predicate ReceiverCounts(cfg: Config, s: System, p: Packet, s': System, responds: bool, sent: seq<Packet>) {
    && p.dst in s.nodes && p.dst in s'.nodes && IsProtocol(p.msg) && OpAt(p) in s.ops && OpAt(p) in s'.ops
    && if responds then
         Answers(cfg, s.nodes[p.dst], p.msg.key, s'.nodes[p.dst], sent)
         && !s.ops[OpAt(p)].phase.Responded? && s'.ops[OpAt(p)].phase.Responded?
       else
         StaysQuiet(s.nodes[p.dst], s'.nodes[p.dst], sent)
         && s'.ops[OpAt(p)].phase.Responded? == s.ops[OpAt(p)].phase.Responded?
  }

  lemma EventReacts(cfg: Config, s: System, p: Packet, s': System, e: Event, sent: seq<Packet>)
    requires IsCurrent(cfg, p) && Happens(cfg, s, p, s', e, sent) && s.nodes[p.dst].rank == p.dst
    ensures Moved(s, p, s', sent) == true && SendsFit(cfg, p.dst, e, sent) == true
    ensures ReceiverCounts(cfg, s, p, s', e.Skipped? || e.Completed?, sent) == true
  {
    var node, phase, node', phase' := s.nodes[p.dst], s.ops[OpAt(p)].phase, s'.nodes[p.dst], s'.ops[OpAt(p)].phase;
    ReactionKeepsCounts(cfg, p, node, phase, node', phase', e, sent);
    ReactionSends(cfg, p, node, phase, node', phase', e, sent);
  }

  lemma SenderReports(cfg: Config, i: nat, e: Event, sent: seq<Packet>)
    requires SendsFit(cfg, i, e, sent)
    ensures forall q | q in sent && q.src != i :: IsProtocol(q.msg)
  {
  }

  lemma EventMovesCounts(cfg: Config, s: System, p: Packet, s': System, e: Event, sent: seq<Packet>)
    requires HasShape(cfg, s) && IsCurrent(cfg, p) && p in s.net && p.dst in cfg.Ranks() && Elsewhere(cfg, s, p, s') == true
    requires Moved(s, p, s', sent) && SendsFit(cfg, p.dst, e, sent) == true
    requires ReceiverCounts(cfg, s, p, s', e.Skipped? || e.Completed?, sent)
    requires e.Skipped? || e.Completed? ==> p.dst !in s.finished && OpAt(p).0 < cfg.Planned() && Started(s, p.dst)
    ensures CountsMove(cfg, s, p, s', e.Skipped? || e.Completed?, sent) == true
  {
    FinishedAfter(cfg, s, p, s', e, sent);
    SenderReports(cfg, p.dst, e, sent);
  }

  lemma AllCountsKept(cfg: Config, s: System, p: Packet, s': System, e: Event, sent: seq<Packet>)
    requires HasShape(cfg, s) && NetInv(cfg, s) == true && IsCurrent(cfg, p) && p in s.net && p.dst in cfg.Ranks()
    requires forall i | i in cfg.Ranks() :: CountInv(cfg, s, i) == true
    requires Settles(cfg, s, p, s', e, sent) == true && HasShape(cfg, s') && s.nodes[p.dst].rank == p.dst
    requires e.Skipped? || e.Completed? ==> p.dst !in s.finished && OpAt(p).0 < cfg.Planned() && Started(s, p.dst)
    ensures forall i | i in cfg.Ranks() :: CountInv(cfg, s', i) == true
  {
    EventReacts(cfg, s, p, s', e, sent);
    EventMovesCounts(cfg, s, p, s', e, sent);
    forall i | i in cfg.Ranks() ensures CountInv(cfg, s', i) == true {
      EventCounts(cfg, s, p, s', e.Skipped? || e.Completed?, sent, i);
    }
  }

  lemma PartsOfInv(cfg: Config, s: System, p: Packet)
    requires Inv(cfg, s) && p in s.net && IsCurrent(cfg, p)
    ensures HasShape(cfg, s) && NetInv(cfg, s) == true && p.dst in cfg.Ranks() && CurrentPacketInv(cfg, s, p)
    ensures forall i | i in cfg.Ranks() :: CountInv(cfg, s, i) == true
  {
    assert PacketInv(cfg, s, p);
  }

  lemma WholeNetKept(cfg: Config, s: System, p: Packet, s': System, e: Event, sent: seq<Packet>)
    requires HasShape(cfg, s) && NetInv(cfg, s) == true && IsCurrent(cfg, p) && p in s.net && p.dst in cfg.Ranks()
    requires CurrentPacketInv(cfg, s, p) && s.nodes[p.dst].rank == p.dst
    requires Settles(cfg, s, p, s', e, sent)
    requires e.Skipped? || e.Completed? ==> p.dst !in s.finished
    ensures NetInv(cfg, s') == true
  {
    forall q | q in sent ensures GoodSend(cfg, s, s', sent, q) {
      EventSends(cfg, s, p, s', e, sent, q);
    }
    NetKept(cfg, s, s', p, sent);
  }

  lemma FinishersKept(cfg: Config, s: System, p: Packet, s': System, e: Event, sent: seq<Packet>)
    requires HasShape(cfg, s) && s.finished.Keys <= cfg.Ranks() && IsCurrent(cfg, p) && Moved(s, p, s', sent)
    ensures s'.finished.Keys <= cfg.Ranks()
  {
  }

  lemma InvOfParts(cfg: Config, s: System)
    requires HasShape(cfg, s) && NetInv(cfg, s) == true
    requires forall o | o in s.ops :: OpInv(cfg, s, o) == true
    requires forall o | o in s.ops :: AcksHold(cfg, s, o) == true
    requires forall i | i in cfg.Ranks() :: CountInv(cfg, s, i) == true
    requires s.finished.Keys <= cfg.Ranks()
    ensures Inv(cfg, s) == true
  {
  }

  /** Every event keeps the invariant. */
  lemma EventsKeepInv(cfg: Config, s: System, p: Packet, s': System, e: Event, sent: seq<Packet>)
    requires Inv(cfg, s) == true && HasShape(cfg, s) == true && s.finished.Keys <= cfg.Ranks()
    requires IsCurrent(cfg, p) && p in s.net && Happens(cfg, s, p, s', e, sent) == true
    ensures Inv(cfg, s') == true
  {
    PartsOfInv(cfg, s, p);
    ReceiverReady(cfg, s, p, s', e, sent);
    EventsSettle(cfg, s, p, s', e, sent);
    AllOpsKept(cfg, s, p, s', e, sent);
    AllAcksKept(cfg, s, p, s', e, sent);
    AllCountsKept(cfg, s, p, s', e, sent);
    WholeNetKept(cfg, s, p, s', e, sent);
    FinishersKept(cfg, s, p, s', e, sent);
    InvOfParts(cfg, s');
  }
}
