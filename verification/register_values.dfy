/** Values: what entries of a key look like, as long as nothing spoils them. */
module RegisterValues {
  import opened Collections
  import opened Histories
  import opened RegisterNode
  import opened RegisterProtocol
  import opened RegisterSafety
  import opened RegisterEvents
  import opened RegisterInvariant
  import opened RegisterRuns
  import opened RegisterTheorems
  import opened RegisterDetails

  function EntryAt(r: Register): Entry {
    Entry(r.ts, r.wr, r.value)
  }

  function EntryCarried(m: Msg): Entry
    requires m.Value? || m.Write?
  {
    Entry(m.ts, m.wr, m.value)
  }

  predicate CarriesEntry(cfg: Config, q: Packet, key: nat) {
    IsCurrent(cfg, q) && (q.msg.Value? || q.msg.Write?) && q.msg.key == key
  }

  // Entries of one key, in replicas, in messages and in read lists.

  ghost predicate GoodNode(node: Node, key: nat, good: Entry -> bool)
    requires node.Knows(key)
  {
    && good(EntryAt(node.registers[key]))
    && forall j | j in node.readLists[key] :: good(node.readLists[key][j])
  }

  ghost predicate GoodNet(cfg: Config, net: multiset<Packet>, key: nat, good: Entry -> bool) {
    forall q | q in net && CarriesEntry(cfg, q, key) :: good(EntryCarried(q.msg))
  }

  ghost predicate AllGood(cfg: Config, s: System, key: nat, good: Entry -> bool)
    requires HasShape(cfg, s) && key < cfg.numKeys
  {
    GoodNet(cfg, s.net, key, good) && forall i | i in cfg.Ranks() :: GoodNode(s.nodes[i], key, good)
  }

  /** Where an event can bring in an entry that was not there before. */
  ghost predicate Innocent(cfg: Config, node: Node, p: Packet, e: Event, key: nat, good: Entry -> bool)
    requires IsCurrent(cfg, p) && node.Knows(p.msg.key)
  {
    p.msg.key == key ==>
      && (e.Skipped? && p.msg.Value? ==>
            good(Entry(node.registers[key].ts, node.registers[key].wr, NotedAt(node, p).readval)))
      && (e.Imposed? && p.msg.Value? && !cfg.Reads(node.rank, key) ==>
            good(Entry(e.tag.ts, e.tag.wr, node.registers[key].writeval)))
  }

  lemma ExtendedIsGood(node: Node, p: Packet, good: Entry -> bool)
    requires p.msg.Value? && node.Knows(p.msg.key) && GoodNode(node, p.msg.key, good) && good(EntryCarried(p.msg))
    ensures forall f | f in Extended(node, p).Values :: good(f)
  {
    var list := Extended(node, p);
    forall f | f in list.Values ensures good(f) {
      var j :| j in list && list[j] == f;
      assert j == p.src || j in node.readLists[p.msg.key];
    }
  }

  lemma ReceiverStaysGood(cfg: Config, p: Packet, node: Node, phase: OpPhase, node': Node, phase': OpPhase, e: Event,
                          sent: seq<Packet>, good: Entry -> bool)
    requires IsCurrent(cfg, p) && Reacts(cfg, p, node, phase, node', phase', e, sent) && Details(cfg, p, node, node', e, sent)
    requires node.Knows(p.msg.key) && GoodNode(node, p.msg.key, good) && Innocent(cfg, node, p, e, p.msg.key, good)
    requires p.msg.Value? || p.msg.Write? ==> good(EntryCarried(p.msg))
    ensures node'.Knows(p.msg.key) && GoodNode(node', p.msg.key, good) == true
  {
  }

  lemma SentIsGood(cfg: Config, p: Packet, node: Node, phase: OpPhase, node': Node, phase': OpPhase, e: Event,
                   sent: seq<Packet>, good: Entry -> bool, q: Packet)
    requires IsCurrent(cfg, p) && Reacts(cfg, p, node, phase, node', phase', e, sent) && Details(cfg, p, node, node', e, sent)
    requires node.Knows(p.msg.key) && GoodNode(node, p.msg.key, good) && Innocent(cfg, node, p, e, p.msg.key, good)
    requires p.msg.Value? || p.msg.Write? ==> good(EntryCarried(p.msg))
    requires q in sent && IsCurrent(cfg, q) && (q.msg.Value? || q.msg.Write?)
    ensures q.msg.key == p.msg.key && good(EntryCarried(q.msg))
  {
    if e.Imposed? {
      var max, value :| ChoosesFrom(cfg, node, p, max, e.tag, value) && sent == BcastOf(cfg, (p.msg.key, node.rank), e.tag, value);
      ExtendedIsGood(node, p, good);
    }
  }

  lemma EventNetStaysGood(cfg: Config, s: System, p: Packet, s': System, e: Event, sent: seq<Packet>, key: nat, good: Entry -> bool)
    requires IsCurrent(cfg, p) && p in s.net && Happens(cfg, s, p, s', e, sent)
    requires Details(cfg, p, s.nodes[p.dst], s'.nodes[p.dst], e, sent) == true
    requires s.nodes[p.dst].Knows(p.msg.key) && Innocent(cfg, s.nodes[p.dst], p, e, key, good)
    requires p.msg.key == key ==> GoodNode(s.nodes[p.dst], key, good)
    requires GoodNet(cfg, s.net, key, good)
    ensures GoodNet(cfg, s'.net, key, good) == true
  {
    var node, phase, node', phase' := s.nodes[p.dst], s.ops[OpAt(p)].phase, s'.nodes[p.dst], s'.ops[OpAt(p)].phase;
    forall q | q in s'.net && CarriesEntry(cfg, q, key) ensures good(EntryCarried(q.msg)) {
      if q in sent {
        if p.msg.key == key {
          SentIsGood(cfg, p, node, phase, node', phase', e, sent, good, q);
        } else {
          SentOnKey(cfg, p, node, phase, node', phase', e, sent, q);
        }
      } else {
        assert q !in multiset(sent);
        assert q in s.net;
      }
    }
  }

  lemma SentOnKey(cfg: Config, p: Packet, node: Node, phase: OpPhase, node': Node, phase': OpPhase, e: Event, sent: seq<Packet>, q: Packet)
    requires IsCurrent(cfg, p) && Reacts(cfg, p, node, phase, node', phase', e, sent)
    requires q in sent && IsCurrent(cfg, q)
    ensures q.msg.key == p.msg.key
  {
  }

  lemma EventNodeStaysGood(cfg: Config, s: System, p: Packet, s': System, e: Event, sent: seq<Packet>, key: nat, good: Entry -> bool, i: nat)
    requires HasShape(cfg, s) && HasShape(cfg, s') && key < cfg.numKeys && i in cfg.Ranks() && GoodNode(s.nodes[i], key, good)
    requires IsCurrent(cfg, p) && p in s.net && Happens(cfg, s, p, s', e, sent)
    requires Details(cfg, p, s.nodes[p.dst], s'.nodes[p.dst], e, sent) == true
    requires s.nodes[p.dst].Knows(p.msg.key) && Innocent(cfg, s.nodes[p.dst], p, e, key, good) == true
    requires p.msg.key == key && (p.msg.Value? || p.msg.Write?) ==> good(EntryCarried(p.msg))
    ensures GoodNode(s'.nodes[i], key, good) == true
  {
    if i == p.dst && key == p.msg.key {
      ReceiverStaysGood(cfg, p, s.nodes[i], s.ops[OpAt(p)].phase, s'.nodes[i], s'.ops[OpAt(p)].phase, e, sent, good);
    } else if i == p.dst {
      OtherKeyUntouched(cfg, p, s.nodes[i], s.ops[OpAt(p)].phase, s'.nodes[i], s'.ops[OpAt(p)].phase, e, sent, key);
    } else {
      assert s'.nodes[i] == s.nodes[i];
    }
  }

  lemma OtherKeyUntouched(cfg: Config, p: Packet, node: Node, phase: OpPhase, node': Node, phase': OpPhase, e: Event, sent: seq<Packet>, key: nat)
    requires IsCurrent(cfg, p) && Reacts(cfg, p, node, phase, node', phase', e, sent) && node.Knows(key) && key != p.msg.key
    ensures node'.Knows(key) && node'.registers[key] == node.registers[key] && node'.readLists[key] == node.readLists[key]
  {
  }

  lemma EventStaysGood(cfg: Config, s: System, p: Packet, s': System, e: Event, sent: seq<Packet>, key: nat, good: Entry -> bool)
    requires HasShape(cfg, s) && HasShape(cfg, s') && key < cfg.numKeys && AllGood(cfg, s, key, good)
    requires IsCurrent(cfg, p) && p in s.net && p.dst in cfg.Ranks() && Happens(cfg, s, p, s', e, sent) == true
    requires Details(cfg, p, s.nodes[p.dst], s'.nodes[p.dst], e, sent) == true
    requires s.nodes[p.dst].Knows(p.msg.key) && Innocent(cfg, s.nodes[p.dst], p, e, key, good) == true
    ensures AllGood(cfg, s', key, good) == true
  {
    EventNetStaysGood(cfg, s, p, s', e, sent, key, good);
    forall i | i in cfg.Ranks() ensures GoodNode(s'.nodes[i], key, good) == true {
      EventNodeStaysGood(cfg, s, p, s', e, sent, key, good, i);
    }
  }

  // The other deliveries.

  lemma OtherNetStaysGood(cfg: Config, net: multiset<Packet>, p: Packet, sent: seq<Packet>, key: nat, good: Entry -> bool)
    requires GoodNet(cfg, net, key, good) && forall q | q in sent && IsCurrent(cfg, q) :: q.msg.Read?
    ensures GoodNet(cfg, NetAfter(net, p, sent), key, good) == true
  {
    forall q | q in NetAfter(net, p, sent) && CarriesEntry(cfg, q, key) ensures good(EntryCarried(q.msg)) {
      assert q !in sent && q !in multiset(sent);
    }
  }

  lemma InertStaysGood(cfg: Config, s: System, p: Packet, s': System, sent: seq<Packet>, key: nat, good: Entry -> bool)
    requires HasShape(cfg, s) && HasShape(cfg, s') && key < cfg.numKeys && AllGood(cfg, s, key, good) && IsInert(cfg, s, p, s', sent)
    ensures AllGood(cfg, s', key, good) == true
  {
    OtherNetStaysGood(cfg, s.net, p, sent, key, good);
  }

  lemma InvokedStaysGood(cfg: Config, i: nat, node: Node, node': Node, key: nat, good: Entry -> bool)
    requires cfg.Valid() && NodeShape(cfg, i, node) && InvokesAt(cfg, i, node, node') && key < cfg.numKeys && GoodNode(node, key, good)
    ensures GoodNode(node', key, good) == true
  {
  }

  lemma InvokeStaysGood(cfg: Config, s: System, i: nat, s': System, sent: seq<Packet>, key: nat, good: Entry -> bool)
    requires HasShape(cfg, s) && HasShape(cfg, s') && key < cfg.numKeys && AllGood(cfg, s, key, good)
    requires i in cfg.Ranks() && Invokes(cfg, s, i, s', sent)
    ensures AllGood(cfg, s', key, good) == true
  {
    OtherNetStaysGood(cfg, s.net, RunPacket(i), sent, key, good);
    forall j | j in cfg.Ranks() ensures GoodNode(s'.nodes[j], key, good) == true {
      if j == i {
        InvokedStaysGood(cfg, i, s.nodes[i], s'.nodes[i], key, good);
      }
    }
  }

  // Two kinds of good entries.

  /** The entry of a key that nobody has written. */
  const IsZeroEntry: Entry -> bool := (f: Entry) => f == Entry(0, 0, 0)

  /** Writers write their rank, so an entry that only writes and write-backs have made carries its writer as value. */
  const IsRankedEntry: Entry -> bool := (f: Entry) => f.value == f.wr

  /** No node writes the key. */
  predicate Unwritten(cfg: Config, key: nat) {
    forall i | i in cfg.Ranks() :: cfg.Reads(i, key)
  }

  /** No node reads the key. */
  predicate Unread(cfg: Config, key: nat) {
    forall i | i in cfg.Ranks() :: !cfg.Reads(i, key)
  }

  /** The value a read would answer, on a key that nobody has written. */
  ghost predicate ReadvalsZero(cfg: Config, s: System, key: nat)
    requires HasShape(cfg, s) && key < cfg.numKeys
  {
    forall i | i in cfg.Ranks() :: s.nodes[i].registers[key].readval == 0
  }

  ghost predicate ZeroKey(cfg: Config, s: System, key: nat)
    requires HasShape(cfg, s) && key < cfg.numKeys
  {
    AllGood(cfg, s, key, IsZeroEntry) && ReadvalsZero(cfg, s, key)
  }

  /** No writer of the key gets its tag from this event. */
  ghost predicate NotWriting(cfg: Config, p: Packet, e: Event, key: nat)
    requires IsCurrent(cfg, p)
  {
    e.Imposed? && p.msg.key == key ==> cfg.Reads(p.dst, key)
  }

  lemma ZeroReadval(cfg: Config, p: Packet, node: Node, phase: OpPhase, node': Node, phase': OpPhase, e: Event, sent: seq<Packet>)
    requires IsCurrent(cfg, p) && Reacts(cfg, p, node, phase, node', phase', e, sent) && Details(cfg, p, node, node', e, sent)
    requires node.Knows(p.msg.key) && GoodNode(node, p.msg.key, IsZeroEntry) && node.registers[p.msg.key].readval == 0
    requires p.msg.Value? ==> EntryCarried(p.msg) == Entry(0, 0, 0)
    ensures node'.Knows(p.msg.key) && node'.registers[p.msg.key].readval == 0
    ensures p.msg.Value? ==> NotedAt(node, p).readval == 0
  {
    if e.Imposed? {
      var max, value :| ChoosesFrom(cfg, node, p, max, e.tag, value) && node'.registers[p.msg.key] == NotedAt(node, p).(readval := max.value);
      ExtendedIsGood(node, p, IsZeroEntry);
    }
  }

  lemma ZeroIsInnocent(cfg: Config, s: System, p: Packet, s': System, e: Event, sent: seq<Packet>, key: nat)
    requires HasShape(cfg, s) && IsCurrent(cfg, p) && p in s.net && p.dst in cfg.Ranks() && Happens(cfg, s, p, s', e, sent)
    requires Details(cfg, p, s.nodes[p.dst], s'.nodes[p.dst], e, sent)
    requires key < cfg.numKeys && ZeroKey(cfg, s, key) && NotWriting(cfg, p, e, key)
    ensures s.nodes[p.dst].Knows(p.msg.key) && Innocent(cfg, s.nodes[p.dst], p, e, key, IsZeroEntry) == true
    ensures p.msg.key == key ==> s'.nodes[p.dst].registers[key].readval == 0
    ensures p.msg.key == key && p.msg.Value? ==> NotedAt(s.nodes[p.dst], p).readval == 0
  {
    if p.msg.key == key {
      assert p.msg.Value? ==> CarriesEntry(cfg, p, key);
      ZeroReadval(cfg, p, s.nodes[p.dst], s.ops[OpAt(p)].phase, s'.nodes[p.dst], s'.ops[OpAt(p)].phase, e, sent);
    }
  }

  lemma EventReadval(cfg: Config, s: System, p: Packet, s': System, e: Event, sent: seq<Packet>, key: nat, i: nat)
    requires HasShape(cfg, s) && HasShape(cfg, s') && IsCurrent(cfg, p) && i in cfg.Ranks() && Happens(cfg, s, p, s', e, sent)
    requires key < cfg.numKeys && s.nodes[i].registers[key].readval == 0
    requires p.msg.key == key && i == p.dst ==> s'.nodes[i].registers[key].readval == 0
    ensures s'.nodes[i].registers[key].readval == 0
  {
    if i == p.dst && key != p.msg.key {
      OtherKeyUntouched(cfg, p, s.nodes[i], s.ops[OpAt(p)].phase, s'.nodes[i], s'.ops[OpAt(p)].phase, e, sent, key);
    } else if i != p.dst {
      assert s'.nodes[i] == s.nodes[i];
    }
  }

  lemma EventReadvals(cfg: Config, s: System, p: Packet, s': System, e: Event, sent: seq<Packet>, key: nat)
    requires HasShape(cfg, s) && HasShape(cfg, s') && IsCurrent(cfg, p) && p.dst in cfg.Ranks() && Happens(cfg, s, p, s', e, sent) == true
    requires key < cfg.numKeys && ReadvalsZero(cfg, s, key)
    requires p.msg.key == key ==> s'.nodes[p.dst].registers[key].readval == 0
    ensures ReadvalsZero(cfg, s', key) == true
  {
    forall i | i in cfg.Ranks() ensures s'.nodes[i].registers[key].readval == 0 {
      EventReadval(cfg, s, p, s', e, sent, key, i);
    }
  }

  lemma InvokedReadvals(cfg: Config, s: System, i: nat, s': System, sent: seq<Packet>, key: nat)
    requires HasShape(cfg, s) && HasShape(cfg, s') && i in cfg.Ranks() && Invokes(cfg, s, i, s', sent)
    requires key < cfg.numKeys && ReadvalsZero(cfg, s, key)
    ensures ReadvalsZero(cfg, s', key) == true
  {
    forall j | j in cfg.Ranks() ensures s'.nodes[j].registers[key].readval == 0 {
      assert s.nodes[j].registers[key].readval == 0;
    }
  }

  lemma EventKeepsZero(cfg: Config, s: System, p: Packet, s': System, e: Event, sent: seq<Packet>, key: nat)
    requires HasShape(cfg, s) && HasShape(cfg, s') && IsCurrent(cfg, p) && p in s.net && p.dst in cfg.Ranks()
    requires Happens(cfg, s, p, s', e, sent) == true && Details(cfg, p, s.nodes[p.dst], s'.nodes[p.dst], e, sent) == true
    requires key < cfg.numKeys && ZeroKey(cfg, s, key) && NotWriting(cfg, p, e, key)
    ensures ZeroKey(cfg, s', key) == true
  {
    ZeroIsInnocent(cfg, s, p, s', e, sent, key);
    EventStaysGood(cfg, s, p, s', e, sent, key, IsZeroEntry);
    EventReadvals(cfg, s, p, s', e, sent, key);
  }

  /** A key stays all zero until a writer gets its tag. */
  lemma ZeroKept(cfg: Config, s: System, p: Packet, s': System, e: Event, sent: seq<Packet>, key: nat)
    requires Inv(cfg, s) == true && HasShape(cfg, s) && HasShape(cfg, s') && Delivery(cfg, s, p, s', e, sent)
    requires key < cfg.numKeys && ZeroKey(cfg, s, key) && (IsCurrent(cfg, p) ==> NotWriting(cfg, p, e, key))
    ensures ZeroKey(cfg, s', key) == true
  {
    match e {
      case Ignored => InertStaysGood(cfg, s, p, s', sent, key, IsZeroEntry);
      case Invoked =>
        InvokeStaysGood(cfg, s, p.dst, s', sent, key, IsZeroEntry);
        InvokedReadvals(cfg, s, p.dst, s', sent, key);
      case _ =>
        DeliveryDetails(cfg, s, p, s', e, sent);
        EventKeepsZero(cfg, s, p, s', e, sent, key);
    }
  }

  /** No read of the key skips its write-back in this event. */
  ghost predicate NotSkipping(cfg: Config, p: Packet, e: Event, key: nat)
    requires IsCurrent(cfg, p)
  {
    !(e.Skipped? && p.msg.key == key)
  }

  lemma WriterImposesRank(cfg: Config, s: System, p: Packet, s': System, e: Event, sent: seq<Packet>)
    requires HasShape(cfg, s) && IsCurrent(cfg, p) && p.dst in cfg.Ranks() && Happens(cfg, s, p, s', e, sent)
    requires Details(cfg, p, s.nodes[p.dst], s'.nodes[p.dst], e, sent) && OpInv(cfg, s, OpAt(p))
    ensures e.Imposed? && !cfg.Reads(p.dst, p.msg.key) ==>
      e.tag.wr == p.dst && s.nodes[p.dst].Knows(p.msg.key) && s.nodes[p.dst].registers[p.msg.key].writeval == p.dst
  {
  }

  lemma EventKeepsRanked(cfg: Config, s: System, p: Packet, s': System, e: Event, sent: seq<Packet>, key: nat)
    requires HasShape(cfg, s) && HasShape(cfg, s') && IsCurrent(cfg, p) && p in s.net && p.dst in cfg.Ranks()
    requires Happens(cfg, s, p, s', e, sent) == true && Details(cfg, p, s.nodes[p.dst], s'.nodes[p.dst], e, sent) == true
    requires OpAt(p) in s.ops && OpInv(cfg, s, OpAt(p)) == true
    requires key < cfg.numKeys && AllGood(cfg, s, key, IsRankedEntry) && NotSkipping(cfg, p, e, key)
    ensures AllGood(cfg, s', key, IsRankedEntry) == true
  {
    WriterImposesRank(cfg, s, p, s', e, sent);
    EventStaysGood(cfg, s, p, s', e, sent, key, IsRankedEntry);
  }

  /** Entries keep their writer's rank as value until a read of the key skips its write-back. */
  lemma RankedKept(cfg: Config, s: System, p: Packet, s': System, e: Event, sent: seq<Packet>, key: nat)
    requires Inv(cfg, s) == true && HasShape(cfg, s) && HasShape(cfg, s') && Delivery(cfg, s, p, s', e, sent)
    requires key < cfg.numKeys && AllGood(cfg, s, key, IsRankedEntry) && (IsCurrent(cfg, p) ==> NotSkipping(cfg, p, e, key))
    ensures AllGood(cfg, s', key, IsRankedEntry) == true
  {
    match e {
      case Ignored => InertStaysGood(cfg, s, p, s', sent, key, IsRankedEntry);
      case Invoked => InvokeStaysGood(cfg, s, p.dst, s', sent, key, IsRankedEntry);
      case _ =>
        DeliveryDetails(cfg, s, p, s', e, sent);
        ReceiverOpInv(cfg, s, p);
        EventKeepsRanked(cfg, s, p, s', e, sent, key);
    }
  }

  lemma ReceiverOpInv(cfg: Config, s: System, p: Packet)
    requires Inv(cfg, s) && p in s.net && IsCurrent(cfg, p)
    ensures HasShape(cfg, s) && p.dst in cfg.Ranks() && OpAt(p) in s.ops && OpInv(cfg, s, OpAt(p)) == true
    ensures p.msg.key < cfg.Planned()
  {
    assert PacketInv(cfg, s, p);
    assert OpInv(cfg, s, OpAt(p));
  }

  lemma InitialValues(cfg: Config, s: System, key: nat)
    requires cfg.Valid() && IsInitial(cfg, s) && HasShape(cfg, s) && key < cfg.numKeys
    ensures ZeroKey(cfg, s, key) && AllGood(cfg, s, key, IsRankedEntry)
  {
  }
}
