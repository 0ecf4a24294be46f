/** Invocation, messages of other runs, and whole runs of the register protocol. */
module RegisterRuns {
  import opened Collections
  import opened Histories
  import opened RegisterNode
  import opened RegisterProtocol
  import opened RegisterSafety
  import opened RegisterEvents
  import opened RegisterInvariant

  // Messages of other runs.

  /** A message of another run changes no node; at most a stale acknowledgement is sent. */
  ghost predicate IsInert(cfg: Config, s: System, p: Packet, s': System, sent: seq<Packet>) {
    && s'.nodes == s.nodes && s'.ops == s.ops && s'.finished == s.finished && s'.net == NetAfter(s.net, p, sent)
    && forall q | q in sent :: IsStale(cfg, q)
  }

  lemma StaleIsInert(cfg: Config, s: System, p: Packet, now: int) returns (s': System, sent: seq<Packet>)
    requires HasShape(cfg, s) && p in s.net && IsStale(cfg, p) && p.dst in s.nodes
    ensures Deliver(cfg, s, p, now) == Some(s') && IsInert(cfg, s, p, s', sent) == true && s'.now == now
    ensures p.dst in s'.nodes && Receive(s.nodes[p.dst], p.src, p.msg, now) == Handled(s'.nodes[p.dst], sent)
  {
    var node := s.nodes[p.dst];
    sent := if p.msg.Write? then [AckTo(p)] else [];
    assert Receive(node, p.src, p.msg, now) == Handled(node, sent);
    s' := After(cfg, s, p, now, node, sent);
    assert s'.nodes == s.nodes;
    assert s'.ops == s.ops;
  }

  lemma InertSlots(cfg: Config, net: multiset<Packet>, p: Packet, sent: seq<Packet>)
    requires UniqueSlots(cfg, net) && p in net && !IsCurrent(cfg, p) && forall q | q in sent :: !IsCurrent(cfg, q)
    ensures FreshSends(cfg, net, p, sent) && Flying(cfg, NetAfter(net, p, sent)) == Flying(cfg, net)
  {
    FlyingAfter(cfg, net, p, sent);
    assert SentSlots(cfg, sent) == {};
  }

  lemma InertStarts(cfg: Config, s: System, p: Packet, s': System, sent: seq<Packet>, i: nat)
    requires IsStale(cfg, p) && p in s.net && IsInert(cfg, s, p, s', sent)
    ensures Started(s', i) == Started(s, i)
  {
    assert RunPacket(i) !in sent;
    assert RunPacket(i) !in multiset(sent);
  }

  lemma InertOp(cfg: Config, s: System, p: Packet, s': System, sent: seq<Packet>, o: OpId)
    requires HasShape(cfg, s) && HasShape(cfg, s') && IsStale(cfg, p) && p in s.net && IsInert(cfg, s, p, s', sent)
    requires Flying(cfg, s'.net) == Flying(cfg, s.net) && o in s.ops
    requires OpInv(cfg, s, o) && AcksHold(cfg, s, o)
    ensures OpInv(cfg, s', o) == true && AcksHold(cfg, s', o) == true
  {
    InertStarts(cfg, s, p, s', sent, o.1);
    assert Replied(cfg, s', o) == Replied(cfg, s, o) && Acked(cfg, s', o) == Acked(cfg, s, o);
    OpKept(cfg, s, s', o);
  }

  lemma InertCounts(cfg: Config, s: System, p: Packet, s': System, sent: seq<Packet>, i: nat)
    requires HasShape(cfg, s) && HasShape(cfg, s') && IsStale(cfg, p) && p in s.net && IsInert(cfg, s, p, s', sent)
    requires i in cfg.Ranks() && CountInv(cfg, s, i)
    ensures CountInv(cfg, s', i) == true
  {
    InertStarts(cfg, s, p, s', sent, i);
    CountKept(cfg, s, s', p, sent, i);
  }

  lemma InertNet(cfg: Config, s: System, p: Packet, s': System, sent: seq<Packet>)
    requires HasShape(cfg, s) && NetInv(cfg, s) && p in s.net && IsStale(cfg, p) && IsInert(cfg, s, p, s', sent)
    ensures HasShape(cfg, s') && NetInv(cfg, s') == true && Flying(cfg, s'.net) == Flying(cfg, s.net)
  {
    NetMeansUnique(cfg, s);
    InertSlots(cfg, s.net, p, sent);
    NetKept(cfg, s, s', p, sent);
  }

  lemma InertKeepsInv(cfg: Config, s: System, p: Packet, s': System, sent: seq<Packet>)
    requires Inv(cfg, s) && p in s.net && IsStale(cfg, p) && IsInert(cfg, s, p, s', sent) == true
    ensures Inv(cfg, s') == true
  {
    InertNet(cfg, s, p, s', sent);
    forall o | o in s.ops ensures OpInv(cfg, s', o) == true && AcksHold(cfg, s', o) == true {
      InertOp(cfg, s, p, s', sent, o);
    }
    forall i | i in cfg.Ranks() ensures CountInv(cfg, s', i) == true {
      InertCounts(cfg, s, p, s', sent, i);
    }
    InvOfParts(cfg, s');
  }

  // Invocation.

  /** The read request of one operation of node `i` to node `j`. */
  function RequestOf(cfg: Config, i: nat, key: nat, j: nat): Packet {
    Packet(i, j, Read(cfg.runId, key, 1))
  }

  /** The node's operations have not been invoked. */
  ghost predicate IsFresh(cfg: Config, i: nat, node: Node) {
    && NodeShape(cfg, i, node) && cfg.Valid()
    && forall k: nat | k < cfg.numKeys :: node.registers[k].rid == 0 && node.registers[k].acks == 0
  }

  lemma {:induction false} InvokationRequests(cfg: Config, i: nat, node: Node, count: nat)
    requires IsFresh(cfg, i, node) && count <= cfg.Planned()
    ensures forall q | q in InvokationSends(node, count) ::
      q.msg.Read? && q.msg.key < count && q.dst in cfg.Ranks() && q == RequestOf(cfg, i, q.msg.key, q.dst)
    ensures forall k: nat, j | k < count && j in cfg.Ranks() :: RequestOf(cfg, i, k, j) in InvokationSends(node, count)
    ensures forall a, b | 0 <= a < b < |InvokationSends(node, count)| :: InvokationSends(node, count)[a] != InvokationSends(node, count)[b]
  {
    if count > 0 {
      InvokationRequests(cfg, i, node, count - 1);
      var before, more := InvokationSends(node, count - 1), node.Bcast(Read(cfg.runId, count - 1, 1));
      assert InvokationSends(node, count) == before + more;
      forall j | j in cfg.Ranks() ensures RequestOf(cfg, i, count - 1, j) in more {
        assert more[j - 1] == RequestOf(cfg, i, count - 1, j);
      }
      assert forall q | q in more :: q !in before;
      assert Distinct(before) && Distinct(more);
      DistinctConcat(before, more);
    }
  }

  function QuerySlots(cfg: Config, i: nat): set<Slot> {
    set k: nat, j | k in Below(cfg.Planned()) && j in cfg.Ranks() :: Query((k, i), j)
  }

  /** The requests for all operations of node `i`, each once. */
  ghost predicate SendsRequests(cfg: Config, i: nat, sent: seq<Packet>) {
    && (forall q | q in sent :: q.msg.Read? && q.msg.key < cfg.Planned() && q.dst in cfg.Ranks() && q == RequestOf(cfg, i, q.msg.key, q.dst))
    && (forall k: nat, j | k < cfg.Planned() && j in cfg.Ranks() :: RequestOf(cfg, i, k, j) in sent)
    && (forall a, b | 0 <= a < b < |sent| :: sent[a] != sent[b])
  }

  ghost predicate InvokesAt(cfg: Config, i: nat, node: Node, node': Node)
    requires NodeShape(cfg, i, node)
  {
    && NodeShape(cfg, i, node') && node'.readCount == cfg.numReads && node'.writeCount == cfg.numWrites
    && (forall k: nat | k < cfg.numKeys && k < cfg.Planned() ::
          node'.registers[k] == (if cfg.Reads(i, k) then Reading(node.registers[k]) else Writing(node.registers[k], i)))
    && (forall k: nat | k < cfg.numKeys && k < cfg.Planned() :: node'.readLists[k] == map[])
    && (forall k: nat | cfg.Planned() <= k < cfg.numKeys ::
          node'.registers[k] == node.registers[k] && node'.readLists[k] == node.readLists[k])
  }

  /** Node `i` invokes all its operations. */
  ghost predicate Invokes(cfg: Config, s: System, i: nat, s': System, sent: seq<Packet>)
    requires HasShape(cfg, s) && i in cfg.Ranks()
  {
    && s'.nodes.Keys == s.nodes.Keys && s'.nodes == s.nodes[i := s'.nodes[i]] && InvokesAt(cfg, i, s.nodes[i], s'.nodes[i])
    && SendsRequests(cfg, i, sent) && s'.net == NetAfter(s.net, RunPacket(i), sent)
    && s'.ops.Keys == s.ops.Keys && s'.finished == s.finished
    && (forall o: OpId | o in s.ops :: s'.ops[o] ==
          if o.1 == i && o.0 < cfg.Planned() then OpRecord(Querying, CompletedTags(s.ops, o.0)) else s.ops[o])
  }

  lemma WaitingIsFresh(cfg: Config, s: System, i: nat)
    requires Inv(cfg, s) && i in cfg.Ranks() && !Started(s, i)
    ensures IsFresh(cfg, i, s.nodes[i])
  {
    forall k: nat | k < cfg.numKeys
      ensures s.nodes[i].registers[k].rid == 0 && s.nodes[i].registers[k].acks == 0
    {
      assert OpInv(cfg, s, (k, i));
    }
  }

  lemma NodeInvokes(cfg: Config, i: nat, node: Node, now: int) returns (node': Node, sent: seq<Packet>)
    requires IsFresh(cfg, i, node)
    ensures InvokeOperations(node, now) == Handled(node', sent)
    ensures InvokesAt(cfg, i, node, node') == true && SendsRequests(cfg, i, sent) == true
  {
    assert node.KnowsBelow(cfg.Planned());
    var ready := node.(readCount := node.numReads, writeCount := node.numWrites);
    node', sent := AfterInvoking(ready, cfg.Planned(), now), InvokationSends(ready, cfg.Planned());
    InvokationRequests(cfg, i, ready, cfg.Planned());
  }

  lemma RunInvokes(cfg: Config, s: System, i: nat, now: int) returns (s': System, sent: seq<Packet>)
    requires HasShape(cfg, s) && i in cfg.Ranks() && RunPacket(i) in s.net && IsFresh(cfg, i, s.nodes[i]) == true
    ensures Deliver(cfg, s, RunPacket(i), now) == Some(s') && Invokes(cfg, s, i, s', sent) == true && s'.now == now
    ensures i in s'.nodes && InvokeOperations(s.nodes[i], now) == Handled(s'.nodes[i], sent)
  {
    var node';
    node', sent := NodeInvokes(cfg, i, s.nodes[i], now);
    s' := After(cfg, s, RunPacket(i), now, node', sent);
    InvokedSystem(cfg, s, i, now, node', sent);
  }

  lemma InvokedSystem(cfg: Config, s: System, i: nat, now: int, node': Node, sent: seq<Packet>)
    requires HasShape(cfg, s) && i in cfg.Ranks()
    requires InvokesAt(cfg, i, s.nodes[i], node') == true && SendsRequests(cfg, i, sent)
    ensures Invokes(cfg, s, i, After(cfg, s, RunPacket(i), now, node', sent), sent) == true
  {
    assert sent != [] ==> sent[|sent| - 1] in sent;
    var s' := After(cfg, s, RunPacket(i), now, node', sent);
    assert s'.nodes.Keys == s.nodes.Keys;
    assert s'.ops.Keys == s.ops.Keys;
  }

  lemma RequestSlots(cfg: Config, net: multiset<Packet>, i: nat, sent: seq<Packet>)
    requires UniqueSlots(cfg, net) && RunPacket(i) in net && SendsRequests(cfg, i, sent)
    requires forall slot | slot in QuerySlots(cfg, i) :: slot !in Flying(cfg, net)
    ensures FreshSends(cfg, net, RunPacket(i), sent) == true
    ensures Flying(cfg, NetAfter(net, RunPacket(i), sent)) == Flying(cfg, net) + QuerySlots(cfg, i)
  {
    FlyingAfter(cfg, net, RunPacket(i), sent);
    forall slot | slot in QuerySlots(cfg, i) ensures slot in SentSlots(cfg, sent) {
      assert RequestOf(cfg, i, slot.op.0, slot.responder) in sent;
    }
    forall q | q in sent ensures SlotOf(q) in QuerySlots(cfg, i) {
    }
    forall a, b | 0 <= a < b < |sent| ensures SlotOf(sent[a]) != SlotOf(sent[b]) {
      assert sent[a] in sent && sent[b] in sent;
    }
  }

  lemma InvokedSlots(cfg: Config, s: System, i: nat, s': System, sent: seq<Packet>)
    requires Inv(cfg, s) && i in cfg.Ranks() && RunPacket(i) in s.net && Invokes(cfg, s, i, s', sent)
    ensures FreshSends(cfg, s.net, RunPacket(i), sent) == true
    ensures Flying(cfg, s'.net) == Flying(cfg, s.net) + QuerySlots(cfg, i)
  {
    NetMeansUnique(cfg, s);
    forall slot | slot in QuerySlots(cfg, i) ensures slot !in Flying(cfg, s.net) {
      assert OpInv(cfg, s, slot.op);
      assert slot.responder in Replied(cfg, s, slot.op);
    }
    RequestSlots(cfg, s.net, i, sent);
  }

  lemma InvokeEvolves(cfg: Config, s: System, i: nat, s': System, sent: seq<Packet>)
    requires HasShape(cfg, s) && i in cfg.Ranks() && Invokes(cfg, s, i, s', sent)
    requires forall o: OpId | o in s.ops && o.1 == i :: s.ops[o].phase.Idle?
    ensures Evolves(cfg, s, s') == true
  {
    assert NodeShape(cfg, i, s'.nodes[i]);
    forall j, k: nat | j in cfg.Ranks() && k < cfg.numKeys
      ensures TagAt(s', j, k) == TagAt(s, j, k)
    {
      if j == i && k >= cfg.Planned() {
        assert s'.nodes[j].registers[k] == s.nodes[j].registers[k];
      }
    }
  }

  lemma InvokeStarts(cfg: Config, s: System, i: nat, s': System, sent: seq<Packet>, j: nat)
    requires s.net[RunPacket(i)] == 1 && SendsRequests(cfg, i, sent) && s'.net == NetAfter(s.net, RunPacket(i), sent)
    ensures Started(s', j) <==> j == i || Started(s, j)
  {
    assert RunPacket(j) !in sent;
    assert RunPacket(j) !in multiset(sent);
  }

  lemma RequestIsGood(cfg: Config, s: System, i: nat, s': System, sent: seq<Packet>, q: Packet)
    requires HasShape(cfg, s') && i in cfg.Ranks() && SendsRequests(cfg, i, sent) && q in sent
    requires forall k: nat | k < cfg.Planned() :: s'.ops[(k, i)].phase.Querying?
    ensures GoodSend(cfg, s, s', sent, q) == true
  {
  }

  lemma InvokeNet(cfg: Config, s: System, i: nat, s': System, sent: seq<Packet>)
    requires HasShape(cfg, s) && NetInv(cfg, s) && i in cfg.Ranks() && RunPacket(i) in s.net && SendsRequests(cfg, i, sent) == true
    requires s'.net == NetAfter(s.net, RunPacket(i), sent) && HasShape(cfg, s')
    requires forall k: nat | k < cfg.Planned() :: s'.ops[(k, i)].phase.Querying?
    requires Evolves(cfg, s, s') == true && FreshSends(cfg, s.net, RunPacket(i), sent) == true
    ensures NetInv(cfg, s') == true
  {
    forall q | q in sent ensures GoodSend(cfg, s, s', sent, q) == true {
      RequestIsGood(cfg, s, i, s', sent, q);
    }
    NetKept(cfg, s, s', RunPacket(i), sent);
  }

  lemma InvokedReplies(cfg: Config, s: System, i: nat, s': System, o: OpId)
    requires o.1 == i && Flying(cfg, s'.net) == Flying(cfg, s.net) + QuerySlots(cfg, i)
    ensures o.0 < cfg.Planned() ==> Replied(cfg, s', o) == {}
    ensures o.0 >= cfg.Planned() ==> Replied(cfg, s', o) == Replied(cfg, s, o)
    ensures Acked(cfg, s', o) == Acked(cfg, s, o)
  {
    assert o.0 < cfg.Planned() ==> forall j | j in cfg.Ranks() :: Query(o, j) in QuerySlots(cfg, i);
  }

  /** A fresh register fits the querying phase once it is invoked. */
  lemma InvokedFits(cfg: Config, i: nat, node: Node, node': Node, key: nat)
    requires cfg.Valid() && NodeShape(cfg, i, node) && InvokesAt(cfg, i, node, node') && key < cfg.Planned()
    requires node.registers[key].rid == 0
    ensures OpOk(cfg, cfg.Reads(i, key), i, node'.registers[key], node'.readLists[key], Querying, {}, cfg.Ranks())
  {
  }

  lemma InvokedOp(cfg: Config, s: System, i: nat, s': System, sent: seq<Packet>, o: OpId)
    requires HasShape(cfg, s) && HasShape(cfg, s') && i in cfg.Ranks() && o in s.ops && o in s'.ops && OpInv(cfg, s, o)
    requires InvokesAt(cfg, i, s.nodes[i], s'.nodes[i]) == true && s'.ops[o].phase.Querying?
    requires s.ops[o].phase.Idle? && o.1 == i && o.0 < cfg.Planned() && Started(s', i)
    requires Flying(cfg, s'.net) == Flying(cfg, s.net) + QuerySlots(cfg, i)
    ensures OpInv(cfg, s', o) == true
  {
    InvokedReplies(cfg, s, i, s', o);
    InvokedFits(cfg, i, s.nodes[i], s'.nodes[i], o.0);
  }

  lemma UninvokedOp(cfg: Config, s: System, i: nat, s': System, sent: seq<Packet>, o: OpId)
    requires HasShape(cfg, s) && HasShape(cfg, s') && i in cfg.Ranks() && Invokes(cfg, s, i, s', sent) && o in s.ops && OpInv(cfg, s, o)
    requires o.1 != i || o.0 >= cfg.Planned()
    requires if o.1 == i then Started(s', i) else Started(s', o.1) == Started(s, o.1)
    requires Flying(cfg, s'.net) == Flying(cfg, s.net) + QuerySlots(cfg, i)
    ensures OpInv(cfg, s', o) == true
  {
    assert forall j :: Query(o, j) !in QuerySlots(cfg, i);
    assert Replied(cfg, s', o) == Replied(cfg, s, o);
    assert Acked(cfg, s', o) == Acked(cfg, s, o);
  }

  lemma InvokedCounts(cfg: Config, s: System, i: nat, s': System, sent: seq<Packet>)
    requires HasShape(cfg, s) && HasShape(cfg, s') && i in cfg.Ranks() && Invokes(cfg, s, i, s', sent)
    requires CountInv(cfg, s, i) && !Started(s, i) && Started(s', i)
    ensures CountInv(cfg, s', i) == true
  {
    PlannedKeys(cfg, i);
    assert Unanswered(cfg, s', i, true) == PlannedOf(cfg, i, true);
    assert Unanswered(cfg, s', i, false) == PlannedOf(cfg, i, false);
  }

  /** The keys that a node reads, or writes. */
  function PlannedOf(cfg: Config, i: nat, isRead: bool): set<nat> {
    set k: nat | k in Below(cfg.Planned()) && cfg.Reads(i, k) == isRead
  }

  lemma PlannedKeys(cfg: Config, i: nat)
    ensures |PlannedOf(cfg, i, true)| == cfg.numReads && |PlannedOf(cfg, i, false)| == cfg.numWrites
  {
    var first, split := i % 2 == 0, if i % 2 == 0 then cfg.numReads else cfg.numWrites;
    assert PlannedOf(cfg, i, first) == Below(split);
    assert PlannedOf(cfg, i, !first) == Below(cfg.Planned()) - Below(split);
    BelowSize(split);
    BelowSize(cfg.Planned());
    assert Below(cfg.Planned()) == Below(split) + (Below(cfg.Planned()) - Below(split));
  }

  lemma InvokeKeepsOp(cfg: Config, s: System, i: nat, s': System, sent: seq<Packet>, o: OpId)
    requires HasShape(cfg, s) && HasShape(cfg, s') && i in cfg.Ranks() && Invokes(cfg, s, i, s', sent) == true
    requires o in s.ops && o in s'.ops && OpInv(cfg, s, o) && s.net[RunPacket(i)] == 1
    requires Flying(cfg, s'.net) == Flying(cfg, s.net) + QuerySlots(cfg, i)
    ensures OpInv(cfg, s', o) == true
  {
    InvokeStarts(cfg, s, i, s', sent, o.1);
    if o.1 == i && o.0 < cfg.Planned() {
      InvokedOp(cfg, s, i, s', sent, o);
    } else {
      UninvokedOp(cfg, s, i, s', sent, o);
    }
  }

  lemma InvokeKeepsAcks(cfg: Config, s: System, i: nat, s': System, sent: seq<Packet>, o: OpId)
    requires HasShape(cfg, s) && HasShape(cfg, s') && i in cfg.Ranks() && Invokes(cfg, s, i, s', sent) == true
    requires Evolves(cfg, s, s') && o in s.ops && o in s'.ops && AcksHold(cfg, s, o)
    requires Flying(cfg, s'.net) == Flying(cfg, s.net) + QuerySlots(cfg, i)
    ensures AcksHold(cfg, s', o) == true
  {
    assert Acked(cfg, s', o) == Acked(cfg, s, o);
    assert s'.ops[o].phase.HasTag() ==> s.ops[o].phase.HasTag();
  }

  lemma InvokeKeepsCounts(cfg: Config, s: System, i: nat, s': System, sent: seq<Packet>, j: nat)
    requires HasShape(cfg, s) && HasShape(cfg, s') && i in cfg.Ranks() && Invokes(cfg, s, i, s', sent) == true
    requires s.net[RunPacket(i)] == 1 && j in cfg.Ranks() && CountInv(cfg, s, j)
    ensures CountInv(cfg, s', j) == true
  {
    InvokeStarts(cfg, s, i, s', sent, j);
    if j == i {
      InvokedCounts(cfg, s, i, s', sent);
    } else {
      CountKept(cfg, s, s', RunPacket(i), sent, j);
    }
  }

  lemma WaitingIsIdle(cfg: Config, s: System, i: nat)
    requires Inv(cfg, s) && i in cfg.Ranks() && !Started(s, i)
    ensures forall o: OpId | o in s.ops && o.1 == i :: s.ops[o].phase.Idle?
    ensures s.net[RunPacket(i)] == 1
  {
    assert PacketInv(cfg, s, RunPacket(i));
    forall o: OpId | o in s.ops && o.1 == i ensures s.ops[o].phase.Idle? {
      assert OpInv(cfg, s, o);
    }
  }

  lemma InvokeSettles(cfg: Config, s: System, i: nat, s': System, sent: seq<Packet>)
    requires Inv(cfg, s) && i in cfg.Ranks() && RunPacket(i) in s.net && Invokes(cfg, s, i, s', sent)
    ensures Evolves(cfg, s, s') && s'.ops.Keys == s.ops.Keys && s'.finished == s.finished && s.net[RunPacket(i)] == 1
    ensures forall k: nat | k < cfg.Planned() :: (k, i) in s'.ops && s'.ops[(k, i)].phase.Querying?
    ensures s'.net == NetAfter(s.net, RunPacket(i), sent) && SendsRequests(cfg, i, sent) == true
  {
    WaitingIsIdle(cfg, s, i);
    InvokeEvolves(cfg, s, i, s', sent);
    assert forall k: nat | k < cfg.Planned() :: (k, i) in s.ops;
  }

  lemma InvokeKeepsAllOps(cfg: Config, s: System, i: nat, s': System, sent: seq<Packet>)
    requires HasShape(cfg, s) && i in cfg.Ranks() && Invokes(cfg, s, i, s', sent) == true
    requires Evolves(cfg, s, s') && s.net[RunPacket(i)] == 1
    requires Flying(cfg, s'.net) == Flying(cfg, s.net) + QuerySlots(cfg, i)
    requires forall o | o in s.ops :: OpInv(cfg, s, o) && AcksHold(cfg, s, o)
    requires forall j | j in cfg.Ranks() :: CountInv(cfg, s, j)
    ensures forall o | o in s'.ops :: OpInv(cfg, s', o) == true && AcksHold(cfg, s', o) == true
    ensures forall j | j in cfg.Ranks() :: CountInv(cfg, s', j) == true
  {
    forall o | o in s'.ops ensures OpInv(cfg, s', o) == true && AcksHold(cfg, s', o) == true {
      InvokeKeepsOp(cfg, s, i, s', sent, o);
      InvokeKeepsAcks(cfg, s, i, s', sent, o);
    }
    forall j | j in cfg.Ranks() ensures CountInv(cfg, s', j) == true {
      InvokeKeepsCounts(cfg, s, i, s', sent, j);
    }
  }

  lemma InvokeKeepsInv(cfg: Config, s: System, i: nat, s': System, sent: seq<Packet>)
    requires Inv(cfg, s) && i in cfg.Ranks() && RunPacket(i) in s.net && Invokes(cfg, s, i, s', sent) == true
    ensures Inv(cfg, s') == true
  {
    InvokeSettles(cfg, s, i, s', sent);
    InvokedSlots(cfg, s, i, s', sent);
    InvokeNet(cfg, s, i, s', sent);
    InvokeKeepsAllOps(cfg, s, i, s', sent);
    InvOfParts(cfg, s');
  }
}
