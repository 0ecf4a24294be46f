/** What one delivery can do: nine kinds of event, and the one that happens is always one of them. */
module RegisterEvents {
  import opened Collections
  import opened Histories
  import opened RegisterNode
  import opened RegisterProtocol
  import opened RegisterSafety

  datatype Event =
    | Ignored              // a message of another run
    | Invoked              // Run: the node sends out its queries
    | Told                 // Read: the replica answers with its value
    | Applied              // Write: the replica takes a larger tag and acknowledges
    | Noted                // Value: before the query majority, or late
    | Skipped              // Value: the majority of a read that need not impose
    | Imposed(tag: Tag)    // Value: the majority of any other operation
    | Counted              // Ack: before the majority, or late
    | Completed            // Ack: the majority

  /** The fields that a reply leaves alone. */
  predicate SameControl(r: Register, r': Register) {
    r'.rid == r.rid && r'.acks == r.acks && r'.reading == r.reading && r'.writeval == r.writeval && r'.GetTag() == r.GetTag()
  }

  function OpAt(p: Packet): OpId
    requires IsProtocol(p.msg)
  {
    (p.msg.key, p.dst)
  }

  function EntryOf(m: Msg): Entry
    requires m.Value?
  {
    Entry(m.ts, m.wr, m.value)
  }

  /** The read list of the receiver with the reply `p` in it. */
  function Extended(node: Node, p: Packet): ReadList
    requires p.msg.Value? && p.msg.key in node.readLists
  {
    node.readLists[p.msg.key][p.src := EntryOf(p.msg)]
  }

  /** The tag that a query majority makes an operation impose. */
  ghost predicate Chooses(cfg: Config, o: OpId, list: ReadList, tag: Tag) {
    exists max :: IsMaxEntry(list, max) && tag == if cfg.Reads(o.1, o.0) then max.GetTag() else Tag(max.ts + 1, o.1)
  }

  function AckTo(p: Packet): Packet
    requires p.msg.Write?
  {
    Packet(p.dst, p.src, Ack(p.msg.runId, p.msg.key, p.msg.rid))
  }

  function ReplyTo(p: Packet, r: Register): Packet
    requires p.msg.Read?
  {
    Packet(p.dst, p.src, Value(p.msg.runId, p.msg.key, p.msg.rid, r.ts, r.wr, r.value, p.dst))
  }

  function BcastOf(cfg: Config, o: OpId, tag: Tag, value: nat): seq<Packet> {
    seq(cfg.n, j requires 0 <= j < cfg.n => Packet(o.1, j + 1, Write(cfg.runId, o.0, 1, tag.ts, tag.wr, value)))
  }

  /** The node counts its response to an operation, and reports if it was the last one. */
  ghost predicate Answers(cfg: Config, node: Node, key: nat, node': Node, sent: seq<Packet>) {
    && (if cfg.Reads(node.rank, key) then node.readCount == node'.readCount + 1 && node.writeCount == node'.writeCount
        else node.readCount == node'.readCount && node.writeCount == node'.writeCount + 1)
    && (if node'.readCount == 0 && node'.writeCount == 0 then exists trace :: sent == [Report(cfg, node.rank, trace)]
        else sent == [])
  }

  /** The node answers no operation. */
  predicate StaysQuiet(node: Node, node': Node, sent: seq<Packet>) {
    && node'.readCount == node.readCount && node'.writeCount == node.writeCount
    && forall q | q in sent :: IsProtocol(q.msg)
  }

  /** Only the register and the read list of `key`, the counters and the log have changed. */
  predicate OnlyAt(node: Node, key: nat, node': Node) {
    && node'.n == node.n && node'.rank == node.rank && node'.runId == node.runId && node'.testing == node.testing
    && node'.numReads == node.numReads && node'.numWrites == node.numWrites
    && node.Knows(key) && node'.Knows(key)
    && node'.registers == node.registers[key := node'.registers[key]]
    && node'.readLists == node.readLists[key := node'.readLists[key]]
  }

  /** Event `e` at the receiver of `p`, whose operation goes from `phase` to `phase'`. */
  ghost predicate Reacts(cfg: Config, p: Packet, node: Node, phase: OpPhase, node': Node, phase': OpPhase, e: Event, sent: seq<Packet>)
    requires IsCurrent(cfg, p)
  {
    var key := p.msg.key;
    && OnlyAt(node, key, node')
    && var reg, list, reg', list' := node.registers[key], node.readLists[key], node'.registers[key], node'.readLists[key];
       match e
       case Ignored => false
       case Invoked => false
       case Told =>
         p.msg.Read? && node' == node && phase' == phase && sent == [ReplyTo(p, reg)]
       case Applied =>
         && p.msg.Write? && StaysQuiet(node, node', sent) && phase' == phase && list' == list && sent == [AckTo(p)]
         && reg' == if Tag(p.msg.ts, p.msg.wr).Exceeds(reg.GetTag())
                    then reg.(ts := p.msg.ts, wr := p.msg.wr, value := p.msg.value) else reg
       case Noted =>
         && p.msg.Value? && StaysQuiet(node, node', sent) && phase' == phase && SameControl(reg, reg') && sent == []
         && list' == Extended(node, p) && (phase.Querying? ==> |list'| <= cfg.n / 2)
       case Skipped =>
         && p.msg.Value? && Answers(cfg, node, key, node', sent) && phase.Querying? && phase' == Responded(None)
         && SameControl(reg, reg') && list' == map[] && |Extended(node, p)| > cfg.n / 2 && cfg.Reads(node.rank, key)
       case Imposed(tag) =>
         && p.msg.Value? && StaysQuiet(node, node', sent) && phase.Querying? && phase' == Imposing(tag)
         && SameControl(reg, reg') && list' == map[] && |Extended(node, p)| > cfg.n / 2
         && Chooses(cfg, (key, node.rank), Extended(node, p), tag)
         && exists value :: sent == BcastOf(cfg, (key, node.rank), tag, value)
       case Counted =>
         && p.msg.Ack? && StaysQuiet(node, node', sent) && phase' == phase && list' == list && sent == []
         && reg' == reg.(acks := reg.acks + 1) && (phase.Imposing? ==> reg'.acks <= cfg.n / 2)
       case Completed =>
         && p.msg.Ack? && Answers(cfg, node, key, node', sent) && phase.Imposing? && phase' == Responded(Some(phase.tag))
         && list' == list && reg' == reg.(acks := 0) && reg.acks + 1 > cfg.n / 2
  }

  /** The system around the receiver after it has handled `p` and sent `sent`. */
  ghost predicate Moved(s: System, p: Packet, s': System, sent: seq<Packet>)
    requires IsProtocol(p.msg)
  {
    var o := OpAt(p);
    && p.dst in s.nodes && p.dst in s'.nodes && o in s.ops && o in s'.ops
    && s'.nodes == s.nodes[p.dst := s'.nodes[p.dst]]
    && s'.ops == s.ops[o := s.ops[o].(phase := s'.ops[o].phase)]
    && s'.net == NetAfter(s.net, p, sent)
    && s'.finished == ObservedFinish(s, p, sent)
  }

  /** Event `e` takes `s` to `s'` by the delivery of a message of the current run. */
  ghost predicate Happens(cfg: Config, s: System, p: Packet, s': System, e: Event, sent: seq<Packet>)
    requires IsCurrent(cfg, p)
  {
    && Moved(s, p, s', sent)
    && Reacts(cfg, p, s.nodes[p.dst], s.ops[OpAt(p)].phase, s'.nodes[p.dst], s'.ops[OpAt(p)].phase, e, sent)
  }

  // Facts about the receiver before the delivery.

  /** What the invariant says of the operation that a reply belongs to. */
  ghost predicate ReplyFits(cfg: Config, s: System, p: Packet)
    requires HasShape(cfg, s) && IsCurrent(cfg, p)
  {
    var o := OpAt(p);
    && o in s.ops && p.src in cfg.Ranks() && !s.ops[o].phase.Idle? && p.msg.rid == 1 && RegisterOf(s, o).rid == 1
    && RegisterOf(s, o).reading == cfg.Reads(o.1, o.0)
    && (p.msg.Value? ==> p.msg.senderRank == p.src && p.src !in Replied(cfg, s, o))
    && (p.msg.Ack? ==> p.src !in Acked(cfg, s, o) && s.ops[o].phase.HasTag())
  }

  lemma RepliesFit(cfg: Config, s: System, p: Packet)
    requires Inv(cfg, s) && p in s.net && IsCurrent(cfg, p) && (p.msg.Value? || p.msg.Ack?)
    ensures ReplyFits(cfg, s, p) && OpInv(cfg, s, OpAt(p)) && OpAt(p).0 < cfg.Planned()
  {
    assert PacketInv(cfg, s, p);
    assert OpInv(cfg, s, OpAt(p));
    assert SlotOf(p) in Flying(cfg, s.net);
  }

  /** A reply that arrives after the query majority is one of a minority. */
  lemma ReplyIsOneMore(cfg: Config, isRead: bool, rank: nat, reg: Register, list: ReadList, phase: OpPhase,
                       replied: set<nat>, acked: set<nat>, j: nat, e: Entry)
    requires OpOk(cfg, isRead, rank, reg, list, phase, replied, acked) && !phase.Idle?
    requires j in cfg.Ranks() && j !in replied && replied <= cfg.Ranks()
    ensures j !in list && |list[j := e]| == |list| + 1 && list[j := e].Keys == list.Keys + {j}
    ensures |list[j := e]| > cfg.n / 2 ==> phase.Querying? && |list[j := e]| == cfg.n / 2 + 1
  {
    RanksSize(cfg);
    SubsetSize(replied + {j}, cfg.Ranks());
    assert |replied + {j}| == |replied| + 1;
    assert |list| == |list.Keys|;
    assert |list[j := e]| == |list[j := e].Keys|;
  }

  lemma RepliesAreBounded(cfg: Config, s: System, p: Packet)
    requires HasShape(cfg, s) && IsCurrent(cfg, p) && p.msg.Value?
    requires ReplyFits(cfg, s, p) && OpInv(cfg, s, OpAt(p))
    ensures p.src !in ListOf(s, OpAt(p)) && |Extended(s.nodes[p.dst], p)| == |ListOf(s, OpAt(p))| + 1
    ensures Extended(s.nodes[p.dst], p).Keys == ListOf(s, OpAt(p)).Keys + {p.src}
    ensures |Extended(s.nodes[p.dst], p)| > cfg.n / 2 ==>
      s.ops[OpAt(p)].phase.Querying? && |Extended(s.nodes[p.dst], p)| == cfg.n / 2 + 1
  {
    var o := OpAt(p);
    ReplyIsOneMore(cfg, cfg.Reads(o.1, o.0), o.1, RegisterOf(s, o), ListOf(s, o), s.ops[o].phase,
                   Replied(cfg, s, o), Acked(cfg, s, o), p.src, EntryOf(p.msg));
  }

  /** An acknowledgement that arrives after the majority is one of a minority. */
  lemma AcksAreBounded(cfg: Config, s: System, p: Packet)
    requires HasShape(cfg, s) && IsCurrent(cfg, p) && p.msg.Ack?
    requires ReplyFits(cfg, s, p) && OpInv(cfg, s, OpAt(p))
    ensures RegisterOf(s, OpAt(p)).acks + 1 > cfg.n / 2 <==>
            s.ops[OpAt(p)].phase.Imposing? && RegisterOf(s, OpAt(p)).acks == cfg.n / 2
  {
    var acked := Acked(cfg, s, OpAt(p));
    RanksSize(cfg);
    SubsetSize(acked + {p.src}, cfg.Ranks());
    assert |acked + {p.src}| == |acked| + 1;
  }

  /** While an operation is open, its node's counter of such operations is not zero. */
  lemma OpenOpIsCounted(cfg: Config, s: System, o: OpId)
    requires Inv(cfg, s) && o in s.ops && o.0 < cfg.Planned() && !s.ops[o].phase.Responded? && !s.ops[o].phase.Idle?
    ensures Started(s, o.1)
    ensures if cfg.Reads(o.1, o.0) then s.nodes[o.1].readCount > 0 else s.nodes[o.1].writeCount > 0
    ensures o.1 !in s.finished
  {
    assert OpInv(cfg, s, o) && CountInv(cfg, s, o.1);
    assert o.0 in Unanswered(cfg, s, o.1, cfg.Reads(o.1, o.0));
  }

  // One lemma for each kind of message.

  /** The fields of the node and of the message that the receiver's choices depend on. */
  ghost predicate NodeFits(cfg: Config, node: Node, p: Packet)
    requires IsCurrent(cfg, p)
  {
    && cfg.n >= 1 && node.Knows(p.msg.key) && node.rank == p.dst && node.n == cfg.n && node.runId == cfg.runId && node.testing == cfg.testing
    && (p.msg.Value? || p.msg.Ack? ==>
          && p.msg.rid == 1 && node.registers[p.msg.key].rid == 1
          && node.registers[p.msg.key].reading == cfg.Reads(node.rank, p.msg.key))
    && (p.msg.Value? ==> p.msg.senderRank == p.src)
  }

  ghost predicate CanAnswer(cfg: Config, node: Node, key: nat) {
    if cfg.Reads(node.rank, key) then node.readCount > 0 else node.writeCount > 0
  }

  lemma ReadReacts(cfg: Config, node: Node, p: Packet, phase: OpPhase, now: int)
    requires IsCurrent(cfg, p) && p.msg.Read? && NodeFits(cfg, node, p)
    ensures Receive(node, p.src, p.msg, now) == Handled(node, [ReplyTo(p, node.registers[p.msg.key])])
    ensures Reacts(cfg, p, node, phase, node, phase, Told, [ReplyTo(p, node.registers[p.msg.key])]) == true
  {
  }

  lemma WriteReacts(cfg: Config, node: Node, p: Packet, phase: OpPhase, now: int) returns (node': Node)
    requires IsCurrent(cfg, p) && p.msg.Write? && NodeFits(cfg, node, p)
    ensures Receive(node, p.src, p.msg, now) == Handled(node', [AckTo(p)])
    ensures Reacts(cfg, p, node, phase, node', phase, Applied, [AckTo(p)]) == true
  {
    node' := Receive(node, p.src, p.msg, now).node;
    assert node'.registers == node.registers[p.msg.key := node'.registers[p.msg.key]];
    assert node'.readLists == node.readLists[p.msg.key := node'.readLists[p.msg.key]];
  }

  lemma Answered(cfg: Config, node: Node, key: nat, value: nat, now: int)
    requires CanAnswer(cfg, node, key) && node.testing == cfg.testing
    ensures var r := if cfg.Reads(node.rank, key) then AnswerRead(node, key, value, now) else AnswerWrite(node, key, now);
      r.Handled? && Answers(cfg, node, key, r.node, r.sent)
      && r.node.(readCount := node.readCount, writeCount := node.writeCount, timestamps := node.timestamps) == node
  {
    var r := if cfg.Reads(node.rank, key) then AnswerRead(node, key, value, now) else AnswerWrite(node, key, now);
    if r.sent != [] {
      assert exists trace :: r.sent == [Report(cfg, node.rank, trace)] by {
        var trace := if cfg.testing then r.sent[0].msg.timestamps else [];
        assert r.sent == [Report(cfg, node.rank, trace)];
      }
    }
  }

  lemma ValueReacts(cfg: Config, node: Node, p: Packet, phase: OpPhase, now: int)
    returns (node': Node, phase': OpPhase, e: Event, sent: seq<Packet>)
    requires IsCurrent(cfg, p) && p.msg.Value? && NodeFits(cfg, node, p)
    requires |Extended(node, p)| > cfg.n / 2 ==> phase.Querying?
    requires phase.Querying? ==> CanAnswer(cfg, node, p.msg.key)
    ensures Receive(node, p.src, p.msg, now) == Handled(node', sent)
    ensures ObservedPhase(phase, node, node', sent) == phase'
    ensures Reacts(cfg, p, node, phase, node', phase', e, sent) == true
  {
    var key := p.msg.key;
    var r := NoteValue(node.registers[key], node.readLists[key] == map[], p.msg);
    var full := Extended(node, p);
    if |full| <= cfg.n / 2 {
      e, sent, phase', node' := Noted, [], phase, node.WithRegister(key, r, full);
    } else if r.reading && r.skipImpose {
      var ready := node.WithRegister(key, r.(value := r.readval), map[]);
      Answered(cfg, ready, key, r.readval, now);
      var reaction := AnswerRead(ready, key, r.readval, now);
      e, sent, phase', node' := Skipped, reaction.sent, Responded(None), reaction.node;
    } else {
      var max := MaxEntry(full);
      var write := ImposedWrite(node, r, p.msg, max);
      var tag := Tag(write.ts, write.wr);
      assert Chooses(cfg, (key, node.rank), full, tag);
      e, sent, phase', node' := Imposed(tag), node.Bcast(write), Imposing(tag),
        node.WithRegister(key, r.(readval := max.value), map[]);
      assert sent == BcastOf(cfg, (key, node.rank), tag, write.value);
    }
    assert node'.registers == node.registers[key := node'.registers[key]];
    assert node'.readLists == node.readLists[key := node'.readLists[key]];
  }

  lemma AckReacts(cfg: Config, node: Node, p: Packet, phase: OpPhase, now: int)
    returns (node': Node, phase': OpPhase, e: Event, sent: seq<Packet>)
    requires IsCurrent(cfg, p) && p.msg.Ack? && NodeFits(cfg, node, p)
    requires node.registers[p.msg.key].acks + 1 > cfg.n / 2 <==> phase.Imposing? && node.registers[p.msg.key].acks == cfg.n / 2
    requires phase.Imposing? ==> CanAnswer(cfg, node, p.msg.key)
    ensures Receive(node, p.src, p.msg, now) == Handled(node', sent)
    ensures ObservedPhase(phase, node, node', sent) == phase'
    ensures Reacts(cfg, p, node, phase, node', phase', e, sent) == true
  {
    var key, r, list := p.msg.key, node.registers[p.msg.key], node.readLists[p.msg.key];
    if r.acks + 1 <= cfg.n / 2 {
      e, sent, phase', node' := Counted, [], phase, node.WithRegister(key, r.(acks := r.acks + 1), list);
    } else {
      var ready := node.WithRegister(key, r.(acks := 0), list);
      Answered(cfg, ready, key, r.readval, now);
      var reaction := if r.reading then AnswerRead(ready, key, r.readval, now) else AnswerWrite(ready, key, now);
      e, sent, phase', node' := Completed, reaction.sent, Responded(Some(phase.tag)), reaction.node;
    }
    assert node'.registers == node.registers[key := node'.registers[key]];
    assert node'.readLists == node.readLists[key := node'.readLists[key]];
  }

  lemma ReceiverFits(cfg: Config, s: System, p: Packet)
    requires Inv(cfg, s) && p in s.net && IsCurrent(cfg, p)
    ensures p.dst in s.nodes && OpAt(p) in s.ops && NodeFits(cfg, s.nodes[p.dst], p) == true
  {
    assert PacketInv(cfg, s, p);
    if p.msg.Value? || p.msg.Ack? {
      RepliesFit(cfg, s, p);
    }
  }

  lemma EventOfReaction(cfg: Config, s: System, p: Packet, now: int, node': Node, phase': OpPhase, e: Event, sent: seq<Packet>)
    requires IsCurrent(cfg, p) && p.dst in s.nodes && OpAt(p) in s.ops && p in s.net
    requires Receive(s.nodes[p.dst], p.src, p.msg, now) == Handled(node', sent)
    requires p.msg.Value? || p.msg.Ack? ==> ObservedPhase(s.ops[OpAt(p)].phase, s.nodes[p.dst], node', sent) == phase'
    requires p.msg.Read? || p.msg.Write? ==> phase' == s.ops[OpAt(p)].phase
    requires Reacts(cfg, p, s.nodes[p.dst], s.ops[OpAt(p)].phase, node', phase', e, sent) == true
    ensures Deliver(cfg, s, p, now) == Some(After(cfg, s, p, now, node', sent))
    ensures Happens(cfg, s, p, After(cfg, s, p, now, node', sent), e, sent) == true
  {
    ObservedOpsAre(cfg, s, p, node', phase', sent);
  }

  lemma ObservedOpsAre(cfg: Config, s: System, p: Packet, node': Node, phase': OpPhase, sent: seq<Packet>)
    requires IsCurrent(cfg, p) && p.dst in s.nodes && OpAt(p) in s.ops
    requires phase' == if p.msg.Value? || p.msg.Ack? then ObservedPhase(s.ops[OpAt(p)].phase, s.nodes[p.dst], node', sent)
                       else s.ops[OpAt(p)].phase
    ensures ObservedOps(cfg, s, p, s.nodes[p.dst], node', sent) == s.ops[OpAt(p) := s.ops[OpAt(p)].(phase := phase')]
  {
  }

  lemma ValueHappens(cfg: Config, s: System, p: Packet, now: int) returns (s': System, e: Event, sent: seq<Packet>)
    requires Inv(cfg, s) && p in s.net && IsCurrent(cfg, p) && p.msg.Value?
    ensures p.dst in s.nodes && Deliver(cfg, s, p, now) == Some(s') && s'.now == now && p.dst in s'.nodes
    ensures Receive(s.nodes[p.dst], p.src, p.msg, now) == Handled(s'.nodes[p.dst], sent)
    ensures Happens(cfg, s, p, s', e, sent) == true
  {
    ReceiverFits(cfg, s, p);
    RepliesFit(cfg, s, p);
    RepliesAreBounded(cfg, s, p);
    if s.ops[OpAt(p)].phase.Querying? {
      OpenOpIsCounted(cfg, s, OpAt(p));
    }
    var node', phase';
    node', phase', e, sent := ValueReacts(cfg, s.nodes[p.dst], p, s.ops[OpAt(p)].phase, now);
    EventOfReaction(cfg, s, p, now, node', phase', e, sent);
    s' := After(cfg, s, p, now, node', sent);
  }

  lemma AckHappens(cfg: Config, s: System, p: Packet, now: int) returns (s': System, e: Event, sent: seq<Packet>)
    requires Inv(cfg, s) && p in s.net && IsCurrent(cfg, p) && p.msg.Ack?
    ensures p.dst in s.nodes && Deliver(cfg, s, p, now) == Some(s') && s'.now == now && p.dst in s'.nodes
    ensures Receive(s.nodes[p.dst], p.src, p.msg, now) == Handled(s'.nodes[p.dst], sent)
    ensures Happens(cfg, s, p, s', e, sent) == true
  {
    ReceiverFits(cfg, s, p);
    RepliesFit(cfg, s, p);
    AcksAreBounded(cfg, s, p);
    if s.ops[OpAt(p)].phase.Imposing? {
      OpenOpIsCounted(cfg, s, OpAt(p));
    }
    var node', phase';
    node', phase', e, sent := AckReacts(cfg, s.nodes[p.dst], p, s.ops[OpAt(p)].phase, now);
    EventOfReaction(cfg, s, p, now, node', phase', e, sent);
    s' := After(cfg, s, p, now, node', sent);
  }

  lemma RequestHappens(cfg: Config, s: System, p: Packet, now: int) returns (s': System, e: Event, sent: seq<Packet>)
    requires Inv(cfg, s) && p in s.net && IsCurrent(cfg, p) && (p.msg.Read? || p.msg.Write?)
    ensures p.dst in s.nodes && Deliver(cfg, s, p, now) == Some(s') && s'.now == now && p.dst in s'.nodes
    ensures Receive(s.nodes[p.dst], p.src, p.msg, now) == Handled(s'.nodes[p.dst], sent)
    ensures Happens(cfg, s, p, s', e, sent) == true
  {
    ReceiverFits(cfg, s, p);
    var node, phase := s.nodes[p.dst], s.ops[OpAt(p)].phase;
    var node' := node;
    if p.msg.Read? {
      e, sent := Told, [ReplyTo(p, node.registers[p.msg.key])];
      ReadReacts(cfg, node, p, phase, now);
    } else {
      e, sent := Applied, [AckTo(p)];
      node' := WriteReacts(cfg, node, p, phase, now);
    }
    EventOfReaction(cfg, s, p, now, node', phase, e, sent);
    s' := After(cfg, s, p, now, node', sent);
  }

  /** A message of the current run is always handled, by one of these events. */
  lemma SomethingHappens(cfg: Config, s: System, p: Packet, now: int) returns (s': System, e: Event, sent: seq<Packet>)
    requires Inv(cfg, s) && p in s.net && IsCurrent(cfg, p)
    ensures p.dst in s.nodes && Deliver(cfg, s, p, now) == Some(s') && s'.now == now && p.dst in s'.nodes
    ensures Receive(s.nodes[p.dst], p.src, p.msg, now) == Handled(s'.nodes[p.dst], sent)
    ensures Happens(cfg, s, p, s', e, sent) == true
  {
    if p.msg.Value? {
      s', e, sent := ValueHappens(cfg, s, p, now);
    } else if p.msg.Ack? {
      s', e, sent := AckHappens(cfg, s, p, now);
    } else {
      s', e, sent := RequestHappens(cfg, s, p, now);
    }
  }
}
