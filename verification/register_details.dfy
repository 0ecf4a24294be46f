/** What a delivery does to the fields that hold values: the details behind the events. */
module RegisterDetails {
  import opened Collections
  import opened Histories
  import opened RegisterNode
  import opened RegisterProtocol
  import opened RegisterSafety
  import opened RegisterEvents
  import opened RegisterInvariant
  import opened RegisterRuns
  import opened RegisterTheorems

  /** The receiver's register with the reply noted. */
  function NotedAt(node: Node, p: Packet): Register
    requires p.msg.Value? && node.Knows(p.msg.key)
  {
    NoteValue(node.registers[p.msg.key], node.readLists[p.msg.key] == map[], p.msg)
  }

  /** The largest entry that a query majority has seen. */
  ghost predicate ChoosesFrom(cfg: Config, node: Node, p: Packet, max: Entry, tag: Tag, value: nat)
    requires p.msg.Value? && node.Knows(p.msg.key)
  {
    && IsMaxEntry(Extended(node, p), max)
    && (if cfg.Reads(node.rank, p.msg.key) then tag == max.GetTag() && value == max.value
        else tag == Tag(max.ts + 1, node.rank) && value == node.registers[p.msg.key].writeval)
  }

  ghost predicate Details(cfg: Config, p: Packet, node: Node, node': Node, e: Event, sent: seq<Packet>)
    requires IsCurrent(cfg, p)
  {
    var key := p.msg.key;
    && node.Knows(key) && node'.Knows(key)
    && var r, r' := node.registers[key], node'.registers[key];
       match e
       case Ignored => false
       case Invoked => false
       case Told => r' == r
       case Applied =>
         p.msg.Write? && r' == if Tag(p.msg.ts, p.msg.wr).Exceeds(r.GetTag())
                               then r.(ts := p.msg.ts, wr := p.msg.wr, value := p.msg.value) else r
       case Noted => p.msg.Value? && r' == NotedAt(node, p)
       case Skipped =>
         p.msg.Value? && NotedAt(node, p).skipImpose && r' == NotedAt(node, p).(value := NotedAt(node, p).readval)
       case Imposed(tag) =>
         && p.msg.Value? && (r.reading ==> !NotedAt(node, p).skipImpose)
         && exists max, value :: ChoosesFrom(cfg, node, p, max, tag, value) && r' == NotedAt(node, p).(readval := max.value)
                                 && sent == BcastOf(cfg, (key, node.rank), tag, value)
       case Counted => r' == r.(acks := r'.acks)
       case Completed => r' == r.(acks := r'.acks)
  }

  lemma ValueDetails(cfg: Config, p: Packet, now: int, node: Node, phase: OpPhase, node': Node, phase': OpPhase, e: Event, sent: seq<Packet>)
    requires IsCurrent(cfg, p) && p.msg.Value? && NodeFits(cfg, node, p)
    requires Receive(node, p.src, p.msg, now) == Handled(node', sent)
    requires Reacts(cfg, p, node, phase, node', phase', e, sent)
    ensures Details(cfg, p, node, node', e, sent) == true
  {
    var full, r := Extended(node, p), NotedAt(node, p);
    if |full| > cfg.n / 2 && !(r.reading && r.skipImpose) {
      var max := MaxEntry(full);
      var write := ImposedWrite(node, r, p.msg, max);
      assert sent == node.Bcast(write);
      assert sent[0] in sent;
      assert sent == BcastOf(cfg, (p.msg.key, node.rank), Tag(write.ts, write.wr), write.value);
      assert e.Imposed? && e.tag == Tag(write.ts, write.wr);
      assert ChoosesFrom(cfg, node, p, max, e.tag, write.value);
    }
  }

  lemma EventDetails(cfg: Config, p: Packet, now: int, node: Node, phase: OpPhase, node': Node, phase': OpPhase, e: Event, sent: seq<Packet>)
    requires IsCurrent(cfg, p) && NodeFits(cfg, node, p)
    requires Receive(node, p.src, p.msg, now) == Handled(node', sent)
    requires Reacts(cfg, p, node, phase, node', phase', e, sent)
    ensures Details(cfg, p, node, node', e, sent) == true
  {
    if p.msg.Value? {
      ValueDetails(cfg, p, now, node, phase, node', phase', e, sent);
    }
  }

  // Deliveries with everything that is known about them.

  ghost predicate Delivery(cfg: Config, s: System, p: Packet, s': System, e: Event, sent: seq<Packet>) {
    && Steps(cfg, s, p, s', e, sent) && p.dst in s.nodes && p.dst in s'.nodes && s.now <= s'.now
    && Receive(s.nodes[p.dst], p.src, p.msg, s'.now) == Handled(s'.nodes[p.dst], sent)
  }

  lemma RunDelivery(cfg: Config, s: System, p: Packet, now: int) returns (s': System, sent: seq<Packet>)
    requires Inv(cfg, s) == true && p in s.net && p.dst in s.nodes && !IsProtocol(p.msg) && s.now <= now
    ensures Deliver(cfg, s, p, now) == Some(s') && s'.now == now
    ensures Delivery(cfg, s, p, s', Invoked, sent) == true
  {
    RunMessage(cfg, s, p);
    WaitingIsFresh(cfg, s, p.dst);
    s', sent := RunInvokes(cfg, s, p.dst, now);
  }

  lemma CurrentDelivery(cfg: Config, s: System, p: Packet, now: int) returns (s': System, e: Event, sent: seq<Packet>)
    requires Inv(cfg, s) == true && p in s.net && p.dst in s.nodes && IsCurrent(cfg, p) && s.now <= now
    ensures Deliver(cfg, s, p, now) == Some(s') && s'.now == now
    ensures Delivery(cfg, s, p, s', e, sent) == true && !e.Ignored? && !e.Invoked?
  {
    s', e, sent := SomethingHappens(cfg, s, p, now);
  }

  lemma StaleDelivery(cfg: Config, s: System, p: Packet, now: int) returns (s': System, sent: seq<Packet>)
    requires Inv(cfg, s) == true && p in s.net && p.dst in s.nodes && IsStale(cfg, p) && s.now <= now
    ensures Deliver(cfg, s, p, now) == Some(s') && s'.now == now
    ensures Delivery(cfg, s, p, s', Ignored, sent) == true
  {
    s', sent := StaleIsInert(cfg, s, p, now);
  }

  /** The arrival of `p` at time `now` takes `s` to `s'`. */
  ghost predicate Arrives(cfg: Config, s: System, p: Packet, now: int, s': System) {
    p in s.net && p.dst in s.nodes && s'.now == now && Deliver(cfg, s, p, now) == Some(s')
  }

  /** Every message that a node can receive is handled by a delivery of one of these kinds. */
  lemma DeliveryOf(cfg: Config, s: System, p: Packet, now: int) returns (s': System, e: Event, sent: seq<Packet>)
    requires Inv(cfg, s) == true && p in s.net && p.dst in s.nodes && s.now <= now
    ensures Arrives(cfg, s, p, now, s') == true && s'.now == now
    ensures Delivery(cfg, s, p, s', e, sent) == true
    ensures e.Ignored? <==> IsStale(cfg, p)
    ensures e.Invoked? <==> !IsProtocol(p.msg)
  {
    if !IsProtocol(p.msg) {
      s', sent := RunDelivery(cfg, s, p, now);
      e := Invoked;
    } else if IsCurrent(cfg, p) {
      s', e, sent := CurrentDelivery(cfg, s, p, now);
    } else {
      s', sent := StaleDelivery(cfg, s, p, now);
      e := Ignored;
    }
  }

  /** The details of the event of a delivery. */
  lemma DeliveryDetails(cfg: Config, s: System, p: Packet, s': System, e: Event, sent: seq<Packet>)
    requires Inv(cfg, s) && Delivery(cfg, s, p, s', e, sent) && !e.Ignored? && !e.Invoked?
    ensures IsCurrent(cfg, p) && Happens(cfg, s, p, s', e, sent) == true && NodeFits(cfg, s.nodes[p.dst], p) == true
    ensures Details(cfg, p, s.nodes[p.dst], s'.nodes[p.dst], e, sent) == true
  {
    ReceiverFits(cfg, s, p);
    EventDetails(cfg, p, s'.now, s.nodes[p.dst], s.ops[OpAt(p)].phase, s'.nodes[p.dst], s'.ops[OpAt(p)].phase, e, sent);
  }

  // Phases.

  /** How a delivery moves one operation. */
  ghost predicate PhaseStep(cfg: Config, s: System, p: Packet, s': System, e: Event, o: OpId)
    requires o in s.ops && o in s'.ops
  {
    var phase, phase' := s.ops[o].phase, s'.ops[o].phase;
    if e.Invoked? then
      if o.1 == p.dst && o.0 < cfg.Planned()
      then phase.Idle? && s'.ops[o] == OpRecord(Querying, CompletedTags(s.ops, o.0))
      else s'.ops[o] == s.ops[o]
    else
      && s'.ops[o].floor == s.ops[o].floor
      && if !e.Ignored? && IsProtocol(p.msg) && o == OpAt(p) then
           match e
           case Skipped => phase.Querying? && phase' == Responded(None)
           case Imposed(tag) => phase.Querying? && phase' == Imposing(tag)
           case Completed => phase.Imposing? && phase' == Responded(Some(phase.tag))
           case _ => phase' == phase
         else phase' == phase
  }

  lemma ReactionPhaseStep(cfg: Config, p: Packet, node: Node, phase: OpPhase, node': Node, phase': OpPhase, e: Event, sent: seq<Packet>)
    requires IsCurrent(cfg, p) && Reacts(cfg, p, node, phase, node', phase', e, sent)
    ensures match e
            case Skipped => phase.Querying? && phase' == Responded(None)
            case Imposed(tag) => phase.Querying? && phase' == Imposing(tag)
            case Completed => phase.Imposing? && phase' == Responded(Some(phase.tag))
            case _ => phase' == phase
  {
  }

  lemma InvokePhaseStep(cfg: Config, s: System, i: nat, s': System, sent: seq<Packet>, o: OpId)
    requires HasShape(cfg, s) && i in cfg.Ranks() && Invokes(cfg, s, i, s', sent) && o in s.ops
    requires forall x: OpId | x in s.ops && x.1 == i :: s.ops[x].phase.Idle?
    ensures o in s'.ops && PhaseStep(cfg, s, RunPacket(i), s', Invoked, o) == true
  {
  }

  lemma EventPhaseStep(cfg: Config, s: System, p: Packet, s': System, e: Event, sent: seq<Packet>, o: OpId)
    requires IsCurrent(cfg, p) && Happens(cfg, s, p, s', e, sent) && o in s.ops
    ensures o in s'.ops && PhaseStep(cfg, s, p, s', e, o) == true
  {
    ReactionPhaseStep(cfg, p, s.nodes[p.dst], s.ops[OpAt(p)].phase, s'.nodes[p.dst], s'.ops[OpAt(p)].phase, e, sent);
  }

  lemma InertPhaseStep(cfg: Config, s: System, p: Packet, s': System, sent: seq<Packet>, o: OpId)
    requires IsInert(cfg, s, p, s', sent) && o in s.ops
    ensures o in s'.ops && PhaseStep(cfg, s, p, s', Ignored, o) == true
  {
  }

  lemma DeliveryPhases(cfg: Config, s: System, p: Packet, s': System, e: Event, sent: seq<Packet>, o: OpId)
    requires Inv(cfg, s) == true && HasShape(cfg, s) && Delivery(cfg, s, p, s', e, sent) && o in s.ops
    ensures o in s'.ops && PhaseStep(cfg, s, p, s', e, o) == true
  {
    match e {
      case Ignored => InertPhaseStep(cfg, s, p, s', sent, o);
      case Invoked =>
        WaitingIsIdle(cfg, s, p.dst);
        InvokePhaseStep(cfg, s, p.dst, s', sent, o);
      case _ => EventPhaseStep(cfg, s, p, s', e, sent, o);
    }
  }
}
