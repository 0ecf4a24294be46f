/** The log of one operation, and how a delivery extends it. */
module RegisterParts {
  import opened Collections
  import opened Histories
  import opened RegisterNode
  import opened RegisterProtocol
  import opened RegisterSafety
  import opened RegisterEvents
  import opened RegisterInvariant
  import opened RegisterRuns
  import opened RegisterTheorems
  import opened RegisterLogs
  import opened RegisterDetails

  /** The entries of an operation that its node has logged or reported. */
  function Part(s: System, o: OpId): Trace
    requires o.1 in s.nodes
  {
    Filter(LogOf(s, o.1), Only(o))
  }

  predicate Responds(e: Event) {
    e.Skipped? || e.Completed?
  }

  /** A response adds the answer, an invocation its entry, both with the time of the delivery. */
  ghost predicate PartStep(cfg: Config, s: System, p: Packet, s': System, e: Event, o: OpId)
    requires o.1 in s.nodes && o.1 in s'.nodes
  {
    if Responds(e) && IsProtocol(p.msg) && o == OpAt(p) then
      && (p.msg.Value? || p.msg.Ack?) && s.nodes[o.1].Knows(o.0)
      && Part(s', o) == Part(s, o) + [ResponseEntry(cfg, o.0, o.1, AnswerGiven(s.nodes[o.1], p.msg), s'.now)]
    else if e.Invoked? && o.1 == p.dst && o.0 < cfg.Planned() then
      |Part(s', o)| == |Part(s, o)| + 1 && Part(s, o) <= Part(s', o) && Part(s', o)[|Part(s, o)|].time == s'.now
    else Part(s', o) == Part(s, o)
  }

  lemma EventParts(cfg: Config, s: System, p: Packet, s': System, e: Event, o: OpId)
    requires HasShape(cfg, s) && HasShape(cfg, s') && IsProtocol(p.msg) && !e.Invoked? && o in s.ops
    requires LogStep(cfg, s, p, s', Responds(e))
    ensures o.1 in s.nodes && o.1 in s'.nodes && PartStep(cfg, s, p, s', e, o) == true
  {
    if o.1 == p.dst && Responds(e) {
      var entry := ResponseEntry(cfg, p.msg.key, p.dst, AnswerGiven(s.nodes[p.dst], p.msg), s'.now);
      FilterConcat(LogOf(s, p.dst), [entry], Only(o));
      assert Filter([entry], Only(o)) == if o == OpAt(p) then [entry] else [];
      assert Part(s, o) + [] == Part(s, o);
    }
  }

  lemma LogBecomes(log: Trace, more: Trace, o: OpId, entry: KVTimestamp, log': Trace)
    requires log' == log + more && Filter(more, Only(o)) == [entry]
    ensures var part, part' := Filter(log, Only(o)), Filter(log', Only(o));
            |part'| == |part| + 1 && part <= part' && part'[|part|] == entry
  {
    FilterConcat(log, more, Only(o));
  }

  lemma LogStays(log: Trace, more: Trace, o: OpId, log': Trace)
    requires log' == log + more && Filter(more, Only(o)) == []
    ensures Filter(log', Only(o)) == Filter(log, Only(o))
  {
    FilterConcat(log, more, Only(o));
  }

  /** What the invocation logs of one operation. */
  lemma InvokedEntries(cfg: Config, i: nat, node: Node, now: int, o: OpId)
    requires NodeShape(cfg, i, node) && cfg.testing && o.1 == i
    ensures Filter(InvokationLog(Ready(node), cfg.Planned(), now), Only(o)) ==
            if o.0 < cfg.Planned() then [InvokationEntry(Ready(node), o.0, now)] else []
    ensures o.0 < cfg.Planned() ==> InvokationEntry(Ready(node), o.0, now).time == now
  {
    InvokationEntries(Ready(node), cfg.Planned(), now, o);
  }

  lemma InvokeParts(cfg: Config, s: System, i: nat, s': System, o: OpId)
    requires HasShape(cfg, s) && HasShape(cfg, s') && i in cfg.Ranks() && InvokeLogStep(cfg, s, i, s') && cfg.testing && o in s.ops
    ensures o.1 in s.nodes && o.1 in s'.nodes && PartStep(cfg, s, RunPacket(i), s', Invoked, o) == true
  {
    if o.1 == i {
      var more := InvokationLog(Ready(s.nodes[i]), cfg.Planned(), s'.now);
      InvokedEntries(cfg, i, s.nodes[i], s'.now, o);
      if o.0 < cfg.Planned() {
        LogBecomes(LogOf(s, i), more, o, InvokationEntry(Ready(s.nodes[i]), o.0, s'.now), LogOf(s', i));
      } else {
        LogStays(LogOf(s, i), more, o, LogOf(s', i));
      }
    }
  }

  lemma InertParts(cfg: Config, s: System, p: Packet, s': System, sent: seq<Packet>, o: OpId)
    requires HasShape(cfg, s) && IsInert(cfg, s, p, s', sent) && o in s.ops
    ensures o.1 in s.nodes && o.1 in s'.nodes && PartStep(cfg, s, p, s', Ignored, o) == true
  {
  }

  lemma InvokeLogStepOf(cfg: Config, s: System, i: nat, s': System, sent: seq<Packet>)
    requires Inv(cfg, s) == true && HasShape(cfg, s) && HasShape(cfg, s') && i in cfg.Ranks() && RunPacket(i) in s.net && cfg.testing
    requires Invokes(cfg, s, i, s', sent) && InvokeOperations(s.nodes[i], s'.now) == Handled(s'.nodes[i], sent) && s.now <= s'.now
    ensures InvokeLogStep(cfg, s, i, s') == true
  {
    WaitingIsIdle(cfg, s, i);
    WaitingIsUnfinished(cfg, s, i);
    InvokedLog(cfg, s, i, s', sent);
    InvokeLogs(cfg, s, i, s', sent);
  }

  lemma InvokedParts(cfg: Config, s: System, i: nat, s': System, sent: seq<Packet>, o: OpId)
    requires HasShape(cfg, s) && HasShape(cfg, s') && i in cfg.Ranks() && RunPacket(i) in s.net && cfg.testing && o in s.ops
    requires Invokes(cfg, s, i, s', sent) && InvokeOperations(s.nodes[i], s'.now) == Handled(s'.nodes[i], sent) && s.now <= s'.now
    requires Inv(cfg, s) == true
    ensures o.1 in s.nodes && o.1 in s'.nodes && PartStep(cfg, s, RunPacket(i), s', Invoked, o) == true
  {
    InvokeLogStepOf(cfg, s, i, s', sent);
    InvokeParts(cfg, s, i, s', o);
  }

  lemma EventPartsOf(cfg: Config, s: System, p: Packet, s': System, e: Event, sent: seq<Packet>, o: OpId)
    requires HasShape(cfg, s) && HasShape(cfg, s') && cfg.testing && o in s.ops && !e.Ignored? && !e.Invoked?
    requires Inv(cfg, s) == true && Delivery(cfg, s, p, s', e, sent)
    ensures o.1 in s.nodes && o.1 in s'.nodes && PartStep(cfg, s, p, s', e, o) == true
  {
    EventLogStep(cfg, s, p, s', e, sent);
    EventParts(cfg, s, p, s', e, o);
  }

  /** What a delivery does to the log of an operation. */
  lemma DeliveryParts(cfg: Config, s: System, p: Packet, s': System, e: Event, sent: seq<Packet>, o: OpId)
    requires HasShape(cfg, s) && HasShape(cfg, s') && cfg.testing && o in s.ops
    requires Inv(cfg, s) == true && Delivery(cfg, s, p, s', e, sent) == true
    ensures o.1 in s.nodes && o.1 in s'.nodes && PartStep(cfg, s, p, s', e, o) == true
  {
    match e {
      case Ignored => InertParts(cfg, s, p, s', sent, o);
      case Invoked => InvokedParts(cfg, s, p.dst, s', sent, o);
      case _ => EventPartsOf(cfg, s, p, s', e, sent, o);
    }
  }
}
