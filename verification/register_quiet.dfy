/** Keys that are only read or only written: what they hold, and what their reads answer. */
module RegisterQuiet {
  import opened Collections
  import opened Histories
  import opened RegisterNode
  import opened RegisterProtocol
  import opened RegisterSafety
  import opened RegisterEvents
  import opened RegisterInvariant
  import opened RegisterRuns
  import opened RegisterTheorems
  import opened RegisterLogs
  import opened RegisterDetails
  import opened RegisterValues
  import opened RegisterParts
  import opened RegisterReach
  import opened RegisterResults

  /** No key is both read by one node and written by another. */
  predicate IsQuiet(cfg: Config) {
    cfg.n <= 1 || cfg.numReads == 0 || cfg.numWrites == 0
  }

  lemma QuietKeys(cfg: Config, key: nat)
    requires cfg.Valid() && IsQuiet(cfg) && key < cfg.Planned()
    ensures Unwritten(cfg, key) || Unread(cfg, key)
  {
    assert cfg.n <= 1 ==> forall i | i in cfg.Ranks() :: i == 1;
  }

  // Answers.

  /** A read that has been answered has answered 0. */
  ghost predicate ZeroAnswer(cfg: Config, s: System, o: OpId)
    requires o in s.ops && o.1 in s.nodes
  {
    s.ops[o].phase.Responded? && cfg.Reads(o.1, o.0) ==> |Part(s, o)| == 2 && Part(s, o)[1].value == Some(0)
  }

  lemma AnswerIsZero(cfg: Config, s: System, p: Packet, s': System, e: Event, sent: seq<Packet>)
    requires HasShape(cfg, s) && IsCurrent(cfg, p) && p in s.net && p.dst in cfg.Ranks() && Happens(cfg, s, p, s', e, sent)
    requires Details(cfg, p, s.nodes[p.dst], s'.nodes[p.dst], e, sent)
    requires p.msg.key < cfg.numKeys && ZeroKey(cfg, s, p.msg.key) && NotWriting(cfg, p, e, p.msg.key)
    requires OpAt(p) in s.ops && OpInv(cfg, s, OpAt(p)) && Responds(e) && cfg.Reads(p.dst, p.msg.key)
    ensures (p.msg.Value? || p.msg.Ack?) && s.nodes[p.dst].Knows(p.msg.key) && AnswerGiven(s.nodes[p.dst], p.msg) == 0
  {
    ZeroIsInnocent(cfg, s, p, s', e, sent, p.msg.key);
  }

  lemma DeliveryAnswersZero(cfg: Config, s: System, p: Packet, s': System, e: Event, sent: seq<Packet>, key: nat)
    requires Inv(cfg, s) == true && HasShape(cfg, s) && Delivery(cfg, s, p, s', e, sent) && Responds(e)
    requires key < cfg.numKeys && ZeroKey(cfg, s, key) && IsProtocol(p.msg) && OpAt(p).0 == key && cfg.Reads(p.dst, key)
    ensures (p.msg.Value? || p.msg.Ack?) && s.nodes[p.dst].Knows(p.msg.key) && AnswerGiven(s.nodes[p.dst], p.msg) == 0
  {
    DeliveryDetails(cfg, s, p, s', e, sent);
    ReceiverOpInv(cfg, s, p);
    AnswerIsZero(cfg, s, p, s', e, sent);
  }

  lemma OpenHasOneEntry(cfg: Config, s: System, o: OpId)
    requires HasShape(cfg, s) && LogInv(cfg, s) && cfg.testing && o in s.ops
    ensures s.ops[o].phase.Querying? || s.ops[o].phase.Imposing? ==> |Part(s, o)| == 1
    ensures s.ops[o].phase.Responded? ==> |Part(s, o)| == 2
    ensures s.ops[o].phase.Idle? ==> Part(s, o) == []
  {
    assert OpLogged(cfg, s, o);
  }

  lemma ZeroAnswerStep(cfg: Config, s: System, p: Packet, s': System, e: Event, o: OpId)
    requires o in s.ops && o in s'.ops && o.1 in s.nodes && o.1 in s'.nodes
    requires PhaseStep(cfg, s, p, s', e, o) && PartStep(cfg, s, p, s', e, o) && ZeroAnswer(cfg, s, o)
    requires s.ops[o].phase.Querying? || s.ops[o].phase.Imposing? ==> |Part(s, o)| == 1
    requires Responds(e) && IsProtocol(p.msg) && o == OpAt(p) && cfg.Reads(o.1, o.0) && (p.msg.Value? || p.msg.Ack?) && s.nodes[o.1].Knows(o.0) ==>
      AnswerGiven(s.nodes[o.1], p.msg) == 0
    ensures ZeroAnswer(cfg, s', o) == true
  {
  }

  lemma ZeroAnswerKept(cfg: Config, s: System, p: Packet, s': System, e: Event, sent: seq<Packet>, o: OpId)
    requires Known(cfg, s) == true && HasShape(cfg, s) && HasShape(cfg, s') && Delivery(cfg, s, p, s', e, sent) == true && cfg.testing
    requires o in s.ops && o in s'.ops && o.0 < cfg.numKeys && ZeroKey(cfg, s, o.0) == true && ZeroAnswer(cfg, s, o)
    ensures ZeroAnswer(cfg, s', o) == true
  {
    KnownParts(cfg, s);
    DeliveryPhases(cfg, s, p, s', e, sent, o);
    DeliveryParts(cfg, s, p, s', e, sent, o);
    OpenHasOneEntry(cfg, s, o);
    if Responds(e) && IsProtocol(p.msg) && o == OpAt(p) && cfg.Reads(o.1, o.0) {
      DeliveryAnswersZero(cfg, s, p, s', e, sent, o.0);
    }
    ZeroAnswerStep(cfg, s, p, s', e, o);
  }

  lemma KnownParts(cfg: Config, s: System)
    requires Known(cfg, s)
    ensures Inv(cfg, s) == true && HasShape(cfg, s) && (cfg.testing ==> LogInv(cfg, s) == true)
  {
  }

  // What holds of a quiet key in every state.

  ghost predicate QuietKey(cfg: Config, s: System, key: nat)
    requires HasShape(cfg, s) && key < cfg.numKeys
  {
    && (Unwritten(cfg, key) ==> ZeroKey(cfg, s, key))
    && (Unread(cfg, key) || key >= cfg.Planned() ==> AllGood(cfg, s, key, IsRankedEntry))
    && (Unwritten(cfg, key) && cfg.testing ==> forall i | i in cfg.Ranks() :: ZeroAnswer(cfg, s, (key, i)))
  }

  lemma SkipperReads(cfg: Config, p: Packet, node: Node, phase: OpPhase, node': Node, phase': OpPhase, e: Event, sent: seq<Packet>)
    requires IsCurrent(cfg, p) && Reacts(cfg, p, node, phase, node', phase', e, sent) && e.Skipped?
    ensures cfg.Reads(node.rank, p.msg.key)
  {
  }

  lemma DeliveredIsInFlight(cfg: Config, s: System, p: Packet, s': System, e: Event, sent: seq<Packet>)
    requires Delivery(cfg, s, p, s', e, sent)
    ensures p in s.net && s.now <= s'.now && (e.Invoked? <==> p.msg.Run?)
    ensures p.dst in s.nodes && (IsProtocol(p.msg) || p == RunPacket(p.dst))
  {
  }

  lemma ReceiverOp(cfg: Config, s: System, p: Packet)
    requires Inv(cfg, s) == true && p in s.net && IsCurrent(cfg, p)
    ensures p.dst in cfg.Ranks() && OpAt(p) in s.ops && p.msg.key < cfg.Planned()
  {
    ReceiverOpInv(cfg, s, p);
  }

  lemma SkippersRead(cfg: Config, s: System, p: Packet, s': System, e: Event, sent: seq<Packet>)
    requires Inv(cfg, s) == true && HasShape(cfg, s) == true && Delivery(cfg, s, p, s', e, sent) && e.Skipped?
    ensures IsCurrent(cfg, p) && p.msg.Value? && cfg.Reads(p.dst, p.msg.key)
  {
    DeliveryDetails(cfg, s, p, s', e, sent);
    SkipperReads(cfg, p, s.nodes[p.dst], s.ops[OpAt(p)].phase, s'.nodes[p.dst], s'.ops[OpAt(p)].phase, e, sent);
  }

  lemma QuietEvents(cfg: Config, p: Packet, e: Event, key: nat)
    requires IsCurrent(cfg, p) && p.dst in cfg.Ranks() && p.msg.key < cfg.Planned() && (e.Skipped? ==> cfg.Reads(p.dst, p.msg.key))
    ensures Unwritten(cfg, key) ==> NotWriting(cfg, p, e, key)
    ensures Unread(cfg, key) || key >= cfg.Planned() ==> NotSkipping(cfg, p, e, key)
  {
  }

  lemma EventsOfQuietKey(cfg: Config, s: System, p: Packet, s': System, e: Event, sent: seq<Packet>, key: nat)
    requires Inv(cfg, s) == true && HasShape(cfg, s) == true && Delivery(cfg, s, p, s', e, sent) == true && IsCurrent(cfg, p) && p in s.net
    ensures Unwritten(cfg, key) ==> NotWriting(cfg, p, e, key)
    ensures Unread(cfg, key) || key >= cfg.Planned() ==> NotSkipping(cfg, p, e, key)
  {
    ReceiverOp(cfg, s, p);
    if e.Skipped? {
      SkippersRead(cfg, s, p, s', e, sent);
    }
    QuietEvents(cfg, p, e, key);
  }

  lemma ZeroAnswersKept(cfg: Config, s: System, p: Packet, s': System, e: Event, sent: seq<Packet>, key: nat)
    requires HasShape(cfg, s) && HasShape(cfg, s') && key < cfg.numKeys && cfg.testing && ZeroKey(cfg, s, key) == true
    requires forall i | i in cfg.Ranks() :: ZeroAnswer(cfg, s, (key, i))
    requires Known(cfg, s) == true && Delivery(cfg, s, p, s', e, sent) == true
    ensures forall i | i in cfg.Ranks() :: ZeroAnswer(cfg, s', (key, i))
  {
    forall i | i in cfg.Ranks() ensures ZeroAnswer(cfg, s', (key, i)) == true {
      assert (key, i) in s.ops && (key, i) in s'.ops;
      ZeroAnswerKept(cfg, s, p, s', e, sent, (key, i));
    }
  }

  lemma UnwrittenKept(cfg: Config, s: System, p: Packet, s': System, e: Event, sent: seq<Packet>, key: nat)
    requires HasShape(cfg, s) && HasShape(cfg, s') && key < cfg.numKeys && Unwritten(cfg, key) && QuietKey(cfg, s, key)
    requires IsCurrent(cfg, p) ==> NotWriting(cfg, p, e, key)
    requires Known(cfg, s) == true && Inv(cfg, s) == true && Delivery(cfg, s, p, s', e, sent) == true
    ensures ZeroKey(cfg, s', key) == true && (cfg.testing ==> forall i | i in cfg.Ranks() :: ZeroAnswer(cfg, s', (key, i)))
  {
    ZeroKept(cfg, s, p, s', e, sent, key);
    if cfg.testing {
      ZeroAnswersKept(cfg, s, p, s', e, sent, key);
    }
  }

  lemma UnreadKept(cfg: Config, s: System, p: Packet, s': System, e: Event, sent: seq<Packet>, key: nat)
    requires HasShape(cfg, s) && HasShape(cfg, s') && key < cfg.numKeys && (Unread(cfg, key) || key >= cfg.Planned()) && QuietKey(cfg, s, key)
    requires IsCurrent(cfg, p) ==> NotSkipping(cfg, p, e, key)
    requires Inv(cfg, s) == true && Delivery(cfg, s, p, s', e, sent) == true
    ensures AllGood(cfg, s', key, IsRankedEntry) == true
  {
    RankedKept(cfg, s, p, s', e, sent, key);
  }

  lemma QuietKeyKept(cfg: Config, s: System, p: Packet, s': System, e: Event, sent: seq<Packet>, key: nat)
    requires HasShape(cfg, s) && HasShape(cfg, s') && key < cfg.numKeys && QuietKey(cfg, s, key) == true
    requires Known(cfg, s) == true && Delivery(cfg, s, p, s', e, sent) == true
    ensures QuietKey(cfg, s', key) == true
  {
    KnownParts(cfg, s);
    DeliveredIsInFlight(cfg, s, p, s', e, sent);
    if IsCurrent(cfg, p) {
      EventsOfQuietKey(cfg, s, p, s', e, sent, key);
    }
    if Unwritten(cfg, key) {
      UnwrittenKept(cfg, s, p, s', e, sent, key);
    }
    if Unread(cfg, key) || key >= cfg.Planned() {
      UnreadKept(cfg, s, p, s', e, sent, key);
    }
  }

  ghost predicate KeyIsQuiet(cfg: Config, s: System, key: nat) {
    HasShape(cfg, s) && key < cfg.numKeys && QuietKey(cfg, s, key)
  }

  lemma InitialQuietKey(cfg: Config, s: System, key: nat)
    requires cfg.Valid() && IsInitial(cfg, s) && key < cfg.numKeys
    ensures KeyIsQuiet(cfg, s, key) == true
  {
    InitialNet(cfg, s);
    InitialValues(cfg, s, key);
    forall i | i in cfg.Ranks() ensures (key, i) in s.ops && ZeroAnswer(cfg, s, (key, i)) {
    }
  }

  lemma AlwaysQuietKey(cfg: Config, run: seq<System>, k: nat, key: nat)
    requires IsRun(cfg, run) == true && k < |run| && key < cfg.numKeys
    ensures KeyIsQuiet(cfg, run[k], key) == true
  {
    RunStartsQuiet(cfg, run, key);
    var holds := s => KeyIsQuiet(cfg, s, key);
    forall s: System, p: Packet, s': System, e: Event, sent: seq<Packet> |
      Known(cfg, s) && Known(cfg, s') && holds(s) && Delivery(cfg, s, p, s', e, sent)
      ensures holds(s')
    {
      KnownParts(cfg, s');
      QuietKeyKept(cfg, s, p, s', e, sent, key);
    }
    HoldsInRun(cfg, run, k, holds);
  }

  lemma RunStartsQuiet(cfg: Config, run: seq<System>, key: nat)
    requires IsRun(cfg, run) && key < cfg.numKeys
    ensures |run| > 0 && KeyIsQuiet(cfg, run[0], key) == true
  {
    InitialQuietKey(cfg, run[0], key);
  }
}
