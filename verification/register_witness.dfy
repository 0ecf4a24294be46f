/** What the runs that spoil a history have in common: who starts, what stays as it is, and stale reads. */
module RegisterWitness {
  import opened Collections
  import opened Histories
  import opened Linearizability
  import opened Locality
  import opened Verdicts
  import opened RegisterNode
  import opened RegisterProtocol
  import opened RegisterSafety
  import opened RegisterEvents
  import opened RegisterInvariant
  import opened RegisterRuns
  import opened RegisterTheorems
  import opened RegisterTags
  import opened RegisterQuorum
  import opened RegisterResults
  import opened RegisterLogs
  import opened RegisterDetails
  import opened RegisterValues
  import opened RegisterParts
  import opened RegisterReach
  import opened RegisterQuiet
  import opened RegisterReports

  // Stale reads in the results.

  /** A read of 0 that comes after a write of its key spoils the results. */
  lemma StaleResults(cfg: Config, s: System, arrival: seq<nat>, w: OpId, r: OpId)
    requires Known(cfg, s) == true && HasShape(cfg, s) && AllReported(cfg, s, arrival)
    requires PlannedOp(cfg, w) && PlannedOp(cfg, r) && w.0 == r.0 && !cfg.Reads(w.1, w.0) && cfg.Reads(r.1, r.0)
    requires |Part(s, r)| == 2 && Part(s, r)[1].value == Some(0)
    requires Precedes(SortByTime(Results(s, arrival)), w, r)
    ensures !TraceLinearizable(Results(s, arrival))
  {
    var h := SortByTime(Results(s, arrival));
    ResultsAreTrace(cfg, s, arrival);
    OpInResults(cfg, s, arrival, w);
    OpInResults(cfg, s, arrival, r);
    forall op | op in Ops(h) && IsOpIn(h, op) && op.0 == r.0 && IsWrite(h, op) ensures ValueOf(h, op) != 0 {
      OpInResults(cfg, s, arrival, op);
      WrittenValue(cfg, s, arrival, op);
    }
    StaleReadIsNotLinearizable(h, map[], w, r);
  }

  // Two operations: node 1 writes key 0, node 2 reads it.

  const TheWrite: OpId := (0, 1)
  const TheRead: OpId := (0, 2)

  /** Some key is read by one node and written by another. */
  predicate IsMixed(cfg: Config) {
    cfg.Valid() && !IsQuiet(cfg)
  }

  lemma MixedKey(cfg: Config)
    requires IsMixed(cfg)
    ensures cfg.numKeys >= 2 && cfg.n >= 2
    ensures PlannedOp(cfg, TheWrite) && !cfg.Reads(1, 0) && PlannedOp(cfg, TheRead) && cfg.Reads(2, 0)
  {
  }

  // Who has started.

  predicate OnlyStarted(cfg: Config, s: System, who: set<nat>) {
    forall i | i in cfg.Ranks() :: Started(s, i) <==> i in who
  }

  lemma StartsBy(cfg: Config, s: System, p: Packet, s': System, e: Event, sent: seq<Packet>, i: nat)
    requires Inv(cfg, s) == true && HasShape(cfg, s) && Delivery(cfg, s, p, s', e, sent) && i in cfg.Ranks()
    ensures Started(s', i) <==> Started(s, i) || (e.Invoked? && i == p.dst)
  {
    match e {
      case Ignored => InertStarts(cfg, s, p, s', sent, i);
      case Invoked =>
        WaitingIsIdle(cfg, s, p.dst);
        InvokeStarts(cfg, s, p.dst, s', sent, i);
      case _ =>
        EventsAreLocal(cfg, s, p, s', e, sent);
        assert Elsewhere(cfg, s, p, s');
    }
  }

  /** Only a Run message adds to those that have started. */
  ghost predicate StartsAdd(p: Packet, who: set<nat>, who': set<nat>) {
    forall i :: i in who' <==> i in who || (p.msg.Run? && i == p.dst)
  }

  lemma StartsFirst(i: nat)
    ensures StartsAdd(RunPacket(i), {}, {i}) == true
  {
  }

  lemma NobodyStarts(p: Packet, who: set<nat>)
    requires !p.msg.Run?
    ensures StartsAdd(p, who, who) == true
  {
  }

  lemma OnlyStartedAfter(cfg: Config, s: System, p: Packet, s': System, e: Event, sent: seq<Packet>, who: set<nat>, who': set<nat>)
    requires Inv(cfg, s) == true && HasShape(cfg, s) == true && Delivery(cfg, s, p, s', e, sent) == true && OnlyStarted(cfg, s, who)
    requires StartsAdd(p, who, who')
    ensures OnlyStarted(cfg, s', who') == true
  {
    DeliveredIsInFlight(cfg, s, p, s', e, sent);
    forall i | i in cfg.Ranks() ensures Started(s', i) <==> i in who' {
      StartsBy(cfg, s, p, s', e, sent, i);
    }
  }

  lemma OpStays(cfg: Config, s: System, p: Packet, s': System, e: Event, sent: seq<Packet>, o: OpId)
    requires Inv(cfg, s) == true && HasShape(cfg, s) == true && Delivery(cfg, s, p, s', e, sent) == true && o in s.ops
    ensures o in s'.ops
  {
    DeliveryPhases(cfg, s, p, s', e, sent, o);
  }

  /** The operations of a node that has not started are idle. */
  lemma UnstartedIsIdle(cfg: Config, s: System, o: OpId)
    requires Inv(cfg, s) == true && HasShape(cfg, s) == true && o in s.ops && !Started(s, o.1)
    ensures s.ops[o].phase.Idle?
  {
    assert OpInv(cfg, s, o);
  }

  lemma ActiveHasStarted(cfg: Config, s: System, o: OpId)
    requires Inv(cfg, s) == true && HasShape(cfg, s) == true && o in s.ops && !s.ops[o].phase.Idle?
    ensures Started(s, o.1)
  {
    assert OpInv(cfg, s, o);
  }

  lemma StartedIsNotIdle(cfg: Config, s: System, o: OpId)
    requires Inv(cfg, s) == true && HasShape(cfg, s) == true && o in s.ops && Started(s, o.1) && o.0 < cfg.Planned()
    ensures !s.ops[o].phase.Idle?
  {
    assert OpInv(cfg, s, o);
  }

  lemma MovedWasActive(cfg: Config, s: System, p: Packet, s': System, e: Event)
    requires IsCurrent(cfg, p) && OpAt(p) in s.ops && OpAt(p) in s'.ops && PhaseStep(cfg, s, p, s', e, OpAt(p))
    requires e.Imposed? || e.Skipped? || e.Completed?
    ensures !s.ops[OpAt(p)].phase.Idle?
  {
  }

  /** Events that move an operation happen at nodes that have started. */
  lemma MoverHasStarted(cfg: Config, s: System, p: Packet, s': System, e: Event, sent: seq<Packet>)
    requires Inv(cfg, s) == true && HasShape(cfg, s) == true && Delivery(cfg, s, p, s', e, sent) == true && p in s.net && IsCurrent(cfg, p)
    requires e.Imposed? || e.Skipped? || e.Completed?
    ensures p.dst in cfg.Ranks() && OpAt(p) in s.ops && Started(s, p.dst)
  {
    ReceiverOp(cfg, s, p);
    DeliveryPhases(cfg, s, p, s', e, sent, OpAt(p));
    MovedWasActive(cfg, s, p, s', e);
    ActiveHasStarted(cfg, s, OpAt(p));
  }

  // Answered operations.

  /** When enough messages have arrived the operations of started nodes have been answered. */
  lemma RepliesLeaveQuerying(cfg: Config, s: System, o: OpId)
    requires Inv(cfg, s) == true && HasShape(cfg, s) == true && o in s.ops && |Replied(cfg, s, o)| > cfg.n / 2
    ensures !s.ops[o].phase.Querying?
  {
    assert OpInv(cfg, s, o);
    assert |ListOf(s, o)| == |ListOf(s, o).Keys|;
  }

  lemma AcksLeaveImposing(cfg: Config, s: System, o: OpId)
    requires Inv(cfg, s) == true && HasShape(cfg, s) == true && o in s.ops && |Acked(cfg, s, o)| > cfg.n / 2
    ensures !s.ops[o].phase.Imposing?
  {
    assert OpInv(cfg, s, o);
  }

  lemma AnsweredStep(cfg: Config, s: System, p: Packet, s': System, e: Event, o: OpId)
    requires o in s.ops && o in s'.ops && o.1 in s.nodes && o.1 in s'.nodes && s.ops[o].phase.Responded?
    requires PhaseStep(cfg, s, p, s', e, o) && PartStep(cfg, s, p, s', e, o)
    ensures s'.ops[o] == s.ops[o] && Part(s', o) == Part(s, o)
  {
  }

  /** Once answered, an operation and its log stay as they are. */
  lemma AnsweredStays(cfg: Config, s: System, p: Packet, s': System, e: Event, sent: seq<Packet>, o: OpId)
    requires Inv(cfg, s) == true && HasShape(cfg, s) && HasShape(cfg, s') && Delivery(cfg, s, p, s', e, sent) == true && cfg.testing
    requires o in s.ops && s.ops[o].phase.Responded?
    ensures o in s'.ops && s'.ops[o] == s.ops[o] && Part(s', o) == Part(s, o)
  {
    DeliveryPhases(cfg, s, p, s', e, sent, o);
    DeliveryParts(cfg, s, p, s', e, sent, o);
    AnsweredStep(cfg, s, p, s', e, o);
  }

  /** A started operation that waits for nothing has been answered. */
  lemma WaitsForNothing(cfg: Config, s: System, o: OpId)
    requires Inv(cfg, s) == true && HasShape(cfg, s) == true && cfg.Valid() && o in s.ops && Started(s, o.1) && o.0 < cfg.Planned()
    requires Replied(cfg, s, o) == cfg.Ranks() && Acked(cfg, s, o) == cfg.Ranks()
    ensures s.ops[o].phase.Responded?
  {
    RanksSize(cfg);
    StartedIsNotIdle(cfg, s, o);
    RepliesLeaveQuerying(cfg, s, o);
    AcksLeaveImposing(cfg, s, o);
  }

  lemma AnsweredWriteHasTag(cfg: Config, s: System, o: OpId)
    requires FullInv(cfg, s) == true && HasShape(cfg, s) && o in s.ops && s.ops[o].phase.Responded? && !cfg.Reads(o.1, o.0)
    ensures s.ops[o].phase.HasTag() && s.ops[o].phase.TheTag().ts >= 1
  {
    assert OpInv(cfg, s, o) && ImposesMinted(cfg, s, o);
  }

  lemma HeldTagHasWriter(cfg: Config, s: System, j: nat, key: nat)
    requires FullInv(cfg, s) == true && HasShape(cfg, s) && j in cfg.Ranks() && key < cfg.numKeys && TagAt(s, j, key) != ZeroTag
    ensures TagAt(s, j, key).wr >= 1
  {
    HeldIsMinted(cfg, s, j, key);
    var o: OpId :| o.0 == key && Mints(cfg, s, o, TagAt(s, j, key));
    assert ImposesMinted(cfg, s, o);
  }

  lemma DeliveredIsHeld(cfg: Config, s: System, o: OpId, j: nat)
    requires FullInv(cfg, s) == true && HasShape(cfg, s) && HasTag(s, o) && j in cfg.Ranks() && o.0 < cfg.numKeys && !Pending(cfg, s.net, o, j)
    ensures TagAt(s, j, o.0).AtLeast(s.ops[o].phase.TheTag())
  {
    assert HoldsMaximum(cfg, s, j, o.0);
    assert Delivered(cfg, s, o, s.ops[o].phase.TheTag(), j);
  }

  lemma TwoAgree(cfg: Config, s: System, i: nat, j: nat, key: nat)
    requires FullInv(cfg, s) == true && HasShape(cfg, s) && i in cfg.Ranks() && j in cfg.Ranks() && key < cfg.numKeys
    requires forall q | q in s.net :: !(IsCurrent(cfg, q) && q.msg.Write? && q.msg.key == key)
    ensures TagAt(s, i, key) == TagAt(s, j, key)
  {
    assert HoldsMaximum(cfg, s, i, key) && HoldsMaximum(cfg, s, j, key);
    DeliveredEverywhere(cfg, s, i, j, key);
    DeliveredEverywhere(cfg, s, j, i, key);
  }

  lemma FullInvOf(cfg: Config, s: System)
    requires Known(cfg, s)
    ensures FullInv(cfg, s) == true && Inv(cfg, s) == true
  {
  }

  // Times.

  lemma EventLogTimes(cfg: Config, s: System, p: Packet, s': System, responds: bool, i: nat)
    requires HasShape(cfg, s) && HasShape(cfg, s') && IsProtocol(p.msg) && i in cfg.Ranks() && LogStep(cfg, s, p, s', responds)
    ensures forall f | f in LogOf(s', i) :: f in LogOf(s, i) || f.time == s'.now
  {
  }

  lemma InvokedLogTimes(cfg: Config, s: System, i: nat, s': System, j: nat)
    requires HasShape(cfg, s) && HasShape(cfg, s') && i in cfg.Ranks() && j in cfg.Ranks() && InvokeLogStep(cfg, s, i, s') && cfg.testing
    ensures forall f | f in LogOf(s', j) :: f in LogOf(s, j) || f.time == s'.now
  {
    InvokationEntries(Ready(s.nodes[i]), cfg.Planned(), s'.now, (0, 0));
  }

  lemma EventLogStepOf(cfg: Config, s: System, p: Packet, s': System, e: Event, sent: seq<Packet>)
    requires Inv(cfg, s) == true && HasShape(cfg, s) && HasShape(cfg, s') && Delivery(cfg, s, p, s', e, sent) && cfg.testing
    requires !e.Invoked? && !e.Ignored?
    ensures IsProtocol(p.msg) && LogStep(cfg, s, p, s', e.Skipped? || e.Completed?) == true
  {
    EventLogStep(cfg, s, p, s', e, sent);
  }

  /** New log entries carry the time of the delivery. */
  lemma LogTimes(cfg: Config, s: System, p: Packet, s': System, e: Event, sent: seq<Packet>, i: nat)
    requires Inv(cfg, s) == true && HasShape(cfg, s) && HasShape(cfg, s') && Delivery(cfg, s, p, s', e, sent) == true && cfg.testing && i in cfg.Ranks()
    ensures forall f | f in LogOf(s', i) :: f in LogOf(s, i) || f.time == s'.now
  {
    match e {
      case Ignored =>
      case Invoked =>
        InvokeLogStepOf(cfg, s, p.dst, s', sent);
        InvokedLogTimes(cfg, s, p.dst, s', i);
      case _ =>
        EventLogStepOf(cfg, s, p, s', e, sent);
        EventLogTimes(cfg, s, p, s', e.Skipped? || e.Completed?, i);
    }
  }

  lemma PartTimes(cfg: Config, s: System, o: OpId)
    requires HasShape(cfg, s) && LogInv(cfg, s) && cfg.testing && o in s.ops
    ensures forall f | f in Part(s, o) :: f.time <= s.now
  {
    assert NodeLogged(cfg, s, o.1);
    FilterContents(LogOf(s, o.1), Only(o));
  }

  ghost predicate AllTimesAre(cfg: Config, s: System, time: int)
    requires HasShape(cfg, s)
  {
    forall i, f | i in cfg.Ranks() && f in LogOf(s, i) :: f.time == time
  }

  lemma TimesKept(cfg: Config, s: System, p: Packet, s': System, e: Event, sent: seq<Packet>, time: int)
    requires Inv(cfg, s) == true && HasShape(cfg, s) && HasShape(cfg, s') && Delivery(cfg, s, p, s', e, sent) == true && cfg.testing
    requires AllTimesAre(cfg, s, time) && s'.now == time
    ensures AllTimesAre(cfg, s', time) == true
  {
    forall i, f | i in cfg.Ranks() && f in LogOf(s', i) ensures f.time == time {
      LogTimes(cfg, s, p, s', e, sent, i);
    }
  }

  // The end.

  lemma AllDeliveredMeansReported(cfg: Config, s: System, arrival: seq<nat>)
    requires Inv(cfg, s) == true && HasShape(cfg, s) && cfg.testing && cfg.Planned() > 0
    requires NoneLeft(cfg, s, (s, p) => true)
    requires Distinct(arrival) && forall i :: i in arrival <==> i in cfg.Ranks()
    ensures AllReported(cfg, s, arrival)
  {
    forall i | i in arrival ensures i in s.finished {
      NodeDone(cfg, s, i);
    }
  }

  lemma NodeDone(cfg: Config, s: System, i: nat)
    requires Inv(cfg, s) && NoneLeft(cfg, s, (s, p) => true) && i in cfg.Ranks() && cfg.Planned() > 0
    ensures i in s.finished
  {
    assert Drained(cfg, s);
    DrainedNodeAnswered(cfg, s, i);
    NodeReportsOnce(cfg, s, i);
  }

  /** The reports may arrive in the order of the ranks. */
  function Ranking(n: nat): (r: seq<nat>)
    ensures |r| == n && forall i | 0 <= i < n :: r[i] == i + 1
  {
    seq(n, i requires 0 <= i < n => i + 1)
  }

  lemma RankingIsArrival(cfg: Config)
    ensures Distinct(Ranking(cfg.n)) && forall i: nat :: i in Ranking(cfg.n) <==> i in cfg.Ranks()
  {
    forall i: nat ensures i in Ranking(cfg.n) <==> i in cfg.Ranks() {
      if i in cfg.Ranks() {
        assert Ranking(cfg.n)[i - 1] == i;
      }
    }
  }
}
