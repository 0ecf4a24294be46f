/** Two nodes and a clock that advances: in every run the read of a shared key fits the write. */
module RegisterPairRuns {
  import opened Collections
  import opened Histories
  import opened Linearizability
  import opened Locality
  import opened Verdicts
  import opened RegisterNode
  import opened RegisterProtocol
  import opened RegisterSafety
  import opened RegisterEvents
  import opened RegisterTheorems
  import opened RegisterTags
  import opened RegisterQuorum
  import opened RegisterResults
  import opened RegisterLogs
  import opened RegisterDetails
  import opened RegisterValues
  import opened RegisterParts
  import opened RegisterReach
  import opened RegisterQuiet
  import opened RegisterReports
  import opened RegisterSpots
  import opened RegisterWitness
  import opened RegisterPair

  // Every delivery keeps the invariant.

  lemma ReaderIsOfPair(cfg: Config, p: Packet, e: Event, pair: Pair)
    requires pair.Fits(cfg) && IsCurrent(cfg, p) && p.dst in cfg.Ranks() && (e.Skipped? ==> cfg.Reads(p.dst, p.msg.key))
    ensures NotSkipping(cfg, p, e, pair.key) || (e.Skipped? && OpAt(p) == pair.ReadOp())
  {
  }

  /** Only the read of the pair can skip its write-back. */
  lemma OnlyReaderSkips(cfg: Config, s: System, p: Packet, s': System, e: Event, sent: seq<Packet>, pair: Pair)
    requires pair.Fits(cfg) && HasShape(cfg, s) == true && Inv(cfg, s) == true && IsCurrent(cfg, p) && p in s.net
    requires Delivery(cfg, s, p, s', e, sent) == true
    ensures NotSkipping(cfg, p, e, pair.key) || (e.Skipped? && OpAt(p) == pair.ReadOp())
  {
    ReceiverOp(cfg, s, p);
    if e.Skipped? {
      SkippersRead(cfg, s, p, s', e, sent);
    }
    ReaderIsOfPair(cfg, p, e, pair);
  }

  lemma StillOpen(cfg: Config, s: System, p: Packet, s': System, e: Event, pair: Pair)
    requires PhasesStep(cfg, s, p, s', e, pair) && !s'.ops[pair.ReadOp()].phase.Responded?
    ensures !s.ops[pair.ReadOp()].phase.Responded? && (IsProtocol(p.msg) ==> !(e.Skipped? && OpAt(p) == pair.ReadOp()))
  {
  }

  lemma ValuesStep(cfg: Config, s: System, p: Packet, s': System, e: Event, sent: seq<Packet>, pair: Pair)
    requires pair.Fits(cfg) && HasPair(cfg, s, pair) && HasPair(cfg, s', pair) && p in s.net && PhasesStep(cfg, s, p, s', e, pair)
    requires !s.ops[pair.ReadOp()].phase.Responded? ==> AllGood(cfg, s, pair.key, IsRankedEntry) == true
    requires Inv(cfg, s) == true && Delivery(cfg, s, p, s', e, sent) == true
    ensures !s'.ops[pair.ReadOp()].phase.Responded? ==> AllGood(cfg, s', pair.key, IsRankedEntry) == true
  {
    if !s'.ops[pair.ReadOp()].phase.Responded? {
      StillOpen(cfg, s, p, s', e, pair);
      if IsCurrent(cfg, p) {
        OnlyReaderSkips(cfg, s, p, s', e, sent, pair);
      }
      RankedKept(cfg, s, p, s', e, sent, pair.key);
    }
  }

  /** Everything that the steps need to know of the state before the delivery. */
  ghost predicate Context(cfg: Config, s: System, p: Packet, pair: Pair)
    requires HasPair(cfg, s, pair)
  {
    && pair.w in s.nodes && pair.r in s.nodes
    && ReplyContext(cfg, s, p, pair) && LogContext(s, pair.ReadOp()) && LogContext(s, pair.WriteOp())
    && WriteContext(s, pair) && OnlyPair(s, pair)
  }

  lemma InContext(cfg: Config, s: System, p: Packet, pair: Pair)
    requires HasPair(cfg, s, pair) && pair.Fits(cfg) && p in s.net && cfg.testing
    requires !s.ops[pair.ReadOp()].phase.Responded? ==> AllGood(cfg, s, pair.key, IsRankedEntry) == true
    requires Known(cfg, s) == true
    ensures Context(cfg, s, p, pair) == true
  {
    FullInvOf(cfg, s);
    ReplyInContext(cfg, s, p, pair);
    LogInContext(cfg, s, pair.ReadOp());
    LogInContext(cfg, s, pair.WriteOp());
    WriteInContext(cfg, s, pair);
    PairIsAll(cfg, s, pair);
  }

  lemma SpotOfStep(cfg: Config, s: System, p: Packet, s': System, e: Event, pair: Pair)
    requires PairStep(cfg, s, p, s', e, pair) && pair.Fits(cfg) && PairInv(cfg, s, pair) && ReplyContext(cfg, s, p, pair)
    requires s'.ops[pair.ReadOp()].phase.Querying? ==> |SpotOf(s', pair.ReadOp()).list| <= 1
    ensures ReadControl(s', pair, SpotOf(s', pair.ReadOp())) == true
  {
    PartsOfStep(cfg, s, p, s', e, pair);
    ControlStep(cfg, s, p, s', e, pair, SpotOf(s, pair.ReadOp()), SpotOf(s', pair.ReadOp()));
  }

  lemma PairInvParts(cfg: Config, s: System, pair: Pair)
    requires PairInv(cfg, s, pair)
    ensures HasPair(cfg, s, pair) && pair.w in s.nodes && pair.r in s.nodes
    ensures !s.ops[pair.ReadOp()].phase.Responded? ==> AllGood(cfg, s, pair.key, IsRankedEntry) == true
    ensures FloorIsWrite(s, pair) == true && InOrder(s, pair) == true
  {
  }

  lemma ContextParts(cfg: Config, s: System, p: Packet, pair: Pair)
    requires HasPair(cfg, s, pair) && Context(cfg, s, p, pair)
    ensures pair.w in s.nodes && pair.r in s.nodes && ReplyContext(cfg, s, p, pair) == true
    ensures LogContext(s, pair.ReadOp()) == true && LogContext(s, pair.WriteOp()) == true
    ensures WriteContext(s, pair) == true && OnlyPair(s, pair) == true
  {
  }

  /** The parts of the invariant that speak of phases and logs. */
  lemma StepKeepsRest(cfg: Config, s: System, p: Packet, s': System, e: Event, pair: Pair)
    requires PairStep(cfg, s, p, s', e, pair) == true && pair.Fits(cfg) && s.now < s'.now && PairInv(cfg, s, pair) == true
    requires HasPair(cfg, s, pair) && HasPair(cfg, s', pair) && pair.w in s'.nodes && pair.r in s'.nodes && Context(cfg, s, p, pair) == true
    ensures FloorIsWrite(s', pair) == true && AnswerLogged(s', pair) == true && InOrder(s', pair) == true
  {
    PartsOfStep(cfg, s, p, s', e, pair);
    PairInvParts(cfg, s, pair);
    ContextParts(cfg, s, p, pair);
    FloorStep(cfg, s, p, s', e, pair);
    AnswerLogStep(cfg, s, p, s', e, pair);
    OrderStep(cfg, s, p, s', e, pair);
  }

  lemma PairStays(cfg: Config, s: System, p: Packet, s': System, e: Event, sent: seq<Packet>, pair: Pair)
    requires HasPair(cfg, s, pair) && HasShape(cfg, s') && Inv(cfg, s) == true && Delivery(cfg, s, p, s', e, sent) == true
    ensures HasPair(cfg, s', pair) == true && pair.w in s'.nodes && pair.r in s'.nodes
  {
    OpStays(cfg, s, p, s', e, sent, pair.ReadOp());
    OpStays(cfg, s, p, s', e, sent, pair.WriteOp());
  }

  lemma PairKept(cfg: Config, s: System, p: Packet, s': System, e: Event, sent: seq<Packet>, pair: Pair)
    requires pair.Fits(cfg) && cfg.testing && s.now < s'.now && PairInv(cfg, s, pair) == true
    requires Known(cfg, s) == true && Known(cfg, s') == true && Delivery(cfg, s, p, s', e, sent) == true
    ensures PairInv(cfg, s', pair) == true
  {
    KnownHasInv(cfg, s);
    KnownHasInv(cfg, s');
    PairInvParts(cfg, s, pair);
    DeliveredIsInFlight(cfg, s, p, s', e, sent);
    PairStays(cfg, s, p, s', e, sent, pair);
    DeliveryPair(cfg, s, p, s', e, sent, pair);
    InContext(cfg, s, p, pair);
    ContextParts(cfg, s, p, pair);
    OpenReads(cfg, s', pair);
    SpotOfStep(cfg, s, p, s', e, pair);
    StepKeepsRest(cfg, s, p, s', e, pair);
    PartsOfStep(cfg, s, p, s', e, pair);
    ValuesStep(cfg, s, p, s', e, sent, pair);
  }

  // Runs.

  lemma InitialPair(cfg: Config, s: System, pair: Pair)
    requires pair.Fits(cfg) && IsInitial(cfg, s) && HasShape(cfg, s)
    ensures PairInv(cfg, s, pair) == true
  {
    InitialValues(cfg, s, pair.key);
  }

  lemma RunStartsWithPair(cfg: Config, run: seq<System>, pair: Pair)
    requires IsRun(cfg, run) && pair.Fits(cfg)
    ensures |run| > 0 && PairInv(cfg, run[0], pair) == true
  {
    InitialNet(cfg, run[0]);
    InitialPair(cfg, run[0], pair);
  }

  lemma AlwaysPair(cfg: Config, run: seq<System>, k: nat, pair: Pair)
    requires IsAdvancingRun(cfg, run) && k < |run| && pair.Fits(cfg) && cfg.testing
    ensures PairInv(cfg, run[k], pair) == true
  {
    RunStartsWithPair(cfg, run, pair);
    var holds := s => PairInv(cfg, s, pair);
    assert KeptByLater(cfg, holds) by {
      forall s: System, p: Packet, s': System, e: Event, sent: seq<Packet> |
        Known(cfg, s) && Known(cfg, s') && holds(s) && s.now < s'.now && Delivery(cfg, s, p, s', e, sent)
        ensures holds(s')
      {
        PairKept(cfg, s, p, s', e, sent, pair);
      }
    }
    HoldsInAdvancingRun(cfg, run, k, holds);
  }

  // The results of one key.

  lemma PairOfKey(cfg: Config, key: nat) returns (pair: Pair)
    requires cfg.Valid() && cfg.n == 2 && key < cfg.Planned() && !Unwritten(cfg, key) && !Unread(cfg, key)
    ensures pair.Fits(cfg) && pair.key == key
  {
    var w :| w in cfg.Ranks() && !cfg.Reads(w, key);
    var r :| r in cfg.Ranks() && cfg.Reads(r, key);
    pair := Pair(key, w, r);
  }

  /** A read of 0 that the write did not precede, or of what was written by a write that it did not precede. */
  lemma PairVerdict(g: Trace, w: OpId, r: OpId)
    requires Complete(g) && SortedByTime(g) && Ops(g) == {w, r} && w != r && w.0 == r.0 && IsOpIn(g, w) && IsOpIn(g, r)
    requires IsWrite(g, w) && !IsWrite(g, r)
    requires (ValueOf(g, r) == 0 && Response(g, w).time > Invokation(g, r).time)
             || (ValueOf(g, r) == ValueOf(g, w) && Invokation(g, w).time < Response(g, r).time)
    ensures Linearizable(g, map[])
  {
    if Precedes(g, w, r) {
      PrecedingIsEarlier(g, w, r);
    }
    if Precedes(g, r, w) {
      PrecedingIsEarlier(g, r, w);
    }
    PairIsLinearizable(g, map[], w, r);
  }

  /** What the invariant says once both operations have been answered. */
  lemma PairAnswers(cfg: Config, s: System, pair: Pair)
    requires PairInv(cfg, s, pair) && s.ops[pair.ReadOp()].phase.Responded? && s.ops[pair.WriteOp()].phase.Responded?
    requires |Part(s, pair.WriteOp())| == 2
    ensures pair.w in s.nodes && pair.r in s.nodes
    ensures var read, write := Part(s, pair.ReadOp()), Part(s, pair.WriteOp());
            && |read| == 2
            && ((read[1].value == Some(0) && write[1].time > read[0].time)
                || (read[1].value == Some(pair.w) && write[0].time < read[1].time))
  {
  }

  lemma PairOps(cfg: Config, pair: Pair)
    requires pair.Fits(cfg)
    ensures PlannedOp(cfg, pair.ReadOp()) && PlannedOp(cfg, pair.WriteOp())
    ensures forall o: OpId | PlannedOp(cfg, o) && o.0 == pair.key :: o == pair.ReadOp() || o == pair.WriteOp()
  {
  }

  lemma PairVerdictIn(cfg: Config, s: System, g: Trace, pair: Pair)
    requires pair.Fits(cfg) && PairInv(cfg, s, pair) == true && Complete(g) && SortedByTime(g)
    requires forall o: OpId :: o in Ops(g) <==> PlannedOp(cfg, o) && o.0 == pair.key
    requires IsAnsweredIn(cfg, s, g, pair.WriteOp()) && IsAnsweredIn(cfg, s, g, pair.ReadOp())
    ensures Linearizable(g, map[])
  {
    PairOps(cfg, pair);
    assert Ops(g) == {pair.WriteOp(), pair.ReadOp()};
    PairAnswers(cfg, s, pair);
    PairVerdict(g, pair.WriteOp(), pair.ReadOp());
  }

  /** The two operations of a pair are linearizable. */
  lemma PairResults(cfg: Config, s: System, arrival: seq<nat>, pair: Pair)
    requires AllReported(cfg, s, arrival) && pair.Fits(cfg) && PairInv(cfg, s, pair) == true
    requires Known(cfg, s) == true && HasShape(cfg, s) == true
    ensures Linearizable(Filter(SortByTime(Results(s, arrival)), OnKey(pair.key)), map[])
  {
    PairOps(cfg, pair);
    KeyResultsOps(cfg, s, arrival, pair.key);
    KeyResultsOp(cfg, s, arrival, pair.WriteOp());
    KeyResultsOp(cfg, s, arrival, pair.ReadOp());
    KeySorted(Results(s, arrival), pair.key);
    PairVerdictIn(cfg, s, Filter(SortByTime(Results(s, arrival)), OnKey(pair.key)), pair);
  }
}
