/** With a clock that may stand still two nodes are enough for results that are not linearizable. */
module RegisterClock {
  import opened Collections
  import opened Histories
  import opened Linearizability
  import opened Locality
  import opened Verdicts
  import opened RegisterNode
  import opened RegisterProtocol
  import opened RegisterSafety
  import opened RegisterEvents
  import opened RegisterInvariant
  import opened RegisterTheorems
  import opened RegisterResults
  import opened RegisterLogs
  import opened RegisterDetails
  import opened RegisterValues
  import opened RegisterParts
  import opened RegisterReach
  import opened RegisterQuiet
  import opened RegisterReports
  import opened RegisterWitness

  // The read runs alone.

  /** Nobody but the nodes of `who` has started, the clock stands at 0 and key 0 holds 0 everywhere. */
  ghost predicate ReadsAlone(cfg: Config, s: System, who: set<nat>) {
    && HasShape(cfg, s) && 0 < cfg.numKeys && TheRead in s.ops
    && s.now == 0 && OnlyStarted(cfg, s, who) && AllTimesAre(cfg, s, 0)
    && ZeroKey(cfg, s, 0) && ZeroAnswer(cfg, s, TheRead)
  }

  predicate OnlyReader(who: set<nat>) {
    forall i | i in who :: i == 2
  }

  lemma AloneNotWriting(cfg: Config, s: System, p: Packet, s': System, e: Event, sent: seq<Packet>, who: set<nat>)
    requires IsMixed(cfg) && Inv(cfg, s) == true && HasShape(cfg, s) && Delivery(cfg, s, p, s', e, sent) == true && p in s.net && IsCurrent(cfg, p)
    requires OnlyStarted(cfg, s, who) && OnlyReader(who)
    ensures NotWriting(cfg, p, e, 0)
  {
    if e.Imposed? {
      MoverHasStarted(cfg, s, p, s', e, sent);
    }
  }

  lemma AloneZeroKept(cfg: Config, s: System, p: Packet, s': System, e: Event, sent: seq<Packet>, who: set<nat>)
    requires IsMixed(cfg) && HasShape(cfg, s) && HasShape(cfg, s') && p in s.net && OnlyStarted(cfg, s, who) && OnlyReader(who) == true
    requires ZeroKey(cfg, s, 0) && TheRead in s.ops && TheRead in s'.ops && ZeroAnswer(cfg, s, TheRead) && cfg.testing
    requires Known(cfg, s) == true && Delivery(cfg, s, p, s', e, sent) == true
    ensures ZeroKey(cfg, s', 0) == true && ZeroAnswer(cfg, s', TheRead) == true
  {
    KnownHasInv(cfg, s);
    if IsCurrent(cfg, p) {
      AloneNotWriting(cfg, s, p, s', e, sent, who);
    }
    ZeroKept(cfg, s, p, s', e, sent, 0);
    ZeroAnswerKept(cfg, s, p, s', e, sent, TheRead);
  }

  lemma ReadsAloneKept(cfg: Config, s: System, p: Packet, s': System, e: Event, sent: seq<Packet>, who: set<nat>, who': set<nat>)
    requires IsMixed(cfg) && cfg.testing && Known(cfg, s) == true && Known(cfg, s') == true && Delivery(cfg, s, p, s', e, sent) == true
    requires ReadsAlone(cfg, s, who) == true && OnlyReader(who) == true && s'.now == s.now && StartsAdd(p, who, who') == true
    ensures ReadsAlone(cfg, s', who') == true
  {
    KnownHasInv(cfg, s);
    KnownHasInv(cfg, s');
    DeliveredIsInFlight(cfg, s, p, s', e, sent);
    TimesKept(cfg, s, p, s', e, sent, 0);
    OnlyStartedAfter(cfg, s, p, s', e, sent, who, who');
    OpStays(cfg, s, p, s', e, sent, TheRead);
    AloneZeroKept(cfg, s, p, s', e, sent, who);
  }

  // The read has answered 0.

  ghost predicate ReadZero(cfg: Config, s: System) {
    && HasShape(cfg, s) && TheRead in s.ops && s.now == 0 && AllTimesAre(cfg, s, 0)
    && s.ops[TheRead].phase.Responded? && |Part(s, TheRead)| == 2 && Part(s, TheRead)[1].value == Some(0)
  }

  lemma ReadZeroKept(cfg: Config, s: System, p: Packet, s': System, e: Event, sent: seq<Packet>)
    requires cfg.testing && Known(cfg, s) == true && Known(cfg, s') == true && Delivery(cfg, s, p, s', e, sent) == true
    requires ReadZero(cfg, s) && s'.now == s.now
    ensures ReadZero(cfg, s') == true
  {
    KnownHasInv(cfg, s);
    KnownHasInv(cfg, s');
    TimesKept(cfg, s, p, s', e, sent, 0);
    AnsweredStays(cfg, s, p, s', e, sent, TheRead);
  }

  lemma NoProtocolLeft(cfg: Config, s: System, o: OpId)
    requires Inv(cfg, s) && NoneLeft(cfg, s, (s, p: Packet) => IsProtocol(p.msg)) && o in s.ops
    ensures Replied(cfg, s, o) == cfg.Ranks() && Acked(cfg, s, o) == cfg.Ranks()
  {
    forall p | p in s.net ensures !IsCurrent(cfg, p) {
      assert PacketInv(cfg, s, p);
    }
    NothingFlies(cfg, s, o);
  }

  lemma NothingFlies(cfg: Config, s: System, o: OpId)
    requires forall p | p in s.net :: !IsCurrent(cfg, p)
    ensures Replied(cfg, s, o) == cfg.Ranks() && Acked(cfg, s, o) == cfg.Ranks()
  {
    assert Flying(cfg, s.net) == {};
  }

  lemma StartedIsAnswered(cfg: Config, s: System, o: OpId)
    requires Inv(cfg, s) == true && HasShape(cfg, s) == true && NoneLeft(cfg, s, (s, p: Packet) => IsProtocol(p.msg))
    requires cfg.Valid() && o in s.ops && Started(s, o.1) && o.0 < cfg.Planned()
    ensures s.ops[o].phase.Responded?
  {
    NoProtocolLeft(cfg, s, o);
    WaitsForNothing(cfg, s, o);
  }

  lemma AloneIsDone(cfg: Config, s: System)
    requires IsMixed(cfg) && Inv(cfg, s) == true && ReadsAlone(cfg, s, {2}) && NoneLeft(cfg, s, (s, p: Packet) => IsProtocol(p.msg))
    ensures ReadZero(cfg, s)
  {
    MixedKey(cfg);
    StartedIsAnswered(cfg, s, TheRead);
  }

  // The results.

  lemma {:induction false} CollectedKeepsOrder(finished: map<nat, Trace>, arrival: seq<nat>, a: nat, b: nat, e: KVTimestamp, f: KVTimestamp)
    requires forall i | i in arrival :: i in finished
    requires a < b < |arrival| && e in finished[arrival[a]] && f in finished[arrival[b]]
    ensures Ordered(Collected(finished, arrival), e, f)
  {
    var last := |arrival| - 1;
    var front := arrival[..last];
    var before := Collected(finished, front);
    if b < last {
      CollectedKeepsOrder(finished, front, a, b, e, f);
      var i, j :| 0 <= i < j < |before| && before[i] == e && before[j] == f;
      assert Collected(finished, arrival)[i] == e && Collected(finished, arrival)[j] == f;
    } else {
      CollectedHas(finished, front, a, e);
      var i :| 0 <= i < |before| && before[i] == e;
      var j :| 0 <= j < |finished[arrival[b]]| && finished[arrival[b]][j] == f;
      assert Collected(finished, arrival)[i] == e && Collected(finished, arrival)[|before| + j] == f;
    }
  }

  lemma {:induction false} CollectedHas(finished: map<nat, Trace>, arrival: seq<nat>, a: nat, e: KVTimestamp)
    requires forall i | i in arrival :: i in finished
    requires a < |arrival| && e in finished[arrival[a]]
    ensures e in Collected(finished, arrival)
  {
    if a < |arrival| - 1 {
      CollectedHas(finished, arrival[..|arrival| - 1], a, e);
    }
  }

  lemma AllTimesSorted(cfg: Config, s: System, arrival: seq<nat>)
    requires Known(cfg, s) == true && HasShape(cfg, s) && AllReported(cfg, s, arrival) && AllTimesAre(cfg, s, 0)
    ensures SortByTime(Results(s, arrival)) == Results(s, arrival)
  {
    ReportsFit(cfg, s, arrival);
    CollectedEntries(s.finished, arrival, (0, 0));
    forall e | e in Results(s, arrival) ensures e.time == 0 {
      assert e in LogOf(s, e.sender);
    }
    assert SortedByTime(Results(s, arrival)) by {
      forall i, j | 0 <= i < j < |Results(s, arrival)| ensures Results(s, arrival)[i].time <= Results(s, arrival)[j].time {
        assert Results(s, arrival)[i] in Results(s, arrival) && Results(s, arrival)[j] in Results(s, arrival);
      }
    }
    SortOfSorted(Results(s, arrival));
  }

  lemma ReportsFit(cfg: Config, s: System, arrival: seq<nat>)
    requires Known(cfg, s) && AllReported(cfg, s, arrival)
    ensures forall i | i in arrival :: ReportFits(cfg, s.finished[i], i)
  {
    AllReportsFit(cfg, s, arrival);
  }

  /** An operation's entries are in its node's report. */
  lemma PartInReport(s: System, o: OpId)
    requires o.1 in s.nodes && o.1 in s.finished
    ensures forall e | e in Part(s, o) :: e in s.finished[o.1] && OpOf(e) == o
  {
    FilterContents(LogOf(s, o.1), Only(o));
  }

  lemma WriterReportsFirst(cfg: Config, s: System)
    requires IsMixed(cfg) && Known(cfg, s) == true && HasShape(cfg, s) && AllReported(cfg, s, Ranking(cfg.n)) && AllTimesAre(cfg, s, 0)
    ensures Precedes(SortByTime(Results(s, Ranking(cfg.n))), TheWrite, TheRead)
  {
    var arrival := Ranking(cfg.n);
    MixedKey(cfg);
    OpInResults(cfg, s, arrival, TheWrite);
    OpInResults(cfg, s, arrival, TheRead);
    var h := SortByTime(Results(s, arrival));
    OperationAt(h, TheWrite);
    OperationAt(h, TheRead);
    PartInReport(s, TheWrite);
    PartInReport(s, TheRead);
    assert arrival[0] == 1 && arrival[1] == 2;
    CollectedKeepsOrder(s.finished, arrival, 0, 1, Part(s, TheWrite)[1], Part(s, TheRead)[0]);
    AllTimesSorted(cfg, s, arrival);
    PrecedesOrders(h, TheWrite, TheRead);
  }

  lemma OperationAt(h: Trace, o: OpId)
    requires IsOpIn(h, o)
    ensures var part := Filter(h, Only(o));
            part[0].operation.IsInvokation() && !part[1].operation.IsInvokation() && OpOf(part[0]) == o && OpOf(part[1]) == o
  {
    FilterContents(h, Only(o));
    assert Filter(h, Only(o))[0] in Filter(h, Only(o)) && Filter(h, Only(o))[1] in Filter(h, Only(o));
  }

  // The run.

  lemma StartIsAlone(cfg: Config, s: System)
    requires IsMixed(cfg) && IsInitial(cfg, s) && s == StartSystem(cfg) && HasShape(cfg, s)
    ensures ReadsAlone(cfg, s, {}) && RunPacket(2) in s.net && 2 in s.nodes
  {
    MixedKey(cfg);
    InitialValues(cfg, s, 0);
  }

  lemma Beginning(cfg: Config) returns (s: System)
    requires IsMixed(cfg)
    ensures Reachable(cfg, 0, s) == true && ReadsAlone(cfg, s, {}) == true && RunPacket(2) in s.net && 2 in s.nodes
  {
    s := StartSystem(cfg);
    StartIsReachable(cfg, 0);
    ReachableInv(cfg, 0, s);
    StartIsAlone(cfg, s);
  }

  lemma ReaderStarts()
    ensures StartsAdd(RunPacket(2), {}, {2}) == true && OnlyReader({}) == true && OnlyReader({2}) == true
  {
  }

  lemma ReachAtOnce(cfg: Config, s: System, p: Packet) returns (s': System, e: Event, sent: seq<Packet>)
    requires Reachable(cfg, 0, s) == true && p in s.net && p.dst in s.nodes
    ensures Reachable(cfg, 0, s') == true && Delivery(cfg, s, p, s', e, sent) == true
    ensures Known(cfg, s) == true && Known(cfg, s') == true && s'.now == s.now
  {
    s', e, sent := ReachKnown(cfg, 0, s, p);
  }

  lemma AloneStarts(cfg: Config, start: System, p: Packet) returns (s: System)
    requires IsMixed(cfg) && cfg.testing && Reachable(cfg, 0, start) == true && ReadsAlone(cfg, start, {}) == true
    requires p in start.net && p.dst in start.nodes && StartsAdd(p, {}, {2}) == true && OnlyReader({}) == true
    ensures Reachable(cfg, 0, s) == true && ReadsAlone(cfg, s, {2}) == true
  {
    var e, sent;
    s, e, sent := ReachAtOnce(cfg, start, p);
    ReadsAloneKept(cfg, start, p, s, e, sent, {}, {2});
  }

  lemma ReadStarts(cfg: Config) returns (s: System)
    requires IsMixed(cfg) && cfg.testing
    ensures Reachable(cfg, 0, s) == true && ReadsAlone(cfg, s, {2}) == true
  {
    var start := Beginning(cfg);
    ReaderStarts();
    s := AloneStarts(cfg, start, RunPacket(2));
  }

  lemma ReadAnswers(cfg: Config) returns (s: System)
    requires IsMixed(cfg) && cfg.testing
    ensures Reachable(cfg, 0, s) && ReadZero(cfg, s)
  {
    var first := ReadStarts(cfg);
    var allowed := (s: System, p: Packet) => IsProtocol(p.msg);
    var holds := s => ReadsAlone(cfg, s, {2});
    assert Preserves(cfg, 0, allowed, holds) by {
      forall s: System, p: Packet, s': System, e: Event, sent: seq<Packet> |
        Known(cfg, s) && Known(cfg, s') && holds(s) && allowed(s, p) && !IsStale(cfg, p) && s'.now == s.now + 0
        && Delivery(cfg, s, p, s', e, sent)
        ensures holds(s')
      {
        DeliveredIsInFlight(cfg, s, p, s', e, sent);
        NobodyStarts(p, {2});
        ReaderStarts();
        ReadsAloneKept(cfg, s, p, s', e, sent, {2}, {2});
      }
    }
    s := DrainWhere(cfg, 0, first, allowed, holds);
    ReachableInv(cfg, 0, s);
    AloneIsDone(cfg, s);
  }

  lemma EverythingArrives(cfg: Config) returns (s: System)
    requires IsMixed(cfg) && cfg.testing
    ensures Reachable(cfg, 0, s) && ReadZero(cfg, s) && NoneLeft(cfg, s, (s, p) => true)
  {
    var first := ReadAnswers(cfg);
    var allowed := (s: System, p: Packet) => true;
    var holds := s => ReadZero(cfg, s);
    assert Preserves(cfg, 0, allowed, holds) by {
      forall s: System, p: Packet, s': System, e: Event, sent: seq<Packet> |
        Known(cfg, s) && Known(cfg, s') && holds(s) && allowed(s, p) && !IsStale(cfg, p) && s'.now == s.now + 0
        && Delivery(cfg, s, p, s', e, sent)
        ensures holds(s')
      {
        ReadZeroKept(cfg, s, p, s', e, sent);
      }
    }
    s := DrainWhere(cfg, 0, first, allowed, holds);
  }

  /**
   * The read of node 2 is answered before the write of node 1 is invoked, all at one time. The stable sort then puts the
   * report of node 1, which arrives first, in front: a write that came later precedes the read that did not see it.
   */
  lemma StandingClockSpoilsResults(cfg: Config) returns (s: System, arrival: seq<nat>)
    requires IsMixed(cfg) && cfg.testing
    ensures Reachable(cfg, 0, s) && AllReported(cfg, s, arrival) && !TraceLinearizable(Results(s, arrival))
  {
    s := EverythingArrives(cfg);
    arrival := Ranking(cfg.n);
    ReachableIsKnown(cfg, 0, s);
    KnownHasInv(cfg, s);
    MixedKey(cfg);
    RankingIsArrival(cfg);
    AllDeliveredMeansReported(cfg, s, arrival);
    WriterReportsFirst(cfg, s);
    StaleResults(cfg, s, arrival, TheWrite, TheRead);
  }
}
