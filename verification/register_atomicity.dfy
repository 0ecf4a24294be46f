/**
 * Exactly when the register is atomic: the test's results are linearizable in every run, and tags determine values,
 * if and only if no key is read by one node and written by another. With a clock that advances two nodes may share keys.
 */
module RegisterAtomicity {
  import opened Collections
  import opened Histories
  import opened Linearizability
  import opened Locality
  import opened RegisterNode
  import opened RegisterProtocol
  import opened RegisterSafety
  import opened RegisterEvents
  import opened RegisterTheorems
  import opened RegisterTags
  import opened RegisterResults
  import opened RegisterLogs
  import opened RegisterDetails
  import opened RegisterValues
  import opened RegisterParts
  import opened RegisterReach
  import opened RegisterQuiet
  import opened RegisterReports
  import opened RegisterSpots
  import opened RegisterWitness
  import opened RegisterClock
  import opened RegisterSpoiling
  import opened RegisterOvertaking
  import opened RegisterStaleness
  import opened RegisterPair
  import opened RegisterPairRuns

  // The results of testing runs.

  /** Whenever all nodes have reported the master's check succeeds, in whatever order the reports arrived. */
  ghost predicate ResultsLinearizable(cfg: Config, run: seq<System>) {
    forall k: nat, arrival | k < |run| && AllReported(cfg, run[k], arrival) :: TraceLinearizable(Results(run[k], arrival))
  }

  lemma StateIsKnown(cfg: Config, run: seq<System>, k: nat)
    requires IsRun(cfg, run) == true && k < |run|
    ensures Known(cfg, run[k]) == true && HasShape(cfg, run[k]) == true
  {
    RunStateIsKnown(cfg, run, k);
    KnownHasInv(cfg, run[k]);
  }

  lemma QuietResults(cfg: Config, run: seq<System>, k: nat, arrival: seq<nat>)
    requires IsRun(cfg, run) == true && k < |run| && cfg.Valid() && IsQuiet(cfg) && AllReported(cfg, run[k], arrival)
    ensures TraceLinearizable(Results(run[k], arrival))
  {
    StateIsKnown(cfg, run, k);
    forall key: nat | key < cfg.Planned()
      ensures Linearizable(Filter(SortByTime(Results(run[k], arrival)), OnKey(key)), map[])
    {
      QuietKeys(cfg, key);
      AlwaysQuietKey(cfg, run, k, key);
      QuietKeyResults(cfg, run[k], arrival, key);
    }
    KeyResultsDecide(cfg, run[k], arrival);
  }

  lemma TwoNodesResults(cfg: Config, run: seq<System>, k: nat, arrival: seq<nat>)
    requires IsAdvancingRun(cfg, run) && IsRun(cfg, run) == true && k < |run| && cfg.Valid() && cfg.n == 2 && AllReported(cfg, run[k], arrival)
    ensures TraceLinearizable(Results(run[k], arrival))
  {
    StateIsKnown(cfg, run, k);
    forall key: nat | key < cfg.Planned()
      ensures Linearizable(Filter(SortByTime(Results(run[k], arrival)), OnKey(key)), map[])
    {
      if Unwritten(cfg, key) || Unread(cfg, key) {
        AlwaysQuietKey(cfg, run, k, key);
        QuietKeyResults(cfg, run[k], arrival, key);
      } else {
        var pair := PairOfKey(cfg, key);
        AlwaysPair(cfg, run, k, pair);
        PairResults(cfg, run[k], arrival, pair);
      }
    }
    KeyResultsDecide(cfg, run[k], arrival);
  }

  lemma RunReaching(cfg: Config, tick: int, s: System) returns (run: seq<System>, k: nat)
    requires Reachable(cfg, tick, s)
    ensures IsTimedRun(cfg, run, tick) && k < |run| && run[k] == s
  {
    run :| EndsIn(cfg, tick, run, s);
    k := |run| - 1;
  }

  /** The results are linearizable in every run if and only if nodes do not read what others write. */
  lemma AlwaysLinearizableIff(cfg: Config)
    requires cfg.Valid() && cfg.testing
    ensures (forall run | IsRun(cfg, run) :: ResultsLinearizable(cfg, run)) <==> cfg.n <= 1 || cfg.numReads == 0 || cfg.numWrites == 0
  {
    if IsQuiet(cfg) {
      forall run | IsRun(cfg, run) ensures ResultsLinearizable(cfg, run) {
        forall k: nat, arrival | k < |run| && AllReported(cfg, run[k], arrival) ensures TraceLinearizable(Results(run[k], arrival)) {
          QuietResults(cfg, run, k, arrival);
        }
      }
    } else {
      var s, arrival := StandingClockSpoilsResults(cfg);
      var run, k := RunReaching(cfg, 0, s);
      assert !ResultsLinearizable(cfg, run);
    }
  }

  /** If no two deliveries happen at the same time they are also linearizable with two nodes, but not with more. */
  lemma AdvancingLinearizableIff(cfg: Config)
    requires cfg.Valid() && cfg.testing
    ensures (forall run | IsAdvancingRun(cfg, run) :: ResultsLinearizable(cfg, run)) <==> cfg.n <= 2 || cfg.numReads == 0 || cfg.numWrites == 0
  {
    if cfg.n <= 2 || cfg.numReads == 0 || cfg.numWrites == 0 {
      forall run | IsAdvancingRun(cfg, run) ensures ResultsLinearizable(cfg, run) {
        forall k: nat, arrival | k < |run| && AllReported(cfg, run[k], arrival) ensures TraceLinearizable(Results(run[k], arrival)) {
          if IsQuiet(cfg) {
            QuietResults(cfg, run, k, arrival);
          } else {
            TwoNodesResults(cfg, run, k, arrival);
          }
        }
      }
    } else {
      var s, arrival := LateReplySpoilsResults(cfg, 1);
      var run, k := RunReaching(cfg, 1, s);
      TimedRunAdvances(cfg, run, 1);
      assert !ResultsLinearizable(cfg, run);
    }
  }

  // What a read that writes back answers.

  /** What the read would answer if its last acknowledgement came now. */
  function Readval(s: System, o: OpId): nat
    requires o.1 in s.nodes && o.0 in s.nodes[o.1].registers
  {
    s.nodes[o.1].registers[o.0].readval
  }

  /** Only the first reply after the majority changes what the read will answer; its log holds what it was at the end. */
  ghost predicate FirstLateReplyCounts(cfg: Config, s: System, p: Packet, s': System, o: OpId)
    requires HasShape(cfg, s) && HasShape(cfg, s') && o in s.ops && o in s'.ops
  {
    if s'.ops[o].phase.Responded?
    then cfg.testing ==> |Part(s', o)| == 2 && Part(s', o)[1].value == Some(Readval(s, o))
    else
      && s'.ops[o].phase == s.ops[o].phase
      && Readval(s', o) == (if IsValueFor(cfg, p, o) && ListOf(s, o) == map[] then p.msg.value else Readval(s, o))
      && (IsValueFor(cfg, p, o) ==> ListOf(s', o) != map[])
  }

  lemma ImposingSpot(cfg: Config, s: System, p: Packet, s': System, e: Event, o: OpId, spot: Spot, spot': Spot)
    requires o in s.ops && o in s'.ops && s.ops[o].phase.Imposing? && spot.reg.reading
    requires Causes(cfg, p, e) && (e.Ignored? <==> IsStale(cfg, p))
    requires SpotStep(cfg, p, e, o, spot, spot') == true && PhaseStep(cfg, s, p, s', e, o) == true
    ensures s'.ops[o].phase == s.ops[o].phase
            || (s'.ops[o].phase.Responded? && e.Completed? && IsProtocol(p.msg) && OpAt(p) == o && p.msg.Ack?)
    ensures !s'.ops[o].phase.Responded? ==>
      && spot'.reg.readval == (if IsValueFor(cfg, p, o) && spot.list == map[] then p.msg.value else spot.reg.readval)
      && (IsValueFor(cfg, p, o) ==> spot'.list != map[])
  {
    if IsValueFor(cfg, p, o) {
      assert p.src in spot'.list;
    }
  }

  lemma LoggedReadval(cfg: Config, s: System, p: Packet, s': System, e: Event, o: OpId)
    requires o.1 in s.nodes && o.1 in s'.nodes && s.nodes[o.1].Knows(o.0) && s.nodes[o.1].registers[o.0].reading
    requires PartStep(cfg, s, p, s', e, o) && |Part(s, o)| == 1 && e.Completed? && IsProtocol(p.msg) && OpAt(p) == o && p.msg.Ack?
    ensures |Part(s', o)| == 2 && Part(s', o)[1].value == Some(Readval(s, o))
  {
  }

  lemma ImposingReads(cfg: Config, s: System, o: OpId)
    requires HasShape(cfg, s) && o in s.ops && s.ops[o].phase.Imposing? && cfg.Reads(o.1, o.0) && Inv(cfg, s) == true
    ensures RegisterOf(s, o).reading
  {
    assert OpInv(cfg, s, o);
  }

  lemma ImposingLog(cfg: Config, s: System, p: Packet, s': System, e: Event, sent: seq<Packet>, o: OpId)
    requires HasShape(cfg, s) && HasShape(cfg, s') && o in s.ops && s.ops[o].phase.Imposing? && cfg.testing
    requires RegisterOf(s, o).reading && e.Completed? && IsProtocol(p.msg) && OpAt(p) == o && p.msg.Ack?
    requires Known(cfg, s) == true && Inv(cfg, s) == true && Delivery(cfg, s, p, s', e, sent) == true
    ensures o.1 in s'.nodes && |Part(s', o)| == 2 && Part(s', o)[1].value == Some(Readval(s, o))
  {
    LogInContext(cfg, s, o);
    DeliveryParts(cfg, s, p, s', e, sent, o);
    LoggedReadval(cfg, s, p, s', e, o);
  }

  lemma ImposingStep(cfg: Config, s: System, p: Packet, s': System, e: Event, sent: seq<Packet>, o: OpId)
    requires HasShape(cfg, s) && HasShape(cfg, s') && o in s.ops && o in s'.ops && s.ops[o].phase.Imposing? && RegisterOf(s, o).reading
    requires Known(cfg, s) == true && Inv(cfg, s) == true && Delivery(cfg, s, p, s', e, sent) == true
    ensures FirstLateReplyCounts(cfg, s, p, s', o) == true
  {
    DeliveryCauses(cfg, s, p, s', e, sent);
    DeliverySpot(cfg, s, p, s', e, sent, o);
    DeliveryPhases(cfg, s, p, s', e, sent, o);
    ImposingSpot(cfg, s, p, s', e, o, SpotOf(s, o), SpotOf(s', o));
    if cfg.testing && s'.ops[o].phase.Responded? {
      ImposingLog(cfg, s, p, s', e, sent, o);
    }
  }

  /** In every run, while a read writes back, the first late reply and nothing else replaces the value that it will answer. */
  lemma FirstLateReplyDecides(cfg: Config, run: seq<System>, k: nat, p: Packet, now: int, o: OpId) returns (s': System)
    requires IsRun(cfg, run) && k < |run| && p in run[k].net && p.dst in run[k].nodes && run[k].now <= now
    requires o in run[k].ops && run[k].ops[o].phase.Imposing? && cfg.Reads(o.1, o.0)
    ensures Deliver(cfg, run[k], p, now) == Some(s')
    ensures HasShape(cfg, run[k]) && HasShape(cfg, s') && o in s'.ops && FirstLateReplyCounts(cfg, run[k], p, s', o)
  {
    StateIsKnown(cfg, run, k);
    s' := ImposingDelivery(cfg, run[k], p, now, o);
  }

  lemma ImposingDelivery(cfg: Config, s: System, p: Packet, now: int, o: OpId) returns (s': System)
    requires o in s.ops && s.ops[o].phase.Imposing? && cfg.Reads(o.1, o.0) && p in s.net && p.dst in s.nodes && s.now <= now
    requires Known(cfg, s) == true && HasShape(cfg, s) == true
    ensures Arrives(cfg, s, p, now, s') == true && HasShape(cfg, s') == true && o in s'.ops && FirstLateReplyCounts(cfg, s, p, s', o) == true
  {
    KnownHasInv(cfg, s);
    var e, sent;
    s', e, sent := DeliveryOf(cfg, s, p, now);
    ShapeStays(cfg, s, p, s', e, sent);
    OpStays(cfg, s, p, s', e, sent, o);
    ImposingReads(cfg, s, o);
    ImposingStep(cfg, s, p, s', e, sent, o);
  }

  lemma ShapeStays(cfg: Config, s: System, p: Packet, s': System, e: Event, sent: seq<Packet>)
    requires Inv(cfg, s) == true && Delivery(cfg, s, p, s', e, sent)
    ensures HasShape(cfg, s') == true
  {
    StepsKeepInv(cfg, s, p, s', e, sent);
  }

  // Tags and values.

  /** A replica of the key holds `f`, or a Value or Write of the run carries it. */
  ghost predicate Shows(cfg: Config, s: System, key: nat, f: Entry)
    requires HasShape(cfg, s) && key < cfg.numKeys
  {
    || (exists i :: i in cfg.Ranks() && EntryAt(s.nodes[i].registers[key]) == f)
    || (exists q :: q in s.net && CarriesEntry(cfg, q, key) && EntryCarried(q.msg) == f)
  }

  /** Equal tags of a key come with equal values. */
  ghost predicate TagsDetermineValues(cfg: Config, s: System) {
    HasShape(cfg, s) && forall key: nat, f, g | key < cfg.numKeys && Shows(cfg, s, key, f) && Shows(cfg, s, key, g) && f.GetTag() == g.GetTag() ::
      f.value == g.value
  }

  lemma ShownIsGood(cfg: Config, s: System, key: nat, f: Entry, good: Entry -> bool)
    requires HasShape(cfg, s) && key < cfg.numKeys && Shows(cfg, s, key, f) && AllGood(cfg, s, key, good)
    ensures good(f)
  {
    if i :| i in cfg.Ranks() && EntryAt(s.nodes[i].registers[key]) == f {
      assert GoodNode(s.nodes[i], key, good);
    }
  }

  lemma QuietTags(cfg: Config, s: System, key: nat, f: Entry, g: Entry)
    requires cfg.Valid() && IsQuiet(cfg) && KeyIsQuiet(cfg, s, key)
    requires Shows(cfg, s, key, f) && Shows(cfg, s, key, g) && f.GetTag() == g.GetTag()
    ensures f.value == g.value
  {
    if key < cfg.Planned() {
      QuietKeys(cfg, key);
    }
    if key < cfg.Planned() && Unwritten(cfg, key) {
      ShownIsGood(cfg, s, key, f, IsZeroEntry);
      ShownIsGood(cfg, s, key, g, IsZeroEntry);
    } else {
      ShownIsGood(cfg, s, key, f, IsRankedEntry);
      ShownIsGood(cfg, s, key, g, IsRankedEntry);
    }
  }

  lemma QuietDetermines(cfg: Config, run: seq<System>, k: nat)
    requires IsRun(cfg, run) == true && cfg.Valid() && IsQuiet(cfg) && k < |run|
    ensures TagsDetermineValues(cfg, run[k]) == true
  {
    StateIsKnown(cfg, run, k);
    forall key: nat, f, g | key < cfg.numKeys && Shows(cfg, run[k], key, f) && Shows(cfg, run[k], key, g) && f.GetTag() == g.GetTag()
      ensures f.value == g.value
    {
      AlwaysQuietKey(cfg, run, k, key);
      QuietTags(cfg, run[k], key, f, g);
    }
  }

  lemma SpoiledTag(cfg: Config, s: System)
    requires Spoiled(cfg, s)
    ensures !TagsDetermineValues(cfg, s)
  {
    var f, g := EntryAt(s.nodes[1].registers[0]), EntryAt(s.nodes[2].registers[0]);
    assert Shows(cfg, s, 0, f) && Shows(cfg, s, 0, g);
  }

  /** Tags determine values in every state of every run if and only if nodes do not read what others write. */
  lemma TagsDetermineValuesIff(cfg: Config)
    requires cfg.Valid()
    ensures (forall run, k: nat | IsRun(cfg, run) && k < |run| :: TagsDetermineValues(cfg, run[k]))
            <==> cfg.n <= 1 || cfg.numReads == 0 || cfg.numWrites == 0
  {
    if IsQuiet(cfg) {
      forall run, k: nat | IsRun(cfg, run) && k < |run| ensures TagsDetermineValues(cfg, run[k]) {
        QuietDetermines(cfg, run, k);
      }
    } else {
      var s := SkippedReadSpoils(cfg, 1);
      SpoiledTag(cfg, s);
      var run, k := RunReaching(cfg, 1, s);
    }
  }

  /** Then all replicas of a key hold the same tag and the same value once no Write of it is in flight. */
  lemma ReplicasAgreeOnValues(cfg: Config, run: seq<System>, m: nat, i: nat, j: nat, key: nat)
    requires IsRun(cfg, run) && m < |run| && i in cfg.Ranks() && j in cfg.Ranks() && key < cfg.numKeys
    requires cfg.n <= 1 || cfg.numReads == 0 || cfg.numWrites == 0
    requires forall q | q in run[m].net :: !(IsCurrent(cfg, q) && q.msg.Write? && q.msg.key == key)
    ensures HasShape(cfg, run[m]) && EntryAt(run[m].nodes[i].registers[key]) == EntryAt(run[m].nodes[j].registers[key])
  {
    ReplicasAgree(cfg, run, m, i, j, key);
    QuietDetermines(cfg, run, m);
    SameTagSameEntry(cfg, run[m], i, j, key);
  }

  lemma SameTagSameEntry(cfg: Config, s: System, i: nat, j: nat, key: nat)
    requires TagsDetermineValues(cfg, s) && i in cfg.Ranks() && j in cfg.Ranks() && key < cfg.numKeys
    requires TagAt(s, i, key) == TagAt(s, j, key)
    ensures EntryAt(s.nodes[i].registers[key]) == EntryAt(s.nodes[j].registers[key])
  {
    var f, g := EntryAt(s.nodes[i].registers[key]), EntryAt(s.nodes[j].registers[key]);
    assert Shows(cfg, s, key, f) && Shows(cfg, s, key, g);
  }
}
