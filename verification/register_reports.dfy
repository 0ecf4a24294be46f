/** The reports of a testing run as the trace that the checker sorts and decides. */
module RegisterReports {
  import opened Collections
  import opened Histories
  import opened Linearizability
  import opened Locality
  import opened Verdicts
  import opened RegisterNode
  import opened RegisterProtocol
  import opened RegisterInvariant
  import opened RegisterTheorems
  import opened RegisterLogs
  import opened RegisterParts
  import opened RegisterReach
  import opened RegisterQuiet
  import opened RegisterValues

  /** Every node has reported; `arrival` is the order in which the master got the reports. */
  ghost predicate AllReported(cfg: Config, s: System, arrival: seq<nat>) {
    && cfg.testing && Distinct(arrival)
    && (forall i :: i in arrival <==> i in cfg.Ranks())
    && (forall i | i in arrival :: i in s.finished)
  }

  /** What the checker is given. */
  function Results(s: System, arrival: seq<nat>): Trace
    requires forall i | i in arrival :: i in s.finished
  {
    Collected(s.finished, arrival)
  }

  ghost predicate PlannedOp(cfg: Config, o: OpId) {
    o.0 < cfg.Planned() && o.1 in cfg.Ranks()
  }

  lemma ResultsAreTrace(cfg: Config, s: System, arrival: seq<nat>)
    requires Known(cfg, s) && AllReported(cfg, s, arrival)
    ensures IsTestTrace(Results(s, arrival)) && Complete(SortByTime(Results(s, arrival)))
    ensures forall o: OpId :: o in Ops(SortByTime(Results(s, arrival))) <==> PlannedOp(cfg, o)
  {
    AllReportsFit(cfg, s, arrival);
    CollectedFits(cfg, s.finished, arrival);
    SortedTraceComplete(Results(s, arrival));
    SortedOps(Results(s, arrival));
  }

  lemma ReportedParts(cfg: Config, s: System, arrival: seq<nat>, o: OpId)
    requires Known(cfg, s) && AllReported(cfg, s, arrival) && PlannedOp(cfg, o)
    ensures o.1 in s.nodes && Filter(Results(s, arrival), Only(o)) == Part(s, o)
  {
    AllReportsFit(cfg, s, arrival);
    CollectedEntries(s.finished, arrival, o);
  }

  /** A planned operation in the sorted results: its two entries, and what kind it is. */
  lemma OpInResults(cfg: Config, s: System, arrival: seq<nat>, o: OpId)
    requires Known(cfg, s) == true && HasShape(cfg, s) && AllReported(cfg, s, arrival) && PlannedOp(cfg, o)
    ensures var h := SortByTime(Results(s, arrival));
            && IsOpIn(h, o) && Filter(h, Only(o)) == Part(s, o) && |Part(s, o)| == 2
            && o in s.ops && s.ops[o].phase.Responded? && (IsWrite(h, o) <==> !cfg.Reads(o.1, o.0))
  {
    ResultsAreTrace(cfg, s, arrival);
    ReportedParts(cfg, s, arrival, o);
    SortedEntriesOf(Results(s, arrival), o);
    RespondedParts(cfg, s, o);
  }

  lemma SortedEntriesOf(t: Trace, o: OpId)
    requires IsTestTrace(t) && o in Ops(SortByTime(t))
    ensures IsOpIn(SortByTime(t), o) && Filter(SortByTime(t), Only(o)) == Filter(t, Only(o))
  {
    SortedOps(t);
    SortedEntries(t, o);
  }

  lemma RespondedParts(cfg: Config, s: System, o: OpId)
    requires Known(cfg, s) && cfg.testing && PlannedOp(cfg, o) && o.1 in s.finished
    ensures o in s.ops && s.ops[o].phase.Responded? && o.1 in s.nodes && IsOperation(Part(s, o))
    ensures Part(s, o)[0].operation.ReadInvokation? <==> cfg.Reads(o.1, o.0)
    ensures Part(s, o)[0].time <= Part(s, o)[1].time
  {
    ReportedOperation(cfg, s, o);
    assert OpLogged(cfg, s, o);
  }

  /** Writers write their rank. */
  lemma WrittenValue(cfg: Config, s: System, arrival: seq<nat>, o: OpId)
    requires Known(cfg, s) == true && HasShape(cfg, s) && AllReported(cfg, s, arrival) && PlannedOp(cfg, o) && !cfg.Reads(o.1, o.0)
    ensures IsOpIn(SortByTime(Results(s, arrival)), o) && ValueOf(SortByTime(Results(s, arrival)), o) == o.1 && o.1 >= 1
  {
    OpInResults(cfg, s, arrival, o);
    FirstEntryIsRank(cfg, s, o);
  }

  lemma FirstEntryIsRank(cfg: Config, s: System, o: OpId)
    requires Known(cfg, s) && HasShape(cfg, s) && cfg.testing && o in s.ops && Part(s, o) != []
    ensures Part(s, o)[0].operation.WriteInvokation? ==> Part(s, o)[0].value == Some(o.1)
  {
    assert NodeLogged(cfg, s, o.1);
    FilterContents(LogOf(s, o.1), Only(o));
    assert Part(s, o)[0] in Part(s, o);
  }

  // The results of one key.

  lemma KeyResultsOps(cfg: Config, s: System, arrival: seq<nat>, key: nat)
    requires Known(cfg, s) == true && HasShape(cfg, s) == true && AllReported(cfg, s, arrival)
    ensures var h := SortByTime(Results(s, arrival)); var g := Filter(h, OnKey(key));
            && IsTestTrace(Results(s, arrival)) && Complete(h) && Complete(g)
            && forall o: OpId :: o in Ops(g) <==> PlannedOp(cfg, o) && o.0 == key
  {
    ResultsAreTrace(cfg, s, arrival);
    var h := SortByTime(Results(s, arrival));
    SubhistoryComplete(h, OnKey(key));
    forall o: OpId ensures o in Ops(Filter(h, OnKey(key))) <==> PlannedOp(cfg, o) && o.0 == key {
      KeyOps(h, key, o);
    }
  }

  /** An answered operation and its two entries in the history of its key. */
  ghost predicate IsAnsweredIn(cfg: Config, s: System, g: Trace, o: OpId) {
    && IsOpIn(g, o) && o.1 in s.nodes && Filter(g, Only(o)) == Part(s, o) && |Part(s, o)| == 2
    && o in s.ops && s.ops[o].phase.Responded? && (IsWrite(g, o) <==> !cfg.Reads(o.1, o.0))
    && (IsWrite(g, o) ==> ValueOf(g, o) == o.1)
  }

  lemma SameInKey(h: Trace, o: OpId)
    requires IsOpIn(h, o) && o in Ops(Filter(h, OnKey(o.0)))
    ensures IsOpIn(Filter(h, OnKey(o.0)), o) && Filter(Filter(h, OnKey(o.0)), Only(o)) == Filter(h, Only(o))
  {
    KeyOperation(h, o.0, o);
  }

  lemma WriteInResults(cfg: Config, s: System, arrival: seq<nat>, o: OpId)
    requires Known(cfg, s) == true && HasShape(cfg, s) == true && AllReported(cfg, s, arrival) && PlannedOp(cfg, o)
    ensures var h := SortByTime(Results(s, arrival));
            IsOpIn(h, o) && (!cfg.Reads(o.1, o.0) ==> ValueOf(h, o) == o.1)
  {
    OpInResults(cfg, s, arrival, o);
    if !cfg.Reads(o.1, o.0) {
      WrittenValue(cfg, s, arrival, o);
    }
  }

  lemma KeyResultsOp(cfg: Config, s: System, arrival: seq<nat>, o: OpId)
    requires Known(cfg, s) == true && HasShape(cfg, s) == true && AllReported(cfg, s, arrival) && PlannedOp(cfg, o)
    ensures IsAnsweredIn(cfg, s, Filter(SortByTime(Results(s, arrival)), OnKey(o.0)), o) == true
  {
    OpInResults(cfg, s, arrival, o);
    WriteInResults(cfg, s, arrival, o);
    KeyResultsOps(cfg, s, arrival, o.0);
    SameInKey(SortByTime(Results(s, arrival)), o);
  }

  lemma KeySorted(h: Trace, key: nat)
    ensures SortedByTime(Filter(SortByTime(h), OnKey(key)))
  {
    SortFiltered(h, OnKey(key));
    SortSorts(Filter(h, OnKey(key)));
  }

  /** The results on a key that is only read or only written are linearizable. */
  lemma QuietKeyResults(cfg: Config, s: System, arrival: seq<nat>, key: nat)
    requires AllReported(cfg, s, arrival) && key < cfg.Planned() && (Unwritten(cfg, key) || Unread(cfg, key)) && KeyIsQuiet(cfg, s, key)
    requires Known(cfg, s) == true && HasShape(cfg, s) == true
    ensures Linearizable(Filter(SortByTime(Results(s, arrival)), OnKey(key)), map[])
  {
    var g := Filter(SortByTime(Results(s, arrival)), OnKey(key));
    KeyResultsOps(cfg, s, arrival, key);
    forall r | r in Ops(g) && IsOpIn(g, r) && !IsWrite(g, r)
      ensures ValueOf(g, r) == 0
      ensures forall w | w in Ops(g) && IsOpIn(g, w) && w.0 == r.0 :: !IsWrite(g, w)
    {
      KeyResultsOp(cfg, s, arrival, r);
      QuietAnswer(cfg, s, g, r);
      forall w | w in Ops(g) && IsOpIn(g, w) && w.0 == r.0 ensures !IsWrite(g, w) {
        KeyResultsOp(cfg, s, arrival, w);
      }
    }
    QuietIsLinearizable(g, map[]);
  }

  lemma QuietAnswer(cfg: Config, s: System, g: Trace, r: OpId)
    requires IsAnsweredIn(cfg, s, g, r) && cfg.testing && !IsWrite(g, r) && PlannedOp(cfg, r)
    requires (Unwritten(cfg, r.0) || Unread(cfg, r.0)) && KeyIsQuiet(cfg, s, r.0)
    ensures Unwritten(cfg, r.0) && ValueOf(g, r) == 0
  {
    assert ZeroAnswer(cfg, s, (r.0, r.1));
  }

  /** The results are linearizable if those on every key are. */
  lemma KeyResultsDecide(cfg: Config, s: System, arrival: seq<nat>)
    requires Known(cfg, s) && AllReported(cfg, s, arrival)
    requires forall key: nat | key < cfg.Planned() :: Linearizable(Filter(SortByTime(Results(s, arrival)), OnKey(key)), map[])
    ensures TraceLinearizable(Results(s, arrival))
  {
    var h := SortByTime(Results(s, arrival));
    ResultsAreTrace(cfg, s, arrival);
    forall e | e in h ensures Linearizable(Filter(h, OnKey(e.key)), map[]) {
      assert OpOf(e) in Ops(h);
    }
    Merge(h, map[]);
  }
}
