/** What holds in every run of a stream partition. */
module WindowTheorems {
  import opened Collections
  import opened Medians
  import opened WindowActors
  import opened WindowProtocol
  import opened WindowSafety

  lemma InitialHasInv(p: Params, s: System)
    requires p.Valid() && IsInitial(p, s)
    ensures Inv(p, s) == true
  {
  }

  lemma RunStarts(p: Params, run: seq<System>)
    requires IsRun(p, run)
    ensures Inv(p, run[0]) == true
  {
    InitialHasInv(p, run[0]);
  }

  lemma StepAtKeepsInv(p: Params, run: seq<System>, i: nat)
    requires IsRun(p, run) && i + 1 < |run| && Inv(p, run[i]) == true
    ensures Inv(p, run[i + 1]) == true
  {
    assert StepAt(p, run, i);
    var a :| Enabled(run[i], a) && Step(p, run[i], a) == Some(run[i + 1]);
    StepKeepsInv(p, run[i], a);
  }

  lemma {:induction false} InvAlongRun(p: Params, run: seq<System>, i: nat)
    requires IsRun(p, run) == true && i < |run|
    ensures Inv(p, run[i]) == true
  {
    if i == 0 {
      RunStarts(p, run);
    } else {
      InvAlongRun(p, run, i - 1);
      StepAtKeepsInv(p, run, i - 1);
    }
  }

  /** No message ever finds its actor in a state that does not expect it. */
  lemma NoPanic(p: Params, run: seq<System>, i: nat, a: Action)
    requires IsRun(p, run) && i < |run| && Enabled(run[i], a)
    ensures Step(p, run[i], a).Some?
  {
    InvAlongRun(p, run, i);
    StepKeepsInv(p, run[i], a);
  }

  // Credit.

  /** From the windower's Start until it stops or the source resets, the credit adds up to one batch. */
  lemma CreditIsConserved(p: Params, run: seq<System>, i: nat)
    requires IsRun(p, run) && i < |run| && run[i].stage.Active? && run[i].windower.running
    ensures CreditOf(run[i].sourceBox + run[i].toSource) + run[i].source.remaining + |run[i].toWindower|
            + run[i].windower.receivedSinceReady == p.batchSize
    ensures run[i].windower.receivedSinceReady <= p.batchSize / 2
    ensures forall m | m in run[i].toWindower :: m.Event?
  {
    InvAlongRun(p, run, i);
  }

  /** The iteration has not finished and no actor has anything to do. */
  predicate Stalled(s: System) {
    && s.master.Running? && s.countdowns == 0
    && s.sourceBox == [] && s.toSource == [] && s.toWindower == [] && s.control == [] && s.sinkBox == []
  }

  lemma InvNeverStalls(p: Params, s: System)
    requires Inv(p, s) && p.batchSize >= 1
    ensures !Stalled(s)
  {
    if s.stage.Active? {
      assert s.sourceBox == [] && s.toSource == [] ==> s.sourceBox + s.toSource == [];
    }
  }

  lemma RunNeverStalls(p: Params, run: seq<System>, i: nat)
    requires IsRun(p, run) && p.batchSize >= 1 && i < |run|
    ensures !Stalled(run[i])
  {
    InvAlongRun(p, run, i);
    InvNeverStalls(p, run[i]);
  }

  /** The start of an iteration, up to the moment when the source has taken its first credit. */
  function FirstActions(): seq<Action> {
    [Begin, SinkTakes, WindowerTakesControl, Arrives, SourceTakes(0)]
  }

  function InitialState(p: Params): System {
    System(Waiting, Quiet, SourceState(p.partitionId, false, 0, 0, false, false), [], [], [], [],
           WindowerState(p.windowSize, p.batchSize, p.amplification, p.batchSize / 2, None, [], 0, 0, false),
           0, SinkState(p.numberOfWindows, 0), [], 0, [], [])
  }

  /** Without credit the source waits for a Ready and the windower for an event. */
  lemma NoCreditStalls(p: Params) returns (run: seq<System>)
    requires p.Valid() && p.batchSize == 0
    ensures IsRun(p, run) && Stalled(run[|run| - 1])
  {
    var s0 := InitialState(p);
    var s1 := Step(p, s0, Begin).value;
    var s2 := Step(p, s1, SinkTakes).value;
    assert s2.control == [Start];
    var s3 := Step(p, s2, WindowerTakesControl).value;
    assert s3.toSource == [Ready(0)];
    var s4 := Step(p, s3, Arrives).value;
    assert s4.sourceBox == [Ready(0)];
    var s5 := Step(p, s4, SourceTakes(0)).value;
    assert s5.sourceBox == [] && s5.toWindower == [];
    run := [s0, s1, s2, s3, s4, s5];
    forall i: nat | i + 1 < |run| ensures StepAt(p, run, i) {
      var a := FirstActions()[i];
      assert Enabled(run[i], a) && Step(p, run[i], a) == Some(run[i + 1]);
    }
  }

  /** A partition can stall exactly when the batch size is zero. */
  lemma StallsIffNoCredit(p: Params)
    requires p.Valid()
    ensures (exists run, i: nat :: IsRun(p, run) && i < |run| && Stalled(run[i])) <==> p.batchSize == 0
  {
    if p.batchSize == 0 {
      var run := NoCreditStalls(p);
      assert IsRun(p, run) && |run| - 1 < |run| && Stalled(run[|run| - 1]);
    } else {
      forall run, i: nat | IsRun(p, run) && i < |run| ensures !Stalled(run[i]) {
        RunNeverStalls(p, run, i);
      }
    }
  }

  /** How many deliveries the messages under way can still cause before the source sends again. */
  function Backlog(s: System): nat {
    |s.sourceBox| + 2 * |s.toSource| + 7 * |s.toWindower| + 4 * |s.sinkBox| + 3 * |s.control|
  }

  lemma CountOneValue(ms: seq<WindowerMsg>)
    ensures |ms| == 1 ==> |ValuesOf(ms)| == if ms[0].Event? then 1 else 0
  {
  }

  /** Every delivery that does not make the source send an event uses up some of the backlog. */
  lemma DeliveriesUseBacklog(p: Params, s: System, a: Action)
    requires Enabled(s, a) && !a.Begin? && !a.AskReset? && Step(p, s, a).Some?
    requires |Step(p, s, a).value.drawn| <= |s.drawn|
    requires a.SourceTakes? ==> !s.sourceBox[0].Reset?
    ensures Backlog(Step(p, s, a).value) < Backlog(s)
  {
    if a.SourceTakes? {
      var ms := SourceReceive(s.source, s.sourceBox[0], a.draw).toWindower;
      CountOneValue(ms);
    }
  }

  /** The iteration runs from `run[i]` to `run[k]` without a new event from the source. */
  ghost predicate SilentStretch(p: Params, run: seq<System>, i: nat, k: nat)
    requires i <= k < |run|
  {
    forall j: nat | i <= j < k :: run[j].master.Running? && run[j].countdowns == 0 && |run[j + 1].drawn| <= |run[j].drawn|
  }

  lemma SilentStep(p: Params, run: seq<System>, j: nat)
    requires IsRun(p, run) && j + 1 < |run| && run[j].master.Running? && run[j].countdowns == 0
    requires |run[j + 1].drawn| <= |run[j].drawn|
    ensures Backlog(run[j + 1]) < Backlog(run[j])
  {
    InvAlongRun(p, run, j);
    assert StepAt(p, run, j);
    var a :| Enabled(run[j], a) && Step(p, run[j], a) == Some(run[j + 1]);
    if a.SourceTakes? {
      assert run[j].sourceBox[0] in run[j].sourceBox;
    }
    DeliveriesUseBacklog(p, run[j], a);
  }

  /**
   * The pair makes progress: before the latch is down it never stalls, and after no more deliveries
   * than the backlog the source sends another event.
   */
  lemma {:induction false} SourceKeepsSending(p: Params, run: seq<System>, i: nat, k: nat)
    requires IsRun(p, run) && p.batchSize >= 1 && i <= k < |run| && SilentStretch(p, run, i, k)
    ensures k - i <= Backlog(run[i]) - Backlog(run[k])
    ensures !Stalled(run[k])
  {
    RunNeverStalls(p, run, k);
    if i < k {
      SourceKeepsSending(p, run, i, k - 1);
      SilentStep(p, run, k - 1);
    }
  }

  // Windows.

  lemma {:induction false} StartIsMultiple(size: nat, i: nat)
    ensures StartOf(size, i) == i * size
  {
    if i > 0 {
      StartIsMultiple(size, i - 1);
    }
  }

  /**
   * The `j`-th aggregate of an iteration covers timestamps from `j * w` up to `(j + 1) * w`, and is
   * the median of the source's values there, each counted once.
   */
  lemma AggregatesAreWindows(p: Params, run: seq<System>, i: nat, j: nat)
    requires IsRun(p, run) && i < |run| && !run[i].stage.Quiet? && j < |run[i].emitted|
    ensures var w := p.windowSize;
            && 0 <= j * w < (j + 1) * w <= |run[i].drawn|
            && var values := run[i].drawn[j * w..(j + 1) * w];
               && values != [] && run[i].emitted[j].WindowAggregate?
               && run[i].emitted[j] == WindowAggregate(j * w, p.partitionId, run[i].emitted[j].value)
               && IsMedian(values, run[i].emitted[j].value)
  {
    InvAlongRun(p, run, i);
    StartIsMultiple(p.windowSize, j);
    StartIsMultiple(p.windowSize, j + 1);
    assert IsWindow(p, run[i].drawn, j, run[i].emitted[j]);
    var values := run[i].drawn[StartOf(p.windowSize, j)..StartOf(p.windowSize, j + 1)];
    MedianIsMedian(values, Median(values));
  }

  /** No window is skipped or late: of `k` events taken, all complete windows but the current one are out. */
  lemma AggregatesAreComplete(p: Params, run: seq<System>, i: nat)
    requires IsRun(p, run) && i < |run| && !run[i].stage.Quiet? && run[i].windower.running
    ensures 0 <= Taken(run[i]) <= |run[i].drawn|
    ensures if Taken(run[i]) == 0 then run[i].emitted == []
            else |run[i].emitted| * p.windowSize < Taken(run[i]) <= (|run[i].emitted| + 1) * p.windowSize
  {
    InvAlongRun(p, run, i);
    var s := run[i];
    StartIsMultiple(p.windowSize, |s.emitted|);
    StartIsMultiple(p.windowSize, |s.emitted| + 1);
    assert WindowerHolds(p, s.windower, s.drawn[..Taken(s)], |s.emitted|);
  }

  /** The sink sees the aggregates in order; the latch goes down once, with the last window asked for. */
  lemma LatchCountsWindows(p: Params, run: seq<System>, i: nat)
    requires IsRun(p, run) && i < |run| && !run[i].stage.Quiet?
    ensures run[i].sink.windowCount <= |run[i].emitted|
    ensures run[i].sinkBox == run[i].emitted[run[i].sink.windowCount..]
    ensures run[i].countdowns == if 1 <= p.numberOfWindows <= run[i].sink.windowCount then 1 else 0
  {
    InvAlongRun(p, run, i);
  }

  /** An iteration that asks for no window never finishes. */
  lemma NoWindowsNeverFinish(p: Params, run: seq<System>, i: nat)
    requires IsRun(p, run) && i < |run| && p.numberOfWindows == 0
    ensures !Enabled(run[i], AskReset)
  {
    InvAlongRun(p, run, i);
  }

  // The way to the latch.

  /** The iteration has started and its latch is not down yet; at most `lag` aggregates wait for the sink. */
  predicate OnTheWay(s: System, lag: nat) {
    s.stage.Active? && s.master.Running? && s.countdowns == 0 && |s.sinkBox| <= lag
  }

  /** How many values the source can have sent before the latch goes down. */
  function MostDrawn(p: Params, lag: nat): nat {
    (p.numberOfWindows + lag) * p.windowSize + p.batchSize
  }

  lemma DrawnIsBounded(p: Params, run: seq<System>, i: nat, lag: nat)
    requires IsRun(p, run) && i < |run| && OnTheWay(run[i], lag) && p.numberOfWindows >= 1
    ensures |run[i].drawn| <= MostDrawn(p, lag)
  {
    InvAlongRun(p, run, i);
    var s := run[i];
    NoFlush(p, s.drawn, s.toWindower);
    CreditIsConserved(p, run, i);
    AggregatesAreComplete(p, run, i);
    WindowsAtMost(|s.emitted| + 1, p.numberOfWindows + lag, p.windowSize);
  }

  lemma WindowsAtMost(j: nat, k: nat, size: nat)
    requires j <= k
    ensures j * size <= k * size
  {
  }

  /** One delivery, whether it makes the source send or not. */
  lemma DeliveryUsesWork(p: Params, run: seq<System>, j: nat, lag: nat)
    requires IsRun(p, run) && j + 1 < |run| && OnTheWay(run[j], lag) && run[j + 1].stage.Active? && run[j + 1].master.Running?
    ensures Backlog(run[j + 1]) < Backlog(run[j]) + 8 * (|run[j + 1].drawn| - |run[j].drawn|)
    ensures |run[j + 1].drawn| >= |run[j].drawn|
  {
    InvAlongRun(p, run, j);
    assert StepAt(p, run, j);
    var a :| Enabled(run[j], a) && Step(p, run[j], a) == Some(run[j + 1]);
    if a.SourceTakes? {
      assert run[j].sourceBox[0] in run[j].sourceBox;
      CountOneValue(SourceReceive(run[j].source, run[j].sourceBox[0], a.draw).toWindower);
    }
    if |run[j + 1].drawn| <= |run[j].drawn| {
      DeliveriesUseBacklog(p, run[j], a);
    }
  }

  /**
   * The latch is reached: as long as no more than `lag` aggregates wait for the sink, an iteration
   * stays short of its latch for no more than this many deliveries, and it never stalls on the way.
   */
  lemma {:induction false} LatchIsReached(p: Params, run: seq<System>, i: nat, k: nat, lag: nat)
    requires IsRun(p, run) && p.batchSize >= 1 && p.numberOfWindows >= 1 && i <= k < |run|
    requires forall j: nat | i <= j <= k :: OnTheWay(run[j], lag)
    ensures k - i <= Backlog(run[i]) - Backlog(run[k]) + 8 * (|run[k].drawn| - |run[i].drawn|)
    ensures k - i <= Backlog(run[i]) + 8 * MostDrawn(p, lag)
    ensures !Stalled(run[k])
  {
    RunNeverStalls(p, run, k);
    DrawnIsBounded(p, run, k, lag);
    if i < k {
      LatchIsReached(p, run, i, k - 1, lag);
      DeliveryUsesWork(p, run, k - 1, lag);
    }
  }

  // Flushing.

  /** Nothing of the old iteration is left between source and windower. */
  predicate IsClean(p: Params, s: System) {
    && s.source == SourceState(p.partitionId, false, 0, 0, false, false)
    && s.sourceBox == [] && s.toSource == [] && s.toWindower == []
  }

  /** When the source answers a reset, no Event, Ready or Next is left in any channel or mailbox. */
  lemma FlushLeavesNothing(p: Params, run: seq<System>, i: nat, draw: int)
    requires IsRun(p, run) && i < |run| && Enabled(run[i], SourceTakes(draw))
    requires SourceReceive(run[i].source, run[i].sourceBox[0], draw).SourceHandled?
    requires SourceReceive(run[i].source, run[i].sourceBox[0], draw).replied
    ensures run[i].sourceBox == [Flushed] && run[i].toSource == [] && run[i].toWindower == []
    ensures Step(p, run[i], SourceTakes(draw)).Some? && IsClean(p, Step(p, run[i], SourceTakes(draw)).value)
  {
    InvAlongRun(p, run, i);
    assert run[i].sourceBox[0] in run[i].sourceBox;
    FlushedIsLast(p, run[i]);
  }

  /** So the next Start finds no credit and timestamp 0: its batch is all the credit there is. */
  lemma IterationStartsClean(p: Params, run: seq<System>, i: nat)
    requires IsRun(p, run) && i < |run| && Enabled(run[i], WindowerTakesControl) && run[i].control[0].Start?
    ensures IsClean(p, run[i])
    ensures var s' := Step(p, run[i], WindowerTakesControl);
            && s'.Some? && s'.value.toSource == [Ready(p.batchSize)] && s'.value.drawn == [] && s'.value.emitted == []
            && s'.value.source.currentTs == 0 && s'.value.source.remaining == 0
            && s'.value.windower.currentWindow == [] && s'.value.windower.windowStart == 0
            && s'.value.windower.receivedSinceReady == 0
  {
    InvAlongRun(p, run, i);
  }
}
