/** When the windower returns credit, and how much: the pace of a stream partition over whole runs. */
module WindowPace {
  import opened Collections
  import opened Arithmetic
  import opened WindowActors
  import opened WindowProtocol
  import opened WindowSafety
  import opened WindowTheorems

  /** The number of events for which the windower returns credit at once. */
  function Portion(p: Params): (n: nat)
    ensures n > 0
  {
    p.batchSize / 2 + 1
  }

  /** Every credit under way is one portion. */
  predicate ArePortions(p: Params, ms: seq<SourceMsg>) {
    forall m | m in ms && m.Ready? :: m == Ready(Portion(p))
  }

  /** The batch of the Start comes first and alone, before the source knows its windower. */
  predicate GrantedSoFar(p: Params, connected: bool, ms: seq<SourceMsg>, drawn: seq<int>) {
    if connected then ArePortions(p, ms) else ms == [Ready(p.batchSize)] && drawn == []
  }

  ghost predicate GrantsPortions(p: Params, s: System) {
    s.stage.Active? ==> GrantedSoFar(p, s.source.connected, s.sourceBox + s.toSource, s.drawn)
  }

  /** The windower's count restarts after every portion of events. */
  ghost predicate CountsPortions(p: Params, s: System) {
    !s.stage.Quiet? && s.windower.running ==> Taken(s) >= 0 && s.windower.receivedSinceReady == Taken(s) % Portion(p)
  }

  // What the source takes.

  lemma BoxOfPortions(p: Params, box: seq<SourceMsg>, toSource: seq<SourceMsg>, more: seq<SourceMsg>)
    requires box != [] && (more == [] || more == [Next])
    requires ArePortions(p, box + toSource) || box + toSource == [box[0]]
    ensures ArePortions(p, box[1..] + more + toSource)
  {
    forall m | m in box[1..] + more + toSource && m.Ready? ensures m == Ready(Portion(p)) {
      assert (box + toSource)[1..] == box[1..] + toSource;
      assert m in box[1..] + toSource;
    }
  }

  lemma SendKeepsGrants(p: Params, s: System, draw: int)
    requires GrantsPortions(p, s) && s.sourceBox != [] && s.stage.Active?
    ensures GrantsPortions(p, AfterSend(s, draw)) == true
  {
    var all := s.sourceBox + s.toSource;
    assert all[0] == s.sourceBox[0];
    assert !s.source.connected ==> all == [s.sourceBox[0]] && s.sourceBox[0].Ready?;
    BoxOfPortions(p, s.sourceBox, s.toSource, []);
    BoxOfPortions(p, s.sourceBox, s.toSource, [Next]);
    assert s.sourceBox[1..] + [] == s.sourceBox[1..];
  }

  lemma SendKeepsCount(p: Params, s: System, draw: int)
    requires CarryTail(p, s.drawn, s.toWindower) && s.source.partitionId == p.partitionId && s.source.currentTs == |s.drawn|
    requires CountsPortions(p, s) && s.sourceBox != []
    ensures CountsPortions(p, AfterSend(s, draw)) == true
  {
    NoFlush(p, s.drawn, s.toWindower);
    TailAfterEvent(p, s.drawn, s.toWindower, draw);
    var s' := AfterSend(s, draw);
    NoFlush(p, s'.drawn, s'.toWindower);
  }

  lemma ResetKeepsCount(p: Params, s: System, draw: int)
    requires SourceInv(p, s) && CountsPortions(p, s) && s.sourceBox != [] && s.stage.Active? && s.sourceBox[0].Reset?
    ensures SourceStep(s, draw).Some? ==> CountsPortions(p, SourceStep(s, draw).value) && SourceStep(s, draw).value.stage.Draining?
  {
    FlushAtEnd(p, s.drawn, s.toWindower);
    NoFlush(p, s.drawn, s.toWindower);
    assert ValuesOf([Flush]) == [];
  }

  lemma DrainingKeepsCount(p: Params, s: System, draw: int)
    requires SourceInv(p, s) && CountsPortions(p, s) && s.sourceBox != [] && !s.stage.Active?
    ensures SourceStep(s, draw).Some? ==> CountsPortions(p, SourceStep(s, draw).value) && !SourceStep(s, draw).value.stage.Active?
  {
    assert s.sourceBox[0] in s.sourceBox;
    if SourceStep(s, draw).Some? {
      var s' := SourceStep(s, draw).value;
      assert s'.stage.Quiet? || (s'.drawn == s.drawn && s'.toWindower == s.toWindower);
    }
  }

  /** What every action keeps. */
  ghost predicate PaceInv(p: Params, s: System) {
    CountsPortions(p, s) && GrantsPortions(p, s)
  }

  lemma SourceTakesKeepsPace(p: Params, s: System, draw: int)
    requires Inv(p, s) && PaceInv(p, s) && s.sourceBox != []
    ensures SourceStep(s, draw).Some? ==> PaceInv(p, SourceStep(s, draw).value) == true
  {
    if s.stage.Active? && !s.sourceBox[0].Reset? {
      SendIsAfterSend(p, s, draw);
      SendKeepsGrants(p, s, draw);
      SendKeepsCount(p, s, draw);
    } else if s.stage.Active? {
      ResetKeepsCount(p, s, draw);
    } else {
      DrainingKeepsCount(p, s, draw);
    }
  }

  // What the windower takes.

  lemma EventReturns(w: WindowerState, m: WindowerMsg)
    requires m.Event? && TakeEvent(w, m).WindowerHandled?
    ensures var r := TakeEvent(w, m);
            if w.receivedSinceReady < w.readyMark
            then r.toSource == [] && r.windower.receivedSinceReady == w.receivedSinceReady + 1
            else r.toSource == [Ready(w.receivedSinceReady + 1)] && r.windower.receivedSinceReady == 0
    ensures TakeEvent(w, m).windower.running == w.running
  {
  }

  lemma EventKeepsCount(p: Params, s: System, w: WindowerState, toSource: seq<SourceMsg>, toSink: seq<SinkMsg>)
    requires CountsPortions(p, s) && s.toWindower != [] && w.running && s.windower.running && !s.stage.Quiet?
    requires EventsOf(s.toWindower) != [] && EventsOf(s.toWindower[1..]) == EventsOf(s.toWindower)[1..]
    requires w.receivedSinceReady == if s.windower.receivedSinceReady < Portion(p) - 1 then s.windower.receivedSinceReady + 1 else 0
    ensures CountsPortions(p, AfterEvent(s, w, toSource, toSink)) == true
  {
    NextRemainder(Taken(s), Portion(p));
  }

  lemma EventKeepsGrants(p: Params, s: System, w: WindowerState, toSource: seq<SourceMsg>, toSink: seq<SinkMsg>)
    requires GrantsPortions(p, s) && s.toWindower != []
    requires s.stage.Active? ==> s.source.connected
    requires ArePortions(p, toSource)
    ensures GrantsPortions(p, AfterEvent(s, w, toSource, toSink)) == true
  {
    assert s.sourceBox + (s.toSource + toSource) == s.sourceBox + s.toSource + toSource;
  }

  /** Events come only from a source that knows its windower. */
  lemma EventFindsSource(p: Params, s: System)
    requires SourceInv(p, s) && s.stage.Active? && s.toWindower != []
    ensures s.source.connected
  {
  }

  lemma EventKeepsPace(p: Params, s: System)
    requires Inv(p, s) && PaceInv(p, s) && s.toWindower != [] && EventsOf(s.toWindower) != [] && s.windower.running
    ensures DataStep(s).Some? && PaceInv(p, DataStep(s).value) == true
  {
    FirstData(p, s);
    EventKeepsAllWindows(p, s);
    EventReturns(s.windower, s.toWindower[0]);
    var r := TakeEvent(s.windower, s.toWindower[0]);
    if s.stage.Active? {
      EventFindsSource(p, s);
    }
    EventKeepsCount(p, s, r.windower, r.toSource, r.toSink);
    EventKeepsGrants(p, s, r.windower, r.toSource, r.toSink);
    assert DataStep(s) == Some(AfterEvent(s, r.windower, r.toSource, r.toSink));
  }

  lemma OtherDataKeepsPace(p: Params, s: System)
    requires Inv(p, s) && PaceInv(p, s) && s.toWindower != [] && (EventsOf(s.toWindower) == [] || !s.windower.running)
    ensures DataStep(s).Some? && PaceInv(p, DataStep(s).value) == true
  {
    FirstData(p, s);
    var s' := DataStep(s).value;
    if s.stage.Active? {
      assert s'.toSource == s.toSource;
      EventFindsSource(p, s);
    }
  }

  lemma ControlKeepsPace(p: Params, s: System)
    requires ControlInv(s) && SourceInv(p, s) && s.windower.batchSize == p.batchSize && PaceInv(p, s) && s.control != []
    ensures ControlStep(s).Some? ==> PaceInv(p, ControlStep(s).value) == true
  {
    if s.control[0].Start? {
      assert [] + [] + [Ready(p.batchSize)] == [Ready(p.batchSize)];
    } else {
      assert s.control[0] == Stop;
      assert s.toSource + [] == s.toSource;
    }
  }

  lemma AskResetKeepsPace(p: Params, s: System)
    requires Inv(p, s) && PaceInv(p, s) && Enabled(s, AskReset)
    ensures PaceInv(p, Step(p, s, AskReset).value) == true
  {
    assert IsWindow(p, s.drawn, 0, s.emitted[0]);
    assert s.source.connected;
    var box := s.sourceBox + [Reset];
    assert forall m | m in box + s.toSource :: m == Reset || m in s.sourceBox + s.toSource;
  }

  lemma ArrivesKeepsPace(p: Params, s: System)
    requires PaceInv(p, s) && Enabled(s, Arrives)
    ensures PaceInv(p, Step(p, s, Arrives).value) == true
  {
    var s' := Step(p, s, Arrives).value;
    assert s'.sourceBox + s'.toSource == s.sourceBox + s.toSource;
  }

  lemma BeginKeepsPace(p: Params, s: System)
    requires ControlInv(s) && PaceInv(p, s) && Enabled(s, Begin)
    ensures PaceInv(p, Step(p, s, Begin).value) == true
  {
  }

  lemma SinkTakesKeepsPace(p: Params, s: System)
    requires PaceInv(p, s) && Enabled(s, SinkTakes)
    ensures PaceInv(p, SinkStep(s)) == true
  {
  }

  lemma StepKeepsPace(p: Params, s: System, a: Action)
    requires Inv(p, s) == true && PaceInv(p, s) == true && Enabled(s, a)
    ensures Step(p, s, a).Some? ==> PaceInv(p, Step(p, s, a).value) == true
  {
    match a {
      case Begin => BeginKeepsPace(p, s);
      case AskReset => AskResetKeepsPace(p, s);
      case SourceTakes(draw) => SourceTakesKeepsPace(p, s, draw);
      case Arrives => ArrivesKeepsPace(p, s);
      case WindowerTakesData =>
        if EventsOf(s.toWindower) != [] && s.windower.running {
          EventKeepsPace(p, s);
        } else {
          OtherDataKeepsPace(p, s);
        }
      case WindowerTakesControl => ControlKeepsPace(p, s);
      case SinkTakes => SinkTakesKeepsPace(p, s);
    }
  }

  lemma {:induction false} PaceAlongRun(p: Params, run: seq<System>, i: nat)
    requires IsRun(p, run) && i < |run|
    ensures PaceInv(p, run[i]) == true
  {
    if i > 0 {
      PaceAlongRun(p, run, i - 1);
      InvAlongRun(p, run, i - 1);
      assert StepAt(p, run, i - 1);
      var a :| Enabled(run[i - 1], a) && Step(p, run[i - 1], a) == Some(run[i]);
      StepKeepsPace(p, run[i - 1], a);
    }
  }

  /**
   * Credit comes back in portions of just more than half a batch: of `k` events taken, the windower
   * has returned the credit of all whole portions, one Ready each, and counts the rest.
   */
  lemma CreditReturnsByHalves(p: Params, run: seq<System>, i: nat)
    requires IsRun(p, run) == true && i < |run| && run[i].stage.Active? && run[i].windower.running
    ensures var s, portion := run[i], p.batchSize / 2 + 1; var k := |s.drawn| - |s.toWindower|;
            && 0 <= k && s.windower.receivedSinceReady == k % portion
            && |s.drawn| + s.source.remaining + CreditOf(s.sourceBox + s.toSource) == p.batchSize + k / portion * portion
            && (if s.source.connected then forall m | m in s.sourceBox + s.toSource && m.Ready? :: m == Ready(portion)
                else s.sourceBox + s.toSource == [Ready(p.batchSize)] && s.drawn == [])
  {
    InvAlongRun(p, run, i);
    PaceAlongRun(p, run, i);
    CreditIsConserved(p, run, i);
    ActiveHasNoFlush(p, run[i]);
    assert CountsPortions(p, run[i]) && GrantsPortions(p, run[i]);
    QuotientAndRemainder(Taken(run[i]), Portion(p));
  }

  lemma ActiveHasNoFlush(p: Params, s: System)
    requires Inv(p, s) && s.stage.Active?
    ensures Taken(s) == |s.drawn| - |s.toWindower|
  {
    NoFlush(p, s.drawn, s.toWindower);
  }

  lemma QuotientAndRemainder(k: nat, d: nat)
    requires d > 0
    ensures k == k / d * d + k % d
  {
  }
}
