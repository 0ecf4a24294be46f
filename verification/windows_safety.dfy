/** Every action keeps the stream partition's invariant, and no actor panics. */
module WindowSafety {
  import opened Collections
  import opened Medians
  import opened WindowActors
  import opened WindowProtocol

  // Credit.

  lemma {:induction false} CreditConcat(a: seq<SourceMsg>, b: seq<SourceMsg>)
    ensures CreditOf(a + b) == CreditOf(a) + CreditOf(b)
  {
    if b == [] {
      assert a + b == a;
    } else {
      assert (a + b)[..|a + b| - 1] == a + b[..|b| - 1];
      CreditConcat(a, b[..|b| - 1]);
    }
  }

  lemma CreditOfOne(m: SourceMsg)
    ensures CreditOf([m]) == if m.Ready? then m.batchSize else 0
  {
    assert [m][..0] == [];
  }

  /** Taking the first message and adding others at the end. */
  lemma CreditMoves(box: seq<SourceMsg>, toSource: seq<SourceMsg>, more: seq<SourceMsg>)
    requires box != []
    ensures CreditOf(box + toSource) == CreditOf([box[0]]) + CreditOf(box[1..]) + CreditOf(toSource)
    ensures CreditOf(box[1..] + more + toSource) == CreditOf(box[1..]) + CreditOf(more) + CreditOf(toSource)
  {
    assert box == [box[0]] + box[1..];
    CreditConcat([box[0]], box[1..]);
    CreditConcat(box, toSource);
    CreditConcat(box[1..] + more, toSource);
    CreditConcat(box[1..], more);
  }

  // Begin and reset.

  lemma BeginKeepsInv(p: Params, s: System)
    requires Inv(p, s) && Enabled(s, Begin)
    ensures Step(p, s, Begin).Some? && Inv(p, Step(p, s, Begin).value)
  {
  }

  lemma AskResetKeepsSource(p: Params, s: System)
    requires ControlInv(s) && SourceInv(p, s) && Enabled(s, AskReset)
    ensures s.stage.Active? && SourceInv(p, s.(master := Resetting, sourceBox := s.sourceBox + [Reset])) == true
  {
    assert multiset(s.sourceBox + [Reset]) == multiset(s.sourceBox) + multiset{Reset};
  }

  lemma AskResetKeepsCredit(p: Params, s: System)
    requires CreditInv(p, s)
    ensures CreditInv(p, s.(master := Resetting, sourceBox := s.sourceBox + [Reset])) == true
  {
    CreditConcat(s.sourceBox, s.toSource);
    CreditConcat(s.sourceBox, [Reset]);
    CreditConcat(s.sourceBox + [Reset], s.toSource);
    CreditOfOne(Reset);
  }

  lemma AskResetKeepsInv(p: Params, s: System)
    requires Inv(p, s) && Enabled(s, AskReset)
    ensures Step(p, s, AskReset).Some? && Inv(p, Step(p, s, AskReset).value)
  {
    AskResetKeepsSource(p, s);
    AskResetKeepsCredit(p, s);
  }

  lemma ArrivesKeepsInv(p: Params, s: System)
    requires Inv(p, s) && Enabled(s, Arrives)
    ensures Step(p, s, Arrives).Some? && Inv(p, Step(p, s, Arrives).value)
  {
    var s' := Step(p, s, Arrives).value;
    assert s'.sourceBox + s'.toSource == s.sourceBox + s.toSource;
    assert s.toSource[0] in s.toSource;
    assert multiset(s'.sourceBox) == multiset(s.sourceBox) + multiset{s.toSource[0]};
  }

  lemma SinkTakesKeepsControl(p: Params, s: System)
    requires ParamsInv(p, s) && ControlInv(s) && SinkInv(p, s) && AreWindows(p, s.drawn, s.emitted) && Enabled(s, SinkTakes) && !s.stage.Quiet?
    ensures ControlInv(SinkStep(s)) == true && SinkInv(p, SinkStep(s)) == true
  {
    assert s.sinkBox[0] == s.emitted[s.sink.windowCount];
    assert IsWindow(p, s.drawn, s.sink.windowCount, s.emitted[s.sink.windowCount]);
    assert s.sinkBox[1..] == s.emitted[s.sink.windowCount + 1..];
  }

  lemma SinkTakesKeepsRest(p: Params, s: System)
    requires SourceInv(p, s) && WindowInv(p, s) && CreditInv(p, s) && Enabled(s, SinkTakes)
    ensures SourceInv(p, SinkStep(s)) == true && WindowInv(p, SinkStep(s)) == true && CreditInv(p, SinkStep(s)) == true
  {
  }

  lemma SinkTakesKeepsInv(p: Params, s: System)
    requires Inv(p, s) && Enabled(s, SinkTakes)
    ensures Step(p, s, SinkTakes).Some? && Inv(p, Step(p, s, SinkTakes).value)
  {
    if s.stage.Quiet? {
      QuietSinkRuns(p, s);
    } else {
      SinkTakesKeepsControl(p, s);
      SinkTakesKeepsRest(p, s);
    }
  }

  lemma QuietSinkRuns(p: Params, s: System)
    requires Inv(p, s) && Enabled(s, SinkTakes) && s.stage.Quiet?
    ensures Inv(p, SinkStep(s))
  {
    assert s.sinkBox == [Run];
  }

  lemma StartKeepsInv(p: Params, s: System)
    requires Inv(p, s) && Enabled(s, WindowerTakesControl) && s.control[0].Start?
    ensures ControlStep(s).Some? && Inv(p, ControlStep(s).value)
  {
    assert s.control == [Start];
    var s' := ControlStep(s).value;
    assert s'.sourceBox + s'.toSource == [Ready(p.batchSize)];
    CreditOfOne(Ready(p.batchSize));
    assert s'.drawn[..0][0..] == [];
  }

  lemma StopKeepsInv(p: Params, s: System)
    requires Inv(p, s) && Enabled(s, WindowerTakesControl) && !s.control[0].Start?
    ensures ControlStep(s).Some? && Inv(p, ControlStep(s).value)
  {
    assert s.control[0] == Stop && s.windower.running;
    var s' := ControlStep(s).value;
    assert s'.toSource == s.toSource && s'.toWindower == s.toWindower;
  }

  lemma ControlKeepsInv(p: Params, s: System)
    requires Inv(p, s) == true && Enabled(s, WindowerTakesControl)
    ensures ControlStep(s).Some? && Inv(p, ControlStep(s).value) == true
  {
    if s.control[0].Start? {
      StartKeepsInv(p, s);
    } else {
      StopKeepsInv(p, s);
    }
  }

  // The source's messages.

  /** What is in the source's mailbox and on its way there, when the first message is taken. */
  lemma BoxAfter(box: seq<SourceMsg>, toSource: seq<SourceMsg>, more: seq<SourceMsg>)
    requires box != []
    ensures forall m | m in box[1..] :: m in box
    ensures forall m | m in box[1..] + more :: m in box || m in more
    ensures multiset(box) == multiset{box[0]} + multiset(box[1..])
    ensures multiset(box[1..] + more) == multiset(box) - multiset{box[0]} + multiset(more)
    ensures box + toSource == [box[0]] + (box[1..] + toSource)
  {
    assert box == [box[0]] + box[1..];
  }

  lemma TailAfterEvent(p: Params, drawn: seq<int>, events: seq<WindowerMsg>, draw: int)
    requires CarryTail(p, drawn, events)
    ensures CarryTail(p, drawn + [draw], events + [Event(|drawn|, p.partitionId, draw)])
  {
  }

  lemma WindowsStay(p: Params, drawn: seq<int>, emitted: seq<SinkMsg>, draw: int)
    requires AreWindows(p, drawn, emitted)
    ensures AreWindows(p, drawn + [draw], emitted)
  {
    forall i: nat | i < |emitted| ensures IsWindow(p, drawn + [draw], i, emitted[i]) {
      assert IsWindow(p, drawn, i, emitted[i]);
      var from, to := StartOf(p.windowSize, i), StartOf(p.windowSize, i + 1);
      assert (drawn + [draw])[from..to] == drawn[from..to];
    }
  }

  lemma NoFlush(p: Params, drawn: seq<int>, events: seq<WindowerMsg>)
    requires CarryTail(p, drawn, events)
    ensures EventsOf(events) == events
  {
  }

  /** The credit of a message, as the source counts it. */
  function Granted(m: SourceMsg): nat {
    if m.Ready? then m.batchSize else 0
  }

  /** The system after an active source has taken a Ready or a Next. */
  function AfterSend(s: System, draw: int): System
    requires s.sourceBox != []
  {
    var m := s.sourceBox[0];
    var credit := s.source.remaining + Granted(m);
    var connected := s.source.connected || m.Ready?;
    if credit == 0 then s.(source := s.source.(connected := connected), sourceBox := s.sourceBox[1..])
    else s.(source := s.source.(remaining := credit - 1, currentTs := s.source.currentTs + 1, connected := connected),
            sourceBox := s.sourceBox[1..] + if credit > 1 then [Next] else [],
            toWindower := s.toWindower + [Event(s.source.currentTs, s.source.partitionId, draw)],
            drawn := s.drawn + [draw])
  }

  lemma SendIsAfterSend(p: Params, s: System, draw: int)
    requires SourceInv(p, s) && s.sourceBox != [] && s.stage.Active? && !s.sourceBox[0].Reset?
    ensures SourceStep(s, draw) == Some(AfterSend(s, draw))
  {
    assert s.sourceBox[0] in s.sourceBox;
    assert ValuesOf([Event(s.source.currentTs, s.source.partitionId, draw)]) == [draw];
    assert s.sourceBox[1..] + [] == s.sourceBox[1..];
    assert s.toWindower + [] == s.toWindower && s.drawn + [] == s.drawn;
  }

  lemma SendKeepsBox(box: seq<SourceMsg>, more: seq<SourceMsg>)
    requires box != [] && !box[0].Reset? && (more == [] || more == [Next])
    requires forall m | m in box :: !m.Flushed?
    ensures forall m | m in box[1..] + more :: !m.Flushed?
    ensures multiset(box[1..] + more)[Reset] == multiset(box)[Reset]
  {
    BoxAfter(box, [], more);
  }

  lemma UnsentKeepsSource(p: Params, s: System, draw: int)
    requires SourceInv(p, s) && s.sourceBox != [] && s.stage.Active? && !s.sourceBox[0].Reset?
    requires s.source.remaining + Granted(s.sourceBox[0]) == 0
    ensures SourceInv(p, AfterSend(s, draw)) == true
  {
    SendKeepsBox(s.sourceBox, []);
    assert s.sourceBox[1..] + [] == s.sourceBox[1..];
  }

  lemma SentKeepsSource(p: Params, s: System, draw: int)
    requires SourceInv(p, s) && s.sourceBox != [] && s.stage.Active? && !s.sourceBox[0].Reset?
    requires s.source.partitionId == p.partitionId && s.source.remaining + Granted(s.sourceBox[0]) > 0
    ensures SourceInv(p, AfterSend(s, draw)) == true
  {
    var more := if s.source.remaining + Granted(s.sourceBox[0]) > 1 then [Next] else [];
    SendKeepsBox(s.sourceBox, more);
    TailAfterEvent(p, s.drawn, s.toWindower, draw);
    assert more != [] ==> Next in s.sourceBox[1..] + more;
  }

  lemma SendKeepsSource(p: Params, s: System, draw: int)
    requires s.source.partitionId == p.partitionId
    requires SourceInv(p, s) == true && s.sourceBox != [] && s.stage.Active? && !s.sourceBox[0].Reset?
    ensures SourceInv(p, AfterSend(s, draw)) == true
  {
    if s.source.remaining + Granted(s.sourceBox[0]) == 0 {
      UnsentKeepsSource(p, s, draw);
    } else {
      SentKeepsSource(p, s, draw);
    }
  }

  lemma SendKeepsWindows(p: Params, s: System, draw: int)
    requires CarryTail(p, s.drawn, s.toWindower) && s.source.currentTs == |s.drawn|
    requires WindowInv(p, s) && s.sourceBox != [] && s.stage.Active?
    requires s.source.partitionId == p.partitionId
    ensures WindowInv(p, AfterSend(s, draw)) == true
  {
    var s' := AfterSend(s, draw);
    if s'.drawn != s.drawn {
      NoFlush(p, s.drawn, s.toWindower);
      TailAfterEvent(p, s.drawn, s.toWindower, draw);
      NoFlush(p, s'.drawn, s'.toWindower);
      WindowsStay(p, s.drawn, s.emitted, draw);
      assert s.windower.running ==> s'.drawn[..Taken(s')] == s.drawn[..Taken(s)];
    }
  }

  lemma SendKeepsCredit(p: Params, s: System, draw: int)
    requires CreditInv(p, s) && s.sourceBox != [] && s.stage.Active?
    ensures CreditInv(p, AfterSend(s, draw)) == true
  {
    CreditMoves(s.sourceBox, s.toSource, []);
    CreditMoves(s.sourceBox, s.toSource, [Next]);
    assert s.sourceBox[1..] + [] == s.sourceBox[1..];
    CreditOfOne(s.sourceBox[0]);
    CreditOfOne(Next);
  }

  /** A Ready or a Next in an active iteration: one event is sent if there is credit. */
  lemma SendKeepsInv(p: Params, s: System, draw: int)
    requires Inv(p, s) && s.sourceBox != [] && s.stage.Active? && !s.sourceBox[0].Reset?
    ensures SourceStep(s, draw).Some? && Inv(p, SourceStep(s, draw).value)
  {
    SendIsAfterSend(p, s, draw);
    SendKeepsSource(p, s, draw);
    SendKeepsWindows(p, s, draw);
    SendKeepsCredit(p, s, draw);
  }

  lemma FlushAtEnd(p: Params, drawn: seq<int>, events: seq<WindowerMsg>)
    requires CarryTail(p, drawn, events)
    ensures EventsOf(events + [Flush]) == events && Last(events + [Flush]).Flush?
  {
    assert (events + [Flush])[..|events|] == events;
  }

  /** A reset finds the source connected: the latch is down, so events have been sent. */
  lemma ResetFindsSource(p: Params, s: System)
    requires Inv(p, s) && s.stage.Active? && s.master.Resetting?
    ensures s.source.connected
  {
    assert IsWindow(p, s.drawn, 0, s.emitted[0]);
  }

  lemma ResetKeepsInv(p: Params, s: System, draw: int)
    requires Inv(p, s) && s.sourceBox != [] && s.stage.Active? && s.sourceBox[0].Reset?
    ensures SourceStep(s, draw).Some? && Inv(p, SourceStep(s, draw).value)
  {
    BoxAfter(s.sourceBox, s.toSource, []);
    assert s.sourceBox[0] in s.sourceBox;
    assert s.master.Resetting?;
    ResetFindsSource(p, s);
    var s' := SourceStep(s, draw).value;
    assert ValuesOf([Flush]) == [];
    assert s'.drawn == s.drawn && s'.sourceBox == s.sourceBox[1..];
    NoFlush(p, s.drawn, s.toWindower);
    FlushAtEnd(p, s.drawn, s.toWindower);
  }

  /** While flushing, the source drops what it receives; the answer to the Flush comes last. */
  lemma DropKeepsBox(box: seq<SourceMsg>, toSource: seq<SourceMsg>)
    requires box != [] && !box[0].Flushed? && Last(box + toSource).Flushed?
    requires NoFlushed((box + toSource)[..|box + toSource| - 1])
    ensures box[1..] + toSource != [] && Last(box[1..] + toSource).Flushed?
    ensures NoFlushed((box[1..] + toSource)[..|box[1..] + toSource| - 1])
  {
    var all, all' := box + toSource, box[1..] + toSource;
    assert all' == all[1..];
    assert |all| >= 2;
    assert all'[..|all'| - 1] == all[1..|all| - 1];
  }

  lemma DropKeepsInv(p: Params, s: System, draw: int)
    requires Inv(p, s) && s.sourceBox != [] && s.stage.Draining? && !s.sourceBox[0].Flushed?
    ensures SourceStep(s, draw).Some? && Inv(p, SourceStep(s, draw).value)
  {
    BoxAfter(s.sourceBox, s.toSource, []);
    assert s.sourceBox[0] in s.sourceBox;
    var s' := SourceStep(s, draw).value;
    assert s'.drawn == s.drawn && s'.sourceBox == s.sourceBox[1..] && s'.toWindower == s.toWindower;
    if s.toWindower == [] {
      DropKeepsBox(s.sourceBox, s.toSource);
    }
  }

  lemma FirstIsInFront<T>(s: seq<T>)
    ensures |s| >= 2 ==> s[0] in s[..|s| - 1]
  {
    assert |s| >= 2 ==> s[..|s| - 1][0] == s[0];
  }

  /** When the Flushed is taken, it is the only message left. */
  lemma FlushedIsLast(p: Params, s: System)
    requires SourceInv(p, s) && s.sourceBox != [] && s.stage.Draining? && s.sourceBox[0].Flushed?
    ensures s.sourceBox == [Flushed] && s.toSource == [] && s.toWindower == []
  {
    var all := s.sourceBox + s.toSource;
    assert all[0] == Flushed && all[0] in all;
    FirstIsInFront(all);
    assert |all| == 1;
  }

  lemma FlushedKeepsInv(p: Params, s: System, draw: int)
    requires Inv(p, s) && s.sourceBox != [] && s.stage.Draining? && s.sourceBox[0].Flushed?
    ensures SourceStep(s, draw).Some? && Inv(p, SourceStep(s, draw).value)
  {
    FlushedIsLast(p, s);
  }

  lemma SourceTakesKeepsInv(p: Params, s: System, draw: int)
    requires Inv(p, s) == true && Enabled(s, SourceTakes(draw))
    ensures SourceStep(s, draw).Some? && Inv(p, SourceStep(s, draw).value) == true
  {
    if s.stage.Active? {
      if s.sourceBox[0].Reset? {
        ResetKeepsInv(p, s, draw);
      } else {
        SendKeepsInv(p, s, draw);
      }
    } else if s.sourceBox[0].Flushed? {
      FlushedKeepsInv(p, s, draw);
    } else {
      DropKeepsInv(p, s, draw);
    }
  }

  // The windower's events.

  lemma TakeFirst(p: Params, drawn: seq<int>, events: seq<WindowerMsg>)
    requires CarryTail(p, drawn, events) && events != []
    ensures var ts := |drawn| - |events|; 0 <= ts < |drawn| && events[0] == Event(ts, p.partitionId, drawn[ts])
    ensures CarryTail(p, drawn, events[1..])
    ensures drawn[..|drawn| - |events| + 1] == drawn[..|drawn| - |events|] + [drawn[|drawn| - |events|]]
  {
  }

  lemma FilledWindow(taken: seq<int>, from: nat, value: int, times: nat)
    requires from <= |taken|
    ensures Amplify(taken[from..], times) + Repeat(value, times) == Amplify((taken + [value])[from..], times)
  {
    assert (taken + [value])[from..] == taken[from..] + [value];
    assert (taken[from..] + [value])[..|taken[from..]|] == taken[from..];
  }

  /** The windower after the next event, and the aggregate it emits, if any. */
  lemma EventKeepsWindows(p: Params, w: WindowerState, drawn: seq<int>, k: nat, emitted: seq<SinkMsg>)
    requires p.Valid() && w.running && w.downstream.Some? && w.windowSize == p.windowSize && w.amplification == p.amplification
    requires k < |drawn| && AreWindows(p, drawn, emitted) && WindowerHolds(p, w, drawn[..k], |emitted|)
    ensures var r := TakeEvent(w, Event(k, p.partitionId, drawn[k]));
            r.WindowerHandled? && AreWindows(p, drawn, emitted + r.toSink)
            && WindowerHolds(p, r.windower, drawn[..k + 1], |emitted + r.toSink|)
  {
    var taken := drawn[..k];
    var count := |emitted|;
    assert drawn[..k + 1] == taken + [drawn[k]];
    if k >= w.WindowEnd() {
      var values := taken[w.windowStart..];
      assert values == drawn[StartOf(p.windowSize, count)..StartOf(p.windowSize, count + 1)];
      AmplifyKeepsMedian(values, p.amplification);
      var m := WindowAggregate(w.windowStart, p.partitionId, Median(w.currentWindow));
      assert IsWindow(p, drawn, count, m);
      assert taken[k..] == [];
      FilledWindow(taken, k, drawn[k], p.amplification);
      assert forall i: nat | i < count :: (emitted + [m])[i] == emitted[i];
    } else {
      FilledWindow(taken, w.windowStart, drawn[k], p.amplification);
      assert emitted + [] == emitted;
    }
  }

  /** The windower's first message of the source is an event or the Flush. */
  lemma FirstData(p: Params, s: System)
    requires SourceInv(p, s) && s.toWindower != []
    ensures !s.stage.Quiet?
    ensures EventsOf(s.toWindower) == [] ==> s.stage.Draining? && s.toWindower == [Flush]
    ensures EventsOf(s.toWindower) != [] ==>
      && s.toWindower[0] == EventsOf(s.toWindower)[0] && EventsOf(s.toWindower[1..]) == EventsOf(s.toWindower)[1..]
      && s.toWindower[0].Event? && (s.stage.Draining? ==> s.toWindower[1..] != [])
  {
    if s.stage.Active? {
      NoFlush(p, s.drawn, s.toWindower);
    }
  }

  lemma FlushKeepsInv(p: Params, s: System)
    requires Inv(p, s) && s.toWindower != [] && EventsOf(s.toWindower) == []
    ensures DataStep(s).Some? && Inv(p, DataStep(s).value)
  {
    FirstData(p, s);
    var s' := DataStep(s).value;
    assert s'.emitted == s.emitted && s'.sinkBox == s.sinkBox;
    var all := s'.sourceBox + s'.toSource;
    assert all == s.sourceBox + s.toSource + [Flushed];
    assert all[..|all| - 1] == s.sourceBox + s.toSource;
  }

  /** The system after an event has been taken by the windower, with what it returned. */
  function AfterEvent(s: System, w: WindowerState, toSource: seq<SourceMsg>, toSink: seq<SinkMsg>): System
    requires s.toWindower != []
  {
    s.(windower := w, toWindower := s.toWindower[1..], toSource := s.toSource + toSource,
       sinkBox := s.sinkBox + toSink, emitted := s.emitted + toSink)
  }

  lemma EventKeepsSource(p: Params, s: System, w: WindowerState, toSource: seq<SourceMsg>, toSink: seq<SinkMsg>)
    requires SourceInv(p, s) && s.toWindower != [] && EventsOf(s.toWindower) != []
    requires forall m | m in toSource :: m.Ready?
    ensures SourceInv(p, AfterEvent(s, w, toSource, toSink)) == true
  {
    FirstData(p, s);
    TakeFirst(p, s.drawn, EventsOf(s.toWindower));
    if s.stage.Active? {
      NoFlush(p, s.drawn, s.toWindower);
    }
    var s' := AfterEvent(s, w, toSource, toSink);
    assert forall m | m in s'.sourceBox + s'.toSource :: m in s.sourceBox + s.toSource || m in toSource;
  }

  lemma EventKeepsSink(p: Params, s: System, w: WindowerState, toSource: seq<SourceMsg>, toSink: seq<SinkMsg>)
    requires SinkInv(p, s) && s.toWindower != [] && !s.stage.Quiet?
    ensures SinkInv(p, AfterEvent(s, w, toSource, toSink)) == true
  {
    assert (s.emitted + toSink)[s.sink.windowCount..] == s.emitted[s.sink.windowCount..] + toSink;
  }

  /** What a running windower does with an event, apart from the windows. */
  lemma EventCredit(w: WindowerState, m: WindowerMsg)
    requires m.Event?
    ensures var r := TakeEvent(w, m);
            r.WindowerHandled? ==>
              && r.windower.receivedSinceReady + CreditOf(r.toSource) == w.receivedSinceReady + 1
              && (r.windower.receivedSinceReady <= w.readyMark) && (forall q | q in r.toSource :: q.Ready?)
              && r.windower == w.(currentWindow := r.windower.currentWindow, windowStart := r.windower.windowStart,
                                  receivedSinceReady := r.windower.receivedSinceReady)
  {
    CreditOfOne(Ready(w.receivedSinceReady + 1));
  }

  lemma EventKeepsCredit(p: Params, s: System, w: WindowerState, toSource: seq<SourceMsg>, toSink: seq<SinkMsg>)
    requires CreditInv(p, s) && s.toWindower != [] && w.running == s.windower.running && w.readyMark == s.windower.readyMark
    requires w.receivedSinceReady + CreditOf(toSource) == s.windower.receivedSinceReady + 1 && w.receivedSinceReady <= w.readyMark
    ensures CreditInv(p, AfterEvent(s, w, toSource, toSink)) == true
  {
    assert s.sourceBox + (s.toSource + toSource) == s.sourceBox + s.toSource + toSource;
    CreditConcat(s.sourceBox + s.toSource, toSource);
  }

  lemma EventKeepsAllWindows(p: Params, s: System)
    requires p.Valid() && s.windower.running && s.windower.downstream.Some?
    requires s.windower.windowSize == p.windowSize && s.windower.amplification == p.amplification
    requires SourceInv(p, s) && WindowInv(p, s) && s.toWindower != [] && EventsOf(s.toWindower) != []
    ensures var r := TakeEvent(s.windower, s.toWindower[0]);
            r.WindowerHandled? && WindowInv(p, AfterEvent(s, r.windower, r.toSource, r.toSink)) == true
  {
    FirstData(p, s);
    if s.stage.Active? {
      NoFlush(p, s.drawn, s.toWindower);
    }
    TakeFirst(p, s.drawn, EventsOf(s.toWindower));
    EventKeepsWindows(p, s.windower, s.drawn, Taken(s), s.emitted);
  }

  lemma RunningEventKeepsInv(p: Params, s: System)
    requires Inv(p, s) && s.toWindower != [] && EventsOf(s.toWindower) != [] && s.windower.running
    ensures DataStep(s).Some? && Inv(p, DataStep(s).value) == true
  {
    FirstData(p, s);
    EventKeepsAllWindows(p, s);
    EventCredit(s.windower, s.toWindower[0]);
    var r := TakeEvent(s.windower, s.toWindower[0]);
    EventKeepsSource(p, s, r.windower, r.toSource, r.toSink);
    EventKeepsSink(p, s, r.windower, r.toSource, r.toSink);
    EventKeepsCredit(p, s, r.windower, r.toSource, r.toSink);
    assert DataStep(s) == Some(AfterEvent(s, r.windower, r.toSource, r.toSink));
  }

  lemma StoppedEventKeepsInv(p: Params, s: System)
    requires Inv(p, s) && s.toWindower != [] && EventsOf(s.toWindower) != [] && !s.windower.running
    ensures DataStep(s).Some? && Inv(p, DataStep(s).value) == true
  {
    FirstData(p, s);
    EventKeepsSource(p, s, s.windower, [], []);
    EventKeepsSink(p, s, s.windower, [], []);
    assert DataStep(s) == Some(AfterEvent(s, s.windower, [], []));
    assert s.emitted + [] == s.emitted;
  }

  lemma DataKeepsInv(p: Params, s: System)
    requires Inv(p, s) == true && Enabled(s, WindowerTakesData)
    ensures DataStep(s).Some? && Inv(p, DataStep(s).value) == true
  {
    if EventsOf(s.toWindower) == [] {
      FlushKeepsInv(p, s);
    } else if s.windower.running {
      RunningEventKeepsInv(p, s);
    } else {
      StoppedEventKeepsInv(p, s);
    }
  }

  /** No action makes an actor panic, and every action keeps the invariant. */
  lemma StepKeepsInv(p: Params, s: System, a: Action)
    requires Inv(p, s) == true && Enabled(s, a)
    ensures Step(p, s, a).Some? && Inv(p, Step(p, s, a).value) == true
  {
    match a {
      case Begin => BeginKeepsInv(p, s);
      case AskReset => AskResetKeepsInv(p, s);
      case SourceTakes(draw) => SourceTakesKeepsInv(p, s, draw);
      case Arrives => ArrivesKeepsInv(p, s);
      case WindowerTakesData => DataKeepsInv(p, s);
      case WindowerTakesControl => ControlKeepsInv(p, s);
      case SinkTakes => SinkTakesKeepsInv(p, s);
    }
  }
}
