/**
 * One stream partition over many iterations: source, windower, the sink of the iteration and the
 * master. Channels and mailboxes are first in, first out; the sinks of successive iterations reach
 * the windower over one channel.
 */
module WindowProtocol {
  import opened Collections
  import opened Medians
  import opened WindowActors

  datatype Params = Params(windowSize: nat, batchSize: nat, amplification: nat, numberOfWindows: nat, partitionId: nat) {
    predicate Valid() {
      windowSize >= 1 && amplification >= 1
    }
  }

  datatype Master = Waiting | Running | Resetting

  /** Where the iteration stands: not started, started, or flushing after a reset. */
  datatype Stage = Quiet | Active | Draining

  /** `drawn`: the values sent in this iteration; `emitted`: the aggregates sent in this iteration. */
  datatype System = System(
    master: Master,
    stage: Stage,
    source: SourceState,
    sourceBox: seq<SourceMsg>,
    toSource: seq<SourceMsg>,
    toWindower: seq<WindowerMsg>,
    control: seq<WindowerMsg>,
    windower: WindowerState,
    sinkId: nat,
    sink: SinkState,
    sinkBox: seq<SinkMsg>,
    countdowns: nat,
    drawn: seq<int>,
    emitted: seq<SinkMsg>
  )

  datatype Action =
    | Begin                     // the master starts an iteration with a new sink
    | AskReset                  // the master resets the source once the latch is down
    | SourceTakes(draw: int)    // the source handles the first message of its mailbox
    | Arrives                   // a message of the windower reaches the source's mailbox
    | WindowerTakesData         // the windower handles a message of the source
    | WindowerTakesControl      // the windower handles a message of a sink
    | SinkTakes                 // the sink handles a message; the master waits for it to shut down

  predicate Enabled(s: System, a: Action) {
    match a
    case Begin => s.master.Waiting?
    case AskReset => s.master.Running? && s.countdowns > 0
    case SourceTakes(_) => s.sourceBox != []
    case Arrives => s.toSource != []
    case WindowerTakesData => s.toWindower != []
    case WindowerTakesControl => s.control != []
    case SinkTakes => s.sinkBox != [] && !s.master.Waiting?
  }

  function ValuesOf(ms: seq<WindowerMsg>): seq<int> {
    if ms == [] then []
    else (if ms[0].Event? then [ms[0].value] else []) + ValuesOf(ms[1..])
  }

  function SourceStep(s: System, draw: int): Option<System>
    requires s.sourceBox != []
  {
    var m := s.sourceBox[0];
    match SourceReceive(s.source, m, draw)
    case SourcePanicked => None
    case SourceHandled(source, toSelf, toWindower, replied) =>
      Some(s.(source := source, sourceBox := s.sourceBox[1..] + toSelf, toWindower := s.toWindower + toWindower,
              master := if replied then Waiting else s.master,
              stage := if replied then Quiet else if m.Reset? then Draining else s.stage,
              drawn := s.drawn + ValuesOf(toWindower)))
  }

  /** The aggregates reach the sink that started the windower, if it is still there. */
  function DataStep(s: System): Option<System>
    requires s.toWindower != []
  {
    match WindowerReceive(s.windower, 0, s.toWindower[0])
    case WindowerPanicked => None
    case WindowerHandled(windower, toSource, toSink) =>
      Some(s.(windower := windower, toWindower := s.toWindower[1..], toSource := s.toSource + toSource,
              sinkBox := s.sinkBox + if s.windower.downstream == Some(s.sinkId) then toSink else [],
              emitted := s.emitted + toSink))
  }

  function ControlStep(s: System): Option<System>
    requires s.control != []
  {
    match WindowerReceive(s.windower, s.sinkId, s.control[0])
    case WindowerPanicked => None
    case WindowerHandled(windower, toSource, _) =>
      var handled := s.(windower := windower, control := s.control[1..], toSource := s.toSource + toSource);
      Some(if s.control[0].Start? then handled.(stage := Active, drawn := [], emitted := []) else handled)
  }

  function SinkStep(s: System): System
    requires s.sinkBox != []
  {
    var r := SinkReceive(s.sink, s.sinkBox[0]);
    s.(sink := r.sink, sinkBox := s.sinkBox[1..], control := s.control + r.toWindower,
       countdowns := s.countdowns + if r.countedDown then 1 else 0)
  }

  /** One action; `None` when the actor panics. */
  function Step(p: Params, s: System, a: Action): Option<System>
    requires Enabled(s, a)
  {
    match a
    case Begin =>
      Some(s.(master := Running, sinkId := s.sinkId + 1, sink := SinkState(p.numberOfWindows, 0), sinkBox := [Run], countdowns := 0))
    case AskReset => Some(s.(master := Resetting, sourceBox := s.sourceBox + [Reset]))
    case SourceTakes(draw) => SourceStep(s, draw)
    case Arrives => Some(s.(toSource := s.toSource[1..], sourceBox := s.sourceBox + [s.toSource[0]]))
    case WindowerTakesData => DataStep(s)
    case WindowerTakesControl => ControlStep(s)
    case SinkTakes => Some(SinkStep(s))
  }

  ghost predicate IsInitial(p: Params, s: System) {
    && s.master.Waiting? && s.stage.Quiet?
    && s.source == SourceState(p.partitionId, false, 0, 0, false, false)
    && s.windower == WindowerState(p.windowSize, p.batchSize, p.amplification, p.batchSize / 2, None, [], 0, 0, false)
    && s.sourceBox == [] && s.toSource == [] && s.toWindower == [] && s.control == [] && s.sinkBox == []
    && s.countdowns == 0
  }

  ghost predicate Moves(p: Params, s: System, s': System) {
    exists a :: Enabled(s, a) && Step(p, s, a) == Some(s')
  }

  ghost predicate StepAt(p: Params, run: seq<System>, i: nat)
    requires i + 1 < |run|
  {
    Moves(p, run[i], run[i + 1])
  }

  ghost predicate IsRun(p: Params, run: seq<System>) {
    p.Valid() && run != [] && IsInitial(p, run[0]) && forall i: nat | i + 1 < |run| :: StepAt(p, run, i)
  }

  // The batch specification of windows.

  /** Where the `i`-th window starts. */
  function StartOf(size: nat, i: nat): nat {
    Copies(size, i)
  }

  /** The `i`-th aggregate: the median of the values with timestamps in the `i`-th window. */
  ghost predicate IsWindow(p: Params, drawn: seq<int>, i: nat, m: SinkMsg) {
    && StartOf(p.windowSize, i) < StartOf(p.windowSize, i + 1) <= |drawn|
    && m == WindowAggregate(StartOf(p.windowSize, i), p.partitionId,
                            Median(drawn[StartOf(p.windowSize, i)..StartOf(p.windowSize, i + 1)]))
  }

  ghost predicate AreWindows(p: Params, drawn: seq<int>, emitted: seq<SinkMsg>) {
    forall i: nat | i < |emitted| :: IsWindow(p, drawn, i, emitted[i])
  }

  // The invariant.

  function Last<T>(s: seq<T>): T
    requires s != []
  {
    s[|s| - 1]
  }

  /** The events that wait for the windower, without a Flush behind them. */
  function EventsOf(ms: seq<WindowerMsg>): seq<WindowerMsg> {
    if ms != [] && Last(ms).Flush? then ms[..|ms| - 1] else ms
  }

  /** The last `|events|` values drawn are in flight, in order, with their timestamps. */
  ghost predicate CarryTail(p: Params, drawn: seq<int>, events: seq<WindowerMsg>) {
    && |events| <= |drawn|
    && forall i | 0 <= i < |events| ::
         var ts := |drawn| - |events| + i;
         events[i] == Event(ts, p.partitionId, drawn[ts])
  }

  function Taken(s: System): int {
    |s.drawn| - |EventsOf(s.toWindower)|
  }

  ghost predicate ParamsInv(p: Params, s: System) {
    && p.Valid() && s.source.partitionId == p.partitionId
    && s.windower.windowSize == p.windowSize && s.windower.batchSize == p.batchSize
    && s.windower.amplification == p.amplification && s.windower.readyMark == p.batchSize / 2
  }

  /** The windower has stopped, or has still to handle the Stop that was sent to it. */
  ghost predicate Stopping(s: System) {
    (s.control == [Stop] && s.windower.running) || (s.control == [] && !s.windower.running)
  }

  ghost predicate ControlInv(s: System) {
    && (if s.windower.running then s.windower.downstream.Some?
        else s.windower.downstream.None? && s.windower.currentWindow == [] && s.windower.windowStart == 0)
    && match s.stage
       case Quiet =>
         if s.master.Waiting? then Stopping(s)
         else s.master.Running? && s.countdowns == 0 &&
              ((s.sinkBox == [Run] && Stopping(s)) ||
               (s.sinkBox == [] && ((s.control == [Stop, Start] && s.windower.running) || (s.control == [Start] && !s.windower.running))))
       case Active =>
         && (s.windower.running ==> s.windower.downstream == Some(s.sinkId))
         && (if s.countdowns > 0 then Stopping(s) && !s.master.Waiting?
             else s.control == [] && s.windower.running && s.master.Running?)
       case Draining =>
         (s.windower.running ==> s.windower.downstream == Some(s.sinkId)) && s.master.Resetting? && s.countdowns > 0 && Stopping(s)
  }

  ghost predicate SourceInv(p: Params, s: System) {
    match s.stage
    case Quiet =>
      s.source == SourceState(p.partitionId, false, 0, 0, false, false) && s.sourceBox == [] && s.toSource == [] && s.toWindower == []
    case Active =>
      && !s.source.flushing && !s.source.asked && s.source.currentTs == |s.drawn|
      && (s.source.currentTs > 0 || s.source.remaining > 0 ==> s.source.connected)
      && (s.source.remaining > 0 ==> Next in s.sourceBox)
      && (forall m | m in s.toSource :: m.Ready?)
      && (forall m | m in s.sourceBox :: !m.Flushed?)
      && multiset(s.sourceBox)[Reset] == (if s.master.Resetting? then 1 else 0)
      && CarryTail(p, s.drawn, s.toWindower)
    case Draining =>
      && s.source == SourceState(p.partitionId, false, 0, 0, true, true)
      && (forall m | m in s.sourceBox :: !m.Reset?) && (forall m | m in s.toSource :: !m.Reset?)
      && CarryTail(p, s.drawn, EventsOf(s.toWindower))
      && (if s.toWindower != [] then Last(s.toWindower).Flush? && NoFlushed(s.sourceBox + s.toSource)
          else s.sourceBox + s.toSource != [] && Last(s.sourceBox + s.toSource).Flushed?
               && NoFlushed((s.sourceBox + s.toSource)[..|s.sourceBox + s.toSource| - 1]))
  }

  predicate NoFlushed(ms: seq<SourceMsg>) {
    forall m | m in ms :: !m.Flushed?
  }

  /** The windower has cut `taken` values into `count` windows, and holds the rest. */
  ghost predicate WindowerHolds(p: Params, w: WindowerState, taken: seq<int>, count: nat) {
    && w.windowStart == StartOf(p.windowSize, count)
    && (if taken == [] then count == 0 else w.windowStart < |taken| <= w.windowStart + p.windowSize)
    && w.currentWindow == Amplify(taken[w.windowStart..], p.amplification)
  }

  ghost predicate WindowInv(p: Params, s: System) {
    !s.stage.Quiet? ==>
      && AreWindows(p, s.drawn, s.emitted)
      && (s.windower.running ==> 0 <= Taken(s) <= |s.drawn| && WindowerHolds(p, s.windower, s.drawn[..Taken(s)], |s.emitted|))
  }

  ghost predicate SinkInv(p: Params, s: System) {
    && (!s.master.Waiting? ==> s.sink.numberOfWindows == p.numberOfWindows)
    && (s.stage.Quiet? && s.master.Running? ==> s.sink.windowCount == 0)
    && (!s.stage.Quiet? ==>
          && s.sink.windowCount <= |s.emitted| && s.sinkBox == s.emitted[s.sink.windowCount..]
          && s.countdowns == if 1 <= p.numberOfWindows <= s.sink.windowCount then 1 else 0)
  }

  function CreditOf(ms: seq<SourceMsg>): nat {
    if ms == [] then 0 else CreditOf(ms[..|ms| - 1]) + if Last(ms).Ready? then Last(ms).batchSize else 0
  }

  /** The credit is on its way to the source, with the source, in events, or counted by the windower. */
  ghost predicate CreditConserved(p: Params, s: System) {
    && CreditOf(s.sourceBox + s.toSource) + s.source.remaining + |s.toWindower| + s.windower.receivedSinceReady == p.batchSize
    && s.windower.receivedSinceReady <= s.windower.readyMark
  }

  ghost predicate CreditInv(p: Params, s: System) {
    s.stage.Active? && s.windower.running ==> CreditConserved(p, s)
  }

  ghost predicate Inv(p: Params, s: System) {
    ParamsInv(p, s) && ControlInv(s) && SourceInv(p, s) && WindowInv(p, s) && SinkInv(p, s) && CreditInv(p, s)
  }
}
