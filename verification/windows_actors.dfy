/** The three actors of a stream partition: source, windower and sink (streaming_windows.rs). */
module WindowActors {
  import opened Collections
  import opened Medians

  // Messages.

  datatype WindowerMsg = Start | Stop | Event(ts: nat, partitionId: nat, value: int) | Flush

  datatype SourceMsg = Reset | Next | Ready(batchSize: nat) | Flushed

  datatype SinkMsg = Run | WindowAggregate(ts: nat, partitionId: nat, value: real)

  // The windower.

  /** `downstream` names the sink that started the windower. */
  datatype WindowerState = WindowerState(
    windowSize: nat,
    batchSize: nat,
    amplification: nat,
    readyMark: nat,
    downstream: Option<nat>,
    currentWindow: seq<int>,
    windowStart: nat,
    receivedSinceReady: nat,
    running: bool
  ) {
    function WindowEnd(): nat {
      windowStart + windowSize
    }
  }

  datatype WindowerReaction =
    | WindowerHandled(windower: WindowerState, toSource: seq<SourceMsg>, toSink: seq<SinkMsg>)
    | WindowerPanicked

  /** Emits the median of the current window; an empty window emits nothing. */
  function TriggerWindow(w: WindowerState, partitionId: nat): WindowerReaction {
    if w.currentWindow == [] then WindowerHandled(w, [], [])
    else if w.downstream.None? then WindowerPanicked
    else WindowerHandled(w.(currentWindow := []), [],
                         [WindowAggregate(w.windowStart, partitionId, Median(w.currentWindow))])
  }

  /** Returns the credit for the events received, once there are more than half a batch of them. */
  function ManageReady(w: WindowerState): (WindowerState, seq<SourceMsg>) {
    var received := w.receivedSinceReady + 1;
    if received > w.readyMark then (w.(receivedSinceReady := 0), [Ready(received)])
    else (w.(receivedSinceReady := received), [])
  }

  function TakeEvent(w: WindowerState, m: WindowerMsg): WindowerReaction
    requires m.Event?
  {
    var triggered := if m.ts >= w.WindowEnd() then TriggerWindow(w, m.partitionId) else WindowerHandled(w, [], []);
    if triggered.WindowerPanicked? then WindowerPanicked
    else
      var started := if m.ts >= w.WindowEnd() then triggered.windower.(windowStart := m.ts) else w;
      var filled := started.(currentWindow := started.currentWindow + Repeat(m.value, w.amplification));
      var (ready, credit) := ManageReady(filled);
      WindowerHandled(ready, credit, triggered.toSink)
  }

  /** A message from `sender`; only the sink that sends Start matters. */
  function WindowerReceive(w: WindowerState, sender: nat, m: WindowerMsg): WindowerReaction {
    match m
    case Start =>
      if w.running then WindowerPanicked
      else WindowerHandled(w.(downstream := Some(sender), running := true, receivedSinceReady := 0), [Ready(w.batchSize)], [])
    case Stop =>
      if !w.running then WindowerPanicked
      else WindowerHandled(w.(running := false, currentWindow := [], downstream := None, windowStart := 0), [], [])
    case Event(_, _, _) =>
      if w.running then TakeEvent(w, m) else WindowerHandled(w, [], [])
    case Flush => WindowerHandled(w, [Flushed], [])
  }

  class Windower {
    const windowSize: nat
    const batchSize: nat
    const amplification: nat
    const readyMark: nat
    var downstream: Option<nat>
    var currentWindow: seq<int>
    var windowStart: nat
    var receivedSinceReady: nat
    var running: bool

    function State(): WindowerState
      reads this
    {
      WindowerState(windowSize, batchSize, amplification, readyMark, downstream, currentWindow, windowStart,
                    receivedSinceReady, running)
    }

    constructor With(windowSize: nat, batchSize: nat, amplification: nat)
      ensures State() == WindowerState(windowSize, batchSize, amplification, batchSize / 2, None, [], 0, 0, false)
    {
      this.windowSize, this.batchSize, this.amplification, this.readyMark :=
        windowSize, batchSize, amplification, batchSize / 2;
      downstream, currentWindow, windowStart, receivedSinceReady, running := None, [], 0, 0, false;
    }

    method Trigger(partitionId: nat) returns (toSink: seq<SinkMsg>, panicked: bool)
      modifies this
      ensures panicked <==> TriggerWindow(old(State()), partitionId).WindowerPanicked?
      ensures !panicked ==> TriggerWindow(old(State()), partitionId) == WindowerHandled(State(), [], toSink)
    {
      toSink, panicked := [], false;
      if currentWindow == [] {
        return;
      }
      currentWindow := Sort(currentWindow);
      var len := |currentWindow|;
      var median: real;
      if len % 2 == 0 {
        var upper := len / 2;
        var lower := upper - 1;
        match CheckedAdd(currentWindow[lower], currentWindow[upper]) {
          case Some(sum) => median := sum as real / 2.0;
          case None =>
            var upperHalf := currentWindow[upper] as real / 2.0;
            var lowerHalf := currentWindow[lower] as real / 2.0;
            median := lowerHalf + upperHalf;
        }
      } else {
        median := currentWindow[len / 2] as real;
      }
      currentWindow := [];
      if downstream.None? {
        panicked := true;
      } else {
        toSink := [WindowAggregate(windowStart, partitionId, median)];
      }
    }

    method CountReceived() returns (toSource: seq<SourceMsg>)
      modifies this
      ensures ManageReady(old(State())) == (State(), toSource)
    {
      toSource := [];
      receivedSinceReady := receivedSinceReady + 1;
      if receivedSinceReady > readyMark {
        toSource := [Ready(receivedSinceReady)];
        receivedSinceReady := 0;
      }
    }

    method OnEvent(m: WindowerMsg) returns (toSource: seq<SourceMsg>, toSink: seq<SinkMsg>, panicked: bool)
      requires m.Event?
      modifies this
      ensures panicked <==> TakeEvent(old(State()), m).WindowerPanicked?
      ensures !panicked ==> TakeEvent(old(State()), m) == WindowerHandled(State(), toSource, toSink)
    {
      toSource, toSink, panicked := [], [], false;
      if m.ts >= windowStart + windowSize {
        toSink, panicked := Trigger(m.partitionId);
        if panicked {
          return;
        }
        windowStart := m.ts;
      }
      ghost var before := State();
      for i := 0 to amplification
        invariant State() == before.(currentWindow := before.currentWindow + Repeat(m.value, i))
      {
        assert Repeat(m.value, i + 1) == Repeat(m.value, i) + [m.value];
        currentWindow := currentWindow + [m.value];
      }
      toSource := CountReceived();
    }

    method Receive(sender: nat, m: WindowerMsg) returns (toSource: seq<SourceMsg>, toSink: seq<SinkMsg>, panicked: bool)
      modifies this
      ensures panicked <==> WindowerReceive(old(State()), sender, m).WindowerPanicked?
      ensures !panicked ==> WindowerReceive(old(State()), sender, m) == WindowerHandled(State(), toSource, toSink)
    {
      toSource, toSink, panicked := [], [], false;
      match m {
        case Start =>
          panicked := running;
          if !running {
            downstream, running, receivedSinceReady := Some(sender), true, 0;
            toSource := [Ready(batchSize)];
          }
        case Stop =>
          panicked := !running;
          if running {
            running, currentWindow, downstream, windowStart := false, [], None, 0;
          }
        case Event(_, _, _) =>
          if running {
            toSource, toSink, panicked := OnEvent(m);
          }
        case Flush =>
          toSource := [Flushed];
      }
    }
  }

  // The source.

  /** `connected`: the source knows its windower; `asked`: someone waits for the reset to be answered. */
  datatype SourceState = SourceState(
    partitionId: nat,
    connected: bool,
    remaining: nat,
    currentTs: nat,
    flushing: bool,
    asked: bool
  )

  datatype SourceReaction =
    | SourceHandled(source: SourceState, toSelf: seq<SourceMsg>, toWindower: seq<WindowerMsg>, replied: bool)
    | SourcePanicked

  /** Sends one event with the random value `draw`, if there is credit. */
  function Send(s: SourceState, draw: int): SourceReaction {
    if s.remaining == 0 then SourceHandled(s, [], [], false)
    else if !s.connected then SourcePanicked
    else SourceHandled(s.(currentTs := s.currentTs + 1, remaining := s.remaining - 1),
                       if s.remaining > 1 then [Next] else [],
                       [Event(s.currentTs, s.partitionId, draw)], false)
  }

  function SourceReceive(s: SourceState, m: SourceMsg, draw: int): SourceReaction {
    match m
    case Ready(batchSize) =>
      if s.flushing then SourceHandled(s, [], [], false)
      else Send(s.(remaining := s.remaining + batchSize, connected := true), draw)
    case Next =>
      if s.flushing then SourceHandled(s, [], [], false) else Send(s, draw)
    case Reset =>
      if s.flushing || !s.connected then SourcePanicked
      else SourceHandled(s.(flushing := true, asked := true, connected := false, currentTs := 0, remaining := 0),
                         [], [Flush], false)
    case Flushed =>
      if !s.flushing || !s.asked then SourcePanicked
      else SourceHandled(s.(asked := false, flushing := false), [], [], true)
  }

  class StreamSource {
    const partitionId: nat
    var connected: bool
    var remaining: nat
    var currentTs: nat
    var flushing: bool
    var asked: bool

    function State(): SourceState
      reads this
    {
      SourceState(partitionId, connected, remaining, currentTs, flushing, asked)
    }

    constructor With(partitionId: nat)
      ensures State() == SourceState(partitionId, false, 0, 0, false, false)
    {
      this.partitionId := partitionId;
      connected, remaining, currentTs, flushing, asked := false, 0, 0, false, false;
    }

    method SendEvent(draw: int) returns (toSelf: seq<SourceMsg>, toWindower: seq<WindowerMsg>, panicked: bool)
      modifies this
      ensures panicked <==> Send(old(State()), draw).SourcePanicked?
      ensures !panicked ==> Send(old(State()), draw) == SourceHandled(State(), toSelf, toWindower, false)
    {
      toSelf, toWindower, panicked := [], [], false;
      if remaining > 0 {
        if !connected {
          return [], [], true;
        }
        toWindower := [Event(currentTs, partitionId, draw)];
        currentTs := currentTs + 1;
        remaining := remaining - 1;
        if remaining > 0 {
          toSelf := [Next];
        }
      }
    }

    method Receive(m: SourceMsg, draw: int)
      returns (toSelf: seq<SourceMsg>, toWindower: seq<WindowerMsg>, replied: bool, panicked: bool)
      modifies this
      ensures panicked <==> SourceReceive(old(State()), m, draw).SourcePanicked?
      ensures !panicked ==> SourceReceive(old(State()), m, draw) == SourceHandled(State(), toSelf, toWindower, replied)
    {
      toSelf, toWindower, replied, panicked := [], [], false, false;
      match m {
        case Ready(batchSize) =>
          if !flushing {
            remaining := remaining + batchSize;
            connected := true;
            toSelf, toWindower, panicked := SendEvent(draw);
          }
        case Next =>
          if !flushing {
            toSelf, toWindower, panicked := SendEvent(draw);
          }
        case Reset =>
          if flushing || !connected {
            panicked := true;
          } else {
            flushing, asked, connected, currentTs, remaining := true, true, false, 0, 0;
            toWindower := [Flush];
          }
        case Flushed =>
          if !flushing || !asked {
            panicked := true;
          } else {
            asked, flushing, replied := false, false, true;
          }
      }
    }
  }

  // The sink.

  datatype SinkState = SinkState(numberOfWindows: nat, windowCount: nat)

  /** What the sink sends to the windower, and whether it counts down the latch. */
  datatype SinkReaction = SinkHandled(sink: SinkState, toWindower: seq<WindowerMsg>, countedDown: bool)

  function SinkReceive(s: SinkState, m: SinkMsg): SinkReaction {
    match m
    case Run => SinkHandled(s, [Start], false)
    case WindowAggregate(_, _, _) =>
      var counted := s.(windowCount := s.windowCount + 1);
      if counted.windowCount == s.numberOfWindows then SinkHandled(counted, [Stop], true)
      else SinkHandled(counted, [], false)
  }

  class StreamSink {
    const numberOfWindows: nat
    var windowCount: nat

    function State(): SinkState
      reads this
    {
      SinkState(numberOfWindows, windowCount)
    }

    constructor With(numberOfWindows: nat)
      ensures State() == SinkState(numberOfWindows, 0)
    {
      this.numberOfWindows, windowCount := numberOfWindows, 0;
    }

    method Receive(m: SinkMsg) returns (toWindower: seq<WindowerMsg>, countedDown: bool)
      modifies this
      ensures SinkReceive(old(State()), m) == SinkHandled(State(), toWindower, countedDown)
    {
      toWindower, countedDown := [], false;
      match m {
        case Run => toWindower := [Start];
        case WindowAggregate(_, _, _) =>
          windowCount := windowCount + 1;
          if windowCount == numberOfWindows {
            toWindower, countedDown := [Stop], true;
          }
      }
    }
  }
}
