/** Building runs: states that a run can reach, and letting chosen messages arrive until none is left. */
module RegisterReach {
  import opened Collections
  import opened Histories
  import opened RegisterNode
  import opened RegisterProtocol
  import opened RegisterSafety
  import opened RegisterEvents
  import opened RegisterInvariant
  import opened RegisterRuns
  import opened RegisterTheorems
  import opened RegisterResults
  import opened RegisterTermination
  import opened RegisterLogs
  import opened RegisterDetails

  predicate Ticks(run: seq<System>, tick: int, i: nat)
    requires i + 1 < |run|
  {
    run[i + 1].now == run[i].now + tick
  }

  /** A run whose clock advances by `tick` at every delivery. */
  ghost predicate IsTimedRun(cfg: Config, run: seq<System>, tick: int) {
    IsRun(cfg, run) && forall i: nat | i + 1 < |run| :: Ticks(run, tick, i)
  }

  ghost predicate EndsIn(cfg: Config, tick: int, run: seq<System>, s: System) {
    IsTimedRun(cfg, run, tick) && run != [] && run[|run| - 1] == s
  }

  /** Everything that is known of every state of every run. */
  ghost predicate Known(cfg: Config, s: System) {
    FullInv(cfg, s) && (cfg.testing ==> InvAndLogs(cfg, s))
  }

  ghost predicate Reachable(cfg: Config, tick: int, s: System) {
    exists run :: EndsIn(cfg, tick, run, s)
  }

  lemma RunEndHasInv(cfg: Config, run: seq<System>, k: nat, s: System)
    requires IsRun(cfg, run) && k < |run| && run[k] == s
    ensures FullInv(cfg, s) == true
  {
    AlwaysFullInv(cfg, run, k);
  }

  lemma RunEndHasLogs(cfg: Config, run: seq<System>, k: nat, s: System)
    requires IsRun(cfg, run) == true && k < |run| && run[k] == s && cfg.testing
    ensures InvAndLogs(cfg, s) == true
  {
    LogsAlongRun(cfg, run, k);
  }

  lemma ReachedByRun(cfg: Config, tick: int, s: System) returns (run: seq<System>, k: nat)
    requires Reachable(cfg, tick, s)
    ensures IsRun(cfg, run) == true && k < |run| && run[k] == s
  {
    run :| EndsIn(cfg, tick, run, s);
    k := |run| - 1;
  }

  lemma ReachableIsKnown(cfg: Config, tick: int, s: System)
    requires Reachable(cfg, tick, s) == true
    ensures Known(cfg, s) == true
  {
    var run, k := ReachedByRun(cfg, tick, s);
    RunEndHasInv(cfg, run, k, s);
    if cfg.testing {
      RunEndHasLogs(cfg, run, k, s);
    }
  }

  lemma ReachableInv(cfg: Config, tick: int, s: System)
    requires Reachable(cfg, tick, s) == true
    ensures Inv(cfg, s) == true && HasShape(cfg, s) == true
  {
    ReachableIsKnown(cfg, tick, s);
  }

  lemma LongerRun(cfg: Config, tick: int, run: seq<System>, s: System, s': System)
    requires EndsIn(cfg, tick, run, s) && Next(cfg, s, s') && s'.now == s.now + tick
    ensures EndsIn(cfg, tick, run + [s'], s') == true
  {
    var longer := run + [s'];
    forall i: nat | i + 1 < |longer| ensures StepAt(cfg, longer, i) && Ticks(longer, tick, i) {
      if i + 1 < |run| {
        assert StepAt(cfg, run, i) && Ticks(run, tick, i);
        assert longer[i] == run[i] && longer[i + 1] == run[i + 1];
      } else {
        assert longer[i] == s && longer[i + 1] == s';
      }
    }
  }

  lemma ReachesNext(cfg: Config, tick: int, s: System, s': System)
    requires Reachable(cfg, tick, s) && Next(cfg, s, s') == true && s'.now == s.now + tick
    ensures Reachable(cfg, tick, s') == true
  {
    var run :| EndsIn(cfg, tick, run, s);
    LongerRun(cfg, tick, run, s, s');
  }

  lemma DeliveryReaches(cfg: Config, tick: int, s: System, p: Packet, s': System)
    requires Reachable(cfg, tick, s) == true && tick >= 0 && Arrives(cfg, s, p, s.now + tick, s') == true
    ensures Reachable(cfg, tick, s') == true
  {
    assert Next(cfg, s, s');
    ReachesNext(cfg, tick, s, s');
  }

  /** Any message that a node can receive may be the next to arrive. */
  lemma ReachNext(cfg: Config, tick: int, s: System, p: Packet) returns (s': System, e: Event, sent: seq<Packet>)
    requires Reachable(cfg, tick, s) == true && tick >= 0 && p in s.net && p.dst in s.nodes
    ensures Reachable(cfg, tick, s') == true && s'.now == s.now + tick && Delivery(cfg, s, p, s', e, sent) == true
    ensures e.Ignored? <==> IsStale(cfg, p)
    ensures e.Invoked? <==> !IsProtocol(p.msg)
    ensures !IsStale(cfg, p) ==> Work(cfg, s') < Work(cfg, s)
  {
    ReachableInv(cfg, tick, s);
    s', e, sent := DeliveryOf(cfg, s, p, s.now + tick);
    DeliveryReaches(cfg, tick, s, p, s');
    if !IsStale(cfg, p) {
      ArrivalTakesWork(cfg, tick, s, p, s.now + tick, s');
    }
  }

  // The start.

  function AllOps(cfg: Config): set<OpId> {
    set k, i | k in Below(cfg.numKeys) && i in cfg.Ranks() :: (k, i)
  }

  function StartOps(cfg: Config): map<OpId, OpRecord> {
    map o: OpId | o in AllOps(cfg) :: OpRecord(Idle, {})
  }

  /** A run may start with nothing but its own messages in flight. */
  function StartSystem(cfg: Config): System {
    System(map i | i in cfg.Ranks() :: InitialNode(cfg, i), multiset(set i | i in cfg.Ranks() :: RunPacket(i)), StartOps(cfg), 0, map[])
  }

  lemma StartIsReachable(cfg: Config, tick: int)
    requires cfg.Valid()
    ensures Reachable(cfg, tick, StartSystem(cfg)) && IsInitial(cfg, StartSystem(cfg))
  {
    var s := StartSystem(cfg);
    forall i | i in cfg.Ranks() ensures s.net[RunPacket(i)] == 1 {
      assert RunPacket(i) in (set j | j in cfg.Ranks() :: RunPacket(j));
    }
    assert IsInitial(cfg, s);
    assert EndsIn(cfg, tick, [s], s);
  }

  lemma ReachKnown(cfg: Config, tick: int, s: System, p: Packet) returns (s': System, e: Event, sent: seq<Packet>)
    requires Reachable(cfg, tick, s) == true && tick >= 0 && p in s.net && p.dst in s.nodes
    ensures Reachable(cfg, tick, s') == true && s'.now == s.now + tick && Delivery(cfg, s, p, s', e, sent) == true
    ensures Known(cfg, s) == true && Known(cfg, s') == true
  {
    s', e, sent := ReachNext(cfg, tick, s, p);
    ReachableIsKnown(cfg, tick, s);
    ReachableIsKnown(cfg, tick, s');
  }

  /** A node that waits for its Run message may be the next to start. */
  lemma ReachStart(cfg: Config, tick: int, s: System, i: nat) returns (s': System, e: Event, sent: seq<Packet>)
    requires Reachable(cfg, tick, s) == true && tick >= 0 && RunPacket(i) in s.net && i in s.nodes
    ensures Reachable(cfg, tick, s') == true && s'.now == s.now + tick && Delivery(cfg, s, RunPacket(i), s', e, sent) == true
    ensures Known(cfg, s) == true && Known(cfg, s') == true
  {
    s', e, sent := ReachKnown(cfg, tick, s, RunPacket(i));
  }

  // Letting messages arrive.

  /** Whatever allowed message of the run arrives, `holds` goes on holding. */
  ghost predicate Preserves(cfg: Config, tick: int, allowed: (System, Packet) -> bool, holds: System -> bool) {
    forall s: System, p: Packet, s': System, e: Event, sent: seq<Packet> |
      Known(cfg, s) && Known(cfg, s') && holds(s) && allowed(s, p) && !IsStale(cfg, p) && s'.now == s.now + tick
      && Delivery(cfg, s, p, s', e, sent) :: holds(s')
  }

  /** No allowed message of the run is left for a node. */
  ghost predicate NoneLeft(cfg: Config, s: System, allowed: (System, Packet) -> bool) {
    forall p | p in s.net && p.dst in s.nodes && allowed(s, p) :: IsStale(cfg, p)
  }

  /** Allowed messages arrive, in some order, until none is left. */
  lemma {:induction false} DrainWhere(cfg: Config, tick: int, s: System, allowed: (System, Packet) -> bool, holds: System -> bool)
    returns (s': System)
    requires Reachable(cfg, tick, s) == true && tick >= 0 && holds(s) && Preserves(cfg, tick, allowed, holds) == true
    ensures Reachable(cfg, tick, s') == true && holds(s') && NoneLeft(cfg, s', allowed) == true && s.now <= s'.now
    decreases Work(cfg, s)
  {
    if NoneLeft(cfg, s, allowed) {
      s' := s;
    } else {
      var p :| p in s.net && p.dst in s.nodes && allowed(s, p) && !IsStale(cfg, p);
      var next, e, sent := ReachNext(cfg, tick, s, p);
      ReachableIsKnown(cfg, tick, s);
      ReachableIsKnown(cfg, tick, next);
      s' := DrainWhere(cfg, tick, next, allowed, holds);
    }
  }

  lemma ArrivalTakesWork(cfg: Config, tick: int, s: System, p: Packet, now: int, s': System)
    requires Reachable(cfg, tick, s) == true && Arrives(cfg, s, p, now, s') == true && !IsStale(cfg, p)
    ensures Work(cfg, s') < Work(cfg, s)
  {
    ReachableInv(cfg, tick, s);
    WorkTaken(cfg, s, p, now, s');
  }

  lemma WorkTaken(cfg: Config, s: System, p: Packet, now: int, s': System)
    requires Inv(cfg, s) == true && HasShape(cfg, s) == true && Arrives(cfg, s, p, now, s') && !IsStale(cfg, p)
    ensures Work(cfg, s') < Work(cfg, s)
  {
    DeliveryTakesWork(cfg, s, p, now);
  }

  // Whole runs.

  /** Whatever message arrives, `holds` goes on holding. */
  ghost predicate KeptByAll(cfg: Config, holds: System -> bool) {
    forall s: System, p: Packet, s': System, e: Event, sent: seq<Packet> |
      Known(cfg, s) && Known(cfg, s') && holds(s) && Delivery(cfg, s, p, s', e, sent) :: holds(s')
  }

  lemma RunStateIsKnown(cfg: Config, run: seq<System>, k: nat)
    requires IsRun(cfg, run) == true && k < |run|
    ensures Known(cfg, run[k]) == true
  {
    AlwaysFullInv(cfg, run, k);
    if cfg.testing {
      LogsAlongRun(cfg, run, k);
    }
  }

  lemma NextIsDelivery(cfg: Config, s: System, s': System) returns (p: Packet, e: Event, sent: seq<Packet>)
    requires Inv(cfg, s) == true && Next(cfg, s, s')
    ensures Delivery(cfg, s, p, s', e, sent) == true
  {
    var q, now :| q in s.net && q.dst in s.nodes && s.now <= now && Deliver(cfg, s, q, now) == Some(s');
    p := q;
    var after;
    after, e, sent := DeliveryOf(cfg, s, p, now);
  }

  lemma KeptByNext(cfg: Config, s: System, s': System, holds: System -> bool)
    requires Known(cfg, s) == true && Known(cfg, s') == true && Next(cfg, s, s') == true && holds(s) && KeptByAll(cfg, holds)
    ensures holds(s')
  {
    KnownHasInv(cfg, s);
    var p, e, sent := NextIsDelivery(cfg, s, s');
  }

  lemma KnownHasInv(cfg: Config, s: System)
    requires Known(cfg, s)
    ensures Inv(cfg, s) == true && HasShape(cfg, s) == true
  {
  }

  lemma KeptByStep(cfg: Config, run: seq<System>, j: nat, holds: System -> bool)
    requires IsRun(cfg, run) == true && j + 1 < |run| && holds(run[j]) && KeptByAll(cfg, holds) == true
    ensures holds(run[j + 1])
  {
    RunStateIsKnown(cfg, run, j);
    RunStateIsKnown(cfg, run, j + 1);
    StepIsNext(cfg, run, j);
    KeptByNext(cfg, run[j], run[j + 1], holds);
  }

  lemma StepIsNext(cfg: Config, run: seq<System>, j: nat)
    requires IsRun(cfg, run) && j + 1 < |run|
    ensures Next(cfg, run[j], run[j + 1]) == true
  {
    assert StepAt(cfg, run, j);
  }

  /** What every delivery keeps holds in every state of a run that starts with it. */
  lemma HoldsInRun(cfg: Config, run: seq<System>, k: nat, holds: System -> bool)
    requires IsRun(cfg, run) == true && k < |run| && 0 < |run| && holds(run[0]) && KeptByAll(cfg, holds) == true
    ensures holds(run[k])
  {
    forall j: nat | 0 <= j < k && holds(run[j]) ensures holds(run[j + 1]) {
      KeptByStep(cfg, run, j, holds);
    }
    HoldsAlong(run, holds, 0, k);
  }

  // Runs whose clock advances.

  predicate Advances(run: seq<System>, i: nat)
    requires i + 1 < |run|
  {
    run[i].now < run[i + 1].now
  }

  /** A run in which no two deliveries happen at the same time. */
  ghost predicate IsAdvancingRun(cfg: Config, run: seq<System>) {
    IsRun(cfg, run) && forall i: nat | i + 1 < |run| :: Advances(run, i)
  }

  lemma TimedRunAdvances(cfg: Config, run: seq<System>, tick: int)
    requires IsTimedRun(cfg, run, tick) && tick > 0
    ensures IsAdvancingRun(cfg, run)
  {
    forall i: nat | i + 1 < |run| ensures Advances(run, i) {
      assert Ticks(run, tick, i);
    }
  }

  /** Whatever message arrives later than the last one, `holds` goes on holding. */
  ghost predicate KeptByLater(cfg: Config, holds: System -> bool) {
    forall s: System, p: Packet, s': System, e: Event, sent: seq<Packet> |
      Known(cfg, s) && Known(cfg, s') && holds(s) && s.now < s'.now && Delivery(cfg, s, p, s', e, sent) :: holds(s')
  }

  lemma KeptByLaterNext(cfg: Config, s: System, s': System, holds: System -> bool)
    requires Known(cfg, s) == true && Known(cfg, s') == true && Next(cfg, s, s') == true && s.now < s'.now
    requires holds(s) && KeptByLater(cfg, holds)
    ensures holds(s')
  {
    KnownHasInv(cfg, s);
    var p, e, sent := NextIsDelivery(cfg, s, s');
  }

  lemma KeptByLaterStep(cfg: Config, run: seq<System>, j: nat, holds: System -> bool)
    requires IsAdvancingRun(cfg, run) && IsRun(cfg, run) == true && j + 1 < |run| && holds(run[j]) && KeptByLater(cfg, holds) == true
    ensures holds(run[j + 1])
  {
    assert Advances(run, j);
    RunStateIsKnown(cfg, run, j);
    RunStateIsKnown(cfg, run, j + 1);
    StepIsNext(cfg, run, j);
    KeptByLaterNext(cfg, run[j], run[j + 1], holds);
  }

  lemma HoldsInAdvancingRun(cfg: Config, run: seq<System>, k: nat, holds: System -> bool)
    requires IsAdvancingRun(cfg, run) && k < |run| && 0 < |run| && holds(run[0]) && KeptByLater(cfg, holds) == true
    ensures holds(run[k])
  {
    forall j: nat | 0 <= j < k && holds(run[j]) ensures holds(run[j + 1]) {
      KeptByLaterStep(cfg, run, j, holds);
    }
    HoldsAlong(run, holds, 0, k);
  }
}
