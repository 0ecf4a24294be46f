/** What holds in every run of the register protocol. */
module RegisterTheorems {
  import opened Collections
  import opened Histories
  import opened RegisterNode
  import opened RegisterProtocol
  import opened RegisterSafety
  import opened RegisterEvents
  import opened RegisterInvariant
  import opened RegisterRuns

  // Every delivery.

  /** How one delivery changes the system: by an event, by an invocation, or not at all. */
  ghost predicate Steps(cfg: Config, s: System, p: Packet, s': System, e: Event, sent: seq<Packet>) {
    && HasShape(cfg, s) && p in s.net
    && match e
       case Ignored => IsStale(cfg, p) && IsInert(cfg, s, p, s', sent)
       case Invoked => p.dst in cfg.Ranks() && p == RunPacket(p.dst) && Invokes(cfg, s, p.dst, s', sent)
       case _ => IsCurrent(cfg, p) && Happens(cfg, s, p, s', e, sent)
  }

  lemma RunMessage(cfg: Config, s: System, p: Packet)
    requires HasShape(cfg, s) && NetInv(cfg, s) && p in s.net && p.dst in s.nodes && !IsProtocol(p.msg)
    ensures p == RunPacket(p.dst)
  {
    assert PacketInv(cfg, s, p);
  }

  lemma InvokationSteps(cfg: Config, s: System, i: nat, now: int) returns (s': System, sent: seq<Packet>)
    requires Inv(cfg, s) && i in cfg.Ranks() && RunPacket(i) in s.net
    ensures Deliver(cfg, s, RunPacket(i), now) == Some(s') && s'.now == now
    ensures Steps(cfg, s, RunPacket(i), s', Invoked, sent) == true
  {
    WaitingIsFresh(cfg, s, i);
    s', sent := RunInvokes(cfg, s, i, now);
  }

  lemma StaleSteps(cfg: Config, s: System, p: Packet, now: int) returns (s': System, sent: seq<Packet>)
    requires Inv(cfg, s) && p in s.net && IsStale(cfg, p) && p.dst in s.nodes
    ensures Deliver(cfg, s, p, now) == Some(s') && s'.now == now
    ensures Steps(cfg, s, p, s', Ignored, sent) == true
  {
    s', sent := StaleIsInert(cfg, s, p, now);
  }

  lemma CurrentSteps(cfg: Config, s: System, p: Packet, now: int) returns (s': System, e: Event, sent: seq<Packet>)
    requires Inv(cfg, s) && p in s.net && IsCurrent(cfg, p) && p.dst in s.nodes
    ensures Deliver(cfg, s, p, now) == Some(s') && s'.now == now
    ensures Steps(cfg, s, p, s', e, sent) == true && !e.Ignored? && !e.Invoked?
  {
    s', e, sent := SomethingHappens(cfg, s, p, now);
  }

  /** No delivery panics, and each is one of the steps. */
  lemma EveryDeliverySteps(cfg: Config, s: System, p: Packet, now: int) returns (s': System, e: Event, sent: seq<Packet>)
    requires Inv(cfg, s) && p in s.net && p.dst in s.nodes
    ensures Deliver(cfg, s, p, now) == Some(s') && s'.now == now
    ensures Steps(cfg, s, p, s', e, sent) == true
  {
    if !IsProtocol(p.msg) {
      RunMessage(cfg, s, p);
      s', sent := InvokationSteps(cfg, s, p.dst, now);
      e := Invoked;
    } else if IsCurrent(cfg, p) {
      s', e, sent := CurrentSteps(cfg, s, p, now);
    } else {
      s', sent := StaleSteps(cfg, s, p, now);
      e := Ignored;
    }
  }

  lemma StepsKeepInv(cfg: Config, s: System, p: Packet, s': System, e: Event, sent: seq<Packet>)
    requires Inv(cfg, s) && Steps(cfg, s, p, s', e, sent)
    ensures Inv(cfg, s') == true
  {
    match e {
      case Ignored => InertKeepsInv(cfg, s, p, s', sent);
      case Invoked => InvokeKeepsInv(cfg, s, p.dst, s', sent);
      case _ => EventsKeepInv(cfg, s, p, s', e, sent);
    }
  }

  lemma NextSteps(cfg: Config, s: System, s': System) returns (p: Packet, e: Event, sent: seq<Packet>)
    requires Inv(cfg, s) && Next(cfg, s, s')
    ensures Steps(cfg, s, p, s', e, sent) == true
  {
    var q, now :| q in s.net && q.dst in s.nodes && s.now <= now && Deliver(cfg, s, q, now) == Some(s');
    p := q;
    var after;
    after, e, sent := EveryDeliverySteps(cfg, s, p, now);
  }

  // Initial states.

  lemma InitialNet(cfg: Config, s: System)
    requires cfg.Valid() && IsInitial(cfg, s)
    ensures HasShape(cfg, s) && NetInv(cfg, s) && Flying(cfg, s.net) == {}
  {
  }

  lemma InitialOp(cfg: Config, s: System, o: OpId)
    requires cfg.Valid() && IsInitial(cfg, s) && HasShape(cfg, s) && Flying(cfg, s.net) == {} && o in s.ops
    ensures OpInv(cfg, s, o) == true && AcksHold(cfg, s, o) == true
  {
    assert Replied(cfg, s, o) == cfg.Ranks() && Acked(cfg, s, o) == cfg.Ranks();
  }

  lemma InitialCounts(cfg: Config, s: System, i: nat)
    requires cfg.Valid() && IsInitial(cfg, s) && HasShape(cfg, s) && i in cfg.Ranks()
    ensures CountInv(cfg, s, i) == true
  {
    assert s.net[RunPacket(i)] == 1;
  }

  lemma InitialHasInv(cfg: Config, s: System)
    requires cfg.Valid() && IsInitial(cfg, s)
    ensures Inv(cfg, s)
  {
    InitialNet(cfg, s);
    forall o | o in s.ops ensures OpInv(cfg, s, o) == true && AcksHold(cfg, s, o) == true {
      InitialOp(cfg, s, o);
    }
    forall i | i in cfg.Ranks() ensures CountInv(cfg, s, i) == true {
      InitialCounts(cfg, s, i);
    }
    InvOfParts(cfg, s);
  }

  // Runs.

  lemma NextKeepsInv(cfg: Config, s: System, s': System)
    requires Inv(cfg, s) == true && Next(cfg, s, s') == true
    ensures Inv(cfg, s') == true
  {
    var p, e, sent := NextSteps(cfg, s, s');
    StepsKeepInv(cfg, s, p, s', e, sent);
  }

  lemma RunStarts(cfg: Config, run: seq<System>)
    requires IsRun(cfg, run)
    ensures Inv(cfg, run[0]) == true
  {
    InitialHasInv(cfg, run[0]);
  }

  lemma StepKeepsInv(cfg: Config, run: seq<System>, i: nat)
    requires IsRun(cfg, run) && i + 1 < |run| && Inv(cfg, run[i]) == true
    ensures Inv(cfg, run[i + 1]) == true
  {
    assert StepAt(cfg, run, i);
    NextKeepsInv(cfg, run[i], run[i + 1]);
  }

  lemma {:induction false} InvAlongRun(cfg: Config, run: seq<System>, i: nat)
    requires IsRun(cfg, run) == true && i < |run|
    ensures Inv(cfg, run[i]) == true
  {
    if i == 0 {
      RunStarts(cfg, run);
    } else {
      InvAlongRun(cfg, run, i - 1);
      StepKeepsInv(cfg, run, i - 1);
    }
  }

  /** No handler panics: keys are known, and no counter of open operations goes below zero. */
  lemma NoPanic(cfg: Config, run: seq<System>, i: nat, p: Packet, now: int)
    requires IsRun(cfg, run) && i < |run| && p in run[i].net && p.dst in run[i].nodes
    ensures Receive(run[i].nodes[p.dst], p.src, p.msg, now).Handled?
    ensures Deliver(cfg, run[i], p, now).Some?
  {
    InvAlongRun(cfg, run, i);
    var s', e, sent := EveryDeliverySteps(cfg, run[i], p, now);
  }
}
