/** The late reply of the last replica makes the read answer 0, and the results of the run are not linearizable. */
module RegisterStaleness {
  import opened Collections
  import opened Histories
  import opened Linearizability
  import opened Locality
  import opened Verdicts
  import opened RegisterNode
  import opened RegisterProtocol
  import opened RegisterSafety
  import opened RegisterEvents
  import opened RegisterTheorems
  import opened RegisterTags
  import opened RegisterResults
  import opened RegisterLogs
  import opened RegisterDetails
  import opened RegisterValues
  import opened RegisterParts
  import opened RegisterReach
  import opened RegisterQuiet
  import opened RegisterReports
  import opened RegisterSpots
  import opened RegisterWitness
  import opened RegisterOvertaking
  import opened RegisterLateness

  // The late reply.

  /** The read imposes; the last reply is missing, or it has come and the read will answer 0. */
  predicate LateControl(spot: Spot, phase: OpPhase, missing: bool) {
    spot.reg.reading && phase.Imposing? && if spot.list == map[] then missing else spot.reg.readval == 0
  }

  ghost predicate Late(cfg: Config, s: System, tag: Tag, time: int, first: nat, second: nat) {
    Stage(cfg, s, tag, time, first, second) && LateControl(SpotOf(s, TheRead), s.ops[TheRead].phase, LastIsMissing(cfg, s))
  }

  predicate OfLast(cfg: Config, p: Packet) {
    OfRead(cfg, p) && SlotOf(p).responder == cfg.n
  }

  lemma LateStep(cfg: Config, p: Packet, e: Event, spot: Spot, spot': Spot, phase: OpPhase, phase': OpPhase, missing: bool, missing': bool)
    requires Moves(cfg, p, e, spot, spot', phase, phase') && LateControl(spot, phase, missing)
    requires p.msg.Value? ==> p.msg.value == 0
    requires p.msg.Read? ==> missing'
    ensures LateControl(spot', phase', missing') == true
  {
  }

  lemma AskedLastAnswers(cfg: Config, s: System, p: Packet, s': System, e: Event, sent: seq<Packet>)
    requires IsCrowded(cfg) && HasAll(cfg, s) && OfLast(cfg, p) == true && p.msg.Read?
    requires Delivery(cfg, s, p, s', e, sent) == true
    ensures LastIsMissing(cfg, s') == true
  {
    CrowdedKey(cfg);
    assert OfLast(cfg, p);
    RequestIsAnswered(cfg, s, p, s', e, sent);
    var q := ReplyTo(p, SpotOf(s, OpAt(p)).reg);
    assert q in s'.net && IsCurrent(cfg, q) && SlotOf(q) == Query(TheRead, cfg.n);
  }

  lemma LastCarriesZero(cfg: Config, s: System, p: Packet, first: nat, second: nat)
    requires OfLast(cfg, p) && p in s.net && RepliesCarry(cfg, s, first, second)
    ensures p.msg.Value? ==> p.msg.value == 0
  {
  }

  lemma LateMoves(cfg: Config, s: System, p: Packet, s': System, e: Event, first: nat, second: nat)
    requires HasAll(cfg, s) && HasAll(cfg, s') && OfLast(cfg, p) && p in s.net && RepliesCarry(cfg, s, first, second) == true
    requires LateControl(SpotOf(s, TheRead), s.ops[TheRead].phase, LastIsMissing(cfg, s)) == true
    requires ReadStep(cfg, s, p, s', e)
    requires p.msg.Read? ==> LastIsMissing(cfg, s') == true
    ensures LateControl(SpotOf(s', TheRead), s'.ops[TheRead].phase, LastIsMissing(cfg, s')) == true
  {
    LastCarriesZero(cfg, s, p, first, second);
    LateStep(cfg, p, e, SpotOf(s, TheRead), SpotOf(s', TheRead), s.ops[TheRead].phase, s'.ops[TheRead].phase,
             LastIsMissing(cfg, s), LastIsMissing(cfg, s'));
  }

  lemma LateAfter(cfg: Config, s: System, p: Packet, s': System, e: Event, sent: seq<Packet>, first: nat, second: nat)
    requires IsCrowded(cfg) && HasAll(cfg, s) && HasAll(cfg, s') && OfLast(cfg, p) == true && OfRead(cfg, p) == true && p in s.net
    requires RepliesCarry(cfg, s, first, second) == true
    requires LateControl(SpotOf(s, TheRead), s.ops[TheRead].phase, LastIsMissing(cfg, s)) == true
    requires Inv(cfg, s) == true && Delivery(cfg, s, p, s', e, sent) == true
    ensures LateControl(SpotOf(s', TheRead), s'.ops[TheRead].phase, LastIsMissing(cfg, s')) == true
  {
    ReadMoves(cfg, s, p, s', e, sent);
    if p.msg.Read? {
      AskedLastAnswers(cfg, s, p, s', e, sent);
    }
    LateMoves(cfg, s, p, s', e, first, second);
  }

  lemma LateParts(cfg: Config, s: System, tag: Tag, time: int, first: nat, second: nat)
    requires Late(cfg, s, tag, time, first, second)
    ensures HasAll(cfg, s) && Stage(cfg, s, tag, time, first, second) == true && RepliesCarry(cfg, s, first, second) == true
    ensures LateControl(SpotOf(s, TheRead), s.ops[TheRead].phase, LastIsMissing(cfg, s)) == true
  {
  }

  lemma LateKept(cfg: Config, s: System, p: Packet, s': System, e: Event, sent: seq<Packet>, tag: Tag, time: int, first: nat, second: nat)
    requires IsCrowded(cfg) && cfg.testing && Known(cfg, s) == true && Known(cfg, s') == true && Delivery(cfg, s, p, s', e, sent) == true
    requires Late(cfg, s, tag, time, first, second) == true && OfLast(cfg, p) == true
    ensures Late(cfg, s', tag, time, first, second) == true
  {
    KnownHasInv(cfg, s);
    LateParts(cfg, s, tag, time, first, second);
    DeliveredIsInFlight(cfg, s, p, s', e, sent);
    AllStay(cfg, s, p, s', e, sent);
    StageKept(cfg, s, p, s', e, sent, tag, time, first, second);
    LateAfter(cfg, s, p, s', e, sent, first, second);
  }

  lemma LastArrives(cfg: Config, tick: int, from: System, tag: Tag, time: int, first: nat, second: nat) returns (s: System)
    requires IsCrowded(cfg) && tick >= 0 && cfg.testing
    requires Reachable(cfg, tick, from) == true && Late(cfg, from, tag, time, first, second) == true
    ensures Reachable(cfg, tick, s) == true && Late(cfg, s, tag, time, first, second) == true
    ensures NoneLeft(cfg, s, (s, p) => OfLast(cfg, p)) == true
  {
    var allowed := (s: System, p: Packet) => OfLast(cfg, p);
    var holds := s => Late(cfg, s, tag, time, first, second);
    assert Preserves(cfg, tick, allowed, holds) by {
      forall s: System, p: Packet, s': System, e: Event, sent: seq<Packet> |
        Known(cfg, s) && Known(cfg, s') && holds(s) && allowed(s, p) && !IsStale(cfg, p) && s'.now == s.now + tick
        && Delivery(cfg, s, p, s', e, sent)
        ensures holds(s')
      {
        LateKept(cfg, s, p, s', e, sent, tag, time, first, second);
      }
    }
    s := DrainWhere(cfg, tick, from, allowed, holds);
  }

  lemma ImposingIsLate(cfg: Config, s: System, tag: Tag, time: int, first: nat, second: nat)
    requires Asking(cfg, s, 3, tag, time, first, second) && s.ops[TheRead].phase.Imposing?
    ensures Late(cfg, s, tag, time, first, second) == true
  {
  }

  lemma LastHasArrived(cfg: Config, s: System)
    requires Inv(cfg, s) == true && NoneLeft(cfg, s, (s, p) => OfLast(cfg, p))
    ensures !LastIsMissing(cfg, s)
  {
    if LastIsMissing(cfg, s) {
      var q :| q in s.net && IsCurrent(cfg, q) && SlotOf(q) == Query(TheRead, cfg.n);
      assert PacketInv(cfg, s, q);
      assert OfLast(cfg, q);
      assert false;
    }
  }

  // The answer.

  /** The read will answer 0, or has. */
  ghost predicate AnswersZero(cfg: Config, s: System)
    requires HasAll(cfg, s)
  {
    && 2 in s.nodes
    && var spot := SpotOf(s, TheRead);
       || (s.ops[TheRead].phase.Imposing? && spot.reg.reading && spot.list != map[] && spot.reg.readval == 0)
       || (s.ops[TheRead].phase.Responded? && |Part(s, TheRead)| == 2 && Part(s, TheRead)[1].value == Some(0))
  }

  ghost predicate Doomed(cfg: Config, s: System, tag: Tag, time: int) {
    HasAll(cfg, s) && FirstDone(cfg, s, tag, time) && AskedAfter(s, time) && AnswersZero(cfg, s)
  }

  lemma LateIsDoomed(cfg: Config, s: System, tag: Tag, time: int, first: nat, second: nat)
    requires Late(cfg, s, tag, time, first, second) && !LastIsMissing(cfg, s)
    ensures Doomed(cfg, s, tag, time) == true
  {
  }

  lemma AnswerIsReadval(cfg: Config, s: System, p: Packet, e: Event, spot: Spot, spot': Spot)
    requires 2 in s.nodes && s.nodes[2].Knows(0) && spot == Spot(s.nodes[2].registers[0], s.nodes[2].readLists[0])
    requires SpotStep(cfg, p, e, TheRead, spot, spot') && e.Completed? && IsProtocol(p.msg) && OpAt(p) == TheRead && spot.reg.reading
    ensures p.msg.Ack? && AnswerGiven(s.nodes[2], p.msg) == spot.reg.readval
  {
  }

  lemma ZeroStep(cfg: Config, s: System, p: Packet, s': System, e: Event)
    requires HasAll(cfg, s) && HasAll(cfg, s') && 2 in s.nodes && 2 in s'.nodes && 0 < cfg.Planned() && s.nodes[2].Knows(0)
    requires cfg.Reads(2, 0)
    requires SpotStep(cfg, p, e, TheRead, SpotOf(s, TheRead), SpotOf(s', TheRead)) && PhaseStep(cfg, s, p, s', e, TheRead)
    requires PartStep(cfg, s, p, s', e, TheRead) && |Part(s, TheRead)| == 1
    requires s.ops[TheRead].phase.Imposing? && AnswersZero(cfg, s)
    ensures AnswersZero(cfg, s') == true
  {
    if e.Completed? && IsProtocol(p.msg) && OpAt(p) == TheRead {
      AnswerIsReadval(cfg, s, p, e, SpotOf(s, TheRead), SpotOf(s', TheRead));
    }
  }

  lemma OpenPart(cfg: Config, s: System)
    requires HasAll(cfg, s) && s.ops[TheRead].phase.Imposing? && cfg.testing && Known(cfg, s) == true
    ensures 2 in s.nodes && |Part(s, TheRead)| == 1 && s.nodes[2].Knows(0)
  {
    KnownParts(cfg, s);
    OpenHasOneEntry(cfg, s, TheRead);
  }

  lemma ImposingStaysZero(cfg: Config, s: System, p: Packet, s': System, e: Event, sent: seq<Packet>)
    requires IsCrowded(cfg) && HasAll(cfg, s) && HasAll(cfg, s') && cfg.testing
    requires s.ops[TheRead].phase.Imposing? && AnswersZero(cfg, s) == true && Known(cfg, s) == true && Inv(cfg, s) == true
    requires Delivery(cfg, s, p, s', e, sent) == true
    ensures AnswersZero(cfg, s') == true
  {
    CrowdedKey(cfg);
    OpenPart(cfg, s);
    DeliverySpot(cfg, s, p, s', e, sent, TheRead);
    DeliveryPhases(cfg, s, p, s', e, sent, TheRead);
    DeliveryParts(cfg, s, p, s', e, sent, TheRead);
    ZeroStep(cfg, s, p, s', e);
  }

  lemma AnsweredZero(cfg: Config, s: System, s': System)
    requires HasAll(cfg, s) && HasAll(cfg, s') && AnswersZero(cfg, s) && s.ops[TheRead].phase.Responded?
    requires s'.ops[TheRead] == s.ops[TheRead] && 2 in s'.nodes && Part(s', TheRead) == Part(s, TheRead)
    ensures AnswersZero(cfg, s') == true
  {
  }

  lemma AnswerStaysZero(cfg: Config, s: System, p: Packet, s': System, e: Event, sent: seq<Packet>)
    requires IsCrowded(cfg) && HasAll(cfg, s) && HasAll(cfg, s') && cfg.testing && AnswersZero(cfg, s) == true
    requires s.ops[TheRead].phase.Imposing? || s.ops[TheRead].phase.Responded?
    requires Known(cfg, s) == true && Inv(cfg, s) == true && Delivery(cfg, s, p, s', e, sent) == true
    ensures AnswersZero(cfg, s') == true
  {
    if s.ops[TheRead].phase.Responded? {
      AnsweredStays(cfg, s, p, s', e, sent, TheRead);
      AnsweredZero(cfg, s, s');
    } else {
      ImposingStaysZero(cfg, s, p, s', e, sent);
    }
  }

  lemma DoomedParts(cfg: Config, s: System, tag: Tag, time: int)
    requires Doomed(cfg, s, tag, time)
    ensures HasAll(cfg, s) && FirstDone(cfg, s, tag, time) == true && AskedAfter(s, time) == true && AnswersZero(cfg, s) == true
    ensures s.ops[TheWrite].phase.Responded? && (s.ops[TheRead].phase.Imposing? || s.ops[TheRead].phase.Responded?)
  {
  }

  lemma DoomedKept(cfg: Config, s: System, p: Packet, s': System, e: Event, sent: seq<Packet>, tag: Tag, time: int)
    requires IsCrowded(cfg) && cfg.testing && Known(cfg, s) == true && Known(cfg, s') == true && Delivery(cfg, s, p, s', e, sent) == true
    requires Doomed(cfg, s, tag, time) == true
    ensures Doomed(cfg, s', tag, time) == true
  {
    KnownHasInv(cfg, s);
    DoomedParts(cfg, s, tag, time);
    AllStay(cfg, s, p, s', e, sent);
    FirstDoneKept(cfg, s, p, s', e, sent, tag, time);
    AskedKept(cfg, s, p, s', e, sent, time);
    AnswerStaysZero(cfg, s, p, s', e, sent);
  }

  lemma AllArrive(cfg: Config, tick: int, from: System, tag: Tag, time: int) returns (s: System)
    requires IsCrowded(cfg) && tick >= 0 && cfg.testing && Reachable(cfg, tick, from) == true && Doomed(cfg, from, tag, time) == true
    ensures Reachable(cfg, tick, s) == true && Doomed(cfg, s, tag, time) == true && NoneLeft(cfg, s, (s, p) => true) == true
  {
    var allowed := (s: System, p: Packet) => true;
    var holds := s => Doomed(cfg, s, tag, time);
    assert Preserves(cfg, tick, allowed, holds) by {
      forall s: System, p: Packet, s': System, e: Event, sent: seq<Packet> |
        Known(cfg, s) && Known(cfg, s') && holds(s) && allowed(s, p) && !IsStale(cfg, p) && s'.now == s.now + tick
        && Delivery(cfg, s, p, s', e, sent)
        ensures holds(s')
      {
        DoomedKept(cfg, s, p, s', e, sent, tag, time);
      }
    }
    s := DrainWhere(cfg, tick, from, allowed, holds);
  }

  // The results.

  lemma WritePrecedesRead(cfg: Config, s: System, arrival: seq<nat>, tag: Tag, time: int)
    requires IsCrowded(cfg) && Doomed(cfg, s, tag, time) && AllReported(cfg, s, arrival)
    requires Known(cfg, s) == true
    ensures Precedes(SortByTime(Results(s, arrival)), TheWrite, TheRead)
    ensures |Part(s, TheRead)| == 2 && Part(s, TheRead)[1].value == Some(0)
  {
    CrowdedKey(cfg);
    var h := SortByTime(Results(s, arrival));
    ResultsAreTrace(cfg, s, arrival);
    OpInResults(cfg, s, arrival, TheWrite);
    OpInResults(cfg, s, arrival, TheRead);
    SortSorts(Results(s, arrival));
    EarlierPrecedes(h, TheWrite, TheRead);
  }

  lemma DoomedResults(cfg: Config, s: System, tag: Tag, time: int) returns (arrival: seq<nat>)
    requires IsCrowded(cfg) && cfg.testing && Doomed(cfg, s, tag, time) == true
    requires Known(cfg, s) == true && NoneLeft(cfg, s, (s, p) => true) == true
    ensures AllReported(cfg, s, arrival) && !TraceLinearizable(Results(s, arrival))
  {
    KnownHasInv(cfg, s);
    CrowdedKey(cfg);
    arrival := Ranking(cfg.n);
    RankingIsArrival(cfg);
    AllDeliveredMeansReported(cfg, s, arrival);
    WritePrecedesRead(cfg, s, arrival, tag, time);
    StaleResults(cfg, s, arrival, TheWrite, TheRead);
  }

  lemma ReadIsDoomed(cfg: Config, tick: int) returns (s: System, tag: Tag, time: int)
    requires IsCrowded(cfg) && tick >= 1 && cfg.testing
    ensures Reachable(cfg, tick, s) == true && Doomed(cfg, s, tag, time) == true
  {
    var imposing, first, second;
    imposing, tag, time, first, second := ReadImposes(cfg, tick);
    ImposingIsLate(cfg, imposing, tag, time, first, second);
    s := LastArrives(cfg, tick, imposing, tag, time, first, second);
    ReachableInv(cfg, tick, s);
    LastHasArrived(cfg, s);
    LateIsDoomed(cfg, s, tag, time, first, second);
  }

  /**
   * Node 1's write has been answered when node 2's read is invoked, and the read answers 0. Replies with different timestamps
   * make the read impose; the reply of the last replica, which neither write has reached, then replaces its value.
   */
  lemma LateReplySpoilsResults(cfg: Config, tick: int) returns (s: System, arrival: seq<nat>)
    requires IsCrowded(cfg) && tick >= 1 && cfg.testing
    ensures Reachable(cfg, tick, s) && AllReported(cfg, s, arrival) && !TraceLinearizable(Results(s, arrival))
  {
    var doomed, tag, time := ReadIsDoomed(cfg, tick);
    s := AllArrive(cfg, tick, doomed, tag, time);
    ReachableIsKnown(cfg, tick, s);
    arrival := DoomedResults(cfg, s, tag, time);
  }
}
