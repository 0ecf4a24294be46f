/** Three or more nodes: a write completes without the last replica, and a second one overtakes it at one replica only. */
module RegisterOvertaking {
  import opened Collections
  import opened Histories
  import opened RegisterNode
  import opened RegisterProtocol
  import opened RegisterSafety
  import opened RegisterEvents
  import opened RegisterTheorems
  import opened RegisterTags
  import opened RegisterQuorum
  import opened RegisterResults
  import opened RegisterLogs
  import opened RegisterDetails
  import opened RegisterValues
  import opened RegisterParts
  import opened RegisterReach
  import opened RegisterQuiet
  import opened RegisterReports
  import opened RegisterSpots
  import opened RegisterWitness

  const SecondWrite: OpId := (0, 3)

  predicate IsCrowded(cfg: Config) {
    IsMixed(cfg) && cfg.n >= 3
  }

  /** The operation of the last node on key 0; its replica is left out. */
  function LastOp(cfg: Config): OpId {
    (0, cfg.n)
  }

  ghost predicate HasAll(cfg: Config, s: System) {
    HasShape(cfg, s) && 0 < cfg.numKeys && TheRead in s.ops && TheWrite in s.ops && SecondWrite in s.ops && LastOp(cfg) in s.ops
  }

  lemma CrowdedKey(cfg: Config)
    requires IsCrowded(cfg)
    ensures 0 < cfg.numKeys && 0 < cfg.Planned() && cfg.n - 1 > cfg.n / 2 && cfg.n / 2 >= 1
    ensures !cfg.Reads(1, 0) && cfg.Reads(2, 0) && !cfg.Reads(3, 0)
    ensures forall i | 1 <= i <= 3 :: i in cfg.Ranks() && PlannedOp(cfg, (0, i))
    ensures cfg.n in cfg.Ranks() && PlannedOp(cfg, LastOp(cfg))
  {
    MixedKey(cfg);
  }

  lemma AllStay(cfg: Config, s: System, p: Packet, s': System, e: Event, sent: seq<Packet>)
    requires Known(cfg, s) == true && Known(cfg, s') == true && Delivery(cfg, s, p, s', e, sent) == true && HasAll(cfg, s)
    ensures HasAll(cfg, s') == true
  {
    KnownHasInv(cfg, s);
    KnownHasInv(cfg, s');
    OpStays(cfg, s, p, s', e, sent, TheRead);
    OpStays(cfg, s, p, s', e, sent, TheWrite);
    OpStays(cfg, s, p, s', e, sent, SecondWrite);
    OpStays(cfg, s, p, s', e, sent, LastOp(cfg));
  }

  // The last replica keeps what it had at the start.

  ghost predicate Untouched(cfg: Config, s: System)
    requires HasAll(cfg, s)
  {
    EntryAt(SpotOf(s, LastOp(cfg)).reg) == Entry(0, 0, 0)
  }

  predicate AmongThree(who: set<nat>) {
    forall i | i in who :: i == 1 || i == 2 || i == 3
  }

  /** The last replica holds nothing, and only some of the first three nodes have started. */
  ghost predicate Calm(cfg: Config, s: System, who: set<nat>) {
    HasAll(cfg, s) && OnlyStarted(cfg, s, who) && AmongThree(who) && Untouched(cfg, s)
  }

  predicate WritesLast(cfg: Config, p: Packet) {
    IsCurrent(cfg, p) && p.msg.Write? && p.msg.key == 0 && p.dst == cfg.n
  }

  /** Only a Write or a skipping read changes what a replica holds. */
  lemma EntryStep(cfg: Config, p: Packet, e: Event, o: OpId, spot: Spot, spot': Spot)
    requires SpotStep(cfg, p, e, o, spot, spot') == true && Causes(cfg, p, e) == true && (e.Ignored? <==> IsStale(cfg, p))
    requires (e.Skipped? || e.Applied?) && IsProtocol(p.msg) ==> OpAt(p) != o
    ensures EntryAt(spot'.reg) == EntryAt(spot.reg)
  {
  }

  lemma EntryKept(cfg: Config, s: System, p: Packet, s': System, e: Event, sent: seq<Packet>, o: OpId)
    requires HasShape(cfg, s) && HasShape(cfg, s') && o in s.ops && o in s'.ops
    requires (e.Skipped? || e.Applied?) && IsProtocol(p.msg) ==> OpAt(p) != o
    requires Inv(cfg, s) == true && Delivery(cfg, s, p, s', e, sent) == true
    ensures EntryAt(SpotOf(s', o).reg) == EntryAt(SpotOf(s, o).reg)
  {
    DeliveryCauses(cfg, s, p, s', e, sent);
    DeliverySpot(cfg, s, p, s', e, sent, o);
    EntryStep(cfg, p, e, o, SpotOf(s, o), SpotOf(s', o));
  }

  lemma LastDoesNotSkip(cfg: Config, s: System, p: Packet, s': System, e: Event, sent: seq<Packet>, who: set<nat>)
    requires IsCrowded(cfg) && HasShape(cfg, s) == true && p in s.net && OnlyStarted(cfg, s, who) && AmongThree(who)
    requires Inv(cfg, s) == true && Delivery(cfg, s, p, s', e, sent) == true
    ensures e.Skipped? && IsProtocol(p.msg) ==> OpAt(p) != LastOp(cfg)
  {
    CrowdedKey(cfg);
    if e.Skipped? {
      SkippersRead(cfg, s, p, s', e, sent);
      MoverHasStarted(cfg, s, p, s', e, sent);
    }
  }

  lemma LastIsNotWritten(cfg: Config, p: Packet, e: Event)
    requires Causes(cfg, p, e) && (e.Ignored? <==> IsStale(cfg, p)) && !WritesLast(cfg, p)
    ensures e.Applied? && IsProtocol(p.msg) ==> OpAt(p) != LastOp(cfg)
  {
  }

  lemma SameEntry(cfg: Config, s: System, s': System)
    requires HasAll(cfg, s) && HasAll(cfg, s') && Untouched(cfg, s)
    requires EntryAt(SpotOf(s', LastOp(cfg)).reg) == EntryAt(SpotOf(s, LastOp(cfg)).reg)
    ensures Untouched(cfg, s') == true
  {
  }

  lemma UntouchedKept(cfg: Config, s: System, p: Packet, s': System, e: Event, sent: seq<Packet>, who: set<nat>)
    requires IsCrowded(cfg) && HasAll(cfg, s) && HasAll(cfg, s') && OnlyStarted(cfg, s, who) == true && AmongThree(who) == true
    requires Untouched(cfg, s) == true && !WritesLast(cfg, p)
    requires Inv(cfg, s) == true && Delivery(cfg, s, p, s', e, sent) == true
    ensures Untouched(cfg, s') == true
  {
    DeliveryCauses(cfg, s, p, s', e, sent);
    LastDoesNotSkip(cfg, s, p, s', e, sent, who);
    LastIsNotWritten(cfg, p, e);
    EntryKept(cfg, s, p, s', e, sent, LastOp(cfg));
    SameEntry(cfg, s, s');
  }

  lemma CalmKept(cfg: Config, s: System, p: Packet, s': System, e: Event, sent: seq<Packet>, who: set<nat>, who': set<nat>)
    requires IsCrowded(cfg) && Known(cfg, s) == true && Known(cfg, s') == true && Delivery(cfg, s, p, s', e, sent) == true
    requires Calm(cfg, s, who) == true && StartsAdd(p, who, who') == true && AmongThree(who') == true && !WritesLast(cfg, p)
    ensures Calm(cfg, s', who') == true
  {
    KnownHasInv(cfg, s);
    assert Calm(cfg, s, who);
    AllStay(cfg, s, p, s', e, sent);
    DeliveredIsInFlight(cfg, s, p, s', e, sent);
    OnlyStartedAfter(cfg, s, p, s', e, sent, who, who');
    UntouchedKept(cfg, s, p, s', e, sent, who);
  }

  // Everything but the messages to and from the last replica arrives.

  /** A message of the run in a slot of `o` is one of the last replica. */
  ghost predicate OnlyLast(cfg: Config, s: System, o: OpId) {
    forall q | q in s.net && IsCurrent(cfg, q) && SlotOf(q).op == o :: SlotOf(q).responder == cfg.n
  }

  lemma MostHaveArrived(cfg: Config, s: System, o: OpId)
    requires cfg.n >= 3 && OnlyLast(cfg, s, o)
    ensures |Replied(cfg, s, o)| > cfg.n / 2 && |Acked(cfg, s, o)| > cfg.n / 2
  {
    RanksSize(cfg);
    var most := cfg.Ranks() - {cfg.n};
    assert |most| == cfg.n - 1;
    assert most <= Replied(cfg, s, o) && most <= Acked(cfg, s, o);
    SubsetSize(most, Replied(cfg, s, o));
    SubsetSize(most, Acked(cfg, s, o));
  }

  lemma MostMeansAnswered(cfg: Config, s: System, o: OpId)
    requires Inv(cfg, s) == true && HasShape(cfg, s) == true && cfg.n >= 3 && OnlyLast(cfg, s, o) == true
    requires o in s.ops && Started(s, o.1) && o.0 < cfg.Planned()
    ensures s.ops[o].phase.Responded?
  {
    MostHaveArrived(cfg, s, o);
    StartedIsNotIdle(cfg, s, o);
    RepliesLeaveQuerying(cfg, s, o);
    AcksLeaveImposing(cfg, s, o);
  }

  predicate SkipsLast(cfg: Config, p: Packet) {
    IsProtocol(p.msg) && SlotOf(p).responder != cfg.n
  }

  lemma SkippingLast(cfg: Config, p: Packet, who: set<nat>)
    requires SkipsLast(cfg, p)
    ensures StartsAdd(p, who, who) == true && !WritesLast(cfg, p)
  {
  }

  lemma NoneLeftIsOnlyLast(cfg: Config, s: System, o: OpId)
    requires Inv(cfg, s) == true && NoneLeft(cfg, s, (s, p) => SkipsLast(cfg, p))
    ensures OnlyLast(cfg, s, o) == true
  {
    forall q | q in s.net && IsCurrent(cfg, q) && SlotOf(q).op == o ensures SlotOf(q).responder == cfg.n {
      assert PacketInv(cfg, s, q);
    }
  }

  // The first write.

  lemma {:induction false} NobodyIsCalm(cfg: Config, s: System)
    requires IsCrowded(cfg) && IsInitial(cfg, s) && s == StartSystem(cfg) && HasShape(cfg, s)
    ensures Calm(cfg, s, {}) == true && RunPacket(1) in s.net && 1 in s.nodes
  {
    CrowdedKey(cfg);
  }

  lemma Beginning(cfg: Config, tick: int) returns (s: System)
    requires IsCrowded(cfg)
    ensures Reachable(cfg, tick, s) == true && Calm(cfg, s, {}) == true && RunPacket(1) in s.net && 1 in s.nodes
  {
    s := StartSystem(cfg);
    StartIsReachable(cfg, tick);
    ReachableInv(cfg, tick, s);
    NobodyIsCalm(cfg, s);
  }

  lemma FirstStarts(cfg: Config)
    ensures StartsAdd(RunPacket(1), {}, {1}) == true && AmongThree({1}) == true && !WritesLast(cfg, RunPacket(1))
  {
  }

  lemma FirstBegins(cfg: Config, tick: int) returns (s: System)
    requires IsCrowded(cfg) && tick >= 0
    ensures Reachable(cfg, tick, s) == true && Calm(cfg, s, {1}) == true
  {
    var start := Beginning(cfg, tick);
    FirstStarts(cfg);
    var e, sent;
    s, e, sent := ReachStart(cfg, tick, start, 1);
    CalmKept(cfg, start, RunPacket(1), s, e, sent, {}, {1});
  }

  lemma FirstKeepsCalm(cfg: Config, s: System, p: Packet, s': System, e: Event, sent: seq<Packet>)
    requires IsCrowded(cfg) && Known(cfg, s) == true && Known(cfg, s') == true && Delivery(cfg, s, p, s', e, sent) == true
    requires Calm(cfg, s, {1}) == true && SkipsLast(cfg, p) == true
    ensures Calm(cfg, s', {1}) == true
  {
    FirstStarts(cfg);
    SkippingLast(cfg, p, {1});
    CalmKept(cfg, s, p, s', e, sent, {1}, {1});
  }

  lemma FirstArrives(cfg: Config, tick: int, first: System) returns (s: System)
    requires IsCrowded(cfg) && tick >= 0 && Reachable(cfg, tick, first) == true && Calm(cfg, first, {1}) == true
    ensures Reachable(cfg, tick, s) == true && Calm(cfg, s, {1}) == true && NoneLeft(cfg, s, (s, p) => SkipsLast(cfg, p)) == true
  {
    var allowed := (s: System, p: Packet) => SkipsLast(cfg, p);
    var holds := s => Calm(cfg, s, {1});
    assert Preserves(cfg, tick, allowed, holds) by {
      forall s: System, p: Packet, s': System, e: Event, sent: seq<Packet> |
        Known(cfg, s) && Known(cfg, s') && holds(s) && allowed(s, p) && !IsStale(cfg, p) && s'.now == s.now + tick
        && Delivery(cfg, s, p, s', e, sent)
        ensures holds(s')
      {
        FirstKeepsCalm(cfg, s, p, s', e, sent);
      }
    }
    s := DrainWhere(cfg, tick, first, allowed, holds);
  }

  // The second write.

  /** The first write was answered by the time `time`, with `tag`. */
  ghost predicate FirstDone(cfg: Config, s: System, tag: Tag, time: int)
    requires HasAll(cfg, s)
  {
    && s.ops[TheWrite].phase == Responded(Some(tag)) && time <= s.now
    && |Part(s, TheWrite)| == 2 && Part(s, TheWrite)[1].time <= time
  }

  lemma FirstDoneStep(cfg: Config, s: System, s': System, tag: Tag, time: int)
    requires HasAll(cfg, s) && HasAll(cfg, s') && FirstDone(cfg, s, tag, time) && s.now <= s'.now
    requires s'.ops[TheWrite] == s.ops[TheWrite] && Part(s', TheWrite) == Part(s, TheWrite)
    ensures FirstDone(cfg, s', tag, time) == true
  {
  }

  lemma FirstDoneKept(cfg: Config, s: System, p: Packet, s': System, e: Event, sent: seq<Packet>, tag: Tag, time: int)
    requires HasAll(cfg, s) && HasAll(cfg, s') && FirstDone(cfg, s, tag, time) == true && s.ops[TheWrite].phase.Responded? && cfg.testing
    requires Inv(cfg, s) == true && Delivery(cfg, s, p, s', e, sent) == true
    ensures FirstDone(cfg, s', tag, time) == true
  {
    AnsweredStays(cfg, s, p, s', e, sent, TheWrite);
    DeliveredIsInFlight(cfg, s, p, s', e, sent);
    FirstDoneStep(cfg, s, s', tag, time);
  }

  /** The second write knows of the first, and its Write has not been delivered to node 2. */
  ghost predicate Overtaking(cfg: Config, s: System, tag: Tag)
    requires HasAll(cfg, s)
  {
    && (s.ops[SecondWrite].phase.Idle? || tag in s.ops[SecondWrite].floor)
    && (s.ops[SecondWrite].phase.HasTag() ==> Pending(cfg, s.net, SecondWrite, 2))
  }

  lemma DeliveryTags(cfg: Config, s: System, p: Packet, s': System, e: Event, sent: seq<Packet>)
    requires HasShape(cfg, s') && Inv(cfg, s) == true && Delivery(cfg, s, p, s', e, sent)
    ensures HasShape(cfg, s) && TagStep(cfg, s, p, s') == true
  {
    StepsAreTagSteps(cfg, s, p, s', e, sent);
  }

  lemma OvertakingStep(cfg: Config, s: System, p: Packet, s': System, e: Event, tag: Tag)
    requires HasAll(cfg, s) && HasAll(cfg, s') && 2 in cfg.Ranks() && Overtaking(cfg, s, tag) && s.ops[TheWrite].phase == Responded(Some(tag))
    requires PhaseStep(cfg, s, p, s', e, SecondWrite) && PendingWrites(cfg, s, p, s', SecondWrite) && !IsWriteIn(cfg, p, SecondWrite, 2)
    ensures Overtaking(cfg, s', tag) == true
  {
    assert tag in CompletedTags(s.ops, 0);
  }

  lemma OvertakingKept(cfg: Config, s: System, p: Packet, s': System, e: Event, sent: seq<Packet>, tag: Tag)
    requires IsCrowded(cfg) && HasAll(cfg, s) && HasAll(cfg, s') && Overtaking(cfg, s, tag) && s.ops[TheWrite].phase == Responded(Some(tag))
    requires !IsWriteIn(cfg, p, SecondWrite, 2)
    requires Inv(cfg, s) == true && Delivery(cfg, s, p, s', e, sent) == true
    ensures Overtaking(cfg, s', tag) == true
  {
    CrowdedKey(cfg);
    DeliveryTags(cfg, s, p, s', e, sent);
    DeliveryPhases(cfg, s, p, s', e, sent, SecondWrite);
    SecondPending(cfg, s, p, s');
    OvertakingStep(cfg, s, p, s', e, tag);
  }

  lemma SecondPending(cfg: Config, s: System, p: Packet, s': System)
    requires HasAll(cfg, s) && HasAll(cfg, s') && TagStep(cfg, s, p, s')
    ensures PendingWrites(cfg, s, p, s', SecondWrite) == true
  {
  }

  lemma AnsweredParts(cfg: Config, s: System, o: OpId)
    requires Known(cfg, s) == true && HasShape(cfg, s) == true && cfg.testing && o in s.ops && s.ops[o].phase.Responded?
    ensures o.1 in s.nodes && |Part(s, o)| == 2 && Part(s, o)[1].time <= s.now
  {
    KnownParts(cfg, s);
    OpenHasOneEntry(cfg, s, o);
    PartTimes(cfg, s, o);
    assert Part(s, o)[1] in Part(s, o);
  }

  /** The second write is on its way, `tag` and `time` being those of the first. */
  ghost predicate Second(cfg: Config, s: System, who: set<nat>, tag: Tag, time: int) {
    Calm(cfg, s, who) && FirstDone(cfg, s, tag, time) && Overtaking(cfg, s, tag)
  }

  lemma AnsweredWrite(cfg: Config, s: System, o: OpId) returns (tag: Tag)
    requires Inv(cfg, s) && o in s.ops && s.ops[o].phase.Responded? && !cfg.Reads(o.1, o.0)
    ensures s.ops[o].phase == Responded(Some(tag))
  {
    assert OpInv(cfg, s, o);
    tag := s.ops[o].phase.imposed.value;
  }

  lemma FirstIsDone(cfg: Config, s: System) returns (tag: Tag)
    requires IsCrowded(cfg) && cfg.testing && HasAll(cfg, s) && OnlyStarted(cfg, s, {1})
    requires Known(cfg, s) == true && NoneLeft(cfg, s, (s, p) => SkipsLast(cfg, p)) == true
    ensures FirstDone(cfg, s, tag, s.now) == true
  {
    KnownHasInv(cfg, s);
    CrowdedKey(cfg);
    NoneLeftIsOnlyLast(cfg, s, TheWrite);
    MostMeansAnswered(cfg, s, TheWrite);
    tag := AnsweredWrite(cfg, s, TheWrite);
    AnsweredParts(cfg, s, TheWrite);
  }

  lemma SecondWaits(cfg: Config, s: System)
    requires IsCrowded(cfg) && HasAll(cfg, s) && OnlyStarted(cfg, s, {1})
    ensures RunPacket(3) in s.net && 3 in s.nodes
  {
    CrowdedKey(cfg);
    assert 3 in cfg.Ranks() && !Started(s, 3);
  }

  lemma IdleIsOvertaking(cfg: Config, s: System, tag: Tag)
    requires HasAll(cfg, s) && s.ops[SecondWrite].phase.Idle?
    ensures Overtaking(cfg, s, tag) == true
  {
  }

  lemma SecondIsReady(cfg: Config, s: System, tag: Tag)
    requires IsCrowded(cfg) && HasAll(cfg, s) && OnlyStarted(cfg, s, {1}) == true && Inv(cfg, s) == true
    ensures Overtaking(cfg, s, tag) == true && RunPacket(3) in s.net && 3 in s.nodes
  {
    SecondWaits(cfg, s);
    UnstartedIsIdle(cfg, s, SecondWrite);
    IdleIsOvertaking(cfg, s, tag);
  }

  lemma FirstThenSecond(cfg: Config, s: System) returns (tag: Tag)
    requires IsCrowded(cfg) && cfg.testing && Calm(cfg, s, {1})
    requires Known(cfg, s) == true && NoneLeft(cfg, s, (s, p) => SkipsLast(cfg, p)) == true
    ensures Second(cfg, s, {1}, tag, s.now) == true && RunPacket(3) in s.net && 3 in s.nodes
  {
    KnownHasInv(cfg, s);
    tag := FirstIsDone(cfg, s);
    SecondIsReady(cfg, s, tag);
  }

  predicate SkipsTwo(cfg: Config, p: Packet) {
    SkipsLast(cfg, p) && SlotOf(p) != Impose(SecondWrite, 2)
  }

  lemma SecondKept(cfg: Config, s: System, p: Packet, s': System, e: Event, sent: seq<Packet>, who: set<nat>, who': set<nat>, tag: Tag, time: int)
    requires IsCrowded(cfg) && cfg.testing && Known(cfg, s) == true && Known(cfg, s') == true && Delivery(cfg, s, p, s', e, sent) == true
    requires Second(cfg, s, who, tag, time) == true && StartsAdd(p, who, who') == true && AmongThree(who') == true
    requires !WritesLast(cfg, p) && !IsWriteIn(cfg, p, SecondWrite, 2)
    ensures Second(cfg, s', who', tag, time) == true
  {
    KnownHasInv(cfg, s);
    CalmKept(cfg, s, p, s', e, sent, who, who');
    FirstDoneKept(cfg, s, p, s', e, sent, tag, time);
    OvertakingKept(cfg, s, p, s', e, sent, tag);
  }

  lemma SecondStarts(cfg: Config)
    ensures StartsAdd(RunPacket(3), {1}, {1, 3}) == true && AmongThree({1, 3}) == true
    ensures !WritesLast(cfg, RunPacket(3)) && !IsWriteIn(cfg, RunPacket(3), SecondWrite, 2)
  {
  }

  lemma SkippingTwo(cfg: Config, p: Packet, who: set<nat>)
    requires SkipsTwo(cfg, p)
    ensures StartsAdd(p, who, who) == true && !WritesLast(cfg, p) && !IsWriteIn(cfg, p, SecondWrite, 2)
  {
  }

  lemma SecondBegins(cfg: Config, tick: int) returns (s: System, tag: Tag, time: int)
    requires IsCrowded(cfg) && tick >= 0 && cfg.testing
    ensures Reachable(cfg, tick, s) == true && Second(cfg, s, {1, 3}, tag, time) == true
  {
    var first := FirstBegins(cfg, tick);
    var start := FirstArrives(cfg, tick, first);
    ReachableIsKnown(cfg, tick, start);
    tag := FirstThenSecond(cfg, start);
    time := start.now;
    SecondStarts(cfg);
    var e, sent;
    s, e, sent := ReachStart(cfg, tick, start, 3);
    SecondKept(cfg, start, RunPacket(3), s, e, sent, {1}, {1, 3}, tag, time);
  }

  lemma SecondGoesOn(cfg: Config, s: System, p: Packet, s': System, e: Event, sent: seq<Packet>, tag: Tag, time: int)
    requires IsCrowded(cfg) && cfg.testing && Known(cfg, s) == true && Known(cfg, s') == true && Delivery(cfg, s, p, s', e, sent) == true
    requires Second(cfg, s, {1, 3}, tag, time) == true && SkipsTwo(cfg, p) == true
    ensures Second(cfg, s', {1, 3}, tag, time) == true
  {
    SecondStarts(cfg);
    SkippingTwo(cfg, p, {1, 3});
    SecondKept(cfg, s, p, s', e, sent, {1, 3}, {1, 3}, tag, time);
  }

  lemma SecondArrives(cfg: Config, tick: int, first: System, tag: Tag, time: int) returns (s: System)
    requires IsCrowded(cfg) && tick >= 0 && cfg.testing && Reachable(cfg, tick, first) == true && Second(cfg, first, {1, 3}, tag, time) == true
    ensures Reachable(cfg, tick, s) == true && Second(cfg, s, {1, 3}, tag, time) == true
    ensures NoneLeft(cfg, s, (s, p) => SkipsTwo(cfg, p)) == true
  {
    var allowed := (s: System, p: Packet) => SkipsTwo(cfg, p);
    var holds := s => Second(cfg, s, {1, 3}, tag, time);
    assert Preserves(cfg, tick, allowed, holds) by {
      forall s: System, p: Packet, s': System, e: Event, sent: seq<Packet> |
        Known(cfg, s) && Known(cfg, s') && holds(s) && allowed(s, p) && !IsStale(cfg, p) && s'.now == s.now + tick
        && Delivery(cfg, s, p, s', e, sent)
        ensures holds(s')
      {
        SecondGoesOn(cfg, s, p, s', e, sent, tag, time);
      }
    }
    s := DrainWhere(cfg, tick, first, allowed, holds);
  }

  // Node 1 holds the tag of the second write, node 2 does not.

  lemma OnlyLastAndTwo(cfg: Config, s: System)
    requires Inv(cfg, s) == true && NoneLeft(cfg, s, (s, p) => SkipsTwo(cfg, p))
    ensures forall q | q in s.net && IsCurrent(cfg, q) :: SlotOf(q).responder == cfg.n || SlotOf(q) == Impose(SecondWrite, 2)
  {
    forall q | q in s.net && IsCurrent(cfg, q) ensures SlotOf(q).responder == cfg.n || SlotOf(q) == Impose(SecondWrite, 2) {
      assert PacketInv(cfg, s, q);
    }
  }

  lemma SecondHasReplies(cfg: Config, s: System)
    requires cfg.n >= 3
    requires forall q | q in s.net && IsCurrent(cfg, q) :: SlotOf(q).responder == cfg.n || SlotOf(q) == Impose(SecondWrite, 2)
    ensures |Replied(cfg, s, SecondWrite)| > cfg.n / 2 && !Pending(cfg, s.net, SecondWrite, 1)
  {
    RanksSize(cfg);
    var most := cfg.Ranks() - {cfg.n};
    assert |most| == cfg.n - 1 && most <= Replied(cfg, s, SecondWrite);
    SubsetSize(most, Replied(cfg, s, SecondWrite));
  }

  lemma ActiveWriteHasTag(cfg: Config, s: System, o: OpId)
    requires Inv(cfg, s) && o in s.ops && !cfg.Reads(o.1, o.0) && !s.ops[o].phase.Idle? && !s.ops[o].phase.Querying?
    ensures s.ops[o].phase.HasTag()
  {
    assert OpInv(cfg, s, o);
  }

  lemma KnowingWriteIsLater(cfg: Config, s: System, o: OpId, tag: Tag)
    requires FullInv(cfg, s) && o in s.ops && !cfg.Reads(o.1, o.0) && s.ops[o].phase.HasTag() && tag in s.ops[o].floor
    ensures s.ops[o].phase.TheTag().ts > tag.ts
  {
    assert RespectsFloor(cfg, s, o);
    assert RespectsTag(cfg, s, o, tag);
  }

  lemma SecondIsLater(cfg: Config, s: System, tag: Tag, time: int)
    requires IsCrowded(cfg) && FullInv(cfg, s) == true && Inv(cfg, s) == true && Second(cfg, s, {1, 3}, tag, time)
    requires NoneLeft(cfg, s, (s, p) => SkipsTwo(cfg, p)) == true
    ensures HasTag(s, SecondWrite) && s.ops[SecondWrite].phase.TheTag().ts > tag.ts && !Pending(cfg, s.net, SecondWrite, 1)
  {
    CrowdedKey(cfg);
    OnlyLastAndTwo(cfg, s);
    SecondHasReplies(cfg, s);
    StartedIsNotIdle(cfg, s, SecondWrite);
    RepliesLeaveQuerying(cfg, s, SecondWrite);
    ActiveWriteHasTag(cfg, s, SecondWrite);
    KnowingWriteIsLater(cfg, s, SecondWrite, tag);
  }

  /** The replicas that lag behind: node 2 was reached by the first write only. */
  lemma SecondNodeLags(cfg: Config, s: System, tag: Tag, time: int)
    requires IsCrowded(cfg) && Second(cfg, s, {1, 3}, tag, time) && HasTag(s, SecondWrite)
    requires HoldsMaximum(cfg, s, 2, 0) && forall o | o in s.ops && o.1 != 1 && o.1 != 3 :: s.ops[o].phase.Idle?
    ensures TagAt(s, 2, 0).ts <= tag.ts
  {
    if TagAt(s, 2, 0) != ZeroTag {
      var o: OpId :| o.0 == 0 && Delivered(cfg, s, o, TagAt(s, 2, 0), 2);
      assert o == TheWrite || o == SecondWrite;
    }
  }

  lemma OthersIdle(cfg: Config, s: System, who: set<nat>)
    requires HasShape(cfg, s) == true && OnlyStarted(cfg, s, who) && Inv(cfg, s) == true
    ensures forall o | o in s.ops && o.1 !in who :: s.ops[o].phase.Idle?
  {
    assert Inv(cfg, s);
    forall o | o in s.ops && o.1 !in who ensures s.ops[o].phase.Idle? {
      UnstartedIsIdle(cfg, s, o);
    }
  }

  /** Node 1 holds a later timestamp than node 2. */
  ghost predicate Split(cfg: Config, s: System)
    requires HasAll(cfg, s)
  {
    1 in s.nodes && 2 in s.nodes && TagAt(s, 1, 0).ts > TagAt(s, 2, 0).ts
  }

  lemma FirstIsHeld(cfg: Config, s: System)
    requires IsCrowded(cfg) && HasAll(cfg, s) && HasTag(s, SecondWrite) && !Pending(cfg, s.net, SecondWrite, 1) && FullInv(cfg, s) == true
    ensures 1 in s.nodes && TagAt(s, 1, 0).AtLeast(s.ops[SecondWrite].phase.TheTag())
  {
    CrowdedKey(cfg);
    DeliveredIsHeld(cfg, s, SecondWrite, 1);
  }

  lemma HoldsMaximumOf(cfg: Config, s: System, j: nat, key: nat)
    requires FullInv(cfg, s) && j in cfg.Ranks() && key < cfg.numKeys
    ensures HasShape(cfg, s) && HoldsMaximum(cfg, s, j, key) == true
  {
  }

  lemma NodesSplit(cfg: Config, s: System, tag: Tag, time: int)
    requires IsCrowded(cfg) && HasAll(cfg, s) && Second(cfg, s, {1, 3}, tag, time) == true && OnlyStarted(cfg, s, {1, 3}) == true
    requires HasTag(s, SecondWrite) && s.ops[SecondWrite].phase.TheTag().ts > tag.ts && !Pending(cfg, s.net, SecondWrite, 1)
    requires FullInv(cfg, s) == true && Inv(cfg, s) == true
    ensures Split(cfg, s) == true
  {
    CrowdedKey(cfg);
    FirstIsHeld(cfg, s);
    HoldsMaximumOf(cfg, s, 2, 0);
    OthersIdle(cfg, s, {1, 3});
    SecondNodeLags(cfg, s, tag, time);
  }

  lemma SecondOvertakes(cfg: Config, s: System, tag: Tag, time: int)
    requires IsCrowded(cfg) && Second(cfg, s, {1, 3}, tag, time)
    requires Known(cfg, s) == true && NoneLeft(cfg, s, (s, p) => SkipsTwo(cfg, p)) == true
    ensures Split(cfg, s) == true
  {
    FullInvOf(cfg, s);
    SecondIsLater(cfg, s, tag, time);
    NodesSplit(cfg, s, tag, time);
  }

  /** The state from which a read goes wrong. */
  ghost predicate Overtaken(cfg: Config, s: System, tag: Tag, time: int) {
    Calm(cfg, s, {1, 3}) && FirstDone(cfg, s, tag, time) && Split(cfg, s)
  }

  lemma OvertakenIsReached(cfg: Config, tick: int) returns (s: System, tag: Tag, time: int)
    requires IsCrowded(cfg) && tick >= 0 && cfg.testing
    ensures Reachable(cfg, tick, s) == true && Overtaken(cfg, s, tag, time) == true
  {
    var first;
    first, tag, time := SecondBegins(cfg, tick);
    s := SecondArrives(cfg, tick, first, tag, time);
    ReachableIsKnown(cfg, tick, s);
    SecondOvertakes(cfg, s, tag, time);
  }
}
