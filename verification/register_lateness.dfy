/** A read that asks after one write has completed answers 0: the reply of the last replica arrives late and replaces its value. */
module RegisterLateness {
  import opened Collections
  import opened Histories
  import opened Linearizability
  import opened Locality
  import opened Verdicts
  import opened RegisterNode
  import opened RegisterProtocol
  import opened RegisterSafety
  import opened RegisterEvents
  import opened RegisterTheorems
  import opened RegisterTags
  import opened RegisterResults
  import opened RegisterLogs
  import opened RegisterDetails
  import opened RegisterValues
  import opened RegisterParts
  import opened RegisterReach
  import opened RegisterQuiet
  import opened RegisterReports
  import opened RegisterSpots
  import opened RegisterWitness
  import opened RegisterOvertaking

  // What stays as it is while the messages of the read travel.

  /** A request of the read, or a reply to it. */
  predicate OfRead(cfg: Config, p: Packet) {
    IsCurrent(cfg, p) && (p.msg.Read? || p.msg.Value?) && SlotOf(p).op == TheRead
  }

  /** The timestamps that nodes 1 and 2 hold. */
  ghost predicate Holding(cfg: Config, s: System, first: nat, second: nat)
    requires HasAll(cfg, s)
  {
    1 in s.nodes && 2 in s.nodes && TagAt(s, 1, 0).ts == first && TagAt(s, 2, 0).ts == second
  }

  /** Replies carry what their senders hold. */
  ghost predicate RepliesCarry(cfg: Config, s: System, first: nat, second: nat) {
    forall q | q in s.net && IsValueFor(cfg, q, TheRead) ::
      && (q.src == 1 ==> q.msg.ts == first) && (q.src == 2 ==> q.msg.ts == second)
      && (q.src == cfg.n ==> q.msg.value == 0)
  }

  /** The read was invoked after `time`. */
  ghost predicate AskedAfter(s: System, time: int) {
    2 in s.nodes && Part(s, TheRead) != [] && Part(s, TheRead)[0].time > time
  }

  ghost predicate Stage(cfg: Config, s: System, tag: Tag, time: int, first: nat, second: nat) {
    && Calm(cfg, s, {1, 2, 3}) && FirstDone(cfg, s, tag, time) && Holding(cfg, s, first, second)
    && RepliesCarry(cfg, s, first, second) && AskedAfter(s, time)
  }

  lemma HoldingStep(cfg: Config, s: System, p: Packet, s': System, first: nat, second: nat)
    requires HasAll(cfg, s) && HasAll(cfg, s') && Holding(cfg, s, first, second) && ReplicaTags(cfg, s, p, s')
    requires IsCurrent(cfg, p) ==> !p.msg.Write?
    ensures Holding(cfg, s', first, second) == true
  {
  }

  lemma HoldingKept(cfg: Config, s: System, p: Packet, s': System, e: Event, sent: seq<Packet>, first: nat, second: nat)
    requires HasAll(cfg, s) && HasAll(cfg, s') && Holding(cfg, s, first, second) == true && (IsCurrent(cfg, p) ==> !p.msg.Write?)
    requires Inv(cfg, s) == true && Delivery(cfg, s, p, s', e, sent) == true
    ensures Holding(cfg, s', first, second) == true
  {
    DeliveryTags(cfg, s, p, s', e, sent);
    TagsOfStep(cfg, s, p, s');
    HoldingStep(cfg, s, p, s', first, second);
  }

  lemma TagsOfStep(cfg: Config, s: System, p: Packet, s': System)
    requires HasShape(cfg, s) && HasShape(cfg, s') && TagStep(cfg, s, p, s')
    ensures ReplicaTags(cfg, s, p, s') == true
  {
  }

  lemma CarryStep(cfg: Config, s: System, p: Packet, s': System, e: Event, first: nat, second: nat)
    requires HasAll(cfg, s) && Holding(cfg, s, first, second) && Untouched(cfg, s) && RepliesCarry(cfg, s, first, second)
    requires NetStep(cfg, s, p, s', e)
    ensures RepliesCarry(cfg, s', first, second) == true
  {
    forall q | q in s'.net && q !in s.net && IsValueFor(cfg, q, TheRead)
      ensures e.Told? && p.msg.Read? && OpAt(p) == (0, q.src) && OpAt(p) in s.ops && q == ReplyTo(p, SpotOf(s, OpAt(p)).reg)
    {
    }
  }

  lemma CarryKept(cfg: Config, s: System, p: Packet, s': System, e: Event, sent: seq<Packet>, first: nat, second: nat)
    requires HasAll(cfg, s) && Holding(cfg, s, first, second) && Untouched(cfg, s) && RepliesCarry(cfg, s, first, second) == true
    requires Inv(cfg, s) == true && Delivery(cfg, s, p, s', e, sent) == true
    ensures RepliesCarry(cfg, s', first, second) == true
  {
    DeliveryNet(cfg, s, p, s', e, sent);
    CarryStep(cfg, s, p, s', e, first, second);
  }

  lemma AskedStep(cfg: Config, s: System, p: Packet, s': System, e: Event, time: int)
    requires 2 in s.nodes && 2 in s'.nodes && PartStep(cfg, s, p, s', e, TheRead)
    requires AskedAfter(s, time) || (p.msg.Run? && p.dst == 2 && e.Invoked? && 0 < cfg.Planned() && Part(s, TheRead) == [] && s'.now > time)
    ensures AskedAfter(s', time) == true
  {
  }

  lemma AskedKept(cfg: Config, s: System, p: Packet, s': System, e: Event, sent: seq<Packet>, time: int)
    requires HasAll(cfg, s) && HasAll(cfg, s') && cfg.testing && AskedAfter(s, time)
    requires Inv(cfg, s) == true && Delivery(cfg, s, p, s', e, sent) == true
    ensures AskedAfter(s', time) == true
  {
    DeliveryParts(cfg, s, p, s', e, sent, TheRead);
    AskedStep(cfg, s, p, s', e, time);
  }

  lemma ReadIsCalm(cfg: Config, p: Packet)
    requires OfRead(cfg, p)
    ensures StartsAdd(p, {1, 2, 3}, {1, 2, 3}) == true && AmongThree({1, 2, 3}) == true && !WritesLast(cfg, p)
    ensures IsCurrent(cfg, p) ==> !p.msg.Write?
  {
  }

  lemma StageKept(cfg: Config, s: System, p: Packet, s': System, e: Event, sent: seq<Packet>, tag: Tag, time: int, first: nat, second: nat)
    requires IsCrowded(cfg) && cfg.testing && Known(cfg, s) == true && Known(cfg, s') == true && Delivery(cfg, s, p, s', e, sent) == true
    requires Stage(cfg, s, tag, time, first, second) == true && OfRead(cfg, p) == true
    ensures Stage(cfg, s', tag, time, first, second) == true
  {
    KnownHasInv(cfg, s);
    ReadIsCalm(cfg, p);
    StageParts(cfg, s, tag, time, first, second);
    CalmKept(cfg, s, p, s', e, sent, {1, 2, 3}, {1, 2, 3});
    AllStay(cfg, s, p, s', e, sent);
    FirstDoneKept(cfg, s, p, s', e, sent, tag, time);
    HoldingKept(cfg, s, p, s', e, sent, first, second);
    CarryKept(cfg, s, p, s', e, sent, first, second);
    AskedKept(cfg, s, p, s', e, sent, time);
  }

  lemma StageParts(cfg: Config, s: System, tag: Tag, time: int, first: nat, second: nat)
    requires Stage(cfg, s, tag, time, first, second)
    ensures Calm(cfg, s, {1, 2, 3}) == true && HasAll(cfg, s) && FirstDone(cfg, s, tag, time) == true && s.ops[TheWrite].phase.Responded?
    ensures Holding(cfg, s, first, second) == true && Untouched(cfg, s) == true && RepliesCarry(cfg, s, first, second) == true
    ensures AskedAfter(s, time) == true
  {
  }

  // How the read moves.

  /** A message of the read leaves its register and phase alone, or is one more reply. */
  ghost predicate Moves(cfg: Config, p: Packet, e: Event, spot: Spot, spot': Spot, phase: OpPhase, phase': OpPhase) {
    if p.msg.Read? then spot' == spot && phase' == phase
    else
      && p.msg.Value? && OpAt(p) == TheRead
      && var list := spot.list[p.src := EntryOf(p.msg)];
         match e
         case Noted => phase' == phase && spot' == Spot(Noting(spot, p.msg), list)
         case Skipped => phase.Querying? && |list| > cfg.n / 2 && Noting(spot, p.msg).skipImpose && phase'.Responded?
         case Imposed(_) =>
           && phase.Querying? && |list| > cfg.n / 2 && phase'.Imposing?
           && spot'.list == map[] && spot'.reg.reading == spot.reg.reading
         case _ => false
  }

  ghost predicate ReadStep(cfg: Config, s: System, p: Packet, s': System, e: Event) {
    && HasAll(cfg, s) && HasAll(cfg, s')
    && Moves(cfg, p, e, SpotOf(s, TheRead), SpotOf(s', TheRead), s.ops[TheRead].phase, s'.ops[TheRead].phase)
  }

  lemma MovesStep(cfg: Config, s: System, p: Packet, s': System, e: Event)
    requires HasAll(cfg, s) && HasAll(cfg, s') && OfRead(cfg, p) && Causes(cfg, p, e) && (e.Ignored? <==> IsStale(cfg, p))
    requires SpotStep(cfg, p, e, TheRead, SpotOf(s, TheRead), SpotOf(s', TheRead)) && PhaseStep(cfg, s, p, s', e, TheRead)
    ensures ReadStep(cfg, s, p, s', e) == true
  {
  }

  lemma ReadMoves(cfg: Config, s: System, p: Packet, s': System, e: Event, sent: seq<Packet>)
    requires HasAll(cfg, s) && HasAll(cfg, s') && OfRead(cfg, p) == true
    requires Inv(cfg, s) == true && Delivery(cfg, s, p, s', e, sent) == true
    ensures ReadStep(cfg, s, p, s', e) == true
  {
    DeliveryCauses(cfg, s, p, s', e, sent);
    DeliverySpot(cfg, s, p, s', e, sent, TheRead);
    DeliveryPhases(cfg, s, p, s', e, sent, TheRead);
    MovesStep(cfg, s, p, s', e);
  }

  /** The reply of the last replica is still to come. */
  ghost predicate LastIsMissing(cfg: Config, s: System) {
    Query(TheRead, cfg.n) in Flying(cfg, s.net)
  }

  lemma MissingKept(cfg: Config, s: System, p: Packet, s': System, e: Event)
    requires HasShape(cfg, s) && NetStep(cfg, s, p, s', e) && LastIsMissing(cfg, s)
    requires IsProtocol(p.msg) ==> SlotOf(p) != Query(TheRead, cfg.n)
    ensures LastIsMissing(cfg, s') == true
  {
    var q :| q in s.net && IsCurrent(cfg, q) && SlotOf(q) == Query(TheRead, cfg.n);
    assert q in s'.net;
  }

  /**
   * Three steps: the reply of node 1 arrives first; then that of node 2, which carries another timestamp;
   * then those of others, until the read imposes.
   */
  predicate Control(step: nat, first: nat, spot: Spot, phase: OpPhase) {
    && spot.reg.reading
    && if step == 1 then phase.Querying? && (spot.list == map[] || (spot.list.Keys == {1} && spot.reg.firstReceivedTs == first))
       else
         || (phase.Imposing? && spot.list == map[])
         || (phase.Querying? && spot.list != map[]
             && if step == 2 then spot.reg.firstReceivedTs == first && (2 in spot.list ==> !spot.reg.skipImpose)
                else !spot.reg.skipImpose)
  }

  /** The messages of each step. */
  predicate Wanted(cfg: Config, step: nat, s: System, p: Packet) {
    && OfRead(cfg, p) && TheRead in s.ops && s.ops[TheRead].phase.Querying?
    && if step == 1 then SlotOf(p).responder == 1
       else if step == 2 then SlotOf(p).responder == 2
       else SlotOf(p).responder != cfg.n
  }

  lemma ControlStep(cfg: Config, step: nat, first: nat, second: nat, p: Packet, e: Event, spot: Spot, spot': Spot, phase: OpPhase, phase': OpPhase)
    requires Moves(cfg, p, e, spot, spot', phase, phase') && Control(step, first, spot, phase) && phase.Querying? && OfRead(cfg, p)
    requires step == 1 ==> SlotOf(p).responder == 1
    requires step == 2 ==> SlotOf(p).responder == 2
    requires p.msg.Value? ==> (p.src == 1 ==> p.msg.ts == first) && (p.src == 2 ==> p.msg.ts == second)
    requires first > second && cfg.n / 2 >= 1
    ensures Control(step, first, spot', phase') == true
  {
    if p.msg.Value? && step == 1 {
      var list := spot.list[p.src := EntryOf(p.msg)];
      assert list.Keys == {1};
      assert |list| == |list.Keys|;
    }
  }

  ghost predicate Asking(cfg: Config, s: System, step: nat, tag: Tag, time: int, first: nat, second: nat) {
    Stage(cfg, s, tag, time, first, second) && LastIsMissing(cfg, s) && Controlled(cfg, s, step, first)
  }

  lemma AskingParts(cfg: Config, s: System, step: nat, tag: Tag, time: int, first: nat, second: nat)
    requires Asking(cfg, s, step, tag, time, first, second)
    ensures HasAll(cfg, s) && Stage(cfg, s, tag, time, first, second) == true && LastIsMissing(cfg, s) == true
    ensures Controlled(cfg, s, step, first) == true && RepliesCarry(cfg, s, first, second) == true
  {
  }

  lemma WantedParts(cfg: Config, step: nat, s: System, p: Packet, first: nat, second: nat)
    requires IsCrowded(cfg) && HasAll(cfg, s) && Wanted(cfg, step, s, p) && p in s.net && RepliesCarry(cfg, s, first, second)
    ensures OfRead(cfg, p) == true && s.ops[TheRead].phase.Querying? && SlotOf(p) != Query(TheRead, cfg.n)
    ensures step == 1 ==> SlotOf(p).responder == 1
    ensures step == 2 ==> SlotOf(p).responder == 2
    ensures p.msg.Value? ==> (p.src == 1 ==> p.msg.ts == first) && (p.src == 2 ==> p.msg.ts == second)
  {
  }

  lemma MissingStays(cfg: Config, s: System, p: Packet, s': System, e: Event, sent: seq<Packet>)
    requires HasShape(cfg, s) && LastIsMissing(cfg, s) == true && (IsProtocol(p.msg) ==> SlotOf(p) != Query(TheRead, cfg.n))
    requires Inv(cfg, s) == true && Delivery(cfg, s, p, s', e, sent) == true
    ensures LastIsMissing(cfg, s') == true
  {
    DeliveryNet(cfg, s, p, s', e, sent);
    MissingKept(cfg, s, p, s', e);
  }

  ghost predicate Controlled(cfg: Config, s: System, step: nat, first: nat) {
    HasAll(cfg, s) && Control(step, first, SpotOf(s, TheRead), s.ops[TheRead].phase)
  }

  lemma ControlAfter(cfg: Config, s: System, p: Packet, s': System, e: Event, step: nat, first: nat, second: nat)
    requires IsCrowded(cfg) && HasAll(cfg, s) && HasAll(cfg, s') && p in s.net && first > second
    requires RepliesCarry(cfg, s, first, second) == true && Wanted(cfg, step, s, p) == true && Controlled(cfg, s, step, first)
    requires ReadStep(cfg, s, p, s', e)
    ensures Controlled(cfg, s', step, first) == true
  {
    CrowdedKey(cfg);
    WantedParts(cfg, step, s, p, first, second);
    ControlStep(cfg, step, first, second, p, e, SpotOf(s, TheRead), SpotOf(s', TheRead), s.ops[TheRead].phase, s'.ops[TheRead].phase);
  }

  lemma AskingControl(cfg: Config, s: System, p: Packet, s': System, e: Event, sent: seq<Packet>, step: nat, first: nat, second: nat)
    requires IsCrowded(cfg) && HasAll(cfg, s) && HasAll(cfg, s') && p in s.net && first > second
    requires RepliesCarry(cfg, s, first, second) == true && Wanted(cfg, step, s, p) == true && Controlled(cfg, s, step, first) == true
    requires OfRead(cfg, p) == true
    requires Inv(cfg, s) == true && Delivery(cfg, s, p, s', e, sent) == true
    ensures Controlled(cfg, s', step, first) == true
  {
    ReadMoves(cfg, s, p, s', e, sent);
    ControlAfter(cfg, s, p, s', e, step, first, second);
  }

  lemma WantedIsOfRead(cfg: Config, step: nat, s: System, p: Packet)
    requires Wanted(cfg, step, s, p) && cfg.n >= 3
    ensures OfRead(cfg, p) == true && (IsProtocol(p.msg) ==> SlotOf(p) != Query(TheRead, cfg.n))
  {
  }

  lemma AskingKept(cfg: Config, s: System, p: Packet, s': System, e: Event, sent: seq<Packet>,
                   step: nat, tag: Tag, time: int, first: nat, second: nat)
    requires IsCrowded(cfg) && cfg.testing && Known(cfg, s) == true && Known(cfg, s') == true && Delivery(cfg, s, p, s', e, sent) == true
    requires Asking(cfg, s, step, tag, time, first, second) == true && Wanted(cfg, step, s, p) == true && first > second
    ensures Asking(cfg, s', step, tag, time, first, second) == true
  {
    KnownHasInv(cfg, s);
    AskingParts(cfg, s, step, tag, time, first, second);
    WantedIsOfRead(cfg, step, s, p);
    DeliveredIsInFlight(cfg, s, p, s', e, sent);
    AllStay(cfg, s, p, s', e, sent);
    StageKept(cfg, s, p, s', e, sent, tag, time, first, second);
    MissingStays(cfg, s, p, s', e, sent);
    AskingControl(cfg, s, p, s', e, sent, step, first, second);
  }

  lemma StepArrives(cfg: Config, tick: int, from: System, step: nat, tag: Tag, time: int, first: nat, second: nat) returns (s: System)
    requires IsCrowded(cfg) && tick >= 0 && cfg.testing && first > second
    requires Reachable(cfg, tick, from) == true && Asking(cfg, from, step, tag, time, first, second) == true
    ensures Reachable(cfg, tick, s) == true && Asking(cfg, s, step, tag, time, first, second) == true
    ensures NoneLeft(cfg, s, (s, p) => Wanted(cfg, step, s, p)) == true
  {
    var allowed := (s: System, p: Packet) => Wanted(cfg, step, s, p);
    var holds := s => Asking(cfg, s, step, tag, time, first, second);
    assert Preserves(cfg, tick, allowed, holds) by {
      forall s: System, p: Packet, s': System, e: Event, sent: seq<Packet> |
        Known(cfg, s) && Known(cfg, s') && holds(s) && allowed(s, p) && !IsStale(cfg, p) && s'.now == s.now + tick
        && Delivery(cfg, s, p, s', e, sent)
        ensures holds(s')
      {
        AskingKept(cfg, s, p, s', e, sent, step, tag, time, first, second);
      }
    }
    s := DrainWhere(cfg, tick, from, allowed, holds);
  }

  // From one step to the next.

  lemma QueryingLists(cfg: Config, s: System, o: OpId)
    requires HasShape(cfg, s) && o in s.ops && s.ops[o].phase.Querying? && Inv(cfg, s) == true
    ensures ListOf(s, o).Keys == Replied(cfg, s, o)
  {
    assert OpInv(cfg, s, o);
  }

  ghost predicate NoneWanted(cfg: Config, s: System, step: nat) {
    forall q | q in s.net && OfRead(cfg, q) :: !Wanted(cfg, step, s, q)
  }

  lemma WantedHaveArrived(cfg: Config, s: System, step: nat)
    requires TheRead in s.ops && s.ops[TheRead].phase.Querying?
    requires Inv(cfg, s) == true && NoneLeft(cfg, s, (s, p) => Wanted(cfg, step, s, p))
    ensures NoneWanted(cfg, s, step) == true
  {
    forall q | q in s.net && OfRead(cfg, q) ensures !Wanted(cfg, step, s, q) {
      assert PacketInv(cfg, s, q);
    }
  }

  lemma RepliedTo(cfg: Config, s: System, step: nat)
    requires IsCrowded(cfg) && HasAll(cfg, s) && s.ops[TheRead].phase.Querying?
    requires NoneWanted(cfg, s, step)
    ensures step == 1 ==> 1 in Replied(cfg, s, TheRead)
    ensures step == 2 ==> 2 in Replied(cfg, s, TheRead)
    ensures step == 3 ==> |Replied(cfg, s, TheRead)| > cfg.n / 2
  {
    CrowdedKey(cfg);
    if step == 3 {
      RanksSize(cfg);
      var most := cfg.Ranks() - {cfg.n};
      assert |most| == cfg.n - 1 && most <= Replied(cfg, s, TheRead);
      SubsetSize(most, Replied(cfg, s, TheRead));
    }
  }

  /** While the read waits it has heard from node `step`. */
  ghost predicate HasHeard(cfg: Config, s: System, step: nat) {
    HasAll(cfg, s) && (s.ops[TheRead].phase.Querying? ==> step in SpotOf(s, TheRead).list)
  }

  lemma ControlMoves(cfg: Config, s: System, step: nat, first: nat)
    requires 1 <= step <= 2 && Controlled(cfg, s, step, first) && HasHeard(cfg, s, step)
    ensures Controlled(cfg, s, step + 1, first) == true
  {
  }

  lemma RepliedIsHeard(cfg: Config, s: System, step: nat)
    requires IsCrowded(cfg) && HasAll(cfg, s) && 1 <= step <= 2 && NoneWanted(cfg, s, step) == true && s.ops[TheRead].phase.Querying?
    requires ListOf(s, TheRead).Keys == Replied(cfg, s, TheRead)
    ensures HasHeard(cfg, s, step) == true
  {
    RepliedTo(cfg, s, step);
  }

  lemma WaitingHasHeard(cfg: Config, s: System, step: nat)
    requires IsCrowded(cfg) && HasAll(cfg, s) && 1 <= step <= 2 && s.ops[TheRead].phase.Querying?
    requires Inv(cfg, s) == true && NoneLeft(cfg, s, (s, p) => Wanted(cfg, step, s, p)) == true
    ensures HasHeard(cfg, s, step) == true
  {
    WantedHaveArrived(cfg, s, step);
    QueryingLists(cfg, s, TheRead);
    RepliedIsHeard(cfg, s, step);
  }

  lemma StepListed(cfg: Config, s: System, step: nat)
    requires IsCrowded(cfg) && HasAll(cfg, s) && 1 <= step <= 2
    requires Inv(cfg, s) == true && NoneLeft(cfg, s, (s, p) => Wanted(cfg, step, s, p)) == true
    ensures HasHeard(cfg, s, step) == true
  {
    if s.ops[TheRead].phase.Querying? {
      WaitingHasHeard(cfg, s, step);
    }
  }

  lemma NextStep(cfg: Config, s: System, step: nat, tag: Tag, time: int, first: nat, second: nat)
    requires IsCrowded(cfg) && 1 <= step <= 2 && Known(cfg, s) == true
    requires Asking(cfg, s, step, tag, time, first, second) && NoneLeft(cfg, s, (s, p) => Wanted(cfg, step, s, p)) == true
    ensures Asking(cfg, s, step + 1, tag, time, first, second) == true
  {
    KnownHasInv(cfg, s);
    StepListed(cfg, s, step);
    ControlMoves(cfg, s, step, first);
  }

  lemma LastStep(cfg: Config, s: System)
    requires IsCrowded(cfg) && HasAll(cfg, s) && Inv(cfg, s) == true && NoneLeft(cfg, s, (s, p) => Wanted(cfg, 3, s, p)) == true
    ensures !s.ops[TheRead].phase.Querying?
  {
    if s.ops[TheRead].phase.Querying? {
      WantedHaveArrived(cfg, s, 3);
      RepliedTo(cfg, s, 3);
      RepliesLeaveQuerying(cfg, s, TheRead);
    }
  }

  // The read begins.

  lemma ReadStarts(cfg: Config)
    ensures StartsAdd(RunPacket(2), {1, 3}, {1, 2, 3}) == true && AmongThree({1, 2, 3}) == true && !WritesLast(cfg, RunPacket(2))
    ensures !IsCurrent(cfg, RunPacket(2))
  {
  }

  lemma IdleReadIsUnknown(cfg: Config, s: System)
    requires IsCrowded(cfg) && HasAll(cfg, s) && s.ops[TheRead].phase.Idle? && Inv(cfg, s) == true
    ensures forall q | q in s.net :: !IsValueFor(cfg, q, TheRead)
  {
    forall q | q in s.net ensures !IsValueFor(cfg, q, TheRead) {
      assert PacketInv(cfg, s, q);
    }
  }

  lemma IdleReadHasNoLog(cfg: Config, s: System)
    requires HasAll(cfg, s) && s.ops[TheRead].phase.Idle? && cfg.testing && Known(cfg, s) == true
    ensures 2 in s.nodes && Part(s, TheRead) == []
  {
    KnownParts(cfg, s);
    OpenHasOneEntry(cfg, s, TheRead);
  }

  lemma ReadWaits(cfg: Config, s: System)
    requires IsCrowded(cfg) && HasAll(cfg, s) && OnlyStarted(cfg, s, {1, 3})
    ensures RunPacket(2) in s.net && 2 in s.nodes && !Started(s, 2)
  {
    CrowdedKey(cfg);
    assert 2 in cfg.Ranks();
  }

  /** What is known of the read before it is invoked. */
  ghost predicate Unasked(cfg: Config, s: System, first: nat, second: nat) {
    && HasAll(cfg, s) && s.ops[TheRead].phase.Idle? && RepliesCarry(cfg, s, first, second) && Holding(cfg, s, first, second)
    && 2 in s.nodes && Part(s, TheRead) == [] && RunPacket(2) in s.net
  }

  lemma ReadIsUnasked(cfg: Config, s: System, first: nat, second: nat)
    requires IsCrowded(cfg) && cfg.testing && HasAll(cfg, s) && OnlyStarted(cfg, s, {1, 3}) == true && Holding(cfg, s, first, second) == true
    requires Known(cfg, s) == true
    ensures Unasked(cfg, s, first, second) == true
  {
    KnownHasInv(cfg, s);
    ReadWaits(cfg, s);
    UnstartedIsIdle(cfg, s, TheRead);
    IdleReadIsUnknown(cfg, s);
    IdleReadHasNoLog(cfg, s);
  }

  lemma AskedNow(cfg: Config, s: System, s': System, e: Event, sent: seq<Packet>, time: int)
    requires IsCrowded(cfg) && HasAll(cfg, s) && HasAll(cfg, s') && cfg.testing && 2 in s.nodes && Part(s, TheRead) == [] && s'.now > time
    requires Inv(cfg, s) == true && Delivery(cfg, s, RunPacket(2), s', e, sent) == true
    ensures AskedAfter(s', time) == true
  {
    CrowdedKey(cfg);
    DeliveryCauses(cfg, s, RunPacket(2), s', e, sent);
    DeliveryParts(cfg, s, RunPacket(2), s', e, sent, TheRead);
    AskedStep(cfg, s, RunPacket(2), s', e, time);
  }

  lemma FreshStep(cfg: Config, s: System, p: Packet, s': System, e: Event)
    requires IsCrowded(cfg) && HasAll(cfg, s) && HasAll(cfg, s') && Causes(cfg, p, e) && p == RunPacket(2)
    requires SpotStep(cfg, p, e, TheRead, SpotOf(s, TheRead), SpotOf(s', TheRead)) && PhaseStep(cfg, s, p, s', e, TheRead)
    ensures SpotOf(s', TheRead).list == map[] && SpotOf(s', TheRead).reg.reading && s'.ops[TheRead].phase.Querying?
  {
    CrowdedKey(cfg);
  }

  lemma FreshRead(cfg: Config, s: System, p: Packet, s': System, e: Event, sent: seq<Packet>)
    requires IsCrowded(cfg) && HasAll(cfg, s) && HasAll(cfg, s') && p == RunPacket(2)
    requires Inv(cfg, s) == true && Delivery(cfg, s, p, s', e, sent) == true
    ensures SpotOf(s', TheRead).list == map[] && SpotOf(s', TheRead).reg.reading && s'.ops[TheRead].phase.Querying?
  {
    DeliveryCauses(cfg, s, p, s', e, sent);
    DeliverySpot(cfg, s, p, s', e, sent, TheRead);
    DeliveryPhases(cfg, s, p, s', e, sent, TheRead);
    FreshStep(cfg, s, p, s', e);
  }

  /** An operation without replies misses that of the last replica. */
  lemma NoReplyYet(cfg: Config, s: System)
    requires IsCrowded(cfg) && HasAll(cfg, s) && SpotOf(s, TheRead).list == map[] && s.ops[TheRead].phase.Querying? && Inv(cfg, s) == true
    ensures LastIsMissing(cfg, s) == true
  {
    CrowdedKey(cfg);
    QueryingLists(cfg, s, TheRead);
    assert cfg.n !in Replied(cfg, s, TheRead);
  }

  lemma FreshControl(cfg: Config, s: System, p: Packet, s': System, e: Event, sent: seq<Packet>, first: nat)
    requires IsCrowded(cfg) && HasAll(cfg, s) && HasAll(cfg, s') && p == RunPacket(2)
    requires Inv(cfg, s) == true && Inv(cfg, s') == true && Delivery(cfg, s, p, s', e, sent) == true
    ensures Controlled(cfg, s', 1, first) == true && LastIsMissing(cfg, s') == true
  {
    FreshRead(cfg, s, p, s', e, sent);
    NoReplyYet(cfg, s');
  }

  lemma AskingBegins(cfg: Config, s: System, s': System, e: Event, sent: seq<Packet>, tag: Tag, time: int, first: nat, second: nat)
    requires IsCrowded(cfg) && cfg.testing && Known(cfg, s) == true && Known(cfg, s') == true && Delivery(cfg, s, RunPacket(2), s', e, sent) == true
    requires Calm(cfg, s, {1, 3}) == true && HasAll(cfg, s) && Untouched(cfg, s) && FirstDone(cfg, s, tag, time) == true && s.ops[TheWrite].phase.Responded?
    requires Unasked(cfg, s, first, second) && s'.now > time
    ensures Asking(cfg, s', 1, tag, time, first, second) == true
  {
    KnownHasInv(cfg, s);
    KnownHasInv(cfg, s');
    ReadStarts(cfg);
    CalmKept(cfg, s, RunPacket(2), s', e, sent, {1, 3}, {1, 2, 3});
    AllStay(cfg, s, RunPacket(2), s', e, sent);
    FirstDoneKept(cfg, s, RunPacket(2), s', e, sent, tag, time);
    HoldingKept(cfg, s, RunPacket(2), s', e, sent, first, second);
    CarryKept(cfg, s, RunPacket(2), s', e, sent, first, second);
    AskedNow(cfg, s, s', e, sent, time);
    FreshControl(cfg, s, RunPacket(2), s', e, sent, first);
  }

  lemma OvertakenParts(cfg: Config, s: System, tag: Tag, time: int) returns (first: nat, second: nat)
    requires Overtaken(cfg, s, tag, time)
    ensures HasAll(cfg, s) && Calm(cfg, s, {1, 3}) == true && OnlyStarted(cfg, s, {1, 3}) == true && Untouched(cfg, s) == true
    ensures FirstDone(cfg, s, tag, time) == true && s.ops[TheWrite].phase.Responded? && time <= s.now
    ensures Holding(cfg, s, first, second) == true && first > second
  {
    first, second := TagAt(s, 1, 0).ts, TagAt(s, 2, 0).ts;
  }

  lemma ReadBegins(cfg: Config, tick: int) returns (s: System, tag: Tag, time: int, first: nat, second: nat)
    requires IsCrowded(cfg) && tick >= 1 && cfg.testing
    ensures Reachable(cfg, tick, s) == true && Asking(cfg, s, 1, tag, time, first, second) == true && first > second
  {
    var start;
    start, tag, time := OvertakenIsReached(cfg, tick);
    ReachableIsKnown(cfg, tick, start);
    first, second := OvertakenParts(cfg, start, tag, time);
    ReadIsUnasked(cfg, start, first, second);
    var e, sent;
    s, e, sent := ReachStart(cfg, tick, start, 2);
    AskingBegins(cfg, start, s, e, sent, tag, time, first, second);
  }

  /** The read has sent its Writes and not heard from the last replica. */
  lemma ReadImposes(cfg: Config, tick: int) returns (s: System, tag: Tag, time: int, first: nat, second: nat)
    requires IsCrowded(cfg) && tick >= 1 && cfg.testing
    ensures Reachable(cfg, tick, s) == true && Asking(cfg, s, 3, tag, time, first, second) == true
    ensures TheRead in s.ops && s.ops[TheRead].phase.Imposing?
  {
    var begun;
    begun, tag, time, first, second := ReadBegins(cfg, tick);
    s := StepArrives(cfg, tick, begun, 1, tag, time, first, second);
    ReachableIsKnown(cfg, tick, s);
    NextStep(cfg, s, 1, tag, time, first, second);
    s := ImposesAfter(cfg, tick, s, tag, time, first, second);
  }

  lemma ImposesAfter(cfg: Config, tick: int, from: System, tag: Tag, time: int, first: nat, second: nat) returns (s: System)
    requires IsCrowded(cfg) && tick >= 1 && cfg.testing && first > second
    requires Reachable(cfg, tick, from) == true && Asking(cfg, from, 2, tag, time, first, second) == true
    ensures Reachable(cfg, tick, s) == true && Asking(cfg, s, 3, tag, time, first, second) == true
    ensures TheRead in s.ops && s.ops[TheRead].phase.Imposing?
  {
    s := StepArrives(cfg, tick, from, 2, tag, time, first, second);
    ReachableIsKnown(cfg, tick, s);
    NextStep(cfg, s, 2, tag, time, first, second);
    s := StepArrives(cfg, tick, s, 3, tag, time, first, second);
    ReachableInv(cfg, tick, s);
    AskingParts(cfg, s, 3, tag, time, first, second);
    LastStep(cfg, s);
    ControlledPhase(cfg, s, first);
  }

  lemma ControlledPhase(cfg: Config, s: System, first: nat)
    requires Controlled(cfg, s, 3, first) && !s.ops[TheRead].phase.Querying?
    ensures s.ops[TheRead].phase.Imposing?
  {
  }
}
