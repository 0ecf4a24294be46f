/** Two nodes are enough for replicas with equal tags and different values: a read that skips its write-back spoils one. */
module RegisterSpoiling {
  import opened Collections
  import opened Histories
  import opened RegisterNode
  import opened RegisterProtocol
  import opened RegisterSafety
  import opened RegisterEvents
  import opened RegisterTheorems
  import opened RegisterTags
  import opened RegisterQuorum
  import opened RegisterResults
  import opened RegisterDetails
  import opened RegisterValues
  import opened RegisterReach
  import opened RegisterQuiet
  import opened RegisterReports
  import opened RegisterSpots
  import opened RegisterWitness

  // First the requests of the read arrive, but no reply.

  predicate IsRequest(cfg: Config, q: Packet) {
    IsCurrent(cfg, q) && q.msg.Read? && q.msg.key == 0 && q.src == 2
  }

  predicate IsReply(cfg: Config, q: Packet) {
    IsValueFor(cfg, q, TheRead)
  }

  ghost predicate HasOps(cfg: Config, s: System) {
    HasShape(cfg, s) && 0 < cfg.numKeys && TheRead in s.ops && TheWrite in s.ops
  }

  /** The read waits for its first reply. */
  ghost predicate Waits(cfg: Config, s: System)
    requires HasOps(cfg, s)
  {
    && s.ops[TheRead].phase.Querying?
    && var spot := SpotOf(s, TheRead); spot.list == map[] && spot.reg.skipImpose && spot.reg.reading
  }

  /** Requests arrive: nobody but node 2 has started and key 0 holds 0. */
  ghost predicate Requested(cfg: Config, s: System, who: set<nat>) {
    && HasOps(cfg, s) && OnlyStarted(cfg, s, who) && ZeroKey(cfg, s, 0)
    && if 2 in who then Waits(cfg, s) else SpotOf(s, TheRead).reg.skipImpose
  }

  lemma WaitsStep(cfg: Config, s: System, p: Packet, s': System, e: Event)
    requires HasOps(cfg, s) && HasOps(cfg, s') && IsMixed(cfg)
    requires Causes(cfg, p, e) && PhaseStep(cfg, s, p, s', e, TheRead)
    requires SpotStep(cfg, p, e, TheRead, SpotOf(s, TheRead), SpotOf(s', TheRead)) && !IsReply(cfg, p) && (e.Ignored? <==> IsStale(cfg, p))
    requires Waits(cfg, s) || (p == RunPacket(2) && SpotOf(s, TheRead).reg.skipImpose)
    ensures Waits(cfg, s') == true
  {
    MixedKey(cfg);
  }

  lemma WaitsKept(cfg: Config, s: System, p: Packet, s': System, e: Event, sent: seq<Packet>)
    requires IsMixed(cfg) && HasOps(cfg, s) && HasOps(cfg, s')
    requires !IsReply(cfg, p) && (Waits(cfg, s) || (p == RunPacket(2) && SpotOf(s, TheRead).reg.skipImpose))
    requires Inv(cfg, s) == true && Delivery(cfg, s, p, s', e, sent) == true
    ensures Waits(cfg, s') == true
  {
    DeliveryCauses(cfg, s, p, s', e, sent);
    DeliveryPhases(cfg, s, p, s', e, sent, TheRead);
    DeliverySpot(cfg, s, p, s', e, sent, TheRead);
    WaitsStep(cfg, s, p, s', e);
  }

  lemma OpsStay(cfg: Config, s: System, p: Packet, s': System, e: Event, sent: seq<Packet>)
    requires Known(cfg, s) == true && Known(cfg, s') == true && Delivery(cfg, s, p, s', e, sent) == true && HasOps(cfg, s)
    ensures HasOps(cfg, s')
  {
    KnownHasInv(cfg, s);
    KnownHasInv(cfg, s');
    OpStays(cfg, s, p, s', e, sent, TheRead);
    OpStays(cfg, s, p, s', e, sent, TheWrite);
  }

  /** A Run message or a request writes nothing. */
  lemma RequestsKeepZero(cfg: Config, s: System, p: Packet, s': System, e: Event, sent: seq<Packet>)
    requires IsMixed(cfg) && Inv(cfg, s) == true && HasOps(cfg, s) && HasOps(cfg, s') && Delivery(cfg, s, p, s', e, sent) == true
    requires ZeroKey(cfg, s, 0) && (p.msg.Run? || p.msg.Read?)
    ensures ZeroKey(cfg, s', 0) == true
  {
    DeliveryCauses(cfg, s, p, s', e, sent);
    ZeroKept(cfg, s, p, s', e, sent, 0);
  }

  predicate Starts2OrAsks(p: Packet, who: set<nat>) {
    p == RunPacket(2) || (2 in who && p.msg.Read?)
  }

  lemma RequestedKept(cfg: Config, s: System, p: Packet, s': System, e: Event, sent: seq<Packet>, who: set<nat>, who': set<nat>)
    requires IsMixed(cfg) && Known(cfg, s) == true && Known(cfg, s') == true && Delivery(cfg, s, p, s', e, sent) == true
    requires Requested(cfg, s, who) == true && StartsAdd(p, who, who') == true
    requires Starts2OrAsks(p, who) == true
    ensures Requested(cfg, s', who') == true
  {
    KnownHasInv(cfg, s);
    assert Requested(cfg, s, who);
    OpsStay(cfg, s, p, s', e, sent);
    OnlyStartedAfter(cfg, s, p, s', e, sent, who, who');
    RequestsKeepZero(cfg, s, p, s', e, sent);
    WaitsKept(cfg, s, p, s', e, sent);
    assert StartsAdd(p, who, who');
  }

  lemma StartIsRequested(cfg: Config, s: System)
    requires IsMixed(cfg) && IsInitial(cfg, s) && s == StartSystem(cfg) && HasShape(cfg, s)
    ensures Requested(cfg, s, {}) == true && RunPacket(2) in s.net && 2 in s.nodes
  {
    MixedKey(cfg);
    InitialValues(cfg, s, 0);
  }

  lemma Beginning(cfg: Config, tick: int) returns (s: System)
    requires IsMixed(cfg)
    ensures Reachable(cfg, tick, s) == true && Requested(cfg, s, {}) == true && RunPacket(2) in s.net && 2 in s.nodes
  {
    s := StartSystem(cfg);
    StartIsReachable(cfg, tick);
    ReachableInv(cfg, tick, s);
    StartIsRequested(cfg, s);
  }

  lemma ReadBegins(cfg: Config, tick: int) returns (s: System)
    requires IsMixed(cfg) && tick >= 0
    ensures Reachable(cfg, tick, s) == true && Requested(cfg, s, {2}) == true
  {
    var start := Beginning(cfg, tick);
    var e, sent;
    s, e, sent := ReachStart(cfg, tick, start, 2);
    StartsFirst(2);
    assert Starts2OrAsks(RunPacket(2), {});
    RequestedKept(cfg, start, RunPacket(2), s, e, sent, {}, {2});
  }

  lemma RequestStartsNobody(cfg: Config, p: Packet)
    requires IsRequest(cfg, p)
    ensures StartsAdd(p, {2}, {2}) == true && Starts2OrAsks(p, {2}) == true
  {
  }

  lemma RequestKept(cfg: Config, s: System, p: Packet, s': System, e: Event, sent: seq<Packet>)
    requires IsMixed(cfg) && Known(cfg, s) == true && Known(cfg, s') == true && Delivery(cfg, s, p, s', e, sent) == true
    requires Requested(cfg, s, {2}) == true && IsRequest(cfg, p) == true
    ensures Requested(cfg, s', {2}) == true
  {
    RequestStartsNobody(cfg, p);
    RequestedKept(cfg, s, p, s', e, sent, {2}, {2});
  }

  lemma RequestsArrive(cfg: Config, tick: int, first: System) returns (s: System)
    requires IsMixed(cfg) && tick >= 0 && Reachable(cfg, tick, first) == true && Requested(cfg, first, {2}) == true
    ensures Reachable(cfg, tick, s) == true && Requested(cfg, s, {2}) == true && NoneLeft(cfg, s, (s, p) => IsRequest(cfg, p)) == true
  {
    var allowed := (s: System, p: Packet) => IsRequest(cfg, p);
    var holds := s => Requested(cfg, s, {2});
    assert Preserves(cfg, tick, allowed, holds) by {
      forall s: System, p: Packet, s': System, e: Event, sent: seq<Packet> |
        Known(cfg, s) && Known(cfg, s') && holds(s) && allowed(s, p) && !IsStale(cfg, p) && s'.now == s.now + tick
        && Delivery(cfg, s, p, s', e, sent)
        ensures holds(s')
      {
        RequestKept(cfg, s, p, s', e, sent);
      }
    }
    s := DrainWhere(cfg, tick, first, allowed, holds);
  }

  // Then the write takes place, while the replies to the read stay in flight.

  ghost predicate NoRequests(cfg: Config, s: System) {
    forall q | q in s.net :: !IsRequest(cfg, q)
  }

  ghost predicate RepliesZero(cfg: Config, s: System) {
    forall q | q in s.net && IsReply(cfg, q) :: EntryCarried(q.msg) == Entry(0, 0, 0)
  }

  predicate AmongTwo(who: set<nat>) {
    forall i | i in who :: i == 1 || i == 2
  }

  ghost predicate Queued(cfg: Config, s: System, who: set<nat>) {
    && HasOps(cfg, s) && OnlyStarted(cfg, s, who) && AmongTwo(who)
    && NoRequests(cfg, s) && RepliesZero(cfg, s) && Waits(cfg, s) && AllGood(cfg, s, 0, IsRankedEntry)
  }

  predicate PassesBy(cfg: Config, p: Packet) {
    !IsReply(cfg, p) && (p.msg.Run? ==> p.dst != 2)
  }

  lemma RepliesStayZero(cfg: Config, s: System, p: Packet, s': System, e: Event)
    requires HasShape(cfg, s) && NetStep(cfg, s, p, s', e) && Causes(cfg, p, e) && p in s.net && (e.Ignored? <==> IsStale(cfg, p))
    requires NoRequests(cfg, s) && RepliesZero(cfg, s) && (p.msg.Run? ==> p.dst != 2)
    ensures NoRequests(cfg, s') == true && RepliesZero(cfg, s') == true
  {
    forall q | q in s'.net && (IsRequest(cfg, q) || IsReply(cfg, q)) ensures q in s.net && IsReply(cfg, q) {
      assert e.Told? && p.msg.Read? && p.src == 2 && p.msg.key == 0 ==> IsRequest(cfg, p) || IsStale(cfg, p);
    }
  }

  lemma OnlyTheReadSkips(cfg: Config, s: System, p: Packet, s': System, e: Event, sent: seq<Packet>, who: set<nat>)
    requires IsMixed(cfg) && Inv(cfg, s) == true && HasShape(cfg, s) == true && Delivery(cfg, s, p, s', e, sent) == true && p in s.net
    requires IsCurrent(cfg, p) && OnlyStarted(cfg, s, who) && AmongTwo(who)
    ensures NotSkipping(cfg, p, e, 0) || IsReply(cfg, p)
  {
    MixedKey(cfg);
    if e.Skipped? {
      MoverHasStarted(cfg, s, p, s', e, sent);
      SkippersRead(cfg, s, p, s', e, sent);
    }
  }

  lemma RankedUntilReply(cfg: Config, s: System, p: Packet, s': System, e: Event, sent: seq<Packet>, who: set<nat>)
    requires IsMixed(cfg) && Inv(cfg, s) == true && HasOps(cfg, s) && HasOps(cfg, s') && Delivery(cfg, s, p, s', e, sent) == true && p in s.net
    requires OnlyStarted(cfg, s, who) == true && AmongTwo(who) == true && !IsReply(cfg, p) && AllGood(cfg, s, 0, IsRankedEntry) == true
    ensures AllGood(cfg, s', 0, IsRankedEntry) == true
  {
    if IsCurrent(cfg, p) {
      OnlyTheReadSkips(cfg, s, p, s', e, sent, who);
    }
    RankedKept(cfg, s, p, s', e, sent, 0);
  }

  lemma RepliesKept(cfg: Config, s: System, p: Packet, s': System, e: Event, sent: seq<Packet>)
    requires Inv(cfg, s) == true && HasShape(cfg, s) && Delivery(cfg, s, p, s', e, sent) == true
    requires NoRequests(cfg, s) && RepliesZero(cfg, s) && (p.msg.Run? ==> p.dst != 2)
    ensures NoRequests(cfg, s') == true && RepliesZero(cfg, s') == true
  {
    DeliveryCauses(cfg, s, p, s', e, sent);
    DeliveryNet(cfg, s, p, s', e, sent);
    RepliesStayZero(cfg, s, p, s', e);
  }

  lemma QueuedKept(cfg: Config, s: System, p: Packet, s': System, e: Event, sent: seq<Packet>, who: set<nat>, who': set<nat>)
    requires IsMixed(cfg) && Known(cfg, s) == true && Known(cfg, s') == true && Delivery(cfg, s, p, s', e, sent) == true
    requires Queued(cfg, s, who) == true && StartsAdd(p, who, who') == true && AmongTwo(who') == true && PassesBy(cfg, p) == true
    ensures Queued(cfg, s', who') == true
  {
    KnownHasInv(cfg, s);
    assert Queued(cfg, s, who) && PassesBy(cfg, p);
    OpsStay(cfg, s, p, s', e, sent);
    DeliveredIsInFlight(cfg, s, p, s', e, sent);
    OnlyStartedAfter(cfg, s, p, s', e, sent, who, who');
    RepliesKept(cfg, s, p, s', e, sent);
    WaitsKept(cfg, s, p, s', e, sent);
    RankedUntilReply(cfg, s, p, s', e, sent, who);
  }

  lemma ZeroIsRanked(cfg: Config, s: System, key: nat)
    requires HasShape(cfg, s) && key < cfg.numKeys && AllGood(cfg, s, key, IsZeroEntry)
    ensures AllGood(cfg, s, key, IsRankedEntry)
  {
  }

  lemma RequestsAreGone(cfg: Config, s: System)
    requires Inv(cfg, s) == true && NoneLeft(cfg, s, (s, p) => IsRequest(cfg, p))
    ensures NoRequests(cfg, s) == true
  {
    forall q | q in s.net ensures !IsRequest(cfg, q) {
      assert PacketInv(cfg, s, q);
    }
  }

  lemma RepliesAreZero(cfg: Config, s: System)
    requires HasOps(cfg, s) && ZeroKey(cfg, s, 0)
    ensures RepliesZero(cfg, s) == true && AllGood(cfg, s, 0, IsRankedEntry) == true
  {
    ZeroIsRanked(cfg, s, 0);
    forall q | q in s.net && IsReply(cfg, q) ensures EntryCarried(q.msg) == Entry(0, 0, 0) {
      assert CarriesEntry(cfg, q, 0);
    }
  }

  lemma WriterWaits(cfg: Config, s: System)
    requires IsMixed(cfg) && HasOps(cfg, s) && OnlyStarted(cfg, s, {2})
    ensures RunPacket(1) in s.net && 1 in s.nodes
  {
    MixedKey(cfg);
    assert 1 in cfg.Ranks() && !Started(s, 1);
  }

  lemma AllRequested(cfg: Config, s: System)
    requires IsMixed(cfg) && Inv(cfg, s) == true && Requested(cfg, s, {2}) && NoneLeft(cfg, s, (s, p) => IsRequest(cfg, p)) == true
    ensures Queued(cfg, s, {2}) == true && RunPacket(1) in s.net && 1 in s.nodes
  {
    RequestsAreGone(cfg, s);
    RepliesAreZero(cfg, s);
    WriterWaits(cfg, s);
  }

  lemma WriterStarts(cfg: Config)
    ensures StartsAdd(RunPacket(1), {2}, {1, 2}) == true && AmongTwo({1, 2}) == true && PassesBy(cfg, RunPacket(1)) == true
  {
  }

  lemma WriteBegins(cfg: Config, tick: int) returns (s: System)
    requires IsMixed(cfg) && tick >= 0
    ensures Reachable(cfg, tick, s) == true && Queued(cfg, s, {1, 2}) == true
  {
    var first := ReadBegins(cfg, tick);
    var start := RequestsArrive(cfg, tick, first);
    ReachableInv(cfg, tick, start);
    AllRequested(cfg, start);
    WriterStarts(cfg);
    var e, sent;
    s, e, sent := ReachStart(cfg, tick, start, 1);
    QueuedKept(cfg, start, RunPacket(1), s, e, sent, {2}, {1, 2});
  }

  predicate IsOther(cfg: Config, p: Packet) {
    IsProtocol(p.msg) && !IsReply(cfg, p)
  }

  lemma OthersPass(cfg: Config, p: Packet)
    requires IsOther(cfg, p)
    ensures StartsAdd(p, {1, 2}, {1, 2}) == true && AmongTwo({1, 2}) == true && PassesBy(cfg, p) == true
  {
  }

  lemma OthersKeepQueued(cfg: Config, s: System, p: Packet, s': System, e: Event, sent: seq<Packet>)
    requires IsMixed(cfg) && Known(cfg, s) == true && Known(cfg, s') == true && Delivery(cfg, s, p, s', e, sent) == true
    requires Queued(cfg, s, {1, 2}) == true && IsOther(cfg, p) == true
    ensures Queued(cfg, s', {1, 2}) == true
  {
    OthersPass(cfg, p);
    QueuedKept(cfg, s, p, s', e, sent, {1, 2}, {1, 2});
  }

  lemma OthersArrive(cfg: Config, tick: int, first: System) returns (s: System)
    requires IsMixed(cfg) && tick >= 0 && Reachable(cfg, tick, first) == true && Queued(cfg, first, {1, 2}) == true
    ensures Reachable(cfg, tick, s) == true && Queued(cfg, s, {1, 2}) == true && NoneLeft(cfg, s, (s, p) => IsOther(cfg, p)) == true
  {
    var allowed := (s: System, p: Packet) => IsOther(cfg, p);
    var holds := s => Queued(cfg, s, {1, 2});
    assert Preserves(cfg, tick, allowed, holds) by {
      forall s: System, p: Packet, s': System, e: Event, sent: seq<Packet> |
        Known(cfg, s) && Known(cfg, s') && holds(s) && allowed(s, p) && !IsStale(cfg, p) && s'.now == s.now + tick
        && Delivery(cfg, s, p, s', e, sent)
        ensures holds(s')
      {
        OthersKeepQueued(cfg, s, p, s', e, sent);
      }
    }
    s := DrainWhere(cfg, tick, first, allowed, holds);
  }

  // The write has reached every replica.

  lemma OnlyRepliesFly(cfg: Config, s: System)
    requires Inv(cfg, s) == true && NoneLeft(cfg, s, (s, p) => IsOther(cfg, p))
    ensures forall q | q in s.net && IsCurrent(cfg, q) :: IsReply(cfg, q)
  {
    forall q | q in s.net && IsCurrent(cfg, q) ensures IsReply(cfg, q) {
      assert PacketInv(cfg, s, q);
    }
  }

  lemma NoSlotOfTheWrite(cfg: Config, s: System)
    requires forall q | q in s.net && IsCurrent(cfg, q) :: IsReply(cfg, q)
    ensures Replied(cfg, s, TheWrite) == cfg.Ranks() && Acked(cfg, s, TheWrite) == cfg.Ranks()
    ensures forall q | q in s.net :: !(IsCurrent(cfg, q) && q.msg.Write? && q.msg.key == 0)
    ensures forall j :: !Pending(cfg, s.net, TheWrite, j)
  {
  }

  /** Nodes 1 and 2 hold the same tag, and node 1 the value that goes with it. */
  ghost predicate Spread(cfg: Config, s: System)
    requires HasOps(cfg, s)
  {
    && 1 in s.nodes && 2 in s.nodes && TagAt(s, 1, 0) == TagAt(s, 2, 0) && SpotOf(s, TheWrite).reg.value >= 1
  }

  /** Every Write of key 0 has been delivered, and node 1 has an answer to its own. */
  ghost predicate WriteIsDone(cfg: Config, s: System)
    requires TheWrite in s.ops
  {
    && s.ops[TheWrite].phase.Responded?
    && (forall q | q in s.net :: !(IsCurrent(cfg, q) && q.msg.Write? && q.msg.key == 0))
    && !Pending(cfg, s.net, TheWrite, 1)
  }

  lemma AllWritten(cfg: Config, s: System)
    requires IsMixed(cfg) && Inv(cfg, s) == true && HasOps(cfg, s) && OnlyStarted(cfg, s, {1, 2})
    requires NoneLeft(cfg, s, (s, p) => IsOther(cfg, p)) == true
    ensures WriteIsDone(cfg, s) == true
  {
    MixedKey(cfg);
    OnlyRepliesFly(cfg, s);
    NoSlotOfTheWrite(cfg, s);
    WaitsForNothing(cfg, s, TheWrite);
  }

  lemma DoneIsSpread(cfg: Config, s: System)
    requires IsMixed(cfg) && FullInv(cfg, s) == true && HasOps(cfg, s) && WriteIsDone(cfg, s) && AllGood(cfg, s, 0, IsRankedEntry)
    ensures Spread(cfg, s) == true
  {
    MixedKey(cfg);
    AnsweredWriteHasTag(cfg, s, TheWrite);
    DeliveredIsHeld(cfg, s, TheWrite, 1);
    HeldTagHasWriter(cfg, s, 1, 0);
    TwoAgree(cfg, s, 1, 2, 0);
    assert GoodNode(s.nodes[1], 0, IsRankedEntry);
  }

  lemma WriteIsSpread(cfg: Config, s: System)
    requires IsMixed(cfg) && Known(cfg, s) == true && Queued(cfg, s, {1, 2}) && NoneLeft(cfg, s, (s, p) => IsOther(cfg, p)) == true
    ensures Spread(cfg, s) == true
  {
    FullInvOf(cfg, s);
    AllWritten(cfg, s);
    DoneIsSpread(cfg, s);
  }

  lemma SpreadIsReplying(cfg: Config, s: System)
    requires Queued(cfg, s, {1, 2}) && Spread(cfg, s)
    ensures Replying(cfg, s) == true
  {
  }

  // Last the replies arrive, all with timestamp 0, and the read skips its write-back.

  predicate HasOldReplies(reg: Register, list: ReadList) {
    reg.reading && reg.skipImpose && (list == map[] || (reg.firstReceivedTs == 0 && reg.readval == 0))
  }

  ghost predicate Replying(cfg: Config, s: System) {
    && HasOps(cfg, s) && NoRequests(cfg, s) && RepliesZero(cfg, s) && Spread(cfg, s)
    && var spot := SpotOf(s, TheRead);
       || (s.ops[TheRead].phase.Querying? && HasOldReplies(spot.reg, spot.list))
       || (s.ops[TheRead].phase.Responded? && spot.reg.value == 0)
  }

  lemma ReplyStep(cfg: Config, p: Packet, e: Event, spot: Spot, spot': Spot)
    requires IsReply(cfg, p) && SpotStep(cfg, p, e, TheRead, spot, spot') && EntryCarried(p.msg) == Entry(0, 0, 0)
    requires e.Noted? || e.Skipped? || e.Imposed?
    requires HasOldReplies(spot.reg, spot.list)
    ensures spot'.reg.GetTag() == spot.reg.GetTag()
    ensures if e.Skipped? then spot'.reg.value == 0 else e.Noted? && HasOldReplies(spot'.reg, spot'.list)
  {
  }

  ghost predicate ReadMoves(cfg: Config, s: System, s': System)
    requires HasOps(cfg, s) && HasOps(cfg, s')
  {
    && SpotOf(s', TheWrite) == SpotOf(s, TheWrite) && SpotOf(s', TheRead).reg.GetTag() == SpotOf(s, TheRead).reg.GetTag()
    && if s'.ops[TheRead].phase.Responded? then SpotOf(s', TheRead).reg.value == 0
       else s'.ops[TheRead].phase.Querying? && HasOldReplies(SpotOf(s', TheRead).reg, SpotOf(s', TheRead).list)
  }

  lemma ReplyMoves(cfg: Config, s: System, p: Packet, s': System, e: Event)
    requires HasOps(cfg, s) && HasOps(cfg, s') && IsReply(cfg, p) && EntryCarried(p.msg) == Entry(0, 0, 0)
    requires Causes(cfg, p, e) && !e.Ignored? && PhaseStep(cfg, s, p, s', e, TheRead)
    requires SpotStep(cfg, p, e, TheRead, SpotOf(s, TheRead), SpotOf(s', TheRead)) == true
    requires SpotStep(cfg, p, e, TheWrite, SpotOf(s, TheWrite), SpotOf(s', TheWrite))
    requires s.ops[TheRead].phase.Querying? && HasOldReplies(SpotOf(s, TheRead).reg, SpotOf(s, TheRead).list)
    ensures ReadMoves(cfg, s, s') == true
  {
    ReplyStep(cfg, p, e, SpotOf(s, TheRead), SpotOf(s', TheRead));
  }

  lemma ReplySpots(cfg: Config, s: System, p: Packet, s': System, e: Event, sent: seq<Packet>)
    requires HasOps(cfg, s) && HasOps(cfg, s') && IsReply(cfg, p) && RepliesZero(cfg, s)
    requires s.ops[TheRead].phase.Querying? && HasOldReplies(SpotOf(s, TheRead).reg, SpotOf(s, TheRead).list) == true
    requires Inv(cfg, s) == true && Delivery(cfg, s, p, s', e, sent) == true
    ensures ReadMoves(cfg, s, s') == true
  {
    DeliveryCauses(cfg, s, p, s', e, sent);
    DeliverySpot(cfg, s, p, s', e, sent, TheRead);
    DeliverySpot(cfg, s, p, s', e, sent, TheWrite);
    DeliveryPhases(cfg, s, p, s', e, sent, TheRead);
    ReplyMoves(cfg, s, p, s', e);
  }

  predicate ReplyWanted(cfg: Config, s: System, p: Packet) {
    IsReply(cfg, p) && TheRead in s.ops && s.ops[TheRead].phase.Querying?
  }

  lemma MovedIsReplying(cfg: Config, s: System, s': System)
    requires HasOps(cfg, s) && HasOps(cfg, s') && NoRequests(cfg, s') && RepliesZero(cfg, s') && Spread(cfg, s) && ReadMoves(cfg, s, s')
    ensures Replying(cfg, s') == true
  {
    assert 1 in s'.nodes && 2 in s'.nodes;
  }

  lemma WantedReply(cfg: Config, s: System, p: Packet)
    requires Replying(cfg, s) && ReplyWanted(cfg, s, p)
    ensures HasOps(cfg, s) && NoRequests(cfg, s) == true && RepliesZero(cfg, s) == true && Spread(cfg, s) == true
    ensures IsReply(cfg, p) && !p.msg.Run? && s.ops[TheRead].phase.Querying?
    ensures HasOldReplies(SpotOf(s, TheRead).reg, SpotOf(s, TheRead).list) == true
  {
  }

  lemma ReplyingKept(cfg: Config, s: System, p: Packet, s': System, e: Event, sent: seq<Packet>)
    requires Known(cfg, s) == true && Known(cfg, s') == true && Delivery(cfg, s, p, s', e, sent) == true
    requires Replying(cfg, s) == true && ReplyWanted(cfg, s, p) == true
    ensures Replying(cfg, s') == true
  {
    KnownHasInv(cfg, s);
    WantedReply(cfg, s, p);
    OpsStay(cfg, s, p, s', e, sent);
    RepliesKept(cfg, s, p, s', e, sent);
    ReplySpots(cfg, s, p, s', e, sent);
    MovedIsReplying(cfg, s, s');
  }

  lemma RepliesArrive(cfg: Config, tick: int, first: System) returns (s: System)
    requires tick >= 0 && Reachable(cfg, tick, first) == true && Replying(cfg, first) == true
    ensures Reachable(cfg, tick, s) == true && Replying(cfg, s) == true && NoneLeft(cfg, s, (s, p) => ReplyWanted(cfg, s, p)) == true
  {
    var allowed := (s: System, p: Packet) => ReplyWanted(cfg, s, p);
    var holds := s => Replying(cfg, s);
    assert Preserves(cfg, tick, allowed, holds) by {
      forall s: System, p: Packet, s': System, e: Event, sent: seq<Packet> |
        Known(cfg, s) && Known(cfg, s') && holds(s) && allowed(s, p) && !IsStale(cfg, p) && s'.now == s.now + tick
        && Delivery(cfg, s, p, s', e, sent)
        ensures holds(s')
      {
        ReplyingKept(cfg, s, p, s', e, sent);
      }
    }
    s := DrainWhere(cfg, tick, first, allowed, holds);
  }

  lemma NoReplyLeft(cfg: Config, s: System)
    requires HasOps(cfg, s) && NoneLeft(cfg, s, (s, p) => ReplyWanted(cfg, s, p)) && s.ops[TheRead].phase.Querying?
    ensures forall q | q in s.net :: !IsReply(cfg, q)
  {
    assert 2 in s.nodes;
    forall q | q in s.net ensures !IsReply(cfg, q) {
      assert IsReply(cfg, q) ==> ReplyWanted(cfg, s, q);
    }
  }

  lemma ReadHasNoSlot(cfg: Config, s: System)
    requires NoRequests(cfg, s) && forall q | q in s.net :: !IsReply(cfg, q)
    ensures Replied(cfg, s, TheRead) == cfg.Ranks()
  {
  }

  /** Node 1 holds what it wrote; node 2 holds the same tag and 0. */
  ghost predicate Spoiled(cfg: Config, s: System) {
    HasOps(cfg, s) && Spread(cfg, s) && SpotOf(s, TheRead).reg.value == 0
  }

  lemma AllReplied(cfg: Config, s: System)
    requires Replying(cfg, s) && Inv(cfg, s) == true && NoneLeft(cfg, s, (s, p) => ReplyWanted(cfg, s, p)) == true
    ensures Spoiled(cfg, s) == true
  {
    if s.ops[TheRead].phase.Querying? {
      NoReplyLeft(cfg, s);
      ReadHasNoSlot(cfg, s);
      RanksSize(cfg);
      RepliesLeaveQuerying(cfg, s, TheRead);
    }
  }

  /** A run in which a read that skips its write-back leaves one tag with two values. */
  lemma SkippedReadSpoils(cfg: Config, tick: int) returns (s: System)
    requires IsMixed(cfg) && tick >= 0
    ensures Reachable(cfg, tick, s) == true && Spoiled(cfg, s) == true
  {
    var begun := WriteBegins(cfg, tick);
    var spread := OthersArrive(cfg, tick, begun);
    ReachableIsKnown(cfg, tick, spread);
    WriteIsSpread(cfg, spread);
    SpreadIsReplying(cfg, spread);
    s := RepliesArrive(cfg, tick, spread);
    ReachableInv(cfg, tick, s);
    AllReplied(cfg, s);
  }
}
