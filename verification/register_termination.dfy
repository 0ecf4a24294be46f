/** A run of the register ends: its own messages are boundedly many, whatever the order of delivery. */
module RegisterTermination {
  import opened Collections
  import opened Histories
  import opened RegisterNode
  import opened RegisterProtocol
  import opened RegisterSafety
  import opened RegisterEvents
  import opened RegisterInvariant
  import opened RegisterRuns
  import opened RegisterTheorems
  import opened RegisterResults

  // Requests in flight still cause a reply.

  predicate IsRequest(cfg: Config, p: Packet) {
    IsCurrent(cfg, p) && (p.msg.Read? || p.msg.Write?)
  }

  function Requests(cfg: Config, net: multiset<Packet>): set<Slot> {
    set p | p in net && IsRequest(cfg, p) :: SlotOf(p)
  }

  function SentRequests(cfg: Config, sent: seq<Packet>): set<Slot> {
    set q | q in sent && IsRequest(cfg, q) :: SlotOf(q)
  }

  lemma RequestsAfter(cfg: Config, net: multiset<Packet>, p: Packet, sent: seq<Packet>)
    requires UniqueSlots(cfg, net) && p in net
    ensures Requests(cfg, NetAfter(net, p, sent)) ==
            Requests(cfg, net) - (if IsRequest(cfg, p) then {SlotOf(p)} else {}) + SentRequests(cfg, sent)
  {
    var net' := NetAfter(net, p, sent);
    forall slot
      ensures slot in Requests(cfg, net') <==>
              slot in Requests(cfg, net) - (if IsRequest(cfg, p) then {SlotOf(p)} else {}) + SentRequests(cfg, sent)
    {
      if slot in Requests(cfg, net') {
        var q :| q in net' && IsRequest(cfg, q) && SlotOf(q) == slot;
        SentOrKept(cfg, net, p, sent, q);
      }
      if slot in Requests(cfg, net) && !(IsRequest(cfg, p) && slot == SlotOf(p)) {
        var q :| q in net && IsRequest(cfg, q) && SlotOf(q) == slot;
        assert q != p && q in net';
      }
      if slot in SentRequests(cfg, sent) {
        var q :| q in sent && IsRequest(cfg, q) && SlotOf(q) == slot;
        assert q in multiset(sent) && q in net';
      }
    }
  }

  /** Requests in flight after an event. */
  function RequestsLeft(cfg: Config, net: multiset<Packet>, p: Packet, e: Event): set<Slot>
    requires IsCurrent(cfg, p)
  {
    if e.Told? || e.Applied? then Requests(cfg, net) - {SlotOf(p)}
    else if e.Imposed? then Requests(cfg, net) + ImposeSlots(cfg, OpAt(p))
    else Requests(cfg, net)
  }

  lemma ReactionRequests(cfg: Config, p: Packet, node: Node, phase: OpPhase, node': Node, phase': OpPhase, e: Event, sent: seq<Packet>)
    requires IsCurrent(cfg, p) && Reacts(cfg, p, node, phase, node', phase', e, sent)
    ensures IsRequest(cfg, p) <==> e.Told? || e.Applied?
    ensures SentRequests(cfg, sent) == if e.Imposed? then ImposeSlots(cfg, (p.msg.key, node.rank)) else {}
  {
    if e.Imposed? {
      var value :| sent == BcastOf(cfg, (p.msg.key, node.rank), e.tag, value);
      BroadcastSlots(cfg, (p.msg.key, node.rank), e.tag, value);
      assert SentRequests(cfg, sent) == SentSlots(cfg, sent);
    } else {
      assert forall q | q in sent :: !IsRequest(cfg, q);
    }
  }

  // The work that is left.

  function Unimposed(cfg: Config, s: System): set<OpId> {
    set o | o in s.ops && o.0 < cfg.Planned() && (s.ops[o].phase.Idle? || s.ops[o].phase.Querying?)
  }

  function Uninvoked(cfg: Config, s: System): set<OpId> {
    set o | o in s.ops && o.0 < cfg.Planned() && s.ops[o].phase.Idle?
  }

  function Unstarted(cfg: Config, s: System): set<nat> {
    set i | i in cfg.Ranks() && !Started(s, i)
  }

  /** `k` times `n`. */
  function Each(n: nat, k: nat): nat {
    if k == 0 then 0 else Each(n, k - 1) + n
  }

  lemma {:induction false} EachAdds(n: nat, j: nat, k: nat)
    ensures Each(n, j + k) == Each(n, j) + Each(n, k)
  {
    if k > 0 {
      EachAdds(n, j, k - 1);
    }
  }

  lemma {:induction false} EachIsProduct(n: nat, k: nat)
    ensures Each(n, k) == n * k
  {
    if k > 0 {
      EachIsProduct(n, k - 1);
      assert n * k == n * (k - 1) + n;
    }
  }

  /** Two deliveries for every message exchange that can still take place, one for every Run. */
  function Work(cfg: Config, s: System): nat {
    |Flying(cfg, s.net)| + |Requests(cfg, s.net)|
    + 2 * Each(cfg.n, |Unimposed(cfg, s)|) + 2 * Each(cfg.n, |Uninvoked(cfg, s)|) + |Unstarted(cfg, s)|
  }

  function ImposesOf(ranks: set<nat>, o: OpId): set<Slot> {
    set j | j in ranks :: Impose(o, j)
  }

  function QueriesOf(ranks: set<nat>, o: OpId): set<Slot> {
    set j | j in ranks :: Query(o, j)
  }

  lemma DisjointSize<T>(a: set<T>, b: set<T>)
    requires a !! b
    ensures |a + b| == |a| + |b|
  {
  }

  lemma {:induction false} SlotsOfRanks(ranks: set<nat>, o: OpId)
    ensures |ImposesOf(ranks, o)| == |QueriesOf(ranks, o)| == |ranks|
  {
    if ranks != {} {
      var r :| r in ranks;
      SlotsOfRanks(ranks - {r}, o);
      assert ImposesOf(ranks, o) == ImposesOf(ranks - {r}, o) + {Impose(o, r)};
      assert QueriesOf(ranks, o) == QueriesOf(ranks - {r}, o) + {Query(o, r)};
    }
  }

  lemma ImposeSlotsSize(cfg: Config, o: OpId)
    ensures |ImposeSlots(cfg, o)| == cfg.n
  {
    RanksSize(cfg);
    SlotsOfRanks(cfg.Ranks(), o);
    assert ImposeSlots(cfg, o) == ImposesOf(cfg.Ranks(), o);
  }

  lemma RequestsAreFlying(cfg: Config, net: multiset<Packet>)
    ensures Requests(cfg, net) <= Flying(cfg, net)
  {
  }

  /** The slots in use and the requests among them, counted together. */
  function Load(cfg: Config, net: multiset<Packet>): nat {
    |Flying(cfg, net)| + |Requests(cfg, net)|
  }

  lemma LoadAfter(cfg: Config, net: multiset<Packet>, p: Packet, net': multiset<Packet>, e: Event)
    requires IsCurrent(cfg, p) && p in net && UniqueSlots(cfg, net)
    requires Flying(cfg, net') == SlotsAfter(cfg, net, p, e) && Requests(cfg, net') == RequestsLeft(cfg, net, p, e)
    requires IsRequest(cfg, p) <==> e.Told? || e.Applied?
    requires e.Imposed? ==> forall slot | slot in ImposeSlots(cfg, OpAt(p)) :: slot !in Flying(cfg, net)
    ensures Load(cfg, net') == Load(cfg, net) - 1 + if e.Imposed? then 2 * cfg.n else 0
  {
    var slots, requests, impose := Flying(cfg, net), Requests(cfg, net), ImposeSlots(cfg, OpAt(p));
    assert SlotOf(p) in slots;
    RequestsAreFlying(cfg, net);
    ImposeSlotsSize(cfg, OpAt(p));
    if e.Told? || e.Applied? {
      assert SlotOf(p) in requests;
    } else if e.Imposed? {
      assert |slots - {SlotOf(p)} + impose| == |slots - {SlotOf(p)}| + |impose|;
      assert |requests + impose| == |requests| + |impose|;
    }
  }

  // Events.

  lemma EventPhases(cfg: Config, p: Packet, node: Node, phase: OpPhase, node': Node, phase': OpPhase, e: Event, sent: seq<Packet>)
    requires IsCurrent(cfg, p) && Reacts(cfg, p, node, phase, node', phase', e, sent)
    ensures phase'.Idle? == phase.Idle?
    ensures if e.Skipped? || e.Imposed? then phase.Querying? && !phase'.Querying? && !phase'.Idle?
            else (phase'.Idle? || phase'.Querying?) == (phase.Idle? || phase.Querying?)
  {
  }

  /** An event that ends a query takes the operation off the list of those that may still impose. */
  lemma OpenSetsAfter(cfg: Config, s: System, s': System, o: OpId, ends: bool)
    requires o in s.ops && o.0 < cfg.Planned() && s'.ops.Keys == s.ops.Keys
    requires forall o' | o' in s.ops && o' != o :: s'.ops[o'] == s.ops[o']
    requires s'.ops[o].phase.Idle? == s.ops[o].phase.Idle?
    requires if ends then s.ops[o].phase.Querying? && !s'.ops[o].phase.Querying? && !s'.ops[o].phase.Idle?
             else (s'.ops[o].phase.Idle? || s'.ops[o].phase.Querying?) == (s.ops[o].phase.Idle? || s.ops[o].phase.Querying?)
    ensures Uninvoked(cfg, s') == Uninvoked(cfg, s)
    ensures |Unimposed(cfg, s')| == |Unimposed(cfg, s)| - if ends then 1 else 0
  {
    if ends {
      assert o in Unimposed(cfg, s);
      assert Unimposed(cfg, s') == Unimposed(cfg, s) - {o};
    } else {
      assert Unimposed(cfg, s') == Unimposed(cfg, s);
    }
  }

  /** What an event does to the counts. */
  ghost predicate Counts(cfg: Config, s: System, s': System, imposes: bool, ends: bool) {
    && Load(cfg, s'.net) == Load(cfg, s.net) - 1 + (if imposes then 2 * cfg.n else 0)
    && |Unimposed(cfg, s')| == |Unimposed(cfg, s)| - (if ends then 1 else 0)
    && Uninvoked(cfg, s') == Uninvoked(cfg, s) && Unstarted(cfg, s') == Unstarted(cfg, s)
  }

  lemma CountsTakeWork(cfg: Config, s: System, s': System, imposes: bool, ends: bool)
    requires Counts(cfg, s, s', imposes, ends) && (imposes ==> ends)
    ensures Work(cfg, s') < Work(cfg, s)
  {
    if ends {
      EachAdds(cfg.n, |Unimposed(cfg, s')|, 1);
    }
  }

  lemma EventRequests(cfg: Config, s: System, p: Packet, s': System, e: Event, sent: seq<Packet>)
    requires IsCurrent(cfg, p) && Happens(cfg, s, p, s', e, sent) && s.nodes[p.dst].rank == p.dst
    ensures IsRequest(cfg, p) <==> e.Told? || e.Applied?
    ensures SentRequests(cfg, sent) == if e.Imposed? then ImposeSlots(cfg, OpAt(p)) else {}
    ensures e.Imposed? ==> s.ops[OpAt(p)].phase.Querying?
  {
    ReactionRequests(cfg, p, s.nodes[p.dst], s.ops[OpAt(p)].phase, s'.nodes[p.dst], s'.ops[OpAt(p)].phase, e, sent);
    ImposedIsQuerying(cfg, p, s.nodes[p.dst], s.ops[OpAt(p)].phase, s'.nodes[p.dst], s'.ops[OpAt(p)].phase, e, sent);
  }

  lemma ImposeSlotsAreFree(cfg: Config, s: System, p: Packet)
    requires IsCurrent(cfg, p) && SlotsFit(cfg, s, p) && s.ops[OpAt(p)].phase.Querying?
    ensures forall slot | slot in ImposeSlots(cfg, OpAt(p)) :: slot !in Flying(cfg, s.net)
  {
  }

  lemma EventLoad(cfg: Config, net: multiset<Packet>, p: Packet, net': multiset<Packet>, e: Event, sent: seq<Packet>)
    requires IsCurrent(cfg, p) && UniqueSlots(cfg, net) == true && p in net && (IsRequest(cfg, p) <==> e.Told? || e.Applied?)
    requires SentRequests(cfg, sent) == if e.Imposed? then ImposeSlots(cfg, OpAt(p)) else {}
    requires e.Imposed? ==> forall slot | slot in ImposeSlots(cfg, OpAt(p)) :: slot !in Flying(cfg, net)
    requires Flying(cfg, net') == SlotsAfter(cfg, net, p, e) && net' == NetAfter(net, p, sent)
    ensures Load(cfg, net') == Load(cfg, net) - 1 + if e.Imposed? then 2 * cfg.n else 0
  {
    RequestsAfter(cfg, net, p, sent);
    LoadAfter(cfg, net, p, net', e);
  }

  lemma ImposedIsQuerying(cfg: Config, p: Packet, node: Node, phase: OpPhase, node': Node, phase': OpPhase, e: Event, sent: seq<Packet>)
    requires IsCurrent(cfg, p) && Reacts(cfg, p, node, phase, node', phase', e, sent)
    ensures e.Imposed? ==> phase.Querying?
  {
  }

  lemma EventOpenSets(cfg: Config, s: System, p: Packet, s': System, e: Event, sent: seq<Packet>)
    requires IsCurrent(cfg, p) && OpAt(p).0 < cfg.Planned() && Happens(cfg, s, p, s', e, sent) == true
    requires OpAt(p) in s.ops && s'.ops.Keys == s.ops.Keys && forall o | o in s.ops && o != OpAt(p) :: s'.ops[o] == s.ops[o]
    ensures Uninvoked(cfg, s') == Uninvoked(cfg, s)
    ensures |Unimposed(cfg, s')| == |Unimposed(cfg, s)| - if e.Skipped? || e.Imposed? then 1 else 0
  {
    EventPhases(cfg, p, s.nodes[p.dst], s.ops[OpAt(p)].phase, s'.nodes[p.dst], s'.ops[OpAt(p)].phase, e, sent);
    OpenSetsAfter(cfg, s, s', OpAt(p), e.Skipped? || e.Imposed?);
  }

  /** Every delivery of a message of the run takes at least one unit of work. */
  lemma EventTakesWork(cfg: Config, s: System, p: Packet, s': System, e: Event, sent: seq<Packet>)
    requires Inv(cfg, s) == true && HasShape(cfg, s) && IsCurrent(cfg, p) && p in s.net && Happens(cfg, s, p, s', e, sent) == true
    ensures Work(cfg, s') < Work(cfg, s)
  {
    EventFacts(cfg, s, p, s', e, sent);
    EventRequests(cfg, s, p, s', e, sent);
    if e.Imposed? {
      ImposeSlotsAreFree(cfg, s, p);
    }
    assert SlotsFit(cfg, s, p);
    EventLoad(cfg, s.net, p, s'.net, e, sent);
    EventOpenSets(cfg, s, p, s', e, sent);
    CountsTakeWork(cfg, s, s', e.Imposed?, e.Skipped? || e.Imposed?);
  }

  lemma EventFacts(cfg: Config, s: System, p: Packet, s': System, e: Event, sent: seq<Packet>)
    requires Inv(cfg, s) == true && HasShape(cfg, s) && IsCurrent(cfg, p) && p in s.net && Happens(cfg, s, p, s', e, sent) == true
    ensures SlotsFit(cfg, s, p) == true && p.msg.key < cfg.Planned() && s'.ops.Keys == s.ops.Keys && OpAt(p) in s.ops
    ensures Flying(cfg, s'.net) == SlotsAfter(cfg, s.net, p, e) && s'.net == NetAfter(s.net, p, sent)
    ensures forall o | o in s.ops && o != OpAt(p) :: s'.ops[o] == s.ops[o]
    ensures Unstarted(cfg, s') == Unstarted(cfg, s)
  {
    PartsOfInv(cfg, s, p);
    EventsSettle(cfg, s, p, s', e, sent);
    ReceiverReady(cfg, s, p, s', e, sent);
    LocalFacts(cfg, s, p, s', e, sent);
  }

  lemma LocalFacts(cfg: Config, s: System, p: Packet, s': System, e: Event, sent: seq<Packet>)
    requires HasShape(cfg, s) && IsCurrent(cfg, p) && Settles(cfg, s, p, s', e, sent)
    ensures s'.ops.Keys == s.ops.Keys && OpAt(p) in s.ops
    ensures Flying(cfg, s'.net) == SlotsAfter(cfg, s.net, p, e) && s'.net == NetAfter(s.net, p, sent)
    ensures forall o | o in s.ops && o != OpAt(p) :: s'.ops[o] == s.ops[o]
    ensures Unstarted(cfg, s') == Unstarted(cfg, s)
  {
    SameStarted(cfg, s, p, s');
  }

  lemma SameStarted(cfg: Config, s: System, p: Packet, s': System)
    requires HasShape(cfg, s) && IsCurrent(cfg, p) && Elsewhere(cfg, s, p, s')
    ensures Unstarted(cfg, s') == Unstarted(cfg, s)
  {
  }

  // Invocations.

  function QueriesBelow(cfg: Config, i: nat, count: nat): (r: set<Slot>)
    ensures forall slot :: slot in r <==> slot.Query? && slot.op.1 == i && slot.op.0 < count && slot.responder in cfg.Ranks()
  {
    set k: nat, j | k in Below(count) && j in cfg.Ranks() :: Query((k, i), j)
  }

  lemma LastQueries(cfg: Config, i: nat, count: nat)
    requires count > 0
    ensures QueriesBelow(cfg, i, count) == QueriesBelow(cfg, i, count - 1) + QueriesOf(cfg.Ranks(), (count - 1, i))
    ensures QueriesBelow(cfg, i, count - 1) !! QueriesOf(cfg.Ranks(), (count - 1, i))
  {
  }

  lemma {:induction false} QuerySlotsSize(cfg: Config, i: nat, count: nat)
    ensures |QueriesBelow(cfg, i, count)| == Each(cfg.n, count)
  {
    if count == 0 {
      assert QueriesBelow(cfg, i, count) == {};
    } else {
      QuerySlotsSize(cfg, i, count - 1);
      LastQueriesSize(cfg, i, count);
    }
  }

  lemma LastQueriesSize(cfg: Config, i: nat, count: nat)
    requires count > 0
    ensures |QueriesBelow(cfg, i, count)| == |QueriesBelow(cfg, i, count - 1)| + cfg.n
  {
    LastQueries(cfg, i, count);
    RanksSize(cfg);
    SlotsOfRanks(cfg.Ranks(), (count - 1, i));
    DisjointSize(QueriesBelow(cfg, i, count - 1), QueriesOf(cfg.Ranks(), (count - 1, i)));
  }

  function PlannedOps(i: nat, count: nat): set<OpId> {
    set k: nat | k in Below(count) :: (k, i)
  }

  lemma {:induction false} PlannedOpsSize(i: nat, count: nat)
    ensures |PlannedOps(i, count)| == count
  {
    if count == 0 {
      assert PlannedOps(i, count) == {};
    } else {
      PlannedOpsSize(i, count - 1);
      assert PlannedOps(i, count) == PlannedOps(i, count - 1) + {(count - 1, i)};
    }
  }

  /** What an invocation does to the phases. */
  ghost predicate InvokedPhases(cfg: Config, s: System, i: nat, s': System) {
    && s'.ops.Keys == s.ops.Keys && (forall k: nat | k < cfg.Planned() :: (k, i) in s.ops)
    && forall o: OpId | o in s.ops ::
         if o.1 == i && o.0 < cfg.Planned() then s.ops[o].phase.Idle? && s'.ops[o].phase.Querying? else s'.ops[o] == s.ops[o]
  }

  lemma InvokedSets(cfg: Config, s: System, i: nat, s': System)
    requires InvokedPhases(cfg, s, i, s')
    ensures Unimposed(cfg, s') == Unimposed(cfg, s)
    ensures |Uninvoked(cfg, s)| == |Uninvoked(cfg, s')| + cfg.Planned()
  {
    var planned := PlannedOps(i, cfg.Planned());
    PlannedOpsSize(i, cfg.Planned());
    assert Uninvoked(cfg, s) == Uninvoked(cfg, s') + planned;
    assert Uninvoked(cfg, s') !! planned;
  }

  lemma InvokedStarts(cfg: Config, s: System, i: nat, s': System, sent: seq<Packet>)
    requires i in cfg.Ranks() && s.net[RunPacket(i)] == 1 && SendsRequests(cfg, i, sent)
    requires s'.net == NetAfter(s.net, RunPacket(i), sent)
    ensures |Unstarted(cfg, s)| == |Unstarted(cfg, s')| + 1
  {
    forall j | j in cfg.Ranks() ensures Started(s', j) <==> j == i || Started(s, j) {
      InvokeStarts(cfg, s, i, s', sent, j);
    }
    assert Unstarted(cfg, s) == Unstarted(cfg, s') + {i};
  }

  lemma SentQueries(cfg: Config, i: nat, sent: seq<Packet>)
    requires SendsRequests(cfg, i, sent)
    ensures SentRequests(cfg, sent) == QueriesBelow(cfg, i, cfg.Planned())
  {
    forall slot | slot in QueriesBelow(cfg, i, cfg.Planned()) ensures slot in SentRequests(cfg, sent) {
      assert RequestOf(cfg, i, slot.op.0, slot.responder) in sent;
    }
  }

  lemma InvokedLoad(cfg: Config, i: nat, net: multiset<Packet>, net': multiset<Packet>, sent: seq<Packet>)
    requires UniqueSlots(cfg, net) == true && RunPacket(i) in net && SendsRequests(cfg, i, sent) == true
    requires net' == NetAfter(net, RunPacket(i), sent) && Flying(cfg, net') == Flying(cfg, net) + QuerySlots(cfg, i)
    requires forall slot | slot in QuerySlots(cfg, i) :: slot !in Flying(cfg, net)
    ensures Load(cfg, net') == Load(cfg, net) + 2 * Each(cfg.n, cfg.Planned())
  {
    var queries := QueriesBelow(cfg, i, cfg.Planned());
    assert queries == QuerySlots(cfg, i);
    RequestsAfter(cfg, net, RunPacket(i), sent);
    RequestsAreFlying(cfg, net);
    SentQueries(cfg, i, sent);
    QuerySlotsSize(cfg, i, cfg.Planned());
    BothGrow(Flying(cfg, net), Requests(cfg, net), queries);
  }

  lemma BothGrow(flying: set<Slot>, requests: set<Slot>, more: set<Slot>)
    requires requests <= flying && flying !! more
    ensures |flying + more| + |requests + more| == |flying| + |requests| + 2 * |more|
  {
    assert requests !! more;
  }

  lemma InvokeTakesWork(cfg: Config, s: System, i: nat, s': System, sent: seq<Packet>)
    requires Inv(cfg, s) == true && HasShape(cfg, s) && i in cfg.Ranks() && RunPacket(i) in s.net && Invokes(cfg, s, i, s', sent) == true
    ensures Work(cfg, s') == Work(cfg, s) - 1
  {
    InvokeFacts(cfg, s, i, s', sent);
    InvokedLoad(cfg, i, s.net, s'.net, sent);
    InvokedSets(cfg, s, i, s');
    InvokedStarts(cfg, s, i, s', sent);
    InvokedWork(cfg, s, s');
  }

  lemma InvokedWork(cfg: Config, s: System, s': System)
    requires Load(cfg, s'.net) == Load(cfg, s.net) + 2 * Each(cfg.n, cfg.Planned())
    requires Unimposed(cfg, s') == Unimposed(cfg, s) && |Uninvoked(cfg, s)| == |Uninvoked(cfg, s')| + cfg.Planned()
    requires |Unstarted(cfg, s)| == |Unstarted(cfg, s')| + 1
    ensures Work(cfg, s') == Work(cfg, s) - 1
  {
    EachAdds(cfg.n, |Uninvoked(cfg, s')|, cfg.Planned());
  }

  lemma InvokeFacts(cfg: Config, s: System, i: nat, s': System, sent: seq<Packet>)
    requires Inv(cfg, s) && i in cfg.Ranks() && RunPacket(i) in s.net && Invokes(cfg, s, i, s', sent) == true
    ensures UniqueSlots(cfg, s.net) == true && SendsRequests(cfg, i, sent) == true && s.net[RunPacket(i)] == 1
    ensures s'.net == NetAfter(s.net, RunPacket(i), sent) && Flying(cfg, s'.net) == Flying(cfg, s.net) + QuerySlots(cfg, i)
    ensures forall slot | slot in QuerySlots(cfg, i) :: slot !in Flying(cfg, s.net)
    ensures InvokedPhases(cfg, s, i, s') == true
  {
    NetMeansUnique(cfg, s);
    WaitingIsIdle(cfg, s, i);
    InvokeSettles(cfg, s, i, s', sent);
    InvokedSlots(cfg, s, i, s', sent);
    QueriesAreNew(cfg, s, i);
    InvokeChangesPhases(cfg, s, i, s', sent);
  }

  lemma QueriesAreNew(cfg: Config, s: System, i: nat)
    requires Inv(cfg, s) && i in cfg.Ranks() && RunPacket(i) in s.net
    ensures forall slot | slot in QuerySlots(cfg, i) :: slot !in Flying(cfg, s.net)
  {
    forall slot | slot in QuerySlots(cfg, i) ensures slot !in Flying(cfg, s.net) {
      assert OpInv(cfg, s, slot.op);
      assert slot.responder in Replied(cfg, s, slot.op);
    }
  }

  lemma InvokeChangesPhases(cfg: Config, s: System, i: nat, s': System, sent: seq<Packet>)
    requires HasShape(cfg, s) && i in cfg.Ranks() && Invokes(cfg, s, i, s', sent)
    requires forall o: OpId | o in s.ops && o.1 == i :: s.ops[o].phase.Idle?
    ensures InvokedPhases(cfg, s, i, s') == true
  {
  }

  // Messages of other runs.

  lemma InertTakesNoWork(cfg: Config, s: System, p: Packet, s': System, sent: seq<Packet>)
    requires UniqueSlots(cfg, s.net) && p in s.net && IsStale(cfg, p) && IsInert(cfg, s, p, s', sent)
    ensures Work(cfg, s') == Work(cfg, s)
  {
    InertSlots(cfg, s.net, p, sent);
    RequestsAfter(cfg, s.net, p, sent);
    assert SentRequests(cfg, sent) == {};
    forall i | i in cfg.Ranks() ensures Started(s', i) == Started(s, i) {
      InertStarts(cfg, s, p, s', sent, i);
    }
    assert Unstarted(cfg, s') == Unstarted(cfg, s);
    assert Unimposed(cfg, s') == Unimposed(cfg, s) && Uninvoked(cfg, s') == Uninvoked(cfg, s);
  }

  // Runs.

  /** The delivery of a message of this run, a Run included, takes work; one of another run takes none. */
  lemma DeliveryTakesWork(cfg: Config, s: System, p: Packet, now: int)
    requires Inv(cfg, s) == true && HasShape(cfg, s) && p in s.net && p.dst in s.nodes
    ensures Deliver(cfg, s, p, now).Some?
    ensures if IsStale(cfg, p) then Work(cfg, Deliver(cfg, s, p, now).value) == Work(cfg, s)
            else Work(cfg, Deliver(cfg, s, p, now).value) < Work(cfg, s)
  {
    if !IsProtocol(p.msg) {
      RunMessage(cfg, s, p);
      WaitingIsFresh(cfg, s, p.dst);
      var s', sent := RunInvokes(cfg, s, p.dst, now);
      InvokeTakesWork(cfg, s, p.dst, s', sent);
    } else if IsCurrent(cfg, p) {
      var s', e, sent := SomethingHappens(cfg, s, p, now);
      EventTakesWork(cfg, s, p, s', e, sent);
    } else {
      var s', sent := StaleIsInert(cfg, s, p, now);
      NetMeansUnique(cfg, s);
      InertTakesNoWork(cfg, s, p, s', sent);
    }
  }

  /** A delivery: the message and the clock time at which it is handled. */
  datatype Step = Step(packet: Packet, now: int)

  ghost predicate StepsTo(cfg: Config, s: System, step: Step, s': System) {
    && step.packet in s.net && step.packet.dst in s.nodes && s.now <= step.now
    && Deliver(cfg, s, step.packet, step.now) == Some(s')
  }

  ghost predicate TrailAt(cfg: Config, run: seq<System>, steps: seq<Step>, i: nat)
    requires i < |steps| && |run| == |steps| + 1
  {
    StepsTo(cfg, run[i], steps[i], run[i + 1])
  }

  /** A run together with the deliveries that make it. */
  ghost predicate IsTrail(cfg: Config, run: seq<System>, steps: seq<Step>) {
    && cfg.Valid() && |run| == |steps| + 1 && IsInitial(cfg, run[0])
    && forall i: nat | i < |steps| :: TrailAt(cfg, run, steps, i)
  }

  /** How many deliveries are of messages of this run. */
  function OwnDeliveries(cfg: Config, steps: seq<Step>): nat {
    if steps == [] then 0
    else OwnDeliveries(cfg, steps[..|steps| - 1]) + if IsStale(cfg, steps[|steps| - 1].packet) then 0 else 1
  }

  lemma StepTakesWork(cfg: Config, s: System, step: Step, s': System)
    requires Inv(cfg, s) == true && StepsTo(cfg, s, step, s')
    ensures Inv(cfg, s') == true
    ensures Work(cfg, s') + (if IsStale(cfg, step.packet) then 0 else 1) <= Work(cfg, s)
  {
    DeliveryTakesWork(cfg, s, step.packet, step.now);
    assert Next(cfg, s, s');
    NextKeepsInv(cfg, s, s');
  }

  lemma TrailStep(cfg: Config, run: seq<System>, steps: seq<Step>, i: nat)
    requires IsTrail(cfg, run, steps) && i < |steps| && Inv(cfg, run[i]) == true
    ensures Inv(cfg, run[i + 1]) == true
    ensures Work(cfg, run[i + 1]) + OwnDeliveries(cfg, steps[..i + 1]) <= Work(cfg, run[i]) + OwnDeliveries(cfg, steps[..i])
  {
    assert TrailAt(cfg, run, steps, i);
    StepTakesWork(cfg, run[i], steps[i], run[i + 1]);
    OneDeliveryMore(cfg, steps, i);
  }

  lemma OneDeliveryMore(cfg: Config, steps: seq<Step>, i: nat)
    requires i < |steps|
    ensures OwnDeliveries(cfg, steps[..i + 1]) == OwnDeliveries(cfg, steps[..i]) + if IsStale(cfg, steps[i].packet) then 0 else 1
  {
    assert steps[..i + 1][..i] == steps[..i];
  }

  lemma TrailStarts(cfg: Config, run: seq<System>, steps: seq<Step>)
    requires IsTrail(cfg, run, steps)
    ensures Inv(cfg, run[0]) == true && Work(cfg, run[0]) == cfg.n + 4 * (cfg.n * (cfg.n * cfg.Planned()))
  {
    InitialHasInv(cfg, run[0]);
    InitialNet(cfg, run[0]);
    InitialWork(cfg, run[0]);
  }

  function AllPlanned(cfg: Config, count: nat): (r: set<OpId>)
    ensures forall o: OpId :: o in r <==> o.0 < count && o.1 in cfg.Ranks()
  {
    set k: nat, i | k in Below(count) && i in cfg.Ranks() :: (k, i)
  }

  function OfKey(ranks: set<nat>, k: nat): set<OpId> {
    set i | i in ranks :: (k, i)
  }

  lemma {:induction false} OfKeySize(ranks: set<nat>, k: nat)
    ensures |OfKey(ranks, k)| == |ranks|
  {
    if ranks != {} {
      var r :| r in ranks;
      OfKeySize(ranks - {r}, k);
      assert OfKey(ranks, k) == OfKey(ranks - {r}, k) + {(k, r)};
    }
  }

  lemma LastPlanned(cfg: Config, count: nat)
    requires count > 0
    ensures AllPlanned(cfg, count) == AllPlanned(cfg, count - 1) + OfKey(cfg.Ranks(), count - 1)
    ensures AllPlanned(cfg, count - 1) !! OfKey(cfg.Ranks(), count - 1)
  {
  }

  lemma {:induction false} AllPlannedSize(cfg: Config, count: nat)
    ensures |AllPlanned(cfg, count)| == Each(cfg.n, count)
  {
    if count == 0 {
      assert AllPlanned(cfg, count) == {};
    } else {
      AllPlannedSize(cfg, count - 1);
      LastPlannedSize(cfg, count);
    }
  }

  lemma LastPlannedSize(cfg: Config, count: nat)
    requires count > 0
    ensures |AllPlanned(cfg, count)| == |AllPlanned(cfg, count - 1)| + cfg.n
  {
    LastPlanned(cfg, count);
    RanksSize(cfg);
    OfKeySize(cfg.Ranks(), count - 1);
    DisjointSize(AllPlanned(cfg, count - 1), OfKey(cfg.Ranks(), count - 1));
  }

  lemma InitialWork(cfg: Config, s: System)
    requires cfg.Valid() && IsInitial(cfg, s) && Flying(cfg, s.net) == {}
    ensures Work(cfg, s) == cfg.n + 4 * (cfg.n * (cfg.n * cfg.Planned()))
  {
    RequestsAreFlying(cfg, s.net);
    assert Requests(cfg, s.net) == {};
    AllPlannedSize(cfg, cfg.Planned());
    assert Uninvoked(cfg, s) == AllPlanned(cfg, cfg.Planned());
    assert Unimposed(cfg, s) == AllPlanned(cfg, cfg.Planned());
    EachIsProduct(cfg.n, cfg.Planned());
    EachIsProduct(cfg.n, cfg.n * cfg.Planned());
    RanksSize(cfg);
    assert Unstarted(cfg, s) == cfg.Ranks();
  }

  lemma {:induction false} TrailWork(cfg: Config, run: seq<System>, steps: seq<Step>, i: nat)
    requires IsTrail(cfg, run, steps) == true && |run| == |steps| + 1 && i <= |steps| && Inv(cfg, run[0]) == true
    ensures Inv(cfg, run[i]) == true
    ensures Work(cfg, run[i]) + OwnDeliveries(cfg, steps[..i]) <= Work(cfg, run[0])
  {
    if i > 0 {
      TrailWork(cfg, run, steps, i - 1);
      TrailStep(cfg, run, steps, i - 1);
    }
  }

  /**
   * Every run ends: it delivers at most one Run per node and four messages per node, operation and
   * replica, and when none is left every operation has been answered and every node has reported.
   */
  lemma RunsTerminate(cfg: Config, run: seq<System>, steps: seq<Step>, i: nat)
    requires IsTrail(cfg, run, steps) && i in cfg.Ranks()
    ensures OwnDeliveries(cfg, steps) <= cfg.n + 4 * (cfg.n * (cfg.n * cfg.Planned()))
    ensures Drained(cfg, run[|steps|]) ==>
      AllAnswered(cfg, run[|steps|], i) && (i in run[|steps|].finished <==> cfg.Planned() > 0)
  {
    TrailStarts(cfg, run, steps);
    TrailWork(cfg, run, steps, |steps|);
    assert steps[..|steps|] == steps;
    if Drained(cfg, run[|steps|]) {
      DrainedNodeAnswered(cfg, run[|steps|], i);
      NodeReportsOnce(cfg, run[|steps|], i);
    }
  }
}
