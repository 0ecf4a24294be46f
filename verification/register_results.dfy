/** The main results about every run of the quorum register. */
module RegisterResults {
  import opened Collections
  import opened Histories
  import opened RegisterNode
  import opened RegisterProtocol
  import opened RegisterSafety
  import opened RegisterEvents
  import opened RegisterInvariant
  import opened RegisterRuns
  import opened RegisterTheorems
  import opened RegisterTags
  import opened RegisterQuorum

  /** Everything that holds in every reachable state. */
  ghost predicate FullInv(cfg: Config, s: System) {
    Inv(cfg, s) && LatticeInv(cfg, s) && OrderInv(cfg, s)
  }

  lemma InitialTags(cfg: Config, s: System)
    requires cfg.Valid() && IsInitial(cfg, s) && HasShape(cfg, s)
    ensures LatticeInv(cfg, s) && OrderInv(cfg, s)
  {
  }

  lemma InitialHasFullInv(cfg: Config, s: System)
    requires cfg.Valid() && IsInitial(cfg, s)
    ensures FullInv(cfg, s)
  {
    InitialHasInv(cfg, s);
    InitialTags(cfg, s);
  }

  lemma StepKeepsTags(cfg: Config, s: System, p: Packet, s': System, e: Event, sent: seq<Packet>)
    requires FullInv(cfg, s) && Steps(cfg, s, p, s', e, sent) && HasShape(cfg, s')
    ensures LatticeInv(cfg, s') == true && OrderInv(cfg, s') == true
  {
    StepsAreTagSteps(cfg, s, p, s', e, sent);
    LatticeKept(cfg, s, p, s');
    OrderKept(cfg, s, p, s');
  }

  /** Every delivery is a step that keeps the invariants. */
  lemma NextKeepsFullInv(cfg: Config, s: System, s': System) returns (p: Packet, e: Event, sent: seq<Packet>)
    requires FullInv(cfg, s) && Next(cfg, s, s') == true
    ensures FullInv(cfg, s') == true && Steps(cfg, s, p, s', e, sent) == true
  {
    p, e, sent := NextSteps(cfg, s, s');
    StepsKeepInv(cfg, s, p, s', e, sent);
    StepKeepsTags(cfg, s, p, s', e, sent);
  }

  lemma StepAtKeepsFullInv(cfg: Config, run: seq<System>, i: nat)
    requires IsRun(cfg, run) && i + 1 < |run| && FullInv(cfg, run[i]) == true
    ensures FullInv(cfg, run[i + 1]) == true
  {
    assert StepAt(cfg, run, i);
    var p, e, sent := NextKeepsFullInv(cfg, run[i], run[i + 1]);
  }

  lemma RunStartsWithFullInv(cfg: Config, run: seq<System>)
    requires IsRun(cfg, run)
    ensures FullInv(cfg, run[0]) == true
  {
    InitialHasFullInv(cfg, run[0]);
  }

  /** Every state of every run satisfies the invariants. */
  lemma {:induction false} AlwaysFullInv(cfg: Config, run: seq<System>, i: nat)
    requires IsRun(cfg, run) && i < |run|
    ensures FullInv(cfg, run[i]) == true
  {
    if i == 0 {
      RunStartsWithFullInv(cfg, run);
    } else {
      AlwaysFullInv(cfg, run, i - 1);
      StepAtKeepsFullInv(cfg, run, i - 1);
    }
  }

  // Responses.

  function OpenCount(node: Node): nat {
    node.readCount + node.writeCount
  }

  /** The operations of `s` that `s'` has answered. */
  function JustAnswered(s: System, s': System): set<OpId> {
    set o | o in s.ops && o in s'.ops && !s.ops[o].phase.Responded? && s'.ops[o].phase.Responded?
  }

  /** Operations only go forward: querying, perhaps imposing one tag, responded. */
  ghost predicate Forward(phase: OpPhase, phase': OpPhase) {
    match phase
    case Idle => phase'.Idle? || phase'.Querying?
    case Querying => phase' == phase || phase'.Imposing? || phase' == Responded(None)
    case Imposing(tag) => phase' == phase || phase' == Responded(Some(tag))
    case Responded(_) => phase' == phase
  }

  /** What the delivery of `p` did, in terms of responses. */
  ghost predicate RespondsOnce(cfg: Config, s: System, p: Packet, s': System, sent: seq<Packet>) {
    && p.dst in s.nodes && p.dst in s'.nodes && s'.ops.Keys == s.ops.Keys
    && (forall o | o in s.ops :: Forward(s.ops[o].phase, s'.ops[o].phase))
    && (!p.msg.Run? ==> OpenCount(s'.nodes[p.dst]) + |JustAnswered(s, s')| == OpenCount(s.nodes[p.dst]))
    && |JustAnswered(s, s')| <= 1
    && (forall o | o in JustAnswered(s, s') :: IsProtocol(p.msg) && o == OpAt(p))
    && (forall q | q in sent && q.msg.Write? :: SlotOf(q).op in s.ops && s.ops[SlotOf(q).op].phase.Querying?)
  }

  lemma ReactionForward(cfg: Config, p: Packet, node: Node, phase: OpPhase, node': Node, phase': OpPhase, e: Event, sent: seq<Packet>)
    requires IsCurrent(cfg, p) && Reacts(cfg, p, node, phase, node', phase', e, sent)
    ensures Forward(phase, phase')
    ensures OpenCount(node') + (if !phase.Responded? && phase'.Responded? then 1 else 0) == OpenCount(node)
    ensures forall q | q in sent && q.msg.Write? :: phase.Querying? && SlotOf(q).op == (p.msg.key, node.rank)
  {
  }

  lemma OneAnswer(cfg: Config, s: System, p: Packet, s': System, sent: seq<Packet>)
    requires IsCurrent(cfg, p) && Moved(s, p, s', sent)
    requires var phase, phase' := s.ops[OpAt(p)].phase, s'.ops[OpAt(p)].phase;
             && Forward(phase, phase')
             && OpenCount(s'.nodes[p.dst]) + (if !phase.Responded? && phase'.Responded? then 1 else 0) == OpenCount(s.nodes[p.dst])
             && forall q | q in sent && q.msg.Write? :: phase.Querying? && SlotOf(q).op == OpAt(p)
    ensures RespondsOnce(cfg, s, p, s', sent) == true
  {
    var o := OpAt(p);
    assert forall o' | o' in s.ops && o' != o :: s'.ops[o'] == s.ops[o'];
    assert s'.ops.Keys == s.ops.Keys;
    var answered := !s.ops[o].phase.Responded? && s'.ops[o].phase.Responded?;
    assert JustAnswered(s, s') == if answered then {o} else {};
  }

  lemma EventRespondsOnce(cfg: Config, s: System, p: Packet, s': System, e: Event, sent: seq<Packet>)
    requires IsCurrent(cfg, p) && Happens(cfg, s, p, s', e, sent) == true && s.nodes[p.dst].rank == p.dst
    ensures RespondsOnce(cfg, s, p, s', sent) == true
  {
    var o := OpAt(p);
    ReactionForward(cfg, p, s.nodes[p.dst], s.ops[o].phase, s'.nodes[p.dst], s'.ops[o].phase, e, sent);
    OneAnswer(cfg, s, p, s', sent);
  }

  lemma OtherRespondsOnce(cfg: Config, s: System, p: Packet, s': System, sent: seq<Packet>)
    requires p.dst in s.nodes && p.dst in s'.nodes && s'.ops.Keys == s.ops.Keys
    requires forall o | o in s.ops :: s'.ops[o] == s.ops[o] || (s.ops[o].phase.Idle? && s'.ops[o].phase.Querying?)
    requires p.msg.Run? || s'.nodes == s.nodes
    requires forall q | q in sent :: !q.msg.Write?
    ensures RespondsOnce(cfg, s, p, s', sent) == true
  {
    assert JustAnswered(s, s') == {};
  }

  lemma InertRespondsOnce(cfg: Config, s: System, p: Packet, s': System, now: int) returns (sent: seq<Packet>)
    requires HasShape(cfg, s) && p in s.net && IsStale(cfg, p) && p.dst in s.nodes
    requires Deliver(cfg, s, p, now) == Some(s')
    ensures s'.net == NetAfter(s.net, p, sent) && RespondsOnce(cfg, s, p, s', sent) == true
  {
    var node := s.nodes[p.dst];
    sent := if p.msg.Write? then [AckTo(p)] else [];
    assert Receive(node, p.src, p.msg, now) == Handled(node, sent);
    assert s'.nodes == s.nodes;
    assert s'.ops == s.ops;
    OtherRespondsOnce(cfg, s, p, s', sent);
  }

  lemma InvokeRespondsOnce(cfg: Config, s: System, i: nat, s': System, sent: seq<Packet>)
    requires HasShape(cfg, s) && i in cfg.Ranks() && Invokes(cfg, s, i, s', sent)
    requires forall o: OpId | o in s.ops && o.1 == i :: s.ops[o].phase.Idle?
    ensures RespondsOnce(cfg, s, RunPacket(i), s', sent) == true
  {
    OtherRespondsOnce(cfg, s, RunPacket(i), s', sent);
  }

  lemma DeliveryRespondsOnce(cfg: Config, s: System, p: Packet, now: int) returns (s': System, sent: seq<Packet>)
    requires Inv(cfg, s) && p in s.net && p.dst in s.nodes
    ensures Deliver(cfg, s, p, now) == Some(s') && s'.net == NetAfter(s.net, p, sent)
    ensures RespondsOnce(cfg, s, p, s', sent) == true
  {
    var e;
    s', e, sent := EveryDeliverySteps(cfg, s, p, now);
    match e {
      case Ignored => sent := InertRespondsOnce(cfg, s, p, s', now);
      case Invoked =>
        WaitingIsIdle(cfg, s, p.dst);
        InvokeRespondsOnce(cfg, s, p.dst, s', sent);
      case _ => EventRespondsOnce(cfg, s, p, s', e, sent);
    }
  }

  /**
   * However many replies arrive late, an operation broadcasts one Write at most and is answered
   * once at most, and each answer takes exactly one off its node's counters.
   */
  lemma OneResponse(cfg: Config, run: seq<System>, i: nat, p: Packet, now: int) returns (s': System, sent: seq<Packet>)
    requires IsRun(cfg, run) && i < |run| && p in run[i].net && p.dst in run[i].nodes
    ensures Deliver(cfg, run[i], p, now) == Some(s') && s'.net == NetAfter(run[i].net, p, sent)
    ensures RespondsOnce(cfg, run[i], p, s', sent) == true
  {
    InvAlongRun(cfg, run, i);
    s', sent := DeliveryRespondsOnce(cfg, run[i], p, now);
  }

  predicate IsReport(q: Packet, i: nat) {
    (q.msg.Done? || q.msg.TestDone?) && q.src == i
  }

  /** Every planned operation of a node has responded. */
  ghost predicate AllAnswered(cfg: Config, s: System, i: nat) {
    Started(s, i) && forall k: nat | k < cfg.Planned() :: (k, i) in s.ops && s.ops[(k, i)].phase.Responded?
  }

  lemma NoneUnanswered(cfg: Config, s: System, i: nat)
    requires Started(s, i) && forall k: nat | k < cfg.Planned() :: (k, i) in s.ops
    ensures Unanswered(cfg, s, i, true) == {} && Unanswered(cfg, s, i, false) == {} <==> AllAnswered(cfg, s, i)
  {
    var openReads, openWrites := Unanswered(cfg, s, i, true), Unanswered(cfg, s, i, false);
    if openReads == {} && openWrites == {} {
      forall k: nat | k < cfg.Planned() ensures (k, i) in s.ops && s.ops[(k, i)].phase.Responded? {
        assert k !in openReads && k !in openWrites;
      }
    }
  }

  lemma CountersShowAnswers(cfg: Config, s: System, i: nat)
    requires Inv(cfg, s) && i in cfg.Ranks() && Started(s, i)
    ensures s.nodes[i].readCount == 0 && s.nodes[i].writeCount == 0 <==> AllAnswered(cfg, s, i)
  {
    assert CountInv(cfg, s, i);
    NoneUnanswered(cfg, s, i);
  }

  /** A node reports exactly when all its operations have been answered, and once; a node without operations never does. */
  lemma ReportsOnce(cfg: Config, run: seq<System>, m: nat, i: nat)
    requires IsRun(cfg, run) && m < |run| && i in cfg.Ranks()
    ensures i in run[m].finished <==> cfg.Planned() > 0 && AllAnswered(cfg, run[m], i)
    ensures i in run[m].finished ==> run[m].net[Report(cfg, i, run[m].finished[i])] == 1
    ensures forall q | q in run[m].net && IsReport(q, i) :: i in run[m].finished && q == Report(cfg, i, run[m].finished[i])
  {
    InvAlongRun(cfg, run, m);
    NodeReportsOnce(cfg, run[m], i);
  }

  lemma NodeReportsOnce(cfg: Config, s: System, i: nat)
    requires Inv(cfg, s) && i in cfg.Ranks()
    ensures i in s.finished <==> cfg.Planned() > 0 && AllAnswered(cfg, s, i)
    ensures i in s.finished ==> s.net[Report(cfg, i, s.finished[i])] == 1
    ensures forall q | q in s.net && IsReport(q, i) :: i in s.finished && q == Report(cfg, i, s.finished[i])
  {
    assert CountInv(cfg, s, i);
    if Started(s, i) {
      CountersShowAnswers(cfg, s, i);
    }
    forall q | q in s.net && IsReport(q, i) ensures i in s.finished && q == Report(cfg, i, s.finished[i]) {
      assert PacketInv(cfg, s, q);
    }
  }

  // The drained network.

  /** Every message of this run that a node can receive has been delivered. */
  ghost predicate Drained(cfg: Config, s: System) {
    forall p | p in s.net && p.dst in s.nodes :: IsStale(cfg, p)
  }

  lemma DrainedHasNoSlots(cfg: Config, s: System, o: OpId)
    requires HasShape(cfg, s) && NetInv(cfg, s) && Drained(cfg, s)
    ensures Replied(cfg, s, o) == cfg.Ranks() && Acked(cfg, s, o) == cfg.Ranks()
    ensures forall i | i in cfg.Ranks() :: Started(s, i)
  {
    forall p | p in s.net ensures !IsCurrent(cfg, p) {
      assert PacketInv(cfg, s, p);
    }
    assert Flying(cfg, s.net) == {};
  }

  lemma DrainedOpResponded(cfg: Config, s: System, o: OpId)
    requires Inv(cfg, s) && Drained(cfg, s) && o in s.ops && o.0 < cfg.Planned()
    ensures s.ops[o].phase.Responded?
  {
    assert OpInv(cfg, s, o);
    DrainedHasNoSlots(cfg, s, o);
    RanksSize(cfg);
    assert |ListOf(s, o)| == |ListOf(s, o).Keys|;
  }

  /** No operation is left hanging: once the messages are delivered, everything has been answered. */
  lemma DrainedMeansDone(cfg: Config, run: seq<System>, m: nat, i: nat)
    requires IsRun(cfg, run) && m < |run| && Drained(cfg, run[m]) && i in cfg.Ranks()
    ensures AllAnswered(cfg, run[m], i)
    ensures i in run[m].finished <==> cfg.Planned() > 0
  {
    InvAlongRun(cfg, run, m);
    DrainedNodeAnswered(cfg, run[m], i);
    ReportsOnce(cfg, run, m, i);
  }

  lemma DrainedNodeAnswered(cfg: Config, s: System, i: nat)
    requires Inv(cfg, s) && Drained(cfg, s) && i in cfg.Ranks()
    ensures AllAnswered(cfg, s, i)
  {
    DrainedHasNoSlots(cfg, s, (0, i));
    forall k: nat | k < cfg.Planned() ensures (k, i) in s.ops && s.ops[(k, i)].phase.Responded? {
      assert (k, i) in s.ops;
      DrainedOpResponded(cfg, s, (k, i));
    }
  }

  // Tags.

  /** A replica always holds the largest of the tags that were delivered to it. */
  lemma ReplicaHoldsMaximum(cfg: Config, run: seq<System>, m: nat, j: nat, key: nat)
    requires IsRun(cfg, run) && m < |run| && j in cfg.Ranks() && key < cfg.numKeys
    ensures HasShape(cfg, run[m]) && HoldsMaximum(cfg, run[m], j, key)
  {
    AlwaysFullInv(cfg, run, m);
  }

  /** Once no Write is in flight, all replicas of a key hold the same tag. */
  lemma ReplicasAgree(cfg: Config, run: seq<System>, m: nat, i: nat, j: nat, key: nat)
    requires IsRun(cfg, run) && m < |run| && i in cfg.Ranks() && j in cfg.Ranks() && key < cfg.numKeys
    requires forall q | q in run[m].net :: !(IsCurrent(cfg, q) && q.msg.Write? && q.msg.key == key)
    ensures HasShape(cfg, run[m]) && TagAt(run[m], i, key) == TagAt(run[m], j, key)
  {
    ReplicaHoldsMaximum(cfg, run, m, i, key);
    ReplicaHoldsMaximum(cfg, run, m, j, key);
    DeliveredEverywhere(cfg, run[m], i, j, key);
    DeliveredEverywhere(cfg, run[m], j, i, key);
  }

  lemma DeliveredEverywhere(cfg: Config, s: System, i: nat, j: nat, key: nat)
    requires HasShape(cfg, s) && i in cfg.Ranks() && j in cfg.Ranks() && key < cfg.numKeys
    requires HoldsMaximum(cfg, s, i, key) && HoldsMaximum(cfg, s, j, key)
    requires forall q | q in s.net :: !(IsCurrent(cfg, q) && q.msg.Write? && q.msg.key == key)
    ensures TagAt(s, i, key).AtLeast(TagAt(s, j, key))
  {
    if TagAt(s, j, key) != ZeroTag {
      var o: OpId :| o.0 == key && Delivered(cfg, s, o, TagAt(s, j, key), j);
      assert Delivered(cfg, s, o, TagAt(s, j, key), i);
    }
  }

  /** Two writes on a key never choose the same tag. */
  lemma WritesChooseDistinctTags(cfg: Config, run: seq<System>, m: nat, a: OpId, b: OpId, tag: Tag)
    requires IsRun(cfg, run) && m < |run| && a.0 == b.0
    requires Mints(cfg, run[m], a, tag) && Mints(cfg, run[m], b, tag)
    ensures a == b && tag != ZeroTag
  {
    AlwaysFullInv(cfg, run, m);
    assert ImposesMinted(cfg, run[m], a) && ImposesMinted(cfg, run[m], b);
  }

  /** The places where a tag of `key` can be seen. */
  ghost predicate Occurs(cfg: Config, s: System, key: nat, tag: Tag)
    requires HasShape(cfg, s)
  {
    || (exists j :: j in cfg.Ranks() && key < cfg.numKeys && TagAt(s, j, key) == tag)
    || (exists q :: q in s.net && IsCurrent(cfg, q) && (q.msg.Value? || q.msg.Write?) && q.msg.key == key && TagOf(q.msg) == tag)
    || (exists o: OpId, j :: o in s.ops && o.0 == key && j in ListOf(s, o) && ListOf(s, o)[j].GetTag() == tag)
  }

  /** Every tag other than zero, wherever it occurs, was chosen by exactly one write. */
  lemma TagsAreMintedOnce(cfg: Config, run: seq<System>, m: nat, key: nat, tag: Tag) returns (o: OpId)
    requires IsRun(cfg, run) && m < |run| && HasShape(cfg, run[m])
    requires Occurs(cfg, run[m], key, tag) && tag != ZeroTag
    ensures o.0 == key && Mints(cfg, run[m], o, tag) && o.1 == tag.wr
    ensures forall b: OpId | b.0 == key && Mints(cfg, run[m], b, tag) :: b == o
  {
    AlwaysFullInv(cfg, run, m);
    SeenIsMinted(cfg, run[m], key, tag);
    o :| o.0 == key && Mints(cfg, run[m], o, tag);
    assert ImposesMinted(cfg, run[m], o);
    forall b: OpId | b.0 == key && Mints(cfg, run[m], b, tag) ensures b == o {
      WritesChooseDistinctTags(cfg, run, m, b, o, tag);
    }
  }

  lemma SeenIsMinted(cfg: Config, s: System, key: nat, tag: Tag)
    requires FullInv(cfg, s) && Occurs(cfg, s, key, tag)
    ensures Minted(cfg, s, key, tag) == true
  {
    if j :| j in cfg.Ranks() && key < cfg.numKeys && TagAt(s, j, key) == tag {
      HeldIsMinted(cfg, s, j, key);
    } else if q :| q in s.net && IsCurrent(cfg, q) && (q.msg.Value? || q.msg.Write?) && q.msg.key == key && TagOf(q.msg) == tag {
      MessageIsMinted(cfg, s, q);
    } else {
      var o: OpId, j :| o in s.ops && o.0 == key && j in ListOf(s, o) && ListOf(s, o)[j].GetTag() == tag;
      assert ListMinted(cfg, s, o);
    }
  }

  lemma MessageIsMinted(cfg: Config, s: System, q: Packet)
    requires FullInv(cfg, s) && q in s.net && IsCurrent(cfg, q) && (q.msg.Value? || q.msg.Write?)
    ensures Minted(cfg, s, q.msg.key, TagOf(q.msg)) == true
  {
    if q.msg.Write? {
      WriteTag(cfg, s, q);
      assert ImposesMinted(cfg, s, SlotOf(q).op);
    }
  }

  // Order.

  /** `a` has completed with `tag`, and `b` either has not been invoked or knows of it. */
  ghost predicate KnowsOf(cfg: Config, s: System, a: OpId, tag: Tag, b: OpId) {
    && a in s.ops && b in s.ops && s.ops[a].phase == Responded(Some(tag))
    && (s.ops[b].phase.Idle? || tag in s.ops[b].floor)
  }

  lemma StepKeepsKnowledge(cfg: Config, s: System, p: Packet, s': System, a: OpId, tag: Tag, b: OpId)
    requires HasShape(cfg, s) && HasShape(cfg, s') && TagStep(cfg, s, p, s') && a.0 == b.0 && KnowsOf(cfg, s, a, tag, b)
    requires a in s'.ops && Forward(s.ops[a].phase, s'.ops[a].phase)
    ensures KnowsOf(cfg, s', a, tag, b)
  {
    assert OpTags(cfg, s, p, s', a) && OpTags(cfg, s, p, s', b);
  }

  lemma NextTagStep(cfg: Config, s: System, s': System) returns (p: Packet)
    requires Inv(cfg, s) && HasShape(cfg, s') && Next(cfg, s, s') == true
    ensures TagStep(cfg, s, p, s') == true
  {
    var e, sent;
    p, e, sent := NextSteps(cfg, s, s');
    StepsAreTagSteps(cfg, s, p, s', e, sent);
  }

  ghost predicate InvAndKnows(cfg: Config, s: System, a: OpId, tag: Tag, b: OpId) {
    Inv(cfg, s) && KnowsOf(cfg, s, a, tag, b)
  }

  lemma NextKeepsKnowledge(cfg: Config, s: System, s': System, a: OpId, tag: Tag, b: OpId)
    requires InvAndKnows(cfg, s, a, tag, b) && Next(cfg, s, s') == true && a.0 == b.0
    ensures InvAndKnows(cfg, s', a, tag, b) == true
  {
    NextKeepsInv(cfg, s, s');
    var p := NextTagStep(cfg, s, s');
    NextGoesForward(cfg, s, s', a);
    StepKeepsKnowledge(cfg, s, p, s', a, tag, b);
  }

  lemma StepAtKeepsKnowledge(cfg: Config, run: seq<System>, i: nat, a: OpId, tag: Tag, b: OpId)
    requires IsRun(cfg, run) && i + 1 < |run| && a.0 == b.0 && InvAndKnows(cfg, run[i], a, tag, b) == true
    ensures InvAndKnows(cfg, run[i + 1], a, tag, b) == true
  {
    assert StepAt(cfg, run, i);
    NextKeepsKnowledge(cfg, run[i], run[i + 1], a, tag, b);
  }

  lemma KnowledgeAlongRun(cfg: Config, run: seq<System>, i: nat, k: nat, a: OpId, tag: Tag, b: OpId)
    requires IsRun(cfg, run) == true && i <= k < |run| && a.0 == b.0 && InvAndKnows(cfg, run[i], a, tag, b) == true
    ensures InvAndKnows(cfg, run[k], a, tag, b) == true
  {
    var holds := s => InvAndKnows(cfg, s, a, tag, b);
    forall j: nat | i <= j < k && holds(run[j]) ensures holds(run[j + 1]) {
      StepAtKeepsKnowledge(cfg, run, j, a, tag, b);
    }
    HoldsAlong(run, holds, i, k);
  }

  lemma NextGoesForward(cfg: Config, s: System, s': System, a: OpId)
    requires Inv(cfg, s) == true && Next(cfg, s, s') && a in s.ops
    ensures a in s'.ops && Forward(s.ops[a].phase, s'.ops[a].phase)
  {
    var p, now :| p in s.net && p.dst in s.nodes && s.now <= now && Deliver(cfg, s, p, now) == Some(s');
    var after, sent := DeliveryRespondsOnce(cfg, s, p, now);
  }

  /**
   * If `a` has collected its majority of acknowledgements before `b` is invoked on the same key,
   * every Write of `b` carries a tag no smaller than that of `a`, and a larger one if `b` writes.
   */
  lemma LaterWritesCarryLargerTags(cfg: Config, run: seq<System>, i: nat, k: nat, a: OpId, tag: Tag, b: OpId, q: Packet)
    requires IsRun(cfg, run) && i <= k < |run| && a.0 == b.0 && a in run[i].ops && b in run[i].ops
    requires run[i].ops[a].phase == Responded(Some(tag)) && run[i].ops[b].phase.Idle?
    requires q in run[k].net && IsCurrent(cfg, q) && q.msg.Write? && SlotOf(q).op == b
    ensures TagOf(q.msg).AtLeast(tag)
    ensures !cfg.Reads(b.1, b.0) ==> TagOf(q.msg).Exceeds(tag) && TagOf(q.msg).ts > tag.ts
  {
    InvAlongRun(cfg, run, i);
    KnowledgeAlongRun(cfg, run, i, k, a, tag, b);
    AlwaysFullInv(cfg, run, k);
    WriteRespects(cfg, run[k], q, tag);
  }

  lemma WriteRespects(cfg: Config, s: System, q: Packet, tag: Tag)
    requires FullInv(cfg, s) && q in s.net && IsCurrent(cfg, q) && q.msg.Write?
    requires SlotOf(q).op in s.ops && (s.ops[SlotOf(q).op].phase.Idle? || tag in s.ops[SlotOf(q).op].floor)
    ensures TagOf(q.msg).AtLeast(tag) && (!cfg.Reads(q.src, q.msg.key) ==> TagOf(q.msg).ts > tag.ts)
  {
    WriteTag(cfg, s, q);
    var o := SlotOf(q).op;
    assert RespectsFloor(cfg, s, o);
    assert RespectsTag(cfg, s, o, tag);
  }
}
