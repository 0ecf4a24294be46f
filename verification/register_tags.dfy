/** Tags: where they come from, what replicas hold, and what a delivery does to them. */
module RegisterTags {
  import opened Collections
  import opened Histories
  import opened RegisterNode
  import opened RegisterProtocol
  import opened RegisterSafety
  import opened RegisterEvents
  import opened RegisterInvariant
  import opened RegisterRuns
  import opened RegisterTheorems

  /** The tag that a Value or a Write carries. */
  function TagOf(m: Msg): Tag
    requires m.Value? || m.Write?
  {
    Tag(m.ts, m.wr)
  }

  predicate IsValueFor(cfg: Config, q: Packet, o: OpId) {
    IsCurrent(cfg, q) && q.msg.Value? && OpAt(q) == o
  }

  predicate IsWriteIn(cfg: Config, q: Packet, o: OpId, j: nat) {
    IsCurrent(cfg, q) && q.msg.Write? && SlotOf(q) == Impose(o, j)
  }

  /** The Write of operation `o` to node `j` has not been delivered. */
  ghost predicate Pending(cfg: Config, net: multiset<Packet>, o: OpId, j: nat) {
    exists q :: q in net && IsWriteIn(cfg, q, o, j)
  }

  // The effect of a delivery on the tags, whatever the event.

  ghost predicate ReplicaTags(cfg: Config, s: System, p: Packet, s': System)
    requires HasShape(cfg, s) && HasShape(cfg, s')
  {
    forall j, k: nat | j in cfg.Ranks() && k < cfg.numKeys ::
      if IsCurrent(cfg, p) && p.msg.Write? && p.dst == j && p.msg.key == k && TagOf(p.msg).Exceeds(TagAt(s, j, k))
      then TagAt(s', j, k) == TagOf(p.msg)
      else TagAt(s', j, k) == TagAt(s, j, k)
  }

  /** Values in flight were in flight before, or carry the tag of the replica that sent them. */
  ghost predicate ValueTags(cfg: Config, s: System, s': System)
    requires HasShape(cfg, s)
  {
    forall q | q in s'.net && IsCurrent(cfg, q) && q.msg.Value? ::
      q in s.net || (q.src in cfg.Ranks() && q.msg.key < cfg.numKeys && TagOf(q.msg) == TagAt(s, q.src, q.msg.key))
  }

  /** Entries of a read list were there before, or arrived with the delivered Value. */
  ghost predicate ListTags(cfg: Config, s: System, p: Packet, s': System)
    requires HasShape(cfg, s) && HasShape(cfg, s')
  {
    forall o, j | o in s.ops && o in s'.ops && j in ListOf(s', o) ::
      || (j in ListOf(s, o) && ListOf(s', o)[j] == ListOf(s, o)[j])
      || (IsValueFor(cfg, p, o) && j == p.src && ListOf(s', o)[j] == EntryOf(p.msg))
  }

  /** How the operation of a delivered message may change. */
  ghost predicate OpTags(cfg: Config, s: System, p: Packet, s': System, o: OpId)
    requires HasShape(cfg, s) && o in s.ops && o in s'.ops
  {
    var phase, phase' := s.ops[o].phase, s'.ops[o].phase;
    && (phase.Idle? ==> phase'.Idle? || (phase'.Querying? && s'.ops[o].floor == CompletedTags(s.ops, o.0)))
    && (!phase.Idle? ==> s'.ops[o].floor == s.ops[o].floor && !phase'.Idle?)
    && (phase.HasTag() ==> phase'.HasTag() && phase'.TheTag() == phase.TheTag())
    && (phase'.HasTag() && !phase.HasTag() ==>
          && phase.Querying? && IsValueFor(cfg, p, o) && phase' == Imposing(phase'.TheTag())
          && |Extended(s.nodes[o.1], p)| > cfg.n / 2 && Chooses(cfg, o, Extended(s.nodes[o.1], p), phase'.TheTag()))
    && (phase'.Querying? && !phase.Idle? ==> phase.Querying?)
  }

  ghost predicate PendingWrites(cfg: Config, s: System, p: Packet, s': System, o: OpId)
    requires o in s.ops && o in s'.ops
  {
    && (s.ops[o].phase.HasTag() ==> forall j | j in cfg.Ranks() ::
          Pending(cfg, s'.net, o, j) <==> Pending(cfg, s.net, o, j) && !IsWriteIn(cfg, p, o, j))
    && (s'.ops[o].phase.HasTag() && !s.ops[o].phase.HasTag() ==> forall j | j in cfg.Ranks() :: Pending(cfg, s'.net, o, j))
  }

  ghost predicate TagStep(cfg: Config, s: System, p: Packet, s': System)
    requires HasShape(cfg, s) && HasShape(cfg, s')
  {
    && p in s.net && s'.ops.Keys == s.ops.Keys
    && ReplicaTags(cfg, s, p, s') && ValueTags(cfg, s, s') && ListTags(cfg, s, p, s')
    && (forall o | o in s.ops :: OpTags(cfg, s, p, s', o))
    && (forall o | o in s.ops :: PendingWrites(cfg, s, p, s', o))
  }

  // Deliveries of the current run.

  lemma ReactionTags(cfg: Config, p: Packet, node: Node, phase: OpPhase, node': Node, phase': OpPhase, e: Event, sent: seq<Packet>)
    requires IsCurrent(cfg, p) && Reacts(cfg, p, node, phase, node', phase', e, sent)
    ensures node.Knows(p.msg.key) && node'.Knows(p.msg.key)
    ensures node'.registers[p.msg.key].GetTag() ==
            if p.msg.Write? && TagOf(p.msg).Exceeds(node.registers[p.msg.key].GetTag()) then TagOf(p.msg)
            else node.registers[p.msg.key].GetTag()
    ensures forall q | q in sent && IsCurrent(cfg, q) && q.msg.Value? ::
      p.msg.Read? && q == ReplyTo(p, node.registers[p.msg.key])
    ensures forall j | j in node'.readLists[p.msg.key] ::
      || (j in node.readLists[p.msg.key] && node'.readLists[p.msg.key][j] == node.readLists[p.msg.key][j])
      || (p.msg.Value? && j == p.src && node'.readLists[p.msg.key][j] == EntryOf(p.msg))
  {
  }

  lemma ReactionPhase(cfg: Config, p: Packet, node: Node, phase: OpPhase, node': Node, phase': OpPhase, e: Event, sent: seq<Packet>)
    requires IsCurrent(cfg, p) && Reacts(cfg, p, node, phase, node', phase', e, sent)
    ensures phase.Idle? <==> phase'.Idle?
    ensures phase.HasTag() ==> phase'.HasTag() && phase'.TheTag() == phase.TheTag()
    ensures phase'.HasTag() && !phase.HasTag() ==>
      && phase.Querying? && p.msg.Value? && e == Imposed(phase'.TheTag()) && phase' == Imposing(phase'.TheTag()) && node.Knows(p.msg.key)
      && |Extended(node, p)| > cfg.n / 2 && Chooses(cfg, (p.msg.key, node.rank), Extended(node, p), phase'.TheTag())
      && exists value :: sent == BcastOf(cfg, (p.msg.key, node.rank), phase'.TheTag(), value)
    ensures phase'.Querying? ==> phase.Querying?
    ensures phase.HasTag() || !phase'.HasTag() ==> forall q | q in sent :: !q.msg.Write?
  {
  }

  lemma EventReplicaTags(cfg: Config, s: System, p: Packet, s': System)
    requires HasShape(cfg, s) && HasShape(cfg, s') && IsCurrent(cfg, p) && Elsewhere(cfg, s, p, s')
    requires RegisterOf(s', OpAt(p)).GetTag() ==
             if p.msg.Write? && TagOf(p.msg).Exceeds(RegisterOf(s, OpAt(p)).GetTag()) then TagOf(p.msg)
             else RegisterOf(s, OpAt(p)).GetTag()
    ensures ReplicaTags(cfg, s, p, s') == true
  {
    forall j, k: nat | j in cfg.Ranks() && k < cfg.numKeys && (k, j) != OpAt(p)
      ensures TagAt(s', j, k) == TagAt(s, j, k)
    {
      assert (k, j) in s.ops && RegisterOf(s', (k, j)) == RegisterOf(s, (k, j));
    }
  }

  lemma EventListTags(cfg: Config, s: System, p: Packet, s': System)
    requires HasShape(cfg, s) && HasShape(cfg, s') && IsCurrent(cfg, p) && Elsewhere(cfg, s, p, s')
    requires forall j | j in ListOf(s', OpAt(p)) ::
      || (j in ListOf(s, OpAt(p)) && ListOf(s', OpAt(p))[j] == ListOf(s, OpAt(p))[j])
      || (p.msg.Value? && j == p.src && ListOf(s', OpAt(p))[j] == EntryOf(p.msg))
    ensures ListTags(cfg, s, p, s') == true
  {
  }

  lemma EventValueTags(cfg: Config, s: System, p: Packet, s': System, e: Event, sent: seq<Packet>)
    requires HasShape(cfg, s) && IsCurrent(cfg, p) && s'.net == NetAfter(s.net, p, sent) && p.dst in cfg.Ranks() && p.msg.key < cfg.numKeys
    requires OpAt(p) in s.ops && OpAt(p) in s'.ops && p.dst in s'.nodes
    requires Reacts(cfg, p, s.nodes[p.dst], s.ops[OpAt(p)].phase, s'.nodes[p.dst], s'.ops[OpAt(p)].phase, e, sent) == true
    ensures ValueTags(cfg, s, s') == true
  {
    ReactionTags(cfg, p, s.nodes[p.dst], s.ops[OpAt(p)].phase, s'.nodes[p.dst], s'.ops[OpAt(p)].phase, e, sent);
    forall q | q in s'.net && q !in s.net ensures q in sent {
      assert q in multiset(sent);
    }
  }

  lemma EventOpTags(cfg: Config, s: System, p: Packet, s': System, e: Event, sent: seq<Packet>, o: OpId)
    requires HasShape(cfg, s) && IsCurrent(cfg, p) && Elsewhere(cfg, s, p, s') && o in s.ops && s.nodes[p.dst].rank == p.dst
    requires s'.ops[OpAt(p)].floor == s.ops[OpAt(p)].floor
    requires Reacts(cfg, p, s.nodes[p.dst], s.ops[OpAt(p)].phase, s'.nodes[p.dst], s'.ops[OpAt(p)].phase, e, sent) == true
    ensures OpTags(cfg, s, p, s', o)
  {
    ReactionPhase(cfg, p, s.nodes[p.dst], s.ops[OpAt(p)].phase, s'.nodes[p.dst], s'.ops[OpAt(p)].phase, e, sent);
  }

  /** A delivery that sends no Write for an operation removes at most the delivered one. */
  lemma PendingAfter(cfg: Config, net: multiset<Packet>, p: Packet, sent: seq<Packet>, o: OpId, j: nat)
    requires UniqueSlots(cfg, net) && p in net
    requires forall q | q in sent :: !IsWriteIn(cfg, q, o, j)
    ensures Pending(cfg, NetAfter(net, p, sent), o, j) <==> Pending(cfg, net, o, j) && !IsWriteIn(cfg, p, o, j)
  {
    var net' := NetAfter(net, p, sent);
    if Pending(cfg, net', o, j) {
      var q :| q in net' && IsWriteIn(cfg, q, o, j);
      assert q !in sent && q !in multiset(sent);
      assert q in net && (q == p ==> net[q] >= 2);
    }
    if Pending(cfg, net, o, j) && !IsWriteIn(cfg, p, o, j) {
      var q :| q in net && IsWriteIn(cfg, q, o, j);
      assert q in net';
    }
  }

  lemma BroadcastPending(cfg: Config, net: multiset<Packet>, p: Packet, o: OpId, tag: Tag, value: nat, j: nat)
    requires j in cfg.Ranks()
    ensures Pending(cfg, NetAfter(net, p, BcastOf(cfg, o, tag, value)), o, j)
  {
    var sent := BcastOf(cfg, o, tag, value);
    assert sent[j - 1] in multiset(sent) && IsWriteIn(cfg, sent[j - 1], o, j);
  }

  lemma EventPendingWrites(cfg: Config, s: System, p: Packet, s': System, e: Event, sent: seq<Packet>, o: OpId)
    requires UniqueSlots(cfg, s.net) && IsCurrent(cfg, p) && p in s.net && o in s.ops && o in s'.ops
    requires s'.net == NetAfter(s.net, p, sent) && OpAt(p) in s.ops && OpAt(p) in s'.ops
    requires p.dst in s.nodes && p.dst in s'.nodes && s.nodes[p.dst].rank == p.dst
    requires o != OpAt(p) ==> s'.ops[o] == s.ops[o]
    requires Reacts(cfg, p, s.nodes[p.dst], s.ops[OpAt(p)].phase, s'.nodes[p.dst], s'.ops[OpAt(p)].phase, e, sent) == true
    ensures PendingWrites(cfg, s, p, s', o)
  {
    ReactionPhase(cfg, p, s.nodes[p.dst], s.ops[OpAt(p)].phase, s'.nodes[p.dst], s'.ops[OpAt(p)].phase, e, sent);
    var tagged, tagged' := s.ops[o].phase.HasTag(), s'.ops[o].phase.HasTag();
    forall j | j in cfg.Ranks()
      ensures tagged ==> (Pending(cfg, s'.net, o, j) <==> Pending(cfg, s.net, o, j) && !IsWriteIn(cfg, p, o, j))
      ensures tagged' && !tagged ==> Pending(cfg, s'.net, o, j)
    {
      if tagged {
        assert forall q | q in sent :: q.msg.Write? ==> q.src == p.dst && q.msg.key == p.msg.key;
        PendingAfter(cfg, s.net, p, sent, o, j);
      } else if tagged' {
        var value :| sent == BcastOf(cfg, o, s'.ops[o].phase.TheTag(), value);
        BroadcastPending(cfg, s.net, p, o, s'.ops[o].phase.TheTag(), value, j);
      }
    }
  }

  lemma EventNodeTags(cfg: Config, s: System, p: Packet, s': System, e: Event, sent: seq<Packet>)
    requires HasShape(cfg, s) && HasShape(cfg, s') && IsCurrent(cfg, p) && Elsewhere(cfg, s, p, s') == true
    requires OpAt(p) in s.ops && OpAt(p) in s'.ops && p.dst in s.nodes && p.dst in s'.nodes
    requires Reacts(cfg, p, s.nodes[p.dst], s.ops[OpAt(p)].phase, s'.nodes[p.dst], s'.ops[OpAt(p)].phase, e, sent) == true
    ensures ReplicaTags(cfg, s, p, s') == true && ListTags(cfg, s, p, s') == true
  {
    ReactionTags(cfg, p, s.nodes[p.dst], s.ops[OpAt(p)].phase, s'.nodes[p.dst], s'.ops[OpAt(p)].phase, e, sent);
    EventReplicaTags(cfg, s, p, s');
    EventListTags(cfg, s, p, s');
  }

  lemma EventTagStep(cfg: Config, s: System, p: Packet, s': System, e: Event, sent: seq<Packet>)
    requires HasShape(cfg, s) && UniqueSlots(cfg, s.net) == true && HasShape(cfg, s') && IsCurrent(cfg, p)
    requires Elsewhere(cfg, s, p, s') == true && p in s.net && Happens(cfg, s, p, s', e, sent) == true
    requires s'.ops.Keys == s.ops.Keys
    ensures TagStep(cfg, s, p, s') == true
  {
    EventNodeTags(cfg, s, p, s', e, sent);
    EventValueTags(cfg, s, p, s', e, sent);
    EventAllOpTags(cfg, s, p, s', e, sent);
  }

  lemma EventAllOpTags(cfg: Config, s: System, p: Packet, s': System, e: Event, sent: seq<Packet>)
    requires HasShape(cfg, s) && UniqueSlots(cfg, s.net) == true && HasShape(cfg, s') && IsCurrent(cfg, p)
    requires Elsewhere(cfg, s, p, s') == true && p in s.net && Happens(cfg, s, p, s', e, sent) == true
    requires OpAt(p) in s.ops && OpAt(p) in s'.ops && s'.ops.Keys == s.ops.Keys
    ensures forall o | o in s.ops :: OpTags(cfg, s, p, s', o) == true
    ensures forall o | o in s.ops :: PendingWrites(cfg, s, p, s', o) == true
  {
    forall o | o in s.ops ensures OpTags(cfg, s, p, s', o) == true && PendingWrites(cfg, s, p, s', o) == true {
      EventOpTags(cfg, s, p, s', e, sent, o);
      EventPendingWrites(cfg, s, p, s', e, sent, o);
    }
  }

  // The other deliveries.

  /** A delivery that sends no message of the current run but reads. */
  lemma QuietNet(cfg: Config, s: System, p: Packet, s': System, sent: seq<Packet>)
    requires UniqueSlots(cfg, s.net) && p in s.net && !IsCurrent(cfg, p) && s'.net == NetAfter(s.net, p, sent)
    requires forall q | q in sent && IsCurrent(cfg, q) :: q.msg.Read?
    ensures forall q | q in s'.net && IsCurrent(cfg, q) && q.msg.Value? :: q in s.net
    ensures forall o, j :: Pending(cfg, s'.net, o, j) <==> Pending(cfg, s.net, o, j)
  {
    forall q | q in s'.net && IsCurrent(cfg, q) && q.msg.Value? ensures q in s.net {
      assert q !in sent && q !in multiset(sent);
    }
    forall o, j ensures Pending(cfg, s'.net, o, j) <==> Pending(cfg, s.net, o, j) {
      PendingAfter(cfg, s.net, p, sent, o, j);
    }
  }

  lemma InertTagStep(cfg: Config, s: System, p: Packet, s': System, sent: seq<Packet>)
    requires HasShape(cfg, s) && NetInv(cfg, s) == true && HasShape(cfg, s') && p in s.net && IsStale(cfg, p) && IsInert(cfg, s, p, s', sent)
    ensures TagStep(cfg, s, p, s') == true
  {
    NetMeansUnique(cfg, s);
    QuietNet(cfg, s, p, s', sent);
  }

  lemma InvokeTags(cfg: Config, s: System, i: nat, s': System, sent: seq<Packet>)
    requires HasShape(cfg, s) && HasShape(cfg, s') && i in cfg.Ranks() && Invokes(cfg, s, i, s', sent)
    ensures ReplicaTags(cfg, s, RunPacket(i), s') == true && ListTags(cfg, s, RunPacket(i), s') == true
  {
    forall j, k: nat | j in cfg.Ranks() && k < cfg.numKeys
      ensures TagAt(s', j, k) == TagAt(s, j, k)
    {
      if j == i && k >= cfg.Planned() {
        assert s'.nodes[j].registers[k] == s.nodes[j].registers[k];
      }
    }
  }

  lemma InvokeOpTags(cfg: Config, s: System, i: nat, s': System, sent: seq<Packet>, o: OpId)
    requires HasShape(cfg, s) && i in cfg.Ranks() && Invokes(cfg, s, i, s', sent) && o in s.ops
    requires o.1 == i ==> s.ops[o].phase.Idle?
    requires forall j :: Pending(cfg, s'.net, o, j) <==> Pending(cfg, s.net, o, j)
    ensures o in s'.ops && OpTags(cfg, s, RunPacket(i), s', o) == true && PendingWrites(cfg, s, RunPacket(i), s', o) == true
  {
  }

  lemma InvokeTagStep(cfg: Config, s: System, i: nat, s': System, sent: seq<Packet>)
    requires HasShape(cfg, s) && UniqueSlots(cfg, s.net) == true && HasShape(cfg, s') && i in cfg.Ranks() && RunPacket(i) in s.net
    requires Invokes(cfg, s, i, s', sent)
    requires forall o: OpId | o in s.ops && o.1 == i :: s.ops[o].phase.Idle?
    ensures TagStep(cfg, s, RunPacket(i), s') == true
  {
    QuietNet(cfg, s, RunPacket(i), s', sent);
    InvokeTags(cfg, s, i, s', sent);
    forall o | o in s.ops
      ensures OpTags(cfg, s, RunPacket(i), s', o) == true && PendingWrites(cfg, s, RunPacket(i), s', o) == true
    {
      InvokeOpTags(cfg, s, i, s', sent, o);
    }
  }

  lemma StepsAreTagSteps(cfg: Config, s: System, p: Packet, s': System, e: Event, sent: seq<Packet>)
    requires Inv(cfg, s) && Steps(cfg, s, p, s', e, sent) && HasShape(cfg, s')
    ensures TagStep(cfg, s, p, s') == true
  {
    NetMeansUnique(cfg, s);
    match e {
      case Ignored => InertTagStep(cfg, s, p, s', sent);
      case Invoked =>
        WaitingIsIdle(cfg, s, p.dst);
        InvokeTagStep(cfg, s, p.dst, s', sent);
      case _ =>
        EventsAreLocal(cfg, s, p, s', e, sent);
        EventTagStep(cfg, s, p, s', e, sent);
    }
  }
}
