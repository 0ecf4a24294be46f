/** The tag lattice and the ordering of operations by their majorities. */
module RegisterQuorum {
  import opened Collections
  import opened Histories
  import opened RegisterNode
  import opened RegisterProtocol
  import opened RegisterSafety
  import opened RegisterEvents
  import opened RegisterInvariant
  import opened RegisterTags

  const ZeroTag: Tag := Tag(0, 0)

  ghost predicate HasTag(s: System, o: OpId) {
    o in s.ops && s.ops[o].phase.HasTag()
  }

  /** The Write of operation `o`, carrying `tag`, has been delivered to node `j`. */
  ghost predicate Delivered(cfg: Config, s: System, o: OpId, tag: Tag, j: nat) {
    HasTag(s, o) && s.ops[o].phase.TheTag() == tag && !Pending(cfg, s.net, o, j)
  }

  /** A replica holds the largest tag among the Writes delivered to it. */
  ghost predicate HoldsMaximum(cfg: Config, s: System, j: nat, key: nat)
    requires HasShape(cfg, s) && j in cfg.Ranks() && key < cfg.numKeys
  {
    && (forall o: OpId, tag | o.0 == key && Delivered(cfg, s, o, tag, j) :: TagAt(s, j, key).AtLeast(tag))
    && (TagAt(s, j, key) == ZeroTag || exists o: OpId :: o.0 == key && Delivered(cfg, s, o, TagAt(s, j, key), j))
  }

  /** Write operation `o` chose `tag`. */
  ghost predicate Mints(cfg: Config, s: System, o: OpId, tag: Tag) {
    HasTag(s, o) && !cfg.Reads(o.1, o.0) && s.ops[o].phase.TheTag() == tag
  }

  ghost predicate Minted(cfg: Config, s: System, key: nat, tag: Tag) {
    tag == ZeroTag || exists o: OpId :: o.0 == key && Mints(cfg, s, o, tag)
  }

  /** A tagged write carries its node's rank, and every tag that is imposed was minted. */
  ghost predicate ImposesMinted(cfg: Config, s: System, o: OpId)
    requires o in s.ops
  {
    s.ops[o].phase.HasTag() ==>
      && Minted(cfg, s, o.0, s.ops[o].phase.TheTag())
      && (!cfg.Reads(o.1, o.0) ==> s.ops[o].phase.TheTag().wr == o.1 && s.ops[o].phase.TheTag().ts >= 1)
  }

  ghost predicate ListMinted(cfg: Config, s: System, o: OpId)
    requires HasShape(cfg, s) && o in s.ops
  {
    forall j | j in ListOf(s, o) :: Minted(cfg, s, o.0, ListOf(s, o)[j].GetTag())
  }

  ghost predicate ValuesMinted(cfg: Config, s: System) {
    forall q | q in s.net && IsCurrent(cfg, q) && q.msg.Value? :: Minted(cfg, s, q.msg.key, TagOf(q.msg))
  }

  ghost predicate LatticeInv(cfg: Config, s: System)
    requires HasShape(cfg, s)
  {
    && (forall j, key: nat | j in cfg.Ranks() && key < cfg.numKeys :: HoldsMaximum(cfg, s, j, key))
    && (forall o | o in s.ops :: ImposesMinted(cfg, s, o))
    && (forall o | o in s.ops :: ListMinted(cfg, s, o))
    && ValuesMinted(cfg, s)
  }

  // Preservation of the lattice.

  lemma WriteTag(cfg: Config, s: System, p: Packet)
    requires HasShape(cfg, s) && NetInv(cfg, s) && p in s.net && IsCurrent(cfg, p) && p.msg.Write?
    ensures SlotOf(p).op in s.ops && HasTag(s, SlotOf(p).op) && s.ops[SlotOf(p).op].phase.TheTag() == TagOf(p.msg)
    ensures p.dst in cfg.Ranks() && p.msg.key < cfg.numKeys
  {
    assert PacketInv(cfg, s, p);
  }

  lemma DeliveredStays(cfg: Config, s: System, p: Packet, s': System, o: OpId, tag: Tag, j: nat)
    requires HasShape(cfg, s) && HasShape(cfg, s') && TagStep(cfg, s, p, s') && j in cfg.Ranks()
    requires Delivered(cfg, s, o, tag, j)
    ensures Delivered(cfg, s', o, tag, j)
  {
    assert OpTags(cfg, s, p, s', o) && PendingWrites(cfg, s, p, s', o);
  }

  lemma DeliveredBefore(cfg: Config, s: System, p: Packet, s': System, o: OpId, tag: Tag, j: nat)
    requires HasShape(cfg, s) && HasShape(cfg, s') && NetInv(cfg, s) == true && TagStep(cfg, s, p, s') && j in cfg.Ranks()
    requires Delivered(cfg, s', o, tag, j)
    ensures Delivered(cfg, s, o, tag, j) || (IsWriteIn(cfg, p, o, j) && TagOf(p.msg) == tag)
  {
    assert OpTags(cfg, s, p, s', o) && PendingWrites(cfg, s, p, s', o);
    if IsWriteIn(cfg, p, o, j) {
      WriteTag(cfg, s, p);
    }
  }

  lemma BoundKept(cfg: Config, s: System, p: Packet, s': System, j: nat, key: nat, o: OpId, tag: Tag)
    requires HasShape(cfg, s) && HasShape(cfg, s') && NetInv(cfg, s) == true && TagStep(cfg, s, p, s')
    requires j in cfg.Ranks() && key < cfg.numKeys && HoldsMaximum(cfg, s, j, key)
    requires o.0 == key && Delivered(cfg, s', o, tag, j)
    ensures TagAt(s', j, key).AtLeast(tag)
  {
    DeliveredBefore(cfg, s, p, s', o, tag, j);
  }

  lemma MaximumKept(cfg: Config, s: System, p: Packet, s': System, j: nat, key: nat)
    requires HasShape(cfg, s) && HasShape(cfg, s') && NetInv(cfg, s) == true && TagStep(cfg, s, p, s') == true
    requires ReplicaTags(cfg, s, p, s')
    requires j in cfg.Ranks() && key < cfg.numKeys && HoldsMaximum(cfg, s, j, key)
    ensures HoldsMaximum(cfg, s', j, key) == true
  {
    forall o: OpId, tag | o.0 == key && Delivered(cfg, s', o, tag, j)
      ensures TagAt(s', j, key).AtLeast(tag)
    {
      BoundKept(cfg, s, p, s', j, key, o, tag);
    }
    if TagAt(s', j, key) != ZeroTag {
      if TagAt(s', j, key) == TagAt(s, j, key) {
        var o: OpId :| o.0 == key && Delivered(cfg, s, o, TagAt(s, j, key), j);
        DeliveredStays(cfg, s, p, s', o, TagAt(s, j, key), j);
      } else {
        ArrivedIsDelivered(cfg, s, p, s');
      }
    }
  }

  lemma ArrivedIsDelivered(cfg: Config, s: System, p: Packet, s': System)
    requires HasShape(cfg, s) && HasShape(cfg, s') && NetInv(cfg, s) == true && TagStep(cfg, s, p, s')
    requires IsCurrent(cfg, p) && p.msg.Write?
    ensures Delivered(cfg, s', SlotOf(p).op, TagOf(p.msg), p.dst)
  {
    WriteTag(cfg, s, p);
    var o := SlotOf(p).op;
    assert OpTags(cfg, s, p, s', o) && PendingWrites(cfg, s, p, s', o);
    assert IsWriteIn(cfg, p, o, p.dst);
  }

  lemma MintedStays(cfg: Config, s: System, p: Packet, s': System, key: nat, tag: Tag)
    requires HasShape(cfg, s) && HasShape(cfg, s') && TagStep(cfg, s, p, s') && Minted(cfg, s, key, tag)
    ensures Minted(cfg, s', key, tag) == true
  {
    if tag != ZeroTag {
      var o: OpId :| o.0 == key && Mints(cfg, s, o, tag);
      assert OpTags(cfg, s, p, s', o);
      assert Mints(cfg, s', o, tag);
    }
  }

  /** The tag of a replica was minted. */
  lemma HeldIsMinted(cfg: Config, s: System, j: nat, key: nat)
    requires HasShape(cfg, s) && LatticeInv(cfg, s) && j in cfg.Ranks() && key < cfg.numKeys
    ensures Minted(cfg, s, key, TagAt(s, j, key)) == true
  {
    assert HoldsMaximum(cfg, s, j, key);
    if TagAt(s, j, key) != ZeroTag {
      var o: OpId :| o.0 == key && Delivered(cfg, s, o, TagAt(s, j, key), j);
      assert ImposesMinted(cfg, s, o);
    }
  }

  lemma ValuesMintedKept(cfg: Config, s: System, p: Packet, s': System)
    requires HasShape(cfg, s) && HasShape(cfg, s') && LatticeInv(cfg, s) && TagStep(cfg, s, p, s')
    ensures ValuesMinted(cfg, s') == true
  {
    forall q | q in s'.net && IsCurrent(cfg, q) && q.msg.Value?
      ensures Minted(cfg, s', q.msg.key, TagOf(q.msg)) == true
    {
      if q !in s.net {
        HeldIsMinted(cfg, s, q.src, q.msg.key);
      }
      MintedStays(cfg, s, p, s', q.msg.key, TagOf(q.msg));
    }
  }

  lemma ListMintedKept(cfg: Config, s: System, p: Packet, s': System, o: OpId)
    requires HasShape(cfg, s) && HasShape(cfg, s') && LatticeInv(cfg, s) && TagStep(cfg, s, p, s') && o in s.ops && o in s'.ops
    ensures ListMinted(cfg, s', o) == true
  {
    assert ListMinted(cfg, s, o);
    forall j | j in ListOf(s', o)
      ensures Minted(cfg, s', o.0, ListOf(s', o)[j].GetTag()) == true
    {
      MintedStays(cfg, s, p, s', o.0, ListOf(s', o)[j].GetTag());
    }
  }

  lemma ChosenIsMinted(cfg: Config, s: System, p: Packet, o: OpId, max: Entry)
    requires HasShape(cfg, s) && LatticeInv(cfg, s) && p in s.net && o in s.ops && IsValueFor(cfg, p, o)
    requires max in Extended(s.nodes[o.1], p).Values
    ensures Minted(cfg, s, o.0, max.GetTag()) == true
  {
    assert ListMinted(cfg, s, o);
    var j :| j in Extended(s.nodes[o.1], p) && Extended(s.nodes[o.1], p)[j] == max;
    if j == p.src {
      assert Minted(cfg, s, p.msg.key, TagOf(p.msg));
    } else {
      assert ListOf(s, o)[j] == max;
    }
  }

  lemma ImposesMintedKept(cfg: Config, s: System, p: Packet, s': System, o: OpId)
    requires HasShape(cfg, s) && HasShape(cfg, s') && LatticeInv(cfg, s) && TagStep(cfg, s, p, s') && o in s.ops && o in s'.ops
    ensures ImposesMinted(cfg, s', o) == true
  {
    assert OpTags(cfg, s, p, s', o) && ImposesMinted(cfg, s, o);
    if s.ops[o].phase.HasTag() {
      MintedStays(cfg, s, p, s', o.0, s.ops[o].phase.TheTag());
    } else if s'.ops[o].phase.HasTag() {
      NewTagMinted(cfg, s, p, s', o);
    }
  }

  lemma NewTagMinted(cfg: Config, s: System, p: Packet, s': System, o: OpId)
    requires HasShape(cfg, s) && HasShape(cfg, s') && LatticeInv(cfg, s) && TagStep(cfg, s, p, s') && o in s.ops && o in s'.ops
    requires OpTags(cfg, s, p, s', o) && s'.ops[o].phase.HasTag() && !s.ops[o].phase.HasTag()
    ensures ImposesMinted(cfg, s', o) == true
  {
    var tag, full := s'.ops[o].phase.TheTag(), Extended(s.nodes[o.1], p);
    var max :| IsMaxEntry(full, max) && tag == if cfg.Reads(o.1, o.0) then max.GetTag() else Tag(max.ts + 1, o.1);
    if cfg.Reads(o.1, o.0) {
      ChosenIsMinted(cfg, s, p, o, max);
      MintedStays(cfg, s, p, s', o.0, tag);
    } else {
      assert Mints(cfg, s', o, tag);
    }
  }

  lemma LatticeKept(cfg: Config, s: System, p: Packet, s': System)
    requires HasShape(cfg, s) && HasShape(cfg, s') && NetInv(cfg, s) == true && LatticeInv(cfg, s) && TagStep(cfg, s, p, s') == true
    ensures LatticeInv(cfg, s') == true
  {
    assert TagStep(cfg, s, p, s');
    forall j, key: nat | j in cfg.Ranks() && key < cfg.numKeys ensures HoldsMaximum(cfg, s', j, key) == true {
      MaximumKept(cfg, s, p, s', j, key);
    }
    forall o | o in s'.ops ensures ImposesMinted(cfg, s', o) == true && ListMinted(cfg, s', o) == true {
      ImposesMintedKept(cfg, s, p, s', o);
      ListMintedKept(cfg, s, p, s', o);
    }
    ValuesMintedKept(cfg, s, p, s');
  }

  // Operations in order.

  /** Nodes from which operation `o` can only hear of `tag` or of larger ones. */
  function Informed(cfg: Config, s: System, o: OpId, tag: Tag): set<nat>
    requires HasShape(cfg, s) && o in s.ops
  {
    set j | j in cfg.Ranks() && Informs(cfg, s, o, tag, j)
  }

  predicate Informs(cfg: Config, s: System, o: OpId, tag: Tag, j: nat)
    requires HasShape(cfg, s) && o in s.ops && j in cfg.Ranks()
  {
    && TagAt(s, j, o.0).AtLeast(tag)
    && (forall q | q in s.net && IsValueFor(cfg, q, o) && q.src == j :: TagOf(q.msg).AtLeast(tag))
    && (j in ListOf(s, o) ==> ListOf(s, o)[j].GetTag().AtLeast(tag))
  }

  /** `tag` belongs to an operation that had completed when `o` was invoked. */
  ghost predicate RespectsTag(cfg: Config, s: System, o: OpId, tag: Tag)
    requires HasShape(cfg, s) && o in s.ops
  {
    var phase := s.ops[o].phase;
    && (phase.Querying? ==> |Informed(cfg, s, o, tag)| > cfg.n / 2)
    && (phase.HasTag() ==> phase.TheTag().AtLeast(tag) && (!cfg.Reads(o.1, o.0) ==> phase.TheTag().ts > tag.ts))
  }

  ghost predicate RespectsFloor(cfg: Config, s: System, o: OpId)
    requires HasShape(cfg, s) && o in s.ops
  {
    !s.ops[o].phase.Idle? ==> forall tag | tag in s.ops[o].floor :: RespectsTag(cfg, s, o, tag)
  }

  ghost predicate OrderInv(cfg: Config, s: System)
    requires HasShape(cfg, s)
  {
    forall o | o in s.ops :: RespectsFloor(cfg, s, o)
  }

  lemma InformsStays(cfg: Config, s: System, p: Packet, s': System, o: OpId, tag: Tag, j: nat)
    requires HasShape(cfg, s) && HasShape(cfg, s') && TagStep(cfg, s, p, s') && o in s.ops && o in s'.ops
    requires j in cfg.Ranks() && Informs(cfg, s, o, tag, j)
    ensures Informs(cfg, s', o, tag, j)
  {
    assert ReplicaTags(cfg, s, p, s') && ValueTags(cfg, s, s') && ListTags(cfg, s, p, s');
    assert TagAt(s', j, o.0).AtLeast(TagAt(s, j, o.0));
  }

  lemma InformedGrows(cfg: Config, s: System, p: Packet, s': System, o: OpId, tag: Tag)
    requires HasShape(cfg, s) && HasShape(cfg, s') && TagStep(cfg, s, p, s') && o in s.ops && o in s'.ops
    ensures |Informed(cfg, s, o, tag)| <= |Informed(cfg, s', o, tag)|
  {
    forall j | j in Informed(cfg, s, o, tag) ensures j in Informed(cfg, s', o, tag) {
      InformsStays(cfg, s, p, s', o, tag, j);
    }
    SubsetSize(Informed(cfg, s, o, tag), Informed(cfg, s', o, tag));
  }

  /** The query majority meets the informed majority. */
  lemma MajorityHears(cfg: Config, s: System, p: Packet, o: OpId, tag: Tag, max: Entry)
    requires HasShape(cfg, s) && p in s.net && o in s.ops && IsValueFor(cfg, p, o)
    requires |Informed(cfg, s, o, tag)| > cfg.n / 2
    requires |Extended(s.nodes[o.1], p)| > cfg.n / 2 && Extended(s.nodes[o.1], p).Keys <= cfg.Ranks()
    requires IsMaxEntry(Extended(s.nodes[o.1], p), max)
    ensures max.GetTag().AtLeast(tag)
  {
    var full := Extended(s.nodes[o.1], p);
    assert |full.Keys| == |full|;
    RanksSize(cfg);
    MajoritiesMeet(Informed(cfg, s, o, tag), full.Keys, cfg.Ranks());
    var j :| j in Informed(cfg, s, o, tag) && j in full.Keys;
    assert Informs(cfg, s, o, tag, j);
    assert full[j] in full.Values;
    assert full[j].GetTag().AtLeast(tag);
  }

  /** A completed operation has informed a majority of replicas. */
  lemma CompletedInforms(cfg: Config, s: System, a: OpId, o: OpId)
    requires HasShape(cfg, s) && a in s.ops && OpInv(cfg, s, a) && AcksHold(cfg, s, a) && a.0 == o.0
    requires s.ops[a].phase.Responded? && s.ops[a].phase.imposed.Some? && o in s.ops
    requires ListOf(s, o) == map[] && forall q | q in s.net :: !IsValueFor(cfg, q, o)
    ensures |Informed(cfg, s, o, s.ops[a].phase.imposed.value)| > cfg.n / 2
  {
    var tag := s.ops[a].phase.imposed.value;
    forall j | j in Acked(cfg, s, a) ensures j in Informed(cfg, s, o, tag) {
      assert Informs(cfg, s, o, tag, j);
    }
    SubsetSize(Acked(cfg, s, a), Informed(cfg, s, o, tag));
  }

  lemma IdleHearsNothing(cfg: Config, s: System, o: OpId)
    requires HasShape(cfg, s) && NetInv(cfg, s) && o in s.ops && OpInv(cfg, s, o) && s.ops[o].phase.Idle?
    ensures ListOf(s, o) == map[]
    ensures forall q | q in s.net :: !IsValueFor(cfg, q, o)
  {
    forall q | q in s.net ensures !IsValueFor(cfg, q, o) {
      assert PacketInv(cfg, s, q);
    }
  }

  lemma FirstFloor(cfg: Config, s: System, p: Packet, s': System, o: OpId)
    requires Inv(cfg, s) && HasShape(cfg, s') && TagStep(cfg, s, p, s') == true
    requires o in s.ops && o in s'.ops && s.ops[o].phase.Idle? && s'.ops[o].phase.Querying?
    requires s'.ops[o].floor == CompletedTags(s.ops, o.0)
    ensures RespectsFloor(cfg, s', o) == true
  {
    assert OpInv(cfg, s, o);
    IdleHearsNothing(cfg, s, o);
    forall tag | tag in s'.ops[o].floor ensures RespectsTag(cfg, s', o, tag) {
      var a :| a in s.ops && a.0 == o.0 && s.ops[a].phase == Responded(Some(tag));
      assert OpInv(cfg, s, a) && AcksHold(cfg, s, a);
      CompletedInforms(cfg, s, a, o);
      InformedGrows(cfg, s, p, s', o, tag);
    }
  }

  lemma NewTagRespects(cfg: Config, s: System, p: Packet, s': System, o: OpId, tag: Tag)
    requires HasShape(cfg, s) && HasShape(cfg, s') && p in s.net && o in s.ops && o in s'.ops && OpTags(cfg, s, p, s', o)
    requires s'.ops[o].phase.HasTag() && !s.ops[o].phase.HasTag() && RespectsTag(cfg, s, o, tag)
    requires Extended(s.nodes[o.1], p).Keys <= cfg.Ranks()
    ensures RespectsTag(cfg, s', o, tag)
  {
    var full := Extended(s.nodes[o.1], p);
    var max :| IsMaxEntry(full, max) && s'.ops[o].phase.TheTag() == if cfg.Reads(o.1, o.0) then max.GetTag() else Tag(max.ts + 1, o.1);
    MajorityHears(cfg, s, p, o, tag, max);
  }

  lemma LaterFloor(cfg: Config, s: System, p: Packet, s': System, o: OpId)
    requires HasShape(cfg, s) && HasShape(cfg, s') && TagStep(cfg, s, p, s') == true
    requires p in s.net && o in s.ops && o in s'.ops && OpTags(cfg, s, p, s', o)
    requires !s.ops[o].phase.Idle? && RespectsFloor(cfg, s, o)
    requires IsValueFor(cfg, p, o) && s.ops[o].phase.Querying? ==> Extended(s.nodes[o.1], p).Keys <= cfg.Ranks()
    ensures RespectsFloor(cfg, s', o) == true
  {
    forall tag | tag in s'.ops[o].floor ensures RespectsTag(cfg, s', o, tag) {
      assert RespectsTag(cfg, s, o, tag);
      if s'.ops[o].phase.HasTag() && !s.ops[o].phase.HasTag() {
        NewTagRespects(cfg, s, p, s', o, tag);
      } else if s'.ops[o].phase.Querying? {
        InformedGrows(cfg, s, p, s', o, tag);
      }
    }
  }

  lemma RepliesAreRanks(cfg: Config, s: System, p: Packet, o: OpId)
    requires HasShape(cfg, s) && NetInv(cfg, s) && p in s.net && o in s.ops && OpInv(cfg, s, o)
    requires IsValueFor(cfg, p, o) && s.ops[o].phase.Querying?
    ensures Extended(s.nodes[o.1], p).Keys <= cfg.Ranks()
  {
    assert PacketInv(cfg, s, p);
  }

  lemma FloorKept(cfg: Config, s: System, p: Packet, s': System, o: OpId)
    requires Inv(cfg, s) && HasShape(cfg, s') && TagStep(cfg, s, p, s') == true
    requires p in s.net && o in s.ops && o in s'.ops && OpTags(cfg, s, p, s', o) && RespectsFloor(cfg, s, o)
    ensures RespectsFloor(cfg, s', o) == true
  {
    if s.ops[o].phase.Idle? {
      if s'.ops[o].phase.Querying? {
        FirstFloor(cfg, s, p, s', o);
      }
    } else {
      if IsValueFor(cfg, p, o) && s.ops[o].phase.Querying? {
        assert OpInv(cfg, s, o);
        RepliesAreRanks(cfg, s, p, o);
      }
      LaterFloor(cfg, s, p, s', o);
    }
  }

  lemma OrderKept(cfg: Config, s: System, p: Packet, s': System)
    requires Inv(cfg, s) == true && HasShape(cfg, s) && HasShape(cfg, s') && OrderInv(cfg, s) && TagStep(cfg, s, p, s')
    ensures OrderInv(cfg, s') == true
  {
    forall o | o in s'.ops ensures RespectsFloor(cfg, s', o) == true {
      assert OpTags(cfg, s, p, s', o) && RespectsFloor(cfg, s, o);
      FloorKept(cfg, s, p, s', o);
    }
  }
}
