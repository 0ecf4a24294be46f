/** Two nodes, one of which writes a key that the other reads: what the read answers. */
module RegisterPair {
  import opened Collections
  import opened Histories
  import opened RegisterNode
  import opened RegisterProtocol
  import opened RegisterSafety
  import opened RegisterEvents
  import opened RegisterInvariant
  import opened RegisterTheorems
  import opened RegisterTags
  import opened RegisterQuorum
  import opened RegisterResults
  import opened RegisterLogs
  import opened RegisterDetails
  import opened RegisterValues
  import opened RegisterParts
  import opened RegisterReach
  import opened RegisterQuiet
  import opened RegisterSpots
  import opened RegisterWitness

  /** Node `w` writes the key and node `r` reads it. */
  datatype Pair = Pair(key: nat, w: nat, r: nat) {
    function WriteOp(): OpId {
      (key, w)
    }

    function ReadOp(): OpId {
      (key, r)
    }

    predicate Fits(cfg: Config) {
      && cfg.Valid() && cfg.n == 2 && key < cfg.Planned() && w in cfg.Ranks() && r in cfg.Ranks() && w != r
      && cfg.Reads(r, key) && !cfg.Reads(w, key)
    }
  }

  ghost predicate HasPair(cfg: Config, s: System, pair: Pair) {
    HasShape(cfg, s) && pair.key < cfg.numKeys && pair.ReadOp() in s.ops && pair.WriteOp() in s.ops
  }

  // What the read may see.

  /** Nothing, or what the write wrote. */
  ghost predicate IsPairEntry(s: System, pair: Pair, f: Entry) {
    && f.value == f.wr
    && (f.GetTag() == ZeroTag
        || (HasTag(s, pair.WriteOp()) && f.GetTag() == s.ops[pair.WriteOp()].phase.TheTag() && f.wr == pair.w && f.ts >= 1))
  }

  lemma MintedByPair(cfg: Config, s: System, pair: Pair, tag: Tag)
    requires HasPair(cfg, s, pair) && pair.Fits(cfg) && ImposesMinted(cfg, s, pair.WriteOp()) && Minted(cfg, s, pair.key, tag)
    ensures tag == ZeroTag || (HasTag(s, pair.WriteOp()) && tag == s.ops[pair.WriteOp()].phase.TheTag() && tag.wr == pair.w && tag.ts >= 1)
  {
    if tag != ZeroTag {
      var o: OpId :| o.0 == pair.key && Mints(cfg, s, o, tag);
      assert o == pair.WriteOp();
    }
  }

  /** All that a majority of replies contains: entries of the pair, none older than what had completed before the read. */
  ghost predicate SeesPair(cfg: Config, s: System, pair: Pair, list: ReadList)
    requires pair.ReadOp() in s.ops
  {
    forall f | f in list.Values ::
      IsPairEntry(s, pair, f) && forall tag | tag in s.ops[pair.ReadOp()].floor :: f.GetTag().AtLeast(tag)
  }

  /** With two nodes a majority is everybody. */
  lemma AllInformed(cfg: Config, s: System, o: OpId, tag: Tag, j: nat)
    requires HasShape(cfg, s) && cfg.n == 2 && o in s.ops && j in cfg.Ranks() && |Informed(cfg, s, o, tag)| > 1
    ensures Informs(cfg, s, o, tag, j)
  {
    RanksSize(cfg);
    SubsetSize(Informed(cfg, s, o, tag), cfg.Ranks());
    assert j in Informed(cfg, s, o, tag);
  }

  lemma FloorIsSeen(cfg: Config, s: System, pair: Pair, p: Packet, j: nat, tag: Tag)
    requires HasPair(cfg, s, pair) && pair.Fits(cfg) && p in s.net && IsValueFor(cfg, p, pair.ReadOp()) && p.src in cfg.Ranks()
    requires s.ops[pair.ReadOp()].phase.Querying? && tag in s.ops[pair.ReadOp()].floor && RespectsFloor(cfg, s, pair.ReadOp())
    requires j in ListOf(s, pair.ReadOp())[p.src := EntryOf(p.msg)] && ListOf(s, pair.ReadOp()).Keys <= cfg.Ranks()
    ensures ListOf(s, pair.ReadOp())[p.src := EntryOf(p.msg)][j].GetTag().AtLeast(tag)
  {
    assert RespectsTag(cfg, s, pair.ReadOp(), tag);
    AllInformed(cfg, s, pair.ReadOp(), tag, j);
  }

  lemma EntryIsOfPair(cfg: Config, s: System, pair: Pair, p: Packet, j: nat)
    requires HasPair(cfg, s, pair) && pair.Fits(cfg) && p in s.net && IsValueFor(cfg, p, pair.ReadOp())
    requires AllGood(cfg, s, pair.key, IsRankedEntry) && ImposesMinted(cfg, s, pair.WriteOp())
    requires ListMinted(cfg, s, pair.ReadOp()) && ValuesMinted(cfg, s)
    requires j in ListOf(s, pair.ReadOp())[p.src := EntryOf(p.msg)]
    ensures IsPairEntry(s, pair, ListOf(s, pair.ReadOp())[p.src := EntryOf(p.msg)][j])
  {
    var f := ListOf(s, pair.ReadOp())[p.src := EntryOf(p.msg)][j];
    assert GoodNode(s.nodes[pair.r], pair.key, IsRankedEntry);
    assert CarriesEntry(cfg, p, pair.key);
    if j == p.src {
      assert Minted(cfg, s, p.msg.key, TagOf(p.msg));
    } else {
      assert ListOf(s, pair.ReadOp())[j] == f;
    }
    MintedByPair(cfg, s, pair, f.GetTag());
  }

  /** What the invariants say of the reply `p` to the waiting read. */
  ghost predicate ReplyKnown(cfg: Config, s: System, pair: Pair, p: Packet)
    requires HasPair(cfg, s, pair)
  {
    && p.src in cfg.Ranks() && p.src !in ListOf(s, pair.ReadOp()) && ListOf(s, pair.ReadOp()).Keys <= cfg.Ranks()
    && ImposesMinted(cfg, s, pair.WriteOp()) && ListMinted(cfg, s, pair.ReadOp()) && ValuesMinted(cfg, s)
    && RespectsFloor(cfg, s, pair.ReadOp()) && RegisterOf(s, pair.ReadOp()).reading
  }

  lemma ReplyIsKnown(cfg: Config, s: System, pair: Pair, p: Packet)
    requires HasPair(cfg, s, pair) && pair.Fits(cfg) && p in s.net && IsValueFor(cfg, p, pair.ReadOp())
    requires s.ops[pair.ReadOp()].phase.Querying? && FullInv(cfg, s)
    ensures ReplyKnown(cfg, s, pair, p) == true
  {
    RepliesFit(cfg, s, p);
    assert OpInv(cfg, s, pair.ReadOp());
  }

  lemma MajoritySeesPair(cfg: Config, s: System, pair: Pair, p: Packet)
    requires HasPair(cfg, s, pair) && pair.Fits(cfg) && p in s.net && IsValueFor(cfg, p, pair.ReadOp())
    requires s.ops[pair.ReadOp()].phase.Querying? && AllGood(cfg, s, pair.key, IsRankedEntry) == true
    requires ReplyKnown(cfg, s, pair, p)
    ensures SeesPair(cfg, s, pair, ListOf(s, pair.ReadOp())[p.src := EntryOf(p.msg)]) == true
  {
    var list := ListOf(s, pair.ReadOp())[p.src := EntryOf(p.msg)];
    forall f | f in list.Values
      ensures IsPairEntry(s, pair, f) && forall tag | tag in s.ops[pair.ReadOp()].floor :: f.GetTag().AtLeast(tag)
    {
      var j :| j in list && list[j] == f;
      EntryIsOfPair(cfg, s, pair, p, j);
      forall tag | tag in s.ops[pair.ReadOp()].floor ensures f.GetTag().AtLeast(tag) {
        FloorIsSeen(cfg, s, pair, p, j, tag);
      }
    }
  }

  // What the read has in hand.

  /** While it waits, the only reply so far has set what it would answer. */
  predicate HasSeen(spot: Spot) {
    spot.reg.skipImpose && forall j | j in spot.list :: spot.list[j].ts == spot.reg.firstReceivedTs && spot.list[j].value == spot.reg.readval
  }

  ghost predicate ReadControl(s: System, pair: Pair, spot: Spot)
    requires pair.ReadOp() in s.ops && pair.WriteOp() in s.ops
  {
    match s.ops[pair.ReadOp()].phase
    case Idle => spot.reg.skipImpose
    case Querying => HasSeen(spot)
    case Imposing(_) => spot.reg.readval == pair.w && !s.ops[pair.WriteOp()].phase.Idle?
    case Responded(_) => true
  }

  /** What a read may answer: 0 if no write had completed before it, or what has been written. */
  ghost predicate MayAnswer(s: System, pair: Pair, answer: nat)
    requires pair.ReadOp() in s.ops && pair.WriteOp() in s.ops
  {
    || (answer == 0 && s.ops[pair.ReadOp()].floor == {})
    || (answer == pair.w && !s.ops[pair.WriteOp()].phase.Idle?)
  }

  /** Only the write can have completed before the read. */
  ghost predicate FloorIsWrite(s: System, pair: Pair)
    requires pair.ReadOp() in s.ops && pair.WriteOp() in s.ops
  {
    forall tag | tag in s.ops[pair.ReadOp()].floor :: s.ops[pair.WriteOp()].phase == Responded(Some(tag)) && tag.ts >= 1
  }

  lemma SkippedAnswer(cfg: Config, s: System, pair: Pair, p: Packet, spot: Spot)
    requires HasPair(cfg, s, pair) && pair.Fits(cfg) && p.msg.Value? && HasSeen(spot) && spot.reg.reading && p.src !in spot.list
    requires SeesPair(cfg, s, pair, spot.list[p.src := EntryOf(p.msg)]) && |spot.list[p.src := EntryOf(p.msg)]| > 1
    requires Noting(spot, p.msg).skipImpose && FloorIsWrite(s, pair)
    ensures MayAnswer(s, pair, Noting(spot, p.msg).readval)
  {
    var list := spot.list[p.src := EntryOf(p.msg)];
    assert spot.list != map[];
    var j :| j in spot.list;
    assert list[j] in list.Values && IsPairEntry(s, pair, list[j]);
    if list[j].GetTag() == ZeroTag {
      assert s.ops[pair.ReadOp()].floor == {};
    }
  }

  lemma ImposedValue(cfg: Config, s: System, pair: Pair, p: Packet, spot: Spot, max: Entry)
    requires HasPair(cfg, s, pair) && pair.Fits(cfg) && p.msg.Value? && HasSeen(spot) && spot.reg.reading && p.src !in spot.list
    requires SeesPair(cfg, s, pair, spot.list[p.src := EntryOf(p.msg)]) && |spot.list[p.src := EntryOf(p.msg)]| > 1
    requires !Noting(spot, p.msg).skipImpose && IsMaxEntry(spot.list[p.src := EntryOf(p.msg)], max)
    ensures max.value == pair.w && !s.ops[pair.WriteOp()].phase.Idle?
  {
    var list := spot.list[p.src := EntryOf(p.msg)];
    assert spot.list != map[];
    var j :| j in spot.list;
    assert list[j] in list.Values && list[p.src] in list.Values;
    assert !list[j].GetTag().Exceeds(max.GetTag()) && !list[p.src].GetTag().Exceeds(max.GetTag());
    assert IsPairEntry(s, pair, max);
  }

  // The invariant.

  /** The log of an answered read fits its answer. */
  ghost predicate AnswerLogged(s: System, pair: Pair)
    requires pair.ReadOp() in s.ops && pair.w in s.nodes && pair.r in s.nodes
  {
    var read, write := Part(s, pair.ReadOp()), Part(s, pair.WriteOp());
    s.ops[pair.ReadOp()].phase.Responded? ==>
      && |read| == 2
      && ((read[1].value == Some(0) && s.ops[pair.ReadOp()].floor == {})
          || (read[1].value == Some(pair.w) && write != [] && write[0].time < read[1].time))
  }

  /** An answered write had completed before the read was invoked, or was answered after that. */
  ghost predicate InOrder(s: System, pair: Pair)
    requires pair.ReadOp() in s.ops && pair.WriteOp() in s.ops && pair.w in s.nodes && pair.r in s.nodes
  {
    var read, write := Part(s, pair.ReadOp()), Part(s, pair.WriteOp());
    !s.ops[pair.ReadOp()].phase.Idle? && s.ops[pair.WriteOp()].phase.Responded? ==>
      || s.ops[pair.ReadOp()].floor != {}
      || (|write| == 2 && read != [] && write[1].time > read[0].time)
  }

  ghost predicate PairInv(cfg: Config, s: System, pair: Pair) {
    && HasPair(cfg, s, pair) && pair.w in s.nodes && pair.r in s.nodes
    && (!s.ops[pair.ReadOp()].phase.Responded? ==> AllGood(cfg, s, pair.key, IsRankedEntry))
    && ReadControl(s, pair, SpotOf(s, pair.ReadOp())) && FloorIsWrite(s, pair) && AnswerLogged(s, pair) && InOrder(s, pair)
  }

  /** What a delivery does to the two operations. */
  ghost predicate PairStep(cfg: Config, s: System, p: Packet, s': System, e: Event, pair: Pair) {
    && HasPair(cfg, s, pair) && HasPair(cfg, s', pair) && pair.w in s.nodes && pair.r in s.nodes && pair.w in s'.nodes && pair.r in s'.nodes
    && Causes(cfg, p, e) && (e.Ignored? <==> IsStale(cfg, p))
    && SpotStep(cfg, p, e, pair.ReadOp(), SpotOf(s, pair.ReadOp()), SpotOf(s', pair.ReadOp()))
    && PhaseStep(cfg, s, p, s', e, pair.ReadOp()) && PhaseStep(cfg, s, p, s', e, pair.WriteOp())
    && PartStep(cfg, s, p, s', e, pair.ReadOp()) && PartStep(cfg, s, p, s', e, pair.WriteOp())
  }

  lemma DeliveryPair(cfg: Config, s: System, p: Packet, s': System, e: Event, sent: seq<Packet>, pair: Pair)
    requires HasPair(cfg, s, pair) && HasShape(cfg, s') == true && cfg.testing
    requires Inv(cfg, s) == true && Delivery(cfg, s, p, s', e, sent) == true
    ensures PairStep(cfg, s, p, s', e, pair) == true
  {
    DeliveryCauses(cfg, s, p, s', e, sent);
    DeliveryPhases(cfg, s, p, s', e, sent, pair.ReadOp());
    DeliveryPhases(cfg, s, p, s', e, sent, pair.WriteOp());
    DeliverySpot(cfg, s, p, s', e, sent, pair.ReadOp());
    DeliveryParts(cfg, s, p, s', e, sent, pair.ReadOp());
    DeliveryParts(cfg, s, p, s', e, sent, pair.WriteOp());
  }

  // What the invariants add.

  /** What a reply finds at the read. */
  ghost predicate ReplyContext(cfg: Config, s: System, p: Packet, pair: Pair)
    requires HasPair(cfg, s, pair)
  {
    var spot, phase := SpotOf(s, pair.ReadOp()), s.ops[pair.ReadOp()].phase;
    && (phase.Querying? || phase.Imposing? ==> spot.reg.reading)
    && (IsValueFor(cfg, p, pair.ReadOp()) ==>
          && !phase.Idle? && !phase.Imposing?
          && (phase.Querying? ==> p.src !in spot.list && SeesPair(cfg, s, pair, spot.list[p.src := EntryOf(p.msg)])))
  }

  /** An operation that has sent its Writes has heard from both nodes. */
  lemma BothHaveReplied(cfg: Config, isRead: bool, rank: nat, reg: Register, list: ReadList, phase: OpPhase,
                        replied: set<nat>, acked: set<nat>, j: nat)
    requires OpOk(cfg, isRead, rank, reg, list, phase, replied, acked) && cfg.n == 2
    requires j in cfg.Ranks() && j !in replied && replied <= cfg.Ranks()
    ensures !phase.Imposing?
  {
    RanksSize(cfg);
    SubsetSize(replied + {j}, cfg.Ranks());
    assert |replied + {j}| == |replied| + 1;
  }

  lemma NoReplyAfterAll(cfg: Config, s: System, p: Packet, o: OpId)
    requires HasShape(cfg, s) && cfg.n == 2 && o in s.ops && IsValueFor(cfg, p, o)
    requires ReplyFits(cfg, s, p) && OpInv(cfg, s, o)
    ensures !s.ops[o].phase.Imposing? && !s.ops[o].phase.Idle?
  {
    BothHaveReplied(cfg, cfg.Reads(o.1, o.0), o.1, RegisterOf(s, o), ListOf(s, o), s.ops[o].phase, Replied(cfg, s, o), Acked(cfg, s, o), p.src);
  }

  lemma ReplyFitsRead(cfg: Config, s: System, p: Packet, pair: Pair)
    requires HasPair(cfg, s, pair) && pair.Fits(cfg) && p in s.net && IsValueFor(cfg, p, pair.ReadOp())
    requires Inv(cfg, s) == true
    ensures !s.ops[pair.ReadOp()].phase.Imposing? && !s.ops[pair.ReadOp()].phase.Idle?
  {
    RepliesFit(cfg, s, p);
    NoReplyAfterAll(cfg, s, p, pair.ReadOp());
  }

  lemma OpenReads(cfg: Config, s: System, pair: Pair)
    requires HasPair(cfg, s, pair) && pair.Fits(cfg) && Inv(cfg, s)
    ensures s.ops[pair.ReadOp()].phase.Querying? || s.ops[pair.ReadOp()].phase.Imposing? ==> SpotOf(s, pair.ReadOp()).reg.reading
    ensures s.ops[pair.ReadOp()].phase.Querying? ==> |SpotOf(s, pair.ReadOp()).list| <= 1
  {
    assert OpInv(cfg, s, pair.ReadOp());
  }

  lemma ReplyInContext(cfg: Config, s: System, p: Packet, pair: Pair)
    requires HasPair(cfg, s, pair) && pair.Fits(cfg) && p in s.net
    requires !s.ops[pair.ReadOp()].phase.Responded? ==> AllGood(cfg, s, pair.key, IsRankedEntry) == true
    requires FullInv(cfg, s) == true && Inv(cfg, s) == true
    ensures ReplyContext(cfg, s, p, pair) == true
  {
    OpenReads(cfg, s, pair);
    if IsValueFor(cfg, p, pair.ReadOp()) {
      ReplyFitsRead(cfg, s, p, pair);
      if s.ops[pair.ReadOp()].phase.Querying? {
        ReplyIsKnown(cfg, s, pair, p);
        MajoritySeesPair(cfg, s, pair, p);
      }
    }
  }

  /** What the logs hold. */
  ghost predicate LogContext(s: System, o: OpId)
    requires o in s.ops && o.1 in s.nodes
  {
    var part, phase := Part(s, o), s.ops[o].phase;
    && (phase.Idle? ==> part == []) && (phase.Querying? || phase.Imposing? ==> |part| == 1) && (phase.Responded? ==> |part| == 2)
    && forall f | f in part :: f.time <= s.now
  }

  lemma LogInContext(cfg: Config, s: System, o: OpId)
    requires HasShape(cfg, s) == true && o in s.ops && cfg.testing && Known(cfg, s) == true
    ensures o.1 in s.nodes && LogContext(s, o) == true
  {
    KnownParts(cfg, s);
    OpenHasOneEntry(cfg, s, o);
    PartTimes(cfg, s, o);
  }

  /** What the invariants say of the write's tag. */
  ghost predicate WriteContext(s: System, pair: Pair)
    requires pair.WriteOp() in s.ops
  {
    s.ops[pair.WriteOp()].phase.Responded? ==> s.ops[pair.WriteOp()].phase.HasTag() && s.ops[pair.WriteOp()].phase.TheTag().ts >= 1
  }

  lemma WriteInContext(cfg: Config, s: System, pair: Pair)
    requires HasPair(cfg, s, pair) && pair.Fits(cfg) && FullInv(cfg, s) == true
    ensures WriteContext(s, pair) == true
  {
    if s.ops[pair.WriteOp()].phase.Responded? {
      AnsweredWriteHasTag(cfg, s, pair.WriteOp());
    }
  }

  // Steps.

  /** The phases before and after a delivery. */
  ghost predicate PhasesStep(cfg: Config, s: System, p: Packet, s': System, e: Event, pair: Pair) {
    && pair.ReadOp() in s.ops && pair.WriteOp() in s.ops && pair.ReadOp() in s'.ops && pair.WriteOp() in s'.ops
    && PhaseStep(cfg, s, p, s', e, pair.ReadOp()) && PhaseStep(cfg, s, p, s', e, pair.WriteOp())
  }

  /** The logs before and after a delivery. */
  ghost predicate PartsStep(cfg: Config, s: System, p: Packet, s': System, e: Event, pair: Pair) {
    && pair.w in s.nodes && pair.r in s.nodes && pair.w in s'.nodes && pair.r in s'.nodes
    && PartStep(cfg, s, p, s', e, pair.ReadOp()) && PartStep(cfg, s, p, s', e, pair.WriteOp())
  }

  lemma PartsOfStep(cfg: Config, s: System, p: Packet, s': System, e: Event, pair: Pair)
    requires PairStep(cfg, s, p, s', e, pair)
    ensures PhasesStep(cfg, s, p, s', e, pair) == true && PartsStep(cfg, s, p, s', e, pair) == true
  {
  }

  /** A reply that the waiting read takes in. */
  lemma ReplyControl(cfg: Config, s: System, p: Packet, s': System, e: Event, pair: Pair, spot: Spot, spot': Spot)
    requires HasPair(cfg, s, pair) && pair.Fits(cfg) && PhasesStep(cfg, s, p, s', e, pair) == true && p.msg.Value? && !e.Ignored? && !e.Invoked?
    requires PhaseStep(cfg, s, p, s', e, pair.ReadOp()) && OpAt(p) == pair.ReadOp() && SpotMoves(cfg, p, e, spot, spot')
    requires HasSeen(spot) && spot.reg.reading && p.src !in spot.list && SeesPair(cfg, s, pair, spot.list[p.src := EntryOf(p.msg)]) == true
    requires s.ops[pair.ReadOp()].phase.Querying? && pair.WriteOp() in s'.ops && (s'.ops[pair.WriteOp()].phase.Idle? ==> s.ops[pair.WriteOp()].phase.Idle?)
    requires s'.ops[pair.ReadOp()].phase.Querying? ==> |spot'.list| <= 1
    ensures ReadControl(s', pair, spot') == true
  {
    if e.Noted? {
      NotedIsSeen(p, spot, spot');
    } else if e.Imposed? {
      var max :| IsMaxEntry(spot.list[p.src := EntryOf(p.msg)], max) && spot' == Spot(Noting(spot, p.msg).(readval := max.value), map[]);
      ImposedValue(cfg, s, pair, p, spot, max);
    }
  }

  /** Anything else at the read. */
  lemma OtherControl(cfg: Config, s: System, p: Packet, s': System, e: Event, pair: Pair, spot: Spot, spot': Spot)
    requires PhasesStep(cfg, s, p, s', e, pair) && Causes(cfg, p, e) && (e.Ignored? <==> IsStale(cfg, p))
    requires SpotStep(cfg, p, e, pair.ReadOp(), spot, spot') && ReadControl(s, pair, spot)
    requires IsValueFor(cfg, p, pair.ReadOp()) ==> s.ops[pair.ReadOp()].phase.Responded?
    ensures ReadControl(s', pair, spot') == true
  {
  }

  lemma ControlStep(cfg: Config, s: System, p: Packet, s': System, e: Event, pair: Pair, spot: Spot, spot': Spot)
    requires HasPair(cfg, s, pair) && pair.Fits(cfg) && spot == SpotOf(s, pair.ReadOp()) && PhasesStep(cfg, s, p, s', e, pair) == true
    requires Causes(cfg, p, e) && (e.Ignored? <==> IsStale(cfg, p)) && SpotStep(cfg, p, e, pair.ReadOp(), spot, spot')
    requires ReplyContext(cfg, s, p, pair) && pair.ReadOp() in s'.ops && pair.WriteOp() in s'.ops && ReadControl(s, pair, spot)
    requires s'.ops[pair.ReadOp()].phase.Querying? ==> |spot'.list| <= 1
    ensures ReadControl(s', pair, spot') == true
  {
    if IsValueFor(cfg, p, pair.ReadOp()) && s.ops[pair.ReadOp()].phase.Querying? {
      assert PhasesStep(cfg, s, p, s', e, pair);
      ReplyControl(cfg, s, p, s', e, pair, spot, spot');
    } else {
      OtherControl(cfg, s, p, s', e, pair, spot, spot');
    }
  }

  lemma NotedIsSeen(p: Packet, spot: Spot, spot': Spot)
    requires p.msg.Value? && HasSeen(spot) && spot.reg.reading && p.src !in spot.list
    requires spot' == Spot(Noting(spot, p.msg), spot.list[p.src := EntryOf(p.msg)]) && |spot'.list| <= 1
    ensures HasSeen(spot')
  {
    assert |spot'.list| == |spot.list| + 1 by {
      assert spot'.list.Keys == spot.list.Keys + {p.src};
      assert |spot'.list| == |spot'.list.Keys| && |spot.list| == |spot.list.Keys|;
    }
  }

  /** Nobody else works on the key. */
  ghost predicate OnlyPair(s: System, pair: Pair) {
    forall o: OpId | o in s.ops && o.0 == pair.key :: o == pair.ReadOp() || o == pair.WriteOp()
  }

  lemma PairIsAll(cfg: Config, s: System, pair: Pair)
    requires HasPair(cfg, s, pair) && pair.Fits(cfg)
    ensures OnlyPair(s, pair) == true
  {
    forall o: OpId | o in s.ops && o.0 == pair.key ensures o == pair.ReadOp() || o == pair.WriteOp() {
      assert o.1 in cfg.Ranks();
    }
  }

  lemma FloorStep(cfg: Config, s: System, p: Packet, s': System, e: Event, pair: Pair)
    requires PhasesStep(cfg, s, p, s', e, pair) && OnlyPair(s, pair) && FloorIsWrite(s, pair) && WriteContext(s, pair)
    ensures FloorIsWrite(s', pair) == true
  {
  }

  /** The answer that an event logs. */
  lemma AnswerFits(cfg: Config, s: System, p: Packet, s': System, e: Event, pair: Pair)
    requires PairStep(cfg, s, p, s', e, pair) && pair.Fits(cfg) && ReplyContext(cfg, s, p, pair)
    requires ReadControl(s, pair, SpotOf(s, pair.ReadOp())) && FloorIsWrite(s, pair)
    requires Responds(e) && IsProtocol(p.msg) && OpAt(p) == pair.ReadOp()
    ensures (p.msg.Value? || p.msg.Ack?) && s.nodes[pair.r].Knows(p.msg.key) && MayAnswer(s, pair, AnswerGiven(s.nodes[pair.r], p.msg))
  {
    if e.Skipped? {
      assert IsValueFor(cfg, p, pair.ReadOp());
      SkippedAnswer(cfg, s, pair, p, SpotOf(s, pair.ReadOp()));
    }
  }

  lemma AnsweredNow(cfg: Config, s: System, p: Packet, s': System, e: Event, pair: Pair)
    requires PhasesStep(cfg, s, p, s', e, pair) && PartsStep(cfg, s, p, s', e, pair) && s.now < s'.now && pair.w != pair.r
    requires LogContext(s, pair.ReadOp()) && LogContext(s, pair.WriteOp())
    requires Responds(e) && IsProtocol(p.msg) && OpAt(p) == pair.ReadOp()
    requires (p.msg.Value? || p.msg.Ack?) && s.nodes[pair.r].Knows(p.msg.key) && MayAnswer(s, pair, AnswerGiven(s.nodes[pair.r], p.msg))
    ensures AnswerLogged(s', pair) == true
  {
    var write := Part(s, pair.WriteOp());
    assert Part(s', pair.WriteOp()) == write;
    assert write != [] ==> write[0] in write;
  }

  lemma AnsweredBefore(cfg: Config, s: System, p: Packet, s': System, e: Event, pair: Pair)
    requires PhasesStep(cfg, s, p, s', e, pair) && PartsStep(cfg, s, p, s', e, pair) && AnswerLogged(s, pair)
    requires !(Responds(e) && IsProtocol(p.msg) && OpAt(p) == pair.ReadOp())
    ensures AnswerLogged(s', pair) == true
  {
  }

  lemma AnswerLogStep(cfg: Config, s: System, p: Packet, s': System, e: Event, pair: Pair)
    requires PairStep(cfg, s, p, s', e, pair) == true && pair.Fits(cfg) && s.now < s'.now && PairInv(cfg, s, pair)
    requires ReplyContext(cfg, s, p, pair) == true && LogContext(s, pair.ReadOp()) == true && LogContext(s, pair.WriteOp()) == true
    ensures pair.ReadOp() in s'.ops && pair.w in s'.nodes && pair.r in s'.nodes && AnswerLogged(s', pair) == true
  {
    PartsOfStep(cfg, s, p, s', e, pair);
    if Responds(e) && IsProtocol(p.msg) && OpAt(p) == pair.ReadOp() {
      AnswerFits(cfg, s, p, s', e, pair);
      AnsweredNow(cfg, s, p, s', e, pair);
    } else {
      AnsweredBefore(cfg, s, p, s', e, pair);
    }
  }

  lemma OrderStep(cfg: Config, s: System, p: Packet, s': System, e: Event, pair: Pair)
    requires PhasesStep(cfg, s, p, s', e, pair) && PartsStep(cfg, s, p, s', e, pair) && s.now < s'.now
    requires InOrder(s, pair) && WriteContext(s, pair)
    requires LogContext(s, pair.ReadOp()) && LogContext(s, pair.WriteOp())
    ensures InOrder(s', pair) == true
  {
    var read := Part(s, pair.ReadOp());
    assert read != [] ==> read[0] in read;
    if e.Invoked? && s.ops[pair.WriteOp()].phase.Responded? {
      assert s.ops[pair.WriteOp()].phase.imposed.value in CompletedTags(s.ops, pair.key);
    }
  }
}
