/** What a delivery does to the network, and the parts of the invariant that it leaves alone. */
module RegisterSafety {
  import opened Collections
  import opened Histories
  import opened RegisterNode
  import opened RegisterProtocol

  // The network after a delivery.

  /** Current messages occur once and occupy different slots. */
  ghost predicate UniqueSlots(cfg: Config, net: multiset<Packet>) {
    && (forall p | p in net && IsCurrent(cfg, p) :: net[p] == 1)
    && (forall p, q | p in net && q in net && IsCurrent(cfg, p) && IsCurrent(cfg, q) && SlotOf(p) == SlotOf(q) :: p == q)
  }

  function FreedSlots(cfg: Config, p: Packet): set<Slot> {
    if IsCurrent(cfg, p) then {SlotOf(p)} else {}
  }

  function SentSlots(cfg: Config, sent: seq<Packet>): set<Slot> {
    set q | q in sent && IsCurrent(cfg, q) :: SlotOf(q)
  }

  /** The current messages sent are different, in different slots, none of which is in use. */
  ghost predicate FreshSends(cfg: Config, net: multiset<Packet>, p: Packet, sent: seq<Packet>) {
    && (forall a, b | 0 <= a < b < |sent| && IsCurrent(cfg, sent[a]) && IsCurrent(cfg, sent[b]) ::
          SlotOf(sent[a]) != SlotOf(sent[b]))
    && (forall q | q in sent && IsCurrent(cfg, q) :: SlotOf(q) !in Flying(cfg, net) - FreedSlots(cfg, p))
  }

  function NetAfter(net: multiset<Packet>, p: Packet, sent: seq<Packet>): multiset<Packet> {
    net - multiset{p} + multiset(sent)
  }

  lemma FlyingAfter(cfg: Config, net: multiset<Packet>, p: Packet, sent: seq<Packet>)
    requires UniqueSlots(cfg, net) && p in net
    ensures Flying(cfg, NetAfter(net, p, sent)) == Flying(cfg, net) - FreedSlots(cfg, p) + SentSlots(cfg, sent)
  {
    var net' := NetAfter(net, p, sent);
    forall slot
      ensures slot in Flying(cfg, net') <==> slot in Flying(cfg, net) - FreedSlots(cfg, p) + SentSlots(cfg, sent)
    {
      if slot in Flying(cfg, net') {
        var q :| q in net' && IsCurrent(cfg, q) && SlotOf(q) == slot;
        if q !in sent {
          assert q in net;
          assert slot in Flying(cfg, net);
        }
      }
      if slot in Flying(cfg, net) - FreedSlots(cfg, p) {
        var q :| q in net && IsCurrent(cfg, q) && SlotOf(q) == slot;
        assert q != p && q in net';
      }
      if slot in SentSlots(cfg, sent) {
        var q :| q in sent && IsCurrent(cfg, q) && SlotOf(q) == slot;
        assert q in multiset(sent) && q in net';
      }
    }
  }

  lemma {:induction false} OnceSent(cfg: Config, sent: seq<Packet>, q: Packet)
    requires q in sent && IsCurrent(cfg, q)
    requires forall a, b | 0 <= a < b < |sent| && IsCurrent(cfg, sent[a]) && IsCurrent(cfg, sent[b]) ::
      SlotOf(sent[a]) != SlotOf(sent[b])
    ensures multiset(sent)[q] == 1
    ensures forall x | x in sent && IsCurrent(cfg, x) && SlotOf(x) == SlotOf(q) :: x == q
  {
    var rest := sent[1..];
    assert sent == [sent[0]] + rest;
    assert multiset(sent) == multiset{sent[0]} + multiset(rest);
    if sent[0] == q {
      forall x | x in rest ensures x != q {
        var b :| 0 <= b < |rest| && rest[b] == x;
        assert sent[b + 1] == x;
      }
      assert q !in multiset(rest);
    } else {
      OnceSent(cfg, rest, q);
    }
    forall x | x in sent && IsCurrent(cfg, x) && SlotOf(x) == SlotOf(q) ensures x == q {
      var a :| 0 <= a < |sent| && sent[a] == x;
      var b :| 0 <= b < |sent| && sent[b] == q;
      assert a == b;
    }
  }

  /** A message in flight after the delivery was sent by it, or stayed in flight. */
  lemma SentOrKept(cfg: Config, net: multiset<Packet>, p: Packet, sent: seq<Packet>, q: Packet)
    requires UniqueSlots(cfg, net) && p in net && q in NetAfter(net, p, sent) && IsCurrent(cfg, q)
    ensures q in sent || (q in net && q != p && SlotOf(q) in Flying(cfg, net) - FreedSlots(cfg, p))
  {
    assert q in sent <==> q in multiset(sent);
  }

  lemma OneOfEach(cfg: Config, net: multiset<Packet>, p: Packet, sent: seq<Packet>, q: Packet, r: Packet)
    requires UniqueSlots(cfg, net) && p in net && FreshSends(cfg, net, p, sent)
    requires q in NetAfter(net, p, sent) && r in NetAfter(net, p, sent)
    requires IsCurrent(cfg, q) && IsCurrent(cfg, r) && SlotOf(q) == SlotOf(r)
    ensures q == r
  {
    SentOrKept(cfg, net, p, sent, q);
    SentOrKept(cfg, net, p, sent, r);
    if q in sent {
      OnceSent(cfg, sent, q);
    }
  }

  lemma OccursOnce(cfg: Config, net: multiset<Packet>, p: Packet, sent: seq<Packet>, q: Packet)
    requires UniqueSlots(cfg, net) && p in net && FreshSends(cfg, net, p, sent)
    requires q in NetAfter(net, p, sent) && IsCurrent(cfg, q)
    ensures NetAfter(net, p, sent)[q] == 1
  {
    SentOrKept(cfg, net, p, sent, q);
    assert q in net && q != p ==> SlotOf(q) in Flying(cfg, net) - FreedSlots(cfg, p);
    if q in sent {
      OnceSent(cfg, sent, q);
    } else {
      assert q !in multiset(sent);
    }
  }

  lemma UniqueAfter(cfg: Config, net: multiset<Packet>, p: Packet, sent: seq<Packet>)
    requires UniqueSlots(cfg, net) && p in net && FreshSends(cfg, net, p, sent)
    ensures UniqueSlots(cfg, NetAfter(net, p, sent))
  {
    var net' := NetAfter(net, p, sent);
    forall q | q in net' && IsCurrent(cfg, q)
      ensures net'[q] == 1
    {
      OccursOnce(cfg, net, p, sent, q);
    }
    forall q, r | q in net' && r in net' && IsCurrent(cfg, q) && IsCurrent(cfg, r) && SlotOf(q) == SlotOf(r)
      ensures q == r
    {
      OneOfEach(cfg, net, p, sent, q, r);
    }
  }

  lemma NetMeansUnique(cfg: Config, s: System)
    requires HasShape(cfg, s) && NetInv(cfg, s)
    ensures UniqueSlots(cfg, s.net)
  {
    forall p | p in s.net && IsCurrent(cfg, p) ensures s.net[p] == 1 {
      assert PacketInv(cfg, s, p);
    }
  }

  // What every delivery keeps: control states move forward, tags grow.

  ghost predicate Evolves(cfg: Config, s: System, s': System)
    requires HasShape(cfg, s)
  {
    && HasShape(cfg, s') && s'.ops.Keys == s.ops.Keys
    && (forall o | o in s.ops ::
          && (s'.ops[o].phase.Idle? ==> s.ops[o].phase.Idle?)
          && (s.ops[o].phase.HasTag() ==> s'.ops[o].phase.HasTag() && s'.ops[o].phase.TheTag() == s.ops[o].phase.TheTag()))
    && (forall j, k: nat | j in cfg.Ranks() && k < cfg.numKeys :: TagAt(s', j, k).AtLeast(TagAt(s, j, k)))
    && (forall i | i in s.finished :: i in s'.finished && s'.finished[i] == s.finished[i])
  }

  lemma PacketKept(cfg: Config, s: System, s': System, p: Packet, sent: seq<Packet>, q: Packet)
    requires HasShape(cfg, s) && Evolves(cfg, s, s') && p in s.net && s'.net == NetAfter(s.net, p, sent)
    requires q in s'.net && q !in sent && PacketInv(cfg, s, q)
    ensures PacketInv(cfg, s', q)
  {
    assert q !in multiset(sent);
    assert q in s.net && s'.net[q] == s.net[q] - (if q == p then 1 else 0);
  }

  /** A message that the delivery may put on the network. */
  ghost predicate GoodSend(cfg: Config, s: System, s': System, sent: seq<Packet>, q: Packet)
    requires HasShape(cfg, s')
  {
    if IsCurrent(cfg, q) then CurrentPacketInv(cfg, s', q)
    else if IsProtocol(q.msg) then true
    else sent == [q] && q.src !in s.finished && q.src in s'.finished && q == Report(cfg, q.src, s'.finished[q.src])
  }

  lemma ReportsAreFinished(cfg: Config, s: System, q: Packet)
    requires HasShape(cfg, s) && NetInv(cfg, s) && (q.msg.Done? || q.msg.TestDone?)
    ensures q in s.net ==> q.src in s.finished
  {
    if q in s.net {
      assert PacketInv(cfg, s, q);
    }
  }

  lemma NetKept(cfg: Config, s: System, s': System, p: Packet, sent: seq<Packet>)
    requires HasShape(cfg, s) && NetInv(cfg, s) && Evolves(cfg, s, s') && p in s.net && s'.net == NetAfter(s.net, p, sent)
    requires FreshSends(cfg, s.net, p, sent)
    requires forall q | q in sent :: GoodSend(cfg, s, s', sent, q)
    ensures NetInv(cfg, s')
  {
    NetMeansUnique(cfg, s);
    UniqueAfter(cfg, s.net, p, sent);
    forall q | q in s'.net
      ensures PacketInv(cfg, s', q)
    {
      if q !in sent {
        PacketKept(cfg, s, s', p, sent, q);
      } else {
        assert GoodSend(cfg, s, s', sent, q);
        if !IsProtocol(q.msg) {
          ReportsAreFinished(cfg, s, q);
          assert sent == [q];
        }
      }
    }
  }

  /** Only the arrival of an acknowledgement adds to those that have arrived. */
  lemma AckedGrows(cfg: Config, s: System, s': System, p: Packet, sent: seq<Packet>, o: OpId, j: nat)
    requires UniqueSlots(cfg, s.net) && p in s.net && s'.net == NetAfter(s.net, p, sent)
    requires p.msg.Write? && IsCurrent(cfg, p) ==> SlotOf(p) in SentSlots(cfg, sent)
    requires j in Acked(cfg, s', o)
    ensures j in Acked(cfg, s, o) || (IsCurrent(cfg, p) && p.msg.Ack? && SlotOf(p) == Impose(o, j))
  {
    FlyingAfter(cfg, s.net, p, sent);
  }

  lemma AcksKept(cfg: Config, s: System, s': System, p: Packet, sent: seq<Packet>, o: OpId)
    requires Inv(cfg, s) && Evolves(cfg, s, s') == true && p in s.net && s'.net == NetAfter(s.net, p, sent)
    requires o in s.ops && s.ops[o].phase.HasTag()
    requires p.msg.Write? && IsCurrent(cfg, p) ==> SlotOf(p) in SentSlots(cfg, sent)
    ensures HasShape(cfg, s') && o in s'.ops && AcksHold(cfg, s', o)
  {
    NetMeansUnique(cfg, s);
    assert AcksHold(cfg, s, o);
    assert PacketInv(cfg, s, p);
    assert Evolves(cfg, s, s');
    var tag := s.ops[o].phase.TheTag();
    forall j | j in Acked(cfg, s', o)
      ensures TagAt(s', j, o.0).AtLeast(tag)
    {
      AckedGrows(cfg, s, s', p, sent, o, j);
      assert TagAt(s, j, o.0).AtLeast(tag);
      assert TagAt(s', j, o.0).AtLeast(TagAt(s, j, o.0));
    }
  }

  /** Nothing that the operation's invariant speaks of has changed. */
  ghost predicate SameOp(cfg: Config, s: System, s': System, o: OpId)
    requires HasShape(cfg, s) && HasShape(cfg, s') && o in s.ops && o in s'.ops
  {
    var reg, reg' := s.nodes[o.1].registers[o.0], s'.nodes[o.1].registers[o.0];
    && s'.ops[o].phase == s.ops[o].phase && Started(s', o.1) == Started(s, o.1)
    && s'.nodes[o.1].readLists[o.0] == s.nodes[o.1].readLists[o.0]
    && reg'.rid == reg.rid && reg'.acks == reg.acks && reg'.reading == reg.reading && reg'.writeval == reg.writeval
    && Replied(cfg, s', o) == Replied(cfg, s, o) && Acked(cfg, s', o) == Acked(cfg, s, o)
  }

  lemma OpKept(cfg: Config, s: System, s': System, o: OpId)
    requires HasShape(cfg, s) && HasShape(cfg, s') && o in s.ops && o in s'.ops
    requires OpInv(cfg, s, o) && SameOp(cfg, s, s', o)
    ensures OpInv(cfg, s', o)
  {
  }

  /** The bookkeeping of a node whose operations did not respond. */
  lemma CountKept(cfg: Config, s: System, s': System, p: Packet, sent: seq<Packet>, i: nat)
    requires HasShape(cfg, s) && HasShape(cfg, s') && i in cfg.Ranks() && CountInv(cfg, s, i)
    requires p in s.net && s'.net == NetAfter(s.net, p, sent) && (IsProtocol(p.msg) || p.msg.Run?)
    requires Started(s', i) == Started(s, i)
    requires s'.nodes[i].readCount == s.nodes[i].readCount && s'.nodes[i].writeCount == s.nodes[i].writeCount
    requires forall k: nat | k < cfg.numKeys :: s'.ops[(k, i)].phase.Responded? == s.ops[(k, i)].phase.Responded?
    requires i in s'.finished <==> i in s.finished
    requires i in s.finished ==> s'.finished[i] == s.finished[i]
    requires forall q | q in sent :: q.src == i ==> IsProtocol(q.msg)
    ensures CountInv(cfg, s', i) == true
  {
    assert Unanswered(cfg, s', i, true) == Unanswered(cfg, s, i, true);
    assert Unanswered(cfg, s', i, false) == Unanswered(cfg, s, i, false);
    if i in s.finished {
      var report := Report(cfg, i, s.finished[i]);
      assert report !in sent;
      assert report !in multiset(sent);
    }
  }

  function RegisterOf(s: System, o: OpId): Register
    requires o.1 in s.nodes && o.0 in s.nodes[o.1].registers
  {
    s.nodes[o.1].registers[o.0]
  }

  function ListOf(s: System, o: OpId): ReadList
    requires o.1 in s.nodes && o.0 in s.nodes[o.1].readLists
  {
    s.nodes[o.1].readLists[o.0]
  }
}
