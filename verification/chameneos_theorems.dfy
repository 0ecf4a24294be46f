/** Conservation and termination of the chameneos' meetings. */
module ChameneosTheorems {
  import opened Collections
  import opened Chameneos
  import opened ChameneosProtocol

  // Counting after a delivery.

  lemma TotalOfSent(sent: seq<Packet>, f: Packet -> nat)
    ensures |sent| == 0 ==> Total(sent, f) == 0
    ensures |sent| == 1 ==> Total(sent, f) == f(sent[0])
    ensures |sent| == 2 ==> Total(sent, f) == f(sent[0]) + f(sent[1])
  {
  }

  /** What at most two messages are worth. */
  function SentTotal(sent: seq<Packet>, f: Packet -> nat): nat
    requires |sent| <= 2
  {
    (if |sent| > 0 then f(sent[0]) else 0) + (if |sent| > 1 then f(sent[1]) else 0)
  }

  lemma TotalMoves(net: seq<Packet>, i: nat, sent: seq<Packet>, f: Packet -> nat)
    requires i < |net| && |sent| <= 2
    ensures Total(NetAfter(net, i, sent), f) + f(net[i]) == Total(net, f) + SentTotal(sent, f)
  {
    TotalAfter(net, i, sent, f);
    TotalOfSent(sent, f);
  }

  lemma SumsMove(net: seq<Packet>, i: nat, sent: seq<Packet>)
    requires i < |net| && |sent| <= 2
    ensures Total(NetAfter(net, i, sent), IsExit) + IsExit(net[i]) == Total(net, IsExit) + SentTotal(sent, IsExit)
    ensures Total(NetAfter(net, i, sent), IsCount) + IsCount(net[i]) == Total(net, IsCount) + SentTotal(sent, IsCount)
    ensures Total(NetAfter(net, i, sent), Owed) + Owed(net[i]) == Total(net, Owed) + SentTotal(sent, Owed)
    ensures Total(NetAfter(net, i, sent), Reported) + Reported(net[i]) == Total(net, Reported) + SentTotal(sent, Reported)
    ensures Total(NetAfter(net, i, sent), Weight) + Weight(net[i]) == Total(net, Weight) + SentTotal(sent, Weight)
  {
    TotalMoves(net, i, sent, IsExit);
    TotalMoves(net, i, sent, IsCount);
    TotalMoves(net, i, sent, Owed);
    TotalMoves(net, i, sent, Reported);
    TotalMoves(net, i, sent, Weight);
  }

  // One token each.

  lemma {:induction false} TokenIn(net: seq<Packet>, p: Packet, c: nat)
    requires p in net
    ensures Holds(p, c) <= Total(net, HoldsToken(c))
  {
    if net[0] != p {
      TokenIn(net[1..], p, c);
    }
  }

  /** Who is spoken of in a message is alive, and spoken of nowhere else. */
  lemma HeldOnce(s: System, i: nat, c: nat)
    requires TokenInv(s) && i < |s.net| && Holds(s.net[i], c) > 0
    ensures c < |s.chameneos| && !s.chameneos[c].dead && Holds(s.net[i], c) == 1 && s.mall.waiting != Some(c)
    ensures forall q | q in s.net[..i] + s.net[i + 1..] :: Holds(q, c) == 0
  {
    var rest := s.net[..i] + s.net[i + 1..];
    assert NetAfter(s.net, i, []) == rest;
    TotalMoves(s.net, i, [], HoldsToken(c));
    forall q | q in rest ensures Holds(q, c) == 0 {
      TokenIn(rest, q, c);
    }
  }

  lemma WaitingIsLive(s: System, c: nat)
    requires TokenInv(s) && s.mall.waiting == Some(c)
    ensures c < |s.chameneos| && !s.chameneos[c].dead
    ensures forall q | q in s.net :: Holds(q, c) == 0
  {
    assert Total(s.net, HoldsToken(c)) + Waits(s.mall, c) == Lives(s.chameneos, c);
    forall q | q in s.net ensures Holds(q, c) == 0 {
      TokenIn(s.net, q, c);
    }
  }

  lemma TokensMove(s: System, i: nat, sent: seq<Packet>, mall: Mall, chameneos: seq<Chameneo>)
    requires TokenInv(s) && i < |s.net| && |sent| <= 2
    requires forall c: nat :: SentTotal(sent, HoldsToken(c)) + Waits(mall, c) - Lives(chameneos, c)
                              == Holds(s.net[i], c) + Waits(s.mall, c) - Lives(s.chameneos, c)
    ensures TokenInv(System(mall, chameneos, NetAfter(s.net, i, sent))) == true
  {
    forall c: nat
      ensures Total(NetAfter(s.net, i, sent), HoldsToken(c)) + Waits(mall, c) == Lives(chameneos, c)
    {
      TotalMoves(s.net, i, sent, HoldsToken(c));
    }
  }

  // The mall's deliveries.

  lemma MallColours(s: System, i: nat, sent: seq<Packet>)
    requires ColourInv(s) && i < |s.net| && forall p | p in sent :: ColourFits(s, p)
    ensures forall p | p in NetAfter(s.net, i, sent) :: ColourFits(s, p)
  {
  }

  lemma CountKeepsInv(s: System, i: nat)
    requires Inv(s) && i < |s.net| && s.net[i].ToMall? && s.net[i].mall.MeetingCount?
    ensures Receivable(s, i) && Deliver(s, i).Some? && Inv(Deliver(s, i).value)
    ensures Work(Deliver(s, i).value) == Work(s) - 1
  {
    SumsMove(s.net, i, []);
    MallColours(s, i, []);
    var r := MallReceive(s.mall, s.net[i].mall);
    TokensMove(s, i, [], r.after, s.chameneos);
  }

  /** The mall's answer to a chameneo, when it does not pair it with another. */
  lemma UnpairedAskKeepsInv(s: System, i: nat)
    requires Inv(s) && i < |s.net| && s.net[i].ToMall? && s.net[i].mall.AskMeet?
    requires s.mall.waiting.None? || s.mall.meetingsCount >= s.mall.numMeetings
    ensures Receivable(s, i) && Deliver(s, i).Some? && Inv(Deliver(s, i).value)
    ensures Work(Deliver(s, i).value) == Work(s) - 1
  {
    var r := MallReceive(s.mall, s.net[i].mall);
    assert s.net[i] in s.net && ColourFits(s, s.net[i]);
    SumsMove(s.net, i, r.sent);
    MallColours(s, i, r.sent);
    TokensMove(s, i, r.sent, r.after, s.chameneos);
  }

  lemma PairedAskKeepsInv(s: System, i: nat)
    requires Inv(s) && i < |s.net| && s.net[i].ToMall? && s.net[i].mall.AskMeet?
    requires s.mall.waiting.Some? && s.mall.meetingsCount < s.mall.numMeetings
    ensures Receivable(s, i) && Deliver(s, i).Some? && Inv(Deliver(s, i).value)
    ensures Work(Deliver(s, i).value) == Work(s) - 1
  {
    var r := MallReceive(s.mall, s.net[i].mall);
    assert s.net[i] in s.net && ColourFits(s, s.net[i]);
    HeldOnce(s, i, s.net[i].mall.chameneo);
    WaitingIsLive(s, s.mall.waiting.value);
    SumsMove(s.net, i, r.sent);
    MallColours(s, i, r.sent);
    TokensMove(s, i, r.sent, r.after, s.chameneos);
  }

  // The chameneos' deliveries.

  lemma MeetingsMove(chameneos: seq<Chameneo>, d: nat, after: Chameneo)
    requires d < |chameneos|
    ensures Sum(Meetings(chameneos[d := after])) == Sum(Meetings(chameneos)) - chameneos[d].meetings + after.meetings
    ensures Sum(MeetingsOfDead(chameneos[d := after])) == Sum(MeetingsOfDead(chameneos))
            - (if chameneos[d].dead then chameneos[d].meetings else 0) + (if after.dead then after.meetings else 0)
  {
    SumUpdate(Meetings(chameneos), d, after.meetings);
    assert Meetings(chameneos[d := after]) == Meetings(chameneos)[d := after.meetings];
    var dead := if after.dead then after.meetings else 0;
    SumUpdate(MeetingsOfDead(chameneos), d, dead);
    assert MeetingsOfDead(chameneos[d := after]) == MeetingsOfDead(chameneos)[d := dead];
  }

  lemma LiveMove(chameneos: seq<Chameneo>, d: nat, after: Chameneo)
    requires d < |chameneos| && !chameneos[d].dead
    ensures |Live(chameneos[d := after])| == |Live(chameneos)| - if after.dead then 1 else 0
  {
    assert d in Live(chameneos);
    if after.dead {
      assert Live(chameneos[d := after]) == Live(chameneos) - {d};
    } else {
      assert Live(chameneos[d := after]) == Live(chameneos);
    }
  }

  /** Messages that do not speak of `d` do not mind a change of `d`. */
  lemma ColoursMove(s: System, i: nat, sent: seq<Packet>, d: nat, after: Chameneo)
    requires ColourInv(s) && i < |s.net| && d < |s.chameneos|
    requires after.dead <==> after.colour == Faded
    requires forall q | q in s.net[..i] + s.net[i + 1..] :: Holds(q, d) == 0
    requires forall q | q in sent :: ColourFits(s.(chameneos := s.chameneos[d := after]), q)
    ensures ColourInv(System(s.mall, s.chameneos[d := after], NetAfter(s.net, i, sent))) == true
  {
    var s' := System(s.mall, s.chameneos[d := after], NetAfter(s.net, i, sent));
    forall q | q in s'.net
      ensures ColourFits(s', q)
    {
      if q !in sent {
        assert q in s.net[..i] + s.net[i + 1..] && q in s.net && ColourFits(s, q) && Holds(q, d) == 0;
      } else {
        assert ColourFits(s.(chameneos := s.chameneos[d := after]), q);
      }
    }
  }

  lemma MeetKeepsInv(s: System, i: nat)
    requires Inv(s) && i < |s.net| && s.net[i].ToChameneo? && s.net[i].msg.Meet?
    ensures Receivable(s, i) && Deliver(s, i).Some? && Inv(Deliver(s, i).value)
    ensures Work(Deliver(s, i).value) == Work(s) - 1
  {
    var d, c := s.net[i].id, s.net[i].msg.chameneo;
    assert s.net[i] in s.net && ColourFits(s, s.net[i]);
    HeldOnce(s, i, d);
    HeldOnce(s, i, c);
    ComplementIsTheThird(s.chameneos[d].colour, s.net[i].msg.colour);
    var r := ChameneoReceive(s.chameneos[d], d, s.net[i].msg);
    SumsMove(s.net, i, r.sent);
    MeetingsMove(s.chameneos, d, r.after);
    LiveMove(s.chameneos, d, r.after);
    ColoursMove(s, i, r.sent, d, r.after);
    TokensMove(s, i, r.sent, s.mall, s.chameneos[d := r.after]);
  }

  lemma ChangeKeepsInv(s: System, i: nat)
    requires Inv(s) && i < |s.net| && s.net[i].ToChameneo? && s.net[i].msg.Change?
    ensures Receivable(s, i) && Deliver(s, i).Some? && Inv(Deliver(s, i).value)
    ensures Work(Deliver(s, i).value) == Work(s) - 1
  {
    var d := s.net[i].id;
    assert s.net[i] in s.net && ColourFits(s, s.net[i]);
    HeldOnce(s, i, d);
    var r := ChameneoReceive(s.chameneos[d], d, s.net[i].msg);
    SumsMove(s.net, i, r.sent);
    MeetingsMove(s.chameneos, d, r.after);
    LiveMove(s.chameneos, d, r.after);
    ColoursMove(s, i, r.sent, d, r.after);
    TokensMove(s, i, r.sent, s.mall, s.chameneos[d := r.after]);
  }

  lemma ExitKeepsInv(s: System, i: nat)
    requires Inv(s) && i < |s.net| && s.net[i].ToChameneo? && s.net[i].msg.Exit?
    ensures Receivable(s, i) && Deliver(s, i).Some? && Inv(Deliver(s, i).value)
    ensures Work(Deliver(s, i).value) == Work(s) - 1
  {
    var d := s.net[i].id;
    assert s.net[i] in s.net && ColourFits(s, s.net[i]);
    HeldOnce(s, i, d);
    var r := ChameneoReceive(s.chameneos[d], d, s.net[i].msg);
    SumsMove(s.net, i, r.sent);
    MeetingsMove(s.chameneos, d, r.after);
    LiveMove(s.chameneos, d, r.after);
    ColoursMove(s, i, r.sent, d, r.after);
    TokensMove(s, i, r.sent, s.mall, s.chameneos[d := r.after]);
  }

  /** Every delivery finds its receiver alive, keeps the invariant and takes one unit of work. */
  lemma DeliveryKeepsInv(s: System, i: nat)
    requires Inv(s) && i < |s.net|
    ensures Receivable(s, i) && Deliver(s, i).Some?
    ensures s.net[i].ToChameneo? ==> !s.chameneos[s.net[i].id].dead
    ensures Inv(Deliver(s, i).value) == true && Work(Deliver(s, i).value) == Work(s) - 1
  {
    match s.net[i] {
      case ToMall(MeetingCount(_)) => CountKeepsInv(s, i);
      case ToMall(AskMeet(_, _)) =>
        if s.mall.waiting.None? || s.mall.meetingsCount >= s.mall.numMeetings {
          UnpairedAskKeepsInv(s, i);
        } else {
          PairedAskKeepsInv(s, i);
        }
      case ToChameneo(d, Meet(_, _)) =>
        MeetKeepsInv(s, i);
        HeldOnce(s, i, d);
      case ToChameneo(d, Change(_)) =>
        ChangeKeepsInv(s, i);
        HeldOnce(s, i, d);
      case ToChameneo(d, Exit) =>
        ExitKeepsInv(s, i);
        HeldOnce(s, i, d);
    }
  }

  // Runs.

  function Asks(count: nat): seq<Packet> {
    seq(count, c requires 0 <= c < count => AskToMeet(c, ForId(c)))
  }

  lemma {:induction false} TotalOfAsks(count: nat, c: nat)
    ensures Total(Asks(count), HoldsToken(c)) == if c < count then 1 else 0
    ensures Total(Asks(count), IsExit) == 0 && Total(Asks(count), IsCount) == 0
    ensures Total(Asks(count), Owed) == 0 && Total(Asks(count), Reported) == 0
    ensures Total(Asks(count), Weight) == 3 * count
  {
    if count > 0 {
      TotalOfAsks(count - 1, c);
      var last := [AskToMeet(count - 1, ForId(count - 1))];
      assert Asks(count) == Asks(count - 1) + last;
      TotalConcat(Asks(count - 1), last, HoldsToken(c));
      TotalConcat(Asks(count - 1), last, IsExit);
      TotalConcat(Asks(count - 1), last, IsCount);
      TotalConcat(Asks(count - 1), last, Owed);
      TotalConcat(Asks(count - 1), last, Reported);
      TotalConcat(Asks(count - 1), last, Weight);
    }
  }

  lemma InitialHasInv(numMeetings: nat, numChameneos: nat)
    ensures Inv(Initial(numMeetings, numChameneos)) == true
    ensures Work(Initial(numMeetings, numChameneos)) == 3 * numChameneos + 4 * numMeetings
  {
    var s := Initial(numMeetings, numChameneos);
    assert s.net == Asks(numChameneos);
    forall c: nat ensures Total(s.net, HoldsToken(c)) + Waits(s.mall, c) == Lives(s.chameneos, c) {
      TotalOfAsks(numChameneos, c);
    }
    TotalOfAsks(numChameneos, 0);
    assert Live(s.chameneos) == Below(numChameneos);
    BelowSize(numChameneos);
    SumConstant(Meetings(s.chameneos), 0);
    SumConstant(MeetingsOfDead(s.chameneos), 0);
  }

  /** Every run starts with chameneos in red, yellow and blue by turns, each asking with its own colour. */
  lemma FirstColours(numMeetings: nat, numChameneos: nat, run: seq<System>, q: nat, r: nat)
    requires IsRun(numMeetings, numChameneos, run) && r < 3 && 3 * q + r < numChameneos
    ensures |run[0].chameneos| == numChameneos && |run[0].net| == numChameneos
    ensures var c, colour := 3 * q + r, [Red, Yellow, Blue][r];
            run[0].chameneos[c] == Chameneo(colour, 0, false) && run[0].net[c] == ToMall(AskMeet(colour, c))
  {
    ConsecutiveIdsDiffer(q);
  }

  /** What is fixed in a run, and how much work is left after `k` deliveries. */
  ghost predicate AfterDeliveries(s: System, numMeetings: nat, numChameneos: nat, k: nat) {
    && Inv(s) && s.mall.numMeetings == numMeetings && |s.chameneos| == numChameneos
    && Work(s) == 3 * numChameneos + 4 * numMeetings - k
  }

  lemma StepAtWorks(numMeetings: nat, numChameneos: nat, run: seq<System>, k: nat)
    requires k + 1 < |run| && StepAt(run, k) && AfterDeliveries(run[k], numMeetings, numChameneos, k)
    ensures AfterDeliveries(run[k + 1], numMeetings, numChameneos, k + 1) == true
  {
    var i: nat :| Receivable(run[k], i) && Deliver(run[k], i) == Some(run[k + 1]);
    DeliveryKeepsInv(run[k], i);
  }

  lemma {:induction false} WorkAlongRun(numMeetings: nat, numChameneos: nat, run: seq<System>, k: nat)
    requires IsRun(numMeetings, numChameneos, run) && k < |run|
    ensures AfterDeliveries(run[k], numMeetings, numChameneos, k) == true
  {
    if k == 0 {
      InitialHasInv(numMeetings, numChameneos);
    } else {
      WorkAlongRun(numMeetings, numChameneos, run, k - 1);
      assert StepAt(run, k - 1);
      StepAtWorks(numMeetings, numChameneos, run, k - 1);
    }
  }

  // Main results.

  /** Every message in flight can be delivered: nobody panics, and nobody writes to the dead. */
  lemma NoPanic(numMeetings: nat, numChameneos: nat, run: seq<System>, k: nat, i: nat)
    requires IsRun(numMeetings, numChameneos, run) && k < |run| && i < |run[k].net|
    ensures Receivable(run[k], i) && Deliver(run[k], i).Some?
    ensures run[k].net[i].ToChameneo? ==> !run[k].chameneos[run[k].net[i].id].dead
  {
    WorkAlongRun(numMeetings, numChameneos, run, k);
    DeliveryKeepsInv(run[k], i);
  }

  /** Each live chameneo is in exactly one place, a dead one nowhere; only the dead are Faded. */
  lemma OneTokenEach(numMeetings: nat, numChameneos: nat, run: seq<System>, k: nat, c: nat)
    requires IsRun(numMeetings, numChameneos, run) && k < |run| && c < numChameneos
    ensures |run[k].chameneos| == numChameneos
    ensures Total(run[k].net, HoldsToken(c)) + Waits(run[k].mall, c) == if run[k].chameneos[c].dead then 0 else 1
    ensures run[k].chameneos[c].dead <==> run[k].chameneos[c].colour == Faded
  {
    WorkAlongRun(numMeetings, numChameneos, run, k);
    assert Total(run[k].net, HoldsToken(c)) + Waits(run[k].mall, c) == Lives(run[k].chameneos, c);
  }

  lemma {:induction false} EveryMessageMatters(net: seq<Packet>)
    ensures |net| <= Total(net, Weight)
    ensures net != [] ==> Total(net, IsCount) > 0 || exists c: nat :: Total(net, HoldsToken(c)) > 0
  {
    if net != [] {
      EveryMessageMatters(net[1..]);
      var c: nat := match net[0]
        case ToMall(AskMeet(_, asker)) => asker
        case ToMall(MeetingCount(_)) => 0
        case ToChameneo(d, _) => d;
      assert IsCount(net[0]) > 0 || Total(net, HoldsToken(c)) > 0;
    }
  }

  /** When no message is left, all chameneos are gone, or the only one there is waits for a partner. */
  lemma QuietEnd(s: System)
    requires Inv(s) && s.net == []
    ensures |Live(s.chameneos)| == if s.mall.waiting.Some? then 1 else 0
    ensures s.mall.waiting.Some? <==> |s.chameneos| == 1 && s.mall.numMeetings > 0
    ensures s.mall.waiting.None? && |s.chameneos| > 0 ==> s.mall.meetingsCount == s.mall.numMeetings
  {
    assert forall c: nat :: Total(s.net, HoldsToken(c)) == 0;
    var live := Live(s.chameneos);
    assert forall c: nat :: c in live <==> Lives(s.chameneos, c) == 1;
    assert forall c: nat :: Waits(s.mall, c) == Lives(s.chameneos, c);
    if s.mall.waiting.Some? {
      assert Waits(s.mall, s.mall.waiting.value) == 1;
      assert live == {s.mall.waiting.value};
    } else {
      assert live == {};
    }
  }

  /** The counters once all chameneos are gone. */
  lemma AllGone(s: System)
    requires Inv(s) && Live(s.chameneos) == {}
    ensures Sum(Meetings(s.chameneos)) == Sum(MeetingsOfDead(s.chameneos))
  {
    forall c: nat | c < |s.chameneos| ensures s.chameneos[c].dead {
      assert c !in Live(s.chameneos);
    }
    assert Meetings(s.chameneos) == MeetingsOfDead(s.chameneos);
  }

  /** The benchmark is over when the latch is down: every chameneo has faded, and every meeting was counted by both parties. */
  ghost predicate IsFinished(s: System) {
    && s.mall.latch == 0 && s.net == [] && s.mall.waiting.None?
    && (forall c: nat | c < |s.chameneos| :: s.chameneos[c].dead)
    && s.mall.numFaded == |s.chameneos| && s.mall.meetingsCount == s.mall.numMeetings
    && s.mall.sumMeetings == 2 * s.mall.numMeetings
  }

  lemma SomeoneWaits(m: Mall)
    ensures m.waiting.Some? ==> exists c: nat :: Waits(m, c) == 1
  {
    if m.waiting.Some? {
      assert Waits(m, m.waiting.value) == 1;
    }
  }

  lemma LatchMeansFinished(s: System)
    requires Inv(s) && s.mall.latch == 0
    ensures IsFinished(s)
  {
    assert |Live(s.chameneos)| == 0 && Live(s.chameneos) == {};
    EveryMessageMatters(s.net);
    forall c: nat ensures Total(s.net, HoldsToken(c)) == 0 && Waits(s.mall, c) == 0 && (c < |s.chameneos| ==> s.chameneos[c].dead) {
      assert c !in Live(s.chameneos);
    }
    SomeoneWaits(s.mall);
    AllGone(s);
  }

  /** The latch goes down once, and only when everything is over. */
  lemma LatchGoesDownLast(numMeetings: nat, numChameneos: nat, run: seq<System>, k: nat)
    requires IsRun(numMeetings, numChameneos, run) && k < |run|
    ensures run[k].mall.latch <= 1
    ensures run[k].mall.latch == 0 <==> IsFinished(run[k])
    ensures run[k].mall.latch == 0 ==> k == 3 * numChameneos + 4 * numMeetings && k + 1 == |run|
  {
    WorkAlongRun(numMeetings, numChameneos, run, k);
    if run[k].mall.latch == 0 {
      LatchMeansFinished(run[k]);
      assert k + 1 < |run| ==> StepAt(run, k);
    }
  }

  /** No run is longer than three deliveries per chameneo and four per meeting. */
  lemma EveryRunEnds(numMeetings: nat, numChameneos: nat, run: seq<System>)
    requires IsRun(numMeetings, numChameneos, run)
    ensures |run| - 1 <= 3 * numChameneos + 4 * numMeetings
  {
    WorkAlongRun(numMeetings, numChameneos, run, |run| - 1);
  }

  /**
   * A run that can go no further has finished if and only if there were two chameneos, or one and
   * no meetings to have; otherwise the lone chameneo waits for ever.
   */
  lemma FinishesIff(numMeetings: nat, numChameneos: nat, run: seq<System>)
    requires IsRun(numMeetings, numChameneos, run) && run[|run| - 1].net == []
    ensures IsFinished(run[|run| - 1]) <==> numChameneos >= 2 || (numChameneos == 1 && numMeetings == 0)
    ensures IsFinished(run[|run| - 1]) ==> |run| - 1 == 3 * numChameneos + 4 * numMeetings
  {
    var s := run[|run| - 1];
    WorkAlongRun(numMeetings, numChameneos, run, |run| - 1);
    QuietEnd(s);
    if s.mall.latch == 0 {
      LatchMeansFinished(s);
    }
  }

  // Meetings.

  /** The receiver of a Meet takes the complement of both colours, and sends the same colour to its partner. */
  lemma PartnersAgree(numMeetings: nat, numChameneos: nat, run: seq<System>, k: nat, i: nat)
    requires IsRun(numMeetings, numChameneos, run) && k < |run| && i < |run[k].net|
    requires run[k].net[i].ToChameneo? && run[k].net[i].msg.Meet?
    ensures var s, d, c := run[k], run[k].net[i].id, run[k].net[i].msg.chameneo;
            && c < |s.chameneos| && d < |s.chameneos| && c != d && Receivable(s, i) && Deliver(s, i).Some?
            && var s', colour := Deliver(s, i).value, s.chameneos[c].colour.Complement(s.chameneos[d].colour);
               && colour != Faded && s'.chameneos == s.chameneos[d := Chameneo(colour, s.chameneos[d].meetings + 1, false)]
               && ToChameneo(c, Change(colour)) in s'.net
  {
    var s := run[k];
    WorkAlongRun(numMeetings, numChameneos, run, k);
    DeliveryKeepsInv(s, i);
    assert s.net[i] in s.net && ColourFits(s, s.net[i]);
    var d, c := s.net[i].id, s.net[i].msg.chameneo;
    HeldOnce(s, i, c);
    ComplementIsTheThird(s.chameneos[d].colour, s.chameneos[c].colour);
    var sent := ChameneoReceive(s.chameneos[d], d, s.net[i].msg).sent;
    assert sent[0] in sent && sent[0] in NetAfter(s.net, i, sent);
  }

  /** While that Change is under way nothing else happens to the partner; then it takes the colour. */
  lemma PartnerWaitsForColour(numMeetings: nat, numChameneos: nat, run: seq<System>, k: nat, i: nat, j: nat)
    requires IsRun(numMeetings, numChameneos, run) && k < |run| && i < |run[k].net| && j < |run[k].net|
    requires run[k].net[i].ToChameneo? && run[k].net[i].msg.Change?
    ensures Receivable(run[k], j) && Deliver(run[k], j).Some?
    ensures var s, s', c := run[k], Deliver(run[k], j).value, run[k].net[i].id;
            && c < |s.chameneos| && |s'.chameneos| == |s.chameneos|
            && if i == j then s'.chameneos[c] == Chameneo(s.net[i].msg.colour, s.chameneos[c].meetings + 1, false)
               else s'.chameneos[c] == s.chameneos[c] && s.net[i] in s'.net
  {
    var s := run[k];
    WorkAlongRun(numMeetings, numChameneos, run, k);
    DeliveryKeepsInv(s, j);
    var c := s.net[i].id;
    HeldOnce(s, i, c);
    if i != j {
      var rest := s.net[..i] + s.net[i + 1..];
      assert s.net[j].ToChameneo? ==> Holds(s.net[j], s.net[j].id) > 0;
      assert s.net[j] == rest[if j < i then j else j - 1] && s.net[j] in rest;
      var others := s.net[..j] + s.net[j + 1..];
      assert s.net[i] == others[if i < j then i else i - 1] && s.net[i] in others;
    }
  }
}
