/** The mall and its chameneos with their messages in flight, delivered in any order, each once. */
module ChameneosProtocol {
  import opened Collections
  import opened Chameneos

  datatype System = System(mall: Mall, chameneos: seq<Chameneo>, net: seq<Packet>)

  /** The network after its `i`-th message was delivered and `sent` was sent. */
  function NetAfter(net: seq<Packet>, i: nat, sent: seq<Packet>): seq<Packet>
    requires i < |net|
  {
    net[..i] + net[i + 1..] + sent
  }

  predicate Receivable(s: System, i: nat) {
    i < |s.net| && (s.net[i].ToChameneo? ==> s.net[i].id < |s.chameneos|)
  }

  /** Delivers a message; `None` when the mall panics. */
  function Deliver(s: System, i: nat): Option<System>
    requires Receivable(s, i)
  {
    match s.net[i]
    case ToMall(msg) =>
      (match MallReceive(s.mall, msg)
       case MallPanicked => None
       case MallHandled(mall, sent) => Some(s.(mall := mall, net := NetAfter(s.net, i, sent))))
    case ToChameneo(id, msg) =>
      var r := ChameneoReceive(s.chameneos[id], id, msg);
      Some(s.(chameneos := s.chameneos[id := r.after], net := NetAfter(s.net, i, r.sent)))
  }

  /** All chameneos have just started: each has asked the mall for a meeting. */
  function Initial(numMeetings: nat, numChameneos: nat): System {
    System(Mall(numMeetings, numChameneos, None, 0, 0, 0, 1),
           seq(numChameneos, c requires 0 <= c < numChameneos => Chameneo(ForId(c), 0, false)),
           seq(numChameneos, c requires 0 <= c < numChameneos => AskToMeet(c, ForId(c))))
  }

  ghost predicate StepAt(run: seq<System>, k: nat)
    requires k + 1 < |run|
  {
    exists i: nat :: Receivable(run[k], i) && Deliver(run[k], i) == Some(run[k + 1])
  }

  ghost predicate IsRun(numMeetings: nat, numChameneos: nat, run: seq<System>) {
    run != [] && run[0] == Initial(numMeetings, numChameneos) && forall k: nat | k + 1 < |run| :: StepAt(run, k)
  }

  // Totals over the network.

  function Total(net: seq<Packet>, f: Packet -> nat): nat {
    if net == [] then 0 else f(net[0]) + Total(net[1..], f)
  }

  lemma {:induction false} TotalConcat(a: seq<Packet>, b: seq<Packet>, f: Packet -> nat)
    ensures Total(a + b, f) == Total(a, f) + Total(b, f)
  {
    if a == [] {
      assert a + b == b;
    } else {
      assert (a + b)[1..] == a[1..] + b;
      TotalConcat(a[1..], b, f);
    }
  }

  lemma TotalAfter(net: seq<Packet>, i: nat, sent: seq<Packet>, f: Packet -> nat)
    requires i < |net|
    ensures Total(NetAfter(net, i, sent), f) + f(net[i]) == Total(net, f) + Total(sent, f)
  {
    TotalConcat(net[..i] + net[i + 1..], sent, f);
    TotalConcat(net[..i], net[i + 1..], f);
    TotalConcat(net[..i], net[i..], f);
    assert net == net[..i] + net[i..];
    assert net[i..][1..] == net[i + 1..];
  }

  // Tokens: a live chameneo is in one message, in one half of a pending meeting, or waiting in the mall.

  /** How many tokens of chameneo `c` a message holds. */
  function Holds(p: Packet, c: nat): nat {
    match p
    case ToMall(MeetingCount(_)) => 0
    case ToMall(AskMeet(_, asker)) => if asker == c then 1 else 0
    case ToChameneo(d, Meet(_, partner)) => (if partner == c then 1 else 0) + (if d == c then 1 else 0)
    case ToChameneo(d, Change(_)) => if d == c then 1 else 0
    case ToChameneo(d, Exit) => if d == c then 1 else 0
  }

  function HoldsToken(c: nat): Packet -> nat {
    p => Holds(p, c)
  }

  function Waits(m: Mall, c: nat): nat {
    if m.waiting == Some(c) then 1 else 0
  }

  function Lives(chameneos: seq<Chameneo>, c: nat): nat {
    if c < |chameneos| && !chameneos[c].dead then 1 else 0
  }

  /** The numbers of the live chameneos. */
  function Live(chameneos: seq<Chameneo>): set<nat> {
    set c: nat | c < |chameneos| && !chameneos[c].dead
  }

  // Meetings.

  /** How many meetings the receivers of a message have still to count. */
  function Owed(p: Packet): nat {
    match p
    case ToChameneo(_, Meet(_, _)) => 2
    case ToChameneo(_, Change(_)) => 1
    case _ => 0
  }

  /** The meetings that a stopped chameneo reports. */
  function Reported(p: Packet): nat {
    if p.ToMall? && p.mall.MeetingCount? then p.mall.count else 0
  }

  function IsCount(p: Packet): nat {
    if p.ToMall? && p.mall.MeetingCount? then 1 else 0
  }

  function IsExit(p: Packet): nat {
    if p.ToChameneo? && p.msg.Exit? then 1 else 0
  }

  function Meetings(chameneos: seq<Chameneo>): seq<int> {
    seq(|chameneos|, c requires 0 <= c < |chameneos| => chameneos[c].meetings)
  }

  function MeetingsOfDead(chameneos: seq<Chameneo>): seq<int> {
    seq(|chameneos|, c requires 0 <= c < |chameneos| => if chameneos[c].dead then chameneos[c].meetings else 0)
  }

  /** How many deliveries a message will still lead to, meetings aside. */
  function Weight(p: Packet): nat {
    match p
    case ToMall(MeetingCount(_)) => 1
    case ToMall(AskMeet(_, _)) => 3
    case ToChameneo(_, Meet(_, _)) => 8
    case ToChameneo(_, Change(_)) => 4
    case ToChameneo(_, Exit) => 2
  }

  /** The deliveries that are still to come. */
  function Work(s: System): int {
    Total(s.net, Weight) + (if s.mall.waiting.Some? then 2 else 0) + 4 * (s.mall.numMeetings - s.mall.meetingsCount)
  }

  // The invariant.

  /** Every live chameneo has exactly one token, a dead one has none. */
  ghost predicate TokenInv(s: System) {
    forall c: nat :: Total(s.net, HoldsToken(c)) + Waits(s.mall, c) == Lives(s.chameneos, c)
  }

  ghost predicate MallInv(s: System) {
    && s.mall.numChameneos == |s.chameneos|
    && s.mall.meetingsCount <= s.mall.numMeetings && (|s.chameneos| <= 1 ==> s.mall.meetingsCount == 0)
    && (s.mall.waiting.Some? ==> s.mall.meetingsCount < s.mall.numMeetings)
    && (Total(s.net, IsExit) > 0 || |Live(s.chameneos)| < |s.chameneos| ==> s.mall.meetingsCount == s.mall.numMeetings)
  }

  ghost predicate FadedInv(s: System) {
    && s.mall.numFaded + Total(s.net, IsCount) + |Live(s.chameneos)| == |s.chameneos|
    && s.mall.latch == if s.mall.numFaded == |s.chameneos| && s.mall.numFaded > 0 then 0 else 1
  }

  ghost predicate MeetingInv(s: System) {
    && Sum(Meetings(s.chameneos)) + Total(s.net, Owed) == 2 * s.mall.meetingsCount
    && Sum(MeetingsOfDead(s.chameneos)) == s.mall.sumMeetings + Total(s.net, Reported)
  }

  /** A message carries the present colour of the chameneo it speaks of. */
  ghost predicate ColourFits(s: System, p: Packet) {
    match p
    case ToMall(MeetingCount(_)) => true
    case ToMall(AskMeet(colour, c)) => c < |s.chameneos| && colour == s.chameneos[c].colour
    case ToChameneo(d, Meet(colour, c)) => c < |s.chameneos| && d < |s.chameneos| && c != d && colour == s.chameneos[c].colour
    case ToChameneo(d, Change(colour)) => d < |s.chameneos| && colour != Faded
    case ToChameneo(d, Exit) => d < |s.chameneos|
  }

  ghost predicate ColourInv(s: System) {
    && (forall c: nat | c < |s.chameneos| :: s.chameneos[c].dead <==> s.chameneos[c].colour == Faded)
    && (forall p | p in s.net :: ColourFits(s, p))
  }

  ghost predicate Inv(s: System) {
    TokenInv(s) && MallInv(s) && FadedInv(s) && MeetingInv(s) && ColourInv(s)
  }
}
