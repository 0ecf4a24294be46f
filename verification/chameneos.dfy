/** Colours, mall and chameneos (helpers/chameneos.rs and chameneos.rs, `actor_chameneos`). */
module Chameneos {
  import opened Collections

  // Colours.

  datatype Colour = Red | Yellow | Blue | Faded {

    /** The third colour when two different ones meet. */
    function Complement(other: Colour): Colour {
      match this
      case Red => (match other case Red => Red case Yellow => Blue case Blue => Yellow case Faded => Faded)
      case Yellow => (match other case Red => Blue case Yellow => Yellow case Blue => Red case Faded => Faded)
      case Blue => (match other case Red => Yellow case Yellow => Red case Blue => Blue case Faded => Faded)
      case Faded => Faded
    }
  }

  function ForId(i: nat): (c: Colour)
    ensures c != Faded
  {
    match i % 3
    case 0 => Red
    case 1 => Yellow
    case _ => Blue
  }

  /** Equal colours stay, different ones give the remaining third, whoever looks first; only Faded is contagious. */
  lemma ComplementIsTheThird(a: Colour, b: Colour)
    ensures a.Complement(b) == b.Complement(a)
    ensures a.Complement(b) == Faded <==> a == Faded || b == Faded
    ensures a.Complement(b) == a <==> a == b || a == Faded
    ensures a != b && a != Faded && b != Faded ==> a.Complement(b) != a && a.Complement(b) != b
    ensures a != Faded && b != Faded ==> a.Complement(a.Complement(b)) == b
  {
  }

  /** The colours take turns in the order red, yellow, blue; consecutive numbers never share one. */
  lemma ConsecutiveIdsDiffer(i: nat)
    ensures ForId(3 * i) == Red && ForId(3 * i + 1) == Yellow && ForId(3 * i + 2) == Blue
    ensures ForId(i) != ForId(i + 1) && ForId(i + 1) != ForId(i + 2) && ForId(i) != ForId(i + 2)
    ensures ForId(i + 3) == ForId(i)
  {
  }

  // Messages; chameneos are known by their number.

  datatype MallMsg = MeetingCount(count: nat) | AskMeet(colour: Colour, chameneo: nat)

  datatype ChameneoMsg = Meet(colour: Colour, chameneo: nat) | Change(colour: Colour) | Exit

  datatype Packet = ToMall(mall: MallMsg) | ToChameneo(id: nat, msg: ChameneoMsg)

  // The mall.

  /** `latch`: how often the latch can still be counted down. */
  datatype Mall = Mall(
    numMeetings: nat,
    numChameneos: nat,
    waiting: Option<nat>,
    sumMeetings: nat,
    meetingsCount: nat,
    numFaded: nat,
    latch: nat
  )

  datatype MallReaction = MallHandled(after: Mall, sent: seq<Packet>) | MallPanicked

  function MallReceive(m: Mall, msg: MallMsg): MallReaction {
    match msg
    case MeetingCount(count) =>
      var counted := m.(numFaded := m.numFaded + 1, sumMeetings := m.sumMeetings + count);
      if counted.numFaded != m.numChameneos then MallHandled(counted, [])
      else if m.latch == 0 then MallPanicked
      else MallHandled(counted.(latch := m.latch - 1), [])
    case AskMeet(colour, chameneo) =>
      if m.meetingsCount >= m.numMeetings then MallHandled(m, [ToChameneo(chameneo, Exit)])
      else match m.waiting
        case Some(other) =>
          MallHandled(m.(waiting := None, meetingsCount := m.meetingsCount + 1), [ToChameneo(other, Meet(colour, chameneo))])
        case None => MallHandled(m.(waiting := Some(chameneo)), [])
  }

  class ChameneosMallActor {
    const numMeetings: nat
    const numChameneos: nat
    var latch: nat
    var waiting: Option<nat>
    var sumMeetings: nat
    var meetingsCount: nat
    var numFaded: nat

    function State(): Mall
      reads this
    {
      Mall(numMeetings, numChameneos, waiting, sumMeetings, meetingsCount, numFaded, latch)
    }

    constructor With(numMeetings: nat, numChameneos: nat, latch: nat)
      ensures State() == Mall(numMeetings, numChameneos, None, 0, 0, 0, latch)
    {
      this.numMeetings, this.numChameneos, this.latch := numMeetings, numChameneos, latch;
      waiting, sumMeetings, meetingsCount, numFaded := None, 0, 0, 0;
    }

    method Receive(msg: MallMsg) returns (sent: seq<Packet>, panicked: bool)
      modifies this
      ensures panicked <==> MallReceive(old(State()), msg).MallPanicked?
      ensures !panicked ==> MallReceive(old(State()), msg) == MallHandled(State(), sent)
    {
      sent, panicked := [], false;
      match msg {
        case MeetingCount(count) =>
          numFaded := numFaded + 1;
          sumMeetings := sumMeetings + count;
          if numFaded == numChameneos {
            if latch == 0 {
              panicked := true;
            } else {
              latch := latch - 1;
            }
          }
        case AskMeet(colour, chameneo) =>
          if meetingsCount < numMeetings {
            var taken := waiting;
            waiting := None;
            match taken {
              case Some(other) =>
                meetingsCount := meetingsCount + 1;
                sent := [ToChameneo(other, Meet(colour, chameneo))];
              case None =>
                waiting := Some(chameneo);
            }
          } else {
            sent := [ToChameneo(chameneo, Exit)];
          }
      }
    }
  }

  // A chameneo.

  datatype Chameneo = Chameneo(colour: Colour, meetings: nat, dead: bool)

  datatype ChameneoReaction = ChameneoHandled(after: Chameneo, sent: seq<Packet>)

  function AskToMeet(id: nat, colour: Colour): Packet {
    ToMall(AskMeet(colour, id))
  }

  /** A chameneo that has stopped handles nothing any more. */
  function ChameneoReceive(c: Chameneo, id: nat, msg: ChameneoMsg): ChameneoReaction {
    if c.dead then ChameneoHandled(c, [])
    else match msg
      case Meet(otherColour, other) =>
        var colour := c.colour.Complement(otherColour);
        ChameneoHandled(c.(colour := colour, meetings := c.meetings + 1),
                        [ToChameneo(other, Change(colour)), AskToMeet(id, colour)])
      case Change(colour) =>
        ChameneoHandled(c.(colour := colour, meetings := c.meetings + 1), [AskToMeet(id, colour)])
      case Exit =>
        ChameneoHandled(c.(colour := Faded, dead := true), [ToMall(MeetingCount(c.meetings))])
  }

  class ChameneoActor {
    const id: nat
    var colour: Colour
    var meetings: nat
    var dead: bool

    function State(): Chameneo
      reads this
    {
      Chameneo(colour, meetings, dead)
    }

    constructor With(id: nat, initialColour: Colour)
      ensures State() == Chameneo(initialColour, 0, false) && this.id == id
    {
      this.id := id;
      colour, meetings, dead := initialColour, 0, false;
    }

    method OnStart() returns (sent: seq<Packet>)
      ensures sent == [AskToMeet(id, colour)]
    {
      sent := [ToMall(AskMeet(colour, id))];
    }

    method Receive(msg: ChameneoMsg) returns (sent: seq<Packet>)
      modifies this
      ensures ChameneoReceive(old(State()), id, msg) == ChameneoHandled(State(), sent)
    {
      sent := [];
      if dead {
        return;
      }
      match msg {
        case Meet(otherColour, other) =>
          colour := colour.Complement(otherColour);
          meetings := meetings + 1;
          sent := [ToChameneo(other, Change(colour))];
          sent := sent + [ToMall(AskMeet(colour, id))];
        case Change(newColour) =>
          colour := newColour;
          meetings := meetings + 1;
          sent := [ToMall(AskMeet(colour, id))];
        case Exit =>
          colour := Faded;
          sent := [ToMall(MeetingCount(meetings))];
          dead := true;
      }
    }
  }
}
