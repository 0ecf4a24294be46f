/** The logs of a testing run: together they are a complete history, as the linearizability checker needs it. */
module RegisterLogs {
  import opened Collections
  import opened Histories
  import opened Locality
  import opened RegisterNode
  import opened RegisterProtocol
  import opened RegisterSafety
  import opened RegisterEvents
  import opened RegisterInvariant
  import opened RegisterRuns
  import opened RegisterTheorems

  lemma {:induction false} FilterConcat(a: Trace, b: Trace, sel: Selector)
    ensures Filter(a + b, sel) == Filter(a, sel) + Filter(b, sel)
  {
    if a == [] {
      assert a + b == b;
    } else {
      assert (a + b)[1..] == a[1..] + b;
      FilterConcat(a[1..], b, sel);
    }
  }

  /** What a node has logged so far, or has reported. */
  function LogOf(s: System, i: nat): Trace
    requires i in s.nodes
  {
    if i in s.finished then s.finished[i] else s.nodes[i].timestamps
  }

  /** The entries of an operation fit its phase. */
  ghost predicate EntriesFit(cfg: Config, part: Trace, isRead: bool, phase: OpPhase) {
    match phase
    case Idle => part == []
    case Querying => IsOpen(part, isRead)
    case Imposing(_) => IsOpen(part, isRead)
    case Responded(_) => IsOperation(part) && part[0].time <= part[1].time && part[0].operation.ReadInvokation? == isRead
  }

  ghost predicate IsOpen(part: Trace, isRead: bool) {
    |part| == 1 && if isRead then part[0].operation.ReadInvokation? else part[0].operation.WriteInvokation? && part[0].value.Some?
  }

  ghost predicate OpLogged(cfg: Config, s: System, o: OpId)
    requires o in s.ops && o.1 in s.nodes
  {
    EntriesFit(cfg, Filter(LogOf(s, o.1), Only(o)), cfg.Reads(o.1, o.0), s.ops[o].phase)
  }

  ghost predicate NodeLogged(cfg: Config, s: System, i: nat)
    requires i in s.nodes
  {
    forall e | e in LogOf(s, i) ::
      && e.sender == i && e.key < cfg.Planned() && e.time <= s.now
      && (e.operation.WriteInvokation? ==> e.value == Some(e.sender))
  }

  ghost predicate LogInv(cfg: Config, s: System)
    requires HasShape(cfg, s)
  {
    cfg.testing ==>
      && (forall i | i in cfg.Ranks() :: NodeLogged(cfg, s, i))
      && (forall o | o in s.ops :: OpLogged(cfg, s, o))
  }

  // Replies and requests.

  /** The log after a reaction, whether it was sent away or not. */
  function LogAfter(node: Node, sent: seq<Packet>): Trace {
    if sent != [] && sent[|sent| - 1].msg.TestDone? then sent[|sent| - 1].msg.timestamps else node.timestamps
  }

  function ResponseEntry(cfg: Config, key: nat, rank: nat, value: nat, now: int): KVTimestamp {
    KVTimestamp(key, if cfg.Reads(rank, key) then KVOperation.ReadResponse else KVOperation.WriteResponse, Some(value), now, rank)
  }

  /** What a node answers when `m` completes an operation. */
  function AnswerGiven(node: Node, m: Msg): nat
    requires (m.Value? || m.Ack?) && node.Knows(m.key)
  {
    var r := node.registers[m.key];
    if m.Value? then NoteValue(r, node.readLists[m.key] == map[], m).readval
    else if r.reading then r.readval
    else node.rank
  }

  /** A response is logged with the time at which it happens; nothing else is logged. */
  lemma ReactionLogs(cfg: Config, node: Node, p: Packet, now: int, responds: bool) returns (more: Trace)
    requires IsProtocol(p.msg) && Receive(node, p.src, p.msg, now).Handled? && node.testing
    requires var r := Receive(node, p.src, p.msg, now);
             if responds then Answers(cfg, node, p.msg.key, r.node, r.sent) else StaysQuiet(node, r.node, r.sent)
    ensures var r := Receive(node, p.src, p.msg, now); LogAfter(r.node, r.sent) == node.timestamps + more
    ensures responds ==> (p.msg.Value? || p.msg.Ack?) && node.Knows(p.msg.key)
    ensures more == if responds then [ResponseEntry(cfg, p.msg.key, node.rank, AnswerGiven(node, p.msg), now)] else []
  {
    var r := Receive(node, p.src, p.msg, now);
    if responds {
      more := [ResponseEntry(cfg, p.msg.key, node.rank, AnswerGiven(node, p.msg), now)];
    } else {
      more := [];
      assert r.sent != [] ==> r.sent[|r.sent| - 1] in r.sent;
      assert node.timestamps + [] == node.timestamps;
    }
  }

  /** The log of a node after one more entry, or none. */
  ghost predicate LogGrows(cfg: Config, s: System, p: Packet, s': System, responds: bool)
    requires IsProtocol(p.msg) && p.dst in s.nodes && p.dst in s'.nodes
  {
    if responds
    then (p.msg.Value? || p.msg.Ack?) && s.nodes[p.dst].Knows(p.msg.key)
         && LogOf(s', p.dst) == LogOf(s, p.dst) + [ResponseEntry(cfg, p.msg.key, p.dst, AnswerGiven(s.nodes[p.dst], p.msg), s'.now)]
    else LogOf(s', p.dst) == LogOf(s, p.dst)
  }

  lemma ReceiverLog(cfg: Config, s: System, p: Packet, s': System, responds: bool, sent: seq<Packet>)
    requires IsProtocol(p.msg) && p.dst in s.nodes && p.dst in s'.nodes && s.nodes[p.dst].testing && s.nodes[p.dst].rank == p.dst
    requires Receive(s.nodes[p.dst], p.src, p.msg, s'.now) == Handled(s'.nodes[p.dst], sent)
    requires if responds then Answers(cfg, s.nodes[p.dst], p.msg.key, s'.nodes[p.dst], sent) && p.dst !in s.finished
             else StaysQuiet(s.nodes[p.dst], s'.nodes[p.dst], sent)
    requires cfg.testing && s'.finished == ObservedFinish(s, p, sent)
    ensures LogGrows(cfg, s, p, s', responds) == true
  {
    var more := ReactionLogs(cfg, s.nodes[p.dst], p, s'.now, responds);
    assert sent != [] ==> sent[|sent| - 1] in sent;
    if !responds {
      assert LogOf(s, p.dst) + [] == LogOf(s, p.dst);
    }
  }

  lemma ReceiverLogged(cfg: Config, s: System, p: Packet, s': System, responds: bool)
    requires IsProtocol(p.msg) && p.dst in s.nodes && p.dst in s'.nodes && p.msg.key < cfg.Planned() && s.now <= s'.now
    requires LogGrows(cfg, s, p, s', responds) && NodeLogged(cfg, s, p.dst)
    ensures NodeLogged(cfg, s', p.dst) == true
  {
  }

  /** The entries of an operation when its node's log grows. */
  lemma OpLogGrows(cfg: Config, s: System, p: Packet, s': System, responds: bool, o: OpId)
    requires IsProtocol(p.msg) && p.dst in s.nodes && p.dst in s'.nodes && o in s.ops && o in s'.ops && o.1 == p.dst && s.now <= s'.now
    requires LogGrows(cfg, s, p, s', responds) && NodeLogged(cfg, s, p.dst) && OpLogged(cfg, s, o)
    requires o == OpAt(p) && responds ==> !s.ops[o].phase.Idle? && !s.ops[o].phase.Responded? && s'.ops[o].phase.Responded?
    requires o != OpAt(p) || !responds ==>
      s'.ops[o].phase.Idle? == s.ops[o].phase.Idle? && s'.ops[o].phase.Responded? == s.ops[o].phase.Responded?
    ensures OpLogged(cfg, s', o) == true
  {
    FilterContents(LogOf(s, p.dst), Only(o));
    if responds {
      var entry := ResponseEntry(cfg, p.msg.key, p.dst, AnswerGiven(s.nodes[p.dst], p.msg), s'.now);
      FilterConcat(LogOf(s, p.dst), [entry], Only(o));
      var part := Filter(LogOf(s, p.dst), Only(o));
      assert Filter([entry], Only(o)) == if o == OpAt(p) then [entry] else [];
      assert part != [] ==> part[0] in part;
      assert part + [] == part;
    }
  }

  lemma OtherNodeLogged(cfg: Config, s: System, s': System, i: nat)
    requires i in s.nodes && i in s'.nodes && LogOf(s', i) == LogOf(s, i) && s.now <= s'.now && NodeLogged(cfg, s, i)
    ensures NodeLogged(cfg, s', i) == true
  {
  }

  /** What an event does to the logs and to the operations they record. */
  ghost predicate LogStep(cfg: Config, s: System, p: Packet, s': System, responds: bool)
    requires HasShape(cfg, s) && HasShape(cfg, s') && IsProtocol(p.msg)
  {
    && p.dst in cfg.Ranks() && p.msg.key < cfg.Planned() && s'.ops.Keys == s.ops.Keys && s.now <= s'.now
    && LogGrows(cfg, s, p, s', responds)
    && (forall i | i in cfg.Ranks() && i != p.dst :: LogOf(s', i) == LogOf(s, i))
    && (forall o: OpId | o in s.ops ::
          if o == OpAt(p) && responds then !s.ops[o].phase.Idle? && !s.ops[o].phase.Responded? && s'.ops[o].phase.Responded?
          else s'.ops[o].phase.Idle? == s.ops[o].phase.Idle? && s'.ops[o].phase.Responded? == s.ops[o].phase.Responded?)
  }

  /** What an event does to its receiver, as far as responses are concerned. */
  ghost predicate ReceiverAnswers(cfg: Config, s: System, p: Packet, s': System, responds: bool, sent: seq<Packet>)
    requires IsProtocol(p.msg)
  {
    && p.dst in s.nodes && p.dst in s'.nodes && OpAt(p) in s.ops && OpAt(p) in s'.ops
    && var phase, phase' := s.ops[OpAt(p)].phase, s'.ops[OpAt(p)].phase;
       && phase.Idle? == phase'.Idle?
       && if responds
          then Answers(cfg, s.nodes[p.dst], p.msg.key, s'.nodes[p.dst], sent) && !phase.Idle? && !phase.Responded? && phase'.Responded?
          else StaysQuiet(s.nodes[p.dst], s'.nodes[p.dst], sent) && phase'.Responded? == phase.Responded?
  }

  lemma EventAnswers(cfg: Config, s: System, p: Packet, s': System, e: Event, sent: seq<Packet>)
    requires IsCurrent(cfg, p) && Happens(cfg, s, p, s', e, sent)
    ensures ReceiverAnswers(cfg, s, p, s', e.Skipped? || e.Completed?, sent) == true
    ensures SendsFit(cfg, s.nodes[p.dst].rank, e, sent) == true && Moved(s, p, s', sent) == true
  {
    var node, phase, node', phase' := s.nodes[p.dst], s.ops[OpAt(p)].phase, s'.nodes[p.dst], s'.ops[OpAt(p)].phase;
    ReactionKeepsCounts(cfg, p, node, phase, node', phase', e, sent);
    ReactionKeepsIdle(cfg, p, node, phase, node', phase', e, sent);
    ReactionSends(cfg, p, node, phase, node', phase', e, sent);
    ResponderNotIdle(cfg, p, phase, e, node, node', phase', sent);
  }

  lemma EventLogs(cfg: Config, s: System, p: Packet, s': System, responds: bool, sent: seq<Packet>)
    requires HasShape(cfg, s) && HasShape(cfg, s') && IsProtocol(p.msg) && p.dst in cfg.Ranks() && s.now <= s'.now
    requires p.msg.key < cfg.Planned() && LogGrows(cfg, s, p, s', responds) == true
    requires ReceiverAnswers(cfg, s, p, s', responds, sent) && Moved(s, p, s', sent)
    requires forall i | i in cfg.Ranks() && i != p.dst :: LogOf(s', i) == LogOf(s, i)
    ensures LogStep(cfg, s, p, s', responds) == true
  {
    assert s'.ops.Keys == s.ops.Keys;
  }

  lemma OtherLogsStay(cfg: Config, s: System, p: Packet, s': System, sent: seq<Packet>)
    requires HasShape(cfg, s) && HasShape(cfg, s') && IsProtocol(p.msg) && Moved(s, p, s', sent)
    requires forall i | i in s.finished :: i in s'.finished && s'.finished[i] == s.finished[i]
    requires forall i | i != p.dst :: i in s'.finished <==> i in s.finished
    ensures forall i | i in cfg.Ranks() && i != p.dst :: LogOf(s', i) == LogOf(s, i)
  {
  }

  lemma EventLogGrows(cfg: Config, s: System, p: Packet, s': System, e: Event, sent: seq<Packet>)
    requires IsProtocol(p.msg) && cfg.testing && ReceiverAnswers(cfg, s, p, s', e.Skipped? || e.Completed?, sent)
    requires s.nodes[p.dst].testing && s.nodes[p.dst].rank == p.dst
    requires SendsFit(cfg, p.dst, e, sent) == true && Moved(s, p, s', sent) == true && s'.finished == ObservedFinish(s, p, sent)
    requires e.Skipped? || e.Completed? ==> p.dst !in s.finished
    requires Receive(s.nodes[p.dst], p.src, p.msg, s'.now) == Handled(s'.nodes[p.dst], sent)
    ensures LogGrows(cfg, s, p, s', e.Skipped? || e.Completed?) == true
  {
    ReceiverLog(cfg, s, p, s', e.Skipped? || e.Completed?, sent);
  }

  lemma PlannedPacket(cfg: Config, s: System, p: Packet)
    requires HasShape(cfg, s) && NetInv(cfg, s) && IsCurrent(cfg, p) && p in s.net
    ensures p.msg.key < cfg.Planned()
  {
    assert PacketInv(cfg, s, p);
  }

  lemma ResponderNotIdle(cfg: Config, p: Packet, phase: OpPhase, e: Event, node: Node, node': Node, phase': OpPhase, sent: seq<Packet>)
    requires IsCurrent(cfg, p) && Reacts(cfg, p, node, phase, node', phase', e, sent)
    ensures e.Skipped? || e.Completed? ==> !phase.Idle?
  {
  }

  lemma LogStepKeepsOp(cfg: Config, s: System, p: Packet, s': System, responds: bool, o: OpId)
    requires HasShape(cfg, s) && HasShape(cfg, s') && IsProtocol(p.msg)
    requires LogStep(cfg, s, p, s', responds) && NodeLogged(cfg, s, p.dst) && o in s.ops && o in s'.ops && OpLogged(cfg, s, o)
    ensures OpLogged(cfg, s', o) == true
  {
    if o.1 == p.dst {
      OpLogGrows(cfg, s, p, s', responds, o);
    }
  }

  lemma LogStepKeepsLogs(cfg: Config, s: System, p: Packet, s': System, responds: bool)
    requires HasShape(cfg, s) && HasShape(cfg, s') && IsProtocol(p.msg) && cfg.testing
    requires LogStep(cfg, s, p, s', responds) && LogInv(cfg, s)
    ensures LogInv(cfg, s') == true
  {
    forall i | i in cfg.Ranks() ensures NodeLogged(cfg, s', i) == true {
      if i == p.dst {
        ReceiverLogged(cfg, s, p, s', responds);
      } else {
        OtherNodeLogged(cfg, s, s', i);
      }
    }
    forall o: OpId | o in s.ops ensures OpLogged(cfg, s', o) == true {
      LogStepKeepsOp(cfg, s, p, s', responds, o);
    }
  }

  lemma EventLogStep(cfg: Config, s: System, p: Packet, s': System, e: Event, sent: seq<Packet>)
    requires Inv(cfg, s) == true && HasShape(cfg, s) && HasShape(cfg, s') && IsCurrent(cfg, p) && p in s.net && s.now <= s'.now
    requires Happens(cfg, s, p, s', e, sent) == true && cfg.testing
    requires Receive(s.nodes[p.dst], p.src, p.msg, s'.now) == Handled(s'.nodes[p.dst], sent)
    ensures LogStep(cfg, s, p, s', e.Skipped? || e.Completed?) == true
  {
    PartsOfInv(cfg, s, p);
    PlannedPacket(cfg, s, p);
    ReceiverReady(cfg, s, p, s', e, sent);
    EventAnswers(cfg, s, p, s', e, sent);
    FinishedAfter(cfg, s, p, s', e, sent);
    EventLogGrows(cfg, s, p, s', e, sent);
    OtherLogsStay(cfg, s, p, s', sent);
    EventLogs(cfg, s, p, s', e.Skipped? || e.Completed?, sent);
  }

  // Invocation.

  lemma {:induction false} InvokationEntries(node: Node, count: nat, now: int, o: OpId)
    requires node.testing
    ensures forall e | e in InvokationLog(node, count, now) ::
      e.sender == node.rank && e.key < count && e.time == now && (e.operation.WriteInvokation? ==> e.value == Some(e.sender))
    ensures Filter(InvokationLog(node, count, now), Only(o)) ==
            if o.0 < count && o.1 == node.rank then [InvokationEntry(node, o.0, now)] else []
  {
    if count > 0 {
      InvokationEntries(node, count - 1, now, o);
      FilterConcat(InvokationLog(node, count - 1, now), [InvokationEntry(node, count - 1, now)], Only(o));
    }
  }

  /** The node as it starts to invoke its operations. */
  function Ready(node: Node): Node {
    node.(readCount := node.numReads, writeCount := node.numWrites)
  }

  lemma InvokedOpLogged(cfg: Config, s: System, i: nat, s': System, o: OpId)
    requires HasShape(cfg, s) && i in cfg.Ranks() && i in s'.nodes && o in s.ops && o in s'.ops && o.1 == i && cfg.testing
    requires OpLogged(cfg, s, o) && s.ops[o].phase.Idle?
    requires if o.0 < cfg.Planned() then s'.ops[o].phase.Querying? else s'.ops[o].phase.Idle?
    requires LogOf(s', i) == LogOf(s, i) + InvokationLog(Ready(s.nodes[i]), cfg.Planned(), s'.now)
    ensures OpLogged(cfg, s', o) == true
  {
    InvokationEntries(Ready(s.nodes[i]), cfg.Planned(), s'.now, o);
    FilterConcat(LogOf(s, i), InvokationLog(Ready(s.nodes[i]), cfg.Planned(), s'.now), Only(o));
  }

  /** The effect of an invocation on the logs. */
  ghost predicate InvokeLogStep(cfg: Config, s: System, i: nat, s': System)
    requires HasShape(cfg, s) && i in cfg.Ranks()
  {
    && s'.nodes.Keys == s.nodes.Keys && s'.ops.Keys == s.ops.Keys && s.now <= s'.now
    && LogOf(s', i) == LogOf(s, i) + InvokationLog(Ready(s.nodes[i]), cfg.Planned(), s'.now)
    && (forall j | j in cfg.Ranks() && j != i :: LogOf(s', j) == LogOf(s, j))
    && (forall o: OpId | o in s.ops ::
          if o.1 == i then s.ops[o].phase.Idle? && if o.0 < cfg.Planned() then s'.ops[o].phase.Querying? else s'.ops[o].phase.Idle?
          else s'.ops[o] == s.ops[o])
  }

  lemma InvokedLog(cfg: Config, s: System, i: nat, s': System, sent: seq<Packet>)
    requires i in s.nodes && i in s'.nodes && i !in s.finished && i !in s'.finished
    requires s.nodes[i].numReads == cfg.numReads && s.nodes[i].numWrites == cfg.numWrites
    requires InvokeOperations(s.nodes[i], s'.now) == Handled(s'.nodes[i], sent)
    ensures LogOf(s', i) == LogOf(s, i) + InvokationLog(Ready(s.nodes[i]), cfg.Planned(), s'.now)
  {
  }

  lemma InvokeLogs(cfg: Config, s: System, i: nat, s': System, sent: seq<Packet>)
    requires HasShape(cfg, s) && i in cfg.Ranks() && i !in s.finished && s.now <= s'.now && Invokes(cfg, s, i, s', sent)
    requires LogOf(s', i) == LogOf(s, i) + InvokationLog(Ready(s.nodes[i]), cfg.Planned(), s'.now)
    requires forall o: OpId | o in s.ops && o.1 == i :: s.ops[o].phase.Idle?
    ensures InvokeLogStep(cfg, s, i, s') == true
  {
  }

  lemma InvokeKeepsNodeLogs(cfg: Config, s: System, i: nat, s': System)
    requires HasShape(cfg, s) && HasShape(cfg, s') && i in cfg.Ranks() && InvokeLogStep(cfg, s, i, s') && cfg.testing
    requires forall j | j in cfg.Ranks() :: NodeLogged(cfg, s, j)
    ensures forall j | j in cfg.Ranks() :: NodeLogged(cfg, s', j) == true
  {
    InvokationEntries(Ready(s.nodes[i]), cfg.Planned(), s'.now, (0, 0));
  }

  lemma InvokeKeepsLogs(cfg: Config, s: System, i: nat, s': System)
    requires HasShape(cfg, s) && HasShape(cfg, s') && i in cfg.Ranks() && InvokeLogStep(cfg, s, i, s') && cfg.testing
    requires LogInv(cfg, s)
    ensures LogInv(cfg, s') == true
  {
    InvokeKeepsNodeLogs(cfg, s, i, s');
    forall o: OpId | o in s.ops ensures OpLogged(cfg, s', o) == true {
      assert OpLogged(cfg, s, o);
      if o.1 == i {
        InvokedOpLogged(cfg, s, i, s', o);
      }
    }
  }

  lemma InertKeepsLogs(cfg: Config, s: System, p: Packet, s': System, sent: seq<Packet>)
    requires HasShape(cfg, s) && HasShape(cfg, s') && IsInert(cfg, s, p, s', sent) && s.now <= s'.now && LogInv(cfg, s)
    ensures LogInv(cfg, s') == true
  {
    forall o: OpId | o in s.ops && cfg.testing ensures OpLogged(cfg, s', o) == true {
      assert OpLogged(cfg, s, o);
    }
  }

  // Runs.

  lemma CurrentKeepsLogs(cfg: Config, s: System, p: Packet, now: int) returns (s': System)
    requires Inv(cfg, s) == true && HasShape(cfg, s) && LogInv(cfg, s) == true && p in s.net && IsCurrent(cfg, p) && s.now <= now && cfg.testing
    ensures p.dst in s.nodes && Deliver(cfg, s, p, now) == Some(s') && HasShape(cfg, s') && LogInv(cfg, s') == true
  {
    var e, sent;
    s', e, sent := SomethingHappens(cfg, s, p, now);
    EventsKeepInvShape(cfg, s, p, s', e, sent);
    EventLogStep(cfg, s, p, s', e, sent);
    LogStepKeepsLogs(cfg, s, p, s', e.Skipped? || e.Completed?);
  }

  lemma EventsKeepInvShape(cfg: Config, s: System, p: Packet, s': System, e: Event, sent: seq<Packet>)
    requires HasShape(cfg, s) == true && IsCurrent(cfg, p) && p in s.net && Happens(cfg, s, p, s', e, sent) == true
    ensures HasShape(cfg, s')
  {
    EventsAreLocal(cfg, s, p, s', e, sent);
    assert Elsewhere(cfg, s, p, s');
  }

  lemma RunKeepsLogs(cfg: Config, s: System, i: nat, now: int) returns (s': System)
    requires Inv(cfg, s) == true && HasShape(cfg, s) && LogInv(cfg, s) == true && RunPacket(i) in s.net && i in cfg.Ranks()
    requires s.now <= now && cfg.testing
    ensures Deliver(cfg, s, RunPacket(i), now) == Some(s') && HasShape(cfg, s') && LogInv(cfg, s') == true
  {
    WaitingIsFresh(cfg, s, i);
    WaitingIsIdle(cfg, s, i);
    WaitingIsUnfinished(cfg, s, i);
    var sent;
    s', sent := RunInvokes(cfg, s, i, now);
    assert Invokes(cfg, s, i, s', sent);
    InvokedLog(cfg, s, i, s', sent);
    InvokeLogs(cfg, s, i, s', sent);
    InvokeEvolves(cfg, s, i, s', sent);
    assert Evolves(cfg, s, s');
    InvokeKeepsLogs(cfg, s, i, s');
  }

  lemma WaitingIsUnfinished(cfg: Config, s: System, i: nat)
    requires Inv(cfg, s) && i in cfg.Ranks() && !Started(s, i)
    ensures i !in s.finished
  {
    assert CountInv(cfg, s, i);
  }

  lemma StaleKeepsLogs(cfg: Config, s: System, p: Packet, now: int) returns (s': System)
    requires HasShape(cfg, s) && LogInv(cfg, s) == true && p in s.net && IsStale(cfg, p) && p.dst in s.nodes && s.now <= now
    ensures Deliver(cfg, s, p, now) == Some(s') && HasShape(cfg, s') && LogInv(cfg, s') == true
  {
    var sent;
    s', sent := StaleIsInert(cfg, s, p, now);
    InertKeepsLogs(cfg, s, p, s', sent);
  }

  lemma DeliveryKeepsLogs(cfg: Config, s: System, p: Packet, now: int) returns (s': System)
    requires Inv(cfg, s) == true && HasShape(cfg, s) && LogInv(cfg, s) == true && p in s.net && p.dst in s.nodes && s.now <= now && cfg.testing
    ensures Deliver(cfg, s, p, now) == Some(s') && HasShape(cfg, s') && LogInv(cfg, s') == true
  {
    if !IsProtocol(p.msg) {
      RunMessage(cfg, s, p);
      s' := RunKeepsLogs(cfg, s, p.dst, now);
    } else if IsCurrent(cfg, p) {
      s' := CurrentKeepsLogs(cfg, s, p, now);
    } else {
      s' := StaleKeepsLogs(cfg, s, p, now);
    }
  }

  ghost predicate InvAndLogs(cfg: Config, s: System) {
    Inv(cfg, s) && LogInv(cfg, s)
  }

  lemma NextKeepsLogs(cfg: Config, s: System, s': System)
    requires InvAndLogs(cfg, s) && Next(cfg, s, s') && cfg.testing
    ensures InvAndLogs(cfg, s') == true
  {
    var p, now :| p in s.net && p.dst in s.nodes && s.now <= now && Deliver(cfg, s, p, now) == Some(s');
    var after := DeliveryKeepsLogs(cfg, s, p, now);
    NextKeepsInv(cfg, s, s');
  }

  lemma InitialLogs(cfg: Config, s: System)
    requires cfg.Valid() && IsInitial(cfg, s)
    ensures InvAndLogs(cfg, s) == true
  {
    InitialHasInv(cfg, s);
  }

  lemma StepAtKeepsLogs(cfg: Config, run: seq<System>, i: nat)
    requires IsRun(cfg, run) && i + 1 < |run| && cfg.testing && InvAndLogs(cfg, run[i]) == true
    ensures InvAndLogs(cfg, run[i + 1]) == true
  {
    assert StepAt(cfg, run, i);
    NextKeepsLogs(cfg, run[i], run[i + 1]);
  }

  lemma LogsAlongRun(cfg: Config, run: seq<System>, k: nat)
    requires IsRun(cfg, run) == true && cfg.testing && k < |run|
    ensures InvAndLogs(cfg, run[k]) == true
  {
    RunBeginsWithLogs(cfg, run);
    var holds := s => InvAndLogs(cfg, s);
    forall j: nat | 0 <= j < k && holds(run[j]) ensures holds(run[j + 1]) {
      StepAtKeepsLogs(cfg, run, j);
    }
    HoldsAlong(run, holds, 0, k);
  }

  lemma RunBeginsWithLogs(cfg: Config, run: seq<System>)
    requires IsRun(cfg, run)
    ensures InvAndLogs(cfg, run[0]) == true
  {
    InitialLogs(cfg, run[0]);
  }

  // The master's view.

  /** The reports of the nodes in the order in which they arrive. */
  function Collected(finished: map<nat, Trace>, arrival: seq<nat>): Trace
    requires forall i | i in arrival :: i in finished
  {
    if arrival == [] then [] else Collected(finished, arrival[..|arrival| - 1]) + finished[arrival[|arrival| - 1]]
  }

  /** An operation's entries all come from its own node's report. */
  lemma {:induction false} CollectedEntries(finished: map<nat, Trace>, arrival: seq<nat>, o: OpId)
    requires forall i | i in arrival :: i in finished
    requires Distinct(arrival) && forall i, e | i in arrival && e in finished[i] :: e.sender == i
    ensures Filter(Collected(finished, arrival), Only(o)) == if o.1 in arrival then Filter(finished[o.1], Only(o)) else []
    ensures forall e :: e in Collected(finished, arrival) <==> e.sender in arrival && e in finished[e.sender]
  {
    if arrival != [] {
      var front, last := arrival[..|arrival| - 1], arrival[|arrival| - 1];
      assert arrival == front + [last] && last !in front;
      CollectedEntries(finished, front, o);
      FilterConcat(Collected(finished, front), finished[last], Only(o));
      FilterContents(finished[last], Only(o));
      if o.1 != last {
        SomeEntry(Filter(finished[last], Only(o)));
      }
    }
  }

  lemma SomeEntry(t: Trace)
    ensures t != [] ==> exists e :: e in t
  {
    if t != [] {
      assert t[0] in t;
    }
  }

  lemma ReportedOperation(cfg: Config, s: System, o: OpId)
    requires InvAndLogs(cfg, s) && cfg.testing && o in s.ops && o.0 < cfg.Planned() && o.1 in s.finished
    ensures s.ops[o].phase.Responded? && o.1 in s.nodes && OpLogged(cfg, s, o)
  {
    assert CountInv(cfg, s, o.1) && OpInv(cfg, s, o);
    assert o.0 !in Unanswered(cfg, s, o.1, cfg.Reads(o.1, o.0)) by {
      assert |Unanswered(cfg, s, o.1, cfg.Reads(o.1, o.0))| == 0;
    }
  }

  /** An operation is in a report with its invocation and, later, its response; a write writes its node's rank. */
  ghost predicate IsReported(cfg: Config, report: Trace, o: OpId) {
    var part := Filter(report, Only(o));
    && IsOperation(part) && part[0].time <= part[1].time
    && (part[0].operation.ReadInvokation? <==> cfg.Reads(o.1, o.0))
    && (part[0].operation.WriteInvokation? ==> part[0].value == Some(o.1))
  }

  /** A node reports on its own planned operations, and on all of them. */
  ghost predicate ReportFits(cfg: Config, report: Trace, i: nat) {
    && (forall e | e in report :: e.sender == i && e.key < cfg.Planned())
    && (forall key: nat | key < cfg.Planned() :: IsReported(cfg, report, (key, i)))
  }

  lemma FinishedReportFits(cfg: Config, s: System, i: nat)
    requires InvAndLogs(cfg, s) && cfg.testing && i in s.finished && i in cfg.Ranks()
    ensures ReportFits(cfg, s.finished[i], i) == true
  {
    assert NodeLogged(cfg, s, i);
    forall key: nat | key < cfg.Planned() ensures IsReported(cfg, s.finished[i], (key, i)) {
      ReportedOperation(cfg, s, (key, i));
      FilterContents(s.finished[i], Only((key, i)));
      var part := Filter(s.finished[i], Only((key, i)));
      assert part[0] in part;
    }
  }

  lemma CollectedFits(cfg: Config, finished: map<nat, Trace>, arrival: seq<nat>)
    requires Distinct(arrival) && forall i | i in arrival :: i in finished && ReportFits(cfg, finished[i], i)
    ensures var results := Collected(finished, arrival);
            && IsTestTrace(results)
            && (forall key: nat, i: nat :: (key, i) in Ops(results) <==> key < cfg.Planned() && i in arrival)
            && (forall key: nat, i: nat | key < cfg.Planned() && i in arrival :: IsReported(cfg, results, (key, i)))
  {
    var results := Collected(finished, arrival);
    CollectedEntries(finished, arrival, (0, 0));
    forall e | e in results
      ensures IsReported(cfg, results, OpOf(e))
    {
      CollectedEntries(finished, arrival, OpOf(e));
      assert IsReported(cfg, finished[e.sender], (e.key, e.sender));
    }
    forall key: nat, i: nat | key < cfg.Planned() && i in arrival
      ensures (key, i) in Ops(results) && IsReported(cfg, results, (key, i))
    {
      CollectedEntries(finished, arrival, (key, i));
      assert ReportFits(cfg, finished[i], i) && IsReported(cfg, finished[i], (key, i));
      FilterContents(results, Only((key, i)));
      assert Filter(results, Only((key, i)))[0] in Filter(results, Only((key, i)));
    }
  }

  /**
   * When every node has reported, the master holds a log that the checker can decide: each planned
   * operation of each node is there, invoked once and then answered once, and nothing else. Even ranks read the first keys and
   * write the next, odd ranks write first; every write writes the rank of its node.
   */
  lemma TestLogsAreComplete(cfg: Config, run: seq<System>, k: nat, arrival: seq<nat>)
    requires IsRun(cfg, run) && cfg.testing && k < |run| && Distinct(arrival)
    requires forall i :: i in arrival <==> i in cfg.Ranks()
    requires forall i | i in arrival :: i in run[k].finished
    ensures var results := Collected(run[k].finished, arrival);
            && IsTestTrace(results)
            && (forall key: nat, i: nat :: (key, i) in Ops(results) <==> key < cfg.Planned() && i in cfg.Ranks())
            && (forall key: nat, i: nat | key < cfg.Planned() && i in cfg.Ranks() ::
                  var first := Filter(results, Only((key, i)))[0];
                  if (if i % 2 == 0 then key < cfg.numReads else cfg.numWrites <= key) then first.operation.ReadInvokation?
                  else first.operation.WriteInvokation? && first.value == Some(i))
  {
    LogsAlongRun(cfg, run, k);
    AllReportsFit(cfg, run[k], arrival);
    CollectedFits(cfg, run[k].finished, arrival);
  }

  lemma AllReportsFit(cfg: Config, s: System, arrival: seq<nat>)
    requires InvAndLogs(cfg, s) == true && cfg.testing
    requires forall i :: i in arrival ==> i in cfg.Ranks() && i in s.finished
    ensures forall i | i in arrival :: ReportFits(cfg, s.finished[i], i) == true
  {
    forall i | i in arrival ensures ReportFits(cfg, s.finished[i], i) == true {
      FinishedReportFits(cfg, s, i);
    }
  }

  // Reported logs.

  predicate IsLastReport(sent: seq<Packet>) {
    sent != [] && (sent[|sent| - 1].msg.TestDone? || sent[|sent| - 1].msg.Done?)
  }

  /** A report takes the log away, a node that has answered everything logs nothing, and without testing nothing is logged. */
  lemma ReceiveKeepsLogEmpty(node: Node, src: nat, m: Msg, now: int)
    requires !m.Run? && Receive(node, src, m, now).Handled?
    ensures var r := Receive(node, src, m, now);
            && (!node.testing ==> r.node.timestamps == node.timestamps)
            && (IsLastReport(r.sent) && node.testing ==> r.node.timestamps == [])
            && (node.readCount == 0 && node.writeCount == 0 ==> r.node.timestamps == node.timestamps)
  {
  }

  /** Nothing is kept of a log that has been reported. */
  ghost predicate ReportedLogsAreEmpty(cfg: Config, s: System) {
    forall i | i in s.nodes && (i in s.finished || !cfg.testing) :: s.nodes[i].timestamps == []
  }

  lemma DeliveryKeepsLogsEmpty(cfg: Config, s: System, p: Packet, now: int)
    requires p in s.net && p.dst in s.nodes && Deliver(cfg, s, p, now).Some? && !p.msg.Run?
    requires s.nodes[p.dst].testing == cfg.testing && ReportedLogsAreEmpty(cfg, s)
    requires p.dst in s.finished ==> s.nodes[p.dst].readCount == 0 && s.nodes[p.dst].writeCount == 0
    ensures ReportedLogsAreEmpty(cfg, Deliver(cfg, s, p, now).value)
  {
    ReceiveKeepsLogEmpty(s.nodes[p.dst], p.src, p.msg, now);
  }

  lemma InvokingLogs(node: Node, now: int)
    requires InvokeOperations(node, now).Handled?
    ensures !node.testing ==> InvokeOperations(node, now).node.timestamps == node.timestamps
    ensures InvokeOperations(node, now).node.readCount == node.numReads && InvokeOperations(node, now).node.writeCount == node.numWrites
  {
  }

  lemma RunKeepsLogsEmpty(cfg: Config, s: System, p: Packet, now: int)
    requires p in s.net && p.dst in s.nodes && Deliver(cfg, s, p, now).Some? && p.msg.Run?
    requires s.nodes[p.dst].testing == cfg.testing && ReportedLogsAreEmpty(cfg, s)
    requires p.dst !in Deliver(cfg, s, p, now).value.finished
    ensures ReportedLogsAreEmpty(cfg, Deliver(cfg, s, p, now).value)
  {
    InvokingLogs(s.nodes[p.dst], now);
  }

  lemma FinishedCounts(cfg: Config, s: System, i: nat)
    requires Inv(cfg, s) && i in s.nodes
    ensures s.nodes[i].testing == cfg.testing && s.nodes[i].numReads == cfg.numReads && s.nodes[i].numWrites == cfg.numWrites
    ensures i in s.finished ==> s.nodes[i].readCount == 0 && s.nodes[i].writeCount == 0 && cfg.numReads + cfg.numWrites > 0
  {
    assert NodeShape(cfg, i, s.nodes[i]) && CountInv(cfg, s, i);
  }

  lemma StepKeepsLogsEmpty(cfg: Config, s: System, p: Packet, now: int, s': System)
    requires p in s.net && p.dst in s.nodes && Deliver(cfg, s, p, now) == Some(s')
    requires Inv(cfg, s) == true && Inv(cfg, s') == true && ReportedLogsAreEmpty(cfg, s) == true
    ensures ReportedLogsAreEmpty(cfg, s') == true
  {
    FinishedCounts(cfg, s, p.dst);
    if p.msg.Run? {
      InvokingLogs(s.nodes[p.dst], now);
      FinishedCounts(cfg, s', p.dst);
      RunKeepsLogsEmpty(cfg, s, p, now);
    } else {
      DeliveryKeepsLogsEmpty(cfg, s, p, now);
    }
  }

  ghost predicate InvAndNoLogs(cfg: Config, s: System) {
    Inv(cfg, s) && ReportedLogsAreEmpty(cfg, s)
  }

  lemma NextKeepsNoLogs(cfg: Config, s: System, s': System)
    requires InvAndNoLogs(cfg, s) && Next(cfg, s, s')
    ensures InvAndNoLogs(cfg, s') == true
  {
    NextKeepsInv(cfg, s, s');
    var p, now :| p in s.net && p.dst in s.nodes && s.now <= now && Deliver(cfg, s, p, now) == Some(s');
    StepKeepsLogsEmpty(cfg, s, p, now, s');
  }

  lemma StepAtKeepsNoLogs(cfg: Config, run: seq<System>, i: nat)
    requires IsRun(cfg, run) && i + 1 < |run| && InvAndNoLogs(cfg, run[i]) == true
    ensures InvAndNoLogs(cfg, run[i + 1]) == true
  {
    assert StepAt(cfg, run, i);
    NextKeepsNoLogs(cfg, run[i], run[i + 1]);
  }

  lemma RunBeginsWithNoLogs(cfg: Config, run: seq<System>)
    requires IsRun(cfg, run)
    ensures InvAndNoLogs(cfg, run[0]) == true
  {
    InitialHasInv(cfg, run[0]);
  }

  lemma NoLogsAlongRun(cfg: Config, run: seq<System>, k: nat)
    requires IsRun(cfg, run) == true && k < |run|
    ensures InvAndNoLogs(cfg, run[k]) == true
  {
    RunBeginsWithNoLogs(cfg, run);
    var holds := s => InvAndNoLogs(cfg, s);
    forall j: nat | 0 <= j < k && holds(run[j]) ensures holds(run[j + 1]) {
      StepAtKeepsNoLogs(cfg, run, j);
    }
    HoldsAlong(run, holds, 0, k);
  }

  /** A node that has reported keeps nothing of its log, and without testing nothing is logged at all. */
  lemma ReportedLogIsGone(cfg: Config, run: seq<System>, k: nat, i: nat)
    requires IsRun(cfg, run) && k < |run| && i in cfg.Ranks()
    ensures i in run[k].nodes && (i in run[k].finished || !cfg.testing ==> run[k].nodes[i].timestamps == [])
  {
    NoLogsAlongRun(cfg, run, k);
  }
}
