/** One node of the majority-quorum register (atomicregister.rs, `actor_atomicregister`). */
module RegisterNode {
  import opened Collections
  import opened Histories

  // Tags and replies.

  datatype Tag = Tag(ts: nat, wr: nat) {
    predicate AtLeast(other: Tag) {
      ts > other.ts || (ts == other.ts && wr >= other.wr)
    }

    predicate Exceeds(other: Tag) {
      ts > other.ts || (ts == other.ts && wr > other.wr)
    }
  }

  /** One entry of a read list: the tag and value of a replica, ordered as a triple. */
  datatype Entry = Entry(ts: nat, wr: nat, value: nat) {
    function GetTag(): Tag {
      Tag(ts, wr)
    }
  }

  type ReadList = map<nat, Entry>

  /** The triple of `e` is the largest of the list: the timestamp counts first, then the writer, then the value. */
  predicate IsMaxEntry(list: ReadList, e: Entry) {
    && e in list.Values
    && forall f | f in list.Values ::
         f.ts < e.ts || (f.ts == e.ts && (f.wr < e.wr || (f.wr == e.wr && f.value <= e.value)))
  }

  lemma {:induction false} MaxEntryExists(list: ReadList)
    requires |list| > 0
    ensures exists e :: IsMaxEntry(list, e)
    decreases |list|
  {
    var k :| k in list;
    var rest := list - {k};
    assert list == rest[k := list[k]];
    if |rest| == 0 {
      assert IsMaxEntry(list, list[k]);
    } else {
      MaxEntryExists(rest);
      var e :| IsMaxEntry(rest, e);
      assert forall f | f in list.Values :: f in rest.Values || f == list[k];
      assert list[k] in list.Values && e in list.Values;
      assert IsMaxEntry(list, e) || IsMaxEntry(list, list[k]);
    }
  }

  /** The largest entry of a read list. */
  function MaxEntry(list: ReadList): (e: Entry)
    requires |list| > 0
    ensures IsMaxEntry(list, e)
    ensures e in list.Values
    ensures forall f | f in list.Values :: f.ts <= e.ts && (f.ts == e.ts ==> f.wr <= e.wr && (f.wr == e.wr ==> f.value <= e.value))
  {
    MaxEntryExists(list);
    var e :| IsMaxEntry(list, e);
    e
  }

  // Messages.

  datatype Msg =
    | Run
    | Read(runId: nat, key: nat, rid: nat)
    | Value(runId: nat, key: nat, rid: nat, ts: nat, wr: nat, value: nat, senderRank: nat)
    | Write(runId: nat, key: nat, rid: nat, ts: nat, wr: nat, value: nat)
    | Ack(runId: nat, key: nat, rid: nat)
    | Done
    | TestDone(timestamps: Trace)

  /** A message in flight; nodes are known by their rank, 1 to n, and the master is 0. */
  datatype Packet = Packet(src: nat, dst: nat, msg: Msg)

  // State.

  datatype Register = Register(
    ts: nat,
    wr: nat,
    value: nat,
    acks: nat,
    readval: nat,
    writeval: nat,
    rid: nat,
    reading: bool,
    firstReceivedTs: nat,
    skipImpose: bool
  ) {
    function GetTag(): Tag {
      Tag(ts, wr)
    }
  }

  const NewRegister: Register := Register(0, 0, 0, 0, 0, 0, 0, false, 0, true)

  datatype Node = Node(
    n: nat,
    rank: nat,
    numKeys: nat,
    numReads: nat,
    numWrites: nat,
    readCount: nat,
    writeCount: nat,
    runId: nat,
    testing: bool,
    registers: map<nat, Register>,
    readLists: map<nat, ReadList>,
    timestamps: Trace
  ) {
    /** A node has a register and a read list for each of its keys. */
    predicate Knows(key: nat) {
      key in registers && key in readLists
    }

    predicate KnowsBelow(count: nat) {
      forall k: nat | k < count :: k in registers && k in readLists
    }

    function Bcast(msg: Msg): seq<Packet> {
      seq(n, i requires 0 <= i < n => Packet(rank, i + 1, msg))
    }

    function WithRegister(key: nat, r: Register, list: ReadList): Node {
      this.(registers := registers[key := r], readLists := readLists[key := list])
    }

    /** The test log, one entry longer. */
    function Logged(key: nat, operation: KVOperation, value: Option<nat>, now: int): Node {
      if testing then this.(timestamps := timestamps + [KVTimestamp(key, operation, value, now, rank)]) else this
    }
  }

  datatype Reaction = Handled(node: Node, sent: seq<Packet>) | Panicked

  // Invocations.

  /** Even ranks read the first keys and write the next ones, odd ranks the other way round. */
  predicate ReadsKey(rank: nat, numReads: nat, numWrites: nat, key: nat) {
    if rank % 2 == 0 then key < numReads else numWrites <= key
  }

  function Reading(r: Register): Register {
    r.(rid := r.rid + 1, acks := 0, reading := true)
  }

  function Writing(r: Register, rank: nat): Register {
    r.(rid := r.rid + 1, writeval := rank, acks := 0, reading := false)
  }

  /** The register of a key once the node's operation on it has been invoked. */
  function InvokedRegister(node: Node, key: nat): Register
    requires key in node.registers
  {
    if ReadsKey(node.rank, node.numReads, node.numWrites, key) then Reading(node.registers[key])
    else Writing(node.registers[key], node.rank)
  }

  function InvokationEntry(node: Node, key: nat, now: int): KVTimestamp {
    if ReadsKey(node.rank, node.numReads, node.numWrites, key) then KVTimestamp(key, ReadInvokation, None, now, node.rank)
    else KVTimestamp(key, WriteInvokation, Some(node.rank), now, node.rank)
  }

  /** One invocation: the register, an empty read list and the log entry. */
  function Invoking(node: Node, read: bool, key: nat, now: int): Node
    requires node.Knows(key)
  {
    var r := node.registers[key];
    node.WithRegister(key, if read then Reading(r) else Writing(r, node.rank), map[])
        .Logged(key, if read then ReadInvokation else WriteInvokation, if read then None else Some(node.rank), now)
  }

  /** The log entries of the invocations on the keys below `count`. */
  function InvokationLog(node: Node, count: nat, now: int): Trace {
    if count == 0 || !node.testing then []
    else InvokationLog(node, count - 1, now) + [InvokationEntry(node, count - 1, now)]
  }

  /** The read requests of the operations on the keys below `count`. */
  function InvokationSends(node: Node, count: nat): seq<Packet>
    requires node.KnowsBelow(count)
  {
    if count == 0 then []
    else InvokationSends(node, count - 1) + node.Bcast(Read(node.runId, count - 1, node.registers[count - 1].rid + 1))
  }

  /** The node after the operations on the keys below `count` have been invoked. */
  function AfterInvoking(node: Node, count: nat, now: int): Node {
    node.(
      registers := map k | k in node.registers :: if k < count then InvokedRegister(node, k) else node.registers[k],
      readLists := map k | k in node.readLists :: if k < count then map[] else node.readLists[k],
      timestamps := node.timestamps + InvokationLog(node, count, now))
  }

  /** All operations of the node, a read or a write of every planned key; a missing register is a panic. */
  function InvokeOperations(node: Node, now: int): Reaction {
    var ready := node.(readCount := node.numReads, writeCount := node.numWrites);
    if node.KnowsBelow(node.numReads + node.numWrites)
    then Handled(AfterInvoking(ready, node.numReads + node.numWrites, now),
                 InvokationSends(ready, node.numReads + node.numWrites))
    else Panicked
  }

  // Responses.

  /** Sends Done, with the log when testing, once no operation is left. */
  function FinishIfDone(node: Node): Reaction {
    if node.readCount != 0 || node.writeCount != 0 then Handled(node, [])
    else if node.testing then
      Handled(node.(timestamps := []), [Packet(node.rank, 0, TestDone(node.timestamps))])
    else Handled(node, [Packet(node.rank, 0, Done)])
  }

  function AnswerRead(node: Node, key: nat, value: nat, now: int): Reaction {
    if node.readCount == 0 then Panicked
    else FinishIfDone(node.(readCount := node.readCount - 1).Logged(key, KVOperation.ReadResponse, Some(value), now))
  }

  function AnswerWrite(node: Node, key: nat, now: int): Reaction {
    if node.writeCount == 0 then Panicked
    else FinishIfDone(node.(writeCount := node.writeCount - 1).Logged(key, KVOperation.WriteResponse, Some(node.rank), now))
  }

  // Handlers.

  function ReceiveRead(node: Node, src: nat, m: Msg): Reaction
    requires m.Read?
  {
    if m.runId != node.runId then Handled(node, [])
    else if !node.Knows(m.key) then Panicked
    else
      var r := node.registers[m.key];
      Handled(node, [Packet(node.rank, src, Value(node.runId, m.key, m.rid, r.ts, r.wr, r.value, node.rank))])
  }

  /** The bookkeeping that decides whether a read may skip imposing. */
  function NoteValue(r: Register, firstReply: bool, m: Msg): Register
    requires m.Value?
  {
    if !r.reading then r
    else if firstReply then r.(firstReceivedTs := m.ts, readval := m.value)
    else if r.skipImpose && r.firstReceivedTs != m.ts then r.(skipImpose := false)
    else r
  }

  /** What a query quorum makes an imposing operation broadcast. */
  function ImposedWrite(node: Node, r: Register, m: Msg, max: Entry): Msg
    requires m.Value?
  {
    if r.reading then Write(m.runId, m.key, m.rid, max.ts, max.wr, max.value)
    else Write(m.runId, m.key, m.rid, max.ts + 1, node.rank, r.writeval)
  }

  function ReceiveValue(node: Node, m: Msg, now: int): Reaction
    requires m.Value?
  {
    if m.runId != node.runId then Handled(node, [])
    else if !node.Knows(m.key) then Panicked
    else if m.rid != node.registers[m.key].rid then Handled(node, [])
    else
      var r := NoteValue(node.registers[m.key], node.readLists[m.key] == map[], m);
      var list := node.readLists[m.key][m.senderRank := Entry(m.ts, m.wr, m.value)];
      if |list| <= node.n / 2 then Handled(node.WithRegister(m.key, r, list), [])
      else if r.reading && r.skipImpose then
        AnswerRead(node.WithRegister(m.key, r.(value := r.readval), map[]), m.key, r.readval, now)
      else
        var max := MaxEntry(list);
        Handled(node.WithRegister(m.key, r.(readval := max.value), map[]), node.Bcast(ImposedWrite(node, r, m, max)))
  }

  /** The replica adopts a larger tag; every write is acknowledged, even one of another run. */
  function ReceiveWrite(node: Node, src: nat, m: Msg): Reaction
    requires m.Write?
  {
    var ack := [Packet(node.rank, src, Ack(m.runId, m.key, m.rid))];
    if m.runId != node.runId then Handled(node, ack)
    else if !node.Knows(m.key) then Panicked
    else
      var r := node.registers[m.key];
      if Tag(m.ts, m.wr).Exceeds(r.GetTag()) then
        Handled(node.WithRegister(m.key, r.(ts := m.ts, wr := m.wr, value := m.value), node.readLists[m.key]), ack)
      else Handled(node, ack)
  }

  function ReceiveAck(node: Node, m: Msg, now: int): Reaction
    requires m.Ack?
  {
    if m.runId != node.runId then Handled(node, [])
    else if !node.Knows(m.key) then Panicked
    else if m.rid != node.registers[m.key].rid then Handled(node, [])
    else
      var r := node.registers[m.key];
      var list := node.readLists[m.key];
      if r.acks + 1 <= node.n / 2 then Handled(node.WithRegister(m.key, r.(acks := r.acks + 1), list), [])
      else
        var answered := node.WithRegister(m.key, r.(acks := 0), list);
        if r.reading then AnswerRead(answered, m.key, r.readval, now)
        else AnswerWrite(answered, m.key, now)
  }

  /** One message at a node, read at clock time `now`; messages meant for the master are only logged. */
  function Receive(node: Node, src: nat, m: Msg, now: int): Reaction {
    match m
    case Run => InvokeOperations(node, now)
    case Read(_, _, _) => ReceiveRead(node, src, m)
    case Value(_, _, _, _, _, _, _) => ReceiveValue(node, m, now)
    case Write(_, _, _, _, _, _) => ReceiveWrite(node, src, m)
    case Ack(_, _, _) => ReceiveAck(node, m, now)
    case Done => Handled(node, [])
    case TestDone(_) => Handled(node, [])
  }

  // The node as an object.

  class AtomicRegisterActor {
    const numKeys: nat
    const numReads: nat
    const numWrites: nat
    const testing: bool
    var n: nat
    var rank: nat
    var readCount: nat
    var writeCount: nat
    var currentRunId: nat
    var registerState: map<nat, Register>
    var registerReadlist: map<nat, ReadList>
    var timestamps: Trace

    function State(): Node
      reads this
    {
      Node(n, rank, numKeys, numReads, numWrites, readCount, writeCount, currentRunId, testing,
           registerState, registerReadlist, timestamps)
    }

    constructor With(numKeys: nat, numReads: nat, numWrites: nat, testing: bool)
      ensures State() == Node(0, 0, numKeys, numReads, numWrites, 0, 0, 0, testing, map[], map[], [])
    {
      this.numKeys, this.numReads, this.numWrites, this.testing := numKeys, numReads, numWrites, testing;
      n, rank, readCount, writeCount, currentRunId := 0, 0, 0, 0, 0;
      registerState, registerReadlist, timestamps := map[], map[], [];
    }

    /** Fresh registers for every key; the counters and the log are left alone. */
    method NewIteration(initId: nat, pid: nat, nodes: nat)
      modifies this
      ensures State() == old(State()).(n := nodes, rank := pid, runId := initId,
        registers := map k: nat | k in Below(numKeys) :: NewRegister,
        readLists := map k: nat | k in Below(numKeys) :: map[])
    {
      currentRunId, n, rank := initId, nodes, pid;
      registerState, registerReadlist := map[], map[];
      for i := 0 to numKeys
        invariant registerState == map k: nat | k in Below(i) :: NewRegister
        invariant registerReadlist == map k: nat | k in Below(i) :: map[]
        invariant timestamps == old(timestamps) && n == nodes && rank == pid && currentRunId == initId
        invariant readCount == old(readCount) && writeCount == old(writeCount)
      {
        registerState := registerState[i := NewRegister];
        registerReadlist := registerReadlist[i := map[]];
      }
    }

    method InvokeRead(key: nat, now: int) returns (sent: seq<Packet>)
      requires State().Knows(key)
      modifies this
      ensures State() == old(State().WithRegister(key, Reading(registerState[key]), map[])
                                    .Logged(key, ReadInvokation, None, now))
      ensures sent == old(State().Bcast(Read(currentRunId, key, registerState[key].rid + 1)))
    {
      var r := registerState[key];
      r := r.(rid := r.rid + 1, acks := 0, reading := true);
      registerState := registerState[key := r];
      registerReadlist := registerReadlist[key := map[]];
      if testing {
        timestamps := timestamps + [KVTimestamp(key, ReadInvokation, None, now, rank)];
      }
      sent := State().Bcast(Read(currentRunId, key, r.rid));
    }

    method InvokeWrite(key: nat, now: int) returns (sent: seq<Packet>)
      requires State().Knows(key)
      modifies this
      ensures State() == old(State().WithRegister(key, Writing(registerState[key], rank), map[])
                                    .Logged(key, WriteInvokation, Some(rank), now))
      ensures sent == old(State().Bcast(Read(currentRunId, key, registerState[key].rid + 1)))
    {
      var r := registerState[key];
      r := r.(rid := r.rid + 1, writeval := rank, acks := 0, reading := false);
      registerState := registerState[key := r];
      registerReadlist := registerReadlist[key := map[]];
      if testing {
        timestamps := timestamps + [KVTimestamp(key, WriteInvokation, Some(rank), now, rank)];
      }
      sent := State().Bcast(Read(currentRunId, key, r.rid));
    }

    method InvokeAll(now: int) returns (sent: seq<Packet>)
      requires State().KnowsBelow(numReads + numWrites)
      modifies this
      ensures InvokeOperations(old(State()), now) == Handled(State(), sent)
    {
      ghost var start := State();
      readCount, writeCount := numReads, numWrites;
      ghost var ready := start.(readCount := numReads, writeCount := numWrites);
      assert State() == ready;
      InvokedNone(ready, now);
      sent := InvokeInOrder(now, ready);
      InvokedEverything(start, ready, now, State(), sent);
    }

    /** Two loops, reads and writes, in an order that depends on the rank. */
    method InvokeInOrder(now: int, ghost ready: Node) returns (sent: seq<Packet>)
      requires IsWorkload(ready, rank, numReads, numWrites) == true && InvokedBelow(ready, 0, now, State(), []) == true
      modifies this
      ensures InvokedBelow(ready, numReads + numWrites, now, State(), sent) == true
    {
      RangesOfRank(ready, rank, numReads, numWrites);
      var readsFirst := rank % 2 == 0;
      var first := if readsFirst then numReads else numWrites;
      sent := InvokeRange(readsFirst, 0, first, now, [], ready);
      sent := InvokeRange(!readsFirst, first, numReads + numWrites, now, sent, ready);
    }

    /** One of the two loops. */
    method InvokeRange(read: bool, from: nat, to: nat, now: int, sentBefore: seq<Packet>, ghost ready: Node)
      returns (sent: seq<Packet>)
      requires from <= to && AreAll(ready, from, to, read) == true
      requires InvokedBelow(ready, from, now, State(), sentBefore) == true
      modifies this
      ensures InvokedBelow(ready, to, now, State(), sent) == true
    {
      sent := sentBefore;
      for key := from to to
        invariant InvokedBelow(ready, key, now, State(), sent) == true
      {
        NextIsOne(ready, from, to, read, key);
        var more := InvokeOne(read, key, now, sent, ready);
        sent := sent + more;
      }
    }

    method InvokeOne(read: bool, key: nat, now: int, ghost sentBefore: seq<Packet>, ghost ready: Node) returns (sent: seq<Packet>)
      requires AreAll(ready, key, key + 1, read) == true && InvokedBelow(ready, key, now, State(), sentBefore) == true
      modifies this
      ensures InvokedBelow(ready, key + 1, now, State(), sentBefore + sent) == true
    {
      ghost var before := State();
      NextIsKnown(ready, key, read, now, before, sentBefore);
      if read {
        sent := InvokeRead(key, now);
      } else {
        sent := InvokeWrite(key, now);
      }
      InvokedOneMore(ready, key, now, before, sentBefore, read, State(), sent);
    }

    method SendDone() returns (sent: seq<Packet>)
      requires readCount == 0 && writeCount == 0
      modifies this
      ensures FinishIfDone(old(State())) == Handled(State(), sent)
    {
      if testing {
        sent := [Packet(rank, 0, TestDone(timestamps))];
        timestamps := [];
      } else {
        sent := [Packet(rank, 0, Done)];
      }
    }

    method RespondRead(key: nat, value: nat, now: int) returns (sent: seq<Packet>, panicked: bool)
      modifies this
      ensures panicked <==> AnswerRead(old(State()), key, value, now).Panicked?
      ensures !panicked ==> AnswerRead(old(State()), key, value, now) == Handled(State(), sent)
    {
      sent, panicked := [], readCount == 0;
      if !panicked {
        readCount := readCount - 1;
        if testing {
          timestamps := timestamps + [KVTimestamp(key, KVOperation.ReadResponse, Some(value), now, rank)];
        }
        if readCount == 0 && writeCount == 0 {
          sent := SendDone();
        }
      }
    }

    method RespondWrite(key: nat, now: int) returns (sent: seq<Packet>, panicked: bool)
      modifies this
      ensures panicked <==> AnswerWrite(old(State()), key, now).Panicked?
      ensures !panicked ==> AnswerWrite(old(State()), key, now) == Handled(State(), sent)
    {
      sent, panicked := [], writeCount == 0;
      if !panicked {
        writeCount := writeCount - 1;
        if testing {
          timestamps := timestamps + [KVTimestamp(key, KVOperation.WriteResponse, Some(rank), now, rank)];
        }
        if readCount == 0 && writeCount == 0 {
          sent := SendDone();
        }
      }
    }

    method OnValue(m: Msg, now: int) returns (sent: seq<Packet>, panicked: bool)
      requires m.Value?
      modifies this
      ensures panicked <==> ReceiveValue(old(State()), m, now).Panicked?
      ensures !panicked ==> ReceiveValue(old(State()), m, now) == Handled(State(), sent)
    {
      sent, panicked := [], false;
      if m.runId == currentRunId {
        if !State().Knows(m.key) {
          return [], true;
        }
        var r, list := registerState[m.key], registerReadlist[m.key];
        if m.rid == r.rid {
          if r.reading {
            if list == map[] {
              r := r.(firstReceivedTs := m.ts, readval := m.value);
            } else if r.skipImpose && r.firstReceivedTs != m.ts {
              r := r.(skipImpose := false);
            }
          }
          list := list[m.senderRank := Entry(m.ts, m.wr, m.value)];
          if |list| > n / 2 {
            if r.reading && r.skipImpose {
              r := r.(value := r.readval);
              registerState, registerReadlist := registerState[m.key := r], registerReadlist[m.key := map[]];
              sent, panicked := RespondRead(m.key, r.readval, now);
            } else {
              var max := MaxEntry(list);
              sent := State().Bcast(ImposedWrite(State(), r, m, max));
              r := r.(readval := max.value);
              registerState, registerReadlist := registerState[m.key := r], registerReadlist[m.key := map[]];
            }
          } else {
            registerState, registerReadlist := registerState[m.key := r], registerReadlist[m.key := list];
          }
        }
      }
    }

    method OnWrite(src: nat, m: Msg) returns (sent: seq<Packet>, panicked: bool)
      requires m.Write?
      modifies this
      ensures panicked <==> ReceiveWrite(old(State()), src, m).Panicked?
      ensures !panicked ==> ReceiveWrite(old(State()), src, m) == Handled(State(), sent)
    {
      panicked := false;
      if m.runId == currentRunId {
        if !State().Knows(m.key) {
          return [], true;
        }
        var r := registerState[m.key];
        if Tag(m.ts, m.wr).Exceeds(r.GetTag()) {
          r := r.(ts := m.ts, wr := m.wr, value := m.value);
          registerState := registerState[m.key := r];
          assert registerReadlist == registerReadlist[m.key := registerReadlist[m.key]];
        }
      }
      sent := [Packet(rank, src, Ack(m.runId, m.key, m.rid))];
    }

    method OnAck(m: Msg, now: int) returns (sent: seq<Packet>, panicked: bool)
      requires m.Ack?
      modifies this
      ensures panicked <==> ReceiveAck(old(State()), m, now).Panicked?
      ensures !panicked ==> ReceiveAck(old(State()), m, now) == Handled(State(), sent)
    {
      sent, panicked := [], false;
      if m.runId == currentRunId {
        if !State().Knows(m.key) {
          return [], true;
        }
        var r := registerState[m.key];
        if m.rid == r.rid {
          r := r.(acks := r.acks + 1);
          assert registerReadlist == registerReadlist[m.key := registerReadlist[m.key]];
          if r.acks > n / 2 {
            r := r.(acks := 0);
            registerState := registerState[m.key := r];
            if r.reading {
              sent, panicked := RespondRead(m.key, r.readval, now);
            } else {
              sent, panicked := RespondWrite(m.key, now);
            }
          } else {
            registerState := registerState[m.key := r];
          }
        }
      }
    }

    /** The handler does what `Receive` says, panics included. */
    method ReceiveNetwork(src: nat, m: Msg, now: int) returns (sent: seq<Packet>, panicked: bool)
      modifies this
      ensures panicked <==> Receive(old(State()), src, m, now).Panicked?
      ensures !panicked ==> Receive(old(State()), src, m, now) == Handled(State(), sent)
    {
      sent, panicked := [], false;
      match m {
        case Run =>
          if State().KnowsBelow(numReads + numWrites) {
            sent := InvokeAll(now);
          } else {
            panicked := true;
          }
        case Read(runId, key, rid) =>
          if runId == currentRunId {
            panicked := !State().Knows(key);
            if !panicked {
              var r := registerState[key];
              sent := [Packet(rank, src, Value(currentRunId, key, rid, r.ts, r.wr, r.value, rank))];
            }
          }
        case Value(_, _, _, _, _, _, _) =>
          sent, panicked := OnValue(m, now);
        case Write(_, _, _, _, _, _) =>
          sent, panicked := OnWrite(src, m);
        case Ack(_, _, _) =>
          sent, panicked := OnAck(m, now);
        case Done =>
        case TestDone(_) =>
      }
    }
  }

  /** `node` is `ready` after the operations below `count` were invoked, `sent` what that sent. */
  ghost predicate InvokedBelow(ready: Node, count: nat, now: int, node: Node, sent: seq<Packet>) {
    ready.KnowsBelow(count) && node == AfterInvoking(ready, count, now) && sent == InvokationSends(ready, count)
  }

  lemma InvokedEverything(node: Node, ready: Node, now: int, after: Node, sent: seq<Packet>)
    requires node.KnowsBelow(node.numReads + node.numWrites)
    requires ready == node.(readCount := node.numReads, writeCount := node.numWrites)
    requires InvokedBelow(ready, node.numReads + node.numWrites, now, after, sent) == true
    ensures InvokeOperations(node, now) == Handled(after, sent)
  {
  }

  /** `node` operates on the keys below its numbers of reads and writes, in the order of its rank. */
  ghost predicate IsWorkload(node: Node, rank: nat, numReads: nat, numWrites: nat) {
    node.rank == rank && node.numReads == numReads && node.numWrites == numWrites && node.KnowsBelow(numReads + numWrites)
  }

  lemma InvokedNone(node: Node, now: int)
    requires node.KnowsBelow(node.numReads + node.numWrites)
    ensures InvokedBelow(node, 0, now, node, []) == true
    ensures IsWorkload(node, node.rank, node.numReads, node.numWrites) == true
  {
    assert AfterInvoking(node, 0, now).registers == node.registers;
    assert AfterInvoking(node, 0, now).readLists == node.readLists;
  }

  /** The keys of a range are known, and all operations on them are reads, or all are writes. */
  ghost predicate AreAll(node: Node, from: nat, to: nat, read: bool) {
    forall key: nat | from <= key < to :: node.Knows(key) && ReadsKey(node.rank, node.numReads, node.numWrites, key) == read
  }

  lemma RangesOfRank(node: Node, rank: nat, numReads: nat, numWrites: nat)
    requires IsWorkload(node, rank, numReads, numWrites)
    ensures if rank % 2 == 0
            then AreAll(node, 0, numReads, true) == true && AreAll(node, numReads, numReads + numWrites, false) == true
            else AreAll(node, 0, numWrites, false) == true && AreAll(node, numWrites, numReads + numWrites, true) == true
  {
  }

  lemma NextIsOne(node: Node, from: nat, to: nat, read: bool, key: nat)
    requires AreAll(node, from, to, read) && from <= key < to
    ensures AreAll(node, key, key + 1, read) == true
  {
  }

  lemma NextIsKnown(ready: Node, key: nat, read: bool, now: int, node: Node, sent: seq<Packet>)
    requires AreAll(ready, key, key + 1, read) && InvokedBelow(ready, key, now, node, sent) == true
    ensures ready.KnowsBelow(key + 1) && node.Knows(key)
    ensures ReadsKey(ready.rank, ready.numReads, ready.numWrites, key) == read
  {
    assert ready.Knows(key);
  }

  /** The register of the next key is the only one that changes. */
  lemma NextRegister(ready: Node, key: nat, now: int, node: Node, read: bool)
    requires ready.KnowsBelow(key + 1) && node == AfterInvoking(ready, key, now) && node.Knows(key)
    requires read == ReadsKey(ready.rank, ready.numReads, ready.numWrites, key)
    ensures Invoking(node, read, key, now).registers == AfterInvoking(ready, key + 1, now).registers
    ensures Invoking(node, read, key, now).readLists == AfterInvoking(ready, key + 1, now).readLists
  {
  }

  lemma NextEntry(ready: Node, key: nat, now: int, node: Node, read: bool)
    requires node == AfterInvoking(ready, key, now) && node.Knows(key)
    requires read == ReadsKey(ready.rank, ready.numReads, ready.numWrites, key)
    ensures Invoking(node, read, key, now).timestamps == AfterInvoking(ready, key + 1, now).timestamps
  {
  }

  /** Invoking the operation on the next key. */
  lemma InvokedOneMore(ready: Node, key: nat, now: int, node: Node, sent: seq<Packet>, read: bool, after: Node, more: seq<Packet>)
    requires ready.KnowsBelow(key + 1) && InvokedBelow(ready, key, now, node, sent) == true && node.Knows(key)
    requires read == ReadsKey(ready.rank, ready.numReads, ready.numWrites, key)
    requires after == Invoking(node, read, key, now)
    requires more == node.Bcast(Read(node.runId, key, node.registers[key].rid + 1))
    ensures InvokedBelow(ready, key + 1, now, after, sent + more) == true
  {
    NextRegister(ready, key, now, node, read);
    NextEntry(ready, key, now, node, read);
  }
}
