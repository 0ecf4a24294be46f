/** The wire format of the partitioning actor's messages (partitioning_actor.rs). */
module PartitioningCodec {
  import opened Bytes
  import opened Collections
  import opened Histories

  const InitId: byte := 1
  const InitAckId: byte := 2
  const RunId: byte := 3
  const DoneId: byte := 4
  const TestDoneId: byte := 5
  const StopId: byte := 6
  const StopAckId: byte := 13

  const ReadInv: byte := 8
  const ReadResp: byte := 9
  const WriteInv: byte := 10
  const WriteResp: byte := 11

  /** `P` stands for actor paths. */
  datatype PartitioningMsg<P(!new)> =
    | Init(pid: nat, initId: nat, initData: Option<seq<byte>>, nodes: seq<P>)
    | InitAck(initId: nat)
    | Run
    | Done
    | TestDone(timestamps: Trace)
    | Stop
    | StopAck

  /** How actor paths are written and read; not part of this repository. */
  datatype PathCodec<!P(!new)> = PathCodec(put: P -> seq<byte>, get: seq<byte> -> Parsed<P>) {
    ghost predicate Valid() {
      forall p, rest :: get(put(p) + rest) == Parsed(p, rest)
    }
  }

  // Entries of a test log.

  function OperationId(op: KVOperation): byte {
    match op
    case ReadInvokation => ReadInv
    case ReadResponse => ReadResp
    case WriteInvokation => WriteInv
    case WriteResponse => WriteResp
  }

  /** The fields have the range of their types, and there is a value where one is written. */
  predicate IsTypedEntry(t: KVTimestamp) {
    && t.key < Power256(8) && t.sender < Power256(4) && -0x8000_0000_0000_0000 <= t.time < 0x8000_0000_0000_0000
    && (!t.operation.ReadInvokation? ==> t.value.Some? && t.value.value < Power256(4))
  }

  predicate CanWrite(t: KVTimestamp) {
    t.operation.ReadInvokation? || t.value.Some?
  }

  function TimeField(time: int): Field {
    Field(if -0x8000_0000_0000_0000 <= time < 0x8000_0000_0000_0000 then Unsigned64(time) else 0, 8)
  }

  function EntryHead(t: KVTimestamp): seq<Field> {
    [Field(t.key, 8), Field(OperationId(t.operation), 1)]
  }

  function EntryBody(t: KVTimestamp): seq<Field> {
    (if t.operation.ReadInvokation? || t.value.None? then [] else [Field(t.value.value, 4)])
    + [TimeField(t.time), Field(t.sender, 4)]
  }

  function EntryFields(t: KVTimestamp): seq<Field> {
    EntryHead(t) + EntryBody(t)
  }

  function PutEntry(t: KVTimestamp): seq<byte> {
    PutFields(EntryFields(t))
  }

  /** An unknown operation is a panic. */
  function GetEntry(b: seq<byte>): Parsed<KVTimestamp> {
    GetFields(b, [8, 1]).Then((f: seq<nat>, rest) requires |f| == 2 => GetEntryBody(f[0], f[1], rest))
  }

  function GetEntryBody(key: nat, op: nat, b: seq<byte>): Parsed<KVTimestamp> {
    if op == ReadInv then
      GetFields(b, [8, 4]).Then((f: seq<nat>, rest) requires |f| == 2 =>
        Parsed(KVTimestamp(key, ReadInvokation, None, Signed64(f[0]), f[1]), rest))
    else if op == ReadResp || op == WriteInv || op == WriteResp then
      GetFields(b, [4, 8, 4]).Then((f: seq<nat>, rest) requires |f| == 3 =>
        Parsed(KVTimestamp(key, if op == ReadResp then ReadResponse else if op == WriteInv then WriteInvokation else WriteResponse,
                           Some(f[0]), Signed64(f[1]), f[2]), rest))
    else Panicked
  }

  /** An entry as it is read back: the value of a read invocation is not written. */
  function SeenEntry(t: KVTimestamp): KVTimestamp {
    if t.operation.ReadInvokation? then t.(value := None) else t
  }

  lemma FieldsInvertTwice(a: seq<Field>, b: seq<Field>, rest: seq<byte>)
    requires (forall f | f in a :: f.Fits()) && (forall f | f in b :: f.Fits())
    ensures GetFields(PutFields(a + b) + rest, WidthsOf(a)) == Parsed(ValuesOf(a), PutFields(b) + rest)
    ensures GetFields(PutFields(b) + rest, WidthsOf(b)) == Parsed(ValuesOf(b), rest)
  {
    PutFieldsConcat(a, b);
    assert PutFields(a + b) + rest == PutFields(a) + (PutFields(b) + rest);
    FieldsInvert(a, PutFields(b) + rest);
    FieldsInvert(b, rest);
  }

  lemma {:induction false} PutFieldsConcat(a: seq<Field>, b: seq<Field>)
    ensures PutFields(a + b) == PutFields(a) + PutFields(b)
  {
    if a == [] {
      assert a + b == b;
    } else {
      assert (a + b)[1..] == a[1..] + b;
      PutFieldsConcat(a[1..], b);
    }
  }

  lemma PutFew(a: Field, b: Field)
    ensures PutFields([a]) == BigEndian(a.value, a.width)
    ensures PutFields([a, b]) == BigEndian(a.value, a.width) + BigEndian(b.value, b.width)
  {
    assert [a, b][1..] == [b];
    assert PutFields([a, b]) == BigEndian(a.value, a.width) + PutFields([b]);
    assert BigEndian(a.value, a.width) + [] == BigEndian(a.value, a.width);
    assert BigEndian(b.value, b.width) + [] == BigEndian(b.value, b.width);
  }

  lemma EntryFits(t: KVTimestamp)
    requires IsTypedEntry(t)
    ensures forall f | f in EntryHead(t) :: f.Fits()
    ensures forall f | f in EntryBody(t) :: f.Fits()
  {
    Widths();
    assert Power256(1) == 256 * Power256(0);
  }

  lemma EntryHeadInverts(t: KVTimestamp, rest: seq<byte>)
    requires IsTypedEntry(t)
    ensures GetFields(PutFields(EntryHead(t)) + rest, [8, 1]) == Parsed([t.key, OperationId(t.operation)], rest)
  {
    EntryFits(t);
    FieldsInvert(EntryHead(t), rest);
    assert WidthsOf(EntryHead(t)) == [8, 1];
    assert ValuesOf(EntryHead(t)) == [t.key, OperationId(t.operation)];
  }

  lemma EntryBodyInverts(t: KVTimestamp, rest: seq<byte>)
    requires IsTypedEntry(t)
    ensures GetEntryBody(t.key, OperationId(t.operation), PutFields(EntryBody(t)) + rest) == Parsed(SeenEntry(t), rest)
  {
    EntryFits(t);
    var body := EntryBody(t);
    FieldsInvert(body, rest);
    if t.operation.ReadInvokation? {
      assert WidthsOf(body) == [8, 4] && ValuesOf(body) == [Unsigned64(t.time), t.sender];
    } else {
      assert WidthsOf(body) == [4, 8, 4] && ValuesOf(body) == [t.value.value, Unsigned64(t.time), t.sender];
    }
  }

  lemma EntryInverts(t: KVTimestamp, rest: seq<byte>)
    requires IsTypedEntry(t)
    ensures GetEntry(PutEntry(t) + rest) == Parsed(SeenEntry(t), rest)
  {
    var head, body := PutFields(EntryHead(t)), PutFields(EntryBody(t));
    PutFieldsConcat(EntryHead(t), EntryBody(t));
    assert PutEntry(t) + rest == head + (body + rest);
    EntryHeadInverts(t, body + rest);
    EntryBodyInverts(t, rest);
  }

  // Messages.

  function Truncated(n: nat, size: nat): (r: nat)
    requires size > 0
    ensures r < size && (n < size ==> r == n)
  {
    if n < size then n else n % size
  }

  /** A length, written in `width` bytes by a cast that drops what does not fit. */
  function LengthField(length: nat, width: nat): (f: Field)
    ensures f.Fits() && f.width == width && (length < Power256(width) ==> f.value == length)
  {
    Field(Truncated(length, Power256(width)), width)
  }

  function DataOf(data: Option<seq<byte>>): seq<byte> {
    if data.Some? then data.value else []
  }

  function InitHead<P(!new)>(m: PartitioningMsg<P>): seq<Field>
    requires m.Init?
  {
    [Field(InitId, 1), Field(m.pid, 4), Field(m.initId, 4), LengthField(|DataOf(m.initData)|, 8)]
  }

  function Encode<P(!new)>(codec: PathCodec<P>, m: PartitioningMsg<P>): seq<byte> {
    match m
    case Init(_, _, data, nodes) =>
      PutFields(InitHead(m)) + DataOf(data) + (PutFields([LengthField(|nodes|, 4)]) + PutMany(codec.put, nodes))
    case InitAck(initId) => PutFields([Field(InitAckId, 1), Field(initId, 4)])
    case Run => [RunId]
    case Done => [DoneId]
    case TestDone(timestamps) => PutFields([Field(TestDoneId, 1), LengthField(|timestamps|, 4)]) + PutMany(EntryWriter, timestamps)
    case Stop => [StopId]
    case StopAck => [StopAckId]
  }

  /** The next `count` bytes. */
  function GetBytes(b: seq<byte>, count: nat): Parsed<seq<byte>> {
    if |b| < count then Panicked else Parsed(b[..count], b[count..])
  }

  const EntryWriter: KVTimestamp -> seq<byte> := t => PutEntry(t)
  const EntryReader: seq<byte> -> Parsed<KVTimestamp> := b => GetEntry(b)
  const EntrySeen: KVTimestamp -> KVTimestamp := t => SeenEntry(t)

  function Decode<P(!new)>(codec: PathCodec<P>, b: seq<byte>): Parsed<PartitioningMsg<P>> {
    GetInt(b, 1).Then((id, rest) => DecodeBody(codec, id, rest))
  }

  function DecodeBody<P(!new)>(codec: PathCodec<P>, id: nat, b: seq<byte>): Parsed<PartitioningMsg<P>> {
    if id == InitId then
      GetFields(b, [4, 4, 8]).Then((f: seq<nat>, rest) requires |f| == 3 =>
        GetBytes(rest, f[2]).Then((data: seq<byte>, rest') =>
          DecodeNodes(codec, f[0], f[1], if f[2] == 0 then None else Some(data), rest')))
    else if id == InitAckId then GetInt(b, 4).Then((n, rest) => Parsed(InitAck(n), rest))
    else if id == RunId then Parsed(Run, b)
    else if id == DoneId then Parsed(Done, b)
    else if id == TestDoneId then
      GetInt(b, 4).Then((n, rest) => GetMany(EntryReader, rest, n).Then((ts: seq<KVTimestamp>, rest') => Parsed(TestDone(ts), rest')))
    else if id == StopId then Parsed(Stop, b)
    else if id == StopAckId then Parsed(StopAck, b)
    else Invalid
  }

  function DecodeNodes<P(!new)>(codec: PathCodec<P>, pid: nat, initId: nat, data: Option<seq<byte>>, b: seq<byte>): Parsed<PartitioningMsg<P>> {
    GetInt(b, 4).Then((n, rest) =>
      GetMany(codec.get, rest, n).Then((nodes: seq<P>, rest') => Parsed(Init(pid, initId, data, nodes), rest')))
  }

  /** The values of all fields are in the range of their types. */
  predicate IsTyped<P(!new)>(m: PartitioningMsg<P>) {
    match m
    case Init(pid, initId, _, _) => pid < Power256(4) && initId < Power256(4)
    case InitAck(initId) => initId < Power256(4)
    case TestDone(timestamps) => forall t | t in timestamps :: IsTypedEntry(t)
    case _ => true
  }

  /** The lengths fit the integers that announce them. */
  predicate LengthsFit<P(!new)>(m: PartitioningMsg<P>) {
    match m
    case Init(_, _, data, nodes) => |DataOf(data)| < Power256(8) && |nodes| < Power256(4)
    case TestDone(timestamps) => |timestamps| < Power256(4)
    case _ => true
  }

  function SeenEntries(ts: Trace): Trace {
    Mapped(EntrySeen, ts)
  }

  /** A message as it is read back: empty data is no data. */
  function Seen<P(!new)>(m: PartitioningMsg<P>): PartitioningMsg<P> {
    match m
    case Init(pid, initId, data, nodes) => Init(pid, initId, if data == Some([]) then None else data, nodes)
    case TestDone(timestamps) => TestDone(SeenEntries(timestamps))
    case _ => m
  }

  lemma BytesInvert(data: seq<byte>, rest: seq<byte>)
    ensures GetBytes(data + rest, |data|) == Parsed(data, rest)
  {
    assert (data + rest)[..|data|] == data && (data + rest)[|data|..] == rest;
  }

  lemma {:induction false} PutManyConcat<T>(put: T -> seq<byte>, a: seq<T>, b: seq<T>)
    ensures PutMany(put, a + b) == PutMany(put, a) + PutMany(put, b)
  {
    if b == [] {
      assert a + b == a;
    } else {
      assert (a + b)[..|a + b| - 1] == a + b[..|b| - 1];
      PutManyConcat(put, a, b[..|b| - 1]);
    }
  }

  lemma NodesInvert<P(!new)>(codec: PathCodec<P>, pid: nat, initId: nat, data: Option<seq<byte>>, nodes: seq<P>, rest: seq<byte>)
    requires codec.Valid() && |nodes| < Power256(4)
    ensures DecodeNodes(codec, pid, initId, data, BigEndian(|nodes|, 4) + (PutMany(codec.put, nodes) + rest))
            == Parsed(Init(pid, initId, data, nodes), rest)
  {
    GetIntInverts(|nodes|, 4, PutMany(codec.put, nodes) + rest);
    var same := (p: P) => p;
    ManyInvert(codec.put, codec.get, same, nodes, rest);
    assert Mapped(same, nodes) == nodes;
  }

  lemma InitHeadInverts<P(!new)>(codec: PathCodec<P>, m: PartitioningMsg<P>, after: seq<byte>)
    requires m.Init? && IsTyped(m) && LengthsFit(m)
    ensures Decode(codec, PutFields(InitHead(m)) + after) ==
            GetBytes(after, |DataOf(m.initData)|).Then((data: seq<byte>, rest) =>
              DecodeNodes(codec, m.pid, m.initId, if |DataOf(m.initData)| == 0 then None else Some(data), rest))
  {
    Widths();
    assert Power256(1) == 256 * Power256(0);
    var head, body := [Field(InitId, 1)], [Field(m.pid, 4), Field(m.initId, 4), LengthField(|DataOf(m.initData)|, 8)];
    assert InitHead(m) == head + body;
    PutFieldsConcat(head, body);
    PutFew(head[0], head[0]);
    FieldsInvertTwice(head, body, after);
    assert PutFields(InitHead(m)) + after == BigEndian(InitId, 1) + (PutFields(body) + after);
    GetIntInverts(InitId, 1, PutFields(body) + after);
    assert WidthsOf(body) == [4, 4, 8];
    assert ValuesOf(body) == [m.pid, m.initId, |DataOf(m.initData)|];
  }

  lemma InitInverts<P(!new)>(codec: PathCodec<P>, m: PartitioningMsg<P>, rest: seq<byte>)
    requires codec.Valid() && m.Init? && IsTyped(m) && LengthsFit(m)
    ensures Decode(codec, Encode(codec, m) + rest) == Parsed(Seen(m), rest)
  {
    var data, count := DataOf(m.initData), LengthField(|m.nodes|, 4);
    var after := BigEndian(|m.nodes|, 4) + (PutMany(codec.put, m.nodes) + rest);
    PutFew(count, count);
    assert Encode(codec, m) + rest == PutFields(InitHead(m)) + (data + after);
    InitHeadInverts(codec, m, data + after);
    BytesInvert(data, after);
    NodesInvert(codec, m.pid, m.initId, if |data| == 0 then None else Some(data), m.nodes, rest);
  }

  lemma AllEntriesInvert(ts: Trace)
    requires forall t | t in ts :: IsTypedEntry(t)
    ensures forall t, r | t in ts :: EntryReader(EntryWriter(t) + r) == Parsed(EntrySeen(t), r)
  {
    forall t, r | t in ts ensures EntryReader(EntryWriter(t) + r) == Parsed(EntrySeen(t), r) {
      EntryInverts(t, r);
    }
  }

  lemma EntriesInvert(ts: Trace, rest: seq<byte>)
    requires forall t | t in ts :: IsTypedEntry(t)
    ensures GetMany(EntryReader, PutMany(EntryWriter, ts) + rest, |ts|) == Parsed(SeenEntries(ts), rest)
  {
    AllEntriesInvert(ts);
    ManyInvert(EntryWriter, EntryReader, EntrySeen, ts, rest);
  }

  lemma TestDoneFollows<P(!new)>(codec: PathCodec<P>, n: nat, entries: seq<byte>, ts: Trace, rest: seq<byte>)
    requires n < Power256(4) && GetMany(EntryReader, entries, n) == Parsed(ts, rest)
    ensures Decode(codec, BigEndian(TestDoneId, 1) + (BigEndian(n, 4) + entries)) == Parsed(TestDone(ts), rest)
  {
    assert Power256(1) == 256 * Power256(0);
    GetIntInverts(TestDoneId, 1, BigEndian(n, 4) + entries);
    GetIntInverts(n, 4, entries);
  }

  lemma TestDoneBytes<P(!new)>(codec: PathCodec<P>, ts: Trace)
    ensures Encode(codec, TestDone(ts)) ==
            BigEndian(TestDoneId, 1) + BigEndian(Truncated(|ts|, Power256(4)), 4) + PutMany(EntryWriter, ts)
  {
    PutFew(Field(TestDoneId, 1), LengthField(|ts|, 4));
  }

  lemma Regroup(a: seq<byte>, b: seq<byte>, c: seq<byte>, d: seq<byte>, e: seq<byte>)
    ensures a + b + (c + d) + e == a + (b + (c + (d + e)))
  {
  }

  /** The reader takes as many entries as the announced length says. */
  lemma TestDoneInverts<P(!new)>(codec: PathCodec<P>, ts: Trace, rest: seq<byte>)
    requires IsTyped<P>(TestDone(ts))
    ensures var n := Truncated(|ts|, Power256(4));
            n <= |ts| && Decode(codec, Encode(codec, TestDone(ts)) + rest)
            == Parsed(TestDone(SeenEntries(ts[..n])), PutMany(EntryWriter, ts[n..]) + rest)
  {
    var n := Truncated(|ts|, Power256(4));
    var first, second := PutMany(EntryWriter, ts[..n]), PutMany(EntryWriter, ts[n..]);
    assert ts == ts[..n] + ts[n..];
    PutManyConcat(EntryWriter, ts[..n], ts[n..]);
    TestDoneBytes(codec, ts);
    Regroup(BigEndian(TestDoneId, 1), BigEndian(n, 4), first, second, rest);
    EntriesInvert(ts[..n], second + rest);
    TestDoneFollows(codec, n, first + (second + rest), SeenEntries(ts[..n]), second + rest);
  }

  /** Messages round-trip, whatever follows them, exactly up to empty data and the values of read invocations. */
  lemma RoundTrip<P(!new)>(codec: PathCodec<P>, m: PartitioningMsg<P>, rest: seq<byte>)
    requires codec.Valid() && IsTyped(m) && LengthsFit(m)
    ensures Decode(codec, Encode(codec, m) + rest) == Parsed(Seen(m), rest)
  {
    match m {
      case Init(_, _, _, _) => InitInverts(codec, m, rest);
      case TestDone(ts) =>
        TestDoneInverts(codec, ts, rest);
        assert ts[..|ts|] == ts && ts[|ts|..] == [];
        assert [] + rest == rest;
      case InitAck(initId) =>
        Widths();
        assert Power256(1) == 256 * Power256(0);
        PutFew(Field(InitAckId, 1), Field(initId, 4));
        assert Encode(codec, m) + rest == BigEndian(InitAckId, 1) + (BigEndian(initId, 4) + rest);
        GetIntInverts(InitAckId, 1, BigEndian(initId, 4) + rest);
        GetIntInverts(initId, 4, rest);
      case _ =>
        SimpleInverts(codec, m, rest);
    }
  }

  lemma SimpleInverts<P(!new)>(codec: PathCodec<P>, m: PartitioningMsg<P>, rest: seq<byte>)
    requires m.Run? || m.Done? || m.Stop? || m.StopAck?
    ensures Decode(codec, Encode(codec, m) + rest) == Parsed(m, rest)
  {
    var id := Encode(codec, m)[0];
    assert BigEndian(id, 1) == [id];
    assert Power256(1) == 256 * Power256(0);
    GetIntInverts(id, 1, rest);
  }

  /** A test log survives if and only if its length fits 32 bits; a longer one loses all that wraps around. */
  lemma TestDoneSurvivesIff<P(!new)>(codec: PathCodec<P>, ts: Trace, rest: seq<byte>)
    requires IsTyped<P>(TestDone(ts)) && SeenEntries(ts) == ts
    ensures Decode(codec, Encode(codec, TestDone(ts)) + rest) == Parsed(TestDone(ts), rest) <==> |ts| < Power256(4)
  {
    TestDoneInverts(codec, ts, rest);
    Widths();
    if |ts| < Power256(4) {
      assert ts[..|ts|] == ts && ts[|ts|..] == [];
      assert [] + rest == rest;
    } else {
      assert |SeenEntries(ts[..Truncated(|ts|, Power256(4))])| < |ts|;
    }
  }

  // The layout, byte by byte.

  /** Key, operation, value unless a read is invoked, time in two's complement, and sender. */
  predicate IsEntryLayout(b: seq<byte>, t: KVTimestamp)
    requires IsTypedEntry(t)
  {
    var end := if t.operation.ReadInvokation? then 9 else 13;
    && |b| == end + 12 && IsNumberAt(b, 0, 8, t.key)
    && b[8] == (match t.operation case ReadInvokation => 8 case ReadResponse => 9 case WriteInvokation => 10 case WriteResponse => 11)
    && (!t.operation.ReadInvokation? ==> IsNumberAt(b, 9, 4, t.value.value))
    && IsNumberAt(b, end, 8, if t.time < 0 then t.time + 0x1_0000_0000_0000_0000 else t.time)
    && IsNumberAt(b, end + 8, 4, t.sender)
  }

  lemma EntryLayout(t: KVTimestamp)
    requires IsTypedEntry(t)
    ensures IsEntryLayout(PutEntry(t), t) == true
  {
    var fields := EntryFields(t);
    FieldAt(fields, 0, 0);
    FieldAt(fields, 1, 8);
    FieldAt(fields, 2, 9);
    if t.operation.ReadInvokation? {
      FieldAt(fields, 3, 17);
    } else {
      FieldAt(fields, 3, 13);
      FieldAt(fields, 4, 21);
    }
    AllFields(fields);
    ByteAt(PutFields(fields), 8, OperationId(t.operation));
  }

  /** A message starts with its identifier; the rest is at fixed places, with lengths in front of what they count. */
  predicate IsLayoutOf<P(!new)>(codec: PathCodec<P>, b: seq<byte>, m: PartitioningMsg<P>) {
    match m
    case Init(pid, initId, data, nodes) =>
      var size := |DataOf(data)|;
      && |b| >= 21 + size && b[0] == 1 && IsNumberAt(b, 1, 4, pid) && IsNumberAt(b, 5, 4, initId)
      && IsNumberAt(b, 9, 8, size % 0x1_0000_0000_0000_0000) && b[17..17 + size] == DataOf(data)
      && IsNumberAt(b, 17 + size, 4, |nodes| % 0x1_0000_0000) && b[21 + size..] == PutMany(codec.put, nodes)
    case InitAck(initId) => |b| == 5 && b[0] == 2 && IsNumberAt(b, 1, 4, initId)
    case Run => b == [3]
    case Done => b == [4]
    case TestDone(timestamps) =>
      |b| >= 5 && b[0] == 5 && IsNumberAt(b, 1, 4, |timestamps| % 0x1_0000_0000) && b[5..] == PutMany(EntryWriter, timestamps)
    case Stop => b == [6]
    case StopAck => b == [13]
  }

  lemma NumberStays(b: seq<byte>, at: nat, width: nat, n: nat, front: seq<byte>, back: seq<byte>)
    requires IsNumberAt(b, at, width, n) == true
    ensures IsNumberAt(b + back, at, width, n) == true
    ensures IsNumberAt(front + b, |front| + at, width, n) == true
  {
    assert (b + back)[at..at + width] == b[at..at + width];
    assert (front + b)[|front| + at..|front| + at + width] == b[at..at + width];
  }

  lemma LengthsWrap(n: nat)
    ensures LengthField(n, 4) == Field(n % 0x1_0000_0000, 4)
    ensures LengthField(n, 8) == Field(n % 0x1_0000_0000_0000_0000, 8)
  {
    Widths();
  }

  lemma InitHeadLayout<P(!new)>(m: PartitioningMsg<P>)
    requires m.Init?
    ensures var head := PutFields(InitHead(m));
            && |head| == 17 && head[0] == 1 && IsNumberAt(head, 1, 4, m.pid) == true && IsNumberAt(head, 5, 4, m.initId) == true
            && IsNumberAt(head, 9, 8, |DataOf(m.initData)| % 0x1_0000_0000_0000_0000) == true
  {
    var head := InitHead(m);
    FieldAt(head, 0, 0);
    FieldAt(head, 1, 1);
    FieldAt(head, 2, 5);
    FieldAt(head, 3, 9);
    AllFields(head);
    LengthsWrap(|DataOf(m.initData)|);
    ByteAt(PutFields(head), 0, InitId);
  }

  lemma CountLayout(count: nat)
    ensures var b := PutFields([LengthField(count, 4)]); |b| == 4 && IsNumberAt(b, 0, 4, count % 0x1_0000_0000) == true
  {
    var fields := [LengthField(count, 4)];
    FieldAt(fields, 0, 0);
    AllFields(fields);
    LengthsWrap(count);
  }

  lemma Parts(head: seq<byte>, data: seq<byte>, count: seq<byte>, nodes: seq<byte>)
    requires |head| == 17 && |count| == 4
    ensures var b := head + data + (count + nodes);
            b[0] == head[0] && b[17..17 + |data|] == data && b[21 + |data|..] == nodes && b == head + (data + (count + nodes))
  {
  }

  lemma InitLayout<P(!new)>(codec: PathCodec<P>, m: PartitioningMsg<P>)
    requires m.Init?
    ensures IsLayoutOf(codec, Encode(codec, m), m) == true
  {
    var head, data, count := PutFields(InitHead(m)), DataOf(m.initData), PutFields([LengthField(|m.nodes|, 4)]);
    var nodes := PutMany(codec.put, m.nodes);
    InitHeadLayout(m);
    CountLayout(|m.nodes|);
    Parts(head, data, count, nodes);
    NumberStays(head, 1, 4, m.pid, [], data + (count + nodes));
    NumberStays(head, 5, 4, m.initId, [], data + (count + nodes));
    NumberStays(head, 9, 8, |data| % 0x1_0000_0000_0000_0000, [], data + (count + nodes));
    NumberStays(count, 0, 4, |m.nodes| % 0x1_0000_0000, [], nodes);
    NumberStays(count + nodes, 0, 4, |m.nodes| % 0x1_0000_0000, head + data, []);
  }

  lemma CountedLayout<P(!new)>(codec: PathCodec<P>, m: PartitioningMsg<P>)
    requires m.TestDone? || m.InitAck?
    ensures IsLayoutOf(codec, Encode(codec, m), m) == true
  {
    var head := if m.InitAck? then [Field(InitAckId, 1), Field(m.initId, 4)] else [Field(TestDoneId, 1), LengthField(|m.timestamps|, 4)];
    FieldAt(head, 0, 0);
    FieldAt(head, 1, 1);
    AllFields(head);
    ByteAt(PutFields(head), 0, head[0].value);
    if m.TestDone? {
      var entries := PutMany(EntryWriter, m.timestamps);
      LengthsWrap(|m.timestamps|);
      NumberStays(PutFields(head), 1, 4, |m.timestamps| % 0x1_0000_0000, [], entries);
      assert (PutFields(head) + entries)[5..] == entries;
    }
  }

  lemma Layout<P(!new)>(codec: PathCodec<P>, m: PartitioningMsg<P>)
    ensures IsLayoutOf(codec, Encode(codec, m), m) == true
  {
    if m.Init? {
      InitLayout(codec, m);
    } else if m.TestDone? || m.InitAck? {
      CountedLayout(codec, m);
    }
  }

  /** The first byte decides what is read; an unknown one is the reader's error, and nothing at all a panic. */
  lemma ReaderOutcome<P(!new)>(codec: PathCodec<P>, b: seq<byte>)
    ensures b == [] ==> Decode(codec, b).Panicked?
    ensures b != [] && b[0] !in {1, 2, 3, 4, 5, 6, 13} ==> Decode(codec, b).Invalid?
    ensures b != [] && b[0] == 2 ==> (Decode(codec, b).Panicked? <==> |b| < 5) && !Decode(codec, b).Invalid?
    ensures b != [] && b[0] == 3 ==> Decode(codec, b) == Parsed(Run, b[1..])
    ensures b != [] && b[0] == 4 ==> Decode(codec, b) == Parsed(Done, b[1..])
    ensures b != [] && b[0] == 6 ==> Decode(codec, b) == Parsed(Stop, b[1..])
    ensures b != [] && b[0] == 13 ==> Decode(codec, b) == Parsed(StopAck, b[1..])
    ensures b != [] && b[0] in {1, 5} && |b| < (if b[0] == 1 then 21 else 5) ==> Decode(codec, b).Panicked?
  {
    if b != [] {
      assert b[..1][..0] == [];
      assert FromBigEndian(b[..1]) == b[0];
      if b[0] == 1 && |b| < 21 {
        ShortInitPanics(codec, b[1..]);
      }
    }
  }

  lemma ShortInitPanics<P(!new)>(codec: PathCodec<P>, b: seq<byte>)
    requires |b| < 20
    ensures DecodeBody(codec, 1, b).Panicked?
  {
    assert TotalWidth([4, 4, 8]) == 16 by {
      assert TotalWidth([8]) == 8 && TotalWidth([4, 8]) == 12;
    }
    ShortBufferPanics(b, [4, 4, 8]);
    if |b| >= 16 {
      RestOfFields(b, [4, 4, 8]);
    }
  }

  // The codec on buffers.

  lemma OneByte(b: byte)
    ensures BigEndian(b, 1) == [b]
  {
    assert BigEndian(b / 256, 0) == [];
  }

  /** Writes a message behind what is in the buffer; an entry without the value it needs is a panic. */
  method Serialise<P(!new)>(codec: PathCodec<P>, m: PartitioningMsg<P>, buf: Buffer) returns (panicked: bool)
    modifies buf
    ensures panicked <==> m.TestDone? && exists t | t in m.timestamps :: !CanWrite(t)
    ensures !panicked ==> buf.bytes == old(buf.bytes) + Encode(codec, m)
    ensures !panicked ==> IsLayoutOf(codec, buf.bytes[|old(buf.bytes)|..], m) == true
  {
    Layout(codec, m);
    panicked := false;
    match m {
      case Init(_, _, _, _) => PutInit(codec, m, buf);
      case InitAck(initId) => buf.PutAll([Field(InitAckId, 1), Field(initId, 4)]);
      case Run => PutId(RunId, buf);
      case Done => PutId(DoneId, buf);
      case TestDone(timestamps) =>
        buf.PutAll([Field(TestDoneId, 1), LengthField(|timestamps|, 4)]);
        panicked := PutLog(timestamps, buf);
      case Stop => PutId(StopId, buf);
      case StopAck => PutId(StopAckId, buf);
    }
  }

  method PutId(id: byte, buf: Buffer)
    modifies buf
    ensures buf.bytes == old(buf.bytes) + [id]
  {
    OneByte(id);
    buf.Put(id, 1);
  }

  method PutInit<P(!new)>(codec: PathCodec<P>, m: PartitioningMsg<P>, buf: Buffer)
    requires m.Init?
    modifies buf
    ensures buf.bytes == old(buf.bytes) + Encode(codec, m)
  {
    buf.PutAll(InitHead(m));
    match m.initData {
      case Some(bytes) => PutData(bytes, buf);
      case None =>
    }
    assert buf.bytes == old(buf.bytes) + PutFields(InitHead(m)) + DataOf(m.initData);
    buf.PutAll([LengthField(|m.nodes|, 4)]);
    PutNodes(codec, m.nodes, buf);
    assert buf.bytes == old(buf.bytes) + (PutFields(InitHead(m)) + DataOf(m.initData)
                        + (PutFields([LengthField(|m.nodes|, 4)]) + PutMany(codec.put, m.nodes)));
  }

  method PutData(data: seq<byte>, buf: Buffer)
    modifies buf
    ensures buf.bytes == old(buf.bytes) + data
  {
    for i := 0 to |data|
      invariant buf.bytes == old(buf.bytes) + data[..i]
    {
      OneByte(data[i]);
      buf.Put(data[i], 1);
    }
  }

  method PutNodes<P(!new)>(codec: PathCodec<P>, nodes: seq<P>, buf: Buffer)
    modifies buf
    ensures buf.bytes == old(buf.bytes) + PutMany(codec.put, nodes)
  {
    for i := 0 to |nodes|
      invariant buf.bytes == old(buf.bytes) + PutMany(codec.put, nodes[..i])
    {
      assert nodes[..i + 1][..i] == nodes[..i];
      buf.bytes := buf.bytes + codec.put(nodes[i]);
    }
    assert nodes[..|nodes|] == nodes;
  }

  method PutLog(timestamps: Trace, buf: Buffer) returns (panicked: bool)
    modifies buf
    ensures panicked <==> exists t | t in timestamps :: !CanWrite(t)
    ensures !panicked ==> buf.bytes == old(buf.bytes) + PutMany(EntryWriter, timestamps)
  {
    for i := 0 to |timestamps|
      invariant buf.bytes == old(buf.bytes) + PutMany(EntryWriter, timestamps[..i])
      invariant forall j | 0 <= j < i :: CanWrite(timestamps[j])
    {
      if !CanWrite(timestamps[i]) {
        return true;
      }
      assert timestamps[..i + 1][..i] == timestamps[..i];
      buf.PutAll(EntryFields(timestamps[i]));
    }
    assert timestamps[..|timestamps|] == timestamps;
    panicked := false;
  }

  /** Reads one message from the front of the buffer; `None` is the reader's error. */
  method Deserialise<P(!new)>(codec: PathCodec<P>, buf: Buffer) returns (m: Option<PartitioningMsg<P>>, panicked: bool)
    modifies buf
    ensures panicked <==> Decode(codec, old(buf.bytes)).Panicked?
    ensures !panicked ==> (m.None? <==> Decode(codec, old(buf.bytes)).Invalid?)
    ensures !panicked && m.Some? ==> Decode(codec, old(buf.bytes)) == Parsed(m.value, buf.bytes)
  {
    m, panicked := None, false;
    var id, n;
    id, panicked := buf.Get(1);
    if panicked {
      return;
    }
    if id == InitId {
      m, panicked := DeserialiseInit(codec, buf);
    } else if id == InitAckId {
      n, panicked := buf.Get(4);
      m := Some(InitAck(n));
    } else if id == RunId {
      m := Some(Run);
    } else if id == DoneId {
      m := Some(Done);
    } else if id == TestDoneId {
      n, panicked := buf.Get(4);
      if !panicked {
        var timestamps;
        timestamps, panicked := GetLog(n, buf);
        m := Some(TestDone(timestamps));
      }
    } else if id == StopId {
      m := Some(Stop);
    } else if id == StopAckId {
      m := Some(StopAck);
    }
  }

  method DeserialiseInit<P(!new)>(codec: PathCodec<P>, buf: Buffer) returns (m: Option<PartitioningMsg<P>>, panicked: bool)
    modifies buf
    ensures panicked <==> DecodeBody(codec, InitId, old(buf.bytes)).Panicked?
    ensures !panicked ==> (m.None? <==> DecodeBody(codec, InitId, old(buf.bytes)).Invalid?)
    ensures !panicked && m.Some? ==> DecodeBody(codec, InitId, old(buf.bytes)) == Parsed(m.value, buf.bytes)
  {
    m := None;
    var f, data, n, nodes;
    f, panicked := buf.GetAll([4, 4, 8]);
    if panicked {
      return;
    }
    data, panicked := GetData(f[2], buf);
    if panicked {
      return;
    }
    n, panicked := buf.Get(4);
    if panicked {
      return;
    }
    nodes, panicked := GetNodes(codec, n, buf);
    if !panicked && nodes.Some? {
      m := Some(Init(f[0], f[1], if f[2] == 0 then None else Some(data), nodes.value));
    }
  }

  method GetData(count: nat, buf: Buffer) returns (data: seq<byte>, panicked: bool)
    modifies buf
    ensures panicked <==> GetBytes(old(buf.bytes), count).Panicked?
    ensures !panicked ==> GetBytes(old(buf.bytes), count) == Parsed(data, buf.bytes)
  {
    data := [];
    for i := 0 to count
      invariant |data| == i && old(buf.bytes) == data + buf.bytes
    {
      if buf.bytes == [] {
        return data, true;
      }
      data := data + [buf.bytes[0]];
      buf.bytes := buf.bytes[1..];
    }
    panicked := false;
  }

  method GetNodes<P(!new)>(codec: PathCodec<P>, count: nat, buf: Buffer) returns (nodes: Option<seq<P>>, panicked: bool)
    modifies buf
    ensures panicked <==> GetMany(codec.get, old(buf.bytes), count).Panicked?
    ensures !panicked ==> (nodes.None? <==> GetMany(codec.get, old(buf.bytes), count).Invalid?)
    ensures !panicked && nodes.Some? ==> GetMany(codec.get, old(buf.bytes), count) == Parsed(nodes.value, buf.bytes)
  {
    var read: seq<P> := [];
    for i := 0 to count
      invariant GetMany(codec.get, old(buf.bytes), i) == Parsed(read, buf.bytes)
    {
      match codec.get(buf.bytes) {
        case Parsed(node, rest) =>
          read := read + [node];
          buf.bytes := rest;
        case Invalid =>
          FailureStays(codec.get, old(buf.bytes), i + 1, count);
          return None, false;
        case Panicked =>
          FailureStays(codec.get, old(buf.bytes), i + 1, count);
          return None, true;
      }
    }
    nodes, panicked := Some(read), false;
  }

  lemma LogFails(b: seq<byte>, count: nat, total: nat, ts: Trace, mid: seq<byte>)
    requires count < total && GetMany(EntryReader, b, count) == Parsed(ts, mid) && EntryReader(mid).Panicked?
    ensures GetMany(EntryReader, b, total).Panicked?
  {
    OneMore(EntryReader, b, count, ts, mid);
    FailureStays(EntryReader, b, count + 1, total);
  }

  lemma LogGoesOn(b: seq<byte>, count: nat, ts: Trace, mid: seq<byte>, t: KVTimestamp, rest: seq<byte>)
    requires GetMany(EntryReader, b, count) == Parsed(ts, mid) && EntryReader(mid) == Parsed(t, rest)
    ensures GetMany(EntryReader, b, count + 1) == Parsed(ts + [t], rest)
  {
    OneMore(EntryReader, b, count, ts, mid);
  }

  method GetLog(count: nat, buf: Buffer) returns (timestamps: Trace, panicked: bool)
    modifies buf
    ensures !GetMany(EntryReader, old(buf.bytes), count).Invalid?
    ensures panicked <==> GetMany(EntryReader, old(buf.bytes), count).Panicked?
    ensures !panicked ==> GetMany(EntryReader, old(buf.bytes), count) == Parsed(timestamps, buf.bytes)
  {
    timestamps := [];
    for i := 0 to count
      invariant GetMany(EntryReader, old(buf.bytes), i) == Parsed(timestamps, buf.bytes)
    {
      ghost var mid := buf.bytes;
      var t, failed := ReadEntry(buf);
      if failed {
        LogFails(old(buf.bytes), i, count, timestamps, mid);
        return timestamps, true;
      }
      LogGoesOn(old(buf.bytes), i, timestamps, mid, t, buf.bytes);
      timestamps := timestamps + [t];
    }
    panicked := false;
  }

  method ReadEntry(buf: Buffer) returns (t: KVTimestamp, panicked: bool)
    modifies buf
    ensures !EntryReader(old(buf.bytes)).Invalid?
    ensures panicked <==> EntryReader(old(buf.bytes)).Panicked?
    ensures !panicked ==> EntryReader(old(buf.bytes)) == Parsed(t, buf.bytes)
  {
    t := KVTimestamp(0, ReadInvokation, None, 0, 0);
    var head, f;
    head, panicked := buf.GetAll([8, 1]);
    if panicked {
      return;
    }
    var key, op := head[0], head[1];
    if op == ReadInv {
      f, panicked := buf.GetAll([8, 4]);
      if !panicked {
        t := KVTimestamp(key, ReadInvokation, None, Signed64(f[0]), f[1]);
      }
    } else if op == ReadResp || op == WriteInv || op == WriteResp {
      f, panicked := buf.GetAll([4, 8, 4]);
      if !panicked {
        var operation := if op == ReadResp then ReadResponse else if op == WriteInv then WriteInvokation else WriteResponse;
        t := KVTimestamp(key, operation, Some(f[0]), Signed64(f[1]), f[2]);
      }
    } else {
      panicked := true;
    }
  }
}
