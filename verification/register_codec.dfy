/** The wire format of the register's messages (atomicregister.rs, `AtomicRegisterSer`). */
module RegisterCodec {
  import opened Bytes
  import opened Collections
  import opened RegisterNode

  const ReadId: byte := 1
  const WriteId: byte := 2
  const ValueId: byte := 3
  const AckId: byte := 4

  /** The identifier and the fields of a message, in the order in which they are written. */
  function FieldsOf(m: Msg): seq<Field>
    requires m.Read? || m.Value? || m.Write? || m.Ack?
  {
    match m
    case Read(runId, key, rid) => [Field(ReadId, 1), Field(runId, 4), Field(key, 8), Field(rid, 4)]
    case Value(runId, key, rid, ts, wr, value, senderRank) =>
      [Field(ValueId, 1), Field(runId, 4), Field(key, 8), Field(rid, 4), Field(ts, 4), Field(wr, 4), Field(value, 4), Field(senderRank, 4)]
    case Write(runId, key, rid, ts, wr, value) =>
      [Field(WriteId, 1), Field(runId, 4), Field(key, 8), Field(rid, 4), Field(ts, 4), Field(wr, 4), Field(value, 4)]
    case Ack(runId, key, rid) => [Field(AckId, 1), Field(runId, 4), Field(key, 8), Field(rid, 4)]
  }

  /** Every field is in the range of its type. */
  predicate IsTyped(m: Msg) {
    (m.Read? || m.Value? || m.Write? || m.Ack?) && forall f | f in FieldsOf(m) :: f.Fits()
  }

  function Decode(b: seq<byte>): Parsed<Msg> {
    GetInt(b, 1).Then((id, rest) => DecodeBody(id, rest))
  }

  function DecodeBody(id: nat, b: seq<byte>): Parsed<Msg> {
    if id == ReadId then
      GetFields(b, [4, 8, 4]).Then((f: seq<nat>, rest) requires |f| == 3 => Parsed(Read(f[0], f[1], f[2]), rest))
    else if id == ValueId then
      GetFields(b, [4, 8, 4, 4, 4, 4, 4]).Then((f: seq<nat>, rest) requires |f| == 7 =>
        Parsed(Value(f[0], f[1], f[2], f[3], f[4], f[5], f[6]), rest))
    else if id == WriteId then
      GetFields(b, [4, 8, 4, 4, 4, 4]).Then((f: seq<nat>, rest) requires |f| == 6 =>
        Parsed(Write(f[0], f[1], f[2], f[3], f[4], f[5]), rest))
    else if id == AckId then
      GetFields(b, [4, 8, 4]).Then((f: seq<nat>, rest) requires |f| == 3 => Parsed(Ack(f[0], f[1], f[2]), rest))
    else Invalid
  }

  /** A message read back from the front of a buffer is the one written, and leaves what follows it. */
  lemma RoundTrip(m: Msg, rest: seq<byte>)
    requires IsTyped(m)
    ensures Decode(PutFields(FieldsOf(m)) + rest) == Parsed(m, rest)
  {
    var fields := FieldsOf(m);
    FieldsInvert(fields[1..], rest);
    assert fields[0].Fits();
    GetIntInverts(fields[0].value, 1, PutFields(fields[1..]) + rest);
    assert PutFields(fields) + rest == BigEndian(fields[0].value, 1) + (PutFields(fields[1..]) + rest);
    var tail := fields[1..];
    assert WidthsOf(tail) == if |tail| == 3 then [4, 8, 4] else if |tail| == 7 then [4, 8, 4, 4, 4, 4, 4] else [4, 8, 4, 4, 4, 4];
  }

  // The layout, byte by byte.

  /** The bytes of a message: its identifier, then its fields at fixed places. */
  predicate IsLayoutOf(b: seq<byte>, m: Msg)
    requires m.Read? || m.Value? || m.Write? || m.Ack?
  {
    && |b| == (if m.Value? then 33 else if m.Write? then 29 else 17)
    && b[0] == (if m.Read? then 1 else if m.Write? then 2 else if m.Value? then 3 else 4)
    && IsNumberAt(b, 1, 4, m.runId) && IsNumberAt(b, 5, 8, m.key) && IsNumberAt(b, 13, 4, m.rid)
    && (m.Write? || m.Value? ==> IsNumberAt(b, 17, 4, m.ts) && IsNumberAt(b, 21, 4, m.wr) && IsNumberAt(b, 25, 4, m.value))
    && (m.Value? ==> IsNumberAt(b, 29, 4, m.senderRank))
  }

  /** The fields that all messages have. */
  lemma HeadLayout(m: Msg)
    requires m.Read? || m.Value? || m.Write? || m.Ack?
    ensures var fields := FieldsOf(m); var b := PutFields(fields);
            && |fields| >= 4 && Offset(fields, 4) == 17 && |b| == Offset(fields, |fields|) && IsNumberAt(b, 0, 1, fields[0].value) == true
            && IsNumberAt(b, 1, 4, m.runId) == true && IsNumberAt(b, 5, 8, m.key) == true && IsNumberAt(b, 13, 4, m.rid) == true
  {
    var fields := FieldsOf(m);
    AllFields(fields);
    FieldAt(fields, 0, 0);
    FieldAt(fields, 1, 1);
    FieldAt(fields, 2, 5);
    FieldAt(fields, 3, 13);
  }

  lemma Layout(m: Msg)
    requires m.Read? || m.Value? || m.Write? || m.Ack?
    ensures IsLayoutOf(PutFields(FieldsOf(m)), m) == true
  {
    var fields := FieldsOf(m);
    HeadLayout(m);
    ByteAt(PutFields(fields), 0, fields[0].value);
    if m.Write? || m.Value? {
      FieldAt(fields, 4, 17);
      FieldAt(fields, 5, 21);
      FieldAt(fields, 6, 25);
    }
    if m.Value? {
      FieldAt(fields, 7, 29);
    }
  }

  lemma TotalWidths()
    ensures TotalWidth([4, 8, 4]) == 16 && TotalWidth([4, 8, 4, 4, 4, 4]) == 28 && TotalWidth([4, 8, 4, 4, 4, 4, 4]) == 32
  {
    assert TotalWidth([4]) == 4 && TotalWidth([4, 4]) == 8 && TotalWidth([4, 4, 4]) == 12 && TotalWidth([4, 4, 4, 4]) == 16;
  }

  /** The first byte decides what is read: four identifiers are known, and a buffer too short for the message is a panic. */
  lemma ReaderOutcome(b: seq<byte>)
    ensures Decode(b).Invalid? <==> b != [] && b[0] !in {1, 2, 3, 4}
    ensures Decode(b).Panicked? <==>
              b == [] || (b[0] in {1, 2, 3, 4} && |b| < if b[0] == 2 then 29 else if b[0] == 3 then 33 else 17)
  {
    if b != [] {
      assert b[..1][..0] == [];
      assert FromBigEndian(b[..1]) == b[0];
      TotalWidths();
      ShortBufferPanics(b[1..], [4, 8, 4]);
      ShortBufferPanics(b[1..], [4, 8, 4, 4, 4, 4]);
      ShortBufferPanics(b[1..], [4, 8, 4, 4, 4, 4, 4]);
    }
  }

  method Serialise(m: Msg, buf: Buffer)
    requires m.Read? || m.Value? || m.Write? || m.Ack?
    modifies buf
    ensures buf.bytes == old(buf.bytes) + PutFields(FieldsOf(m))
    ensures IsLayoutOf(buf.bytes[|old(buf.bytes)|..], m)
  {
    Layout(m);
    buf.PutAll(FieldsOf(m));
  }

  /** Reads one message from the front of the buffer; `None` for an unknown identifier. */
  method Deserialise(buf: Buffer) returns (m: Option<Msg>, panicked: bool)
    modifies buf
    ensures panicked <==> Decode(old(buf.bytes)).Panicked?
    ensures !panicked ==> (m.None? <==> Decode(old(buf.bytes)).Invalid?)
    ensures !panicked && m.Some? ==> Decode(old(buf.bytes)) == Parsed(m.value, buf.bytes)
  {
    m, panicked := None, false;
    var id, f;
    id, panicked := buf.Get(1);
    if panicked {
      return;
    }
    if id == ReadId {
      f, panicked := buf.GetAll([4, 8, 4]);
      if !panicked {
        m := Some(Read(f[0], f[1], f[2]));
      }
    } else if id == ValueId {
      f, panicked := buf.GetAll([4, 8, 4, 4, 4, 4, 4]);
      if !panicked {
        m := Some(Value(f[0], f[1], f[2], f[3], f[4], f[5], f[6]));
      }
    } else if id == WriteId {
      f, panicked := buf.GetAll([4, 8, 4, 4, 4, 4]);
      if !panicked {
        m := Some(Write(f[0], f[1], f[2], f[3], f[4], f[5]));
      }
    } else if id == AckId {
      f, panicked := buf.GetAll([4, 8, 4]);
      if !panicked {
        m := Some(Ack(f[0], f[1], f[2]));
      }
    }
  }
}
