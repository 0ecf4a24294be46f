/** Buffers of bytes, with big-endian integers of fixed width. */
module Bytes {
  import opened Collections
  import opened Arithmetic

  type byte = b: int | 0 <= b < 256

  /** What reading a value gives: the value and what is left, an error, or a panic of the reader. */
  datatype Parsed<+T> = Parsed(value: T, rest: seq<byte>) | Invalid | Panicked {

    /** Goes on reading what is left. */
    function Then<U>(next: (T, seq<byte>) --> Parsed<U>): Parsed<U>
      requires Parsed? ==> next.requires(value, rest)
    {
      match this
      case Parsed(v, r) => next(v, r)
      case Invalid => Invalid
      case Panicked => Panicked
    }
  }

  // Integers.

  function Power256(width: nat): (p: nat)
    ensures p > 0
  {
    if width == 0 then 1 else 256 * Power256(width - 1)
  }

  lemma Widths()
    ensures Power256(4) == 0x1_0000_0000 && Power256(8) == 0x1_0000_0000_0000_0000
  {
    assert Power256(4) == 256 * (256 * (256 * (256 * Power256(0))));
    assert Power256(8) == 256 * (256 * (256 * (256 * Power256(4))));
  }

  /** The last `width` bytes of `n`, the most significant first. */
  function BigEndian(n: nat, width: nat): (s: seq<byte>)
    ensures |s| == width
  {
    if width == 0 then [] else BigEndian(n / 256, width - 1) + [n % 256]
  }

  lemma DivideTwice(n: nat, a: nat, b: nat)
    requires a > 0 && b > 0
    ensures a * b > 0 && n / a / b == n / (a * b)
  {
    var q, r, rest := n / a / b, n / a % b, n % a;
    assert n / a == q * b + r && n == (n / a) * a + rest;
    assert n == q * (a * b) + (r * a + rest);
    MultipleGap(b, r, a);
    DivModOf(q, a * b, r * a + rest);
  }

  /** Every byte is the digit of its place in base 256. */
  lemma {:induction false} BigEndianDigits(n: nat, width: nat, i: nat)
    requires i < width
    ensures BigEndian(n, width)[i] == n / Power256(width - 1 - i) % 256
  {
    if i < width - 1 {
      BigEndianDigits(n / 256, width - 1, i);
      DivideTwice(n, 256, Power256(width - 2 - i));
    }
  }

  /** The bytes are the digits of `n` in base 256, the most significant first. */
  predicate IsNumber(s: seq<byte>, n: nat) {
    forall i | 0 <= i < |s| :: s[i] == n / Power256(|s| - 1 - i) % 256
  }

  predicate IsNumberAt(b: seq<byte>, at: nat, width: nat, n: nat) {
    at + width <= |b| && IsNumber(b[at..at + width], n)
  }

  lemma WrittenNumber(n: nat, width: nat)
    ensures IsNumber(BigEndian(n, width), n)
  {
    forall i | 0 <= i < width ensures BigEndian(n, width)[i] == n / Power256(width - 1 - i) % 256 {
      BigEndianDigits(n, width, i);
    }
  }

  lemma ByteAt(b: seq<byte>, at: nat, n: nat)
    requires IsNumberAt(b, at, 1, n) == true && n < 256
    ensures at < |b| && b[at] == n
  {
    assert b[at..at + 1][0] == n / Power256(0) % 256;
    assert n / 1 % 256 == n;
  }

  function FromBigEndian(s: seq<byte>): nat {
    if s == [] then 0 else 256 * FromBigEndian(s[..|s| - 1]) + s[|s| - 1]
  }

  lemma {:induction false} BigEndianInverts(n: nat, width: nat)
    requires n < Power256(width)
    ensures FromBigEndian(BigEndian(n, width)) == n
  {
    if width > 0 {
      BigEndianInverts(n / 256, width - 1);
      var s := BigEndian(n, width);
      assert s[..|s| - 1] == BigEndian(n / 256, width - 1);
    }
  }

  function GetInt(b: seq<byte>, width: nat): (p: Parsed<nat>)
    ensures !p.Invalid?
  {
    if |b| < width then Panicked else Parsed(FromBigEndian(b[..width]), b[width..])
  }

  lemma GetIntInverts(n: nat, width: nat, rest: seq<byte>)
    requires n < Power256(width)
    ensures GetInt(BigEndian(n, width) + rest, width) == Parsed(n, rest)
  {
    BigEndianInverts(n, width);
    assert (BigEndian(n, width) + rest)[..width] == BigEndian(n, width);
    assert (BigEndian(n, width) + rest)[width..] == rest;
  }

  /** A signed 64-bit integer in two's complement. */
  function Unsigned64(t: int): (n: nat)
    requires -0x8000_0000_0000_0000 <= t < 0x8000_0000_0000_0000
    ensures n < 0x1_0000_0000_0000_0000
  {
    if t < 0 then t + 0x1_0000_0000_0000_0000 else t
  }

  function Signed64(n: nat): int {
    if n >= 0x8000_0000_0000_0000 then n - 0x1_0000_0000_0000_0000 else n
  }

  // Sequences of fields and of items.

  /** A field of a message: its value and its width in bytes. */
  datatype Field = Field(value: nat, width: nat) {
    predicate Fits() {
      value < Power256(width)
    }
  }

  function PutFields(fields: seq<Field>): seq<byte> {
    if fields == [] then [] else BigEndian(fields[0].value, fields[0].width) + PutFields(fields[1..])
  }

  /** Where the `k`-th field starts. */
  function Offset(fields: seq<Field>, k: nat): nat
    requires k <= |fields|
  {
    if k == 0 then 0 else Offset(fields, k - 1) + fields[k - 1].width
  }

  lemma {:induction false} OffsetOfRest(f: Field, rest: seq<Field>, k: nat)
    requires k <= |rest|
    ensures Offset([f] + rest, k + 1) == f.width + Offset(rest, k)
  {
    if k > 0 {
      OffsetOfRest(f, rest, k - 1);
    }
  }

  lemma {:induction false} FieldsBefore(fields: seq<Field>, k: nat)
    requires k <= |fields|
    ensures |PutFields(fields[..k])| == Offset(fields, k)
    ensures PutFields(fields) == PutFields(fields[..k]) + PutFields(fields[k..])
  {
    if k == 0 {
      assert fields[0..] == fields;
    } else {
      var f, rest := fields[0], fields[1..];
      FieldsBefore(rest, k - 1);
      assert fields[..k][1..] == rest[..k - 1] && rest[k - 1..] == fields[k..];
      assert fields == [f] + rest;
      OffsetOfRest(f, rest, k - 1);
    }
  }

  lemma NumberInside(front: seq<byte>, n: nat, width: nat, back: seq<byte>)
    ensures IsNumberAt(front + (BigEndian(n, width) + back), |front|, width, n)
  {
    var all := front + (BigEndian(n, width) + back);
    assert all[|front|..|front| + width] == BigEndian(n, width);
    WrittenNumber(n, width);
  }

  /** Every field is found at its offset. */
  lemma FieldIsAtOffset(fields: seq<Field>, k: nat)
    requires k < |fields|
    ensures IsNumberAt(PutFields(fields), Offset(fields, k), fields[k].width, fields[k].value) == true
  {
    FieldsBefore(fields, k);
    NumberInside(PutFields(fields[..k]), fields[k].value, fields[k].width, PutFields(fields[k..][1..]));
  }

  lemma FieldAt(fields: seq<Field>, k: nat, at: nat)
    requires k < |fields| && Offset(fields, k) == at
    ensures IsNumberAt(PutFields(fields), at, fields[k].width, fields[k].value) == true
    ensures Offset(fields, k + 1) == at + fields[k].width
  {
    FieldIsAtOffset(fields, k);
  }

  lemma AllFields(fields: seq<Field>)
    ensures |PutFields(fields)| == Offset(fields, |fields|)
  {
    FieldsBefore(fields, |fields|);
    assert fields[..|fields|] == fields;
  }

  function GetFields(b: seq<byte>, widths: seq<nat>): (p: Parsed<seq<nat>>)
    ensures p.Parsed? ==> |p.value| == |widths|
    ensures !p.Invalid?
  {
    if widths == [] then Parsed([], b)
    else match GetInt(b, widths[0])
      case Panicked => Panicked
      case Parsed(n, rest) => Before([n], GetFields(rest, widths[1..]))
  }

  function TotalWidth(widths: seq<nat>): nat {
    if widths == [] then 0 else widths[0] + TotalWidth(widths[1..])
  }

  /** Reading fields panics exactly when the buffer is too short for all of them. */
  lemma {:induction false} ShortBufferPanics(b: seq<byte>, widths: seq<nat>)
    ensures GetFields(b, widths).Panicked? <==> |b| < TotalWidth(widths)
  {
    if widths != [] && |b| >= widths[0] {
      ShortBufferPanics(b[widths[0]..], widths[1..]);
    }
  }

  lemma {:induction false} RestOfFields(b: seq<byte>, widths: seq<nat>)
    requires |b| >= TotalWidth(widths)
    ensures GetFields(b, widths).Parsed? && GetFields(b, widths).rest == b[TotalWidth(widths)..]
  {
    if widths != [] {
      RestOfFields(b[widths[0]..], widths[1..]);
      assert b[widths[0]..][TotalWidth(widths[1..])..] == b[TotalWidth(widths)..];
    }
  }

  /** More values in front of those read. */
  function Before(ns: seq<nat>, p: Parsed<seq<nat>>): Parsed<seq<nat>> {
    if p.Parsed? then Parsed(ns + p.value, p.rest) else p
  }

  lemma BeforeTwice(a: seq<nat>, b: seq<nat>, p: Parsed<seq<nat>>)
    ensures Before(a, Before(b, p)) == Before(a + b, p) && Before([], p) == p
  {
    if p.Parsed? {
      assert a + (b + p.value) == a + b + p.value;
      assert [] + p.value == p.value;
    }
  }

  function WidthsOf(fields: seq<Field>): seq<nat> {
    seq(|fields|, i requires 0 <= i < |fields| => fields[i].width)
  }

  function ValuesOf(fields: seq<Field>): seq<nat> {
    seq(|fields|, i requires 0 <= i < |fields| => fields[i].value)
  }

  lemma FirstFieldInverts(f: Field, fields: seq<Field>, rest: seq<byte>)
    requires f.Fits()
    ensures PutFields([f] + fields) == BigEndian(f.value, f.width) + PutFields(fields)
    ensures GetInt(PutFields([f] + fields) + rest, f.width) == Parsed(f.value, PutFields(fields) + rest)
  {
    assert ([f] + fields)[1..] == fields;
    GetIntInverts(f.value, f.width, PutFields(fields) + rest);
    assert PutFields([f] + fields) + rest == BigEndian(f.value, f.width) + (PutFields(fields) + rest);
  }

  lemma GetFirst(b: seq<byte>, width: nat, widths: seq<nat>, n: nat, mid: seq<byte>)
    requires GetInt(b, width) == Parsed(n, mid)
    ensures GetFields(b, [width] + widths) == Before([n], GetFields(mid, widths))
  {
    assert ([width] + widths)[1..] == widths;
  }

  lemma FirstOf(fields: seq<Field>)
    requires fields != []
    ensures fields == [fields[0]] + fields[1..]
    ensures WidthsOf(fields) == [fields[0].width] + WidthsOf(fields[1..])
    ensures ValuesOf(fields) == [fields[0].value] + ValuesOf(fields[1..])
  {
  }

  /** Fields of fixed width, written one after the other, are read back, and what follows is left. */
  lemma {:induction false} FieldsInvert(fields: seq<Field>, rest: seq<byte>)
    requires forall f | f in fields :: f.Fits()
    ensures GetFields(PutFields(fields) + rest, WidthsOf(fields)) == Parsed(ValuesOf(fields), rest)
  {
    if fields == [] {
      assert PutFields(fields) + rest == rest;
      assert ValuesOf(fields) == [];
    } else {
      var f, tail := fields[0], fields[1..];
      FieldsInvert(tail, rest);
      FirstOf(fields);
      FirstFieldInverts(f, tail, rest);
      GetFirst(PutFields(fields) + rest, f.width, WidthsOf(tail), f.value, PutFields(tail) + rest);
    }
  }

  function PutMany<T>(put: T -> seq<byte>, items: seq<T>): seq<byte> {
    if items == [] then [] else PutMany(put, items[..|items| - 1]) + put(items[|items| - 1])
  }

  function GetMany<T>(get: seq<byte> -> Parsed<T>, b: seq<byte>, count: nat): Parsed<seq<T>> {
    if count == 0 then Parsed([], b)
    else GetMany(get, b, count - 1).Then((items: seq<T>, rest) => After(items, get(rest)))
  }

  /** One more item behind those read. */
  function After<T>(items: seq<T>, p: Parsed<T>): Parsed<seq<T>> {
    match p
    case Parsed(item, rest) => Parsed(items + [item], rest)
    case Invalid => Invalid
    case Panicked => Panicked
  }

  lemma OneMore<T>(get: seq<byte> -> Parsed<T>, b: seq<byte>, count: nat, items: seq<T>, mid: seq<byte>)
    requires GetMany(get, b, count) == Parsed(items, mid)
    ensures GetMany(get, b, count + 1) == After(items, get(mid))
  {
  }

  /** A loop that fails stays failed. */
  lemma {:induction false} FailureStays<T>(get: seq<byte> -> Parsed<T>, b: seq<byte>, count: nat, total: nat)
    requires count <= total && !GetMany(get, b, count).Parsed?
    ensures GetMany(get, b, total) == GetMany(get, b, count)
  {
    if count < total {
      FailureStays(get, b, count, total - 1);
    }
  }

  function Mapped<T, U>(f: T -> U, items: seq<T>): seq<U> {
    seq(|items|, i requires 0 <= i < |items| => f(items[i]))
  }

  /** Reading back what was written, item by item; `seen` is how the reader returns an item. */
  lemma {:induction false} ManyInvert<T, U>(put: T -> seq<byte>, get: seq<byte> -> Parsed<U>, seen: T -> U, items: seq<T>, rest: seq<byte>)
    requires forall t, r | t in items :: get(put(t) + r) == Parsed(seen(t), r)
    ensures GetMany(get, PutMany(put, items) + rest, |items|)
            == Parsed(Mapped(seen, items), rest)
  {
    if items != [] {
      var front, last := items[..|items| - 1], items[|items| - 1];
      ManyInvert(put, get, seen, front, put(last) + rest);
      assert PutMany(put, items) + rest == PutMany(put, front) + (put(last) + rest);
      assert Mapped(seen, items) == Mapped(seen, front) + [seen(last)];
    } else {
      assert PutMany(put, items) + rest == rest;
      assert Mapped(seen, items) == [];
    }
  }

  // The buffer.

  class Buffer {
    var bytes: seq<byte>

    constructor (bytes: seq<byte>)
      ensures this.bytes == bytes
    {
      this.bytes := bytes;
    }

    method Put(n: nat, width: nat)
      modifies this
      ensures bytes == old(bytes) + BigEndian(n, width)
    {
      bytes := bytes + BigEndian(n, width);
    }

    /** Taking more bytes than there are is a panic. */
    method Get(width: nat) returns (n: nat, panicked: bool)
      modifies this
      ensures panicked <==> GetInt(old(bytes), width).Panicked?
      ensures !panicked ==> GetInt(old(bytes), width) == Parsed(n, bytes)
    {
      if |bytes| < width {
        return 0, true;
      }
      n, panicked := FromBigEndian(bytes[..width]), false;
      bytes := bytes[width..];
    }

    /** Fields one after the other. */
    method PutAll(fields: seq<Field>)
      modifies this
      ensures bytes == old(bytes) + PutFields(fields)
    {
      for i := 0 to |fields|
        invariant bytes + PutFields(fields[i..]) == old(bytes) + PutFields(fields)
      {
        assert fields[i..][1..] == fields[i + 1..];
        Put(fields[i].value, fields[i].width);
      }
    }

    method GetAll(widths: seq<nat>) returns (values: seq<nat>, panicked: bool)
      modifies this
      ensures panicked <==> GetFields(old(bytes), widths).Panicked?
      ensures !panicked ==> GetFields(old(bytes), widths) == Parsed(values, bytes)
    {
      values := [];
      BeforeTwice([], [], GetFields(bytes, widths));
      assert widths[0..] == widths;
      for i := 0 to |widths|
        invariant |values| == i
        invariant GetFields(old(bytes), widths) == Before(values, GetFields(bytes, widths[i..]))
      {
        assert widths[i..][1..] == widths[i + 1..];
        var n, failed := Get(widths[i]);
        if failed {
          return values, true;
        }
        BeforeTwice(values, [n], GetFields(bytes, widths[i + 1..]));
        values := values + [n];
      }
      assert values + [] == values;
      panicked := false;
    }
  }
}
