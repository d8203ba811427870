/**
 The MessagePack encoder and the action-hash preimage
 (internal/hyperliquid/signing/msgpack.go, action_hash.go).

 `Decode` is written from the section "Formats" of the MessagePack specification, for the formats that
 carry nil, booleans, integers, strings, arrays and maps. It accepts every width a value may be written in.
 */
module Msgpack {
  import opened Wrappers

  newtype byte = x: int | 0 <= x < 256

  /** Unsupported stands for any Go type the encoder refuses. Strings are their UTF-8 bytes. */
  datatype Value =
    | Nil
    | Bool(b: bool)
    | Int(i: int)
    | Str(text: seq<byte>)
    | Arr(items: seq<Value>)
    | Obj(fields: seq<Field>)
    | Unsupported

  datatype Field = Field(key: seq<byte>, value: Value)

  const TWO_32: int := 0x1_0000_0000
  const TWO_64: int := 0x1_0000_0000_0000_0000

  // ---------------------------------------------------------------- big-endian integers

  function Pow256(w: nat): nat
    ensures Pow256(w) > 0
  {
    if w == 0 then 1 else 256 * Pow256(w - 1)
  }

  function BigEndian(n: nat, w: nat): (bytes: seq<byte>)
    ensures |bytes| == w
  {
    if w == 0 then [] else BigEndian(n / 256, w - 1) + [(n % 256) as byte]
  }

  function FromBigEndian(bytes: seq<byte>): nat {
    if bytes == [] then 0
    else FromBigEndian(bytes[..|bytes| - 1]) * 256 + bytes[|bytes| - 1] as nat
  }

  lemma {:induction false} BigEndianRoundTrip(n: nat, w: nat)
    requires n < Pow256(w)
    ensures FromBigEndian(BigEndian(n, w)) == n
  {
    if w > 0 {
      BigEndianRoundTrip(n / 256, w - 1);
      assert BigEndian(n, w)[..w - 1] == BigEndian(n / 256, w - 1);
    }
  }

  lemma {:induction false} FromBigEndianBound(bytes: seq<byte>)
    ensures FromBigEndian(bytes) < Pow256(|bytes|)
  {
    if bytes != [] {
      FromBigEndianBound(bytes[..|bytes| - 1]);
    }
  }

  /** Every sequence of bytes is the big-endian form of what it reads as. */
  lemma {:induction false} BytesRoundTrip(bytes: seq<byte>)
    ensures BigEndian(FromBigEndian(bytes), |bytes|) == bytes
  {
    if bytes != [] {
      BytesRoundTrip(bytes[..|bytes| - 1]);
    }
  }

  lemma Widths()
    ensures Pow256(1) == 0x100 && Pow256(2) == 0x1_0000 && Pow256(4) == TWO_32 && Pow256(8) == TWO_64
  {
    assert Pow256(3) == 0x100_0000;
    assert Pow256(5) == 0x100_0000_0000 && Pow256(6) == 0x1_0000_0000_0000;
    assert Pow256(7) == 0x100_0000_0000_0000;
  }

  // ---------------------------------------------------------------- what the encoder writes

  function UintBytes(n: nat): seq<byte> {
    if n <= 0x7f then [n as byte]
    else if n <= 0xff then [0xcc] + BigEndian(n, 1)
    else if n <= 0xffff then [0xcd] + BigEndian(n, 2)
    else if n < TWO_32 then [0xce] + BigEndian(n, 4)
    else [0xcf] + BigEndian(n, 8)
  }

  /** Negative integers are written in two's complement at the chosen width. */
  function IntBytes(i: int): seq<byte>
    requires -0x8000_0000_0000_0000 <= i
  {
    if 0 <= i then UintBytes(i)
    else if -32 <= i then [(i + 0x100) as byte]
    else if -0x80 <= i then [0xd0] + BigEndian(i + 0x100, 1)
    else if -0x8000 <= i then [0xd1] + BigEndian(i + 0x1_0000, 2)
    else if -0x8000_0000 <= i then [0xd2] + BigEndian(i + TWO_32, 4)
    else [0xd3] + BigEndian(i + TWO_64, 8)
  }

  /** A length that does not fit in 32 bits is truncated, as the conversion to uint32 does. */
  function StrHeader(n: nat): seq<byte> {
    if n <= 31 then [(0xa0 + n) as byte]
    else if n <= 0xff then [0xd9] + BigEndian(n, 1)
    else if n <= 0xffff then [0xda] + BigEndian(n, 2)
    else [0xdb] + BigEndian(n % TWO_32, 4)
  }

  function ArrHeader(n: nat): seq<byte> {
    if n <= 15 then [(0x90 + n) as byte]
    else if n <= 0xffff then [0xdc] + BigEndian(n, 2)
    else [0xdd] + BigEndian(n % TWO_32, 4)
  }

  function ObjHeader(n: nat): seq<byte> {
    if n <= 15 then [(0x80 + n) as byte]
    else if n <= 0xffff then [0xde] + BigEndian(n, 2)
    else [0xdf] + BigEndian(n % TWO_32, 4)
  }

  /** What the encoder accepts: supported types, 64-bit integers and non-empty keys. */
  predicate Accepted(v: Value) {
    match v
    case Int(i) => -0x8000_0000_0000_0000 <= i < TWO_64
    case Arr(items) => forall k :: 0 <= k < |items| ==> Accepted(items[k])
    case Obj(fields) => forall k :: 0 <= k < |fields| ==> fields[k].key != [] && Accepted(fields[k].value)
    case Unsupported => false
    case _ => true
  }

  function Bytes(v: Value): seq<byte>
    requires Accepted(v)
    decreases v, 1
  {
    match v
    case Nil => [0xc0]
    case Bool(b) => if b then [0xc3] else [0xc2]
    case Int(i) => IntBytes(i)
    case Str(text) => StrHeader(|text|) + text
    case Arr(items) => ArrHeader(|items|) + ItemBytes(items)
    case Obj(fields) => ObjHeader(|fields|) + FieldBytes(fields)
  }

  function ItemBytes(items: seq<Value>): seq<byte>
    requires forall k :: 0 <= k < |items| ==> Accepted(items[k])
    decreases items, 0
  {
    if items == [] then [] else Bytes(items[0]) + ItemBytes(items[1..])
  }

  function FieldBytes(fields: seq<Field>): seq<byte>
    requires forall k :: 0 <= k < |fields| ==> fields[k].key != [] && Accepted(fields[k].value)
    decreases fields, 0
  {
    if fields == [] then [] else EntryBytes(fields[0]) + FieldBytes(fields[1..])
  }

  function EntryBytes(f: Field): seq<byte>
    requires Accepted(f.value)
    decreases f, 2
  {
    StrHeader(|f.key|) + f.key + Bytes(f.value)
  }

  // ---------------------------------------------------------------- the encoder

  lemma {:induction false} ItemBytesAppend(items: seq<Value>, k: nat)
    requires forall j :: 0 <= j < |items| ==> Accepted(items[j])
    requires k < |items|
    ensures ItemBytes(items[..k + 1]) == ItemBytes(items[..k]) + Bytes(items[k])
  {
    if k == 0 {
      assert items[..1][1..] == [];
    } else {
      ItemBytesAppend(items[1..], k - 1);
      assert items[..k + 1][1..] == items[1..][..k] && items[..k][1..] == items[1..][..k - 1];
    }
  }

  lemma {:induction false} FieldBytesAppend(fields: seq<Field>, k: nat)
    requires forall j :: 0 <= j < |fields| ==> fields[j].key != [] && Accepted(fields[j].value)
    requires k < |fields|
    ensures FieldBytes(fields[..k + 1]) == FieldBytes(fields[..k]) + EntryBytes(fields[k])
  {
    hide EntryBytes;
    if k == 0 {
      assert fields[..1][1..] == [];
    } else {
      FieldBytesAppend(fields[1..], k - 1);
      assert fields[..k + 1][1..] == fields[1..][..k] && fields[..k][1..] == fields[1..][..k - 1];
    }
  }

  /** bytes.Buffer as far as the encoder uses it. */
  class Buffer {
    var data: seq<byte>

    constructor ()
      ensures data == []
    {
      data := [];
    }

    method Write(bytes: seq<byte>)
      modifies this
      ensures data == old(data) + bytes
    {
      data := data + bytes;
    }
  }

  method EncodeString(buf: Buffer, text: seq<byte>)
    modifies buf
    ensures buf.data == old(buf.data) + StrHeader(|text|) + text
  {
    buf.Write(StrHeader(|text|));
    buf.Write(text);
  }

  /** encodeMsgpackValue. On an error the partial buffer is dropped by the caller. */
  method EncodeValue(buf: Buffer, v: Value) returns (ok: bool)
    modifies buf
    ensures ok <==> Accepted(v)
    ensures ok ==> buf.data == old(buf.data) + Bytes(v)
    decreases v, 1
  {
    hide IntBytes, StrHeader, ArrHeader, ObjHeader, ItemBytes, FieldBytes;
    match v
    case Nil =>
      buf.Write([0xc0]);
      ok := true;
    case Bool(b) =>
      buf.Write(if b then [0xc3] else [0xc2]);
      ok := true;
    case Int(i) =>
      ok := -0x8000_0000_0000_0000 <= i < TWO_64;
      if ok {
        buf.Write(IntBytes(i));
      }
    case Str(text) =>
      EncodeString(buf, text);
      ok := true;
    case Arr(items) =>
      ok := EncodeArray(buf, items);
    case Obj(fields) =>
      ok := EncodeObject(buf, fields);
    case Unsupported =>
      ok := false;
  }

  method EncodeArray(buf: Buffer, items: seq<Value>) returns (ok: bool)
    modifies buf
    ensures ok <==> forall k :: 0 <= k < |items| ==> Accepted(items[k])
    ensures ok ==> buf.data == old(buf.data) + (ArrHeader(|items|) + ItemBytes(items))
    decreases items, 0
  {
    hide ArrHeader, Bytes;
    buf.Write(ArrHeader(|items|));
    for i := 0 to |items|
      invariant forall k :: 0 <= k < i ==> Accepted(items[k])
      invariant buf.data == old(buf.data) + ArrHeader(|items|) + ItemBytes(items[..i])
    {
      var done := EncodeValue(buf, items[i]);
      if !done {
        return false;
      }
      ItemBytesAppend(items[..i + 1], i);
      assert items[..i + 1][..i] == items[..i] && items[..i + 1][..i + 1] == items[..i + 1];
    }
    assert items[..|items|] == items;
    return true;
  }

  method EncodeObject(buf: Buffer, fields: seq<Field>) returns (ok: bool)
    modifies buf
    ensures ok <==> forall k :: 0 <= k < |fields| ==> fields[k].key != [] && Accepted(fields[k].value)
    ensures ok ==> buf.data == old(buf.data) + (ObjHeader(|fields|) + FieldBytes(fields))
    decreases fields, 0
  {
    hide StrHeader, ObjHeader, Bytes;
    buf.Write(ObjHeader(|fields|));
    for i := 0 to |fields|
      invariant forall k :: 0 <= k < i ==> fields[k].key != [] && Accepted(fields[k].value)
      invariant buf.data == old(buf.data) + ObjHeader(|fields|) + FieldBytes(fields[..i])
    {
      if fields[i].key == [] {
        return false;
      }
      EncodeString(buf, fields[i].key);
      var done := EncodeValue(buf, fields[i].value);
      if !done {
        return false;
      }
      FieldBytesAppend(fields[..i + 1], i);
      assert fields[..i + 1][..i] == fields[..i] && fields[..i + 1][..i + 1] == fields[..i + 1];
    }
    assert fields[..|fields|] == fields;
    return true;
  }

  /** packMsgpack. */
  method Pack(v: Value) returns (r: Option<seq<byte>>)
    ensures r == if Accepted(v) then Some(Bytes(v)) else None
  {
    var buf := new Buffer();
    var ok := EncodeValue(buf, v);
    if ok {
      assert [] + Bytes(v) == Bytes(v);
      return Some(buf.data);
    }
    return None;
  }

  // ---------------------------------------------------------------- the decoder of the specification

  /** The first token: a complete scalar, or the length of what follows. */
  datatype Head = NilHead | BoolHead(b: bool) | IntHead(i: int) | StrHead(n: nat) | ArrHead(n: nat) | ObjHead(n: nat)

  datatype Token = Token(head: Head, rest: seq<byte>)

  /** An unsigned integer of w bytes after the format byte. */
  function Unsigned(b: seq<byte>, w: nat): Option<nat>
    requires b != []
  {
    if |b| < w + 1 then None else Some(FromBigEndian(b[1..w + 1]))
  }

  function Signed(n: nat, w: nat): int {
    if n < Pow256(w) / 2 then n else n - Pow256(w)
  }

  function ReadHead(b: seq<byte>): (r: Option<Token>)
    ensures r.Some? ==> |r.value.rest| < |b|
  {
    if b == [] then None
    else
      var f := b[0] as nat;
      if f <= 0x7f then Some(Token(IntHead(f), b[1..]))
      else if f <= 0x8f then Some(Token(ObjHead(f - 0x80), b[1..]))
      else if f <= 0x9f then Some(Token(ArrHead(f - 0x90), b[1..]))
      else if f <= 0xbf then Some(Token(StrHead(f - 0xa0), b[1..]))
      else if f == 0xc0 then Some(Token(NilHead, b[1..]))
      else if f == 0xc2 || f == 0xc3 then Some(Token(BoolHead(f == 0xc3), b[1..]))
      else if 0xe0 <= f then Some(Token(IntHead(f - 0x100), b[1..]))
      else
        var w := Width(f);
        if w == 0 then None
        else
          var n := Unsigned(b, w);
          if n.None? then None
          else Some(Token(Wide(f, n.value), b[w + 1..]))
  }

  /** Bytes that follow the format byte, for the formats with an explicit width; 0 for any other. */
  function Width(f: nat): nat {
    if f == 0xcc || f == 0xd0 || f == 0xd9 then 1
    else if f == 0xcd || f == 0xd1 || f == 0xda || f == 0xdc || f == 0xde then 2
    else if f == 0xce || f == 0xd2 || f == 0xdb || f == 0xdd || f == 0xdf then 4
    else if f == 0xcf || f == 0xd3 then 8
    else 0
  }

  function Wide(f: nat, n: nat): Head
    requires Width(f) > 0
  {
    if f <= 0xcf then IntHead(n)
    else if f <= 0xd3 then IntHead(Signed(n, Width(f)))
    else if f <= 0xdb then StrHead(n)
    else if f <= 0xdd then ArrHead(n)
    else ObjHead(n)
  }

  datatype Parsed<+T> = Parsed(value: T, rest: seq<byte>)

  function Decode(b: seq<byte>): (r: Option<Parsed<Value>>)
    ensures r.Some? ==> |r.value.rest| < |b|
    decreases |b|, 0
  {
    var t := ReadHead(b);
    if t.None? then None
    else
      var rest := t.value.rest;
      match t.value.head
      case NilHead => Some(Parsed(Nil, rest))
      case BoolHead(x) => Some(Parsed(Bool(x), rest))
      case IntHead(i) => Some(Parsed(Int(i), rest))
      case StrHead(n) => if |rest| < n then None else Some(Parsed(Str(rest[..n]), rest[n..]))
      case ArrHead(n) =>
        var items := DecodeItems(rest, n);
        if items.None? then None else Some(Parsed(Arr(items.value.value), items.value.rest))
      case ObjHead(n) =>
        var fields := DecodeFields(rest, n);
        if fields.None? then None else Some(Parsed(Obj(fields.value.value), fields.value.rest))
  }

  function DecodeItems(b: seq<byte>, n: nat): (r: Option<Parsed<seq<Value>>>)
    ensures r.Some? ==> |r.value.rest| <= |b| && |r.value.value| == n
    decreases |b|, n + 1
  {
    if n == 0 then Some(Parsed([], b))
    else
      var first := Decode(b);
      if first.None? then None
      else
        var others := DecodeItems(first.value.rest, n - 1);
        if others.None? then None
        else Some(Parsed([first.value.value] + others.value.value, others.value.rest))
  }

  function DecodeFields(b: seq<byte>, n: nat): (r: Option<Parsed<seq<Field>>>)
    ensures r.Some? ==> |r.value.rest| <= |b| && |r.value.value| == n
    decreases |b|, n + 1
  {
    if n == 0 then Some(Parsed([], b))
    else
      var key := Decode(b);
      if key.None? || !key.value.value.Str? then None
      else
        var value := Decode(key.value.rest);
        if value.None? then None
        else
          var others := DecodeFields(value.value.rest, n - 1);
          if others.None? then None
          else Some(Parsed([Field(key.value.value.text, value.value.value)] + others.value.value, others.value.rest))
  }

  // ---------------------------------------------------------------- heads: round trip and minimality

  /** What the encoder writes for a head. */
  ghost function HeadBytes(h: Head): seq<byte>
    requires HeadOk(h)
  {
    match h
    case NilHead => [0xc0]
    case BoolHead(b) => if b then [0xc3] else [0xc2]
    case IntHead(i) => IntBytes(i)
    case StrHead(n) => StrHeader(n)
    case ArrHead(n) => ArrHeader(n)
    case ObjHead(n) => ObjHeader(n)
  }

  /** Values and lengths the format can express. */
  ghost predicate HeadOk(h: Head) {
    match h
    case IntHead(i) => -0x8000_0000_0000_0000 <= i < TWO_64
    case StrHead(n) => n < TWO_32
    case ArrHead(n) => n < TWO_32
    case ObjHead(n) => n < TWO_32
    case _ => true
  }

  /** A format byte followed by n in w bytes is read back with its meaning. */
  lemma WideRoundTrip(f: byte, n: nat, w: nat, rest: seq<byte>)
    requires w > 0 && Width(f as nat) == w && n < Pow256(w)
    ensures ReadHead([f] + BigEndian(n, w) + rest) == Some(Token(Wide(f as nat, n), rest))
  {
    hide BigEndian, FromBigEndian, Pow256, Wide;
    var b := [f] + BigEndian(n, w) + rest;
    BigEndianRoundTrip(n, w);
    assert b[1..w + 1] == BigEndian(n, w);
    assert b[w + 1..] == rest;
  }

  lemma UintRoundTrip(n: nat, rest: seq<byte>)
    requires n < TWO_64
    ensures ReadHead(UintBytes(n) + rest) == Some(Token(IntHead(n), rest))
  {
    Widths();
    if n <= 0x7f {
      assert ([n as byte] + rest)[1..] == rest;
    } else if n <= 0xff {
      WideRoundTrip(0xcc, n, 1, rest);
    } else if n <= 0xffff {
      WideRoundTrip(0xcd, n, 2, rest);
    } else if n < TWO_32 {
      WideRoundTrip(0xce, n, 4, rest);
    } else {
      WideRoundTrip(0xcf, n, 8, rest);
    }
  }

  lemma IntRoundTrip(i: int, rest: seq<byte>)
    requires -0x8000_0000_0000_0000 <= i < TWO_64
    ensures ReadHead(IntBytes(i) + rest) == Some(Token(IntHead(i), rest))
  {
    Widths();
    if 0 <= i {
      UintRoundTrip(i, rest);
    } else if -32 <= i {
      assert ([(i + 0x100) as byte] + rest)[1..] == rest;
    } else if -0x80 <= i {
      WideRoundTrip(0xd0, i + 0x100, 1, rest);
    } else if -0x8000 <= i {
      WideRoundTrip(0xd1, i + 0x1_0000, 2, rest);
    } else if -0x8000_0000 <= i {
      WideRoundTrip(0xd2, i + TWO_32, 4, rest);
    } else {
      WideRoundTrip(0xd3, i + TWO_64, 8, rest);
    }
  }

  lemma StrHeaderRoundTrip(n: nat, rest: seq<byte>)
    requires n < TWO_32
    ensures ReadHead(StrHeader(n) + rest) == Some(Token(StrHead(n), rest))
  {
    Widths();
    if n <= 31 {
      assert ([(0xa0 + n) as byte] + rest)[1..] == rest;
    } else if n <= 0xff {
      WideRoundTrip(0xd9, n, 1, rest);
    } else if n <= 0xffff {
      WideRoundTrip(0xda, n, 2, rest);
    } else {
      WideRoundTrip(0xdb, n, 4, rest);
    }
  }

  lemma ArrHeaderRoundTrip(n: nat, rest: seq<byte>)
    requires n < TWO_32
    ensures ReadHead(ArrHeader(n) + rest) == Some(Token(ArrHead(n), rest))
  {
    Widths();
    if n <= 15 {
      assert ([(0x90 + n) as byte] + rest)[1..] == rest;
    } else if n <= 0xffff {
      WideRoundTrip(0xdc, n, 2, rest);
    } else {
      WideRoundTrip(0xdd, n, 4, rest);
    }
  }

  lemma ObjHeaderRoundTrip(n: nat, rest: seq<byte>)
    requires n < TWO_32
    ensures ReadHead(ObjHeader(n) + rest) == Some(Token(ObjHead(n), rest))
  {
    Widths();
    if n <= 15 {
      assert ([(0x80 + n) as byte] + rest)[1..] == rest;
    } else if n <= 0xffff {
      WideRoundTrip(0xde, n, 2, rest);
    } else {
      WideRoundTrip(0xdf, n, 4, rest);
    }
  }

  /** Every head the specification can read is in range, and no way of writing it is shorter than the encoder's. */
  lemma HeadIsShortest(b: seq<byte>)
    requires ReadHead(b).Some?
    ensures var t := ReadHead(b).value; HeadOk(t.head) && |HeadBytes(t.head)| + |t.rest| <= |b|
  {
    Widths();
    var f := b[0] as nat;
    if 0xc4 <= f < 0xe0 {
      var w := Width(f);
      FromBigEndianBound(b[1..w + 1]);
    }
  }

  /**
   Among the shortest ways of writing a head the encoder's is the only one that writes a non-negative integer
   in an unsigned format.
   */
  lemma HeadIsCanonical(b: seq<byte>)
    requires ReadHead(b).Some?
    requires var t := ReadHead(b).value;
             && HeadOk(t.head) && |b| == |HeadBytes(t.head)| + |t.rest|
             && (t.head.IntHead? && 0 <= t.head.i ==> !(0xd0 <= b[0] <= 0xd3))
    ensures var t := ReadHead(b).value; HeadOk(t.head) && b == HeadBytes(t.head) + t.rest
  {
    hide BigEndian, FromBigEndian, Pow256;
    Widths();
    var f, w := b[0] as nat, Width(b[0] as nat);
    if w == 0 {
      assert b == [b[0]] + b[1..];
    } else {
      var digits := b[1..w + 1];
      FromBigEndianBound(digits);
      BytesRoundTrip(digits);
      assert b == [b[0]] + digits + b[w + 1..];
    }
  }

  // ---------------------------------------------------------------- values: round trip and minimality

  /** Every string, array and object in the value has a length below 2^32. */
  ghost predicate Sized(v: Value) {
    match v
    case Str(text) => |text| < TWO_32
    case Arr(items) => |items| < TWO_32 && forall k :: 0 <= k < |items| ==> Sized(items[k])
    case Obj(fields) =>
      && |fields| < TWO_32
      && forall k :: 0 <= k < |fields| ==> |fields[k].key| < TWO_32 && Sized(fields[k].value)
    case _ => true
  }

  lemma {:induction false} RoundTrip(v: Value, rest: seq<byte>)
    requires Accepted(v) && Sized(v)
    ensures Decode(Bytes(v) + rest) == Some(Parsed(v, rest))
    decreases v, 1
  {
    hide IntBytes, StrHeader, ArrHeader, ObjHeader, ReadHead, DecodeItems, DecodeFields, ItemBytes, FieldBytes;
    match v
    case Nil => ScalarHeads(rest);
    case Bool(x) => ScalarHeads(rest);
    case Int(i) => IntRoundTrip(i, rest);
    case Str(text) => StrRoundTrip(text, rest);
    case Arr(items) => ArrRoundTrip(items, rest);
    case Obj(fields) => ObjRoundTrip(fields, rest);
  }

  lemma {:induction false} ArrRoundTrip(items: seq<Value>, rest: seq<byte>)
    requires |items| < TWO_32 && forall k :: 0 <= k < |items| ==> Accepted(items[k]) && Sized(items[k])
    ensures Decode(ArrHeader(|items|) + ItemBytes(items) + rest) == Some(Parsed(Arr(items), rest))
    decreases items, 1
  {
    hide ArrHeader, ReadHead, DecodeItems, ItemBytes;
    assert ArrHeader(|items|) + ItemBytes(items) + rest == ArrHeader(|items|) + (ItemBytes(items) + rest);
    ArrHeaderRoundTrip(|items|, ItemBytes(items) + rest);
    ItemsRoundTrip(items, rest);
  }

  lemma {:induction false} ObjRoundTrip(fields: seq<Field>, rest: seq<byte>)
    requires |fields| < TWO_32
    requires forall k :: 0 <= k < |fields| ==> fields[k].key != [] && Accepted(fields[k].value)
    requires forall k :: 0 <= k < |fields| ==> |fields[k].key| < TWO_32 && Sized(fields[k].value)
    ensures Decode(ObjHeader(|fields|) + FieldBytes(fields) + rest) == Some(Parsed(Obj(fields), rest))
    decreases fields, 1
  {
    hide ObjHeader, ReadHead, DecodeFields, FieldBytes;
    assert ObjHeader(|fields|) + FieldBytes(fields) + rest == ObjHeader(|fields|) + (FieldBytes(fields) + rest);
    ObjHeaderRoundTrip(|fields|, FieldBytes(fields) + rest);
    FieldsRoundTrip(fields, rest);
  }

  lemma ScalarHeads(rest: seq<byte>)
    ensures ReadHead([0xc0] + rest) == Some(Token(NilHead, rest))
    ensures ReadHead([0xc2] + rest) == Some(Token(BoolHead(false), rest))
    ensures ReadHead([0xc3] + rest) == Some(Token(BoolHead(true), rest))
  {
    assert ([0xc0] + rest)[1..] == rest && ([0xc2] + rest)[1..] == rest && ([0xc3] + rest)[1..] == rest;
  }

  lemma StrRoundTrip(text: seq<byte>, rest: seq<byte>)
    requires |text| < TWO_32
    ensures Decode(StrHeader(|text|) + text + rest) == Some(Parsed(Str(text), rest))
  {
    hide StrHeader, ReadHead;
    assert StrHeader(|text|) + text + rest == StrHeader(|text|) + (text + rest);
    StrHeaderRoundTrip(|text|, text + rest);
    assert (text + rest)[..|text|] == text && (text + rest)[|text|..] == rest;
  }

  lemma {:induction false} ItemsRoundTrip(items: seq<Value>, rest: seq<byte>)
    requires forall k :: 0 <= k < |items| ==> Accepted(items[k]) && Sized(items[k])
    ensures DecodeItems(ItemBytes(items) + rest, |items|) == Some(Parsed(items, rest))
    decreases items, 0
  {
    hide Bytes, Decode;
    if items == [] {
      assert ItemBytes(items) + rest == rest;
    } else {
      var tail := ItemBytes(items[1..]) + rest;
      assert ItemBytes(items) + rest == Bytes(items[0]) + tail;
      RoundTrip(items[0], tail);
      ItemsRoundTrip(items[1..], rest);
      assert [items[0]] + items[1..] == items;
    }
  }

  lemma {:induction false} FieldsRoundTrip(fields: seq<Field>, rest: seq<byte>)
    requires forall k :: 0 <= k < |fields| ==> fields[k].key != [] && Accepted(fields[k].value)
    requires forall k :: 0 <= k < |fields| ==> |fields[k].key| < TWO_32 && Sized(fields[k].value)
    ensures DecodeFields(FieldBytes(fields) + rest, |fields|) == Some(Parsed(fields, rest))
    decreases fields, 0
  {
    if fields == [] {
      assert FieldBytes(fields) + rest == rest;
    } else {
      hide StrHeader, Bytes, Decode;
      var key, value := fields[0].key, fields[0].value;
      var tail := FieldBytes(fields[1..]) + rest;
      assert FieldBytes(fields) + rest == StrHeader(|key|) + key + (Bytes(value) + tail);
      StrRoundTrip(key, Bytes(value) + tail);
      RoundTrip(value, tail);
      FieldsRoundTrip(fields[1..], rest);
      assert [fields[0]] + fields[1..] == fields;
    }
  }

  /**
   Whatever the specification reads from any bytes has lengths below 2^32, and, if its keys are not
   empty, the encoder would have written it in no more bytes.
   */
  lemma {:induction false} NoShorterEncoding(b: seq<byte>)
    requires Decode(b).Some?
    ensures var p := Decode(b).value;
            && Sized(p.value)
            && (Accepted(p.value) ==> |Bytes(p.value)| + |p.rest| <= |b|)
    decreases |b|, 0
  {
    HeadIsShortest(b);
    var t := ReadHead(b).value;
    match t.head
    case ArrHead(n) => NoShorterItems(t.rest, n);
    case ObjHead(n) => NoShorterFields(t.rest, n);
    case _ =>
  }

  lemma {:induction false} NoShorterItems(b: seq<byte>, n: nat)
    requires DecodeItems(b, n).Some?
    ensures var p := DecodeItems(b, n).value;
            && (forall k :: 0 <= k < n ==> Sized(p.value[k]))
            && ((forall k :: 0 <= k < n ==> Accepted(p.value[k])) ==> |ItemBytes(p.value)| + |p.rest| <= |b|)
    decreases |b|, n + 1
  {
    hide Bytes, Decode;
    if n > 0 {
      NoShorterEncoding(b);
      var b1 := Decode(b).value.rest;
      NoShorterItems(b1, n - 1);
      var items, others := DecodeItems(b, n).value.value, DecodeItems(b1, n - 1).value.value;
      assert items[0] == Decode(b).value.value && items[1..] == others;
    }
  }

  lemma {:induction false} NoShorterFields(b: seq<byte>, n: nat)
    requires DecodeFields(b, n).Some?
    ensures var p := DecodeFields(b, n).value;
            && (forall k :: 0 <= k < n ==> |p.value[k].key| < TWO_32 && Sized(p.value[k].value))
            && ((forall k :: 0 <= k < n ==> p.value[k].key != [] && Accepted(p.value[k].value)) ==>
                  |FieldBytes(p.value)| + |p.rest| <= |b|)
    decreases |b|, n + 1
  {
    hide Bytes, Decode, StrHeader;
    if n > 0 {
      NoShorterEncoding(b);
      var b1 := Decode(b).value.rest;
      NoShorterEncoding(b1);
      var b2 := Decode(b1).value.rest;
      NoShorterFields(b2, n - 1);
      var fields, others := DecodeFields(b, n).value.value, DecodeFields(b2, n - 1).value.value;
      assert fields[0] == Field(Decode(b).value.value.text, Decode(b1).value.value) && fields[1..] == others;
      StrBytes(fields[0].key);
    }
  }

  lemma StrBytes(text: seq<byte>)
    ensures Accepted(Str(text)) && Bytes(Str(text)) == StrHeader(|text|) + text
    ensures Sized(Str(text)) <==> |text| < TWO_32
  {
  }

  /** The length conversion to uint32 is the only thing that can break the round trip. */
  lemma RoundTripsExactlyWhenSized(v: Value, rest: seq<byte>)
    requires Accepted(v)
    ensures Decode(Bytes(v) + rest) == Some(Parsed(v, rest)) <==> Sized(v)
  {
    if Sized(v) {
      RoundTrip(v, rest);
    } else if Decode(Bytes(v) + rest) == Some(Parsed(v, rest)) {
      NoShorterEncoding(Bytes(v) + rest);
    }
  }

  /** No encoding is a prefix of another, so bytes may follow it without a separator. */
  lemma EncodingsArePrefixFree(u: Value, v: Value, afterU: seq<byte>, afterV: seq<byte>)
    requires Accepted(u) && Sized(u) && Accepted(v) && Sized(v)
    requires Bytes(u) + afterU == Bytes(v) + afterV
    ensures u == v && afterU == afterV
  {
    RoundTrip(u, afterU);
    RoundTrip(v, afterV);
  }

  // ---------------------------------------------------------------- the action hash

  /** The vault address as its twenty bytes. */
  datatype ActionHashInput = ActionHashInput(
    action: Value, nonce: nat, vault: Option<seq<byte>>, expiresAfter: Option<nat>)

  ghost predicate InputOk(x: ActionHashInput) {
    && x.action != Nil && Accepted(x.action) && Sized(x.action)
    && x.nonce < TWO_64
    && (x.vault.Some? ==> |x.vault.value| == 20)
    && (x.expiresAfter.Some? ==> x.expiresAfter.value < TWO_64)
  }

  function VaultBytes(vault: Option<seq<byte>>): seq<byte> {
    if vault.None? then [0x00] else [0x01] + vault.value
  }

  function ExpiryBytes(expiresAfter: Option<nat>): seq<byte> {
    if expiresAfter.None? then [] else [0x00] + BigEndian(expiresAfter.value, 8)
  }

  function Preimage(x: ActionHashInput): seq<byte>
    requires Accepted(x.action)
  {
    Bytes(x.action) + BigEndian(x.nonce, 8) + VaultBytes(x.vault) + ExpiryBytes(x.expiresAfter)
  }

  /**
   A reader of the layout: the action, eight bytes of nonce, a byte that says whether twenty bytes of vault
   address follow, and then nothing, or a zero byte and eight bytes of expiry.
   */
  function ReadPreimage(b: seq<byte>): Option<ActionHashInput> {
    var action := Decode(b);
    if action.None? || |action.value.rest| < 9 then None
    else
      var rest := action.value.rest;
      var nonce, marker, tail := FromBigEndian(rest[..8]), rest[8], rest[9..];
      if marker == 0 then ReadTrailer(action.value.value, nonce, None, tail)
      else if marker == 1 && 20 <= |tail| then ReadTrailer(action.value.value, nonce, Some(tail[..20]), tail[20..])
      else None
  }

  function ReadTrailer(action: Value, nonce: nat, vault: Option<seq<byte>>, b: seq<byte>): Option<ActionHashInput> {
    if b == [] then Some(ActionHashInput(action, nonce, vault, None))
    else if |b| == 9 && b[0] == 0 then Some(ActionHashInput(action, nonce, vault, Some(FromBigEndian(b[1..]))))
    else None
  }

  lemma PreimageIsReadable(x: ActionHashInput)
    requires InputOk(x)
    ensures ReadPreimage(Preimage(x)) == Some(x)
  {
    hide Bytes, BigEndian, FromBigEndian, Accepted, Sized, Decode;
    var expiry := ExpiryBytes(x.expiresAfter);
    var tail := VaultBytes(x.vault) + expiry;
    var rest := BigEndian(x.nonce, 8) + tail;
    assert Preimage(x) == Bytes(x.action) + rest;
    RoundTrip(x.action, rest);
    Widths();
    BigEndianRoundTrip(x.nonce, 8);
    assert rest[..8] == BigEndian(x.nonce, 8) && rest[8] == tail[0] && rest[9..] == tail[1..];
    if x.vault.Some? {
      assert tail[1..][..20] == x.vault.value && tail[1..][20..] == expiry;
    } else {
      assert tail[1..] == expiry;
    }
    if x.expiresAfter.Some? {
      BigEndianRoundTrip(x.expiresAfter.value, 8);
      assert expiry[1..] == BigEndian(x.expiresAfter.value, 8);
    }
  }

  /** The buffer ActionHash fills before hashing. */
  method BuildPreimage(x: ActionHashInput) returns (r: Option<seq<byte>>)
    ensures r == if x.action != Nil && Accepted(x.action) then Some(Preimage(x)) else None
    ensures InputOk(x) ==> r.Some? && ReadPreimage(r.value) == Some(x)
  {
    if x.action == Nil {
      return None;
    }
    var packed := Pack(x.action);
    if packed.None? {
      return None;
    }
    hide Bytes, BigEndian;
    var buf := new Buffer();
    buf.Write(packed.value);
    buf.Write(BigEndian(x.nonce, 8));
    if x.vault.None? {
      buf.Write([0x00]);
    } else {
      buf.Write([0x01]);
      buf.Write(x.vault.value);
    }
    ghost var untilVault := Bytes(x.action) + BigEndian(x.nonce, 8) + VaultBytes(x.vault);
    assert buf.data == untilVault;
    if x.expiresAfter.Some? {
      buf.Write([0x00]);
      buf.Write(BigEndian(x.expiresAfter.value, 8));
    }
    assert buf.data == untilVault + ExpiryBytes(x.expiresAfter);
    if InputOk(x) {
      PreimageIsReadable(x);
    }
    return Some(buf.data);
  }

  /** Two inputs share a preimage only if they agree in action, nonce, vault and expiry. */
  lemma PreimageIsInjective(x: ActionHashInput, y: ActionHashInput)
    requires InputOk(x) && InputOk(y) && Preimage(x) == Preimage(y)
    ensures x == y
  {
    PreimageIsReadable(x);
    PreimageIsReadable(y);
  }
}
