/** Wire primitives of the osu!.db cache file (db/fmt.py): fixed-width
 *  little-endian unsigned integers, booleans, unsigned LEB128 integers,
 *  length-prefixed strings and the two fixed composites, each decoded from a
 *  byte sequence at a position.  Every decoder returns the value together
 *  with the position just after it, or an error; none of them accepts a
 *  short read. */
module Fmt {

  type byte = x: int | 0 <= x < 0x100
  type u16 = x: nat | x < 0x1_0000
  type u32 = x: nat | x < 0x1_0000_0000
  type u64 = x: nat | x < 0x1_0000_0000_0000_0000

  /** Single and Double values are carried as their raw little-endian bytes. */
  type Bits32 = bs: seq<byte> | |bs| == 4 witness [0, 0, 0, 0]
  type Bits64 = bs: seq<byte> | |bs| == 8 witness [0, 0, 0, 0, 0, 0, 0, 0]

  datatype Error =
    | Truncated                          // the input ends inside a field
    | MalformedString(indicator: byte)   // a string indicator other than 0x00 and 0x0B
    | OutOfRange                         // an integer that does not fit the packed width

  datatype Result<+T> = Ok(value: T) | Err(error: Error) {
    predicate IsFailure() { Err? }
    function PropagateFailure<U>(): Result<U> requires Err? { Err(error) }
    function Extract(): T requires Ok? { value }
  }

  /** A decoded value and the position just after it. */
  datatype Parsed<+T> = Parsed(value: T, next: nat)

  /** The cursor-based reader's result `r`, with the cursor left at `pos`,
   *  is the one the decoder `spec` describes. */
  ghost predicate Agrees<T>(spec: Result<Parsed<T>>, r: Result<T>, pos: nat) {
    match spec
    case Ok(parsed) => r == Ok(parsed.value) && pos == parsed.next
    case Err(e) => r == Err(e)
  }

  /** `e` occurs in `s` at position `p`. */
  ghost predicate Embeds(s: seq<byte>, p: nat, e: seq<byte>) {
    p + |e| <= |s| && s[p..p + |e|] == e
  }

  lemma EmbedsSplit(s: seq<byte>, p: nat, a: seq<byte>, b: seq<byte>)
    requires Embeds(s, p, a + b)
    ensures Embeds(s, p, a) && Embeds(s, p + |a|, b)
  {
    assert s[p..p + |a|] == s[p..p + |a + b|][..|a|];
    assert s[p + |a|..p + |a| + |b|] == s[p..p + |a + b|][|a|..];
  }

  /** A sequence holds its own prefix at 0. */
  lemma EmbedsFront(a: seq<byte>, b: seq<byte>)
    ensures Embeds(a + b, 0, a)
  {
    assert (a + b)[0..|a|] == a;
  }

  /** Every occurrence of a concatenation is an occurrence of its parts. */
  lemma EmbedsParts(s: seq<byte>)
    ensures forall p: nat, a: seq<byte>, b: seq<byte> {:trigger Embeds(s, p, a + b)} ::
      Embeds(s, p, a + b) ==> Embeds(s, p, a) && Embeds(s, p + |a|, b)
  {
    forall p: nat, a: seq<byte>, b: seq<byte> | Embeds(s, p, a + b)
      ensures Embeds(s, p, a) && Embeds(s, p + |a|, b)
    {
      EmbedsSplit(s, p, a, b);
    }
  }

  // ---------------------------------------------------------------------
  // Little-endian unsigned integers

  function Pow256(n: nat): (r: nat)
    ensures r > 0
  {
    if n == 0 then 1 else 0x100 * Pow256(n - 1)
  }

  lemma Pow256Widths()
    ensures Pow256(1) == 0x100 && Pow256(2) == 0x1_0000
    ensures Pow256(4) == 0x1_0000_0000 && Pow256(8) == 0x1_0000_0000_0000_0000
  {
  }

  /** int.from_bytes(bs, byteorder="little") */
  function LittleEndian(bs: seq<byte>): nat
  {
    if bs == [] then 0 else bs[0] + 0x100 * LittleEndian(bs[1..])
  }

  /** A value decoded from `w` bytes is below 2^(8w). */
  lemma {:induction false} LittleEndianBound(bs: seq<byte>)
    ensures LittleEndian(bs) < Pow256(|bs|)
  {
    if bs != [] {
      LittleEndianBound(bs[1..]);
      assert LittleEndian(bs[1..]) + 1 <= Pow256(|bs| - 1);
      assert 0x100 * (LittleEndian(bs[1..]) + 1) <= 0x100 * Pow256(|bs| - 1);
    }
  }

  /** The `width` little-endian bytes of `n` (n modulo 2^(8 width)). */
  function LittleEndianBytes(n: nat, width: nat): (bs: seq<byte>)
    ensures |bs| == width
  {
    if width == 0 then [] else [n % 0x100] + LittleEndianBytes(n / 0x100, width - 1)
  }

  lemma {:induction false} LittleEndianRoundTrip(n: nat, width: nat)
    requires n < Pow256(width)
    ensures LittleEndian(LittleEndianBytes(n, width)) == n
  {
    if width > 0 {
      assert n / 0x100 < Pow256(width - 1);
      LittleEndianRoundTrip(n / 0x100, width - 1);
      assert LittleEndianBytes(n, width)[1..] == LittleEndianBytes(n / 0x100, width - 1);
    }
  }

  // ---------------------------------------------------------------------
  // Fixed-width reads (read_type, db/fmt.py:164-233)

  /** fobj.read(n), refusing a short read. */
  function ReadBytes(s: seq<byte>, p: nat, n: nat): Result<Parsed<seq<byte>>>
  {
    if p + n <= |s| then Ok(Parsed(s[p..p + n], p + n)) else Err(Truncated)
  }

  function ReadUInt(s: seq<byte>, p: nat, width: nat): (r: Result<Parsed<nat>>)
    ensures r.Ok? ==> r.value.value < Pow256(width)
  {
    var bs :- ReadBytes(s, p, width);
    LittleEndianBound(bs.value);
    Ok(Parsed(LittleEndian(bs.value), bs.next))
  }

  function ReadByte(s: seq<byte>, p: nat): Result<Parsed<byte>>
  {
    var bs :- ReadBytes(s, p, 1);
    Ok(Parsed(bs.value[0], bs.next))
  }

  function ReadShort(s: seq<byte>, p: nat): Result<Parsed<u16>>
  {
    Pow256Widths();
    var n :- ReadUInt(s, p, 2);
    Ok(Parsed(n.value as u16, n.next))
  }

  function ReadInt(s: seq<byte>, p: nat): Result<Parsed<u32>>
  {
    Pow256Widths();
    var n :- ReadUInt(s, p, 4);
    Ok(Parsed(n.value as u32, n.next))
  }

  function ReadLong(s: seq<byte>, p: nat): Result<Parsed<u64>>
  {
    Pow256Widths();
    var n :- ReadUInt(s, p, 8);
    Ok(Parsed(n.value as u64, n.next))
  }

  /** A DateTime is an opaque 8-byte tick count, read like a Long. */
  function ReadDateTime(s: seq<byte>, p: nat): Result<Parsed<u64>>
  {
    ReadLong(s, p)
  }

  function ReadSingle(s: seq<byte>, p: nat): Result<Parsed<Bits32>>
  {
    var bs :- ReadBytes(s, p, 4);
    Ok(Parsed(bs.value, bs.next))
  }

  function ReadDouble(s: seq<byte>, p: nat): Result<Parsed<Bits64>>
  {
    var bs :- ReadBytes(s, p, 8);
    Ok(Parsed(bs.value, bs.next))
  }

  /** Any byte other than 0x00 is true. */
  function ReadBoolean(s: seq<byte>, p: nat): Result<Parsed<bool>>
  {
    var bs :- ReadBytes(s, p, 1);
    Ok(Parsed(bs.value[0] != 0x00, bs.next))
  }

  function BooleanByte(b: bool): byte
  {
    if b then 0x01 else 0x00
  }

  /** Boolean consumes one byte and is false exactly when that byte is 0x00;
   *  Int, Short, Long and DateTime consume their width and return the
   *  little-endian value of the bytes, which is below 2^(8 width). */
  lemma ReadFixedWidth(s: seq<byte>, p: nat)
    ensures ReadBoolean(s, p).Ok? <==> p < |s|
    ensures ReadBoolean(s, p).Ok? ==> ReadBoolean(s, p) == Ok(Parsed(s[p] != 0x00, p + 1))
    ensures ReadInt(s, p).Ok? <==> p + 4 <= |s|
    ensures ReadInt(s, p).Ok? ==> ReadInt(s, p) == Ok(Parsed(LittleEndian(s[p..p + 4]), p + 4))
    ensures ReadShort(s, p).Ok? <==> p + 2 <= |s|
    ensures ReadShort(s, p).Ok? ==> ReadShort(s, p) == Ok(Parsed(LittleEndian(s[p..p + 2]), p + 2))
    ensures ReadLong(s, p).Ok? <==> p + 8 <= |s|
    ensures ReadLong(s, p).Ok? ==> ReadLong(s, p) == Ok(Parsed(LittleEndian(s[p..p + 8]), p + 8))
    ensures ReadDateTime(s, p).Ok? <==> p + 8 <= |s|
    ensures ReadDateTime(s, p) == ReadLong(s, p)
  {
  }

  lemma UIntRoundTrip(n: nat, width: nat, s: seq<byte>, p: nat)
    requires n < Pow256(width) && Embeds(s, p, LittleEndianBytes(n, width))
    ensures ReadUInt(s, p, width) == Ok(Parsed(n, p + width))
  {
    LittleEndianRoundTrip(n, width);
  }

  // ---------------------------------------------------------------------
  // Unsigned LEB128 (section 7.6 of the DWARF 4 standard)

  function Pow2(n: nat): (r: nat)
    ensures r > 0
  {
    if n == 0 then 1 else 2 * Pow2(n - 1)
  }

  lemma {:induction false} Pow2Plus7(n: nat)
    ensures Pow2(n + 7) == 0x80 * Pow2(n)
  {
    assert Pow2(n + 7) == 2 * Pow2(n + 6) == 4 * Pow2(n + 5) == 8 * Pow2(n + 4)
      == 16 * Pow2(n + 3) == 32 * Pow2(n + 2) == 64 * Pow2(n + 1) == 128 * Pow2(n);
  }

  /** parse_uleb128: seven data bits per byte, least significant group first,
   *  continuing while the byte's high bit is set.  The value is decoded at
   *  the first byte whose high bit is clear, which is the last one consumed;
   *  it fails only when the input ends before such a byte. */
  function Uleb128(s: seq<byte>, p: nat): (r: Result<Parsed<nat>>)
    ensures r.Ok? ==> p < r.value.next <= |s|
    decreases |s| - p
  {
    if p >= |s| then Err(Truncated)
    else if s[p] < 0x80 then Ok(Parsed(s[p], p + 1))
    else
      var rest :- Uleb128(s, p + 1);
      Ok(Parsed(s[p] % 0x80 + 0x80 * rest.value, rest.next))
  }

  /** The decoder stops at the first byte whose high bit is clear: every
   *  byte before it has the bit set.  It fails, always with Truncated,
   *  exactly when no byte from `p` on has the bit clear. */
  lemma {:induction false} Uleb128Stops(s: seq<byte>, p: nat)
    ensures Uleb128(s, p).Ok? ==>
      var next := Uleb128(s, p).value.next;
      s[next - 1] < 0x80 && forall i | p <= i < next - 1 :: s[i] >= 0x80
    ensures Uleb128(s, p).Err? <==> forall i | p <= i < |s| :: s[i] >= 0x80
    ensures Uleb128(s, p).Err? ==> Uleb128(s, p).error == Truncated
    decreases |s| - p
  {
    if p < |s| && s[p] >= 0x80 {
      Uleb128Stops(s, p + 1);
    }
  }

  /** get_uleb128 as a value: the low seven bits first, the high bit set on
   *  every byte but the last. */
  function Uleb128Bytes(n: nat): seq<byte>
    decreases n
  {
    if n < 0x80 then [n] else [n % 0x80 + 0x80] + Uleb128Bytes(n / 0x80)
  }

  /** The encoding is never empty, its last byte has the high bit clear and
   *  every other byte has it set; zero is the single byte 00. */
  lemma {:induction false} Uleb128BytesShape(n: nat)
    ensures var bs := Uleb128Bytes(n);
      |bs| > 0 && bs[|bs| - 1] < 0x80 && forall i | 0 <= i < |bs| - 1 :: bs[i] >= 0x80
    ensures Uleb128Bytes(0) == [0x00]
    decreases n
  {
    if n >= 0x80 {
      Uleb128BytesShape(n / 0x80);
    }
  }

  lemma Uleb128BytesStep(m: nat)
    requires m / 0x80 != 0
    ensures Uleb128Bytes(m) == [m % 0x80 + 0x80] + Uleb128Bytes(m / 0x80) && m / 0x80 < m
  {
  }

  /** get_uleb128 (db/fmt.py:92-104). */
  method GetUleb128(integer: nat) returns (result: seq<byte>)
    ensures result == Uleb128Bytes(integer)
  {
    var n := integer;
    var contLoop := true;
    result := [];
    while contLoop
      invariant contLoop ==> result + Uleb128Bytes(n) == Uleb128Bytes(integer)
      invariant !contLoop ==> result == Uleb128Bytes(integer)
      decreases if contLoop then n + 1 else 0
    {
      ghost var m := n;
      var b := n % 0x80;
      n := n / 0x80;
      if n != 0 {
        b := b + 0x80;
        Uleb128BytesStep(m);
        assert result + Uleb128Bytes(m) == (result + [b]) + Uleb128Bytes(n);
      } else {
        assert Uleb128Bytes(m) == [b];
      }
      result := result + [b];
      contLoop := n != 0;
    }
  }

  /** Decoding the encoding of `n`, wherever it occurs, gives `n` back and
   *  consumes exactly its bytes. */
  lemma {:induction false} Uleb128RoundTrip(n: nat, s: seq<byte>, p: nat)
    requires Embeds(s, p, Uleb128Bytes(n))
    ensures Uleb128(s, p) == Ok(Parsed(n, p + |Uleb128Bytes(n)|))
    decreases n
  {
    if n >= 0x80 {
      EmbedsSplit(s, p, [n % 0x80 + 0x80], Uleb128Bytes(n / 0x80));
      Uleb128RoundTrip(n / 0x80, s, p + 1);
    }
  }

  /** Overlong encodings are accepted: 80 00 decodes to 0, like 00. */
  lemma Uleb128AcceptsOverlong()
    ensures Uleb128([0x80, 0x00], 0) == Ok(Parsed(0, 2))
    ensures Uleb128([0x00], 0) == Ok(Parsed(0, 1))
  {
  }

  // ---------------------------------------------------------------------
  // Strings (parse_string, db/fmt.py:16-43; get_string, db/fmt.py:76-89)

  /** parse_string: indicator 0x00 is the empty string; indicator 0x0B is
   *  followed by a ULEB128 byte count and that many payload bytes; any
   *  other indicator is malformed.  The payload stays undecoded. */
  function ReadString(s: seq<byte>, p: nat): (r: Result<Parsed<seq<byte>>>)
    ensures r.Ok? ==> p + 1 + |r.value.value| <= r.value.next <= |s|
    ensures r.Ok? ==> r.value.value == s[r.value.next - |r.value.value|..r.value.next]
  {
    if p >= |s| then Err(Truncated)
    else if s[p] == 0x00 then Ok(Parsed([], p + 1))
    else if s[p] == 0x0B then
      var n :- Uleb128(s, p + 1);
      ReadBytes(s, n.next, n.value)
    else Err(MalformedString(s[p]))
  }

  /** The indicator byte decides the branch. */
  lemma ReadStringIndicator(s: seq<byte>, p: nat)
    requires p < |s|
    ensures s[p] == 0x00 ==> ReadString(s, p) == Ok(Parsed([], p + 1))
    ensures s[p] !in {0x00, 0x0B} ==> ReadString(s, p) == Err(MalformedString(s[p]))
    ensures s[p] == 0x0B && ReadString(s, p).Ok? ==>
      Uleb128(s, p + 1).Ok? && |ReadString(s, p).value.value| == Uleb128(s, p + 1).value.value
    ensures s[p] == 0x0B && Uleb128(s, p + 1).Err? ==> ReadString(s, p) == Err(Truncated)
    ensures s[p] == 0x0B && Uleb128(s, p + 1).Ok? ==>
      var n := Uleb128(s, p + 1).value;
      (ReadString(s, p).Ok? <==> n.next + n.value <= |s|)
      && (ReadString(s, p).Ok? ==> ReadString(s, p).value.next == n.next + n.value)
      && (ReadString(s, p).Err? ==> ReadString(s, p) == Err(Truncated))
  {
    Uleb128Stops(s, p + 1);
  }

  /** The encoding of a string whose UTF-8 payload is `payload`. */
  function StringBytes(payload: seq<byte>): seq<byte>
  {
    if payload == [] then [0x00] else [0x0B] + Uleb128Bytes(|payload|) + payload
  }

  lemma StringRoundTrip(payload: seq<byte>, s: seq<byte>, p: nat)
    requires Embeds(s, p, StringBytes(payload))
    ensures ReadString(s, p) == Ok(Parsed(payload, p + |StringBytes(payload)|))
  {
    if payload != [] {
      EmbedsSplit(s, p, [0x0B] + Uleb128Bytes(|payload|), payload);
      EmbedsSplit(s, p, [0x0B], Uleb128Bytes(|payload|));
      Uleb128RoundTrip(|payload|, s, p + 1);
    }
  }

  /** UTF-8 (section 3 of RFC 3629) of one Unicode scalar value. */
  function Utf8Char(c: char): (bs: seq<byte>)
    ensures 1 <= |bs| <= 4
  {
    var cp := c as int;
    if cp < 0x80 then [cp]
    else if cp < 0x800 then [0xC0 + cp / 0x40, 0x80 + cp % 0x40]
    else if cp < 0x1_0000 then [0xE0 + cp / 0x1000, 0x80 + cp / 0x40 % 0x40, 0x80 + cp % 0x40]
    else [0xF0 + cp / 0x4_0000 % 0x08, 0x80 + cp / 0x1000 % 0x40, 0x80 + cp / 0x40 % 0x40, 0x80 + cp % 0x40]
  }

  /** string.encode("utf-8") */
  function Utf8(text: string): (bs: seq<byte>)
    ensures |bs| >= |text|
    ensures bs == [] <==> text == []
  {
    if text == [] then [] else Utf8Char(text[0]) + Utf8(text[1..])
  }

  /** get_string as the source writes it: the ULEB128 prefix counts
   *  characters, not payload bytes. */
  function GetStringAsWritten(text: string): seq<byte>
  {
    if text == [] then [0x00] else [0x0B] + Uleb128Bytes(|text|) + Utf8(text)
  }

  /** get_string with the prefix counting payload bytes. */
  function GetString(text: string): seq<byte>
  {
    StringBytes(Utf8(text))
  }

  /** Every string, the empty one included, round-trips through the
   *  byte-counting encoder. */
  lemma GetStringRoundTrip(text: string, s: seq<byte>, p: nat)
    requires Embeds(s, p, GetString(text))
    ensures ReadString(s, p) == Ok(Parsed(Utf8(text), p + |GetString(text)|))
    ensures text == [] ==> GetString(text) == [0x00]
  {
    StringRoundTrip(Utf8(text), s, p);
  }

  /** The source's encoder round-trips exactly when characters and UTF-8
   *  bytes are equally many (ASCII text, the empty string included). */
  lemma GetStringAsWrittenRoundTrip(text: string, s: seq<byte>, p: nat)
    requires |Utf8(text)| == |text|
    requires Embeds(s, p, GetStringAsWritten(text))
    ensures ReadString(s, p) == Ok(Parsed(Utf8(text), p + |GetStringAsWritten(text)|))
  {
    assert GetStringAsWritten(text) == GetString(text);
    GetStringRoundTrip(text, s, p);
  }

  /** "éa" is two characters and three UTF-8 bytes: the source writes
   *  0B 02 C3 A9 61, and reading it back yields only the two bytes of "é",
   *  leaving the 61 of "a" unread. */
  lemma GetStringAsWrittenMismatch()
    ensures GetStringAsWritten("\U{E9}a") == [0x0B, 0x02, 0xC3, 0xA9, 0x61]
    ensures ReadString(GetStringAsWritten("\U{E9}a"), 0) == Ok(Parsed([0xC3, 0xA9], 4))
    ensures Utf8("\U{E9}a") == [0xC3, 0xA9, 0x61]
  {
    assert Utf8Char('\U{E9}') == [0xC3, 0xA9];
    assert Utf8("a") == [0x61];
    assert Utf8("\U{E9}a") == [0xC3, 0xA9] + Utf8("a");
    var s := GetStringAsWritten("\U{E9}a");
    assert s == [0x0B, 0x02, 0xC3, 0xA9, 0x61];
    assert Uleb128(s, 1) == Ok(Parsed(2, 2));
    assert s[2..4] == [0xC3, 0xA9];
  }

  /** get_int: struct.pack("I", integer), four little-endian bytes; packing
   *  a value outside 0 .. 2^32 - 1 is an error. */
  function GetInt(integer: int): (r: Result<seq<byte>>)
    ensures r.Ok? <==> 0 <= integer < 0x1_0000_0000
    ensures r.Ok? ==> |r.value| == 4
  {
    if 0 <= integer < 0x1_0000_0000 then Ok(LittleEndianBytes(integer, 4)) else Err(OutOfRange)
  }

  lemma GetIntRoundTrip(n: int)
    requires 0 <= n < 0x1_0000_0000
    ensures ReadInt(GetInt(n).value, 0) == Ok(Parsed(n, 4))
  {
    Pow256Widths();
    UIntRoundTrip(n, 4, GetInt(n).value, 0);
  }

  // ---------------------------------------------------------------------
  // The two fixed composites

  /** An Int-Double pair: a mod combination and a star rating. */
  datatype IntDoublePair = IntDoublePair(mods: u32, stars: Bits64)

  /** bpm, offset, uninherited */
  datatype TimingPoint = TimingPoint(bpm: Bits64, offset: Bits64, uninherited: bool)

  /** A tag byte (0x08 by convention, not checked), an Int, a tag byte
   *  (0x0B by convention, not checked), a Double. */
  function ReadIntDoublePair(s: seq<byte>, p: nat): Result<Parsed<IntDoublePair>>
  {
    var tag1 :- ReadByte(s, p);
    var i :- ReadInt(s, tag1.next);
    var tag2 :- ReadByte(s, i.next);
    var d :- ReadDouble(s, tag2.next);
    Ok(Parsed(IntDoublePair(i.value, d.value), d.next))
  }

  function IntDoublePairBytes(x: IntDoublePair): (bs: seq<byte>)
    ensures |bs| == 14
  {
    [0x08] + LittleEndianBytes(x.mods, 4) + [0x0B] + x.stars
  }

  lemma IntDoublePairRoundTrip(x: IntDoublePair, s: seq<byte>, p: nat)
    requires Embeds(s, p, IntDoublePairBytes(x))
    ensures ReadIntDoublePair(s, p) == Ok(Parsed(x, p + 14))
  {
    EmbedsParts(s);
    Pow256Widths();
    UIntRoundTrip(x.mods, 4, s, p + 1);
  }

  /** The two tag bytes are read but never checked: replacing them does not
   *  change what is decoded. */
  lemma IntDoublePairIgnoresTags(s: seq<byte>, p: nat, t1: byte, t2: byte)
    requires p + 14 <= |s|
    ensures ReadIntDoublePair(s[p := t1][p + 5 := t2], p) == ReadIntDoublePair(s, p)
  {
    var s' := s[p := t1][p + 5 := t2];
    assert s'[p + 1..p + 5] == s[p + 1..p + 5];
    assert s'[p + 6..p + 14] == s[p + 6..p + 14];
  }

  /** Double, Double, Boolean. */
  function ReadTimingPoint(s: seq<byte>, p: nat): Result<Parsed<TimingPoint>>
  {
    var bpm :- ReadDouble(s, p);
    var offset :- ReadDouble(s, bpm.next);
    var uninherited :- ReadBoolean(s, offset.next);
    Ok(Parsed(TimingPoint(bpm.value, offset.value, uninherited.value), uninherited.next))
  }

  function TimingPointBytes(t: TimingPoint): (bs: seq<byte>)
    ensures |bs| == 17
  {
    t.bpm + t.offset + [BooleanByte(t.uninherited)]
  }

  lemma TimingPointRoundTrip(t: TimingPoint, s: seq<byte>, p: nat)
    requires Embeds(s, p, TimingPointBytes(t))
    ensures ReadTimingPoint(s, p) == Ok(Parsed(t, p + 17))
  {
    EmbedsParts(s);
  }

  // ---------------------------------------------------------------------
  // read_type over the closed set of kinds, and read_batch

  datatype Kind =
    | Int | String | Byte | Short | Long | Single | Double | Boolean
    | IntDoublepair | Timingpoint | DateTime

  /** Bytes consumed by every kind but String. */
  function Width(kind: Kind): nat
    requires kind != String
  {
    match kind
    case Int => 4
    case Byte => 1
    case Short => 2
    case Long => 8
    case Single => 4
    case Double => 8
    case Boolean => 1
    case IntDoublepair => 14
    case Timingpoint => 17
    case DateTime => 8
  }

  datatype Value =
    | IntValue(i: u32)
    | StringValue(payload: seq<byte>)
    | ByteValue(b: byte)
    | ShortValue(sh: u16)
    | LongValue(l: u64)
    | SingleValue(f: Bits32)
    | DoubleValue(d: Bits64)
    | BooleanValue(flag: bool)
    | PairValue(pair: IntDoublePair)
    | TimingValue(timing: TimingPoint)
    | DateTimeValue(ticks: u64)
  {
    function KindOf(): Kind
    {
      match this
      case IntValue(_) => Int
      case StringValue(_) => String
      case ByteValue(_) => Byte
      case ShortValue(_) => Short
      case LongValue(_) => Long
      case SingleValue(_) => Single
      case DoubleValue(_) => Double
      case BooleanValue(_) => Boolean
      case PairValue(_) => IntDoublepair
      case TimingValue(_) => Timingpoint
      case DateTimeValue(_) => DateTime
    }
  }

  /** read_type: a value of the requested kind. */
  function ReadType(s: seq<byte>, p: nat, kind: Kind): (r: Result<Parsed<Value>>)
    ensures r.Ok? ==> r.value.value.KindOf() == kind
  {
    match kind
    case Int => var x :- ReadInt(s, p); Ok(Parsed(IntValue(x.value), x.next))
    case String => var x :- ReadString(s, p); Ok(Parsed(StringValue(x.value), x.next))
    case Byte => var x :- ReadByte(s, p); Ok(Parsed(ByteValue(x.value), x.next))
    case Short => var x :- ReadShort(s, p); Ok(Parsed(ShortValue(x.value), x.next))
    case Long => var x :- ReadLong(s, p); Ok(Parsed(LongValue(x.value), x.next))
    case Single => var x :- ReadSingle(s, p); Ok(Parsed(SingleValue(x.value), x.next))
    case Double => var x :- ReadDouble(s, p); Ok(Parsed(DoubleValue(x.value), x.next))
    case Boolean => var x :- ReadBoolean(s, p); Ok(Parsed(BooleanValue(x.value), x.next))
    case IntDoublepair => var x :- ReadIntDoublePair(s, p); Ok(Parsed(PairValue(x.value), x.next))
    case Timingpoint => var x :- ReadTimingPoint(s, p); Ok(Parsed(TimingValue(x.value), x.next))
    case DateTime => var x :- ReadDateTime(s, p); Ok(Parsed(DateTimeValue(x.value), x.next))
  }

  /** Every kind but String consumes exactly its width and fails, with
   *  Truncated, exactly when fewer bytes remain. */
  lemma ReadTypeWidth(s: seq<byte>, p: nat, kind: Kind)
    requires kind != String
    ensures ReadType(s, p, kind).Ok? <==> p + Width(kind) <= |s|
    ensures ReadType(s, p, kind).Ok? ==> ReadType(s, p, kind).value.next == p + Width(kind)
    ensures ReadType(s, p, kind).Err? ==> ReadType(s, p, kind).error == Truncated
  {
    match kind
    case IntDoublepair =>
      assert ReadIntDoublePair(s, p).Ok? <==> p + 14 <= |s|;
    case Timingpoint =>
      assert ReadTimingPoint(s, p).Ok? <==> p + 17 <= |s|;
    case _ =>
  }

  lemma ReadTypeWidths(s: seq<byte>, kind: Kind)
    requires kind != String
    ensures forall q: nat :: ReadType(s, q, kind).Ok? <==> q + Width(kind) <= |s|
    ensures forall q: nat :: ReadType(s, q, kind).Ok? ==> ReadType(s, q, kind).value.next == q + Width(kind)
  {
    forall q: nat
      ensures ReadType(s, q, kind).Ok? <==> q + Width(kind) <= |s|
      ensures ReadType(s, q, kind).Ok? ==> ReadType(s, q, kind).value.next == q + Width(kind)
    {
      ReadTypeWidth(s, q, kind);
    }
  }

  /** `n` successive reads with `read`, in order, each starting where the
   *  previous one stopped; the first failure is the result. */
  function ReadMany<T>(read: (seq<byte>, nat) -> Result<Parsed<T>>, s: seq<byte>, p: nat, n: nat)
    : (r: Result<Parsed<seq<T>>>)
    ensures r.Ok? ==> |r.value.value| == n
    decreases n
  {
    if n == 0 then Ok(Parsed([], p))
    else
      var x :- read(s, p);
      var rest :- ReadMany(read, s, x.next, n - 1);
      Ok(Parsed([x.value] + rest.value, rest.next))
  }

  /** `xs` in front of a successful result. */
  function Prepend<T>(xs: seq<T>, r: Result<Parsed<seq<T>>>): Result<Parsed<seq<T>>>
  {
    match r
    case Ok(parsed) => Ok(Parsed(xs + parsed.value, parsed.next))
    case Err(e) => Err(e)
  }

  /** One read followed by the remaining n - 1: the step every reading loop
   *  takes, with the items read so far in front. */
  lemma ReadManyStep<T>(read: (seq<byte>, nat) -> Result<Parsed<T>>, s: seq<byte>, p: nat, n: nat, xs: seq<T>)
    requires n > 0
    ensures Prepend(xs, ReadMany(read, s, p, n)) ==
      match read(s, p)
      case Ok(x) => Prepend(xs + [x.value], ReadMany(read, s, x.next, n - 1))
      case Err(e) => Err(e)
  {
    match read(s, p)
    case Err(e) =>
    case Ok(x) =>
      match ReadMany(read, s, x.next, n - 1)
      case Err(e) =>
      case Ok(rest) =>
        assert xs + ([x.value] + rest.value) == (xs + [x.value]) + rest.value;
  }

  /** One turn of a reading loop that has read `xs` of `n` items from `p`
   *  and stands at `q`: the read there gives `x` and stops at `r`. */
  lemma ReadLoopAdvance<T>(read: (seq<byte>, nat) -> Result<Parsed<T>>, s: seq<byte>, p: nat, n: nat, i: nat,
                           xs: seq<T>, q: nat, x: T, r: nat)
    requires i < n && read(s, q) == Ok(Parsed(x, r))
    requires ReadMany(read, s, p, n) == Prepend(xs, ReadMany(read, s, q, n - i))
    ensures ReadMany(read, s, p, n) == Prepend(xs + [x], ReadMany(read, s, r, n - (i + 1)))
  {
    ReadManyStep(read, s, q, n - i, xs);
  }

  /** The same turn when the read at `q` fails: the whole read fails. */
  lemma ReadLoopStop<T>(read: (seq<byte>, nat) -> Result<Parsed<T>>, s: seq<byte>, p: nat, n: nat, i: nat,
                        xs: seq<T>, q: nat, e: Error)
    requires i < n && read(s, q) == Err(e)
    requires ReadMany(read, s, p, n) == Prepend(xs, ReadMany(read, s, q, n - i))
    ensures ReadMany(read, s, p, n) == Err(e)
  {
  }

  lemma PrependNothing<T>(r: Result<Parsed<seq<T>>>)
    ensures Prepend([], r) == r
  {
    if r.Ok? {
      assert [] + r.value.value == r.value.value;
    }
  }

  /** Reads of a fixed width `w` repeated `n` times consume n * w bytes, and
   *  fail exactly when fewer remain. */
  lemma {:induction false} ReadManyFixedWidth<T>(read: (seq<byte>, nat) -> Result<Parsed<T>>, w: nat,
                                                s: seq<byte>, p: nat, n: nat)
    requires p <= |s|
    requires forall q: nat :: read(s, q).Ok? <==> q + w <= |s|
    requires forall q: nat :: read(s, q).Ok? ==> read(s, q).value.next == q + w
    ensures ReadMany(read, s, p, n).Ok? <==> p + n * w <= |s|
    ensures ReadMany(read, s, p, n).Ok? ==> ReadMany(read, s, p, n).value.next == p + n * w
    decreases n
  {
    if n > 0 {
      MulStep(n, w);
      if read(s, p).Ok? {
        assert read(s, p).value.next == p + w;
        ReadManyFixedWidth(read, w, s, p + w, n - 1);
      }
    }
  }

  lemma MulStep(n: nat, w: nat)
    requires n > 0
    ensures n * w == w + (n - 1) * w && (n - 1) * w >= 0
  {
  }

  /** Item `i` of `n` reads of width `w` is the read at p + i * w. */
  lemma {:induction false} ReadManyElements<T>(read: (seq<byte>, nat) -> Result<Parsed<T>>, w: nat,
                                              s: seq<byte>, p: nat, n: nat, i: nat)
    requires forall q: nat :: read(s, q).Ok? ==> read(s, q).value.next == q + w
    requires ReadMany(read, s, p, n).Ok? && i < n
    ensures read(s, p + i * w) == Ok(Parsed(ReadMany(read, s, p, n).value.value[i], p + (i + 1) * w))
    decreases n
  {
    if i > 0 {
      ReadManyElements(read, w, s, p + w, n - 1, i - 1);
      assert p + w + (i - 1) * w == p + i * w;
      assert p + w + i * w == p + (i + 1) * w;
    }
  }

  /** A read followed by n more reads is n + 1 reads. */
  lemma ReadManyCons<T>(read: (seq<byte>, nat) -> Result<Parsed<T>>, s: seq<byte>, p: nat,
                        x: T, q: nat, rest: seq<T>, r: nat, n: nat)
    requires read(s, p) == Ok(Parsed(x, q))
    requires ReadMany(read, s, q, n) == Ok(Parsed(rest, r))
    ensures ReadMany(read, s, p, n + 1) == Ok(Parsed([x] + rest, r))
  {
  }

  /** `f` applied to every element, in order. */
  function MapSeq<A, B>(f: A -> B, xs: seq<A>): (ys: seq<B>)
    ensures |ys| == |xs| && forall i | 0 <= i < |xs| :: ys[i] == f(xs[i])
  {
    if xs == [] then [] else [f(xs[0])] + MapSeq(f, xs[1..])
  }

  /** A successful read's value passed through `f`. */
  function MapParsed<A, B>(f: A -> B, r: Result<Parsed<A>>): Result<Parsed<B>>
  {
    match r
    case Ok(x) => Ok(Parsed(f(x.value), x.next))
    case Err(e) => Err(e)
  }

  /** `read2` is `read` followed by `f`, wherever it starts in `s`. */
  ghost predicate ReadsMapped<A, B>(read2: (seq<byte>, nat) -> Result<Parsed<B>>, f: A -> B,
                                    read: (seq<byte>, nat) -> Result<Parsed<A>>, s: seq<byte>)
  {
    forall q: nat :: read2(s, q) == MapParsed(f, read(s, q))
  }

  /** n reads by `read2` are n reads by `read`, each mapped by `f`. */
  lemma {:induction false} ReadManyMapped<A, B>(read2: (seq<byte>, nat) -> Result<Parsed<B>>, f: A -> B,
                                               read: (seq<byte>, nat) -> Result<Parsed<A>>,
                                               s: seq<byte>, p: nat, n: nat)
    requires ReadsMapped(read2, f, read, s)
    ensures ReadMany(read2, s, p, n) ==
      match ReadMany(read, s, p, n)
      case Ok(r) => Ok(Parsed(MapSeq(f, r.value), r.next))
      case Err(e) => Err(e)
    decreases n
  {
    if n > 0 {
      assert read2(s, p) == MapParsed(f, read(s, p));
      match read(s, p)
      case Err(e) =>
      case Ok(x) =>
        ReadManyMapped(read2, f, read, s, x.next, n - 1);
        match ReadMany(read, s, x.next, n - 1)
        case Err(e) =>
        case Ok(rest) =>
          assert ([x.value] + rest.value)[1..] == rest.value;
    }
  }

  function EncodeMany<T>(enc: T -> seq<byte>, xs: seq<T>): seq<byte>
  {
    if xs == [] then [] else enc(xs[0]) + EncodeMany(enc, xs[1..])
  }

  /** `read` gives back every value wherever `s` holds its encoding by
   *  `enc`, and consumes exactly that encoding. */
  ghost predicate ReadsBack<T(!new)>(read: (seq<byte>, nat) -> Result<Parsed<T>>, enc: T -> seq<byte>, s: seq<byte>)
  {
    forall x: T, q: nat :: Embeds(s, q, enc(x)) ==>
      read(s, q).Ok? && read(s, q).value.value == x && read(s, q).value.next == q + |enc(x)|
  }

  lemma {:induction false} ReadManyRoundTrip<T(!new)>(read: (seq<byte>, nat) -> Result<Parsed<T>>,
                                               enc: T -> seq<byte>, xs: seq<T>, s: seq<byte>, p: nat)
    requires ReadsBack(read, enc, s)
    requires Embeds(s, p, EncodeMany(enc, xs))
    ensures ReadMany(read, s, p, |xs|) == Ok(Parsed(xs, p + |EncodeMany(enc, xs)|))
    decreases xs
  {
    if xs != [] {
      var q := p + |enc(xs[0])|;
      EmbedsSplit(s, p, enc(xs[0]), EncodeMany(enc, xs[1..]));
      assert read(s, p) == Ok(Parsed(xs[0], q));
      ReadManyRoundTrip(read, enc, xs[1..], s, q);
      assert [xs[0]] + xs[1..] == xs;
    }
  }

  /** ReadManyRoundTrip with the end of the encodings named. */
  lemma ReadManyRoundTripTo<T(!new)>(read: (seq<byte>, nat) -> Result<Parsed<T>>, enc: T -> seq<byte>,
                                     xs: seq<T>, s: seq<byte>, p: nat, q: nat)
    requires ReadsBack(read, enc, s)
    requires Embeds(s, p, EncodeMany(enc, xs)) && q == p + |EncodeMany(enc, xs)|
    ensures ReadMany(read, s, p, |xs|) == Ok(Parsed(xs, q))
  {
    ReadManyRoundTrip(read, enc, xs, s, p);
  }

  /** An Int-Double pair read anywhere takes 14 bytes, and fails exactly
   *  when fewer remain. */
  lemma PairWidths(s: seq<byte>)
    ensures forall q: nat :: ReadIntDoublePair(s, q).Ok? <==> q + 14 <= |s|
    ensures forall q: nat :: ReadIntDoublePair(s, q).Ok? ==> ReadIntDoublePair(s, q).value.next == q + 14
  {
    forall q: nat
      ensures ReadIntDoublePair(s, q).Ok? <==> q + 14 <= |s|
      ensures ReadIntDoublePair(s, q).Ok? ==> ReadIntDoublePair(s, q).value.next == q + 14
    {
      ReadTypeWidth(s, q, IntDoublepair);
    }
  }

  /** A timing point read anywhere takes 17 bytes, and fails exactly when
   *  fewer remain. */
  lemma TimingPointWidths(s: seq<byte>)
    ensures forall q: nat :: ReadTimingPoint(s, q).Ok? <==> q + 17 <= |s|
    ensures forall q: nat :: ReadTimingPoint(s, q).Ok? ==> ReadTimingPoint(s, q).value.next == q + 17
  {
    forall q: nat
      ensures ReadTimingPoint(s, q).Ok? <==> q + 17 <= |s|
      ensures ReadTimingPoint(s, q).Ok? ==> ReadTimingPoint(s, q).value.next == q + 17
    {
      ReadTypeWidth(s, q, Timingpoint);
    }
  }

  /** StringRoundTrip at every position. */
  lemma StringReads(s: seq<byte>)
    ensures ReadsBack(ReadString, StringBytes, s)
  {
    forall x: seq<byte>, q: nat | Embeds(s, q, StringBytes(x))
      ensures ReadString(s, q) == Ok(Parsed(x, q + |StringBytes(x)|))
    {
      StringRoundTrip(x, s, q);
    }
  }

  /** IntDoublePairRoundTrip at every position. */
  lemma PairReads(s: seq<byte>)
    ensures ReadsBack(ReadIntDoublePair, IntDoublePairBytes, s)
  {
    forall x: IntDoublePair, q: nat | Embeds(s, q, IntDoublePairBytes(x))
      ensures ReadIntDoublePair(s, q) == Ok(Parsed(x, q + |IntDoublePairBytes(x)|))
    {
      IntDoublePairRoundTrip(x, s, q);
    }
  }

  /** Successive Int-Double pairs read back from their encodings. */
  lemma PairsRoundTrip(xs: seq<IntDoublePair>, s: seq<byte>, p: nat)
    requires Embeds(s, p, EncodeMany(IntDoublePairBytes, xs))
    ensures ReadMany(ReadIntDoublePair, s, p, |xs|) == Ok(Parsed(xs, p + |EncodeMany(IntDoublePairBytes, xs)|))
  {
    PairReads(s);
    ReadManyRoundTrip(ReadIntDoublePair, IntDoublePairBytes, xs, s, p);
  }

  /** TimingPointRoundTrip at every position. */
  lemma TimingPointReads(s: seq<byte>)
    ensures ReadsBack(ReadTimingPoint, TimingPointBytes, s)
  {
    forall t: TimingPoint, q: nat | Embeds(s, q, TimingPointBytes(t))
      ensures ReadTimingPoint(s, q) == Ok(Parsed(t, q + |TimingPointBytes(t)|))
    {
      TimingPointRoundTrip(t, s, q);
    }
  }

  /** Successive timing points read back from their encodings. */
  lemma TimingPointsRoundTrip(ts: seq<TimingPoint>, s: seq<byte>, p: nat)
    requires Embeds(s, p, EncodeMany(TimingPointBytes, ts))
    ensures ReadMany(ReadTimingPoint, s, p, |ts|) == Ok(Parsed(ts, p + |EncodeMany(TimingPointBytes, ts)|))
  {
    TimingPointReads(s);
    ReadManyRoundTrip(ReadTimingPoint, TimingPointBytes, ts, s, p);
  }

  /** read_batch: `cnt` successive read_type reads of one kind. */
  function ReadBatch(s: seq<byte>, p: nat, cnt: nat, kind: Kind): (r: Result<Parsed<seq<Value>>>)
  {
    ReadMany((s': seq<byte>, p': nat) => ReadType(s', p', kind), s, p, cnt)
  }

  /** One read_type read followed by the remaining cnt - 1. */
  lemma ReadBatchStep(s: seq<byte>, p: nat, cnt: nat, kind: Kind, xs: seq<Value>)
    requires cnt > 0
    ensures Prepend(xs, ReadBatch(s, p, cnt, kind)) ==
      match ReadType(s, p, kind)
      case Ok(x) => Prepend(xs + [x.value], ReadBatch(s, x.next, cnt - 1, kind))
      case Err(e) => Err(e)
  {
    var read := (s': seq<byte>, p': nat) => ReadType(s', p', kind);
    ReadManyStep(read, s, p, cnt, xs);
    assert read(s, p) == ReadType(s, p, kind);
    if ReadType(s, p, kind).Ok? {
      var x := ReadType(s, p, kind).value;
      assert ReadBatch(s, x.next, cnt - 1, kind) == ReadMany(read, s, x.next, cnt - 1);
    }
  }

  /** A batch holds exactly `cnt` values of the requested kind; for a kind of
   *  fixed width, value i is the read_type read at p + i * width, the batch
   *  consumes cnt * width bytes and fails exactly when fewer remain. */
  lemma ReadBatchShape(s: seq<byte>, p: nat, cnt: nat, kind: Kind)
    requires p <= |s|
    ensures ReadBatch(s, p, cnt, kind).Ok? ==>
      var vs := ReadBatch(s, p, cnt, kind).value.value;
      |vs| == cnt && forall i | 0 <= i < cnt :: vs[i].KindOf() == kind
    ensures kind != String ==>
      (ReadBatch(s, p, cnt, kind).Ok? <==> p + cnt * Width(kind) <= |s|)
    ensures kind != String && ReadBatch(s, p, cnt, kind).Ok? ==>
      ReadBatch(s, p, cnt, kind).value.next == p + cnt * Width(kind)
    ensures kind != String && ReadBatch(s, p, cnt, kind).Ok? ==>
      forall i | 0 <= i < cnt :: ReadType(s, p + i * Width(kind), kind) ==
        Ok(Parsed(ReadBatch(s, p, cnt, kind).value.value[i], p + (i + 1) * Width(kind)))
  {
    var read := (s': seq<byte>, p': nat) => ReadType(s', p', kind);
    BatchKinds(s, p, cnt, kind);
    if kind != String {
      ReadTypeWidths(s, kind);
      ReadManyFixedWidth(read, Width(kind), s, p, cnt);
      if ReadBatch(s, p, cnt, kind).Ok? {
        forall i | 0 <= i < cnt
          ensures ReadType(s, p + i * Width(kind), kind) ==
            Ok(Parsed(ReadBatch(s, p, cnt, kind).value.value[i], p + (i + 1) * Width(kind)))
        {
          ReadManyElements(read, Width(kind), s, p, cnt, i);
        }
      }
    }
  }

  lemma {:induction false} BatchKinds(s: seq<byte>, p: nat, cnt: nat, kind: Kind)
    ensures ReadBatch(s, p, cnt, kind).Ok? ==>
      forall i | 0 <= i < cnt :: ReadBatch(s, p, cnt, kind).value.value[i].KindOf() == kind
    decreases cnt
  {
    if cnt > 0 && ReadBatch(s, p, cnt, kind).Ok? {
      var read := (s': seq<byte>, p': nat) => ReadType(s', p', kind);
      var x := ReadType(s, p, kind).value;
      assert read(s, p) == Ok(x);
      BatchKinds(s, x.next, cnt - 1, kind);
      assert ReadBatch(s, x.next, cnt - 1, kind) == ReadMany(read, s, x.next, cnt - 1);
      assert ReadBatch(s, p, cnt, kind).value.value
        == [x.value] + ReadBatch(s, x.next, cnt - 1, kind).value.value;
    }
  }

  /** The encoding of one value of any kind: the inverse of read_type. */
  function ValueBytes(v: Value): seq<byte>
  {
    match v
    case IntValue(i) => LittleEndianBytes(i, 4)
    case StringValue(payload) => StringBytes(payload)
    case ByteValue(b) => [b]
    case ShortValue(sh) => LittleEndianBytes(sh, 2)
    case LongValue(l) => LittleEndianBytes(l, 8)
    case SingleValue(f) => f
    case DoubleValue(d) => d
    case BooleanValue(flag) => [BooleanByte(flag)]
    case PairValue(pair) => IntDoublePairBytes(pair)
    case TimingValue(t) => TimingPointBytes(t)
    case DateTimeValue(ticks) => LittleEndianBytes(ticks, 8)
  }

  /** read_type of a value's own kind, wherever its encoding occurs, gives
   *  the value back and consumes exactly its encoding. */
  lemma ValueRoundTrip(v: Value, s: seq<byte>, p: nat, q: nat)
    requires Embeds(s, p, ValueBytes(v)) && q == p + |ValueBytes(v)|
    ensures ReadType(s, p, v.KindOf()) == Ok(Parsed(v, q))
  {
    Pow256Widths();
    match v
    case IntValue(i) => UIntRoundTrip(i, 4, s, p);
    case StringValue(payload) => StringRoundTrip(payload, s, p);
    case ByteValue(b) =>
    case ShortValue(sh) => UIntRoundTrip(sh, 2, s, p);
    case LongValue(l) => UIntRoundTrip(l, 8, s, p);
    case SingleValue(f) =>
    case DoubleValue(d) =>
    case BooleanValue(flag) =>
    case PairValue(pair) => IntDoublePairRoundTrip(pair, s, p);
    case TimingValue(t) => TimingPointRoundTrip(t, s, p);
    case DateTimeValue(ticks) => UIntRoundTrip(ticks, 8, s, p);
  }

  /** read_batch inverts the concatenated encodings of values of one kind. */
  lemma {:induction false} BatchRoundTrip(vs: seq<Value>, kind: Kind, s: seq<byte>, p: nat, q: nat)
    requires forall i | 0 <= i < |vs| :: vs[i].KindOf() == kind
    requires Embeds(s, p, EncodeMany(ValueBytes, vs)) && q == p + |EncodeMany(ValueBytes, vs)|
    ensures ReadBatch(s, p, |vs|, kind) == Ok(Parsed(vs, q))
    decreases vs
  {
    if vs != [] {
      var e0, e1 := ValueBytes(vs[0]), EncodeMany(ValueBytes, vs[1..]);
      var p1 := p + |e0|;
      EmbedsSplit(s, p, e0, e1);
      ValueRoundTrip(vs[0], s, p, p1);
      BatchRoundTrip(vs[1..], kind, s, p1, q);
      BatchCons(s, p, kind, vs[0], p1, vs[1..], q);
      assert [vs[0]] + vs[1..] == vs;
    }
  }

  /** A read_type read followed by a batch of n is a batch of n + 1. */
  lemma BatchCons(s: seq<byte>, p: nat, kind: Kind, x: Value, p1: nat, rest: seq<Value>, q: nat)
    requires ReadType(s, p, kind) == Ok(Parsed(x, p1))
    requires ReadBatch(s, p1, |rest|, kind) == Ok(Parsed(rest, q))
    ensures ReadBatch(s, p, |rest| + 1, kind) == Ok(Parsed([x] + rest, q))
  {
    var read := (s': seq<byte>, p': nat) => ReadType(s', p', kind);
    assert read(s, p) == Ok(Parsed(x, p1));
    ReadManyCons(read, s, p, x, p1, rest, q, |rest|);
  }

  /** Successive read_type reads, one per kind of `kinds`, in order. */
  function ReadKinds(s: seq<byte>, p: nat, kinds: seq<Kind>): (r: Result<Parsed<seq<Value>>>)
    decreases |kinds|
  {
    if kinds == [] then Ok(Parsed([], p))
    else
      var x :- ReadType(s, p, kinds[0]);
      var rest :- ReadKinds(s, x.next, kinds[1..]);
      Ok(Parsed([x.value] + rest.value, rest.next))
  }

  /** `vs` holds one value of each kind of `kinds`, in order. */
  predicate OfKinds(vs: seq<Value>, kinds: seq<Kind>)
  {
    |vs| == |kinds| && forall i | 0 <= i < |kinds| :: vs[i].KindOf() == kinds[i]
  }

  /** A successful read of `kinds` holds one value of each kind, in order. */
  lemma {:induction false} ReadKindsShape(s: seq<byte>, p: nat, kinds: seq<Kind>)
    ensures ReadKinds(s, p, kinds).Ok? ==> OfKinds(ReadKinds(s, p, kinds).value.value, kinds)
    decreases |kinds|
  {
    if kinds != [] && ReadKinds(s, p, kinds).Ok? {
      var x := ReadType(s, p, kinds[0]).value;
      ReadKindsShape(s, x.next, kinds[1..]);
      var vs := ReadKinds(s, p, kinds).value.value;
      assert vs == [x.value] + ReadKinds(s, x.next, kinds[1..]).value.value;
      assert forall i | 1 <= i < |vs| :: vs[i] == ReadKinds(s, x.next, kinds[1..]).value.value[i - 1];
    }
  }

  /** One read followed by the reads of the remaining kinds. */
  lemma ReadKindsStep(s: seq<byte>, p: nat, kinds: seq<Kind>, xs: seq<Value>)
    requires kinds != []
    ensures Prepend(xs, ReadKinds(s, p, kinds)) ==
      match ReadType(s, p, kinds[0])
      case Ok(x) => Prepend(xs + [x.value], ReadKinds(s, x.next, kinds[1..]))
      case Err(e) => Err(e)
  {
    match ReadType(s, p, kinds[0])
    case Err(e) =>
    case Ok(x) =>
      match ReadKinds(s, x.next, kinds[1..])
      case Err(e) =>
      case Ok(rest) =>
        assert xs + ([x.value] + rest.value) == (xs + [x.value]) + rest.value;
  }

  /** Reading the kinds of `vs` where their encodings occur gives `vs`
   *  back and consumes exactly the encodings. */
  lemma {:induction false} KindsRoundTrip(vs: seq<Value>, kinds: seq<Kind>, s: seq<byte>, p: nat, q: nat)
    requires OfKinds(vs, kinds)
    requires Embeds(s, p, EncodeMany(ValueBytes, vs)) && q == p + |EncodeMany(ValueBytes, vs)|
    ensures ReadKinds(s, p, kinds) == Ok(Parsed(vs, q))
    decreases vs
  {
    if vs != [] {
      var e0, e1 := ValueBytes(vs[0]), EncodeMany(ValueBytes, vs[1..]);
      var p1 := p + |e0|;
      EmbedsSplit(s, p, e0, e1);
      ValueRoundTrip(vs[0], s, p, p1);
      assert OfKinds(vs[1..], kinds[1..]);
      KindsRoundTrip(vs[1..], kinds[1..], s, p1, q);
      KindsCons(s, p, kinds, vs[0], p1, vs[1..], q);
      assert [vs[0]] + vs[1..] == vs;
    }
  }

  /** A read of the first kind followed by a read of the rest is a read of
   *  all the kinds. */
  lemma KindsCons(s: seq<byte>, p: nat, kinds: seq<Kind>, x: Value, q: nat, rest: seq<Value>, r: nat)
    requires kinds != []
    requires ReadType(s, p, kinds[0]) == Ok(Parsed(x, q))
    requires ReadKinds(s, q, kinds[1..]) == Ok(Parsed(rest, r))
    ensures ReadKinds(s, p, kinds) == Ok(Parsed([x] + rest, r))
  {
  }

  // ---------------------------------------------------------------------
  // The source's reads of short input, as written

  /** fobj.read(n) as Python performs it: at most `n` bytes, fewer at the
   *  end of the input, never an error. */
  function ReadUpTo(s: seq<byte>, p: nat, n: nat): Parsed<seq<byte>>
  {
    if p + n <= |s| then Parsed(s[p..p + n], p + n)
    else if p <= |s| then Parsed(s[p..], |s|)
    else Parsed([], p)
  }

  /** Int, Short, Long and DateTime as written: int.from_bytes of whatever
   *  the read returned. */
  function ReadUIntAsWritten(s: seq<byte>, p: nat, width: nat): Parsed<nat>
  {
    var bs := ReadUpTo(s, p, width);
    Parsed(LittleEndian(bs.value), bs.next)
  }

  /** Boolean as written: `bs != b"\x00"`. */
  function ReadBooleanAsWritten(s: seq<byte>, p: nat): Parsed<bool>
  {
    var bs := ReadUpTo(s, p, 1);
    Parsed(bs.value != [0x00], bs.next)
  }

  /** At the end of the input the source reads a Boolean as true and an Int
   *  from a single remaining byte 2A as 42, where the strict reads fail. */
  lemma TruncatedReadsAsWritten()
    ensures ReadBooleanAsWritten([], 0) == Parsed(true, 0)
    ensures ReadType([], 0, Boolean) == Err(Truncated)
    ensures ReadUIntAsWritten([0x2A], 0, 4) == Parsed(42, 1)
    ensures ReadType([0x2A], 0, Int) == Err(Truncated)
  {
    assert ReadUpTo([0x2A], 0, 4).value == [0x2A];
    assert LittleEndian([0x2A]) == 0x2A + 0x100 * LittleEndian([]);
  }
}
