/** The file object the decoders of db/fmt.py read from, as a forward-only
 *  cursor over the whole input.  Each method is one read of the source and
 *  is proved to return what the decoder of the same name in Fmt describes,
 *  leaving the cursor just after the bytes that decoder consumes. */
module Cursor {
  import opened Fmt

  /** A value `result` accumulated from the low groups of a ULEB128 integer,
   *  the remaining groups `r` counting from bit `shift` upwards. */
  function Shifted(result: nat, shift: nat, r: Result<Parsed<nat>>): Result<Parsed<nat>>
  {
    match r
    case Ok(parsed) => Ok(Parsed(result + Pow2(shift) * parsed.value, parsed.next))
    case Err(e) => Err(e)
  }

  /** One continuation byte moves seven bits from the rest into `result`. */
  lemma ShiftedStep(s: seq<byte>, p: nat, result: nat, shift: nat)
    requires p < |s| && s[p] >= 0x80
    ensures Shifted(result, shift, Uleb128(s, p))
      == Shifted(result + s[p] % 0x80 * Pow2(shift), shift + 7, Uleb128(s, p + 1))
  {
    Pow2Plus7(shift);
    match Uleb128(s, p + 1)
    case Err(e) =>
    case Ok(rest) =>
      calc {
        result + Pow2(shift) * (s[p] % 0x80 + 0x80 * rest.value);
        { MulDistributes(Pow2(shift), s[p] % 0x80, 0x80 * rest.value); }
        result + Pow2(shift) * (s[p] % 0x80) + Pow2(shift) * (0x80 * rest.value);
        { MulAssociates(Pow2(shift), 0x80, rest.value); }
        result + s[p] % 0x80 * Pow2(shift) + Pow2(shift + 7) * rest.value;
      }
  }

  /** Reading byte `p` into the accumulator keeps the accumulator below the
   *  next shift (so the source's `|=` of a group shifted past the groups
   *  already read is an addition) and, on the last byte, completes the
   *  decoded value. */
  lemma GroupStep(s: seq<byte>, p: nat, result: nat, shift: nat)
    requires p < |s| && result < Pow2(shift)
    ensures result + s[p] % 0x80 * Pow2(shift) < Pow2(shift + 7)
    ensures s[p] / 0x80 == 0 ==>
      Shifted(result, shift, Uleb128(s, p)) == Ok(Parsed(result + s[p] % 0x80 * Pow2(shift), p + 1))
    ensures s[p] / 0x80 != 0 ==>
      Shifted(result, shift, Uleb128(s, p))
        == Shifted(result + s[p] % 0x80 * Pow2(shift), shift + 7, Uleb128(s, p + 1))
  {
    Pow2Plus7(shift);
    GroupBound(result, s[p] % 0x80, Pow2(shift));
    if s[p] >= 0x80 {
      ShiftedStep(s, p, result, shift);
    } else {
      assert s[p] % 0x80 == s[p];
    }
  }

  /** A group below 0x80 placed at weight `w` over an accumulator below `w`
   *  stays below the next weight. */
  lemma GroupBound(result: nat, g: nat, w: nat)
    requires result < w && g < 0x80
    ensures result + g * w < 0x80 * w
  {
    calc {
      result + g * w;
    <
      w + g * w;
    == { MulDistributes(w, g, 1); }
      (g + 1) * w;
    <= { MulMonotone(g + 1, 0x80, w); }
      0x80 * w;
    }
  }

  lemma MulMonotone(a: nat, b: nat, c: nat)
    requires a <= b
    ensures a * c <= b * c
  {
  }

  lemma MulDistributes(a: int, b: int, c: int)
    ensures a * (b + c) == a * b + a * c
  {
  }

  lemma MulAssociates(a: int, b: int, c: int)
    ensures a * (b * c) == (a * b) * c
  {
  }

  class Reader {
    /** The whole input. */
    const data: seq<byte>
    /** The position of the next unread byte. */
    var pos: nat

    ghost predicate Valid()
      reads this
    {
      pos <= |data|
    }

    constructor (input: seq<byte>)
      ensures data == input && pos == 0 && Valid()
    {
      data := input;
      pos := 0;
    }

    /** fobj.read(n); a read that would run past the end fails. */
    method ReadBytes(n: nat) returns (r: Result<seq<byte>>)
      requires Valid()
      modifies this
      ensures Valid()
      ensures Agrees(Fmt.ReadBytes(data, old(pos), n), r, pos)
    {
      if pos + n <= |data| {
        r := Ok(data[pos..pos + n]);
        pos := pos + n;
      } else {
        r := Err(Truncated);
      }
    }

    /** int.from_bytes(fobj.read(width), byteorder="little") */
    method ReadUInt(width: nat) returns (r: Result<nat>)
      requires Valid()
      modifies this
      ensures Valid()
      ensures Agrees(Fmt.ReadUInt(data, old(pos), width), r, pos)
    {
      var bs :- ReadBytes(width);
      LittleEndianBound(bs);
      return Ok(LittleEndian(bs));
    }

    /** read_type("Byte") */
    method ReadByte() returns (r: Result<byte>)
      requires Valid()
      modifies this
      ensures Valid()
      ensures Agrees(Fmt.ReadByte(data, old(pos)), r, pos)
    {
      var bs :- ReadBytes(1);
      return Ok(bs[0]);
    }

    /** read_type("Short") */
    method ReadShort() returns (r: Result<u16>)
      requires Valid()
      modifies this
      ensures Valid()
      ensures Agrees(Fmt.ReadShort(data, old(pos)), r, pos)
    {
      Pow256Widths();
      var n :- ReadUInt(2);
      return Ok(n as u16);
    }

    /** read_type("Int") */
    method ReadInt() returns (r: Result<u32>)
      requires Valid()
      modifies this
      ensures Valid()
      ensures Agrees(Fmt.ReadInt(data, old(pos)), r, pos)
    {
      Pow256Widths();
      var n :- ReadUInt(4);
      return Ok(n as u32);
    }

    /** read_type("Long") */
    method ReadLong() returns (r: Result<u64>)
      requires Valid()
      modifies this
      ensures Valid()
      ensures Agrees(Fmt.ReadLong(data, old(pos)), r, pos)
    {
      Pow256Widths();
      var n :- ReadUInt(8);
      return Ok(n as u64);
    }

    /** read_type("DateTime") */
    method ReadDateTime() returns (r: Result<u64>)
      requires Valid()
      modifies this
      ensures Valid()
      ensures Agrees(Fmt.ReadDateTime(data, old(pos)), r, pos)
    {
      Pow256Widths();
      var n :- ReadUInt(8);
      return Ok(n as u64);
    }

    /** read_type("Single"), kept as its four raw bytes. */
    method ReadSingle() returns (r: Result<Bits32>)
      requires Valid()
      modifies this
      ensures Valid()
      ensures Agrees(Fmt.ReadSingle(data, old(pos)), r, pos)
    {
      var bs :- ReadBytes(4);
      return Ok(bs);
    }

    /** read_type("Double"), kept as its eight raw bytes. */
    method ReadDouble() returns (r: Result<Bits64>)
      requires Valid()
      modifies this
      ensures Valid()
      ensures Agrees(Fmt.ReadDouble(data, old(pos)), r, pos)
    {
      var bs :- ReadBytes(8);
      return Ok(bs);
    }

    /** read_type("Boolean") */
    method ReadBoolean() returns (r: Result<bool>)
      requires Valid()
      modifies this
      ensures Valid()
      ensures Agrees(Fmt.ReadBoolean(data, old(pos)), r, pos)
    {
      var bs :- ReadBytes(1);
      return Ok(bs != [0x00]);
    }

    /** parse_uleb128: one byte at a time, adding its low seven bits at
     *  `shift`, until a byte with the high bit clear.  Running out of input
     *  is the source's IndexError. */
    method ParseUleb128() returns (r: Result<nat>)
      requires Valid()
      modifies this
      ensures Valid()
      ensures Agrees(Uleb128(data, old(pos)), r, pos)
    {
      var result: nat := 0;
      var shift: nat := 0;
      while true
        invariant old(pos) <= pos <= |data|
        invariant result < Pow2(shift)
        invariant Uleb128(data, old(pos)) == Shifted(result, shift, Uleb128(data, pos))
        decreases |data| - pos
      {
        if pos >= |data| {
          return Err(Truncated);
        }
        var b := data[pos];
        pos := pos + 1;
        GroupStep(data, pos - 1, result, shift);
        result := result + b % 0x80 * Pow2(shift);
        if b / 0x80 == 0 {
          return Ok(result);
        }
        shift := shift + 7;
      }
    }

    /** parse_string: the indicator byte, then nothing (0x00) or a ULEB128
     *  length and that many payload bytes (0x0B); any other indicator is
     *  the source's ValueError. */
    method ReadString() returns (r: Result<seq<byte>>)
      requires Valid()
      modifies this
      ensures Valid()
      ensures Agrees(Fmt.ReadString(data, old(pos)), r, pos)
    {
      if pos >= |data| {
        return Err(Truncated);
      }
      var indicator := data[pos];
      pos := pos + 1;
      if indicator == 0x00 {
        r := Ok([]);
      } else if indicator == 0x0B {
        var n :- ParseUleb128();
        r := ReadBytes(n);
      } else {
        r := Err(MalformedString(indicator));
      }
    }

    /** read_type("IntDoublepair"): the tag bytes are read and dropped. */
    method ReadIntDoublePair() returns (r: Result<IntDoublePair>)
      requires Valid()
      modifies this
      ensures Valid()
      ensures Agrees(Fmt.ReadIntDoublePair(data, old(pos)), r, pos)
    {
      var _ :- ReadByte();
      var i :- ReadInt();
      var _ :- ReadByte();
      var d :- ReadDouble();
      return Ok(IntDoublePair(i, d));
    }

    /** read_type("Timingpoint") */
    method ReadTimingPoint() returns (r: Result<TimingPoint>)
      requires Valid()
      modifies this
      ensures Valid()
      ensures Agrees(Fmt.ReadTimingPoint(data, old(pos)), r, pos)
    {
      var bpm :- ReadDouble();
      var offset :- ReadDouble();
      var uninherited :- ReadBoolean();
      return Ok(TimingPoint(bpm, offset, uninherited));
    }

    /** read_type: one branch per kind. */
    method ReadType(kind: Kind) returns (r: Result<Value>)
      requires Valid()
      modifies this
      ensures Valid()
      ensures Agrees(Fmt.ReadType(data, old(pos), kind), r, pos)
    {
      match kind
      case Int => var x :- ReadInt(); r := Ok(IntValue(x));
      case String => var x :- ReadString(); r := Ok(StringValue(x));
      case Byte => var x :- ReadByte(); r := Ok(ByteValue(x));
      case Short => var x :- ReadShort(); r := Ok(ShortValue(x));
      case Long => var x :- ReadLong(); r := Ok(LongValue(x));
      case Single => var x :- ReadSingle(); r := Ok(SingleValue(x));
      case Double => var x :- ReadDouble(); r := Ok(DoubleValue(x));
      case Boolean => var x :- ReadBoolean(); r := Ok(BooleanValue(x));
      case IntDoublepair => var x :- ReadIntDoublePair(); r := Ok(PairValue(x));
      case Timingpoint => var x :- ReadTimingPoint(); r := Ok(TimingValue(x));
      case DateTime => var x :- ReadDateTime(); r := Ok(DateTimeValue(x));
    }

    /** read_batch: `cnt` successive read_type reads, in order. */
    method ReadBatch(cnt: nat, kind: Kind) returns (r: Result<seq<Value>>)
      requires Valid()
      modifies this
      ensures Valid()
      ensures Agrees(Fmt.ReadBatch(data, old(pos), cnt, kind), r, pos)
    {
      var values: seq<Value> := [];
      PrependNothing(Fmt.ReadBatch(data, pos, cnt, kind));
      for i := 0 to cnt
        invariant Valid()
        invariant Fmt.ReadBatch(data, old(pos), cnt, kind)
          == Prepend(values, Fmt.ReadBatch(data, pos, cnt - i, kind))
      {
        ReadBatchStep(data, pos, cnt - i, kind, values);
        var v :- ReadType(kind);
        values := values + [v];
      }
      assert values + [] == values;
      return Ok(values);
    }

    /** Successive read_type reads, one per kind of `kinds`, in order. */
    method ReadKinds(kinds: seq<Kind>) returns (r: Result<seq<Value>>)
      requires Valid()
      modifies this
      ensures Valid()
      ensures Agrees(Fmt.ReadKinds(data, old(pos), kinds), r, pos)
    {
      var values: seq<Value> := [];
      PrependNothing(Fmt.ReadKinds(data, pos, kinds));
      for i := 0 to |kinds|
        invariant Valid()
        invariant Fmt.ReadKinds(data, old(pos), kinds) == Prepend(values, Fmt.ReadKinds(data, pos, kinds[i..]))
      {
        ReadKindsStep(data, pos, kinds[i..], values);
        assert kinds[i..][1..] == kinds[i + 1..];
        var v :- ReadType(kinds[i]);
        values := values + [v];
      }
      assert values + [] == values;
      return Ok(values);
    }
  }
}
