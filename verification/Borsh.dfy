/** The little-endian Borsh codec of sdk/src/borsh.ts: a writer of parts, and a reader that walks a buffer. */
module Borsh {
  import opened Wrappers
  import opened Numbers

  type Byte = n: nat | n < 256

  datatype CodecError = OutOfRange

  const TWO_63: int := 0x8000_0000_0000_0000
  const TWO_64: int := 0x1_0000_0000_0000_0000

  // ---- Little-endian words ---------------------------------------------------------------------

  function LE(v: nat, width: nat): (r: seq<Byte>)
    ensures |r| == width
  {
    if width == 0 then [] else [v % 256] + LE(v / 256, width - 1)
  }

  function FromLE(bytes: seq<Byte>): nat {
    if bytes == [] then 0 else bytes[0] + 256 * FromLE(bytes[1..])
  }

  /** Byte `k` of a word is its digit `k` to the base 256, the lowest first. */
  lemma {:induction false} ByteIsDigit(v: nat, width: nat, k: nat)
    requires k < width
    ensures Pow(256, k) > 0 && LE(v, width)[k] == (v / Pow(256, k)) % 256
  {
    PowPositive(256, k);
    if k > 0 {
      ByteIsDigit(v / 256, width - 1, k - 1);
      PowPositive(256, k - 1);
      DivDiv(v, Pow(256, k - 1));
    }
  }

  lemma DivDiv(v: nat, p: nat)
    requires p > 0
    ensures 256 * p > 0 && (v / 256) / p == v / (256 * p)
  {
    var q := v / (256 * p);
    var r := v - 256 * p * q;
    assert 0 <= r < 256 * p;
    assert v / 256 == p * q + r / 256;
    assert r / 256 < p;
    QuotientIs(v / 256, p, q, r / 256);
  }

  lemma QuotientIs(n: nat, p: nat, q: nat, r: nat)
    requires p > 0 && n == p * q + r && r < p
    ensures n / p == q
  {
    if n / p < q {
      MulMono(p, p, n / p + 1, q);
    } else if n / p > q {
      MulMono(p, p, q + 1, n / p);
    }
  }

  /** Reading back what was written gives the value modulo the width. */
  lemma {:induction false} WordReadsBack(v: nat, width: nat)
    requires v < Pow(256, width)
    ensures FromLE(LE(v, width)) == v
  {
    if width > 0 {
      WordReadsBack(v / 256, width - 1);
      assert LE(v, width)[1..] == LE(v / 256, width - 1);
    }
  }

  /** Every byte string is the encoding of exactly one value of its width. */
  lemma {:induction false} WordRewrites(bytes: seq<Byte>)
    ensures FromLE(bytes) < Pow(256, |bytes|)
    ensures LE(FromLE(bytes), |bytes|) == bytes
  {
    if bytes != [] {
      WordRewrites(bytes[1..]);
      assert FromLE(bytes) / 256 == FromLE(bytes[1..]);
    }
  }

  lemma Widths()
    ensures Pow(256, 1) == 256 && Pow(256, 2) == 0x1_0000 && Pow(256, 4) == 0x1_0000_0000 && Pow(256, 8) == TWO_64
  {
    assert Pow(256, 1) == 256;
    assert Pow(256, 2) == 256 * Pow(256, 1);
    assert Pow(256, 3) == 256 * Pow(256, 2);
    assert Pow(256, 4) == 256 * Pow(256, 3);
    assert Pow(256, 5) == 256 * Pow(256, 4);
    assert Pow(256, 6) == 256 * Pow(256, 5);
    assert Pow(256, 7) == 256 * Pow(256, 6);
  }

  /** Two's complement. */
  function Unsigned(v: int): int {
    if v < 0 then v + TWO_64 else v
  }

  function Signed(n: int): int {
    if n >= TWO_63 then n - TWO_64 else n
  }

  // ---- Fields ----------------------------------------------------------------------------------

  datatype Field =
    | U8(v: int) | U16(v: int) | U32(v: int) | U64(v: int) | I64(v: int) | Bool(b: bool) | PubKey(key: seq<Byte>)

  datatype FieldType = TU8 | TU16 | TU32 | TU64 | TI64 | TBool | TPubKey
  {
    function Width(): nat {
      match this
      case TU8 => 1 case TU16 => 2 case TU32 => 4 case TU64 => 8 case TI64 => 8 case TBool => 1 case TPubKey => 32
    }
  }

  function TypeOf(f: Field): FieldType {
    match f
    case U8(_) => TU8 case U16(_) => TU16 case U32(_) => TU32 case U64(_) => TU64 case I64(_) => TI64
    case Bool(_) => TBool case PubKey(_) => TPubKey
  }

  /** The values a type is meant to hold. */
  predicate InRange(f: Field) {
    match f
    case U8(v) => 0 <= v < 256
    case U16(v) => 0 <= v < 0x1_0000
    case U32(v) => 0 <= v < 0x1_0000_0000
    case U64(v) => 0 <= v < TWO_64
    case I64(v) => -TWO_63 <= v < TWO_63
    case Bool(_) => true
    case PubKey(key) => |key| == 32
  }

  /** Small words are masked, 64-bit words are range checked, keys are copied as they are. */
  function Encode(f: Field): Result<seq<Byte>, CodecError> {
    match f
    case U8(v) => Ok(LE(v % 256, 1))
    case U16(v) => Ok(LE(v % 0x1_0000, 2))
    case U32(v) => Ok(LE(v % 0x1_0000_0000, 4))
    case U64(v) => if 0 <= v < TWO_64 then Ok(LE(v, 8)) else Err(OutOfRange)
    case I64(v) => if -TWO_63 <= v < TWO_63 then Ok(LE(Unsigned(v), 8)) else Err(OutOfRange)
    case Bool(b) => Ok(LE(if b then 1 else 0, 1))
    case PubKey(key) => Ok(key)
  }

  function NumAt(buf: seq<Byte>, offset: nat, width: nat): nat
    requires offset + width <= |buf|
  {
    FromLE(buf[offset..offset + width])
  }

  /** A fixed-width read. */
  function Word(buf: seq<Byte>, offset: nat, width: nat): Result<nat, CodecError> {
    if offset + width <= |buf| then Ok(NumAt(buf, offset, width)) else Err(OutOfRange)
  }

  /** A slice that stops at the end of the buffer instead of failing. */
  function Clamped(buf: seq<Byte>, lo: nat, hi: nat): seq<Byte>
    requires lo <= hi
  {
    buf[Min(lo, |buf|)..Min(hi, |buf|)]
  }

  function OfWord(t: FieldType, n: nat): Field
    requires t != TPubKey
  {
    match t
    case TU8 => U8(n) case TU16 => U16(n) case TU32 => U32(n) case TU64 => U64(n)
    case TI64 => I64(Signed(n)) case _ => Bool(n == 1)
  }

  function Decode(t: FieldType, buf: seq<Byte>, offset: nat): Result<Field, CodecError> {
    if t == TPubKey then Ok(PubKey(Clamped(buf, offset, offset + 32)))
    else
      var n :- Word(buf, offset, t.Width());
      Ok(OfWord(t, n))
  }

  function EncodeAll(fs: seq<Field>): Result<seq<Byte>, CodecError> {
    if fs == [] then Ok([])
    else
      var first :- Encode(fs[0]);
      var rest :- EncodeAll(fs[1..]);
      Ok(first + rest)
  }

  /** The fields of the given types from `offset` on, and where the reader then stands. */
  function DecodeAll(ts: seq<FieldType>, buf: seq<Byte>, offset: nat): Result<(seq<Field>, nat), CodecError> {
    if ts == [] then Ok(([], offset))
    else
      var first :- Decode(ts[0], buf, offset);
      var rest :- DecodeAll(ts[1..], buf, offset + ts[0].Width());
      Ok(([first] + rest.0, rest.1))
  }

  function TypesOf(fs: seq<Field>): seq<FieldType> {
    seq(|fs|, i requires 0 <= i < |fs| => TypeOf(fs[i]))
  }

  // ---- Round trips -----------------------------------------------------------------------------

  lemma InRangeEncodes(f: Field)
    requires InRange(f)
    ensures Encode(f).Ok? && |Encode(f).value| == TypeOf(f).Width()
  {
  }

  /** In-range fields read back from wherever they were put. */
  lemma FieldReadsBack(f: Field, buf: seq<Byte>, offset: nat)
    requires InRange(f)
    requires offset + TypeOf(f).Width() <= |buf|
    requires Encode(f).Ok? && buf[offset..offset + TypeOf(f).Width()] == Encode(f).value
    ensures Decode(TypeOf(f), buf, offset) == Ok(f)
  {
    hide LE, FromLE, Pow;
    Widths();
    match f
    case U8(v) => WordReadsBack(v, 1);
    case U16(v) => WordReadsBack(v, 2);
    case U32(v) => WordReadsBack(v, 4);
    case U64(v) => WordReadsBack(v, 8);
    case I64(v) => WordReadsBack(Unsigned(v), 8);
    case Bool(b) => WordReadsBack(if b then 1 else 0, 1);
    case PubKey(_) =>
  }

  /**
    * For every list of in-range fields, reading the same types from the bytes written returns the same fields and
    * ends where the bytes end, whatever surrounds them.
    */
  lemma {:induction false} RoundTrip(fs: seq<Field>, before: seq<Byte>, after: seq<Byte>)
    requires forall f | f in fs :: InRange(f)
    ensures EncodeAll(fs).Ok?
    ensures DecodeAll(TypesOf(fs), before + EncodeAll(fs).value + after, |before|)
         == Ok((fs, |before| + |EncodeAll(fs).value|))
  {
    hide Encode, Decode, InRange, TypeOf;
    if fs != [] {
      InRangeEncodes(fs[0]);
      var first := Encode(fs[0]).value;
      RoundTrip(fs[1..], before + first, after);
      var rest := EncodeAll(fs[1..]).value;
      var buf := before + (first + rest) + after;
      assert buf == before + first + rest + after;
      assert buf[|before|..|before| + |first|] == first;
      FieldReadsBack(fs[0], buf, |before|);
      assert TypesOf(fs)[1..] == TypesOf(fs[1..]);
      assert [fs[0]] + fs[1..] == fs;
    }
  }

  /** Out-of-range values that are still written do not come back: the range is exactly what survives. */
  lemma OnlyInRangeSurvives(f: Field)
    requires Encode(f).Ok?
    ensures InRange(f) <==>
              && Decode(TypeOf(f), Encode(f).value, 0) == Ok(f)
              && TypeOf(f).Width() == |Encode(f).value|
  {
    var bytes := Encode(f).value;
    if InRange(f) {
      InRangeEncodes(f);
      FieldReadsBack(f, bytes, 0);
    } else {
      hide LE, FromLE, Pow;
      Widths();
      match f
      case U8(v) => WordReadsBack(v % 256, 1); assert bytes[0..1] == bytes;
      case U16(v) => WordReadsBack(v % 0x1_0000, 2); assert bytes[0..2] == bytes;
      case U32(v) => WordReadsBack(v % 0x1_0000_0000, 4); assert bytes[0..4] == bytes;
      case PubKey(key) =>
    }
  }

  /** Different lists of the same types never share an encoding. */
  lemma EncodingIsInjective(fs: seq<Field>, gs: seq<Field>)
    requires forall f | f in fs :: InRange(f)
    requires forall g | g in gs :: InRange(g)
    requires TypesOf(fs) == TypesOf(gs) && EncodeAll(fs) == EncodeAll(gs)
    ensures fs == gs
  {
    hide *;
    RoundTrip(fs, [], []);
    RoundTrip(gs, [], []);
  }

  // ---- Writing back ----------------------------------------------------------------------------

  /** The bytes read as booleans are 0 or 1. */
  predicate BoolsClean(ts: seq<FieldType>, buf: seq<Byte>, offset: nat) {
    ts == []
    || ((ts[0] == TBool && offset < |buf| ==> buf[offset] <= 1) && BoolsClean(ts[1..], buf, offset + ts[0].Width()))
  }

  lemma WordFieldRewrites(t: FieldType, n: nat)
    requires t != TPubKey && t != TBool && n < Pow(256, t.Width())
    ensures Encode(OfWord(t, n)) == Ok(LE(n, t.Width()))
  {
    hide LE, Pow, Signed, Unsigned;
    Widths();
    match t
    case TU8 => SmallMod(n, 256);
    case TU16 => SmallMod(n, 0x1_0000);
    case TU32 => SmallMod(n, 0x1_0000_0000);
    case TU64 =>
    case TI64 => SignTwice(n);
  }

  lemma SmallMod(n: nat, w: nat)
    requires n < w
    ensures n % w == n
  {
  }

  lemma SignTwice(n: nat)
    requires n < TWO_64
    ensures Unsigned(Signed(n)) == n && -TWO_63 <= Signed(n) < TWO_63
  {
  }

  lemma FieldRewrites(t: FieldType, buf: seq<Byte>, offset: nat)
    requires offset + t.Width() <= |buf|
    ensures Decode(t, buf, offset).Ok?
    ensures var e := Encode(Decode(t, buf, offset).value);
            && e.Ok? && |e.value| == t.Width()
            && (e.value == buf[offset..offset + t.Width()] <==> (t == TBool ==> buf[offset] <= 1))
  {
    hide LE, FromLE, Pow;
    var bytes := buf[offset..offset + t.Width()];
    WordRewrites(bytes);
    if t == TBool {
      assert bytes == [buf[offset]];
      OneByte(buf[offset]);
      OneByte(if buf[offset] == 1 then 1 else 0);
    } else if t != TPubKey {
      hide Encode, OfWord;
      WordFieldRewrites(t, FromLE(bytes));
    }
  }

  lemma OneByte(n: Byte)
    ensures FromLE([n]) == n && LE(n, 1) == [n]
  {
    assert [n][1..] == [];
    assert LE(n, 1) == [n] + LE(0, 0);
  }

  /**
    * Decoding and encoding again gives the bytes that were read exactly when every byte read as a boolean is 0 or
    * 1; any other byte is read as false and written back as 0.
    */
  lemma {:induction false} RewriteIsExact(ts: seq<FieldType>, buf: seq<Byte>, offset: nat)
    requires DecodeAll(ts, buf, offset).Ok? && DecodeAll(ts, buf, offset).value.1 <= |buf|
    ensures var r := DecodeAll(ts, buf, offset).value;
            && offset <= r.1
            && EncodeAll(r.0).Ok? && |EncodeAll(r.0).value| == r.1 - offset
            && (EncodeAll(r.0).value == buf[offset..r.1] <==> BoolsClean(ts, buf, offset))
  {
    hide Encode, Decode;
    if ts != [] {
      var width := ts[0].Width();
      StaysAhead(ts[1..], buf, offset + width);
      RewriteIsExact(ts[1..], buf, offset + width);
      FieldRewrites(ts[0], buf, offset);
      var r, tail := DecodeAll(ts, buf, offset).value, DecodeAll(ts[1..], buf, offset + width).value;
      assert r.0[1..] == tail.0;
      var first, rest := Encode(r.0[0]).value, EncodeAll(tail.0).value;
      assert buf[offset..r.1] == buf[offset..offset + width] + buf[offset + width..r.1];
      assert (first + rest)[..width] == first && (first + rest)[width..] == rest;
      assert buf[offset..r.1][..width] == buf[offset..offset + width];
      assert buf[offset..r.1][width..] == buf[offset + width..r.1];
    }
  }

  lemma {:induction false} StaysAhead(ts: seq<FieldType>, buf: seq<Byte>, offset: nat)
    requires DecodeAll(ts, buf, offset).Ok?
    ensures offset <= DecodeAll(ts, buf, offset).value.1
  {
    hide Decode;
    if ts != [] {
      StaysAhead(ts[1..], buf, offset + ts[0].Width());
    }
  }

  /** A dirty flag: the byte 2 decodes to false, which encodes to 0. */
  lemma DirtyBool()
    ensures Decode(TBool, [2], 0) == Ok(Bool(false)) && Encode(Bool(false)) == Ok([0])
  {
    assert [2][0..1] == [2];
    OneByte(2);
    OneByte(0);
  }

  // ---- The writer ------------------------------------------------------------------------------

  function Flatten(parts: seq<seq<Byte>>): seq<Byte> {
    if parts == [] then [] else parts[0] + Flatten(parts[1..])
  }

  lemma {:induction false} FlattenAppend(parts: seq<seq<Byte>>, more: seq<seq<Byte>>)
    ensures Flatten(parts + more) == Flatten(parts) + Flatten(more)
  {
    if parts == [] {
      assert parts + more == more;
    } else {
      assert (parts + more)[1..] == parts[1..] + more;
      FlattenAppend(parts[1..], more);
    }
  }

  lemma FlattenPush(parts: seq<seq<Byte>>, part: seq<Byte>)
    ensures Flatten(parts + [part]) == Flatten(parts) + part
  {
    FlattenAppend(parts, [part]);
    assert [part][1..] == [];
  }

  class BorshWriter {
    var parts: seq<seq<Byte>>

    constructor ()
      ensures Bytes() == []
    {
      parts := [];
    }

    function Bytes(): seq<Byte>
      reads this
    {
      Flatten(parts)
    }

    method Push(part: seq<Byte>)
      modifies this
      ensures Bytes() == old(Bytes()) + part
    {
      FlattenPush(parts, part);
      parts := parts + [part];
    }

    method PutU8(v: int)
      modifies this
      ensures Encode(U8(v)).Ok? && Bytes() == old(Bytes()) + Encode(U8(v)).value
    {
      Push(LE(v % 256, 1));
    }

    method PutU16(v: int)
      modifies this
      ensures Encode(U16(v)).Ok? && Bytes() == old(Bytes()) + Encode(U16(v)).value
    {
      Push(LE(v % 0x1_0000, 2));
    }

    method PutU32(v: int)
      modifies this
      ensures Encode(U32(v)).Ok? && Bytes() == old(Bytes()) + Encode(U32(v)).value
    {
      Push(LE(v % 0x1_0000_0000, 4));
    }

    method PutU64(v: int) returns (r: Outcome<CodecError>)
      modifies this
      ensures r.Pass? <==> Encode(U64(v)).Ok?
      ensures Bytes() == old(Bytes()) + (if r.Pass? then Encode(U64(v)).value else [])
    {
      if !(0 <= v < TWO_64) {
        return Fail(OutOfRange);
      }
      Push(LE(v, 8));
      return Pass;
    }

    method PutI64(v: int) returns (r: Outcome<CodecError>)
      modifies this
      ensures r.Pass? <==> Encode(I64(v)).Ok?
      ensures Bytes() == old(Bytes()) + (if r.Pass? then Encode(I64(v)).value else [])
    {
      if !(-TWO_63 <= v < TWO_63) {
        return Fail(OutOfRange);
      }
      Push(LE(Unsigned(v), 8));
      return Pass;
    }

    method PutBool(b: bool)
      modifies this
      ensures Encode(Bool(b)).Ok? && Bytes() == old(Bytes()) + Encode(Bool(b)).value
    {
      PutU8(if b then 1 else 0);
    }

    method PutKey(key: seq<Byte>)
      modifies this
      ensures Bytes() == old(Bytes()) + key
    {
      Push(key);
    }

    /** Goes in front of everything written so far. */
    method Disc(d: seq<Byte>)
      modifies this
      ensures Bytes() == d + old(Bytes())
    {
      parts := [d] + parts;
      assert parts[1..] == old(parts);
    }

    method Build() returns (r: seq<Byte>)
      ensures r == Bytes()
    {
      r := [];
      for i := 0 to |parts|
        invariant r == Flatten(parts[..i])
      {
        assert parts[..i + 1] == parts[..i] + [parts[i]];
        FlattenPush(parts[..i], parts[i]);
        r := r + parts[i];
      }
      assert parts[..|parts|] == parts;
    }
  }

  // ---- Discriminators --------------------------------------------------------------------------

  datatype Call = Put(field: Field) | Prepend(d: seq<Byte>)

  /** What a sequence of calls leaves in the writer. */
  function Written(calls: seq<Call>): Result<seq<Byte>, CodecError> {
    if calls == [] then Ok([])
    else
      var before :- Written(calls[..|calls| - 1]);
      match calls[|calls| - 1]
      case Put(f) => var bytes :- Encode(f); Ok(before + bytes)
      case Prepend(d) => Ok(d + before)
  }

  function Puts(calls: seq<Call>): seq<Field> {
    if calls == [] then []
    else
      var fs := Puts(calls[..|calls| - 1]);
      if calls[|calls| - 1].Put? then fs + [calls[|calls| - 1].field] else fs
  }

  /** The discriminators, the last one first. */
  function Discs(calls: seq<Call>): seq<Byte> {
    if calls == [] then []
    else
      var ds := Discs(calls[..|calls| - 1]);
      if calls[|calls| - 1].Prepend? then calls[|calls| - 1].d + ds else ds
  }

  lemma {:induction false} EncodeAllAppend(fs: seq<Field>, f: Field)
    ensures var a, b := EncodeAll(fs), Encode(f);
            if a.Ok? && b.Ok? then EncodeAll(fs + [f]) == Ok(a.value + b.value)
            else EncodeAll(fs + [f]).Err?
  {
    hide Encode;
    if fs == [] {
      assert fs + [f] == [f];
      assert [f][1..] == [];
      if Encode(f).Ok? {
        assert Encode(f).value + [] == [] + Encode(f).value;
      }
    } else {
      assert (fs + [f])[1..] == fs[1..] + [f];
      EncodeAllAppend(fs[1..], f);
      var a, b, c := Encode(fs[0]), EncodeAll(fs[1..]), Encode(f);
      if a.Ok? && b.Ok? && c.Ok? {
        assert a.value + (b.value + c.value) == (a.value + b.value) + c.value;
      }
    }
  }

  /** Wherever among the calls a discriminator is added, it lands before all fields; several land in reverse order. */
  lemma {:induction false} DiscsLandFirst(calls: seq<Call>)
    ensures var fields := EncodeAll(Puts(calls));
            if fields.Ok? then Written(calls) == Ok(Discs(calls) + fields.value) else Written(calls).Err?
  {
    hide Encode;
    if calls == [] {
      assert Discs(calls) + EncodeAll(Puts(calls)).value == [];
    } else {
      var last := calls[|calls| - 1];
      DiscsLandFirst(calls[..|calls| - 1]);
      var ds, fields := Discs(calls[..|calls| - 1]), EncodeAll(Puts(calls[..|calls| - 1]));
      if last.Put? {
        EncodeAllAppend(Puts(calls[..|calls| - 1]), last.field);
        if fields.Ok? && Encode(last.field).Ok? {
          assert (ds + fields.value) + Encode(last.field).value == ds + (fields.value + Encode(last.field).value);
        }
      } else if fields.Ok? {
        assert last.d + (ds + fields.value) == (last.d + ds) + fields.value;
      }
    }
  }

  // ---- The reader ------------------------------------------------------------------------------

  class BorshReader {
    const buf: seq<Byte>
    var offset: nat

    constructor (buf: seq<Byte>)
      ensures this.buf == buf && offset == 0
    {
      this.buf := buf;
      offset := 0;
    }

    method Skip(n: nat)
      modifies this
      ensures offset == old(offset) + n
    {
      offset := offset + n;
    }

    method GetWord(width: nat) returns (r: Result<nat, CodecError>)
      modifies this
      ensures r == Word(buf, old(offset), width)
      ensures offset == if r.Ok? then old(offset) + width else old(offset)
    {
      if offset + width > |buf| {
        return Err(OutOfRange);
      }
      r := Ok(NumAt(buf, offset, width));
      offset := offset + width;
    }

    method GetU8() returns (r: Result<int, CodecError>)
      modifies this
      ensures Decode(TU8, buf, old(offset)) == if r.Ok? then Ok(U8(r.value)) else Err(r.error)
      ensures r == if old(offset) + 1 <= |buf| then Ok(NumAt(buf, old(offset), 1)) else Err(OutOfRange)
      ensures offset == if r.Ok? then old(offset) + 1 else old(offset)
    {
      r := GetWord(1);
    }

    method GetU16() returns (r: Result<int, CodecError>)
      modifies this
      ensures Decode(TU16, buf, old(offset)) == if r.Ok? then Ok(U16(r.value)) else Err(r.error)
      ensures r == if old(offset) + 2 <= |buf| then Ok(NumAt(buf, old(offset), 2)) else Err(OutOfRange)
      ensures offset == if r.Ok? then old(offset) + 2 else old(offset)
    {
      r := GetWord(2);
    }

    method GetU32() returns (r: Result<int, CodecError>)
      modifies this
      ensures Decode(TU32, buf, old(offset)) == if r.Ok? then Ok(U32(r.value)) else Err(r.error)
      ensures r == if old(offset) + 4 <= |buf| then Ok(NumAt(buf, old(offset), 4)) else Err(OutOfRange)
      ensures offset == if r.Ok? then old(offset) + 4 else old(offset)
    {
      r := GetWord(4);
    }

    method GetU64() returns (r: Result<int, CodecError>)
      modifies this
      ensures Decode(TU64, buf, old(offset)) == if r.Ok? then Ok(U64(r.value)) else Err(r.error)
      ensures r == if old(offset) + 8 <= |buf| then Ok(NumAt(buf, old(offset), 8)) else Err(OutOfRange)
      ensures offset == if r.Ok? then old(offset) + 8 else old(offset)
    {
      r := GetWord(8);
    }

    method GetI64() returns (r: Result<int, CodecError>)
      modifies this
      ensures Decode(TI64, buf, old(offset)) == if r.Ok? then Ok(I64(r.value)) else Err(r.error)
      ensures r == if old(offset) + 8 <= |buf| then Ok(Signed(NumAt(buf, old(offset), 8))) else Err(OutOfRange)
      ensures offset == if r.Ok? then old(offset) + 8 else old(offset)
    {
      var n :- GetWord(8);
      return Ok(Signed(n));
    }

    method GetBool() returns (r: Result<bool, CodecError>)
      modifies this
      ensures Decode(TBool, buf, old(offset)) == if r.Ok? then Ok(Bool(r.value)) else Err(r.error)
      ensures r == if old(offset) + 1 <= |buf| then Ok((NumAt(buf, old(offset), 1) == 1)) else Err(OutOfRange)
      ensures offset == if r.Ok? then old(offset) + 1 else old(offset)
    {
      var n :- GetU8();
      return Ok(n == 1);
    }

    /** Never fails: a key at the end of the buffer comes out short. */
    method GetKey() returns (key: seq<Byte>)
      modifies this
      ensures Decode(TPubKey, buf, old(offset)) == Ok(PubKey(key))
      ensures old(offset) + 32 <= |buf| ==> key == buf[old(offset)..old(offset) + 32]
      ensures offset == old(offset) + 32
    {
      key := Clamped(buf, offset, offset + 32);
      offset := offset + 32;
    }
  }
}
