/** What encoding and decoding promise each other. */
module MsgPackProofs {
  import opened Values
  import opened MsgPack

  // ------------------------------------------------------------------ big endian

  lemma Powers()
    ensures Pow256(1) == TWO_8 && Pow256(2) == TWO_16 && Pow256(4) == TWO_32 && Pow256(8) == TWO_64
  {
    assert Pow256(2) == 256 * Pow256(1);
    assert Pow256(3) == 256 * Pow256(2);
    assert Pow256(4) == 256 * Pow256(3);
    assert Pow256(5) == 256 * Pow256(4);
    assert Pow256(6) == 256 * Pow256(5);
    assert Pow256(7) == 256 * Pow256(6);
    assert Pow256(8) == 256 * Pow256(7);
  }

  lemma {:induction false} BeRound(n: nat, x: nat)
    requires x < Pow256(n)
    ensures FromBe(Be(n, x)) == x
  {
    if n > 0 {
      BeRound(n - 1, x / 256);
      var s := Be(n, x);
      assert s[..|s| - 1] == Be(n - 1, x / 256);
    }
  }

  lemma {:induction false} FromBeBound(s: seq<byte>)
    ensures FromBe(s) < Pow256(|s|)
  {
    if s != [] {
      FromBeBound(s[..|s| - 1]);
    }
  }

  /** A header written in front of anything reads back. */
  lemma BeFront(n: nat, x: nat, tail: seq<byte>)
    requires x < Pow256(n)
    ensures FromBe((Be(n, x) + tail)[..n]) == x && (Be(n, x) + tail)[n..] == tail
  {
    assert (Be(n, x) + tail)[..n] == Be(n, x);
    BeRound(n, x);
  }

  // ------------------------------------------------------------- what comes back

  function NormInt(x: int): Value {
    if 0 <= x <= 0x7f then Uint8(x)
    else if -0x80 <= x < 0 then Int8(x)
    else if -0x8000 <= x <= 0x7fff then Int16(x)
    else if -0x8000_0000 <= x <= 0x7fff_ffff then Int32(x)
    else if x <= I64_MAX then Int64(x)
    else Uint64(x)
  }

  /** The value a scalar comes back as: integers in their narrowest form, byte variants
      as plain bytes. */
  function NormScalar(v: Value): Value
    requires !IsArray(v)
  {
    if IsInt(v) then NormInt(AsInt(v))
    else match v
      case BytesList(b) => Bytes(b)
      case Coordinate(b) => Bytes(b)
      case Bezier(b) => Bytes(b)
      case _ => v
  }

  function NormItems(items: seq<Value>): (r: seq<Value>)
    requires GoodItems(items)
    ensures |r| == |items|
  {
    seq(|items|, k requires 0 <= k < |items| => NormScalar(items[k]))
  }

  /** The value an encoded value comes back as. */
  function Norm(fl: FloatOps, v: Value): Value {
    if !IsArray(v) then NormScalar(v)
    else if Elems(v) == [] then DoubleArray([])
    else match v
      case Int8Array(xs) => Int64Array(xs)
      case Int16Array(xs) => Int64Array(xs)
      case Int32Array(xs) => Int64Array(xs)
      case Uint8Array(xs) => Int64Array(xs)
      case Uint16Array(xs) => Int64Array(xs)
      case Uint32Array(xs) => Int64Array(xs)
      case Uint64Array(xs) => if exists k | 0 <= k < |xs| :: xs[k] > I64_MAX then v else Int64Array(xs)
      case FloatArray(xs) => FloatArray(seq(|xs|, k requires 0 <= k < |xs| => fl.narrow(fl.widen(xs[k]))))
      case _ => v
  }

  // ------------------------------------------------------------- scalars come back

  /** A scalar's bytes, whatever follows them, decode to its normal form. */
  ghost predicate ComesBack(v: Value, tail: seq<byte>)
    requires GoodScalar(v)
  {
    var e := EncScalar(v);
    && e != [] && !ArrayMarker(e[0])
    && DecodeScalar(e[0], e[1..] + tail) == Ok((NormScalar(v), |e|))
  }

  lemma {:induction false} IntComesBack(x: int, tail: seq<byte>)
    requires -I64_MAX - 1 <= x <= I64_MAX
    ensures var e := EncInt(x);
            e != [] && !ArrayMarker(e[0]) && DecodeScalar(e[0], e[1..] + tail) == Ok((NormInt(x), |e|))
  {
    hide Be, FromBe, Pow256;
    Powers();
    var e := EncInt(x);
    if 0 <= x <= 0x7f || -32 <= x <= -1 {
    } else if -0x80 <= x <= 0x7f {
      assert e[1..] == Be(1, Unsigned(TWO_8, x));
      BeFront(1, Unsigned(TWO_8, x), tail);
    } else if -0x8000 <= x <= 0x7fff {
      assert e[1..] == Be(2, Unsigned(TWO_16, x));
      BeFront(2, Unsigned(TWO_16, x), tail);
    } else if -0x8000_0000 <= x <= 0x7fff_ffff {
      assert e[1..] == Be(4, Unsigned(TWO_32, x));
      BeFront(4, Unsigned(TWO_32, x), tail);
    } else {
      assert e[1..] == Be(8, Unsigned(TWO_64, x));
      BeFront(8, Unsigned(TWO_64, x), tail);
    }
  }

  lemma {:induction false} UintComesBack(x: int, tail: seq<byte>)
    requires 0 <= x < TWO_64
    ensures var e := EncUint(x);
            e != [] && !ArrayMarker(e[0]) && DecodeScalar(e[0], e[1..] + tail) == Ok((NormInt(x), |e|))
  {
    hide Be, FromBe, Pow256, EncInt;
    if x <= I64_MAX {
      IntComesBack(x, tail);
    } else {
      Powers();
      assert EncUint(x)[1..] == Be(8, x);
      BeFront(8, x, tail);
    }
  }

  lemma FloatComesBack(v: Value, tail: seq<byte>)
    requires GoodScalar(v) && (v.Float? || v.Double?)
    ensures ComesBack(v, tail)
  {
    hide Be, FromBe, Pow256;
    Powers();
    var n := if v.Float? then 4 else 8;
    assert EncScalar(v)[1..] == Be(n, v.bits);
    BeFront(n, v.bits, tail);
  }

  /** A length of `n` bytes, then that many bytes. */
  lemma SizedFront(n: nat, s: seq<byte>, tail: seq<byte>)
    requires |s| < Pow256(n)
    ensures var rest := Be(n, |s|) + s + tail;
            && n <= |rest| && FromBe(rest[..n]) == |s|
            && |rest[n..]| >= |s| && rest[n..][..|s|] == s
  {
    hide Be, FromBe, Pow256;
    assert Be(n, |s|) + s + tail == Be(n, |s|) + (s + tail);
    BeFront(n, |s|, s + tail);
    assert (s + tail)[..|s|] == s;
  }

  lemma TextComesBack(v: Value, tail: seq<byte>)
    requires GoodScalar(v) && v.String?
    ensures ComesBack(v, tail)
  {
    hide Be, FromBe, Pow256, Utf8;
    Powers();
    var s, e := v.text, EncScalar(v);
    if |s| <= 0x1f {
      assert e[1..] == s;
      assert (s + tail)[..|s|] == s;
    } else {
      var n := if |s| <= 0xff then 1 else if |s| <= 0xffff then 2 else 4;
      assert e[1..] == Be(n, |s|) + s;
      SizedFront(n, s, tail);
    }
  }

  lemma RawComesBack(v: Value, tail: seq<byte>)
    requires GoodScalar(v) && (v.Bytes? || v.BytesList? || v.Coordinate? || v.Bezier?)
    ensures ComesBack(v, tail)
  {
    hide Be, FromBe, Pow256;
    Powers();
    var s, e := v.data, EncScalar(v);
    var n := if |s| <= 0xff then 1 else if |s| <= 0xffff then 2 else 4;
    assert e[1..] == Be(n, |s|) + s;
    SizedFront(n, s, tail);
  }

  lemma {:induction false} ScalarComesBack(v: Value, tail: seq<byte>)
    requires GoodScalar(v)
    ensures ComesBack(v, tail)
  {
    hide EncInt, EncUint, DecodeScalar, NormInt;
    match v
    case Int8(x) => IntComesBack(x, tail);
    case Int16(x) => IntComesBack(x, tail);
    case Int32(x) => IntComesBack(x, tail);
    case Int64(x) => IntComesBack(x, tail);
    case Uint8(x) => UintComesBack(x, tail);
    case Uint16(x) => UintComesBack(x, tail);
    case Uint32(x) => UintComesBack(x, tail);
    case Uint64(x) => UintComesBack(x, tail);
    case Float(_) => FloatComesBack(v, tail);
    case Double(_) => FloatComesBack(v, tail);
    case String(_) => TextComesBack(v, tail);
    case Bool(b) => BoolComesBack(b, tail);
    case Bytes(_) => RawComesBack(v, tail);
    case BytesList(_) => RawComesBack(v, tail);
    case Coordinate(_) => RawComesBack(v, tail);
    case Bezier(_) => RawComesBack(v, tail);
  }

  lemma BoolComesBack(b: bool, tail: seq<byte>)
    ensures ComesBack(Bool(b), tail)
  {}

  lemma OneScalar(fl: FloatOps, v: Value, tail: seq<byte>, depth: nat)
    requires GoodScalar(v) && depth <= MAX_DEPTH
    ensures DecodeOne(fl, EncScalar(v) + tail, depth) == Ok((NormScalar(v), |EncScalar(v)|))
    ensures |EncScalar(v)| > 0
  {
    hide EncScalar, DecodeScalar, NormScalar, TypedScalar, FitsScalar;
    ScalarComesBack(v, tail);
    var e := EncScalar(v);
    assert (e + tail)[1..] == e[1..] + tail;
  }

  // -------------------------------------------------------------- arrays come back

  lemma {:induction false} ItemsComeBack(fl: FloatOps, items: seq<Value>, tail: seq<byte>, depth: nat)
    requires GoodItems(items) && depth <= MAX_DEPTH
    ensures DecodeItems(fl, EncItems(items) + tail, |items|, depth) == Ok((NormItems(items), |EncItems(items)|))
    decreases |items|
  {
    hide EncScalar, DecodeOne, NormScalar, TypedScalar, FitsScalar, IsArray;
    if items == [] {
      assert NormItems(items) == [];
    } else {
      var e, more := EncScalar(items[0]), EncItems(items[1..]);
      assert EncItems(items) + tail == e + (more + tail);
      OneScalar(fl, items[0], more + tail, depth);
      assert (e + (more + tail))[|e|..] == more + tail;
      ItemsComeBack(fl, items[1..], tail, depth);
      assert [NormScalar(items[0])] + NormItems(items[1..]) == NormItems(items);
    }
  }

  lemma HeaderComesBack(len: nat, tail: seq<byte>)
    requires len <= U32_MAX
    ensures var h := ArrayHeader(len);
            && h != [] && ArrayMarker(h[0])
            && DecodeHeader(h + tail) == Ok((len, |h|)) && (h + tail)[|h|..] == tail
  {
    hide Be, FromBe, Pow256;
    Powers();
    if len > 0xf {
      var n := if len <= 0xffff then 2 else 4;
      BeFront(n, len, tail);
      assert (ArrayHeader(len) + tail)[1..n + 1] == (Be(n, len) + tail)[..n];
    }
  }

  lemma ArrayComesBack(fl: FloatOps, items: seq<Value>, tail: seq<byte>, depth: nat)
    requires GoodItems(items) && |items| <= U32_MAX && depth < MAX_DEPTH
    ensures var e := ArrayHeader(|items|) + EncItems(items);
            && e != [] && ArrayMarker(e[0])
            && DecodeArrayAt(fl, e + tail, depth) == Ok((NormItems(items), |e|))
  {
    hide EncScalar, DecodeItems, NormItems, GoodScalar, EncItems, DecodeHeader, ArrayHeader, ArrayMarker;
    var h, b := ArrayHeader(|items|), EncItems(items);
    HeaderComesBack(|items|, b + tail);
    assert h + b + tail == h + (b + tail);
    ItemsComeBack(fl, items, tail, depth + 1);
  }

  lemma GoodElems(v: Value)
    requires IsArray(v) && Typed(v) && Fits(v)
    ensures GoodItems(Elems(v)) && |Elems(v)| <= U32_MAX
  {
    hide Elems, IsArray, TypedScalar, FitsScalar;
  }

  lemma ClassifyInts(fl: FloatOps, v: Value, xs: seq<int>)
    requires IsArray(v) && GoodItems(Elems(v)) && Elems(v) != []
    requires forall k | 0 <= k < |Elems(v)| :: IsInt(Elems(v)[k])
    requires |xs| == |Elems(v)| && forall k | 0 <= k < |xs| :: AsInt(Elems(v)[k]) == xs[k]
    ensures Classify(fl, NormItems(Elems(v))) ==
            Ok(if exists k | 0 <= k < |xs| :: xs[k] > I64_MAX then Uint64Array(Map(WrapU64, xs)) else Int64Array(xs))
  {
    hide Elems, IsArray;
    var items := NormItems(Elems(v));
    forall k | 0 <= k < |items|
      ensures IsInt(items[k]) && AsInt(items[k]) == xs[k] && (IsBig(items[k]) <==> xs[k] > I64_MAX)
    {
      assert items[k] == NormInt(AsInt(Elems(v)[k]));
      assert GoodScalar(Elems(v)[k]);
    }
    if big :| 0 <= big < |xs| && xs[big] > I64_MAX {
      assert IsBig(items[big]);
      assert Ints(items, WrapU64) == Map(WrapU64, xs);
    } else {
      assert Ints(items, WrapI64) == xs;
    }
  }

  lemma {:induction false} ClassifyElems(fl: FloatOps, v: Value)
    requires IsArray(v) && Typed(v) && Fits(v)
    ensures GoodItems(Elems(v)) && Classify(fl, NormItems(Elems(v))) == Ok(Norm(fl, v))
  {
    GoodElems(v);
    var items := Elems(v);
    if items == [] {
      assert NormItems(items) == [];
    } else if XtDataType(v) == 18 {
      ClassifyIntArray(fl, v);
    } else {
      ClassifyOther(fl, v);
    }
  }

  lemma WrapNothing(xs: seq<int>)
    requires forall k | 0 <= k < |xs| :: xs[k] >= 0
    ensures Map(WrapU64, xs) == xs
  {
    var ys := Map(WrapU64, xs);
    assert |ys| == |xs|;
    forall k | 0 <= k < |xs| ensures ys[k] == xs[k] {
      assert ys[k] == WrapU64(xs[k]);
    }
  }

  lemma ClassifyIntArray(fl: FloatOps, v: Value)
    requires IsArray(v) && GoodItems(Elems(v)) && Elems(v) != [] && XtDataType(v) == 18
    ensures Classify(fl, NormItems(Elems(v))) == Ok(Norm(fl, v))
  {
    hide Classify, NormItems;
    var xs := if v.Int8Array? || v.Int16Array? || v.Int32Array? || v.Int64Array? then v.ints else v.uints;
    assert forall k | 0 <= k < |xs| :: GoodScalar(Elems(v)[k]);
    ClassifyInts(fl, v, xs);
    if v.Uint64Array? {
      forall k | 0 <= k < |xs| ensures xs[k] >= 0 {
        assert GoodScalar(Elems(v)[k]);
      }
      WrapNothing(xs);
    }
  }

  /** A non-empty list of one kind that is not an integer classifies as that kind. */
  lemma ClassifyKind(fl: FloatOps, items: seq<Value>)
    requires items != []
    ensures (forall k | 0 <= k < |items| :: items[k].Float?) ==>
            Classify(fl, items) == Ok(FloatArray(Floats(fl, items)))
    ensures (forall k | 0 <= k < |items| :: items[k].Double?) ==> Classify(fl, items) == Ok(DoubleArray(Doubles(items)))
    ensures (forall k | 0 <= k < |items| :: items[k].String?) ==> Classify(fl, items) == Ok(StringArray(Texts(items)))
    ensures (forall k | 0 <= k < |items| :: items[k].Bool?) ==> Classify(fl, items) == Ok(BoolArray(Flags(items)))
  {
    var head := items[0];
  }

  lemma ClassifyOther(fl: FloatOps, v: Value)
    requires IsArray(v) && GoodItems(Elems(v)) && Elems(v) != [] && XtDataType(v) != 18
    ensures Classify(fl, NormItems(Elems(v))) == Ok(Norm(fl, v))
  {
    hide NormInt, GoodScalar, Classify;
    var items := NormItems(Elems(v));
    assert items == Elems(v);
    ClassifyKind(fl, items);
    match v
    case FloatArray(xs) =>
      assert Floats(fl, items) == seq(|xs|, k requires 0 <= k < |xs| => fl.narrow(fl.widen(xs[k])));
    case DoubleArray(xs) => assert Doubles(items) == xs;
    case StringArray(xs) => assert Texts(items) == xs;
    case BoolArray(xs) => assert Flags(items) == xs;
  }

  /** Every value that encodes decodes again, whatever bytes follow it, to its normal
      form, using exactly its own bytes. */
  lemma {:induction false} RoundTrip(fl: FloatOps, v: Value, tail: seq<byte>, depth: nat)
    requires Typed(v) && Fits(v) && depth < MAX_DEPTH
    ensures DecodeOne(fl, Enc(v) + tail, depth) == Ok((Norm(fl, v), |Enc(v)|))
    ensures |Enc(v)| > 0
  {
    if IsArray(v) {
      hide EncItems, DecodeItems, NormItems, DecodeHeader, ArrayHeader, ArrayMarker, Elems, Classify, Norm;
      hide DecodeArrayAt, Typed, Fits, TypedScalar, FitsScalar;
      GoodElems(v);
      ArrayComesBack(fl, Elems(v), tail, depth);
      ClassifyElems(fl, v);
    } else {
      OneScalar(fl, v, tail, depth);
    }
  }

  lemma {:induction false} ValueRoundTrip(fl: FloatOps, v: Value)
    requires Typed(v) && Fits(v)
    ensures DecodeValue(fl, Enc(v)) == Ok(Norm(fl, v))
  {
    hide Enc, Norm, DecodeOne, Typed, Fits;
    RoundTrip(fl, v, [], 0);
    assert Enc(v) + [] == Enc(v);
  }
}
