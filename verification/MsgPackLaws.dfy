/** Laws of the codec over all values and over all inputs. */
module MsgPackLaws {
  import opened Values
  import opened MsgPack
  import opened MsgPackProofs

  // ------------------------------------------------------------ meaning is kept

  /** What a value says, apart from how many bits it was stored in. */
  datatype Meaning =
    | AnInt(x: int) | AFloat(bits: int) | ADouble(bits: int) | AText(text: seq<byte>) | ABool(flag: bool)
    | ARaw(data: seq<byte>)
    | SomeInts(xs: seq<int>) | SomeFloats(fs: seq<int>) | SomeDoubles(ds: seq<int>)
    | SomeTexts(texts: seq<seq<byte>>) | SomeBools(flags: seq<bool>)

  function MeaningOf(v: Value): Meaning {
    match v
    case Int8(x) => AnInt(x)
    case Int16(x) => AnInt(x)
    case Int32(x) => AnInt(x)
    case Int64(x) => AnInt(x)
    case Uint8(x) => AnInt(x)
    case Uint16(x) => AnInt(x)
    case Uint32(x) => AnInt(x)
    case Uint64(x) => AnInt(x)
    case Float(b) => AFloat(b)
    case Double(b) => ADouble(b)
    case String(s) => AText(s)
    case Bool(b) => ABool(b)
    case Bytes(s) => ARaw(s)
    case BytesList(s) => ARaw(s)
    case Coordinate(s) => ARaw(s)
    case Bezier(s) => ARaw(s)
    case Int8Array(xs) => SomeInts(xs)
    case Int16Array(xs) => SomeInts(xs)
    case Int32Array(xs) => SomeInts(xs)
    case Int64Array(xs) => SomeInts(xs)
    case Uint8Array(xs) => SomeInts(xs)
    case Uint16Array(xs) => SomeInts(xs)
    case Uint32Array(xs) => SomeInts(xs)
    case Uint64Array(xs) => SomeInts(xs)
    case FloatArray(xs) => SomeFloats(xs)
    case DoubleArray(xs) => SomeDoubles(xs)
    case StringArray(xs) => SomeTexts(xs)
    case BoolArray(xs) => SomeBools(xs)
  }

  /** Widening a 32-bit float to 64 bits and back gives the same bits; only signalling
      NaNs can fail this. */
  predicate Lossless(fl: FloatOps, v: Value) {
    v.FloatArray? ==> forall k | 0 <= k < |v.fs| :: fl.narrow(fl.widen(v.fs[k])) == v.fs[k]
  }

  /** Sent with its own data type and conformed to it on arrival, a value keeps its type,
      and keeps its meaning exactly when its floats survive widening. */
  lemma {:induction false} MeaningKept(fl: FloatOps, v: Value)
    requires Typed(v) && Fits(v)
    ensures DecodeValue(fl, Enc(v)).Ok?
    ensures var w := Conformed(fl, DecodeValue(fl, Enc(v)).value, XtDataType(v));
            XtDataType(w) == XtDataType(v) && (MeaningOf(w) == MeaningOf(v) <==> Lossless(fl, v))
  {
    hide DecodeValue, Enc;
    ValueRoundTrip(fl, v);
    if !IsArray(v) {
      NormScalarMeaning(v);
    } else if XtDataType(v) == 19 {
      FloatArrayMeaning(fl, v);
    } else {
      OtherArrayMeaning(fl, v);
    }
  }

  lemma NormScalarMeaning(v: Value)
    requires !IsArray(v)
    ensures MeaningOf(NormScalar(v)) == MeaningOf(v) && XtDataType(NormScalar(v)) == XtDataType(v)
  {}

  lemma FloatArrayMeaning(fl: FloatOps, v: Value)
    requires v.FloatArray?
    ensures var w := Conformed(fl, Norm(fl, v), XtDataType(v));
            XtDataType(w) == XtDataType(v) && (MeaningOf(w) == MeaningOf(v) <==> Lossless(fl, v))
  {
    var xs := v.fs;
    if xs == [] {
      assert Map(fl.narrow, []) == [];
    } else {
      var ys := seq(|xs|, k requires 0 <= k < |xs| => fl.narrow(fl.widen(xs[k])));
      assert Norm(fl, v) == FloatArray(ys);
      assert ys == xs <==> forall k | 0 <= k < |xs| :: ys[k] == xs[k];
    }
  }

  lemma OtherArrayMeaning(fl: FloatOps, v: Value)
    requires IsArray(v) && !v.FloatArray?
    ensures var w := Conformed(fl, Norm(fl, v), XtDataType(v));
            XtDataType(w) == XtDataType(v) && MeaningOf(w) == MeaningOf(v)
  {}

  // ------------------------------------------------------- re-encoding is stable

  lemma ScalarStable(v: Value)
    requires GoodScalar(v)
    ensures GoodScalar(NormScalar(v)) && EncScalar(NormScalar(v)) == EncScalar(v)
  {
    hide Be, Utf8;
  }

  lemma {:induction false} ItemsStable(a: seq<Value>, b: seq<Value>)
    requires GoodItems(a) && GoodItems(b) && |a| == |b|
    requires forall k | 0 <= k < |a| :: EncScalar(a[k]) == EncScalar(b[k])
    ensures EncItems(a) == EncItems(b)
    decreases |a|
  {
    hide EncScalar, GoodScalar;
    if a != [] {
      ItemsStable(a[1..], b[1..]);
    }
  }

  lemma IntArrayStable(fl: FloatOps, v: Value)
    requires Typed(v) && Fits(v) && IsArray(v) && XtDataType(v) == 18 && Elems(v) != []
    ensures var w := Norm(fl, v); Typed(w) && Fits(w) && Enc(w) == Enc(v)
  {
    hide EncItems, ArrayHeader;
    GoodElems(v);
    var w := Norm(fl, v);
    forall k | 0 <= k < |Elems(v)| ensures GoodScalar(Elems(w)[k]) && EncScalar(Elems(w)[k]) == EncScalar(Elems(v)[k]) {
      assert GoodScalar(Elems(v)[k]);
      SameIntEncodes(v, w, k);
    }
    ItemsStable(Elems(w), Elems(v));
  }

  lemma SameIntEncodes(v: Value, w: Value, k: nat)
    requires IsArray(v) && IsArray(w) && k < |Elems(v)| == |Elems(w)| && GoodScalar(Elems(v)[k])
    requires XtDataType(v) == XtDataType(w) == 18
    requires AsInt(Elems(w)[k]) == AsInt(Elems(v)[k])
    requires w.Uint64Array? || (w.Int64Array? && AsInt(Elems(v)[k]) <= I64_MAX)
    requires w.Uint64Array? ==> v == w
    ensures GoodScalar(Elems(w)[k]) && EncScalar(Elems(w)[k]) == EncScalar(Elems(v)[k])
  {
    hide EncInt;
  }

  predicate AllFloats(items: seq<Value>) { forall k | 0 <= k < |items| :: items[k].Float? }

  lemma FloatBytes(x: Value, y: Value, a: seq<byte>, b: seq<byte>)
    requires GoodScalar(x) && GoodScalar(y) && x.Float? && y.Float? && EncScalar(x) + a == EncScalar(y) + b
    ensures x == y && a == b
  {
    hide Be;
    var p, q := EncScalar(x), EncScalar(y);
    assert |p| == 5 && |q| == 5;
    assert p == (p + a)[..5] && q == (q + b)[..5];
    assert a == (p + a)[5..] && b == (q + b)[5..];
    assert p[1..] == Be(4, x.bits) && q[1..] == Be(4, y.bits);
    Powers();
    BeRound(4, x.bits);
    BeRound(4, y.bits);
  }

  lemma {:induction false} FloatsEncodeApart(a: seq<Value>, b: seq<Value>)
    requires GoodItems(a) && GoodItems(b) && AllFloats(a) && AllFloats(b) && |a| == |b| && EncItems(a) == EncItems(b)
    ensures a == b
    decreases |a|
  {
    hide EncScalar, GoodScalar;
    if a != [] {
      FloatBytes(a[0], b[0], EncItems(a[1..]), EncItems(b[1..]));
      FloatsEncodeApart(a[1..], b[1..]);
      assert a == [a[0]] + a[1..] && b == [b[0]] + b[1..];
    }
  }

  lemma FloatsKept(fl: FloatOps, v: Value)
    requires Typed(v) && Fits(v) && v.FloatArray? && v.fs != []
    requires Typed(Norm(fl, v)) && Fits(Norm(fl, v)) && Enc(Norm(fl, v)) == Enc(v)
    ensures Lossless(fl, v)
  {
    hide EncItems, ArrayHeader;
    var w := Norm(fl, v);
    assert w == FloatArray(seq(|v.fs|, k requires 0 <= k < |v.fs| => fl.narrow(fl.widen(v.fs[k]))));
    var a, b := Elems(v), Elems(w);
    var h := ArrayHeader(|a|);
    assert EncItems(a) == (h + EncItems(a))[|h|..] && EncItems(b) == (h + EncItems(b))[|h|..];
    FloatsEncodeApart(a, b);
    forall k | 0 <= k < |v.fs| ensures fl.narrow(fl.widen(v.fs[k])) == v.fs[k] {
      assert a[k] == Float(v.fs[k]) && b[k] == Float(w.fs[k]);
    }
  }

  /** What comes back encodes to the very bytes that were sent exactly when its floats
      survive widening. */
  lemma {:induction false} ReencodesSame(fl: FloatOps, v: Value)
    requires Typed(v) && Fits(v)
    ensures Typed(Norm(fl, v)) && Fits(Norm(fl, v)) && Enc(Norm(fl, v)) == Enc(v) <==> Lossless(fl, v)
  {
    hide EncItems, ArrayHeader, EncScalar;
    if !IsArray(v) {
      ScalarStable(v);
    } else if Elems(v) == [] {
      assert Elems(Norm(fl, v)) == [];
    } else if XtDataType(v) == 18 {
      IntArrayStable(fl, v);
    } else if Lossless(fl, v) {
      OtherNormSame(fl, v);
    } else if Typed(Norm(fl, v)) && Fits(Norm(fl, v)) && Enc(Norm(fl, v)) == Enc(v) {
      FloatsKept(fl, v);
    }
  }

  lemma OtherNormSame(fl: FloatOps, v: Value)
    requires IsArray(v) && XtDataType(v) != 18 && Elems(v) != [] && Lossless(fl, v)
    ensures Norm(fl, v) == v
  {
    if v.FloatArray? {
      assert seq(|v.fs|, k requires 0 <= k < |v.fs| => fl.narrow(fl.widen(v.fs[k]))) == v.fs;
    }
  }

  // ----------------------------------------------------- truncated input is refused

  lemma ScalarCut(v: Value, k: nat)
    requires GoodScalar(v) && 0 < k < |EncScalar(v)|
    ensures !ArrayMarker(EncScalar(v)[0]) && DecodeScalar(EncScalar(v)[0], EncScalar(v)[1..k]) == Err(UnexpectedEof)
  {
    var e := EncScalar(v);
    if v.String? {
      TextCut(v, k);
    } else if v.Bytes? || v.BytesList? || v.Coordinate? || v.Bezier? {
      RawCut(v, k);
    } else {
      hide Be, FromBe, Utf8;
    }
  }

  /** A length that was written whole is read even when its bytes are cut. */
  lemma SizedCut(n: nat, s: seq<byte>, k: nat)
    requires |s| < Pow256(n) && n <= k < n + |s|
    ensures var rest := (Be(n, |s|) + s)[..k]; FromBe(rest[..n]) == |s| && |rest[n..]| < |s|
  {
    hide Be, FromBe, Pow256;
    var rest := (Be(n, |s|) + s)[..k];
    assert rest[..n] == Be(n, |s|);
    BeRound(n, |s|);
  }

  lemma TextCut(v: Value, k: nat)
    requires GoodScalar(v) && v.String? && 0 < k < |EncScalar(v)|
    ensures !ArrayMarker(EncScalar(v)[0]) && DecodeScalar(EncScalar(v)[0], EncScalar(v)[1..k]) == Err(UnexpectedEof)
  {
    hide Be, FromBe, Utf8, Pow256;
    Powers();
    var s, e := v.text, EncScalar(v);
    if |s| > 0x1f {
      var n := if |s| <= 0xff then 1 else if |s| <= 0xffff then 2 else 4;
      assert e[1..k] == (Be(n, |s|) + s)[..k - 1];
      if k - 1 >= n {
        SizedCut(n, s, k - 1);
      }
    }
  }

  lemma RawCut(v: Value, k: nat)
    requires GoodScalar(v) && (v.Bytes? || v.BytesList? || v.Coordinate? || v.Bezier?) && 0 < k < |EncScalar(v)|
    ensures !ArrayMarker(EncScalar(v)[0]) && DecodeScalar(EncScalar(v)[0], EncScalar(v)[1..k]) == Err(UnexpectedEof)
  {
    hide Be, FromBe, Pow256;
    Powers();
    var s, e := v.data, EncScalar(v);
    var n := if |s| <= 0xff then 1 else if |s| <= 0xffff then 2 else 4;
    assert e[1..k] == (Be(n, |s|) + s)[..k - 1];
    if k - 1 >= n {
      SizedCut(n, s, k - 1);
    }
  }

  lemma OneCut(fl: FloatOps, v: Value, k: nat, depth: nat)
    requires GoodScalar(v) && k < |EncScalar(v)| && depth <= MAX_DEPTH
    ensures DecodeOne(fl, EncScalar(v)[..k], depth) == Err(UnexpectedEof)
  {
    hide EncScalar, DecodeScalar, ArrayMarker, GoodScalar;
    if k > 0 {
      ScalarCut(v, k);
      assert EncScalar(v)[..k][1..] == EncScalar(v)[1..k];
    }
  }

  lemma {:induction false} ItemsCut(fl: FloatOps, items: seq<Value>, k: nat, depth: nat)
    requires GoodItems(items) && k < |EncItems(items)| && depth <= MAX_DEPTH
    ensures DecodeItems(fl, EncItems(items)[..k], |items|, depth) == Err(UnexpectedEof)
    decreases |items|
  {
    hide EncScalar, DecodeOne, NormScalar, TypedScalar, FitsScalar, IsArray;
    var e, more := EncScalar(items[0]), EncItems(items[1..]);
    if k < |e| {
      assert (e + more)[..k] == e[..k];
      OneCut(fl, items[0], k, depth);
    } else {
      var rest := more[..k - |e|];
      assert (e + more)[..k] == e + rest;
      OneScalar(fl, items[0], rest, depth);
      assert (e + rest)[|e|..] == rest;
      ItemsCut(fl, items[1..], k - |e|, depth);
    }
  }

  lemma HeaderCut(len: nat, k: nat)
    requires len <= U32_MAX && 0 < k < |ArrayHeader(len)|
    ensures ArrayMarker(ArrayHeader(len)[0]) && DecodeHeader(ArrayHeader(len)[..k]) == Err(UnexpectedEof)
  {
    hide Be, FromBe;
  }

  lemma ArrayCut(fl: FloatOps, v: Value, k: nat, depth: nat)
    requires IsArray(v) && Typed(v) && Fits(v) && 0 < k < |Enc(v)| && depth < MAX_DEPTH
    ensures DecodeOne(fl, Enc(v)[..k], depth) == Err(UnexpectedEof)
  {
    hide EncItems, DecodeItems, DecodeHeader, ArrayHeader, ArrayMarker, Elems, Classify, Typed, Fits, TypedScalar;
    hide FitsScalar, IsArray;
    GoodElems(v);
    var items := Elems(v);
    var h, b := ArrayHeader(|items|), EncItems(items);
    var cut := Enc(v)[..k];
    HeaderComesBack(|items|, []);
    if k < |h| {
      assert cut == h[..k];
      HeaderCut(|items|, k);
    } else {
      assert cut == h + b[..k - |h|];
      HeaderComesBack(|items|, b[..k - |h|]);
      ItemsCut(fl, items, k - |h|, depth + 1);
    }
    assert cut[0] == h[0];
  }

  /** Any proper prefix of an encoded value is refused as ended too soon. */
  lemma {:induction false} Truncated(fl: FloatOps, v: Value, k: nat, depth: nat)
    requires Typed(v) && Fits(v) && k < |Enc(v)| && depth < MAX_DEPTH
    ensures DecodeOne(fl, Enc(v)[..k], depth) == Err(UnexpectedEof)
  {
    hide EncScalar, DecodeScalar, DecodeArrayAt, Classify, EncItems, ArrayHeader, TypedScalar, FitsScalar, Elems;
    if k == 0 {
      assert Enc(v)[..0] == [];
    } else if IsArray(v) {
      ArrayCut(fl, v, k, depth);
    } else {
      OneCut(fl, v, k, depth);
    }
  }

  // ---------------------------------------------- decoding looks only at its own bytes

  ghost predicate Agree(a: seq<byte>, b: seq<byte>, n: nat) {
    n <= |a| && n <= |b| && a[..n] == b[..n]
  }

  lemma AgreeTail(a: seq<byte>, b: seq<byte>, m: nat, n: nat)
    requires Agree(a, b, n) && m <= n
    ensures Agree(a[m..], b[m..], n - m) && Agree(a, b, m)
  {
    assert a[m..][..n - m] == a[..n][m..] && b[m..][..n - m] == b[..n][m..];
    assert a[..m] == a[..n][..m] && b[..m] == b[..n][..m];
  }

  lemma ScalarLocal(m: byte, a: seq<byte>, b: seq<byte>)
    requires !ArrayMarker(m) && DecodeScalar(m, a).Ok? && Agree(a, b, DecodeScalar(m, a).value.1 - 1)
    ensures DecodeScalar(m, b) == DecodeScalar(m, a)
  {
    hide FromBe, Utf8;
    var n := DecodeScalar(m, a).value.1 - 1;
    forall h: nat | h <= n ensures Agree(a[h..], b[h..], n - h) && Agree(a, b, h) {
      AgreeTail(a, b, h, n);
    }
  }

  lemma HeaderLocal(a: seq<byte>, b: seq<byte>)
    requires DecodeHeader(a).Ok? && Agree(a, b, DecodeHeader(a).value.1)
    ensures DecodeHeader(b) == DecodeHeader(a)
  {
    hide FromBe;
    var n := DecodeHeader(a).value.1;
    assert a[..n][0] == b[..n][0];
    assert a[1..n] == a[..n][1..] && b[1..n] == b[..n][1..];
  }

  /** A value decodes the same in any input that starts with the same bytes. */
  lemma {:induction false} OneLocal(fl: FloatOps, a: seq<byte>, b: seq<byte>, depth: nat)
    requires depth <= MAX_DEPTH && DecodeOne(fl, a, depth).Ok? && Agree(a, b, DecodeOne(fl, a, depth).value.1)
    ensures DecodeOne(fl, b, depth) == DecodeOne(fl, a, depth)
    decreases |a|, 1, 0
  {
    hide DecodeScalar, Classify, ArrayMarker, DecodeItems, DecodeHeader;
    var n := DecodeOne(fl, a, depth).value.1;
    assert a[..n][0] == b[..n][0];
    if ArrayMarker(a[0]) {
      ArrayLocal(fl, a, b, depth);
    } else {
      AgreeTail(a, b, 1, n);
      ScalarLocal(a[0], a[1..], b[1..]);
    }
  }

  lemma {:induction false} ArrayLocal(fl: FloatOps, a: seq<byte>, b: seq<byte>, depth: nat)
    requires depth <= MAX_DEPTH && DecodeArrayAt(fl, a, depth).Ok? && Agree(a, b, DecodeArrayAt(fl, a, depth).value.1)
    ensures DecodeArrayAt(fl, b, depth) == DecodeArrayAt(fl, a, depth)
    decreases |a|, 0, 0
  {
    hide DecodeItems, DecodeHeader;
    var n := DecodeArrayAt(fl, a, depth).value.1;
    var h := DecodeHeader(a).value;
    AgreeTail(a, b, h.1, n);
    HeaderLocal(a, b);
    ItemsLocal(fl, a[h.1..], b[h.1..], h.0, depth + 1);
  }

  lemma {:induction false} ItemsLocal(fl: FloatOps, a: seq<byte>, b: seq<byte>, len: nat, depth: nat)
    requires depth <= MAX_DEPTH && DecodeItems(fl, a, len, depth).Ok?
    requires Agree(a, b, DecodeItems(fl, a, len, depth).value.1)
    ensures DecodeItems(fl, b, len, depth) == DecodeItems(fl, a, len, depth)
    decreases |a|, 2, len
  {
    hide DecodeOne;
    if len > 0 {
      var n := DecodeItems(fl, a, len, depth).value.1;
      var m := DecodeOne(fl, a, depth).value.1;
      AgreeTail(a, b, m, n);
      OneLocal(fl, a, b, depth);
      ItemsLocal(fl, a[m..], b[m..], len - 1, depth);
    }
  }

  // ---------------------------------------------------------------- nesting is bounded

  /** An array header at the limit, or one whose elements decode up to one that nests past
      the limit in turn. */
  ghost predicate TooNested(fl: FloatOps, buf: seq<byte>, depth: nat)
    requires depth <= MAX_DEPTH
    decreases MAX_DEPTH - depth, 0
  {
    && buf != [] && ArrayMarker(buf[0])
    && (depth == MAX_DEPTH
        || (DecodeHeader(buf).Ok?
            && var h := DecodeHeader(buf).value;
               ItemsTooNested(fl, buf[h.1..], h.0, depth + 1)))
  }

  /** One of the first `len` values nests too deep, and those before it decode. */
  ghost predicate ItemsTooNested(fl: FloatOps, buf: seq<byte>, len: nat, depth: nat)
    requires depth <= MAX_DEPTH
    decreases MAX_DEPTH - depth, 2
  {
    exists j: nat | j < len :: NestedAt(fl, buf, j, depth)
  }

  /** The first `j` values decode and the next one nests too deep. */
  ghost predicate NestedAt(fl: FloatOps, buf: seq<byte>, j: nat, depth: nat)
    requires depth <= MAX_DEPTH
    decreases MAX_DEPTH - depth, 1
  {
    DecodeItems(fl, buf, j, depth).Ok? && TooNested(fl, buf[DecodeItems(fl, buf, j, depth).value.1..], depth)
  }

  lemma {:induction false} ItemsStopAt(fl: FloatOps, buf: seq<byte>, j: nat, len: nat, depth: nat, e: Error)
    requires depth <= MAX_DEPTH && j < len && DecodeItems(fl, buf, j, depth).Ok?
    requires DecodeOne(fl, buf[DecodeItems(fl, buf, j, depth).value.1..], depth) == Err(e)
    ensures DecodeItems(fl, buf, len, depth) == Err(e)
    decreases j
  {
    hide DecodeOne;
    if j == 0 {
      assert buf[0..] == buf;
    } else {
      var m := DecodeOne(fl, buf, depth).value.1;
      var rest := DecodeItems(fl, buf[m..], j - 1, depth).value.1;
      assert buf[m..][rest..] == buf[m + rest..];
      ItemsStopAt(fl, buf[m..], j - 1, len - 1, depth, e);
    }
  }

  lemma {:induction false} ItemsStop(fl: FloatOps, buf: seq<byte>, len: nat, depth: nat, e: Error) returns (j: nat)
    requires depth <= MAX_DEPTH && DecodeItems(fl, buf, len, depth) == Err(e)
    ensures j < len && DecodeItems(fl, buf, j, depth).Ok?
    ensures DecodeOne(fl, buf[DecodeItems(fl, buf, j, depth).value.1..], depth) == Err(e)
    decreases len
  {
    hide DecodeOne;
    if DecodeOne(fl, buf, depth).Err? {
      j := 0;
      assert buf[0..] == buf;
    } else {
      var m := DecodeOne(fl, buf, depth).value.1;
      var k := ItemsStop(fl, buf[m..], len - 1, depth, e);
      j := k + 1;
      var rest := DecodeItems(fl, buf[m..], k, depth).value.1;
      assert buf[m..][rest..] == buf[m + rest..];
    }
  }

  lemma NotDeepInside(m: byte, rest: seq<byte>)
    requires !ArrayMarker(m)
    ensures DecodeScalar(m, rest) != Err(TooDeep)
  {
    hide FromBe, Utf8;
  }

  lemma NotDeepItself(fl: FloatOps, buf: seq<byte>, items: seq<Value>)
    ensures DecodeHeader(buf) != Err(TooDeep) && Classify(fl, items) != Err(TooDeep)
  {
    hide FromBe, IsInt, IsBig;
  }

  /** Input is refused as too deep exactly when its arrays nest past the limit before
      anything else is wrong with it. */
  lemma {:induction false} NestedTooDeep(fl: FloatOps, buf: seq<byte>, depth: nat)
    requires depth <= MAX_DEPTH
    ensures DecodeOne(fl, buf, depth) == Err(TooDeep) <==> TooNested(fl, buf, depth)
    decreases MAX_DEPTH - depth, 0
  {
    hide DecodeScalar, Classify, DecodeItems, ArrayMarker, DecodeHeader, ItemsTooNested;
    if buf == [] {
    } else if !ArrayMarker(buf[0]) {
      NotDeepInside(buf[0], buf[1..]);
    } else if depth < MAX_DEPTH {
      var a := DecodeArrayAt(fl, buf, depth);
      if a.Ok? { NotDeepItself(fl, buf, a.value.0); }
      NotDeepItself(fl, buf, []);
      if DecodeHeader(buf).Ok? {
        var h := DecodeHeader(buf).value;
        NestedItems(fl, buf[h.1..], h.0, depth + 1);
      }
    }
  }

  lemma {:induction false} NestedItems(fl: FloatOps, buf: seq<byte>, len: nat, depth: nat)
    requires depth <= MAX_DEPTH
    ensures DecodeItems(fl, buf, len, depth) == Err(TooDeep) <==> ItemsTooNested(fl, buf, len, depth)
    decreases MAX_DEPTH - depth, 1
  {
    hide DecodeOne, DecodeItems, TooNested;
    if DecodeItems(fl, buf, len, depth) == Err(TooDeep) {
      var j := ItemsStop(fl, buf, len, depth, TooDeep);
      NestedTooDeep(fl, buf[DecodeItems(fl, buf, j, depth).value.1..], depth);
      assert NestedAt(fl, buf, j, depth);
    }
    if j: nat :| j < len && NestedAt(fl, buf, j, depth) {
      NestedTooDeep(fl, buf[DecodeItems(fl, buf, j, depth).value.1..], depth);
      ItemsStopAt(fl, buf, j, len, depth, TooDeep);
    }
  }

  // -------------------------------------------------- whatever decodes can be sent on

  ghost predicate FloatsTyped(fl: FloatOps) {
    forall x :: 0 <= fl.narrow(x) <= 0xffff_ffff
  }

  predicate Sendable(v: Value) { Typed(v) && Fits(v) }

  lemma ScalarSendable(m: byte, rest: seq<byte>)
    requires !ArrayMarker(m) && DecodeScalar(m, rest).Ok?
    ensures GoodScalar(DecodeScalar(m, rest).value.0)
  {
    hide FromBe, Pow256, Utf8;
    Powers();
    forall n: nat | n <= |rest| ensures FromBe(rest[..n]) < Pow256(n) {
      FromBeBound(rest[..n]);
    }
  }

  lemma HeaderBound(buf: seq<byte>)
    requires DecodeHeader(buf).Ok?
    ensures DecodeHeader(buf).value.0 <= U32_MAX
  {
    hide FromBe, Pow256;
    Powers();
    if |buf| >= 3 {
      FromBeBound(buf[1..3]);
    }
    if |buf| >= 5 {
      FromBeBound(buf[1..5]);
    }
  }

  lemma ElementSendable(fl: FloatOps, items: seq<Value>, k: nat)
    requires FloatsTyped(fl) && Classify(fl, items).Ok? && k < |items| && Sendable(items[k])
    requires var v := Classify(fl, items).value; IsArray(v) && |Elems(v)| == |items|
    ensures GoodScalar(Elems(Classify(fl, items).value)[k])
  {
    hide Utf8;
    var v, x := Classify(fl, items).value, items[k];
    if v.Uint64Array? {
      assert v.uints[k] == WrapU64(AsInt(x));
    } else if v.Int64Array? {
      assert !IsBig(x);
      assert v.ints[k] == WrapI64(AsInt(x));
    } else if v.FloatArray? {
      var wide := fl.widen(x.bits);
      assert 0 <= fl.narrow(wide) <= 0xffff_ffff;
      assert Elems(v)[k] == Float(fl.narrow(wide));
    }
  }

  /** Elements that form a typed list are scalars, so that the list can be sent on. */
  lemma ClassifySendable(fl: FloatOps, items: seq<Value>)
    requires FloatsTyped(fl) && |items| <= U32_MAX && Classify(fl, items).Ok?
    requires forall k | 0 <= k < |items| :: Sendable(items[k])
    ensures Sendable(Classify(fl, items).value)
  {
    hide Utf8;
    var v := Classify(fl, items).value;
    assert |Elems(v)| == |items|;
    forall k | 0 <= k < |items| ensures GoodScalar(Elems(v)[k]) {
      assert Sendable(items[k]);
      ElementSendable(fl, items, k);
    }
  }

  /** Anything the decoder accepts, from any input, can be encoded again. */
  lemma {:induction false} DecodedSendable(fl: FloatOps, buf: seq<byte>, depth: nat)
    requires FloatsTyped(fl) && depth <= MAX_DEPTH && DecodeOne(fl, buf, depth).Ok?
    ensures Sendable(DecodeOne(fl, buf, depth).value.0)
    decreases |buf|, 1, 0
  {
    hide DecodeScalar, Classify, ArrayMarker, DecodeItems, DecodeHeader, FloatsTyped;
    if ArrayMarker(buf[0]) {
      hide Typed, Fits;
      ArraySendable(fl, buf, depth);
      ClassifySendable(fl, DecodeArrayAt(fl, buf, depth).value.0);
    } else {
      hide TypedScalar, FitsScalar;
      ScalarSendable(buf[0], buf[1..]);
    }
  }

  lemma {:induction false} ArraySendable(fl: FloatOps, buf: seq<byte>, depth: nat)
    requires FloatsTyped(fl) && depth <= MAX_DEPTH && DecodeArrayAt(fl, buf, depth).Ok?
    ensures var items := DecodeArrayAt(fl, buf, depth).value.0;
            |items| <= U32_MAX && forall k | 0 <= k < |items| :: Sendable(items[k])
    decreases |buf|, 0, 0
  {
    hide DecodeItems, DecodeHeader, Sendable, FloatsTyped;
    var h := DecodeHeader(buf).value;
    HeaderBound(buf);
    ItemsSendable(fl, buf[h.1..], h.0, depth + 1);
  }

  lemma {:induction false} ItemsSendable(fl: FloatOps, buf: seq<byte>, len: nat, depth: nat)
    requires FloatsTyped(fl) && depth <= MAX_DEPTH && DecodeItems(fl, buf, len, depth).Ok?
    ensures forall k | 0 <= k < len :: Sendable(DecodeItems(fl, buf, len, depth).value.0[k])
    decreases |buf|, 2, len
  {
    hide DecodeOne, Sendable, FloatsTyped;
    if len > 0 {
      var o := DecodeOne(fl, buf, depth).value;
      DecodedSendable(fl, buf, depth);
      ItemsSendable(fl, buf[o.1..], len - 1, depth);
    }
  }
}
