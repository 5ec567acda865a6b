/** The codec as the code runs it: buffers appended to and inputs consumed in loops.
    Each method is proved against the functions in `MsgPack`. */
module MsgPackCodec {
  import opened Values
  import opened MsgPack

  datatype Done = Done

  method EncodeArrayHeader(len: nat, buf: seq<byte>) returns (r: Result<Done>, out: seq<byte>)
    ensures len <= U32_MAX ==> r == Ok(Done) && out == buf + ArrayHeader(len)
    ensures len > U32_MAX ==> r == Err(OutOfRange("array length")) && out == buf
  {
    if len <= 0x0f {
      return Ok(Done), buf + [0x90 + len];
    } else if len <= 0xffff {
      out := buf + [0xdc];
      return Ok(Done), out + Be(2, len);
    } else if len <= U32_MAX {
      out := buf + [0xdd];
      return Ok(Done), out + Be(4, len);
    }
    return Err(OutOfRange("array length")), buf;
  }

  method EncodeStr(s: seq<byte>, buf: seq<byte>) returns (r: Result<Done>, out: seq<byte>)
    ensures |s| <= U32_MAX ==> r == Ok(Done) && out == buf + (StrHeader(|s|) + s)
    ensures |s| > U32_MAX ==> r == Err(OutOfRange("string length")) && out == buf
  {
    var len := |s|;
    if len <= 0x1f {
      out := buf + [0xa0 + len];
    } else if len <= 0xff {
      out := buf + [0xd9] + Be(1, len);
    } else if len <= 0xffff {
      out := buf + [0xda] + Be(2, len);
    } else if len <= U32_MAX {
      out := buf + [0xdb] + Be(4, len);
    } else {
      return Err(OutOfRange("string length")), buf;
    }
    assert out == buf + StrHeader(len);
    r, out := Ok(Done), out + s;
  }

  method EncodeBin(b: seq<byte>, buf: seq<byte>) returns (r: Result<Done>, out: seq<byte>)
    ensures |b| <= U32_MAX ==> r == Ok(Done) && out == buf + (BinHeader(|b|) + b)
    ensures |b| > U32_MAX ==> r == Err(OutOfRange("bin length")) && out == buf
  {
    var len := |b|;
    if len <= 0xff {
      out := buf + [0xc4] + Be(1, len);
    } else if len <= 0xffff {
      out := buf + [0xc5] + Be(2, len);
    } else if len <= U32_MAX {
      out := buf + [0xc6] + Be(4, len);
    } else {
      return Err(OutOfRange("bin length")), buf;
    }
    assert out == buf + BinHeader(len);
    r, out := Ok(Done), out + b;
  }

  method EncodeScalar(v: Value, buf: seq<byte>) returns (r: Result<Done>, out: seq<byte>)
    requires !IsArray(v) && TypedScalar(v)
    ensures r.Ok? <==> FitsScalar(v)
    ensures r.Ok? ==> out == buf + EncScalar(v)
    ensures r.Err? ==> out == buf && r.error.OutOfRange?
  {
    hide Be, Utf8, EncInt, EncUint, BinHeader, StrHeader;
    match v {
      case Int8(x) => r, out := Ok(Done), buf + EncInt(x);
      case Int16(x) => r, out := Ok(Done), buf + EncInt(x);
      case Int32(x) => r, out := Ok(Done), buf + EncInt(x);
      case Int64(x) => r, out := Ok(Done), buf + EncInt(x);
      case Uint8(x) => r, out := Ok(Done), buf + EncUint(x);
      case Uint16(x) => r, out := Ok(Done), buf + EncUint(x);
      case Uint32(x) => r, out := Ok(Done), buf + EncUint(x);
      case Uint64(x) => r, out := Ok(Done), buf + EncUint(x);
      case Float(b) =>
        out := buf + [0xca];
        r, out := Ok(Done), out + Be(4, b);
      case Double(b) =>
        out := buf + [0xcb];
        r, out := Ok(Done), out + Be(8, b);
      case Bool(b) => r, out := Ok(Done), buf + [if b then 0xc3 else 0xc2];
      case String(s) => r, out := EncodeStr(s, buf);
      case Bytes(b) => r, out := EncodeBin(b, buf);
      case BytesList(b) => r, out := EncodeBin(b, buf);
      case Coordinate(b) => r, out := EncodeBin(b, buf);
      case Bezier(b) => r, out := EncodeBin(b, buf);
    }
  }

  lemma {:induction false} EncItemsMore(items: seq<Value>, v: Value)
    requires GoodItems(items) && GoodScalar(v)
    ensures GoodItems(items + [v]) && EncItems(items + [v]) == EncItems(items) + EncScalar(v)
    decreases |items|
  {
    hide EncScalar, GoodScalar;
    if items == [] {
      assert [v][1..] == [];
      assert EncItems([v]) == EncScalar(v) + EncItems([]) == EncScalar(v);
      assert items + [v] == [v];
    } else {
      EncItemsMore(items[1..], v);
      assert (items + [v])[1..] == items[1..] + [v];
    }
  }

  /** A typed array: its header, then each element; stops at the first that does not fit. */
  method EncodeTypedArray(items: seq<Value>, buf: seq<byte>) returns (r: Result<Done>, out: seq<byte>)
    requires forall k | 0 <= k < |items| :: Plain(items[k]) && TypedScalar(items[k])
    ensures r.Ok? <==> |items| <= U32_MAX && forall k | 0 <= k < |items| :: Plain(items[k]) && FitsScalar(items[k])
    ensures r.Ok? ==> GoodItems(items) && out == buf + (ArrayHeader(|items|) + EncItems(items))
    ensures r.Err? ==> buf <= out && r.error.OutOfRange?
  {
    hide EncScalar, TypedScalar, FitsScalar, ArrayHeader, IsArray;
    r, out := EncodeArrayHeader(|items|, buf);
    if r.Err? {
      return;
    }
    var i := 0;
    assert items[..0] == [];
    while i < |items|
      invariant 0 <= i <= |items| && GoodItems(items[..i])
      invariant out == buf + (ArrayHeader(|items|) + EncItems(items[..i]))
    {
      EncodedSoFar(items, i, buf);
      r, out := EncodeScalar(items[i], out);
      if r.Err? {
        return;
      }
      EncItemsMore(items[..i], items[i]);
      assert items[..i + 1] == items[..i] + [items[i]];
      assert buf + (ArrayHeader(|items|) + EncItems(items[..i])) + EncScalar(items[i])
          == buf + (ArrayHeader(|items|) + (EncItems(items[..i]) + EncScalar(items[i])));
      i := i + 1;
    }
    assert items[..i] == items;
    r := Ok(Done);
    assert forall k | 0 <= k < |items| :: GoodScalar(items[k]);
  }

  lemma EncodedSoFar(items: seq<Value>, i: nat, buf: seq<byte>)
    requires i < |items| <= U32_MAX && GoodItems(items[..i])
    ensures buf <= buf + (ArrayHeader(|items|) + EncItems(items[..i]))
    ensures forall k | 0 <= k < i :: Plain(items[k]) && FitsScalar(items[k])
  {
    hide EncItems, ArrayHeader;
    forall k | 0 <= k < i ensures Plain(items[k]) && FitsScalar(items[k]) {
      assert GoodScalar(items[..i][k]);
    }
  }

  /** Encoding succeeds exactly when every length fits 32 bits, and then appends the
      value's encoding to what the buffer held. */
  method EncodeValue(v: Value, buf: seq<byte>) returns (r: Result<Done>, out: seq<byte>)
    requires Typed(v)
    ensures r.Ok? <==> Fits(v)
    ensures r.Ok? ==> out == buf + Enc(v)
    ensures r.Err? ==> buf <= out && r.error.OutOfRange?
  {
    hide EncScalar, TypedScalar, FitsScalar, ArrayHeader, EncItems, Elems;
    if IsArray(v) {
      r, out := EncodeTypedArray(Elems(v), buf);
    } else {
      r, out := EncodeScalar(v, buf);
    }
  }

  // -------------------------------------------------------------------- decoding

  lemma {:induction false} DecodeItemsMore(fl: FloatOps, buf: seq<byte>, i: nat, len: nat, depth: nat)
    requires depth <= MAX_DEPTH && i < len && DecodeItems(fl, buf, i, depth).Ok?
    ensures var got := DecodeItems(fl, buf, i, depth).value;
            var next := DecodeOne(fl, buf[got.1..], depth);
            && (next.Err? ==> DecodeItems(fl, buf, len, depth) == Err(next.error))
            && (next.Ok? ==> DecodeItems(fl, buf, i + 1, depth) == Ok((got.0 + [next.value.0], got.1 + next.value.1)))
    decreases i
  {
    hide DecodeOne;
    if i == 0 {
      assert buf[0..] == buf;
      var next := DecodeOne(fl, buf, depth);
      if next.Ok? {
        assert DecodeItems(fl, buf[next.value.1..], 0, depth) == Ok(([], 0));
        assert [next.value.0] + [] == [] + [next.value.0];
      }
    } else {
      var o := DecodeOne(fl, buf, depth).value;
      var rest := buf[o.1..];
      DecodeItemsMore(fl, rest, i - 1, len - 1, depth);
      var got := DecodeItems(fl, rest, i - 1, depth).value;
      assert rest[got.1..] == buf[o.1 + got.1..];
      var next := DecodeOne(fl, rest[got.1..], depth);
      if next.Ok? {
        assert [o.0] + (got.0 + [next.value.0]) == [o.0] + got.0 + [next.value.0];
      }
    }
  }

  /** The element loop of the array decoder. */
  method DecodeArray(fl: FloatOps, buf: seq<byte>, depth: nat) returns (r: Result<(seq<Value>, nat)>)
    requires depth <= MAX_DEPTH
    ensures r == DecodeArrayAt(fl, buf, depth)
    decreases |buf|, 0
  {
    hide DecodeOne, DecodeItems, DecodeHeader;
    if depth >= MAX_DEPTH {
      return Err(TooDeep);
    }
    var header := DecodeHeader(buf);
    if header.Err? {
      return Err(header.error);
    }
    var len, body := header.value.0, buf[header.value.1..];
    var items: seq<Value>, rest, i := [], body, 0;
    assert DecodeItems(fl, body, 0, depth + 1) == Ok(([], 0)) by { NoItems(fl, body, depth + 1); }
    while i < len
      invariant 0 <= i <= len && |rest| <= |body|
      invariant DecodeItems(fl, body, i, depth + 1) == Ok((items, |body| - |rest|))
      invariant rest == body[|body| - |rest|..]
    {
      DecodeItemsMore(fl, body, i, len, depth + 1);
      var one := Decode(fl, rest, depth + 1);
      if one.Err? {
        return Err(one.error);
      }
      items := items + [one.value.0];
      rest := rest[one.value.1..];
      i := i + 1;
    }
    return Ok((items, |buf| - |rest|));
  }

  lemma NoItems(fl: FloatOps, buf: seq<byte>, depth: nat)
    requires depth <= MAX_DEPTH
    ensures DecodeItems(fl, buf, 0, depth) == Ok(([], 0))
  {}

  method Decode(fl: FloatOps, buf: seq<byte>, depth: nat) returns (r: Result<(Value, nat)>)
    requires depth <= MAX_DEPTH
    ensures r == DecodeOne(fl, buf, depth)
    decreases |buf|, 1
  {
    hide DecodeArrayAt, DecodeScalar, Classify;
    if buf == [] {
      return Err(UnexpectedEof);
    }
    if !ArrayMarker(buf[0]) {
      return DecodeScalar(buf[0], buf[1..]);
    }
    var decoded := DecodeArray(fl, buf, depth);
    if decoded.Err? {
      return Err(decoded.error);
    }
    var value := Classify(fl, decoded.value.0);
    if value.Err? {
      return Err(value.error);
    }
    return Ok((value.value, decoded.value.1));
  }
}
