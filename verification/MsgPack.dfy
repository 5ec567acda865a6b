/** The MessagePack subset NT4 uses: what each value encodes to, and what the decoder
    makes of any input.  Models core/src/websocket/msgpack.rs. */
module MsgPack {
  import opened Values

  const MAX_DEPTH: nat := 16
  const U32_MAX: nat := 0xffff_ffff

  datatype Error =
    | UnexpectedEof
    | TrailingBytes
    | Unsupported(marker: byte)
    | MixedArray
    | NotAnArray
    | TooDeep
    | WrongArrayLen(expected: nat, got: nat)
    | NotAnInteger
    | OutOfRange(what: string)
    | InvalidUtf8

  datatype Result<+T> = Ok(value: T) | Err(error: Error)

  // ------------------------------------------------------------------ big endian

  function Pow256(n: nat): (p: nat)
    ensures p > 0
  {
    if n == 0 then 1 else 256 * Pow256(n - 1)
  }

  /** The low `n` bytes of `x`, most significant first. */
  function Be(n: nat, x: nat): (s: seq<byte>)
    ensures |s| == n
  {
    if n == 0 then [] else Be(n - 1, x / 256) + [x % 256]
  }

  function FromBe(s: seq<byte>): nat {
    if s == [] then 0 else FromBe(s[..|s| - 1]) * 256 + s[|s| - 1]
  }

  /** Two's complement, both ways, for the modulus `m` of a width. */
  function Unsigned(m: nat, x: int): nat
    requires 0 <= x + m
  {
    if x < 0 then x + m else x
  }

  function Signed(m: nat, u: nat): int { if 2 * u >= m then u - m else u }

  const TWO_8: nat := 0x100
  const TWO_16: nat := 0x1_0000
  const TWO_32: nat := 0x1_0000_0000

  // ----------------------------------------------------------------------- UTF-8

  predicate Continuation(b: byte) { 0x80 <= b <= 0xbf }

  /** Length of the well-formed sequence `s` starts with, or 0 if there is none. */
  function Utf8Head(s: seq<byte>): (n: nat)
    ensures n <= |s|
  {
    if s == [] then 0
    else
      var b := s[0];
      if b <= 0x7f then 1
      else if 0xc2 <= b <= 0xdf then if |s| >= 2 && Continuation(s[1]) then 2 else 0
      else if 0xe0 <= b <= 0xef then
        if |s| >= 3 && Continuation(s[1]) && Continuation(s[2])
           && (b == 0xe0 ==> s[1] >= 0xa0) && (b == 0xed ==> s[1] <= 0x9f) then 3 else 0
      else if 0xf0 <= b <= 0xf4 then
        if |s| >= 4 && Continuation(s[1]) && Continuation(s[2]) && Continuation(s[3])
           && (b == 0xf0 ==> s[1] >= 0x90) && (b == 0xf4 ==> s[1] <= 0x8f) then 4 else 0
      else 0
  }

  predicate Utf8(s: seq<byte>) {
    s == [] || (Utf8Head(s) > 0 && Utf8(s[Utf8Head(s)..]))
  }

  // -------------------------------------------------------------------- encoding

  function EncInt(x: int): seq<byte>
    requires -I64_MAX - 1 <= x <= I64_MAX
  {
    if 0 <= x <= 0x7f then [x]
    else if -32 <= x <= -1 then [x + 0x100]
    else if -0x80 <= x <= 0x7f then [0xd0] + Be(1, Unsigned(TWO_8, x))
    else if -0x8000 <= x <= 0x7fff then [0xd1] + Be(2, Unsigned(TWO_16, x))
    else if -0x8000_0000 <= x <= 0x7fff_ffff then [0xd2] + Be(4, Unsigned(TWO_32, x))
    else [0xd3] + Be(8, Unsigned(TWO_64, x))
  }

  function EncUint(x: int): seq<byte>
    requires 0 <= x < TWO_64
  {
    if x <= I64_MAX then EncInt(x) else [0xcf] + Be(8, x)
  }

  function StrHeader(len: nat): seq<byte>
    requires len <= U32_MAX
  {
    if len <= 0x1f then [0xa0 + len]
    else if len <= 0xff then [0xd9] + Be(1, len)
    else if len <= 0xffff then [0xda] + Be(2, len)
    else [0xdb] + Be(4, len)
  }

  function BinHeader(len: nat): seq<byte>
    requires len <= U32_MAX
  {
    if len <= 0xff then [0xc4] + Be(1, len)
    else if len <= 0xffff then [0xc5] + Be(2, len)
    else [0xc6] + Be(4, len)
  }

  function ArrayHeader(len: nat): seq<byte>
    requires len <= U32_MAX
  {
    if len <= 0x0f then [0x90 + len]
    else if len <= 0xffff then [0xdc] + Be(2, len)
    else [0xdd] + Be(4, len)
  }

  predicate IsArray(v: Value) {
    v.Int8Array? || v.Int16Array? || v.Int32Array? || v.Int64Array?
    || v.Uint8Array? || v.Uint16Array? || v.Uint32Array? || v.Uint64Array?
    || v.FloatArray? || v.DoubleArray? || v.StringArray? || v.BoolArray?
  }

  /** The elements a typed array is encoded as. */
  function Elems(v: Value): seq<Value>
    requires IsArray(v)
  {
    match v
    case Int8Array(xs) => seq(|xs|, k requires 0 <= k < |xs| => Int8(xs[k]))
    case Int16Array(xs) => seq(|xs|, k requires 0 <= k < |xs| => Int16(xs[k]))
    case Int32Array(xs) => seq(|xs|, k requires 0 <= k < |xs| => Int32(xs[k]))
    case Int64Array(xs) => seq(|xs|, k requires 0 <= k < |xs| => Int64(xs[k]))
    case Uint8Array(xs) => seq(|xs|, k requires 0 <= k < |xs| => Uint8(xs[k]))
    case Uint16Array(xs) => seq(|xs|, k requires 0 <= k < |xs| => Uint16(xs[k]))
    case Uint32Array(xs) => seq(|xs|, k requires 0 <= k < |xs| => Uint32(xs[k]))
    case Uint64Array(xs) => seq(|xs|, k requires 0 <= k < |xs| => Uint64(xs[k]))
    case FloatArray(xs) => seq(|xs|, k requires 0 <= k < |xs| => Float(xs[k]))
    case DoubleArray(xs) => seq(|xs|, k requires 0 <= k < |xs| => Double(xs[k]))
    case StringArray(xs) => seq(|xs|, k requires 0 <= k < |xs| => String(xs[k]))
    case BoolArray(xs) => seq(|xs|, k requires 0 <= k < |xs| => Bool(xs[k]))
  }

  /** What the source's types guarantee of a value: each number fits its width and each
      string is UTF-8. */
  predicate TypedScalar(v: Value)
    requires !IsArray(v)
  {
    match v
    case Int8(x) => -0x80 <= x <= 0x7f
    case Int16(x) => -0x8000 <= x <= 0x7fff
    case Int32(x) => -0x8000_0000 <= x <= 0x7fff_ffff
    case Int64(x) => -I64_MAX - 1 <= x <= I64_MAX
    case Uint8(x) => 0 <= x <= 0xff
    case Uint16(x) => 0 <= x <= 0xffff
    case Uint32(x) => 0 <= x <= 0xffff_ffff
    case Uint64(x) => 0 <= x < TWO_64
    case Float(b) => 0 <= b <= 0xffff_ffff
    case Double(b) => 0 <= b < TWO_64
    case String(s) => Utf8(s)
    case _ => true
  }

  predicate Typed(v: Value) {
    if IsArray(v) then forall k | 0 <= k < |Elems(v)| :: Plain(Elems(v)[k]) && TypedScalar(Elems(v)[k])
    else TypedScalar(v)
  }

  predicate Plain(v: Value) { !IsArray(v) }

  /** Every length in the value fits 32 bits, so that it can be encoded. */
  predicate FitsScalar(v: Value)
    requires !IsArray(v)
  {
    match v
    case String(s) => |s| <= U32_MAX
    case Bytes(b) => |b| <= U32_MAX
    case BytesList(b) => |b| <= U32_MAX
    case Coordinate(b) => |b| <= U32_MAX
    case Bezier(b) => |b| <= U32_MAX
    case _ => true
  }

  predicate Fits(v: Value) {
    if IsArray(v) then
      |Elems(v)| <= U32_MAX && forall k | 0 <= k < |Elems(v)| :: Plain(Elems(v)[k]) && FitsScalar(Elems(v)[k])
    else FitsScalar(v)
  }

  function EncScalar(v: Value): seq<byte>
    requires GoodScalar(v)
  {
    match v
    case Int8(x) => EncInt(x)
    case Int16(x) => EncInt(x)
    case Int32(x) => EncInt(x)
    case Int64(x) => EncInt(x)
    case Uint8(x) => EncUint(x)
    case Uint16(x) => EncUint(x)
    case Uint32(x) => EncUint(x)
    case Uint64(x) => EncUint(x)
    case Float(b) => [0xca] + Be(4, b)
    case Double(b) => [0xcb] + Be(8, b)
    case String(s) => StrHeader(|s|) + s
    case Bool(b) => [if b then 0xc3 else 0xc2]
    case Bytes(b) => BinHeader(|b|) + b
    case BytesList(b) => BinHeader(|b|) + b
    case Coordinate(b) => BinHeader(|b|) + b
    case Bezier(b) => BinHeader(|b|) + b
  }

  /** Scalars that encode: the elements of an array that does. */
  predicate GoodScalar(v: Value) { !IsArray(v) && TypedScalar(v) && FitsScalar(v) }

  predicate GoodItems(items: seq<Value>) { forall k | 0 <= k < |items| :: GoodScalar(items[k]) }

  function EncItems(items: seq<Value>): seq<byte>
    requires GoodItems(items)
  {
    if items == [] then [] else EncScalar(items[0]) + EncItems(items[1..])
  }

  function Enc(v: Value): seq<byte>
    requires Typed(v) && Fits(v)
  {
    if IsArray(v) then ArrayHeader(|Elems(v)|) + EncItems(Elems(v)) else EncScalar(v)
  }

  // -------------------------------------------------------------------- decoding

  /** The first `n` bytes as a big-endian number. */
  function Take(n: nat, buf: seq<byte>): (r: Result<nat>)
    ensures r.Ok? <==> n <= |buf|
  {
    if n <= |buf| then Ok(FromBe(buf[..n])) else Err(UnexpectedEof)
  }

  /** A number of `n` bytes after the marker, and the value it makes. */
  function Number(n: nat, rest: seq<byte>, make: nat -> Value): (r: Result<(Value, nat)>)
    ensures r.Ok? <==> n <= |rest|
    ensures r.Ok? ==> r.value.1 == n + 1
  {
    if n <= |rest| then Ok((make(FromBe(rest[..n])), n + 1)) else Err(UnexpectedEof)
  }

  /** `len` bytes of text, `head` bytes after the value's first byte. */
  function TextAt(rest: seq<byte>, len: nat, head: nat): (r: Result<(Value, nat)>)
    ensures r.Ok? ==> r.value.1 == head + len && len <= |rest|
  {
    if |rest| < len then Err(UnexpectedEof)
    else if !Utf8(rest[..len]) then Err(InvalidUtf8)
    else Ok((String(rest[..len]), head + len))
  }

  function RawAt(rest: seq<byte>, len: nat, head: nat): (r: Result<(Value, nat)>)
    ensures r.Ok? ==> r.value.1 == head + len && len <= |rest|
  {
    if |rest| < len then Err(UnexpectedEof) else Ok((Bytes(rest[..len]), head + len))
  }

  function SizedText(n: nat, rest: seq<byte>): (r: Result<(Value, nat)>)
    ensures r.Ok? ==> 1 <= r.value.1 <= |rest| + 1
  {
    if n <= |rest| then TextAt(rest[n..], FromBe(rest[..n]), n + 1) else Err(UnexpectedEof)
  }

  function SizedRaw(n: nat, rest: seq<byte>): (r: Result<(Value, nat)>)
    ensures r.Ok? ==> 1 <= r.value.1 <= |rest| + 1
  {
    if n <= |rest| then RawAt(rest[n..], FromBe(rest[..n]), n + 1) else Err(UnexpectedEof)
  }

  predicate ArrayMarker(m: byte) { 0x90 <= m <= 0x9f || m == 0xdc || m == 0xdd }

  function DecodeScalar(m: byte, rest: seq<byte>): (r: Result<(Value, nat)>)
    requires !ArrayMarker(m)
    ensures r.Ok? ==> 1 <= r.value.1 <= |rest| + 1
  {
    if m <= 0x7f then Ok((Uint8(m), 1))
    else if m >= 0xe0 then Ok((Int8(m - 0x100), 1))
    else if 0xa0 <= m <= 0xbf then TextAt(rest, m - 0xa0, 1)
    else if m == 0xc2 then Ok((Bool(false), 1))
    else if m == 0xc3 then Ok((Bool(true), 1))
    else if m == 0xc4 then SizedRaw(1, rest)
    else if m == 0xc5 then SizedRaw(2, rest)
    else if m == 0xc6 then SizedRaw(4, rest)
    else if m == 0xca then Number(4, rest, (u: nat) => Float(u))
    else if m == 0xcb then Number(8, rest, (u: nat) => Double(u))
    else if m == 0xcc then Number(1, rest, (u: nat) => Uint8(u))
    else if m == 0xcd then Number(2, rest, (u: nat) => Uint16(u))
    else if m == 0xce then Number(4, rest, (u: nat) => Uint32(u))
    else if m == 0xcf then Number(8, rest, (u: nat) => Uint64(u))
    else if m == 0xd0 then Number(1, rest, (u: nat) => Int8(Signed(TWO_8, u)))
    else if m == 0xd1 then Number(2, rest, (u: nat) => Int16(Signed(TWO_16, u)))
    else if m == 0xd2 then Number(4, rest, (u: nat) => Int32(Signed(TWO_32, u)))
    else if m == 0xd3 then Number(8, rest, (u: nat) => Int64(Signed(TWO_64, u)))
    else if m == 0xd9 then SizedText(1, rest)
    else if m == 0xda then SizedText(2, rest)
    else if m == 0xdb then SizedText(4, rest)
    else Err(Unsupported(m))
  }

  predicate IsInt(v: Value) { AsI64(v).Some? || AsU64(v).Some? }

  function AsInt(v: Value): int
    requires IsInt(v)
  {
    if AsI64(v).Some? then AsI64(v).value else AsU64(v).value
  }

  predicate IsBig(v: Value) { AsU64(v).Some? && AsU64(v).value > I64_MAX }

  /** Reinterpreting casts between `u64` and `i64`. */
  function WrapU64(x: int): int { if x < 0 then x + TWO_64 else x }

  function WrapI64(x: int): int { if x > I64_MAX then x - TWO_64 else x }

  function Ints(items: seq<Value>, wrap: int -> int): seq<int>
    requires forall k | 0 <= k < |items| :: IsInt(items[k])
  {
    seq(|items|, k requires 0 <= k < |items| => wrap(AsInt(items[k])))
  }

  function Floats(fl: FloatOps, items: seq<Value>): seq<int>
    requires forall k | 0 <= k < |items| :: items[k].Float?
  {
    seq(|items|, k requires 0 <= k < |items| => fl.narrow(fl.widen(items[k].bits)))
  }

  function Doubles(items: seq<Value>): seq<int>
    requires forall k | 0 <= k < |items| :: items[k].Double?
  {
    seq(|items|, k requires 0 <= k < |items| => items[k].bits)
  }

  function Texts(items: seq<Value>): seq<seq<byte>>
    requires forall k | 0 <= k < |items| :: items[k].String?
  {
    seq(|items|, k requires 0 <= k < |items| => items[k].text)
  }

  function Flags(items: seq<Value>): seq<bool>
    requires forall k | 0 <= k < |items| :: items[k].Bool?
  {
    seq(|items|, k requires 0 <= k < |items| => items[k].flag)
  }

  /** The typed list the decoded elements form; an empty array is a double array. */
  function Classify(fl: FloatOps, items: seq<Value>): Result<Value> {
    if items == [] then Ok(DoubleArray([]))
    else if forall k | 0 <= k < |items| :: IsInt(items[k]) then
      if exists k | 0 <= k < |items| :: IsBig(items[k]) then Ok(Uint64Array(Ints(items, WrapU64)))
      else Ok(Int64Array(Ints(items, WrapI64)))
    else if forall k | 0 <= k < |items| :: items[k].Float? then Ok(FloatArray(Floats(fl, items)))
    else if forall k | 0 <= k < |items| :: items[k].Double? then Ok(DoubleArray(Doubles(items)))
    else if forall k | 0 <= k < |items| :: items[k].String? then Ok(StringArray(Texts(items)))
    else if forall k | 0 <= k < |items| :: items[k].Bool? then Ok(BoolArray(Flags(items)))
    else Err(MixedArray)
  }

  /** An array's length and how many bytes its header took. */
  function DecodeHeader(buf: seq<byte>): (r: Result<(nat, nat)>)
    ensures r.Ok? ==> 1 <= r.value.1 <= |buf|
  {
    if buf == [] then Err(UnexpectedEof)
    else if 0x90 <= buf[0] <= 0x9f then Ok((buf[0] - 0x90, 1))
    else if buf[0] == 0xdc then if |buf| >= 3 then Ok((FromBe(buf[1..3]), 3)) else Err(UnexpectedEof)
    else if buf[0] == 0xdd then if |buf| >= 5 then Ok((FromBe(buf[1..5]), 5)) else Err(UnexpectedEof)
    else Err(NotAnArray)
  }

  /** One value at the front of `buf`, and how many bytes it took.  That the depth stays
      within its bound is checked at every recursive call. */
  function DecodeOne(fl: FloatOps, buf: seq<byte>, depth: nat): (r: Result<(Value, nat)>)
    requires depth <= MAX_DEPTH
    ensures r.Ok? ==> 1 <= r.value.1 <= |buf|
    decreases |buf|, 1, 0
  {
    if buf == [] then Err(UnexpectedEof)
    else if ArrayMarker(buf[0]) then
      match DecodeArrayAt(fl, buf, depth)
      case Err(e) => Err(e)
      case Ok(a) =>
        match Classify(fl, a.0)
        case Err(e) => Err(e)
        case Ok(v) => Ok((v, a.1))
    else DecodeScalar(buf[0], buf[1..])
  }

  function DecodeArrayAt(fl: FloatOps, buf: seq<byte>, depth: nat): (r: Result<(seq<Value>, nat)>)
    requires depth <= MAX_DEPTH
    ensures r.Ok? ==> |r.value.0| < r.value.1 <= |buf|
    decreases |buf|, 0, 0
  {
    if depth >= MAX_DEPTH then Err(TooDeep)
    else
      match DecodeHeader(buf)
      case Err(e) => Err(e)
      case Ok(h) =>
        match DecodeItems(fl, buf[h.1..], h.0, depth + 1)
        case Err(e) => Err(e)
        case Ok(i) => Ok((i.0, h.1 + i.1))
  }

  /** `len` values at the front of `buf`; each takes at least one byte. */
  function DecodeItems(fl: FloatOps, buf: seq<byte>, len: nat, depth: nat): (r: Result<(seq<Value>, nat)>)
    requires depth <= MAX_DEPTH
    ensures r.Ok? ==> |r.value.0| == len <= r.value.1 <= |buf|
    decreases |buf|, 2, len
  {
    if len == 0 then Ok(([], 0))
    else
      match DecodeOne(fl, buf, depth)
      case Err(e) => Err(e)
      case Ok(o) =>
        match DecodeItems(fl, buf[o.1..], len - 1, depth)
        case Err(e) => Err(e)
        case Ok(i) => Ok(([o.0] + i.0, o.1 + i.1))
  }

  function DecodeValue(fl: FloatOps, buf: seq<byte>): Result<Value> {
    match DecodeOne(fl, buf, 0)
    case Err(e) => Err(e)
    case Ok(o) => if o.1 == |buf| then Ok(o.0) else Err(TrailingBytes)
  }
}
