/** NT4 value messages: the MessagePack 4-tuple of topic, timestamp, data type and value,
    and the frames that batch them.  Models core/src/websocket/message.rs. */
module Messages {
  import opened Values
  import opened MsgPack
  import opened MsgPackProofs
  import opened MsgPackLaws
  import opened MsgPackCodec

  /** The topic id of timestamp messages, which the wire carries as -1. */
  const RTT_TOPIC_ID: nat := 0xffff_ffff

  datatype ValueMessage = ValueMessage(topicId: nat, micros: nat, dataType: nat, value: Value)

  /** What the field types guarantee, and that the value can be encoded at all. */
  predicate Good(m: ValueMessage) {
    m.topicId <= U32_MAX && m.micros < TWO_64 && m.dataType <= U32_MAX && Sendable(m.value)
  }

  /** The bytes of one message. */
  function EncMessage(m: ValueMessage): seq<byte>
    requires Good(m)
  {
    var id := if m.topicId == RTT_TOPIC_ID then EncInt(-1) else EncUint(m.topicId);
    [0x94] + (id + (EncUint(m.micros) + (EncUint(m.dataType) + Enc(m.value))))
  }

  function EncAll(ms: seq<ValueMessage>): seq<byte>
    requires forall k | 0 <= k < |ms| :: Good(ms[k])
  {
    if ms == [] then [] else EncMessage(ms[0]) + EncAll(ms[1..])
  }

  // -------------------------------------------------------------------- decoding

  /** The message four decoded items form. */
  function FromItems(items: seq<Value>): Result<ValueMessage> {
    if |items| != 4 then Err(WrongArrayLen(4, |items|))
    else
      match TopicOf(items[0])
      case Err(e) => Err(e)
      case Ok(id) =>
        if AsU64Any(items[1]).None? || AsU64Any(items[1]).value < 0 then Err(NotAnInteger)
        else if AsU64Any(items[2]).None? then Err(NotAnInteger)
        else if !(0 <= AsU64Any(items[2]).value <= U32_MAX) then Err(OutOfRange("data type"))
        else Ok(ValueMessage(id, AsU64Any(items[1]).value, AsU64Any(items[2]).value, items[3]))
  }

  function TopicOf(v: Value): Result<nat> {
    if AsI64(v) == Some(-1) then Ok(RTT_TOPIC_ID)
    else if AsU64Any(v).None? then Err(NotAnInteger)
    else if 0 <= AsU64Any(v).value <= U32_MAX then Ok(AsU64Any(v).value)
    else Err(OutOfRange("topic id"))
  }

  function DecodeMessage(fl: FloatOps, buf: seq<byte>): (r: Result<(ValueMessage, nat)>)
    ensures r.Ok? ==> 4 < r.value.1 <= |buf|
  {
    match DecodeArrayAt(fl, buf, 0)
    case Err(e) => Err(e)
    case Ok(a) =>
      match FromItems(a.0)
      case Err(e) => Err(e)
      case Ok(m) => Ok((m, a.1))
  }

  /** The messages of a whole input, however many. */
  function DecodeEach(fl: FloatOps, buf: seq<byte>): Result<seq<ValueMessage>> {
    if buf == [] then Ok([])
    else
      match DecodeMessage(fl, buf)
      case Err(e) => Err(e)
      case Ok(o) =>
        match DecodeEach(fl, buf[o.1..])
        case Err(e) => Err(e)
        case Ok(ms) => Ok([o.0] + ms)
  }

  /** Every message in one binary frame; an empty frame is an error. */
  function DecodeAll(fl: FloatOps, buf: seq<byte>): Result<seq<ValueMessage>> {
    if buf == [] then Err(UnexpectedEof) else DecodeEach(fl, buf)
  }

  // ------------------------------------------------------------- messages come back

  function NormMessage(fl: FloatOps, m: ValueMessage): ValueMessage { m.(value := Norm(fl, m.value)) }

  lemma OneUint(fl: FloatOps, x: int, tail: seq<byte>, depth: nat)
    requires 0 <= x < TWO_64 && depth <= MAX_DEPTH
    ensures DecodeOne(fl, EncUint(x) + tail, depth) == Ok((NormInt(x), |EncUint(x)|)) && |EncUint(x)| > 0
  {
    hide EncUint, DecodeScalar, NormInt;
    UintComesBack(x, tail);
    var e := EncUint(x);
    assert (e + tail)[1..] == e[1..] + tail;
  }

  lemma OneMinusOne(fl: FloatOps, tail: seq<byte>, depth: nat)
    requires depth <= MAX_DEPTH
    ensures DecodeOne(fl, EncInt(-1) + tail, depth) == Ok((Int8(-1), 1)) && |EncInt(-1)| == 1
  {
    var buf := EncInt(-1) + tail;
    assert buf[0] == 0xff;
  }

  lemma NormIntUnsigned(x: nat)
    requires x < TWO_64
    ensures AsU64Any(NormInt(x)) == Some(x) && AsI64(NormInt(x)) != Some(-1)
  {}

  lemma TopicComesBack(fl: FloatOps, id: nat, tail: seq<byte>, depth: nat)
    requires id <= U32_MAX && depth <= MAX_DEPTH
    ensures var e := if id == RTT_TOPIC_ID then EncInt(-1) else EncUint(id);
            && e != [] && DecodeOne(fl, e + tail, depth).Ok? && DecodeOne(fl, e + tail, depth).value.1 == |e|
            && TopicOf(DecodeOne(fl, e + tail, depth).value.0) == Ok(id)
  {
    hide EncUint, EncInt, DecodeOne, NormInt;
    if id == RTT_TOPIC_ID {
      OneMinusOne(fl, tail, depth);
    } else {
      OneUint(fl, id, tail, depth);
      NormIntUnsigned(id);
    }
  }

  /** One more element in front of elements that decode. */
  lemma {:induction false} ItemInFront(fl: FloatOps, e: seq<byte>, v: Value, rest: seq<byte>, items: seq<Value>,
                                       used: nat, depth: nat)
    requires depth <= MAX_DEPTH && DecodeOne(fl, e + rest, depth) == Ok((v, |e|))
    requires DecodeItems(fl, rest, |items|, depth) == Ok((items, used))
    ensures DecodeItems(fl, e + rest, |items| + 1, depth) == Ok(([v] + items, |e| + used))
  {
    hide DecodeOne;
    assert (e + rest)[|e|..] == rest;
  }

  lemma {:induction false} FourComeBack(fl: FloatOps, m: ValueMessage, tail: seq<byte>)
    requires Good(m)
    ensures DecodeMessage(fl, EncMessage(m) + tail) == Ok((NormMessage(fl, m), |EncMessage(m)|))
  {
    hide EncUint, EncInt, DecodeOne, DecodeItems, NormInt, Enc, Norm, TopicOf, Typed, Fits;
    var e0 := if m.topicId == RTT_TOPIC_ID then EncInt(-1) else EncUint(m.topicId);
    var e1, e2, e3 := EncUint(m.micros), EncUint(m.dataType), Enc(m.value);
    var b3 := e3 + tail;
    var b2 := e2 + b3;
    var b1 := e1 + b2;
    var b0 := e0 + b1;
    assert EncMessage(m) + tail == [0x94] + b0;
    assert DecodeItems(fl, tail, 0, 1) == Ok(([], 0)) by { NoItems(fl, tail, 1); }
    assert DecodeOne(fl, b3, 1) == Ok((Norm(fl, m.value), |e3|)) by { ValueIn(fl, m, tail); }
    ItemInFront(fl, e3, Norm(fl, m.value), tail, [], 0, 1);
    OneUint(fl, m.dataType, b3, 1);
    ItemInFront(fl, e2, NormInt(m.dataType), b3, [Norm(fl, m.value)] + [], |e3| + 0, 1);
    OneUint(fl, m.micros, b2, 1);
    var i2 := [NormInt(m.dataType)] + ([Norm(fl, m.value)] + []);
    ItemInFront(fl, e1, NormInt(m.micros), b2, i2, |e2| + (|e3| + 0), 1);
    TopicComesBack(fl, m.topicId, b1, 1);
    var i1 := [NormInt(m.micros)] + i2;
    var topic := DecodeOne(fl, b0, 1).value.0;
    ItemInFront(fl, e0, topic, b1, i1, |e1| + (|e2| + (|e3| + 0)), 1);
    NormIntUnsigned(m.micros);
    NormIntUnsigned(m.dataType);
    MessageFrom(fl, b0, [topic] + i1, |e0| + (|e1| + (|e2| + |e3|)));
  }

  lemma ValueIn(fl: FloatOps, m: ValueMessage, tail: seq<byte>)
    requires Good(m)
    ensures DecodeOne(fl, Enc(m.value) + tail, 1) == Ok((Norm(fl, m.value), |Enc(m.value)|))
  {
    hide DecodeOne, Enc, Norm;
    RoundTrip(fl, m.value, tail, 1);
  }

  lemma MessageFrom(fl: FloatOps, body: seq<byte>, items: seq<Value>, used: nat)
    requires |items| == 4 && DecodeItems(fl, body, 4, 1) == Ok((items, used))
    ensures DecodeArrayAt(fl, [0x94] + body, 0) == Ok((items, 1 + used))
  {
    hide DecodeItems;
    assert ([0x94] + body)[1..] == body;
    assert DecodeHeader([0x94] + body) == Ok((4, 1));
  }

  function NormAll(fl: FloatOps, ms: seq<ValueMessage>): seq<ValueMessage> {
    if ms == [] then [] else [NormMessage(fl, ms[0])] + NormAll(fl, ms[1..])
  }

  /** A frame that batches messages decodes to exactly those messages, in order, each with
      its value in normal form. */
  lemma {:induction false} BatchComesBack(fl: FloatOps, ms: seq<ValueMessage>)
    requires forall k | 0 <= k < |ms| :: Good(ms[k])
    ensures DecodeEach(fl, EncAll(ms)) == Ok(NormAll(fl, ms))
    decreases |ms|
  {
    hide DecodeMessage, EncMessage, Good, NormMessage;
    if ms != [] {
      var e, more := EncMessage(ms[0]), EncAll(ms[1..]);
      FourComeBack(fl, ms[0], more);
      assert e + more != [] by { assert DecodeMessage(fl, e + more).Ok?; }
      assert (e + more)[|e|..] == more;
      BatchComesBack(fl, ms[1..]);
    }
  }

  lemma {:induction false} NormAllAt(fl: FloatOps, ms: seq<ValueMessage>, k: nat)
    requires k < |ms|
    ensures |NormAll(fl, ms)| == |ms| && NormAll(fl, ms)[k] == NormMessage(fl, ms[k])
    decreases |ms|
  {
    if |ms| > 1 {
      NormAllAt(fl, ms[1..], if k == 0 then 0 else k - 1);
    }
  }

  /** The frame law: decoding a batch succeeds exactly when the batch is not empty, and then
      yields as many messages, each with its topic, time and type unchanged and a value that
      conforms back to the one sent. */
  lemma {:induction false} FrameLaw(fl: FloatOps, ms: seq<ValueMessage>)
    requires forall k | 0 <= k < |ms| :: Good(ms[k])
    ensures DecodeAll(fl, EncAll(ms)).Ok? <==> ms != []
    ensures ms == [] ==> DecodeAll(fl, EncAll(ms)) == Err(UnexpectedEof)
    ensures ms != [] ==>
              var got := DecodeAll(fl, EncAll(ms)).value;
              |got| == |ms| && forall k | 0 <= k < |ms| :: SameMessage(fl, got[k], ms[k])
  {
    hide DecodeEach, EncMessage, Good, NormMessage, NormAll, SameMessage;
    BatchComesBack(fl, ms);
    if ms != [] {
      assert EncAll(ms) != [] by { NonEmpty(ms); }
      forall k | 0 <= k < |ms| ensures |NormAll(fl, ms)| == |ms| && SameMessage(fl, NormAll(fl, ms)[k], ms[k]) {
        NormAllAt(fl, ms, k);
        NormSame(fl, ms[k]);
      }
      assert |NormAll(fl, ms)| == |ms| by { NormAllAt(fl, ms, 0); }
    }
  }

  lemma NonEmpty(ms: seq<ValueMessage>)
    requires ms != [] && forall k | 0 <= k < |ms| :: Good(ms[k])
    ensures EncAll(ms) != []
  {
    assert EncMessage(ms[0])[0] == 0x94;
  }

  /** `got` is `sent` up to the width its value was stored in. */
  ghost predicate SameMessage(fl: FloatOps, got: ValueMessage, sent: ValueMessage) {
    && got.topicId == sent.topicId && got.micros == sent.micros && got.dataType == sent.dataType
    && var w := Conformed(fl, got.value, XtDataType(sent.value));
       XtDataType(w) == XtDataType(sent.value) && (Lossless(fl, sent.value) ==> MeaningOf(w) == MeaningOf(sent.value))
  }

  lemma NormSame(fl: FloatOps, m: ValueMessage)
    requires Good(m)
    ensures SameMessage(fl, NormMessage(fl, m), m)
  {
    hide DecodeValue, Enc, Norm, Conformed, MeaningOf, Lossless, XtDataType, Typed, Fits;
    ValueRoundTrip(fl, m.value);
    MeaningKept(fl, m.value);
  }

  // ------------------------------------------------------------------ the frame loop

  /** Appends one message to a frame being batched. */
  method EncodeMessage(m: ValueMessage, buf: seq<byte>) returns (out: seq<byte>)
    requires Good(m)
    ensures out == buf + EncMessage(m)
  {
    hide EncUint, EncInt, Enc, Typed, Fits;
    var r;
    r, out := EncodeArrayHeader(4, buf);
    var id := if m.topicId == RTT_TOPIC_ID then EncInt(-1) else EncUint(m.topicId);
    out := out + id;
    out := out + EncUint(m.micros);
    out := out + EncUint(m.dataType);
    r, out := EncodeValue(m.value, out);
  }

  lemma {:induction false} DecodeEachMore(fl: FloatOps, buf: seq<byte>, n: nat, ms: seq<ValueMessage>)
    requires Consumed(fl, buf, n, ms) && n < |buf|
    ensures match DecodeMessage(fl, buf[n..])
            case Err(e) => DecodeEach(fl, buf) == Err(e)
            case Ok(o) => Consumed(fl, buf, n + o.1, ms + [o.0])
    decreases |ms|
  {
    hide DecodeMessage;
    if ms == [] {
      assert buf[0..] == buf;
      var r := DecodeMessage(fl, buf);
      if r.Ok? {
        assert Consumed(fl, buf[r.value.1..], 0, []);
        assert ([] + [r.value.0])[1..] == [];
      }
    } else {
      var o := DecodeMessage(fl, buf).value;
      DecodeEachMore(fl, buf[o.1..], n - o.1, ms[1..]);
      assert buf[o.1..][n - o.1..] == buf[n..];
      var r := DecodeMessage(fl, buf[n..]);
      if r.Ok? {
        assert (ms + [r.value.0])[1..] == ms[1..] + [r.value.0];
      }
    }
  }

  /** The first `n` bytes of `buf` are exactly the messages `ms`. */
  ghost predicate Consumed(fl: FloatOps, buf: seq<byte>, n: nat, ms: seq<ValueMessage>)
    decreases |ms|
  {
    if ms == [] then n == 0
    else
      && n <= |buf| && DecodeMessage(fl, buf).Ok?
      && var o := DecodeMessage(fl, buf).value;
         o.0 == ms[0] && o.1 <= n && Consumed(fl, buf[o.1..], n - o.1, ms[1..])
  }

  lemma {:induction false} ConsumedAll(fl: FloatOps, buf: seq<byte>, ms: seq<ValueMessage>)
    requires Consumed(fl, buf, |buf|, ms)
    ensures DecodeEach(fl, buf) == Ok(ms)
    decreases |ms|
  {
    hide DecodeMessage;
    if ms != [] {
      var o := DecodeMessage(fl, buf).value;
      ConsumedAll(fl, buf[o.1..], ms[1..]);
      assert [o.0] + ms[1..] == ms;
    }
  }

  /** Decodes a frame message by message until it is used up. */
  method DecodeFrame(fl: FloatOps, buf: seq<byte>) returns (r: Result<seq<ValueMessage>>)
    ensures r == DecodeAll(fl, buf)
  {
    hide DecodeMessage, DecodeEach, FromItems;
    var rest, out: seq<ValueMessage> := buf, [];
    assert Consumed(fl, buf, 0, []);
    while rest != []
      invariant |rest| <= |buf| && rest == buf[|buf| - |rest|..]
      invariant Consumed(fl, buf, |buf| - |rest|, out)
      invariant out == [] ==> rest == buf
      decreases |rest|
    {
      DecodeEachMore(fl, buf, |buf| - |rest|, out);
      var one := DecodeOneMessage(fl, rest);
      if one.Err? {
        return Err(one.error);
      }
      out := out + [one.value.0];
      rest := rest[one.value.1..];
    }
    if out == [] {
      return Err(UnexpectedEof);
    }
    ConsumedAll(fl, buf, out);
    assert buf != [] by { assert DecodeMessage(fl, buf).Ok?; }
    return Ok(out);
  }

  method DecodeOneMessage(fl: FloatOps, buf: seq<byte>) returns (r: Result<(ValueMessage, nat)>)
    ensures r == DecodeMessage(fl, buf)
  {
    hide DecodeArrayAt;
    var items := DecodeArray(fl, buf, 0);
    if items.Err? {
      return Err(items.error);
    }
    var message := FromItems(items.value.0);
    if message.Err? {
      return Err(message.error);
    }
    return Ok((message.value, items.value.1));
  }
}
