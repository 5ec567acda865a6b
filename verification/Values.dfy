/** The value type every transport carries, and the NT4 data-type table.
    Models core/src/value.rs and core/src/websocket/protocol/datatype.rs. */
module Values {

  datatype Option<+T> = None | Some(value: T)

  type byte = b: int | 0 <= b < 0x100

  const I64_MAX: int := 0x7fff_ffff_ffff_ffff
  const TWO_64: int := 0x1_0000_0000_0000_0000

  /** One typed value.  Integers keep the width they were built with, floats are
      kept as their IEEE bit patterns and strings as their UTF-8 bytes. */
  datatype Value =
    | Int8(i: int) | Int16(i: int) | Int32(i: int) | Int64(i: int)
    | Uint8(u: int) | Uint16(u: int) | Uint32(u: int) | Uint64(u: int)
    | Float(bits: int)
    | Double(bits: int)
    | String(text: seq<byte>)
    | Bool(flag: bool)
    | Bytes(data: seq<byte>)
    | Int8Array(ints: seq<int>) | Int16Array(ints: seq<int>) | Int32Array(ints: seq<int>) | Int64Array(ints: seq<int>)
    | Uint8Array(uints: seq<int>) | Uint16Array(uints: seq<int>) | Uint32Array(uints: seq<int>)
    | Uint64Array(uints: seq<int>)
    | FloatArray(fs: seq<int>)
    | DoubleArray(ds: seq<int>)
    | StringArray(texts: seq<seq<byte>>)
    | BoolArray(flags: seq<bool>)
    | BytesList(data: seq<byte>)
    | Coordinate(data: seq<byte>)
    | Bezier(data: seq<byte>)

  /** Conversions between float widths and from integers, which the model leaves
      to the hardware: each maps bit patterns (or an integer) to a bit pattern. */
  datatype FloatOps = FloatOps(widen: int -> int, narrow: int -> int, fromInt: int -> int)

  function AsI64(v: Value): Option<int> {
    match v
    case Int8(x) => Some(x)
    case Int16(x) => Some(x)
    case Int32(x) => Some(x)
    case Int64(x) => Some(x)
    case _ => None
  }

  function AsU64(v: Value): Option<int> {
    match v
    case Uint8(x) => Some(x)
    case Uint16(x) => Some(x)
    case Uint32(x) => Some(x)
    case Uint64(x) => Some(x)
    case _ => None
  }

  /** The value as an unsigned integer, if it is any integer that is not negative. */
  function AsU64Any(v: Value): Option<int> {
    if AsU64(v).Some? then AsU64(v)
    else if AsI64(v).Some? && AsI64(v).value >= 0 then AsI64(v)
    else None
  }

  /** The NT4 4.1 numeric type of a value: 0 boolean, 1 double, 2 int, 3 float,
      4 string, 5 raw, and 16 more for an array. */
  function XtDataType(v: Value): nat {
    match v
    case Bool(_) => 0
    case Double(_) => 1
    case Int8(_) | Int16(_) | Int32(_) | Int64(_) => 2
    case Uint8(_) | Uint16(_) | Uint32(_) | Uint64(_) => 2
    case Float(_) => 3
    case String(_) => 4
    case Bytes(_) | BytesList(_) | Coordinate(_) | Bezier(_) => 5
    case BoolArray(_) => 16
    case DoubleArray(_) => 17
    case Int8Array(_) | Int16Array(_) | Int32Array(_) | Int64Array(_) => 18
    case Uint8Array(_) | Uint16Array(_) | Uint32Array(_) | Uint64Array(_) => 18
    case FloatArray(_) => 19
    case StringArray(_) => 20
  }

  function TypeString(dataType: nat): Option<string> {
    match dataType
    case 0 => Some("boolean")
    case 1 => Some("double")
    case 2 => Some("int")
    case 3 => Some("float")
    case 4 => Some("string")
    case 5 => Some("raw")
    case 16 => Some("boolean[]")
    case 17 => Some("double[]")
    case 18 => Some("int[]")
    case 19 => Some("float[]")
    case 20 => Some("string[]")
    case _ => None
  }

  /** The numeric type of a type string.  A string the table does not know is raw. */
  function DataTypeFromString(s: string): nat {
    if s == "boolean" then 0
    else if s == "double" then 1
    else if s == "int" then 2
    else if s == "float" then 3
    else if s == "string" || s == "json" then 4
    else if s == "boolean[]" then 16
    else if s == "double[]" then 17
    else if s == "int[]" then 18
    else if s == "float[]" then 19
    else if s == "string[]" then 20
    else 5
  }

  /** Every value's own type has a type string, and the string leads back to it. */
  lemma {:induction false} TypeStringRoundTrip(v: Value)
    ensures TypeString(XtDataType(v)).Some?
    ensures DataTypeFromString(TypeString(XtDataType(v)).value) == XtDataType(v)
  {
    var d := XtDataType(v);
    assert d in {0, 1, 2, 3, 4, 5, 16, 17, 18, 19, 20};
    var s := TypeString(d).value;
    assert |s| == match d
                  case 0 => 7 case 1 => 6 case 2 => 3 case 3 => 5 case 4 => 6 case 5 => 3
                  case 16 => 9 case 17 => 8 case 18 => 5 case 19 => 7 case _ => 8;
    assert s[0] == match d
                   case 0 => 'b' case 1 => 'd' case 2 => 'i' case 3 => 'f' case 4 => 's' case 5 => 'r'
                   case 16 => 'b' case 17 => 'd' case 18 => 'i' case 19 => 'f' case _ => 's';
  }

  /** The value as a bit pattern of a 64-bit float, if it is a number. */
  function AsNumber(fl: FloatOps, v: Value): Option<int> {
    match v
    case Float(b) => Some(fl.widen(b))
    case Double(b) => Some(b)
    case Int8(x) => Some(fl.fromInt(x))
    case Int16(x) => Some(fl.fromInt(x))
    case Int32(x) => Some(fl.fromInt(x))
    case Int64(x) => Some(fl.fromInt(x))
    case Uint8(x) => Some(fl.fromInt(x))
    case Uint16(x) => Some(fl.fromInt(x))
    case Uint32(x) => Some(fl.fromInt(x))
    case Uint64(x) => Some(fl.fromInt(x))
    case _ => None
  }

  function Map(f: int -> int, xs: seq<int>): seq<int> {
    seq(|xs|, k requires 0 <= k < |xs| => f(xs[k]))
  }

  function AsNumbers(fl: FloatOps, v: Value): Option<seq<int>> {
    match v
    case Int8Array(xs) => Some(Map(fl.fromInt, xs))
    case Int16Array(xs) => Some(Map(fl.fromInt, xs))
    case Int32Array(xs) => Some(Map(fl.fromInt, xs))
    case Int64Array(xs) => Some(Map(fl.fromInt, xs))
    case Uint8Array(xs) => Some(Map(fl.fromInt, xs))
    case Uint16Array(xs) => Some(Map(fl.fromInt, xs))
    case Uint32Array(xs) => Some(Map(fl.fromInt, xs))
    case Uint64Array(xs) => Some(Map(fl.fromInt, xs))
    case FloatArray(xs) => Some(Map(fl.widen, xs))
    case DoubleArray(xs) => Some(xs)
    case _ => None
  }

  /** The value reshaped to NT4 type `dataType`: an empty array takes the declared
      element type, integers widen to a declared float type, anything else is kept. */
  function Conformed(fl: FloatOps, v: Value, dataType: nat): Value {
    if XtDataType(v) == dataType then v
    else
      var empty := v.DoubleArray? && v.ds == [];
      var number := AsNumber(fl, v);
      var numbers := AsNumbers(fl, v);
      if dataType == 1 && number.Some? then Double(number.value)
      else if dataType == 3 && number.Some? then Float(fl.narrow(number.value))
      else if dataType == 16 && empty then BoolArray([])
      else if dataType == 18 && empty then Int64Array([])
      else if dataType == 20 && empty then StringArray([])
      else if dataType == 17 && numbers.Some? then DoubleArray(numbers.value)
      else if dataType == 19 && numbers.Some? then
        FloatArray(Map(fl.narrow, numbers.value))
      else v
  }

  /** Conforming either reaches the declared type or leaves the value as it was,
      and conforming again changes nothing. */
  lemma {:induction false} ConformedStable(fl: FloatOps, v: Value, dataType: nat)
    ensures var w := Conformed(fl, v, dataType);
            && (XtDataType(w) == dataType || w == v)
            && Conformed(fl, w, dataType) == w
  {
  }
}
