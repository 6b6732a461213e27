/** Values that cross the platform channel, and the Kotlin conversions applied to them.

    The embedding application sends loosely typed argument maps. Where the plugin tests the
    run-time type of a value (`as? Number`, `as? String`, `as? Long`, `as? ByteArray`), the
    model keeps the value dynamic, as a `Value`. Kotlin's fixed-width integers are written out
    as subset types, and its narrowing conversions as explicit functions. */
module Values {

  datatype Option<+T> = None | Some(value: T) {
    /** Kotlin's elvis operator `x ?: default`. */
    function GetOr(default: T): T {
      if Some? then value else default
    }
  }

  datatype Result<+R, +E> = Success(value: R) | Failure(error: E)

  const INT32_MIN: int := -0x8000_0000
  const INT32_MAX: int := 0x7fff_ffff

  /** Kotlin `Int`. */
  type int32 = x: int | -0x8000_0000 <= x < 0x8000_0000
  /** Kotlin `Long`. */
  type int64 = x: int | -0x8000_0000_0000_0000 <= x < 0x8000_0000_0000_0000

  /** A value as the channel codec hands it to Kotlin: `null`, a boxed `Int`, `Long` or
      `Double`, a `Boolean`, a `String`, a `ByteArray`, or anything else (lists, maps,
      typed arrays) that the plugin never inspects. Floating point is modelled by `real`. */
  datatype Value =
    | NullV
    | BoolV(b: bool)
    | IntV(i: int32)
    | LongV(l: int64)
    | DoubleV(d: real)
    | StringV(s: string)
    | BytesV(bytes: seq<bv8>)
    | OtherV

  /** `data[key]` on a Kotlin `Map<String, Any>`: a missing key reads as `null`. */
  function Get(m: map<string, Value>, key: string): (v: Value)
    ensures key !in m ==> v == NullV
    ensures key in m ==> v == m[key]
  {
    if key in m then m[key] else NullV
  }

  /** The test `v is Number`. */
  predicate IsNumber(v: Value) {
    v.IntV? || v.LongV? || v.DoubleV?
  }

  /** Kotlin `Long.toInt()` (and `Int + Int`): keep the low 32 bits as two's complement. */
  function Wrap32(x: int): (r: int32)
    ensures INT32_MIN <= x <= INT32_MAX ==> r == x
    ensures exists k: int :: x == r + k * 0x1_0000_0000
  {
    var r := (x + 0x8000_0000) % 0x1_0000_0000 - 0x8000_0000;
    assert x == r + ((x + 0x8000_0000) / 0x1_0000_0000) * 0x1_0000_0000;
    r
  }

  /** Kotlin `Float.toInt()` / `Double.toInt()`: truncate toward zero, saturating at the
      bounds of `Int`. */
  function TruncToInt32(f: real): (r: int32)
    ensures 0.0 <= f <= INT32_MAX as real ==> r as real <= f < r as real + 1.0
    ensures INT32_MIN as real <= f <= 0.0 ==> r as real - 1.0 < f <= r as real
    ensures f > INT32_MAX as real ==> r == INT32_MAX
    ensures f < INT32_MIN as real ==> r == INT32_MIN
  {
    var t := if f >= 0.0 then f.Floor else -((-f).Floor);
    if t < INT32_MIN then INT32_MIN else if t > INT32_MAX then INT32_MAX else t
  }

  /** `Number.toInt()`: identity on `Int`, low 32 bits of a `Long`, truncation of a `Double`. */
  function NumberToInt(v: Value): (r: int32)
    requires IsNumber(v)
    ensures v.IntV? ==> r == v.i
    ensures v.LongV? && INT32_MIN <= v.l <= INT32_MAX ==> r == v.l
    ensures v.LongV? ==> r == Wrap32(v.l)
    ensures v.DoubleV? ==> r == TruncToInt32(v.d)
  {
    match v
    case IntV(i) => i
    case LongV(l) => Wrap32(l)
    case DoubleV(d) => TruncToInt32(d)
  }

  /** `Number.toFloat()`; the rounding to single precision is not modelled. */
  function NumberToFloat(v: Value): (r: real)
    requires IsNumber(v)
    ensures v.IntV? ==> r == v.i as real
    ensures v.LongV? ==> r == v.l as real
    ensures v.DoubleV? ==> r == v.d
  {
    match v
    case IntV(i) => i as real
    case LongV(l) => l as real
    case DoubleV(d) => d
  }
}
