/** Session variables: the dynamically typed values the engine stores under
    string names, and the numeric coercions applied to them. */
module Values {
  import opened Text

  /** A Go float. `r` is its value; the other fields are what the platform
      returns when a conversion's target cannot hold `r` (huge values,
      infinities, NaN), which the language leaves open. */
  datatype Float = Float(r: real, wide: Wide, narrow: uint32, signed: int64)

  type Wide = n: int | 0x8000_0000_0000_0000 <= n < 0x1_0000_0000_0000_0000
    witness 0x8000_0000_0000_0000

  datatype Value =
    | Nil
    | Bool(b: bool)
    | Int(i: int64)
    | Int32(i32: int32)
    | Int64(i64: int64)
    | Uint(u: uint64)
    | Uint32(u32: uint32)
    | Uint64(u64: uint64)
    | Float32(f32: Float)
    | Float64(f64: Float)
    | Str(s: string)
    | Other(tag: int)

  type Vars = map<string, Value>

  function FloatToUint64(f: Float): uint64
    requires f.r >= 0.0
  {
    if f.r.Floor < TWO_64 then f.r.Floor else f.wide
  }

  function FloatToUint32(f: Float): uint32
    requires f.r >= 0.0
  {
    if f.r.Floor < TWO_32 then f.r.Floor else f.narrow
  }

  // Conversion truncates towards zero.
  function FloatToInt64(f: Float): int64 {
    var t := if f.r >= 0.0 then f.r.Floor else -((-f.r).Floor);
    if -TWO_63 <= t < TWO_63 then t else f.signed
  }

  /** template.toUint64. A float32 has no case there and is refused. */
  function ToUint64(v: Value): (n: Option<uint64>) {
    match v
    case Uint64(n) => Some(n)
    case Uint32(n) => Some(n)
    case Uint(n) => Some(n)
    case Int64(n) => if n < 0 then None else Some(n)
    case Int32(n) => if n < 0 then None else Some(n)
    case Int(n) => if n < 0 then None else Some(n)
    case Float64(f) => if f.r < 0.0 then None else Some(FloatToUint64(f))
    case Str(s) =>
      (match ParseUint(s, TWO_64)
       case Some(n) => if n < TWO_64 then Some(n) else None
       case None => None)
    case _ => None
  }

  /** template.toUint32. Wider unsigned and signed values are narrowed by
      dropping their high bits. */
  function ToUint32(v: Value): (n: Option<uint32>) {
    match v
    case Uint32(n) => Some(n)
    case Uint64(n) => Some(Wrap32(n))
    case Uint(n) => Some(Wrap32(n))
    case Int32(n) => if n < 0 then None else Some(Wrap32(n))
    case Int(n) => if n < 0 then None else Some(Wrap32(n))
    case Int64(n) => if n < 0 then None else Some(Wrap32(n))
    case Float32(f) => if f.r < 0.0 then None else Some(FloatToUint32(f))
    case Float64(f) => if f.r < 0.0 then None else Some(FloatToUint32(f))
    case Str(s) =>
      (match ParseUint(s, TWO_32)
       case Some(n) => if n < TWO_32 then Some(n) else None
       case None => None)
    case _ => None
  }

  /** engine.toInt64: signed numbers and floats only, anything else is 0. */
  function SignedOrZero(v: Value): int64 {
    match v
    case Int64(n) => n
    case Int32(n) => n
    case Int(n) => n
    case Float64(f) => FloatToInt64(f)
    case Float32(f) => FloatToInt64(f)
    case _ => 0
  }

  /** engine.isTruthy: only bool, int, int64, float64 and string have falsy
      non-nil values. */
  predicate IsTruthy(v: Value) {
    match v
    case Nil => false
    case Bool(b) => b
    case Int(n) => n != 0
    case Int64(n) => n != 0
    case Float64(f) => f.r != 0.0
    case Str(s) => s != ""
    case _ => true
  }

  /** Narrowing a quantity to 32 bits loses nothing when its 64-bit reading
      is below 2^32, whatever type carries it. */
  lemma NarrowingKeeps(v: Value, n: uint64)
    requires ToUint64(v) == Some(n) && n < TWO_32
    ensures ToUint32(v) == Some(n)
  {
  }
}
