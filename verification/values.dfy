/**
 * The values that travel inside requests and responses. Go's `any` payloads
 * become one variant type, and Go's 64-bit `int` becomes `Int64`.
 */
module Values {

  const MinInt64: int := -0x8000_0000_0000_0000
  const MaxInt64: int := 0x7FFF_FFFF_FFFF_FFFF
  const TwoTo64: int := 0x1_0000_0000_0000_0000

  newtype Int64 = x: int | -0x8000_0000_0000_0000 <= x < 0x8000_0000_0000_0000

  /** Two's-complement truncation of an exact result, as Go's `int` arithmetic does on overflow. */
  function Wrap64(x: int): (r: Int64)
    ensures MinInt64 <= x <= MaxInt64 ==> r as int == x
    ensures (x - r as int) % TwoTo64 == 0
  {
    var m := (x - MinInt64) % TwoTo64;
    (m + MinInt64) as Int64
  }

  /**
   * A transportable value. `Float64Quotient(a, b)` stands for the float64
   * value `float64(a) / float64(b)`, which the model never computes. It is
   * compared by its numerator and denominator, not as a float: `(0, 1)` and
   * `(0, 5)` are both Go's 0.0 but differ here.
   * `ErrorStruct(text)` is the anonymous `struct{ Error string }` the server
   * uses to carry an error message; `GoError(message)` is an `error` value
   * handed back as an ordinary result.
   */
  datatype Value =
    | Nil
    | Int(i: Int64)
    | Float64Quotient(num: Int64, den: Int64)
    | Str(s: string)
    | Slice(items: seq<Value>)
    | ErrorStruct(text: string)
    | GoError(message: string)

  /** The request frame: `struct{ ServiceMethod string; Args []any }`. */
  datatype Request = Request(serviceMethod: string, args: seq<Value>)

  /** The response frame `ZapResponse{Value}`. */
  datatype Response = Response(value: Value)
}
