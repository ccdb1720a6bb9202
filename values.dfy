/**
 * Value helpers shared by the model: the optional result, the integer
 * clamp, and the fixed-width integer storage of the model's fields.
 */
module Values {
  /** A value that may be absent (a null name, a truncated stream). */
  datatype Option<T> = None | Some(value: T) {
    predicate IsFailure() { None? }
    function PropagateFailure<U>(): Option<U>
      requires None?
    {
      None
    }
    function Extract(): T
      requires Some?
    {
      value
    }
  }

  function Min(a: int, b: int): int { if a <= b then a else b }
  function Max(a: int, b: int): int { if a >= b then a else b }

  /**
   * The firmware's `clamp(value, min, max)`, taken to be
   * `max(min, min(max, value))`: when the bounds are crossed the lower
   * bound wins.
   */
  function Clamp(x: int, lo: int, hi: int): (r: int)
    ensures lo <= hi ==> lo <= r <= hi
    ensures lo <= x <= hi ==> r == x
    ensures x < lo ==> r == lo
    ensures lo <= hi && hi < x ==> r == hi
  {
    Max(lo, Min(hi, x))
  }

  /** Clamping twice to the same bounds is clamping once. */
  lemma ClampIdempotent(x: int, lo: int, hi: int)
    ensures Clamp(Clamp(x, lo, hi), lo, hi) == Clamp(x, lo, hi)
  {
  }

  /** `ModelUtils::clampedEnum`: an enumerator ordinal clamped to `[0, count - 1]`. */
  function ClampedEnum(x: int, count: int): (r: int)
    requires count >= 1
    ensures 0 <= r < count
    ensures 0 <= x < count ==> r == x
  {
    Clamp(x, 0, count - 1)
  }

  /** Concatenation is associative; stated once so that proofs about long encodings need not rediscover it. */
  lemma ConcatAssoc<T>(a: seq<T>, b: seq<T>, c: seq<T>)
    ensures (a + b) + c == a + (b + c)
  {
  }

  type Int8 = x: int | -128 <= x < 128
  type Uint8 = x: int | 0 <= x < 256
  type Uint16 = x: int | 0 <= x < 0x1_0000

  /** Conversion to `uint8_t`: the value modulo 256. */
  function ToUint8(x: int): (r: int)
    ensures 0 <= r < 256
    ensures 0 <= x < 256 ==> r == x
  {
    x % 256
  }

  /** Conversion to `int8_t`: the value wrapped into [-128, 127] (two's complement). */
  function ToInt8(x: int): (r: int)
    ensures -128 <= r < 128
    ensures -128 <= x < 128 ==> r == x
    ensures (r - x) % 256 == 0
  {
    (x + 128) % 256 - 128
  }

  /** Conversion to `uint16_t`: the value modulo 65536. */
  function ToUint16(x: int): (r: int)
    ensures 0 <= r < 0x1_0000
    ensures 0 <= x < 0x1_0000 ==> r == x
  {
    x % 0x1_0000
  }
}
