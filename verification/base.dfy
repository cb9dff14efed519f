/**
  Java-library behaviour the engine relies on, stated once: nullable values,
  exceptions, 32-bit `int` arithmetic, `long` truncating division and
  `Stream.limit`.
 */
module Base {

  /** A nullable Java reference or an `Optional`. */
  datatype Option<+T> = None | Some(value: T)

  /** The exceptions the modelled code can raise. */
  datatype Error = IllegalArgument(message: string)

  /** The outcome of a call that either returns or throws. */
  datatype Result<+T> = Ok(value: T) | Err(error: Error)

  const INT32_MIN: int := -0x8000_0000
  const INT32_MAX: int := 0x7fff_ffff

  /** Java's `int` (and a non-null `Integer`). */
  newtype int32 = x: int | -0x8000_0000 <= x < 0x8000_0000

  /** `x + 1` on a Java `int`: wraps from the largest value to the smallest. */
  function Inc32(x: int32): (r: int32)
    ensures x as int < INT32_MAX ==> r as int == x as int + 1
    ensures x as int == INT32_MAX ==> r as int == INT32_MIN
  {
    if x as int == INT32_MAX then INT32_MIN as int32 else x + 1
  }

  /** `x - 1` on a Java `int`: wraps from the smallest value to the largest. */
  function Dec32(x: int32): (r: int32)
    ensures x as int > INT32_MIN ==> r as int == x as int - 1
    ensures x as int == INT32_MIN ==> r as int == INT32_MAX
  {
    if x as int == INT32_MIN then INT32_MAX as int32 else x - 1
  }

  function Min(a: int, b: int): int { if a <= b then a else b }

  function MinReal(a: real, b: real): real { if a <= b then a else b }

  function MaxReal(a: real, b: real): real { if a >= b then a else b }

  /** Java's integer division, which truncates toward zero. */
  function TruncDiv(x: int, d: int): (q: int)
    requires d > 0
    ensures x >= 0 ==> 0 <= q && d * q <= x < d * (q + 1)
    ensures x < 0 ==> q <= 0 && d * (q - 1) < x <= d * q
  {
    if x >= 0 then
      FloorDivBounds(x, d);
      x / d
    else
      var q := (-x) / d;
      FloorDivBounds(-x, d);
      NegatedProduct(d, q);
      -q
  }

  lemma FloorDivBounds(x: nat, d: int)
    requires d > 0
    ensures 0 <= x / d && d * (x / d) <= x < d * (x / d) + d
  {
    assert x == d * (x / d) + x % d;
  }

  lemma NegatedProduct(d: int, q: int)
    ensures d * (-q) == -(d * q)
    ensures d * (-q - 1) == -(d * q) - d
    ensures d * (q + 1) == d * q + d
  {
  }

  /** `stream.limit(n)`: the first `n` elements; a negative `n` throws. */
  function Limit<T>(s: seq<T>, n: int): (r: Result<seq<T>>)
    ensures r.Ok? <==> n >= 0
    ensures r.Ok? ==> |r.value| == Min(n, |s|) && r.value == s[..|r.value|]
  {
    if n < 0 then Err(IllegalArgument("maxSize must not be negative"))
    else Ok(s[..Min(n, |s|)])
  }

  /** `stream().filter(keep)`: the kept elements, in their original order. */
  function Filter<T>(s: seq<T>, keep: T -> bool): (r: seq<T>)
    ensures forall x :: x in r ==> x in s && keep(x)
    ensures forall x :: x in s && keep(x) ==> x in r
    ensures |r| <= |s|
  {
    if |s| == 0 then []
    else if keep(s[0]) then [s[0]] + Filter(s[1..], keep)
    else Filter(s[1..], keep)
  }

  /** Filtering a concatenation filters each part and keeps them in order. */
  lemma {:induction false} FilterDistributes<T>(a: seq<T>, b: seq<T>, keep: T -> bool)
    ensures Filter(a + b, keep) == Filter(a, keep) + Filter(b, keep)
  {
    if |a| > 0 {
      assert (a + b)[1..] == a[1..] + b;
      FilterDistributes(a[1..], b, keep);
    } else {
      assert a + b == b;
    }
  }
}
