/**
 * Arithmetic shared by every circular delay line of the reverb: the C++
 * conversions the filters rely on, `std::clamp`, the read and write cursor
 * arithmetic and `std::vector::resize`.
 */
module DelayLine {

  /** 2^64: `size_t` arithmetic is modulo this number. */
  const SizeModulus: int := 0x1_0000_0000_0000_0000

  /** A value of the source's 32-bit `int`. */
  predicate IsInt(n: int)
  {
    -0x8000_0000 <= n < 0x8000_0000
  }

  /** A count of vector cells: `std::vector::max_size()` is below 2^63. */
  predicate IsSize(n: int)
  {
    0 <= n < 0x8000_0000_0000_0000
  }

  /** Products of non-negative reals grow with both factors. */
  lemma ProductBound(a: real, b: real, aMax: real, bMax: real)
    requires 0.0 <= a <= aMax && 0.0 <= b <= bMax
    ensures 0.0 <= a * b <= aMax * bMax
  {
    assert a * b <= aMax * b;
    assert aMax * b <= aMax * bMax;
  }

  /** `static_cast<int>` of a floating-point value: truncation toward zero. */
  function Trunc(x: real): (n: int)
    ensures 0.0 <= x ==> 0 <= n && n as real <= x < n as real + 1.0
    ensures x < 0.0 ==> n <= 0 && x <= n as real < x + 1.0
  {
    if x >= 0.0 then x.Floor else -((-x).Floor)
  }

  /** A duration in milliseconds converted to a whole number of samples. */
  function MsToSamples(ms: real, sampleRate: real): int
  {
    Trunc(ms * sampleRate / 1000.0)
  }

  /** Truncation is monotone on non-negative values. */
  lemma TruncMonotone(x: real, y: real)
    requires 0.0 <= x <= y
    ensures Trunc(x) <= Trunc(y)
  {
  }

  /** `std::clamp(v, lo, hi)`. */
  function Clamp(v: real, lo: real, hi: real): (r: real)
    requires lo <= hi
    ensures lo <= r <= hi
    ensures lo <= v <= hi ==> r == v
    ensures v < lo ==> r == lo
    ensures hi < v ==> r == hi
  {
    if v < lo then lo else if hi < v then hi else v
  }

  /** The conversion of an `int` to `size_t` that a mixed comparison performs. */
  function AsSize(n: int): (m: int)
    ensures 0 <= m < SizeModulus
    ensures 0 <= n < SizeModulus ==> m == n
    ensures -SizeModulus <= n < 0 ==> m == n + SizeModulus
  {
    if -SizeModulus <= n < SizeModulus then
      WrapOnce(n, SizeModulus);
      n % SizeModulus
    else
      n % SizeModulus
  }

  /**
   * The clamping of a delay length in `setDelayTime`: first against the
   * buffer size (comparing as `size_t`), then against 1.
   */
  function ClampDelay(n: int, size: nat): (d: int)
    requires IsInt(n) && IsSize(size)
    ensures 1 <= d
    ensures 2 <= size ==> d <= size - 1
    ensures size <= 1 ==> d == 1
    ensures 1 <= n < size ==> d == n
    ensures size <= n ==> d == if size <= 1 then 1 else size - 1
    ensures n < 0 ==> d == if size <= 1 then 1 else size - 1
    ensures n == 0 && 1 <= size ==> d == 1
  {
    var d := if AsSize(n) >= size then size - 1 else n;
    if d < 1 then 1 else d
  }

  /** The cell `delay` samples behind the write cursor. */
  function ReadIndex(writeIndex: int, delay: int, size: nat): (r: int)
    requires 0 <= writeIndex < size
    requires 1 <= delay <= size
    ensures 0 <= r < size
    ensures r == (writeIndex - delay) % size
    ensures delay < size ==> r != writeIndex
  {
    var r := writeIndex - delay;
    WrapOnce(r, size);
    if r < 0 then r + size else r
  }

  /** A value less than one period away from [0, m) lands in it after a single wrap. */
  lemma WrapOnce(x: int, m: int)
    requires 0 < m && -m <= x < m
    ensures x % m == if x < 0 then x + m else x
  {
    var q, rem := x / m, x % m;
    assert x == m * q + rem && 0 <= rem < m;
    if q >= 0 {
      assert m * q >= 0;
    }
    assert x < 0 ==> q == -1;
    assert 0 <= x ==> q == 0;
  }

  /** The write cursor moved one cell on, wrapping at the buffer end. */
  function Advance(writeIndex: int, size: nat): (r: int)
    requires 0 <= writeIndex < size
    ensures 0 <= r < size
    ensures r == (writeIndex + 1) % size
  {
    if writeIndex + 1 >= size then 0 else writeIndex + 1
  }

  /** A buffer of `n` silent samples. */
  function Zeros(n: nat): (z: seq<real>)
    ensures |z| == n
    ensures forall i :: 0 <= i < n ==> z[i] == 0.0
  {
    seq(n, _ => 0.0)
  }

  /** Every cell of the buffer is silent. */
  predicate Silent(cells: seq<real>)
  {
    forall i :: 0 <= i < |cells| ==> cells[i] == 0.0
  }

  /**
   * `std::vector::resize(n, 0.0f)`: the first cells are kept, the cells added
   * are silent.
   */
  function Resized(cells: seq<real>, n: nat): (r: seq<real>)
    ensures |r| == n
    ensures forall i :: 0 <= i < n && i < |cells| ==> r[i] == cells[i]
    ensures forall i :: |cells| <= i < n ==> r[i] == 0.0
  {
    if n <= |cells| then cells[..n] else cells + Zeros(n - |cells|)
  }
}
