/** The fixed-width Java integers and the part of java.time.Duration the DAO relies on. */
module JavaTypes {

  const MinInt: int := -0x8000_0000
  const MaxInt: int := 0x7fff_ffff
  const MinLong: int := -0x8000_0000_0000_0000
  const MaxLong: int := 0x7fff_ffff_ffff_ffff

  /** Java `int`. */
  type Int = x: int | MinInt <= x <= MaxInt
  /** Java `long`. */
  type Long = x: int | MinLong <= x <= MaxLong

  predicate InInt(x: int) { MinInt <= x <= MaxInt }
  predicate InLong(x: int) { MinLong <= x <= MaxLong }

  /** Two's-complement narrowing to 32 bits, as `Number.intValue()` does on a wider integer. */
  function WrapInt(x: int): (r: Int)
    ensures (r - x) % 0x1_0000_0000 == 0
    ensures InInt(x) ==> r == x
  {
    (x - MinInt) % 0x1_0000_0000 + MinInt
  }

  /** Two's-complement wrap-around to 64 bits, as `long` addition and `Number.longValue()` do. */
  function WrapLong(x: int): (r: Long)
    ensures (r - x) % 0x1_0000_0000_0000_0000 == 0
    ensures InLong(x) ==> r == x
  {
    (x - MinLong) % 0x1_0000_0000_0000_0000 + MinLong
  }

  const NanosPerSecond: int := 1_000_000_000
  const NanosPerMilli: int := 1_000_000
  const SecondsPerDay: int := 86_400

  type Nanos = n: int | 0 <= n < 1_000_000_000

  /** java.time.Duration: whole seconds (rounded towards negative infinity) plus a non-negative nano part. */
  datatype Duration = Duration(seconds: Long, nanos: Nanos)

  /** Duration.ofSeconds(s). */
  function OfSeconds(s: Long): (d: Duration)
    ensures d.seconds * NanosPerSecond + d.nanos == s * NanosPerSecond
    ensures ToMillis(d) == s * 1000
  {
    Duration(s, 0)
  }

  /** Duration.toMillis(), before the overflow check that makes the Java method throw: the duration's
      length in whole milliseconds, rounded down. */
  function ToMillis(d: Duration): (ms: int)
    ensures ms * NanosPerMilli <= d.seconds * NanosPerSecond + d.nanos < (ms + 1) * NanosPerMilli
  {
    d.seconds * 1000 + d.nanos / NanosPerMilli
  }
}
