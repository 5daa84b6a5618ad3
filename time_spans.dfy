/**
 * .NET `TimeSpan` values as signed 64-bit tick counts (one tick is 100 ns),
 * with the checked subtraction `TimeSpan` performs and the constants the
 * actor runtime uses.
 */
module TimeSpans {
  import opened Wrappers

  const MinTicks: int := -0x8000_0000_0000_0000
  const MaxTicks: int := 0x7FFF_FFFF_FFFF_FFFF

  newtype TimeSpan = t: int | -0x8000_0000_0000_0000 <= t <= 0x7FFF_FFFF_FFFF_FFFF

  const TicksPerMillisecond: int := 10000
  const Zero: TimeSpan := 0
  const MaxValue: TimeSpan := 0x7FFF_FFFF_FFFF_FFFF
  /** `Timeout.InfiniteTimeSpan`: minus one millisecond. */
  const InfiniteTimeSpan: TimeSpan := -10000

  /** The overflow a `TimeSpan` subtraction throws when the difference leaves the 64-bit range. */
  datatype Overflow = Overflow

  /** `a - b`, or the overflow `TimeSpan`'s operator throws. */
  function Subtract(a: TimeSpan, b: TimeSpan): (r: Result<TimeSpan, Overflow>)
    ensures r.Success? <==> MinTicks <= a as int - b as int <= MaxTicks
    ensures r.Success? ==> r.value as int + b as int == a as int
  {
    var d := a as int - b as int;
    if MinTicks <= d <= MaxTicks then Success(d as TimeSpan) else Failure(Overflow)
  }

  /** `TotalMilliseconds` cast to `long`: the tick count divided by 10000, truncated toward zero. */
  function WholeMilliseconds(t: TimeSpan): (ms: int)
    ensures t >= 0 ==> 0 <= ms * TicksPerMillisecond <= t as int < (ms + 1) * TicksPerMillisecond
    ensures t < 0 ==> (ms - 1) * TicksPerMillisecond < t as int <= ms * TicksPerMillisecond <= 0
  {
    if t >= 0 then t as int / TicksPerMillisecond else -((-(t as int)) / TicksPerMillisecond)
  }
}
