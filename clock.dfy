/**
 * Clock: the millisecond timestamp that prefixes every log line
 * (`current_time_milliseconds`) and the Windows replacement for
 * `gettimeofday`, which converts a FILETIME tick count (100 ns units since
 * 1601-01-01) to seconds and microseconds since 1970-01-01. The OS clock and
 * the time-zone bias are inputs.
 */
module Clock {
  import opened Events

  const TwoTo64: int := 0x1_0000_0000_0000_0000

  /** Microseconds between 1601-01-01 and 1970-01-01. */
  const EpochOffsetUs: int := 11644473600000000

  /** A `struct timeval`. */
  datatype Timeval = Timeval(sec: int, usec: int)

  /** C's integer division, which truncates toward zero (Dafny's `/` is Euclidean). */
  function TruncDiv(a: int, b: int): (q: int)
    requires b > 0
    ensures a >= 0 ==> q * b <= a < q * b + b
    ensures a < 0 ==> q * b - b < a <= q * b
  {
    if a >= 0 then a / b else -((-a) / b)
  }

  /** `current_time_milliseconds`: `tv_sec * 1000 + tv_usec / 1000` in C arithmetic. */
  function CurrentTimeMillis(tv: Timeval): (ms: int)
    ensures 0 <= tv.usec < 1000000 ==> ms / 1000 == tv.sec && ms % 1000 == tv.usec / 1000
  {
    var q := TruncDiv(tv.usec, 1000);
    if 0 <= tv.usec < 1000000 then
      DivMod1000(tv.sec * 1000 + q, tv.sec, q);
      tv.sec * 1000 + q
    else
      tv.sec * 1000 + q
  }

  lemma DivMod1000(x: int, q: int, r: int)
    requires x == q * 1000 + r && 0 <= r < 1000
    ensures x / 1000 == q && x % 1000 == r
  {
  }

  /**
   * `x.QuadPart / 10 - epoch_offset_us` on the unsigned 64-bit ULONGLONG:
   * microseconds since 1970, wrapping around 2^64 for instants before 1970.
   */
  function UnixMicros(ticks: int): (us: int)
    requires 0 <= ticks < TwoTo64
    ensures 0 <= us < TwoTo64
    ensures ticks / 10 >= EpochOffsetUs ==> us == ticks / 10 - EpochOffsetUs
    ensures ticks / 10 < EpochOffsetUs ==> us == ticks / 10 - EpochOffsetUs + TwoTo64
  {
    (ticks / 10 - EpochOffsetUs) % TwoTo64
  }

  const TwoTo31: int := 0x8000_0000
  const TwoTo32: int := 0x1_0000_0000

  /**
   * Storing a value into a 32-bit signed `long` (the type of the Windows
   * `timeval` fields): the two's-complement wrap.
   */
  function I32(x: int): (r: int)
    ensures -TwoTo31 <= r < TwoTo31
    ensures (r - x) % TwoTo32 == 0
    ensures -TwoTo31 <= x < TwoTo31 ==> r == x
  {
    (x + TwoTo31) % TwoTo32 - TwoTo31
  }

  /**
   * The `tv` half of the Windows `gettimeofday`: whole seconds and the
   * microsecond remainder. The seconds, computed as a 64-bit `time_t`, land
   * in the 32-bit `long tv_sec`, so they wrap from 2^31 seconds (January 2038)
   * on; before that the pair is exactly the microseconds since 1970.
   */
  function FileTimeToTimeval(ticks: int): (tv: Timeval)
    requires 0 <= ticks < TwoTo64
    ensures 0 <= tv.usec < 1000000 && tv.usec == UnixMicros(ticks) % 1000000
    ensures -TwoTo31 <= tv.sec < TwoTo31
    ensures (tv.sec - UnixMicros(ticks) / 1000000) % TwoTo32 == 0
    ensures UnixMicros(ticks) < TwoTo31 * 1000000 ==> tv.sec * 1000000 + tv.usec == UnixMicros(ticks)
  {
    var us := UnixMicros(ticks);
    Timeval(I32(us / 1000000), us % 1000000)
  }

  /** A `struct timezone`. */
  datatype Timezone = Timezone(minutesWest: int, dstTime: int)

  /** What the Windows `gettimeofday` fills in (None for a null pointer) and returns. */
  datatype TimeOfDay = TimeOfDay(tv: Option<Timeval>, tz: Option<Timezone>, result: int)

  /**
   * The Windows `gettimeofday(tv, tz)`: `wantTv`/`wantTz` say whether the
   * pointers are non-null; `ticks` is the system FILETIME and `bias` the
   * time-zone bias in minutes. It always returns 0 and never reports DST.
   */
  function WinGetTimeOfDay(wantTv: bool, wantTz: bool, ticks: int, bias: int): (r: TimeOfDay)
    requires 0 <= ticks < TwoTo64
    ensures r.result == 0
    ensures r.tv.Some? <==> wantTv
    ensures r.tv.Some? ==> 0 <= r.tv.value.usec < 1000000 && -TwoTo31 <= r.tv.value.sec < TwoTo31
    ensures r.tv.Some? && UnixMicros(ticks) < TwoTo31 * 1000000 ==>
      r.tv.value.sec * 1000000 + r.tv.value.usec == UnixMicros(ticks)
    ensures r.tz.Some? <==> wantTz
    ensures r.tz.Some? ==> r.tz.value.minutesWest == bias && r.tz.value.dstTime == 0
  {
    TimeOfDay(
      if wantTv then Some(FileTimeToTimeval(ticks)) else None,
      if wantTz then Some(Timezone(bias, 0)) else None,
      0)
  }

  /**
   * On Windows, until January 2038, the log timestamp is the FILETIME
   * converted to whole milliseconds since 1970.
   */
  lemma WindowsMillis(ticks: int)
    requires 0 <= ticks < TwoTo64 && UnixMicros(ticks) < TwoTo31 * 1000000
    ensures CurrentTimeMillis(WinGetTimeOfDay(true, false, ticks, 0).tv.value) == UnixMicros(ticks) / 1000
  {
  }

  /**
   * From January 2038 on (and up to 2^32 seconds after 1970) the 32-bit
   * `tv_sec` has wrapped: the Windows log timestamp is 2^32 seconds behind
   * the true one, which makes it negative.
   */
  lemma WindowsMillisAfter2038(ticks: int)
    requires 0 <= ticks < TwoTo64 && TwoTo31 * 1000000 <= UnixMicros(ticks) < TwoTo32 * 1000000
    ensures CurrentTimeMillis(WinGetTimeOfDay(true, false, ticks, 0).tv.value) == UnixMicros(ticks) / 1000 - TwoTo32 * 1000
    ensures CurrentTimeMillis(WinGetTimeOfDay(true, false, ticks, 0).tv.value) < 0
  {
  }
}
