/** Cycle and period arithmetic of a group (`state/group_config.rs`, and the checks of `deposit`). */
module GroupTime {
  import opened Machine
  import opened Ledger

  const DAY: int := 86_400

  function MaxFrequency(build: Build): u8 {
    if build.Devnet? then 3 else 2
  }

  function PeriodSecs(build: Build, frequency: u8): Result<i64> {
    match frequency
    case 0 => Ok(7 * DAY)
    case 1 => Ok(14 * DAY)
    case 2 => Ok(30 * DAY)
    case 3 => if build.Devnet? then Ok(300) else Err(InvalidFrequency)
    case _ => Err(InvalidFrequency)
  }

  function CycleEnd(build: Build, c: GroupConfig): Result<i64> {
    match PeriodSecs(build, c.frequency)
    case Err(e) => Err(e)
    case Ok(period) =>
      if !InI64(c.totalPeriods * period) then Err(ArithmeticOverflow)
      else if !InI64(c.cycleStart + c.totalPeriods * period) then Err(ArithmeticOverflow)
      else Ok(c.cycleStart + c.totalPeriods * period)
  }

  function RetentionSecs(build: Build): i64 {
    if build.Devnet? then 300 else 2_592_000
  }

  function RetentionEnd(build: Build, settledAt: i64): Result<i64> {
    if InI64(settledAt + RetentionSecs(build)) then Ok(settledAt + RetentionSecs(build))
    else Err(ArithmeticOverflow)
  }

  /** The period a deposit at `now` counts for. */
  function PeriodIndex(build: Build, c: GroupConfig, now: i64): Result<u8> {
    match PeriodSecs(build, c.frequency)
    case Err(e) => Err(e)
    case Ok(period) =>
      match CycleEnd(build, c)
      case Err(e) => Err(e)
      case Ok(end) =>
        if now >= end then Err(CycleEnded)
        else if !InI64(now - c.cycleStart) then Err(ArithmeticOverflow)
        else if c.totalPeriods == 0 || period <= 0 then Err(ArithmeticOverflow)
        else
          var elapsed := TruncDiv(now - c.cycleStart, period);
          if !(0 <= elapsed <= U8_MAX) then Err(ArithmeticOverflow)
          else if elapsed < c.totalPeriods - 1 then Ok(elapsed) else Ok(c.totalPeriods - 1)
  }

  /** The parameter ranges `create_group` lets through. */
  predicate InRange(build: Build, c: GroupConfig) {
    && c.depositAmount > 0
    && c.frequency <= MaxFrequency(build)
    && 1 <= c.totalPeriods <= MAX_PERIODS
    && 2 <= c.maxMembers <= 10
  }

  /** The seconds in one period: one week, two weeks, thirty days, and five minutes on devnet. */
  ghost function Period(build: Build, frequency: u8): (d: int)
    requires frequency <= MaxFrequency(build)
    ensures PeriodSecs(build, frequency) == Ok(d) && 300 <= d <= 2_592_000
  {
    match frequency
    case 0 => 604_800
    case 1 => 1_209_600
    case 2 => 2_592_000
    case _ => 300
  }

  /** The window of length `d` a time falls into, counted from `start`; negative before it. */
  ghost function Window(start: int, d: int, now: int): int
    requires d > 0
  {
    (now - start) / d
  }

  /** A window is the half-open stretch of one period. */
  lemma WindowBounds(start: int, d: int, now: int)
    requires d > 0
    ensures var p := Window(start, d, now);
            start + p * d <= now < start + (p + 1) * d
  {
    DivBounds(now - start, d);
  }

  lemma DivBounds(a: int, d: int)
    requires d > 0
    ensures (a / d) * d <= a < (a / d + 1) * d
  {
    var q := a / d;
    assert a == q * d + a % d;
    assert (q + 1) * d == q * d + d;
  }

  lemma MulOrder(a: int, b: int, d: int)
    requires d > 0
    ensures a <= b <==> a * d <= b * d
  {
    assert b * d - a * d == (b - a) * d;
  }

  lemma DivUnique(a: int, d: int, q: int)
    requires d > 0 && q * d <= a < (q + 1) * d
    ensures a / d == q
  {
    DivBounds(a, d);
    var p := a / d;
    MulOrder(p + 1, q, d);
    MulOrder(q + 1, p, d);
  }

  /** A cycle of an accepted group ends `totalPeriods` whole periods after it starts, and only a
      start in the last years of the i64 range makes that overflow. */
  lemma CycleEndExact(build: Build, c: GroupConfig)
    requires InRange(build, c)
    ensures CycleEnd(build, c).Ok? <==> c.cycleStart + c.totalPeriods * Period(build, c.frequency) <= I64_MAX
    ensures CycleEnd(build, c).Ok? ==>
              CycleEnd(build, c).value == c.cycleStart + c.totalPeriods * Period(build, c.frequency)
  {
    var d := Period(build, c.frequency);
    MulBound(c.totalPeriods, d);
  }

  lemma MulBound(n: int, d: int)
    requires 0 <= n <= 52 && 0 <= d <= 2_592_000
    ensures 0 <= n * d <= 52 * 2_592_000
  {
    assert n * d <= 52 * d;
  }

  /** Inside a cycle the index is exactly the window: the u8 conversion cannot fail, the clamp to
      the last period changes nothing, and the index fits the 52 flags. */
  lemma PeriodExact(build: Build, c: GroupConfig, now: i64)
    requires InRange(build, c) && CycleEnd(build, c).Ok?
    requires c.cycleStart <= now < CycleEnd(build, c).value
    ensures PeriodIndex(build, c, now) == Ok(Window(c.cycleStart, Period(build, c.frequency), now))
    ensures 0 <= Window(c.cycleStart, Period(build, c.frequency), now) < c.totalPeriods <= MAX_PERIODS
    ensures TruncDiv(now - c.cycleStart, Period(build, c.frequency))
        == Window(c.cycleStart, Period(build, c.frequency), now)
  {
    var d := Period(build, c.frequency);
    var p := Window(c.cycleStart, Period(build, c.frequency), now);
    CycleEndExact(build, c);
    MulBound(c.totalPeriods, d);
    WindowBounds(c.cycleStart, d, now);
    MulOrder(c.totalPeriods, p, d);
    MulOrder(p + 1, 0, d);
  }

  /** For every clock value: an index comes back only before the end and less than one period
      before the start, and a clock before the start can only give period 0. */
  lemma PeriodDefined(build: Build, c: GroupConfig, now: i64)
    requires InRange(build, c) && CycleEnd(build, c).Ok?
    ensures PeriodIndex(build, c, now).Ok?
       <==> c.cycleStart - Period(build, c.frequency) < now < CycleEnd(build, c).value
    ensures now < c.cycleStart && PeriodIndex(build, c, now).Ok? ==> PeriodIndex(build, c, now) == Ok(0)
  {
    var d := Period(build, c.frequency);
    if c.cycleStart <= now < CycleEnd(build, c).value {
      PeriodExact(build, c, now);
    } else if now < c.cycleStart {
      var back := c.cycleStart - now;
      DivBounds(back, d);
      var q := back / d;
      if back < d { DivUnique(back, d, 0); }
      MulOrder(q + 1, 1, d);
      CycleEndExact(build, c);
      MulBound(c.totalPeriods, d);
    }
  }
}
