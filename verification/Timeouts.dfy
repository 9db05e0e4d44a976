/** The pure timeout conversions of both platforms, each shown equal to unbounded arithmetic. */
module Timeouts {
  import opened Base
  import opened Durations

  /** Winsock's "never time out". */
  const INFINITE := U32_MAX

  // ---------------------------------------------------------------- Windows: milliseconds

  function Dur2Timeout(d: Duration): nat {
    match CheckedMul(d.secs, 1000)
    case None => INFINITE
    case Some(whole) =>
      match CheckedAdd(whole, d.nanos / NANOS_PER_MILLI)
      case None => INFINITE
      case Some(ms) =>
        match CheckedAdd(ms, if d.nanos % NANOS_PER_MILLI > 0 then 1 else 0)
        case None => INFINITE
        case Some(up) => if up > U32_MAX then INFINITE else up
  }

  /** The checked u64 chain is the ceiling in milliseconds, capped, for every Duration. */
  lemma Dur2TimeoutIsCappedCeiling(d: Duration)
    ensures Dur2Timeout(d) == Min(CeilDiv(Nanos(d), NANOS_PER_MILLI), U32_MAX)
  {
    var sub := d.nanos / NANOS_PER_MILLI;
    var up := if d.nanos % NANOS_PER_MILLI > 0 then 1 else 0;
    assert CeilDiv(Nanos(d), NANOS_PER_MILLI) == d.secs * 1000 + sub + up;
  }

  lemma Dur2TimeoutIsMonotone(d: Duration, e: Duration)
    requires Nanos(d) <= Nanos(e)
    ensures Dur2Timeout(d) <= Dur2Timeout(e)
  {
    Dur2TimeoutIsCappedCeiling(d);
    Dur2TimeoutIsCappedCeiling(e);
  }

  /** Zero stands for the zero Duration alone; `INFINITE` is reached from u32::MAX ms on, which is one
      millisecond before the point the source's comment names. */
  lemma Dur2TimeoutExtremes(d: Duration)
    ensures Dur2Timeout(d) == 0 <==> IsZero(d)
    ensures Dur2Timeout(d) == INFINITE <==> Nanos(d) > (U32_MAX - 1) * NANOS_PER_MILLI
  {
    Dur2TimeoutIsCappedCeiling(d);
  }

  function WinEncode(o: Option<Duration>): Result<nat> {
    match o
    case Some(d) => var ms := Dur2Timeout(d); if ms == 0 then Err(InvalidData) else Ok(ms)
    case None => Ok(0)
  }

  function WinDecode(raw: nat): Option<Duration>
    requires raw <= U32_MAX
  {
    if raw == 0 then None else Some(RawDuration(raw / 1000, raw % 1000 * NANOS_PER_MILLI))
  }

  /** Setting then getting: None and only None reads back as None, a zero is refused, and everything
      else comes back rounded up by less than a millisecond, or as 4294967.295 s above the cap.  A second
      round trip changes nothing. */
  lemma WinRoundTrip(o: Option<Duration>)
    ensures WinEncode(o).Err? <==> o.Some? && IsZero(o.value)
    ensures WinEncode(o).Ok? ==>
      var raw := WinEncode(o).value;
      && raw <= U32_MAX
      && (raw == 0 <==> o == None)
      && (WinDecode(raw) == None <==> o == None)
      && WinEncode(WinDecode(raw)) == Ok(raw)
      && (o.Some? ==>
        var got := Nanos(WinDecode(raw).value);
        if CeilDiv(Nanos(o.value), NANOS_PER_MILLI) <= U32_MAX
        then Nanos(o.value) <= got < Nanos(o.value) + NANOS_PER_MILLI && got % NANOS_PER_MILLI == 0
        else got == 4_294_967_295 * NANOS_PER_MILLI)
  {
    if o.Some? {
      Dur2TimeoutExtremes(o.value);
      if !IsZero(o.value) {
        WinDecodeInverts(Dur2Timeout(o.value));
        RoundedUp(o.value);
        NoRest(Dur2Timeout(o.value));
      }
    }
  }

  lemma RoundedUp(d: Duration)
    requires !IsZero(d)
    ensures 0 < Dur2Timeout(d) <= U32_MAX
    ensures
      if CeilDiv(Nanos(d), NANOS_PER_MILLI) <= U32_MAX
      then Nanos(d) <= Dur2Timeout(d) * NANOS_PER_MILLI < Nanos(d) + NANOS_PER_MILLI
      else Dur2Timeout(d) == U32_MAX
  {
    Dur2TimeoutIsCappedCeiling(d);
    CeilDivBounds(Nanos(d));
  }

  lemma CeilDivBounds(n: nat)
    ensures n <= CeilDiv(n, NANOS_PER_MILLI) * NANOS_PER_MILLI < n + NANOS_PER_MILLI
  {
  }

  lemma NoRest(k: nat)
    ensures k * NANOS_PER_MILLI % NANOS_PER_MILLI == 0
  {
  }

  lemma WinDecodeInverts(raw: nat)
    requires 0 < raw <= U32_MAX
    ensures Nanos(WinDecode(raw).value) == raw * NANOS_PER_MILLI
    ensures Dur2Timeout(WinDecode(raw).value) == raw
  {
    assert raw == raw / 1000 * 1000 + raw % 1000;
    Dur2TimeoutIsCappedCeiling(WinDecode(raw).value);
  }

  // ---------------------------------------------------------------- Unix: timeval

  datatype RawTimeval = RawTimeval(sec: int, usec: int)

  /** What the kernel keeps: a normalised, non-negative `timeval`. */
  type Timeval = t: RawTimeval | 0 <= t.sec && 0 <= t.usec < 1_000_000 witness RawTimeval(0, 0)

  /** `timeMax` is the largest `time_t` of the target. */
  function UnixEncode(o: Option<Duration>, timeMax: nat): Result<Timeval> {
    match o
    case None => Ok(RawTimeval(0, 0))
    case Some(d) =>
      if d.secs == 0 && d.nanos == 0 then Err(InvalidInput)
      else
        var sec := if d.secs > timeMax then timeMax else d.secs;
        var usec := d.nanos / 1000;
        Ok(RawTimeval(sec, if sec == 0 && usec == 0 then 1 else usec))
  }

  /** The casts and the multiplication are those of the source: `as u64`, `as u32`, wrapping `* 1000`. */
  function UnixDecode(t: Timeval): Option<RawDuration> {
    if t.sec == 0 && t.usec == 0 then None
    else
      var nsec := (t.usec % (U32_MAX + 1)) * 1000 % (U32_MAX + 1);
      Some(RawDuration(t.sec % (U64_MAX + 1) + nsec / NANOS_PER_SEC, nsec % NANOS_PER_SEC))
  }

  lemma UnixDecodeIsExact(raw: Timeval)
    requires raw.sec <= U64_MAX && raw != RawTimeval(0, 0)
    ensures UnixDecode(raw) == Some(RawDuration(raw.sec, raw.usec * 1000))
  {
    assert raw.usec * 1000 < NANOS_PER_SEC <= U32_MAX;
    assert raw.sec % (U64_MAX + 1) == raw.sec;
  }

  /** Setting then getting on Unix: never loses a timeout, truncates to microseconds with a floor of one,
      clamps the seconds, neither wraps nor carries in the nanosecond field, and is idempotent. */
  lemma UnixRoundTrip(o: Option<Duration>, timeMax: nat)
    requires 0 < timeMax <= U64_MAX
    ensures UnixEncode(o, timeMax).Err? <==> o.Some? && IsZero(o.value)
    ensures UnixEncode(o, timeMax).Ok? ==>
      var raw := UnixEncode(o, timeMax).value;
      var got := UnixDecode(raw);
      && (got == None <==> o == None)
      && (o == None ==> raw == RawTimeval(0, 0))
      && (o.Some? ==>
        && got.value.secs == raw.sec == Min(o.value.secs, timeMax)
        && got.value.nanos == raw.usec * 1000 < NANOS_PER_SEC
        && (var clamped := RawDuration(Min(o.value.secs, timeMax), o.value.nanos);
            Nanos(got.value) == Max(1000, Nanos(clamped) / 1000 * 1000))
        && UnixEncode(Some(got.value), timeMax) == Ok(raw))
  {
    if o.Some? && !IsZero(o.value) {
      var raw := UnixEncode(o, timeMax).value;
      UnixDecodeIsExact(raw);
      WholeMicros(raw.usec);
      TruncatedMicros(Min(o.value.secs, timeMax), o.value.nanos);
    }
  }

  /** `raw` is what setting `o` stores; None and only None reads back as None; and setting what was read stores `raw`
      again. */
  predicate ReadsBack(o: Option<Duration>, timeMax: nat, raw: Timeval)
    requires 0 < timeMax <= U64_MAX
  {
    && UnixEncode(o, timeMax) == Ok(raw)
    && (UnixDecode(raw) == None <==> o == None)
    && UnixEncode(UnixDecode(raw), timeMax) == Ok(raw)
  }

  lemma WholeMicros(usec: nat)
    ensures usec * 1000 / 1000 == usec
  {
  }

  lemma TruncatedMicros(secs: nat, nanos: nat)
    ensures (secs * NANOS_PER_SEC + nanos) / 1000 * 1000 == secs * NANOS_PER_SEC + nanos / 1000 * 1000
  {
  }

  // ---------------------------------------------------------------- Windows: select

  /** `n as c_long` where `c_long` has 32 bits. */
  function AsI32(n: nat): int {
    var m := n % 0x1_0000_0000;
    if m <= I32_MAX then m else m - 0x1_0000_0000
  }

  function SelectTimeval(d: Duration): RawTimeval {
    var sec := AsI32(d.secs);
    var usec := d.nanos / 1000;
    RawTimeval(sec, if sec == 0 && usec == 0 then 1 else usec)
  }

  function Micros(t: RawTimeval): int {
    t.sec * 1_000_000 + t.usec
  }

  /** The wait handed to `select` keeps the low 32 bits of the seconds, with a sign; it is the one asked for exactly
      when the seconds fit 31 bits; it is never zero, and it is a negative time exactly when bit 31 of the seconds is
      set. */
  lemma SelectTimevalIsExactIffSecondsFit(d: Duration)
    ensures (d.secs - SelectTimeval(d).sec) % 0x1_0000_0000 == 0
    ensures -0x8000_0000 <= SelectTimeval(d).sec <= 0x7FFF_FFFF
    ensures SelectTimeval(d).usec == if SelectTimeval(d).sec == 0 && d.nanos < 1000 then 1 else d.nanos / 1000
    ensures Micros(SelectTimeval(d)) == Max(1, Nanos(d) / 1000) <==> d.secs <= I32_MAX
    ensures Micros(SelectTimeval(d)) != 0
    ensures Micros(SelectTimeval(d)) < 0 <==> d.secs % 0x1_0000_0000 > I32_MAX
  {
    assert Nanos(d) / 1000 == d.secs * 1_000_000 + d.nanos / 1000;
  }

  /** 2^32 seconds, about 136 years, becomes a wait of one microsecond. */
  lemma SelectTimevalTruncates()
    ensures var d := RawDuration(0x1_0000_0000, 0);
      SelectTimeval(d) == RawTimeval(0, 1) && Nanos(d) / 1000 == 0x1_0000_0000 * 1_000_000
  {
  }
}
