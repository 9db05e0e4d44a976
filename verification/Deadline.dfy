/** The deadline loop of the Unix `connect_timeout`, as the set of runs an adversarial `poll` can produce.
    Times are nanoseconds since the loop's start; `ConnectTimeout` in module UnixConnect is proved to produce
    only runs from this set. */
module Deadline {
  import opened Base
  import opened Durations

  const INT_MAX := I32_MAX
  const LONGEST_WAIT := INT_MAX * NANOS_PER_MILLI

  /** The interval as the loop computes it, in saturating u64 steps and a final cast to `c_int`. */
  function PollInterval(remaining: Duration): int {
    var ms := SaturatingAdd(SaturatingMul(remaining.secs, 1000), remaining.nanos / NANOS_PER_MILLI);
    Min(if ms == 0 then 1 else ms, INT_MAX)
  }

  /** The interval over unbounded integers. */
  function Interval(remaining: nat): int {
    Min(Max(1, remaining / NANOS_PER_MILLI), INT_MAX)
  }

  /** Saturation never shows: the argument of `poll` is exact for every Duration, and neither zero nor negative. */
  lemma PollIntervalIsExact(remaining: Duration)
    ensures PollInterval(remaining) == Interval(Nanos(remaining))
    ensures 1 <= PollInterval(remaining) <= INT_MAX
  {
    assert Nanos(remaining) / NANOS_PER_MILLI == remaining.secs * 1000 + remaining.nanos / NANOS_PER_MILLI;
  }

  /** `ms` is the wait for `left` nanoseconds: rounded down to milliseconds, but at least one and at most 2^31 - 1. */
  predicate IsWaitFor(ms: int, left: nat) {
    if left < 1_000_000 then ms == 1
    else if left >= 2_147_483_647_000_000 then ms == 2_147_483_647
    else ms * 1_000_000 <= left < (ms + 1) * 1_000_000
  }

  /** The argument of the next `poll`: the time left as a Duration, converted. */
  function NextInterval(timeout: Duration, elapsed: nat): (ms: int)
    requires elapsed < timeout.secs * 1_000_000_000 + timeout.nanos
    ensures ms == Interval(Nanos(timeout) - elapsed)
    ensures IsWaitFor(ms, timeout.secs * 1_000_000_000 + timeout.nanos - elapsed)
  {
    var left := FromNanos(Nanos(timeout) - elapsed);
    PollIntervalIsExact(left);
    PollInterval(left)
  }

  datatype Answer = Interrupted | Failed(errno: int) | Expired | Ready(hangup: bool)

  /** One turn of the loop: the elapsed time it read, the interval it passed, what `poll` said. */
  datatype Turn = Turn(elapsed: nat, ms: int, answer: Answer)

  predicate Terminal(a: Answer) {
    a.Failed? || a.Ready?
  }

  function Waited(t: Turn): int {
    t.ms * NANOS_PER_MILLI
  }

  /** What one turn must obey when the elapsed time after it is `after`: it starts before the limit, passes the
      right interval, the clock does not run back, and an expired `poll` has waited. */
  predicate Fits(limit: nat, t: Turn, after: nat) {
    && t.elapsed < limit
    && t.ms == Interval(limit - t.elapsed)
    && t.elapsed <= after
    && (t.answer.Expired? ==> t.elapsed + Waited(t) <= after)
  }

  /** The turns of a run so far, the last one outermost. */
  datatype Turns = Start | Then(earlier: Turns, turn: Turn)

  function Count(h: Turns): nat {
    match h
    case Start => 0
    case Then(earlier, _) => Count(earlier) + 1
  }

  predicate Answered(h: Turns) {
    h.Then? && Terminal(h.turn.answer)
  }

  /** The runs, ending at elapsed time `exit`, that a clock that never goes back and a `poll` that never expires
      early can produce. */
  predicate Legal(limit: nat, h: Turns, exit: nat) {
    match h
    case Start => true
    case Then(earlier, t) => Fits(limit, t, exit) && !Answered(earlier) && Legal(limit, earlier, t.elapsed)
  }

  /** The loop has left: either the last poll decided, or the deadline has passed. */
  predicate Complete(limit: nat, h: Turns, exit: nat) {
    Answered(h) || exit >= limit
  }

  function Interruptions(h: Turns): nat {
    match h
    case Start => 0
    case Then(earlier, t) => Interruptions(earlier) + if t.answer.Interrupted? then 1 else 0
  }

  lemma LegalLater(limit: nat, h: Turns, exit: nat, exit': nat)
    requires Legal(limit, h, exit) && exit <= exit'
    ensures Legal(limit, h, exit')
  {
  }

  /** The most polls that can end without being interrupted when `remaining` nanoseconds are left. */
  function WorstPolls(remaining: int): nat {
    if remaining <= 0 then 0
    else if remaining <= NANOS_PER_MILLI then 1
    else 1 + WorstPolls(Max(1, remaining - LONGEST_WAIT))
  }

  /** The same number in closed form. */
  lemma {:induction false} WorstPollsInClosedForm(remaining: nat)
    ensures WorstPolls(remaining) ==
      if remaining == 0 then 0
      else if remaining <= NANOS_PER_MILLI then 1
      else 1 + CeilDiv(remaining - NANOS_PER_MILLI, LONGEST_WAIT)
  {
    if remaining > LONGEST_WAIT + NANOS_PER_MILLI {
      WorstPollsInClosedForm(remaining - LONGEST_WAIT);
      var more := remaining - NANOS_PER_MILLI;
      assert CeilDiv(more, LONGEST_WAIT) == 1 + CeilDiv(more - LONGEST_WAIT, LONGEST_WAIT);
    }
  }

  lemma {:induction false} WorstPollsIsMonotone(r: int, s: int)
    requires r <= s
    ensures WorstPolls(r) <= WorstPolls(s)
    decreases s
  {
    if r > NANOS_PER_MILLI {
      WorstPollsIsMonotone(Max(1, r - LONGEST_WAIT), Max(1, s - LONGEST_WAIT));
    }
  }

  /** The termination measure: a poll that expires uses up at least one of the polls that were left. */
  lemma ExpiryUsesAPoll(remaining: int, after: int)
    requires 0 < remaining
    requires after <= remaining - Interval(remaining) * NANOS_PER_MILLI
    ensures WorstPolls(after) < WorstPolls(remaining)
  {
    if remaining / NANOS_PER_MILLI >= INT_MAX {
      WorstPollsIsMonotone(after, Max(1, remaining - LONGEST_WAIT));
    } else {
      assert after < NANOS_PER_MILLI;
    }
  }

  /** A turn that decides nothing uses up an interruption or a poll. */
  lemma TurnMakesProgress(limit: nat, before: nat, t: Turn, after: nat)
    requires Fits(limit, t, after) && before <= t.elapsed && !Terminal(t.answer)
    ensures WorstPolls(limit - after) + (if t.answer.Interrupted? then 0 else 1) <= WorstPolls(limit - before)
  {
    WorstPollsIsMonotone(limit - t.elapsed, limit - before);
    if t.answer.Expired? {
      ExpiryUsesAPoll(limit - t.elapsed, limit - after);
    } else {
      WorstPollsIsMonotone(limit - after, limit - t.elapsed);
    }
  }

  /** In every run the polls are at most the interruptions plus `WorstPolls` of the limit, and a run still
      waiting has kept enough of them for the time that is left. */
  lemma {:induction false} PollsAreBounded(limit: nat, h: Turns, exit: nat)
    requires Legal(limit, h, exit)
    ensures Count(h) <= Interruptions(h) + WorstPolls(limit)
    ensures !Answered(h) ==> Count(h) + WorstPolls(limit - exit) <= Interruptions(h) + WorstPolls(limit)
  {
    match h
    case Start => WorstPollsIsMonotone(limit - exit, limit);
    case Then(earlier, t) =>
      PollsAreBounded(limit, earlier, t.elapsed);
      if !Answered(h) {
        TurnMakesProgress(limit, t.elapsed, t, exit);
      }
  }

  /** The exact bound is never above floor(limit in ms / INT_MAX) + 2. */
  lemma WorstPollsIsAtMost(limit: nat)
    ensures WorstPolls(limit) <= limit / NANOS_PER_MILLI / INT_MAX + 2
  {
    WorstPollsInClosedForm(limit);
    assert limit / NANOS_PER_MILLI / INT_MAX == limit / LONGEST_WAIT;
  }

  predicate AllExpire(h: Turns) {
    h.Then? ==> h.turn.answer.Expired? && AllExpire(h.earlier)
  }

  /** The run that continues `h` with a `poll` that always expires after exactly its argument. */
  function Punctual(limit: nat, h: Turns, from: nat): (Turns, nat)
    decreases limit - from
  {
    if from >= limit then (h, from)
    else
      var ms := Interval(limit - from);
      Punctual(limit, Then(h, Turn(from, ms, Expired)), from + ms * NANOS_PER_MILLI)
  }

  lemma {:induction false} PunctualIsLegal(limit: nat, h: Turns, from: nat)
    requires Legal(limit, h, from) && AllExpire(h)
    ensures var (g, exit) := Punctual(limit, h, from);
      Legal(limit, g, exit) && exit >= limit && AllExpire(g)
    decreases limit - from
  {
    if from < limit {
      var t := Turn(from, Interval(limit - from), Expired);
      PunctualIsLegal(limit, Then(h, t), from + Waited(t));
    }
  }

  /** A remainder that is no whole number of milliseconds makes the punctual run as long as any. */
  lemma {:induction false} PunctualIsWorst(limit: nat, h: Turns, from: nat)
    requires from < limit
    requires limit - from <= NANOS_PER_MILLI || (limit - from) % NANOS_PER_MILLI != 0
    ensures Count(Punctual(limit, h, from).0) == Count(h) + WorstPolls(limit - from)
    decreases limit - from
  {
    var left := limit - from;
    var t := Turn(from, Interval(left), Expired);
    var next := from + Waited(t);
    if left <= NANOS_PER_MILLI {
      assert next >= limit;
      assert Count(Punctual(limit, Then(h, t), next).0) == Count(h) + 1;
    } else if left < LONGEST_WAIT + NANOS_PER_MILLI {
      assert 0 < limit - next < NANOS_PER_MILLI;
      PunctualIsWorst(limit, Then(h, t), next);
      assert WorstPolls(Max(1, left - LONGEST_WAIT)) == 1;
    } else {
      assert limit - next == left - LONGEST_WAIT;
      assert (left - LONGEST_WAIT) % NANOS_PER_MILLI == left % NANOS_PER_MILLI;
      PunctualIsWorst(limit, Then(h, t), next);
    }
  }

  /** A complete run in which every poll expires. */
  predicate SpotlessRun(limit: nat, h: Turns, exit: nat) {
    Legal(limit, h, exit) && Complete(limit, h, exit) && AllExpire(h)
  }

  lemma AllExpireIsUninterrupted(h: Turns)
    requires AllExpire(h)
    ensures Interruptions(h) == 0 && !Answered(h)
  {
  }

  lemma PunctualIsSpotless(limit: nat, from: nat)
    requires from < limit && (limit - from <= NANOS_PER_MILLI || (limit - from) % NANOS_PER_MILLI != 0)
    ensures exists h, exit :: SpotlessRun(limit, h, exit) && Count(h) == WorstPolls(limit - from)
  {
    PunctualIsLegal(limit, Start, from);
    PunctualIsWorst(limit, Start, from);
    var (h, exit) := Punctual(limit, Start, from);
    assert SpotlessRun(limit, h, exit);
  }

  /** `WorstPolls` is exact: for every non-zero limit some spotless run polls that often. */
  lemma WorstPollsIsAttained(limit: nat)
    requires limit > 0
    ensures exists h, exit :: SpotlessRun(limit, h, exit) && Count(h) == WorstPolls(limit)
  {
    if limit > NANOS_PER_MILLI && limit % NANOS_PER_MILLI == 0 {
      WorstPollsUnmovedByOneNano(limit);
      PunctualIsSpotless(limit, 1);
    } else {
      PunctualIsSpotless(limit, 0);
    }
  }

  lemma WorstPollsUnmovedByOneNano(limit: nat)
    requires limit > NANOS_PER_MILLI && limit % NANOS_PER_MILLI == 0
    ensures WorstPolls(limit - 1) == WorstPolls(limit)
  {
    WorstPollsInClosedForm(limit);
    WorstPollsInClosedForm(limit - 1);
    var ms := limit / NANOS_PER_MILLI;
    assert limit == ms * NANOS_PER_MILLI;
    assert CeilDiv(limit - NANOS_PER_MILLI, LONGEST_WAIT) == (ms - 1 + INT_MAX - 1) / INT_MAX;
  }

  /** When the poll of a turn is due to have returned. */
  function Due(t: Turn): int {
    t.elapsed + Waited(t)
  }

  /** Every poll of a run starts before the deadline and is due less than a millisecond after it. */
  lemma {:induction false} PollsAreDueInTime(limit: nat, h: Turns, exit: nat)
    requires Legal(limit, h, exit)
    ensures AllDueInTime(limit, h)
  {
    if h.Then? {
      PollsAreDueInTime(limit, h.earlier, h.turn.elapsed);
      var t := h.turn;
      if limit - t.elapsed < NANOS_PER_MILLI {
        assert t.ms == 1;
      } else {
        assert Waited(t) <= limit - t.elapsed;
      }
    }
  }

  predicate AllDueInTime(limit: nat, h: Turns) {
    h.Then? ==> h.turn.elapsed < limit && Due(h.turn) < limit + NANOS_PER_MILLI && AllDueInTime(limit, h.earlier)
  }

  /** How far past the time its last poll was due a run left the loop. */
  function Lateness(h: Turns, exit: nat): nat
    requires h.Then?
  {
    Max(0, exit - Due(h.turn))
  }

  /** The deadline is overshot by less than 1 ms plus the lateness of the last poll alone; earlier delays do
      not add up. */
  lemma OvershootIsUnderAMillisecond(limit: nat, h: Turns, exit: nat)
    requires h.Then? && Legal(limit, h, exit)
    ensures exit < limit + NANOS_PER_MILLI + Lateness(h, exit)
  {
    PollsAreDueInTime(limit, h, exit);
  }

  /** The millisecond is exact: one nanosecond short of the deadline the loop still waits a whole one. */
  lemma OvershootIsAttained(limit: nat)
    requires limit > 0
    ensures exists h, exit ::
      && Legal(limit, h, exit)
      && h.Then?
      && !Answered(h)
      && Lateness(h, exit) == 0
      && exit == limit + NANOS_PER_MILLI - 1
  {
    var h := Then(Start, Turn(limit - 1, 1, Expired));
    assert Legal(limit, h, limit + NANOS_PER_MILLI - 1);
  }
}
