/** The deadline loop inside the concurrent machine: its clock readings and its number of polls over whole runs, however
    the other threads delay it. */
module TimedRuns {
  import opened Base
  import opened Durations
  import opened Deadline
  import opened Kernel
  import opened Program
  import opened Concurrency
  import opened Runs

  /** What the place of a thread in the loop says about the clock: it was first read in the past; the interval of a
      `poll` was computed from a reading in the past that was before the deadline. */
  predicate Timed(pc: Pc, clock: nat) {
    match pc
    case ConnectingTimed(_, goal, Checking(begun)) => begun <= clock
    case ConnectingTimed(_, goal, Polling(begun, elapsed, ms)) =>
      && goal.ToConnectTimed?
      && elapsed < Nanos(goal.timeout)
      && ms == Interval(Nanos(goal.timeout) - elapsed)
      && begun + elapsed <= clock
    case _ => true
  }

  predicate AllTimed(s: State) {
    forall t | t in s.threads :: Timed(s.threads[t].pc, s.w.clock)
  }

  lemma TimedLater(pc: Pc, clock: nat, clock': nat)
    requires Timed(pc, clock) && clock <= clock'
    ensures Timed(pc, clock')
  {
  }

  lemma TimedAfterCall(pc: Pc, r: Ret, clock: nat, clock': nat)
    requires Wants(pc).Some? && Timed(pc, clock) && clock <= clock'
    ensures Timed(Resume(pc, r), clock')
  {
  }

  /** Whose place an action may change. */
  function Actor(a: Action): Option<Tid> {
    match a
    case Spawn(t) => Some(t)
    case Begin(t, _) => Some(t)
    case LoadFlag(t, _) => Some(t)
    case StoreFlag(t, _) => Some(t)
    case ReadClock(t) => Some(t)
    case Answer(t, _) => Some(t)
    case Return(t, _) => Some(t)
    case StartDrop(t, _) => Some(t)
    case _ => None
  }

  lemma OthersStay(s: State, a: Action, s': State, t: Tid)
    requires Valid(s.w.tab) && Next(s, a, s') && Actor(a) != Some(t)
    ensures t in s'.threads <==> t in s.threads
    ensures t in s.threads ==> s'.threads[t] == s.threads[t]
  {
  }

  lemma ClockGoesOn(s: State, a: Action, s': State)
    requires Valid(s.w.tab) && Next(s, a, s')
    ensures s.w.clock <= s'.w.clock
  {
  }

  lemma QuietKeepsTimed(s: State, a: Action, s': State, t: Tid)
    requires Quiet(s, a, s') && Actor(a) == Some(t) && t in s'.threads
    requires t in s.threads ==> Timed(s.threads[t].pc, s.w.clock)
    ensures Timed(s'.threads[t].pc, s'.w.clock)
  {
  }

  lemma ActorKeepsTimed(s: State, a: Action, s': State, t: Tid)
    requires Valid(s.w.tab) && Next(s, a, s') && Actor(a) == Some(t) && t in s'.threads
    requires t in s.threads ==> Timed(s.threads[t].pc, s.w.clock)
    ensures Timed(s'.threads[t].pc, s'.w.clock)
  {
    if a.Answer? {
      ClockGoesOn(s, a, s');
      TimedAfterCall(s.threads[t].pc, a.ret, s.w.clock, s'.w.clock);
    } else {
      OthersAreQuiet(s, a, s');
      QuietKeepsTimed(s, a, s', t);
    }
  }

  lemma NextKeepsTimed(s: State, a: Action, s': State)
    requires Valid(s.w.tab) && Next(s, a, s') && AllTimed(s)
    ensures AllTimed(s')
  {
    forall t | t in s'.threads
      ensures Timed(s'.threads[t].pc, s'.w.clock)
    {
      if Actor(a) == Some(t) {
        ActorKeepsTimed(s, a, s', t);
      } else {
        OthersStay(s, a, s', t);
        ClockGoesOn(s, a, s');
        TimedLater(s.threads[t].pc, s.w.clock, s'.w.clock);
      }
    }
  }

  lemma {:induction false} RunKeepsTimed(ss: seq<State>, acts: seq<Action>, i: nat)
    requires Run(ss, acts) && i < |ss|
    ensures AllTimed(ss[i])
  {
    if i > 0 {
      RunKeepsTimed(ss, acts, i - 1);
      assert Goes(ss, acts, i - 1);
      NextKeepsTimed(ss[i - 1], acts[i - 1], ss[i]);
    }
  }

  // ---------------------------------------------------------------- The readings behind a poll

  /** Action `k` is the last action of thread `t` before state `i`, and it reads the clock. */
  predicate LastRead(acts: seq<Action>, t: Tid, k: nat, i: nat) {
    k < i <= |acts| && acts[k] == ReadClock(t) && forall m: nat | k < m < i :: Actor(acts[m]) != Some(t)
  }

  /** Where the reading of clock `now` takes a thread that polls after it. */
  predicate PollsAfter(pc: Pc, now: nat) {
    && pc.ConnectingTimed? && pc.at.Polling?
    && pc.at.begun + pc.at.elapsed == now
  }

  lemma OnlyReadingLeadsToPolls(s: State, a: Action, s': State, t: Tid)
    requires Valid(s.w.tab) && Next(s, a, s') && Actor(a) == Some(t) && t in s'.threads
    requires s'.threads[t].pc.ConnectingTimed? && s'.threads[t].pc.at.Polling?
    ensures a == ReadClock(t) && PollsAfter(s'.threads[t].pc, s.w.clock)
  {
    if a.Answer? {
      AnswersLeadToNoPoll(s.threads[t].pc, a.ret);
    } else {
      OthersAreQuiet(s, a, s');
      QuietLeadsToPolls(s, a, s', t);
    }
  }

  lemma AnswersLeadToNoPoll(pc: Pc, r: Ret)
    requires Wants(pc).Some?
    ensures !(Resume(pc, r).ConnectingTimed? && Resume(pc, r).at.Polling?)
  {
  }

  lemma QuietLeadsToPolls(s: State, a: Action, s': State, t: Tid)
    requires Quiet(s, a, s') && Actor(a) == Some(t) && t in s'.threads
    requires s'.threads[t].pc.ConnectingTimed? && s'.threads[t].pc.at.Polling?
    ensures a == ReadClock(t) && PollsAfter(s'.threads[t].pc, s.w.clock)
  {
  }

  /** The clock that a polling thread computed its interval from is the one of its own last action, a reading. */
  lemma {:induction false} PollsAreOfLastReading(ss: seq<State>, acts: seq<Action>, i: nat, t: Tid) returns (k: nat)
    requires Run(ss, acts) && i < |ss| && t in ss[i].threads
    requires ss[i].threads[t].pc.ConnectingTimed? && ss[i].threads[t].pc.at.Polling?
    ensures LastRead(acts, t, k, i) && PollsAfter(ss[i].threads[t].pc, ss[k].w.clock)
    decreases i
  {
    if i > 0 {
      assert Goes(ss, acts, i - 1);
      if Actor(acts[i - 1]) == Some(t) {
        OnlyReadingLeadsToPolls(ss[i - 1], acts[i - 1], ss[i], t);
        k := i - 1;
      } else {
        OthersStay(ss[i - 1], acts[i - 1], ss[i], t);
        k := PollsAreOfLastReading(ss, acts, i - 1, t);
      }
    }
  }

  /** The interval of the `poll` at `pc` was computed before the deadline and, counted from then, ends less than a
      millisecond after it. */
  predicate IsTimely(pc: Pc)
    requires pc.ConnectingTimed? && pc.at.Polling?
  {
    && pc.goal.ToConnectTimed?
    && pc.at.elapsed < Nanos(pc.goal.timeout)
    && pc.at.elapsed + pc.at.ms * NANOS_PER_MILLI < Nanos(pc.goal.timeout) + NANOS_PER_MILLI
    && 1 <= pc.at.ms <= INT_MAX
  }

  /** Whenever a thread polls in a timed connect, its last action was to read the clock, its interval was computed from
      that very reading, which was before the deadline, and, counted from it, ends less than a millisecond after the
      deadline.  The call itself may come any time later. */
  lemma PollsAreOfTimelyReadings(ss: seq<State>, acts: seq<Action>, i: nat, t: Tid)
    requires Run(ss, acts) && i < |ss| && t in ss[i].threads
    requires ss[i].threads[t].pc.ConnectingTimed? && ss[i].threads[t].pc.at.Polling?
    ensures exists k: nat :: LastRead(acts, t, k, i) && PollsAfter(ss[i].threads[t].pc, ss[k].w.clock)
    ensures IsTimely(ss[i].threads[t].pc)
  {
    var k := PollsAreOfLastReading(ss, acts, i, t);
    RunKeepsTimed(ss, acts, i);
    TimedIsTimely(ss[i].threads[t].pc, ss[i].w.clock);
  }

  lemma TimedIsTimely(pc: Pc, clock: nat)
    requires pc.ConnectingTimed? && pc.at.Polling? && Timed(pc, clock)
    ensures IsTimely(pc)
  {
    ReadingIsTimely(Nanos(pc.goal.timeout), pc.at.elapsed, pc.at.ms);
  }

  lemma ReadingIsTimely(limit: nat, elapsed: nat, ms: int)
    requires elapsed < limit && ms == Interval(limit - elapsed)
    ensures elapsed + ms * NANOS_PER_MILLI < limit + NANOS_PER_MILLI && 1 <= ms <= INT_MAX
  {
    if limit - elapsed >= NANOS_PER_MILLI {
      assert ms * NANOS_PER_MILLI <= limit - elapsed;
    }
  }

  // ---------------------------------------------------------------- How often it polls

  /** Thread `t` is in the loop that it entered for `goal`, reading the clock first at `begun`. */
  predicate InLoop(s: State, t: Tid, goal: Goal, begun: nat) {
    && goal.ToConnectTimed?
    && t in s.threads
    && s.threads[t].pc.ConnectingTimed?
    && s.threads[t].pc.goal == goal
    && (s.threads[t].pc.at.Checking? || s.threads[t].pc.at.Polling?)
    && s.threads[t].pc.at.begun == begun
  }

  /** How many polls are left at this place in the loop. */
  function Left(pc: Pc, goal: Goal, clock: nat): nat {
    if !(goal.ToConnectTimed? && pc.ConnectingTimed?) then 0
    else
      match pc.at
      case Checking(begun) => WorstPolls(Nanos(goal.timeout) - (clock - begun))
      case Polling(_, elapsed, _) => WorstPolls(Nanos(goal.timeout) - elapsed)
      case _ => 0
  }

  /** A `poll` of thread `t` was answered. */
  predicate IsPollBy(s: State, a: Action, t: Tid) {
    && a.Answer? && a.t == t && t in s.threads
    && s.threads[t].pc.ConnectingTimed? && s.threads[t].pc.at.Polling?
  }

  predicate IsInterruptedPoll(s: State, a: Action, t: Tid) {
    IsPollBy(s, a, t) && a.ret == Ret.Failed(EINTR)
  }

  function PollsBetween(ss: seq<State>, acts: seq<Action>, t: Tid, i: nat, j: nat): nat
    requires i <= j <= |acts| < |ss|
    decreases j
  {
    if i == j then 0
    else PollsBetween(ss, acts, t, i, j - 1) + if IsPollBy(ss[j - 1], acts[j - 1], t) then 1 else 0
  }

  function InterruptedBetween(ss: seq<State>, acts: seq<Action>, t: Tid, i: nat, j: nat): nat
    requires i <= j <= |acts| < |ss|
    decreases j
  {
    if i == j then 0
    else InterruptedBetween(ss, acts, t, i, j - 1) + if IsInterruptedPoll(ss[j - 1], acts[j - 1], t) then 1 else 0
  }

  /** An answered poll that keeps the thread in the loop was interrupted or uses up a poll. */
  lemma PollUsesUp(pc: Pc, goal: Goal, r: Ret, clock: nat, clock': nat)
    requires goal.ToConnectTimed? && pc.ConnectingTimed? && pc.goal == goal && pc.at.Polling? && Timed(pc, clock)
    requires clock <= clock'
    requires r.Returned? && r.value == 0 ==> clock + pc.at.ms * NANOS_PER_MILLI <= clock'
    requires Resume(pc, r).ConnectingTimed? && Resume(pc, r).at.Checking?
    ensures Left(Resume(pc, r), goal, clock') + (if r == Ret.Failed(EINTR) then 0 else 1) <= Left(pc, goal, clock)
  {
    var limit, at := Nanos(goal.timeout), pc.at;
    if r.Failed? {
      WorstPollsIsMonotone(limit - (clock' - at.begun), limit - at.elapsed);
    } else {
      ExpiryUsesAPoll(limit - at.elapsed, limit - (clock' - at.begun));
    }
  }

  /** At a poll there is at least one left. */
  lemma OneIsLeft(pc: Pc, goal: Goal, clock: nat)
    requires goal.ToConnectTimed? && pc.ConnectingTimed? && pc.goal == goal && pc.at.Polling? && Timed(pc, clock)
    ensures Left(pc, goal, clock) >= 1
  {
  }

  lemma LeftLater(pc: Pc, goal: Goal, clock: nat, clock': nat)
    requires clock <= clock'
    ensures Left(pc, goal, clock') <= Left(pc, goal, clock)
  {
    if goal.ToConnectTimed? && pc.ConnectingTimed? && pc.at.Checking? {
      WorstPollsIsMonotone(Nanos(goal.timeout) - (clock' - pc.at.begun), Nanos(goal.timeout) - (clock - pc.at.begun));
    }
  }

  lemma ReadingKeepsLeft(pc: Pc, goal: Goal, clock: nat)
    requires goal.ToConnectTimed? && pc.ConnectingTimed? && pc.goal == goal && pc.at.Checking? && Timed(pc, clock)
    ensures Left(OnClock(pc, clock), goal, clock) <= Left(pc, goal, clock)
  {
  }

  /** What one action does to the polls left: `polled` of them were answered, `interrupted` of these interrupted. */
  predicate Pays(s: State, s': State, t: Tid, goal: Goal, begun: nat, polled: nat, interrupted: nat)
    requires t in s.threads
  {
    && polled <= interrupted + Left(s.threads[t].pc, goal, s.w.clock)
    && (InLoop(s', t, goal, begun) ==>
        Left(s'.threads[t].pc, goal, s'.w.clock) + polled <= Left(s.threads[t].pc, goal, s.w.clock) + interrupted)
  }

  lemma OthersPay(s: State, a: Action, s': State, t: Tid, goal: Goal, begun: nat)
    requires Valid(s.w.tab) && Next(s, a, s') && Actor(a) != Some(t) && t in s.threads
    ensures Pays(s, s', t, goal, begun, 0, 0) && !IsPollBy(s, a, t)
  {
    OthersStay(s, a, s', t);
    ClockGoesOn(s, a, s');
    LeftLater(s.threads[t].pc, goal, s.w.clock, s'.w.clock);
  }

  lemma AnswerPays(s: State, t: Tid, ret: Ret, s': State, goal: Goal, begun: nat)
    requires Valid(s.w.tab) && Answers(s, t, ret, s') && InLoop(s, t, goal, begun)
    requires Timed(s.threads[t].pc, s.w.clock)
    ensures IsPollBy(s, Answer(t, ret), t)
    ensures Pays(s, s', t, goal, begun, 1, if ret == Ret.Failed(EINTR) then 1 else 0)
  {
    var pc := s.threads[t].pc;
    OneIsLeft(pc, goal, s.w.clock);
    if InLoop(s', t, goal, begun) {
      PollUsesUp(pc, goal, ret, s.w.clock, s'.w.clock);
    }
  }

  lemma ReadClockPays(s: State, t: Tid, s': State, goal: Goal, begun: nat)
    requires ReadsClock(s, t, s') && InLoop(s, t, goal, begun) && Timed(s.threads[t].pc, s.w.clock)
    ensures Pays(s, s', t, goal, begun, 0, 0)
  {
    ReadingKeepsLeft(s.threads[t].pc, goal, s.w.clock);
  }

  lemma InLoopOnlyReadsClock(s: State, a: Action, s': State, t: Tid, goal: Goal, begun: nat)
    requires Quiet(s, a, s') && Actor(a) == Some(t) && InLoop(s, t, goal, begun)
    ensures a == ReadClock(t) && ReadsClock(s, t, s')
  {
  }

  lemma StepPays(ss: seq<State>, acts: seq<Action>, k: nat, t: Tid, goal: Goal, begun: nat)
    requires Run(ss, acts) && k < |acts| && InLoop(ss[k], t, goal, begun)
    ensures Pays(ss[k], ss[k + 1], t, goal, begun,
                 if IsPollBy(ss[k], acts[k], t) then 1 else 0, if IsInterruptedPoll(ss[k], acts[k], t) then 1 else 0)
  {
    var s, a, s' := ss[k], acts[k], ss[k + 1];
    RunKeepsTimed(ss, acts, k);
    assert Goes(ss, acts, k);
    if Actor(a) != Some(t) {
      OthersPay(s, a, s', t, goal, begun);
    } else if a.Answer? {
      AnswerPays(s, t, a.ret, s', goal, begun);
    } else {
      OthersAreQuiet(s, a, s');
      InLoopOnlyReadsClock(s, a, s', t, goal, begun);
      ReadClockPays(s, t, s', goal, begun);
    }
  }

  predicate PaysAt(ss: seq<State>, acts: seq<Action>, k: nat, t: Tid, goal: Goal, begun: nat)
    requires k < |acts| < |ss|
  {
    && InLoop(ss[k], t, goal, begun)
    && Pays(ss[k], ss[k + 1], t, goal, begun,
            if IsPollBy(ss[k], acts[k], t) then 1 else 0, if IsInterruptedPoll(ss[k], acts[k], t) then 1 else 0)
  }

  lemma {:induction false} PaymentsAddUp(ss: seq<State>, acts: seq<Action>, t: Tid, goal: Goal, begun: nat, i: nat,
                                        j: nat)
    requires i <= j <= |acts| < |ss| && goal.ToConnectTimed? && t in ss[i].threads
    requires forall k: nat | i <= k < j :: PaysAt(ss, acts, k, t, goal, begun)
    ensures PollsBetween(ss, acts, t, i, j) <=
      InterruptedBetween(ss, acts, t, i, j) + Left(ss[i].threads[t].pc, goal, ss[i].w.clock)
    ensures InLoop(ss[j], t, goal, begun) ==>
      PollsBetween(ss, acts, t, i, j) + Left(ss[j].threads[t].pc, goal, ss[j].w.clock) <=
      InterruptedBetween(ss, acts, t, i, j) + Left(ss[i].threads[t].pc, goal, ss[i].w.clock)
    decreases j
  {
    if i < j {
      PaymentsAddUp(ss, acts, t, goal, begun, i, j - 1);
      assert PaysAt(ss, acts, j - 1, t, goal, begun);
    }
  }

  /** While a thread is in the loop it polls at most `WorstPolls` of the timeout more often than it is interrupted, the
      poll that leaves the loop included, whatever the other threads, the user and the rest of the process do. */
  lemma PollsAreBoundedInRuns(ss: seq<State>, acts: seq<Action>, t: Tid, goal: Goal, begun: nat, i: nat, j: nat)
    requires Run(ss, acts) && i <= j < |ss|
    requires goal.ToConnectTimed? && t in ss[i].threads
    requires forall k: nat | i <= k < j :: InLoop(ss[k], t, goal, begun)
    ensures PollsBetween(ss, acts, t, i, j) <=
      InterruptedBetween(ss, acts, t, i, j) + Left(ss[i].threads[t].pc, goal, ss[i].w.clock)
  {
    forall k: nat | i <= k < j
      ensures PaysAt(ss, acts, k, t, goal, begun)
    {
      StepPays(ss, acts, k, t, goal, begun);
    }
    PaymentsAddUp(ss, acts, t, goal, begun, i, j);
  }

  /** The bound in terms of the timeout alone, over any stretch of any run that the thread spends in the loop. */
  lemma PollsOfTimedConnectAreBounded(ss: seq<State>, acts: seq<Action>, t: Tid, goal: Goal, begun: nat, i: nat, j: nat)
    requires Run(ss, acts) && i < j < |ss| && InLoop(ss[i], t, goal, begun)
    requires forall k: nat | i <= k < j :: InLoop(ss[k], t, goal, begun)
    ensures PollsBetween(ss, acts, t, i, j) <=
      InterruptedBetween(ss, acts, t, i, j) + WorstPolls(Nanos(goal.timeout))
  {
    RunKeepsTimed(ss, acts, i);
    assert Timed(ss[i].threads[t].pc, ss[i].w.clock);
    PollsAreBoundedInRuns(ss, acts, t, goal, begun, i, j);
    LeftIsAtMostWorst(ss[i].threads[t].pc, goal, ss[i].w.clock);
  }

  lemma LeftIsAtMostWorst(pc: Pc, goal: Goal, clock: nat)
    requires goal.ToConnectTimed? && pc.ConnectingTimed? && pc.goal == goal && Timed(pc, clock)
    ensures Left(pc, goal, clock) <= WorstPolls(Nanos(goal.timeout))
  {
    match pc.at
    case Checking(begun) => WorstPollsIsMonotone(Nanos(goal.timeout) - (clock - begun), Nanos(goal.timeout));
    case Polling(_, elapsed, _) => WorstPollsIsMonotone(Nanos(goal.timeout) - elapsed, Nanos(goal.timeout));
    case _ =>
  }

  // ---------------------------------------------------------------- When it leaves

  /** Thread `t` is about to read the clock for the first time in the loop for `goal`. */
  predicate AtStart(s: State, t: Tid, goal: Goal) {
    && t in s.threads
    && s.threads[t].pc.ConnectingTimed?
    && s.threads[t].pc.goal == goal
    && s.threads[t].pc.at.Starting?
  }

  /** Action `b - 1` of thread `t` read clock `begun` and started the loop for `goal`, in which it is from state `b` to
      state `i`. */
  ghost predicate LoopsSince(ss: seq<State>, acts: seq<Action>, t: Tid, goal: Goal, begun: nat, b: nat, i: nat)
    requires i <= |acts| < |ss|
  {
    && 0 < b <= i
    && acts[b - 1] == ReadClock(t)
    && AtStart(ss[b - 1], t, goal)
    && ss[b - 1].w.clock == begun
    && forall k: nat | b <= k <= i :: InLoop(ss[k], t, goal, begun)
  }

  lemma AnswersEnterNoLoop(pc: Pc, r: Ret)
    requires Wants(pc).Some? && Resume(pc, r).ConnectingTimed?
    requires Resume(pc, r).at.Checking? || Resume(pc, r).at.Polling?
    ensures pc.ConnectingTimed? && pc.goal == Resume(pc, r).goal
    ensures pc.at.Polling? && pc.at.begun == Resume(pc, r).at.begun
  {
  }

  lemma QuietEntersByReading(s: State, a: Action, s': State, t: Tid, goal: Goal, begun: nat)
    requires Quiet(s, a, s') && Actor(a) == Some(t) && InLoop(s', t, goal, begun) && !InLoop(s, t, goal, begun)
    ensures a == ReadClock(t) && AtStart(s, t, goal) && s.w.clock == begun
  {
  }

  lemma EntersByReading(s: State, a: Action, s': State, t: Tid, goal: Goal, begun: nat)
    requires Valid(s.w.tab) && Next(s, a, s') && InLoop(s', t, goal, begun) && !InLoop(s, t, goal, begun)
    ensures a == ReadClock(t) && AtStart(s, t, goal) && s.w.clock == begun
  {
    if Actor(a) != Some(t) {
      OthersStay(s, a, s', t);
    } else if a.Answer? {
      AnswersEnterNoLoop(s.threads[t].pc, a.ret);
    } else {
      OthersAreQuiet(s, a, s');
      QuietEntersByReading(s, a, s', t, goal, begun);
    }
  }

  lemma {:induction false} LoopIsEntered(ss: seq<State>, acts: seq<Action>, i: nat, t: Tid, goal: Goal, begun: nat)
    returns (b: nat)
    requires Run(ss, acts) && i < |ss| && InLoop(ss[i], t, goal, begun)
    ensures LoopsSince(ss, acts, t, goal, begun, b, i)
    decreases i
  {
    if i > 0 && InLoop(ss[i - 1], t, goal, begun) {
      b := LoopIsEntered(ss, acts, i - 1, t, goal, begun);
    } else if i > 0 {
      assert Goes(ss, acts, i - 1);
      EntersByReading(ss[i - 1], acts[i - 1], ss[i], t, goal, begun);
      b := i;
    }
  }

  lemma {:induction false} ClockNeverGoesBack(ss: seq<State>, acts: seq<Action>, i: nat, j: nat)
    requires Run(ss, acts) && i <= j < |ss|
    ensures ss[i].w.clock <= ss[j].w.clock
    decreases j
  {
    if i < j {
      ClockNeverGoesBack(ss, acts, i, j - 1);
      assert Goes(ss, acts, j - 1);
      ClockGoesOn(ss[j - 1], acts[j - 1], ss[j]);
    }
  }

  /** The last of the actions `b` to `i` that answered a `poll` of thread `t`. */
  function LastPoll(ss: seq<State>, acts: seq<Action>, t: Tid, b: nat, i: nat): (m: Option<nat>)
    requires b <= i <= |acts| < |ss|
    ensures m.Some? ==> b <= m.value < i && IsPollBy(ss[m.value], acts[m.value], t)
    decreases i
  {
    if i == b then None
    else if IsPollBy(ss[i - 1], acts[i - 1], t) then Some(i - 1)
    else LastPoll(ss, acts, t, b, i - 1)
  }

  /** The clock when that poll was answered, or when the loop began. */
  function LastAnswer(ss: seq<State>, acts: seq<Action>, t: Tid, begun: nat, b: nat, i: nat): nat
    requires b <= i <= |acts| < |ss|
  {
    match LastPoll(ss, acts, t, b, i)
    case None => begun
    case Some(m) => ss[m + 1].w.clock
  }

  /** When the poll that thread `t` calls in state `s` is due to have returned. */
  function DueFrom(s: State, t: Tid): int {
    if t in s.threads && s.threads[t].pc.ConnectingTimed? && s.threads[t].pc.at.Polling?
    then s.w.clock + s.threads[t].pc.at.ms * NANOS_PER_MILLI
    else s.w.clock
  }

  /** Clock `exit` is less than a millisecond past the deadline of a loop that began at `begun`, but for the wait before
      the poll that action `m` answers, since the answer before, and for what that poll was late by then. */
  predicate OnTimeAfter(ss: seq<State>, acts: seq<Action>, t: Tid, limit: nat, begun: nat, b: nat, m: nat, exit: nat)
    requires b <= m < |acts| < |ss|
  {
    exit < begun + limit + NANOS_PER_MILLI + (ss[m].w.clock - LastAnswer(ss, acts, t, begun, b, m))
      + Max(0, exit - DueFrom(ss[m], t))
  }

  /** The reading behind a poll comes after the answer of the poll before. */
  lemma ReadingFollowsAnswer(ss: seq<State>, acts: seq<Action>, t: Tid, goal: Goal, begun: nat, b: nat, m: nat, k: nat)
    requires Run(ss, acts) && m < |acts| && LoopsSince(ss, acts, t, goal, begun, b, m) && LastRead(acts, t, k, m)
    ensures LastAnswer(ss, acts, t, begun, b, m) <= ss[k].w.clock
  {
    assert k >= b - 1 by {
      assert Actor(acts[b - 1]) == Some(t);
    }
    var last := LastPoll(ss, acts, t, b, m);
    if last.Some? {
      assert Actor(acts[last.value]) == Some(t);
      ClockNeverGoesBack(ss, acts, last.value + 1, k);
    } else {
      ClockNeverGoesBack(ss, acts, b - 1, k);
    }
  }

  lemma BoundFromReading(limit: nat, begun: nat, elapsed: nat, ms: int, answered: int, called: int, exit: nat)
    requires elapsed + ms * NANOS_PER_MILLI < limit + NANOS_PER_MILLI && answered <= begun + elapsed
    ensures exit < begun + limit + NANOS_PER_MILLI + (called - answered)
                     + Max(0, exit - (called + ms * NANOS_PER_MILLI))
  {
  }

  lemma PollIsOnTime(ss: seq<State>, acts: seq<Action>, t: Tid, goal: Goal, begun: nat, b: nat, m: nat, exit: nat)
    requires Run(ss, acts) && m < |acts| && LoopsSince(ss, acts, t, goal, begun, b, m)
    requires IsPollBy(ss[m], acts[m], t)
    ensures OnTimeAfter(ss, acts, t, Nanos(goal.timeout), begun, b, m, exit)
  {
    var k := PollsAreOfLastReading(ss, acts, m, t);
    PollsAreOfTimelyReadings(ss, acts, m, t);
    ReadingFollowsAnswer(ss, acts, t, goal, begun, b, m, k);
    assert InLoop(ss[m], t, goal, begun);
    var at := ss[m].threads[t].pc.at;
    BoundFromReading(Nanos(goal.timeout), begun, at.elapsed, at.ms, LastAnswer(ss, acts, t, begun, b, m),
                     ss[m].w.clock, exit);
  }

  /** How the loop is left by action `j`: without a poll only when the deadline had passed, and otherwise on time after
      the last poll. */
  predicate LeavesOnTime(ss: seq<State>, acts: seq<Action>, t: Tid, limit: nat, begun: nat, b: nat, j: nat)
    requires b <= j < |acts| < |ss|
  {
    match LastPoll(ss, acts, t, b, j + 1)
    case None => acts[j] == ReadClock(t) && begun + limit <= ss[j].w.clock
    case Some(m) => OnTimeAfter(ss, acts, t, limit, begun, b, m, ss[j + 1].w.clock)
  }

  lemma LeavingByReading(s: State, s': State, t: Tid, goal: Goal, begun: nat)
    requires ReadsClock(s, t, s') && InLoop(s, t, goal, begun) && !InLoop(s', t, goal, begun)
    requires Timed(s.threads[t].pc, s.w.clock)
    ensures begun + Nanos(goal.timeout) <= s.w.clock
  {
  }

  /** What leaves the loop: the answer of a `poll`, or a reading of the clock past the deadline. */
  lemma LeavesByPollOrReading(ss: seq<State>, acts: seq<Action>, j: nat, t: Tid, goal: Goal, begun: nat)
    requires Run(ss, acts) && j < |acts| && InLoop(ss[j], t, goal, begun) && !InLoop(ss[j + 1], t, goal, begun)
    ensures IsPollBy(ss[j], acts[j], t) ||
      (acts[j] == ReadClock(t) && begun + Nanos(goal.timeout) <= ss[j].w.clock)
  {
    var s, a, s' := ss[j], acts[j], ss[j + 1];
    RunKeepsTimed(ss, acts, j);
    assert Goes(ss, acts, j);
    if Actor(a) != Some(t) {
      OthersStay(s, a, s', t);
    } else if !a.Answer? {
      OthersAreQuiet(s, a, s');
      InLoopOnlyReadsClock(s, a, s', t, goal, begun);
      LeavingByReading(s, s', t, goal, begun);
    }
  }

  /** However the threads are delayed: a loop is left less than a millisecond after its deadline, but for the wait of
      its last poll for its call, since the answer before or the beginning, and for what that poll was late. */
  lemma LoopsLeaveOnTime(ss: seq<State>, acts: seq<Action>, j: nat, t: Tid, goal: Goal, begun: nat)
    requires Run(ss, acts) && j < |acts| && InLoop(ss[j], t, goal, begun) && !InLoop(ss[j + 1], t, goal, begun)
    ensures exists b: nat ::
      LoopsSince(ss, acts, t, goal, begun, b, j) && LeavesOnTime(ss, acts, t, Nanos(goal.timeout), begun, b, j)
  {
    var b := LoopIsEntered(ss, acts, j, t, goal, begun);
    LeavesByPollOrReading(ss, acts, j, t, goal, begun);
    var last := LastPoll(ss, acts, t, b, j + 1);
    if last.Some? {
      LoopsUpTo(ss, acts, t, goal, begun, b, last.value, j);
      PollIsOnTime(ss, acts, t, goal, begun, b, last.value, ss[j + 1].w.clock);
    }
    assert LeavesOnTime(ss, acts, t, Nanos(goal.timeout), begun, b, j);
  }

  lemma LoopsUpTo(ss: seq<State>, acts: seq<Action>, t: Tid, goal: Goal, begun: nat, b: nat, m: nat, j: nat)
    requires b <= m <= j <= |acts| < |ss| && LoopsSince(ss, acts, t, goal, begun, b, j)
    ensures LoopsSince(ss, acts, t, goal, begun, b, m)
  {
  }
}
