/** Every run of the deadline loop that module Deadline allows is the loop's run on some run of the kernel, so the
    bounds attained there are attained by `connect_timeout`. */
module Realized {
  import opened Base
  import opened Durations
  import opened Deadline
  import opened Kernel
  import opened Processes
  import opened UnixConnect
  import opened ConnectAnswers

  /** An answer of `poll` that the loop reads as `a`; a hang-up comes with an error, any other event does as well. */
  function RetFor(a: Answer): Ret {
    match a
    case Interrupted => Ret.Failed(EINTR)
    case Failed(e) => Ret.Failed(e)
    case Expired => Returned(0, Nothing)
    case Ready(hangup) => Returned(1, Events(true, true, hangup, false))
  }

  /** What that answer leaves of world `w`, in which the call was made. */
  function WorldFor(w: World, fd: Fd, addr: BtAddr, t: Turn): World {
    match t.answer
    case Interrupted => if w.signals > 0 then w.(signals := w.signals - 1) else w
    case Expired => if t.ms >= 0 then w.(clock := w.clock + t.ms * NANOS_PER_MILLI) else w
    case Ready(true) => WithState(w, fd, Broken(addr))
    case _ => w
  }

  /** The poll of turn `t`, made in world `w` as soon as the clock was read. */
  function PollFor(w: World, fd: Fd, addr: BtAddr, begun: nat, t: Turn): Event {
    var before := w.(clock := begun + t.elapsed);
    Event(Poll(fd, t.ms), RetFor(t.answer), before, WorldFor(before, fd, addr, t))
  }

  /** The world after the polls of `h`, which start from world `w`, and the polls. */
  function WorldAfter(w: World, fd: Fd, addr: BtAddr, begun: nat, h: Turns): World {
    match h
    case Start => w
    case Then(earlier, t) => PollFor(WorldAfter(w, fd, addr, begun, earlier), fd, addr, begun, t).after
  }

  function PollsFor(w: World, fd: Fd, addr: BtAddr, begun: nat, h: Turns): Polls {
    match h
    case Start => NoPoll
    case Then(earlier, t) =>
      More(PollsFor(w, fd, addr, begun, earlier), PollFor(WorldAfter(w, fd, addr, begun, earlier), fd, addr, begun, t))
  }

  /** EINTR is an interruption, not a failure. */
  predicate Answerable(h: Turns) {
    h.Then? ==> h.turn.answer != Answer.Failed(EINTR) && Answerable(h.earlier)
  }

  lemma PollIsExplained(w: World, fd: Fd, addr: BtAddr, begun: nat, t: Turn)
    requires InState(w, fd, SocketState.Connecting(addr)) && t.ms >= 0 && t.answer != Answer.Failed(EINTR)
    requires t.answer.Interrupted? ==> w.signals > 0
    ensures var e := PollFor(w, fd, addr, begun, t);
      && Explained(e)
      && Valid(e.after.tab) && fd in e.after.tab.fds
      && AnswerOf(e.ret) == t.answer
      && (!Terminal(t.answer) ==> InState(e.after, fd, SocketState.Connecting(addr)))
  {
    var f := FileOf(w.tab, fd);
    assert w.tab.files[w.tab.fds[fd].file := f] == w.tab.files;
    UpdateIsValid(w.tab, fd, f.(state := Broken(addr)));
  }

  /** The polls of `h` were made after the calls `log`, and left world `w1` by elapsed time `exit`. */
  ghost predicate Happened(log: seq<Event>, w: World, fd: Fd, addr: BtAddr, begun: nat, h: Turns, exit: nat) {
    var w1 := WorldAfter(w, fd, addr, begun, h);
    && KernelRunTo(log + PollsFor(w, fd, addr, begun, h).Calls(), w1)
    && LogsTurns(fd, begun, h, PollsFor(w, fd, addr, begun, h))
    && w1.signals + Interruptions(h) == w.signals
    && w1.clock <= begun + exit
    && Valid(w1.tab) && fd in w1.tab.fds
    && (!Answered(h) ==> InState(w1, fd, SocketState.Connecting(addr)))
  }

  lemma StartHappened(log: seq<Event>, w: World, fd: Fd, addr: BtAddr, exit: nat)
    requires KernelRunTo(log, w) && InState(w, fd, SocketState.Connecting(addr))
    ensures Happened(log, w, fd, addr, w.clock, Start, exit)
  {
    assert log + NoPoll.Calls() == log;
  }

  lemma OneMorePoll(log: seq<Event>, polls: Polls, e: Event)
    ensures log + More(polls, e).Calls() == log + polls.Calls() + [e]
  {
  }

  lemma TurnHappened(log: seq<Event>, w: World, fd: Fd, addr: BtAddr, begun: nat, h: Turns, t: Turn, limit: nat,
                     exit: nat)
    requires Happened(log, w, fd, addr, begun, h, t.elapsed) && !Answered(h)
    requires Fits(limit, t, exit) && t.answer != Answer.Failed(EINTR)
    requires Interruptions(Then(h, t)) <= w.signals
    ensures Happened(log, w, fd, addr, begun, Then(h, t), exit)
  {
    var w1, polls := WorldAfter(w, fd, addr, begun, h), PollsFor(w, fd, addr, begun, h);
    var e := PollFor(w1, fd, addr, begun, t);
    PollIsExplained(w1, fd, addr, begun, t);
    KernelRunExtended(log + polls.Calls(), w1, e);
    OneMorePoll(log, polls, e);
  }

  lemma {:induction false} LegalHappens(log: seq<Event>, w: World, fd: Fd, addr: BtAddr, limit: nat, h: Turns,
                                       exit: nat)
    requires KernelRunTo(log, w) && InState(w, fd, SocketState.Connecting(addr))
    requires Legal(limit, h, exit) && Answerable(h) && Interruptions(h) <= w.signals
    ensures Happened(log, w, fd, addr, w.clock, h, exit)
  {
    match h
    case Start => StartHappened(log, w, fd, addr, exit);
    case Then(earlier, t) =>
      LegalHappens(log, w, fd, addr, limit, earlier, t.elapsed);
      TurnHappened(log, w, fd, addr, w.clock, earlier, t, limit, exit);
  }

  // ---------------------------------------------------------------- The whole timed connect

  /** From world `w`, a timed connect in progress goes through the turns `h` and leaves its loop at elapsed time
      `exit`. */
  ghost predicate Realizes(w: World, fd: Fd, addr: BtAddr, timeout: Duration, h: Turns, exit: nat, ev: Evidence) {
    && Plausible(fd, addr, timeout, ev)
    && KernelRun(CallsOf(ev))
    && ev.Tried? && ev.enter.before == w
    && Waits(timeout, ev)
    && ev.run.turns == h && ev.run.exit == exit
  }

  /** The last poll, if any, was prompt. */
  predicate EndsPromptly(run: Run) {
    run.turns.Then? && run.polls.More? ==> Prompt(run.begun, run.turns.turn, run.polls.last)
  }

  /** The poll was made as soon as the clock was read and, if it expired, no later than it should. */
  predicate Prompt(begun: nat, t: Turn, e: Event) {
    && e.before.clock == begun + t.elapsed
    && (t.answer.Expired? ==> e.after.clock == e.before.clock + t.ms * NANOS_PER_MILLI)
  }

  /** The look at SO_ERROR after a hang-up, which may fail like any call. */
  lemma AskMayFail(log: seq<Event>, w: World, fd: Fd) returns (asked: Event)
    requires KernelRunTo(log, w) && Valid(w.tab)
    ensures asked.call == GetError(fd) && KernelRunTo(log + [asked], w)
  {
    asked := Event(GetError(fd), Ret.Failed(EINVAL), w, w);
    KernelRunExtended(log, w, asked);
  }

  lemma AttemptIsRun(enter: Event, connect: Event, leave: Event)
    requires Explained(enter) && Explained(connect) && Explained(leave)
    requires Continues(enter, connect) && Continues(connect, leave)
    ensures KernelRunTo([enter, connect, leave], leave.after)
  {
    ThreeCallsRun(enter, connect, leave);
  }

  /** The attempt and the loop's run, put together. */
  lemma Assembled(w: World, fd: Fd, addr: BtAddr, timeout: Duration, enter: Event, connect: Event, leave: Event,
                  run: Run)
    requires Is(enter, SetNonblocking(fd, true), Returned(0, Nothing)) && enter.before == w
    requires Is(connect, Connect(fd, addr), Ret.Failed(EINPROGRESS))
    requires Is(leave, SetNonblocking(fd, false), Returned(0, Nothing))
    requires !IsZero(timeout) && Follows(fd, Nanos(timeout), run) && Complete(Nanos(timeout), run.turns, run.exit)
    requires KernelRun([enter, connect, leave] + run.Calls())
    ensures Realizes(w, fd, addr, timeout, run.turns, run.exit, Tried(enter, connect, leave, run))
  {
  }

  lemma ThenAsked(log: seq<Event>, calls: seq<Event>, e: Event)
    ensures log + (calls + [e]) == log + calls + [e]
  {
  }

  /** The loop's run through the turns `h`, after the calls `log`. */
  lemma RunOfTurns(log: seq<Event>, w: World, fd: Fd, addr: BtAddr, limit: nat, h: Turns, exit: nat) returns (run: Run)
    requires KernelRunTo(log, w) && InState(w, fd, SocketState.Connecting(addr))
    requires Legal(limit, h, exit) && Answerable(h) && Interruptions(h) <= w.signals
    ensures run.turns == h && run.exit == exit && Follows(fd, limit, run) && KernelRun(log + run.Calls())
    ensures EndsPromptly(run)
  {
    LegalHappens(log, w, fd, addr, limit, h, exit);
    var polls := PollsFor(w, fd, addr, w.clock, h);
    var asked := None;
    if HangsUp(h) {
      var e := AskMayFail(log + polls.Calls(), WorldAfter(w, fd, addr, w.clock, h), fd);
      asked := Some(e);
      ThenAsked(log, polls.Calls(), e);
    }
    run := Run(w.clock, h, polls, asked, exit);
  }

  /** Every legal and complete run of the loop, for any timeout but zero and from any world with the interruptions it
      needs, is the loop's run on some run of the kernel. */
  lemma LegalRunsHappen(w: World, fd: Fd, addr: BtAddr, timeout: Duration, h: Turns, exit: nat)
    requires Valid(w.tab) && fd in w.tab.fds && !IsZero(timeout)
    requires Legal(Nanos(timeout), h, exit) && Complete(Nanos(timeout), h, exit)
    requires Answerable(h) && Interruptions(h) <= w.signals
    ensures exists ev :: Realizes(w, fd, addr, timeout, h, exit, ev) && EndsPromptly(ev.run)
  {
    var enter, connect, leave := AttemptInProgress(w, fd, addr);
    AttemptIsRun(enter, connect, leave);
    var run := RunOfTurns([enter, connect, leave], leave.after, fd, addr, Nanos(timeout), h, exit);
    Assembled(w, fd, addr, timeout, enter, connect, leave, run);
  }

  lemma AllExpireIsAnswerable(h: Turns)
    requires AllExpire(h)
    ensures Answerable(h)
  {
  }

  /** From world `w` a timed connect polls `polls` times, without an interruption, and leaves its loop at `exit`. */
  ghost predicate PollsUntil(w: World, fd: Fd, addr: BtAddr, timeout: Duration, polls: nat, exit: nat) {
    exists h, ev ::
      Realizes(w, fd, addr, timeout, h, exit, ev) && EndsPromptly(ev.run) && Count(h) == polls && Interruptions(h) == 0
  }

  /** `WorstPolls` is attained by the kernel: from any world some timed connect polls that often. */
  lemma WorstPollsHappens(w: World, fd: Fd, addr: BtAddr, timeout: Duration)
    requires Valid(w.tab) && fd in w.tab.fds && !IsZero(timeout)
    ensures exists exit :: PollsUntil(w, fd, addr, timeout, WorstPolls(Nanos(timeout)), exit)
  {
    var limit := Nanos(timeout);
    WorstPollsIsAttained(limit);
    var h, exit :| SpotlessRun(limit, h, exit) && Count(h) == WorstPolls(limit);
    AllExpireIsUninterrupted(h);
    AllExpireIsAnswerable(h);
    LegalRunsHappen(w, fd, addr, timeout, h, exit);
    assert PollsUntil(w, fd, addr, timeout, WorstPolls(limit), exit);
  }

  /** So is the overshoot: from any world some timed connect, whose polls are made when the clock is read and are not
      late, leaves its loop one nanosecond short of a millisecond after the deadline. */
  lemma OvershootHappens(w: World, fd: Fd, addr: BtAddr, timeout: Duration)
    requires Valid(w.tab) && fd in w.tab.fds && !IsZero(timeout)
    ensures PollsUntil(w, fd, addr, timeout, 1, Nanos(timeout) + NANOS_PER_MILLI - 1)
  {
    var limit := Nanos(timeout);
    var h := Then(Start, Turn(limit - 1, 1, Expired));
    assert Count(Start) == 0 && Interruptions(Start) == 0;
    assert Legal(limit, h, limit + NANOS_PER_MILLI - 1);
    LegalRunsHappen(w, fd, addr, timeout, h, limit + NANOS_PER_MILLI - 1);
  }

  /** A thread may be held up between reading the clock and its `poll`; the loop makes up for none of it.  For every
      delay, some timed connect, whose poll comes that late after its reading and is itself punctual, exceeds even the
      overshoot of `OvershootHappens` by the whole delay. */
  lemma DelayAddsToOvershoot(w: World, fd: Fd, addr: BtAddr, timeout: Duration, delay: nat)
    requires Valid(w.tab) && fd in w.tab.fds && !IsZero(timeout)
    ensures exists ev :: OvershootsBy(w, fd, addr, timeout, delay, ev)
  {
    var poll, ev := LateConnect(w, fd, addr, timeout, delay);
    LateRunOvershoots(w, fd, addr, timeout, delay, poll, ev);
  }

  /** The run `run` has one poll, `poll`, made `delay` after the last possible reading of the clock. */
  predicate IsLate(limit: nat, delay: nat, poll: Event, run: Run) {
    && limit > 0
    && run.polls == More(NoPoll, poll)
    && run.turns == Then(Start, Turn(limit - 1, 1, Expired))
    && poll.before.clock == run.begun + limit - 1 + delay
    && poll.after.clock == poll.before.clock + NANOS_PER_MILLI
    && run.exit == limit - 1 + delay + NANOS_PER_MILLI
  }

  lemma LateConnect(w: World, fd: Fd, addr: BtAddr, timeout: Duration, delay: nat) returns (poll: Event, ev: Evidence)
    requires Valid(w.tab) && fd in w.tab.fds && !IsZero(timeout)
    ensures ev.Tried? && Realizes(w, fd, addr, timeout, ev.run.turns, ev.run.exit, ev)
    ensures IsLate(Nanos(timeout), delay, poll, ev.run)
  {
    var enter, connect, leave := AttemptInProgress(w, fd, addr);
    var run;
    poll, run := LatePoll(leave.after, fd, Nanos(timeout), delay);
    LateCallsRun(enter, connect, leave, fd, poll);
    Assembled(w, fd, addr, timeout, enter, connect, leave, run);
    ev := Tried(enter, connect, leave, run);
  }

  lemma LateRunOvershoots(w: World, fd: Fd, addr: BtAddr, timeout: Duration, delay: nat, poll: Event, ev: Evidence)
    requires ev.Tried? && Realizes(w, fd, addr, timeout, ev.run.turns, ev.run.exit, ev)
    requires IsLate(Nanos(timeout), delay, poll, ev.run)
    ensures OvershootsBy(w, fd, addr, timeout, delay, ev)
  {
  }

  lemma LateCallsRun(enter: Event, connect: Event, leave: Event, fd: Fd, poll: Event)
    requires Explained(enter) && Explained(connect) && Explained(leave)
    requires Continues(enter, connect) && Continues(connect, leave) && Continues(leave, poll)
    requires Valid(leave.after.tab) && fd in leave.after.tab.fds
    requires poll == Event(Poll(fd, 1), Returned(0, Nothing), poll.before,
                           poll.before.(clock := poll.before.clock + NANOS_PER_MILLI))
    ensures KernelRun([enter, connect, leave] + [poll])
  {
    NothingHappens(poll.before, fd);
    PollAfterAttempt(enter, connect, leave, poll);
  }

  lemma PollAfterAttempt(enter: Event, connect: Event, leave: Event, poll: Event)
    requires Explained(enter) && Explained(connect) && Explained(leave) && Explained(poll)
    requires Continues(enter, connect) && Continues(connect, leave) && Continues(leave, poll)
    ensures KernelRun([enter, connect, leave] + [poll])
  {
    ThreeCallsRun(enter, connect, leave);
    OneMoreCall([enter, connect, leave], leave, poll);
  }

  /** One poll, `delay` after the last possible reading. */
  lemma LatePoll(w: World, fd: Fd, limit: nat, delay: nat) returns (poll: Event, run: Run)
    requires limit > 0
    ensures poll.before == w.(clock := w.clock + limit - 1 + delay)
    ensures poll == Event(Poll(fd, 1), Returned(0, Nothing), poll.before,
                          poll.before.(clock := poll.before.clock + NANOS_PER_MILLI))
    ensures Follows(fd, limit, run) && Complete(limit, run.turns, run.exit) && run.Calls() == [poll]
    ensures IsLate(limit, delay, poll, run)
  {
    var before := w.(clock := w.clock + limit - 1 + delay);
    poll := Event(Poll(fd, 1), Returned(0, Nothing), before, before.(clock := before.clock + NANOS_PER_MILLI));
    run := Run(w.clock, Then(Start, Turn(limit - 1, 1, Expired)), More(NoPoll, poll), None,
               limit - 1 + delay + NANOS_PER_MILLI);
    assert NoPoll.Calls() == [];
  }

  lemma NothingHappens(w: World, fd: Fd)
    requires Valid(w.tab) && fd in w.tab.fds
    ensures Explained(Event(Poll(fd, 1), Returned(0, Nothing), w, w.(clock := w.clock + NANOS_PER_MILLI)))
  {
    assert w.tab.files[w.tab.fds[fd].file := FileOf(w.tab, fd)] == w.tab.files;
  }

  /** A run of the kernel from `w` whose last poll came `delay` after its reading and took no longer than asked. */
  ghost predicate OvershootsBy(w: World, fd: Fd, addr: BtAddr, timeout: Duration, delay: nat, ev: Evidence) {
    && ev.Tried?
    && Realizes(w, fd, addr, timeout, ev.run.turns, ev.run.exit, ev)
    && ev.run.turns.Then? && ev.run.polls.More?
    && var last := ev.run.polls.last;
    && last.before.clock == ev.run.begun + ev.run.turns.turn.elapsed + delay
    && last.after.clock == last.before.clock + ev.run.turns.turn.ms * NANOS_PER_MILLI == ev.run.Now()
    && ev.run.exit == Nanos(timeout) + NANOS_PER_MILLI - 1 + delay
  }

  // ---------------------------------------------------------------- The worst prompt connect

  /** A timed connect that loses no time and is over one nanosecond short of a millisecond after its timeout. */
  ghost predicate OvershootsPromptly(w: World, fd: Fd, addr: BtAddr, timeout: Duration, ev: Evidence) {
    && ev.Tried?
    && Realizes(w, fd, addr, timeout, ev.run.turns, ev.run.exit, ev)
    && Timely(timeout, ev, ev.run.Now())
    && IsPrompt(ev, ev.run.Now())
    && ev.run.Now() == ev.leave.after.clock + Nanos(timeout) + NANOS_PER_MILLI - 1
  }

  /** The first poll is interrupted a nanosecond before the deadline, the second one waits a whole millisecond. */
  lemma InterruptedThenExpired(w: World, fd: Fd, limit: nat) returns (first: Event, second: Event, run: Run)
    requires Valid(w.tab) && fd in w.tab.fds && w.signals > 0 && limit > 0
    ensures Explained(first) && Explained(second) && Continues(first, second) && first.before == w
    ensures Follows(fd, limit, run) && Complete(limit, run.turns, run.exit) && run.Calls() == [first, second]
    ensures run.polls == More(More(NoPoll, first), second) && run.Now() == DueBy(second)
    ensures run.begun == w.clock && BackToBack(w.clock, run.polls) && run.Now() == w.clock + limit + NANOS_PER_MILLI - 1
  {
    var mid := w.(clock := w.clock + limit - 1, signals := w.signals - 1);
    first := Event(Poll(fd, Interval(limit)), Ret.Failed(EINTR), w, mid);
    second := Event(Poll(fd, 1), Returned(0, Nothing), mid, mid.(clock := mid.clock + NANOS_PER_MILLI));
    NothingHappens(mid, fd);
    var turns := Then(Then(Start, Turn(0, Interval(limit), Interrupted)), Turn(limit - 1, 1, Expired));
    run := Run(w.clock, turns, More(More(NoPoll, first), second), None, limit - 1 + NANOS_PER_MILLI);
    TwoPollsFollow(fd, limit, run, first, second);
  }

  lemma TwoPollsFollow(fd: Fd, limit: nat, run: Run, first: Event, second: Event)
    requires limit > 0 && Is(first, Poll(fd, Interval(limit)), Ret.Failed(EINTR))
    requires Is(second, Poll(fd, 1), Returned(0, Nothing)) && first.before.clock == run.begun
    requires first.after.clock == second.before.clock == run.begun + limit - 1
    requires second.after.clock == second.before.clock + NANOS_PER_MILLI
    requires run.turns == Then(Then(Start, Turn(0, Interval(limit), Interrupted)), Turn(limit - 1, 1, Expired))
    requires run.polls == More(More(NoPoll, first), second) && run.asked == None
    requires run.exit == limit - 1 + NANOS_PER_MILLI
    ensures Follows(fd, limit, run) && run.Calls() == [first, second]
  {
    assert NoPoll.Calls() == [] && More(NoPoll, first).Calls() == [first];
    assert Legal(limit, run.turns.earlier, limit - 1);
    assert LogsTurns(fd, run.begun, run.turns.earlier, run.polls.earlier);
  }

  lemma TwoMoreCalls(enter: Event, connect: Event, leave: Event, first: Event, second: Event)
    requires Explained(enter) && Explained(connect) && Explained(leave) && Explained(first) && Explained(second)
    requires Continues(enter, connect) && Continues(connect, leave) && Continues(leave, first)
    requires Continues(first, second)
    ensures KernelRun([enter, connect, leave] + [first, second])
  {
    ThreeCallsRun(enter, connect, leave);
    OneMoreCall([enter, connect, leave], leave, first);
    OneMoreCall([enter, connect, leave] + [first], first, second);
    assert [enter, connect, leave] + [first] + [second] == [enter, connect, leave] + [first, second];
  }

  /** The bound of `PromptConnectIsOnTime` is exact: from any world with a signal to come, and for any timeout but zero,
      a run of the kernel attains it. */
  lemma PromptOvershootHappens(w: World, fd: Fd, addr: BtAddr, timeout: Duration)
    requires Valid(w.tab) && fd in w.tab.fds && !IsZero(timeout) && w.signals > 0
    ensures exists ev :: OvershootsPromptly(w, fd, addr, timeout, ev)
  {
    var enter, connect, leave := AttemptInProgress(w, fd, addr);
    var first, second, run := InterruptedThenExpired(leave.after, fd, Nanos(timeout));
    TwoMoreCalls(enter, connect, leave, first, second);
    FollowingIsOnTime(fd, Nanos(timeout), run);
    Assembled(w, fd, addr, timeout, enter, connect, leave, run);
    var ev := Tried(enter, connect, leave, run);
    assert OvershootsPromptly(w, fd, addr, timeout, ev);
  }
}
