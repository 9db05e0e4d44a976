/** src/sys/unix/bt.rs: `connect_timeout`, a non-blocking connect followed by the deadline loop. */
module UnixConnect {
  import opened Base
  import opened Durations
  import opened Deadline
  import opened Kernel
  import opened Program
  import opened Processes
  import opened FileDescs
  import opened UnixSocket

  // ---------------------------------------------------------------- What the loop met

  /** How the loop reads an answer of `poll`. */
  function AnswerOf(r: Ret): Answer {
    match r
    case Failed(e) => if e == EINTR then Interrupted else Answer.Failed(e)
    case Returned(value, out) => if value == 0 then Expired else Ready(HungUp(out))
  }

  /** Event `e` is the `poll` of turn `t` of a loop that read the clock first at `begun`: the call was made with the
      turn's interval, at any time after the turn's elapsed time was read. */
  predicate IsTurn(fd: Fd, begun: nat, t: Turn, e: Event) {
    && e.call == Poll(fd, t.ms)
    && AnswerOf(e.ret) == t.answer
    && begun + t.elapsed <= e.before.clock
  }

  /** The polls of a loop so far, the last one outermost. */
  datatype Polls = NoPoll | More(earlier: Polls, last: Event)
  {
    function Calls(): seq<Event> {
      match this
      case NoPoll => []
      case More(earlier, e) => earlier.Calls() + [e]
    }
  }

  /** The clock when the last poll so far was answered, or when the loop began. */
  function AnsweredAt(begun: nat, polls: Polls): nat {
    match polls
    case NoPoll => begun
    case More(_, last) => last.after.clock
  }

  /** The polls are those of the turns, and the elapsed time of each turn was read after the poll of the turn before it
      was answered. */
  predicate LogsTurns(fd: Fd, begun: nat, turns: Turns, polls: Polls) {
    match turns
    case Start => polls.NoPoll?
    case Then(earlier, t) =>
      && polls.More?
      && IsTurn(fd, begun, t, polls.last)
      && AnsweredAt(begun, polls.earlier) <= begun + t.elapsed
      && LogsTurns(fd, begun, earlier, polls.earlier)
  }

  /** A run of the loop: the first reading of the clock, its turns, their polls, the look at SO_ERROR after a hang-up,
      and the time elapsed by now. */
  datatype Run = Run(begun: nat, turns: Turns, polls: Polls, asked: Option<Event>, exit: nat)
  {
    function Calls(): seq<Event> {
      if asked.Some? then polls.Calls() + [asked.value] else polls.Calls()
    }

    function Now(): nat {
      begun + exit
    }
  }

  const NO_RUN := Run(0, Start, NoPoll, None, 0)

  predicate HangsUp(turns: Turns) {
    turns.Then? && turns.turn.answer == Ready(true)
  }

  /** SO_ERROR is looked at exactly after a hang-up. */
  predicate AsksRightly(fd: Fd, turns: Turns, asked: Option<Event>) {
    match asked
    case None => !HangsUp(turns)
    case Some(e) => HangsUp(turns) && e.call == GetError(fd)
  }

  predicate Follows(fd: Fd, limit: nat, run: Run) {
    && Legal(limit, run.turns, run.exit)
    && LogsTurns(fd, run.begun, run.turns, run.polls)
    && AnsweredAt(run.begun, run.polls) <= run.Now()
    && AsksRightly(fd, run.turns, run.asked)
    && (run.asked.Some? ==> run.asked.value.after.clock <= run.Now())
  }

  /** A hang-up is never a success, whatever SO_ERROR says. */
  function HangUpVerdict(ret: Ret): Error {
    match ret
    case Failed(e) => Os(e)
    case Returned(_, out) => HangUpError(out)
  }

  /** What the loop returns on a deciding answer. */
  function AnswerVerdict(a: Answer, asked: Option<Event>): Result<()> {
    match a
    case Ready(hangup) =>
      if !hangup then Ok(()) else Err(if asked.Some? then HangUpVerdict(asked.value.ret) else Other)
    case Failed(e) => Err(Os(e))
    case _ => Err(TimedOut)
  }

  /** What the loop returns after its last turn. */
  function WaitVerdict(run: Run): Result<()> {
    if Answered(run.turns) then AnswerVerdict(run.turns.turn.answer, run.asked) else Err(TimedOut)
  }

  /** The last poll reported plain writability. */
  predicate EndsWritable(run: Run) {
    run.polls.More? && run.polls.last.ret.Returned? && PlainlyWritable(run.polls.last.ret.out)
  }

  // ---------------------------------------------------------------- What happens to the socket

  /** Only the mode, the connection state and the pending error of descriptor `fd` differ. */
  predicate ModeOrStateMoved(t: Tables, fd: Fd, t': Tables)
    requires Valid(t) && fd in t.fds
  {
    && Valid(t')
    && t'.fds == t.fds
    && var f' := FileOf(t', fd);
    t' == Update(t, fd, FileOf(t, fd).(nonblocking := f'.nonblocking, state := f'.state, error := f'.error))
  }

  /** A connection to `addr` was tried and its state may have moved on; the mode stays. */
  predicate Progresses(t: Tables, fd: Fd, addr: BtAddr, t': Tables)
    requires Valid(t) && fd in t.fds
  {
    && ModeOrStateMoved(t, fd, t')
    && FileOf(t', fd).nonblocking == FileOf(t, fd).nonblocking
    && Attempted(FileOf(t', fd).state, addr)
  }

  lemma ModeOrStateMovedTwice(t: Tables, fd: Fd, mid: Tables, t': Tables)
    requires Valid(t) && fd in t.fds && ModeOrStateMoved(t, fd, mid) && ModeOrStateMoved(mid, fd, t')
    ensures ModeOrStateMoved(t, fd, t')
  {
    var id := t.fds[fd].file;
    assert t.files[id := t'.files[id]] == t'.files;
  }

  lemma ProgressesTwice(t: Tables, fd: Fd, addr: BtAddr, mid: Tables, t': Tables)
    requires Valid(t) && fd in t.fds && Progresses(t, fd, addr, mid) && Progresses(mid, fd, addr, t')
    ensures Progresses(t, fd, addr, t')
  {
    ModeOrStateMovedTwice(t, fd, mid, t');
  }

  lemma ProgressesAtOnce(t: Tables, fd: Fd, addr: BtAddr)
    requires Valid(t) && fd in t.fds && Attempted(FileOf(t, fd).state, addr)
    ensures Progresses(t, fd, addr, t)
  {
    assert t.files[t.fds[fd].file := FileOf(t, fd)] == t.files;
  }

  lemma LookingProgresses(t: Tables, fd: Fd, addr: BtAddr, t': Tables)
    requires Valid(t) && Looked(t, fd, t') && Attempted(FileOf(t, fd).state, addr)
    ensures Progresses(t, fd, addr, t')
  {
    SharersUnmoved(t, t');
  }

  // ---------------------------------------------------------------- The loop

  /** Where a timed connect stands once it has decided. */
  function Decided(fd: Fd, goal: Goal, r: Result<()>, proven: bool): Pc {
    match r
    case Ok(_) => Done(Ok(Made(fd, None)), Some(Timed(goal, proven)))
    case Err(e) => Discarding(fd, e, New(goal))
  }

  /** A poll that reported plain writability of a socket whose connection was tried found it connected. */
  predicate Reported(t: Tables, fd: Fd, addr: BtAddr, ret: Ret)
    requires Valid(t) && fd in t.fds
  {
    ret.Returned? && ret.value != 0 && PlainlyWritable(ret.out) ==> FileOf(t, fd).state == Connected(addr)
  }

  lemma PollReturned(t: Tables, fd: Fd, addr: BtAddr, ms: int, value: int, out: Out, t': Tables)
    requires Valid(t) && Success(t, Poll(fd, ms), value, out, t') && Attempted(FileOf(t, fd).state, addr)
    ensures Progresses(t, fd, addr, t') && Reported(t', fd, addr, Returned(value, out))
  {
    LookingProgresses(t, fd, addr, t');
  }

  lemma PollProgresses(t: Tables, fd: Fd, addr: BtAddr, ms: int, ret: Ret, t': Tables)
    requires Valid(t) && fd in t.fds && Effect(t, Poll(fd, ms), ret, t') && Attempted(FileOf(t, fd).state, addr)
    ensures Progresses(t, fd, addr, t') && Reported(t', fd, addr, ret)
  {
    if ret.Returned? {
      PollReturned(t, fd, addr, ms, ret.value, ret.out, t');
    } else {
      ProgressesAtOnce(t, fd, addr);
    }
  }

  /** One call of `poll` on the socket. */
  method PollSocket(p: Process, d: FileDesc, ms: int, ghost goal: Goal, ghost begun: nat, ghost elapsed: nat)
    returns (ret: Ret, ghost e: Event)
    requires Valid(p.w.tab) && d.fd in p.w.tab.fds && Attempted(FileOf(p.w.tab, d.fd).state, goal.addr)
    requires p.pc == ConnectingTimed(d.fd, goal, Polling(begun, elapsed, ms))
    modifies p`w, p`pc, p`log
    ensures Progresses(old(p.w.tab), d.fd, goal.addr, p.w.tab)
    ensures Reported(p.w.tab, d.fd, goal.addr, ret)
    ensures p.pc == TimedAfter(d.fd, goal, Polling(begun, elapsed, ms), ret)
    ensures Called(old(p.w), e, Poll(d.fd, ms), ret, p.w) && p.log == old(p.log) + [e]
    ensures old(p.w.clock) <= p.w.clock
    ensures AnswerOf(ret).Expired? ==> old(p.w.clock) + ms * NANOS_PER_MILLI <= p.w.clock
    ensures p.w.signals + (if AnswerOf(ret).Interrupted? then 1 else 0) == old(p.w.signals)
    ensures KernelRunTo(old(p.log), old(p.w)) ==> KernelRunTo(p.log, p.w)
  {
    ret := p.Syscall(Poll(d.fd, ms));
    e := p.log[|old(p.log)|];
    PollProgresses(old(p.w.tab), d.fd, goal.addr, ms, ret, p.w.tab);
  }

  /** The error to report after a hang-up. */
  method HangUpReason(p: Process, d: FileDesc, ghost goal: Goal) returns (error: Error, ghost e: Event)
    requires Valid(p.w.tab) && d.fd in p.w.tab.fds && Attempted(FileOf(p.w.tab, d.fd).state, goal.addr)
    requires p.pc == ConnectingTimed(d.fd, goal, AskingError)
    modifies p`w, p`pc, p`log
    ensures Progresses(old(p.w.tab), d.fd, goal.addr, p.w.tab)
    ensures error == HangUpVerdict(e.ret) && p.pc == Discarding(d.fd, error, New(goal))
    ensures Called(old(p.w), e, GetError(d.fd), e.ret, p.w) && p.log == old(p.log) + [e]
    ensures old(p.w.clock) <= p.w.clock && p.w.signals <= old(p.w.signals)
    ensures KernelRunTo(old(p.log), old(p.w)) ==> KernelRunTo(p.log, p.w)
  {
    var pending;
    pending, e := TakeError(p, d);
    match pending
    case Err(n) =>
      ProgressesAtOnce(old(p.w.tab), d.fd, goal.addr);
      error := n;
    case Ok(taken) =>
      TakingProgresses(old(p.w.tab), d.fd, goal.addr, taken, p.w.tab);
      match taken
      case Some(n) => error := n;
      case None => error := Other;
  }

  lemma TakingProgresses(t: Tables, fd: Fd, addr: BtAddr, error: Option<Error>, t': Tables)
    requires Valid(t) && fd in t.fds && ErrorTaken(t, fd, error, t') && Attempted(FileOf(t, fd).state, addr)
    ensures Progresses(t, fd, addr, t')
  {
    SharersUnmoved(t, t');
  }

  /** What `poll`, answering `ret`, means for the clock and for the signals. */
  predicate PollClocked(before: World, w: World, ms: int, ret: Ret) {
    && before.clock <= w.clock
    && (AnswerOf(ret).Expired? ==> before.clock + ms * NANOS_PER_MILLI <= w.clock)
    && w.signals + (if AnswerOf(ret).Interrupted? then 1 else 0) <= before.signals
  }

  /** SO_ERROR is looked at exactly after a hang-up. */
  predicate AsksAfter(fd: Fd, ret: Ret, asked: Option<Event>) {
    && (asked.Some? <==> AnswerOf(ret) == Ready(true))
    && (asked.Some? ==> asked.value.call == GetError(fd))
  }

  /** What the loop returns, if anything, once `poll` has answered `ret`. */
  function VerdictOn(ret: Ret, asked: Option<Event>): Option<Result<()>> {
    if Terminal(AnswerOf(ret)) then Some(AnswerVerdict(AnswerOf(ret), asked)) else None
  }

  predicate IsWritable(ret: Ret) {
    ret.Returned? && PlainlyWritable(ret.out)
  }

  /** What `poll`, answering `ret`, and the look at SO_ERROR mean for the clock, for where the thread stands and for
      the connection. */
  predicate Settled(before: World, w: World, pc: Pc, fd: Fd, goal: Goal, begun: nat, ms: int, ret: Ret,
                    asked: Option<Event>, verdict: Option<Result<()>>)
    requires Valid(w.tab) && fd in w.tab.fds
  {
    && PollClocked(before, w, ms, ret)
    && AsksAfter(fd, ret, asked)
    && verdict == VerdictOn(ret, asked)
    && (match verdict
        case None => pc == ConnectingTimed(fd, goal, Checking(begun))
        case Some(r) => pc == Decided(fd, goal, r, IsWritable(ret)))
    && (verdict == Some(Ok(())) && IsWritable(ret) ==> FileOf(w.tab, fd).state == Connected(goal.addr))
  }

  lemma PolledIsSettled(before: World, w: World, fd: Fd, goal: Goal, begun: nat, elapsed: nat, ms: int, ret: Ret)
    requires Valid(w.tab) && fd in w.tab.fds && PollClocked(before, w, ms, ret) && AnswerOf(ret) != Ready(true)
    requires Reported(w.tab, fd, goal.addr, ret)
    ensures var pc := TimedAfter(fd, goal, Polling(begun, elapsed, ms), ret);
      Settled(before, w, pc, fd, goal, begun, ms, ret, None, VerdictOn(ret, None))
  {
  }

  lemma AskedIsSettled(before: World, mid: World, w: World, fd: Fd, goal: Goal, begun: nat, ms: int, ret: Ret,
                       look: Event)
    requires Valid(w.tab) && fd in w.tab.fds && PollClocked(before, mid, ms, ret) && AnswerOf(ret) == Ready(true)
    requires mid.clock <= w.clock && w.signals <= mid.signals && look.call == GetError(fd)
    ensures var error := HangUpVerdict(look.ret);
      Settled(before, w, Discarding(fd, error, New(goal)), fd, goal, begun, ms, ret, Some(look), Some(Err(error)))
  {
  }

  /** The look at SO_ERROR that a hang-up calls for, after a `poll` made at `before`. */
  method AskAfterHangUp(p: Process, d: FileDesc, ghost goal: Goal, ghost begun: nat, ghost before: World, ghost ms: int,
                        ghost ret: Ret)
    returns (error: Error, ghost look: Event)
    requires Valid(before.tab) && d.fd in before.tab.fds && Progresses(before.tab, d.fd, goal.addr, p.w.tab)
    requires PollClocked(before, p.w, ms, ret) && AnswerOf(ret) == Ready(true)
    requires p.pc == ConnectingTimed(d.fd, goal, AskingError)
    modifies p`w, p`pc, p`log
    ensures Progresses(before.tab, d.fd, goal.addr, p.w.tab)
    ensures p.log == old(p.log) + [look] && look.after == p.w && old(p.w.clock) <= p.w.clock
    ensures Settled(before, p.w, p.pc, d.fd, goal, begun, ms, ret, Some(look), Some(Err(error)))
    ensures KernelRunTo(old(p.log), old(p.w)) ==> KernelRunTo(p.log, p.w)
  {
    error, look := HangUpReason(p, d, goal);
    ProgressesTwice(before.tab, d.fd, goal.addr, old(p.w.tab), p.w.tab);
    AskedIsSettled(before, old(p.w), p.w, d.fd, goal, begun, ms, ret, look);
  }

  /** The poll of a turn was made at `w0` or later, and its calls were answered by `now`. */
  predicate MadeBetween(w0: World, e: Event, asked: Option<Event>, now: nat) {
    && w0.clock <= e.before.clock
    && e.after.clock <= now
    && (asked.Some? ==> asked.value.after.clock <= now)
  }

  /** The calls of one turn of the loop. */
  function CallsOfTurn(e: Event, asked: Option<Event>): seq<Event> {
    if asked.Some? then [e, asked.value] else [e]
  }

  lemma PollThenAsk(log: seq<Event>, e: Event, look: Event)
    ensures log + [e] + [look] == log + CallsOfTurn(e, Some(look))
  {
  }

  /** The body of the loop from `poll` on. */
  method PollAndSettle(p: Process, d: FileDesc, ms: int, ghost goal: Goal, ghost begun: nat, ghost elapsed: nat)
    returns (verdict: Option<Result<()>>, ghost e: Event, ghost asked: Option<Event>)
    requires Valid(p.w.tab) && d.fd in p.w.tab.fds && Attempted(FileOf(p.w.tab, d.fd).state, goal.addr)
    requires p.pc == ConnectingTimed(d.fd, goal, Polling(begun, elapsed, ms))
    modifies p`w, p`pc, p`log
    ensures Progresses(old(p.w.tab), d.fd, goal.addr, p.w.tab)
    ensures e.call == Poll(d.fd, ms) && MadeBetween(old(p.w), e, asked, p.w.clock)
    ensures p.log == old(p.log) + CallsOfTurn(e, asked)
    ensures Settled(old(p.w), p.w, p.pc, d.fd, goal, begun, ms, e.ret, asked, verdict)
    ensures KernelRunTo(old(p.log), old(p.w)) ==> KernelRunTo(p.log, p.w)
  {
    var ret;
    ret, e := PollSocket(p, d, ms, goal, begun, elapsed);
    asked := None;
    match ret
    case Failed(n) =>
      PolledIsSettled(old(p.w), p.w, d.fd, goal, begun, elapsed, ms, ret);
      verdict := if n == EINTR then None else Some(Err(Os(n)));
    case Returned(value, out) =>
      if value != 0 && HungUp(out) {
        var error;
        ghost var look;
        error, look := AskAfterHangUp(p, d, goal, begun, old(p.w), ms, ret);
        PollThenAsk(old(p.log), e, look);
        asked, verdict := Some(look), Some(Err(error));
      } else {
        PolledIsSettled(old(p.w), p.w, d.fd, goal, begun, elapsed, ms, ret);
        verdict := if value == 0 then None else Some(Ok(()));
      }
  }

  /** The run after one more turn of the loop. */
  function Extended(run: Run, t: Turn, e: Event, asked: Option<Event>, exit: nat): Run {
    Run(run.begun, Then(run.turns, t), More(run.polls, e), asked, exit)
  }

  lemma FollowsOneMore(fd: Fd, limit: nat, run: Run, t: Turn, e: Event, asked: Option<Event>, exit: nat)
    requires Follows(fd, limit, run) && !Answered(run.turns)
    requires run.exit <= t.elapsed && Fits(limit, t, exit) && IsTurn(fd, run.begun, t, e)
    requires AsksRightly(fd, Then(Start, t), asked)
    requires e.after.clock <= run.begun + exit && (asked.Some? ==> asked.value.after.clock <= run.begun + exit)
    ensures var next := Extended(run, t, e, asked, exit);
      && Follows(fd, limit, next)
      && Interruptions(next.turns) == Interruptions(run.turns) + (if t.answer.Interrupted? then 1 else 0)
      && (Answered(next.turns) <==> Terminal(t.answer))
      && (Terminal(t.answer) ==> WaitVerdict(next) == AnswerVerdict(t.answer, asked))
  {
    LegalLater(limit, run.turns, run.exit, t.elapsed);
  }

  /** The loop is at its head, having done `run`. */
  predicate AtHead(w: World, pc: Pc, fd: Fd, goal: Goal, limit: nat, run: Run) {
    && Valid(w.tab)
    && fd in w.tab.fds
    && Attempted(FileOf(w.tab, fd).state, goal.addr)
    && pc == ConnectingTimed(fd, goal, Checking(run.begun))
    && Follows(fd, limit, run)
    && !Answered(run.turns)
    && run.Now() <= w.clock
  }

  /** How many more turns the loop can take at most. */
  function Left(signals: nat, limit: nat, run: Run): nat {
    signals + WorstPolls(limit - run.exit)
  }

  /** The loop has left with verdict `r`, having done `run`. */
  predicate HasLeft(w: World, pc: Pc, fd: Fd, goal: Goal, limit: nat, run: Run, r: Result<()>)
    requires Valid(w.tab) && fd in w.tab.fds
  {
    && Concludes(fd, limit, run, r)
    && w.clock == run.Now()
    && pc == Decided(fd, goal, r, EndsWritable(run))
    && (r.Ok? && EndsWritable(run) ==> FileOf(w.tab, fd).state == Connected(goal.addr))
  }

  /** The loop was at its head at `before` with time left, and `poll` was called with the right interval. */
  predicate CanTurn(before: World, fd: Fd, goal: Goal, limit: nat, run: Run, ms: int) {
    && AtHead(before, ConnectingTimed(fd, goal, Checking(run.begun)), fd, goal, limit, run)
    && before.clock < run.begun + limit
    && ms == Interval(limit - (before.clock - run.begun))
  }

  /** The run after a turn whose `poll` was made at `before`. */
  function Turned(before: World, w: World, run: Run, e: Event, ms: int, asked: Option<Event>): Run
    requires run.begun <= before.clock <= w.clock
  {
    Extended(run, Turn(before.clock - run.begun, ms, AnswerOf(e.ret)), e, asked, w.clock - run.begun)
  }

  /** After a turn the loop has left, or is at its head again with fewer turns to go. */
  predicate TurnDone(signals: nat, w: World, pc: Pc, fd: Fd, goal: Goal, limit: nat, run: Run, next: Run,
                     verdict: Option<Result<()>>)
    requires Valid(w.tab) && fd in w.tab.fds
  {
    && next.begun == run.begun
    && Interruptions(next.turns) + w.signals <= Interruptions(run.turns) + signals
    && match verdict
       case None => AtHead(w, pc, fd, goal, limit, next) && Left(w.signals, limit, next) < Left(signals, limit, run)
       case Some(r) => HasLeft(w, pc, fd, goal, limit, next, r)
  }

  lemma TurnUsesUp(before: World, w: World, limit: nat, run: Run, next: Run, ms: int, a: Answer)
    requires before.clock <= w.clock && !Terminal(a)
    requires run.Now() <= before.clock < run.begun + limit
    requires ms == Interval(limit - (before.clock - run.begun))
    requires a.Expired? ==> before.clock + ms * NANOS_PER_MILLI <= w.clock
    requires w.signals + (if a.Interrupted? then 1 else 0) <= before.signals
    requires next.exit == w.clock - run.begun
    ensures Left(w.signals, limit, next) < Left(before.signals, limit, run)
  {
    TurnMakesProgress(limit, run.exit, Turn(before.clock - run.begun, ms, a), next.exit);
  }

  /** The loop's verdict `r` after `run`. */
  predicate Concludes(fd: Fd, limit: nat, run: Run, r: Result<()>) {
    Follows(fd, limit, run) && Complete(limit, run.turns, run.exit) && r == WaitVerdict(run)
  }

  lemma RunConcludes(fd: Fd, limit: nat, run: Run, t: Turn, e: Event, asked: Option<Event>, exit: nat)
    requires Follows(fd, limit, run) && !Answered(run.turns)
    requires run.exit <= t.elapsed && Fits(limit, t, exit) && IsTurn(fd, run.begun, t, e)
    requires AsksRightly(fd, Then(Start, t), asked) && Terminal(t.answer)
    requires e.after.clock <= run.begun + exit && (asked.Some? ==> asked.value.after.clock <= run.begun + exit)
    ensures var next := Extended(run, t, e, asked, exit);
      && Concludes(fd, limit, next, AnswerVerdict(t.answer, asked))
      && (EndsWritable(next) <==> e.ret.Returned? && PlainlyWritable(e.ret.out))
      && Interruptions(next.turns) == Interruptions(run.turns)
  {
    FollowsOneMore(fd, limit, run, t, e, asked, exit);
  }

  lemma TurnFits(before: World, w: World, fd: Fd, goal: Goal, limit: nat, run: Run, ms: int, ret: Ret)
    requires CanTurn(before, fd, goal, limit, run, ms) && PollClocked(before, w, ms, ret)
    ensures Fits(limit, Turn(before.clock - run.begun, ms, AnswerOf(ret)), w.clock - run.begun)
  {
  }

  lemma TurnConcludes(before: World, w: World, fd: Fd, limit: nat, run: Run, ms: int, e: Event, asked: Option<Event>)
    requires Follows(fd, limit, run) && !Answered(run.turns) && run.Now() <= before.clock <= w.clock
    requires e.call == Poll(fd, ms) && MadeBetween(before, e, asked, w.clock)
    requires Fits(limit, Turn(before.clock - run.begun, ms, AnswerOf(e.ret)), w.clock - run.begun)
    requires AsksAfter(fd, e.ret, asked) && Terminal(AnswerOf(e.ret))
    ensures var next := Turned(before, w, run, e, ms, asked);
      && Concludes(fd, limit, next, AnswerVerdict(AnswerOf(e.ret), asked))
      && (EndsWritable(next) <==> IsWritable(e.ret))
      && Interruptions(next.turns) == Interruptions(run.turns)
  {
    RunConcludes(fd, limit, run, Turn(before.clock - run.begun, ms, AnswerOf(e.ret)), e, asked, w.clock - run.begun);
  }

  lemma TurnLeaves(before: World, w: World, pc: Pc, fd: Fd, goal: Goal, limit: nat, run: Run, ms: int, e: Event,
                   asked: Option<Event>, r: Result<()>)
    requires CanTurn(before, fd, goal, limit, run, ms)
    requires Valid(w.tab) && fd in w.tab.fds && e.call == Poll(fd, ms) && MadeBetween(before, e, asked, w.clock)
    requires Settled(before, w, pc, fd, goal, run.begun, ms, e.ret, asked, Some(r))
    ensures var next := Turned(before, w, run, e, ms, asked);
      HasLeft(w, pc, fd, goal, limit, next, r) && Interruptions(next.turns) == Interruptions(run.turns)
  {
    TurnFits(before, w, fd, goal, limit, run, ms, e.ret);
    TurnConcludes(before, w, fd, limit, run, ms, e, asked);
  }

  lemma TurnContinues(before: World, w: World, fd: Fd, goal: Goal, limit: nat, run: Run, ms: int, e: Event)
    requires CanTurn(before, fd, goal, limit, run, ms)
    requires e.call == Poll(fd, ms) && MadeBetween(before, e, None, w.clock)
    requires PollClocked(before, w, ms, e.ret) && !Terminal(AnswerOf(e.ret))
    ensures var next := Turned(before, w, run, e, ms, None);
      && Follows(fd, limit, next)
      && !Answered(next.turns)
      && Interruptions(next.turns) + w.signals <= Interruptions(run.turns) + before.signals
  {
    TurnFits(before, w, fd, goal, limit, run, ms, e.ret);
    var t := Turn(before.clock - run.begun, ms, AnswerOf(e.ret));
    FollowsOneMore(fd, limit, run, t, e, None, w.clock - run.begun);
  }

  lemma TurnGoesOn(before: World, w: World, pc: Pc, fd: Fd, goal: Goal, limit: nat, run: Run, ms: int, e: Event)
    requires CanTurn(before, fd, goal, limit, run, ms)
    requires Valid(w.tab) && fd in w.tab.fds && Attempted(FileOf(w.tab, fd).state, goal.addr)
    requires e.call == Poll(fd, ms) && MadeBetween(before, e, None, w.clock)
    requires Settled(before, w, pc, fd, goal, run.begun, ms, e.ret, None, None)
    ensures var next := Turned(before, w, run, e, ms, None);
      && AtHead(w, pc, fd, goal, limit, next)
      && Left(w.signals, limit, next) < Left(before.signals, limit, run)
      && Interruptions(next.turns) + w.signals <= Interruptions(run.turns) + before.signals
  {
    TurnContinues(before, w, fd, goal, limit, run, ms, e);
    TurnUsesUp(before, w, limit, run, Turned(before, w, run, e, ms, None), ms, AnswerOf(e.ret));
  }

  lemma TurnIsDone(before: World, w: World, pc: Pc, fd: Fd, goal: Goal, limit: nat, run: Run, ms: int, e: Event,
                   asked: Option<Event>, verdict: Option<Result<()>>)
    requires CanTurn(before, fd, goal, limit, run, ms)
    requires Valid(w.tab) && fd in w.tab.fds && Attempted(FileOf(w.tab, fd).state, goal.addr)
    requires e.call == Poll(fd, ms) && MadeBetween(before, e, asked, w.clock)
    requires Settled(before, w, pc, fd, goal, run.begun, ms, e.ret, asked, verdict)
    ensures TurnDone(before.signals, w, pc, fd, goal, limit, run, Turned(before, w, run, e, ms, asked), verdict)
  {
    if verdict.Some? {
      TurnLeaves(before, w, pc, fd, goal, limit, run, ms, e, asked, verdict.value);
    } else {
      assert asked == None;
      TurnGoesOn(before, w, pc, fd, goal, limit, run, ms, e);
    }
  }

  lemma LogOneMore(log: seq<Event>, run: Run, before: World, w: World, e: Event, ms: int, asked: Option<Event>)
    requires run.asked == None && run.begun <= before.clock <= w.clock
    ensures log + Turned(before, w, run, e, ms, asked).Calls() ==
      log + run.Calls() + CallsOfTurn(e, asked)
  {
  }

  /** The time left as the argument of `poll`. */
  method TimeLeft(timeout: Duration, elapsed: nat) returns (ms: int)
    requires elapsed < Nanos(timeout)
    ensures ms == Interval(Nanos(timeout) - elapsed)
  {
    ms := NextInterval(timeout, elapsed);
  }

  /** One turn of the loop past the deadline check: either it decides, or it uses up a signal or a poll. */
  method TakeTurn(p: Process, d: FileDesc, timeout: Duration, elapsed: nat, ghost goal: Goal, ghost limit: nat,
                  ghost run: Run, ghost first: Tables, ghost log: seq<Event>)
    returns (verdict: Option<Result<()>>, ghost next: Run)
    requires limit == Nanos(timeout) && elapsed < limit
    requires CanTurn(p.w, d.fd, goal, limit, run, Interval(limit - elapsed))
    requires p.pc == ConnectingTimed(d.fd, goal, Polling(run.begun, elapsed, Interval(limit - elapsed)))
    requires Valid(first) && d.fd in first.fds && Progresses(first, d.fd, goal.addr, p.w.tab)
    requires p.log == log + run.Calls()
    modifies p`w, p`pc, p`log
    ensures Progresses(first, d.fd, goal.addr, p.w.tab)
    ensures p.log == log + next.Calls()
    ensures TurnDone(old(p.w.signals), p.w, p.pc, d.fd, goal, limit, run, next, verdict)
    ensures KernelRunTo(old(p.log), old(p.w)) ==> KernelRunTo(p.log, p.w)
  {
    var ms := TimeLeft(timeout, elapsed);
    ghost var e, asked;
    verdict, e, asked := PollAndSettle(p, d, ms, goal, run.begun, elapsed);
    next := Turned(old(p.w), p.w, run, e, ms, asked);
    ProgressesTwice(first, d.fd, goal.addr, old(p.w.tab), p.w.tab);
    LogOneMore(log, run, old(p.w), p.w, e, ms, asked);
    TurnIsDone(old(p.w), p.w, p.pc, d.fd, goal, limit, run, ms, e, asked, verdict);
  }

  /** The clock was read after the deadline. */
  lemma TimeIsUp(w: World, fd: Fd, goal: Goal, limit: nat, run: Run)
    requires Valid(w.tab) && fd in w.tab.fds
    requires Follows(fd, limit, run) && !Answered(run.turns)
    requires run.Now() <= w.clock && run.begun + limit <= w.clock
    ensures HasLeft(w, Decided(fd, goal, Err(TimedOut), EndsWritable(run)), fd, goal, limit,
                    run.(exit := w.clock - run.begun), Err(TimedOut))
  {
    LegalLater(limit, run.turns, run.exit, w.clock - run.begun);
  }

  /** The clock was read before the deadline: `poll` comes next, with the interval of this reading. */
  lemma ReadInTime(w0: World, pc: Pc, w: World, fd: Fd, goal: Goal, limit: nat, run: Run, ms: int)
    requires AtHead(w0, pc, fd, goal, limit, run) && goal.ToConnectTimed? && Nanos(goal.timeout) == limit
    requires w.tab == w0.tab && w0.clock <= w.clock < run.begun + limit
    requires ms == Interval(limit - (w.clock - run.begun))
    ensures CanTurn(w, fd, goal, limit, run, ms)
    ensures OnClock(pc, w.clock) == ConnectingTimed(fd, goal, Polling(run.begun, w.clock - run.begun, ms))
  {
  }

  /** The clock was read too late: the loop leaves. */
  lemma ReadTooLate(w0: World, pc: Pc, w: World, fd: Fd, goal: Goal, limit: nat, run: Run)
    requires AtHead(w0, pc, fd, goal, limit, run) && goal.ToConnectTimed? && Nanos(goal.timeout) == limit
    requires w.tab == w0.tab && w.signals == w0.signals && w0.clock <= w.clock && run.begun + limit <= w.clock
    ensures TurnDone(w0.signals, w, OnClock(pc, w.clock), fd, goal, limit, run, run.(exit := w.clock - run.begun),
                     Some(Err(TimedOut)))
  {
    TimeIsUp(w, fd, goal, limit, run);
  }

  /** After a reading of the clock at the head of the loop: the loop is over, or `poll` comes next. */
  predicate HasRead(w: World, pc: Pc, fd: Fd, goal: Goal, limit: nat, run: Run, elapsed: nat)
    requires Valid(w.tab) && fd in w.tab.fds
  {
    if elapsed >= limit then
      TurnDone(w.signals, w, pc, fd, goal, limit, run, run.(exit := elapsed), Some(Err(TimedOut)))
    else
      && CanTurn(w, fd, goal, limit, run, Interval(limit - elapsed))
      && pc == ConnectingTimed(fd, goal, Polling(run.begun, elapsed, Interval(limit - elapsed)))
  }

  lemma ReadingTells(w0: World, pc: Pc, w: World, fd: Fd, goal: Goal, limit: nat, run: Run, elapsed: nat)
    requires AtHead(w0, pc, fd, goal, limit, run) && goal.ToConnectTimed? && Nanos(goal.timeout) == limit
    requires w.tab == w0.tab && w.signals == w0.signals && w0.clock <= w.clock == run.begun + elapsed
    ensures HasRead(w, OnClock(pc, w.clock), fd, goal, limit, run, elapsed)
  {
    if elapsed >= limit {
      ReadTooLate(w0, pc, w, fd, goal, limit, run);
    } else {
      ReadInTime(w0, pc, w, fd, goal, limit, run, Interval(limit - elapsed));
    }
  }

  /** The elapsed time at the head of the loop. */
  method ReadClock(p: Process, start: nat, ghost fd: Fd, ghost goal: Goal, ghost limit: nat, ghost run: Run)
    returns (elapsed: nat)
    requires AtHead(p.w, p.pc, fd, goal, limit, run) && start == run.begun
    requires goal.ToConnectTimed? && Nanos(goal.timeout) == limit
    modifies p`w, p`pc
    ensures p.w.tab == old(p.w.tab) && p.w.signals == old(p.w.signals)
    ensures HasRead(p.w, p.pc, fd, goal, limit, run, elapsed)
    ensures KernelRunTo(p.log, old(p.w)) ==> KernelRunTo(p.log, p.w)
  {
    var now := p.Now();
    elapsed := now - start;
    ReadingTells(old(p.w), old(p.pc), p.w, fd, goal, limit, run, elapsed);
  }

  /** The body of the loop: the deadline check, then a turn if there is time left. */
  method CheckAndTakeTurn(p: Process, d: FileDesc, timeout: Duration, start: nat, ghost goal: Goal,
                          ghost limit: nat, ghost run: Run, ghost first: Tables, ghost log: seq<Event>)
    returns (verdict: Option<Result<()>>, ghost next: Run)
    requires AtHead(p.w, p.pc, d.fd, goal, limit, run) && start == run.begun
    requires goal.ToConnectTimed? && goal.timeout == timeout && limit == Nanos(timeout)
    requires Valid(first) && d.fd in first.fds && Progresses(first, d.fd, goal.addr, p.w.tab)
    requires p.log == log + run.Calls()
    modifies p`w, p`pc, p`log
    ensures Progresses(first, d.fd, goal.addr, p.w.tab)
    ensures p.log == log + next.Calls()
    ensures TurnDone(old(p.w.signals), p.w, p.pc, d.fd, goal, limit, run, next, verdict)
    ensures KernelRunTo(old(p.log), old(p.w)) ==> KernelRunTo(p.log, p.w)
  {
    var elapsed := ReadClock(p, start, d.fd, goal, limit, run);
    if elapsed >= Nanos(timeout) {
      verdict, next := Some(Err(TimedOut)), run.(exit := elapsed);
    } else {
      verdict, next := TakeTurn(p, d, timeout, elapsed, goal, limit, run, first, log);
    }
  }

  lemma LoopBegins(log: seq<Event>, w: World, pc: Pc, fd: Fd, goal: Goal, start: nat)
    requires Valid(w.tab) && fd in w.tab.fds && Attempted(FileOf(w.tab, fd).state, goal.addr)
    requires goal.ToConnectTimed? && pc == ConnectingTimed(fd, goal, Checking(start)) && start == w.clock
    ensures var run := Run(start, Start, NoPoll, None, 0);
      AtHead(w, pc, fd, goal, Nanos(goal.timeout), run) && log == log + run.Calls() && Interruptions(run.turns) == 0
  {
  }

  /** A `poll` answered like this leaves the matter open. */
  predicate LeavesOpen(ret: Ret) {
    match ret
    case Failed(n) => n == EINTR
    case Returned(value, _) => value == 0
  }

  predicate ReportsHangUp(out: Out) {
    out.Events? && out.pollhup
  }

  /** Call `k` of a loop that made its first call at `from`: a `poll`, the last one or one that left the matter open; or
      the look at SO_ERROR, right after a hang-up and last of all. */
  predicate IsLoopCall(calls: seq<Event>, from: nat, fd: Fd, k: nat)
    requires from <= k < |calls|
  {
    match calls[k].call
    case Poll(polled, ms) =>
      && polled == fd
      && 1 <= ms <= INT_MAX
      && (k + 1 < |calls| && calls[k + 1].call.Poll? ==> LeavesOpen(calls[k].ret))
    case GetError(asked) =>
      && asked == fd
      && from < k == |calls| - 1
      && calls[k - 1].ret.Returned?
      && calls[k - 1].ret.value != 0
      && ReportsHangUp(calls[k - 1].ret.out)
    case _ => false
  }

  /** What the last call of the loop makes of it.  After a hang-up the error is the one that SO_ERROR names, or one that
      the crate makes up when it names none. */
  predicate Decides(last: Event, r: Result<()>) {
    match last.call
    case Poll(_, _) =>
      if LeavesOpen(last.ret) then r == Err(TimedOut)
      else if last.ret.Failed? then r == Err(Os(last.ret.errno))
      else r == Ok(()) && !ReportsHangUp(last.ret.out)
    case GetError(_) =>
      (match last.ret
       case Failed(n) => r == Err(Os(n))
       case Returned(_, out) =>
         && (out == Code(0) ==> r == Err(Other))
         && (out.Code? && out.errno != 0 ==> r == Err(Os(out.errno))))
    case _ => false
  }

  /** The calls from `from` on are those of the loop, and `r` is what they mean. */
  predicate LoopDecides(calls: seq<Event>, from: nat, fd: Fd, r: Result<()>) {
    && from <= |calls|
    && (forall k: nat | from <= k < |calls| :: IsLoopCall(calls, from, fd, k))
    && if |calls| == from then r == Err(TimedOut) else Decides(calls[|calls| - 1], r)
  }

  /** Every poll of a loop but the last left the matter open. */
  lemma {:induction false} PollsAreLoopCalls(fd: Fd, limit: nat, begun: nat, turns: Turns, polls: Polls, exit: nat)
    requires Legal(limit, turns, exit) && LogsTurns(fd, begun, turns, polls)
    ensures var calls := polls.Calls();
      && (forall k: nat | k < |calls| :: calls[k].call.Poll? && IsLoopCall(calls, 0, fd, k))
      && (turns.Then? ==> calls != [] && AnswerOf(calls[|calls| - 1].ret) == turns.turn.answer)
  {
    if turns.Then? {
      PollsAreLoopCalls(fd, limit, begun, turns.earlier, polls.earlier, turns.turn.elapsed);
      var before, calls := polls.earlier.Calls(), polls.Calls();
      forall k: nat | k < |calls|
        ensures calls[k].call.Poll? && IsLoopCall(calls, 0, fd, k)
      {
        if k < |before| {
          assert IsLoopCall(before, 0, fd, k);
        }
      }
    }
  }

  lemma RunDecidesByCalls(fd: Fd, limit: nat, run: Run, r: Result<()>)
    requires Concludes(fd, limit, run, r)
    ensures LoopDecides(run.Calls(), 0, fd, r)
  {
    PollsAreLoopCalls(fd, limit, run.begun, run.turns, run.polls, run.exit);
    var polls, calls := run.polls.Calls(), run.Calls();
    forall k: nat | k < |calls|
      ensures IsLoopCall(calls, 0, fd, k)
    {
      if k < |polls| {
        assert IsLoopCall(polls, 0, fd, k);
      }
    }
  }

  /** The loop.  It terminates because each turn uses up a signal or one of the polls that are left. */
  method AwaitConnection(p: Process, d: FileDesc, timeout: Duration, ghost goal: Goal)
    returns (r: Result<()>, ghost run: Run)
    requires Valid(p.w.tab) && d.fd in p.w.tab.fds && Attempted(FileOf(p.w.tab, d.fd).state, goal.addr)
    requires goal.ToConnectTimed? && goal.timeout == timeout && p.pc == ConnectingTimed(d.fd, goal, Starting)
    modifies p`w, p`pc, p`log
    ensures Progresses(old(p.w.tab), d.fd, goal.addr, p.w.tab)
    ensures p.log == old(p.log) + run.Calls() && old(p.w.clock) <= run.begun
    ensures HasLeft(p.w, p.pc, d.fd, goal, Nanos(timeout), run, r)
    ensures LoopDecides(run.Calls(), 0, d.fd, r)
    ensures Interruptions(run.turns) + p.w.signals <= old(p.w.signals)
    ensures KernelRunTo(old(p.log), old(p.w)) ==> KernelRunTo(p.log, p.w)
  {
    ProgressesAtOnce(p.w.tab, d.fd, goal.addr);
    var start := p.Now();
    run := Run(start, Start, NoPoll, None, 0);
    LoopBegins(old(p.log), p.w, p.pc, d.fd, goal, start);
    while true
      invariant AtHead(p.w, p.pc, d.fd, goal, Nanos(timeout), run) && run.begun == start
      invariant Progresses(old(p.w.tab), d.fd, goal.addr, p.w.tab)
      invariant p.log == old(p.log) + run.Calls() && old(p.w.clock) <= run.begun
      invariant Interruptions(run.turns) + p.w.signals <= old(p.w.signals)
      invariant KernelRunTo(old(p.log), old(p.w)) ==> KernelRunTo(p.log, p.w)
      decreases Left(p.w.signals, Nanos(timeout), run)
    {
      var verdict;
      verdict, run := CheckAndTakeTurn(p, d, timeout, start, goal, Nanos(timeout), run, old(p.w.tab), old(p.log));
      if verdict.Some? {
        RunDecidesByCalls(d.fd, Nanos(timeout), run, verdict.value);
        return verdict.value, run;
      }
    }
  }

  // ---------------------------------------------------------------- The whole timed connect

  /** What a timed connect met: the two mode changes around `connect`, and the run of its loop. */
  datatype Evidence =
    | NotEntered(enter: Event)
    | Tried(enter: Event, connect: Event, leave: Event, run: Run)

  function CallsOf(ev: Evidence): seq<Event> {
    match ev
    case NotEntered(enter) => [enter]
    case Tried(enter, connect, leave, run) => [enter, connect, leave] + run.Calls()
  }

  lemma CallsOfAttempt(log: seq<Event>, enter: Event, connect: Event, leave: Event)
    ensures log + [enter] + [connect, leave] == log + CallsOf(Tried(enter, connect, leave, NO_RUN))
  {
  }

  lemma CallsGrow(log: seq<Event>, ev: Evidence, run: Run)
    requires ev.Tried? && ev.run == NO_RUN
    ensures log + CallsOf(ev) + run.Calls() == log + CallsOf(ev.(run := run))
  {
    assert CallsOf(ev) + run.Calls() == CallsOf(ev.(run := run));
  }

  predicate ModeChangesWork(ev: Evidence) {
    ev.Tried? && ev.leave.ret.Returned?
  }

  /** The loop is entered exactly when the connection is in progress and the timeout is not zero. */
  predicate Waits(timeout: Duration, ev: Evidence) {
    ModeChangesWork(ev) && ev.connect.ret == Ret.Failed(EINPROGRESS) && !IsZero(timeout)
  }

  predicate Plausible(fd: Fd, addr: BtAddr, timeout: Duration, ev: Evidence) {
    match ev
    case NotEntered(enter) => enter.call == SetNonblocking(fd, true) && enter.ret.Failed?
    case Tried(enter, connect, leave, run) =>
      && enter.call == SetNonblocking(fd, true)
      && enter.ret.Returned?
      && connect.call == Connect(fd, addr)
      && leave.call == SetNonblocking(fd, false)
      && (if Waits(timeout, ev)
          then Follows(fd, Nanos(timeout), run) && Complete(Nanos(timeout), run.turns, run.exit)
          else run == NO_RUN)
  }

  /** A failed mode change outranks the answer of `connect`; the zero timeout is refused only once `connect` is
      in progress. */
  function Verdict(timeout: Duration, ev: Evidence): Result<()> {
    match ev
    case NotEntered(enter) => if enter.ret.Failed? then Err(Os(enter.ret.errno)) else Ok(())
    case Tried(_, connect, leave, run) =>
      if leave.ret.Failed? then Err(Os(leave.ret.errno))
      else if connect.ret.Returned? then Ok(())
      else if connect.ret.errno != EINPROGRESS then Err(Os(connect.ret.errno))
      else if IsZero(timeout) then Err(InvalidInput)
      else WaitVerdict(run)
  }

  /** Connected at once, or told by `poll` without a hang-up. */
  predicate Connects(timeout: Duration, ev: Evidence) {
    && ModeChangesWork(ev)
    && (ev.connect.ret.Returned? ||
        (Waits(timeout, ev) && ev.run.turns.Then? && ev.run.turns.turn.answer == Ready(false)))
  }

  /** Ok means connected at once or ready without a hang-up, and nothing else does. */
  lemma OkIffConnects(fd: Fd, addr: BtAddr, timeout: Duration, ev: Evidence)
    requires Plausible(fd, addr, timeout, ev)
    ensures Verdict(timeout, ev).Ok? <==> Connects(timeout, ev)
  {
  }

  /** The answers prove the connection: `connect` made it, or the last `poll` reported plain writability. */
  predicate Proves(ev: Evidence) {
    ev.Tried? && (ev.connect.ret.Returned? || EndsWritable(ev.run))
  }

  /** How long nothing was asked of the kernel before the last poll, since the one before it was answered or the loop
      began; all the time if there was no poll. */
  function WaitBeforeLast(run: Run): int {
    match run.polls
    case NoPoll => run.exit
    case More(earlier, last) => last.before.clock - AnsweredAt(run.begun, earlier)
  }

  /** When a poll is due to have returned. */
  function DueBy(e: Event): int {
    if e.call.Poll? then e.before.clock + e.call.ms * NANOS_PER_MILLI else e.before.clock
  }

  /** How far past the time its last poll was due the run ended. */
  function LateBy(run: Run): nat {
    match run.polls
    case NoPoll => 0
    case More(_, last) => Max(0, run.Now() - DueBy(last))
  }

  /** The loop left at clock `now`.  The interval of every poll was read from the clock before the deadline and, counted
      from that reading, ends less than a millisecond after it; the last reading lies between the answer before and the
      last poll.  So the exit is less than a millisecond past the deadline, but for the wait before the last poll and
      for what that poll was late. */
  predicate OnTime(limit: nat, run: Run, now: nat) {
    && now == run.Now()
    && AllDueInTime(limit, run.turns)
    && (run.turns.Then? && run.polls.More? ==>
        var last, read := run.polls.last, run.begun + run.turns.turn.elapsed;
        && AnsweredAt(run.begun, run.polls.earlier) <= read <= last.before.clock
        && now < run.begun + limit + NANOS_PER_MILLI + (last.before.clock - read) + LateBy(run))
    && now < run.begun + limit + NANOS_PER_MILLI + WaitBeforeLast(run) + LateBy(run)
  }

  lemma FollowingIsOnTime(fd: Fd, limit: nat, run: Run)
    requires Follows(fd, limit, run)
    ensures OnTime(limit, run, run.Now())
  {
    PollsAreDueInTime(limit, run.turns, run.exit);
  }

  /** Every poll was made when the call before it was answered, the first one at clock `start`. */
  predicate BackToBack(start: nat, polls: Polls) {
    polls.More? ==> polls.last.before.clock == AnsweredAt(start, polls.earlier) && BackToBack(start, polls.earlier)
  }

  /** Every poll waits for exactly what is left, when it is made, of the time from `start`. */
  predicate WaitsForTheRest(limit: nat, start: nat, polls: Polls) {
    polls.More? ==>
      && start <= polls.last.before.clock < start + limit
      && polls.last.call.Poll?
      && polls.last.call.ms == Interval(limit - (polls.last.before.clock - start))
      && WaitsForTheRest(limit, start, polls.earlier)
  }

  /** A loop that goes on at once is no later than its calls: it begins when it can, and every interval is that of the
      time left when its poll is made. */
  lemma {:induction false} BackToBackIsExact(fd: Fd, limit: nat, begun: nat, turns: Turns, polls: Polls, exit: nat,
                                            start: nat)
    requires Legal(limit, turns, exit) && LogsTurns(fd, begun, turns, polls)
    requires BackToBack(start, polls) && start <= begun
    ensures WaitsForTheRest(limit, start, polls)
    ensures polls.More? ==> start == begun && polls.last.before.clock == begun + turns.turn.elapsed
  {
    if turns.Then? {
      BackToBackIsExact(fd, limit, begun, turns.earlier, polls.earlier, turns.turn.elapsed, start);
    }
  }

  /** What the answer of `connect` means once the socket is back in blocking mode. */
  predicate ConnectDecides(calls: seq<Event>, fd: Fd, timeout: Duration, r: Result<()>)
    requires 3 <= |calls|
  {
    match calls[1].ret
    case Returned(_, _) => |calls| == 3 && r == Ok(())
    case Failed(n) =>
      if n != EINPROGRESS then |calls| == 3 && r == Err(Os(n))
      else if timeout.secs == 0 && timeout.nanos == 0 then |calls| == 3 && r == Err(InvalidInput)
      else LoopDecides(calls, 3, fd, r)
  }

  /** The calls of a timed connect, all of them, and what they mean, read from the calls alone. */
  predicate Judged(calls: seq<Event>, fd: Fd, addr: BtAddr, timeout: Duration, r: Result<()>) {
    && calls != []
    && calls[0].call == SetNonblocking(fd, true)
    && if calls[0].ret.Failed? then |calls| == 1 && r == Err(Os(calls[0].ret.errno))
       else
         && 3 <= |calls|
         && calls[1].call == Connect(fd, addr)
         && calls[2].call == SetNonblocking(fd, false)
         && if calls[2].ret.Failed? then |calls| == 3 && r == Err(Os(calls[2].ret.errno))
            else ConnectDecides(calls, fd, timeout, r)
  }

  /** The loop's calls mean the same after other calls. */
  lemma LoopDecidesLater(before: seq<Event>, calls: seq<Event>, fd: Fd, r: Result<()>)
    requires LoopDecides(calls, 0, fd, r)
    ensures LoopDecides(before + calls, |before|, fd, r)
  {
    var all := before + calls;
    forall k: nat | |before| <= k < |all|
      ensures IsLoopCall(all, |before|, fd, k)
    {
      assert IsLoopCall(calls, 0, fd, k - |before|);
    }
  }

  lemma VerdictIsJudged(fd: Fd, addr: BtAddr, timeout: Duration, ev: Evidence)
    requires Plausible(fd, addr, timeout, ev)
    ensures Judged(CallsOf(ev), fd, addr, timeout, Verdict(timeout, ev))
  {
    if Waits(timeout, ev) {
      RunDecidesByCalls(fd, Nanos(timeout), ev.run, WaitVerdict(ev.run));
      LoopDecidesLater([ev.enter, ev.connect, ev.leave], ev.run.Calls(), fd, WaitVerdict(ev.run));
    }
  }

  /** The loop gives up only once the timeout has passed. */
  lemma TimedOutIsLate(fd: Fd, addr: BtAddr, timeout: Duration, ev: Evidence, now: nat)
    requires Plausible(fd, addr, timeout, ev) && Timely(timeout, ev, now)
    requires Verdict(timeout, ev) == Err(TimedOut)
    ensures ev.Tried? && ev.leave.after.clock + Nanos(timeout) <= now
  {
  }

  /** In world `w` the socket `fd` is in nonblocking mode, or in blocking mode. */
  predicate InMode(w: World, fd: Fd, nonblocking: bool) {
    Valid(w.tab) && fd in w.tab.fds && FileOf(w.tab, fd).nonblocking == nonblocking
  }

  /** The socket was nonblocking when `connect` was called, and blocking again at every `poll`. */
  predicate ModesAreRight(calls: seq<Event>, fd: Fd) {
    forall k: nat | k < |calls| ::
      && (calls[k].call.Connect? ==> InMode(calls[k].before, fd, true))
      && (calls[k].call.Poll? ==> InMode(calls[k].before, fd, false))
  }

  /** An error that was pending on the description when SO_ERROR was read is the one returned. */
  predicate ReturnsPending(calls: seq<Event>, fd: Fd, r: Result<()>) {
    calls != [] ==>
      var last := calls[|calls| - 1];
      last.call.GetError? && last.ret.Returned? && Valid(last.before.tab) && fd in last.before.tab.fds &&
      FileOf(last.before.tab, fd).error != 0
      ==> r == Err(Os(FileOf(last.before.tab, fd).error))
  }

  lemma ModeIsSetBy(e: Event, next: Event, fd: Fd, on: bool)
    requires Explained(e) && Explained(next) && Continues(e, next)
    requires e.call == SetNonblocking(fd, on) && e.ret.Returned?
    ensures InMode(next.before, fd, on)
  {
  }

  lemma PollKeepsMode(e: Event, next: Event, fd: Fd)
    requires Explained(e) && Explained(next) && Continues(e, next)
    requires e.call.Poll? && e.call.fd == fd && InMode(e.before, fd, false)
    ensures InMode(next.before, fd, false)
  {
  }

  lemma {:induction false} PollsAreBlocking(calls: seq<Event>, fd: Fd, r: Result<()>, k: nat)
    requires KernelRun(calls) && 3 <= k < |calls| && LoopDecides(calls, 3, fd, r)
    requires calls[2].call == SetNonblocking(fd, false) && calls[2].ret.Returned?
    ensures InMode(calls[k].before, fd, false)
  {
    assert ExplainedAt(calls, k - 1) && ExplainedAt(calls, k);
    if k == 3 {
      ModeIsSetBy(calls[2], calls[3], fd, false);
    } else {
      PollsAreBlocking(calls, fd, r, k - 1);
      assert IsLoopCall(calls, 3, fd, k - 1);
      PollKeepsMode(calls[k - 1], calls[k], fd);
    }
  }

  lemma ConnectIsNonblocking(calls: seq<Event>, fd: Fd)
    requires KernelRun(calls) && 2 <= |calls| && calls[0].call == SetNonblocking(fd, true) && calls[0].ret.Returned?
    ensures InMode(calls[1].before, fd, true)
  {
    assert ExplainedAt(calls, 0) && ExplainedAt(calls, 1);
    ModeIsSetBy(calls[0], calls[1], fd, true);
  }

  /** Where in a timed connect the calls with a mode of their own are. */
  lemma PlacesOfCalls(calls: seq<Event>, fd: Fd, addr: BtAddr, timeout: Duration, r: Result<()>, k: nat)
    requires Judged(calls, fd, addr, timeout, r) && k < |calls|
    ensures calls[k].call.Connect? ==> k == 1 && calls[0].ret.Returned?
    ensures calls[k].call.Poll? ==> 3 <= k && calls[2].ret.Returned? && LoopDecides(calls, 3, fd, r)
  {
    if 3 <= k {
      assert IsLoopCall(calls, 3, fd, k);
    }
  }

  lemma ModesAreRightInRuns(calls: seq<Event>, fd: Fd, addr: BtAddr, timeout: Duration, r: Result<()>)
    requires KernelRun(calls) && Judged(calls, fd, addr, timeout, r)
    ensures ModesAreRight(calls, fd)
  {
    forall k: nat | k < |calls|
      ensures calls[k].call.Connect? ==> InMode(calls[k].before, fd, true)
      ensures calls[k].call.Poll? ==> InMode(calls[k].before, fd, false)
    {
      PlacesOfCalls(calls, fd, addr, timeout, r, k);
      if calls[k].call.Connect? {
        ConnectIsNonblocking(calls, fd);
      } else if calls[k].call.Poll? {
        PollsAreBlocking(calls, fd, r, k);
      }
    }
  }

  lemma PendingIsReturned(calls: seq<Event>, fd: Fd, addr: BtAddr, timeout: Duration, r: Result<()>)
    requires KernelRun(calls) && Judged(calls, fd, addr, timeout, r)
    ensures ReturnsPending(calls, fd, r)
  {
    var last := calls[|calls| - 1];
    if last.call.GetError? && last.ret.Returned? {
      assert ExplainedAt(calls, |calls| - 1);
      assert IsLoopCall(calls, 3, fd, |calls| - 1);
    }
  }

  /** What the kernel's part of a timed connect adds, when the calls before were a run of the kernel. */
  lemma CallsAreARun(log: seq<Event>, w: World, fd: Fd, addr: BtAddr, timeout: Duration, ev: Evidence, r: Result<()>)
    requires KernelRunTo(log + CallsOf(ev), w) && Judged(CallsOf(ev), fd, addr, timeout, r)
    ensures ModesAreRight(CallsOf(ev), fd) && ReturnsPending(CallsOf(ev), fd, r)
  {
    KernelRunSuffix(log, CallsOf(ev));
    ModesAreRightInRuns(CallsOf(ev), fd, addr, timeout, r);
    PendingIsReturned(CallsOf(ev), fd, addr, timeout, r);
  }

  predicate InProgressOrMade(connect: Ret) {
    connect.Returned? || connect.errno == EINPROGRESS
  }

  function StateAfter(connect: Ret, addr: BtAddr): SocketState {
    if connect.Returned? then Connected(addr) else Connecting(addr)
  }

  /** The socket after `connect` answered `ret`. */
  predicate TriedBy(t: Tables, fd: Fd, addr: BtAddr, ret: Ret, t': Tables)
    requires Valid(t) && fd in t.fds
  {
    && ModeOrStateMoved(t, fd, t')
    && FileOf(t', fd).nonblocking == FileOf(t, fd).nonblocking
    && (InProgressOrMade(ret) ==> FileOf(t', fd).state == StateAfter(ret, addr))
  }

  lemma StateMoves(t: Tables, fd: Fd, state: SocketState)
    requires Valid(t) && fd in t.fds
    ensures ModeOrStateMoved(t, fd, Update(t, fd, FileOf(t, fd).(state := state)))
  {
    SharersUnmoved(t, Update(t, fd, FileOf(t, fd).(state := state)));
  }

  lemma ConnectTries(t: Tables, fd: Fd, addr: BtAddr, ret: Ret, t': Tables)
    requires Valid(t) && fd in t.fds && Effect(t, Connect(fd, addr), ret, t')
    ensures TriedBy(t, fd, addr, ret, t')
  {
    if t' == t {
      NothingMoved(t, fd);
    } else {
      StateMoves(t, fd, if ret.Returned? then Connected(addr) else Connecting(addr));
    }
  }

  /** The non-blocking `connect` between the two mode changes. */
  method ConnectOnce(p: Process, d: FileDesc, addr: BtAddr, ghost goal: Goal) returns (ret: Ret, ghost e: Event)
    requires Valid(p.w.tab) && d.fd in p.w.tab.fds
    requires p.pc == ConnectingTimed(d.fd, goal, Trying) && goal.addr == addr
    modifies p`w, p`pc, p`log
    ensures p.pc == ConnectingTimed(d.fd, goal, Leaving(ret))
    ensures TriedBy(old(p.w.tab), d.fd, addr, ret, p.w.tab)
    ensures Called(old(p.w), e, Connect(d.fd, addr), ret, p.w) && p.log == old(p.log) + [e]
    ensures p.w.signals <= old(p.w.signals) && old(p.w.clock) <= p.w.clock
    ensures KernelRunTo(old(p.log), old(p.w)) ==> KernelRunTo(p.log, p.w)
  {
    ret := p.Syscall(Connect(d.fd, addr));
    e := p.log[|old(p.log)|];
    ConnectTries(old(p.w.tab), d.fd, addr, ret, p.w.tab);
  }

  /** Where the attempt leaves the thread. */
  function AfterTry(fd: Fd, goal: Goal, ev: Evidence): Pc {
    match ev
    case NotEntered(enter) => Discarding(fd, Os(if enter.ret.Failed? then enter.ret.errno else 0), New(goal))
    case Tried(_, connect, leave, _) =>
      if leave.ret.Failed? then Discarding(fd, Os(leave.ret.errno), New(goal)) else AfterAttempt(fd, goal, connect.ret)
  }

  /** The attempt `ev` was made, and `attempt` is what the code has of it. */
  predicate Attempts(fd: Fd, addr: BtAddr, ev: Evidence, attempt: Result<Ret>) {
    match ev
    case NotEntered(enter) =>
      enter.call == SetNonblocking(fd, true) && enter.ret.Failed? && attempt == Err(Os(enter.ret.errno))
    case Tried(enter, connect, leave, run) =>
      && enter.call == SetNonblocking(fd, true)
      && enter.ret.Returned?
      && connect.call == Connect(fd, addr)
      && leave.call == SetNonblocking(fd, false)
      && run == NO_RUN
      && attempt == if leave.ret.Failed? then Err(Os(leave.ret.errno)) else Ok(connect.ret)
  }

  /** The socket after the attempt. */
  predicate LeftBy(t: Tables, fd: Fd, addr: BtAddr, attempt: Result<Ret>, t': Tables)
    requires Valid(t) && fd in t.fds
  {
    && ModeOrStateMoved(t, fd, t')
    && (attempt.Ok? ==> !FileOf(t', fd).nonblocking)
    && (attempt.Ok? && InProgressOrMade(attempt.value) ==> FileOf(t', fd).state == StateAfter(attempt.value, addr))
  }

  /** `connect`, then back to blocking mode. */
  method ConnectAndLeave(p: Process, d: FileDesc, addr: BtAddr, ghost goal: Goal, ghost enter: Event)
    returns (attempt: Result<Ret>, ghost ev: Evidence)
    requires Valid(p.w.tab) && d.fd in p.w.tab.fds
    requires enter.call == SetNonblocking(d.fd, true) && enter.ret.Returned?
    requires p.pc == ConnectingTimed(d.fd, goal, Trying) && goal.addr == addr
    modifies p`w, p`pc, p`log
    ensures ev.Tried? && ev.enter == enter && p.log == old(p.log) + [ev.connect, ev.leave] && ev.leave.after == p.w
    ensures ev.run == NO_RUN
    ensures p.pc == AfterTry(d.fd, goal, ev) && Attempts(d.fd, addr, ev, attempt)
    ensures LeftBy(old(p.w.tab), d.fd, addr, attempt, p.w.tab)
    ensures p.w.signals <= old(p.w.signals) && old(p.w.clock) <= p.w.clock
    ensures KernelRunTo(old(p.log), old(p.w)) ==> KernelRunTo(p.log, p.w)
  {
    ghost var tried, leave;
    var connect;
    connect, tried := ConnectOnce(p, d, addr, goal);
    ghost var mid := p.w.tab;
    var left;
    left, leave := SetSocketNonblocking(p, d, false);
    LeftAfterTrying(old(p.w.tab), d.fd, addr, connect, mid, left, p.w.tab);
    ev := Tried(enter, tried, leave, NO_RUN);
    match left
    case Err(e) => attempt := Err(e);
    case Ok(_) => attempt := Ok(connect);
  }

  lemma LeftAfterTrying(t: Tables, fd: Fd, addr: BtAddr, connect: Ret, mid: Tables, left: Result<()>, t': Tables)
    requires Valid(t) && fd in t.fds && TriedBy(t, fd, addr, connect, mid)
    requires match left
      case Ok(_) => t' == Update(mid, fd, FileOf(mid, fd).(nonblocking := false))
      case Err(_) => t' == mid
    ensures LeftBy(t, fd, addr, if left.Ok? then Ok(connect) else Err(left.error), t')
  {
    if left.Ok? {
      ModeSetMoves(mid, fd, false);
      ModeOrStateMovedTwice(t, fd, mid, t');
    }
  }

  lemma ModeSetMoves(t: Tables, fd: Fd, on: bool)
    requires Valid(t) && fd in t.fds
    ensures ModeOrStateMoved(t, fd, Update(t, fd, FileOf(t, fd).(nonblocking := on)))
  {
    SharersUnmoved(t, Update(t, fd, FileOf(t, fd).(nonblocking := on)));
  }

  lemma LeftAfterEntering(t: Tables, fd: Fd, addr: BtAddr, attempt: Result<Ret>, t': Tables)
    requires Valid(t) && fd in t.fds
    ensures var mid := Update(t, fd, FileOf(t, fd).(nonblocking := true));
      Valid(mid) && (LeftBy(mid, fd, addr, attempt, t') ==> LeftBy(t, fd, addr, attempt, t'))
  {
    var mid := Update(t, fd, FileOf(t, fd).(nonblocking := true));
    ModeSetMoves(t, fd, true);
    if LeftBy(mid, fd, addr, attempt, t') {
      ModeOrStateMovedTwice(t, fd, mid, t');
    }
  }

  lemma NothingMoved(t: Tables, fd: Fd)
    requires Valid(t) && fd in t.fds
    ensures ModeOrStateMoved(t, fd, t)
  {
    assert t.files[t.fds[fd].file := FileOf(t, fd)] == t.files;
  }

  /** The attempt between the two mode changes; a failed mode change outranks what `connect` said. */
  method TryConnect(p: Process, d: FileDesc, addr: BtAddr, ghost goal: Goal)
    returns (attempt: Result<Ret>, ghost ev: Evidence)
    requires Valid(p.w.tab) && d.fd in p.w.tab.fds
    requires p.pc == ConnectingTimed(d.fd, goal, Entering) && goal.addr == addr
    modifies p`w, p`pc, p`log
    ensures p.log == old(p.log) + CallsOf(ev) && (ev.Tried? ==> ev.leave.after == p.w)
    ensures p.pc == AfterTry(d.fd, goal, ev) && Attempts(d.fd, addr, ev, attempt)
    ensures LeftBy(old(p.w.tab), d.fd, addr, attempt, p.w.tab)
    ensures p.w.signals <= old(p.w.signals) && old(p.w.clock) <= p.w.clock
    ensures KernelRunTo(old(p.log), old(p.w)) ==> KernelRunTo(p.log, p.w)
  {
    ghost var enter;
    var entered;
    entered, enter := SetSocketNonblocking(p, d, true);
    match entered
    case Err(e) =>
      NothingMoved(p.w.tab, d.fd);
      attempt, ev := Err(e), NotEntered(enter);
    case Ok(_) =>
      attempt, ev := ConnectAndLeave(p, d, addr, goal, enter);
      LeftAfterEntering(old(p.w.tab), d.fd, addr, attempt, p.w.tab);
      CallsOfAttempt(old(p.log), enter, ev.connect, ev.leave);
  }

  /** The rest of `connect_timeout` once the connection is in progress; a zero timeout never polls. */
  method FinishInProgress(p: Process, d: FileDesc, timeout: Duration, ghost goal: Goal)
    returns (r: Result<()>, ghost run: Run)
    requires Valid(p.w.tab) && d.fd in p.w.tab.fds && FileOf(p.w.tab, d.fd).state == SocketState.Connecting(goal.addr)
    requires goal.ToConnectTimed? && goal.timeout == timeout
    requires p.pc == AfterAttempt(d.fd, goal, Ret.Failed(EINPROGRESS))
    modifies p`w, p`pc, p`log
    ensures Progresses(old(p.w.tab), d.fd, goal.addr, p.w.tab)
    ensures p.log == old(p.log) + run.Calls()
    ensures p.pc == Decided(d.fd, goal, r, EndsWritable(run))
    ensures Finishes(d.fd, timeout, run, r)
    ensures !IsZero(timeout) ==> old(p.w.clock) <= run.begun && OnTime(Nanos(timeout), run, p.w.clock)
    ensures r.Ok? && EndsWritable(run) ==> FileOf(p.w.tab, d.fd).state == Connected(goal.addr)
    ensures Count(run.turns) <= old(p.w.signals) - p.w.signals + WorstPolls(Nanos(timeout))
    ensures KernelRunTo(old(p.log), old(p.w)) ==> KernelRunTo(p.log, p.w)
  {
    if IsZero(timeout) {
      ProgressesAtOnce(p.w.tab, d.fd, goal.addr);
      return Err(InvalidInput), NO_RUN;
    }
    r, run := AwaitConnection(p, d, timeout, goal);
    PollsAreBounded(Nanos(timeout), run.turns, run.exit);
    FollowingIsOnTime(d.fd, Nanos(timeout), run);
  }

  /** What the clock says about a timed connect that ended at `now`. */
  predicate Timely(timeout: Duration, ev: Evidence, now: nat) {
    Waits(timeout, ev) ==>
      ev.leave.after.clock <= ev.run.begun && OnTime(Nanos(timeout), ev.run, now)
  }

  /** No time was lost: the attempt's last call and the polls followed each other at once, and the connect ended, at
      clock `now`, no later than its last poll was due. */
  predicate IsPrompt(ev: Evidence, now: nat) {
    && ev.Tried?
    && BackToBack(ev.leave.after.clock, ev.run.polls)
    && match ev.run.polls
       case NoPoll => now == ev.leave.after.clock
       case More(_, last) => now <= DueBy(last)
  }

  /** When the kernel and the thread lose no time a timed connect is over less than a millisecond after its timeout,
      whatever was interrupted on the way, and every poll waits for exactly what is left when it is made. */
  lemma PromptConnectIsOnTime(fd: Fd, addr: BtAddr, timeout: Duration, ev: Evidence, now: nat)
    requires Plausible(fd, addr, timeout, ev) && Waits(timeout, ev) && Timely(timeout, ev, now) && IsPrompt(ev, now)
    ensures now < ev.leave.after.clock + Nanos(timeout) + NANOS_PER_MILLI
    ensures WaitsForTheRest(Nanos(timeout), ev.leave.after.clock, ev.run.polls)
  {
    var run := ev.run;
    BackToBackIsExact(fd, Nanos(timeout), run.begun, run.turns, run.polls, run.exit, ev.leave.after.clock);
  }

  /** What a timed connect leaves behind: unless a mode change failed the socket is in blocking mode; on Ok its
      connection was tried, and it is connected if the answers prove it. */
  predicate LeavesSocket(t: Tables, fd: Fd, addr: BtAddr, ok: bool, ev: Evidence, t': Tables)
    requires Valid(t) && fd in t.fds
  {
    && ModeOrStateMoved(t, fd, t')
    && (ModeChangesWork(ev) ==> !FileOf(t', fd).nonblocking)
    && (ok ==> Attempted(FileOf(t', fd).state, addr))
    && (ok && Proves(ev) ==> FileOf(t', fd).state == Connected(addr))
  }

  /** The attempt `ev` decided, with verdict `r`. */
  predicate DecidesAtOnce(attempt: Result<Ret>, r: Result<()>) {
    match attempt
    case Err(e) => r == Err(e)
    case Ok(Returned(_, _)) => r == Ok(())
    case Ok(Failed(e)) => e != EINPROGRESS && r == Err(Os(e))
  }

  lemma AttemptDecides(fd: Fd, goal: Goal, attempt: Result<Ret>, ev: Evidence, r: Result<()>)
    requires goal.ToConnectTimed? && Attempts(fd, goal.addr, ev, attempt) && DecidesAtOnce(attempt, r)
    ensures Plausible(fd, goal.addr, goal.timeout, ev) && !Waits(goal.timeout, ev)
    ensures r == Verdict(goal.timeout, ev) && AfterTry(fd, goal, ev) == Decided(fd, goal, r, Proves(ev))
    ensures r.Ok? ==> attempt.Ok? && attempt.value.Returned?
    ensures ModeChangesWork(ev) <==> attempt.Ok?
  {
  }

  lemma AttemptLeavesSocket(t: Tables, t': Tables, fd: Fd, addr: BtAddr, attempt: Result<Ret>, ev: Evidence, ok: bool)
    requires Valid(t) && fd in t.fds && LeftBy(t, fd, addr, attempt, t')
    requires ok ==> attempt.Ok? && attempt.value.Returned?
    requires ModeChangesWork(ev) ==> attempt.Ok?
    ensures LeavesSocket(t, fd, addr, ok, ev, t')
  {
  }

  /** What the rest of the call concludes when the attempt is in progress. */
  predicate Finishes(fd: Fd, timeout: Duration, run: Run, r: Result<()>) {
    if IsZero(timeout) then run == NO_RUN && r == Err(InvalidInput) else Concludes(fd, Nanos(timeout), run, r)
  }

  lemma RunDecides(fd: Fd, goal: Goal, ev: Evidence, run: Run, r: Result<()>)
    requires goal.ToConnectTimed? && Attempts(fd, goal.addr, ev, Ok(Ret.Failed(EINPROGRESS)))
    requires Finishes(fd, goal.timeout, run, r)
    ensures ev.Tried?
    ensures var ev' := ev.(run := run);
      && Plausible(fd, goal.addr, goal.timeout, ev')
      && r == Verdict(goal.timeout, ev')
      && Proves(ev') == EndsWritable(run)
  {
  }

  lemma RunLeavesSocket(t: Tables, mid: Tables, t': Tables, fd: Fd, addr: BtAddr, ev: Evidence, ok: bool)
    requires Valid(t) && fd in t.fds
    requires LeftBy(t, fd, addr, Ok(Ret.Failed(EINPROGRESS)), mid) && Progresses(mid, fd, addr, t')
    requires ok && Proves(ev) ==> FileOf(t', fd).state == Connected(addr)
    ensures LeavesSocket(t, fd, addr, ok, ev, t')
  {
    ModeOrStateMovedTwice(t, fd, mid, t');
  }

  /** The attempt, and the rest of the call if it is in progress. */
  method AttemptAndFinish(p: Process, d: FileDesc, addr: BtAddr, timeout: Duration, ghost goal: Goal)
    returns (r: Result<()>, ghost ev: Evidence)
    requires Valid(p.w.tab) && d.fd in p.w.tab.fds
    requires goal.ToConnectTimed? && goal.addr == addr && goal.timeout == timeout
    requires p.pc == ConnectingTimed(d.fd, goal, Entering)
    modifies p`w, p`pc, p`log
    ensures p.log == old(p.log) + CallsOf(ev) && Plausible(d.fd, addr, timeout, ev)
    ensures r == Verdict(timeout, ev) && p.pc == Decided(d.fd, goal, r, Proves(ev))
    ensures LeavesSocket(old(p.w.tab), d.fd, addr, r.Ok?, ev, p.w.tab)
    ensures Timely(timeout, ev, p.w.clock)
    ensures ev.Tried? ==> Count(ev.run.turns) <= old(p.w.signals) - p.w.signals + WorstPolls(Nanos(timeout))
    ensures KernelRunTo(old(p.log), old(p.w)) ==> KernelRunTo(p.log, p.w)
  {
    var attempt;
    attempt, ev := TryConnect(p, d, addr, goal);
    match attempt {
      case Err(e) => r := Err(e);
      case Ok(Returned(_, _)) => r := Ok(());
      case Ok(Failed(e)) =>
        if e != EINPROGRESS {
          r := Err(Os(e));
        } else {
          ghost var tried, run := p.w.tab, NO_RUN;
          r, run := FinishInProgress(p, d, timeout, goal);
          RunDecides(d.fd, goal, ev, run, r);
          CallsGrow(old(p.log), ev, run);
          ev := ev.(run := run);
          RunLeavesSocket(old(p.w.tab), tried, p.w.tab, d.fd, addr, ev, r.Ok?);
        }
    }
    if DecidesAtOnce(attempt, r) {
      AttemptDecides(d.fd, goal, attempt, ev, r);
      AttemptLeavesSocket(old(p.w.tab), p.w.tab, d.fd, addr, attempt, ev, r.Ok?);
    }
  }

  /** `connect_timeout`.  The verdict follows from what the calls answered (see `OkIffConnects`); the loop leaves on
      time and polls no more often than it must. */
  method ConnectTimeout(p: Process, d: FileDesc, addr: BtAddr, timeout: Duration, ghost goal: Goal)
    returns (r: Result<()>, ghost ev: Evidence)
    requires Valid(p.w.tab) && d.fd in p.w.tab.fds
    requires goal.ToConnectTimed? && goal.addr == addr && goal.timeout == timeout
    requires p.pc == ConnectingTimed(d.fd, goal, Entering)
    modifies p`w, p`pc, p`log
    ensures p.log == old(p.log) + CallsOf(ev) && Plausible(d.fd, addr, timeout, ev)
    ensures r == Verdict(timeout, ev) && p.pc == Decided(d.fd, goal, r, Proves(ev))
    ensures LeavesSocket(old(p.w.tab), d.fd, addr, r.Ok?, ev, p.w.tab)
    ensures Timely(timeout, ev, p.w.clock)
    ensures ev.Tried? ==> Count(ev.run.turns) <= old(p.w.signals) - p.w.signals + WorstPolls(Nanos(timeout))
    ensures Judged(CallsOf(ev), d.fd, addr, timeout, r)
    ensures r == Err(TimedOut) ==> ev.Tried? && ev.leave.after.clock + Nanos(timeout) <= p.w.clock
    ensures KernelRunTo(old(p.log), old(p.w)) ==>
      KernelRunTo(p.log, p.w) && ModesAreRight(CallsOf(ev), d.fd) && ReturnsPending(CallsOf(ev), d.fd, r)
  {
    r, ev := AttemptAndFinish(p, d, addr, timeout, goal);
    VerdictIsJudged(d.fd, addr, timeout, ev);
    if r == Err(TimedOut) {
      TimedOutIsLate(d.fd, addr, timeout, ev, p.w.clock);
    }
    if KernelRunTo(old(p.log), old(p.w)) {
      CallsAreARun(old(p.log), p.w, d.fd, addr, timeout, ev, r);
    }
  }
}
