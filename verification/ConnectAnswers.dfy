/** What the answers of a timed connect prove about the connection. */
module ConnectAnswers {
  import opened Base
  import opened Durations
  import opened Deadline
  import opened Kernel
  import opened Processes
  import opened UnixConnect

  /** The same calls with the same answers at the same times, from the same tables. */
  ghost predicate SameTalk(a: seq<Event>, b: seq<Event>) {
    && |a| == |b|
    && (forall i | 0 <= i < |a| :: SameWords(a[i], b[i]))
    && (a != [] ==> a[0].before == b[0].before)
  }

  predicate SameWords(a: Event, b: Event) {
    && Is(b, a.call, a.ret)
    && a.before.clock == b.before.clock
    && a.after.clock == b.after.clock
  }

  predicate EndsConnected(ks: seq<Event>, fd: Fd, addr: BtAddr)
    requires ks != []
  {
    var t := ks[|ks| - 1].after.tab;
    Valid(t) && fd in t.fds && FileOf(t, fd).state == Connected(addr)
  }

  // ---------------------------------------------------------------- The calls of a successful timed connect

  predicate Undecided(r: Ret) {
    AnswerOf(r).Interrupted? || AnswerOf(r).Expired?
  }

  predicate IsPoll(e: Event, fd: Fd) {
    e.call.Poll? && e.call.fd == fd
  }

  /** In progress after the attempt, then polled until an event without a hang-up. */
  predicate TalkOfWait(ks: seq<Event>, fd: Fd, addr: BtAddr) {
    && |ks| >= 4
    && Is(ks[1], Connect(fd, addr), Ret.Failed(EINPROGRESS))
    && ks[2].call == SetNonblocking(fd, false)
    && ks[2].ret.Returned?
    && (forall i | 3 <= i < |ks| :: IsPoll(ks[i], fd))
    && (forall i | 3 <= i < |ks| - 1 :: Undecided(ks[i].ret))
    && AnswerOf(ks[|ks| - 1].ret) == Ready(false)
  }

  /** Connected at once. */
  predicate TalkOfSuccess(ks: seq<Event>, fd: Fd, addr: BtAddr) {
    && |ks| == 3
    && ks[1].call == Connect(fd, addr)
    && ks[1].ret.Returned?
    && ks[2].call == SetNonblocking(fd, false)
    && ks[2].ret.Returned?
  }

  lemma {:induction false} PollsOfRun(fd: Fd, begun: nat, limit: nat, turns: Turns, polls: Polls, exit: nat)
    requires Legal(limit, turns, exit) && LogsTurns(fd, begun, turns, polls)
    ensures var c := polls.Calls();
      && (forall i | 0 <= i < |c| :: IsPoll(c[i], fd))
      && (forall i | 0 <= i < |c| - 1 :: Undecided(c[i].ret))
      && (c == [] <==> turns.Start?)
      && (turns.Then? ==> c[|c| - 1] == polls.last && AnswerOf(polls.last.ret) == turns.turn.answer)
      && (turns.Then? && !Answered(turns) ==> Undecided(c[|c| - 1].ret))
  {
    if turns.Then? {
      PollsOfRun(fd, begun, limit, turns.earlier, polls.earlier, turns.turn.elapsed);
    }
  }

  lemma TalkOfOk(fd: Fd, addr: BtAddr, timeout: Duration, ev: Evidence)
    requires Plausible(fd, addr, timeout, ev) && Verdict(timeout, ev).Ok?
    ensures TalkOfSuccess(CallsOf(ev), fd, addr) || TalkOfWait(CallsOf(ev), fd, addr)
    ensures var ks := CallsOf(ev);
      Proves(ev) <==> TalkOfSuccess(ks, fd, addr) || PlainlyReady(ks[|ks| - 1].ret)
  {
    OkIffConnects(fd, addr, timeout, ev);
    if !ev.connect.ret.Returned? {
      PollsOfRun(fd, ev.run.begun, Nanos(timeout), ev.run.turns, ev.run.polls, ev.run.exit);
      assert ev.run.Calls() == ev.run.polls.Calls();
    }
  }

  predicate PlainlyReady(r: Ret) {
    r.Returned? && PlainlyWritable(r.out)
  }

  // ---------------------------------------------------------------- What the kernel must have done

  predicate Trying(w: World, fd: Fd, addr: BtAddr) {
    Valid(w.tab) && fd in w.tab.fds && Attempted(FileOf(w.tab, fd).state, addr)
  }

  predicate InState(w: World, fd: Fd, state: SocketState) {
    Valid(w.tab) && fd in w.tab.fds && FileOf(w.tab, fd).state == state
  }

  lemma PollKeepsTrying(e: Event, fd: Fd, addr: BtAddr)
    requires Explained(e) && IsPoll(e, fd) && Trying(e.before, fd, addr)
    ensures Trying(e.after, fd, addr)
    ensures PlainlyReady(e.ret) && AnswerOf(e.ret).Ready? ==> InState(e.after, fd, Connected(addr))
  {
    EffectKeepsValid(e.before.tab, e.call, e.ret, e.after.tab);
  }

  lemma ConnectStates(e: Event, fd: Fd, addr: BtAddr)
    requires Explained(e) && e.call == Connect(fd, addr)
    ensures e.ret.Returned? ==> InState(e.after, fd, Connected(addr))
    ensures e.ret == Ret.Failed(EINPROGRESS) ==> InState(e.after, fd, SocketState.Connecting(addr))
  {
    EffectKeepsValid(e.before.tab, e.call, e.ret, e.after.tab);
  }

  lemma ModeKeepsState(e: Event, fd: Fd, state: SocketState)
    requires Explained(e) && e.call == SetNonblocking(fd, false) && e.ret.Returned? && InState(e.before, fd, state)
    ensures InState(e.after, fd, state)
  {
    EffectKeepsValid(e.before.tab, e.call, e.ret, e.after.tab);
  }

  lemma InProgressAfterAttempt(ks: seq<Event>, fd: Fd, addr: BtAddr)
    requires KernelRun(ks) && TalkOfWait(ks, fd, addr)
    ensures InState(ks[2].after, fd, SocketState.Connecting(addr))
    ensures InState(ks[3].before, fd, SocketState.Connecting(addr))
  {
    assert ExplainedAt(ks, 1) && ExplainedAt(ks, 2) && ExplainedAt(ks, 3);
    ConnectStates(ks[1], fd, addr);
    ModeKeepsState(ks[2], fd, SocketState.Connecting(addr));
  }

  lemma {:induction false} TryingThroughout(ks: seq<Event>, fd: Fd, addr: BtAddr, i: nat)
    requires KernelRun(ks) && TalkOfWait(ks, fd, addr) && 3 <= i < |ks|
    ensures Trying(ks[i].before, fd, addr)
  {
    if i == 3 {
      InProgressAfterAttempt(ks, fd, addr);
    } else {
      TryingThroughout(ks, fd, addr, i - 1);
      assert ExplainedAt(ks, i - 1) && ExplainedAt(ks, i);
      PollKeepsTrying(ks[i - 1], fd, addr);
    }
  }

  lemma SuccessIsSound(ks: seq<Event>, fd: Fd, addr: BtAddr)
    requires KernelRun(ks) && TalkOfSuccess(ks, fd, addr)
    ensures EndsConnected(ks, fd, addr)
  {
    assert ExplainedAt(ks, 1) && ExplainedAt(ks, 2);
    ConnectStates(ks[1], fd, addr);
    ModeKeepsState(ks[2], fd, Connected(addr));
  }

  lemma WritabilityIsSound(ks: seq<Event>, fd: Fd, addr: BtAddr)
    requires KernelRun(ks) && TalkOfWait(ks, fd, addr) && PlainlyReady(ks[|ks| - 1].ret)
    ensures EndsConnected(ks, fd, addr)
  {
    TryingThroughout(ks, fd, addr, |ks| - 1);
    assert ExplainedAt(ks, |ks| - 1);
    PollKeepsTrying(ks[|ks| - 1], fd, addr);
  }

  // ---------------------------------------------------------------- What else the kernel may have done

  /** The world with another connection state for `fd`. */
  function WithState(w: World, fd: Fd, state: SocketState): World {
    if Valid(w.tab) && fd in w.tab.fds
    then w.(tab := Update(w.tab, fd, FileOf(w.tab, fd).(state := state)))
    else w
  }

  lemma WithStateIsValid(w: World, fd: Fd, state: SocketState)
    requires Valid(w.tab) && fd in w.tab.fds
    ensures InState(WithState(w, fd, state), fd, state)
    ensures InState(w, fd, state) ==> WithState(w, fd, state) == w
  {
    UpdateIsValid(w.tab, fd, FileOf(w.tab, fd).(state := state));
    if InState(w, fd, state) {
      assert w.tab.files[w.tab.fds[fd].file := FileOf(w.tab, fd)] == w.tab.files;
    }
  }

  /** The call while the connection stays in progress, and ends in `final`. */
  function Restated(e: Event, fd: Fd, addr: BtAddr, final: SocketState): Event {
    e.(before := WithState(e.before, fd, SocketState.Connecting(addr)), after := WithState(e.after, fd, final))
  }

  lemma RestatedFailure(e: Event, fd: Fd, addr: BtAddr)
    requires Explained(e) && IsPoll(e, fd) && Trying(e.before, fd, addr) && e.ret.Failed?
    ensures Explained(Restated(e, fd, addr, SocketState.Connecting(addr)))
  {
    WithStateIsValid(e.before, fd, SocketState.Connecting(addr));
  }

  /** What a poll reported goes with state `final`, if the connection was in progress before it. */
  predicate GoesWith(ret: Ret, addr: BtAddr, final: SocketState) {
    || (Undecided(ret) && final == SocketState.Connecting(addr))
    || (AnswerOf(ret) == Ready(false) && !PlainlyReady(ret)
        && (final == SocketState.Connecting(addr) || final == Connected(addr)))
  }

  lemma GoingIsTruthful(ret: Ret, addr: BtAddr, final: SocketState)
    requires GoesWith(ret, addr, final) && ret.Returned?
    ensures ret.value != 0 ==> Truthful(ret.out, final)
    ensures Attempted(final, addr)
  {
  }

  /** The poll looked at the socket, and what it reported goes with the state it found. */
  predicate LooksTruly(t: Tables, fd: Fd, ret: Ret, t': Tables)
    requires Valid(t)
  {
    && ret.Returned?
    && 0 <= ret.value <= 1
    && Looked(t, fd, t')
    && (ret.value == 1 ==> Reports(ret.out) && Truthful(ret.out, t'.files[t.fds[fd].file].state))
  }

  lemma LookIsExplained(e: Event, fd: Fd)
    requires IsPoll(e, fd) && Valid(e.before.tab) && Clocked(e.before, e.call, e.ret, e.after)
    requires e.before.signals == e.after.signals && LooksTruly(e.before.tab, fd, e.ret, e.after.tab)
    ensures Explained(e)
  {
  }

  lemma RestatedReturn(e: Event, fd: Fd, addr: BtAddr, final: SocketState)
    requires Explained(e) && IsPoll(e, fd) && Trying(e.before, fd, addr) && Trying(e.after, fd, addr)
    requires e.ret.Returned? && GoesWith(e.ret, addr, final)
    ensures Explained(Restated(e, fd, addr, final))
  {
    WithStateIsValid(e.before, fd, SocketState.Connecting(addr));
    GoingIsTruthful(e.ret, addr, final);
    RestatedLook(e.before.tab, fd, SocketState.Connecting(addr), e.after.tab, final);
    LookIsExplained(Restated(e, fd, addr, final), fd);
  }

  /** A poll that reports nothing leaves the connection in progress; one that reports an event that is neither plain
      writability nor a hang-up goes with a connection in progress and with one that is made. */
  lemma RestatedIsExplained(e: Event, fd: Fd, addr: BtAddr, final: SocketState)
    requires Explained(e) && IsPoll(e, fd) && Trying(e.before, fd, addr) && GoesWith(e.ret, addr, final)
    ensures Explained(Restated(e, fd, addr, final))
  {
    if e.ret.Returned? {
      PollKeepsTrying(e, fd, addr);
      RestatedReturn(e, fd, addr, final);
    } else {
      RestatedFailure(e, fd, addr);
    }
  }

  lemma RestatedLook(t: Tables, fd: Fd, from: SocketState, t': Tables, final: SocketState)
    requires Valid(t) && Valid(t') && Looked(t, fd, t') && from.Connecting? && Attempted(final, from.peer)
    ensures var a := Update(t, fd, FileOf(t, fd).(state := from));
      var b := Update(t', fd, FileOf(t', fd).(state := final));
      Valid(a) ==> Looked(a, fd, b)
  {
    var a := Update(t, fd, FileOf(t, fd).(state := from));
    var b := Update(t', fd, FileOf(t', fd).(state := final));
    var id := t.fds[fd].file;
    assert a.files[id := b.files[id]] == b.files;
  }

  /** The run retold with the connection in progress until its end, where it is in state `final`. */
  function Retold(ks: seq<Event>, fd: Fd, addr: BtAddr, final: SocketState): seq<Event> {
    seq(|ks|, i requires 0 <= i < |ks| =>
      if i < 3 then ks[i]
      else Restated(ks[i], fd, addr, if i == |ks| - 1 then final else SocketState.Connecting(addr)))
  }

  lemma RestatedContinues(a: Event, b: Event, fd: Fd, addr: BtAddr, final: SocketState)
    requires Continues(a, b)
    ensures Continues(Restated(a, fd, addr, SocketState.Connecting(addr)), Restated(b, fd, addr, final))
    ensures InState(b.before, fd, SocketState.Connecting(addr)) ==> Continues(a, Restated(b, fd, addr, final))
  {
    if InState(b.before, fd, SocketState.Connecting(addr)) {
      WithStateIsValid(b.before, fd, SocketState.Connecting(addr));
    }
  }

  lemma RetoldContinues(ks: seq<Event>, fd: Fd, addr: BtAddr, final: SocketState, i: nat)
    requires 0 < i < |ks| && Continues(ks[i - 1], ks[i])
    requires i == 3 ==> InState(ks[i].before, fd, SocketState.Connecting(addr))
    ensures Continues(Retold(ks, fd, addr, final)[i - 1], Retold(ks, fd, addr, final)[i])
  {
    if i >= 3 {
      RestatedContinues(ks[i - 1], ks[i], fd, addr, if i == |ks| - 1 then final else SocketState.Connecting(addr));
    }
  }

  lemma RestatedSaysTheSame(e: Event, fd: Fd, addr: BtAddr, final: SocketState)
    ensures SameWords(e, Restated(e, fd, addr, final))
  {
  }

  lemma RetoldIsExplained(ks: seq<Event>, fd: Fd, addr: BtAddr, final: SocketState, i: nat)
    requires KernelRun(ks) && TalkOfWait(ks, fd, addr) && !PlainlyReady(ks[|ks| - 1].ret) && i < |ks|
    requires final == SocketState.Connecting(addr) || final == Connected(addr)
    ensures Explained(Retold(ks, fd, addr, final)[i]) && SameWords(ks[i], Retold(ks, fd, addr, final)[i])
  {
    assert ExplainedAt(ks, i);
    if i >= 3 {
      var now := if i == |ks| - 1 then final else SocketState.Connecting(addr);
      TryingThroughout(ks, fd, addr, i);
      RestatedIsExplained(ks[i], fd, addr, now);
      RestatedSaysTheSame(ks[i], fd, addr, now);
    }
  }

  lemma RetoldAt(ks: seq<Event>, fd: Fd, addr: BtAddr, final: SocketState, i: nat)
    requires KernelRun(ks) && TalkOfWait(ks, fd, addr) && !PlainlyReady(ks[|ks| - 1].ret) && i < |ks|
    requires final == SocketState.Connecting(addr) || final == Connected(addr)
    ensures ExplainedAt(Retold(ks, fd, addr, final), i) && SameWords(ks[i], Retold(ks, fd, addr, final)[i])
  {
    RetoldIsExplained(ks, fd, addr, final, i);
    if i > 0 {
      assert ExplainedAt(ks, i);
      if i == 3 {
        InProgressAfterAttempt(ks, fd, addr);
      }
      RetoldContinues(ks, fd, addr, final, i);
    }
  }

  lemma RetoldEnds(ks: seq<Event>, fd: Fd, addr: BtAddr, final: SocketState)
    requires KernelRun(ks) && TalkOfWait(ks, fd, addr)
    ensures InState(Retold(ks, fd, addr, final)[|ks| - 1].after, fd, final)
  {
    var last := ks[|ks| - 1];
    assert ExplainedAt(ks, |ks| - 1);
    TryingThroughout(ks, fd, addr, |ks| - 1);
    PollKeepsTrying(last, fd, addr);
    WithStateIsValid(last.after, fd, final);
  }

  lemma RetoldIsRun(ks: seq<Event>, fd: Fd, addr: BtAddr, final: SocketState)
    requires KernelRun(ks) && TalkOfWait(ks, fd, addr) && !PlainlyReady(ks[|ks| - 1].ret)
    requires final == SocketState.Connecting(addr) || final == Connected(addr)
    ensures var ks' := Retold(ks, fd, addr, final);
      KernelRun(ks') && SameTalk(ks, ks') && InState(ks'[|ks'| - 1].after, fd, final)
  {
    forall i | 0 <= i < |ks|
      ensures ExplainedAt(Retold(ks, fd, addr, final), i) && SameWords(ks[i], Retold(ks, fd, addr, final)[i])
    {
      RetoldAt(ks, fd, addr, final, i);
    }
    RetoldEnds(ks, fd, addr, final);
  }

  // ---------------------------------------------------------------- The condition

  /** Run `a` has the calls, answers and times of `ks`. */
  ghost predicate Alike(ks: seq<Event>, a: seq<Event>) {
    KernelRun(a) && SameTalk(ks, a) && |a| == |ks| > 0
  }

  /** Two runs with the same calls, answers and times, one of which made the connection and one did not. */
  ghost predicate Undecidable(ks: seq<Event>, fd: Fd, addr: BtAddr) {
    exists a, b ::
      Alike(ks, a) && EndsConnected(a, fd, addr) && Alike(ks, b) && !EndsConnected(b, fd, addr)
  }

  lemma TwoRuns(ks: seq<Event>, fd: Fd, addr: BtAddr)
    requires KernelRun(ks) && TalkOfWait(ks, fd, addr) && !PlainlyReady(ks[|ks| - 1].ret)
    ensures Undecidable(ks, fd, addr)
  {
    var a, b := Retold(ks, fd, addr, Connected(addr)), Retold(ks, fd, addr, SocketState.Connecting(addr));
    RetoldIsRun(ks, fd, addr, Connected(addr));
    assert Alike(ks, a) && EndsConnected(a, fd, addr);
    RetoldIsRun(ks, fd, addr, SocketState.Connecting(addr));
    assert Alike(ks, b) && !EndsConnected(b, fd, addr);
  }

  /** An Ok whose last event is not plain writability, POLLOUT together with POLLERR say, or POLLERR alone, does not
      decide: two kernels that made the same calls answer the same, and one has connected and the other has not. */
  lemma OtherEventsDecideNothing(fd: Fd, addr: BtAddr, timeout: Duration, ev: Evidence)
    requires Plausible(fd, addr, timeout, ev) && Verdict(timeout, ev).Ok?
    requires KernelRun(CallsOf(ev)) && !Proves(ev)
    ensures Undecidable(CallsOf(ev), fd, addr)
  {
    TalkOfOk(fd, addr, timeout, ev);
    TwoRuns(CallsOf(ev), fd, addr);
  }

  /** An attempt that is in progress can be made from any world. */
  lemma AttemptInProgress(w: World, fd: Fd, addr: BtAddr) returns (enter: Event, connect: Event, leave: Event)
    requires Valid(w.tab) && fd in w.tab.fds
    ensures Explained(enter) && Explained(connect) && Explained(leave)
    ensures Continues(enter, connect) && Continues(connect, leave)
    ensures Is(enter, SetNonblocking(fd, true), Returned(0, Nothing))
    ensures Is(connect, Connect(fd, addr), Ret.Failed(EINPROGRESS))
    ensures Is(leave, SetNonblocking(fd, false), Returned(0, Nothing))
    ensures enter.before == w
    ensures InState(leave.after, fd, SocketState.Connecting(addr)) && leave.after.clock == w.clock
    ensures leave.after.signals == w.signals
  {
    var ok := Returned(0, Nothing);
    var w1 := w.(tab := Update(w.tab, fd, FileOf(w.tab, fd).(nonblocking := true)));
    UpdateIsValid(w.tab, fd, FileOf(w.tab, fd).(nonblocking := true));
    var w2 := w1.(tab := Update(w1.tab, fd, FileOf(w1.tab, fd).(state := SocketState.Connecting(addr))));
    UpdateIsValid(w1.tab, fd, FileOf(w1.tab, fd).(state := SocketState.Connecting(addr)));
    var w3 := w2.(tab := Update(w2.tab, fd, FileOf(w2.tab, fd).(nonblocking := false)));
    UpdateIsValid(w2.tab, fd, FileOf(w2.tab, fd).(nonblocking := false));
    enter := Event(SetNonblocking(fd, true), ok, w, w1);
    connect := Event(Connect(fd, addr), Ret.Failed(EINPROGRESS), w1, w2);
    leave := Event(SetNonblocking(fd, false), ok, w2, w3);
  }

  /** So can one that connects at once. */
  lemma AttemptAtOnce(w: World, fd: Fd, addr: BtAddr) returns (enter: Event, connect: Event, leave: Event)
    requires Valid(w.tab) && fd in w.tab.fds
    ensures Explained(enter) && Explained(connect) && Explained(leave)
    ensures Continues(enter, connect) && Continues(connect, leave)
    ensures Is(enter, SetNonblocking(fd, true), Returned(0, Nothing)) && enter.before == w
    ensures Is(connect, Connect(fd, addr), Returned(0, Nothing))
    ensures Is(leave, SetNonblocking(fd, false), Returned(0, Nothing))
  {
    var ok := Returned(0, Nothing);
    var w1 := w.(tab := Update(w.tab, fd, FileOf(w.tab, fd).(nonblocking := true)));
    UpdateIsValid(w.tab, fd, FileOf(w.tab, fd).(nonblocking := true));
    var w2 := w1.(tab := Update(w1.tab, fd, FileOf(w1.tab, fd).(state := Connected(addr))));
    UpdateIsValid(w1.tab, fd, FileOf(w1.tab, fd).(state := Connected(addr)));
    var w3 := w2.(tab := Update(w2.tab, fd, FileOf(w2.tab, fd).(nonblocking := false)));
    enter := Event(SetNonblocking(fd, true), ok, w, w1);
    connect := Event(Connect(fd, addr), ok, w1, w2);
    leave := Event(SetNonblocking(fd, false), ok, w2, w3);
  }

  /** One more call after those of `ks`, the last of which was `last`. */
  lemma OneMoreCall(ks: seq<Event>, last: Event, e: Event)
    requires KernelRunTo(ks, last.after) && Explained(e) && Continues(last, e)
    ensures KernelRunTo(ks + [e], e.after)
  {
    KernelRunExtended(ks, last.after, e);
  }

  lemma ThreeCallsRun(a: Event, b: Event, c: Event)
    requires Explained(a) && Explained(b) && Explained(c) && Continues(a, b) && Continues(b, c)
    ensures KernelRunTo([a, b, c], c.after)
  {
    KernelRunExtended([], a.before, a);
    assert [] + [a] == [a];
    OneMoreCall([a], a, b);
    assert [a] + [b] == [a, b];
    OneMoreCall([a, b], b, c);
    assert [a, b] + [c] == [a, b, c];
  }

  lemma AnyEventMayCome(w: World, fd: Fd, ms: int, out: Out)
    requires Valid(w.tab) && fd in w.tab.fds
    requires Reports(out) && !HungUp(out) && !PlainlyWritable(out)
    ensures Explained(Event(Poll(fd, ms), Returned(1, out), w, w))
  {
    assert w.tab.files[w.tab.fds[fd].file := FileOf(w.tab, fd)] == w.tab.files;
  }

  /** A run from world `w` that succeeds on a `poll` that reported `out`, and whose answers prove nothing. */
  ghost predicate UndecidedFrom(w: World, fd: Fd, addr: BtAddr, timeout: Duration, out: Out, ev: Evidence) {
    && Plausible(fd, addr, timeout, ev)
    && KernelRun(CallsOf(ev))
    && ev.Tried? && ev.enter.before == w
    && ev.run.polls.More? && ev.run.polls.last.ret == Returned(1, out)
    && Verdict(timeout, ev) == Ok(())
    && !Proves(ev)
    && Undecidable(CallsOf(ev), fd, addr)
  }

  /** There are such runs, from any world, for any timeout but zero and for any event without POLLHUP but POLLOUT
      alone. */
  lemma UndecidedRunsExist(w: World, fd: Fd, addr: BtAddr, timeout: Duration, out: Out)
    requires Valid(w.tab) && fd in w.tab.fds && !IsZero(timeout)
    requires Reports(out) && !HungUp(out) && !PlainlyWritable(out)
    ensures exists ev :: UndecidedFrom(w, fd, addr, timeout, out, ev)
  {
    var enter, connect, leave := AttemptInProgress(w, fd, addr);
    var w3, ms := leave.after, Interval(Nanos(timeout));
    AnyEventMayCome(w3, fd, ms, out);
    var poll := Event(Poll(fd, ms), Returned(1, out), w3, w3);
    OnePollSuffices(fd, addr, timeout, enter, connect, leave, poll);
    FourCallsRun(enter, connect, leave, poll);
    var ev := Tried(enter, connect, leave, OnePoll(poll));
    OtherEventsDecideNothing(fd, addr, timeout, ev);
    assert UndecidedFrom(w, fd, addr, timeout, out, ev);
  }

  lemma FourCallsRun(a: Event, b: Event, c: Event, d: Event)
    requires Explained(a) && Explained(b) && Explained(c) && Explained(d)
    requires Continues(a, b) && Continues(b, c) && Continues(c, d)
    ensures KernelRun([a, b, c, d])
  {
    ThreeCallsRun(a, b, c);
    OneMoreCall([a, b, c], c, d);
    assert [a, b, c] + [d] == [a, b, c, d];
  }

  /** The loop's run when its first poll reports an event at once. */
  function OnePoll(poll: Event): Run
    requires poll.call.Poll?
  {
    Run(poll.before.clock, Then(Start, Turn(0, poll.call.ms, AnswerOf(poll.ret))), More(NoPoll, poll), None, 0)
  }

  lemma OnePollSuffices(fd: Fd, addr: BtAddr, timeout: Duration, enter: Event, connect: Event, leave: Event,
                        poll: Event)
    requires Is(enter, SetNonblocking(fd, true), Returned(0, Nothing))
    requires Is(connect, Connect(fd, addr), Ret.Failed(EINPROGRESS))
    requires Is(leave, SetNonblocking(fd, false), Returned(0, Nothing))
    requires poll.call == Poll(fd, Interval(Nanos(timeout))) && AnswerOf(poll.ret) == Ready(false) && !IsZero(timeout)
    requires !PlainlyReady(poll.ret) && poll.after.clock == poll.before.clock
    ensures var ev := Tried(enter, connect, leave, OnePoll(poll));
      && CallsOf(ev) == [enter, connect, leave, poll]
      && Plausible(fd, addr, timeout, ev)
      && Verdict(timeout, ev) == Ok(())
      && !Proves(ev)
  {
    var run := OnePoll(poll);
    assert NoPoll.Calls() == [];
    assert run.Calls() == [poll];
    assert AnsweredAt(run.begun, run.polls) == poll.after.clock == run.Now();
    assert Follows(fd, Nanos(timeout), run);
  }

  lemma SameTalkSameShape(ks: seq<Event>, ks': seq<Event>, fd: Fd, addr: BtAddr)
    requires SameTalk(ks, ks')
    ensures TalkOfSuccess(ks, fd, addr) ==> TalkOfSuccess(ks', fd, addr)
    ensures TalkOfWait(ks, fd, addr) ==>
      TalkOfWait(ks', fd, addr) && PlainlyReady(ks'[|ks'| - 1].ret) == PlainlyReady(ks[|ks| - 1].ret)
  {
    if TalkOfSuccess(ks, fd, addr) {
      assert SameWords(ks[1], ks'[1]) && SameWords(ks[2], ks'[2]);
    }
    if TalkOfWait(ks, fd, addr) {
      assert SameWords(ks[1], ks'[1]) && SameWords(ks[2], ks'[2]) && SameWords(ks[|ks| - 1], ks'[|ks| - 1]);
      forall i | 3 <= i < |ks'|
        ensures IsPoll(ks'[i], fd) && (i < |ks'| - 1 ==> Undecided(ks'[i].ret))
      {
        assert SameWords(ks[i], ks'[i]);
      }
    }
  }

  /** When Ok means connected: every run of the kernel that gives these answers has made the connection exactly when
      `connect` succeeded at once or the last `poll` reported POLLOUT alone. */
  lemma OkMeansConnectedIff(fd: Fd, addr: BtAddr, timeout: Duration, ev: Evidence)
    requires Plausible(fd, addr, timeout, ev) && Verdict(timeout, ev).Ok? && KernelRun(CallsOf(ev))
    ensures Proves(ev) <==> ev.connect.ret.Returned? || PlainlyReady(CallsOf(ev)[|CallsOf(ev)| - 1].ret)
    ensures (forall ks | Alike(CallsOf(ev), ks) :: EndsConnected(ks, fd, addr)) <==> Proves(ev)
  {
    TalkOfOk(fd, addr, timeout, ev);
    OkIffConnects(fd, addr, timeout, ev);
    if Proves(ev) {
      forall ks | Alike(CallsOf(ev), ks)
        ensures EndsConnected(ks, fd, addr)
      {
        SameTalkSameShape(CallsOf(ev), ks, fd, addr);
        if TalkOfSuccess(ks, fd, addr) {
          SuccessIsSound(ks, fd, addr);
        } else {
          WritabilityIsSound(ks, fd, addr);
        }
      }
    } else {
      OtherEventsDecideNothing(fd, addr, timeout, ev);
    }
  }
}
