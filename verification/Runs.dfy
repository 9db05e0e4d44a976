/** What holds over whole runs of the concurrent machine. */
module Runs {
  import opened Base
  import opened Kernel
  import opened Program
  import opened Concurrency

  /** State `i` goes to state `i + 1` by action `i`. */
  ghost predicate Goes(ss: seq<State>, acts: seq<Action>, i: nat)
    requires i < |acts| < |ss|
  {
    Valid(ss[i].w.tab) && Next(ss[i], acts[i], ss[i + 1])
  }

  ghost predicate Run(ss: seq<State>, acts: seq<Action>) {
    && |ss| == |acts| + 1
    && Init(ss[0])
    && forall i: nat | i < |acts| :: Goes(ss, acts, i)
  }

  /** The invariant holds in every state of every run. */
  lemma {:induction false} RunKeepsInv(ss: seq<State>, acts: seq<Action>, i: nat)
    requires Run(ss, acts) && i < |ss|
    ensures Inv(ss[i])
  {
    if i == 0 {
      InitInv(ss[0]);
    } else {
      RunKeepsInv(ss, acts, i - 1);
      assert Goes(ss, acts, i - 1);
      NextKeepsInv(ss[i - 1], acts[i - 1], ss[i]);
    }
  }

  // ---------------------------------------------------------------- What calls hand out

  predicate ReturnsOk(s: State, a: Action) {
    a.Return? && a.t in s.threads && s.threads[a.t].pc.Done? && s.threads[a.t].pc.outcome.Ok?
  }

  predicate ReturnsErr(s: State, a: Action) {
    a.Return? && a.t in s.threads && EndsEmpty(s.threads[a.t].pc)
  }

  /** `fd`, handed out as value `id`, is open, close-on-exec, and owned by that value alone. */
  predicate WellOwned(s: State, id: nat, fd: Fd) {
    && fd in s.Open()
    && s.Open()[fd].cloexec
    && Handle(id) in s.live
    && s.live[Handle(id)] == fd
    && fd !in s.foreign
    && fd !in s.leaked
    && forall p | p in s.live && p != Handle(id) :: s.live[p] != fd
  }

  /** Thread `t` hands its descriptor to the user as value `id`: it is new to the user, and well owned now; one made by
      `duplicate` shares the open file description of its source, which is still a handle. */
  predicate HandsOver(s: State, t: Tid, id: nat, s': State)
    requires t in s.threads && s.threads[t].pc.Done? && s.threads[t].pc.outcome.Ok?
  {
    var pc := s.threads[t].pc;
    && WellOwned(s', id, pc.outcome.value.fd)
    && pc.outcome.value.fd !in s.HandleFds()
    && (CopyAt(pc).Some? ==> CopyAt(pc).value.0 in s.HandleFds() && SharesFile(s'.Open(), CopyAt(pc).value))
  }

  /** A descriptor handed to the user is open, close-on-exec and owned by that one value; one made by
      `duplicate` shares the open file description of its source, which is still open. */
  lemma ReturnedDescriptorIsOwned(ss: seq<State>, acts: seq<Action>, i: nat)
    requires Run(ss, acts) && i < |acts| && ReturnsOk(ss[i], acts[i])
    ensures HandsOver(ss[i], acts[i].t, acts[i].id, ss[i + 1])
  {
    RunKeepsInv(ss, acts, i);
    RunKeepsInv(ss, acts, i + 1);
    assert Goes(ss, acts, i);
    OthersAreQuiet(ss[i], acts[i], ss[i + 1]);
    OkReturns(ss[i], acts[i], ss[i + 1]);
    ReturnHandsOver(ss[i], acts[i].t, acts[i].id, ss[i + 1]);
  }

  lemma OkReturns(s: State, a: Action, s': State)
    requires Quiet(s, a, s') && ReturnsOk(s, a)
    ensures Returns(s, a.t, a.id, s')
  {
  }

  lemma ReturnerHolds(s: State, t: Tid, id: nat, s': State)
    requires ThreadsHold(s) && Returns(s, t, id, s')
    ensures InCall(t) in s.live && s.live[InCall(t)] == s.threads[t].pc.outcome.value.fd
  {
    assert Holds(s.live, t, s.threads[t].pc);
  }

  lemma HandleIsWellOwned(s: State, id: nat)
    requires Ownership(s) && CloexecKept(s) && Handle(id) in s.live
    ensures WellOwned(s, id, s.live[Handle(id)])
  {
    assert CloexecAt(s, Handle(id));
  }

  lemma NotYetAHandle(s: State, t: Tid)
    requires Ownership(s) && InCall(t) in s.live
    ensures s.live[InCall(t)] !in s.HandleFds()
  {
  }

  lemma CopyIsHandedOver(s: State, t: Tid, id: nat, s': State)
    requires ThreadsHold(s) && BorrowsHold(s) && CopiesShare(s) && Returns(s, t, id, s')
    requires CopyAt(s.threads[t].pc).Some?
    ensures CopyAt(s.threads[t].pc).value.0 in s.HandleFds()
    ensures SharesFile(s'.Open(), CopyAt(s.threads[t].pc).value)
  {
    CopyIsHeld(s, t);
  }

  lemma ReturnHandsOver(s: State, t: Tid, id: nat, s': State)
    requires Returns(s, t, id, s') && Ownership(s') && CloexecKept(s')
    requires Ownership(s) && ThreadsHold(s) && BorrowsHold(s) && CopiesShare(s)
    ensures HandsOver(s, t, id, s')
  {
    ReturnerHolds(s, t, id, s');
    NotYetAHandle(s, t);
    HandleIsWellOwned(s', id);
    if CopyAt(s.threads[t].pc).Some? {
      CopyIsHandedOver(s, t, id, s');
    }
  }

  /** A call that fails, and a discovery, returns with nothing in its hands: whatever is open afterwards belongs to a
      handle of the user, to another call in progress or to the rest of the process, or was leaked by an inquiry that
      failed. */
  lemma FailedCallLeavesNothing(ss: seq<State>, acts: seq<Action>, i: nat)
    requires Run(ss, acts) && i < |acts| && ReturnsErr(ss[i], acts[i])
    ensures ss[i + 1].live == ss[i].live && ss[i + 1].w == ss[i].w
    ensures InCall(acts[i].t) !in ss[i].live
    ensures ss[i].Open().Keys == ss[i].live.Values + ss[i].foreign + ss[i].leaked
  {
    RunKeepsInv(ss, acts, i);
    assert Goes(ss, acts, i);
    FailureLeavesNothing(ss[i], acts[i].t, ss[i + 1]);
  }

  lemma FailureLeavesNothing(s: State, t: Tid, s': State)
    requires Ownership(s) && ThreadsHold(s) && Fails(s, t, s')
    ensures s'.live == s.live && s'.w == s.w && InCall(t) !in s.live
    ensures s.Open().Keys == s.live.Values + s.foreign + s.leaked
  {
    FailureKeepsLive(s, t, s');
  }

  lemma FailureKeepsLive(s: State, t: Tid, s': State)
    requires ThreadsHold(s) && Fails(s, t, s')
    ensures s'.live == s.live && s'.w == s.w && InCall(t) !in s.live
  {
    assert Holds(s.live, t, s.threads[t].pc);
    SameLocalSameLive(s.live, t, s.threads[t].pc, Idle);
  }

  /** A descriptor without close-on-exec is foreign, leaked, or in the hands of a call that has just made it or is a
      discovery. */
  lemma LeakableOnlyInFlight(ss: seq<State>, acts: seq<Action>, i: nat, fd: Fd)
    requires Run(ss, acts) && i < |ss|
    requires fd in ss[i].Open() && !ss[i].Open()[fd].cloexec
    ensures
      || fd in ss[i].foreign
      || fd in ss[i].leaked
      || exists t ::
           && t in ss[i].threads
           && MayLackCloexec(ss[i].threads[t].pc)
           && Local(ss[i].threads[t].pc) == Some(fd)
  {
    RunKeepsInv(ss, acts, i);
    var s := ss[i];
    if fd !in s.foreign && fd !in s.leaked {
      assert fd in s.live.Values;
      var p :| p in s.live && s.live[p] == fd;
      assert p.InCall? && Local(s.threads[p.t].pc) == Some(fd);
    }
  }

  /** Where an older kernel's way of making a descriptor stands. */
  predicate IsOlder(pc: Pc) {
    pc.PlainDup? || pc.PlainSocket? || pc.PlainAccept?
  }

  /** Every older-kernel path goes through a window: what those calls return is open and unmarked. */
  lemma OlderCallsLeaveAWindow(ss: seq<State>, acts: seq<Action>, i: nat, t: Tid, fd: Fd, out: Out)
    requires Run(ss, acts) && i < |acts|
    requires acts[i] == Answer(t, Returned(fd, out)) && t in ss[i].threads
    requires IsOlder(ss[i].threads[t].pc)
    ensures t in ss[i + 1].threads && Local(ss[i + 1].threads[t].pc) == Some(fd)
    ensures fd in ss[i + 1].Open() && !ss[i + 1].Open()[fd].cloexec
  {
    RunKeepsInv(ss, acts, i);
    assert Goes(ss, acts, i);
    OlderCallOpensUnmarked(ss[i], t, fd, out, ss[i + 1]);
  }

  predicate MakesUnmarked(c: Call) {
    c.DupFd? || (c.Socket? && !c.cloexec) || c.Accept?
  }

  lemma OlderMakesUnmarked(pc: Pc)
    requires IsOlder(pc)
    ensures Wants(pc).Some? && MakesUnmarked(Wants(pc).value)
  {
  }

  lemma OlderCallOpensUnmarked(s: State, t: Tid, fd: Fd, out: Out, s': State)
    requires Inv(s) && Answers(s, t, Returned(fd, out), s') && IsOlder(s.threads[t].pc)
    ensures t in s'.threads && Local(s'.threads[t].pc) == Some(fd)
    ensures fd in s'.Open() && !s'.Open()[fd].cloexec
  {
    OlderMakesUnmarked(s.threads[t].pc);
    AnswersAreAnswered(s, t, Returned(fd, out), s');
    PlainCallOpensUnmarked(s, t, Wants(s.threads[t].pc).value, fd, out, s');
  }

  lemma PlainCallOpensUnmarked(s: State, t: Tid, c: Call, fd: Fd, out: Out, s': State)
    requires Concurrency.Answered(s, t, c, Returned(fd, out), false, s')
    requires MakesUnmarked(c)
    ensures t in s'.threads && Local(s'.threads[t].pc) == Some(fd)
    ensures fd in s'.Open() && !s'.Open()[fd].cloexec
  {
  }

  // ---------------------------------------------------------------- Closing

  predicate Closes(s: State, a: Action, fd: Fd) {
    a.Answer? && a.t in s.threads && Wants(s.threads[a.t].pc) == Some(Close(fd))
  }

  /** The crate closes only an open descriptor that one of its own values owns, and that value is gone with it:
      never a foreign descriptor, never one that another value still uses. */
  lemma CloseHitsOnlyItsOwn(ss: seq<State>, acts: seq<Action>, i: nat, fd: Fd)
    requires Run(ss, acts) && i < |acts| && Closes(ss[i], acts[i], fd)
    ensures fd in ss[i].Open() && fd !in ss[i].foreign && fd !in ss[i].leaked
    ensures forall p | p in ss[i].live && ss[i].live[p] == fd :: p == InCall(acts[i].t)
    ensures fd !in ss[i + 1].Open()
    ensures ss[i + 1].Open() == ss[i].Open() - {fd}
  {
    RunKeepsInv(ss, acts, i);
    assert Goes(ss, acts, i);
    CloserOwnsIt(ss[i], acts[i], fd);
    EffectOnFds(ss[i].w.tab, Close(fd), acts[i].ret, ss[i + 1].w.tab);
  }

  lemma CloserOwnsIt(s: State, a: Action, fd: Fd)
    requires Accounts(s) && Closes(s, a, fd)
    ensures fd in s.Open() && fd !in s.foreign && fd !in s.leaked
    ensures forall p | p in s.live && s.live[p] == fd :: p == InCall(a.t)
  {
    assert s.live[InCall(a.t)] == fd;
  }

  /** Two closes of the same number are closes of two descriptors: in between it was closed, then opened anew. */
  lemma ClosedOncePerOpening(ss: seq<State>, acts: seq<Action>, i: nat, j: nat, fd: Fd)
    requires Run(ss, acts) && i < j < |acts|
    requires Closes(ss[i], acts[i], fd) && Closes(ss[j], acts[j], fd)
    ensures exists k: nat :: i < k < j && fd !in ss[k].Open() && fd in ss[k + 1].Open()
  {
    CloseHitsOnlyItsOwn(ss, acts, i, fd);
    CloseHitsOnlyItsOwn(ss, acts, j, fd);
    var k: nat := i + 1;
    while fd !in ss[k + 1].Open()
      invariant i < k < j && fd !in ss[k].Open()
      decreases j - k
    {
      k := k + 1;
    }
  }

  /** The alternative the source's comment rejects, closing again after EINTR, does hit a foreign descriptor. */
  lemma RetriedCloseHitsForeign()
    ensures exists w0: World, w1: World, w2: World ::
      && Valid(w0.tab) && Valid(w1.tab) && Valid(w2.tab)
      && Step(w0, Close(5), Failed(EINTR), w1)
      && Step(w1, Socket(Rfcomm, true), Returned(5, Nothing), w2)
      && Closed(w2.tab, 5).fds == w1.tab.fds
  {
    var none := Tables(map[], map[]);
    var one := OpenNew(none, 5, 0, true, NewFile(Rfcomm, Fresh));
    OpenNewIsValid(none, 5, 0, true, NewFile(Rfcomm, Fresh));
    CloseUndoesAdds(none, 5, one);
    var w0, w1, w2 := World(one, 0, 1), World(none, 0, 0), World(one, 0, 0);
    assert Step(w0, Close(5), Failed(EINTR), w1);
    assert Step(w1, Socket(Rfcomm, true), Returned(5, Nothing), w2);
  }

  // ---------------------------------------------------------------- Conservation

  datatype Kind = Opening | Closing | Giving | Leaking | Neutral

  /** What an action does to the number of descriptors the crate is responsible for. */
  function KindOf(s: State, a: Action): Kind {
    match a
    case Answer(t, ret) =>
      if t in s.threads && Wants(s.threads[t].pc).Some?
      then KindOfCall(Wants(s.threads[t].pc).value, ret, Leaks(s.threads[t].pc, ret))
      else Neutral
    case IntoRaw(_) => Giving
    case _ => Neutral
  }

  function KindOfCall(c: Call, ret: Ret, leaks: bool): Kind {
    if c.Close? then Closing else if leaks then Leaking else if Opens(c) && ret.Returned? then Opening else Neutral
  }

  function Tally(ss: seq<State>, acts: seq<Action>, k: Kind): nat
    requires |ss| == |acts| + 1
  {
    if acts == [] then 0
    else Tally(ss[..|ss| - 1], acts[..|acts| - 1], k) + if KindOf(ss[|ss| - 2], acts[|acts| - 1]) == k then 1 else 0
  }

  function LiveAfter(k: Kind, n: int): int {
    match k
    case Opening => n + 1
    case Closing => n - 1
    case Giving => n - 1
    case Leaking => n - 1
    case Neutral => n
  }

  lemma CountOfRenamed(m: map<Place, Fd>, p: Place, q: Place)
    requires p in m && q !in m
    ensures |m - {p}| == |m| - 1
    ensures |(m - {p})[q := m[p]]| == |m|
  {
    assert (m - {p}).Keys == m.Keys - {p};
    assert (m - {p})[q := m[p]].Keys == m.Keys - {p} + {q};
  }

  lemma CountOfAdded(m: map<Place, Fd>, q: Place, fd: Fd)
    requires q !in m
    ensures |m[q := fd]| == |m| + 1
  {
    assert m[q := fd].Keys == m.Keys + {q};
  }

  lemma CountOfRemoved(m: map<Place, Fd>, p: Place)
    requires p in m
    ensures |m - {p}| == |m| - 1
  {
    assert (m - {p}).Keys == m.Keys - {p};
  }

  lemma LiveAfterOwn(c: Call, ret: Ret, leaks: bool, n: int)
    ensures LiveAfter(KindOfCall(c, ret, leaks), n) ==
      if c.Close? || leaks then n - 1 else if Opens(c) && ret.Returned? then n + 1 else n
  {
  }

  lemma CountAfterRemoval(live: map<Place, Fd>, t: Tid, c: Call, ret: Ret, leaks: bool)
    requires (c.Close? || leaks) && InCall(t) in live
    ensures |LiveAfterCall(live, t, c, ret, leaks)| == |live| - 1
  {
    CountOfRemoved(live, InCall(t));
  }

  lemma CountAfterOpening(live: map<Place, Fd>, t: Tid, c: Call, ret: Ret)
    requires Opens(c) && ret.Returned? && InCall(t) !in live
    ensures |LiveAfterCall(live, t, c, ret, false)| == |live| + 1
  {
    CountOfAdded(live, InCall(t), ret.value);
  }

  lemma CountAfterCall(live: map<Place, Fd>, t: Tid, c: Call, ret: Ret, leaks: bool)
    requires c.Close? || leaks ==> InCall(t) in live
    requires Opens(c) ==> InCall(t) !in live
    ensures |LiveAfterCall(live, t, c, ret, leaks)| == LiveAfter(KindOfCall(c, ret, leaks), |live|)
  {
    LiveAfterOwn(c, ret, leaks, |live|);
    if c.Close? || leaks {
      CountAfterRemoval(live, t, c, ret, leaks);
    } else if Opens(c) && ret.Returned? {
      CountAfterOpening(live, t, c, ret);
    }
  }

  lemma CountAfterLiveChange(live: map<Place, Fd>, t: Tid, c: Call, ret: Ret, leaks: bool, live': map<Place, Fd>)
    requires LiveChange(live, t, c, ret, leaks, live')
    ensures |live'| == LiveAfter(KindOfCall(c, ret, leaks), |live|)
  {
    CountAfterCall(live, t, c, ret, leaks);
  }

  lemma KindOfAnswer(s: State, t: Tid, ret: Ret)
    requires t in s.threads && Wants(s.threads[t].pc).Some?
    ensures KindOf(s, Answer(t, ret)) == KindOfCall(Wants(s.threads[t].pc).value, ret, Leaks(s.threads[t].pc, ret))
  {
  }

  lemma CountAfterAnswered(s: State, t: Tid, c: Call, ret: Ret, leaks: bool, s': State)
    requires Concurrency.Answered(s, t, c, ret, leaks, s')
    ensures |s'.live| == LiveAfter(KindOfCall(c, ret, leaks), |s.live|)
  {
    CountAfterLiveChange(s.live, t, c, ret, leaks, s'.live);
  }

  lemma AnswerChangesLive(s: State, t: Tid, ret: Ret, s': State)
    requires Inv(s) && Answers(s, t, ret, s')
    ensures |s'.live| == LiveAfter(KindOf(s, Answer(t, ret)), |s.live|)
  {
    KindOfAnswer(s, t, ret);
    AnswersAreAnswered(s, t, ret, s');
    CountAfterAnswered(s, t, Wants(s.threads[t].pc).value, ret, Leaks(s.threads[t].pc, ret), s');
  }

  lemma ReturnKeepsCount(s: State, t: Tid, id: nat, s': State)
    requires ThreadsHold(s) && Returns(s, t, id, s')
    ensures |s'.live| == |s.live|
  {
    ReturnerHolds(s, t, id, s');
    CountOfRenamed(s.live, InCall(t), Handle(id));
  }

  lemma DropKeepsCount(s: State, t: Tid, id: nat, s': State)
    requires ThreadsHold(s) && StartsDrop(s, t, id, s')
    ensures |s'.live| == |s.live|
  {
    assert Holds(s.live, t, s.threads[t].pc);
    CountOfRenamed(s.live, Handle(id), InCall(t));
  }

  /** A thread that keeps what it owns changes nothing for the live values. */
  lemma OwningUnmoved(s: State, t: Tid, pc: Pc)
    requires ThreadsHold(s) && t in s.threads && Local(pc) == Local(s.threads[t].pc)
    ensures Owning(s.live, t, pc) == s.live
  {
    SameLocalSameLive(s.live, t, s.threads[t].pc, pc);
  }

  lemma BeginKeepsLive(s: State, t: Tid, start: Pc, s': State)
    requires ThreadsHold(s) && Begins(s, t, start, s')
    ensures s'.live == s.live
  {
    OwningUnmoved(s, t, start);
  }

  lemma LoadKeepsLive(s: State, t: Tid, stamp: nat, s': State)
    requires ThreadsHold(s) && Loads(s, t, stamp, s')
    ensures s'.live == s.live
  {
    OwningUnmoved(s, t, s'.threads[t].pc);
  }

  lemma StoreKeepsLive(s: State, t: Tid, stamp: nat, s': State)
    requires ThreadsHold(s) && Stores(s, t, stamp, s')
    ensures s'.live == s.live
  {
    OwningUnmoved(s, t, s'.threads[t].pc);
  }

  lemma ReadClockKeepsLive(s: State, t: Tid, s': State)
    requires ThreadsHold(s) && ReadsClock(s, t, s')
    ensures s'.live == s.live
  {
    OwningUnmoved(s, t, s'.threads[t].pc);
  }

  lemma EndKeepsCount(s: State, t: Tid, id: nat, s': State)
    requires ThreadsHold(s) && (Fails(s, t, s') || Returns(s, t, id, s'))
    ensures |s'.live| == |s.live|
  {
    if Returns(s, t, id, s') {
      ReturnKeepsCount(s, t, id, s');
    } else {
      FailureKeepsLive(s, t, s');
    }
  }

  lemma MovesKeepLive(s: State, a: Action, s': State)
    requires ThreadsHold(s) && Quiet(s, a, s') && !a.Return? && !a.StartDrop? && !a.IntoRaw?
    ensures s'.live == s.live
  {
    match a
    case Begin(t, start) => BeginKeepsLive(s, t, start, s');
    case LoadFlag(t, stamp) => LoadKeepsLive(s, t, stamp, s');
    case StoreFlag(t, stamp) => StoreKeepsLive(s, t, stamp, s');
    case ReadClock(t) => ReadClockKeepsLive(s, t, s');
    case Spawn(_) =>
  }

  lemma GivingCounts(s: State, id: nat, s': State)
    requires GivesAway(s, id, s')
    ensures |s'.live| == |s.live| - 1
  {
    CountOfRemoved(s.live, Handle(id));
  }

  lemma QuietKeepsCount(s: State, a: Action, s': State)
    requires ThreadsHold(s) && Quiet(s, a, s')
    ensures |s'.live| == if a.IntoRaw? then |s.live| - 1 else |s.live|
  {
    match a
    case Return(t, id) => EndKeepsCount(s, t, id, s');
    case StartDrop(t, id) => DropKeepsCount(s, t, id, s');
    case IntoRaw(id) => GivingCounts(s, id, s');
    case _ => MovesKeepLive(s, a, s');
  }

  lemma OthersKeepLive(s: State, a: Action, s': State)
    requires Valid(s.w.tab) && Next(s, a, s') && (a.Use? || a.Foreign?)
    ensures |s'.live| == LiveAfter(KindOf(s, a), |s.live|)
  {
    LiveAfterOthers(s, a, |s.live|);
    assert s'.live == s.live;
  }

  lemma KindOfOthers(s: State, a: Action)
    requires !a.Answer?
    ensures KindOf(s, a) == if a.IntoRaw? then Giving else Neutral
  {
  }

  lemma LiveAfterOthers(s: State, a: Action, n: int)
    requires !a.Answer?
    ensures LiveAfter(KindOf(s, a), n) == if a.IntoRaw? then n - 1 else n
  {
  }

  lemma LiveChangesByOne(s: State, a: Action, s': State)
    requires Inv(s) && Next(s, a, s')
    ensures |s'.live| == LiveAfter(KindOf(s, a), |s.live|)
  {
    if a.Answer? {
      AnsweredChangesLive(s, a, s');
    } else if a.Use? || a.Foreign? {
      OthersKeepLive(s, a, s');
    } else {
      OthersAreQuiet(s, a, s');
      LiveAfterOthers(s, a, |s.live|);
      QuietKeepsCount(s, a, s');
    }
  }

  lemma OthersAreQuiet(s: State, a: Action, s': State)
    requires Valid(s.w.tab) && Next(s, a, s') && !(a.Answer? || a.Use? || a.Foreign?)
    ensures Quiet(s, a, s')
  {
  }

  lemma AnsweredChangesLive(s: State, a: Action, s': State)
    requires Inv(s) && Next(s, a, s') && a.Answer?
    ensures |s'.live| == LiveAfter(KindOf(s, a), |s.live|)
  {
    AnswerChangesLive(s, a.t, a.ret, s');
  }

  lemma RunPrefix(ss: seq<State>, acts: seq<Action>)
    requires Run(ss, acts) && acts != []
    ensures Run(ss[..|acts|], acts[..|acts| - 1])
  {
    var ss', acts' := ss[..|acts|], acts[..|acts| - 1];
    forall i: nat | i < |acts'|
      ensures Goes(ss', acts', i)
    {
      assert Goes(ss, acts, i);
    }
  }

  /** Every descriptor the crate ever opened was closed by it exactly once, given away exactly once, leaked by an
      inquiry that failed, or is owned by a value that is still alive; the leaked ones are as many as the failed
      inquiries; and the open descriptors are those of live values, the foreign and the leaked ones. */
  lemma DescriptorsAreConserved(ss: seq<State>, acts: seq<Action>)
    requires Run(ss, acts)
    ensures var last := ss[|acts|];
      && Tally(ss, acts, Opening) ==
           Tally(ss, acts, Closing) + Tally(ss, acts, Giving) + Tally(ss, acts, Leaking) + |last.live|
      && Tally(ss, acts, Leaking) == |last.leaked|
      && |last.Open()| == |last.live| + |last.foreign| + |last.leaked|
  {
    RunKeepsInv(ss, acts, |acts|);
    OpenIsAccountedFor(ss[|acts|]);
    TalliesBalance(ss, acts);
    LeaksAreCounted(ss, acts);
  }

  lemma LeakedByOne(s: State, a: Action, s': State)
    requires Inv(s) && Next(s, a, s')
    ensures s.leaked <= s'.leaked
    ensures |s'.leaked| == |s.leaked| + if KindOf(s, a) == Leaking then 1 else 0
  {
    if a.Answer? {
      AnswerLeaks(s, a.t, a.ret, s');
    } else {
      KindOfOthers(s, a);
      OthersLeakNothing(s, a, s');
    }
  }

  lemma AnsweredLeaks(s: State, t: Tid, c: Call, ret: Ret, leaks: bool, s': State)
    requires Ownership(s) && Concurrency.Answered(s, t, c, ret, leaks, s')
    ensures s.leaked <= s'.leaked
    ensures |s'.leaked| == |s.leaked| + if leaks then 1 else 0
  {
  }

  lemma LeakingKind(s: State, t: Tid, ret: Ret)
    requires t in s.threads && Wants(s.threads[t].pc).Some?
    ensures KindOf(s, Answer(t, ret)) == Leaking <==> Leaks(s.threads[t].pc, ret)
  {
  }

  lemma AnswerLeaks(s: State, t: Tid, ret: Ret, s': State)
    requires Inv(s) && Answers(s, t, ret, s')
    ensures s.leaked <= s'.leaked
    ensures |s'.leaked| == |s.leaked| + if KindOf(s, Answer(t, ret)) == Leaking then 1 else 0
  {
    AnswersAreAnswered(s, t, ret, s');
    AnsweredLeaks(s, t, Wants(s.threads[t].pc).value, ret, Leaks(s.threads[t].pc, ret), s');
    LeakingKind(s, t, ret);
  }

  lemma OthersLeakNothing(s: State, a: Action, s': State)
    requires Valid(s.w.tab) && Next(s, a, s') && !a.Answer?
    ensures s'.leaked == s.leaked
  {
  }

  lemma OneMoreLeaked(ss: seq<State>, acts: seq<Action>)
    requires |ss| == |acts| + 1 && acts != []
    requires Tally(ss[..|acts|], acts[..|acts| - 1], Leaking) == |ss[|acts| - 1].leaked|
    requires |ss[|acts|].leaked| ==
      |ss[|acts| - 1].leaked| + if KindOf(ss[|acts| - 1], acts[|acts| - 1]) == Leaking then 1 else 0
    ensures Tally(ss, acts, Leaking) == |ss[|acts|].leaked|
  {
  }

  lemma {:induction false} LeaksAreCounted(ss: seq<State>, acts: seq<Action>)
    requires Run(ss, acts)
    ensures Tally(ss, acts, Leaking) == |ss[|acts|].leaked|
    decreases |acts|
  {
    var n := |acts|;
    if n > 0 {
      RunPrefix(ss, acts);
      LeaksAreCounted(ss[..n], acts[..n - 1]);
      RunKeepsInv(ss, acts, n - 1);
      assert Goes(ss, acts, n - 1);
      LeakedByOne(ss[n - 1], acts[n - 1], ss[n]);
      OneMoreLeaked(ss, acts);
    }
  }

  lemma StepKeepsLeaked(ss: seq<State>, acts: seq<Action>, k: nat)
    requires Run(ss, acts) && k < |acts|
    ensures ss[k].leaked <= ss[k + 1].leaked
  {
    RunKeepsInv(ss, acts, k);
    assert Goes(ss, acts, k);
    LeakedByOne(ss[k], acts[k], ss[k + 1]);
  }

  lemma {:induction false} LeakedForEver(ss: seq<State>, acts: seq<Action>, i: nat, j: nat)
    requires Run(ss, acts) && i <= j < |ss|
    ensures ss[i].leaked <= ss[j].leaked
    decreases j
  {
    if i < j {
      LeakedForEver(ss, acts, i, j - 1);
      StepKeepsLeaked(ss, acts, j - 1);
    }
  }

  /** A leaked descriptor stays open for ever. */
  lemma LeakedStaysOpen(ss: seq<State>, acts: seq<Action>, i: nat, j: nat, fd: Fd)
    requires Run(ss, acts) && i <= j < |ss| && fd in ss[i].leaked
    ensures fd in ss[j].leaked && fd in ss[j].Open()
  {
    LeakedForEver(ss, acts, i, j);
    RunKeepsInv(ss, acts, j);
  }

  /** What was opened is what was closed, given away, leaked or is still live. */
  predicate Tallied(ss: seq<State>, acts: seq<Action>)
    requires |ss| == |acts| + 1
  {
    Tally(ss, acts, Opening) ==
      Tally(ss, acts, Closing) + Tally(ss, acts, Giving) + Tally(ss, acts, Leaking) + |ss[|acts|].live|
  }

  lemma OneMoreTallied(ss: seq<State>, acts: seq<Action>)
    requires |ss| == |acts| + 1 && acts != [] && Tallied(ss[..|acts|], acts[..|acts| - 1])
    requires |ss[|acts|].live| == LiveAfter(KindOf(ss[|acts| - 1], acts[|acts| - 1]), |ss[|acts| - 1].live|)
    ensures Tallied(ss, acts)
  {
  }

  lemma {:induction false} TalliesBalance(ss: seq<State>, acts: seq<Action>)
    requires Run(ss, acts)
    ensures Tallied(ss, acts)
    decreases |acts|
  {
    var n := |acts|;
    if n > 0 {
      RunPrefix(ss, acts);
      TalliesBalance(ss[..n], acts[..n - 1]);
      RunKeepsInv(ss, acts, n - 1);
      assert Goes(ss, acts, n - 1);
      LiveChangesByOne(ss[n - 1], acts[n - 1], ss[n]);
      OneMoreTallied(ss, acts);
    }
  }

  lemma OpenIsAccountedFor(s: State)
    requires Inv(s)
    ensures |s.Open()| == |s.live| + |s.foreign| + |s.leaked|
  {
    ValuesOfInjection(s.live);
    assert s.live.Values !! s.foreign && s.live.Values + s.foreign !! s.leaked;
    assert |s.Open().Keys| == |s.live.Values + s.foreign + s.leaked|;
  }

  lemma {:induction false} ValuesOfInjection(m: map<Place, Fd>)
    requires forall p, q | p in m && q in m && p != q :: m[p] != m[q]
    ensures |m.Values| == |m|
    decreases |m|
  {
    if m == map[] {
      assert m.Values == {};
    } else {
      var p :| p in m;
      var rest := m - {p};
      ValuesOfInjection(rest);
      assert rest.Values == m.Values - {m[p]} by {
        assert forall q | q in rest :: rest[q] == m[q];
      }
      assert |m| == |rest| + 1 by {
        assert m.Keys == rest.Keys + {p};
      }
    }
  }

  /** Once no call is in progress nothing else is left over: what is open is the user's handles, the foreign ones and
      what failed inquiries leaked. */
  lemma QuietStatesHoldNoStrays(ss: seq<State>, acts: seq<Action>, i: nat)
    requires Run(ss, acts) && i < |ss|
    requires forall t | t in ss[i].threads :: ss[i].threads[t].pc.Idle?
    ensures ss[i].Open().Keys == ss[i].HandleFds() + ss[i].foreign + ss[i].leaked
    ensures forall p | p in ss[i].live :: p.Handle?
  {
    RunKeepsInv(ss, acts, i);
    var s := ss[i];
    forall p | p in s.live
      ensures p.Handle?
    {
      assert p.InCall? ==> p.t in s.threads && Local(s.threads[p.t].pc).Some?;
    }
    assert s.live.Values == s.HandleFds();
  }

  // ---------------------------------------------------------------- Sharing

  predicate Keeps(s: State, id: nat, s': State) {
    && Handle(id) in s.live
    && Handle(id) in s'.live
    && s'.live[Handle(id)] == s.live[Handle(id)]
    && s.live[Handle(id)] in s.Open()
    && s.live[Handle(id)] in s'.Open()
    && s'.Open()[s.live[Handle(id)]].file == s.Open()[s.live[Handle(id)]].file
  }

  lemma HandleKeepsOwn(s: State, id: nat)
    requires Ownership(s) && Handle(id) in s.live
    ensures Keeps(s, id, s)
  {
  }

  lemma KeepsOn(s: State, mid: State, s': State, id: nat)
    requires Keeps(s, id, mid) && Keeps(mid, id, s')
    ensures Keeps(s, id, s')
  {
  }

  /** While a handle lives it keeps its number and its open file description. */
  lemma {:induction false} HandleKeepsItsFile(ss: seq<State>, acts: seq<Action>, i: nat, j: nat, id: nat)
    requires Run(ss, acts) && i <= j < |ss|
    requires forall k: nat | i <= k <= j :: Handle(id) in ss[k].live
    ensures Keeps(ss[i], id, ss[j])
    decreases j
  {
    if i == j {
      RunKeepsInv(ss, acts, i);
      HandleKeepsOwn(ss[i], id);
    } else {
      HandleKeepsItsFile(ss, acts, i, j - 1, id);
      HandleSurvivesStep(ss, acts, j - 1, id);
      KeepsOn(ss[i], ss[j - 1], ss[j], id);
    }
  }

  lemma HandleSurvivesStep(ss: seq<State>, acts: seq<Action>, k: nat, id: nat)
    requires Run(ss, acts) && k < |acts|
    requires Handle(id) in ss[k].live && Handle(id) in ss[k + 1].live
    ensures Keeps(ss[k], id, ss[k + 1])
  {
    RunKeepsInv(ss, acts, k);
    assert Goes(ss, acts, k);
    HandleSurvivesAction(ss[k], acts[k], ss[k + 1], id);
  }

  lemma HandleSurvivesAction(s: State, a: Action, s': State, id: nat)
    requires Inv(s) && Next(s, a, s')
    requires Handle(id) in s.live && Handle(id) in s'.live
    ensures Keeps(s, id, s')
  {
    if a.Answer? {
      HandleSurvivesOwnCall(s, a, s', id);
    } else if a.Use? || a.Foreign? {
      HandleSurvivesCall(s, a, s', id);
    } else {
      HandleSurvivesQuiet(s, a, s', id);
    }
  }

  lemma HandleSurvivesOwnCall(s: State, a: Action, s': State, id: nat)
    requires Inv(s) && Next(s, a, s') && a.Answer? && Handle(id) in s.live
    ensures Keeps(s, id, s')
  {
    AnswersAreAnswered(s, a.t, a.ret, s');
    HandleSurvivesAnswer(s, a.t, Wants(s.threads[a.t].pc).value, a.ret, Leaks(s.threads[a.t].pc, a.ret), s', id);
  }

  lemma HandleSurvivesCall(s: State, a: Action, s': State, id: nat)
    requires Inv(s) && Next(s, a, s') && (a.Use? || a.Foreign?) && Handle(id) in s.live
    ensures Keeps(s, id, s')
  {
    StepFacts(s, a.call, a.ret, s'.w);
    OthersCloseForeign(s, a, s');
    HandleSurvivesOthers(s, a.call, a.ret, s', id);
  }

  lemma OthersCloseForeign(s: State, a: Action, s': State)
    requires Valid(s.w.tab) && Next(s, a, s') && (a.Use? || a.Foreign?)
    ensures s'.live == s.live && (a.call.Close? ==> a.call.fd in s.foreign)
  {
  }

  lemma HandleSurvivesAnswer(s: State, t: Tid, c: Call, ret: Ret, leaks: bool, s': State, id: nat)
    requires Accounts(s) && Concurrency.Answered(s, t, c, ret, leaks, s') && Handle(id) in s.live
    ensures Keeps(s, id, s')
  {
    CloseHitsNobodyElse(s, t, c, ret, leaks, s', Handle(id));
    FdStays(s.w.tab, c, ret, s'.w.tab, s.live[Handle(id)]);
  }

  lemma HandleSurvivesOthers(s: State, c: Call, ret: Ret, s': State, id: nat)
    requires Ownership(s) && FdsChange(s.w.tab, c, ret, s'.w.tab) && Handle(id) in s.live
    requires s'.live == s.live && (c.Close? ==> c.fd in s.foreign)
    ensures Keeps(s, id, s')
  {
    FdStays(s.w.tab, c, ret, s'.w.tab, s.live[Handle(id)]);
  }

  lemma QuietKeepsHandle(s: State, a: Action, s': State, id: nat)
    requires Quiet(s, a, s') && Handle(id) in s.live && Handle(id) in s'.live
    ensures s'.live[Handle(id)] == s.live[Handle(id)]
  {
  }

  lemma HandleSurvivesQuiet(s: State, a: Action, s': State, id: nat)
    requires Ownership(s) && Handle(id) in s.live && Handle(id) in s'.live
    requires Quiet(s, a, s')
    ensures Keeps(s, id, s')
  {
    QuietMovesNothing(s, a, s');
    QuietKeepsHandle(s, a, s', id);
  }

  /** Two handles on one description at any time are on one description as long as both live, so the mode, the
      options and the connection state read through either are the same in every later state. */
  lemma ClonesSeeTheSame(ss: seq<State>, acts: seq<Action>, i: nat, j: nat, a: nat, b: nat)
    requires Run(ss, acts) && i <= j < |ss|
    requires forall k: nat | i <= k <= j :: Handle(a) in ss[k].live && Handle(b) in ss[k].live
    requires SharesFile(ss[i].Open(), (ss[i].live[Handle(a)], ss[i].live[Handle(b)]))
    ensures Valid(ss[j].w.tab)
    ensures ss[j].live[Handle(a)] in ss[j].Open() && ss[j].live[Handle(b)] in ss[j].Open()
    ensures FileOf(ss[j].w.tab, ss[j].live[Handle(a)]) == FileOf(ss[j].w.tab, ss[j].live[Handle(b)])
  {
    RunKeepsInv(ss, acts, j);
    HandleKeepsItsFile(ss, acts, i, j, a);
    HandleKeepsItsFile(ss, acts, i, j, b);
  }

  // ---------------------------------------------------------------- TRY_CLOEXEC

  /** A probe that the kernel rejected with EINVAL. */
  predicate FailedProbe(s: State, a: Action, t: Tid) {
    a.Answer? && a.t == t && a.ret == Failed(EINVAL) && t in s.threads && s.threads[t].pc.Probing?
  }

  /** Thread `t` will never probe again. */
  predicate Spent(s: State, t: Tid) {
    t in s.threads && (s.threads[t].view > 0 || s.threads[t].pc.StoringTry?)
  }

  /** Threads stay, and so does what they saw. */
  lemma SpentStays(s: State, a: Action, s': State, t: Tid)
    requires Valid(s.w.tab) && Next(s, a, s') && t in s.threads
    ensures t in s'.threads
    ensures Spent(s, t) ==> Spent(s', t)
  {
    if a.Answer? {
      SpentStaysOnAnswer(s, a.t, a.ret, s', t);
    } else if !(a.Use? || a.Foreign?) {
      SpentStaysQuiet(s, a, s', t);
    }
  }

  lemma SpentStaysOnAnswer(s: State, u: Tid, ret: Ret, s': State, t: Tid)
    requires t in s.threads && u in s.threads && Wants(s.threads[u].pc).Some?
    requires s'.threads == s.threads[u := s.threads[u].(pc := Resume(s.threads[u].pc, ret))]
    ensures t in s'.threads
    ensures Spent(s, t) ==> Spent(s', t)
  {
  }

  lemma SpentStaysQuiet(s: State, a: Action, s': State, t: Tid)
    requires Quiet(s, a, s') && t in s.threads
    ensures t in s'.threads
    ensures Spent(s, t) ==> Spent(s', t)
  {
  }

  predicate StaysSpent(s: State, s': State, t: Tid) {
    t in s.threads ==> t in s'.threads && (Spent(s, t) ==> Spent(s', t))
  }

  lemma StepStaysSpent(ss: seq<State>, acts: seq<Action>, k: nat, t: Tid)
    requires Run(ss, acts) && k < |acts|
    ensures StaysSpent(ss[k], ss[k + 1], t)
  {
    if t in ss[k].threads {
      RunKeepsInv(ss, acts, k);
      assert Goes(ss, acts, k);
      SpentStays(ss[k], acts[k], ss[k + 1], t);
    }
  }

  lemma {:induction false} SpentForever(ss: seq<State>, acts: seq<Action>, i: nat, j: nat, t: Tid)
    requires Run(ss, acts) && i <= j < |ss|
    ensures StaysSpent(ss[i], ss[j], t)
    decreases j
  {
    if i < j {
      SpentForever(ss, acts, i, j - 1, t);
      StepStaysSpent(ss, acts, j - 1, t);
    }
  }

  /** Whatever the kernel does and however stale a relaxed load is, a thread suffers at most one rejected probe
      over all its calls, and never probes after it. */
  lemma AtMostOneFailedProbePerThread(ss: seq<State>, acts: seq<Action>, i: nat, j: nat, t: Tid)
    requires Run(ss, acts) && i < j < |acts| && FailedProbe(ss[i], acts[i], t)
    ensures t in ss[j].threads && !ss[j].threads[t].pc.Probing?
    ensures !FailedProbe(ss[j], acts[j], t)
  {
    assert Goes(ss, acts, i);
    assert Spent(ss[i + 1], t);
    SpentForever(ss, acts, i + 1, j, t);
    RunKeepsInv(ss, acts, j);
  }

  /** What a thread learns about the flag: a load that reads `false`, or its own store. */
  predicate SeesFalse(s: State, a: Action, t: Tid) {
    match a
    case LoadFlag(u, stamp) => u == t && stamp in s.flag && !s.flag[stamp]
    case StoreFlag(u, _) => u == t
    case _ => false
  }

  lemma SeeingSpends(s: State, a: Action, s': State, t: Tid)
    requires FlagRespected(s) && Quiet(s, a, s') && SeesFalse(s, a, t)
    ensures Spent(s', t)
  {
  }

  lemma SpentReadsFalse(s: State, t: Tid, stamp: nat, s': State)
    requires FlagRespected(s) && Spent(s, t) && Loads(s, t, stamp, s')
    ensures stamp in s.flag && !s.flag[stamp]
  {
  }

  lemma SpentAfterSeeing(ss: seq<State>, acts: seq<Action>, i: nat, t: Tid)
    requires Run(ss, acts) && i < |acts| && SeesFalse(ss[i], acts[i], t)
    ensures Spent(ss[i + 1], t)
  {
    RunKeepsInv(ss, acts, i);
    assert Goes(ss, acts, i);
    SeeingSpends(ss[i], acts[i], ss[i + 1], t);
  }

  lemma FalseOnceSpent(ss: seq<State>, acts: seq<Action>, j: nat, t: Tid, stamp: nat)
    requires Run(ss, acts) && j < |acts| && Spent(ss[j], t) && acts[j] == LoadFlag(t, stamp)
    ensures stamp in ss[j].flag && !ss[j].flag[stamp]
  {
    RunKeepsInv(ss, acts, j);
    assert Goes(ss, acts, j);
    SpentReadsFalse(ss[j], t, stamp, ss[j + 1]);
  }

  /** The flag only ever goes from `true` to `false`, as every single thread sees it: after it has read or stored
      `false` it never reads `true` again. */
  lemma FlagOnlyFalls(ss: seq<State>, acts: seq<Action>, i: nat, j: nat, t: Tid, stamp: nat)
    requires Run(ss, acts) && i < j < |acts|
    requires SeesFalse(ss[i], acts[i], t) && acts[j] == LoadFlag(t, stamp)
    ensures stamp in ss[j].flag && !ss[j].flag[stamp]
  {
    SpentAfterSeeing(ss, acts, i, t);
    SpentForever(ss, acts, i + 1, j, t);
    FalseOnceSpent(ss, acts, j, t, stamp);
  }

  function FailedProbes(ss: seq<State>, acts: seq<Action>): set<nat>
    requires |ss| == |acts| + 1
  {
    set i: nat | i < |acts| && acts[i].Answer? && FailedProbe(ss[i], acts[i], acts[i].t)
  }

  /** All rejected probes of a run together are at most as many as its threads; with one thread, at most one. */
  lemma FailedProbesAtMostThreads(ss: seq<State>, acts: seq<Action>)
    requires Run(ss, acts)
    ensures |FailedProbes(ss, acts)| <= |ss[|ss| - 1].threads|
  {
    var probes := FailedProbes(ss, acts);
    var last := ss[|ss| - 1].threads.Keys;
    forall i | i in probes
      ensures acts[i].t in last
    {
      SpentForever(ss, acts, i, |acts|, acts[i].t);
    }
    forall i, j | i in probes && j in probes && i != j
      ensures acts[i].t != acts[j].t
    {
      if acts[i].t == acts[j].t {
        AtMostOneFailedProbePerThread(ss, acts, if i < j then i else j, if i < j then j else i, acts[i].t);
      }
    }
    InjectionBounds(probes, last, map i | i in probes :: acts[i].t);
  }

  lemma {:induction false} InjectionBounds(from: set<nat>, to: set<Tid>, f: map<nat, Tid>)
    requires f.Keys == from
    requires forall i | i in from :: f[i] in to
    requires forall i, j | i in from && j in from && i != j :: f[i] != f[j]
    ensures |from| <= |to|
  {
    if from != {} {
      var i :| i in from;
      InjectionBounds(from - {i}, to - {f[i]}, f - {i});
    }
  }
}
