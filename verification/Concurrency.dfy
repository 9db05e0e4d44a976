/** Any number of threads inside operations of the crate, interleaved with each other and with the rest of the
    process, system call by system call. */
module Concurrency {
  import opened Base
  import opened Kernel
  import opened Program

  type Tid = nat

  /** Where a live `FileDesc` value is: in the hands of the user, or in a thread inside a call. */
  datatype Place = Handle(id: nat) | InCall(t: Tid)

  /** `view` is how far in the order of the stores to `TRY_CLOEXEC` this thread has seen. */
  datatype Thread = Thread(pc: Pc, view: nat)

  /** `flag` holds every store to `TRY_CLOEXEC` at its place in their order, the initial one at 0.  `foreign` are the
      open descriptors that no `FileDesc` owns, `into_raw` ones among them; `leaked` those that failed inquiries left
      open. */
  datatype State = State(w: World, flag: map<nat, bool>, threads: map<Tid, Thread>, live: map<Place, Fd>,
                         foreign: set<Fd>, leaked: set<Fd>)
  {
    function Open(): map<Fd, Descriptor> {
      w.tab.fds
    }

    function HandleFds(): set<Fd> {
      set p | p in live && p.Handle? :: live[p]
    }

    predicate IsBorrowed(fd: Fd) {
      exists t :: t in threads && Borrowed(threads[t].pc) == Some(fd)
    }
  }

  datatype Action =
    | Spawn(t: Tid)
    | Begin(t: Tid, start: Pc)
    | LoadFlag(t: Tid, stamp: nat)
    | StoreFlag(t: Tid, stamp: nat)
    | ReadClock(t: Tid)
    | Answer(t: Tid, ret: Ret)
    | Return(t: Tid, id: nat)
    | StartDrop(t: Tid, id: nat)
    | IntoRaw(id: nat)
    | Use(id: nat, call: Call, ret: Ret)
    | Foreign(call: Call, ret: Ret)

  /** The live values once thread `t` is at `pc`. */
  function Owning(live: map<Place, Fd>, t: Tid, pc: Pc): map<Place, Fd> {
    match Local(pc)
    case None => live - {InCall(t)}
    case Some(fd) => live[InCall(t) := fd]
  }

  function Moved(s: State, t: Tid, th: Thread, w: World): State {
    s.(w := w, threads := s.threads[t := th], live := Owning(s.live, t, th.pc))
  }

  /** Operations on an existing handle borrow it for their whole length. */
  predicate Starts(s: State, pc: Pc) {
    match pc
    case LoadingTry(fd) => fd in s.HandleFds()
    case ModernAccept(fd) => fd in s.HandleFds()
    case ModernSocket(_) => true
    case Discovering(stage) => stage.Routing?
    case _ => false
  }

  /** The descriptor a thread at `pc` walks away from when its call answers `r`. */
  function LeakedBy(pc: Pc, r: Ret): set<Fd> {
    if Leaks(pc, r) then {pc.stage.fd} else {}
  }

  /** The descriptors the rest of the process has after its call. */
  function ForeignAfter(s: State, c: Call, r: Ret): set<Fd> {
    if c.Close? then s.foreign - {c.fd}
    else if Opens(c) && r.Returned? then s.foreign + {r.value}
    else s.foreign
  }

  predicate Begins(s: State, t: Tid, start: Pc, s': State) {
    && t in s.threads && s.threads[t].pc.Idle? && Starts(s, start)
    && s' == Moved(s, t, s.threads[t].(pc := start), s.w)
  }

  /** A relaxed load reads some store, though none before one that this thread has already seen. */
  predicate Loads(s: State, t: Tid, stamp: nat, s': State) {
    && t in s.threads && s.threads[t].pc.LoadingTry?
    && stamp in s.flag && s.threads[t].view <= stamp
    && var source := s.threads[t].pc.source;
    s' == Moved(s, t, Thread(if s.flag[stamp] then Probing(source) else PlainDup(source), stamp), s.w)
  }

  /** A relaxed store takes some free place after everything this thread has seen. */
  predicate Stores(s: State, t: Tid, stamp: nat, s': State) {
    && t in s.threads && s.threads[t].pc.StoringTry?
    && stamp !in s.flag && s.threads[t].view < stamp
    && s' == Moved(s.(flag := s.flag[stamp := false]), t, Thread(PlainDup(s.threads[t].pc.source), stamp), s.w)
  }

  /** A timed connect reads the clock. */
  predicate ReadsClock(s: State, t: Tid, s': State) {
    && t in s.threads
    && s.threads[t].pc.ConnectingTimed?
    && (s.threads[t].pc.at.Starting? || s.threads[t].pc.at.Checking?)
    && s' == Moved(s, t, s.threads[t].(pc := OnClock(s.threads[t].pc, s.w.clock)), s.w)
  }

  predicate Answers(s: State, t: Tid, ret: Ret, s': State)
    requires Valid(s.w.tab)
  {
    && t in s.threads && Wants(s.threads[t].pc).Some?
    && Step(s.w, Wants(s.threads[t].pc).value, ret, s'.w)
    && s' == Resumed(s, t, ret, s'.w)
  }

  /** The state once the call of thread `t` has answered `ret`. */
  function Resumed(s: State, t: Tid, ret: Ret, w: World): State
    requires t in s.threads && Wants(s.threads[t].pc).Some?
  {
    var pc := s.threads[t].pc;
    Moved(s.(leaked := s.leaked + LeakedBy(pc, ret)), t, s.threads[t].(pc := Resume(pc, ret)), w)
  }

  /** A call that hands out no descriptor is over: it failed, or it was a discovery. */
  predicate EndsEmpty(pc: Pc) {
    (pc.Done? && pc.outcome.Err?) || (pc.Discovering? && pc.stage.Finished?)
  }

  predicate Fails(s: State, t: Tid, s': State) {
    && t in s.threads && EndsEmpty(s.threads[t].pc)
    && s' == Moved(s, t, s.threads[t].(pc := Idle), s.w)
  }

  /** The caller receives the descriptor as the new live value `id`. */
  predicate Returns(s: State, t: Tid, id: nat, s': State) {
    && t in s.threads && s.threads[t].pc.Done? && s.threads[t].pc.outcome.Ok?
    && Handle(id) !in s.live
    && s' == s.(threads := s.threads[t := s.threads[t].(pc := Idle)],
                live := (s.live - {InCall(t)})[Handle(id) := s.threads[t].pc.outcome.value.fd])
  }

  /** Ownership rules out dropping or giving away a value while some call borrows it. */
  predicate StartsDrop(s: State, t: Tid, id: nat, s': State) {
    && t in s.threads && s.threads[t].pc.Idle?
    && Handle(id) in s.live && !s.IsBorrowed(s.live[Handle(id)])
    && s' == s.(threads := s.threads[t := s.threads[t].(pc := Dropping(s.live[Handle(id)]))],
                live := (s.live - {Handle(id)})[InCall(t) := s.live[Handle(id)]])
  }

  predicate GivesAway(s: State, id: nat, s': State) {
    && Handle(id) in s.live && !s.IsBorrowed(s.live[Handle(id)])
    && s' == s.(live := s.live - {Handle(id)}, foreign := s.foreign + {s.live[Handle(id)]})
  }

  /** The actions without a system call. */
  predicate Quiet(s: State, a: Action, s': State) {
    match a
    case Spawn(t) => t !in s.threads && s' == s.(threads := s.threads[t := Thread(Idle, 0)])
    case Begin(t, start) => Begins(s, t, start, s')
    case LoadFlag(t, stamp) => Loads(s, t, stamp, s')
    case StoreFlag(t, stamp) => Stores(s, t, stamp, s')
    case ReadClock(t) => ReadsClock(s, t, s')
    case Return(t, id) => Fails(s, t, s') || Returns(s, t, id, s')
    case StartDrop(t, id) => StartsDrop(s, t, id, s')
    case IntoRaw(id) => GivesAway(s, id, s')
    case _ => false
  }

  predicate Next(s: State, a: Action, s': State)
    requires Valid(s.w.tab)
  {
    match a
    case Answer(t, ret) => Answers(s, t, ret, s')
    case Use(id, c, ret) =>
      && Handle(id) in s.live && Benign(c) && Target(c) == Some(s.live[Handle(id)])
      && Step(s.w, c, ret, s'.w)
      && s' == s.(w := s'.w)
    case Foreign(c, ret) =>
      && (Target(c) == None || Target(c).value in s.foreign)
      && Step(s.w, c, ret, s'.w)
      && s' == s.(w := s'.w, foreign := ForeignAfter(s, c, ret))
    case _ => Quiet(s, a, s')
  }

  // ---------------------------------------------------------------- The invariant

  /** Live values own pairwise distinct descriptors, none of them foreign or leaked, and nothing else is open. */
  predicate Ownership(s: State) {
    && s.Open().Keys == s.live.Values + s.foreign + s.leaked
    && (forall p, q | p in s.live && q in s.live && p != q :: s.live[p] != s.live[q])
    && (forall p | p in s.live :: s.live[p] !in s.foreign && s.live[p] !in s.leaked)
    && s.foreign !! s.leaked
  }

  /** A thread at `pc` holds a live value exactly when its place in the program says so. */
  predicate Holds(live: map<Place, Fd>, t: Tid, pc: Pc) {
    match Local(pc)
    case None => InCall(t) !in live
    case Some(fd) => InCall(t) in live && live[InCall(t)] == fd
  }

  predicate ThreadsHold(s: State) {
    && (forall t | t in s.threads :: Holds(s.live, t, s.threads[t].pc))
    && (forall p | p in s.live && p.InCall? :: p.t in s.threads)
  }

  /** The value at `p` is close-on-exec, or it is in a call that may still be marking it. */
  predicate CloexecAt(s: State, p: Place) {
    && p in s.live
    && s.live[p] in s.Open()
    && (p.InCall? ==> p.t in s.threads)
    && (s.Open()[s.live[p]].cloexec || (p.InCall? && MayLackCloexec(s.threads[p.t].pc)))
  }

  /** Close-on-exec is missing at most between a descriptor's creation and the end of its marking. */
  predicate CloexecKept(s: State) {
    forall p | p in s.live :: CloexecAt(s, p)
  }

  predicate BorrowsHold(s: State) {
    forall t | t in s.threads && Borrowed(s.threads[t].pc).Some? :: Borrowed(s.threads[t].pc).value in s.HandleFds()
  }

  /** The source and the copy a thread at `pc` is about to hand out. */
  function CopyAt(pc: Pc): Option<(Fd, Fd)> {
    match pc
    case Marking(fd, CopyOf(source)) => Some((source, fd))
    case Done(Ok(made), Some(CopyOf(source))) => Some((source, made.fd))
    case _ => None
  }

  predicate SharesFile(fds: map<Fd, Descriptor>, pair: (Fd, Fd)) {
    pair.0 in fds && pair.1 in fds && fds[pair.0].file == fds[pair.1].file
  }

  predicate CopiesShare(s: State) {
    forall t | t in s.threads && CopyAt(s.threads[t].pc).Some? :: SharesFile(s.Open(), CopyAt(s.threads[t].pc).value)
  }

  /** Only the initial value of `TRY_CLOEXEC` is true. */
  predicate FlagHistory(flag: map<nat, bool>) {
    0 in flag && forall i | i in flag :: flag[i] <==> i == 0
  }

  /** Nobody probes after having seen `false`. */
  predicate FlagRespected(s: State) {
    FlagHistory(s.flag) && forall t | t in s.threads && s.threads[t].pc.Probing? :: s.threads[t].view == 0
  }

  predicate Accounts(s: State) {
    && Ownership(s)
    && ThreadsHold(s)
    && CloexecKept(s)
    && BorrowsHold(s)
    && CopiesShare(s)
    && FlagRespected(s)
  }

  predicate Inv(s: State) {
    Valid(s.w.tab) && Accounts(s)
  }

  predicate Init(s: State) {
    && Valid(s.w.tab)
    && s.live == map[]
    && s.foreign == s.Open().Keys
    && s.leaked == {}
    && s.flag == map[0 := true]
    && forall t | t in s.threads :: s.threads[t] == Thread(Idle, 0)
  }

  lemma InitInv(s: State)
    requires Init(s)
    ensures Inv(s)
  {
  }

  /** How a call, answered by `r`, moves a thread from `pc` to `pc'`: opening calls give it a descriptor, closing takes
      it, leaking loses it, others are about its own. */
  predicate Shapes(pc: Pc, c: Call, r: Ret, leaks: bool, pc': Pc) {
    && (Opens(c) ==> !leaks && Local(pc) == None && Local(pc') == (if r.Returned? then Some(r.value) else None))
    && (c.Close? ==> !leaks && Local(pc) == Some(c.fd) && Local(pc') == None)
    && (Benign(c) ==> Local(pc') == (if leaks then None else Local(pc)))
    && (Benign(c) && Target(c).Some? ==> Local(pc) == Target(c))
    && (leaks ==> Local(pc).Some?)
    && (Borrowed(pc').Some? ==> Borrowed(pc') == Borrowed(pc))
    && (MayLackCloexec(pc) && !c.Close? && !MayLackCloexec(pc') ==> c.SetCloexec? && r.Returned?)
    && (Opens(c) && r.Returned? && !MayLackCloexec(pc') ==> (c.Socket? && c.cloexec) || c.Accept4?)
    && (CopyAt(pc').Some? && CopyAt(pc') != CopyAt(pc) ==>
        (c.DupFd? || c.DupFdCloexec?) && r.Returned? && CopyAt(pc').value == (c.fd, r.value))
    && !pc'.Probing?
  }

  lemma ResumeShape(pc: Pc, r: Ret)
    requires Wants(pc).Some?
    ensures Shapes(pc, Wants(pc).value, r, Leaks(pc, r), Resume(pc, r))
  {
    match pc
    case ConnectingTimed(fd, goal, at) => TimedShape(fd, goal, at, r);
    case Discovering(stage) => DiscoveryShape(stage, r);
    case Discarding(_, _, _) | Dropping(_) =>
    case _ =>
      match r
      case Failed(e) => FailedShape(pc, e);
      case Returned(value, out) => ReturnedShape(pc, value, out);
  }

  /** The call that `pc` makes is that of its own constructor, and not a `close`. */
  predicate IsPlain(pc: Pc) {
    Wants(pc).Some? && !pc.ConnectingTimed? && !pc.Discovering? && !pc.Discarding? && !pc.Dropping?
  }

  lemma FailedShape(pc: Pc, e: int)
    requires IsPlain(pc)
    ensures Shapes(pc, Wants(pc).value, Failed(e), false, ResumeFailed(pc, e))
  {
  }

  lemma ReturnedShape(pc: Pc, value: int, out: Out)
    requires IsPlain(pc)
    ensures Shapes(pc, Wants(pc).value, Returned(value, out), false, ResumeReturned(pc, value, out))
  {
  }

  lemma TimedShape(fd: Fd, goal: Goal, at: TimedStage, r: Ret)
    requires TimedWants(fd, goal, at).Some?
    ensures Shapes(ConnectingTimed(fd, goal, at), TimedWants(fd, goal, at).value, r, false, TimedAfter(fd, goal, at, r))
  {
  }

  lemma DiscoveryShape(stage: DiscoveryStage, r: Ret)
    requires DiscoveryWants(stage).Some?
    ensures Shapes(Discovering(stage), DiscoveryWants(stage).value, r, stage.Inquiring? && r.Failed?,
                   Discovering(DiscoveryAfter(stage, r)))
  {
  }

  /** The live values after an answered call. */
  function LiveAfterCall(live: map<Place, Fd>, t: Tid, c: Call, ret: Ret, leaks: bool): map<Place, Fd> {
    if c.Close? || leaks then live - {InCall(t)}
    else if Opens(c) && ret.Returned? then live[InCall(t) := ret.value]
    else live
  }

  /** What the call of thread `t` does to the live values. */
  predicate LiveChange(live: map<Place, Fd>, t: Tid, c: Call, ret: Ret, leaks: bool, live': map<Place, Fd>) {
    && live' == LiveAfterCall(live, t, c, ret, leaks)
    && (Opens(c) ==> InCall(t) !in live)
    && (!Opens(c) && Target(c).Some? ==> InCall(t) in live && live[InCall(t)] == c.fd)
    && (leaks ==> Benign(c) && InCall(t) in live)
  }

  /** What an answered call leaks. */
  function LeakOf(live: map<Place, Fd>, t: Tid, leaks: bool): set<Fd> {
    if leaks && InCall(t) in live then {live[InCall(t)]} else {}
  }

  /** All that the invariant needs to know about the call `c` of thread `t`, answered by `ret`. */
  predicate Answered(s: State, t: Tid, c: Call, ret: Ret, leaks: bool, s': State) {
    && t in s.threads && t in s'.threads
    && s' == s.(w := s'.w, threads := s.threads[t := s.threads[t].(pc := s'.threads[t].pc)], live := s'.live,
                leaked := s.leaked + LeakOf(s.live, t, leaks))
    && FdsChange(s.w.tab, c, ret, s'.w.tab)
    && Shapes(s.threads[t].pc, c, ret, leaks, s'.threads[t].pc)
    && LiveChange(s.live, t, c, ret, leaks, s'.live)
  }

  lemma OwningAfterCall(live: map<Place, Fd>, t: Tid, pc: Pc, c: Call, ret: Ret, leaks: bool, pc': Pc)
    requires Shapes(pc, c, ret, leaks, pc') && (Benign(c) || !leaks)
    requires Holds(live, t, pc)
    ensures LiveChange(live, t, c, ret, leaks, Owning(live, t, pc'))
  {
  }

  lemma AnswerFacts(s: State, t: Tid, ret: Ret, s': State)
    requires Accounts(s) && t in s.threads && Wants(s.threads[t].pc).Some?
    requires FdsChange(s.w.tab, Wants(s.threads[t].pc).value, ret, s'.w.tab)
    requires s' == Resumed(s, t, ret, s'.w)
    ensures Answered(s, t, Wants(s.threads[t].pc).value, ret, Leaks(s.threads[t].pc, ret), s')
  {
    var pc := s.threads[t].pc;
    ResumeShape(pc, ret);
    OwningAfterCall(s.live, t, pc, Wants(pc).value, ret, Leaks(pc, ret), Resume(pc, ret));
  }

  lemma AddingKeepsOwnership(s: State, s': State, p: Place, fd: Fd)
    requires Ownership(s) && p !in s.live && fd !in s.Open()
    requires s'.live == s.live[p := fd] && s'.foreign == s.foreign && s'.leaked == s.leaked
    requires s'.Open().Keys == s.Open().Keys + {fd}
    ensures Ownership(s')
  {
    assert s'.live.Values == s.live.Values + {fd} by {
      assert s'.live[p] == fd;
      assert forall q | q in s.live :: s'.live[q] == s.live[q];
    }
  }

  lemma RemovingKeepsOwnership(s: State, s': State, p: Place)
    requires Ownership(s) && p in s.live
    requires s'.live == s.live - {p} && s'.foreign == s.foreign && s'.leaked == s.leaked
    requires s'.Open().Keys == s.Open().Keys - {s.live[p]}
    ensures Ownership(s')
  {
    assert s'.live.Values == s.live.Values - {s.live[p]} by {
      assert forall q | q in s'.live :: s'.live[q] == s.live[q];
    }
  }

  lemma LeakingKeepsOwnership(s: State, s': State, p: Place)
    requires Ownership(s) && p in s.live
    requires s'.live == s.live - {p} && s'.foreign == s.foreign && s'.leaked == s.leaked + {s.live[p]}
    requires s'.Open().Keys == s.Open().Keys
    ensures Ownership(s')
  {
    assert s'.live.Values == s.live.Values - {s.live[p]} by {
      assert forall q | q in s'.live :: s'.live[q] == s.live[q];
    }
  }

  lemma AnswerKeepsOwnership(s: State, t: Tid, c: Call, ret: Ret, leaks: bool, s': State)
    requires Ownership(s) && Answered(s, t, c, ret, leaks, s')
    ensures Ownership(s')
  {
    if Opens(c) && ret.Returned? {
      AddingKeepsOwnership(s, s', InCall(t), ret.value);
    } else if c.Close? {
      RemovingKeepsOwnership(s, s', InCall(t));
    } else if leaks {
      LeakingKeepsOwnership(s, s', InCall(t));
    }
  }

  lemma OwnPlaceKeepsCloexec(s: State, t: Tid, c: Call, ret: Ret, leaks: bool, s': State)
    requires Answered(s, t, c, ret, leaks, s') && InCall(t) in s'.live
    requires InCall(t) in s.live ==> CloexecAt(s, InCall(t))
    ensures CloexecAt(s', InCall(t))
  {
  }

  /** What a call leaves of a descriptor that it does not close. */
  lemma FdStays(t: Tables, c: Call, ret: Ret, t': Tables, fd: Fd)
    requires FdsChange(t, c, ret, t') && fd in t.fds && (c.Close? ==> c.fd != fd)
    ensures fd in t'.fds && t'.fds[fd].file == t.fds[fd].file && (t.fds[fd].cloexec ==> t'.fds[fd].cloexec)
  {
  }

  lemma OtherPlaceKeepsCloexec(s: State, t: Tid, c: Call, ret: Ret, leaks: bool, s': State, p: Place)
    requires Answered(s, t, c, ret, leaks, s') && p != InCall(t) && CloexecAt(s, p)
    requires c.Close? ==> c.fd != s.live[p]
    ensures CloexecAt(s', p)
  {
    FdStays(s.w.tab, c, ret, s'.w.tab, s.live[p]);
  }

  lemma AnswerKeepsCloexec(s: State, t: Tid, c: Call, ret: Ret, leaks: bool, s': State)
    requires Ownership(s) && CloexecKept(s) && Answered(s, t, c, ret, leaks, s')
    ensures CloexecKept(s')
  {
    forall p | p in s'.live
      ensures CloexecAt(s', p)
    {
      if p == InCall(t) {
        OwnPlaceKeepsCloexec(s, t, c, ret, leaks, s');
      } else {
        CloseHitsNobodyElse(s, t, c, ret, leaks, s', p);
        OtherPlaceKeepsCloexec(s, t, c, ret, leaks, s', p);
      }
    }
  }

  lemma AnswerKeepsBorrows(s: State, t: Tid, c: Call, ret: Ret, leaks: bool, s': State)
    requires BorrowsHold(s) && Answered(s, t, c, ret, leaks, s')
    ensures BorrowsHold(s')
  {
    SameHandles(s, s');
    forall u | u in s'.threads && Borrowed(s'.threads[u].pc).Some?
      ensures Borrowed(s'.threads[u].pc).value in s'.HandleFds()
    {
      assert Borrowed(s.threads[u].pc) == Borrowed(s'.threads[u].pc);
    }
  }

  /** The user's handles are the same. */
  lemma SameHandles(s: State, s': State)
    requires forall p: Place | p.Handle? :: (p in s.live <==> p in s'.live) && (p in s.live ==> s.live[p] == s'.live[p])
    ensures s'.HandleFds() == s.HandleFds()
  {
  }

  lemma AnswerKeepsCopies(s: State, t: Tid, c: Call, ret: Ret, leaks: bool, s': State)
    requires Accounts(s) && Answered(s, t, c, ret, leaks, s')
    ensures CopiesShare(s')
  {
    forall u | u in s'.threads && CopyAt(s'.threads[u].pc).Some?
      ensures SharesFile(s'.Open(), CopyAt(s'.threads[u].pc).value)
    {
      if CopyAt(s'.threads[u].pc) == CopyAt(s.threads[u].pc) {
        CopyStaysOpen(s, t, c, ret, leaks, s', u);
      }
    }
  }

  /** No answer to another thread closes or redirects a copy or its source. */
  lemma CopyStaysOpen(s: State, t: Tid, c: Call, ret: Ret, leaks: bool, s': State, u: Tid)
    requires Accounts(s) && Answered(s, t, c, ret, leaks, s') && u in s.threads
    requires CopyAt(s'.threads[u].pc) == CopyAt(s.threads[u].pc) != None
    ensures SharesFile(s'.Open(), CopyAt(s.threads[u].pc).value)
  {
    var (source, copy) := CopyAt(s.threads[u].pc).value;
    assert SharesFile(s.Open(), (source, copy));
    CopyIsHeld(s, u);
    if c.Close? {
      assert u != t;
      CloseHitsNobodyElse(s, t, c, ret, leaks, s', InCall(u));
      var p :| p in s.live && p.Handle? && s.live[p] == source;
      CloseHitsNobodyElse(s, t, c, ret, leaks, s', p);
    }
    FdStays(s.w.tab, c, ret, s'.w.tab, source);
    FdStays(s.w.tab, c, ret, s'.w.tab, copy);
  }

  /** A thread about to hand out a copy holds the copy, and the source is a handle of the user. */
  lemma CopyIsHeld(s: State, u: Tid)
    requires ThreadsHold(s) && BorrowsHold(s) && u in s.threads && CopyAt(s.threads[u].pc).Some?
    ensures CopyAt(s.threads[u].pc).value.0 in s.HandleFds()
    ensures InCall(u) in s.live && s.live[InCall(u)] == CopyAt(s.threads[u].pc).value.1
  {
    assert Borrowed(s.threads[u].pc) == Some(CopyAt(s.threads[u].pc).value.0);
  }

  /** A `close` by thread `t` hits nobody else's descriptor. */
  lemma CloseHitsNobodyElse(s: State, t: Tid, c: Call, ret: Ret, leaks: bool, s': State, p: Place)
    requires Ownership(s) && Answered(s, t, c, ret, leaks, s') && p in s.live && p != InCall(t)
    ensures c.Close? ==> c.fd != s.live[p]
  {
  }

  lemma OwnHoldAfterCall(live: map<Place, Fd>, t: Tid, pc: Pc, c: Call, ret: Ret, leaks: bool, pc': Pc,
                         live': map<Place, Fd>)
    requires Shapes(pc, c, ret, leaks, pc') && LiveChange(live, t, c, ret, leaks, live') && Holds(live, t, pc)
    ensures Holds(live', t, pc')
  {
  }

  lemma OtherHoldAfterCall(live: map<Place, Fd>, t: Tid, c: Call, ret: Ret, leaks: bool, live': map<Place, Fd>, u: Tid,
                           pc: Pc)
    requires LiveChange(live, t, c, ret, leaks, live') && Holds(live, u, pc) && u != t
    ensures Holds(live', u, pc)
  {
  }

  lemma AnswerKeepsThreads(s: State, t: Tid, c: Call, ret: Ret, leaks: bool, s': State)
    requires ThreadsHold(s) && Answered(s, t, c, ret, leaks, s')
    ensures ThreadsHold(s')
  {
    forall u | u in s'.threads
      ensures Holds(s'.live, u, s'.threads[u].pc)
    {
      if u == t {
        OwnHoldAfterCall(s.live, t, s.threads[t].pc, c, ret, leaks, s'.threads[t].pc, s'.live);
      } else {
        OtherHoldAfterCall(s.live, t, c, ret, leaks, s'.live, u, s.threads[u].pc);
      }
    }
  }

  lemma AnswerKeepsFlag(s: State, t: Tid, c: Call, ret: Ret, leaks: bool, s': State)
    requires FlagRespected(s) && Answered(s, t, c, ret, leaks, s')
    ensures FlagRespected(s')
  {
  }

  lemma AnswerKeepsInv(s: State, t: Tid, c: Call, ret: Ret, leaks: bool, s': State)
    requires Accounts(s) && Answered(s, t, c, ret, leaks, s')
    ensures Accounts(s')
  {
    AnswerKeepsOwnership(s, t, c, ret, leaks, s');
    AnswerKeepsThreads(s, t, c, ret, leaks, s');
    AnswerKeepsFlag(s, t, c, ret, leaks, s');
    AnswerKeepsCloexec(s, t, c, ret, leaks, s');
    AnswerKeepsBorrows(s, t, c, ret, leaks, s');
    AnswerKeepsCopies(s, t, c, ret, leaks, s');
  }

  /** A thread went to `pc'` without a system call, keeping what it owns and borrowing no more. */
  lemma QuietMoveKeepsInv(s: State, t: Tid, th: Thread, s': State)
    requires Accounts(s) && t in s.threads
    requires s' == Moved(s.(flag := s'.flag), t, th, s.w)
    requires Local(th.pc) == Local(s.threads[t].pc)
    requires Borrowed(th.pc).Some? ==> Borrowed(th.pc).value in s.HandleFds()
    requires Local(th.pc).Some? && MayLackCloexec(s.threads[t].pc) ==> MayLackCloexec(th.pc)
    requires CopyAt(th.pc) == None
    requires FlagHistory(s'.flag) && (th.pc.Probing? ==> th.view == 0)
    ensures Accounts(s')
  {
    SameLocalSameLive(s.live, t, s.threads[t].pc, th.pc);
    QuietMoveKeepsPlaces(s, t, th, s');
    QuietMoveKeepsCopies(s, t, th, s');
    QuietMoveKeepsTheRest(s, t, th, s');
  }

  lemma SameLocalSameLive(live: map<Place, Fd>, t: Tid, pc: Pc, pc': Pc)
    requires Holds(live, t, pc) && Local(pc') == Local(pc)
    ensures Owning(live, t, pc') == live
  {
  }

  /** Thread `t` is `th` now; nothing else changed, except the flag. */
  predicate OnlyThread(s: State, t: Tid, th: Thread, s': State) {
    t in s.threads && s' == s.(threads := s.threads[t := th], flag := s'.flag)
  }

  lemma QuietMoveKeepsTheRest(s: State, t: Tid, th: Thread, s': State)
    requires Ownership(s) && BorrowsHold(s) && FlagRespected(s) && OnlyThread(s, t, th, s')
    requires Borrowed(th.pc).Some? ==> Borrowed(th.pc).value in s.HandleFds()
    requires FlagHistory(s'.flag) && (th.pc.Probing? ==> th.view == 0)
    ensures Ownership(s') && BorrowsHold(s') && FlagRespected(s')
  {
    SameHandles(s, s');
  }

  lemma QuietMoveKeepsPlaces(s: State, t: Tid, th: Thread, s': State)
    requires ThreadsHold(s) && CloexecKept(s) && OnlyThread(s, t, th, s')
    requires Local(th.pc) == Local(s.threads[t].pc)
    requires Local(th.pc).Some? && MayLackCloexec(s.threads[t].pc) ==> MayLackCloexec(th.pc)
    ensures ThreadsHold(s') && CloexecKept(s')
  {
    forall p | p in s'.live
      ensures CloexecAt(s', p)
    {
      assert CloexecAt(s, p);
      assert p == InCall(t) ==> Holds(s.live, t, s.threads[t].pc);
    }
  }

  lemma QuietMoveKeepsCopies(s: State, t: Tid, th: Thread, s': State)
    requires CopiesShare(s) && OnlyThread(s, t, th, s') && CopyAt(th.pc) == None
    ensures CopiesShare(s')
  {
    forall u | u in s'.threads && CopyAt(s'.threads[u].pc).Some?
      ensures SharesFile(s'.Open(), CopyAt(s'.threads[u].pc).value)
    {
      assert u != t && s'.threads[u] == s.threads[u];
    }
  }

  /** Only the tables changed, and there at most close-on-exec flags were set. */
  predicate OnlyMarked(s: State, s': State) {
    && s' == s.(w := s'.w)
    && s'.Open().Keys == s.Open().Keys
    && forall fd | fd in s.Open() ::
         s'.Open()[fd].file == s.Open()[fd].file && (s.Open()[fd].cloexec ==> s'.Open()[fd].cloexec)
  }

  lemma MarkingKeepsCloexec(s: State, s': State)
    requires CloexecKept(s) && OnlyMarked(s, s')
    ensures CloexecKept(s')
  {
    forall p | p in s'.live
      ensures CloexecAt(s', p)
    {
      assert CloexecAt(s, p);
      var fd := s.live[p];
      assert fd in s.Open();
    }
  }

  lemma MarkingKeepsCopies(s: State, s': State)
    requires CopiesShare(s) && OnlyMarked(s, s')
    ensures CopiesShare(s')
  {
  }

  lemma MarkingKeepsTheRest(s: State, s': State)
    requires Ownership(s) && ThreadsHold(s) && BorrowsHold(s) && FlagRespected(s) && OnlyMarked(s, s')
    ensures Ownership(s') && ThreadsHold(s') && BorrowsHold(s') && FlagRespected(s')
  {
    SameHandles(s, s');
  }

  /** A call that opens and closes nothing, on anybody's behalf. */
  lemma BenignKeepsInv(s: State, c: Call, r: Ret, s': State)
    requires Accounts(s) && Benign(c) && FdsChange(s.w.tab, c, r, s'.w.tab)
    requires s' == s.(w := s'.w)
    ensures Accounts(s')
  {
    BenignOnlyMarks(s, c, r, s');
    MarkingKeepsCloexec(s, s');
    MarkingKeepsCopies(s, s');
    MarkingKeepsTheRest(s, s');
  }

  lemma BenignOnlyMarks(s: State, c: Call, r: Ret, s': State)
    requires Benign(c) && FdsChange(s.w.tab, c, r, s'.w.tab) && s' == s.(w := s'.w)
    ensures OnlyMarked(s, s')
  {
  }

  /** A value changed hands. */
  lemma RenamingKeepsOwnership(s: State, s': State, p: Place, q: Place)
    requires Ownership(s) && p in s.live && q !in s.live
    requires s'.live == (s.live - {p})[q := s.live[p]] && s'.w == s.w
    requires s'.foreign == s.foreign && s'.leaked == s.leaked
    ensures Ownership(s')
  {
    assert s'.live.Values == s.live.Values by {
      assert s'.live[q] == s.live[p];
      assert forall r | r in s.live && r != p :: s'.live[r] == s.live[r];
    }
  }

  lemma ReturnKeepsInv(s: State, t: Tid, id: nat, s': State)
    requires Accounts(s) && Returns(s, t, id, s')
    ensures Accounts(s')
  {
    ReturnKeepsOwnership(s, t, id, s');
    ReturnKeepsThreads(s, t, id, s');
    ReturnKeepsCloexec(s, t, id, s');
    ReturnKeepsBorrows(s, t, id, s');
    ReturnKeepsCopies(s, t, id, s');
  }

  lemma ReturnKeepsOwnership(s: State, t: Tid, id: nat, s': State)
    requires Ownership(s) && ThreadsHold(s) && Returns(s, t, id, s')
    ensures Ownership(s')
  {
    assert Holds(s.live, t, s.threads[t].pc);
    RenamingKeepsOwnership(s, s', InCall(t), Handle(id));
  }

  lemma ReturnKeepsThreads(s: State, t: Tid, id: nat, s': State)
    requires ThreadsHold(s) && FlagRespected(s) && Returns(s, t, id, s')
    ensures ThreadsHold(s') && FlagRespected(s')
  {
  }

  lemma ReturnKeepsCloexecAt(s: State, t: Tid, id: nat, s': State, p: Place)
    requires Returns(s, t, id, s') && p in s'.live && InCall(t) in s.live
    requires s.live[InCall(t)] == s.threads[t].pc.outcome.value.fd
    requires CloexecAt(s, if p == Handle(id) then InCall(t) else p)
    ensures CloexecAt(s', p)
  {
  }

  lemma ReturnKeepsCloexec(s: State, t: Tid, id: nat, s': State)
    requires ThreadsHold(s) && CloexecKept(s) && Returns(s, t, id, s')
    ensures CloexecKept(s')
  {
    forall p | p in s'.live
      ensures CloexecAt(s', p)
    {
      ReturnKeepsCloexecAt(s, t, id, s', p);
    }
  }

  lemma ReturnKeepsBorrows(s: State, t: Tid, id: nat, s': State)
    requires BorrowsHold(s) && Returns(s, t, id, s')
    ensures BorrowsHold(s')
  {
    forall fd | fd in s.HandleFds()
      ensures fd in s'.HandleFds()
    {
      var p :| p in s.live && p.Handle? && s.live[p] == fd;
      assert p in s'.live && s'.live[p] == fd;
    }
  }

  lemma ReturnKeepsCopies(s: State, t: Tid, id: nat, s': State)
    requires CopiesShare(s) && Returns(s, t, id, s')
    ensures CopiesShare(s')
  {
    forall u | u in s'.threads && CopyAt(s'.threads[u].pc).Some?
      ensures SharesFile(s'.Open(), CopyAt(s'.threads[u].pc).value)
    {
      assert u != t && s'.threads[u] == s.threads[u];
    }
  }

  lemma StartDropKeepsInv(s: State, t: Tid, id: nat, s': State)
    requires Accounts(s) && StartsDrop(s, t, id, s')
    ensures Accounts(s')
  {
    StartDropKeepsOwnership(s, t, id, s');
    OtherHandlesStay(s, id, s');
    StartDropKeepsThreads(s, t, id, s');
    StartDropKeepsCloexec(s, t, id, s');
  }

  lemma StartDropKeepsOwnership(s: State, t: Tid, id: nat, s': State)
    requires Ownership(s) && ThreadsHold(s) && StartsDrop(s, t, id, s')
    ensures Ownership(s')
  {
    assert Holds(s.live, t, s.threads[t].pc);
    RenamingKeepsOwnership(s, s', Handle(id), InCall(t));
  }

  lemma StartDropKeepsThreads(s: State, t: Tid, id: nat, s': State)
    requires ThreadsHold(s) && FlagRespected(s) && CopiesShare(s) && StartsDrop(s, t, id, s')
    ensures ThreadsHold(s') && FlagRespected(s') && CopiesShare(s')
  {
  }

  lemma StartDropKeepsCloexecAt(s: State, t: Tid, id: nat, s': State, p: Place)
    requires StartsDrop(s, t, id, s') && p in s'.live
    requires CloexecAt(s, if p == InCall(t) then Handle(id) else p)
    ensures CloexecAt(s', p)
  {
  }

  lemma StartDropKeepsCloexec(s: State, t: Tid, id: nat, s': State)
    requires CloexecKept(s) && StartsDrop(s, t, id, s')
    ensures CloexecKept(s')
  {
    forall p | p in s'.live
      ensures CloexecAt(s', p)
    {
      StartDropKeepsCloexecAt(s, t, id, s', p);
    }
  }

  lemma IntoRawKeepsInv(s: State, id: nat, s': State)
    requires Accounts(s) && GivesAway(s, id, s')
    ensures Accounts(s')
  {
    GivingKeepsOwnership(s, id, s');
    OtherHandlesStay(s, id, s');
    GivingKeepsPlaces(s, id, s');
  }

  lemma GivingKeepsPlaces(s: State, id: nat, s': State)
    requires ThreadsHold(s) && CloexecKept(s) && GivesAway(s, id, s')
    ensures ThreadsHold(s') && CloexecKept(s')
  {
    forall p | p in s'.live
      ensures CloexecAt(s', p)
    {
      assert CloexecAt(s, p);
    }
  }

  lemma GivingKeepsOwnership(s: State, id: nat, s': State)
    requires Ownership(s) && GivesAway(s, id, s')
    ensures Ownership(s')
  {
    var fd := s.live[Handle(id)];
    assert s'.live.Values == s.live.Values - {fd} by {
      assert forall p | p in s'.live :: s'.live[p] == s.live[p];
    }
  }

  /** Taking away a handle nobody has borrowed leaves every borrow valid. */
  lemma OtherHandlesStay(s: State, id: nat, s': State)
    requires BorrowsHold(s) && Handle(id) in s.live && !s.IsBorrowed(s.live[Handle(id)])
    requires forall p: Place | p.Handle? && p != Handle(id) && p in s.live :: p in s'.live && s'.live[p] == s.live[p]
    ensures forall t | t in s.threads && Borrowed(s.threads[t].pc).Some? ::
      Borrowed(s.threads[t].pc).value in s'.HandleFds()
  {
    forall t | t in s.threads && Borrowed(s.threads[t].pc).Some?
      ensures Borrowed(s.threads[t].pc).value in s'.HandleFds()
    {
      var p :| p in s.live && p.Handle? && s.live[p] == Borrowed(s.threads[t].pc).value;
      assert p in s'.live && s'.live[p] == s.live[p];
    }
  }

  /** What a call of the rest of the process did. */
  predicate ForeignCalled(s: State, c: Call, r: Ret, s': State) {
    && FdsChange(s.w.tab, c, r, s'.w.tab)
    && (Target(c) == None || Target(c).value in s.foreign)
    && s' == s.(w := s'.w, foreign := ForeignAfter(s, c, r))
  }

  lemma ForeignKeepsOwnership(s: State, c: Call, r: Ret, s': State)
    requires Ownership(s) && ForeignCalled(s, c, r, s')
    ensures Ownership(s')
    ensures forall p | p in s.live :: s'.Open()[s.live[p]] == s.Open()[s.live[p]]
  {
  }

  lemma ForeignKeepsCopies(s: State, c: Call, r: Ret, s': State)
    requires Accounts(s) && ForeignCalled(s, c, r, s') && Ownership(s')
    requires forall p | p in s.live :: s'.Open()[s.live[p]] == s.Open()[s.live[p]]
    ensures CopiesShare(s')
  {
    forall t | t in s.threads && CopyAt(s.threads[t].pc).Some?
      ensures SharesFile(s'.Open(), CopyAt(s.threads[t].pc).value)
    {
      var (source, copy) := CopyAt(s.threads[t].pc).value;
      assert SharesFile(s.Open(), (source, copy));
      assert Borrowed(s.threads[t].pc) == Some(source) && source in s.HandleFds();
      assert s.live[InCall(t)] == copy;
    }
  }

  lemma ForeignKeepsInv(s: State, c: Call, r: Ret, s': State)
    requires Accounts(s) && ForeignCalled(s, c, r, s')
    ensures Accounts(s')
  {
    ForeignKeepsOwnership(s, c, r, s');
    ForeignKeepsCopies(s, c, r, s');
    SameHandles(s, s');
  }

  /** What a step of the kernel does to the descriptors and what it keeps. */
  lemma StepFacts(s: State, c: Call, r: Ret, w: World)
    requires Valid(s.w.tab) && Step(s.w, c, r, w)
    ensures FdsChange(s.w.tab, c, r, w.tab) && Valid(w.tab)
  {
    EffectOnFds(s.w.tab, c, r, w.tab);
    EffectKeepsValid(s.w.tab, c, r, w.tab);
  }

  /** What an answered call of thread `t` is, seen from above the kernel. */
  lemma AnswersAreAnswered(s: State, t: Tid, ret: Ret, s': State)
    requires Inv(s) && Answers(s, t, ret, s')
    ensures Answered(s, t, Wants(s.threads[t].pc).value, ret, Leaks(s.threads[t].pc, ret), s') && Valid(s'.w.tab)
  {
    StepFacts(s, Wants(s.threads[t].pc).value, ret, s'.w);
    AnswerFacts(s, t, ret, s');
  }

  lemma BeginKeepsInv(s: State, t: Tid, start: Pc, s': State)
    requires Accounts(s) && Begins(s, t, start, s')
    ensures Accounts(s')
  {
    QuietMoveKeepsInv(s, t, s.threads[t].(pc := start), s');
  }

  lemma LoadKeepsInv(s: State, t: Tid, stamp: nat, s': State)
    requires Accounts(s) && Loads(s, t, stamp, s')
    ensures Accounts(s')
  {
    QuietMoveKeepsInv(s, t, s'.threads[t], s');
  }

  lemma StoreKeepsInv(s: State, t: Tid, stamp: nat, s': State)
    requires Accounts(s) && Stores(s, t, stamp, s')
    ensures Accounts(s')
  {
    QuietMoveKeepsInv(s, t, s'.threads[t], s');
  }

  lemma ReadClockKeepsInv(s: State, t: Tid, s': State)
    requires Accounts(s) && ReadsClock(s, t, s')
    ensures Accounts(s')
  {
    QuietMoveKeepsInv(s, t, s'.threads[t], s');
  }

  lemma FailKeepsInv(s: State, t: Tid, s': State)
    requires Accounts(s) && Fails(s, t, s')
    ensures Accounts(s')
  {
    QuietMoveKeepsInv(s, t, s'.threads[t], s');
  }

  lemma EndKeepsInv(s: State, t: Tid, id: nat, s': State)
    requires Accounts(s) && (Fails(s, t, s') || Returns(s, t, id, s'))
    ensures Accounts(s')
  {
    if Returns(s, t, id, s') {
      ReturnKeepsInv(s, t, id, s');
    } else {
      FailKeepsInv(s, t, s');
    }
  }

  lemma SpawnKeepsCloexec(s: State, t: Tid, s': State)
    requires CloexecKept(s) && t !in s.threads && s' == s.(threads := s.threads[t := Thread(Idle, 0)])
    ensures CloexecKept(s')
  {
    forall p | p in s'.live
      ensures CloexecAt(s', p)
    {
      assert CloexecAt(s, p);
    }
  }

  lemma SpawnKeepsThreads(s: State, t: Tid, s': State)
    requires ThreadsHold(s) && t !in s.threads && s' == s.(threads := s.threads[t := Thread(Idle, 0)])
    ensures ThreadsHold(s')
  {
  }

  lemma SpawnKeepsInv(s: State, t: Tid, s': State)
    requires Accounts(s) && t !in s.threads && s' == s.(threads := s.threads[t := Thread(Idle, 0)])
    ensures Accounts(s')
  {
    SpawnKeepsThreads(s, t, s');
    SpawnKeepsCloexec(s, t, s');
    SpawnKeepsTheRest(s, t, s');
  }

  lemma SpawnKeepsTheRest(s: State, t: Tid, s': State)
    requires Ownership(s) && BorrowsHold(s) && CopiesShare(s) && FlagRespected(s)
    requires t !in s.threads && s' == s.(threads := s.threads[t := Thread(Idle, 0)])
    ensures Ownership(s') && BorrowsHold(s') && CopiesShare(s') && FlagRespected(s')
  {
    SameHandles(s, s');
  }

  lemma QuietKeepsInv(s: State, a: Action, s': State)
    requires Accounts(s) && Quiet(s, a, s')
    ensures Accounts(s')
  {
    match a
    case Spawn(t) => SpawnKeepsInv(s, t, s');
    case Begin(t, start) => BeginKeepsInv(s, t, start, s');
    case LoadFlag(t, stamp) => LoadKeepsInv(s, t, stamp, s');
    case StoreFlag(t, stamp) => StoreKeepsInv(s, t, stamp, s');
    case ReadClock(t) => ReadClockKeepsInv(s, t, s');
    case StartDrop(t, id) => StartDropKeepsInv(s, t, id, s');
    case IntoRaw(id) => IntoRawKeepsInv(s, id, s');
    case Return(t, id) => EndKeepsInv(s, t, id, s');
  }

  lemma QuietMovesNothing(s: State, a: Action, s': State)
    requires Quiet(s, a, s')
    ensures s'.w == s.w
  {
  }

  /** Every action of every thread, of the user and of the rest of the process keeps the invariant. */
  lemma NextKeepsInv(s: State, a: Action, s': State)
    requires Inv(s) && Next(s, a, s')
    ensures Inv(s')
  {
    if a.Answer? || a.Use? || a.Foreign? {
      CallKeepsInv(s, a, s');
    } else {
      QuietMovesNothing(s, a, s');
      QuietKeepsInv(s, a, s');
    }
  }

  lemma CallKeepsInv(s: State, a: Action, s': State)
    requires Inv(s) && Next(s, a, s')
    requires a.Answer? || a.Use? || a.Foreign?
    ensures Inv(s')
  {
    if a.Answer? {
      OwnCallKeepsInv(s, a, s');
    } else {
      StepFacts(s, a.call, a.ret, s'.w);
      if a.Foreign? {
        ForeignKeepsInv(s, a.call, a.ret, s');
      } else {
        BenignKeepsInv(s, a.call, a.ret, s');
      }
    }
  }

  lemma OwnCallKeepsInv(s: State, a: Action, s': State)
    requires Inv(s) && a.Answer? && Answers(s, a.t, a.ret, s')
    ensures Inv(s')
  {
    AnswersAreAnswered(s, a.t, a.ret, s');
    AnswerKeepsInv(s, a.t, Wants(s.threads[a.t].pc).value, a.ret, Leaks(s.threads[a.t].pc, a.ret), s');
  }
}
