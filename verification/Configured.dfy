/** What the concurrent machine returns is what was asked for: whatever the other threads, the user and the rest of
    the process do meanwhile, a new descriptor's description is configured by its own call alone. */
module Configured {
  import opened Base
  import opened Kernel
  import opened Program
  import opened Concurrency

  /** The descriptor a thread has made on a description of its own, which nobody else can reach yet. */
  function Private(pc: Pc): Option<Fd> {
    match pc
    case Marking(fd, CopyOf(_)) => None
    case Marking(fd, _) => Some(fd)
    case SettingReuse(fd, _) => Some(fd)
    case Binding(fd, _) => Some(fd)
    case StartingListen(fd, _) => Some(fd)
    case TryingConnect(fd, _) => Some(fd)
    case ConnectingTimed(fd, _, _) => Some(fd)
    case Done(Ok(made), Some(CopyOf(_))) => None
    case Done(Ok(made), _) => Some(made.fd)
    case _ => None
  }

  /** How far the description `f` of that descriptor must be. */
  predicate Expected(pc: Pc, f: OpenFile) {
    match pc
    case Marking(_, New(goal)) => f == Blank(goal)
    case Marking(_, QueueOf(_, peer)) => f == NewFile(f.transport, Connected(peer))
    case Marking(_, Timed(_, _)) => false
    case SettingReuse(_, goal) => goal.ToBind? && f == Blank(goal)
    case Binding(_, goal) => goal.ToBind? && f == Blank(goal).(reuse := true)
    case StartingListen(_, goal) => goal.ToBind? && f == Blank(goal).(reuse := true, state := Bound(goal.addr, true))
    case TryingConnect(_, goal) =>
      goal.ToConnect? && (f == Blank(goal) || f == Blank(goal).(state := Connecting(goal.addr)))
    case ConnectingTimed(_, goal, at) => goal.ToConnectTimed? && ExpectedTimed(goal, at, f)
    case Done(Ok(made), Some(origin)) => Fulfilled(origin, made, f)
    case Done(Ok(_), None) => false
    case _ => true
  }

  /** The mode while `connect` is tried, its answer's effect, and then blocking mode with the connection on its way. */
  predicate ExpectedTimed(goal: Goal, at: TimedStage, f: OpenFile) {
    match at
    case Entering => f == Blank(goal)
    case Trying => f == Blank(goal).(nonblocking := true)
    case Leaving(connect) =>
      && f == Blank(goal).(nonblocking := true, state := f.state)
      && (connect.Returned? ==> f.state == Connected(goal.addr))
      && (connect == Failed(EINPROGRESS) ==> f.state == Connecting(goal.addr))
    case _ => TimedFile(goal, false, f)
  }

  /** `f` is what a call that made `made` from `origin` promises. */
  predicate Fulfilled(origin: Origin, made: Made, f: OpenFile) {
    match origin
    case New(ToBind(protocol, addr)) => f == BoundFile(protocol, addr)
    case New(ToConnect(protocol, addr)) => f == ConnectedFile(protocol, addr)
    case New(ToConnectTimed(_, _, _)) => false
    case Timed(goal, proven) => goal.ToConnectTimed? && TimedFile(goal, proven, f)
    case QueueOf(_, peer) => made.peer == Some(peer) && f == NewFile(f.transport, Connected(peer))
    case CopyOf(_) => true
  }

  predicate WellMade(tab: Tables, pc: Pc)
    requires Valid(tab)
  {
    Private(pc).Some? ==>
      var fd := Private(pc).value;
      fd in tab.fds && FileOf(tab, fd).refs == 1 && Expected(pc, FileOf(tab, fd))
  }

  predicate AllWellMade(s: State)
    requires Valid(s.w.tab)
  {
    forall t | t in s.threads :: WellMade(s.w.tab, s.threads[t].pc)
  }

  // ---------------------------------------------------------------- What others cannot touch

  /** A description referenced once belongs to one descriptor. */
  lemma SoleOwner(t: Tables, fd: Fd, other: Fd)
    requires Valid(t) && fd in t.fds && other in t.fds && fd != other && FileOf(t, fd).refs == 1
    ensures t.fds[other].file != t.fds[fd].file
  {
    var sharers := Sharers(t, t.fds[fd].file);
    assert fd in sharers;
    assert |sharers - {fd}| == 0;
    assert other !in sharers - {fd};
  }

  lemma CloseLeavesOthers(t: Tables, other: Fd, fd: Fd)
    requires Valid(t) && fd in t.fds && other in t.fds && other != fd && FileOf(t, fd).refs == 1
    requires Valid(Closed(t, other))
    ensures fd in Closed(t, other).fds && FileOf(Closed(t, other), fd) == FileOf(t, fd)
  {
    SoleOwner(t, fd, other);
  }

  lemma OpeningLeavesOthers(t: Tables, c: Call, value: int, out: Out, t': Tables, fd: Fd)
    requires Valid(t) && Valid(t') && Opens(c) && Success(t, c, value, out, t')
    requires fd in t.fds && FileOf(t, fd).refs == 1 && Target(c) != Some(fd)
    ensures fd in t'.fds && FileOf(t', fd) == FileOf(t, fd)
  {
    if Target(c).Some? {
      SoleOwner(t, fd, c.fd);
    }
  }

  lemma BenignLeavesOthers(t: Tables, c: Call, r: Ret, t': Tables, fd: Fd)
    requires Valid(t) && Valid(t') && !(Opens(c) && r.Returned?) && !(c.Close? && c.fd in t.fds) && Effect(t, c, r, t')
    requires fd in t.fds && FileOf(t, fd).refs == 1 && Target(c) != Some(fd)
    ensures fd in t'.fds && FileOf(t', fd) == FileOf(t, fd)
  {
    if Target(c).Some? && c.fd in t.fds {
      SoleOwner(t, fd, c.fd);
    }
  }

  /** A call on another descriptor leaves this one and its description alone. */
  lemma OthersLeaveIt(t: Tables, c: Call, r: Ret, t': Tables, fd: Fd)
    requires Valid(t) && Valid(t') && Effect(t, c, r, t')
    requires fd in t.fds && FileOf(t, fd).refs == 1 && Target(c) != Some(fd)
    ensures fd in t'.fds && FileOf(t', fd) == FileOf(t, fd)
  {
    if c.Close? && c.fd in t.fds {
      CloseLeavesOthers(t, c.fd, fd);
    } else if Opens(c) && r.Returned? {
      OpeningLeavesOthers(t, c, r.value, r.out, t', fd);
    } else {
      BenignLeavesOthers(t, c, r, t', fd);
    }
  }

  // ---------------------------------------------------------------- What a call does to its own descriptor

  lemma SocketIsWellMade(t: Tables, fd: Fd, goal: Goal, t': Tables)
    requires Valid(t') && Opened(t, fd, Blank(goal), t')
    ensures WellMade(t', StartOn(goal, fd)) && WellMade(t', Marking(fd, New(goal)))
  {
  }

  lemma AcceptedIsWellMade(t: Tables, l: Fd, fd: Fd, peer: BtAddr, t': Tables)
    requires Valid(t) && Valid(t') && Accepted(t, l, fd, peer, t')
    ensures WellMade(t', Marking(fd, QueueOf(l, peer)))
    ensures WellMade(t', Done(Ok(Made(fd, Some(peer))), Some(QueueOf(l, peer))))
  {
  }

  lemma UpdatedIsWellMade(t: Tables, fd: Fd, f: OpenFile, pc: Pc)
    requires Valid(t) && fd in t.fds && f.refs == 1 && Valid(Update(t, fd, f))
    requires Private(pc) == Some(fd) && Expected(pc, f)
    ensures WellMade(Update(t, fd, f), pc)
  {
  }

  lemma SocketCallMakesIt(t: Tables, goal: Goal, cloexec: bool, value: int, out: Out, t': Tables)
    requires Valid(t') && Valid(t) && Success(t, Socket(TransportOf(goal.protocol), cloexec), value, out, t')
    ensures WellMade(t', StartOn(goal, value)) && WellMade(t', Marking(value, New(goal)))
  {
    SocketIsWellMade(t, value, goal, t');
  }

  lemma AcceptCallMakesIt(t: Tables, l: Fd, c: Call, value: int, out: Out, t': Tables)
    requires Valid(t') && Valid(t) && (c == Accept4(l) || c == Accept(l)) && Success(t, c, value, out, t')
    ensures WellMade(t', Marking(value, QueueOf(l, PeerOf(out))))
    ensures WellMade(t', Done(Ok(Made(value, Some(PeerOf(out)))), Some(QueueOf(l, PeerOf(out)))))
  {
    AcceptedIsWellMade(t, l, value, out.addr, t');
  }

  lemma CopyIsNotPrivate(pc: Pc, value: int, out: Out)
    requires pc.Probing? || pc.PlainDup?
    ensures Private(ResumeReturned(pc, value, out)) == None
  {
  }

  lemma OpeningMakesIt(t: Tables, pc: Pc, value: int, out: Out, t': Tables)
    requires Valid(t) && Valid(t') && Wants(pc).Some? && Success(t, Wants(pc).value, value, out, t')
    requires pc.ModernSocket? || pc.PlainSocket? || pc.ModernAccept? || pc.PlainAccept?
    ensures WellMade(t', ResumeReturned(pc, value, out))
  {
    if pc.ModernSocket? || pc.PlainSocket? {
      SocketCallMakesIt(t, pc.goal, pc.ModernSocket?, value, out, t');
    } else {
      AcceptCallMakesIt(t, pc.listener, Wants(pc).value, value, out, t');
    }
  }

  lemma MarkingKeepsIt(t: Tables, fd: Fd, origin: Origin, t': Tables)
    requires Valid(t) && Valid(t') && fd in t.fds && WellMade(t, Marking(fd, origin))
    requires t' == t.(fds := t.fds[fd := t.fds[fd].(cloexec := true)])
    ensures WellMade(t', Marked(fd, origin))
  {
  }

  lemma ReuseAdvancesIt(t: Tables, fd: Fd, goal: Goal, value: int, out: Out, t': Tables)
    requires Valid(t) && Valid(t') && WellMade(t, SettingReuse(fd, goal)) && Success(t, SetReuse(fd), value, out, t')
    ensures WellMade(t', Binding(fd, goal))
  {
    UpdatedIsWellMade(t, fd, FileOf(t', fd), Binding(fd, goal));
  }

  lemma BindAdvancesIt(t: Tables, fd: Fd, goal: Goal, value: int, out: Out, t': Tables)
    requires Valid(t) && Valid(t') && WellMade(t, Binding(fd, goal)) && Success(t, Bind(fd, goal.addr), value, out, t')
    ensures WellMade(t', StartingListen(fd, goal))
  {
    UpdatedIsWellMade(t, fd, FileOf(t', fd), StartingListen(fd, goal));
  }

  lemma ListenAdvancesIt(t: Tables, fd: Fd, goal: Goal, value: int, out: Out, t': Tables)
    requires Valid(t) && Valid(t') && WellMade(t, StartingListen(fd, goal))
    requires Success(t, Listen(fd, 128), value, out, t')
    ensures WellMade(t', Done(Ok(Made(fd, None)), Some(New(goal))))
  {
    UpdatedIsWellMade(t, fd, FileOf(t', fd), Done(Ok(Made(fd, None)), Some(New(goal))));
  }

  lemma ConnectedAdvancesIt(t: Tables, fd: Fd, goal: Goal, value: int, out: Out, t': Tables)
    requires Valid(t) && Valid(t') && WellMade(t, TryingConnect(fd, goal))
    requires Success(t, Connect(fd, goal.addr), value, out, t')
    ensures WellMade(t', Done(Ok(Made(fd, None)), Some(New(goal))))
  {
    UpdatedIsWellMade(t, fd, FileOf(t', fd), Done(Ok(Made(fd, None)), Some(New(goal))));
  }

  lemma InterruptedGoesOn(t: Tables, fd: Fd, goal: Goal, t': Tables)
    requires Valid(t) && Valid(t') && WellMade(t, TryingConnect(fd, goal))
    requires Failure(t, Connect(fd, goal.addr), EINTR, t')
    ensures WellMade(t', TryingConnect(fd, goal))
  {
    if t' != t {
      UpdatedIsWellMade(t, fd, FileOf(t', fd), TryingConnect(fd, goal));
    }
  }

  lemma ConnectAdvancesIt(t: Tables, fd: Fd, goal: Goal, r: Ret, t': Tables)
    requires Valid(t) && Valid(t') && WellMade(t, TryingConnect(fd, goal))
    requires Effect(t, Connect(fd, goal.addr), r, t')
    ensures WellMade(t', Resume(TryingConnect(fd, goal), r))
  {
    if r.Returned? {
      ConnectedAdvancesIt(t, fd, goal, r.value, r.out, t');
    } else if r.errno == EINTR {
      InterruptedGoesOn(t, fd, goal, t');
    }
  }

  lemma EnteringAdvancesIt(t: Tables, fd: Fd, goal: Goal, value: int, out: Out, t': Tables)
    requires Valid(t) && Valid(t') && WellMade(t, ConnectingTimed(fd, goal, Entering))
    requires Success(t, SetNonblocking(fd, true), value, out, t')
    ensures WellMade(t', ConnectingTimed(fd, goal, Trying))
  {
    UpdatedIsWellMade(t, fd, FileOf(t', fd), ConnectingTimed(fd, goal, Trying));
  }

  /** Back in blocking mode the description is what the answer of the attempt asks for. */
  lemma BlockingAgain(fd: Fd, goal: Goal, connect: Ret, f: OpenFile)
    requires goal.ToConnectTimed? && ExpectedTimed(goal, Leaving(connect), f)
    ensures Expected(AfterAttempt(fd, goal, connect), f.(nonblocking := false))
  {
  }

  lemma LeavingAdvancesIt(t: Tables, fd: Fd, goal: Goal, connect: Ret, value: int, out: Out, t': Tables)
    requires Valid(t) && Valid(t') && WellMade(t, ConnectingTimed(fd, goal, Leaving(connect)))
    requires Success(t, SetNonblocking(fd, false), value, out, t')
    ensures WellMade(t', AfterAttempt(fd, goal, connect))
  {
    BlockingAgain(fd, goal, connect, FileOf(t, fd));
    if Private(AfterAttempt(fd, goal, connect)).Some? {
      UpdatedIsWellMade(t, fd, FileOf(t', fd), AfterAttempt(fd, goal, connect));
    }
  }

  lemma TimedModeAdvancesIt(t: Tables, fd: Fd, goal: Goal, at: TimedStage, r: Ret, t': Tables)
    requires Valid(t) && Valid(t') && WellMade(t, ConnectingTimed(fd, goal, at)) && (at.Entering? || at.Leaving?)
    requires Effect(t, SetNonblocking(fd, at.Entering?), r, t')
    ensures WellMade(t', TimedAfter(fd, goal, at, r))
  {
    if r.Returned? {
      if at.Entering? {
        EnteringAdvancesIt(t, fd, goal, r.value, r.out, t');
      } else {
        LeavingAdvancesIt(t, fd, goal, at.connect, r.value, r.out, t');
      }
    }
  }

  lemma TimedTrySucceeds(t: Tables, fd: Fd, goal: Goal, value: int, out: Out, t': Tables)
    requires Valid(t) && Valid(t') && WellMade(t, ConnectingTimed(fd, goal, Trying))
    requires Success(t, Connect(fd, goal.addr), value, out, t')
    ensures WellMade(t', ConnectingTimed(fd, goal, Leaving(Returned(value, out))))
  {
    UpdatedIsWellMade(t, fd, FileOf(t', fd), ConnectingTimed(fd, goal, Leaving(Returned(value, out))));
  }

  lemma FailedTry(goal: Goal, e: int, f: OpenFile)
    requires ExpectedTimed(goal, Trying, f)
    ensures ExpectedTimed(goal, Leaving(Failed(e)), f.(state := Connecting(goal.addr)))
    ensures e != EINPROGRESS ==> ExpectedTimed(goal, Leaving(Failed(e)), f)
  {
  }

  lemma TimedTryFails(t: Tables, fd: Fd, goal: Goal, e: int, t': Tables)
    requires Valid(t) && Valid(t') && WellMade(t, ConnectingTimed(fd, goal, Trying))
    requires Failure(t, Connect(fd, goal.addr), e, t')
    ensures WellMade(t', ConnectingTimed(fd, goal, Leaving(Failed(e))))
  {
    var f := FileOf(t, fd);
    FailedTry(goal, e, f);
    if t' != t {
      UpdatedIsWellMade(t, fd, f.(state := Connecting(goal.addr)), ConnectingTimed(fd, goal, Leaving(Failed(e))));
    }
  }

  lemma TimedTryAdvancesIt(t: Tables, fd: Fd, goal: Goal, r: Ret, t': Tables)
    requires Valid(t) && Valid(t') && WellMade(t, ConnectingTimed(fd, goal, Trying))
    requires Effect(t, Connect(fd, goal.addr), r, t')
    ensures WellMade(t', ConnectingTimed(fd, goal, Leaving(r)))
  {
    if r.Returned? {
      TimedTrySucceeds(t, fd, goal, r.value, r.out, t');
    } else {
      TimedTryFails(t, fd, goal, r.errno, t');
    }
  }

  lemma SettledTimed(goal: Goal, f: OpenFile, f': OpenFile)
    requires TimedFile(goal, false, f) && Settles(f, f')
    ensures TimedFile(goal, false, f')
  {
  }

  lemma AfterPollIsExpected(fd: Fd, goal: Goal, begun: nat, value: int, out: Out, f: OpenFile)
    requires goal.ToConnectTimed? && TimedFile(goal, false, f) && (value == 0 || Truthful(out, f.state))
    ensures Expected(AfterPoll(fd, goal, begun, value, out), f)
    ensures Private(AfterPoll(fd, goal, begun, value, out)) == Some(fd)
  {
  }

  lemma TimedPollAdvancesIt(t: Tables, fd: Fd, goal: Goal, at: TimedStage, value: int, out: Out, t': Tables)
    requires Valid(t) && Valid(t') && WellMade(t, ConnectingTimed(fd, goal, at)) && at.Polling?
    requires Success(t, Poll(fd, at.ms), value, out, t')
    ensures WellMade(t', AfterPoll(fd, goal, at.begun, value, out))
  {
    var f' := FileOf(t', fd);
    SettledTimed(goal, FileOf(t, fd), f');
    AfterPollIsExpected(fd, goal, at.begun, value, out, f');
    UpdatedIsWellMade(t, fd, f', AfterPoll(fd, goal, at.begun, value, out));
  }

  lemma PollKeepsIt(t: Tables, fd: Fd, goal: Goal, at: TimedStage, r: Ret, t': Tables)
    requires Valid(t) && Valid(t') && WellMade(t, ConnectingTimed(fd, goal, at)) && at.Polling?
    requires Effect(t, Poll(fd, at.ms), r, t')
    ensures WellMade(t', TimedAfter(fd, goal, at, r))
  {
    if r.Returned? {
      TimedPollAdvancesIt(t, fd, goal, at, r.value, r.out, t');
    }
  }

  lemma AskingEndsIt(fd: Fd, goal: Goal, r: Ret)
    ensures Private(TimedAfter(fd, goal, AskingError, r)) == None
  {
  }

  lemma TimedCallAdvancesIt(t: Tables, fd: Fd, goal: Goal, at: TimedStage, r: Ret, t': Tables)
    requires Valid(t) && Valid(t') && WellMade(t, ConnectingTimed(fd, goal, at)) && TimedWants(fd, goal, at).Some?
    requires Effect(t, TimedWants(fd, goal, at).value, r, t')
    ensures WellMade(t', TimedAfter(fd, goal, at, r))
  {
    match at
    case Trying => TimedTryAdvancesIt(t, fd, goal, r, t');
    case Polling(_, _, _) => PollKeepsIt(t, fd, goal, at, r, t');
    case AskingError => AskingEndsIt(fd, goal, r);
    case _ => TimedModeAdvancesIt(t, fd, goal, at, r, t');
  }

  /** A failing call, and any close, ends the thread's hold, unless it goes on trying to connect. */
  lemma EndedHoldsNothing(pc: Pc, r: Ret)
    requires Wants(pc).Some? && !pc.TryingConnect? && !pc.ConnectingTimed?
    requires r.Failed? || pc.Discarding? || pc.Dropping? || pc.Discovering?
    ensures Private(Resume(pc, r)) == None
  {
  }

  lemma OwnCallAdvancesIt(t: Tables, pc: Pc, r: Ret, t': Tables)
    requires Valid(t) && Valid(t') && Wants(pc).Some? && WellMade(t, pc)
    requires Effect(t, Wants(pc).value, r, t')
    ensures WellMade(t', Resume(pc, r))
  {
    if pc.TryingConnect? {
      ConnectAdvancesIt(t, pc.fd, pc.goal, r, t');
    } else if pc.ConnectingTimed? {
      TimedCallAdvancesIt(t, pc.fd, pc.goal, pc.at, r, t');
    } else if r.Failed? || pc.Discarding? || pc.Dropping? || pc.Discovering? {
      EndedHoldsNothing(pc, r);
    } else {
      SuccessAdvancesIt(t, pc, r.value, r.out, t');
    }
  }

  lemma SuccessAdvancesIt(t: Tables, pc: Pc, value: int, out: Out, t': Tables)
    requires Valid(t) && Valid(t') && Wants(pc).Some? && WellMade(t, pc)
    requires !pc.TryingConnect? && !pc.ConnectingTimed? && !pc.Discarding? && !pc.Dropping? && !pc.Discovering?
    requires Success(t, Wants(pc).value, value, out, t')
    ensures WellMade(t', ResumeReturned(pc, value, out))
  {
    if pc.Probing? || pc.PlainDup? {
      CopyIsNotPrivate(pc, value, out);
    } else if pc.ModernSocket? || pc.PlainSocket? || pc.ModernAccept? || pc.PlainAccept? {
      OpeningMakesIt(t, pc, value, out, t');
    } else if pc.Marking? {
      MarkingKeepsIt(t, pc.fd, pc.origin, t');
    } else if pc.SettingReuse? {
      ReuseAdvancesIt(t, pc.fd, pc.goal, value, out, t');
    } else if pc.Binding? {
      BindAdvancesIt(t, pc.fd, pc.goal, value, out, t');
    } else {
      ListenAdvancesIt(t, pc.fd, pc.goal, value, out, t');
    }
  }

  // ---------------------------------------------------------------- Over whole runs

  /** A thread's private descriptor is nobody else's. */
  lemma PrivateIsItsOwn(s: State, t: Tid, fd: Fd)
    requires Accounts(s) && t in s.threads && Private(s.threads[t].pc) == Some(fd)
    ensures fd !in s.foreign && fd !in s.HandleFds()
    ensures forall u | u in s.threads && u != t :: Local(s.threads[u].pc) != Some(fd)
  {
    assert Local(s.threads[t].pc) == Some(fd);
    assert s.live[InCall(t)] == fd;
  }

  /** A thread's next call is about a descriptor of its own or one it borrowed. */
  lemma CallsStayWithin(pc: Pc)
    requires Wants(pc).Some?
    ensures var target := Target(Wants(pc).value);
      target.Some? ==> target == Local(pc) || target == Borrowed(pc)
  {
  }

  lemma StaysWellMade(t: Tables, c: Call, r: Ret, t': Tables, pc: Pc)
    requires Valid(t) && Valid(t') && Effect(t, c, r, t') && WellMade(t, pc)
    requires Private(pc).Some? ==> Target(c) != Private(pc)
    ensures WellMade(t', pc)
  {
    if Private(pc).Some? {
      OthersLeaveIt(t, c, r, t', Private(pc).value);
    }
  }

  lemma AnswerKeepsOthers(s: State, u: Tid, ret: Ret, w: World, t: Tid)
    requires Inv(s) && AllWellMade(s) && Valid(w.tab)
    requires t in s.threads && u in s.threads && u != t && Wants(s.threads[u].pc).Some?
    requires Effect(s.w.tab, Wants(s.threads[u].pc).value, ret, w.tab)
    ensures WellMade(w.tab, s.threads[t].pc)
  {
    var pc := s.threads[t].pc;
    CallsStayWithin(s.threads[u].pc);
    if Private(pc).Some? {
      PrivateIsItsOwn(s, t, Private(pc).value);
    }
    StaysWellMade(s.w.tab, Wants(s.threads[u].pc).value, ret, w.tab, pc);
  }

  lemma AnswerKeepsEach(s: State, u: Tid, ret: Ret, w: World, t: Tid)
    requires Inv(s) && AllWellMade(s) && Valid(w.tab)
    requires t in s.threads && u in s.threads && Wants(s.threads[u].pc).Some?
    requires Effect(s.w.tab, Wants(s.threads[u].pc).value, ret, w.tab)
    ensures WellMade(w.tab, if t == u then Resume(s.threads[u].pc, ret) else s.threads[t].pc)
  {
    if t == u {
      OwnCallAdvancesIt(s.w.tab, s.threads[u].pc, ret, w.tab);
    } else {
      AnswerKeepsOthers(s, u, ret, w, t);
    }
  }

  /** A call on a descriptor that is no thread's private one. */
  lemma OutsideCallKeepsWellMade(s: State, c: Call, r: Ret, w: World)
    requires Inv(s) && Valid(w.tab) && AllWellMade(s) && Effect(s.w.tab, c, r, w.tab)
    requires Target(c).Some? ==> Target(c).value in s.HandleFds() || Target(c).value in s.foreign
    ensures AllWellMade(s.(w := w))
  {
    forall t | t in s.threads
      ensures WellMade(w.tab, s.threads[t].pc)
    {
      var pc := s.threads[t].pc;
      if Private(pc).Some? {
        PrivateIsItsOwn(s, t, Private(pc).value);
      }
      StaysWellMade(s.w.tab, c, r, w.tab, pc);
    }
  }

  /** Without a system call a thread's private descriptor stays or goes, or its timed connect reads the clock. */
  lemma QuietPc(s: State, a: Action, s': State, t: Tid)
    requires Quiet(s, a, s') && t in s'.threads && Private(s'.threads[t].pc).Some?
    ensures t in s.threads
    ensures var pc, pc' := s.threads[t].pc, s'.threads[t].pc;
      pc' == pc || (pc.ConnectingTimed? && (pc.at.Starting? || pc.at.Checking?) && pc' == OnClock(pc, s.w.clock))
  {
  }

  lemma ClockKeepsIt(t: Tables, pc: Pc, now: nat)
    requires Valid(t) && WellMade(t, pc) && pc.ConnectingTimed? && (pc.at.Starting? || pc.at.Checking?)
    ensures WellMade(t, OnClock(pc, now))
  {
  }

  lemma QuietKeepsWellMade(s: State, a: Action, s': State)
    requires Valid(s.w.tab) && AllWellMade(s) && Quiet(s, a, s')
    ensures Valid(s'.w.tab) && AllWellMade(s')
  {
    QuietMovesNothing(s, a, s');
    forall t | t in s'.threads
      ensures WellMade(s.w.tab, s'.threads[t].pc)
    {
      if Private(s'.threads[t].pc).Some? {
        QuietPc(s, a, s', t);
        if s'.threads[t].pc != s.threads[t].pc {
          ClockKeepsIt(s.w.tab, s.threads[t].pc, s.w.clock);
        }
      }
    }
  }

  lemma AnswersKeepWellMade(s: State, u: Tid, ret: Ret, s': State)
    requires Inv(s) && Valid(s'.w.tab) && AllWellMade(s) && Answers(s, u, ret, s')
    ensures AllWellMade(s')
  {
    forall t | t in s.threads
      ensures WellMade(s'.w.tab, s'.threads[t].pc)
    {
      AnswerKeepsEach(s, u, ret, s'.w, t);
    }
  }

  lemma OutsideKeepsWellMade(s: State, a: Action, s': State)
    requires Inv(s) && Valid(s'.w.tab) && AllWellMade(s) && Next(s, a, s') && (a.Use? || a.Foreign?)
    ensures AllWellMade(s')
  {
    OutsideCallKeepsWellMade(s, a.call, a.ret, s'.w);
  }

  lemma NextKeepsWellMade(s: State, a: Action, s': State)
    requires Inv(s) && Valid(s'.w.tab) && AllWellMade(s) && Next(s, a, s')
    ensures AllWellMade(s')
  {
    if a.Answer? {
      AnswersKeepWellMade(s, a.t, a.ret, s');
    } else if a.Use? || a.Foreign? {
      OutsideKeepsWellMade(s, a, s');
    } else {
      QuietKeepsWellMade(s, a, s');
    }
  }
}
