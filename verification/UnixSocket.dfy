/** src/sys/unix/bt.rs: the socket. */
module UnixSocket {
  import opened Base
  import opened Durations
  import opened Timeouts
  import opened Kernel
  import opened Program
  import opened Processes
  import opened FileDescs

  const TIME_T_MAX := 0x7FFF_FFFF_FFFF_FFFF

  /** `fd` is a new close-on-exec socket, and nothing else is new. */
  predicate NewMarkedSocket(t: Tables, fd: Fd, protocol: Protocol, t': Tables) {
    Opened(t, fd, NewFile(TransportOf(protocol), Fresh), t') && t'.fds[fd].cloexec
  }

  /** The `socket` call of older kernels and what comes of it. */
  predicate PlainSocketCalls(log: seq<Event>, from: nat, protocol: Protocol, error: Option<Error>) {
    && from < |log|
    && log[from].call.Socket?
    && !log[from].call.cloexec
    && Speaks(log[from].call.transport, protocol)
    && MakesOrFails(log, from, error)
  }

  /** The calls that make a socket, and the error that they mean: SOCK_CLOEXEC first, and without it exactly when the
      kernel rejects it with EINVAL. */
  predicate SocketCalls(log: seq<Event>, from: nat, protocol: Protocol, error: Option<Error>) {
    && from < |log|
    && log[from].call.Socket?
    && log[from].call.cloexec
    && Speaks(log[from].call.transport, protocol)
    && match log[from].ret
       case Returned(_, _) => error == None && |log| == from + 1
       case Failed(n) =>
         if n == EINVAL then PlainSocketCalls(log, from + 1, protocol, error)
         else error == Some(Os(n)) && |log| == from + 1
  }

  /** The socket `fd` is of the protocol. */
  predicate IsOf(t: Tables, fd: Fd, protocol: Protocol) {
    && Valid(t)
    && fd in t.fds
    && Speaks(FileOf(t, fd).transport, protocol)
  }

  /** `Socket::new`: a fresh close-on-exec socket from either kernel path, or nothing. */
  method NewSocket(p: Process, protocol: Protocol, ghost goal: Goal) returns (r: Result<FileDesc>)
    requires Valid(p.w.tab) && p.pc == ModernSocket(goal) && goal.protocol == protocol
    modifies p`w, p`pc, p`log
    ensures Valid(p.w.tab)
    ensures r.Ok? ==> NewMarkedSocket(old(p.w.tab), r.value.fd, protocol, p.w.tab) && p.pc == StartOn(goal, r.value.fd)
    ensures r.Ok? ==> IsOf(p.w.tab, r.value.fd, protocol)
    ensures r.Err? ==> p.w.tab == old(p.w.tab) && p.pc == Done(Err(r.error), Some(New(goal)))
    ensures old(p.log) <= p.log && SocketCalls(p.log, |old(p.log)|, protocol, ErrorIn(r))
    ensures KernelRunTo(old(p.log), old(p.w)) ==> KernelRunTo(p.log, p.w)
  {
    var modern := p.Create(TransportOf(protocol), true, goal);
    match modern
    case Returned(fd, _) => r := Ok(FileDesc(fd));
    case Failed(e) =>
      if e == EINVAL {
        r := NewPlainSocket(p, protocol, goal);
      } else {
        r := Err(Os(e));
      }
  }

  /** The `socket` call of older kernels, followed by `set_cloexec`. */
  method NewPlainSocket(p: Process, protocol: Protocol, ghost goal: Goal) returns (r: Result<FileDesc>)
    requires Valid(p.w.tab) && p.pc == PlainSocket(goal) && goal.protocol == protocol
    modifies p`w, p`pc, p`log
    ensures Valid(p.w.tab)
    ensures r.Ok? ==> NewMarkedSocket(old(p.w.tab), r.value.fd, protocol, p.w.tab) && p.pc == StartOn(goal, r.value.fd)
    ensures r.Err? ==> p.w.tab == old(p.w.tab) && p.pc == Done(Err(r.error), Some(New(goal)))
    ensures old(p.log) <= p.log && PlainSocketCalls(p.log, |old(p.log)|, protocol, ErrorIn(r))
    ensures KernelRunTo(old(p.log), old(p.w)) ==> KernelRunTo(p.log, p.w)
  {
    var plain := p.Create(TransportOf(protocol), false, goal);
    match plain
    case Failed(e) => r := Err(Os(e));
    case Returned(fd, _) =>
      ghost var made := p.w.tab;
      r := MakeFileDesc(p, fd);
      MarkedOrClosed(old(p.w.tab), fd, protocol, made, r, p.w.tab);
  }

  /** What becomes of a new socket when it is marked, and when it is closed instead. */
  lemma MarkedOrClosed(t: Tables, fd: Fd, protocol: Protocol, mid: Tables, r: Result<FileDesc>, t': Tables)
    requires Valid(t) && Valid(mid) && Opened(t, fd, NewFile(TransportOf(protocol), Fresh), mid)
    requires match r
      case Ok(d) => d.fd == fd && t' == mid.(fds := mid.fds[fd := mid.fds[fd].(cloexec := true)])
      case Err(_) => t' == Closed(mid, fd)
    ensures match r
      case Ok(d) => NewMarkedSocket(t, d.fd, protocol, t')
      case Err(_) => t' == t
  {
    if r.Ok? {
      assert mid.fds[fd := mid.fds[fd].(cloexec := true)] == t.fds[fd := mid.fds[fd].(cloexec := true)];
    } else {
      CloseUndoesAdds(t, fd, mid);
    }
  }

  /** The listener's queue moved on and nothing else changed. */
  predicate QueueMoved(t: Tables, l: Fd, t': Tables)
    requires Valid(t) && l in t.fds
  {
    && Valid(t')
    && t'.fds == t.fds
    && var f, f' := FileOf(t, l), FileOf(t', l);
    && f.arrived <= f'.arrived
    && f.taken <= f'.taken <= f.taken + 1
    && t' == Update(t, l, f.(arrived := f'.arrived, taken := f'.taken))
  }

  /** At most more connections reached the listener. */
  predicate Waited(t: Tables, l: Fd, t': Tables)
    requires Valid(t)
  {
    t' == t || Arrivals(t, l, t')
  }

  /** The head of the queue as a close-on-exec descriptor with its own address, or no new descriptor, and at most the
      head of the queue is gone. */
  predicate AcceptedOrMoved(t: Tables, l: Fd, r: Result<(FileDesc, BtAddr)>, t': Tables)
    requires Valid(t) && l in t.fds
  {
    match r
    case Ok((d, peer)) => Accepted(t, l, d.fd, peer, t') && t'.fds[d.fd].cloexec
    case Err(_) => QueueMoved(t, l, t')
  }

  /** Call `c` was made from call `from` of the log on until, at call `k`, it was not interrupted. */
  predicate AnsweredAt(log: seq<Event>, from: nat, k: nat, c: Call) {
    && from <= k < |log|
    && (forall i | from <= i < k :: Is(log[i], c, Failed(EINTR)))
    && log[k].call == c
    && log[k].ret != Failed(EINTR)
  }

  lemma RetriedIsAnswered(before: seq<Event>, after: seq<Event>, c: Call, ret: Ret, log: seq<Event>)
    requires Retried(before, after, c, ret) && after <= log
    ensures AnsweredAt(log, |before|, |after| - 1, c) && log[|after| - 1].ret == ret
  {
    forall i | |before| <= i < |after| - 1
      ensures Is(log[i], c, Failed(EINTR))
    {
      assert after[..|after| - 1][i] == log[i];
    }
  }

  /** `accept` and what comes of it. */
  ghost predicate PlainAcceptCalls(log: seq<Event>, from: nat, l: Fd, error: Option<Error>) {
    exists k: nat :: AnsweredAt(log, from, k, Accept(l)) && MakesOrFails(log, k, error)
  }

  /** What comes of `accept4`, answered at call `k`: only ENOSYS makes `accept` the next call. */
  ghost predicate GoesOnFrom(log: seq<Event>, k: nat, l: Fd, error: Option<Error>)
    requires k < |log|
  {
    match log[k].ret
    case Returned(_, _) => error == None && |log| == k + 1
    case Failed(n) =>
      if n == ENOSYS then PlainAcceptCalls(log, k + 1, l, error) else error == Some(Os(n)) && |log| == k + 1
  }

  /** The calls that accept a connection of listener `l`, and the error that they mean: that of the last call that is
      no `close`. */
  ghost predicate AcceptCalls(log: seq<Event>, from: nat, l: Fd, error: Option<Error>) {
    exists k: nat :: AnsweredAt(log, from, k, Accept4(l)) && GoesOnFrom(log, k, l, error)
  }

  lemma AcceptAnswered(before: seq<Event>, after: seq<Event>, l: Fd, ret: Ret, error: Option<Error>)
    requires Retried(before, after, Accept4(l), ret) && ret != Failed(ENOSYS)
    requires error == if ret.Failed? then Some(Os(ret.errno)) else None
    ensures AcceptCalls(after, |before|, l, error)
    ensures error.Some? ==> FailedLast(after, |before|, error.value)
  {
    RetriedIsAnswered(before, after, Accept4(l), ret, after);
    assert GoesOnFrom(after, |after| - 1, l, error);
    if error.Some? {
      AcceptFails(after, |before|, l, error.value);
    }
  }

  lemma AcceptUnknown(before: seq<Event>, after: seq<Event>, l: Fd, log: seq<Event>, error: Option<Error>)
    requires Retried(before, after, Accept4(l), Failed(ENOSYS)) && after <= log
    requires PlainAcceptCalls(log, |after|, l, error)
    ensures AcceptCalls(log, |before|, l, error)
    ensures error.Some? ==> FailedLast(log, |before|, error.value)
  {
    RetriedIsAnswered(before, after, Accept4(l), Failed(ENOSYS), log);
    assert GoesOnFrom(log, |after| - 1, l, error);
    if error.Some? {
      AcceptFails(log, |before|, l, error.value);
    }
  }

  lemma PlainAcceptFailed(before: seq<Event>, after: seq<Event>, l: Fd, n: int)
    requires Retried(before, after, Accept(l), Failed(n))
    ensures PlainAcceptCalls(after, |before|, l, Some(Os(n)))
  {
    RetriedIsAnswered(before, after, Accept(l), Failed(n), after);
    assert MakesOrFails(after, |after| - 1, Some(Os(n)));
  }

  lemma PlainAcceptMarks(before: seq<Event>, after: seq<Event>, l: Fd, ret: Ret, log: seq<Event>, error: Option<Error>)
    requires Retried(before, after, Accept(l), ret) && after <= log
    requires ret.Returned? && MarkingCalls(log, |after|, ret.value, error)
    ensures PlainAcceptCalls(log, |before|, l, error)
  {
    RetriedIsAnswered(before, after, Accept(l), ret, log);
    assert MakesOrFails(log, |after| - 1, error);
  }

  function AcceptOutcome(r: Result<(FileDesc, BtAddr)>): Outcome {
    match r
    case Ok(got) => Ok(Made(got.0.fd, Some(got.1)))
    case Err(e) => Err(e)
  }

  /** An accepting call is over. */
  predicate AcceptEnds(t: Tables, l: Fd, r: Result<(FileDesc, BtAddr)>, t': Tables, pc: Pc)
    requires Valid(t) && l in t.fds
  {
    && Valid(t')
    && AcceptedOrMoved(t, l, r, t')
    && pc.Done?
    && pc.outcome == AcceptOutcome(r)
  }

  lemma Accept4Ends(t: Tables, l: Fd, ret: Ret, r: Result<(FileDesc, BtAddr)>, t': Tables)
    requires Valid(t) && Valid(t') && l in t.fds && Effect(t, Accept4(l), ret, t')
    requires ret != Failed(EINTR) && ret != Failed(ENOSYS)
    requires r == if ret.Failed? then Err(Os(ret.errno)) else Ok((FileDesc(ret.value), PeerOf(ret.out)))
    ensures AcceptEnds(t, l, r, t', Resume(ModernAccept(l), ret))
  {
    if ret.Failed? {
      QueueMovedTwice(t, l, t, t');
    }
  }

  lemma AcceptFailsAfterWaiting(t: Tables, l: Fd, mid: Tables, n: int, t': Tables)
    requires Valid(t) && Valid(mid) && Valid(t') && l in t.fds && n != EINTR
    requires Waited(t, l, mid) && Failure(mid, Accept(l), n, t')
    ensures AcceptEnds(t, l, Err(Os(n)), t', Resume(PlainAccept(l), Failed(n)))
  {
    FailedAfterWaiting(t, l, mid, n, t');
  }

  lemma MakingFails(log: seq<Event>, from: nat, k: nat, error: Error)
    requires from <= k < |log| && !log[k].call.Close? && MakesOrFails(log, k, Some(error))
    ensures FailedLast(log, from, error)
  {
    if log[k].ret.Returned? {
      assert Blames(log, k + 1, error);
    } else {
      assert Blames(log, k, error);
    }
  }

  lemma AcceptFails(log: seq<Event>, from: nat, l: Fd, error: Error)
    requires AcceptCalls(log, from, l, Some(error))
    ensures FailedLast(log, from, error)
  {
    var k: nat :| AnsweredAt(log, from, k, Accept4(l)) && GoesOnFrom(log, k, l, Some(error));
    if log[k].ret == Failed(ENOSYS) {
      var m: nat :| AnsweredAt(log, k + 1, m, Accept(l)) && MakesOrFails(log, m, Some(error));
      MakingFails(log, from, m, error);
    } else {
      assert Blames(log, k, error);
    }
  }

  lemma MakingSocketFails(log: seq<Event>, from: nat, protocol: Protocol, error: Error)
    requires SocketCalls(log, from, protocol, Some(error))
    ensures FailedLast(log, from, error)
  {
    if log[from].ret == Failed(EINVAL) {
      MakingFails(log, from, from + 1, error);
    } else {
      assert Blames(log, from, error);
    }
  }

  /** `accept`. */
  method AcceptSocket(p: Process, l: FileDesc) returns (r: Result<(FileDesc, BtAddr)>)
    requires p.Ready() && l.fd in p.w.tab.fds
    modifies p
    ensures p.Ready() && p.tryCloexec == old(p.tryCloexec)
    ensures p.history == old(p.history) + [Operation(ModernAccept(l.fd), old(p.w.tab), p.w.tab, AcceptOutcome(r))]
    ensures AcceptedOrMoved(old(p.w.tab), l.fd, r, p.w.tab)
    ensures AcceptCalls(p.log, |old(p.log)|, l.fd, ErrorIn(r))
    ensures r.Err? ==> FailedLast(p.log, |old(p.log)|, r.error)
  {
    p.Enter(ModernAccept(l.fd));
    r := AcceptOnce(p, l);
    p.Leave();
  }

  method AcceptOnce(p: Process, l: FileDesc) returns (r: Result<(FileDesc, BtAddr)>)
    requires Valid(p.w.tab) && l.fd in p.w.tab.fds && p.pc == ModernAccept(l.fd)
    modifies p`w, p`pc, p`log
    ensures AcceptEnds(old(p.w.tab), l.fd, r, p.w.tab, p.pc)
    ensures AcceptCalls(p.log, |old(p.log)|, l.fd, ErrorIn(r))
    ensures r.Err? ==> FailedLast(p.log, |old(p.log)|, r.error)
    ensures KernelRunTo(old(p.log), old(p.w)) ==> KernelRunTo(p.log, p.w)
  {
    var modern := p.CvtR(Accept4(l.fd));
    match modern
    case Ok(ret) =>
      r := Ok((FileDesc(ret.value), PeerOf(ret.out)));
      Accept4Ends(old(p.w.tab), l.fd, ret, r, p.w.tab);
      AcceptAnswered(old(p.log), p.log, l.fd, ret, None);
    case Err(e) =>
      if e == Os(ENOSYS) {
        ghost var asked := p.log;
        r := AcceptPlain(p, l, old(p.w.tab));
        AcceptUnknown(old(p.log), asked, l.fd, p.log, ErrorIn(r));
      } else {
        r := Err(e);
        Accept4Ends(old(p.w.tab), l.fd, Failed(e.errno), r, p.w.tab);
        AcceptAnswered(old(p.log), p.log, l.fd, Failed(e.errno), Some(e));
      }
  }

  /** The `accept` call of older kernels, followed by `set_cloexec`. */
  method AcceptPlain(p: Process, l: FileDesc, ghost t: Tables) returns (r: Result<(FileDesc, BtAddr)>)
    requires Valid(t) && Valid(p.w.tab) && l.fd in t.fds
    requires Waited(t, l.fd, p.w.tab) && p.pc == PlainAccept(l.fd)
    modifies p`w, p`pc, p`log
    ensures AcceptEnds(t, l.fd, r, p.w.tab, p.pc)
    ensures old(p.log) <= p.log && PlainAcceptCalls(p.log, |old(p.log)|, l.fd, ErrorIn(r))
    ensures KernelRunTo(old(p.log), old(p.w)) ==> KernelRunTo(p.log, p.w)
  {
    var plain := p.CvtR(Accept(l.fd));
    match plain
    case Err(e) =>
      AcceptFailsAfterWaiting(t, l.fd, old(p.w.tab), e.errno, p.w.tab);
      PlainAcceptFailed(old(p.log), p.log, l.fd, e.errno);
      r := Err(e);
    case Ok(ret) =>
      AcceptedAfterWaiting(t, l.fd, old(p.w.tab), ret, p.w.tab);
      ghost var asked := p.log;
      r := FinishAccept(p, l, ret.value, PeerOf(ret.out), t);
      PlainAcceptMarks(old(p.log), asked, l.fd, ret, p.log, ErrorIn(r));
  }

  method FinishAccept(p: Process, l: FileDesc, fd: Fd, peer: BtAddr, ghost t: Tables)
    returns (r: Result<(FileDesc, BtAddr)>)
    requires Valid(t) && Valid(p.w.tab) && Accepted(t, l.fd, fd, peer, p.w.tab)
    requires p.pc == Marking(fd, QueueOf(l.fd, peer))
    modifies p`w, p`pc, p`log
    ensures AcceptEnds(t, l.fd, r, p.w.tab, p.pc)
    ensures old(p.log) <= p.log && MarkingCalls(p.log, |old(p.log)|, fd, ErrorIn(r))
    ensures KernelRunTo(old(p.log), old(p.w)) ==> KernelRunTo(p.log, p.w)
  {
    var made := MakeFileDesc(p, fd);
    AcceptedIsMarkedOrClosed(t, l.fd, fd, peer, old(p.w.tab), made, p.w.tab);
    match made
    case Ok(d) => r := Ok((d, peer));
    case Err(e) => r := Err(e);
  }

  /** What becomes of an accepted connection when it is marked, and when it is closed instead. */
  lemma AcceptedIsMarkedOrClosed(t: Tables, l: Fd, fd: Fd, peer: BtAddr, mid: Tables, made: Result<FileDesc>,
                                 t': Tables)
    requires Valid(t) && Valid(mid) && l in t.fds && Accepted(t, l, fd, peer, mid)
    requires match made
      case Ok(d) => d.fd == fd && t' == mid.(fds := mid.fds[fd := mid.fds[fd].(cloexec := true)])
      case Err(_) => t' == Closed(mid, fd)
    ensures AcceptedOrMoved(t, l, if made.Ok? then Ok((made.value, peer)) else Err(made.error), t')
  {
    if made.Ok? {
      MarkingKeepsAccepted(t, l, fd, peer, mid, t');
    } else {
      CloseUndoesAccept(t, l, fd, peer, mid);
    }
  }

  lemma MarkingKeepsAccepted(t: Tables, l: Fd, fd: Fd, peer: BtAddr, t1: Tables, t2: Tables)
    requires Valid(t) && Accepted(t, l, fd, peer, t1)
    requires t2 == t1.(fds := t1.fds[fd := t1.fds[fd].(cloexec := true)])
    ensures Accepted(t, l, fd, peer, t2)
  {
    assert t.fds[fd := t2.fds[fd]] == t2.fds;
  }

  lemma QueueMovedTwice(t: Tables, l: Fd, mid: Tables, t': Tables)
    requires Valid(t) && Valid(mid) && Valid(t') && l in t.fds
    requires Waited(t, l, mid) && Waited(mid, l, t')
    ensures QueueMoved(t, l, t')
  {
    var id := t.fds[l].file;
    assert t.files[id := t'.files[id]] == t'.files;
  }

  lemma FailedAfterWaiting(t: Tables, l: Fd, mid: Tables, e: int, t': Tables)
    requires Valid(t) && Valid(mid) && Valid(t') && l in t.fds
    requires Waited(t, l, mid) && Failure(mid, Accept(l), e, t')
    ensures QueueMoved(t, l, t')
  {
    QueueMovedTwice(t, l, mid, t');
  }

  lemma AcceptedAfterWaiting(t: Tables, l: Fd, mid: Tables, ret: Ret, t': Tables)
    requires Valid(t) && Valid(mid) && l in t.fds
    requires Waited(t, l, mid) && ret.Returned? && Success(mid, Accept(l), ret.value, ret.out, t')
    ensures Accepted(t, l, ret.value, PeerOf(ret.out), t')
  {
    if mid != t {
      AcceptedAfterArrivals(t, l, mid, ret.value, ret.out.addr, t');
    }
  }

  lemma CloseUndoesAccept(t: Tables, l: Fd, fd: Fd, peer: BtAddr, t': Tables)
    requires Valid(t) && Valid(t') && Accepted(t, l, fd, peer, t')
    ensures QueueMoved(t, l, Closed(t', fd))
  {
    var id := t.fds[l].file;
    var f := FileOf(t, l);
    var queued := Update(t, l, f.(arrived := t'.files[id].arrived, taken := f.taken + 1));
    SharersUnmoved(t, queued);
    assert Valid(queued);
    CloseUndoesAdds(queued, fd, t');
  }

  /** `error` reports the failure of this call. */
  predicate FailsWith(error: Error, e: Event) {
    e.ret.Failed? && error == Os(e.ret.errno)
  }

  lemma ModeIsSet(t: Tables, fd: Fd, on: bool, ret: Ret, t': Tables)
    requires Valid(t) && fd in t.fds && Effect(t, SetNonblocking(fd, on), ret, t')
    ensures t' == if ret.Returned? then Update(t, fd, FileOf(t, fd).(nonblocking := on)) else t
  {
  }

  /** `set_nonblocking`. */
  method SetSocketNonblocking(p: Process, d: FileDesc, on: bool) returns (r: Result<()>, ghost e: Event)
    requires Valid(p.w.tab) && d.fd in p.w.tab.fds
    requires p.pc.Idle? || Wants(p.pc) == Some(SetNonblocking(d.fd, on))
    modifies p`w, p`pc, p`log
    ensures Valid(p.w.tab)
    ensures Called(old(p.w), e, SetNonblocking(d.fd, on), e.ret, p.w) && p.log == old(p.log) + [e]
    ensures r.Ok? ==> p.w.tab == Update(old(p.w.tab), d.fd, FileOf(old(p.w.tab), d.fd).(nonblocking := on))
    ensures r.Err? ==> p.w.tab == old(p.w.tab) && FailsWith(r.error, e)
    ensures r.Ok? <==> e.ret.Returned?
    ensures p.pc == if old(p.pc).Idle? then Idle else Resume(old(p.pc), e.ret)
    ensures p.w.signals <= old(p.w.signals) && old(p.w.clock) <= p.w.clock
    ensures KernelRunTo(old(p.log), old(p.w)) ==> KernelRunTo(p.log, p.w)
  {
    var ret := p.Syscall(SetNonblocking(d.fd, on));
    e := p.log[|old(p.log)|];
    ModeIsSet(old(p.w.tab), d.fd, on, ret, p.w.tab);
    match ret
    case Failed(n) => r := Err(Os(n));
    case Returned(_, _) => r := Ok(());
  }

  lemma ErrorIsTaken(t: Tables, fd: Fd, value: int, out: Out, t': Tables)
    requires Valid(t) && Success(t, GetError(fd), value, out, t')
    ensures out.Code? && ErrorTaken(t, fd, if out.errno == 0 then None else Some(Os(out.errno)), t')
  {
  }

  /** `take_error`: hands out the pending error, and nothing else changes but that it is pending no more. */
  method TakeError(p: Process, d: FileDesc) returns (r: Result<Option<Error>>, ghost e: Event)
    requires Valid(p.w.tab) && d.fd in p.w.tab.fds
    requires p.pc.Idle? || Wants(p.pc) == Some(GetError(d.fd))
    modifies p`w, p`pc, p`log
    ensures Valid(p.w.tab)
    ensures Called(old(p.w), e, GetError(d.fd), e.ret, p.w) && p.log == old(p.log) + [e]
    ensures match e.ret
      case Failed(n) => r == Err(Os(n))
      case Returned(_, out) => out.Code? && r == if out == Code(0) then Ok(None) else Ok(Some(Os(out.errno)))
    ensures r.Ok? ==> ErrorTaken(old(p.w.tab), d.fd, r.value, p.w.tab)
    ensures r.Err? ==> p.w.tab == old(p.w.tab)
    ensures p.pc == if old(p.pc).Idle? then Idle else Resume(old(p.pc), e.ret)
    ensures p.w.signals <= old(p.w.signals) && old(p.w.clock) <= p.w.clock
    ensures KernelRunTo(old(p.log), old(p.w)) ==> KernelRunTo(p.log, p.w)
  {
    var ret := p.Syscall(GetError(d.fd));
    e := p.log[|old(p.log)|];
    match ret
    case Failed(n) => r := Err(Os(n));
    case Returned(value, out) =>
      ErrorIsTaken(old(p.w.tab), d.fd, value, out, p.w.tab);
      if out.errno == 0 {
        r := Ok(None);
      } else {
        r := Ok(Some(Os(out.errno)));
      }
  }

  /** The error that was pending on `fd`, if any, is `error`; no error is pending now; the connection may have
      settled meanwhile. */
  predicate ErrorTaken(t: Tables, fd: Fd, error: Option<Error>, t': Tables)
    requires Valid(t) && fd in t.fds
  {
    && t.fds[fd].file in t'.files
    && var f, f' := FileOf(t, fd), t'.files[t.fds[fd].file];
    && t' == Update(t, fd, f')
    && Settles(f.(error := 0), f')
    && f'.error == 0
    && (f.error != 0 ==> error == Some(Os(f.error)))
  }

  /** `set_timeout`: stores the converted timeout, or refuses a zero one before asking the kernel. */
  method SetSocketTimeout(p: Process, d: FileDesc, timeout: Option<Duration>, dir: Direction) returns (r: Result<()>)
    requires p.Ready() && d.fd in p.w.tab.fds
    modifies p`w, p`pc, p`log
    ensures p.Ready()
    ensures UnixEncode(timeout, TIME_T_MAX).Err? ==> r == Err(InvalidInput) && p.w == old(p.w) && p.log == old(p.log)
    ensures r.Ok? ==>
      && UnixEncode(timeout, TIME_T_MAX).Ok?
      && p.w.tab == Update(old(p.w.tab), d.fd,
           FileOf(old(p.w.tab), d.fd).WithTimeout(dir, UnixEncode(timeout, TIME_T_MAX).value))
    ensures UnixEncode(timeout, TIME_T_MAX).Ok? ==>
      && |p.log| == |old(p.log)| + 1
      && p.log[|old(p.log)|].call == SetTimeout(d.fd, dir, UnixEncode(timeout, TIME_T_MAX).value)
      && if r.Ok? then p.log[|old(p.log)|].ret.Returned? else FailsWith(r.error, p.log[|old(p.log)|])
    ensures r.Err? ==> p.w.tab == old(p.w.tab)
  {
    var encoded := UnixEncode(timeout, TIME_T_MAX);
    match encoded
    case Err(e) => r := Err(e);
    case Ok(time) =>
      var ret := p.Syscall(SetTimeout(d.fd, dir, time));
      match ret
      case Failed(e) => r := Err(Os(e));
      case Returned(_, _) => r := Ok(());
  }

  /** `timeout`: reads the stored value of one direction back. */
  method SocketTimeout(p: Process, d: FileDesc, dir: Direction) returns (r: Result<Option<RawDuration>>)
    requires p.Ready() && d.fd in p.w.tab.fds
    modifies p`w, p`pc, p`log
    ensures p.Ready() && p.w.tab == old(p.w.tab)
    ensures r.Ok? ==> r.value == UnixDecode(FileOf(p.w.tab, d.fd).TimeoutOf(dir))
    ensures |p.log| == |old(p.log)| + 1 && p.log[|old(p.log)|].call == GetTimeout(d.fd, dir)
    ensures if r.Ok? then p.log[|old(p.log)|].ret.Returned? else FailsWith(r.error, p.log[|old(p.log)|])
  {
    var ret := p.Syscall(GetTimeout(d.fd, dir));
    match ret
    case Failed(e) => r := Err(Os(e));
    case Returned(_, out) => r := Ok(UnixDecode(out.time));
  }

  /** A timeout set through one descriptor is read through every duplicate of it, converted as `UnixRoundTrip`
      says, and the other direction and every other description keep theirs. */
  lemma TimeoutSeenThroughDuplicates(t: Tables, a: Fd, b: Fd, other: Fd, dir: Direction, timeout: Option<Duration>)
    requires Valid(t) && a in t.fds && b in t.fds && other in t.fds
    requires t.fds[a].file == t.fds[b].file != t.fds[other].file
    requires UnixEncode(timeout, TIME_T_MAX).Ok?
    ensures var t' := Update(t, a, FileOf(t, a).WithTimeout(dir, UnixEncode(timeout, TIME_T_MAX).value));
      && Valid(t')
      && ReadsBack(timeout, TIME_T_MAX, FileOf(t', b).TimeoutOf(dir))
      && (forall opposite: Direction :: opposite != dir ==>
            FileOf(t', b).TimeoutOf(opposite) == FileOf(t, b).TimeoutOf(opposite))
      && FileOf(t', other) == FileOf(t, other)
  {
    UnixRoundTrip(timeout, TIME_T_MAX);
    SharersUnmoved(t, Update(t, a, FileOf(t, a).WithTimeout(dir, UnixEncode(timeout, TIME_T_MAX).value)));
  }
}
