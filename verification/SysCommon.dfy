/** src/sys_common/bt.rs: one attempt to bind, to connect, or to connect in time. */
module SysCommon {
  import opened Base
  import opened Durations
  import opened Kernel
  import opened Program
  import opened Processes
  import opened FileDescs
  import opened UnixSocket
  import opened UnixConnect
  import opened ConnectAnswers

  /** A listener or stream: the socket and the protocol it remembers. */
  datatype Endpoint = Endpoint(inner: FileDesc, protocol: Protocol)

  function EndpointOutcome(r: Result<Endpoint>): Outcome {
    match r
    case Ok(e) => Ok(Made(e.inner.fd, None))
    case Err(e) => Err(e)
  }

  /** `r` is the one descriptor by which `t'` exceeds `t`, close-on-exec and in state `state`; or there is none. */
  predicate AddsEndpoint(t: Tables, r: Result<Endpoint>, protocol: Protocol, f: OpenFile, t': Tables) {
    match r
    case Err(_) => t' == t
    case Ok(e) =>
      && e.protocol == protocol
      && Opened(t, e.inner.fd, f, t')
      && t'.fds[e.inner.fd].cloexec
  }

  /** `fd` is the one addition to `t`, close-on-exec, and its description is `f`. */
  predicate Owns(t: Tables, fd: Fd, f: OpenFile, t': Tables) {
    Valid(t) && Valid(t') && f.refs == 1 && Opened(t, fd, f, t') && t'.fds[fd].cloexec
  }

  /** The description a configuring call leaves behind. */
  function ConfiguredBy(c: Call, f: OpenFile): OpenFile {
    match c
    case SetReuse(_) => f.(reuse := true)
    case Bind(_, addr) => f.(state := Bound(addr, f.reuse))
    case Listen(_, backlog) =>
      if f.state.Bound? then f.(state := Listening(f.state.addr, f.state.reused, backlog)) else f
    case _ => f
  }

  /** A configuring call on the new socket: on success it changes its description, on failure nothing. */
  method Configure(p: Process, d: FileDesc, ghost t: Tables, ghost f: OpenFile, c: Call) returns (r: Result<()>)
    requires Owns(t, d.fd, f, p.w.tab)
    requires (c.SetReuse? || c.Bind? || c.Listen?) && c.fd == d.fd && Wants(p.pc) == Some(c)
    modifies p`w, p`pc, p`log
    ensures r.Ok? ==> Owns(t, d.fd, ConfiguredBy(c, f), p.w.tab) && p.pc == ResumeReturned(old(p.pc), 0, Nothing)
    ensures r.Err? ==>
      Valid(p.w.tab) && Adds(t, d.fd, p.w.tab) && r.error.Os? && p.pc == ResumeFailed(old(p.pc), r.error.errno)
    ensures old(p.log) <= p.log && (r.Err? ==> FailedLast(p.log, |old(p.log)|, r.error))
    ensures KernelRunTo(old(p.log), old(p.w)) ==> KernelRunTo(p.log, p.w)
  {
    UpdateOpened(t, d.fd, f, p.w.tab, ConfiguredBy(c, f));
    var ret := Set(p, c);
    match ret
    case Failed(e) =>
      LastIsToBlame(p.log, |old(p.log)|, e);
      r := Err(Os(e));
    case Returned(_, _) => r := Ok(());
  }

  /** One configuring call. */
  method Set(p: Process, c: Call) returns (ret: Ret)
    requires (c.SetReuse? || c.Bind? || c.Listen?) && Wants(p.pc) == Some(c)
    requires Valid(p.w.tab) && c.fd in p.w.tab.fds
    modifies p`w, p`pc, p`log
    ensures Valid(p.w.tab)
    ensures match ret
      case Returned(_, _) =>
        && p.w.tab == Update(old(p.w.tab), c.fd, ConfiguredBy(c, FileOf(old(p.w.tab), c.fd)))
        && p.pc == ResumeReturned(old(p.pc), 0, Nothing)
      case Failed(e) => p.w.tab == old(p.w.tab) && p.pc == ResumeFailed(old(p.pc), e)
    ensures AskedOnce(old(p.log), p.log, c, ret)
    ensures KernelRunTo(old(p.log), old(p.w)) ==> KernelRunTo(p.log, p.w)
  {
    ret := p.Syscall(c);
    SettingSets(old(p.w.tab), c, ret, p.w.tab);
    SettingResumes(old(p.pc), c, ret);
  }

  lemma SettingSets(t: Tables, c: Call, ret: Ret, t': Tables)
    requires (c.SetReuse? || c.Bind? || c.Listen?) && Valid(t) && c.fd in t.fds && Effect(t, c, ret, t')
    ensures t' == if ret.Returned? then Update(t, c.fd, ConfiguredBy(c, FileOf(t, c.fd))) else t
  {
  }

  lemma SettingResumes(pc: Pc, c: Call, ret: Ret)
    requires (c.SetReuse? || c.Bind? || c.Listen?) && Wants(pc) == Some(c)
    ensures Resume(pc, ret) == if ret.Returned? then ResumeReturned(pc, 0, Nothing) else ResumeFailed(pc, ret.errno)
  {
  }

  /** Dropping the new socket on an error path restores the tables, and hides no failure. */
  method Discard(p: Process, d: FileDesc, ghost t: Tables, ghost from: nat, ghost error: Error)
    requires Valid(t) && Valid(p.w.tab) && Adds(t, d.fd, p.w.tab)
    requires p.pc.Discarding? && p.pc.fd == d.fd
    modifies p`w, p`pc, p`log
    ensures p.w.tab == t
    ensures p.pc == Done(Err(old(p.pc).error), Some(old(p.pc).origin))
    ensures old(p.log) <= p.log && old(p.w.clock) <= p.w.clock
    ensures FailedLast(old(p.log), from, error) ==> FailedLast(p.log, from, error)
    ensures KernelRunTo(old(p.log), old(p.w)) ==> KernelRunTo(p.log, p.w)
  {
    CloseUndoesAdds(t, d.fd, p.w.tab);
    Drop(p, d);
    if FailedLast(old(p.log), from, error) {
      StillToBlame(old(p.log), p.log, from, error);
    }
  }

  /** The new socket listens, or is there to be discarded. */
  predicate Listens(t: Tables, d: FileDesc, addr: BtAddr, protocol: Protocol, r: Result<()>, t': Tables, pc: Pc) {
    && Valid(t')
    && match r
       case Ok(_) =>
         && Owns(t, d.fd, BoundFile(protocol, addr), t')
         && pc == Done(Ok(Made(d.fd, None)), Some(New(ToBind(protocol, addr))))
       case Err(e) => Adds(t, d.fd, t') && pc == Discarding(d.fd, e, New(ToBind(protocol, addr)))
  }

  /** The three calls of `BtListener::bind` after the socket exists. */
  method StartListening(p: Process, d: FileDesc, addr: BtAddr, protocol: Protocol, ghost t: Tables)
    returns (r: Result<()>)
    requires Owns(t, d.fd, NewFile(TransportOf(protocol), Fresh), p.w.tab)
    requires p.pc == SettingReuse(d.fd, ToBind(protocol, addr))
    modifies p`w, p`pc, p`log
    ensures Listens(t, d, addr, protocol, r, p.w.tab, p.pc)
    ensures old(p.log) <= p.log && (r.Err? ==> FailedLast(p.log, |old(p.log)|, r.error))
    ensures KernelRunTo(old(p.log), old(p.w)) ==> KernelRunTo(p.log, p.w)
  {
    ghost var blank := NewFile(TransportOf(protocol), Fresh);
    r := Configure(p, d, t, blank, SetReuse(d.fd));
    if r.Ok? {
      r := BindAndListen(p, d, addr, protocol, t);
    }
  }

  /** The description once the address is bound. */
  function BoundOnly(protocol: Protocol, addr: BtAddr): OpenFile {
    NewFile(TransportOf(protocol), Fresh).(reuse := true, state := Bound(addr, true))
  }

  lemma BindThenListen(protocol: Protocol, addr: BtAddr, fd: Fd)
    ensures ConfiguredBy(Bind(fd, addr), NewFile(TransportOf(protocol), Fresh).(reuse := true)) ==
      BoundOnly(protocol, addr)
    ensures ConfiguredBy(Listen(fd, 128), BoundOnly(protocol, addr)) == BoundFile(protocol, addr)
  {
  }

  method BindAndListen(p: Process, d: FileDesc, addr: BtAddr, protocol: Protocol, ghost t: Tables)
    returns (r: Result<()>)
    requires Owns(t, d.fd, NewFile(TransportOf(protocol), Fresh).(reuse := true), p.w.tab)
    requires p.pc == Binding(d.fd, ToBind(protocol, addr))
    modifies p`w, p`pc, p`log
    ensures Listens(t, d, addr, protocol, r, p.w.tab, p.pc)
    ensures old(p.log) <= p.log && (r.Err? ==> FailedLast(p.log, |old(p.log)|, r.error))
    ensures KernelRunTo(old(p.log), old(p.w)) ==> KernelRunTo(p.log, p.w)
  {
    BindThenListen(protocol, addr, d.fd);
    r := Configure(p, d, t, NewFile(TransportOf(protocol), Fresh).(reuse := true), Bind(d.fd, addr));
    if r.Ok? {
      r := Configure(p, d, t, BoundOnly(protocol, addr), Listen(d.fd, 128));
    }
  }

  /** The rest of `bind` with the new socket in hand: an early return drops it. */
  method ListenOrDrop(p: Process, d: FileDesc, addr: BtAddr, protocol: Protocol, ghost t: Tables)
    returns (r: Result<Endpoint>)
    requires Owns(t, d.fd, NewFile(TransportOf(protocol), Fresh), p.w.tab)
    requires p.pc == SettingReuse(d.fd, ToBind(protocol, addr))
    modifies p`w, p`pc, p`log
    ensures Valid(p.w.tab) && AddsEndpoint(t, r, protocol, BoundFile(protocol, addr), p.w.tab)
    ensures old(p.log) <= p.log && (r.Err? ==> FailedLast(p.log, |old(p.log)|, r.error))
    ensures p.pc == Done(EndpointOutcome(r), Some(New(ToBind(protocol, addr))))
    ensures KernelRunTo(old(p.log), old(p.w)) ==> KernelRunTo(p.log, p.w)
  {
    var started := StartListening(p, d, addr, protocol, t);
    match started
    case Err(e) =>
      Discard(p, d, t, |old(p.log)|, e);
      r := Err(e);
    case Ok(_) =>
      r := Ok(Endpoint(d, protocol));
  }

  /** `BtListener::bind`: reuse, bind and listen in this order, or a closed socket. */
  method BindOnce(p: Process, addr: BtAddr, protocol: Protocol) returns (r: Result<Endpoint>)
    requires p.Ready()
    modifies p
    ensures p.Ready()
    ensures AddsEndpoint(old(p.w.tab), r, protocol, BoundFile(protocol, addr), p.w.tab)
    ensures r.Ok? ==> IsListener(FileOf(p.w.tab, r.value.inner.fd), protocol, addr)
    ensures old(p.log) <= p.log && (r.Err? ==> FailedLast(p.log, |old(p.log)|, r.error))
    ensures p.history == old(p.history) +
      [Operation(ModernSocket(ToBind(protocol, addr)), old(p.w.tab), p.w.tab, EndpointOutcome(r))]
    ensures p.tryCloexec == old(p.tryCloexec)
  {
    p.Enter(ModernSocket(ToBind(protocol, addr)));
    r := MakeListener(p, addr, protocol);
    p.Leave();
  }

  method MakeListener(p: Process, addr: BtAddr, protocol: Protocol) returns (r: Result<Endpoint>)
    requires Valid(p.w.tab) && p.pc == ModernSocket(ToBind(protocol, addr))
    modifies p`w, p`pc, p`log
    ensures Valid(p.w.tab) && AddsEndpoint(old(p.w.tab), r, protocol, BoundFile(protocol, addr), p.w.tab)
    ensures r.Ok? ==> IsListener(FileOf(p.w.tab, r.value.inner.fd), protocol, addr)
    ensures old(p.log) <= p.log && (r.Err? ==> FailedLast(p.log, |old(p.log)|, r.error))
    ensures p.pc.Done? && p.pc.outcome == EndpointOutcome(r)
    ensures KernelRunTo(old(p.log), old(p.w)) ==> KernelRunTo(p.log, p.w)
  {
    var made := NewSocket(p, protocol, ToBind(protocol, addr));
    match made
    case Err(e) =>
      MakingSocketFails(p.log, |old(p.log)|, protocol, e);
      r := Err(e);
    case Ok(d) =>
      r := ListenOrDrop(p, d, addr, protocol, old(p.w.tab));
  }

  /** What one answered `connect` makes of the new socket. */
  lemma ConnectMakes(t: Tables, fd: Fd, addr: BtAddr, protocol: Protocol, mid: Tables, ret: Ret, t': Tables)
    requires Owns(t, fd, NewFile(TransportOf(protocol), Fresh), mid) && Valid(t')
    requires Effect(mid, Connect(fd, addr), ret, t')
    ensures if ret.Returned? then Owns(t, fd, ConnectedFile(protocol, addr), t') else Adds(t, fd, t')
  {
    var blank := NewFile(TransportOf(protocol), Fresh);
    if ret.Returned? {
      UpdateOpened(t, fd, blank, mid, ConnectedFile(protocol, addr));
    } else {
      UpdateOpened(t, fd, blank, mid, blank.(state := SocketState.Connecting(addr)));
      UpdateKeepsAdds(t, fd, mid, blank.(state := SocketState.Connecting(addr)));
    }
  }

  /** The result is that of the first `connect` that was not interrupted. */
  ghost predicate FirstAnswer(before: seq<Event>, after: seq<Event>, c: Call, r: Result<()>) {
    && |after| > |before|
    && var last := after[|after| - 1].ret;
    && Retried(before, after, c, last)
    && r == match last case Returned(_, _) => Ok(()) case Failed(e) => Err(Os(e))
  }

  /** The blocking `connect` of `BtStream::connect`, retried while interrupted. */
  method ConnectSocket(p: Process, d: FileDesc, addr: BtAddr, protocol: Protocol, ghost t: Tables)
    returns (r: Result<()>)
    requires Owns(t, d.fd, NewFile(TransportOf(protocol), Fresh), p.w.tab)
    requires p.pc == TryingConnect(d.fd, ToConnect(protocol, addr))
    modifies p`w, p`pc, p`log
    ensures Valid(p.w.tab)
    ensures r.Ok? ==>
      && Owns(t, d.fd, ConnectedFile(protocol, addr), p.w.tab)
      && p.pc == Done(Ok(Made(d.fd, None)), Some(New(ToConnect(protocol, addr))))
    ensures FirstAnswer(old(p.log), p.log, Connect(d.fd, addr), r)
    ensures old(p.log) <= p.log && (r.Err? ==> FailedLast(p.log, |old(p.log)|, r.error))
    ensures r.Err? ==>
      && Adds(t, d.fd, p.w.tab)
      && p.pc == Discarding(d.fd, r.error, New(ToConnect(protocol, addr)))
    ensures KernelRunTo(old(p.log), old(p.w)) ==> KernelRunTo(p.log, p.w)
  {
    var connected := p.CvtR(Connect(d.fd, addr));
    match connected
    case Err(e) =>
      ConnectMakes(t, d.fd, addr, protocol, old(p.w.tab), Failed(e.errno), p.w.tab);
      RetriedFails(old(p.log), p.log, Connect(d.fd, addr), e.errno);
      r := Err(e);
    case Ok(ret) =>
      ConnectMakes(t, d.fd, addr, protocol, old(p.w.tab), ret, p.w.tab);
      r := Ok(());
  }

  /** The rest of `connect` with the new socket in hand: an early return drops it. */
  method ConnectOrDrop(p: Process, d: FileDesc, addr: BtAddr, protocol: Protocol, ghost t: Tables)
    returns (r: Result<Endpoint>)
    requires Owns(t, d.fd, NewFile(TransportOf(protocol), Fresh), p.w.tab)
    requires p.pc == TryingConnect(d.fd, ToConnect(protocol, addr))
    modifies p`w, p`pc, p`log
    ensures Valid(p.w.tab) && AddsEndpoint(t, r, protocol, ConnectedFile(protocol, addr), p.w.tab)
    ensures old(p.log) <= p.log && (r.Err? ==> FailedLast(p.log, |old(p.log)|, r.error))
    ensures p.pc == Done(EndpointOutcome(r), Some(New(ToConnect(protocol, addr))))
    ensures KernelRunTo(old(p.log), old(p.w)) ==> KernelRunTo(p.log, p.w)
  {
    var connected := ConnectSocket(p, d, addr, protocol, t);
    match connected
    case Err(e) =>
      Discard(p, d, t, |old(p.log)|, e);
      r := Err(e);
    case Ok(_) =>
      r := Ok(Endpoint(d, protocol));
  }

  /** `BtStream::connect`: the socket connected to `addr`, or a closed socket. */
  method ConnectTo(p: Process, addr: BtAddr, protocol: Protocol) returns (r: Result<Endpoint>)
    requires p.Ready()
    modifies p
    ensures p.Ready()
    ensures AddsEndpoint(old(p.w.tab), r, protocol, ConnectedFile(protocol, addr), p.w.tab)
    ensures r.Ok? ==> IsStream(FileOf(p.w.tab, r.value.inner.fd), protocol, addr)
    ensures old(p.log) <= p.log && (r.Err? ==> FailedLast(p.log, |old(p.log)|, r.error))
    ensures p.history == old(p.history) +
      [Operation(ModernSocket(ToConnect(protocol, addr)), old(p.w.tab), p.w.tab, EndpointOutcome(r))]
    ensures p.tryCloexec == old(p.tryCloexec)
  {
    p.Enter(ModernSocket(ToConnect(protocol, addr)));
    r := MakeStream(p, addr, protocol);
    p.Leave();
  }

  method MakeStream(p: Process, addr: BtAddr, protocol: Protocol) returns (r: Result<Endpoint>)
    requires Valid(p.w.tab) && p.pc == ModernSocket(ToConnect(protocol, addr))
    modifies p`w, p`pc, p`log
    ensures Valid(p.w.tab) && AddsEndpoint(old(p.w.tab), r, protocol, ConnectedFile(protocol, addr), p.w.tab)
    ensures r.Ok? ==> IsStream(FileOf(p.w.tab, r.value.inner.fd), protocol, addr)
    ensures old(p.log) <= p.log && (r.Err? ==> FailedLast(p.log, |old(p.log)|, r.error))
    ensures p.pc.Done? && p.pc.outcome == EndpointOutcome(r)
    ensures KernelRunTo(old(p.log), old(p.w)) ==> KernelRunTo(p.log, p.w)
  {
    var made := NewSocket(p, protocol, ToConnect(protocol, addr));
    match made
    case Err(e) =>
      MakingSocketFails(p.log, |old(p.log)|, protocol, e);
      r := Err(e);
    case Ok(d) =>
      r := ConnectOrDrop(p, d, addr, protocol, old(p.w.tab));
  }

  /** `BtListener::accept`: the head of the queue as a stream of the listener's protocol. */
  method AcceptStream(p: Process, l: Endpoint) returns (r: Result<(Endpoint, BtAddr)>)
    requires p.Ready() && l.inner.fd in p.w.tab.fds
    modifies p
    ensures p.Ready()
    ensures r.Ok? ==>
      && r.value.0.protocol == l.protocol
      && Accepted(old(p.w.tab), l.inner.fd, r.value.0.inner.fd, r.value.1, p.w.tab)
      && p.w.tab.fds[r.value.0.inner.fd].cloexec
      && FileOf(p.w.tab, r.value.0.inner.fd).transport == FileOf(old(p.w.tab), l.inner.fd).transport
    ensures r.Err? ==> QueueMoved(old(p.w.tab), l.inner.fd, p.w.tab)
    ensures r.Err? ==> FailedLast(p.log, |old(p.log)|, r.error)
    ensures p.history == old(p.history) +
      [Operation(ModernAccept(l.inner.fd), old(p.w.tab), p.w.tab, AcceptOutcome(
      match r case Ok(got) => Ok((got.0.inner, got.1)) case Err(e) => Err(e)))]
  {
    var got := AcceptSocket(p, l.inner);
    match got
    case Ok(made) => r := Ok((Endpoint(made.0, l.protocol), made.1));
    case Err(e) => r := Err(e);
  }

  /** A timed connect on descriptor `fd`, what it met, and the clock when it left. */
  datatype Sighting = Sighting(fd: Fd, ev: Evidence, left: nat)

  /** The log shows, from `from` on, the calls of a timed connect in one piece. */
  ghost predicate Shows(log: seq<Event>, from: nat, seen: Sighting) {
    exists k: nat :: from <= k <= |log| && CallsOf(seen.ev) <= log[k..]
  }

  lemma ShowsLater(log: seq<Event>, log': seq<Event>, from: nat, seen: Sighting)
    requires Shows(log, from, seen) && log <= log'
    ensures Shows(log', from, seen)
  {
    var k: nat :| from <= k <= |log| && CallsOf(seen.ev) <= log[k..];
    assert log[k..] <= log'[k..];
  }

  lemma ShowsEarlier(log: seq<Event>, from: nat, from': nat, seen: Sighting)
    requires Shows(log, from, seen) && from' <= from
    ensures Shows(log, from', seen)
  {
  }

  /** Every run of the kernel that gives these answers has made the connection, exactly when they prove it. */
  ghost predicate DecidedByAnswers(addr: BtAddr, seen: Sighting) {
    (forall ks | Alike(CallsOf(seen.ev), ks) :: EndsConnected(ks, seen.fd, addr)) <==> Proves(seen.ev)
  }

  /** The calls are a run of the kernel and on time, the result is what they mean, and it is Ok exactly when they
      connect, and then it is known what they prove. */
  ghost predicate Agrees<T>(r: Result<T>, addr: BtAddr, timeout: Duration, seen: Sighting) {
    && KernelRun(CallsOf(seen.ev))
    && Plausible(seen.fd, addr, timeout, seen.ev)
    && Timely(timeout, seen.ev, seen.left)
    && (r.Ok? <==> Connects(timeout, seen.ev))
    && (r.Err? ==> Verdict(timeout, seen.ev) == Err(r.error))
    && (r.Ok? ==> DecidedByAnswers(addr, seen))
    && IsJudged(if r.Ok? then Ok(()) else Err(r.error), addr, timeout, seen)
  }

  /** What the calls say by themselves: the result and its error, the pending error that it is, the modes they were made
      in, and that nothing timed out before its time. */
  predicate IsJudged(r: Result<()>, addr: BtAddr, timeout: Duration, seen: Sighting) {
    && Judged(CallsOf(seen.ev), seen.fd, addr, timeout, r)
    && ModesAreRight(CallsOf(seen.ev), seen.fd)
    && ReturnsPending(CallsOf(seen.ev), seen.fd, r)
    && (r == Err(TimedOut) ==> seen.ev.Tried? && seen.ev.leave.after.clock + Nanos(timeout) <= seen.left)
  }

  lemma VerdictIsJudgedHere(addr: BtAddr, timeout: Duration, seen: Sighting)
    requires KernelRun(CallsOf(seen.ev)) && Plausible(seen.fd, addr, timeout, seen.ev)
    requires Timely(timeout, seen.ev, seen.left)
    ensures IsJudged(Verdict(timeout, seen.ev), addr, timeout, seen)
  {
    var r := Verdict(timeout, seen.ev);
    VerdictIsJudged(seen.fd, addr, timeout, seen.ev);
    ModesAreRightInRuns(CallsOf(seen.ev), seen.fd, addr, timeout, r);
    PendingIsReturned(CallsOf(seen.ev), seen.fd, addr, timeout, r);
    if r == Err(TimedOut) {
      TimedOutIsLate(seen.fd, addr, timeout, seen.ev, seen.left);
    }
  }

  lemma OkIsDecided(addr: BtAddr, timeout: Duration, seen: Sighting)
    requires Plausible(seen.fd, addr, timeout, seen.ev) && Verdict(timeout, seen.ev).Ok? && KernelRun(CallsOf(seen.ev))
    ensures DecidedByAnswers(addr, seen)
  {
    OkMeansConnectedIff(seen.fd, addr, timeout, seen.ev);
  }

  lemma VerdictAgrees(addr: BtAddr, timeout: Duration, seen: Sighting)
    requires KernelRun(CallsOf(seen.ev)) && Plausible(seen.fd, addr, timeout, seen.ev)
    requires Timely(timeout, seen.ev, seen.left)
    ensures Agrees(Verdict(timeout, seen.ev), addr, timeout, seen)
  {
    var r := Verdict(timeout, seen.ev);
    assert IsJudged(if r.Ok? then Ok(()) else Err(r.error), addr, timeout, seen) by {
      VerdictIsJudgedHere(addr, timeout, seen);
      assert r == if r.Ok? then Ok(()) else Err(r.error);
    }
    OkIffConnects(seen.fd, addr, timeout, seen.ev);
    if r.Ok? {
      OkIsDecided(addr, timeout, seen);
    }
  }

  /** `r` is the one descriptor by which `t'` exceeds `t`, close-on-exec, with the description of a timed connect that
      succeeded; or there is none. */
  predicate AddsTimed(t: Tables, r: Result<Endpoint>, goal: Goal, proven: bool, t': Tables) {
    match r
    case Err(_) => t' == t
    case Ok(e) =>
      && e.protocol == goal.protocol
      && e.inner.fd in t'.fds
      && t'.fds[e.inner.fd].file in t'.files
      && var f := t'.files[t'.fds[e.inner.fd].file];
      && Opened(t, e.inner.fd, f, t')
      && t'.fds[e.inner.fd].cloexec
      && TimedFile(goal, proven, f)
  }

  lemma TimedSocketIsAdded(t: Tables, fd: Fd, goal: Goal, ok: bool, ev: Evidence, mid: Tables, t': Tables)
    requires Owns(t, fd, Blank(goal), mid) && LeavesSocket(mid, fd, goal.addr, ok, ev, t')
    ensures Adds(t, fd, t')
    ensures ok && ModeChangesWork(ev) ==> AddsTimed(t, Ok(Endpoint(FileDesc(fd), goal.protocol)), goal, Proves(ev), t')
  {
    UpdateOpened(t, fd, Blank(goal), mid, FileOf(t', fd));
    UpdateKeepsAdds(t, fd, mid, FileOf(t', fd));
  }

  /** The timed connect on the new socket. */
  method ConnectSocketTimed(p: Process, d: FileDesc, addr: BtAddr, timeout: Duration, ghost goal: Goal, ghost t: Tables)
    returns (r: Result<()>, ghost seen: Sighting)
    requires Owns(t, d.fd, Blank(goal), p.w.tab) && KernelRunTo(p.log, p.w)
    requires goal.ToConnectTimed? && goal.addr == addr && goal.timeout == timeout
    requires p.pc == ConnectingTimed(d.fd, goal, Entering)
    modifies p`w, p`pc, p`log
    ensures Valid(p.w.tab) && old(p.log) <= p.log && Adds(t, d.fd, p.w.tab)
    ensures Agrees(r, addr, timeout, seen) && Shows(p.log, |old(p.log)|, seen)
    ensures seen.fd == d.fd && seen.left == p.w.clock
    ensures r.Ok? ==> AddsTimed(t, Ok(Endpoint(FileDesc(d.fd), goal.protocol)), goal, Proves(seen.ev), p.w.tab)
    ensures p.pc == Decided(d.fd, goal, r, Proves(seen.ev))
    ensures KernelRunTo(old(p.log), old(p.w)) ==> KernelRunTo(p.log, p.w)
  {
    ghost var ev;
    r, ev := ConnectTimeout(p, d, addr, timeout, goal);
    seen := Sighting(d.fd, ev, p.w.clock);
    assert p.log[|old(p.log)|..] == CallsOf(ev);
    KernelRunSuffix(old(p.log), CallsOf(ev));
    VerdictAgrees(addr, timeout, seen);
    TimedSocketIsAdded(t, d.fd, goal, r.Ok?, ev, old(p.w.tab), p.w.tab);
  }

  /** The rest of `connect_timeout` with the new socket in hand: an early return drops it. */
  method ConnectTimedOrDrop(p: Process, d: FileDesc, addr: BtAddr, protocol: Protocol, timeout: Duration,
                            ghost goal: Goal, ghost t: Tables)
    returns (r: Result<Endpoint>, ghost seen: Sighting)
    requires Owns(t, d.fd, Blank(goal), p.w.tab) && KernelRunTo(p.log, p.w)
    requires goal == ToConnectTimed(protocol, addr, timeout)
    requires p.pc == ConnectingTimed(d.fd, goal, Entering)
    modifies p`w, p`pc, p`log
    ensures Valid(p.w.tab) && AddsTimed(t, r, goal, Proves(seen.ev), p.w.tab)
    ensures Agrees(r, addr, timeout, seen) && Shows(p.log, |old(p.log)|, seen)
    ensures seen.left <= p.w.clock && (r.Ok? ==> seen.fd == r.value.inner.fd && seen.left == p.w.clock)
    ensures p.pc.Done? && p.pc.outcome == EndpointOutcome(r)
    ensures KernelRunTo(old(p.log), old(p.w)) ==> KernelRunTo(p.log, p.w)
  {
    var connected;
    connected, seen := ConnectSocketTimed(p, d, addr, timeout, goal, t);
    match connected
    case Err(e) =>
      ghost var after := p.log;
      Discard(p, d, t, |old(p.log)|, e);
      ShowsLater(after, p.log, |old(p.log)|, seen);
      r := Err(e);
    case Ok(_) =>
      r := Ok(Endpoint(d, protocol));
  }

  /** What a timed connect comes to: what the calls that the log shows mean, or the error of the call that failed to
      make the socket. */
  ghost predicate ConnectsTimed(t: Tables, log: seq<Event>, from: nat, r: Result<Endpoint>, addr: BtAddr,
                                protocol: Protocol, timeout: Duration, seen: Option<Sighting>, w: World) {
    match seen
    case None => r.Err? && w.tab == t && FailedLast(log, from, r.error)
    case Some(it) =>
      && AddsTimed(t, r, ToConnectTimed(protocol, addr, timeout), Proves(it.ev), w.tab)
      && Agrees(r, addr, timeout, it)
      && Shows(log, from, it)
      && it.left <= w.clock
      && (r.Ok? ==> it.fd == r.value.inner.fd && it.left == w.clock)
      && (r.Ok? ==> Valid(w.tab) && IsTimedStream(FileOf(w.tab, it.fd), protocol, addr, Proves(it.ev)))
  }

  /** `BtStream::connect_timeout`: a stream in blocking mode exactly when the timed connect succeeds; otherwise
      the socket is closed again. */
  method ConnectToTimed(p: Process, addr: BtAddr, protocol: Protocol, timeout: Duration)
    returns (r: Result<Endpoint>, ghost seen: Option<Sighting>)
    requires p.Ready()
    modifies p
    ensures p.Ready()
    ensures p.history == old(p.history) +
      [Operation(ModernSocket(ToConnectTimed(protocol, addr, timeout)), old(p.w.tab), p.w.tab, EndpointOutcome(r))]
    ensures ConnectsTimed(old(p.w.tab), p.log, |old(p.log)|, r, addr, protocol, timeout, seen, p.w)
  {
    p.Enter(ModernSocket(ToConnectTimed(protocol, addr, timeout)));
    r, seen := MakeTimedStream(p, addr, protocol, timeout);
    p.Leave();
  }

  method MakeTimedStream(p: Process, addr: BtAddr, protocol: Protocol, timeout: Duration)
    returns (r: Result<Endpoint>, ghost seen: Option<Sighting>)
    requires Valid(p.w.tab) && p.pc == ModernSocket(ToConnectTimed(protocol, addr, timeout))
    requires KernelRunTo(p.log, p.w)
    modifies p`w, p`pc, p`log
    ensures Valid(p.w.tab) && KernelRunTo(p.log, p.w)
    ensures ConnectsTimed(old(p.w.tab), p.log, |old(p.log)|, r, addr, protocol, timeout, seen, p.w)
    ensures p.pc.Done? && p.pc.outcome == EndpointOutcome(r)
  {
    ghost var goal := ToConnectTimed(protocol, addr, timeout);
    seen := None;
    var made := NewSocket(p, protocol, goal);
    match made
    case Err(e) =>
      MakingSocketFails(p.log, |old(p.log)|, protocol, e);
      r := Err(e);
    case Ok(d) =>
      ghost var it;
      ghost var before := p.log;
      r, it := ConnectTimedOrDrop(p, d, addr, protocol, timeout, goal, old(p.w.tab));
      ShowsEarlier(p.log, |before|, |old(p.log)|, it);
      seen := Some(it);
  }

  /** The documentation calls a zero timeout an error.  The code refuses it only while the connection is in
      progress: from any world, a kernel that connects at once makes the call succeed. */
  lemma ZeroTimeoutMaySucceed(w: World, fd: Fd, addr: BtAddr)
    requires Valid(w.tab) && fd in w.tab.fds
    ensures exists ev: Evidence :: SucceedsFrom(w, fd, addr, RawDuration(0, 0), ev)
  {
    var enter, connect, leave := AttemptAtOnce(w, fd, addr);
    var ev := Tried(enter, connect, leave, NO_RUN);
    ThreeCallsRun(enter, connect, leave);
    assert NoPoll.Calls() == [];
    assert CallsOf(ev) == [enter, connect, leave];
    assert SucceedsFrom(w, fd, addr, RawDuration(0, 0), ev);
  }

  /** A run of the kernel from world `w` in which the timed connect succeeds. */
  ghost predicate SucceedsFrom(w: World, fd: Fd, addr: BtAddr, timeout: Duration, ev: Evidence) {
    && KernelRun(CallsOf(ev))
    && ev.enter.before == w
    && Plausible(fd, addr, timeout, ev)
    && Verdict(timeout, ev) == Ok(())
  }

  /** When a zero timeout is refused: exactly when neither a mode change nor `connect` itself decided before. */
  lemma ZeroTimeoutIsRefusedIff(fd: Fd, addr: BtAddr, timeout: Duration, ev: Evidence)
    requires Plausible(fd, addr, timeout, ev) && IsZero(timeout)
    ensures Verdict(timeout, ev).Err? <==> !(ModeChangesWork(ev) && ev.connect.ret.Returned?)
    ensures Verdict(timeout, ev) == Err(InvalidInput) <==>
      ModeChangesWork(ev) && ev.connect.ret == Failed(EINPROGRESS)
    ensures ev.Tried? ==> ev.run.Calls() == []
  {
  }
}
