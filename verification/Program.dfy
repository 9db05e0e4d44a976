/** What a thread does inside one operation of the crate, system call by system call.  The imperative methods
    are proved to follow it; the concurrent machine interleaves it. */
module Program {
  import opened Base
  import opened Durations
  import opened Deadline
  import opened Kernel

  /** `BtProtocol`. */
  datatype Protocol = L2CAP | RFCOMM

  function TransportOf(p: Protocol): Transport {
    match p
    case L2CAP => L2cap
    case RFCOMM => Rfcomm
  }

  /** What a new socket is for. */
  datatype Goal =
    | ToBind(protocol: Protocol, addr: BtAddr)
    | ToConnect(protocol: Protocol, addr: BtAddr)
    | ToConnectTimed(protocol: Protocol, addr: BtAddr, timeout: Duration)

  /** The description of a listener that `bind` returned. */
  function BoundFile(protocol: Protocol, addr: BtAddr): OpenFile {
    NewFile(TransportOf(protocol), Listening(addr, true, 128)).(reuse := true)
  }

  /** The description of a stream that `connect` returned. */
  function ConnectedFile(protocol: Protocol, addr: BtAddr): OpenFile {
    NewFile(TransportOf(protocol), Connected(addr))
  }

  /** RFCOMM sockets are made for RFCOMM and L2CAP sockets for L2CAP. */
  predicate Speaks(transport: Transport, protocol: Protocol) {
    match protocol
    case L2CAP => transport == L2cap
    case RFCOMM => transport == Rfcomm
  }

  /** `f` is a listener's: bound to `addr` while SO_REUSEADDR was on, with a backlog of 128, in blocking mode. */
  predicate IsListener(f: OpenFile, protocol: Protocol, addr: BtAddr) {
    Speaks(f.transport, protocol) && f.state == Listening(addr, true, 128) && f.reuse && !f.nonblocking
  }

  /** `f` is a stream's: connected to `peer`, in blocking mode. */
  predicate IsStream(f: OpenFile, protocol: Protocol, peer: BtAddr) {
    Speaks(f.transport, protocol) && f.state == Connected(peer) && !f.nonblocking
  }

  /** `f` is that of a stream whose connection to `peer` was tried in time, in blocking mode; connected if the answers
      prove it. */
  predicate IsTimedStream(f: OpenFile, protocol: Protocol, peer: BtAddr, proven: bool) {
    && Speaks(f.transport, protocol)
    && !f.nonblocking
    && (f.state == Connecting(peer) || f.state == Connected(peer) || f.state == Broken(peer))
    && (proven ==> f.state == Connected(peer))
  }

  /** The description of a new socket. */
  function Blank(goal: Goal): OpenFile {
    NewFile(TransportOf(goal.protocol), Fresh)
  }

  /** The description of a stream that `connect_timeout` returned: in blocking mode, its connection tried, and made
      if the answers prove it. */
  predicate TimedFile(goal: Goal, proven: bool, f: OpenFile) {
    && f == Blank(goal).(state := f.state, error := f.error)
    && Attempted(f.state, goal.addr)
    && (proven ==> f.state == Connected(goal.addr))
  }

  /** A descriptor made by an operation, with the peer's address when it was accepted. */
  datatype Made = Made(fd: Fd, peer: Option<BtAddr>)

  type Outcome = Result<Made>

  /** Where a descriptor comes from; the last two borrow a live handle for the whole call.  `Timed` is a socket
      whose timed connect succeeded, on answers that prove the connection or do not. */
  datatype Origin =
    | New(goal: Goal)
    | Timed(goal: Goal, proven: bool)
    | CopyOf(source: Fd)
    | QueueOf(listener: Fd, peer: BtAddr)

  const INQUIRY_CAPACITY := 256

  /** The attempt between two mode changes, then the deadline loop: the clock is read on starting and checking, and a
      `poll` remembers the elapsed time it was computed from. */
  datatype TimedStage =
    | Entering
    | Trying
    | Leaving(connect: Ret)
    | Starting
    | Checking(begun: nat)
    | Polling(begun: nat, elapsed: nat, ms: int)
    | AskingError

  datatype DiscoveryStage =
    | Routing
    | OpeningAdapter(device: int)
    | Inquiring(device: int, fd: Fd)
    | ClosingAdapter(fd: Fd, devices: seq<BtAddr>)
    | Finished(result: Result<seq<BtAddr>>)

  datatype Pc =
    | Idle
    // FileDesc::duplicate
    | LoadingTry(source: Fd)
    | Probing(source: Fd)
    | StoringTry(source: Fd)
    | PlainDup(source: Fd)
    // Socket::new
    | ModernSocket(goal: Goal)
    | PlainSocket(goal: Goal)
    // Socket::accept
    | ModernAccept(listener: Fd)
    | PlainAccept(listener: Fd)
    // FileDesc::set_cloexec on a descriptor just made
    | Marking(fd: Fd, origin: Origin)
    // BtListener::bind
    | SettingReuse(fd: Fd, goal: Goal)
    | Binding(fd: Fd, goal: Goal)
    | StartingListen(fd: Fd, goal: Goal)
    // BtStream::connect
    | TryingConnect(fd: Fd, goal: Goal)
    // Socket::connect_timeout
    | ConnectingTimed(fd: Fd, goal: Goal, at: TimedStage)
    // discover_devices
    | Discovering(stage: DiscoveryStage)
    // Drop, on an error path and by the user
    | Discarding(fd: Fd, error: Error, origin: Origin)
    | Dropping(fd: Fd)
    | Done(outcome: Outcome, provenance: Option<Origin>)

  /** The system call a thread at `pc` makes next, where that is fixed. */
  function Wants(pc: Pc): Option<Call> {
    match pc
    case Probing(source) => Some(DupFdCloexec(source))
    case PlainDup(source) => Some(DupFd(source))
    case ModernSocket(goal) => Some(Socket(TransportOf(goal.protocol), true))
    case PlainSocket(goal) => Some(Socket(TransportOf(goal.protocol), false))
    case ModernAccept(listener) => Some(Accept4(listener))
    case PlainAccept(listener) => Some(Accept(listener))
    case Marking(fd, _) => Some(SetCloexec(fd))
    case SettingReuse(fd, _) => Some(SetReuse(fd))
    case Binding(fd, goal) => Some(Bind(fd, goal.addr))
    case StartingListen(fd, _) => Some(Listen(fd, 128))
    case TryingConnect(fd, goal) => Some(Connect(fd, goal.addr))
    case ConnectingTimed(fd, goal, at) => TimedWants(fd, goal, at)
    case Discovering(stage) => DiscoveryWants(stage)
    case Discarding(fd, _, _) => Some(Close(fd))
    case Dropping(fd) => Some(Close(fd))
    case _ => None
  }

  function TimedWants(fd: Fd, goal: Goal, at: TimedStage): Option<Call> {
    match at
    case Entering => Some(SetNonblocking(fd, true))
    case Trying => Some(Connect(fd, goal.addr))
    case Leaving(_) => Some(SetNonblocking(fd, false))
    case Polling(_, _, ms) => Some(Poll(fd, ms))
    case AskingError => Some(GetError(fd))
    case _ => None
  }

  function DiscoveryWants(stage: DiscoveryStage): Option<Call> {
    match stage
    case Routing => Some(HciRoute)
    case OpeningAdapter(device) => Some(HciOpen(device))
    case Inquiring(device, _) => Some(HciInquiry(device, INQUIRY_CAPACITY))
    case ClosingAdapter(fd, _) => Some(Close(fd))
    case Finished(_) => None
  }

  /** Where a timed connect goes when it reads the clock: into the deadline loop, and past the check at its head. */
  function OnClock(pc: Pc, now: nat): Pc {
    match pc
    case ConnectingTimed(fd, goal, Starting) => ConnectingTimed(fd, goal, Checking(now))
    case ConnectingTimed(fd, goal, Checking(begun)) =>
      if goal.ToConnectTimed? && begun <= now < begun + Nanos(goal.timeout)
      then ConnectingTimed(fd, goal, Polling(begun, now - begun, Interval(Nanos(goal.timeout) - (now - begun))))
      else Discarding(fd, TimedOut, New(goal))
    case _ => pc
  }

  /** What the answer to the attempt of `connect_timeout` means. */
  function AfterAttempt(fd: Fd, goal: Goal, connect: Ret): Pc {
    match connect
    case Returned(_, _) => Done(Ok(Made(fd, None)), Some(Timed(goal, true)))
    case Failed(e) =>
      if e != EINPROGRESS then Discarding(fd, Os(e), New(goal))
      else if goal.ToConnectTimed? && IsZero(goal.timeout) then Discarding(fd, InvalidInput, New(goal))
      else ConnectingTimed(fd, goal, Starting)
  }

  /** What an answer of `poll` other than an error means. */
  function AfterPoll(fd: Fd, goal: Goal, begun: nat, value: int, out: Out): Pc {
    if value == 0 then ConnectingTimed(fd, goal, Checking(begun))
    else if HungUp(out) then ConnectingTimed(fd, goal, AskingError)
    else Done(Ok(Made(fd, None)), Some(Timed(goal, PlainlyWritable(out))))
  }

  /** After a hang-up: the pending error, or one the crate makes up. */
  function HangUpError(out: Out): Error {
    if out.Code? && out.errno != 0 then Os(out.errno) else Other
  }

  /** Where a timed connect goes when its call answers `r`. */
  function TimedAfter(fd: Fd, goal: Goal, at: TimedStage, r: Ret): Pc {
    match at
    case Trying => ConnectingTimed(fd, goal, Leaving(r))
    case Polling(begun, _, _) =>
      if r.Returned? then AfterPoll(fd, goal, begun, r.value, r.out)
      else if r.errno == EINTR then ConnectingTimed(fd, goal, Checking(begun))
      else Discarding(fd, Os(r.errno), New(goal))
    case _ =>
      match r
      case Failed(e) => Discarding(fd, Os(e), New(goal))
      case Returned(_, out) => TimedReturned(fd, goal, at, out)
  }

  function TimedReturned(fd: Fd, goal: Goal, at: TimedStage, out: Out): Pc {
    match at
    case Entering => ConnectingTimed(fd, goal, Trying)
    case Leaving(connect) => AfterAttempt(fd, goal, connect)
    case _ => Discarding(fd, HangUpError(out), New(goal))
  }

  /** Where a discovery goes when its call answers `r`. */
  function DiscoveryAfter(stage: DiscoveryStage, r: Ret): DiscoveryStage {
    if r.Failed? then Finished(Err(Os(r.errno)))
    else
      match stage
      case Routing => OpeningAdapter(r.value)
      case OpeningAdapter(device) => Inquiring(device, r.value)
      case Inquiring(_, fd) => ClosingAdapter(fd, if r.out.Found? then r.out.devices else [])
      case ClosingAdapter(_, devices) => Finished(Ok(devices))
      case Finished(_) => stage
  }

  /** The address an accepting call filled in; the buffer starts out zeroed. */
  function PeerOf(out: Out): BtAddr {
    if out.Peer? then out.addr else [0, 0, 0, 0, 0, 0]
  }

  function StartOn(goal: Goal, fd: Fd): Pc {
    match goal
    case ToBind(_, _) => SettingReuse(fd, goal)
    case ToConnect(_, _) => TryingConnect(fd, goal)
    case ToConnectTimed(_, _, _) => ConnectingTimed(fd, goal, Entering)
  }

  function Marked(fd: Fd, origin: Origin): Pc {
    match origin
    case New(goal) => StartOn(goal, fd)
    case Timed(goal, _) => StartOn(goal, fd)
    case CopyOf(_) => Done(Ok(Made(fd, None)), Some(origin))
    case QueueOf(_, peer) => Done(Ok(Made(fd, Some(peer))), Some(origin))
  }

  /** Where a thread at `pc` goes when its call answers `r`. */
  function Resume(pc: Pc, r: Ret): Pc
    requires Wants(pc).Some?
  {
    match pc
    case Dropping(_) => Idle
    case Discarding(_, error, origin) => Done(Err(error), Some(origin))
    case ConnectingTimed(fd, goal, at) => TimedAfter(fd, goal, at, r)
    case Discovering(stage) => Discovering(DiscoveryAfter(stage, r))
    case _ =>
      match r
      case Failed(e) => ResumeFailed(pc, e)
      case Returned(value, out) => ResumeReturned(pc, value, out)
  }

  function ResumeFailed(pc: Pc, e: int): Pc {
    match pc
    case Probing(source) => if e == EINVAL then StoringTry(source) else Done(Err(Os(e)), Some(CopyOf(source)))
    case PlainDup(source) => Done(Err(Os(e)), Some(CopyOf(source)))
    case ModernSocket(goal) => if e == EINVAL then PlainSocket(goal) else Done(Err(Os(e)), Some(New(goal)))
    case PlainSocket(goal) => Done(Err(Os(e)), Some(New(goal)))
    case ModernAccept(l) =>
      if e == EINTR then pc else if e == ENOSYS then PlainAccept(l) else Done(Err(Os(e)), None)
    case PlainAccept(_) => if e == EINTR then pc else Done(Err(Os(e)), None)
    case Marking(fd, origin) => Discarding(fd, Os(e), origin)
    case SettingReuse(fd, goal) => Discarding(fd, Os(e), New(goal))
    case Binding(fd, goal) => Discarding(fd, Os(e), New(goal))
    case StartingListen(fd, goal) => Discarding(fd, Os(e), New(goal))
    case TryingConnect(fd, goal) => if e == EINTR then pc else Discarding(fd, Os(e), New(goal))
    case _ => Done(Err(Os(e)), None)
  }

  function ResumeReturned(pc: Pc, value: int, out: Out): Pc {
    match pc
    case Probing(source) => Marking(value, CopyOf(source))
    case PlainDup(source) => Marking(value, CopyOf(source))
    case ModernSocket(goal) => StartOn(goal, value)
    case PlainSocket(goal) => Marking(value, New(goal))
    case ModernAccept(l) => Done(Ok(Made(value, Some(PeerOf(out)))), Some(QueueOf(l, PeerOf(out))))
    case PlainAccept(l) => Marking(value, QueueOf(l, PeerOf(out)))
    case Marking(fd, origin) => Marked(fd, origin)
    case SettingReuse(fd, goal) => Binding(fd, goal)
    case Binding(fd, goal) => StartingListen(fd, goal)
    case StartingListen(fd, goal) => Done(Ok(Made(fd, None)), Some(New(goal)))
    case TryingConnect(fd, goal) => Done(Ok(Made(fd, None)), Some(New(goal)))
    case _ => Idle
  }

  /** The descriptor a thread inside an operation owns and nobody else can see. */
  function Local(pc: Pc): Option<Fd> {
    match pc
    case Marking(fd, _) => Some(fd)
    case SettingReuse(fd, _) => Some(fd)
    case Binding(fd, _) => Some(fd)
    case StartingListen(fd, _) => Some(fd)
    case TryingConnect(fd, _) => Some(fd)
    case ConnectingTimed(fd, _, _) => Some(fd)
    case Discovering(Inquiring(_, fd)) => Some(fd)
    case Discovering(ClosingAdapter(fd, _)) => Some(fd)
    case Discarding(fd, _, _) => Some(fd)
    case Dropping(fd) => Some(fd)
    case Done(Ok(made), _) => Some(made.fd)
    case _ => None
  }

  function BorrowedBy(o: Origin): Option<Fd> {
    match o
    case New(_) | Timed(_, _) => None
    case CopyOf(source) => Some(source)
    case QueueOf(listener, _) => Some(listener)
  }

  /** The descriptor of the live handle the operation was called on. */
  function Borrowed(pc: Pc): Option<Fd> {
    match pc
    case LoadingTry(source) => Some(source)
    case Probing(source) => Some(source)
    case StoringTry(source) => Some(source)
    case PlainDup(source) => Some(source)
    case ModernAccept(listener) => Some(listener)
    case PlainAccept(listener) => Some(listener)
    case Marking(_, origin) => BorrowedBy(origin)
    case Discarding(_, _, origin) => BorrowedBy(origin)
    case Done(_, Some(origin)) => BorrowedBy(origin)
    case _ => None
  }

  /** Between the call that made it and the end of `set_cloexec` a descriptor may still lack close-on-exec; the one
      the Bluetooth library opens for a discovery is never marked by the crate. */
  predicate MayLackCloexec(pc: Pc) {
    pc.Marking? || pc.Discarding? || pc.Discovering?
  }

  /** A failed inquiry returns without closing the adapter's descriptor. */
  predicate Leaks(pc: Pc, r: Ret) {
    pc.Discovering? && pc.stage.Inquiring? && r.Failed?
  }
}
