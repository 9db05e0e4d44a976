/** The operating system as the crate meets it: a descriptor table over open file descriptions, a clock, and
    a relation `Step` saying which answers a system call may give.  Every call may fail at any time. */
module Kernel {
  import opened Base
  import opened Timeouts
  import opened Durations

  type Fd = int
  type FileId = nat

  /** A descriptor holds the close-on-exec flag; everything else belongs to the open file description. */
  datatype Descriptor = Descriptor(file: FileId, cloexec: bool)

  /** `reused` remembers whether SO_REUSEADDR was on when the address was bound. */
  datatype SocketState =
    | Fresh
    | Bound(addr: BtAddr, reused: bool)
    | Listening(addr: BtAddr, reused: bool, backlog: nat)
    | Connecting(peer: BtAddr)
    | Connected(peer: BtAddr)
    | Broken(peer: BtAddr)

  datatype Transport = L2cap | Rfcomm | RawHci

  /** SO_RCVTIMEO and SO_SNDTIMEO. */
  datatype Direction = Receive | Send

  /** `error` is the pending SO_ERROR; `arrived` lists every connection that ever reached a listener, and
      `arrived[taken..]` are pending. */
  datatype OpenFile = OpenFile(refs: nat, transport: Transport, nonblocking: bool, reuse: bool, receive: Timeval,
                               send: Timeval, state: SocketState, error: int, arrived: seq<BtAddr>, taken: nat)
  {
    predicate IsQueue() {
      taken <= |arrived|
    }

    function TimeoutOf(d: Direction): Timeval {
      if d.Receive? then receive else send
    }

    function WithTimeout(d: Direction, t: Timeval): OpenFile {
      if d.Receive? then this.(receive := t) else this.(send := t)
    }
  }

  function NewFile(transport: Transport, state: SocketState): OpenFile {
    OpenFile(1, transport, false, false, RawTimeval(0, 0), RawTimeval(0, 0), state, 0, [], 0)
  }

  datatype Tables = Tables(fds: map<Fd, Descriptor>, files: map<FileId, OpenFile>)

  /** `signals` is how many more calls will be interrupted: any number, but finite. */
  datatype World = World(tab: Tables, clock: nat, signals: nat)

  datatype Call =
    | Socket(transport: Transport, cloexec: bool)
    | DupFdCloexec(fd: Fd)
    | DupFd(fd: Fd)
    | SetCloexec(fd: Fd)
    | SetNonblocking(fd: Fd, on: bool)
    | SetReuse(fd: Fd)
    | SetTimeout(fd: Fd, dir: Direction, time: Timeval)
    | GetTimeout(fd: Fd, dir: Direction)
    | GetError(fd: Fd)
    | Bind(fd: Fd, addr: BtAddr)
    | Listen(fd: Fd, backlog: nat)
    | Connect(fd: Fd, addr: BtAddr)
    | Accept4(fd: Fd)
    | Accept(fd: Fd)
    | Poll(fd: Fd, ms: int)
    | Close(fd: Fd)
    | HciRoute
    | HciOpen(device: int)
    | HciInquiry(device: int, capacity: nat)

  /** What a successful call hands back beside its return value; `Events` are the bits `poll` may report on a socket
      asked about POLLOUT. */
  datatype Out =
    | Nothing
    | Peer(addr: BtAddr)
    | Events(pollout: bool, pollerr: bool, pollhup: bool, pollnval: bool)
    | Code(errno: int)
    | Time(time: Timeval)
    | Found(devices: seq<BtAddr>)

  /** `Failed` is a return value of -1 together with the error number. */
  datatype Ret = Failed(errno: int) | Returned(value: int, out: Out)

  // ---------------------------------------------------------------- Changes to the tables

  function Update(t: Tables, fd: Fd, f: OpenFile): Tables
    requires fd in t.fds
  {
    t.(files := t.files[t.fds[fd].file := f])
  }

  function FileOf(t: Tables, fd: Fd): OpenFile
    requires Valid(t) && fd in t.fds
  {
    t.files[t.fds[fd].file]
  }

  function OpenNew(t: Tables, fd: Fd, id: FileId, cloexec: bool, f: OpenFile): Tables {
    Tables(t.fds[fd := Descriptor(id, cloexec)], t.files[id := f.(refs := 1)])
  }

  function Duplicated(t: Tables, source: Fd, fd: Fd, cloexec: bool): Tables
    requires Valid(t) && source in t.fds
  {
    var f := FileOf(t, source);
    Update(t.(fds := t.fds[fd := Descriptor(t.fds[source].file, cloexec)]), source, f.(refs := f.refs + 1))
  }

  /** The description goes only with its last descriptor. */
  function Closed(t: Tables, fd: Fd): Tables
    requires Valid(t) && fd in t.fds
  {
    var f := FileOf(t, fd);
    var id := t.fds[fd].file;
    Tables(t.fds - {fd}, if f.refs <= 1 then t.files - {id} else t.files[id := f.(refs := f.refs - 1)])
  }

  // ---------------------------------------------------------------- Consistency

  function Sharers(t: Tables, id: FileId): set<Fd> {
    set fd | fd in t.fds && t.fds[fd].file == id
  }

  /** Every descriptor has a description, and a description is referenced exactly as often as it says. */
  predicate Valid(t: Tables) {
    && (forall fd | fd in t.fds :: fd >= 0 && t.fds[fd].file in t.files)
    && (forall id | id in t.files :: t.files[id].IsQueue() && 0 < t.files[id].refs == |Sharers(t, id)|)
  }

  // ---------------------------------------------------------------- The step relation

  /** A fresh descriptor on a fresh description. */
  predicate Opened(t: Tables, fd: Fd, f: OpenFile, t': Tables) {
    && 0 <= fd
    && fd !in t.fds
    && fd in t'.fds
    && t'.fds[fd].file !in t.files
    && t' == OpenNew(t, fd, t'.fds[fd].file, t'.fds[fd].cloexec, f)
  }

  predicate DuplicatedTo(t: Tables, source: Fd, fd: Fd, t': Tables)
    requires Valid(t)
  {
    && 0 <= fd
    && source in t.fds
    && fd !in t.fds
    && fd in t'.fds
    && t' == Duplicated(t, source, fd, t'.fds[fd].cloexec)
  }

  /** More connections reached listener `fd`; nothing else happened. */
  predicate Arrivals(t: Tables, fd: Fd, t': Tables)
    requires Valid(t)
  {
    && fd in t.fds
    && t.fds[fd].file in t'.files
    && var f := FileOf(t, fd);
    && var now := t'.files[t.fds[fd].file].arrived;
    && f.arrived <= now
    && t' == Update(t, fd, f.(arrived := now))
  }

  /** The head of the queue of listener `fd` became descriptor `got`. */
  predicate Accepted(t: Tables, fd: Fd, got: Fd, peer: BtAddr, t': Tables)
    requires Valid(t)
  {
    && fd in t.fds
    && t.fds[fd].file in t'.files
    && var f := FileOf(t, fd);
    && var now := t'.files[t.fds[fd].file].arrived;
    && f.arrived <= now
    && f.taken < |now|
    && peer == now[f.taken]
    && Opened(Update(t, fd, f.(arrived := now, taken := f.taken + 1)), got, NewFile(f.transport, Connected(peer)), t')
  }

  /** What a call that failed with error `e` may leave behind. */
  predicate Failure(t: Tables, c: Call, e: int, t': Tables)
    requires Valid(t)
  {
    || (t' == t && !(c.Connect? && e == EINPROGRESS))
    || ((c.Accept4? || c.Accept?) && Arrivals(t, c.fd, t'))
    || (c.Connect? && c.fd in t.fds && t' == Update(t, c.fd, FileOf(t, c.fd).(state := Connecting(c.addr))))
  }

  /** A connection to `peer` was tried, whatever became of it. */
  predicate Attempted(state: SocketState, peer: BtAddr) {
    state == Connecting(peer) || state == Connected(peer) || state == Broken(peer)
  }

  /** What may become of a connection on its own, in any time: it is made, it fails, it breaks; an error becomes
      pending and stays until SO_ERROR is read.  The model lets it become of it when somebody looks. */
  predicate Settles(f: OpenFile, f': OpenFile) {
    && f' == f.(state := f'.state, error := f'.error)
    && (f.error != 0 ==> f'.error == f.error)
    && match f.state
       case Connecting(peer) => Attempted(f'.state, peer)
       case Connected(peer) => f'.state == Connected(peer) || f'.state == Broken(peer)
       case _ => f'.state == f.state
  }

  /** POLLOUT without POLLERR, POLLHUP or POLLNVAL. */
  predicate PlainlyWritable(out: Out) {
    out == Events(true, false, false, false)
  }

  /** At least one event. */
  predicate Reports(out: Out) {
    out.Events? && (out.pollout || out.pollerr || out.pollhup || out.pollnval)
  }

  predicate HungUp(out: Out) {
    out.Events? && out.pollhup
  }

  /** What events say about a socket whose connection was tried: one that is plainly writable is connected, one that
      hung up is broken.  Any other events go with any state. */
  predicate Truthful(out: Out, state: SocketState) {
    && (PlainlyWritable(out) ==> !state.Connecting? && !state.Broken?)
    && (HungUp(out) ==> !state.Connecting? && !state.Connected?)
  }

  /** Somebody looked at the socket `fd`. */
  predicate Looked(t: Tables, fd: Fd, t': Tables)
    requires Valid(t)
  {
    && fd in t.fds
    && t.fds[fd].file in t'.files
    && var f' := t'.files[t.fds[fd].file];
    Settles(FileOf(t, fd), f') && t' == Update(t, fd, f')
  }

  /** What a call that returned may have done. */
  predicate Success(t: Tables, c: Call, value: int, out: Out, t': Tables)
    requires Valid(t)
  {
    match c
    case Socket(transport, cloexec) =>
      Opened(t, value, NewFile(transport, Fresh), t') && t'.fds[value].cloexec == cloexec
    case HciOpen(_) => Opened(t, value, NewFile(RawHci, Fresh), t')
    // Some kernels accept the request and do not set the flag.
    case DupFdCloexec(fd) => DuplicatedTo(t, fd, value, t')
    case DupFd(fd) => DuplicatedTo(t, fd, value, t') && !t'.fds[value].cloexec
    case Accept4(fd) => out.Peer? && Accepted(t, fd, value, out.addr, t') && t'.fds[value].cloexec
    case Accept(fd) => out.Peer? && Accepted(t, fd, value, out.addr, t') && !t'.fds[value].cloexec
    case SetCloexec(fd) => fd in t.fds && t' == t.(fds := t.fds[fd := t.fds[fd].(cloexec := true)])
    case SetNonblocking(fd, on) => fd in t.fds && t' == Update(t, fd, FileOf(t, fd).(nonblocking := on))
    case SetReuse(fd) => fd in t.fds && t' == Update(t, fd, FileOf(t, fd).(reuse := true))
    case SetTimeout(fd, d, time) => fd in t.fds && t' == Update(t, fd, FileOf(t, fd).WithTimeout(d, time))
    case GetTimeout(fd, d) => fd in t.fds && t' == t && out == Time(FileOf(t, fd).TimeoutOf(d))
    case GetError(fd) =>
      // The pending error is handed out and cleared.
      && fd in t.fds
      && out.Code?
      && t.fds[fd].file in t'.files
      && var f' := t'.files[t.fds[fd].file];
      f'.error == 0 && Settles(FileOf(t, fd), f'.(error := out.errno)) && t' == Update(t, fd, f')
    case Bind(fd, addr) =>
      && fd in t.fds
      && var f := FileOf(t, fd);
      f.state.Fresh? && t' == Update(t, fd, f.(state := Bound(addr, f.reuse)))
    case Listen(fd, backlog) =>
      && fd in t.fds
      && var f := FileOf(t, fd);
      f.state.Bound? && t' == Update(t, fd, f.(state := Listening(f.state.addr, f.state.reused, backlog)))
    case Connect(fd, addr) => fd in t.fds && t' == Update(t, fd, FileOf(t, fd).(state := Connected(addr)))
    case Poll(fd, _) =>
      && fd in t.fds
      && 0 <= value <= 1
      && Looked(t, fd, t')
      && (value == 1 ==> Reports(out) && Truthful(out, t'.files[t.fds[fd].file].state))
    case Close(fd) => fd in t.fds && t' == Closed(t, fd)
    case HciRoute => t' == t
    case HciInquiry(_, capacity) => t' == t && out.Found? && |out.devices| == value <= capacity
  }

  /** The tables after call `c` answered `r`.  `close` frees the descriptor even when it reports an error. */
  predicate Effect(t: Tables, c: Call, r: Ret, t': Tables)
    requires Valid(t)
  {
    if c.Close? && c.fd in t.fds then t' == Closed(t, c.fd)
    else match r
      case Failed(e) => Failure(t, c, e, t')
      case Returned(value, out) => Success(t, c, value, out, t')
  }

  /** A `poll` that reports 0 has waited at least its argument. */
  predicate Clocked(w: World, c: Call, r: Ret, w': World) {
    && w.clock <= w'.clock
    && (c.Poll? && r.Returned? && r.value == 0 ==> 0 <= c.ms && w.clock + c.ms * NANOS_PER_MILLI <= w'.clock)
  }

  predicate Step(w: World, c: Call, r: Ret, w': World)
    requires Valid(w.tab)
  {
    && Clocked(w, c, r, w')
    && Effect(w.tab, c, r, w'.tab)
    && (if r == Failed(EINTR) then w.signals == w'.signals + 1 else w'.signals == w.signals)
  }

  // ---------------------------------------------------------------- Facts about steps

  predicate Opens(c: Call) {
    c.Socket? || c.DupFdCloexec? || c.DupFd? || c.Accept4? || c.Accept? || c.HciOpen?
  }

  /** Calls that change neither which descriptors are open nor what they refer to. */
  predicate Benign(c: Call) {
    !Opens(c) && !c.Close?
  }

  function Target(c: Call): Option<Fd> {
    match c
    case Socket(_, _) | HciRoute | HciOpen(_) | HciInquiry(_, _) => None
    case _ => Some(c.fd)
  }

  /** The descriptors after a step, and who can have changed them. */
  predicate FdsChange(t: Tables, c: Call, r: Ret, t': Tables) {
    if c.Close? then
      && t'.fds == t.fds - {c.fd}
    else if Opens(c) && r.Returned? then
      && 0 <= r.value
      && r.value !in t.fds
      && r.value in t'.fds
      && t'.fds == t.fds[r.value := t'.fds[r.value]]
      && (c.Socket? ==> t'.fds[r.value].cloexec == c.cloexec)
      && (c.Accept4? ==> t'.fds[r.value].cloexec)
      && (c.Accept? || c.DupFd? ==> !t'.fds[r.value].cloexec)
      && ((c.DupFd? || c.DupFdCloexec?) ==> c.fd in t.fds && t'.fds[r.value].file == t.fds[c.fd].file)
    else if c.SetCloexec? && r.Returned? then
      && c.fd in t.fds
      && t'.fds == t.fds[c.fd := t.fds[c.fd].(cloexec := true)]
    else
      t'.fds == t.fds
  }

  lemma EffectOnFds(t: Tables, c: Call, r: Ret, t': Tables)
    requires Valid(t) && Effect(t, c, r, t')
    ensures FdsChange(t, c, r, t')
  {
    if c.Close? && c.fd !in t.fds {
      assert t.fds - {c.fd} == t.fds;
    } else if Opens(c) && r.Returned? {
      OpeningOnFds(t, c, r.value, r.out, t');
    } else if r.Returned? && Benign(c) {
      BenignOnFds(t, c, r.value, r.out, t');
    }
  }

  lemma BenignOnFds(t: Tables, c: Call, value: int, out: Out, t': Tables)
    requires Valid(t) && Benign(c) && Success(t, c, value, out, t')
    ensures FdsChange(t, c, Returned(value, out), t')
  {
  }

  lemma OpeningOnFds(t: Tables, c: Call, value: int, out: Out, t': Tables)
    requires Valid(t) && Opens(c) && Success(t, c, value, out, t')
    ensures FdsChange(t, c, Returned(value, out), t')
  {
  }

  /** Reference counts stay right through every call, so a description lives exactly as long as some
      descriptor refers to it. */
  lemma EffectKeepsValid(t: Tables, c: Call, r: Ret, t': Tables)
    requires Valid(t) && Effect(t, c, r, t')
    ensures Valid(t')
  {
    if c.Close? && c.fd in t.fds {
      ClosedIsValid(t, c.fd);
    } else if r.Failed? {
      FailureIsValid(t, c, r.errno, t');
    } else if Opens(c) {
      OpeningIsValid(t, c, r, t');
    } else {
      BenignIsValid(t, c, r.value, r.out, t');
    }
  }

  lemma FailureIsValid(t: Tables, c: Call, e: int, t': Tables)
    requires Valid(t) && Failure(t, c, e, t')
    ensures Valid(t')
  {
    if t' != t {
      UpdateIsValid(t, c.fd, t'.files[t.fds[c.fd].file]);
    }
  }

  lemma BenignIsValid(t: Tables, c: Call, value: int, out: Out, t': Tables)
    requires Valid(t) && Benign(c) && Success(t, c, value, out, t')
    ensures Valid(t')
  {
    if c.SetCloexec? {
      SharersUnmoved(t, t');
    } else if t' != t {
      UpdateIsValid(t, c.fd, t'.files[t.fds[c.fd].file]);
    }
  }

  /** No descriptor was opened, closed or redirected. */
  predicate SameLinks(t: Tables, t': Tables) {
    t'.fds.Keys == t.fds.Keys && forall fd | fd in t.fds :: t'.fds[fd].file == t.fds[fd].file
  }

  lemma SharersUnmoved(t: Tables, t': Tables)
    requires SameLinks(t, t')
    ensures forall id :: Sharers(t', id) == Sharers(t, id)
  {
    forall id
      ensures Sharers(t', id) == Sharers(t, id)
    {
      assert forall fd :: fd in Sharers(t', id) <==> fd in Sharers(t, id);
    }
  }

  lemma ClosedIsValid(t: Tables, fd: Fd)
    requires Valid(t) && fd in t.fds
    ensures Valid(Closed(t, fd))
  {
    var t' := Closed(t, fd);
    var gone := t.fds[fd].file;
    assert Sharers(t', gone) == Sharers(t, gone) - {fd};
    assert fd in Sharers(t, gone);
    assert |Sharers(t', gone)| == t.files[gone].refs - 1;
    forall id | id in t.files && id != gone
      ensures Sharers(t', id) == Sharers(t, id)
    {
    }
    forall other | other in t'.fds
      ensures t'.fds[other].file in t'.files
    {
      if t'.fds[other].file == gone {
        assert other in Sharers(t', gone);
        assert t.files[gone].refs > 1;
      }
    }
  }

  lemma OpenNewIsValid(t: Tables, fd: Fd, id: FileId, cloexec: bool, f: OpenFile)
    requires Valid(t) && 0 <= fd && fd !in t.fds && id !in t.files && f.IsQueue()
    ensures Valid(OpenNew(t, fd, id, cloexec, f))
  {
    var t' := OpenNew(t, fd, id, cloexec, f);
    forall other
      ensures other in Sharers(t', id) <==> other == fd
    {
      if other in t.fds {
        assert t.fds[other].file in t.files;
      }
    }
    assert Sharers(t', id) == {fd};
    forall other | other in t.files
      ensures Sharers(t', other) == Sharers(t, other)
    {
    }
  }

  lemma DuplicatedIsValid(t: Tables, source: Fd, fd: Fd, cloexec: bool)
    requires Valid(t) && source in t.fds && 0 <= fd && fd !in t.fds
    ensures Valid(Duplicated(t, source, fd, cloexec))
  {
    var t' := Duplicated(t, source, fd, cloexec);
    var shared := t.fds[source].file;
    assert Sharers(t', shared) == Sharers(t, shared) + {fd};
    forall other | other in t.files && other != shared
      ensures Sharers(t', other) == Sharers(t, other)
    {
    }
  }

  lemma UpdateIsValid(t: Tables, fd: Fd, f: OpenFile)
    requires Valid(t) && fd in t.fds && f.refs == FileOf(t, fd).refs && f.IsQueue()
    ensures Valid(Update(t, fd, f))
  {
    SharersUnmoved(t, Update(t, fd, f));
  }

  lemma AcceptedIsValid(t: Tables, l: Fd, got: Fd, peer: BtAddr, t': Tables)
    requires Valid(t) && Accepted(t, l, got, peer, t')
    ensures Valid(t')
  {
    var f := FileOf(t, l);
    var taken := f.(arrived := t'.files[t.fds[l].file].arrived, taken := f.taken + 1);
    UpdateIsValid(t, l, taken);
    OpenedIsValid(Update(t, l, taken), got, NewFile(f.transport, Connected(peer)), t');
  }

  lemma OpenedIsValid(t: Tables, fd: Fd, f: OpenFile, t': Tables)
    requires Valid(t) && Opened(t, fd, f, t') && f.IsQueue()
    ensures Valid(t')
  {
    OpenNewIsValid(t, fd, t'.fds[fd].file, t'.fds[fd].cloexec, f);
  }

  lemma OpeningIsValid(t: Tables, c: Call, r: Ret, t': Tables)
    requires Valid(t) && Effect(t, c, r, t') && Opens(c) && r.Returned?
    ensures Valid(t')
  {
    var fd := r.value;
    if c.Socket? || c.HciOpen? {
      var transport := if c.Socket? then c.transport else RawHci;
      OpenNewIsValid(t, fd, t'.fds[fd].file, t'.fds[fd].cloexec, NewFile(transport, Fresh));
    } else if c.DupFd? || c.DupFdCloexec? {
      DuplicatedIsValid(t, c.fd, fd, t'.fds[fd].cloexec);
    } else {
      AcceptedIsValid(t, c.fd, fd, r.out.addr, t');
    }
  }

  /** Some answer is always possible, so no caller's contract holds for want of an answer. */
  lemma AnswerExists(w: World, c: Call)
    requires Valid(w.tab)
    ensures exists r, w' :: Step(w, c, r, w')
  {
    var after := if c.Close? && c.fd in w.tab.fds then Closed(w.tab, c.fd) else w.tab;
    assert Step(w, c, Failed(EINVAL), w.(tab := after));
  }

  lemma ArrivalsTwice(t: Tables, fd: Fd, mid: Tables, t': Tables)
    requires Valid(t) && Valid(mid) && Arrivals(t, fd, mid) && Arrivals(mid, fd, t')
    ensures Arrivals(t, fd, t')
  {
    var id := t.fds[fd].file;
    assert mid.files[id := t'.files[id]] == t.files[id := t'.files[id]];
  }

  lemma AcceptedAfterArrivals(t: Tables, fd: Fd, mid: Tables, got: Fd, peer: BtAddr, t': Tables)
    requires Valid(t) && Valid(mid) && Arrivals(t, fd, mid) && Accepted(mid, fd, got, peer, t')
    ensures Accepted(t, fd, got, peer, t')
  {
    var id := t.fds[fd].file;
    var f := FileOf(t, fd);
    var taken := f.(arrived := t'.files[id].arrived, taken := f.taken + 1);
    assert mid.files[id := taken] == t.files[id := taken];
  }

  lemma AcceptAfterArrivals(t: Tables, c: Call, mid: Tables, r: Ret, t': Tables)
    requires c.Accept? || c.Accept4?
    requires Valid(t) && Valid(mid) && Arrivals(t, c.fd, mid) && Effect(mid, c, r, t')
    ensures Effect(t, c, r, t')
  {
    if r.Returned? {
      AcceptedAfterArrivals(t, c.fd, mid, r.value, r.out.addr, t');
    } else if t' != mid {
      ArrivalsTwice(t, c.fd, mid, t');
    }
  }

  lemma ConnectAfterInterruption(t: Tables, c: Call, mid: Tables, r: Ret, t': Tables)
    requires c.Connect?
    requires Valid(t) && Valid(mid) && Failure(t, c, EINTR, mid) && Effect(mid, c, r, t')
    ensures Effect(t, c, r, t')
  {
    if mid != t && t' != mid {
      var id := t.fds[c.fd].file;
      assert mid.files[id := t'.files[id]] == t.files[id := t'.files[id]];
    }
  }

  /** A call that was interrupted and then tried again is no different from one that was not interrupted. */
  lemma InterruptionIsAbsorbed(t: Tables, c: Call, mid: Tables, r: Ret, t': Tables)
    requires c.Connect? || c.Accept? || c.Accept4?
    requires Valid(t) && Failure(t, c, EINTR, mid)
    requires Valid(mid) && Effect(mid, c, r, t')
    ensures Effect(t, c, r, t')
  {
    if c.Connect? {
      ConnectAfterInterruption(t, c, mid, r, t');
    } else if mid != t {
      AcceptAfterArrivals(t, c, mid, r, t');
    }
  }

  // ---------------------------------------------------------------- Conservation

  /** `t'` is `t` with exactly one more descriptor, the only one on a description of its own. */
  predicate Adds(t: Tables, fd: Fd, t': Tables) {
    && fd !in t.fds
    && fd in t'.fds
    && var id := t'.fds[fd].file;
    && id !in t.files
    && id in t'.files
    && t'.files[id].refs == 1
    && t' == Tables(t.fds[fd := t'.fds[fd]], t.files[id := t'.files[id]])
  }

  /** Closing the one descriptor an attempt added restores the tables exactly. */
  lemma CloseUndoesAdds(t: Tables, fd: Fd, t': Tables)
    requires Valid(t) && Valid(t') && Adds(t, fd, t')
    ensures Closed(t', fd) == t
  {
    assert Closed(t', fd).fds == t.fds;
    assert Closed(t', fd).files == t.files;
  }

  /** Closing a fresh duplicate restores the tables exactly, whatever its close-on-exec flag became. */
  lemma CloseUndoesDuplicate(t: Tables, source: Fd, fd: Fd, cloexec: bool)
    requires Valid(t) && source in t.fds && 0 <= fd && fd !in t.fds
    ensures Valid(Duplicated(t, source, fd, cloexec))
    ensures Closed(Duplicated(t, source, fd, cloexec), fd) == t
  {
    DuplicatedIsValid(t, source, fd, cloexec);
    var back := Closed(Duplicated(t, source, fd, cloexec), fd);
    assert back.fds == t.fds;
    assert back.files == t.files;
  }

  /** A fresh socket's description, before and after it is configured. */
  lemma UpdateOpened(t: Tables, fd: Fd, f: OpenFile, t': Tables, f': OpenFile)
    requires Valid(t) && Valid(t') && Opened(t, fd, f, t') && f.refs == f'.refs == 1
    ensures FileOf(t', fd) == f
    ensures Opened(t, fd, f', Update(t', fd, f'))
    ensures Adds(t, fd, t')
  {
    var id := t'.fds[fd].file;
    assert t'.files[id := f'] == t.files[id := f'];
  }

  /** Changing the state of the added description keeps it the only addition. */
  lemma UpdateKeepsAdds(t: Tables, fd: Fd, t': Tables, f: OpenFile)
    requires Adds(t, fd, t') && f.refs == 1
    ensures Adds(t, fd, Update(t', fd, f))
  {
    var id := t'.fds[fd].file;
    assert t'.files[id := f] == t.files[id := f];
  }
}
