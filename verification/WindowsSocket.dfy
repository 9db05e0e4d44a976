/** src/sys/windows/bt.rs: timeouts and `connect_timeout` of the Windows socket. */
module WindowsSocket {
  import opened Base
  import opened Durations
  import opened Timeouts
  import opened Addresses

  datatype Direction = Receive | Send

  datatype Call =
    | Ioctl(nonblocking: bool)
    | Connect(btAddr: U64)
    | Select(time: RawTimeval)
    | GetError
    | SetOption(dir: Direction, raw: nat)
    | GetOption(dir: Direction)

  /** `Selected` is a positive result of `select`: the socket is still in `writefds`, in `errorfds`, or in both. */
  datatype Ret = Failed(errno: int) | Done | Expired | Selected(writable: bool, excepted: bool) | Value(raw: nat)

  /** What became of the connection that the socket tried to make. */
  datatype Connection = Untried | Pending | Made | Broken

  /** A connection is made, fails or breaks on its own. */
  predicate Settles(c: Connection, c': Connection) {
    match c
    case Untried => c'.Untried?
    case Pending => !c'.Untried?
    case Made => c'.Made? || c'.Broken?
    case Broken => c'.Broken?
  }

  /** A call, its answer, and the mode that the socket was in when it was made. */
  datatype Event = Event(call: Call, ret: Ret, nonblocking: bool)

  /** The answers a call may give; only a nonblocking socket answers `connect` with WSAEWOULDBLOCK. */
  predicate Fitting(c: Call, r: Ret, nonblocking: bool) {
    match r
    case Failed(e) => c.Connect? && e == WSAEWOULDBLOCK ==> nonblocking
    case Done => c.Ioctl? || c.Connect? || c.SetOption?
    case Expired => c.Select?
    case Selected(writable, excepted) => c.Select? && (writable || excepted)
    case Value(_) => c.GetError? || c.GetOption?
  }

  /** What a call means for the connection.  Of a connection that was tried, `select` finds the socket writable only if
      it is made and in error only if it is broken. */
  predicate Moves(c: Connection, call: Call, r: Ret, c': Connection) {
    match call
    case Connect(_) =>
      if r.Done? then c' == Made
      else if r == Failed(WSAEWOULDBLOCK) then c' == Pending
      else c' == c || c' == Broken
    case Select(_) =>
      && Settles(c, c')
      && (r.Selected? && !c.Untried? ==> (r.writable ==> c' == Made) && (r.excepted ==> c' == Broken))
    case GetError => Settles(c, c')
    case _ => c' == c
  }

  /** The mode that a call leaves the socket in. */
  function ModeAfter(e: Event): bool {
    if e.call.Ioctl? && e.ret.Done? then e.call.nonblocking else e.nonblocking
  }

  /** Call `i` can have gone this way. */
  predicate Happens(cs: seq<Connection>, talk: seq<Event>, i: int)
    requires 0 <= i < |talk| < |cs|
  {
    && Fitting(talk[i].call, talk[i].ret, talk[i].nonblocking)
    && Moves(cs[i], talk[i].call, talk[i].ret, cs[i + 1])
    && (i > 0 ==> talk[i].nonblocking == ModeAfter(talk[i - 1]))
  }

  /** These calls can be made one after the other, and the connection goes through the states `cs` meanwhile. */
  predicate Explains(cs: seq<Connection>, talk: seq<Event>) {
    |cs| == |talk| + 1 && forall i | 0 <= i < |talk| :: Happens(cs, talk, i)
  }

  lemma ExplainsOneMore(cs: seq<Connection>, talk: seq<Event>, e: Event, c: Connection)
    requires Explains(cs, talk) && Fitting(e.call, e.ret, e.nonblocking) && Moves(cs[|talk|], e.call, e.ret, c)
    requires talk != [] ==> e.nonblocking == ModeAfter(talk[|talk| - 1])
    ensures Explains(cs + [c], talk + [e])
  {
    forall i | 0 <= i < |talk + [e]|
      ensures Happens(cs + [c], talk + [e], i)
    {
      if i < |talk| {
        assert Happens(cs, talk, i);
      }
    }
  }

  /** What the wait of a timed connect means: SO_ERROR is read exactly when `select` reports something but not
      writability, and zero means that there is no error. */
  predicate WaitDecides(talk: seq<Event>, timeout: Duration, r: Result<()>)
    requires 3 <= |talk|
  {
    && 4 <= |talk|
    && talk[3].call == Select(SelectTimeval(timeout))
    && match talk[3].ret
       case Failed(n) => |talk| == 4 && r == Err(Os(n))
       case Expired => |talk| == 4 && r == Err(TimedOut)
       case Selected(writable, _) =>
         if writable then |talk| == 4 && r == Ok(())
         else |talk| == 5 && talk[4].call == GetError && PendingDecides(talk[4].ret, r)
       case _ => false
  }

  predicate PendingDecides(pending: Ret, r: Result<()>) {
    match pending
    case Failed(n) => r == Err(Os(n))
    case Value(raw) => r == if raw == 0 then Ok(()) else Err(Os(raw))
    case _ => false
  }

  /** The calls of a timed connect, all of them, and what they mean, read from the calls alone.  A failed mode change
      outranks the answer of `connect`, and a zero timeout is refused only when `connect` would block. */
  predicate Judged(talk: seq<Event>, addr: BtAddr, timeout: Duration, r: Result<()>) {
    && talk != []
    && talk[0].call == Ioctl(true)
    && if talk[0].ret.Failed? then |talk| == 1 && r == Err(Os(talk[0].ret.errno))
       else
         && 3 <= |talk|
         && talk[0].ret.Done?
         && talk[1].call == Connect(Pack(addr))
         && talk[2].call == Ioctl(false)
         && if talk[2].ret.Failed? then |talk| == 3 && r == Err(Os(talk[2].ret.errno))
            else talk[2].ret.Done? && ConnectDecides(talk, timeout, r)
  }

  /** What the answer of `connect` means once the socket is back in blocking mode. */
  predicate ConnectDecides(talk: seq<Event>, timeout: Duration, r: Result<()>)
    requires 3 <= |talk|
  {
    match talk[1].ret
    case Done => |talk| == 3 && r == Ok(())
    case Failed(n) =>
      if n != WSAEWOULDBLOCK then |talk| == 3 && r == Err(Os(n))
      else if timeout.secs == 0 && timeout.nanos == 0 then |talk| == 3 && r == Err(InvalidInput)
      else WaitDecides(talk, timeout, r)
    case _ => false
  }

  /** One call was made, and `ok` and `error` say how it went. */
  predicate Asked(before: seq<Event>, after: seq<Event>, c: Call, ok: bool, error: Error) {
    && |after| == |before| + 1
    && before <= after
    && var e := after[|before|];
    && e.call == c
    && if ok then !e.ret.Failed? else e.ret.Failed? && error == Os(e.ret.errno)
  }

  class Socket {
    var nonblocking: bool
    var receive: nat
    var send: nat
    var connection: Connection
    ghost var log: seq<Event>

    ghost predicate Valid()
      reads this
    {
      receive <= U32_MAX && send <= U32_MAX
    }

    function OptionOf(d: Direction): nat
      reads this
    {
      if d.Receive? then receive else send
    }

    /** What the system chooses to answer, and what has become of the connection by then. */
    method Choose(c: Call) returns (r: Ret)
      requires Valid()
      modifies this`connection
      ensures Valid() && Fitting(c, r, nonblocking) && Moves(old(connection), c, r, connection)
      ensures c.GetOption? && r.Value? ==> r.raw == OptionOf(c.dir)
    {
      var e: int :| e != WSAEWOULDBLOCK;
      r := Failed(e);
      if c.Select? || c.GetError? {
        var settled :| Settles(connection, settled);
        if * {
          if c.GetError? {
            var n: nat :| true;
            r := Value(n);
          } else if settled.Untried? || settled.Pending? {
            r := Expired;
          } else {
            r := Selected(settled.Made?, settled.Broken?);
          }
        }
        connection := settled;
      } else if c.Connect? {
        if * {
          r, connection := Done, Made;
        } else if nonblocking {
          r, connection := Failed(WSAEWOULDBLOCK), Pending;
        }
      } else if * {
        r := if c.GetOption? then Value(OptionOf(c.dir)) else Done;
      }
    }

    /** A Winsock call; the option store keeps what it is given. */
    method Ask(c: Call) returns (r: Ret)
      requires Valid() && (c.SetOption? ==> c.raw <= U32_MAX)
      modifies this
      ensures Valid() && Fitting(c, r, old(nonblocking)) && log == old(log) + [Event(c, r, old(nonblocking))]
      ensures Moves(old(connection), c, r, connection)
      ensures nonblocking == ModeAfter(Event(c, r, old(nonblocking)))
      ensures c.SetOption? && r.Done? ==> OptionOf(c.dir) == c.raw
      ensures forall d: Direction :: !(c.SetOption? && r.Done? && c.dir == d) ==> OptionOf(d) == old(OptionOf(d))
      ensures c.GetOption? && r.Value? ==> r.raw == OptionOf(c.dir)
    {
      ghost var mode := nonblocking;
      r := Choose(c);
      if r.Done? {
        match c
        case Ioctl(on) => nonblocking := on;
        case SetOption(d, raw) =>
          if d.Receive? {
            receive := raw;
          } else {
            send := raw;
          }
        case _ =>
      }
      log := log + [Event(c, r, mode)];
    }

    /** `set_timeout`. */
    method SetTimeout(timeout: Option<Duration>, dir: Direction) returns (r: Result<()>)
      requires Valid()
      modifies this
      ensures Valid() && nonblocking == old(nonblocking)
      ensures timeout.Some? && IsZero(timeout.value) ==> r == Err(InvalidData) && log == old(log)
      ensures r.Ok? ==> WinEncode(timeout) == Ok(OptionOf(dir))
      ensures WinEncode(timeout).Ok? ==>
        Asked(old(log), log, SetOption(dir, WinEncode(timeout).value), r.Ok?, if r.Err? then r.error else Other)
      ensures r.Err? ==> OptionOf(dir) == old(OptionOf(dir))
      ensures forall d: Direction :: d != dir ==> OptionOf(d) == old(OptionOf(d))
    {
      WinRoundTrip(timeout);
      var raw := 0;
      match timeout {
        case Some(d) =>
          var ms := Dur2Timeout(d);
          if ms == 0 {
            return Err(InvalidData);
          }
          raw := ms;
        case None =>
      }
      var ret := Ask(SetOption(dir, raw));
      match ret
      case Failed(e) => r := Err(Os(e));
      case _ => r := Ok(());
    }

    /** `timeout`. */
    method Timeout(dir: Direction) returns (r: Result<Option<Duration>>)
      requires Valid()
      modifies this
      ensures Valid() && nonblocking == old(nonblocking)
      ensures forall d: Direction :: OptionOf(d) == old(OptionOf(d))
      ensures r.Ok? ==> r.value == WinDecode(OptionOf(dir))
      ensures Asked(old(log), log, GetOption(dir), r.Ok?, if r.Err? then r.error else Other)
    {
      var ret := Ask(GetOption(dir));
      match ret
      case Failed(e) => r := Err(Os(e));
      case Value(raw) => r := Ok(WinDecode(raw));
    }

    /** Since the log was `from` these calls were made, the last one left the socket as it is, and the options are
        those of `before`. */
    ghost predicate Reached(from: seq<Event>, talk: seq<Event>, cs: seq<Connection>)
      reads this
    {
      && Valid()
      && log == from + talk
      && Explains(cs, talk)
      && cs[|talk|] == connection
      && (talk != [] ==> nonblocking == ModeAfter(talk[|talk| - 1]))
    }

    /** One more call of a timed connect. */
    method AskNext(c: Call, ghost from: seq<Event>, ghost talk: seq<Event>, ghost cs: seq<Connection>)
      returns (r: Ret, ghost talk': seq<Event>, ghost cs': seq<Connection>)
      requires Reached(from, talk, cs) && !c.SetOption?
      modifies this
      ensures Reached(from, talk', cs') && cs' == cs + [connection]
      ensures talk' == talk + [Event(c, r, old(nonblocking))] && Fitting(c, r, old(nonblocking))
      ensures forall d: Direction :: OptionOf(d) == old(OptionOf(d))
    {
      r := Ask(c);
      ExplainsOneMore(cs, talk, Event(c, r, old(nonblocking)), connection);
      talk', cs' := talk + [Event(c, r, old(nonblocking))], cs + [connection];
    }

    /** `connect_timeout`.  Its calls, from the first to the last, and what they mean (`Judged`), what became of the
        connection meanwhile, and the modes: while it connects the socket is nonblocking, while it waits it is blocking,
        and it is left blocking unless a mode change failed. */
    method ConnectTimeout(addr: BtAddr, timeout: Duration)
      returns (r: Result<()>, ghost talk: seq<Event>, ghost cs: seq<Connection>)
      requires Valid()
      modifies this
      ensures Valid() && log == old(log) + talk && Judged(talk, addr, timeout, r)
      ensures Explains(cs, talk) && cs[0] == old(connection) && cs[|cs| - 1] == connection
      ensures ModesAreRight(talk)
      ensures 3 <= |talk| && talk[2].ret.Done? ==> !nonblocking
      ensures forall d: Direction :: OptionOf(d) == old(OptionOf(d))
    {
      r, talk, cs := AttemptAndWait(addr, timeout);
      JudgedInRightModes(talk, cs, addr, timeout, r);
    }

    method AttemptAndWait(addr: BtAddr, timeout: Duration)
      returns (r: Result<()>, ghost talk: seq<Event>, ghost cs: seq<Connection>)
      requires Valid()
      modifies this
      ensures Reached(old(log), talk, cs) && cs[0] == old(connection) && Judged(talk, addr, timeout, r)
      ensures 3 <= |talk| && talk[2].ret.Done? ==> !nonblocking
      ensures forall d: Direction :: OptionOf(d) == old(OptionOf(d))
    {
      cs, talk := [connection], [];
      var enter, connect, leave;
      enter, talk, cs := AskNext(Ioctl(true), old(log), talk, cs);
      if enter.Failed? {
        return Err(Os(enter.errno)), talk, cs;
      }
      connect, talk, cs := AskNext(Connect(Pack(addr)), old(log), talk, cs);
      leave, talk, cs := AskNext(Ioctl(false), old(log), talk, cs);
      if leave.Failed? {
        return Err(Os(leave.errno)), talk, cs;
      }
      if connect.Done? {
        return Ok(()), talk, cs;
      }
      if connect.errno != WSAEWOULDBLOCK {
        return Err(Os(connect.errno)), talk, cs;
      }
      if IsZero(timeout) {
        return Err(InvalidInput), talk, cs;
      }
      r, talk, cs := WaitOnce(timeout, old(log), talk, cs);
    }

    /** The wait of `connect_timeout`, by one `select`. */
    method WaitOnce(timeout: Duration, ghost from: seq<Event>, ghost talk0: seq<Event>, ghost cs0: seq<Connection>)
      returns (r: Result<()>, ghost talk: seq<Event>, ghost cs: seq<Connection>)
      requires Reached(from, talk0, cs0) && |talk0| == 3
      modifies this
      ensures Reached(from, talk, cs) && talk0 <= talk && cs0 <= cs
      ensures WaitDecides(talk, timeout, r) && talk[3].nonblocking == old(nonblocking) == nonblocking
      ensures forall d: Direction :: OptionOf(d) == old(OptionOf(d))
    {
      var select;
      select, talk, cs := AskNext(Select(SelectTimeval(timeout)), from, talk0, cs0);
      match select
      case Failed(e) => r := Err(Os(e));
      case Expired => r := Err(TimedOut);
      case Selected(writable, _) =>
        if writable {
          return Ok(()), talk, cs;
        }
        var pending;
        pending, talk, cs := AskNext(GetError, from, talk, cs);
        match pending
        case Failed(e) => r := Err(Os(e));
        case Value(raw) =>
          if raw != 0 {
            r := Err(Os(raw));
          } else {
            r := Ok(());
          }
    }
  }

  /** Where in a timed connect `connect` and `select` are called, and with what. */
  lemma PlacesOfCalls(talk: seq<Event>, addr: BtAddr, timeout: Duration, r: Result<()>, k: nat)
    requires Judged(talk, addr, timeout, r) && k < |talk|
    ensures talk[k].call.Connect? ==> k == 1 && talk[1].call == Connect(Pack(addr)) && talk[0].ret.Done?
    ensures talk[k].call.Select? ==> k == 3 && talk[3].call == Select(SelectTimeval(timeout)) && talk[2].ret.Done?
  {
  }

  /** The peer named in every `connect` is the address asked for, and a wait is never for no time at all. */
  lemma CallsNameThePeer(talk: seq<Event>, addr: BtAddr, timeout: Duration, r: Result<()>, k: nat)
    requires Judged(talk, addr, timeout, r) && k < |talk|
    ensures talk[k].call.Connect? ==> Unpack(talk[k].call.btAddr) == addr
    ensures talk[k].call.Select? ==>
      && Micros(talk[k].call.time) != 0
      && (Micros(talk[k].call.time) == Max(1, Nanos(timeout) / 1000) <==> timeout.secs <= I32_MAX)
  {
    PlacesOfCalls(talk, addr, timeout, r, k);
    UnpackPack(addr);
    SelectTimevalIsExactIffSecondsFit(timeout);
  }

  /** The socket is nonblocking while it connects and blocking while it waits. */
  predicate ModesAreRight(talk: seq<Event>) {
    forall k: nat | k < |talk| ::
      (talk[k].call.Connect? ==> talk[k].nonblocking) && (talk[k].call.Select? ==> !talk[k].nonblocking)
  }

  lemma JudgedInRightModes(talk: seq<Event>, cs: seq<Connection>, addr: BtAddr, timeout: Duration, r: Result<()>)
    requires Judged(talk, addr, timeout, r) && Explains(cs, talk)
    ensures ModesAreRight(talk)
  {
    forall k: nat | k < |talk|
      ensures (talk[k].call.Connect? ==> talk[k].nonblocking) && (talk[k].call.Select? ==> !talk[k].nonblocking)
    {
      PlacesOfCalls(talk, addr, timeout, r, k);
      assert Happens(cs, talk, k);
    }
  }

  /** The socket reported that it is connected: `connect` succeeded, or `select` found it writable. */
  predicate ReportedConnected(talk: seq<Event>) {
    |talk| >= 3 && (talk[1].ret.Done? || (|talk| >= 4 && talk[3].ret.Selected? && talk[3].ret.writable))
  }

  /** When an Ok is a connection: exactly when `connect` succeeded at once or `select` found the socket writable.  After
      any other Ok, with the socket in error and SO_ERROR zero, the connection is broken. */
  lemma OkIsConnectionIff(addr: BtAddr, timeout: Duration, talk: seq<Event>, cs: seq<Connection>)
    requires Judged(talk, addr, timeout, Ok(())) && Explains(cs, talk)
    ensures cs[|cs| - 1] == Made <==> ReportedConnected(talk)
    ensures !ReportedConnected(talk) ==> cs[|cs| - 1] == Broken
  {
    assert Happens(cs, talk, 1) && Happens(cs, talk, 2);
    if |talk| >= 4 {
      assert Happens(cs, talk, 3);
      if |talk| == 5 {
        assert Happens(cs, talk, 4);
      }
    }
  }

  /** A timed connect on a new socket that returns Ok, its connection ending in state `c`. */
  predicate EndsOkWith(addr: BtAddr, timeout: Duration, c: Connection, talk: seq<Event>, cs: seq<Connection>) {
    && Judged(talk, addr, timeout, Ok(()))
    && Explains(cs, talk)
    && cs[0] == Untried
    && cs[|cs| - 1] == c
  }

  /** Such an Ok without a connection can happen for every timeout but zero. */
  lemma OkWithoutConnectionHappens(addr: BtAddr, timeout: Duration)
    requires !IsZero(timeout)
    ensures exists talk, cs :: EndsOkWith(addr, timeout, Broken, talk, cs)
  {
    var talk := [
      Event(Ioctl(true), Done, false),
      Event(Connect(Pack(addr)), Failed(WSAEWOULDBLOCK), true),
      Event(Ioctl(false), Done, true),
      Event(Select(SelectTimeval(timeout)), Selected(false, true), false),
      Event(GetError, Value(0), false)];
    assert EndsOkWith(addr, timeout, Broken, talk, [Untried, Untried, Pending, Pending, Broken, Broken]);
  }

  /** The documentation calls a zero timeout an error, but a socket that connects at once makes the call succeed. */
  lemma ZeroTimeoutMaySucceed(addr: BtAddr)
    ensures exists talk, cs :: EndsOkWith(addr, RawDuration(0, 0), Made, talk, cs)
  {
    var talk := [
      Event(Ioctl(true), Done, false),
      Event(Connect(Pack(addr)), Done, true),
      Event(Ioctl(false), Done, true)];
    assert EndsOkWith(addr, RawDuration(0, 0), Made, talk, [Untried, Untried, Made, Made]);
  }

  /** A zero timeout, which the documentation calls an error, is one only if `connect` would block. */
  lemma ZeroTimeoutIsRefusedIff(addr: BtAddr, timeout: Duration, talk: seq<Event>, r: Result<()>)
    requires Judged(talk, addr, timeout, r) && IsZero(timeout)
    ensures r.Ok? <==> |talk| == 3 && talk[2].ret.Done? && talk[1].ret.Done?
    ensures r == Err(InvalidInput) <==> |talk| == 3 && talk[2].ret.Done? && talk[1].ret == Failed(WSAEWOULDBLOCK)
  {
  }
}
