/** src/sys/unix/bt.rs: `discover_devices`. */
module UnixDiscovery {
  import opened Base
  import opened Kernel
  import opened Program
  import opened Processes
  import opened UnixSocket

  /** The route names the device, and opening it made the descriptor. */
  predicate OpenedAdapter(made: seq<Event>, device: int, fd: Fd) {
    && |made| == 2
    && made[0].call == HciRoute && made[0].ret.Returned? && made[0].ret.value == device
    && made[1].call == HciOpen(device) && made[1].ret.Returned? && made[1].ret.value == fd
  }

  /** The device was asked, and its descriptor closed again. */
  predicate Collected(made: seq<Event>, device: int, fd: Fd, devices: seq<BtAddr>) {
    && |made| == 2
    && made[0].call == HciInquiry(device, 256)
    && made[0].ret.Returned?
    && made[0].ret.out == Found(devices)
    && made[1].call == Close(fd)
    && made[1].ret.Returned?
  }

  /** The calls of a discovery that went well. */
  predicate Succeeded(made: seq<Event>, devices: seq<BtAddr>) {
    && |made| == 4
    && made[0].ret.Returned?
    && made[1].ret.Returned?
    && OpenedAdapter(made[..2], made[0].ret.value, made[1].ret.value)
    && Collected(made[2..], made[0].ret.value, made[1].ret.value, devices)
  }

  /** The calls of a discovery, in this order and each only after the one before succeeded. */
  predicate InOrder(made: seq<Event>) {
    && 1 <= |made| <= 4
    && (forall i | 0 <= i < |made| - 1 :: made[i].ret.Returned?)
    && made[0].call == HciRoute
    && (|made| > 1 ==> made[1].call == HciOpen(made[0].ret.value))
    && (|made| > 2 ==> made[2].call == HciInquiry(made[0].ret.value, 256))
    && (|made| > 3 ==> made[3].call == Close(made[1].ret.value))
  }

  lemma DiscoveryInTwoParts(a: seq<Event>, b: seq<Event>, device: int, fd: Fd, devices: seq<BtAddr>)
    requires OpenedAdapter(a, device, fd) && Collected(b, device, fd, devices)
    ensures Succeeded(a + b, devices)
  {
    assert (a + b)[..2] == a;
    assert (a + b)[2..] == b;
  }

  /** Some call was made, and the last one failed with `error`. */
  predicate EndsWith(made: seq<Event>, error: Error) {
    made != [] && FailsWith(error, made[|made| - 1])
  }

  lemma InTwoParts(log: seq<Event>, a: seq<Event>, b: seq<Event>)
    ensures (log + a) + b == log + (a + b)
  {
  }

  /** From `t` to `t'` these calls opened the adapter, or the last of them failed and nothing is left. */
  predicate OpensAdapter(t: Tables, made: seq<Event>, r: Result<(int, Fd)>, t': Tables) {
    match r
    case Ok((device, fd)) => Adds(t, fd, t') && OpenedAdapter(made, device, fd)
    case Err(e) => t' == t && EndsWith(made, e) && InOrder(made) && |made| <= 2
  }

  function AfterOpening(r: Result<(int, Fd)>): Pc {
    match r
    case Ok((device, fd)) => Discovering(Inquiring(device, fd))
    case Err(e) => Discovering(Finished(Err(e)))
  }

  lemma RouteFailed(t: Tables, e: Event, error: Error)
    requires e.call == HciRoute && FailsWith(error, e)
    ensures OpensAdapter(t, [e], Err(error), t)
  {
  }

  lemma RouteThenOpen(t: Tables, e: Event, f: Event, device: int, r: Result<Fd>, t': Tables)
    requires e.call == HciRoute && e.ret.Returned? && e.ret.value == device && f.call == HciOpen(device)
    requires match r
      case Ok(fd) => Adds(t, fd, t') && f.ret.Returned? && f.ret.value == fd
      case Err(error) => t' == t && FailsWith(error, f)
    ensures OpensAdapter(t, [e] + [f], if r.Ok? then Ok((device, r.value)) else Err(r.error), t')
  {
  }

  /** `hci_get_route` and `hci_open_dev`: the device number and a descriptor on the adapter. */
  method OpenAdapter(p: Process) returns (r: Result<(int, Fd)>, ghost made: seq<Event>)
    requires Valid(p.w.tab) && p.pc == Discovering(Routing)
    modifies p`w, p`pc, p`log
    ensures Valid(p.w.tab) && p.log == old(p.log) + made
    ensures OpensAdapter(old(p.w.tab), made, r, p.w.tab) && p.pc == AfterOpening(r)
    ensures KernelRunTo(old(p.log), old(p.w)) ==> KernelRunTo(p.log, p.w)
  {
    ghost var e, f;
    var route;
    route, e := Route(p);
    match route
    case Err(error) =>
      RouteFailed(p.w.tab, e, error);
      r, made := Err(error), [e];
    case Ok(device) =>
      var adapter;
      adapter, f := OpenDevice(p, device);
      InTwoParts(old(p.log), [e], [f]);
      RouteThenOpen(old(p.w.tab), e, f, device, adapter, p.w.tab);
      made := [e] + [f];
      r := if adapter.Ok? then Ok((device, adapter.value)) else Err(adapter.error);
  }

  lemma AskingMovesNothing(t: Tables, c: Call, r: Ret, t': Tables)
    requires Valid(t) && (c.HciRoute? || c.HciInquiry?) && Effect(t, c, r, t')
    ensures t' == t
  {
  }

  /** `hci_get_route`. */
  method Route(p: Process) returns (r: Result<int>, ghost e: Event)
    requires Valid(p.w.tab) && p.pc == Discovering(Routing)
    modifies p`w, p`pc, p`log
    ensures p.w.tab == old(p.w.tab)
    ensures p.log == old(p.log) + [e] && e.call == HciRoute
    ensures match r
      case Ok(device) => e.ret.Returned? && e.ret.value == device && p.pc == Discovering(OpeningAdapter(device))
      case Err(error) => FailsWith(error, e) && p.pc == Discovering(Finished(Err(error)))
    ensures KernelRunTo(old(p.log), old(p.w)) ==> KernelRunTo(p.log, p.w)
  {
    var route := p.Syscall(HciRoute);
    e := p.log[|old(p.log)|];
    AskingMovesNothing(old(p.w.tab), HciRoute, route, p.w.tab);
    match route
    case Failed(n) => r := Err(Os(n));
    case Returned(device, _) => r := Ok(device);
  }

  /** `hci_open_dev`. */
  method OpenDevice(p: Process, device: int) returns (r: Result<Fd>, ghost e: Event)
    requires Valid(p.w.tab) && p.pc == Discovering(OpeningAdapter(device))
    modifies p`w, p`pc, p`log
    ensures Valid(p.w.tab) && p.log == old(p.log) + [e] && e.call == HciOpen(device)
    ensures match r
      case Ok(fd) =>
        && Adds(old(p.w.tab), fd, p.w.tab)
        && e.ret.Returned?
        && e.ret.value == fd
        && p.pc == Discovering(Inquiring(device, fd))
      case Err(error) =>
        p.w.tab == old(p.w.tab) && FailsWith(error, e) && p.pc == Discovering(Finished(Err(error)))
    ensures KernelRunTo(old(p.log), old(p.w)) ==> KernelRunTo(p.log, p.w)
  {
    var adapter := p.Syscall(HciOpen(device));
    e := p.log[|old(p.log)|];
    match adapter
    case Failed(n) => r := Err(Os(n));
    case Returned(fd, _) => r := Ok(fd);
  }

  /** `hci_inquiry` into a buffer of 256 entries, cut to the number of responses. */
  method Inquire(p: Process, device: int, ghost fd: Fd) returns (r: Result<seq<BtAddr>>, ghost e: Event)
    requires Valid(p.w.tab) && p.pc == Discovering(Inquiring(device, fd))
    modifies p`w, p`pc, p`log
    ensures p.w.tab == old(p.w.tab)
    ensures p.log == old(p.log) + [e] && e.call == HciInquiry(device, INQUIRY_CAPACITY)
    ensures match r
      case Ok(devices) =>
        e.ret.Returned? && e.ret.out == Found(devices) && p.pc == Discovering(ClosingAdapter(fd, devices))
      case Err(error) => FailsWith(error, e) && p.pc == Discovering(Finished(Err(error)))
    ensures KernelRunTo(old(p.log), old(p.w)) ==> KernelRunTo(p.log, p.w)
  {
    var infos: seq<BtAddr> := seq(INQUIRY_CAPACITY, i => [0, 0, 0, 0, 0, 0]);
    var inquiry := p.Syscall(HciInquiry(device, |infos|));
    e := p.log[|old(p.log)|];
    AskingMovesNothing(old(p.w.tab), HciInquiry(device, |infos|), inquiry, p.w.tab);
    if inquiry.Failed? {
      return Err(Os(inquiry.errno)), e;
    }
    // The call fills the front of the buffer; the rest keeps its defaults until it is truncated away.
    infos := inquiry.out.devices + infos[inquiry.value..];
    r := Ok(infos[..inquiry.value]);
  }

  /** `hci_close_dev`. */
  method CloseAdapter(p: Process, adapter: Fd, ghost devices: seq<BtAddr>, ghost t: Tables)
    returns (r: Result<()>, ghost e: Event)
    requires Valid(p.w.tab) && Valid(t) && Adds(t, adapter, p.w.tab)
    requires p.pc == Discovering(ClosingAdapter(adapter, devices))
    modifies p`w, p`pc, p`log
    ensures p.w.tab == t
    ensures p.log == old(p.log) + [e] && e.call == Close(adapter)
    ensures match r
      case Ok(_) => e.ret.Returned? && p.pc == Discovering(Finished(Ok(devices)))
      case Err(error) => FailsWith(error, e) && p.pc == Discovering(Finished(Err(error)))
    ensures KernelRunTo(old(p.log), old(p.w)) ==> KernelRunTo(p.log, p.w)
  {
    CloseUndoesAdds(t, adapter, p.w.tab);
    var closed := p.Syscall(Close(adapter));
    e := p.log[|old(p.log)|];
    match closed
    case Failed(n) => r := Err(Os(n));
    case Returned(_, _) => r := Ok(());
  }

  /** The descriptor that a discovery ending with these calls leaves open: the adapter's after an inquiry that
      failed, none otherwise. */
  predicate Leaves(t: Tables, made: seq<Event>, leaked: Option<Fd>, t': Tables) {
    && made != []
    && (leaked.Some? <==> made[|made| - 1].call.HciInquiry?)
    && match leaked case None => t' == t case Some(fd) => Adds(t, fd, t')
  }

  /** What the calls after the opening came to. */
  predicate Finishes(t: Tables, made: seq<Event>, device: int, adapter: Fd, r: Result<seq<BtAddr>>, leaked: Option<Fd>,
                     t': Tables) {
    && Leaves(t, made, leaked, t')
    && 1 <= |made| <= 2
    && made[0].call == HciInquiry(device, 256)
    && (|made| == 2 ==> made[0].ret.Returned? && made[1].call == Close(adapter))
    && match r
       case Ok(devices) => leaked == None && Collected(made, device, adapter, devices)
       case Err(error) => EndsWith(made, error)
  }

  lemma InquiryFailed(t: Tables, e: Event, device: int, adapter: Fd, error: Error, t': Tables)
    requires Adds(t, adapter, t') && e.call == HciInquiry(device, 256) && FailsWith(error, e)
    ensures Finishes(t, [e], device, adapter, Err(error), Some(adapter), t')
  {
  }

  lemma InquireThenClose(t: Tables, e: Event, f: Event, device: int, adapter: Fd, devices: seq<BtAddr>, r: Result<()>)
    requires e.call == HciInquiry(device, 256) && e.ret.Returned? && e.ret.out == Found(devices)
    requires f.call == Close(adapter)
    requires match r case Ok(_) => f.ret.Returned? case Err(error) => FailsWith(error, f)
    ensures Finishes(t, [e] + [f], device, adapter, if r.Ok? then Ok(devices) else Err(r.error), None, t)
  {
  }

  /** The rest of `discover_devices` once the adapter is open. */
  method InquireAndClose(p: Process, device: int, adapter: Fd, ghost t: Tables)
    returns (r: Result<seq<BtAddr>>, ghost leaked: Option<Fd>, ghost made: seq<Event>)
    requires Valid(p.w.tab) && Valid(t) && Adds(t, adapter, p.w.tab)
    requires p.pc == Discovering(Inquiring(device, adapter))
    modifies p`w, p`pc, p`log
    ensures Valid(p.w.tab) && p.log == old(p.log) + made
    ensures Finishes(t, made, device, adapter, r, leaked, p.w.tab) && p.pc == Discovering(Finished(r))
    ensures KernelRunTo(old(p.log), old(p.w)) ==> KernelRunTo(p.log, p.w)
  {
    ghost var e, f;
    var found;
    found, e := Inquire(p, device, adapter);
    match found
    case Err(error) =>
      InquiryFailed(t, e, device, adapter, error, p.w.tab);
      r, leaked, made := Err(error), Some(adapter), [e];
    case Ok(devices) =>
      var closed;
      closed, f := CloseAdapter(p, adapter, devices, t);
      InTwoParts(old(p.log), [e], [f]);
      InquireThenClose(t, e, f, device, adapter, devices, closed);
      leaked, made := None, [e] + [f];
      r := if closed.Ok? then Ok(devices) else Err(closed.error);
  }

  /** What all the calls of a discovery came to. */
  predicate Discovers(t: Tables, made: seq<Event>, r: Result<seq<BtAddr>>, leaked: Option<Fd>, t': Tables) {
    && Leaves(t, made, leaked, t')
    && InOrder(made)
    && match r
       case Ok(devices) => leaked == None && Succeeded(made, devices)
       case Err(error) => EndsWith(made, error)
  }

  lemma OpeningFailed(t: Tables, made: seq<Event>, e: Error, t': Tables)
    requires OpensAdapter(t, made, Err(e), t')
    ensures Discovers(t, made, Err(e), None, t')
  {
  }

  lemma OpenedThenInOrder(a: seq<Event>, b: seq<Event>, device: int, adapter: Fd)
    requires OpenedAdapter(a, device, adapter) && 1 <= |b| <= 2 && b[0].call == HciInquiry(device, 256)
    requires |b| == 2 ==> b[0].ret.Returned? && b[1].call == Close(adapter)
    ensures InOrder(a + b)
  {
  }

  lemma OpenedThenFinished(t: Tables, a: seq<Event>, b: seq<Event>, device: int, adapter: Fd, r: Result<seq<BtAddr>>,
                           leaked: Option<Fd>, t': Tables)
    requires OpenedAdapter(a, device, adapter) && Finishes(t, b, device, adapter, r, leaked, t')
    ensures Discovers(t, a + b, r, leaked, t')
  {
    assert (a + b)[|a + b| - 1] == b[|b| - 1];
    OpenedThenInOrder(a, b, device, adapter);
    if r.Ok? {
      DiscoveryInTwoParts(a, b, device, adapter, r.value);
    }
  }

  /** The calls of `discover_devices`. */
  method Discover(p: Process)
    returns (r: Result<seq<BtAddr>>, ghost leaked: Option<Fd>, ghost made: seq<Event>)
    requires Valid(p.w.tab) && p.pc == Discovering(Routing)
    modifies p`w, p`pc, p`log
    ensures Valid(p.w.tab) && p.log == old(p.log) + made
    ensures Discovers(old(p.w.tab), made, r, leaked, p.w.tab) && p.pc == Discovering(Finished(r))
    ensures KernelRunTo(old(p.log), old(p.w)) ==> KernelRunTo(p.log, p.w)
  {
    var found;
    found, made := OpenAdapter(p);
    match found
    case Err(e) =>
      OpeningFailed(old(p.w.tab), made, e, p.w.tab);
      r, leaked := Err(e), None;
    case Ok((device, adapter)) =>
      ghost var more;
      r, leaked, more := InquireAndClose(p, device, adapter, old(p.w.tab));
      InTwoParts(old(p.log), made, more);
      OpenedThenFinished(old(p.w.tab), made, more, device, adapter, r, leaked, p.w.tab);
      made := made + more;
  }

  /** `discover_devices`.  The devices come back in the order of the inquiry.  The adapter's descriptor is closed
      on every exit but one: after a failed inquiry, and only then, it stays open with nobody to own it. */
  method DiscoverDevices(p: Process)
    returns (r: Result<seq<BtAddr>>, ghost leaked: Option<Fd>, ghost made: seq<Event>)
    requires p.Ready()
    modifies p`w, p`pc, p`log, p`start, p`found
    ensures p.Ready() && p.log == old(p.log) + made
    ensures Discovers(old(p.w.tab), made, r, leaked, p.w.tab)
  {
    p.Enter(Discovering(Routing));
    r, leaked, made := Discover(p);
    p.LeaveDiscovery(r);
  }
}
