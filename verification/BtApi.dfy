/** src/bt/mod.rs: the public operations over several addresses, and cloning. */
module BtApi {
  import opened Base
  import opened Kernel
  import opened Program
  import opened Processes
  import opened FileDescs
  import opened SysCommon

  /** The closure handed to `each_addr`. */
  datatype Attempt = Listen | Connect

  function StartOf(a: Attempt, protocol: Protocol, addr: BtAddr): Pc {
    match a
    case Listen => ModernSocket(ToBind(protocol, addr))
    case Connect => ModernSocket(ToConnect(protocol, addr))
  }

  function FileOfAttempt(a: Attempt, protocol: Protocol, addr: BtAddr): OpenFile {
    match a
    case Listen => BoundFile(protocol, addr)
    case Connect => ConnectedFile(protocol, addr)
  }

  /** The operation that begins at `start` is an attempt on `addr`: a bind for listeners, a connect for streams. */
  predicate IsAttempt(start: Pc, a: Attempt, protocol: Protocol, addr: BtAddr) {
    match a
    case Listen => start == ModernSocket(ToBind(protocol, addr))
    case Connect => start == ModernSocket(ToConnect(protocol, addr))
  }

  /** What it hands out is a listener at `addr`, or a stream to it. */
  predicate IsHandedOut(t: Tables, e: Endpoint, a: Attempt, protocol: Protocol, addr: BtAddr) {
    && Valid(t)
    && e.inner.fd in t.fds
    && e.protocol == protocol
    && match a
       case Listen => IsListener(FileOf(t, e.inner.fd), protocol, addr)
       case Connect => IsStream(FileOf(t, e.inner.fd), protocol, addr)
  }

  /** What `each_addr` should return for the attempts it made. */
  function Combine(ops: seq<Operation>): Outcome {
    if ops == [] then Err(InvalidInput) else ops[|ops| - 1].outcome
  }

  /** Every operation began with tables `t`, and those that failed left them as they were. */
  predicate EachFrom(t: Tables, ops: seq<Operation>) {
    forall i | 0 <= i < |ops| :: ops[i].before == t && (ops[i].outcome.Err? ==> ops[i].after == t)
  }

  /** The attempts made are those on a prefix of the addresses, in order; all but the last failed; and the
      prefix is proper only when the last one succeeded. */
  predicate Tries(ops: seq<Operation>, a: Attempt, protocol: Protocol, addrs: seq<BtAddr>) {
    && |ops| <= |addrs|
    && (forall i | 0 <= i < |ops| :: IsAttempt(ops[i].start, a, protocol, addrs[i]))
    && (forall i | 0 <= i < |ops| - 1 :: ops[i].outcome.Err?)
    && (|ops| < |addrs| ==> Combine(ops).Ok?)
  }

  /** The same while the loop is still going. */
  predicate AllFailed(ops: seq<Operation>, a: Attempt, protocol: Protocol, addrs: seq<BtAddr>) {
    && |ops| <= |addrs|
    && (forall i | 0 <= i < |ops| :: IsAttempt(ops[i].start, a, protocol, addrs[i]) && ops[i].outcome.Err?)
  }

  lemma OneMoreTry(ops: seq<Operation>, op: Operation, a: Attempt, protocol: Protocol, addrs: seq<BtAddr>)
    requires AllFailed(ops, a, protocol, addrs) && |ops| < |addrs|
    requires IsAttempt(op.start, a, protocol, addrs[|ops|])
    ensures op.outcome.Ok? ==> Tries(ops + [op], a, protocol, addrs)
    ensures op.outcome.Err? ==> AllFailed(ops + [op], a, protocol, addrs)
    ensures Combine(ops + [op]) == op.outcome
  {
  }

  lemma OneMoreFrom(t: Tables, ops: seq<Operation>, op: Operation)
    requires EachFrom(t, ops) && op.before == t && (op.outcome.Err? ==> op.after == t)
    ensures EachFrom(t, ops + [op])
  {
  }

  method Try(p: Process, a: Attempt, addr: BtAddr, protocol: Protocol) returns (r: Result<Endpoint>)
    requires p.Ready()
    modifies p
    ensures p.Ready()
    ensures AddsEndpoint(old(p.w.tab), r, protocol, FileOfAttempt(a, protocol, addr), p.w.tab)
    ensures r.Ok? ==> IsHandedOut(p.w.tab, r.value, a, protocol, addr)
    ensures old(p.log) <= p.log && (r.Err? ==> FailedLast(p.log, |old(p.log)|, r.error))
    ensures p.history == old(p.history) +
      [Operation(StartOf(a, protocol, addr), old(p.w.tab), p.w.tab, EndpointOutcome(r))]
    ensures p.tryCloexec == old(p.tryCloexec)
  {
    match a
    case Listen => r := BindOnce(p, addr, protocol);
    case Connect => r := ConnectTo(p, addr, protocol);
  }

  /** After the attempts `ops`, begun from tables `t`: the last one added its descriptor, or nothing was added yet. */
  predicate Tried(t: Tables, a: Attempt, protocol: Protocol, addrs: seq<BtAddr>, ops: seq<Operation>,
                  r: Result<Endpoint>, t': Tables)
    requires 0 < |ops| <= |addrs|
  {
    && EndpointOutcome(r) == Combine(ops)
    && AddsEndpoint(t, r, protocol, FileOfAttempt(a, protocol, addrs[|ops| - 1]), t')
    && (r.Ok? ==> IsHandedOut(t', r.value, a, protocol, addrs[|ops| - 1]))
    && EachFrom(t, ops)
    && if r.Ok? then Tries(ops, a, protocol, addrs) else AllFailed(ops, a, protocol, addrs)
  }

  lemma HistoryGrows(history: seq<Operation>, ops: seq<Operation>, op: Operation)
    ensures history + ops + [op] == history + (ops + [op])
  {
  }

  /** The attempt of turn `i` of `each_addr`. */
  method TryNext(p: Process, a: Attempt, addrs: seq<BtAddr>, i: nat, protocol: Protocol,
                 ghost history: seq<Operation>, ghost ops: seq<Operation>)
    returns (r: Result<Endpoint>, ghost more: seq<Operation>)
    requires p.Ready() && p.history == history + ops
    requires i == |ops| < |addrs| && AllFailed(ops, a, protocol, addrs) && EachFrom(p.w.tab, ops)
    modifies p
    ensures p.Ready() && p.history == history + more
    ensures |more| == |ops| + 1 && Tried(old(p.w.tab), a, protocol, addrs, more, r, p.w.tab)
    ensures old(p.log) <= p.log && (r.Err? ==> FailedLast(p.log, |old(p.log)|, r.error))
    ensures p.tryCloexec == old(p.tryCloexec)
  {
    r := Try(p, a, addrs[i], protocol);
    ghost var op := Operation(StartOf(a, protocol, addrs[i]), old(p.w.tab), p.w.tab, EndpointOutcome(r));
    OneMoreTry(ops, op, a, protocol, addrs);
    OneMoreFrom(old(p.w.tab), ops, op);
    HistoryGrows(history, ops, op);
    more := ops + [op];
  }

  /** What `each_addr` came to after the attempts `ops`: one descriptor is added on Ok, for the address of the last
      attempt, and none on Err; and no attempt finds anything that an earlier one left behind. */
  predicate Ends(t: Tables, a: Attempt, protocol: Protocol, addrs: seq<BtAddr>, ops: seq<Operation>,
                 r: Result<Endpoint>, t': Tables) {
    && Tries(ops, a, protocol, addrs)
    && EachFrom(t, ops)
    && EndpointOutcome(r) == Combine(ops)
    && match r
       case Err(_) => t' == t
       case Ok(_) =>
         && ops != []
         && AddsEndpoint(t, r, protocol, FileOfAttempt(a, protocol, addrs[|ops| - 1]), t')
         && IsHandedOut(t', r.value, a, protocol, addrs[|ops| - 1])
  }

  lemma SuccessEnds(t: Tables, a: Attempt, protocol: Protocol, addrs: seq<BtAddr>, ops: seq<Operation>,
                    r: Result<Endpoint>, t': Tables)
    requires 0 < |ops| <= |addrs| && Tried(t, a, protocol, addrs, ops, r, t') && r.Ok?
    ensures Ends(t, a, protocol, addrs, ops, r, t')
  {
  }

  lemma FailureEnds(t: Tables, a: Attempt, protocol: Protocol, addrs: seq<BtAddr>, ops: seq<Operation>, e: Error)
    requires |ops| == |addrs| && AllFailed(ops, a, protocol, addrs) && EachFrom(t, ops) && Combine(ops) == Err(e)
    ensures Ends(t, a, protocol, addrs, ops, Err(e), t)
  {
  }

  /** `each_addr`.  The history shows the attempts `ops`, each with the tables it found and left: the socket of a failed
      attempt is closed before the next one begins. */
  method EachAddr(p: Process, a: Attempt, addrs: seq<BtAddr>, protocol: Protocol)
    returns (r: Result<Endpoint>, ghost ops: seq<Operation>)
    requires p.Ready()
    modifies p
    ensures p.Ready() && p.history == old(p.history) + ops
    ensures Ends(old(p.w.tab), a, protocol, addrs, ops, r, p.w.tab)
    ensures r.Err? ==> if addrs == [] then r.error == InvalidInput else FailedLast(p.log, |old(p.log)|, r.error)
    ensures p.tryCloexec == old(p.tryCloexec)
  {
    var lastErr: Option<Error> := None;
    ops := [];
    for i := 0 to |addrs|
      invariant p.Ready() && p.w.tab == old(p.w.tab) && p.tryCloexec == old(p.tryCloexec)
      invariant |ops| == i && p.history == old(p.history) + ops
      invariant AllFailed(ops, a, protocol, addrs) && EachFrom(p.w.tab, ops)
      invariant Combine(ops) == Err(if lastErr.Some? then lastErr.value else InvalidInput)
      invariant old(p.log) <= p.log && (i > 0 <==> lastErr.Some?)
      invariant lastErr.Some? ==> FailedLast(p.log, |old(p.log)|, lastErr.value)
    {
      var attempt;
      attempt, ops := TryNext(p, a, addrs, i, protocol, old(p.history), ops);
      match attempt
      case Ok(_) =>
        SuccessEnds(old(p.w.tab), a, protocol, addrs, ops, attempt, p.w.tab);
        return attempt, ops;
      case Err(e) => lastErr := Some(e);
    }
    FailureEnds(p.w.tab, a, protocol, addrs, ops, if lastErr.Some? then lastErr.value else InvalidInput);
    r := Err(if lastErr.Some? then lastErr.value else InvalidInput);
  }

  /** `try_clone`: another handle on the same description, or nothing. */
  method TryClone(p: Process, e: Endpoint) returns (r: Result<Endpoint>)
    requires p.Ready() && e.inner.fd in p.w.tab.fds
    modifies p
    ensures p.Ready()
    ensures r.Ok? ==>
      && r.value.protocol == e.protocol
      && r.value.inner.fd !in old(p.w.tab).fds
      && p.w.tab == Duplicated(old(p.w.tab), e.inner.fd, r.value.inner.fd, true)
    ensures r.Err? ==> p.w.tab == old(p.w.tab)
    ensures CopyingCalls(p.log, |old(p.log)|, e.inner.fd, old(p.tryCloexec), p.tryCloexec, ErrorIn(r))
    ensures p.history == old(p.history) +
      [Operation(LoadingTry(e.inner.fd), old(p.w.tab), p.w.tab, EndpointOutcome(r))]
  {
    var copy := Duplicate(p, e.inner);
    match copy
    case Ok(d) => r := Ok(Endpoint(d, e.protocol));
    case Err(err) => r := Err(err);
  }

  /** `each_addr` succeeds exactly when some address would, and then for the first such address; `InvalidInput`
      of its own making means there was no address at all. */
  lemma CombineIsFirstSuccess(ops: seq<Operation>, a: Attempt, protocol: Protocol, addrs: seq<BtAddr>,
                              results: seq<Outcome>)
    requires Tries(ops, a, protocol, addrs) && |results| == |addrs|
    requires forall i | 0 <= i < |ops| :: ops[i].outcome == results[i]
    ensures Combine(ops).Ok? <==> exists i :: 0 <= i < |results| && results[i].Ok?
    ensures forall i | 0 <= i < |results| && results[i].Ok? && (forall j | 0 <= j < i :: results[j].Err?) ::
      |ops| == i + 1 && Combine(ops) == results[i]
    ensures Combine(ops).Err? ==>
      Combine(ops) == if addrs == [] then Err(InvalidInput) else results[|results| - 1]
  {
    if ops != [] && ops[|ops| - 1].outcome.Ok? {
      assert results[|ops| - 1].Ok?;
    } else {
      assert |ops| == |addrs|;
      assert forall i | 0 <= i < |results| :: ops[i].outcome.Err?;
    }
  }
}
