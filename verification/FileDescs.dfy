/** src/sys/unix/fd.rs: the owning descriptor. */
module FileDescs {
  import opened Base
  import opened Kernel
  import opened Program
  import opened Processes

  datatype FileDesc = FileDesc(fd: Fd)

  /** The descriptor inside an operation's result. */
  function MadeBy(r: Result<FileDesc>): Outcome {
    match r
    case Ok(d) => Ok(Made(d.fd, None))
    case Err(e) => Err(e)
  }

  /** The call that marks descriptor `fd`, and what is made of its answer. */
  predicate Marks(e: Event, fd: Fd, r: Result<()>) {
    && e.call == SetCloexec(fd)
    && match e.ret
       case Failed(n) => r == Err(Os(n))
       case Returned(_, _) => r == Ok(())
  }

  method MarkCloexec(p: Process, d: FileDesc) returns (r: Result<()>)
    requires Valid(p.w.tab) && d.fd in p.w.tab.fds
    requires Wants(p.pc) == Some(SetCloexec(d.fd))
    modifies p`w, p`pc, p`log
    ensures Valid(p.w.tab)
    ensures r.Ok? ==>
      p.w.tab == old(p.w.tab).(fds := old(p.w.tab).fds[d.fd := old(p.w.tab).fds[d.fd].(cloexec := true)])
    ensures r.Err? ==> p.w.tab == old(p.w.tab)
    ensures r.Ok? ==> p.pc == ResumeReturned(old(p.pc), 0, Nothing)
    ensures r.Err? ==> r.error.Os? && p.pc == ResumeFailed(old(p.pc), r.error.errno)
    ensures |p.log| == |old(p.log)| + 1 && old(p.log) <= p.log && Marks(p.log[|old(p.log)|], d.fd, r)
    ensures KernelRunTo(old(p.log), old(p.w)) ==> KernelRunTo(p.log, p.w)
  {
    var ret := p.Syscall(SetCloexec(d.fd));
    match ret
    case Failed(e) => r := Err(Os(e));
    case Returned(_, _) => r := Ok(());
  }

  /** `Drop`: exactly one close, its error ignored. */
  method Drop(p: Process, d: FileDesc)
    requires Valid(p.w.tab) && d.fd in p.w.tab.fds
    requires (p.pc.Discarding? || p.pc.Dropping?) && p.pc.fd == d.fd
    modifies p`w, p`pc, p`log
    ensures Valid(p.w.tab) && p.w.tab == Closed(old(p.w.tab), d.fd)
    ensures p.pc == Resume(old(p.pc), Returned(0, Nothing))
    ensures |p.log| == |old(p.log)| + 1 && old(p.log) <= p.log && p.log[|old(p.log)|].call == Close(d.fd)
    ensures old(p.w.clock) <= p.w.clock
    ensures KernelRunTo(old(p.log), old(p.w)) ==> KernelRunTo(p.log, p.w)
  {
    var _ := p.Syscall(Close(d.fd));
  }

  /** The closure `make_filedesc`, also the tail of `Socket::new` and `accept`: own the descriptor, mark it,
      and let `Drop` close it when marking fails. */
  method MakeFileDesc(p: Process, fd: Fd) returns (r: Result<FileDesc>)
    requires Valid(p.w.tab) && fd in p.w.tab.fds
    requires p.pc.Marking? && p.pc.fd == fd
    modifies p`w, p`pc, p`log
    ensures Valid(p.w.tab)
    ensures r.Ok? ==>
      && r.value == FileDesc(fd)
      && p.w.tab == old(p.w.tab).(fds := old(p.w.tab).fds[fd := old(p.w.tab).fds[fd].(cloexec := true)])
      && p.pc == Marked(fd, old(p.pc).origin)
    ensures r.Err? ==> p.w.tab == Closed(old(p.w.tab), fd) && p.pc == Done(Err(r.error), Some(old(p.pc).origin))
    ensures old(p.log) <= p.log && MarkingCalls(p.log, |old(p.log)|, fd, ErrorIn(r))
    ensures KernelRunTo(old(p.log), old(p.w)) ==> KernelRunTo(p.log, p.w)
  {
    var d := FileDesc(fd);
    var marked := MarkCloexec(p, d);
    match marked
    case Err(e) =>
      Drop(p, d);
      r := Err(e);
    case Ok(_) =>
      r := Ok(d);
  }

  /** The calls that mark descriptor `fd`: the one that fails is the error, and then the descriptor is closed. */
  predicate MarkingCalls(log: seq<Event>, from: nat, fd: Fd, error: Option<Error>) {
    && from < |log|
    && log[from].call == SetCloexec(fd)
    && match log[from].ret
       case Returned(_, _) => error == None && |log| == from + 1
       case Failed(n) => error == Some(Os(n)) && |log| == from + 2 && log[from + 1].call == Close(fd)
  }

  /** Call `k` of the log failed and is the last, or it made a descriptor, which is marked then. */
  predicate MakesOrFails(log: seq<Event>, k: nat, error: Option<Error>) {
    && k < |log|
    && match log[k].ret
       case Failed(n) => error == Some(Os(n)) && |log| == k + 1
       case Returned(fd, _) => MarkingCalls(log, k + 1, fd, error)
  }

  /** F_DUPFD and what comes of it. */
  predicate PlainCopyCalls(log: seq<Event>, from: nat, source: Fd, error: Option<Error>) {
    from < |log| && log[from].call == DupFd(source) && MakesOrFails(log, from, error)
  }

  /** The calls that copy descriptor `source`, and the error that they mean.  F_DUPFD_CLOEXEC is tried exactly while the
      flag is up, EINVAL and nothing else takes the flag down, and F_DUPFD is tried exactly when it is down. */
  predicate CopyingCalls(log: seq<Event>, from: nat, source: Fd, up: bool, up': bool, error: Option<Error>) {
    if !up then
      !up' && PlainCopyCalls(log, from, source, error)
    else
      && from < |log|
      && log[from].call == DupFdCloexec(source)
      && (up' <==> log[from].ret != Failed(EINVAL))
      && if up' then MakesOrFails(log, from, error) else PlainCopyCalls(log, from + 1, source, error)
  }

  /** `duplicate`: on success one new close-on-exec descriptor on the source's own description, on failure
      nothing at all, whichever of the two kernel calls was used. */
  method Duplicate(p: Process, d: FileDesc) returns (r: Result<FileDesc>)
    requires p.Ready() && d.fd in p.w.tab.fds
    modifies p
    ensures p.Ready()
    ensures Copies(old(p.w.tab), d, r, p.w.tab)
    ensures CopyingCalls(p.log, |old(p.log)|, d.fd, old(p.tryCloexec), p.tryCloexec, ErrorIn(r))
    ensures p.history == old(p.history) + [Operation(LoadingTry(d.fd), old(p.w.tab), p.w.tab, MadeBy(r))]
  {
    p.Enter(LoadingTry(d.fd));
    r := CopyOnce(p, d);
    p.Leave();
  }

  method CopyOnce(p: Process, d: FileDesc) returns (r: Result<FileDesc>)
    requires Valid(p.w.tab) && d.fd in p.w.tab.fds && p.pc == LoadingTry(d.fd)
    modifies p`w, p`pc, p`log, p`tryCloexec
    ensures CopyEnds(old(p.w.tab), d, r, p.w.tab, p.pc)
    ensures CopyingCalls(p.log, |old(p.log)|, d.fd, old(p.tryCloexec), p.tryCloexec, ErrorIn(r))
    ensures KernelRunTo(old(p.log), old(p.w)) ==> KernelRunTo(p.log, p.w)
  {
    ghost var t := p.w.tab;
    var probed: Option<Result<FileDesc>> := None;
    var try := p.LoadTry();
    if try {
      probed := Probe(p, d, t);
    }
    match probed
    case Some(outcome) => r := outcome;
    case None => r := CopyPlain(p, d, t);
  }

  /** F_DUPFD_CLOEXEC; a kernel that rejects it is remembered and leaves the matter open. */
  method Probe(p: Process, d: FileDesc, ghost t: Tables) returns (r: Option<Result<FileDesc>>)
    requires Valid(t) && p.w.tab == t && d.fd in t.fds && p.pc == Probing(d.fd)
    modifies p`w, p`pc, p`log, p`tryCloexec
    ensures match r
      case None => p.w.tab == t && p.pc == PlainDup(d.fd)
      case Some(outcome) => CopyEnds(t, d, outcome, p.w.tab, p.pc)
    ensures old(p.log) <= p.log && ProbingCalls(p.log, |old(p.log)|, d.fd, r)
    ensures p.tryCloexec == if r.None? then false else old(p.tryCloexec)
    ensures KernelRunTo(old(p.log), old(p.w)) ==> KernelRunTo(p.log, p.w)
  {
    var probe := p.Dup(d.fd, true);
    match probe
    case Returned(fd, _) =>
      var copy := FinishDuplicate(p, d, fd, t);
      r := Some(copy);
    case Failed(e) =>
      if e == EINVAL {
        p.StoreTryFalse();
        r := None;
      } else {
        r := Some(Err(Os(e)));
      }
  }

  /** The calls of a probe, and what it makes of them. */
  predicate ProbingCalls(log: seq<Event>, from: nat, source: Fd, r: Option<Result<FileDesc>>) {
    && from < |log|
    && log[from].call == DupFdCloexec(source)
    && match r
       case None => log[from].ret == Failed(EINVAL) && |log| == from + 1
       case Some(outcome) => log[from].ret != Failed(EINVAL) && MakesOrFails(log, from, ErrorIn(outcome))
  }

  /** F_DUPFD. */
  method CopyPlain(p: Process, d: FileDesc, ghost t: Tables) returns (r: Result<FileDesc>)
    requires Valid(t) && p.w.tab == t && d.fd in t.fds && p.pc == PlainDup(d.fd)
    modifies p`w, p`pc, p`log
    ensures CopyEnds(t, d, r, p.w.tab, p.pc)
    ensures old(p.log) <= p.log && PlainCopyCalls(p.log, |old(p.log)|, d.fd, ErrorIn(r))
    ensures KernelRunTo(old(p.log), old(p.w)) ==> KernelRunTo(p.log, p.w)
  {
    var plain := p.Dup(d.fd, false);
    match plain
    case Returned(fd, _) => r := FinishDuplicate(p, d, fd, t);
    case Failed(e) => r := Err(Os(e));
  }

  /** One new close-on-exec descriptor on the description of `d`, or nothing. */
  predicate Copies(t: Tables, d: FileDesc, r: Result<FileDesc>, t': Tables)
    requires Valid(t) && d.fd in t.fds
  {
    match r
    case Ok(copy) => 0 <= copy.fd && copy.fd !in t.fds && t' == Duplicated(t, d.fd, copy.fd, true)
    case Err(_) => t' == t
  }

  /** A `duplicate` is over. */
  predicate CopyEnds(t: Tables, d: FileDesc, r: Result<FileDesc>, t': Tables, pc: Pc)
    requires Valid(t) && d.fd in t.fds
  {
    Valid(t') && Copies(t, d, r, t') && pc == Done(MadeBy(r), Some(CopyOf(d.fd)))
  }

  lemma MarkedDuplicate(t: Tables, source: Fd, fd: Fd, t': Tables)
    requires Valid(t) && DuplicatedTo(t, source, fd, t')
    ensures t'.(fds := t'.fds[fd := t'.fds[fd].(cloexec := true)]) == Duplicated(t, source, fd, true)
  {
    assert t'.fds[fd := t'.fds[fd].(cloexec := true)] == Duplicated(t, source, fd, true).fds;
  }

  /** What becomes of a new duplicate when it is marked, and when it is closed instead. */
  lemma FinishedCopies(t: Tables, d: FileDesc, fd: Fd, mid: Tables, r: Result<FileDesc>, t': Tables)
    requires Valid(t) && Valid(mid) && d.fd in t.fds && DuplicatedTo(t, d.fd, fd, mid)
    requires match r
      case Ok(copy) => copy.fd == fd && t' == mid.(fds := mid.fds[fd := mid.fds[fd].(cloexec := true)])
      case Err(_) => t' == Closed(mid, fd)
    ensures Copies(t, d, r, t')
  {
    if r.Ok? {
      MarkedDuplicate(t, d.fd, fd, mid);
    } else {
      CloseUndoesDuplicate(t, d.fd, fd, mid.fds[fd].cloexec);
    }
  }

  method FinishDuplicate(p: Process, d: FileDesc, fd: Fd, ghost t: Tables) returns (r: Result<FileDesc>)
    requires Valid(t) && Valid(p.w.tab) && DuplicatedTo(t, d.fd, fd, p.w.tab)
    requires p.pc == Marking(fd, CopyOf(d.fd))
    modifies p`w, p`pc, p`log
    ensures CopyEnds(t, d, r, p.w.tab, p.pc)
    ensures old(p.log) <= p.log && MarkingCalls(p.log, |old(p.log)|, fd, ErrorIn(r))
    ensures KernelRunTo(old(p.log), old(p.w)) ==> KernelRunTo(p.log, p.w)
  {
    r := MakeFileDesc(p, fd);
    FinishedCopies(t, d, fd, old(p.w.tab), r, p.w.tab);
  }
}
