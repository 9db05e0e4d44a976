/** What calls return in whole runs: configured sockets. */
module Results {
  import opened Base
  import opened Kernel
  import opened Program
  import opened Concurrency
  import opened Configured
  import opened Runs

  lemma InitWellMade(s: State)
    requires Init(s)
    ensures AllWellMade(s)
  {
  }

  lemma StepKeepsWellMade(ss: seq<State>, acts: seq<Action>, k: nat)
    requires Run(ss, acts) && k < |acts| && Valid(ss[k].w.tab) && AllWellMade(ss[k])
    ensures Valid(ss[k + 1].w.tab) && AllWellMade(ss[k + 1])
  {
    RunKeepsInv(ss, acts, k);
    assert Goes(ss, acts, k);
    NextKeepsInv(ss[k], acts[k], ss[k + 1]);
    NextKeepsWellMade(ss[k], acts[k], ss[k + 1]);
  }

  lemma {:induction false} RunKeepsWellMade(ss: seq<State>, acts: seq<Action>, i: nat)
    requires Run(ss, acts) && i < |ss|
    ensures Valid(ss[i].w.tab) && AllWellMade(ss[i])
  {
    if i == 0 {
      InitWellMade(ss[0]);
    } else {
      RunKeepsWellMade(ss, acts, i - 1);
      StepKeepsWellMade(ss, acts, i - 1);
    }
  }

  // ---------------------------------------------------------------- Which call it is

  /** An operation that starts at `start` makes descriptors of this origin. */
  predicate MakesFrom(start: Pc, origin: Origin) {
    match origin
    case New(goal) => start == ModernSocket(goal)
    case Timed(goal, _) => start == ModernSocket(goal)
    case CopyOf(source) => start == LoadingTry(source)
    case QueueOf(listener, _) => start == ModernAccept(listener)
  }

  /** `pc` is a place in the operation that starts at `start`. */
  predicate Serves(start: Pc, pc: Pc) {
    match pc
    case LoadingTry(source) => start == LoadingTry(source)
    case Probing(source) => start == LoadingTry(source)
    case StoringTry(source) => start == LoadingTry(source)
    case PlainDup(source) => start == LoadingTry(source)
    case ModernSocket(goal) => start == ModernSocket(goal)
    case PlainSocket(goal) => start == ModernSocket(goal)
    case ModernAccept(l) => start == ModernAccept(l)
    case PlainAccept(l) => start == ModernAccept(l)
    case Marking(_, origin) => MakesFrom(start, origin)
    case SettingReuse(_, goal) => start == ModernSocket(goal)
    case Binding(_, goal) => start == ModernSocket(goal)
    case StartingListen(_, goal) => start == ModernSocket(goal)
    case TryingConnect(_, goal) => start == ModernSocket(goal)
    case ConnectingTimed(_, goal, _) => start == ModernSocket(goal)
    case Discovering(_) => start == Discovering(Routing)
    case Discarding(_, _, origin) => MakesFrom(start, origin)
    case Done(Ok(_), provenance) => provenance.Some? && MakesFrom(start, provenance.value)
    case Done(Err(_), provenance) => provenance.Some? ==> MakesFrom(start, provenance.value)
    case Idle | Dropping(_) => false
  }

  /** A thread inside an operation, other than the user's `drop`. */
  predicate IsServing(pc: Pc) {
    !pc.Idle? && !pc.Dropping?
  }

  lemma ServesAfterFailure(start: Pc, pc: Pc, e: int)
    requires Wants(pc).Some? && IsServing(pc) && Serves(start, pc) && !pc.Discarding? && !pc.ConnectingTimed?
    requires !pc.Discovering?
    ensures Serves(start, ResumeFailed(pc, e))
  {
  }

  lemma ServesAfterReturn(start: Pc, pc: Pc, value: int, out: Out)
    requires Wants(pc).Some? && IsServing(pc) && Serves(start, pc) && !pc.Discarding? && !pc.ConnectingTimed?
    requires !pc.Discovering?
    ensures Serves(start, ResumeReturned(pc, value, out))
  {
  }

  lemma ServesAfterTimed(start: Pc, fd: Fd, goal: Goal, at: TimedStage, r: Ret)
    requires start == ModernSocket(goal)
    ensures Serves(start, TimedAfter(fd, goal, at, r))
  {
  }

  /** A call takes a thread to another place of the same operation. */
  lemma ServesAfterCall(start: Pc, pc: Pc, r: Ret)
    requires Wants(pc).Some? && IsServing(pc) && Serves(start, pc)
    ensures Serves(start, Resume(pc, r))
  {
    match pc
    case ConnectingTimed(fd, goal, at) => ServesAfterTimed(start, fd, goal, at, r);
    case Discarding(_, _, _) | Discovering(_) =>
    case _ =>
      match r
      case Failed(e) => ServesAfterFailure(start, pc, e);
      case Returned(value, out) => ServesAfterReturn(start, pc, value, out);
  }

  /** Whatever its thread did since, action `k` is the last with which it began an operation before state `i`, and it
      began it at `start`. */
  predicate LastBegin(acts: seq<Action>, t: Tid, k: nat, start: Pc, i: nat) {
    && k < i <= |acts|
    && acts[k] == Begin(t, start)
    && forall m: nat | k < m < i :: !(acts[m].Begin? && acts[m].t == t)
  }

  lemma BeginServes(s: State, a: Action, s': State, t: Tid)
    requires Valid(s.w.tab) && Next(s, a, s') && a.Begin? && a.t == t
    ensures t in s'.threads && Serves(a.start, s'.threads[t].pc)
  {
  }

  lemma LastBeginStays(acts: seq<Action>, t: Tid, k: nat, start: Pc, i: nat)
    requires i < |acts| && LastBegin(acts, t, k, start, i) && !(acts[i].Begin? && acts[i].t == t)
    ensures LastBegin(acts, t, k, start, i + 1)
  {
  }

  /** Without a system call a thread stays where it is, goes on in its operation, or begins or ends one. */
  lemma QuietServes(s: State, a: Action, s': State, t: Tid, start: Pc)
    requires Quiet(s, a, s') && !(a.Begin? && a.t == t)
    requires t in s'.threads && IsServing(s'.threads[t].pc)
    ensures t in s.threads && IsServing(s.threads[t].pc)
    ensures Serves(start, s.threads[t].pc) ==> Serves(start, s'.threads[t].pc)
  {
  }

  lemma AnswerServes(s: State, u: Tid, ret: Ret, s': State, t: Tid, start: Pc)
    requires u in s.threads && Wants(s.threads[u].pc).Some?
    requires s'.threads == s.threads[u := s.threads[u].(pc := Resume(s.threads[u].pc, ret))]
    requires t in s'.threads && IsServing(s'.threads[t].pc)
    ensures t in s.threads && IsServing(s.threads[t].pc)
    ensures Serves(start, s.threads[t].pc) ==> Serves(start, s'.threads[t].pc)
  {
    if t == u && IsServing(s.threads[t].pc) && Serves(start, s.threads[t].pc) {
      ServesAfterCall(start, s.threads[t].pc, ret);
    }
  }

  lemma NextServes(s: State, a: Action, s': State, t: Tid, start: Pc)
    requires Valid(s.w.tab) && Next(s, a, s') && !(a.Begin? && a.t == t)
    requires t in s'.threads && IsServing(s'.threads[t].pc)
    ensures t in s.threads && IsServing(s.threads[t].pc)
    ensures Serves(start, s.threads[t].pc) ==> Serves(start, s'.threads[t].pc)
  {
    if a.Answer? {
      AnswerServes(s, a.t, a.ret, s', t, start);
    } else if !a.Use? && !a.Foreign? {
      OthersAreQuiet(s, a, s');
      QuietServes(s, a, s', t, start);
    }
  }

  lemma StepServes(ss: seq<State>, acts: seq<Action>, i: nat, t: Tid, start: Pc)
    requires Run(ss, acts) && i < |acts| && !(acts[i].Begin? && acts[i].t == t)
    requires t in ss[i + 1].threads && IsServing(ss[i + 1].threads[t].pc)
    ensures t in ss[i].threads && IsServing(ss[i].threads[t].pc)
    ensures Serves(start, ss[i].threads[t].pc) ==> Serves(start, ss[i + 1].threads[t].pc)
  {
    assert Goes(ss, acts, i);
    NextServes(ss[i], acts[i], ss[i + 1], t, start);
  }

  lemma StepBegins(ss: seq<State>, acts: seq<Action>, i: nat, t: Tid)
    requires Run(ss, acts) && i < |acts| && acts[i].Begin? && acts[i].t == t
    ensures t in ss[i + 1].threads && Serves(acts[i].start, ss[i + 1].threads[t].pc)
    ensures LastBegin(acts, t, i, acts[i].start, i + 1)
  {
    assert Goes(ss, acts, i);
    BeginServes(ss[i], acts[i], ss[i + 1], t);
  }

  /** A thread inside an operation is at a place of the one that it began last. */
  lemma {:induction false} ServesLastBegin(ss: seq<State>, acts: seq<Action>, i: nat, t: Tid)
    returns (k: nat, start: Pc)
    requires Run(ss, acts) && i < |ss| && t in ss[i].threads && IsServing(ss[i].threads[t].pc)
    ensures LastBegin(acts, t, k, start, i) && Serves(start, ss[i].threads[t].pc)
    decreases i
  {
    if i > 0 {
      var before: nat := i - 1;
      if acts[before].Begin? && acts[before].t == t {
        StepBegins(ss, acts, before, t);
        k, start := before, acts[before].start;
      } else {
        StepServes(ss, acts, before, t, Idle);
        k, start := ServesLastBegin(ss, acts, before, t);
        StepServes(ss, acts, before, t, start);
        LastBeginStays(acts, t, k, start, before);
      }
    }
  }

  // ---------------------------------------------------------------- What it returns

  /** `f` is the description of what a call of this origin hands out: a listener, a stream of the protocol asked for,
      connected or tried in time, or the stream of the peer it reports. */
  predicate IsAsAsked(origin: Origin, made: Made, f: OpenFile) {
    match origin
    case New(ToBind(protocol, addr)) => IsListener(f, protocol, addr)
    case New(ToConnect(protocol, addr)) => IsStream(f, protocol, addr)
    case New(ToConnectTimed(_, _, _)) => false
    case Timed(goal, proven) => goal.ToConnectTimed? && IsTimedStream(f, goal.protocol, goal.addr, proven)
    case QueueOf(_, peer) => made.peer == Some(peer) && f.state == Connected(peer) && !f.nonblocking
    case CopyOf(_) => true
  }

  /** The descriptor `made` is the only one on its description, which is what `origin` promises. */
  predicate Configures(t: Tables, origin: Option<Origin>, made: Made) {
    && Valid(t)
    && made.fd in t.fds
    && Sharers(t, t.fds[made.fd].file) == {made.fd}
    && origin.Some?
    && Fulfilled(origin.value, made, FileOf(t, made.fd))
    && IsAsAsked(origin.value, made, FileOf(t, made.fd))
  }

  /** The operation that thread `t` began last before state `i` makes descriptors of the origin that `pc` names. */
  ghost predicate IsOfLastBegin(acts: seq<Action>, t: Tid, i: nat, pc: Pc) {
    && pc.Done?
    && pc.provenance.Some?
    && exists k: nat, start :: LastBegin(acts, t, k, start, i) && MakesFrom(start, pc.provenance.value)
  }

  /** What a call returns has the goal, the source or the listener of the call that its thread began last. */
  lemma ReturnedIsOfItsCall(ss: seq<State>, acts: seq<Action>, i: nat)
    requires Run(ss, acts) && i < |acts| && ReturnsOk(ss[i], acts[i])
    ensures IsOfLastBegin(acts, acts[i].t, i, ss[i].threads[acts[i].t].pc)
  {
    var k, start := ServesLastBegin(ss, acts, i, acts[i].t);
    assert LastBegin(acts, acts[i].t, k, start, i);
  }

  /** In every interleaving, `bind` returns a listener that got SO_REUSEADDR before it was bound to its own address
      and listens with backlog 128, `connect` a stream connected to its own address, `connect_timeout` a stream in
      blocking mode whose connection to its own address was tried and is made if the answers prove it, and `accept` a
      stream connected to the very peer it reports; nobody else refers to its description.  The address, or the
      listener, is the one that the thread's last call was begun with. */
  lemma ReturnedIsConfigured(ss: seq<State>, acts: seq<Action>, i: nat)
    requires Run(ss, acts) && i < |acts| && ReturnsOk(ss[i], acts[i])
    requires CopyAt(ss[i].threads[acts[i].t].pc) == None
    ensures var pc := ss[i].threads[acts[i].t].pc;
      && Configures(ss[i + 1].w.tab, pc.provenance, pc.outcome.value)
      && IsOfLastBegin(acts, acts[i].t, i, pc)
  {
    RunKeepsWellMade(ss, acts, i);
    DoneIsConfigured(ss[i].w.tab, ss[i].threads[acts[i].t].pc);
    ReturnedIsOfItsCall(ss, acts, i);
    assert Goes(ss, acts, i);
    NoCallMovesNothing(ss[i], acts[i], ss[i + 1]);
  }

  lemma DoneIsConfigured(t: Tables, pc: Pc)
    requires Valid(t) && WellMade(t, pc) && pc.Done? && pc.outcome.Ok? && CopyAt(pc) == None
    ensures Configures(t, pc.provenance, pc.outcome.value)
  {
    OnlySharer(t, pc.outcome.value.fd);
  }

  lemma OnlySharer(t: Tables, fd: Fd)
    requires Valid(t) && fd in t.fds && FileOf(t, fd).refs == 1
    ensures Sharers(t, t.fds[fd].file) == {fd}
  {
    var sharers := Sharers(t, t.fds[fd].file);
    assert fd in sharers;
    assert |sharers - {fd}| == 0;
  }

  // ---------------------------------------------------------------- The calls of a run

  /** The call an action makes, whoever makes it. */
  function CallOf(s: State, a: Action): Option<(Call, Ret)> {
    match a
    case Answer(t, ret) =>
      if t in s.threads && Wants(s.threads[t].pc).Some? then Some((Wants(s.threads[t].pc).value, ret)) else None
    case Use(_, c, ret) => Some((c, ret))
    case Foreign(c, ret) => Some((c, ret))
    case _ => None
  }

  lemma CallsAreEffects(s: State, a: Action, s': State)
    requires Valid(s.w.tab) && Next(s, a, s') && CallOf(s, a).Some?
    ensures Effect(s.w.tab, CallOf(s, a).value.0, CallOf(s, a).value.1, s'.w.tab)
  {
  }

  lemma NoCallMovesNothing(s: State, a: Action, s': State)
    requires Valid(s.w.tab) && Next(s, a, s') && CallOf(s, a) == None
    ensures s'.w == s.w
  {
  }
}
