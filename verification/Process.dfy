/** One process using the crate from one thread: the kernel's state, the static `TRY_CLOEXEC`, and a ghost
    record of where its current operation stands. */
module Processes {
  import opened Base
  import opened Durations
  import opened Kernel
  import opened Program

  /** A finished operation: where in the program and from which tables it started, the tables it left and what it
      returned. */
  datatype Operation = Operation(start: Pc, before: Tables, after: Tables, outcome: Outcome)

  /** A system call, its answer, and the world it was made and answered in. */
  datatype Event = Event(call: Call, ret: Ret, before: World, after: World)

  predicate Is(e: Event, c: Call, ret: Ret) {
    e.call == c && e.ret == ret
  }

  /** The call `c` was made some time after world `w0` and answered `r`, in world `w`. */
  predicate Called(w0: World, e: Event, c: Call, r: Ret, w: World) {
    && e == Event(c, r, w0.(clock := e.before.clock), w)
    && w0.clock <= e.before.clock <= w.clock
    && (c.Poll? && r.Returned? && r.value == 0 ==> e.before.clock + c.ms * NANOS_PER_MILLI <= w.clock)
  }

  /** The kernel can have answered this way. */
  predicate Explained(e: Event) {
    Valid(e.before.tab) && Step(e.before, e.call, e.ret, e.after)
  }

  function Cvt(r: Ret): Result<Ret> {
    match r
    case Failed(e) => Err(Os(e))
    case Returned(_, _) => Ok(r)
  }

  /** Between the two calls nothing happened but that time passed. */
  predicate Continues(a: Event, b: Event) {
    b.before == a.after.(clock := b.before.clock) && a.after.clock <= b.before.clock
  }

  predicate ExplainedAt(log: seq<Event>, i: int)
    requires 0 <= i < |log|
  {
    Explained(log[i]) && (i > 0 ==> Continues(log[i - 1], log[i]))
  }

  /** These calls can have been made one after the other: each answer is one the kernel may give in the world that the
      answers before it left. */
  ghost predicate KernelRun(log: seq<Event>) {
    forall i | 0 <= i < |log| :: ExplainedAt(log, i)
  }

  /** A run of the kernel that ends, but for the time, in world `w`. */
  ghost predicate KernelRunTo(log: seq<Event>, w: World) {
    && KernelRun(log)
    && (log != [] ==>
        var last := log[|log| - 1].after;
        w == last.(clock := w.clock) && last.clock <= w.clock)
  }

  lemma KernelRunExtended(log: seq<Event>, w: World, e: Event)
    requires KernelRunTo(log, w) && Explained(e) && e.before == w.(clock := e.before.clock) && w.clock <= e.before.clock
    ensures KernelRunTo(log + [e], e.after)
  {
    forall i | 0 <= i < |log + [e]|
      ensures ExplainedAt(log + [e], i)
    {
      if i < |log| {
        assert ExplainedAt(log, i);
      }
    }
  }

  lemma KernelRunSuffix(log: seq<Event>, more: seq<Event>)
    requires KernelRun(log + more)
    ensures KernelRun(more)
  {
    forall i | 0 <= i < |more|
      ensures ExplainedAt(more, i)
    {
      assert ExplainedAt(log + more, |log| + i);
    }
  }

  /** From `before` to `after` call `c` was made any number of times and interrupted each time. */
  ghost predicate Interrupted(before: seq<Event>, after: seq<Event>, c: Call) {
    before <= after && forall i | |before| <= i < |after| :: Is(after[i], c, Failed(EINTR))
  }

  /** From `before` to `after` call `c` was made until it was not interrupted, and the last answer was `ret`. */
  ghost predicate Retried(before: seq<Event>, after: seq<Event>, c: Call, ret: Ret) {
    && |before| < |after|
    && Interrupted(before, after[..|after| - 1], c)
    && Is(after[|after| - 1], c, ret)
    && ret != Failed(EINTR)
  }

  lemma InterruptedAgain(before: seq<Event>, mid: seq<Event>, c: Call, e: Event)
    requires Interrupted(before, mid, c) && Is(e, c, Failed(EINTR))
    ensures Interrupted(before, mid + [e], c)
  {
  }

  lemma AnsweredAtLast(before: seq<Event>, mid: seq<Event>, c: Call, e: Event)
    requires Interrupted(before, mid, c) && Is(e, c, e.ret) && e.ret != Failed(EINTR)
    ensures Retried(before, mid + [e], c, e.ret)
  {
    assert (mid + [e])[..|mid|] == mid;
  }

  /** The one new call of the log is `c`, answered `r`. */
  predicate AskedOnce(before: seq<Event>, after: seq<Event>, c: Call, r: Ret) {
    |after| == |before| + 1 && before <= after && Is(after[|before|], c, r)
  }

  /** Call `k` of the log is no `close`, it failed, `error` is its error, and nothing but `close` was called since. */
  predicate Blames(log: seq<Event>, k: nat, error: Error)
    requires k < |log|
  {
    && !log[k].call.Close?
    && log[k].ret.Failed?
    && error == Os(log[k].ret.errno)
    && forall j | k < j < |log| :: log[j].call.Close?
  }

  /** Of the calls since there were `from`, the last one that is no `close` failed, and `error` is its error. */
  ghost predicate FailedLast(log: seq<Event>, from: nat, error: Error) {
    exists k: nat :: from <= k < |log| && Blames(log, k, error)
  }

  /** The last call itself failed. */
  lemma LastIsToBlame(log: seq<Event>, from: nat, n: int)
    requires from < |log| && !log[|log| - 1].call.Close? && log[|log| - 1].ret == Failed(n)
    ensures FailedLast(log, from, Os(n))
  {
    assert Blames(log, |log| - 1, Os(n));
  }

  /** Closing afterwards hides no failure. */
  lemma StillToBlame(log: seq<Event>, log': seq<Event>, from: nat, error: Error)
    requires FailedLast(log, from, error) && log <= log'
    requires forall j | |log| <= j < |log'| :: log'[j].call.Close?
    ensures FailedLast(log', from, error)
  {
    var k: nat :| from <= k < |log| && Blames(log, k, error);
    assert Blames(log', k, error);
  }

  lemma RetriedFails(before: seq<Event>, after: seq<Event>, c: Call, n: int)
    requires Retried(before, after, c, Failed(n)) && !c.Close?
    ensures FailedLast(after, |before|, Os(n))
  {
    LastIsToBlame(after, |before|, n);
  }

  class Process {
    var w: World
    var tryCloexec: bool

    ghost var pc: Pc
    ghost var start: Pc
    ghost var found: Tables
    ghost var history: seq<Operation>
    ghost var log: seq<Event>

    /** Between two operations: the tables are consistent, and the log is a run of the kernel up to now. */
    ghost predicate Ready()
      reads this
    {
      Valid(w.tab) && pc.Idle? && KernelRunTo(log, w)
    }

    constructor (world: World, flag: bool)
      requires Valid(world.tab)
      ensures Ready() && w == world && tryCloexec == flag && log == [] && history == []
    {
      w, tryCloexec, pc, start, found, history, log := world, flag, Idle, Idle, world.tab, [], [];
    }

    /** A system call, after any delay.  Its answer is the kernel's choice; the ghost `pc` only allows the call that
        the operation in progress makes at this point. */
    method Syscall(c: Call) returns (r: Ret)
      requires Valid(w.tab)
      requires Wants(pc) == Some(c) || (pc.Idle? && Benign(c))
      modifies this`w, this`pc, this`log
      ensures Valid(w.tab) && Step(old(w), c, r, w)
      ensures |log| == |old(log)| + 1 && log == old(log) + [log[|old(log)|]]
      ensures Called(old(w), log[|old(log)|], c, r, w)
      ensures KernelRunTo(old(log), old(w)) ==> KernelRunTo(log, w)
      ensures pc == if Wants(old(pc)) == Some(c) then Resume(old(pc), r) else old(pc)
    {
      var delay: nat :| true;
      ghost var from, asked := pc, w;
      var before := w.(clock := w.clock + delay);
      AnswerExists(before, c);
      var answer, next :| Step(before, c, answer, next);
      EffectKeepsValid(before.tab, c, answer, next.tab);
      w, r := next, answer;
      pc := if Wants(from) == Some(c) then Resume(from, r) else from;
      if KernelRunTo(log, asked) {
        KernelRunExtended(log, asked, Event(c, r, before, w));
      }
      log := log + [Event(c, r, before, w)];
    }

    /** The two ways of copying a descriptor. */
    method Dup(source: Fd, cloexec: bool) returns (r: Ret)
      requires Valid(w.tab) && source in w.tab.fds
      requires pc == if cloexec then Probing(source) else PlainDup(source)
      modifies this`w, this`pc, this`log
      ensures Valid(w.tab)
      ensures r.Returned? ==> DuplicatedTo(old(w.tab), source, r.value, w.tab) && pc == Marking(r.value, CopyOf(source))
      ensures r.Failed? ==> w.tab == old(w.tab) && pc == ResumeFailed(old(pc), r.errno)
      ensures AskedOnce(old(log), log, if cloexec then DupFdCloexec(source) else DupFd(source), r)
      ensures KernelRunTo(old(log), old(w)) ==> KernelRunTo(log, w)
    {
      r := Syscall(if cloexec then DupFdCloexec(source) else DupFd(source));
    }

    /** `socket`. */
    method Create(transport: Transport, cloexec: bool, ghost goal: Goal) returns (r: Ret)
      requires Valid(w.tab) && transport == TransportOf(goal.protocol)
      requires pc == if cloexec then ModernSocket(goal) else PlainSocket(goal)
      modifies this`w, this`pc, this`log
      ensures Valid(w.tab)
      ensures r.Returned? ==>
        && Opened(old(w.tab), r.value, NewFile(transport, Fresh), w.tab)
        && w.tab.fds[r.value].cloexec == cloexec
        && pc == if cloexec then StartOn(goal, r.value) else Marking(r.value, New(goal))
      ensures r.Failed? ==> w.tab == old(w.tab) && pc == ResumeFailed(old(pc), r.errno)
      ensures AskedOnce(old(log), log, Socket(transport, cloexec), r)
      ensures KernelRunTo(old(log), old(w)) ==> KernelRunTo(log, w)
    {
      r := Syscall(Socket(transport, cloexec));
    }

    /** `cvt_r`: retries while the call is interrupted.  The outcome is that of one call never interrupted. */
    method CvtR(c: Call) returns (r: Result<Ret>)
      requires Valid(w.tab)
      requires c.Connect? || c.Accept? || c.Accept4?
      requires Wants(pc) == Some(c) && Resume(pc, Failed(EINTR)) == pc
      modifies this`w, this`pc, this`log
      ensures Valid(w.tab)
      ensures r.Ok? || r.error.Os?
      ensures Retried(old(log), log, c, if r.Ok? then r.value else Failed(r.error.errno))
      ensures r.Ok? ==> r.value.Returned? && Effect(old(w.tab), c, r.value, w.tab) && pc == Resume(old(pc), r.value)
      ensures r.Err? ==>
        Effect(old(w.tab), c, Failed(r.error.errno), w.tab) && pc == Resume(old(pc), Failed(r.error.errno))
      ensures w.clock >= old(w.clock)
      ensures KernelRunTo(old(log), old(w)) ==> KernelRunTo(log, w)
    {
      while true
        invariant KernelRunTo(old(log), old(w)) ==> KernelRunTo(log, w)
        invariant Valid(w.tab) && Failure(old(w.tab), c, EINTR, w.tab) && pc == old(pc) && w.clock >= old(w.clock)
        invariant Interrupted(old(log), log, c)
        decreases w.signals
      {
        ghost var mid, events := w.tab, log;
        var ret := Syscall(c);
        InterruptionIsAbsorbed(old(w.tab), c, mid, ret, w.tab);
        r := Cvt(ret);
        if r != Err(Os(EINTR)) {
          AnsweredAtLast(old(log), events, c, log[|events|]);
          return;
        }
        InterruptedAgain(old(log), events, c, log[|events|]);
      }
    }

    /** `Instant::now`: time passes as it likes before the clock is read. */
    method Now() returns (now: nat)
      modifies this`w, this`pc
      ensures w.tab == old(w.tab) && w.signals == old(w.signals)
      ensures old(w.clock) <= w.clock == now
      ensures pc == OnClock(old(pc), now)
      ensures KernelRunTo(log, old(w)) ==> KernelRunTo(log, w)
    {
      var later: nat :| w.clock <= later;
      w := w.(clock := later);
      now := later;
      pc := OnClock(pc, now);
    }

    method LoadTry() returns (v: bool)
      requires pc.LoadingTry?
      modifies this`pc
      ensures v == tryCloexec
      ensures pc == if v then Probing(old(pc).source) else PlainDup(old(pc).source)
    {
      v := tryCloexec;
      pc := if v then Probing(pc.source) else PlainDup(pc.source);
    }

    method StoreTryFalse()
      requires pc.StoringTry?
      modifies this`pc, this`tryCloexec
      ensures !tryCloexec && pc == PlainDup(old(pc).source)
    {
      tryCloexec := false;
      pc := PlainDup(pc.source);
    }

    ghost method Enter(from: Pc)
      requires pc.Idle?
      modifies this`pc, this`start, this`found
      ensures pc == start == from && found == w.tab
    {
      pc, start, found := from, from, w.tab;
    }

    ghost method Leave()
      requires pc.Done?
      modifies this`pc, this`history
      ensures pc.Idle? && history == old(history) + [Operation(start, found, w.tab, old(pc).outcome)]
    {
      history := history + [Operation(start, found, w.tab, pc.outcome)];
      pc := Idle;
    }

    /** A discovery has returned. */
    ghost method LeaveDiscovery(r: Result<seq<BtAddr>>)
      requires pc == Discovering(Finished(r))
      modifies this`pc
      ensures pc.Idle?
    {
      pc := Idle;
    }
  }
}
