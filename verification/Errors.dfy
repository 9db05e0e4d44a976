/** What calls return in whole runs: every error is that of the thread's own call that failed. */
module Errors {
  import opened Base
  import opened Durations
  import opened Kernel
  import opened Program
  import opened Concurrency
  import opened Configured
  import opened Runs
  import opened Results
  import opened TimedRuns

  /** The error that a thread at `pc` returns, at once or after closing its descriptor. */
  function ErrorAt(pc: Pc): Option<Error> {
    match pc
    case Discarding(_, error, _) => Some(error)
    case Done(Err(error), _) => Some(error)
    case Discovering(Finished(Err(error))) => Some(error)
    case _ => None
  }

  // ---------------------------------------------------------------- Why a call fails

  /** In a timed connect: a call other than `connect` fails; the mode is restored after a `connect` that failed, or that
      is in progress while the timeout is zero; SO_ERROR is read after a hang-up. */
  predicate TimedAnswerMeans(goal: Goal, at: TimedStage, ret: Ret, error: Error) {
    match ret
    case Failed(n) => !at.Trying? && !(at.Polling? && n == EINTR) && error == Os(n)
    case Returned(_, out) =>
      match at
      case Leaving(Failed(n)) =>
        if n != EINPROGRESS then error == Os(n)
        else goal.ToConnectTimed? && goal.timeout == RawDuration(0, 0) && error == InvalidInput
      case AskingError =>
        (out == Code(0) ==> error == Other) && (out.Code? && out.errno != 0 ==> error == Os(out.errno))
      case _ => false
  }

  /** The answer `ret` to the call that a thread makes at `pc` means that it returns `error`. */
  predicate AnswerMeans(pc: Pc, ret: Ret, error: Error) {
    match pc
    case ConnectingTimed(_, goal, at) => TimedAnswerMeans(goal, at, ret, error)
    case Discarding(_, _, _) | Dropping(_) => false
    case _ => ret.Failed? && error == Os(ret.errno)
  }

  /** The reading `now` of the clock means that a timed connect at `pc` has timed out. */
  predicate ReadingMeans(pc: Pc, now: nat, error: Error) {
    && error == TimedOut
    && pc.ConnectingTimed?
    && pc.at.Checking?
    && pc.goal.ToConnectTimed?
    && pc.at.begun + Nanos(pc.goal.timeout) <= now
  }

  /** Action `a` of thread `t` is why its call returns `error`. */
  predicate Causes(s: State, a: Action, t: Tid, error: Error) {
    && t in s.threads
    && ((a.Answer? && a.t == t && AnswerMeans(s.threads[t].pc, a.ret, error)) ||
        (a == ReadClock(t) && ReadingMeans(s.threads[t].pc, s.w.clock, error)))
  }

  /** Thread `t` only learns what became of a `close`. */
  predicate OnlyCloses(s: State, a: Action, t: Tid) {
    && a.Answer?
    && a.t == t
    && t in s.threads
    && Wants(s.threads[t].pc).Some?
    && Wants(s.threads[t].pc).value.Close?
  }

  /** Action `m` is why thread `t` returns `error`, and until state `i` it has done nothing since but close. */
  ghost predicate IsWhy(ss: seq<State>, acts: seq<Action>, t: Tid, m: nat, i: nat, error: Error) {
    && m < i <= |acts| < |ss|
    && Causes(ss[m], acts[m], t, error)
    && forall j: nat | m < j < i && Actor(acts[j]) == Some(t) :: OnlyCloses(ss[j], acts[j], t)
  }

  // ---------------------------------------------------------------- One action

  lemma TimedAnswerTells(fd: Fd, goal: Goal, at: TimedStage, ret: Ret)
    requires TimedWants(fd, goal, at).Some? && ErrorAt(TimedAfter(fd, goal, at, ret)).Some?
    requires goal.ToConnectTimed?
    ensures TimedAnswerMeans(goal, at, ret, ErrorAt(TimedAfter(fd, goal, at, ret)).value)
  {
  }

  lemma AnswerTells(pc: Pc, ret: Ret)
    requires Wants(pc).Some? && ErrorAt(Resume(pc, ret)).Some?
    requires pc.ConnectingTimed? ==> pc.goal.ToConnectTimed?
    ensures if pc.Discarding? then ErrorAt(pc) == ErrorAt(Resume(pc, ret))
      else AnswerMeans(pc, ret, ErrorAt(Resume(pc, ret)).value)
  {
    if pc.ConnectingTimed? {
      TimedAnswerTells(pc.fd, pc.goal, pc.at, ret);
    }
  }

  lemma ReadingTellsError(pc: Pc, now: nat)
    requires pc.ConnectingTimed? && (pc.at.Starting? || pc.at.Checking?) && ErrorAt(OnClock(pc, now)).Some?
    requires pc.goal.ToConnectTimed? && TimedRuns.Timed(pc, now)
    ensures ReadingMeans(pc, now, ErrorAt(OnClock(pc, now)).value)
  {
  }

  /** Without a system call only a reading of the clock leads to an error. */
  lemma QuietTellsError(s: State, a: Action, s': State, t: Tid)
    requires Quiet(s, a, s') && Actor(a) == Some(t) && t in s'.threads && ErrorAt(s'.threads[t].pc).Some?
    requires t in s.threads ==> TimedRuns.Timed(s.threads[t].pc, s.w.clock)
    requires t in s.threads && s.threads[t].pc.ConnectingTimed? ==> s.threads[t].pc.goal.ToConnectTimed?
    ensures Causes(s, a, t, ErrorAt(s'.threads[t].pc).value)
  {
    if a.ReadClock? {
      ReadingTellsError(s.threads[t].pc, s.w.clock);
    }
  }

  lemma ActorTellsError(s: State, a: Action, s': State, t: Tid)
    requires Valid(s.w.tab) && Next(s, a, s') && Actor(a) == Some(t)
    requires t in s'.threads && ErrorAt(s'.threads[t].pc).Some?
    requires t in s.threads ==> TimedRuns.Timed(s.threads[t].pc, s.w.clock)
    requires t in s.threads && s.threads[t].pc.ConnectingTimed? ==> s.threads[t].pc.goal.ToConnectTimed?
    ensures Causes(s, a, t, ErrorAt(s'.threads[t].pc).value) ||
      (OnlyCloses(s, a, t) && ErrorAt(s.threads[t].pc) == ErrorAt(s'.threads[t].pc))
  {
    if a.Answer? {
      AnswerTells(s.threads[t].pc, a.ret);
    } else {
      OthersAreQuiet(s, a, s');
      QuietTellsError(s, a, s', t);
    }
  }

  // ---------------------------------------------------------------- Over runs

  lemma TimedConnectHasTimeout(tab: Tables, pc: Pc)
    requires Valid(tab) && WellMade(tab, pc) && pc.ConnectingTimed?
    ensures pc.goal.ToConnectTimed?
  {
  }

  lemma StepTellsError(ss: seq<State>, acts: seq<Action>, i: nat, t: Tid)
    requires Run(ss, acts) && i < |acts| && Actor(acts[i]) == Some(t)
    requires t in ss[i + 1].threads && ErrorAt(ss[i + 1].threads[t].pc).Some?
    ensures Causes(ss[i], acts[i], t, ErrorAt(ss[i + 1].threads[t].pc).value) ||
      (OnlyCloses(ss[i], acts[i], t) && ErrorAt(ss[i].threads[t].pc) == ErrorAt(ss[i + 1].threads[t].pc))
  {
    RunKeepsWellMade(ss, acts, i);
    RunKeepsTimed(ss, acts, i);
    assert Goes(ss, acts, i);
    if t in ss[i].threads && ss[i].threads[t].pc.ConnectingTimed? {
      TimedConnectHasTimeout(ss[i].w.tab, ss[i].threads[t].pc);
    }
    ActorTellsError(ss[i], acts[i], ss[i + 1], t);
  }

  lemma IsWhyLater(ss: seq<State>, acts: seq<Action>, t: Tid, m: nat, i: nat, error: Error)
    requires IsWhy(ss, acts, t, m, i, error) && i < |acts|
    requires Actor(acts[i]) == Some(t) ==> OnlyCloses(ss[i], acts[i], t)
    ensures IsWhy(ss, acts, t, m, i + 1, error)
  {
  }

  lemma {:induction false} ErrorHasACause(ss: seq<State>, acts: seq<Action>, i: nat, t: Tid) returns (m: nat)
    requires Run(ss, acts) && i < |ss| && t in ss[i].threads && ErrorAt(ss[i].threads[t].pc).Some?
    ensures IsWhy(ss, acts, t, m, i, ErrorAt(ss[i].threads[t].pc).value)
    decreases i
  {
    if i > 0 {
      var before: nat := i - 1;
      assert Goes(ss, acts, before);
      var error := ErrorAt(ss[i].threads[t].pc).value;
      if Actor(acts[before]) == Some(t) {
        StepTellsError(ss, acts, before, t);
        if Causes(ss[before], acts[before], t, error) {
          m := before;
        } else {
          m := ErrorHasACause(ss, acts, before, t);
          IsWhyLater(ss, acts, t, m, before, error);
        }
      } else {
        OthersStay(ss[before], acts[before], ss[i], t);
        m := ErrorHasACause(ss, acts, before, t);
        IsWhyLater(ss, acts, t, m, before, error);
      }
    }
  }

  /** Action `a` returns `error` from a call, or from a discovery. */
  predicate ReturnsError(s: State, a: Action, error: Error) {
    && a.Return?
    && a.t in s.threads
    && match s.threads[a.t].pc
       case Done(outcome, _) => outcome == Err(error)
       case Discovering(Finished(result)) => result == Err(error)
       case _ => false
  }

  /** In every interleaving the error that a call returns is the one that the last call of its thread failed with, a
      `close` on the way out not counted.  Only a timed connect has others: the one that SO_ERROR names after a hang-up,
      or that it names none; the one of its `connect`; a zero timeout while that is in progress; and a clock read when
      the timeout had passed. */
  lemma ErrorIsOfItsOwnCall(ss: seq<State>, acts: seq<Action>, i: nat, error: Error)
    requires Run(ss, acts) && i < |acts| && ReturnsError(ss[i], acts[i], error)
    ensures exists m: nat :: IsWhy(ss, acts, acts[i].t, m, i, error)
  {
    var m := ErrorHasACause(ss, acts, i, acts[i].t);
    assert IsWhy(ss, acts, acts[i].t, m, i, error);
  }

  // ---------------------------------------------------------------- The answer of `connect` in a timed connect

  /** Action `k` is the last action of thread `t` before state `i`, and it is the answer `ret` to its `connect`. */
  ghost predicate LastAnswer(ss: seq<State>, acts: seq<Action>, t: Tid, k: nat, i: nat, ret: Ret) {
    && k < i <= |acts| < |ss|
    && acts[k] == Answer(t, ret)
    && t in ss[k].threads
    && ss[k].threads[t].pc.ConnectingTimed?
    && ss[k].threads[t].pc.at.Trying?
    && forall m: nat | k < m < i :: Actor(acts[m]) != Some(t)
  }

  /** Thread `t` restores the mode after its `connect` was answered `ret`. */
  predicate GoesBack(s: State, t: Tid, ret: Ret) {
    t in s.threads && s.threads[t].pc.ConnectingTimed? && s.threads[t].pc.at == Leaving(ret)
  }

  lemma OnlyTryingLeadsBack(pc: Pc, r: Ret, ret: Ret)
    requires Wants(pc).Some? && Resume(pc, r).ConnectingTimed? && Resume(pc, r).at == Leaving(ret)
    ensures pc.ConnectingTimed? && pc.at.Trying? && r == ret
  {
  }

  lemma QuietLeadsNotBack(s: State, a: Action, s': State, t: Tid, ret: Ret)
    requires Quiet(s, a, s') && Actor(a) == Some(t)
    ensures !GoesBack(s', t, ret)
  {
  }

  lemma OnlyConnectLeadsBack(s: State, a: Action, s': State, t: Tid, ret: Ret)
    requires Valid(s.w.tab) && Next(s, a, s') && Actor(a) == Some(t) && GoesBack(s', t, ret)
    ensures t in s.threads && s.threads[t].pc.ConnectingTimed? && s.threads[t].pc.at.Trying?
    ensures a == Answer(t, ret)
  {
    if a.Answer? {
      OnlyTryingLeadsBack(s.threads[t].pc, a.ret, ret);
    } else {
      OthersAreQuiet(s, a, s');
      QuietLeadsNotBack(s, a, s', t, ret);
    }
  }

  lemma StepGoesBack(ss: seq<State>, acts: seq<Action>, i: nat, t: Tid, ret: Ret)
    requires Run(ss, acts) && i < |acts| && GoesBack(ss[i + 1], t, ret)
    ensures if Actor(acts[i]) == Some(t) then LastAnswer(ss, acts, t, i, i + 1, ret) else GoesBack(ss[i], t, ret)
  {
    assert Goes(ss, acts, i);
    if Actor(acts[i]) == Some(t) {
      OnlyConnectLeadsBack(ss[i], acts[i], ss[i + 1], t, ret);
    } else {
      OthersStay(ss[i], acts[i], ss[i + 1], t);
    }
  }

  lemma LastAnswerLater(ss: seq<State>, acts: seq<Action>, t: Tid, k: nat, i: nat, ret: Ret)
    requires LastAnswer(ss, acts, t, k, i, ret) && i < |acts| && Actor(acts[i]) != Some(t)
    ensures LastAnswer(ss, acts, t, k, i + 1, ret)
  {
  }

  lemma NobodyGoesBackYet(s: State, t: Tid, ret: Ret)
    requires Init(s)
    ensures !GoesBack(s, t, ret)
  {
  }

  /** What a thread remembers of its `connect` while it restores the mode is what its last action was answered. */
  lemma {:induction false} ConnectIsRemembered(ss: seq<State>, acts: seq<Action>, i: nat, t: Tid, ret: Ret)
    returns (k: nat)
    requires Run(ss, acts) && i < |ss| && GoesBack(ss[i], t, ret)
    ensures LastAnswer(ss, acts, t, k, i, ret)
    decreases i
  {
    if i == 0 {
      NobodyGoesBackYet(ss[0], t, ret);
    } else {
      StepGoesBack(ss, acts, i - 1, t, ret);
      if Actor(acts[i - 1]) == Some(t) {
        k := i - 1;
      } else {
        k := ConnectIsRemembered(ss, acts, i - 1, t, ret);
        LastAnswerLater(ss, acts, t, k, i - 1, ret);
      }
    }
  }
}
