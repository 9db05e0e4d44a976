/** Runs that show the bounds of module Runs to be attained. */
module Witnesses {
  import opened Base
  import opened Kernel
  import opened Program
  import opened Concurrency
  import opened Runs

  ghost predicate RunTo(ss: seq<State>, acts: seq<Action>, s: State, probes: nat) {
    Run(ss, acts) && ss[|acts|] == s && |FailedProbes(ss, acts)| == probes
  }

  /** Some run ends in `s` after `probes` rejected probes. */
  ghost predicate Reaches(s: State, probes: nat) {
    exists ss, acts :: RunTo(ss, acts, s, probes)
  }

  predicate Rejects(s: State, a: Action) {
    a.Answer? && FailedProbe(s, a, a.t)
  }

  lemma ReachesInit(s: State)
    requires Init(s)
    ensures Reaches(s, 0)
  {
    assert FailedProbes([s], []) == {};
    assert RunTo([s], [], s, 0);
  }

  lemma RunExtended(ss: seq<State>, acts: seq<Action>, a: Action, s': State)
    requires Run(ss, acts) && Valid(ss[|acts|].w.tab) && Next(ss[|acts|], a, s')
    ensures Run(ss + [s'], acts + [a])
  {
    var ss', acts' := ss + [s'], acts + [a];
    forall i: nat | i < |acts'|
      ensures Goes(ss', acts', i)
    {
      if i < |acts| {
        assert Goes(ss, acts, i);
      }
    }
  }

  lemma ProbesExtended(ss: seq<State>, acts: seq<Action>, a: Action, s': State)
    requires |ss| == |acts| + 1
    ensures FailedProbes(ss + [s'], acts + [a]) ==
      FailedProbes(ss, acts) + if Rejects(ss[|acts|], a) then {|acts|} else {}
  {
  }

  lemma OneMoreAction(ss: seq<State>, acts: seq<Action>, s: State, probes: nat, a: Action, s': State)
    requires RunTo(ss, acts, s, probes) && Valid(s.w.tab) && Next(s, a, s')
    ensures RunTo(ss + [s'], acts + [a], s', probes + if Rejects(s, a) then 1 else 0)
  {
    RunExtended(ss, acts, a, s');
    ProbesExtended(ss, acts, a, s');
  }

  lemma Extend(s: State, probes: nat, a: Action, s': State)
    requires Reaches(s, probes) && Valid(s.w.tab) && Next(s, a, s')
    ensures Reaches(s', probes + if Rejects(s, a) then 1 else 0)
  {
    var ss, acts :| RunTo(ss, acts, s, probes);
    OneMoreAction(ss, acts, s, probes, a, s');
  }

  // ---------------------------------------------------------------- States on the way

  const FD: Fd := 3
  const GOAL := ToConnect(L2CAP, [0, 0, 0, 0, 0, 0])
  const EMPTY := World(Tables(map[], map[]), 0, 0)

  /** One descriptor, in state `state`. */
  function One(cloexec: bool, state: SocketState): World {
    World(Tables(map[FD := Descriptor(0, cloexec)], map[0 := NewFile(L2cap, state)]), 0, 0)
  }

  lemma OneIsValid(cloexec: bool, state: SocketState)
    ensures Valid(One(cloexec, state).tab)
  {
    var t := One(cloexec, state).tab;
    assert Sharers(t, 0) == {FD};
  }

  /** A process with these threads, none of which has seen the flag. */
  function At(w: World, threads: map<Tid, Thread>, live: map<Place, Fd>): State {
    State(w, map[0 := true], threads, live, {}, {})
  }

  function Only(pc: Pc): map<Tid, Thread> {
    map[0 := Thread(pc, 0)]
  }

  /** A process whose only thread is at `pc`. */
  function Alone(w: World, pc: Pc, live: map<Place, Fd>): State {
    At(w, Only(pc), live)
  }

  /** The call of a thread at `pc` can be answered by `ret`, leaking nothing, and takes it to `pc'`. */
  predicate Moves(w: World, pc: Pc, ret: Ret, w': World, pc': Pc) {
    && Valid(w.tab)
    && Wants(pc).Some?
    && Step(w, Wants(pc).value, ret, w')
    && pc' == Resume(pc, ret)
    && !Leaks(pc, ret)
    && !pc.Probing?
  }

  lemma ResumedAlone(w: World, pc: Pc, live: map<Place, Fd>, ret: Ret, w': World, pc': Pc)
    requires Wants(pc).Some? && pc' == Resume(pc, ret) && !Leaks(pc, ret)
    ensures Resumed(Alone(w, pc, live), 0, ret, w') == Alone(w', pc', Owning(live, 0, pc'))
  {
    var s: State := Alone(w, pc, live);
    assert s.threads[0 := s.threads[0].(pc := pc')] == Only(pc');
    assert s.leaked + LeakedBy(pc, ret) == s.leaked;
  }

  lemma AnswerIsNext(w: World, pc: Pc, live: map<Place, Fd>, ret: Ret, w': World, pc': Pc)
    requires Moves(w, pc, ret, w', pc')
    ensures Next(Alone(w, pc, live), Answer(0, ret), Alone(w', pc', Owning(live, 0, pc')))
  {
    ResumedAlone(w, pc, live, ret, w', pc');
  }

  /** One more answered call of the only thread. */
  lemma AnswerReaches(w: World, pc: Pc, live: map<Place, Fd>, ret: Ret, w': World, pc': Pc)
    requires Reaches(Alone(w, pc, live), 0) && Moves(w, pc, ret, w', pc')
    ensures Reaches(Alone(w', pc', Owning(live, 0, pc')), 0)
  {
    AnswerIsNext(w, pc, live, ret, w', pc');
    Extend(Alone(w, pc, live), 0, Answer(0, ret), Alone(w', pc', Owning(live, 0, pc')));
  }

  /** A call of the only thread, which owns nothing before and after it. */
  lemma IdleAnswerReaches(pc: Pc, ret: Ret, pc': Pc)
    requires Reaches(Alone(EMPTY, pc, map[]), 0) && Moves(EMPTY, pc, ret, EMPTY, pc') && Local(pc') == None
    ensures Reaches(Alone(EMPTY, pc', map[]), 0)
  {
    AnswerReaches(EMPTY, pc, map[], ret, EMPTY, pc');
    assert Owning(map[], 0, pc') == map[];
  }

  /** The call of the only thread that gives it the descriptor. */
  lemma OpeningReaches(pc: Pc, w': World, pc': Pc)
    requires Reaches(Alone(EMPTY, pc, map[]), 0) && Moves(EMPTY, pc, Returned(FD, Nothing), w', pc')
    requires Local(pc') == Some(FD)
    ensures Reaches(Alone(w', pc', map[InCall(0) := FD]), 0)
  {
    AnswerReaches(EMPTY, pc, map[], Returned(FD, Nothing), w', pc');
    assert Owning(map[], 0, pc') == map[InCall(0) := FD];
  }

  lemma IdleAtFirst()
    ensures Reaches(Alone(EMPTY, Idle, map[]), 0)
  {
    ReachesInit(Alone(EMPTY, Idle, map[]));
  }

  lemma BeginIsNext(start: Pc)
    requires start == ModernSocket(GOAL) || start == Discovering(Routing)
    ensures Next(Alone(EMPTY, Idle, map[]), Begin(0, start), Alone(EMPTY, start, map[]))
  {
    assert Only(Idle)[0 := Thread(start, 0)] == Only(start);
  }

  lemma BeginReaches(start: Pc)
    requires start == ModernSocket(GOAL) || start == Discovering(Routing)
    ensures Reaches(Alone(EMPTY, start, map[]), 0)
  {
    IdleAtFirst();
    BeginIsNext(start);
    Extend(Alone(EMPTY, Idle, map[]), 0, Begin(0, start), Alone(EMPTY, start, map[]));
  }

  lemma ModernMoves()
    ensures Moves(EMPTY, ModernSocket(GOAL), Returned(FD, Nothing), One(true, Fresh), TryingConnect(FD, GOAL))
  {
  }

  lemma RefusalMoves()
    ensures Moves(EMPTY, ModernSocket(GOAL), Failed(EINVAL), EMPTY, PlainSocket(GOAL))
  {
  }

  lemma PlainMoves()
    ensures Moves(EMPTY, PlainSocket(GOAL), Returned(FD, Nothing), One(false, Fresh), Marking(FD, New(GOAL)))
  {
  }

  /** The first kernel path opens the descriptor at once. */
  lemma OpenModern()
    ensures Reaches(Alone(One(true, Fresh), TryingConnect(FD, GOAL), map[InCall(0) := FD]), 0)
  {
    BeginReaches(ModernSocket(GOAL));
    ModernMoves();
    OpeningReaches(ModernSocket(GOAL), One(true, Fresh), TryingConnect(FD, GOAL));
  }

  lemma ModernIsRefused()
    ensures Reaches(Alone(EMPTY, PlainSocket(GOAL), map[]), 0)
  {
    BeginReaches(ModernSocket(GOAL));
    RefusalMoves();
    IdleAnswerReaches(ModernSocket(GOAL), Failed(EINVAL), PlainSocket(GOAL));
  }

  /** The older path opens it unmarked. */
  lemma OpenPlain()
    ensures Reaches(Alone(One(false, Fresh), Marking(FD, New(GOAL)), map[InCall(0) := FD]), 0)
  {
    ModernIsRefused();
    PlainMoves();
    OpeningReaches(PlainSocket(GOAL), One(false, Fresh), Marking(FD, New(GOAL)));
  }

  /** The run ends with a descriptor that the crate owns open without close-on-exec, in the hands of thread `t`. */
  ghost predicate ShowsWindow(ss: seq<State>, acts: seq<Action>, t: Tid, fd: Fd) {
    && Run(ss, acts)
    && var last: State := ss[|acts|];
    && t in last.threads && Local(last.threads[t].pc) == Some(fd)
    && fd in last.Open() && !last.Open()[fd].cloexec && fd !in last.foreign && fd !in last.leaked
  }

  /** The window is real. */
  lemma WindowIsReal()
    ensures exists ss, acts, t, fd :: ShowsWindow(ss, acts, t, fd)
  {
    OpenPlain();
    var s := Alone(One(false, Fresh), Marking(FD, New(GOAL)), map[InCall(0) := FD]);
    var ss, acts :| RunTo(ss, acts, s, 0);
    assert ShowsWindow(ss, acts, 0, FD);
  }

  // ---------------------------------------------------------------- A discovery that leaks

  lemma RouteMoves()
    ensures Moves(EMPTY, Discovering(Routing), Returned(0, Nothing), EMPTY, Discovering(OpeningAdapter(0)))
  {
  }

  lemma FindRoute()
    ensures Reaches(Alone(EMPTY, Discovering(OpeningAdapter(0)), map[]), 0)
  {
    BeginReaches(Discovering(Routing));
    RouteMoves();
    IdleAnswerReaches(Discovering(Routing), Returned(0, Nothing), Discovering(OpeningAdapter(0)));
  }

  /** The adapter's descriptor is open. */
  const ADAPTER := World(Tables(map[FD := Descriptor(0, true)], map[0 := NewFile(RawHci, Fresh)]), 0, 0)

  lemma AdapterIsValid()
    ensures Valid(ADAPTER.tab)
  {
    assert Sharers(ADAPTER.tab, 0) == {FD};
  }

  lemma AdapterMoves()
    ensures Moves(EMPTY, Discovering(OpeningAdapter(0)), Returned(FD, Nothing), ADAPTER, Discovering(Inquiring(0, FD)))
  {
  }

  lemma OpenAdapter()
    ensures Reaches(Alone(ADAPTER, Discovering(Inquiring(0, FD)), map[InCall(0) := FD]), 0)
  {
    FindRoute();
    AdapterMoves();
    OpeningReaches(Discovering(OpeningAdapter(0)), ADAPTER, Discovering(Inquiring(0, FD)));
  }

  /** The discovery is over, and the adapter's descriptor is nobody's. */
  function Leaky(): State {
    Alone(ADAPTER, Discovering(Finished(Err(Os(EINVAL)))), map[]).(leaked := {FD})
  }

  lemma InquiryStep()
    ensures Valid(ADAPTER.tab)
    ensures Step(ADAPTER, HciInquiry(0, INQUIRY_CAPACITY), Failed(EINVAL), ADAPTER)
  {
    AdapterIsValid();
  }

  lemma InquiryLeaks()
    ensures Resumed(Alone(ADAPTER, Discovering(Inquiring(0, FD)), map[InCall(0) := FD]), 0, Failed(EINVAL), ADAPTER) ==
      Leaky()
  {
    assert map[InCall(0) := FD] - {InCall(0)} == map[];
    assert Only(Discovering(Inquiring(0, FD)))[0 := Thread(Discovering(Finished(Err(Os(EINVAL)))), 0)] ==
      Only(Discovering(Finished(Err(Os(EINVAL)))));
  }

  lemma InquiryIsNext()
    ensures Valid(ADAPTER.tab)
    ensures Next(Alone(ADAPTER, Discovering(Inquiring(0, FD)), map[InCall(0) := FD]), Answer(0, Failed(EINVAL)),
                 Leaky())
  {
    InquiryStep();
    InquiryLeaks();
  }

  lemma InquiryFails()
    ensures Reaches(Leaky(), 0)
  {
    OpenAdapter();
    InquiryIsNext();
    Extend(Alone(ADAPTER, Discovering(Inquiring(0, FD)), map[InCall(0) := FD]), 0, Answer(0, Failed(EINVAL)), Leaky());
  }

  /** A run in which a discovery is over and its adapter's descriptor is open, owned by nobody. */
  ghost predicate ShowsLeak(ss: seq<State>, acts: seq<Action>, t: Tid, fd: Fd) {
    && Run(ss, acts)
    && var last: State := ss[|acts|];
    && t in last.threads && EndsEmpty(last.threads[t].pc)
    && fd in last.leaked && fd in last.Open() && fd !in last.live.Values && fd !in last.foreign
  }

  /** The leak is real. */
  lemma LeakIsReal()
    ensures exists ss, acts, t, fd :: ShowsLeak(ss, acts, t, fd)
  {
    InquiryFails();
    var ss, acts :| RunTo(ss, acts, Leaky(), 0);
    assert ShowsLeak(ss, acts, 0, FD);
  }

  // ---------------------------------------------------------------- A probe rejected for every thread

  const DONE := Done(Ok(Made(FD, None)), Some(New(GOAL)))

  lemma ConnectMoves()
    ensures Moves(One(true, Fresh), TryingConnect(FD, GOAL), Returned(0, Nothing), One(true, Connected(GOAL.addr)),
                  DONE)
  {
    OneIsValid(true, Fresh);
  }

  lemma ConnectIt()
    ensures Reaches(Alone(One(true, Connected(GOAL.addr)), DONE, map[InCall(0) := FD]), 0)
  {
    OpenModern();
    ConnectMoves();
    AnswerReaches(One(true, Fresh), TryingConnect(FD, GOAL), map[InCall(0) := FD], Returned(0, Nothing),
                  One(true, Connected(GOAL.addr)), DONE);
    DoneKeepsIt();
  }

  lemma DoneKeepsIt()
    ensures Owning(map[InCall(0) := FD], 0, DONE) == map[InCall(0) := FD]
  {
  }

  lemma HandingOutIsNext(w: World)
    requires Valid(w.tab)
    ensures Next(Alone(w, DONE, map[InCall(0) := FD]), Return(0, 0), Alone(w, Idle, map[Handle(0) := FD]))
  {
    var s, s' := Alone(w, DONE, map[InCall(0) := FD]), Alone(w, Idle, map[Handle(0) := FD]);
    assert Only(DONE)[0 := Thread(Idle, 0)] == Only(Idle);
    assert (s.live - {InCall(0)})[Handle(0) := FD] == s'.live;
    assert Returns(s, 0, 0, s');
  }

  /** The user has the connected socket, and thread 0 is idle again. */
  lemma HandOut()
    ensures Reaches(Alone(One(true, Connected(GOAL.addr)), Idle, map[Handle(0) := FD]), 0)
  {
    var w := One(true, Connected(GOAL.addr));
    ConnectIt();
    OneIsValid(true, Connected(GOAL.addr));
    HandingOutIsNext(w);
    Extend(Alone(w, DONE, map[InCall(0) := FD]), 0, Return(0, 0), Alone(w, Idle, map[Handle(0) := FD]));
  }

  function Holding(threads: map<Tid, Thread>): State {
    At(One(true, Connected(GOAL.addr)), threads, map[Handle(0) := FD])
  }

  lemma HoldingIsValid(threads: map<Tid, Thread>)
    ensures Valid(Holding(threads).w.tab) && FD in Holding(threads).HandleFds()
  {
    OneIsValid(true, Connected(GOAL.addr));
    assert Holding(threads).live[Handle(0)] == FD;
  }

  lemma BeginOne(threads: map<Tid, Thread>, t: Tid, probes: nat)
    requires t in threads && threads[t] == Thread(Idle, 0) && Reaches(Holding(threads), probes)
    ensures Reaches(Holding(threads[t := Thread(LoadingTry(FD), 0)]), probes)
  {
    var s0, s1 := Holding(threads), Holding(threads[t := Thread(LoadingTry(FD), 0)]);
    HoldingIsValid(threads);
    assert Begins(s0, t, LoadingTry(FD), s1);
    Extend(s0, probes, Begin(t, LoadingTry(FD)), s1);
  }

  lemma LoadOne(threads: map<Tid, Thread>, t: Tid, probes: nat)
    requires t in threads && threads[t] == Thread(LoadingTry(FD), 0) && Reaches(Holding(threads), probes)
    ensures Reaches(Holding(threads[t := Thread(Probing(FD), 0)]), probes)
  {
    var s0, s1 := Holding(threads), Holding(threads[t := Thread(Probing(FD), 0)]);
    HoldingIsValid(threads);
    assert Loads(s0, t, 0, s1);
    Extend(s0, probes, LoadFlag(t, 0), s1);
  }

  lemma RejectionIsNext(threads: map<Tid, Thread>, t: Tid)
    requires t in threads && threads[t] == Thread(Probing(FD), 0) && Valid(Holding(threads).w.tab)
    ensures Next(Holding(threads), Answer(t, Failed(EINVAL)), Holding(threads[t := Thread(StoringTry(FD), 0)]))
  {
    var s := Holding(threads);
    assert Step(s.w, DupFdCloexec(FD), Failed(EINVAL), s.w);
    assert Resumed(s, t, Failed(EINVAL), s.w) == Holding(threads[t := Thread(StoringTry(FD), 0)]);
  }

  lemma ProbeOne(threads: map<Tid, Thread>, t: Tid, probes: nat)
    requires t in threads && threads[t] == Thread(Probing(FD), 0) && Reaches(Holding(threads), probes)
    ensures Reaches(Holding(threads[t := Thread(StoringTry(FD), 0)]), probes + 1)
  {
    HoldingIsValid(threads);
    RejectionIsNext(threads, t);
    Extend(Holding(threads), probes, Answer(t, Failed(EINVAL)), Holding(threads[t := Thread(StoringTry(FD), 0)]));
  }

  /** An idle thread tries to duplicate the handle, reads `true`, and is rejected. */
  lemma RejectOne(threads: map<Tid, Thread>, t: Tid, probes: nat)
    requires t in threads && threads[t] == Thread(Idle, 0) && Reaches(Holding(threads), probes)
    ensures Reaches(Holding(threads[t := Thread(StoringTry(FD), 0)]), probes + 1)
  {
    var loading := threads[t := Thread(LoadingTry(FD), 0)];
    var probing := threads[t := Thread(Probing(FD), 0)];
    BeginOne(threads, t, probes);
    LoadOne(loading, t, probes);
    assert loading[t := Thread(Probing(FD), 0)] == probing;
    ProbeOne(probing, t, probes);
    assert probing[t := Thread(StoringTry(FD), 0)] == threads[t := Thread(StoringTry(FD), 0)];
  }

  lemma SpawnOne(threads: map<Tid, Thread>, t: Tid, probes: nat)
    requires t !in threads && Reaches(Holding(threads), probes)
    ensures Reaches(Holding(threads[t := Thread(Idle, 0)]), probes)
  {
    OneIsValid(true, Connected(GOAL.addr));
    Extend(Holding(threads), probes, Spawn(t), Holding(threads[t := Thread(Idle, 0)]));
  }

  function Rejected(n: nat): map<Tid, Thread> {
    if n == 0 then map[] else Rejected(n - 1)[n - 1 := Thread(StoringTry(FD), 0)]
  }

  lemma MapGrows(m: map<Tid, Thread>, t: Tid, th: Thread)
    requires t !in m
    ensures |m[t := th]| == |m| + 1
  {
    assert m[t := th].Keys == m.Keys + {t};
  }

  lemma {:induction false} RejectedKeys(n: nat)
    ensures forall t: Tid :: t in Rejected(n) <==> t < n
    ensures |Rejected(n)| == n
  {
    if n > 0 {
      RejectedKeys(n - 1);
      MapGrows(Rejected(n - 1), n - 1, Thread(StoringTry(FD), 0));
    }
  }

  lemma FirstRejected()
    ensures Reaches(Holding(Rejected(1)), 1)
  {
    HandOut();
    RejectOne(Only(Idle), 0, 0);
    assert Rejected(0) == map[];
    assert Only(Idle)[0 := Thread(StoringTry(FD), 0)] == Rejected(1);
  }

  lemma Overwrite(m: map<Tid, Thread>, t: Tid, a: Thread, b: Thread)
    ensures m[t := a][t := b] == m[t := b]
  {
  }

  lemma OneMoreRejected(n: nat)
    requires Reaches(Holding(Rejected(n)), n)
    ensures Reaches(Holding(Rejected(n + 1)), n + 1)
  {
    RejectedKeys(n);
    SpawnOne(Rejected(n), n, n);
    var spawned := Rejected(n)[n := Thread(Idle, 0)];
    RejectOne(spawned, n, n);
    Overwrite(Rejected(n), n, Thread(Idle, 0), Thread(StoringTry(FD), 0));
  }

  lemma {:induction false} AllRejected(n: nat)
    requires n > 0
    ensures Reaches(Holding(Rejected(n)), n)
  {
    if n == 1 {
      FirstRejected();
    } else {
      AllRejected(n - 1);
      OneMoreRejected(n - 1);
    }
  }

  /** A run of `n` threads with `n` rejected probes. */
  ghost predicate RejectsEach(ss: seq<State>, acts: seq<Action>, n: nat) {
    Run(ss, acts) && |ss[|acts|].threads| == n && |FailedProbes(ss, acts)| == n
  }

  /** The bound on rejected probes is attained by every number of threads: each can be rejected once, because a relaxed
      load may still read the initial `true` while others know better. */
  lemma ProbeBoundIsAttained(n: nat)
    ensures exists ss, acts :: RejectsEach(ss, acts, n)
  {
    if n == 0 {
      var s := At(EMPTY, map[], map[]);
      ReachesInit(s);
      var ss, acts :| RunTo(ss, acts, s, 0);
      assert RejectsEach(ss, acts, 0);
    } else {
      AllRejected(n);
      RejectedKeys(n);
      var ss, acts :| RunTo(ss, acts, Holding(Rejected(n)), n);
      assert RejectsEach(ss, acts, n);
    }
  }
}
