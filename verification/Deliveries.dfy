/** What becomes of the connections that reach a listener, over whole runs: every one that leaves the queue is returned
    with its own peer, or closed, or still in the hands of a call, or went to the rest of the process. */
module Deliveries {
  import opened Base
  import opened Kernel
  import opened Program
  import opened Concurrency
  import opened Runs
  import opened Results

  // ---------------------------------------------------------------- Leaving the queue

  /** The peer that call `c` took from the queue of description `id`. */
  function TakenBy(t: Tables, c: Call, r: Ret, id: FileId): seq<BtAddr> {
    if (c.Accept? || c.Accept4?) && c.fd in t.fds && t.fds[c.fd].file == id && r.Returned?
    then [PeerOf(r.out)] else []
  }

  /** From `f` to `f'` the queue only grew at its end, and `out` was taken from its front. */
  predicate QueueGave(f: OpenFile, out: seq<BtAddr>, f': OpenFile) {
    && f.arrived <= f'.arrived
    && f.taken <= f'.taken <= |f'.arrived|
    && out == f'.arrived[f.taken..f'.taken]
  }

  lemma AcceptedOnQueue(t: Tables, c: Call, r: Ret, t': Tables, id: FileId)
    requires Valid(t) && (c.Accept? || c.Accept4?) && r.Returned? && r.out.Peer?
    requires Accepted(t, c.fd, r.value, r.out.addr, t') && id in t.files && id in t'.files
    ensures QueueGave(t.files[id], TakenBy(t, c, r, id), t'.files[id])
  {
    var f, f' := t.files[id], t'.files[id];
    if t.fds[c.fd].file == id {
      assert f'.arrived[f.taken..f.taken + 1] == [f'.arrived[f.taken]];
    } else {
      assert f'.arrived[f.taken..f.taken] == [];
    }
  }

  lemma AcceptOnQueue(t: Tables, c: Call, r: Ret, t': Tables, id: FileId)
    requires Valid(t) && (c.Accept? || c.Accept4?) && Effect(t, c, r, t') && id in t.files && id in t'.files
    ensures QueueGave(t.files[id], TakenBy(t, c, r, id), t'.files[id])
  {
    if r.Returned? {
      AcceptedOnQueue(t, c, r, t', id);
    } else {
      assert t'.files[id].arrived[t.files[id].taken..t.files[id].taken] == [];
    }
  }

  /** The queue of `id` is as it was. */
  predicate SameQueue(t: Tables, t': Tables, id: FileId)
    requires id in t.files && id in t'.files
  {
    t'.files[id].arrived == t.files[id].arrived && t'.files[id].taken == t.files[id].taken
  }

  lemma BenignOnQueue(t: Tables, c: Call, value: int, out: Out, t': Tables, id: FileId)
    requires Valid(t) && Benign(c) && Success(t, c, value, out, t') && id in t.files && id in t'.files
    ensures SameQueue(t, t', id)
  {
  }

  lemma OthersOnQueue(t: Tables, c: Call, r: Ret, t': Tables, id: FileId)
    requires Valid(t) && !c.Accept? && !c.Accept4? && Effect(t, c, r, t') && id in t.files && id in t'.files
    ensures SameQueue(t, t', id)
  {
    if r.Returned? && Benign(c) {
      BenignOnQueue(t, c, r.value, r.out, t', id);
    }
  }

  lemma SameQueueGaveNothing(f: OpenFile, f': OpenFile)
    requires f.IsQueue() && f'.arrived == f.arrived && f'.taken == f.taken
    ensures QueueGave(f, [], f')
  {
  }

  lemma EffectOnQueue(t: Tables, c: Call, r: Ret, t': Tables, id: FileId)
    requires Valid(t) && Effect(t, c, r, t') && id in t.files && id in t'.files
    ensures QueueGave(t.files[id], TakenBy(t, c, r, id), t'.files[id])
  {
    if c.Accept? || c.Accept4? {
      AcceptOnQueue(t, c, r, t', id);
    } else {
      OthersOnQueue(t, c, r, t', id);
      SameQueueGaveNothing(t.files[id], t'.files[id]);
    }
  }

  /** A connection taken from a queue: by a call of the crate, with the descriptor it got, or by somebody else. */
  datatype Delivery = ToCrate(made: Made) | ToOthers(peer: BtAddr)

  function PeerIn(d: Delivery): BtAddr {
    match d
    case ToCrate(made) => if made.peer.Some? then made.peer.value else PeerOf(Nothing)
    case ToOthers(peer) => peer
  }

  function Peers(ds: seq<Delivery>): seq<BtAddr> {
    seq(|ds|, i requires 0 <= i < |ds| => PeerIn(ds[i]))
  }

  /** The connection, if any, that action `a` takes from the queue of `id`. */
  function DeliveredBy(s: State, a: Action, id: FileId): seq<Delivery> {
    match CallOf(s, a)
    case None => []
    case Some((c, r)) =>
      if TakenBy(s.w.tab, c, r, id) == [] then []
      else [if a.Answer? then ToCrate(Made(r.value, Some(PeerOf(r.out)))) else ToOthers(PeerOf(r.out))]
  }

  /** The connections taken from the queue of `id` by actions `i` to `j`, in order. */
  function Delivered(ss: seq<State>, acts: seq<Action>, id: FileId, i: nat, j: nat): seq<Delivery>
    requires i <= j <= |acts| < |ss|
    decreases j
  {
    if i == j then [] else Delivered(ss, acts, id, i, j - 1) + DeliveredBy(ss[j - 1], acts[j - 1], id)
  }

  lemma CallOnQueue(s: State, a: Action, c: Call, r: Ret, s': State, id: FileId)
    requires Valid(s.w.tab) && Effect(s.w.tab, c, r, s'.w.tab) && CallOf(s, a) == Some((c, r))
    requires id in s.w.tab.files && id in s'.w.tab.files
    ensures QueueGave(s.w.tab.files[id], Peers(DeliveredBy(s, a, id)), s'.w.tab.files[id])
  {
    EffectOnQueue(s.w.tab, c, r, s'.w.tab, id);
    assert Peers(DeliveredBy(s, a, id)) == TakenBy(s.w.tab, c, r, id);
  }

  lemma NoCallOnQueue(s: State, a: Action, s': State, id: FileId)
    requires CallOf(s, a) == None && s'.w == s.w && id in s.w.tab.files && s.w.tab.files[id].IsQueue()
    ensures QueueGave(s.w.tab.files[id], Peers(DeliveredBy(s, a, id)), s'.w.tab.files[id])
  {
    assert Peers(DeliveredBy(s, a, id)) == [];
  }

  lemma NextOnQueue(s: State, a: Action, s': State, id: FileId)
    requires Valid(s.w.tab) && Next(s, a, s') && id in s.w.tab.files && id in s'.w.tab.files
    ensures QueueGave(s.w.tab.files[id], Peers(DeliveredBy(s, a, id)), s'.w.tab.files[id])
  {
    if CallOf(s, a).Some? {
      CallsAreEffects(s, a, s');
      CallOnQueue(s, a, CallOf(s, a).value.0, CallOf(s, a).value.1, s', id);
    } else {
      NoCallMovesNothing(s, a, s');
      NoCallOnQueue(s, a, s', id);
    }
  }

  predicate GaveAt(ss: seq<State>, acts: seq<Action>, k: nat, id: FileId)
    requires k < |acts| < |ss|
  {
    && id in ss[k].w.tab.files
    && id in ss[k + 1].w.tab.files
    && ss[k].w.tab.files[id].IsQueue()
    && QueueGave(ss[k].w.tab.files[id], Peers(DeliveredBy(ss[k], acts[k], id)), ss[k + 1].w.tab.files[id])
  }

  lemma StepOnQueue(ss: seq<State>, acts: seq<Action>, k: nat, id: FileId)
    requires Run(ss, acts) && k < |acts| && id in ss[k].w.tab.files && id in ss[k + 1].w.tab.files
    ensures GaveAt(ss, acts, k, id)
  {
    QueueIsSound(ss, acts, k, id);
    assert Goes(ss, acts, k);
    NextOnQueue(ss[k], acts[k], ss[k + 1], id);
  }

  lemma QueueIsSound(ss: seq<State>, acts: seq<Action>, i: nat, id: FileId)
    requires Run(ss, acts) && i < |ss| && id in ss[i].w.tab.files
    ensures ss[i].w.tab.files[id].IsQueue()
  {
    RunKeepsInv(ss, acts, i);
  }

  lemma GaveTwice(f: OpenFile, a: seq<BtAddr>, mid: OpenFile, b: seq<BtAddr>, f': OpenFile)
    requires f.IsQueue() && QueueGave(f, a, mid) && QueueGave(mid, b, f')
    ensures QueueGave(f, a + b, f')
  {
    assert f'.arrived[f.taken..mid.taken] == mid.arrived[f.taken..mid.taken];
    assert f'.arrived[f.taken..f'.taken] == f'.arrived[f.taken..mid.taken] + f'.arrived[mid.taken..f'.taken];
  }

  lemma PeersOfBoth(a: seq<Delivery>, b: seq<Delivery>)
    ensures Peers(a + b) == Peers(a) + Peers(b)
  {
  }

  lemma {:induction false} GaveInOrder(ss: seq<State>, acts: seq<Action>, i: nat, j: nat, id: FileId)
    requires i <= j <= |acts| < |ss| && id in ss[i].w.tab.files && ss[i].w.tab.files[id].IsQueue()
    requires forall k: nat | i <= k < j :: GaveAt(ss, acts, k, id)
    ensures id in ss[j].w.tab.files
    ensures QueueGave(ss[i].w.tab.files[id], Peers(Delivered(ss, acts, id, i, j)), ss[j].w.tab.files[id])
    decreases j
  {
    if i < j {
      GaveInOrder(ss, acts, i, j - 1, id);
      assert GaveAt(ss, acts, j - 1, id);
      var before, now := Delivered(ss, acts, id, i, j - 1), DeliveredBy(ss[j - 1], acts[j - 1], id);
      GaveTwice(ss[i].w.tab.files[id], Peers(before), ss[j - 1].w.tab.files[id], Peers(now), ss[j].w.tab.files[id]);
      PeersOfBoth(before, now);
    }
  }

  /** The connections taken are the next ones that arrived, in their order. */
  lemma TakenInOrder(ss: seq<State>, acts: seq<Action>, i: nat, j: nat, id: FileId)
    requires Run(ss, acts) && i <= j < |ss|
    requires forall k: nat | i <= k <= j :: id in ss[k].w.tab.files
    ensures QueueGave(ss[i].w.tab.files[id], Peers(Delivered(ss, acts, id, i, j)), ss[j].w.tab.files[id])
  {
    QueueIsSound(ss, acts, i, id);
    forall k: nat | i <= k < j
      ensures GaveAt(ss, acts, k, id)
    {
      StepOnQueue(ss, acts, k, id);
    }
    GaveInOrder(ss, acts, i, j, id);
  }

  // ---------------------------------------------------------------- What the crate does with a connection

  /** The connection that an `accept` in progress at `pc` has taken, and from which listener. */
  function Accepting(pc: Pc): Option<(Fd, Made)> {
    match pc
    case Marking(fd, QueueOf(l, peer)) => Some((l, Made(fd, Some(peer))))
    case Discarding(fd, _, QueueOf(l, peer)) => Some((l, Made(fd, Some(peer))))
    case Done(Ok(made), Some(QueueOf(l, _))) => Some((l, made))
    case _ => None
  }

  predicate IsOn(s: State, l: Fd, id: FileId) {
    l in s.Open() && s.Open()[l].file == id
  }

  /** What thread `t` holds from the queue of `id`. */
  function HeldBy(s: State, t: Tid, id: FileId): multiset<Made> {
    if t in s.threads && Accepting(s.threads[t].pc).Some? && IsOn(s, Accepting(s.threads[t].pc).value.0, id)
    then multiset{Accepting(s.threads[t].pc).value.1}
    else multiset{}
  }

  /** What the threads below `n` hold from the queue of `id`. */
  function Held(s: State, id: FileId, n: nat): multiset<Made> {
    if n == 0 then multiset{} else Held(s, id, n - 1) + HeldBy(s, n - 1, id)
  }

  /** What action `a` gives to the crate from the queue of `id`. */
  function Taken(s: State, a: Action, id: FileId): multiset<Made> {
    match a
    case Answer(t, Returned(value, out)) =>
      if t in s.threads && Wants(s.threads[t].pc).Some? && Accepts(Wants(s.threads[t].pc).value, s, id)
      then multiset{Made(value, Some(PeerOf(out)))}
      else multiset{}
    case _ => multiset{}
  }

  predicate Accepts(c: Call, s: State, id: FileId) {
    (c.Accept? || c.Accept4?) && IsOn(s, c.fd, id)
  }

  /** What action `a` hands to the user, with its peer. */
  function Handed(s: State, a: Action, id: FileId): multiset<Made> {
    if ReturnsOk(s, a) then HeldBy(s, a.t, id) else multiset{}
  }

  /** What action `a` closes because marking it failed. */
  function Dropped(s: State, a: Action, id: FileId): multiset<Made> {
    if a.Answer? && a.t in s.threads && s.threads[a.t].pc.Discarding? then HeldBy(s, a.t, id) else multiset{}
  }

  // ---------------------------------------------------------------- One action

  /** What an accepting call got stays with it, until it is done or closed. */
  predicate AcceptingMoves(pc: Pc, c: Call, r: Ret, pc': Pc) {
    if c.Accept? || c.Accept4? then
      && Accepting(pc) == None
      && Accepting(pc') == if r.Returned? then Some((c.fd, Made(r.value, Some(PeerOf(r.out))))) else None
    else if pc.Discarding? then Accepting(pc') == None
    else Accepting(pc') == Accepting(pc)
  }

  lemma AcceptingAfterCall(pc: Pc, r: Ret)
    requires Wants(pc).Some?
    ensures AcceptingMoves(pc, Wants(pc).value, r, Resume(pc, r))
  {
  }

  lemma ListenerIsBorrowed(s: State, t: Tid)
    requires Accounts(s) && t in s.threads && Accepting(s.threads[t].pc).Some?
    ensures Accepting(s.threads[t].pc).value.0 in s.Open()
  {
    var l := Accepting(s.threads[t].pc).value.0;
    assert Borrowed(s.threads[t].pc) == Some(l) && l in s.HandleFds();
  }

  /** Open descriptors that stay open keep their description. */
  predicate LinksKept(s: State, s': State) {
    forall fd | fd in s.Open() && fd in s'.Open() :: s'.Open()[fd].file == s.Open()[fd].file
  }

  lemma FdsChangeKeepsLinks(s: State, c: Call, r: Ret, s': State)
    requires FdsChange(s.w.tab, c, r, s'.w.tab)
    ensures LinksKept(s, s')
  {
  }

  lemma NextKeepsLinks(s: State, a: Action, s': State)
    requires Valid(s.w.tab) && Next(s, a, s')
    ensures LinksKept(s, s')
  {
    if CallOf(s, a).Some? {
      CallsAreEffects(s, a, s');
      EffectOnFds(s.w.tab, CallOf(s, a).value.0, CallOf(s, a).value.1, s'.w.tab);
      FdsChangeKeepsLinks(s, CallOf(s, a).value.0, CallOf(s, a).value.1, s');
    } else {
      NoCallMovesNothing(s, a, s');
    }
  }

  /** A thread whose place did not change holds what it held. */
  lemma SamePlaceSameHold(s: State, s': State, t: Tid, id: FileId)
    requires Accounts(s) && Accounts(s') && LinksKept(s, s')
    requires t in s.threads && t in s'.threads && Accepting(s'.threads[t].pc) == Accepting(s.threads[t].pc)
    ensures HeldBy(s', t, id) == HeldBy(s, t, id)
  {
    if Accepting(s.threads[t].pc).Some? {
      ListenerIsBorrowed(s, t);
      ListenerIsBorrowed(s', t);
    }
  }

  /** Only thread `t` moved. */
  predicate OnlyMoved(s: State, t: Tid, s': State) {
    && (forall u | u in s.threads :: u in s'.threads)
    && (forall u | u in s'.threads && u != t :: u in s.threads && s'.threads[u].pc == s.threads[u].pc)
  }

  lemma OthersHoldTheSame(s: State, t: Tid, s': State, u: Tid, id: FileId)
    requires Accounts(s) && Accounts(s') && LinksKept(s, s') && OnlyMoved(s, t, s') && u != t
    ensures HeldBy(s', u, id) == HeldBy(s, u, id)
  {
    if u in s'.threads {
      SamePlaceSameHold(s, s', u, id);
    }
  }

  lemma ExchangeLast(a: multiset<Made>, x: multiset<Made>, y: multiset<Made>, got: multiset<Made>, gone: multiset<Made>)
    requires x + got == y + gone
    ensures a + x + got == a + y + gone
  {
    assert a + x + got == a + (x + got);
    assert a + y + gone == a + (y + gone);
  }

  lemma ExchangeBefore(a: multiset<Made>, b: multiset<Made>, x: multiset<Made>, got: multiset<Made>,
                       gone: multiset<Made>)
    requires a + got == b + gone
    ensures a + x + got == b + x + gone
  {
    assert a + x + got == a + got + x;
    assert b + x + gone == b + gone + x;
  }

  lemma {:induction false} SameHolds(s: State, s': State, id: FileId, n: nat)
    requires forall u: Tid | u < n :: HeldBy(s', u, id) == HeldBy(s, u, id)
    ensures Held(s, id, n) == Held(s', id, n)
  {
    if n > 0 {
      SameHolds(s, s', id, n - 1);
    }
  }

  /** If one thread exchanged `gone` for `got` and the others hold what they held, so did all together. */
  lemma {:induction false} SumOfHolds(s: State, t: Tid, s': State, id: FileId, n: nat, gone: multiset<Made>,
                                     got: multiset<Made>)
    requires t < n && forall u: Tid | u < n && u != t :: HeldBy(s', u, id) == HeldBy(s, u, id)
    requires HeldBy(s, t, id) + got == HeldBy(s', t, id) + gone
    ensures Held(s, id, n) + got == Held(s', id, n) + gone
  {
    if n - 1 == t {
      SameHolds(s, s', id, t);
      ExchangeLast(Held(s, id, t), HeldBy(s, t, id), HeldBy(s', t, id), got, gone);
    } else {
      SumOfHolds(s, t, s', id, n - 1, gone, got);
      ExchangeBefore(Held(s, id, n - 1), Held(s', id, n - 1), HeldBy(s, n - 1, id), got, gone);
    }
  }

  lemma AcceptExchanges(s: State, t: Tid, c: Call, ret: Ret, s': State, id: FileId)
    requires Accounts(s') && LinksKept(s, s') && t in s.threads && t in s'.threads
    requires Wants(s.threads[t].pc) == Some(c) && (c.Accept? || c.Accept4?) && c.fd in s.Open()
    requires AcceptingMoves(s.threads[t].pc, c, ret, s'.threads[t].pc)
    ensures HeldBy(s, t, id) == multiset{} && HeldBy(s', t, id) == Taken(s, Answer(t, ret), id)
  {
    if ret.Returned? {
      ListenerIsBorrowed(s', t);
    }
  }

  lemma OtherCallExchanges(s: State, t: Tid, c: Call, ret: Ret, s': State, id: FileId)
    requires Accounts(s) && Accounts(s') && LinksKept(s, s') && t in s.threads && t in s'.threads
    requires Wants(s.threads[t].pc) == Some(c) && !c.Accept? && !c.Accept4?
    requires AcceptingMoves(s.threads[t].pc, c, ret, s'.threads[t].pc)
    ensures HeldBy(s, t, id) == HeldBy(s', t, id) + Dropped(s, Answer(t, ret), id)
    ensures Taken(s, Answer(t, ret), id) == multiset{}
  {
    if !s.threads[t].pc.Discarding? {
      SamePlaceSameHold(s, s', t, id);
    }
  }

  lemma AcceptBorrows(s: State, t: Tid, c: Call)
    requires Accounts(s) && t in s.threads && Wants(s.threads[t].pc) == Some(c) && (c.Accept? || c.Accept4?)
    ensures c.fd in s.Open() && !s.threads[t].pc.Discarding?
  {
    assert Borrowed(s.threads[t].pc) == Some(c.fd) && c.fd in s.HandleFds();
  }

  /** An answered call: what it took from the queue is held by its thread now, what it dropped no longer is. */
  lemma AnswerExchanges(s: State, t: Tid, c: Call, ret: Ret, s': State, id: FileId)
    requires Accounts(s) && Accounts(s') && LinksKept(s, s') && t in s.threads && t in s'.threads
    requires Wants(s.threads[t].pc) == Some(c) && AcceptingMoves(s.threads[t].pc, c, ret, s'.threads[t].pc)
    ensures var a := Answer(t, ret);
      HeldBy(s, t, id) + Taken(s, a, id) == HeldBy(s', t, id) + Dropped(s, a, id)
  {
    if c.Accept? || c.Accept4? {
      AcceptBorrows(s, t, c);
      AcceptExchanges(s, t, c, ret, s', id);
    } else {
      OtherCallExchanges(s, t, c, ret, s', id);
    }
  }

  lemma ReturnExchanges(s: State, t: Tid, handle: nat, s': State, id: FileId)
    requires Accounts(s) && Returns(s, t, handle, s')
    ensures HeldBy(s, t, id) == Handed(s, Return(t, handle), id) && HeldBy(s', t, id) == multiset{}
    ensures OnlyMoved(s, t, s')
  {
  }

  lemma QuietKeepsAccepting(s: State, a: Action, s': State, t: Tid)
    requires Quiet(s, a, s') && !ReturnsOk(s, a)
    ensures t in s.threads ==> t in s'.threads && Accepting(s'.threads[t].pc) == Accepting(s.threads[t].pc)
    ensures t !in s.threads && t in s'.threads ==> Accepting(s'.threads[t].pc) == None
  {
  }

  /** Any other action exchanges nothing. */
  lemma QuietExchangesNothing(s: State, a: Action, s': State, t: Tid, id: FileId)
    requires Accounts(s) && Accounts(s') && LinksKept(s, s') && Quiet(s, a, s') && !ReturnsOk(s, a)
    ensures HeldBy(s', t, id) == HeldBy(s, t, id)
  {
    QuietKeepsAccepting(s, a, s', t);
    if t in s.threads {
      SamePlaceSameHold(s, s', t, id);
    }
  }

  // ---------------------------------------------------------------- Whole runs

  /** All threads together: what they held and what the crate took is what was handed out, what was dropped, and what
      they hold. */
  predicate Balanced(s: State, a: Action, s': State, id: FileId, n: nat) {
    Held(s, id, n) + Taken(s, a, id) == Held(s', id, n) + Handed(s, a, id) + Dropped(s, a, id)
  }

  /** When only thread `t` moved the others hold what they held. */
  lemma OthersAllHold(s: State, t: Tid, s': State, id: FileId, n: nat)
    requires Accounts(s) && Accounts(s') && LinksKept(s, s') && OnlyMoved(s, t, s')
    ensures forall u: Tid | u < n && u != t :: HeldBy(s', u, id) == HeldBy(s, u, id)
  {
    forall u: Tid | u < n && u != t
      ensures HeldBy(s', u, id) == HeldBy(s, u, id)
    {
      OthersHoldTheSame(s, t, s', u, id);
    }
  }

  lemma ResumedMoves(s: State, t: Tid, ret: Ret, s': State)
    requires t in s.threads && Wants(s.threads[t].pc).Some? && s' == Resumed(s, t, ret, s'.w)
    ensures t in s'.threads && OnlyMoved(s, t, s')
    ensures AcceptingMoves(s.threads[t].pc, Wants(s.threads[t].pc).value, ret, s'.threads[t].pc)
  {
    AcceptingAfterCall(s.threads[t].pc, ret);
  }

  lemma MovedBalances(s: State, t: Tid, c: Call, ret: Ret, s': State, id: FileId, n: nat)
    requires Accounts(s) && Accounts(s') && LinksKept(s, s') && OnlyMoved(s, t, s') && t < n
    requires t in s.threads && t in s'.threads && Wants(s.threads[t].pc) == Some(c)
    requires AcceptingMoves(s.threads[t].pc, c, ret, s'.threads[t].pc)
    ensures Balanced(s, Answer(t, ret), s', id, n)
  {
    AnswerExchanges(s, t, c, ret, s', id);
    OthersAllHold(s, t, s', id, n);
    SumOfHolds(s, t, s', id, n, Dropped(s, Answer(t, ret), id), Taken(s, Answer(t, ret), id));
    AnswersHandNothing(s, t, ret, s', id, n);
  }

  lemma AnswersHandNothing(s: State, t: Tid, ret: Ret, s': State, id: FileId, n: nat)
    requires Held(s, id, n) + Taken(s, Answer(t, ret), id) == Held(s', id, n) + Dropped(s, Answer(t, ret), id)
    ensures Balanced(s, Answer(t, ret), s', id, n)
  {
    assert Held(s', id, n) + multiset{} == Held(s', id, n);
  }

  lemma AnswerBalances(s: State, t: Tid, ret: Ret, s': State, id: FileId, n: nat)
    requires Accounts(s) && Accounts(s') && LinksKept(s, s') && t in s.threads && Wants(s.threads[t].pc).Some?
    requires s' == Resumed(s, t, ret, s'.w) && t < n
    ensures Balanced(s, Answer(t, ret), s', id, n)
  {
    ResumedMoves(s, t, ret, s');
    MovedBalances(s, t, Wants(s.threads[t].pc).value, ret, s', id, n);
  }

  lemma ReturnBalances(s: State, t: Tid, handle: nat, s': State, id: FileId, n: nat)
    requires Accounts(s) && Accounts(s') && LinksKept(s, s') && Returns(s, t, handle, s') && t < n
    ensures Balanced(s, Return(t, handle), s', id, n)
  {
    ReturnExchanges(s, t, handle, s', id);
    OthersAllHold(s, t, s', id, n);
    SumOfHolds(s, t, s', id, n, Handed(s, Return(t, handle), id), multiset{});
  }

  lemma NothingBalances(s: State, a: Action, s': State, id: FileId, n: nat)
    requires forall u: Tid | u < n :: HeldBy(s', u, id) == HeldBy(s, u, id)
    requires !a.Answer? && !ReturnsOk(s, a)
    ensures Balanced(s, a, s', id, n)
  {
    SameHolds(s, s', id, n);
  }

  predicate AllBelow(s: State, n: nat) {
    forall t | t in s.threads :: t < n
  }

  lemma CallBalances(s: State, a: Action, s': State, id: FileId, n: nat)
    requires Accounts(s) && Accounts(s') && LinksKept(s, s') && s'.threads == s.threads
    requires !a.Answer? && !a.Return?
    ensures Balanced(s, a, s', id, n)
  {
    forall u: Tid | u < n
      ensures HeldBy(s', u, id) == HeldBy(s, u, id)
    {
      if u in s.threads {
        SamePlaceSameHold(s, s', u, id);
      }
    }
    NothingBalances(s, a, s', id, n);
  }

  lemma ExchangingNothingBalances(s: State, a: Action, s': State, id: FileId, n: nat)
    requires Accounts(s) && Accounts(s') && LinksKept(s, s') && Quiet(s, a, s') && !ReturnsOk(s, a)
    ensures Balanced(s, a, s', id, n)
  {
    forall u: Tid | u < n
      ensures HeldBy(s', u, id) == HeldBy(s, u, id)
    {
      QuietExchangesNothing(s, a, s', u, id);
    }
    NothingBalances(s, a, s', id, n);
  }

  lemma QuietBalances(s: State, a: Action, s': State, id: FileId, n: nat)
    requires Accounts(s) && Accounts(s') && LinksKept(s, s') && Quiet(s, a, s')
    requires AllBelow(s', n)
    ensures Balanced(s, a, s', id, n)
  {
    if ReturnsOk(s, a) {
      OkReturns(s, a, s');
      ReturnBalances(s, a.t, a.id, s', id, n);
    } else {
      ExchangingNothingBalances(s, a, s', id, n);
    }
  }

  /** What the crate takes, hands to the user and drops in actions `i` to `j`. */
  function TakenBetween(ss: seq<State>, acts: seq<Action>, id: FileId, i: nat, j: nat): multiset<Made>
    requires i <= j <= |acts| < |ss|
    decreases j
  {
    if i == j then multiset{} else TakenBetween(ss, acts, id, i, j - 1) + Taken(ss[j - 1], acts[j - 1], id)
  }

  function HandedBetween(ss: seq<State>, acts: seq<Action>, id: FileId, i: nat, j: nat): multiset<Made>
    requires i <= j <= |acts| < |ss|
    decreases j
  {
    if i == j then multiset{} else HandedBetween(ss, acts, id, i, j - 1) + Handed(ss[j - 1], acts[j - 1], id)
  }

  function DroppedBetween(ss: seq<State>, acts: seq<Action>, id: FileId, i: nat, j: nat): multiset<Made>
    requires i <= j <= |acts| < |ss|
    decreases j
  {
    if i == j then multiset{} else DroppedBetween(ss, acts, id, i, j - 1) + Dropped(ss[j - 1], acts[j - 1], id)
  }

  lemma ThreadsStay(ss: seq<State>, acts: seq<Action>, k: nat, t: Tid)
    requires Run(ss, acts) && k < |acts| && t in ss[k].threads
    ensures t in ss[k + 1].threads
  {
    RunKeepsInv(ss, acts, k);
    assert Goes(ss, acts, k);
    SpentStays(ss[k], acts[k], ss[k + 1], t);
  }

  lemma BelowBefore(ss: seq<State>, acts: seq<Action>, k: nat, n: nat)
    requires Run(ss, acts) && k < |acts| && AllBelow(ss[k + 1], n)
    ensures AllBelow(ss[k], n)
  {
    forall t | t in ss[k].threads
      ensures t < n
    {
      ThreadsStay(ss, acts, k, t);
    }
  }

  lemma NextBalances(s: State, a: Action, s': State, id: FileId, n: nat)
    requires Inv(s) && Accounts(s') && Next(s, a, s') && AllBelow(s, n) && AllBelow(s', n)
    ensures Balanced(s, a, s', id, n)
  {
    NextKeepsLinks(s, a, s');
    if a.Answer? {
      AnswerBalances(s, a.t, a.ret, s', id, n);
    } else if a.Use? || a.Foreign? {
      CallBalances(s, a, s', id, n);
    } else {
      OthersAreQuiet(s, a, s');
      QuietBalances(s, a, s', id, n);
    }
  }

  predicate BalancedAt(ss: seq<State>, acts: seq<Action>, k: nat, id: FileId, n: nat)
    requires k < |acts| < |ss|
  {
    Balanced(ss[k], acts[k], ss[k + 1], id, n)
  }

  lemma StepBalances(ss: seq<State>, acts: seq<Action>, k: nat, id: FileId, n: nat)
    requires Run(ss, acts) && k < |acts| && AllBelow(ss[k], n) && AllBelow(ss[k + 1], n)
    ensures BalancedAt(ss, acts, k, id, n)
  {
    RunKeepsInv(ss, acts, k);
    RunKeepsInv(ss, acts, k + 1);
    assert Goes(ss, acts, k);
    NextBalances(ss[k], acts[k], ss[k + 1], id, n);
  }

  lemma AddUp(held: multiset<Made>, taken: multiset<Made>, mid: multiset<Made>, handed: multiset<Made>,
              dropped: multiset<Made>, t: multiset<Made>, end: multiset<Made>, h: multiset<Made>, d: multiset<Made>)
    requires held + taken == mid + handed + dropped && mid + t == end + h + d
    ensures held + (taken + t) == end + (handed + h) + (dropped + d)
  {
    assert held + (taken + t) == (held + taken) + t;
    assert (mid + handed + dropped) + t == (mid + t) + handed + dropped;
    assert (end + h + d) + handed + dropped == end + (handed + h) + (dropped + d);
  }

  /** What the crate held and took is what it returned, what it closed and what it holds. */
  predicate AccountedFor(ss: seq<State>, acts: seq<Action>, i: nat, j: nat, id: FileId, n: nat)
    requires i <= j <= |acts| < |ss|
  {
    Held(ss[i], id, n) + TakenBetween(ss, acts, id, i, j) ==
      Held(ss[j], id, n) + HandedBetween(ss, acts, id, i, j) + DroppedBetween(ss, acts, id, i, j)
  }

  lemma NothingAccounted(ss: seq<State>, acts: seq<Action>, i: nat, id: FileId, n: nat)
    requires i <= |acts| < |ss|
    ensures AccountedFor(ss, acts, i, i, id, n)
  {
  }

  lemma OneMoreAccounted(ss: seq<State>, acts: seq<Action>, i: nat, j: nat, id: FileId, n: nat)
    requires i < j <= |acts| < |ss| && AccountedFor(ss, acts, i, j - 1, id, n)
    requires Balanced(ss[j - 1], acts[j - 1], ss[j], id, n)
    ensures AccountedFor(ss, acts, i, j, id, n)
  {
    var k := j - 1;
    AddUp(Held(ss[i], id, n), TakenBetween(ss, acts, id, i, k), Held(ss[k], id, n),
          HandedBetween(ss, acts, id, i, k), DroppedBetween(ss, acts, id, i, k), Taken(ss[k], acts[k], id),
          Held(ss[j], id, n), Handed(ss[k], acts[k], id), Dropped(ss[k], acts[k], id));
  }

  lemma {:induction false} StepsAddUp(ss: seq<State>, acts: seq<Action>, i: nat, j: nat, id: FileId, n: nat)
    requires i <= j <= |acts| < |ss|
    requires forall k: nat | i <= k < j :: BalancedAt(ss, acts, k, id, n)
    ensures AccountedFor(ss, acts, i, j, id, n)
    decreases j
  {
    if i == j {
      NothingAccounted(ss, acts, i, id, n);
    } else {
      StepsAddUp(ss, acts, i, j - 1, id, n);
      assert BalancedAt(ss, acts, j - 1, id, n);
      OneMoreAccounted(ss, acts, i, j, id, n);
    }
  }

  lemma {:induction false} BelowThroughout(ss: seq<State>, acts: seq<Action>, i: nat, j: nat, n: nat)
    requires Run(ss, acts) && i <= j < |ss| && AllBelow(ss[j], n)
    ensures AllBelow(ss[i], n)
    decreases j
  {
    if i < j {
      BelowBefore(ss, acts, j - 1, n);
      BelowThroughout(ss, acts, i, j - 1, n);
    }
  }

  /** Over any part of any run, for every listener's description and whatever the number of threads: what the crate
      took from the queue, together with what its calls held before, is exactly what it returned with that very peer,
      what it closed because marking failed, and what its calls still hold.  Nothing is in two of these. */
  lemma ConnectionsAreAccountedFor(ss: seq<State>, acts: seq<Action>, i: nat, j: nat, id: FileId, n: nat)
    requires Run(ss, acts) && i <= j < |ss| && AllBelow(ss[j], n)
    ensures AccountedFor(ss, acts, i, j, id, n)
  {
    forall k: nat | i <= k < j
      ensures BalancedAt(ss, acts, k, id, n)
    {
      BelowThroughout(ss, acts, k + 1, j, n);
      BelowBefore(ss, acts, k, n);
      StepBalances(ss, acts, k, id, n);
    }
    StepsAddUp(ss, acts, i, j, id, n);
  }

  lemma {:induction false} NothingHeldAtFirst(s: State, id: FileId, n: nat)
    requires Init(s)
    ensures Held(s, id, n) == multiset{}
  {
    if n > 0 {
      NothingHeldAtFirst(s, id, n - 1);
    }
  }

  /** From the start of a run: every connection the crate took was returned, was closed, or is held. */
  lemma TakenIsReturnedClosedOrHeld(ss: seq<State>, acts: seq<Action>, id: FileId, n: nat)
    requires Run(ss, acts) && AllBelow(ss[|acts|], n)
    ensures TakenBetween(ss, acts, id, 0, |acts|) ==
      Held(ss[|acts|], id, n) + HandedBetween(ss, acts, id, 0, |acts|) + DroppedBetween(ss, acts, id, 0, |acts|)
  {
    NothingHeldAtFirst(ss[0], id, n);
    ConnectionsAreAccountedFor(ss, acts, 0, |acts|, id, n);
  }

  /** The crate's part of some deliveries. */
  function CrateOf(ds: seq<Delivery>): multiset<Made> {
    if ds == [] then multiset{}
    else
      var last := ds[|ds| - 1];
      CrateOf(ds[..|ds| - 1]) + if last.ToCrate? then multiset{last.made} else multiset{}
  }

  lemma CrateTakes(s: State, a: Action, id: FileId)
    ensures |DeliveredBy(s, a, id)| <= 1
    ensures CrateOf(DeliveredBy(s, a, id)) == Taken(s, a, id)
  {
    var ds := DeliveredBy(s, a, id);
    if ds != [] {
      assert ds[..0] == [];
    }
  }

  lemma CrateOfOneMore(ds: seq<Delivery>, more: seq<Delivery>)
    requires |more| <= 1
    ensures CrateOf(ds + more) == CrateOf(ds) + CrateOf(more)
  {
    if more == [] {
      assert ds + more == ds;
    } else {
      assert (ds + more)[..|ds|] == ds && more[..0] == [];
    }
  }

  /** The crate's part of what left the queue is what it took. */
  lemma {:induction false} CrateTakesFromQueue(ss: seq<State>, acts: seq<Action>, i: nat, j: nat, id: FileId)
    requires i <= j <= |acts| < |ss|
    ensures CrateOf(Delivered(ss, acts, id, i, j)) == TakenBetween(ss, acts, id, i, j)
    decreases j
  {
    if i < j {
      CrateTakesFromQueue(ss, acts, i, j - 1, id);
      CrateTakes(ss[j - 1], acts[j - 1], id);
      CrateOfOneMore(Delivered(ss, acts, id, i, j - 1), DeliveredBy(ss[j - 1], acts[j - 1], id));
    }
  }

  /** As long as a listener's description lives: the connections that left its queue are the next ones that arrived, in
      order; some went to others; and those that went to the crate, with the descriptors it got for them, together with
      what its calls held before, are exactly what it returned with that very peer, what it closed because marking
      failed, and what its calls still hold. */
  lemma QueueIsAccountedFor(ss: seq<State>, acts: seq<Action>, i: nat, j: nat, id: FileId, n: nat)
    requires Run(ss, acts) && i <= j < |ss| && AllBelow(ss[j], n)
    requires forall k: nat | i <= k <= j :: id in ss[k].w.tab.files
    ensures var ds := Delivered(ss, acts, id, i, j);
      && QueueGave(ss[i].w.tab.files[id], Peers(ds), ss[j].w.tab.files[id])
      && Held(ss[i], id, n) + CrateOf(ds) ==
           Held(ss[j], id, n) + HandedBetween(ss, acts, id, i, j) + DroppedBetween(ss, acts, id, i, j)
  {
    TakenInOrder(ss, acts, i, j, id);
    CrateTakesFromQueue(ss, acts, i, j, id);
    ConnectionsAreAccountedFor(ss, acts, i, j, id, n);
  }
}
