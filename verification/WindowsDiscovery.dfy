/** src/sys/windows/bt.rs: `discover_devices`, an enumeration that grows its buffer and tries again. */
module WindowsDiscovery {
  import opened Base
  import opened Addresses

  /** `size_of::<usize>()` on the supported 64-bit target. */
  const WORD := 8
  const TWO32 := 0x1_0000_0000

  /** One result of the provider: the bytes it takes to return it, and the address in it. */
  datatype Device = Device(need: U32, addr: U64)

  /** What the provider answers; `Fault` is WSAEFAULT with the length it asks for. */
  datatype Lookup = Found(addr: U64) | Fault(need: U32) | NoMore | Failed(errno: int)

  /** The answers a provider at result `next` may give to a lookup that offers `len` bytes: one answer is right, and any
      call may fail. */
  predicate MayAnswer(ds: seq<Device>, next: nat, len: nat, r: Lookup)
    requires next <= |ds|
  {
    match r
    case Failed(e) => e != WSA_E_NO_MORE && e != WSAEFAULT
    case NoMore => next == |ds|
    case Fault(need) => next < |ds| && ds[next].need > len && need == ds[next].need
    case Found(addr) => next < |ds| && ds[next].need <= len && addr == ds[next].addr
  }

  /** One call of the enumeration and its answer. */
  datatype Event = Began(error: Option<int>) | Looked(answer: Lookup) | Ended(error: Option<int>)

  class Provider {
    const devices: seq<Device>
    var next: nat
    var handles: int
    ghost var log: seq<Event>

    constructor (ds: seq<Device>)
      ensures devices == ds && next == 0 && handles == 0 && log == []
    {
      devices, next, handles, log := ds, 0, 0, [];
    }

    /** `WSALookupServiceBeginW`. */
    method Begin() returns (error: Option<int>)
      modifies this
      ensures log == old(log) + [Began(error)]
      ensures error.Some? ==> next == old(next) && handles == old(handles)
      ensures error.None? ==> next == 0 && handles == old(handles) + 1
    {
      error := None;
      if * {
        var e: int :| true;
        error := Some(e);
      } else {
        next, handles := 0, handles + 1;
      }
      log := log + [Began(error)];
    }

    /** `WSALookupServiceNextW` into a buffer of `room` bytes, of which it may write `len`; it may fail for
        reasons of its own at any time. */
    method Next(len: nat, ghost room: nat) returns (r: Lookup)
      requires next <= |devices| && len <= room
      modifies this
      ensures handles == old(handles)
      ensures log == old(log) + [Looked(r)]
      ensures MayAnswer(devices, old(next), len, r)
      ensures next == if r.Found? then old(next) + 1 else old(next)
    {
      if * {
        var e: int :| e != WSA_E_NO_MORE && e != WSAEFAULT;
        r := Failed(e);
      } else if next == |devices| {
        r := NoMore;
      } else if devices[next].need > len {
        r := Fault(devices[next].need);
      } else {
        r := Found(devices[next].addr);
        next := next + 1;
      }
      log := log + [Looked(r)];
    }

    /** `WSALookupServiceEnd`. */
    method End() returns (error: Option<int>)
      modifies this
      ensures handles == old(handles) - 1
      ensures log == old(log) + [Ended(error)]
    {
      handles := handles - 1;
      error := None;
      if * {
        var e: int :| true;
        error := Some(e);
      }
      log := log + [Ended(error)];
    }
  }

  /** How often the calls were told to come back with a larger buffer. */
  function Faults(calls: seq<Event>): nat {
    if calls == [] then 0
    else
      var last := calls[|calls| - 1];
      Faults(calls[..|calls| - 1]) + if last.Looked? && last.answer.Fault? then 1 else 0
  }

  lemma FaultsOneMore(calls: seq<Event>, e: Event)
    ensures Faults(calls + [e]) == Faults(calls) + if e.Looked? && e.answer.Fault? then 1 else 0
  {
    assert (calls + [e])[..|calls|] == calls;
  }

  /** What the last call of a discovery over the results `ds` means: its error, or, when the enumeration ended well, the
      address of every result at its place. */
  predicate Means(last: Event, ds: seq<Device>, result: Result<seq<BtAddr>>) {
    match last
    case Began(Some(e)) => result == Err(Os(e))
    case Looked(Failed(e)) => result == Err(Os(e))
    case Ended(Some(e)) => result == Err(Os(e))
    case Ended(None) =>
      result.Ok? && |result.value| == |ds| && forall i | 0 <= i < |ds| :: result.value[i] == Unpack(ds[i].addr)
    case _ => false
  }

  /** The addresses of the provider's results, in order. */
  function Decoded(ds: seq<Device>): seq<BtAddr> {
    if ds == [] then [] else Decoded(ds[..|ds| - 1]) + [Unpack(ds[|ds| - 1].addr)]
  }

  lemma {:induction false} DecodedIsPointwise(ds: seq<Device>, i: nat)
    requires i < |ds|
    ensures |Decoded(ds)| == |ds|
    ensures Decoded(ds)[i] == Unpack(ds[i].addr)
  {
    if |ds| > 1 {
      DecodedIsPointwise(ds[..|ds| - 1], if i < |ds| - 1 then i else 0);
    }
  }

  /** The byte length the code passes: `(words * size) as u32`. */
  function Len(words: nat): (len: nat)
    ensures len <= words * WORD
  {
    words * WORD % TWO32
  }

  /** The new number of words after a fault. */
  function Grown(need: nat): nat {
    1 + need / WORD
  }

  /** A grown buffer holds what was asked for and is strictly larger, unless the length wraps to zero. */
  lemma GrowthCovers(words: nat, need: nat)
    requires need < TWO32 && need > Len(words)
    ensures need < TWO32 - WORD ==> Len(words) < need < Len(Grown(need)) <= need + WORD
    ensures need >= TWO32 - WORD ==> Len(Grown(need)) == 0
  {
  }

  /** No result asks for a growth that wraps, starting from `len` bytes. */
  predicate FitsFrom(ds: seq<Device>, len: nat) {
    ds == [] ||
    if ds[0].need <= len then FitsFrom(ds[1..], len)
    else ds[0].need < TWO32 - WORD && FitsFrom(ds[1..], Len(Grown(ds[0].need)))
  }

  /** How many results ask for more than `bound` and everything before them. */
  function NewMaxima(ds: seq<Device>, bound: nat): nat {
    if ds == [] then 0
    else if ds[0].need > bound then 1 + NewMaxima(ds[1..], ds[0].need)
    else NewMaxima(ds[1..], bound)
  }

  lemma {:induction false} NewMaximaShrink(ds: seq<Device>, low: nat, high: nat)
    requires low <= high
    ensures NewMaxima(ds, high) <= NewMaxima(ds, low)
  {
    if ds != [] {
      NewMaximaShrink(ds[1..], low, high);
      if ds[0].need <= high {
        NewMaximaShrink(ds[1..], ds[0].need, high);
      }
    }
  }

  /** A result that fits is taken, and nothing else changes for the rest. */
  lemma TakeOne(ds: seq<Device>, at: nat, words: nat)
    requires at < |ds| && ds[at].need <= Len(words)
    ensures Decoded(ds[..at + 1]) == Decoded(ds[..at]) + [Unpack(ds[at].addr)]
    ensures FitsFrom(ds[at..], Len(words)) <==> FitsFrom(ds[at + 1..], Len(words))
    ensures NewMaxima(ds[at..], Len(words)) == NewMaxima(ds[at + 1..], Len(words))
  {
    assert ds[..at + 1][..at] == ds[..at];
    assert ds[at..][1..] == ds[at + 1..];
  }

  /** A result that does not fit costs one new maximum, and fits the grown buffer. */
  lemma GrowForOne(ds: seq<Device>, at: nat, words: nat)
    requires at < |ds| && ds[at].need > Len(words) && FitsFrom(ds[at..], Len(words))
    ensures ds[at].need < Len(Grown(ds[at].need))
    ensures FitsFrom(ds[at..], Len(Grown(ds[at].need)))
    ensures 1 + NewMaxima(ds[at..], Len(Grown(ds[at].need))) <= NewMaxima(ds[at..], Len(words))
  {
    var need := ds[at].need;
    assert ds[at..][1..] == ds[at + 1..];
    GrowthCovers(words, need);
    NewMaximaShrink(ds[at + 1..], need, Len(Grown(need)));
  }

  /** `resize_with`. */
  function Resized(buffer: seq<int>, words: nat): (r: seq<int>)
    ensures |r| == words
    ensures forall i | 0 <= i < words :: r[i] == if i < |buffer| then buffer[i] else 0
  {
    if words <= |buffer| then buffer[..words] else buffer + seq(words - |buffer|, i => 0)
  }

  // ---------------------------------------------------------------- When the loop ends at all

  /** The loop's variables, for a provider that never fails by itself. */
  datatype Loop = Loop(words: nat, next: nat)

  /** One turn; None once the enumeration is over. */
  function Turn(ds: seq<Device>, l: Loop): Option<Loop> {
    if l.next >= |ds| then None
    else if ds[l.next].need > Len(l.words) then Some(Loop(Grown(ds[l.next].need), l.next))
    else Some(Loop(l.words, l.next + 1))
  }

  function After(ds: seq<Device>, l: Loop, n: nat): Option<Loop>
    decreases n
  {
    if n == 0 then Some(l)
    else
      match Turn(ds, l)
      case None => None
      case Some(l') => After(ds, l', n - 1)
  }

  ghost predicate Ends(ds: seq<Device>, l: Loop) {
    exists n: nat :: After(ds, l, n) == None
  }

  /** The loop ends exactly when no result asks for a growth that wraps the 32-bit length to zero; otherwise it
      asks for the same result for ever. */
  lemma EndsIffFits(ds: seq<Device>, words: nat)
    ensures Ends(ds, Loop(words, 0)) <==> FitsFrom(ds, Len(words))
  {
    assert ds[0..] == ds;
    if FitsFrom(ds, Len(words)) {
      FittingEnds(ds, Loop(words, 0));
    } else {
      forall n: nat
        ensures After(ds, Loop(words, 0), n) != None
      {
        MisfitNeverEnds(ds, Loop(words, 0), n);
      }
    }
  }

  lemma {:induction false} FittingEnds(ds: seq<Device>, l: Loop)
    requires l.next <= |ds| && FitsFrom(ds[l.next..], Len(l.words))
    ensures Ends(ds, l)
    decreases |ds| - l.next, if l.next < |ds| && ds[l.next].need > Len(l.words) then 1 else 0
  {
    if l.next == |ds| {
      assert After(ds, l, 1) == None;
    } else {
      assert ds[l.next..][1..] == ds[l.next + 1..];
      var need := ds[l.next].need;
      if need > Len(l.words) {
        GrowthCovers(l.words, need);
      }
      var l' := Turn(ds, l).value;
      FittingEnds(ds, l');
      var n: nat :| After(ds, l', n) == None;
      assert After(ds, l, n + 1) == None;
    }
  }

  lemma {:induction false} MisfitNeverEnds(ds: seq<Device>, l: Loop, n: nat)
    requires l.next <= |ds| && !FitsFrom(ds[l.next..], Len(l.words))
    ensures After(ds, l, n) != None
    decreases n
  {
    if n > 0 {
      assert ds[l.next..][1..] == ds[l.next + 1..];
      var need := ds[l.next].need;
      if need > Len(l.words) {
        GrowthCovers(l.words, need);
      }
      MisfitNeverEnds(ds, Turn(ds, l).value, n - 1);
    }
  }

  /** Two bounds on single results that decide most cases. */
  lemma {:induction false} FitsByBound(ds: seq<Device>, len: nat)
    requires len < TWO32 && len % WORD == 0
    ensures (forall d | d in ds :: d.need < TWO32 - WORD) ==> FitsFrom(ds, len)
    ensures (exists d :: d in ds && d.need > TWO32 - WORD) ==> !FitsFrom(ds, len)
  {
    if ds != [] {
      FitsByBound(ds[1..], len);
      FitsByBound(ds[1..], Len(Grown(ds[0].need)));
      assert forall d :: d in ds <==> d == ds[0] || d in ds[1..];
    }
  }

  // ---------------------------------------------------------------- The calls of the method

  /** Where the loop is after these calls. */
  function PlaceAfter(start: nat, calls: seq<Event>): Loop {
    if calls == [] then Loop(start, 0)
    else
      var l := PlaceAfter(start, calls[..|calls| - 1]);
      match calls[|calls| - 1]
      case Looked(Found(_)) => l.(next := l.next + 1)
      case Looked(Fault(need)) => l.(words := Grown(need))
      case _ => l
  }

  /** `e` may be the next call after the call `last` at place `l`: lookups until one says that there is no more or
      fails, then the end. */
  predicate MayFollow(ds: seq<Device>, l: Loop, last: Event, e: Event) {
    match last
    case Began(None) => e.Looked? && l.next <= |ds| && MayAnswer(ds, l.next, Len(l.words), e.answer)
    case Looked(Found(_)) => e.Looked? && l.next <= |ds| && MayAnswer(ds, l.next, Len(l.words), e.answer)
    case Looked(Fault(_)) => e.Looked? && l.next <= |ds| && MayAnswer(ds, l.next, Len(l.words), e.answer)
    case Looked(NoMore) => e.Ended?
    case _ => false
  }

  /** The calls that the method may make of a provider with the results `ds`. */
  predicate Possible(ds: seq<Device>, start: nat, calls: seq<Event>) {
    var n := |calls| - 1;
    && calls != []
    && if n == 0 then calls[0].Began? else
         && Possible(ds, start, calls[..n])
         && MayFollow(ds, PlaceAfter(start, calls[..n]), calls[n - 1], calls[n])
  }

  /** The handles that these calls leave open. */
  function HandlesLeft(calls: seq<Event>): int {
    if calls == [] then 0
    else
      HandlesLeft(calls[..|calls| - 1]) +
      match calls[|calls| - 1]
      case Began(None) => 1
      case Ended(_) => -1
      case _ => 0
  }

  lemma {:induction false} HandleIsHeld(ds: seq<Device>, start: nat, calls: seq<Event>)
    requires Possible(ds, start, calls)
    ensures HandlesLeft(calls) ==
      if calls[|calls| - 1].Ended? || (calls[|calls| - 1].Began? && calls[|calls| - 1].error.Some?) then 0 else 1
  {
    var n := |calls| - 1;
    if n == 0 {
      assert calls[..0] == [];
    } else {
      HandleIsHeld(ds, start, calls[..n]);
    }
  }

  /** The method is over after these calls. */
  predicate IsOver(calls: seq<Event>) {
    calls != [] &&
    match calls[|calls| - 1]
    case Began(error) => error.Some?
    case Looked(answer) => answer.Failed?
    case Ended(_) => true
  }

  /** When it is over, the handle is left open exactly when a lookup failed. */
  lemma LeakIffLookupFailed(ds: seq<Device>, start: nat, calls: seq<Event>)
    requires Possible(ds, start, calls) && IsOver(calls)
    ensures HandlesLeft(calls) == 1 <==> calls[|calls| - 1].Looked?
    ensures HandlesLeft(calls) == 0 <==> !calls[|calls| - 1].Looked?
  {
    HandleIsHeld(ds, start, calls);
  }

  /** And any lookup can fail: whatever the provider's results, a discovery may be over with the handle open. */
  lemma LeakHappens(ds: seq<Device>, start: nat, e: int)
    requires e != WSA_E_NO_MORE && e != WSAEFAULT
    ensures exists calls :: Possible(ds, start, calls) && IsOver(calls) && HandlesLeft(calls) == 1
  {
    var calls := [Began(None), Looked(Failed(e))];
    assert calls[..1] == [Began(None)] && calls[..1][..0] == [];
    assert Possible(ds, start, calls[..1]);
    assert Possible(ds, start, calls);
    LeakIffLookupFailed(ds, start, calls);
  }

  lemma PossibleOneMore(ds: seq<Device>, start: nat, calls: seq<Event>, e: Event)
    requires Possible(ds, start, calls) && MayFollow(ds, PlaceAfter(start, calls), calls[|calls| - 1], e)
    ensures Possible(ds, start, calls + [e])
  {
    assert (calls + [e])[..|calls|] == calls;
  }

  lemma PlaceOneMore(start: nat, calls: seq<Event>, e: Event)
    ensures PlaceAfter(start, calls + [e]) ==
      var l := PlaceAfter(start, calls);
      match e
      case Looked(Found(_)) => l.(next := l.next + 1)
      case Looked(Fault(need)) => l.(words := Grown(need))
      case _ => l
  {
    assert (calls + [e])[..|calls|] == calls;
  }

  // ---------------------------------------------------------------- The method

  lemma {:induction false} AfterOneMore(ds: seq<Device>, l: Loop, n: nat)
    ensures After(ds, l, n + 1) ==
      match After(ds, l, n)
      case None => None
      case Some(l') => Turn(ds, l')
    decreases n
  {
    if n == 0 {
      if Turn(ds, l).Some? {
        assert After(ds, Turn(ds, l).value, 0) == Turn(ds, l);
      }
    } else if Turn(ds, l).Some? {
      AfterOneMore(ds, Turn(ds, l).value, n - 1);
    }
  }

  /** What the loop keeps: it is where `After` says, the addresses are those before the next result, and a provider
      that fits pays for its retries. */
  predicate Keeps(ds: seq<Device>, start: nat, turns: nat, words: nat, next: nat, addresses: seq<BtAddr>,
                  calls: seq<Event>) {
    && next <= |ds|
    && Possible(ds, start, calls) && PlaceAfter(start, calls) == Loop(words, next)
    && (calls[|calls| - 1] == Began(None) ||
        (calls[|calls| - 1].Looked? && (calls[|calls| - 1].answer.Found? || calls[|calls| - 1].answer.Fault?)))
    && turns == next + Faults(calls)
    && After(ds, Loop(start, 0), turns) == Some(Loop(words, next))
    && addresses == Decoded(ds[..next])
    && (FitsFrom(ds, Len(start)) ==>
        && FitsFrom(ds[next..], Len(words))
        && Faults(calls) + NewMaxima(ds[next..], Len(words)) <= NewMaxima(ds, Len(start)))
  }

  lemma KeepsFromStart(ds: seq<Device>, start: nat)
    ensures Keeps(ds, start, 0, start, 0, [], [Began(None)])
  {
    assert ds[..0] == [] && ds[0..] == ds;
    FaultsOneMore([], Began(None));
    PlaceOneMore(start, [], Began(None));
    assert [] + [Began(None)] == [Began(None)];
  }

  lemma KeepsTaking(ds: seq<Device>, start: nat, turns: nat, words: nat, next: nat, addresses: seq<BtAddr>,
                    calls: seq<Event>)
    requires Keeps(ds, start, turns, words, next, addresses, calls)
    requires next < |ds| && ds[next].need <= Len(words)
    ensures Keeps(ds, start, turns + 1, words, next + 1, addresses + [Unpack(ds[next].addr)],
                  calls + [Looked(Found(ds[next].addr))])
  {
    TakeOne(ds, next, words);
    AfterOneMore(ds, Loop(start, 0), turns);
    FaultsOneMore(calls, Looked(Found(ds[next].addr)));
    PossibleOneMore(ds, start, calls, Looked(Found(ds[next].addr)));
    PlaceOneMore(start, calls, Looked(Found(ds[next].addr)));
  }

  lemma KeepsGrowing(ds: seq<Device>, start: nat, turns: nat, words: nat, next: nat, addresses: seq<BtAddr>,
                     calls: seq<Event>)
    requires Keeps(ds, start, turns, words, next, addresses, calls)
    requires next < |ds| && ds[next].need > Len(words)
    ensures Keeps(ds, start, turns + 1, Grown(ds[next].need), next, addresses,
                  calls + [Looked(Fault(ds[next].need))])
  {
    AfterOneMore(ds, Loop(start, 0), turns);
    FaultsOneMore(calls, Looked(Fault(ds[next].need)));
    PossibleOneMore(ds, start, calls, Looked(Fault(ds[next].need)));
    PlaceOneMore(start, calls, Looked(Fault(ds[next].need)));
    if FitsFrom(ds, Len(start)) {
      GrowForOne(ds, next, words);
    }
  }

  lemma OverMeansFits(ds: seq<Device>, start: nat, turns: nat, words: nat, next: nat, addresses: seq<BtAddr>,
                      calls: seq<Event>)
    requires Keeps(ds, start, turns, words, next, addresses, calls) && next == |ds|
    ensures addresses == Decoded(ds) && FitsFrom(ds, Len(start))
  {
    assert ds[..next] == ds;
    AfterOneMore(ds, Loop(start, 0), turns);
    assert After(ds, Loop(start, 0), turns + 1) == None;
    EndsIffFits(ds, start);
  }

  lemma DecodedIsMeant(ds: seq<Device>)
    ensures Means(Ended(None), ds, Ok(Decoded(ds)))
  {
    if ds == [] {
      assert Decoded(ds) == [];
    } else {
      DecodedIsPointwise(ds, 0);
    }
    forall i: nat | i < |ds|
      ensures Decoded(ds)[i] == Unpack(ds[i].addr)
    {
      DecodedIsPointwise(ds, i);
    }
  }

  /** What the calls, made within `patience` turns, say about the result: None means that the loop was still going, an
      Ok that the enumeration ended well and the provider fits, an error what the last call reported. */
  predicate Concludes(ds: seq<Device>, start: nat, patience: nat, calls: seq<Event>, r: Option<Result<seq<BtAddr>>>) {
    && Possible(ds, start, calls)
    && (r.Some? <==> IsOver(calls))
    && match r
       case None => After(ds, Loop(start, 0), patience).Some?
       case Some(result) =>
         && Means(calls[|calls| - 1], ds, result)
         && (result.Ok? ==> calls[|calls| - 1] == Ended(None) && FitsFrom(ds, Len(start)))
  }

  /** A provider that fits is enumerated in at most as many turns as it has results and new maxima among their needs. */
  predicate InBounds(ds: seq<Device>, start: nat, patience: nat, calls: seq<Event>, r: Option<Result<seq<BtAddr>>>) {
    FitsFrom(ds, Len(start)) ==>
      && Faults(calls) <= NewMaxima(ds, Len(start))
      && (|ds| + NewMaxima(ds, Len(start)) < patience ==> r.Some?)
  }

  lemma EndConcludes(ds: seq<Device>, start: nat, patience: nat, turns: nat, words: nat, next: nat,
                     addresses: seq<BtAddr>, calls: seq<Event>, ended: Option<int>)
    requires Keeps(ds, start, turns, words, next, addresses, calls) && next == |ds|
    ensures var all := calls + [Looked(NoMore), Ended(ended)];
      var r := Some(if ended.Some? then Err(Os(ended.value)) else Ok(addresses));
      Concludes(ds, start, patience, all, r) && InBounds(ds, start, patience, all, r) && HandlesLeft(all) == 0
  {
    OverMeansFits(ds, start, turns, words, next, addresses, calls);
    DecodedIsMeant(ds);
    FaultsOneMore(calls, Looked(NoMore));
    FaultsOneMore(calls + [Looked(NoMore)], Ended(ended));
    PossibleOneMore(ds, start, calls, Looked(NoMore));
    PossibleOneMore(ds, start, calls + [Looked(NoMore)], Ended(ended));
    HandleIsHeld(ds, start, calls + [Looked(NoMore)] + [Ended(ended)]);
    assert calls + [Looked(NoMore), Ended(ended)] == calls + [Looked(NoMore)] + [Ended(ended)];
  }

  lemma FailureConcludes(ds: seq<Device>, start: nat, patience: nat, turns: nat, words: nat, next: nat,
                         addresses: seq<BtAddr>, calls: seq<Event>, e: int)
    requires Keeps(ds, start, turns, words, next, addresses, calls) && e != WSA_E_NO_MORE && e != WSAEFAULT
    ensures var all := calls + [Looked(Failed(e))];
      var r := Some(Err(Os(e)));
      Concludes(ds, start, patience, all, r) && InBounds(ds, start, patience, all, r) && HandlesLeft(all) == 1
  {
    FaultsOneMore(calls, Looked(Failed(e)));
    PossibleOneMore(ds, start, calls, Looked(Failed(e)));
    HandleIsHeld(ds, start, calls + [Looked(Failed(e))]);
  }

  lemma BeginConcludes(ds: seq<Device>, start: nat, patience: nat, e: int)
    ensures Concludes(ds, start, patience, [Began(Some(e))], Some(Err(Os(e))))
    ensures InBounds(ds, start, patience, [Began(Some(e))], Some(Err(Os(e))))
    ensures HandlesLeft([Began(Some(e))]) == 0
  {
    FaultsOneMore([], Began(Some(e)));
    HandleIsHeld(ds, start, [Began(Some(e))]);
    assert [] + [Began(Some(e))] == [Began(Some(e))];
  }

  lemma GoingOnConcludes(ds: seq<Device>, start: nat, patience: nat, words: nat, next: nat, addresses: seq<BtAddr>,
                         calls: seq<Event>)
    requires Keeps(ds, start, patience, words, next, addresses, calls)
    ensures Concludes(ds, start, patience, calls, None) && InBounds(ds, start, patience, calls, None)
    ensures HandlesLeft(calls) == 1
  {
    HandleIsHeld(ds, start, calls);
  }

  /** What a discovery that made these calls returns, and the handles it leaves open. */
  predicate Returns(ds: seq<Device>, start: nat, patience: nat, calls: seq<Event>, r: Option<Result<seq<BtAddr>>>,
                    left: int) {
    && Concludes(ds, start, patience, calls, r)
    && InBounds(ds, start, patience, calls, r)
    && left == HandlesLeft(calls)
  }

  lemma InTwoParts(log: seq<Event>, calls: seq<Event>, made: seq<Event>)
    ensures log + calls + made == log + (calls + made)
  {
  }

  /** One turn of the loop. */
  method TakeTurn(p: Provider, buffer: seq<int>, addresses: seq<BtAddr>, ghost start: nat, ghost turns: nat,
                  ghost patience: nat, ghost calls: seq<Event>)
    returns (r: Option<Result<seq<BtAddr>>>, buffer': seq<int>, addresses': seq<BtAddr>, ghost made: seq<Event>)
    requires Keeps(p.devices, start, turns, |buffer|, p.next, addresses, calls)
    modifies p
    ensures p.log == old(p.log) + made
    ensures match r
      case None =>
        && Keeps(p.devices, start, turns + 1, |buffer'|, p.next, addresses', calls + made)
        && p.handles == old(p.handles)
      case Some(_) => Returns(p.devices, start, patience, calls + made, r, p.handles - old(p.handles) + 1)
  {
    r, buffer', addresses' := None, buffer, addresses;
    ghost var at := p.next;
    var found := p.Next(Len(|buffer|), |buffer| * WORD);
    made := [Looked(found)];
    match found
    case NoMore =>
      var ended := p.End();
      EndConcludes(p.devices, start, patience, turns, |buffer|, at, addresses, calls, ended);
      made := [Looked(NoMore), Ended(ended)];
      r := Some(if ended.Some? then Err(Os(ended.value)) else Ok(addresses));
    case Found(addr) =>
      KeepsTaking(p.devices, start, turns, |buffer|, at, addresses, calls);
      addresses' := addresses + [NapSap(GetNap(addr), GetSap(addr))];
    case Fault(need) =>
      KeepsGrowing(p.devices, start, turns, |buffer|, at, addresses, calls);
      buffer' := Resized(buffer, 1 + need / WORD);
    case Failed(e) =>
      FailureConcludes(p.devices, start, patience, turns, |buffer|, at, addresses, calls, e);
      r := Some(Err(Os(e)));
  }

  /** `discover_devices`, watched for `patience` turns of its loop.  When the enumeration ends well, exactly the
      provider's addresses in order; any failing call is reported; the handle is released except when an error leaves
      the loop, or while it is still going. */
  method DiscoverDevices(p: Provider, initialWords: nat, patience: nat)
    returns (r: Option<Result<seq<BtAddr>>>, ghost calls: seq<Event>)
    modifies p
    ensures p.log == old(p.log) + calls
    ensures Returns(p.devices, initialWords, patience, calls, r, p.handles - old(p.handles))
  {
    var begun := p.Begin();
    calls := [Began(begun)];
    if begun.Some? {
      BeginConcludes(p.devices, initialWords, patience, begun.value);
      return Some(Err(Os(begun.value))), calls;
    }
    var buffer := seq(initialWords, i => 0);
    var addresses: seq<BtAddr> := [];
    KeepsFromStart(p.devices, initialWords);
    for turns := 0 to patience
      invariant p.log == old(p.log) + calls && p.handles == old(p.handles) + 1
      invariant Keeps(p.devices, initialWords, turns, |buffer|, p.next, addresses, calls)
    {
      ghost var made;
      r, buffer, addresses, made := TakeTurn(p, buffer, addresses, initialWords, turns, patience, calls);
      InTwoParts(old(p.log), calls, made);
      calls := calls + made;
      if r.Some? {
        return;
      }
    }
    GoingOnConcludes(p.devices, initialWords, patience, |buffer|, p.next, addresses, calls);
    r := None;
  }
}
