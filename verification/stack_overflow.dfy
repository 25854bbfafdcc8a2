/**
  Runs that a stack meets outside its bounds: 2^16 failed pops leak a node, 2^31 of
  them overflow its counter, and 2^16 threads holding a node at once see it deleted
  under them. Hence the bound on the threads is exact.
 */
module StackOverflow {
  import opened Wrappers
  import opened Collections
  import opened StampedPtrs
  import opened StackModel
  import opened StackTheorems

  lemma RunFive(s: State, e0: Event, e1: Event, e2: Event, e3: Event, e4: Event)
    ensures Run(s, [e0, e1, e2, e3, e4]) == Step(Step(Step(Step(Step(s, e0), e1), e2), e3), e4)
  {
    var es := [e0, e1, e2, e3, e4];
    assert es[..4] == [e0, e1, e2, e3] && es[..4][..3] == [e0, e1, e2] && es[..4][..3][..2] == [e0, e1];
    RunTwo(s, e0, e1);
    assert Run(s, [e0, e1, e2]) == Step(Run(s, [e0, e1]), e2);
    assert Run(s, [e0, e1, e2, e3]) == Step(Run(s, [e0, e1, e2]), e3);
  }

  lemma RunThree(s: State, e0: Event, e1: Event, e2: Event)
    ensures Run(s, [e0, e1, e2]) == Step(Step(Step(s, e0), e1), e2)
  {
    assert [e0, e1, e2][..2] == [e0, e1];
    RunTwo(s, e0, e1);
  }

  // ---- one thread that keeps failing to pop ----

  /** One node, acquired `k` times, of which `h` are still held by thread `t`; the others idle. */
  function Spun(threads: set<Tid>, t: Tid, k: nat, h: nat, pc: Pc): State {
    State(map[1 := Node(7, StampedPtr(NULL, 0), h - k, k)], StampedPtr(1, k % STAMPS),
          (map u | u in threads :: Idle)[t := pc], false)
  }

  function Stamp(k: nat): nat { k % STAMPS + 1 }

  /** The reference is taken ... */
  lemma Taken(threads: set<Tid>, t: Tid, k: nat)
    ensures var s := Spun(threads, t, k, 0, PopLoading);
      Step(Step(s, Go(t, false)), Go(t, false)) == Spun(threads, t, k + 1, 1, PopReading(StampedPtr(1, Stamp(k))))
  {
    var link := StampedPtr(1, k % STAMPS);
    assert Step(Spun(threads, t, k, 0, PopLoading), Go(t, false)) == Spun(threads, t, k, 0, PopAcquiring(link));
    assert (k % STAMPS + 1) % STAMPS == (k + 1) % STAMPS;
  }

  /** ... and a compare-exchange fails spuriously. */
  lemma Failed(threads: set<Tid>, t: Tid, k: nat, up: StampedPtr)
    requires up.ptr == 1
    ensures var s := Spun(threads, t, k, 1, PopReading(up));
      Step(Step(s, Go(t, false)), Go(t, true)) == Spun(threads, t, k, 1, PopReleasing(up))
  {
    var next := StampedPtr(NULL, 0);
    assert Step(Spun(threads, t, k, 1, PopReading(up)), Go(t, false)) == Spun(threads, t, k, 1, PopSwinging(up, next));
  }

  /** Giving the reference back is exact until `global` would leave the int32_t range. */
  lemma GivenBack(threads: set<Tid>, t: Tid, k: nat, up: StampedPtr)
    requires 1 <= k && up.ptr == 1
    ensures var s' := Step(Spun(threads, t, k, 1, PopReleasing(up)), Go(t, false));
      if k <= 0x8000_0000 then s' == Spun(threads, t, k, 0, PopLoading) else k == 0x8000_0001 ==> s'.fault
  {
    assert Wrap32(-1) == -1;
  }

  function OneRound(t: Tid): seq<Event> {
    [Go(t, false), Go(t, false), Go(t, false), Go(t, true), Go(t, false)]
  }

  function Rounds(t: Tid, k: nat): seq<Event> {
    if k == 0 then [] else Rounds(t, k - 1) + OneRound(t)
  }

  lemma RoundSpins(threads: set<Tid>, t: Tid, k: nat)
    ensures var s' := Run(Spun(threads, t, k, 0, PopLoading), OneRound(t));
      if k < 0x8000_0000 then s' == Spun(threads, t, k + 1, 0, PopLoading) else k == 0x8000_0000 ==> s'.fault
  {
    var up := StampedPtr(1, Stamp(k));
    RunFive(Spun(threads, t, k, 0, PopLoading), Go(t, false), Go(t, false), Go(t, false), Go(t, true), Go(t, false));
    Taken(threads, t, k);
    Failed(threads, t, k + 1, up);
    GivenBack(threads, t, k + 1, up);
  }

  lemma {:induction false} RoundsSpin(threads: set<Tid>, t: Tid, k: nat)
    requires k <= 0x8000_0000
    ensures Run(Spun(threads, t, 0, 0, PopLoading), Rounds(t, k)) == Spun(threads, t, k, 0, PopLoading)
  {
    hide Step, Spun;
    if k > 0 {
      RoundsSpin(threads, t, k - 1);
      RunAppend(Spun(threads, t, 0, 0, PopLoading), Rounds(t, k - 1), OneRound(t));
      RoundSpins(threads, t, k - 1);
    }
  }

  function PushOne(t: Tid): seq<Event> { [Call(t, Push(7, 1)), Go(t, false), Return(t)] }

  lemma Pushed(threads: set<Tid>, t: Tid)
    requires t in threads
    ensures Run(Init(threads), PushOne(t)) == Spun(threads, t, 0, 0, Idle)
  {
    var i := Init(threads);
    RunThree(i, Call(t, Push(7, 1)), Go(t, false), Return(t));
    var n := Node(7, StampedPtr(NULL, 0), 0, 0);
    assert Step(i, Call(t, Push(7, 1))) == State(map[1 := n], StampedPtr(NULL, 0), i.pc[t := Pushing(1)], false);
  }

  function FailedPops(t: Tid, k: nat): seq<Event> { PushOne(t) + [Call(t, TryPop)] + Rounds(t, k) }

  lemma FailedPopsSpin(threads: set<Tid>, t: Tid, k: nat)
    requires t in threads && k <= 0x8000_0000
    ensures Run(Init(threads), FailedPops(t, k)) == Spun(threads, t, k, 0, PopLoading)
  {
    var i, called := Init(threads), PushOne(t) + [Call(t, TryPop)];
    Pushed(threads, t);
    RunAppend(i, PushOne(t), [Call(t, TryPop)]);
    RunOne(Spun(threads, t, 0, 0, Idle), Call(t, TryPop));
    assert Run(i, called) == Spun(threads, t, 0, 0, PopLoading);
    RunAppend(i, called, Rounds(t, k));
    RoundsSpin(threads, t, k);
  }

  /**
    The bound on acquisitions is exact: one thread pushes one value and fails to pop
    it 2^31 times (a weak compare-exchange may); giving back the next reference
    overflows the int32_t sum.
   */
  lemma ManyFailuresOverflow(threads: set<Tid>, t: Tid)
    requires t in threads
    ensures !Run(Init(threads), FailedPops(t, 0x8000_0000)).fault
    ensures Run(Init(threads), FailedPops(t, 0x8000_0000) + OneRound(t)).fault
  {
    FailedPopsSpin(threads, t, 0x8000_0000);
    RunAppend(Init(threads), FailedPops(t, 0x8000_0000), OneRound(t));
    RoundSpins(threads, t, 0x8000_0000);
  }

  // ---- popping, once a reference is held ----

  lemma Reads(s: State, t: Tid, up: StampedPtr)
    requires !s.fault && t in s.pc && up.ptr in s.heap
    ensures Step(At(s, t, PopReading(up)), Go(t, false)) == At(s, t, PopSwinging(up, s.heap[up.ptr].next))
  {
  }

  lemma Swings(s: State, t: Tid, up: StampedPtr, next: StampedPtr)
    requires !s.fault && t in s.pc && s.head == Truncate(up)
    ensures Step(At(s, t, PopSwinging(up, next)), Go(t, false)) == At(s.(head := Truncate(next)), t, PopTaking(up))
  {
  }

  lemma Takes(s: State, t: Tid, up: StampedPtr)
    requires !s.fault && t in s.pc && up.ptr in s.heap
    ensures Step(At(s, t, PopTaking(up)), Go(t, false)) == At(s, t, PopSettling(up, s.heap[up.ptr].value))
  {
  }

  /** With stamp 1 a popper adds nothing, and sees zero exactly if that is what is there. */
  lemma Settles(s: State, t: Tid, a: Address, x: Value)
    requires !s.fault && t in s.pc && a in s.heap && !Overflows(s.heap[a].global)
    ensures Step(At(s, t, PopSettling(StampedPtr(a, 1), x)), Go(t, false))
         == At(s.(heap := s.heap[a := s.heap[a].(owed := s.heap[a].owed - 1)]), t,
               if s.heap[a].global == 0 then PopDeleting(a, x) else PopDone(Some(x)))
  {
    assert Wrap32(0) == 0;
  }

  function PopIt(t: Tid): seq<Event> { [Go(t, false), Go(t, false), Go(t, false), Go(t, false)] }

  lemma RunFour(s: State, e: Event)
    ensures Run(s, [e, e, e, e]) == Step(Step(Step(Step(s, e), e), e), e)
  {
    assert [e, e, e, e][..3] == [e, e, e];
    RunThree(s, e, e, e);
  }

  /** What is left of a node popped with stamp 1: `t` deletes it exactly if `global` is zero. */
  function Popped(s: State, t: Tid): State
    requires 1 in s.heap
  {
    var n := s.heap[1];
    At(s.(head := Truncate(n.next), heap := s.heap[1 := n.(owed := n.owed - 1)]), t,
       if n.global == 0 then PopDeleting(1, n.value) else PopDone(Some(n.value)))
  }

  lemma PopSteps(s: State, t: Tid)
    requires !s.fault && t in s.pc && s.head == StampedPtr(1, 1) && 1 in s.heap && !Overflows(s.heap[1].global)
    ensures var e := Go(t, false);
      Step(Step(Step(Step(At(s, t, PopReading(StampedPtr(1, 1))), e), e), e), e) == Popped(s, t)
  {
    var up := StampedPtr(1, 1);
    var next := s.heap[1].next;
    assert Truncate(up) == up;
    hide Step, Truncate, Overflows, At;
    Reads(s, t, up);
    Swings(s, t, up, next);
    Takes(s.(head := Truncate(next)), t, up);
    Settles(s.(head := Truncate(next)), t, 1, s.heap[1].value);
  }

  lemma PopsIt(s: State, t: Tid)
    requires !s.fault && t in s.pc && s.pc[t] == PopReading(StampedPtr(1, 1)) && s.head == StampedPtr(1, 1)
    requires 1 in s.heap && !Overflows(s.heap[1].global)
    ensures Run(s, PopIt(t)) == Popped(s, t)
  {
    assert s == At(s, t, PopReading(StampedPtr(1, 1)));
    hide Step, Popped, Run, Overflows;
    RunFour(s, Go(t, false));
    PopSteps(s, t);
  }

  // ---- a leak ----

  function Leak(t: Tid): seq<Event> { FailedPops(t, STAMPS) + [Go(t, false), Go(t, false)] + PopIt(t) + [Return(t)] }

  lemma OnceMoreHeld(threads: set<Tid>, t: Tid)
    requires t in threads
    ensures Run(Init(threads), FailedPops(t, STAMPS) + [Go(t, false), Go(t, false)])
         == Spun(threads, t, STAMPS + 1, 1, PopReading(StampedPtr(1, 1)))
  {
    var i, g := Init(threads), Go(t, false);
    FailedPopsSpin(threads, t, STAMPS);
    RunAppend(i, FailedPops(t, STAMPS), [g, g]);
    RunTwo(Run(i, FailedPops(t, STAMPS)), g, g);
    hide Step, Run, FailedPops;
    Taken(threads, t, STAMPS);
    assert Stamp(STAMPS) == 1;
  }

  lemma PoppedAndLost(threads: set<Tid>, t: Tid)
    requires t in threads
    ensures var s := Run(Spun(threads, t, STAMPS + 1, 1, PopReading(StampedPtr(1, 1))), PopIt(t) + [Return(t)]);
      Quiet(s) && !s.fault && s.head.IsNull() && s.heap.Keys == {1}
  {
    var s := Spun(threads, t, STAMPS + 1, 1, PopReading(StampedPtr(1, 1)));
    PopsIt(s, t);
    RunAppend(s, PopIt(t), [Return(t)]);
    RunOne(Run(s, PopIt(t)), Return(t));
    hide Run;
  }

  /** One thread pushes one value, fails to pop it 2^16 times, pops it, and the node is never deleted. */
  lemma WrappedStampLeaks(threads: set<Tid>, t: Tid)
    requires t in threads
    ensures var s := Run(Init(threads), Leak(t));
      Quiet(s) && !s.fault && s.head.IsNull() && s.heap.Keys == {1}
  {
    OnceMoreHeld(threads, t);
    PoppedAndLost(threads, t);
    var held := FailedPops(t, STAMPS) + [Go(t, false), Go(t, false)];
    RunAppend(Init(threads), held, PopIt(t) + [Return(t)]);
    assert Leak(t) == held + (PopIt(t) + [Return(t)]);
  }

  // ---- a crowd of holders ----

  /** The threads of `ts` hold one acquisition each, taken in turn. */
  function CrowdPc(threads: set<Tid>, ts: seq<Tid>): map<Tid, Pc> {
    if ts == [] then map u | u in threads :: Idle
    else CrowdPc(threads, ts[..|ts| - 1])[ts[|ts| - 1] := PopReading(StampedPtr(1, |ts|))]
  }

  lemma {:induction false} CrowdPcs(threads: set<Tid>, ts: seq<Tid>)
    requires Distinct(ts) && forall u | u in ts :: u in threads
    ensures var pc := CrowdPc(threads, ts);
      && pc.Keys == threads
      && (forall u | u in threads && u !in ts :: pc[u] == Idle)
      && (forall i | 0 <= i < |ts| :: pc[ts[i]] == PopReading(StampedPtr(1, i + 1)))
  {
    if ts != [] { CrowdPcs(threads, ts[..|ts| - 1]); }
  }

  function Crowd(threads: set<Tid>, ts: seq<Tid>): State {
    State(map[1 := Node(7, StampedPtr(NULL, 0), 0, |ts|)], StampedPtr(1, |ts| % STAMPS), CrowdPc(threads, ts), false)
  }

  function Arrive(u: Tid): seq<Event> { [Call(u, TryPop), Go(u, false), Go(u, false)] }

  function Gather(ts: seq<Tid>): seq<Event> {
    if ts == [] then [] else Gather(ts[..|ts| - 1]) + Arrive(ts[|ts| - 1])
  }

  lemma Calls(s: State, u: Tid)
    requires !s.fault && u in s.pc && s.pc[u] == Idle
    ensures Step(s, Call(u, TryPop)) == At(s, u, PopLoading)
  {
  }

  lemma Loads(s: State, u: Tid)
    requires !s.fault && u in s.pc && s.pc[u] == PopLoading
    ensures Step(s, Go(u, false)) == At(s, u, PopAcquiring(s.head))
  {
  }

  lemma Acquires(s: State, u: Tid, cur: StampedPtr)
    requires !s.fault && u in s.pc && s.pc[u] == PopAcquiring(cur) && s.head == cur && cur.ptr != NULL && cur.stamp < STAMPS
    ensures var up := cur.IncrementStamp();
      Step(s, Go(u, false)) == At(s.(head := Truncate(up), heap := Acquired(s.heap, cur.ptr)), u, PopReading(up))
  {
  }

  /** Thread `u` acquires the node. */
  lemma Arrives(s: State, u: Tid)
    requires !s.fault && u in s.pc && s.pc[u] == Idle && s.head.ptr == 1 && s.head.stamp < STAMPS && 1 in s.heap
    ensures var up := s.head.IncrementStamp();
      Run(s, Arrive(u)) == s.(head := Truncate(up), heap := Acquired(s.heap, 1), pc := s.pc[u := PopReading(up)])
  {
    RunThree(s, Call(u, TryPop), Go(u, false), Go(u, false));
    Calls(s, u);
    Loads(At(s, u, PopLoading), u);
    Acquires(At(s, u, PopAcquiring(s.head)), u, s.head);
    hide Step;
  }

  lemma {:induction false} CrowdGathers(threads: set<Tid>, t: Tid, ts: seq<Tid>)
    requires Distinct(ts) && (forall u | u in ts :: u in threads) && |ts| <= STAMPS && t in threads
    ensures Run(Spun(threads, t, 0, 0, Idle), Gather(ts)) == Crowd(threads, ts)
  {
    hide Step, Truncate;
    if ts == [] {
      assert (map u | u in threads :: Idle)[t := Idle] == map u: Tid | u in threads :: Idle;
    } else {
      var n := |ts| - 1;
      var before := ts[..n];
      CrowdGathers(threads, t, before);
      RunAppend(Spun(threads, t, 0, 0, Idle), Gather(before), Arrive(ts[n]));
      OneMoreInCrowd(threads, ts);
    }
  }

  lemma OneMoreInCrowd(threads: set<Tid>, ts: seq<Tid>)
    requires Distinct(ts) && (forall u | u in ts :: u in threads) && 0 < |ts| <= STAMPS
    ensures Run(Crowd(threads, ts[..|ts| - 1]), Arrive(ts[|ts| - 1])) == Crowd(threads, ts)
  {
    var n := |ts| - 1;
    var u, s := ts[n], Crowd(threads, ts[..n]);
    LastIsIdle(threads, ts);
    Arrives(s, u);
    hide Run, Acquired, CrowdPc, Truncate, Distinct;
    AcquiredOnce(n);
    assert s.pc[u := PopReading(StampedPtr(1, n + 1))] == CrowdPc(threads, ts);
  }

  lemma LastIsIdle(threads: set<Tid>, ts: seq<Tid>)
    requires Distinct(ts) && (forall u | u in ts :: u in threads) && 0 < |ts|
    ensures var n := |ts| - 1;
      && ts[n] in CrowdPc(threads, ts[..n]) && CrowdPc(threads, ts[..n])[ts[n]] == Idle
      && CrowdPc(threads, ts) == CrowdPc(threads, ts[..n])[ts[n] := PopReading(StampedPtr(1, n + 1))]
  {
    CrowdPcs(threads, ts[..|ts| - 1]);
    assert ts[|ts| - 1] in ts;
  }

  lemma AcquiredOnce(n: nat)
    requires n < STAMPS
    ensures Acquired(map[1 := Node(7, StampedPtr(NULL, 0), 0, n)], 1) == map[1 := Node(7, StampedPtr(NULL, 0), 0, n + 1)]
    ensures Truncate(StampedPtr(1, n % STAMPS).IncrementStamp()) == StampedPtr(1, (n + 1) % STAMPS) && n % STAMPS == n
  {
  }

  function Disaster(t: Tid, ts: seq<Tid>): seq<Event>
    requires ts != []
  {
    PushOne(t) + Gather(ts) + Arrive(t) + PopIt(t) + [Go(t, false), Go(ts[0], false)]
  }

  /** With 2^16 other holders the popper's stamp adds up to zero: it deletes the node under all of them. */
  lemma PopsUnderCrowd(s: State, t: Tid, u: Tid)
    requires t in s.pc && u in s.pc && u != t && !s.fault
    requires s.pc[t] == PopReading(StampedPtr(1, 1)) && s.pc[u].PopReading? && s.pc[u].cur.ptr == 1
    requires s.head == StampedPtr(1, 1) && 1 in s.heap && s.heap[1].global == 0
    ensures Run(s, PopIt(t) + [Go(t, false), Go(u, false)]).fault
  {
    PopsIt(s, t);
    RunAppend(s, PopIt(t), [Go(t, false), Go(u, false)]);
    RunTwo(Run(s, PopIt(t)), Go(t, false), Go(u, false));
    hide Run, Truncate;
  }

  lemma DisasterStrikes(threads: set<Tid>, t: Tid, ts: seq<Tid>)
    requires Distinct(ts) && |ts| == STAMPS && t !in ts && t in threads && forall u | u in ts :: u in threads
    ensures Run(Init(threads), Disaster(t, ts)).fault
  {
    hide Step, Distinct, Crowd, Spun;
    var i := Init(threads);
    var gathered := PushOne(t) + Gather(ts);
    var rest := PopIt(t) + [Go(t, false), Go(ts[0], false)];
    Pushed(threads, t);
    RunAppend(i, PushOne(t), Gather(ts));
    CrowdGathers(threads, t, ts);
    Crowded(threads, t, ts);
    RunAppend(i, gathered, Arrive(t));
    RunAppend(i, gathered + Arrive(t), rest);
    hide Run;
    PopsUnderCrowd(Run(Crowd(threads, ts), Arrive(t)), t, ts[0]);
    assert Disaster(t, ts) == gathered + Arrive(t) + rest;
  }

  /** When 2^16 threads hold the node and one more acquires it, the stamp it holds is 1 again. */
  lemma Crowded(threads: set<Tid>, t: Tid, ts: seq<Tid>)
    requires Distinct(ts) && |ts| == STAMPS && t !in ts && t in threads && forall u | u in ts :: u in threads
    ensures var s := Run(Crowd(threads, ts), Arrive(t));
      && !s.fault && t in s.pc && ts[0] in s.pc
      && s.pc[t] == PopReading(StampedPtr(1, 1)) && s.pc[ts[0]] == PopReading(StampedPtr(1, 1))
      && s.head == StampedPtr(1, 1) && 1 in s.heap && s.heap[1].global == 0
  {
    CrowdPcs(threads, ts);
    Arrives(Crowd(threads, ts), t);
    assert ts[0] in ts;
    hide Run, CrowdPc;
  }

  // ---- the bound on the threads is exact ----

  predicate OwesAtMost(s: State, n: int) {
    forall a | a in s.heap :: s.heap[a].owed <= n
  }

  lemma StepOwes(s: State, e: Event, n: nat)
    requires OwesAtMost(s, n)
    ensures OwesAtMost(Step(s, e), n + 1)
  {
    hide Truncate, Wrap32;
  }

  lemma {:induction false} OwedAtMostEvents(threads: set<Tid>, es: seq<Event>)
    ensures OwesAtMost(Run(Init(threads), es), |es|)
  {
    if es != [] {
      hide OwesAtMost;
      OwedAtMostEvents(threads, es[..|es| - 1]);
      StepOwes(Run(Init(threads), es[..|es| - 1]), es[|es| - 1], |es| - 1);
    }
  }

  lemma ShortRunsAreCountable(threads: set<Tid>, es: seq<Event>)
    requires |es| <= 0x8000_0000
    ensures AlwaysCountable(Init(threads), es)
  {
    forall i | 0 <= i <= |es|
      ensures Countable(Run(Init(threads), es[..i]))
    {
      OwedAtMostEvents(threads, es[..i]);
    }
  }

  lemma {:induction false} GatherLength(ts: seq<Tid>)
    ensures |Gather(ts)| == 3 * |ts|
  {
    if ts != [] { GatherLength(ts[..|ts| - 1]); }
  }

  lemma {:induction false} Enumerate(xs: set<Tid>, n: nat) returns (ts: seq<Tid>)
    requires n <= |xs|
    ensures Distinct(ts) && |ts| == n && forall u | u in ts :: u in xs
  {
    if n == 0 {
      ts := [];
    } else {
      var x :| x in xs;
      ts := Enumerate(xs - {x}, n - 1);
      ts := [x] + ts;
    }
  }

  /**
    Safety, exactly: while no node is acquired more than 2^31 times, no run touches
    memory that is gone if there are at most 2^16 threads, and some run does if there
    are more.
   */
  lemma SafeExactlyUpTo65536Threads(threads: set<Tid>)
    ensures (forall es | AlwaysCountable(Init(threads), es) :: !Run(Init(threads), es).fault) <==> |threads| <= STAMPS
  {
    if |threads| <= STAMPS {
      forall es | AlwaysCountable(Init(threads), es)
        ensures !Run(Init(threads), es).fault
      {
        FewThreadsAreCounted(threads, es);
        SafeReclamation(threads, es);
      }
    } else {
      var t :| t in threads;
      var ts := Enumerate(threads - {t}, STAMPS);
      DisasterStrikes(threads, t, ts);
      GatherLength(ts);
      assert |Disaster(t, ts)| == 3 * STAMPS + 12;
      ShortRunsAreCountable(threads, Disaster(t, ts));
    }
  }
}
