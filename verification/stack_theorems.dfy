/**
  What holds of every run of the stack that never miscounts, when that is, and
  what a run that does comes to.
 */
module StackTheorems {
  import opened StampedPtrs
  import opened StackModel
  import opened StackInvariant
  import opened StackReclamation

  function FirstView(threads: set<Tid>): View {
    View(map[], [], map t | t in threads :: [])
  }

  function RunView(s: State, v: View, es: seq<Event>): View {
    if es == [] then v
    else StepView(Run(s, es[..|es| - 1]), RunView(s, v, es[..|es| - 1]), es[|es| - 1])
  }

  lemma CountedPrefix(s: State, es: seq<Event>)
    requires es != [] && Counted(s, es)
    ensures Counted(s, es[..|es| - 1])
    ensures !Miscounts(Run(s, es[..|es| - 1]), es[|es| - 1])
  {
    var n := |es| - 1;
    forall i | 0 <= i < n
      ensures !Miscounts(Run(s, es[..n][..i]), es[..n][i])
    {
      assert es[..n][..i] == es[..i];
    }
  }

  lemma {:induction false} RunKeepsInv(s: State, v: View, es: seq<Event>)
    requires Inv(s, v) && Counted(s, es)
    ensures Inv(Run(s, es), RunView(s, v, es))
  {
    if es != [] {
      CountedPrefix(s, es);
      RunKeepsInv(s, v, es[..|es| - 1]);
      StepKeepsInv(Run(s, es[..|es| - 1]), RunView(s, v, es[..|es| - 1]), es[|es| - 1]);
    }
  }

  lemma InitInv(threads: set<Tid>)
    ensures Inv(Init(threads), FirstView(threads))
  {
  }

  lemma FromInit(threads: set<Tid>, es: seq<Event>)
    requires Counted(Init(threads), es)
    ensures Inv(Run(Init(threads), es), RunView(Init(threads), FirstView(threads), es))
  {
    InitInv(threads);
    RunKeepsInv(Init(threads), FirstView(threads), es);
  }

  // ---- safe reclamation ----

  /** May a thread at `p` still read or write node `a`? */
  predicate Uses(p: Pc, a: Address) {
    || Mentions(p, a)
    || ((p.ConsumeReading? || p.ConsumeTaking? || p.ConsumeSettling?) && p.cur.ptr == a)
  }

  /**
    Safe reclamation. Nobody touches or deletes an address that is not live, and no
    addition overflows; every node in use is live; a node has at most one deleter,
    and by then no other thread uses it and the head does not lead to it.
   */
  lemma SafeReclamation(threads: set<Tid>, es: seq<Event>)
    requires Counted(Init(threads), es)
    ensures var s := Run(Init(threads), es);
      && !s.fault
      && (forall t, a | t in s.pc && Uses(s.pc[t], a) :: a in s.heap)
      && (forall t, u, a | t in s.pc && u in s.pc && WillDelete(s.pc[t], a) && Uses(s.pc[u], a) :: t == u)
      && (forall t, a | t in s.pc && WillDelete(s.pc[t], a) :: a in s.heap && s.head.ptr != a && s.heap[a].global == 0)
  {
    var s, v := Run(Init(threads), es), RunView(Init(threads), FirstView(threads), es);
    FromInit(threads, es);
    forall t, a | t in s.pc && Uses(s.pc[t], a)
      ensures a in s.heap
    {
      UsedIsLive(s, v, t, a);
    }
    forall t, u, a | t in s.pc && u in s.pc && WillDelete(s.pc[t], a) && Uses(s.pc[u], a)
      ensures t == u
    {
      DoomedIsExclusive(s, v, t, u, a);
    }
    forall t, a | t in s.pc && WillDelete(s.pc[t], a)
      ensures a in s.heap && s.head.ptr != a && s.heap[a].global == 0
    {
      DoomedIsDone(s, v, t, a);
    }
  }

  lemma UsedIsLive(s: State, v: View, t: Tid, a: Address)
    requires Inv(s, v) && t in s.pc && Uses(s.pc[t], a)
    ensures a in s.heap
  {
    assert ThreadOk(s, v, t);
  }

  lemma DoomedIsDone(s: State, v: View, t: Tid, a: Address)
    requires Inv(s, v) && t in s.pc && WillDelete(s.pc[t], a)
    ensures a in s.heap && s.head.ptr != a && s.heap[a].global == 0
  {
    assert ThreadOk(s, v, t) && NodeOk(s, v, a);
  }

  lemma DoomedIsExclusive(s: State, v: View, t: Tid, u: Tid, a: Address)
    requires Inv(s, v) && t in s.pc && u in s.pc && WillDelete(s.pc[t], a) && Uses(s.pc[u], a)
    ensures t == u
  {
    assert ThreadOk(s, v, t) && ThreadOk(s, v, u) && NodeOk(s, v, a);
  }

  /** Does the stamped pointer lead to its node by the one link the node hangs from? */
  predicate LinkOf(p: Pc, cur: StampedPtr) {
    (p.ConsumeReading? || p.ConsumeTaking? || p.ConsumeSettling?) && p.cur == cur
  }

  /**
    The accounting, for every live node at every moment: `global` is its holders
    less what it owes for. While it hangs from the head, or from the cursor of a
    ConsumeAll, it owes at least for its holders, and the link's stamp is what it
    owes modulo 2^16; and so it is with the stamp of a popper that has detached it.
   */
  lemma Accounting(threads: set<Tid>, es: seq<Event>)
    requires Counted(Init(threads), es)
    ensures var s := Run(Init(threads), es);
      && (forall a | a in s.heap :: s.heap[a].global == |Holders(s.pc, a)| - s.heap[a].owed)
      && (!s.head.IsNull() ==> LinkCounts(s, s.head))
      && (forall t, cur | t in s.pc && LinkOf(s.pc[t], cur) :: LinkCounts(s, cur))
      && (forall t | t in s.pc && (s.pc[t].PopTaking? || s.pc[t].PopSettling?) :: DetacherCounts(s, s.pc[t].cur))
  {
    var s, v := Run(Init(threads), es), RunView(Init(threads), FirstView(threads), es);
    FromInit(threads, es);
    forall a | a in s.heap
      ensures s.heap[a].global == |Holders(s.pc, a)| - s.heap[a].owed
    {
      NodeKnown(s, v, a);
    }
    if !s.head.IsNull() { ChainCounts(s, v, Shared, s.head, v.shared); }
    forall t, cur | t in s.pc && LinkOf(s.pc[t], cur)
      ensures LinkCounts(s, cur)
    {
      Known(s, v, t);
      ChainCounts(s, v, Taker(t), cur, v.taken[t]);
    }
    forall t | t in s.pc && (s.pc[t].PopTaking? || s.pc[t].PopSettling?)
      ensures DetacherCounts(s, s.pc[t].cur)
    {
      Known(s, v, t);
      NodeKnown(s, v, s.pc[t].cur.ptr);
    }
  }

  predicate LinkCounts(s: State, link: StampedPtr) {
    && link.ptr in s.heap
    && link.stamp == s.heap[link.ptr].owed % STAMPS
    && |Holders(s.pc, link.ptr)| <= s.heap[link.ptr].owed
  }

  predicate DetacherCounts(s: State, cur: StampedPtr) {
    && cur.ptr in s.heap && 1 <= cur.stamp <= STAMPS
    && cur.stamp % STAMPS == s.heap[cur.ptr].owed % STAMPS
    && |Holders(s.pc, cur.ptr)| <= s.heap[cur.ptr].owed
  }

  lemma ChainCounts(s: State, v: View, o: Owner, p: StampedPtr, ch: seq<Address>)
    requires Inv(s, v) && !p.IsNull() && IsChain(s.heap, v.status, o, p, ch)
    ensures LinkCounts(s, p)
  {
    NodeKnown(s, v, p.ptr);
  }

  // ---- when a run miscounts ----

  /** With at most 2^16 threads, and no node acquired more than 2^31 times, no addition goes wrong. */
  lemma FewThreadsCount(s: State, v: View, t: Tid)
    requires Inv(s, v) && t in s.pc && Counting(s.pc[t]) && |s.pc| <= STAMPS && Countable(s)
    ensures s.pc[t].cur.ptr in s.heap
    ensures var a := s.pc[t].cur.ptr;
      var sum := Sum(s.heap[a], Delta(s.pc[t]));
      !Overflows(sum) && (sum == 0 ==> Holders(s.pc, a) - {t} == {})
  {
    var cur := s.pc[t].cur;
    Known(s, v, t);
    NodeKnown(s, v, cur.ptr);
    Exact32(Delta(s.pc[t]));
    HoldersAmongThreads(s.pc, t, cur.ptr);
    var rest, owed := |Holders(s.pc, cur.ptr) - {t}|, s.heap[cur.ptr].owed;
    assert s.pc[t].ConsumeSettling? ==> cur.stamp == owed % STAMPS;
    hide Inv, IsChain, Holders;
    if s.pc[t].PopSettling? {
      PaidInFull(owed, cur.stamp);
      NoSmallMultiple(owed - cur.stamp, rest);
    } else if s.pc[t].ConsumeSettling? {
      Remainder(owed);
      NoSmallMultiple(owed - cur.stamp, rest);
    } else if v.status[cur.ptr] == Settled {
      NoSmallMultiple(owed, rest);
    }
  }

  lemma FewThreadsStep(s: State, v: View, e: Event)
    requires Inv(s, v) && |s.pc| <= STAMPS && Countable(s)
    ensures !Miscounts(s, e)
  {
    hide Inv, Countable;
    if e.t in s.pc && Counting(s.pc[e.t]) {
      FewThreadsCount(s, v, e.t);
    }
  }

  lemma NoSmallMultiple(n: int, k: nat)
    requires n >= 0 && n % STAMPS == 0 && k < STAMPS
    ensures n == k ==> k == 0
  {
  }

  lemma HoldersAmongThreads(pc: map<Tid, Pc>, t: Tid, a: Address)
    requires t in pc
    ensures |Holders(pc, a) - {t}| < |pc|
    ensures |Holders(pc, a)| == |Holders(pc, a) - {t}| + (if Holds(pc[t], a) then 1 else 0)
    ensures |Holders(pc, a) - {t}| == 0 <==> Holders(pc, a) - {t} == {}
  {
    var rest := Holders(pc, a) - {t};
    Within(rest + {t}, pc.Keys);
    assert |pc| == |pc.Keys|;
    assert Holders(pc, a) == if Holds(pc[t], a) then rest + {t} else rest;
  }

  lemma {:induction false} Within(xs: set<Tid>, ys: set<Tid>)
    requires xs <= ys
    ensures |xs| <= |ys|
  {
    assert ys == xs + (ys - xs);
  }

  lemma StepKeepsThreads(s: State, e: Event)
    ensures Step(s, e).pc.Keys == s.pc.Keys
  {
    hide Truncate, Wrap32;
  }

  lemma {:induction false} RunKeepsThreads(s: State, es: seq<Event>)
    ensures Run(s, es).pc.Keys == s.pc.Keys
  {
    if es != [] {
      RunKeepsThreads(s, es[..|es| - 1]);
      StepKeepsThreads(Run(s, es[..|es| - 1]), es[|es| - 1]);
    }
  }

  /** The condition a user of the stack can check: at most 2^16 threads and 2^31 acquisitions of one node. */
  lemma {:induction false} FewThreadsAreCounted(threads: set<Tid>, es: seq<Event>)
    requires |threads| <= STAMPS && AlwaysCountable(Init(threads), es)
    ensures Counted(Init(threads), es)
  {
    hide Inv, Miscounts, Countable;
    var s0 := Init(threads);
    if es != [] {
      var n := |es| - 1;
      forall i | 0 <= i <= n
        ensures Countable(Run(s0, es[..n][..i]))
      {
        assert es[..n][..i] == es[..i];
      }
      FewThreadsAreCounted(threads, es[..n]);
      FromInit(threads, es[..n]);
      RunKeepsThreads(s0, es[..n]);
      var s := Run(s0, es[..n]);
      assert |s.pc| == |s.pc.Keys| && s0.pc.Keys == threads;
      FewThreadsStep(s, RunView(s0, FirstView(threads), es[..n]), es[n]);
      forall i | 0 <= i < |es|
        ensures !Miscounts(Run(s0, es[..i]), es[i])
      {
        if i < n { assert es[..n][..i] == es[..i] && es[..n][i] == es[i]; }
      }
    }
  }

  // ---- what a miscount comes to ----

  lemma {:induction false} RunAppend(s: State, es: seq<Event>, fs: seq<Event>)
    ensures Run(s, es + fs) == Run(Run(s, es), fs)
  {
    if fs == [] {
      assert es + fs == es;
    } else {
      var n := |fs| - 1;
      assert (es + fs)[..|es + fs| - 1] == es + fs[..n];
      RunAppend(s, es, fs[..n]);
    }
  }

  lemma RunOne(s: State, e: Event)
    ensures Run(s, [e]) == Step(s, e)
  {
    assert [e][..0] == [];
  }

  lemma RunTwo(s: State, e: Event, f: Event)
    ensures Run(s, [e, f]) == Step(Step(s, e), f)
  {
    assert [e, f][..1] == [e];
    RunOne(s, e);
  }

  /** Any holder of a node that is gone runs into it. */
  lemma StrandedHolderFaults(s: State, u: Tid, a: Address)
    requires !s.fault && u in s.pc && Holds(s.pc[u], a) && a !in s.heap
    ensures Run(s, [Go(u, true), Go(u, true)]).fault
  {
    RunTwo(s, Go(u, true), Go(u, true));
  }

  /** An addition that overflows faults; one that reaches zero too early leaves another holder to fault. */
  lemma MiscountFaults(s: State, e: Event) returns (fs: seq<Event>)
    requires !s.fault && Miscounts(s, e)
    ensures Run(s, [e] + fs).fault
  {
    RunOne(s, e);
    var a := s.pc[e.t].cur.ptr;
    if Overflows(Sum(s.heap[a], Delta(s.pc[e.t]))) {
      fs := [];
      assert [e] + fs == [e];
    } else {
      var u :| u in Holders(s.pc, a) - {e.t};
      var d, g := Go(e.t, false), Go(u, true);
      fs := [d] + [g, g];
      var s1 := Step(s, e);
      RunOne(s1, d);
      StrandedHolderFaults(Step(s1, d), u, a);
      RunAppend(s1, [d], [g, g]);
      RunAppend(s, [e], fs);
    }
  }

  lemma {:induction false} FirstMiscount(s: State, es: seq<Event>) returns (n: nat)
    requires !Counted(s, es)
    ensures n < |es| && Counted(s, es[..n]) && Miscounts(Run(s, es[..n]), es[n])
    decreases |es|
  {
    var i: nat :| i < |es| && Miscounts(Run(s, es[..i]), es[i]);
    if Counted(s, es[..i]) {
      n := i;
    } else {
      n := FirstMiscount(s, es[..i]);
      assert es[..i][..n] == es[..n];
    }
  }

  /** The stack can come to touch what is gone, or to overflow, exactly if it can come to miscount. */
  lemma FaultsExactlyByMiscounting(threads: set<Tid>)
    ensures (exists es :: Run(Init(threads), es).fault) <==> (exists es :: !Counted(Init(threads), es))
  {
    var s0 := Init(threads);
    if es :| Run(s0, es).fault {
      if Counted(s0, es) {
        FromInit(threads, es);
      }
      assert !Counted(s0, es);
    }
    if es :| !Counted(s0, es) {
      var n := FirstMiscount(s0, es);
      FromInit(threads, es[..n]);
      var fs := MiscountFaults(Run(s0, es[..n]), es[n]);
      RunAppend(s0, es[..n], [es[n]] + fs);
      assert Run(s0, es[..n] + ([es[n]] + fs)).fault;
    }
  }

  // ---- what is left behind ----

  predicate Quiet(s: State) {
    forall t | t in s.pc :: s.pc[t] == Idle
  }

  /** Is thread `e.t` about to settle a node with a stamp short of what the node owes? */
  predicate FallsShort(s: State, e: Event) {
    && e.Go? && e.t in s.pc && (s.pc[e.t].PopSettling? || s.pc[e.t].ConsumeSettling?)
    && var cur := s.pc[e.t].cur; cur.ptr in s.heap && s.heap[cur.ptr].owed != cur.stamp
  }

  /** How many settlements of the run fell short. */
  function Shortfalls(s: State, es: seq<Event>): nat {
    if es == [] then 0
    else Shortfalls(s, es[..|es| - 1]) + (if FallsShort(Run(s, es[..|es| - 1]), es[|es| - 1]) then 1 else 0)
  }

  /**
    A settlement falls short exactly if the node was acquired more than 2^16 times
    before a pop detached it, or 2^16 times or more before a ConsumeAll did.
   */
  lemma WhenItFallsShort(threads: set<Tid>, es: seq<Event>, t: Tid, spurious: bool)
    requires Counted(Init(threads), es)
    requires var s := Run(Init(threads), es); t in s.pc && (s.pc[t].PopSettling? || s.pc[t].ConsumeSettling?)
    ensures var s := Run(Init(threads), es);
      && s.pc[t].cur.ptr in s.heap
      && var owed := s.heap[s.pc[t].cur.ptr].owed;
        FallsShort(s, Go(t, spurious)) <==> if s.pc[t].PopSettling? then owed > STAMPS else owed >= STAMPS
  {
    var s, v := Run(Init(threads), es), RunView(Init(threads), FirstView(threads), es);
    FromInit(threads, es);
    hide Run, RunView, Counted;
    SettledInFull(s, v, t);
  }

  lemma SettledInFull(s: State, v: View, t: Tid)
    requires Inv(s, v) && t in s.pc && (s.pc[t].PopSettling? || s.pc[t].ConsumeSettling?)
    ensures s.pc[t].cur.ptr in s.heap
    ensures var cur := s.pc[t].cur;
      var owed := s.heap[cur.ptr].owed;
      owed != cur.stamp <==> if s.pc[t].PopSettling? then owed > STAMPS else owed >= STAMPS
  {
    Known(s, v, t);
    var cur := s.pc[t].cur;
    NodeKnown(s, v, cur.ptr);
    if s.pc[t].PopSettling? {
      SomeHolder(s.pc, t, cur.ptr);
      hide Inv, IsChain, Holders;
      PaidInFull(s.heap[cur.ptr].owed, cur.stamp);
    }
  }

  predicate IsLost(s: State, v: View, a: Address) {
    a in s.heap && a in v.status && v.status[a] == Settled && s.heap[a].owed != 0
  }

  /** Nodes that nothing leads to and that still owe: `global` will never be zero again. */
  function Lost(s: State, v: View): set<Address> {
    set a | a in s.heap && IsLost(s, v, a)
  }

  lemma LostAt(s: State, v: View, s': State, v': View, t: Tid, a: Address)
    requires OnlyAt(s, v, s', v', a)
    ensures |Lost(s', v')| == |Lost(s, v)| - (if IsLost(s, v, a) then 1 else 0) + (if IsLost(s', v', a) then 1 else 0)
  {
    var rest := Lost(s, v) - {a};
    assert Lost(s, v) == if IsLost(s, v, a) then rest + {a} else rest;
    assert Lost(s', v') == if IsLost(s', v', a) then rest + {a} else rest;
  }

  /** Only settling can lose a node, and nothing finds one again. */
  lemma OthersLoseNothing(s: State, v: View, e: Event)
    requires Inv(s, v) && !Miscounts(s, e) && Inv(Step(s, e), StepView(s, v, e))
    requires e.t in s.pc && !(e.Go? && (s.pc[e.t].PopSettling? || s.pc[e.t].ConsumeSettling?))
    ensures Lost(Step(s, e), StepView(s, v, e)) == Lost(s, v)
  {
    var s', v' := Step(s, e), StepView(s, v, e);
    Known(s, v, e.t);
    forall a
      ensures IsLost(s', v', a) <==> IsLost(s, v, a)
    {
      if a in s.heap { NodeKnown(s, v, a); }
      if a in s'.heap { NodeKnown(s', v', a); }
      LoseSame(s, v, e, a);
    }
  }

  /** What losing a node depends on, before and after a step. */
  ghost predicate LoseContext(s: State, v: View, e: Event, a: Address) {
    && e.t in s.pc && e.t in v.taken && ThreadOk(s, v, e.t) && v.status.Keys == s.heap.Keys && !s.fault && NULL !in s.heap
    && (!s.head.IsNull() ==> s.head.ptr in v.status && v.status[s.head.ptr].Linked?)
    && (a in s.heap ==> NodeOk(s, v, a))
    && var s', v' := Step(s, e), StepView(s, v, e);
      v'.status.Keys == s'.heap.Keys && (a in s'.heap ==> NodeOk(s', v', a))
  }

  lemma LoseSame(s: State, v: View, e: Event, a: Address)
    requires LoseContext(s, v, e, a) && !(e.Go? && (s.pc[e.t].PopSettling? || s.pc[e.t].ConsumeSettling?))
    ensures IsLost(Step(s, e), StepView(s, v, e), a) <==> IsLost(s, v, a)
  {
    if e.Go? {
      hide LoseContext, Step, StepView, IsLost;
      if s.pc[e.t].PopReleasing? { ReleaseLosesNothing(s, v, e, a); } else { MoveLosesNothing(s, v, e, a); }
    } else {
      hide GoStep, GoView, ThreadOk;
    }
  }

  lemma ReleaseLosesNothing(s: State, v: View, e: Event, a: Address)
    requires LoseContext(s, v, e, a) && e.Go? && s.pc[e.t].PopReleasing?
    ensures IsLost(Step(s, e), StepView(s, v, e), a) <==> IsLost(s, v, a)
  {
    hide IsChain, Holders, Truncate;
  }

  lemma MoveLosesNothing(s: State, v: View, e: Event, a: Address)
    requires LoseContext(s, v, e, a) && e.Go? && !Counting(s.pc[e.t])
    ensures IsLost(Step(s, e), StepView(s, v, e), a) <==> IsLost(s, v, a)
  {
    hide IsChain, Holders, Wrap32, IncrementGlobal;
  }

  lemma SettlingLoses(s: State, v: View, t: Tid, spurious: bool)
    requires Inv(s, v) && t in s.pc && (s.pc[t].PopSettling? || s.pc[t].ConsumeSettling?) && !Miscounts(s, Go(t, spurious))
    ensures |Lost(GoStep(s, t, spurious), GoView(s, v, t, spurious))|
         == |Lost(s, v)| + (if FallsShort(s, Go(t, spurious)) then 1 else 0)
  {
    var s', v' := GoStep(s, t, spurious), GoView(s, v, t, spurious);
    var a := s.pc[t].cur.ptr;
    GoKeepsInv(s, v, t, spurious);
    Known(s, v, t);
    NodeKnown(s, v, a);
    if a in s'.heap { NodeKnown(s', v', a); }
    hide Inv, IsChain, Holders;
    CountedSum(s, t, spurious);
    LostAt(s, v, s', v', t, a);
  }

  lemma StepLoses(s: State, v: View, e: Event)
    requires Inv(s, v) && !Miscounts(s, e)
    ensures |Lost(Step(s, e), StepView(s, v, e))| == |Lost(s, v)| + (if FallsShort(s, e) then 1 else 0)
  {
    StepKeepsInv(s, v, e);
    if e.t in s.pc {
      if e.Go? && (s.pc[e.t].PopSettling? || s.pc[e.t].ConsumeSettling?) {
        SettlingLoses(s, v, e.t, e.spurious);
      } else {
        OthersLoseNothing(s, v, e);
      }
    }
  }

  lemma {:induction false} RunLoses(threads: set<Tid>, es: seq<Event>)
    requires Counted(Init(threads), es)
    ensures var s0, v0 := Init(threads), FirstView(threads);
      |Lost(Run(s0, es), RunView(s0, v0, es))| == Shortfalls(s0, es)
  {
    var s0, v0 := Init(threads), FirstView(threads);
    if es == [] {
      assert Lost(s0, v0) == {};
    } else {
      var n := |es| - 1;
      CountedPrefix(s0, es);
      RunLoses(threads, es[..n]);
      FromInit(threads, es[..n]);
      StepLoses(Run(s0, es[..n]), RunView(s0, v0, es[..n]), es[n]);
    }
  }

  /** A live node of a quiet machine is on the chain from the head, or it is one of the lost. */
  lemma QuietNodes(s: State, v: View)
    requires Inv(s, v) && Quiet(s)
    ensures s.heap.Keys == Members(v.shared) + Lost(s, v) && Members(v.shared) !! Lost(s, v)
    ensures |s.heap| == |v.shared| + |Lost(s, v)|
  {
    forall t | t in s.pc
      ensures v.taken[t] == []
    {
      assert ThreadOk(s, v, t);
    }
    ChainMembers(s.heap, v.status, Shared, s.head, v.shared);
    ChainIsDistinct(s.heap, v.status, Shared, s.head, v.shared);
    forall a | a in s.heap
      ensures a in v.shared <==> a !in Lost(s, v)
    {
      QuietNode(s, v, a);
    }
    hide Inv, Quiet, IsChain;
    assert |s.heap| == |s.heap.Keys|;
  }

  lemma QuietNode(s: State, v: View, a: Address)
    requires Inv(s, v) && Quiet(s) && a in s.heap && forall t | t in s.pc :: v.taken[t] == []
    ensures a in v.status && (v.status[a] == Settled || (v.status[a].Linked? && a in v.shared))
    ensures v.status[a] == Settled ==> s.heap[a].owed != 0
  {
    NodeKnown(s, v, a);
    assert Holders(s.pc, a) == {};
  }
}
