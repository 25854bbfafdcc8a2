/** The stack refines an atomic LIFO sequence: one linearization point inside every operation, on every counted run. */
module StackLinearizability {
  import opened Wrappers
  import opened StampedPtrs
  import opened StackModel
  import opened StackInvariant
  import opened StackReclamation
  import opened StackTheorems

  // ---- the sequential specification ----

  /** What the specification knows about the operation a thread is in. */
  datatype SpecOp =
    | SIdle
    | SPushing(value: Value)
    | SPushed
    | SPopping
    | SPopped(result: Option<Value>)
    | SConsuming
    | SConsumed(given: seq<Value>, left: seq<Value>)
    | SAsking
    | SAsked(empty: bool)

  /** `items` is the stack, top first; the two ledgers record what ever went in and came out. */
  datatype Spec = Spec(items: seq<Value>, ops: map<Tid, SpecOp>, pushed: multiset<Value>, removed: multiset<Value>)

  datatype SpecEvent = SCall(t: Tid, op: Op) | Linearize(t: Tid) | Deliver(t: Tid) | SReturn(t: Tid) | Stutter

  function SpecInit(threads: set<Tid>): Spec {
    Spec([], map t | t in threads :: SIdle, multiset{}, multiset{})
  }

  /** The whole effect of an operation, at one instant. */
  function LinearizeStep(a: Spec, t: Tid): Spec
    requires t in a.ops
  {
    match a.ops[t]
    case SPushing(x) => a.(items := [x] + a.items, ops := a.ops[t := SPushed], pushed := a.pushed + multiset{x})
    case SPopping =>
      if a.items == [] then a.(ops := a.ops[t := SPopped(None)])
      else a.(items := a.items[1..], ops := a.ops[t := SPopped(Some(a.items[0]))],
              removed := a.removed + multiset{a.items[0]})
    case SConsuming =>
      a.(items := [], ops := a.ops[t := SConsumed([], a.items)], removed := a.removed + multiset(a.items))
    case SAsking => a.(ops := a.ops[t := SAsked(a.items == [])])
    case _ => a
  }

  function SpecStep(a: Spec, l: SpecEvent): Spec {
    match l
    case SCall(t, op) =>
      if t !in a.ops || a.ops[t] != SIdle then a
      else a.(ops := a.ops[t := match op case Push(x, _) => SPushing(x) case TryPop => SPopping
                                         case ConsumeAll => SConsuming case IsEmpty => SAsking])
    case Linearize(t) => if t in a.ops then LinearizeStep(a, t) else a
    case Deliver(t) =>
      if t in a.ops && a.ops[t].SConsumed? && a.ops[t].left != [] then
        var SConsumed(given, left) := a.ops[t];
        a.(ops := a.ops[t := SConsumed(given + [left[0]], left[1..])])
      else a
    case SReturn(t) =>
      if t in a.ops && (a.ops[t].SPushed? || a.ops[t].SPopped? || a.ops[t].SAsked?
                        || (a.ops[t].SConsumed? && a.ops[t].left == [])) then
        a.(ops := a.ops[t := SIdle])
      else a
    case Stutter => a
  }

  function SpecRun(a: Spec, ls: seq<SpecEvent>): Spec {
    if ls == [] then a else SpecStep(SpecRun(a, ls[..|ls| - 1]), ls[|ls| - 1])
  }

  // ---- where the linearization points are ----

  function GoLabel(s: State, t: Tid, spurious: bool): SpecEvent
    requires t in s.pc
  {
    match s.pc[t]
    case Pushing(n) => if n in s.heap && CasSucceeds(s.head, s.heap[n].next, spurious) then Linearize(t) else Stutter
    case PopAcquiring(cur) => if CasSucceeds(s.head, cur, spurious) && cur.IsNull() then Linearize(t) else Stutter
    case PopSwinging(cur, _) => if CasSucceeds(s.head, cur, spurious) then Linearize(t) else Stutter
    case ConsumeSwinging(cur) => if CasSucceeds(s.head, cur, spurious) then Linearize(t) else Stutter
    case ConsumeTaking(_, _, _) => Deliver(t)
    case EmptyLoading => Linearize(t)
    case _ => Stutter
  }

  function Label(s: State, e: Event): SpecEvent {
    if e.t !in s.pc then Stutter
    else match e
      case Call(t, op) =>
        if s.pc[t] == Idle && (op.Push? ==> op.node != NULL && op.node !in s.heap) then SCall(t, op) else Stutter
      case Go(t, spurious) => GoLabel(s, t, spurious)
      case Return(t) =>
        if Returnable(s.pc[t]) then SReturn(t) else Stutter
  }

  function Labels(s: State, es: seq<Event>): seq<SpecEvent> {
    if es == [] then []
    else Labels(s, es[..|es| - 1]) + [Label(Run(s, es[..|es| - 1]), es[|es| - 1])]
  }

  // ---- the abstraction ----

  function Values(heap: Heap, ch: seq<Address>): seq<Value> {
    if ch == [] then []
    else (if ch[0] in heap then [heap[ch[0]].value] else []) + Values(heap, ch[1..])
  }

  function ValueAt(heap: Heap, a: Address): Value {
    if a in heap then heap[a].value else 0
  }

  function AbsOp(s: State, v: View, t: Tid): SpecOp
    requires t in s.pc
  {
    var chain := Segment(v, Taker(t));
    match s.pc[t]
    case Idle => SIdle
    case Pushing(n) => SPushing(ValueAt(s.heap, n))
    case PushDone => SPushed
    case PopTaking(cur) => SPopped(Some(ValueAt(s.heap, cur.ptr)))
    case PopSettling(_, value) => SPopped(Some(value))
    case PopDeleting(_, value) => SPopped(Some(value))
    case PopDone(result) => SPopped(result)
    case PopLoading => SPopping
    case PopAcquiring(_) => SPopping
    case PopReading(_) => SPopping
    case PopSwinging(_, _) => SPopping
    case PopReleasing(_) => SPopping
    case PopRedeleting(_) => SPopping
    case ConsumeLoading => SConsuming
    case ConsumeSwinging(_) => SConsuming
    case ConsumeReading(_, given) => SConsumed(given, Values(s.heap, chain))
    case ConsumeTaking(_, _, given) => SConsumed(given, Values(s.heap, chain))
    case ConsumeSettling(_, _, given) => SConsumed(given, if chain == [] then [] else Values(s.heap, chain[1..]))
    case ConsumeDeleting(_, _, given) => SConsumed(given, Values(s.heap, chain))
    case ConsumeDone(given) => SConsumed(given, [])
    case EmptyLoading => SAsking
    case EmptyDone(b) => SAsked(b)
  }

  /** The specification state a machine state stands for, whatever its ledgers. */
  ghost predicate Represents(s: State, v: View, a: Spec) {
    && a.items == Values(s.heap, v.shared)
    && a.ops.Keys == s.pc.Keys
    && forall t {:trigger a.ops[t]} | t in s.pc :: a.ops[t] == AbsOp(s, v, t)
  }

  lemma {:induction false} ValuesFrame(heap: Heap, heap': Heap, ch: seq<Address>)
    requires forall a | a in ch :: a in heap && a in heap' && heap'[a].value == heap[a].value
    ensures Values(heap', ch) == Values(heap, ch)
  {
    if ch != [] {
      ValuesFrame(heap, heap', ch[1..]);
    }
  }

  lemma ThreadNodesLive(s: State, v: View, t: Tid)
    requires Inv(s, v) && t in s.pc
    ensures s.pc[t].Pushing? ==> s.pc[t].node in s.heap
    ensures s.pc[t].PopTaking? ==> s.pc[t].cur.ptr in s.heap
    ensures forall a | a in v.taken[t] :: a in s.heap
  {
    assert ThreadOk(s, v, t);
    match s.pc[t]
    case ConsumeReading(cur, _) => ChainMembers(s.heap, v.status, Taker(t), cur, v.taken[t]);
    case ConsumeTaking(cur, _, _) => ChainMembers(s.heap, v.status, Taker(t), cur, v.taken[t]);
    case ConsumeSettling(cur, _, _) => ChainMembers(s.heap, v.status, Taker(t), cur, v.taken[t]);
    case ConsumeDeleting(_, next, _) => ChainMembers(s.heap, v.status, Taker(t), next, v.taken[t]);
    case _ =>
  }

  /** Other threads' operations look the same to the specification after anybody's step. */
  lemma OtherOpKept(s: State, v: View, s': State, v': View, u: Tid)
    requires Inv(s, v) && Inv(s', v') && u in s.pc && u in s'.pc
    requires s'.pc[u] == s.pc[u] && v'.taken[u] == v.taken[u]
    requires forall a | a in s.heap && a in s'.heap :: s'.heap[a].value == s.heap[a].value
    ensures AbsOp(s', v', u) == AbsOp(s, v, u)
  {
    ThreadNodesLive(s, v, u);
    ThreadNodesLive(s', v', u);
    ValuesFrame(s.heap, s'.heap, v.taken[u]);
    if v.taken[u] != [] {
      ValuesFrame(s.heap, s'.heap, v.taken[u][1..]);
    }
  }

  // ---- the refinement ----

  predicate SameValues(heap: Heap, heap': Heap) {
    forall b {:trigger heap'[b]} | b in heap && b in heap' :: heap'[b].value == heap[b].value
  }

  /** Thread `t` stepped; the items and its own operation are as `a'` has them. */
  ghost predicate OwnRefined(s: State, v: View, s': State, v': View, t: Tid, a: Spec, a': Spec) {
    && t in s.pc && t in s'.pc && s'.pc == s.pc[t := s'.pc[t]]
    && v'.taken.Keys == v.taken.Keys && (forall u | u in v.taken && u != t :: v'.taken[u] == v.taken[u])
    && SameValues(s.heap, s'.heap)
    && a'.items == Values(s'.heap, v'.shared)
    && t in a.ops && t in a'.ops && a'.ops == a.ops[t := a'.ops[t]]
    && a'.ops[t] == AbsOp(s', v', t)
  }

  lemma OwnRefinedSuffices(s: State, v: View, s': State, v': View, t: Tid, a: Spec, a': Spec)
    requires Inv(s, v) && Inv(s', v') && Represents(s, v, a)
    requires OwnRefined(s, v, s', v', t, a, a')
    ensures Represents(s', v', a')
  {
    forall u | u in s'.pc
      ensures a'.ops[u] == AbsOp(s', v', u)
    {
      if u != t {
        OtherOpKept(s, v, s', v', u);
        assert a.ops[u] == AbsOp(s, v, u);
      }
    }
  }

  /** Values on the shared chain survive any step that does not move it. */
  lemma SharedValuesKept(s: State, v: View, s': State, v': View)
    requires Inv(s, v) && Inv(s', v') && v'.shared == v.shared && SameValues(s.heap, s'.heap)
    ensures Values(s'.heap, v'.shared) == Values(s.heap, v.shared)
  {
    ChainMembers(s.heap, v.status, Shared, s.head, v.shared);
    ChainMembers(s'.heap, v'.status, Shared, s'.head, v'.shared);
    ValuesFrame(s.heap, s'.heap, v.shared);
  }

  /** A step that leaves the chain alone and changes at most its own thread's operation to `op`. */
  lemma OnlyOpRefines(s: State, v: View, s': State, v': View, t: Tid, a: Spec, op: SpecOp)
    requires Inv(s, v) && Inv(s', v') && Represents(s, v, a)
    requires t in s.pc && t in s'.pc && s'.pc == s.pc[t := s'.pc[t]] && v'.shared == v.shared
    requires v'.taken.Keys == v.taken.Keys && (forall u | u in v.taken && u != t :: v'.taken[u] == v.taken[u])
    requires SameValues(s.heap, s'.heap) && op == AbsOp(s', v', t)
    ensures Represents(s', v', a.(ops := a.ops[t := op]))
  {
    SharedValuesKept(s, v, s', v');
    OwnRefinedSuffices(s, v, s', v', t, a, a.(ops := a.ops[t := op]));
  }

  predicate Unseeable(s: State, v: View, s': State, v': View, t: Tid) {
    && t in s.pc && t in s'.pc && s'.pc == s.pc[t := s'.pc[t]] && v'.shared == v.shared
    && v'.taken.Keys == v.taken.Keys && (forall u | u in v.taken && u != t :: v'.taken[u] == v.taken[u])
    && SameValues(s.heap, s'.heap) && AbsOp(s', v', t) == AbsOp(s, v, t)
  }

  /** A step the specification does not see. */
  lemma UnseenRefines(s: State, v: View, s': State, v': View, t: Tid, a: Spec)
    requires Inv(s, v) && Inv(s', v') && Represents(s, v, a)
    requires Unseeable(s, v, s', v', t)
    ensures Represents(s', v', a)
  {
    assert a.ops[t] == AbsOp(s, v, t);
    OnlyOpRefines(s, v, s', v', t, a, a.ops[t]);
    assert a == a.(ops := a.ops[t := a.ops[t]]);
  }

  lemma CallIsSeen(s: State, v: View, a: Spec, t: Tid, op: Op)
    requires t in s.pc && t in a.ops && a.ops[t] == SIdle && Label(s, Call(t, op)) != Stutter
    ensures var s', v' := CallStep(s, t, op), StepView(s, v, Call(t, op));
      && t in s'.pc && s'.pc == s.pc[t := s'.pc[t]] && v'.shared == v.shared && v'.taken == v.taken
      && SameValues(s.heap, s'.heap)
      && SpecStep(a, Label(s, Call(t, op))) == a.(ops := a.ops[t := AbsOp(s', v', t)])
  {
  }

  lemma CallRefines(s: State, v: View, a: Spec, t: Tid, op: Op)
    requires Inv(s, v) && Represents(s, v, a) && t in s.pc
    ensures Represents(CallStep(s, t, op), StepView(s, v, Call(t, op)), SpecStep(a, Label(s, Call(t, op))))
  {
    var s', v' := CallStep(s, t, op), StepView(s, v, Call(t, op));
    CallKeepsInv(s, v, t, op);
    assert a.ops[t] == AbsOp(s, v, t);
    if Label(s, Call(t, op)) != Stutter {
      CallIsSeen(s, v, a, t, op);
      OnlyOpRefines(s, v, s', v', t, a, AbsOp(s', v', t));
    }
  }

  lemma ReturnRefines(s: State, v: View, a: Spec, t: Tid)
    requires Inv(s, v) && Represents(s, v, a) && t in s.pc
    ensures Represents(Step(s, Return(t)), StepView(s, v, Return(t)), SpecStep(a, Label(s, Return(t))))
  {
    var e := Return(t);
    StepKeepsInv(s, v, e);
    assert a.ops[t] == AbsOp(s, v, t);
    if Label(s, e) != Stutter {
      OnlyOpRefines(s, v, Step(s, e), v, t, a, SIdle);
    }
  }

  /** The top of the chain is the top of the stack. */
  lemma TopValue(s: State, v: View)
    requires Inv(s, v)
    ensures s.head.IsNull() <==> v.shared == []
    ensures v.shared != [] ==>
      && s.head.ptr == v.shared[0] && s.head.ptr in s.heap
      && Values(s.heap, v.shared) == [s.heap[s.head.ptr].value] + Values(s.heap, v.shared[1..])
  {
  }

  lemma PushRefines(s: State, v: View, a: Spec, t: Tid, spurious: bool)
    requires Inv(s, v) && Represents(s, v, a) && t in s.pc && s.pc[t].Pushing?
    ensures Represents(GoStep(s, t, spurious), GoView(s, v, t, spurious), SpecStep(a, GoLabel(s, t, spurious)))
  {
    var s', v' := GoStep(s, t, spurious), GoView(s, v, t, spurious);
    PushStepKeepsInv(s, v, t, spurious);
    assert ThreadOk(s, v, t) && a.ops[t] == AbsOp(s, v, t);
    if CasSucceeds(s.head, s.heap[s.pc[t].node].next, spurious) {
      assert v'.shared[1..] == v.shared;
      OwnRefinedSuffices(s, v, s', v', t, a, LinearizeStep(a, t));
    } else {
      UnseenRefines(s, v, s', v', t, a);
    }
  }

  lemma AcquireRefines(s: State, v: View, a: Spec, t: Tid, spurious: bool)
    requires Inv(s, v) && Represents(s, v, a) && t in s.pc && s.pc[t].PopAcquiring?
    ensures Represents(GoStep(s, t, spurious), GoView(s, v, t, spurious), SpecStep(a, GoLabel(s, t, spurious)))
  {
    var s', v' := GoStep(s, t, spurious), GoView(s, v, t, spurious);
    PopStepKeepsInv(s, v, t, spurious);
    assert ThreadOk(s, v, t) && a.ops[t] == AbsOp(s, v, t);
    TopValue(s, v);
    if GoLabel(s, t, spurious) == Stutter {
      UnseenRefines(s, v, s', v', t, a);
    } else {
      OnlyOpRefines(s, v, s', v', t, a, SPopped(None));
    }
  }

  lemma SwingRefines(s: State, v: View, a: Spec, t: Tid, spurious: bool)
    requires Inv(s, v) && Represents(s, v, a) && t in s.pc && s.pc[t].PopSwinging?
    ensures Represents(GoStep(s, t, spurious), GoView(s, v, t, spurious), SpecStep(a, GoLabel(s, t, spurious)))
  {
    var s', v' := GoStep(s, t, spurious), GoView(s, v, t, spurious);
    PopStepKeepsInv(s, v, t, spurious);
    Known(s, v, t);
    assert a.ops[t] == AbsOp(s, v, t);
    TopValue(s, v);
    if GoLabel(s, t, spurious) == Stutter {
      hide Inv, IsChain;
      UnseenRefines(s, v, s', v', t, a);
    } else {
      SwingIsSeen(s, v, a, t, spurious);
      hide Inv, IsChain, OwnRefined;
      OwnRefinedSuffices(s, v, s', v', t, a, LinearizeStep(a, t));
    }
  }

  /** A successful pop takes the top item off the stack. */
  lemma SwingIsSeen(s: State, v: View, a: Spec, t: Tid, spurious: bool)
    requires Inv(s, v) && Represents(s, v, a) && t in s.pc && s.pc[t].PopSwinging? && GoLabel(s, t, spurious) != Stutter
    ensures OwnRefined(s, v, GoStep(s, t, spurious), GoView(s, v, t, spurious), t, a, LinearizeStep(a, t))
  {
    Known(s, v, t);
    assert a.ops[t] == AbsOp(s, v, t);
    TopValue(s, v);
    hide Inv, IsChain;
  }

  /** Reading the link, reading the value, counting and deleting: the specification sees none of it. */
  predicate Unseen(p: Pc) {
    || p.PopLoading? || p.PopReading? || p.PopTaking? || p.PopSettling? || p.PopReleasing?
    || p.PopDeleting? || p.PopRedeleting? || p.ConsumeLoading? || p.ConsumeReading?
  }

  lemma UnseenStepRefines(s: State, v: View, a: Spec, t: Tid, spurious: bool)
    requires Inv(s, v) && Represents(s, v, a) && t in s.pc && Unseen(s.pc[t]) && !Miscounts(s, Go(t, spurious))
    ensures Represents(GoStep(s, t, spurious), GoView(s, v, t, spurious), a)
  {
    var s', v' := GoStep(s, t, spurious), GoView(s, v, t, spurious);
    GoKeepsInv(s, v, t, spurious);
    UnseenIsUnseen(s, v, t, spurious);
    UnseenRefines(s, v, s', v', t, a);
  }

  lemma UnseenIsUnseen(s: State, v: View, t: Tid, spurious: bool)
    requires t in s.pc && Unseen(s.pc[t]) && !s.fault && !GoStep(s, t, spurious).fault
    ensures Unseeable(s, v, GoStep(s, t, spurious), GoView(s, v, t, spurious), t)
  {
  }

  lemma TakenIsTheHead(s: State, v: View, t: Tid)
    requires Inv(s, v) && t in s.pc && s.pc[t].ConsumeSwinging? && CasSucceeds(s.head, s.pc[t].cur, false)
    ensures s.pc[t].cur == s.head
    ensures s.head.IsNull() <==> v.shared == []
  {
    assert ThreadOk(s, v, t);
  }

  lemma TakeIsSeen(s: State, v: View, a: Spec, t: Tid, spurious: bool)
    requires t in s.pc && s.pc[t] == ConsumeSwinging(s.head) && CasSucceeds(s.head, s.head, spurious)
    requires v.taken.Keys == s.pc.Keys && (s.head.IsNull() <==> v.shared == [])
    requires t in a.ops && a.ops[t] == SConsuming && a.items == Values(s.heap, v.shared)
    ensures OwnRefined(s, v, GoStep(s, t, spurious), GoView(s, v, t, spurious), t, a, LinearizeStep(a, t))
  {
    hide IsChain, Inv, NodeOk, ThreadOk;
    assert Values(s.heap, []) == [];
    hide Values;
  }

  lemma TakeRefines(s: State, v: View, a: Spec, t: Tid, spurious: bool)
    requires Inv(s, v) && Represents(s, v, a) && t in s.pc && s.pc[t].ConsumeSwinging?
    ensures Represents(GoStep(s, t, spurious), GoView(s, v, t, spurious), SpecStep(a, GoLabel(s, t, spurious)))
  {
    var s', v' := GoStep(s, t, spurious), GoView(s, v, t, spurious);
    ConsumeStepKeepsInv(s, v, t, spurious);
    assert a.ops[t] == AbsOp(s, v, t);
    if GoLabel(s, t, spurious) == Stutter {
      UnseenRefines(s, v, s', v', t, a);
    } else {
      TakenIsTheHead(s, v, t);
      assert OwnRefined(s, v, s', v', t, a, LinearizeStep(a, t)) by { TakeIsSeen(s, v, a, t, spurious); }
      OwnRefinedSuffices(s, v, s', v', t, a, LinearizeStep(a, t));
    }
  }

  lemma NextOfTheTaken(s: State, v: View, t: Tid)
    requires Inv(s, v) && t in s.pc && s.pc[t].ConsumeTaking?
    ensures s.pc[t].cur.ptr in s.heap && v.taken[t] != []
    ensures Values(s.heap, v.taken[t]) == [s.heap[s.pc[t].cur.ptr].value] + Values(s.heap, v.taken[t][1..])
  {
    assert ThreadOk(s, v, t);
  }

  lemma DeliverRefines(s: State, v: View, a: Spec, t: Tid, spurious: bool)
    requires Inv(s, v) && Represents(s, v, a) && t in s.pc && s.pc[t].ConsumeTaking?
    ensures Represents(GoStep(s, t, spurious), GoView(s, v, t, spurious), SpecStep(a, GoLabel(s, t, spurious)))
  {
    var s' := GoStep(s, t, spurious);
    ConsumeStepKeepsInv(s, v, t, spurious);
    assert a.ops[t] == AbsOp(s, v, t);
    NextOfTheTaken(s, v, t);
    assert SpecStep(a, Deliver(t)) == a.(ops := a.ops[t := AbsOp(s', v, t)]);
    hide Inv;
    OnlyOpRefines(s, v, s', v, t, a, AbsOp(s', v, t));
  }

  /** The values still to be delivered, and those delivered, as the specification sees them. */
  lemma SettleKeepsTheRest(s: State, v: View, t: Tid, spurious: bool)
    requires Inv(s, v) && t in s.pc && s.pc[t].ConsumeSettling? && !Miscounts(s, Go(t, spurious))
    ensures Unseeable(s, v, GoStep(s, t, spurious), GoView(s, v, t, spurious), t)
  {
    var s', v' := GoStep(s, t, spurious), GoView(s, v, t, spurious);
    ConsumeSettleStepKeepsInv(s, v, t, spurious);
    SettledIsTaken(s, v, t);
    RestIsEmptyAtTheEnd(s', v', t);
    ThreadNodesLive(s, v, t);
    Known(s, v, t);
    hide Inv, IsChain, ThreadOk, Holders;
    assert v'.taken[t] == v.taken[t][1..];
    ValuesFrame(s.heap, s'.heap, v.taken[t][1..]);
  }

  lemma DeleteKeepsTheRest(s: State, v: View, t: Tid, spurious: bool)
    requires Inv(s, v) && t in s.pc && s.pc[t].ConsumeDeleting?
    ensures Unseeable(s, v, GoStep(s, t, spurious), GoView(s, v, t, spurious), t)
  {
    var s', v' := GoStep(s, t, spurious), GoView(s, v, t, spurious);
    DeleteStepKeepsInv(s, v, t, spurious);
    RestIsEmptyAtTheEnd(s', v', t);
    ThreadNodesLive(s, v, t);
    ThreadNodesLive(s', v', t);
    ValuesFrame(s.heap, s'.heap, v.taken[t]);
  }

  lemma SettledIsTaken(s: State, v: View, t: Tid)
    requires Inv(s, v) && t in s.pc && s.pc[t].ConsumeSettling?
    ensures v.taken[t] != [] && s.pc[t].cur.ptr in s.heap
  {
    assert ThreadOk(s, v, t);
  }

  lemma RestIsEmptyAtTheEnd(s: State, v: View, t: Tid)
    requires Inv(s, v) && t in s.pc
    ensures s.pc[t].ConsumeDone? ==> v.taken[t] == []
  {
    assert ThreadOk(s, v, t);
  }

  lemma WalkRefines(s: State, v: View, a: Spec, t: Tid, spurious: bool)
    requires Inv(s, v) && Represents(s, v, a) && t in s.pc && !Miscounts(s, Go(t, spurious))
    requires s.pc[t].ConsumeSettling? || s.pc[t].ConsumeDeleting?
    ensures Represents(GoStep(s, t, spurious), GoView(s, v, t, spurious), a)
  {
    var s', v' := GoStep(s, t, spurious), GoView(s, v, t, spurious);
    GoKeepsInv(s, v, t, spurious);
    if s.pc[t].ConsumeSettling? { SettleKeepsTheRest(s, v, t, spurious); } else { DeleteKeepsTheRest(s, v, t, spurious); }
    UnseenRefines(s, v, s', v', t, a);
  }

  lemma NullIsEmpty(s: State, v: View)
    requires Inv(s, v)
    ensures s.head.IsNull() <==> Values(s.heap, v.shared) == []
  {
    ChainMembers(s.heap, v.status, Shared, s.head, v.shared);
  }

  /** IsEmpty's load. */
  lemma EmptyStep(s: State, v: View, t: Tid, spurious: bool)
    requires Inv(s, v) && t in s.pc && s.pc[t].EmptyLoading?
    ensures var s' := At(s, t, EmptyDone(s.head.IsNull()));
      && GoStep(s, t, spurious) == s' && GoView(s, v, t, spurious) == v && GoLabel(s, t, spurious) == Linearize(t)
      && Inv(s', v)
  {
    GoKeepsInv(s, v, t, spurious);
    hide Inv;
  }

  lemma AskedOp(s: State, v: View, a: Spec, t: Tid)
    requires Represents(s, v, a) && t in s.pc && s.pc[t].EmptyLoading? && (s.head.IsNull() <==> a.items == [])
    ensures t in a.ops && SpecStep(a, Linearize(t)) == a.(ops := a.ops[t := SAsked(s.head.IsNull())])
  {
    assert a.ops[t] == AbsOp(s, v, t);
    hide Represents;
  }

  lemma EmptyRefines(s: State, v: View, a: Spec, t: Tid, spurious: bool)
    requires Inv(s, v) && Represents(s, v, a) && t in s.pc && s.pc[t].EmptyLoading?
    ensures Represents(GoStep(s, t, spurious), GoView(s, v, t, spurious), SpecStep(a, GoLabel(s, t, spurious)))
  {
    EmptyStep(s, v, t, spurious);
    NullIsEmpty(s, v);
    assert a.items == Values(s.heap, v.shared);
    AskedOp(s, v, a, t);
    hide Inv, Represents, GoStep, GoView, GoLabel, SpecStep;
    OnlyOpRefines(s, v, At(s, t, EmptyDone(s.head.IsNull())), v, t, a, SAsked(s.head.IsNull()));
  }

  lemma GoRefines(s: State, v: View, a: Spec, t: Tid, spurious: bool)
    requires Inv(s, v) && Represents(s, v, a) && t in s.pc && !Miscounts(s, Go(t, spurious))
    ensures Represents(GoStep(s, t, spurious), GoView(s, v, t, spurious), SpecStep(a, GoLabel(s, t, spurious)))
  {
    if Unseen(s.pc[t]) {
      UnseenStepRefines(s, v, a, t, spurious);
    } else {
      match s.pc[t]
      case Pushing(_) => PushRefines(s, v, a, t, spurious);
      case PopAcquiring(_) => AcquireRefines(s, v, a, t, spurious);
      case PopSwinging(_, _) => SwingRefines(s, v, a, t, spurious);
      case ConsumeSwinging(_) => TakeRefines(s, v, a, t, spurious);
      case ConsumeTaking(_, _, _) => DeliverRefines(s, v, a, t, spurious);
      case ConsumeSettling(_, _, _) => WalkRefines(s, v, a, t, spurious);
      case ConsumeDeleting(_, _, _) => WalkRefines(s, v, a, t, spurious);
      case EmptyLoading => EmptyRefines(s, v, a, t, spurious);
      case _ =>
    }
  }

  /** Every step of the machine is the step of the specification that its label names. */
  lemma StepRefines(s: State, v: View, a: Spec, e: Event)
    requires Inv(s, v) && Represents(s, v, a) && !Miscounts(s, e)
    ensures Represents(Step(s, e), StepView(s, v, e), SpecStep(a, Label(s, e)))
  {
    if e.t in s.pc {
      match e
      case Call(t, op) => CallRefines(s, v, a, t, op);
      case Return(t) => ReturnRefines(s, v, a, t);
      case Go(t, spurious) => GoRefines(s, v, a, t, spurious);
    }
  }

  lemma {:induction false} RunRefines(threads: set<Tid>, es: seq<Event>)
    requires Counted(Init(threads), es)
    ensures var s, v := Run(Init(threads), es), RunView(Init(threads), FirstView(threads), es);
      Inv(s, v) && Represents(s, v, SpecRun(SpecInit(threads), Labels(Init(threads), es)))
  {
    var s0, v0 := Init(threads), FirstView(threads);
    InitInv(threads);
    RunKeepsInv(s0, v0, es);
    if es != [] {
      var n := |es| - 1;
      CountedPrefix(s0, es);
      RunRefines(threads, es[..n]);
      var ls := Labels(s0, es);
      assert ls[..|ls| - 1] == Labels(s0, es[..n]);
      StepRefines(Run(s0, es[..n]), RunView(s0, v0, es[..n]), SpecRun(SpecInit(threads), Labels(s0, es[..n])), es[n]);
    }
  }

  /** Walking the links from `p` meets exactly these values. */
  ghost predicate Spells(heap: Heap, p: StampedPtr, items: seq<Value>)
    decreases |items|
  {
    if items == [] then p.IsNull()
    else p.ptr in heap && heap[p.ptr].value == items[0] && Spells(heap, heap[p.ptr].next, items[1..])
  }

  lemma {:induction false} ChainSpells(heap: Heap, status: map<Address, Status>, o: Owner, p: StampedPtr, ch: seq<Address>)
    requires IsChain(heap, status, o, p, ch)
    ensures Spells(heap, p, Values(heap, ch))
    decreases |ch|
  {
    if ch != [] {
      ChainSpells(heap, status, o, heap[ch[0]].next, ch[1..]);
      assert Values(heap, ch)[1..] == Values(heap, ch[1..]);
    }
  }

  /** Has the thread's operation the outcome the specification gave it at its linearization point? */
  predicate SameOutcome(p: Pc, op: SpecOp) {
    match p
    case Idle => op == SIdle
    case PushDone => op == SPushed
    case PopDone(result) => op == SPopped(result)
    case ConsumeDone(given) => op == SConsumed(given, [])
    case EmptyDone(b) => op == SAsked(b)
    case _ => true
  }

  /**
    Linearizability. On every run the specification, moved only by the labels (at
    most one Linearize between a call and its return), ends with the stack that the
    links spell, with the same outcome for every finished operation, and with
    everything ever pushed either removed or still on the stack.
   */
  lemma Linearizable(threads: set<Tid>, es: seq<Event>)
    requires Counted(Init(threads), es)
    ensures var s := Run(Init(threads), es);
      var a := SpecRun(SpecInit(threads), Labels(Init(threads), es));
      && Spells(s.heap, s.head, a.items)
      && a.ops.Keys == s.pc.Keys
      && (forall t | t in s.pc :: SameOutcome(s.pc[t], a.ops[t]))
      && a.pushed == a.removed + multiset(a.items)
  {
    var s, v := Run(Init(threads), es), RunView(Init(threads), FirstView(threads), es);
    var a := SpecRun(SpecInit(threads), Labels(Init(threads), es));
    RunRefines(threads, es);
    ChainSpells(s.heap, v.status, Shared, s.head, v.shared);
    Conserved(SpecInit(threads), Labels(Init(threads), es));
    forall t | t in s.pc
      ensures SameOutcome(s.pc[t], a.ops[t])
    {
      assert a.ops[t] == AbsOp(s, v, t);
    }
  }

  lemma {:induction false} Conserved(a: Spec, ls: seq<SpecEvent>)
    requires a.pushed == a.removed + multiset(a.items)
    ensures var z := SpecRun(a, ls); z.pushed == z.removed + multiset(z.items)
  {
    if ls != [] {
      Conserved(a, ls[..|ls| - 1]);
      StepConserves(SpecRun(a, ls[..|ls| - 1]), ls[|ls| - 1]);
    }
  }

  lemma StepConserves(a: Spec, l: SpecEvent)
    requires a.pushed == a.removed + multiset(a.items)
    ensures var z := SpecStep(a, l); z.pushed == z.removed + multiset(z.items)
  {
    if l.Linearize? && l.t in a.ops && a.ops[l.t].SPopping? && a.items != [] {
      assert a.items == [a.items[0]] + a.items[1..];
    }
  }

  /**
    What leaks. Between operations the live nodes are one for each item on the stack
    and one for each settlement that fell short: so nothing has leaked exactly if no
    settlement did.
   */
  lemma LeaksExactlyTheShortfalls(threads: set<Tid>, es: seq<Event>)
    requires Counted(Init(threads), es) && Quiet(Run(Init(threads), es))
    ensures var s := Run(Init(threads), es);
      var a := SpecRun(SpecInit(threads), Labels(Init(threads), es));
      |s.heap| == |a.items| + Shortfalls(Init(threads), es)
  {
    var s, v := Run(Init(threads), es), RunView(Init(threads), FirstView(threads), es);
    RunRefines(threads, es);
    RunLoses(threads, es);
    QuietNodes(s, v);
    ChainValues(s.heap, v.status, Shared, s.head, v.shared);
  }

  lemma {:induction false} ChainValues(heap: Heap, status: map<Address, Status>, o: Owner, p: StampedPtr, ch: seq<Address>)
    requires IsChain(heap, status, o, p, ch)
    ensures |Values(heap, ch)| == |ch|
    decreases |ch|
  {
    if ch != [] { ChainValues(heap, status, o, heap[ch[0]].next, ch[1..]); }
  }
}
