/** A thread of the stack that is left alone finishes its operation, with the result of the sequential stack. */
module StackProgress {
  import opened Wrappers
  import opened StampedPtrs
  import opened StackModel
  import opened StackInvariant
  import opened StackReclamation
  import opened StackTheorems
  import opened StackLinearizability

  /** Has the thread an operation in progress? */
  predicate Busy(p: Pc) { !p.Idle? && !Returnable(p) }

  /** How many actions thread t is from the end of its operation, if no exchange fails by itself and nobody interferes. */
  function ActionsLeft(s: State, v: View, t: Tid): nat
    requires t in s.pc
  {
    var chain := |Segment(v, Taker(t))|;
    match s.pc[t]
    case Pushing(n) => if n in s.heap && s.head == s.heap[n].next then 1 else 2
    case PopLoading => 8
    case PopAcquiring(cur) => if s.head == cur then 7 else 8
    case PopReading(cur) => if s.head == Truncate(cur) then 6 else 12
    case PopSwinging(cur, _) => if s.head == Truncate(cur) then 5 else 11
    case PopTaking(_) => 4
    case PopSettling(_, _) => 3
    case PopDeleting(_, _) => 2
    case PopReleasing(_) => 10
    case PopRedeleting(_) => 9
    case ConsumeLoading => 4 * |v.shared| + 3
    case ConsumeSwinging(cur) => if s.head == cur then 4 * |v.shared| + 1 else 4 * |v.shared| + 2
    case ConsumeReading(_, _) => 4 * chain
    case ConsumeTaking(_, _, _) => 4 * chain - if chain > 0 then 1 else 0
    case ConsumeSettling(_, _, _) => 4 * chain - if chain > 0 then 2 else 0
    case ConsumeDeleting(_, _, _) => 4 * chain + 1
    case EmptyLoading => 1
    case _ => 0
  }

  predicate Nearer(s: State, v: View, t: Tid) {
    && t in s.pc && t in Step(s, Go(t, false)).pc
    && ActionsLeft(Step(s, Go(t, false)), StepView(s, v, Go(t, false)), t) < ActionsLeft(s, v, t)
  }

  predicate IsConsuming(p: Pc) {
    p.ConsumeLoading? || p.ConsumeSwinging? || p.ConsumeReading? || p.ConsumeTaking? || p.ConsumeSettling? || p.ConsumeDeleting?
  }

  /** Each action on its own brings the thread nearer to the end, whatever the others have left behind. */
  lemma ActionIsProgress(s: State, v: View, t: Tid)
    requires Inv(s, v) && t in s.pc && Busy(s.pc[t]) && !Miscounts(s, Go(t, false))
    ensures Nearer(s, v, t)
  {
    Known(s, v, t);
    HeadStampFits(s, v);
    StepKeepsInv(s, v, Go(t, false));
    assert !Step(s, Go(t, false)).fault;
    assert s.head.IsNull() <==> v.shared == [];
    if s.pc[t].ConsumeSettling? { SettledIsTaken(s, v, t); }
    hide Inv, IsChain, Miscounts;
    if IsConsuming(s.pc[t]) {
      ConsumeIsProgress(s, v, t);
    } else if Counting(s.pc[t]) || s.pc[t].PopDeleting? || s.pc[t].PopRedeleting? {
      CountIsProgress(s, v, t);
    } else {
      OtherIsProgress(s, v, t);
    }
    hide Nearer;
  }

  lemma CountIsProgress(s: State, v: View, t: Tid)
    requires t in s.pc && !s.fault && !Step(s, Go(t, false)).fault
    requires s.pc[t].PopSettling? || s.pc[t].PopReleasing? || s.pc[t].PopDeleting? || s.pc[t].PopRedeleting?
    ensures Nearer(s, v, t)
  {
    hide Sum, Overflows, Added;
  }

  lemma OtherIsProgress(s: State, v: View, t: Tid)
    requires t in s.pc && t in v.taken && !s.fault && !Step(s, Go(t, false)).fault && ThreadOk(s, v, t)
    requires Busy(s.pc[t]) && !IsConsuming(s.pc[t]) && !Counting(s.pc[t]) && !s.pc[t].PopDeleting? && !s.pc[t].PopRedeleting?
    requires s.head.stamp < STAMPS && Truncate(s.head) == s.head
    ensures Nearer(s, v, t)
  {
    hide IncrementGlobal, Delete, HolderOk, Owns, IsChain;
  }

  lemma ConsumeIsProgress(s: State, v: View, t: Tid)
    requires t in s.pc && v.taken.Keys == s.pc.Keys && !s.fault && !Step(s, Go(t, false)).fault && ThreadOk(s, v, t)
    requires IsConsuming(s.pc[t]) && s.head.stamp < STAMPS && Truncate(s.head) == s.head && (s.head.IsNull() <==> v.shared == [])
    requires s.pc[t].ConsumeSettling? ==> v.taken[t] != [] && s.pc[t].cur.ptr in s.heap
    ensures Nearer(s, v, t)
  {
    hide IsChain, Sum, Overflows, Added;
  }

  // ---- the result ----

  /** What the sequential stack makes of t's operation once it is completed, with nothing else happening. */
  function Completed(a: Spec, t: Tid): Spec
    requires t in a.ops
  {
    match a.ops[t]
    case SConsuming => a.(items := [], ops := a.ops[t := SConsumed(a.items, [])], removed := a.removed + multiset(a.items))
    case SConsumed(given, left) => a.(ops := a.ops[t := SConsumed(given + left, [])])
    case _ => LinearizeStep(a, t)
  }

  lemma LinearizeCompletes(a: Spec, t: Tid)
    requires t in a.ops
    ensures t in LinearizeStep(a, t).ops && Completed(LinearizeStep(a, t), t) == Completed(a, t)
  {
    if a.ops[t].SConsuming? { ConsumingCompletes(a, t); }
  }

  lemma ConsumingCompletes(a: Spec, t: Tid)
    requires t in a.ops && a.ops[t].SConsuming?
    ensures t in LinearizeStep(a, t).ops && Completed(LinearizeStep(a, t), t) == Completed(a, t)
  {
    var taken, given := SConsumed([], a.items), SConsumed(a.items, []);
    assert [] + a.items == a.items;
    assert a.ops[t := taken][t := given] == a.ops[t := given];
  }

  lemma DeliverCompletes(a: Spec, t: Tid)
    requires t in a.ops
    ensures t in SpecStep(a, Deliver(t)).ops && Completed(SpecStep(a, Deliver(t)), t) == Completed(a, t)
  {
    hide LinearizeStep;
    if a.ops[t].SConsumed? && a.ops[t].left != [] {
      var SConsumed(given, left) := a.ops[t];
      assert (given + [left[0]]) + left[1..] == given + left;
    }
  }

  lemma LabelIsOwn(s: State, t: Tid)
    requires t in s.pc
    ensures GoLabel(s, t, false) in {Stutter, Linearize(t), Deliver(t)}
  {
    hide CasSucceeds;
  }

  /** The thread's own actions do nothing to the sequential stack but complete its operation. */
  lemma LabelCompletes(s: State, a: Spec, t: Tid)
    requires t in s.pc && t in a.ops
    ensures var l := GoLabel(s, t, false);
      t in SpecStep(a, l).ops && Completed(SpecStep(a, l), t) == Completed(a, t)
  {
    hide GoLabel, LinearizeStep, Completed;
    LabelIsOwn(s, t);
    LinearizeCompletes(a, t);
    DeliverCompletes(a, t);
  }

  /** Thread t acts n times, its exchanges do not fail by themselves, and nobody else acts. */
  function Alone(s: State, t: Tid, n: nat): State
    decreases n
  {
    if n == 0 then s else Alone(Step(s, Go(t, false)), t, n - 1)
  }

  lemma CompletedIsSeen(s: State, v: View, a: Spec, t: Tid)
    requires Inv(s, v) && Represents(s, v, a) && t in s.pc && Returnable(s.pc[t])
    ensures t in a.ops && Completed(a, t) == a && SameOutcome(s.pc[t], a.ops[t]) && Spells(s.heap, s.head, a.items)
  {
    HeadSpells(s, v, a);
    assert a.ops[t] == AbsOp(s, v, t);
    hide Inv, Represents, Spells;
    ReturnableIsCompleted(s, v, a, t);
  }

  lemma HeadSpells(s: State, v: View, a: Spec)
    requires Inv(s, v) && Represents(s, v, a)
    ensures Spells(s.heap, s.head, a.items)
  {
    ChainSpells(s.heap, v.status, Shared, s.head, v.shared);
  }

  lemma ReturnableIsCompleted(s: State, v: View, a: Spec, t: Tid)
    requires t in s.pc && Returnable(s.pc[t]) && t in a.ops && a.ops[t] == AbsOp(s, v, t)
    ensures Completed(a, t) == a && SameOutcome(s.pc[t], a.ops[t])
  {
    hide Segment, Values;
    if s.pc[t].ConsumeDone? {
      assert s.pc[t].given + [] == s.pc[t].given;
      assert a == a.(ops := a.ops[t := a.ops[t]]);
    }
  }

  /** Either it miscounts on the way, or it is done, with this as its result and as the contents of the stack. */
  ghost predicate Ends(s: State, t: Tid, a: Spec)
    requires t in a.ops
  {
    || Miscounts(s, Go(t, false))
    || (t in s.pc && Returnable(s.pc[t]) && SameOutcome(s.pc[t], a.ops[t]) && Spells(s.heap, s.head, a.items))
  }

  lemma {:induction false} EndsAlone(s: State, v: View, a: Spec, t: Tid) returns (n: nat)
    requires Inv(s, v) && Represents(s, v, a) && t in s.pc && t in a.ops && (Busy(s.pc[t]) || Returnable(s.pc[t]))
    ensures t in Completed(a, t).ops && Ends(Alone(s, t, n), t, Completed(a, t))
    decreases ActionsLeft(s, v, t)
  {
    hide Inv, Represents, Step, StepView, SpecStep, Busy, Miscounts, ActionsLeft, LinearizeStep, GoLabel;
    var e := Go(t, false);
    if Miscounts(s, e) {
      n := 0;
      StillThere(a, t);
    } else if Returnable(s.pc[t]) {
      n := 0;
      CompletedIsSeen(s, v, a, t);
    } else {
      var s', v' := Step(s, e), StepView(s, v, e);
      ActionIsProgress(s, v, t);
      StepKeepsInv(s, v, e);
      StepRefines(s, v, a, e);
      LabelOfGo(s, t);
      LabelCompletes(s, a, t);
      StaysInOperation(s, v, t);
      n := EndsAlone(s', v', SpecStep(a, GoLabel(s, t, false)), t);
      n := n + 1;
    }
  }

  lemma StillThere(a: Spec, t: Tid)
    requires t in a.ops
    ensures t in Completed(a, t).ops
  {
  }

  lemma LabelOfGo(s: State, t: Tid)
    requires t in s.pc
    ensures Label(s, Go(t, false)) == GoLabel(s, t, false)
  {
  }

  lemma StaysInOperation(s: State, v: View, t: Tid)
    requires Inv(s, v) && t in s.pc && Busy(s.pc[t]) && !Miscounts(s, Go(t, false))
    ensures t in Step(s, Go(t, false)).pc
    ensures Busy(Step(s, Go(t, false)).pc[t]) || Returnable(Step(s, Go(t, false)).pc[t])
  {
    StepKeepsInv(s, v, Go(t, false));
    assert !s.fault && !Step(s, Go(t, false)).fault;
    hide Inv, Miscounts, Truncate, Sum, Overflows, Added;
  }

  /**
    From any state that a counted run can reach, with any other threads stopped anywhere:
    a thread that has called an operation and is left alone finishes it, with the result
    and the effect of the sequential stack, unless it miscounts.
   */
  lemma FinishesAlone(threads: set<Tid>, es: seq<Event>, t: Tid) returns (n: nat)
    requires var s := Run(Init(threads), es); Counted(Init(threads), es) && t in s.pc && s.pc[t] != Idle
    ensures var a := SpecRun(SpecInit(threads), Labels(Init(threads), es));
      t in a.ops && t in Completed(a, t).ops && Ends(Alone(Run(Init(threads), es), t, n), t, Completed(a, t))
  {
    var s, v := Run(Init(threads), es), RunView(Init(threads), FirstView(threads), es);
    var a := SpecRun(SpecInit(threads), Labels(Init(threads), es));
    RunRefines(threads, es);
    assert t in a.ops;
    n := EndsAlone(s, v, a, t);
  }

  /**
    The four operations, called by an idle thread and left alone: Push puts its value on
    top, TryPop takes the top or finds nothing, ConsumeAll gets everything from the top
    down, IsEmpty tells whether there is anything.
   */
  lemma CalledAlone(threads: set<Tid>, es: seq<Event>, t: Tid, op: Op) returns (n: nat)
    requires var s := Run(Init(threads), es);
      && Counted(Init(threads), es) && t in s.pc && s.pc[t] == Idle
      && (op.Push? ==> op.node != NULL && op.node !in s.heap)
    ensures var s := Run(Init(threads), es);
      var items := SpecRun(SpecInit(threads), Labels(Init(threads), es)).items;
      var s' := Alone(Step(s, Call(t, op)), t, n);
      && Spells(s.heap, s.head, items)
      && (Miscounts(s', Go(t, false)) || (t in s'.pc && match op
          case Push(x, _) => s'.pc[t] == PushDone && Spells(s'.heap, s'.head, [x] + items)
          case TryPop =>
            if items == [] then s'.pc[t] == PopDone(None) && Spells(s'.heap, s'.head, [])
            else s'.pc[t] == PopDone(Some(items[0])) && Spells(s'.heap, s'.head, items[1..])
          case ConsumeAll => s'.pc[t] == ConsumeDone(items) && Spells(s'.heap, s'.head, [])
          case IsEmpty => s'.pc[t] == EmptyDone(items == []) && Spells(s'.heap, s'.head, items)))
  {
    var s, v := Run(Init(threads), es), RunView(Init(threads), FirstView(threads), es);
    var a := SpecRun(SpecInit(threads), Labels(Init(threads), es));
    RunRefines(threads, es);
    Linearizable(threads, es);
    hide Run, RunView, SpecRun, Labels;
    n := CallEnds(s, v, a, t, op);
  }

  ghost predicate CallOutcome(s: State, t: Tid, op: Op, items: seq<Value>) {
    Miscounts(s, Go(t, false)) || (t in s.pc && match op
      case Push(x, _) => s.pc[t] == PushDone && Spells(s.heap, s.head, [x] + items)
      case TryPop =>
        if items == [] then s.pc[t] == PopDone(None) && Spells(s.heap, s.head, [])
        else s.pc[t] == PopDone(Some(items[0])) && Spells(s.heap, s.head, items[1..])
      case ConsumeAll => s.pc[t] == ConsumeDone(items) && Spells(s.heap, s.head, [])
      case IsEmpty => s.pc[t] == EmptyDone(items == []) && Spells(s.heap, s.head, items))
  }

  lemma CallEnds(s: State, v: View, a: Spec, t: Tid, op: Op) returns (n: nat)
    requires Inv(s, v) && Represents(s, v, a) && t in s.pc && s.pc[t] == Idle
    requires op.Push? ==> op.node != NULL && op.node !in s.heap
    ensures CallOutcome(Alone(Step(s, Call(t, op)), t, n), t, op, a.items)
  {
    var e := Call(t, op);
    var s', v', a' := Step(s, e), StepView(s, v, e), SpecStep(a, Label(s, e));
    assert a.ops[t] == AbsOp(s, v, t);
    StepKeepsInv(s, v, e);
    StepRefines(s, v, a, e);
    assert !s.fault;
    CallIsPending(s, a, t, op);
    hide Inv, Represents, Step, SpecStep, Label, Spells, StepView;
    n := EndsAlone(s', v', a', t);
    PendingEnds(Alone(s', t, n), a', t, op);
  }

  function Pending(op: Op): SpecOp {
    match op case Push(x, _) => SPushing(x) case TryPop => SPopping case ConsumeAll => SConsuming case IsEmpty => SAsking
  }

  lemma CallIsPending(s: State, a: Spec, t: Tid, op: Op)
    requires t in s.pc && s.pc[t] == Idle && !s.fault && t in a.ops && a.ops[t] == SIdle
    requires op.Push? ==> op.node != NULL && op.node !in s.heap
    ensures var s', a' := Step(s, Call(t, op)), SpecStep(a, Label(s, Call(t, op)));
      t in s'.pc && Busy(s'.pc[t]) && t in a'.ops && a'.ops[t] == Pending(op) && a'.items == a.items
  {
  }

  lemma PendingEnds(s: State, a: Spec, t: Tid, op: Op)
    requires t in a.ops && a.ops[t] == Pending(op) && t in Completed(a, t).ops && Ends(s, t, Completed(a, t))
    ensures CallOutcome(s, t, op, a.items)
  {
    hide Spells, Miscounts;
    if !Miscounts(s, Go(t, false)) { OutcomeDecides(s.pc[t], Completed(a, t).ops[t]); }
  }

  /** A returnable position is determined by its outcome. */
  lemma OutcomeDecides(p: Pc, op: SpecOp)
    requires Returnable(p) && SameOutcome(p, op)
    ensures match p case PushDone => op.SPushed? case PopDone(r) => op == SPopped(r)
      case ConsumeDone(g) => op == SConsumed(g, []) case EmptyDone(b) => op == SAsked(b) case _ => false
  {
  }
}
