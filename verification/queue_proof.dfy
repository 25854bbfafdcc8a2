/** The two-stack queue is a FIFO queue: composed from the refinement proof of the stacks it uses. */
module QueueProof {
  import opened Wrappers
  import opened Collections
  import opened StampedPtrs
  import opened StackModel
  import opened StackInvariant
  import opened StackReclamation
  import opened StackTheorems
  import opened StackLinearizability
  import opened QueueModel

  /** The two stacks as their specifications see them. */
  datatype Stacks = Stacks(mainView: View, reserveView: View, main: Spec, reserve: Spec)

  ghost predicate StacksOk(q: Queue, k: Stacks) {
    && Inv(q.main, k.mainView) && Represents(q.main, k.mainView, k.main)
    && Inv(q.reserve, k.reserveView) && Represents(q.reserve, k.reserveView, k.reserve)
    && TAKER in q.main.pc && q.reserve.pc.Keys == {TAKER}
    && NeverPopped(q.main)
  }

  /** Nobody pops from `main`, so none of its nodes is ever acquired. */
  predicate NeverPopped(s: State) {
    && (forall t | t in s.pc :: Unpopping(s.pc[t]))
    && (forall t | t in s.pc && t != TAKER :: s.pc[t].Idle? || s.pc[t].Pushing? || s.pc[t].PushDone?)
    && (forall a | a in s.heap :: s.heap[a].owed == 0)
  }

  predicate Unpopping(p: Pc) {
    p.Idle? || p.Pushing? || p.PushDone? || p.ConsumeDone? || Consuming(p)
  }

  /** What the consumer's position says about the two stacks and the queue they make up. */
  predicate Composed(phase: Phase, a: Spec, b: Spec, f: Fifo)
    requires TAKER in a.ops && TAKER in b.ops
  {
    var atMain, atReserve := a.ops[TAKER], b.ops[TAKER];
    && f.legal
    && match phase
       case Resting => atMain == SIdle && atReserve == SIdle && f.items == b.items + Reversed(a.items)
       case Took(r) => atMain == SIdle && atReserve == SIdle && f.items == b.items + Reversed(a.items) && f.took == Some(r)
       case Asking =>
         && atMain == SIdle && (atReserve == SAsking || atReserve == SAsked(b.items == []))
         && f.items == b.items + Reversed(a.items) && f.took == None
       case Moving =>
         && atReserve == SIdle
         && (if atMain == SConsuming then b.items == [] && f.items == Reversed(a.items) && f.took == None
             else atMain.SConsumed? && Transferring(atMain.given, atMain.given, atMain.left, a, b, f))
       case Reserving =>
         && atMain.SConsumed? && atMain.given != []
         && var n := |atMain.given| - 1;
           || (atReserve == SPushing(atMain.given[n]) && Transferring(atMain.given[..n], atMain.given, atMain.left, a, b, f))
           || (atReserve == SPushed && Transferring(atMain.given, atMain.given, atMain.left, a, b, f))
       case Popping =>
         && atMain == SIdle && f.items == b.items + Reversed(a.items)
         && (if atReserve == SPopping then f.took == (if b.items == [] then Some(None) else None)
             else atReserve.SPopped? && f.took == Some(atReserve.result))
  }

  /** `moved` has reached the reserve, `given` has left the chain that was taken, `left` is still on it. */
  predicate Transferring(moved: seq<Value>, given: seq<Value>, left: seq<Value>, a: Spec, b: Spec, f: Fifo) {
    && b.items == Reversed(moved)
    && f.items == Reversed(given + left) + Reversed(a.items)
    && f.took == (if given + left == [] then Some(None) else None)
  }

  ghost predicate QueueOk(q: Queue, k: Stacks, f: Fifo) {
    StacksOk(q, k) && Composed(q.phase, k.main, k.reserve, f)
  }

  // ---- moving one of the stacks ----

  function MainMoved(q: Queue, k: Stacks, e: Event): Stacks {
    k.(mainView := StepView(q.main, k.mainView, e), main := SpecStep(k.main, Label(q.main, e)))
  }

  function ReserveMoved(q: Queue, k: Stacks, e: Event): Stacks {
    k.(reserveView := StepView(q.reserve, k.reserveView, e), reserve := SpecStep(k.reserve, Label(q.reserve, e)))
  }

  /** An event that `main` may see: a Push or a ConsumeAll. */
  predicate MainMay(e: Event) {
    (e.t != TAKER ==> ProducerMay(e)) && (e.Call? ==> e.op.Push? || e.op.ConsumeAll?)
  }

  lemma MainMoves(q: Queue, k: Stacks, e: Event)
    requires StacksOk(q, k) && MainMay(e)
    ensures StacksOk(OnMain(q, e), MainMoved(q, k, e))
  {
    MainCounts(q.main, k.mainView, e);
    StepKeepsInv(q.main, k.mainView, e);
    StepRefines(q.main, k.mainView, k.main, e);
    OnlyOneMoves(q.main, e);
    StaysUnpopped(q.main, k.mainView, e);
    hide Inv, Represents, StepView, SpecStep, Step, Label, NeverPopped;
  }

  /** No addition on `main` goes wrong: each adds nothing to nothing. */
  lemma MainCounts(s: State, v: View, e: Event)
    requires Inv(s, v) && NeverPopped(s)
    ensures !Miscounts(s, e)
  {
    if e.t in s.pc && s.pc[e.t].ConsumeSettling? {
      var a := s.pc[e.t].cur.ptr;
      Known(s, v, e.t);
      NodeKnown(s, v, a);
      assert Holders(s.pc, a) == {};
      assert Delta(s.pc[e.t]) == 0 && Wrap32(0) == 0;
    }
  }

  lemma StaysUnpopped(s: State, v: View, e: Event)
    requires Inv(s, v) && NeverPopped(s) && MainMay(e) && OneMoves(s, Step(s, e), e.t)
    ensures NeverPopped(Step(s, e))
  {
    if e.t in s.pc {
      Known(s, v, e.t);
      MoverStaysUnpopped(s, v, e);
    }
  }

  lemma MoverStaysUnpopped(s: State, v: View, e: Event)
    requires e.t in s.pc && e.t in v.taken && ThreadOk(s, v, e.t) && NeverPopped(s) && MainMay(e)
    ensures e.t in Step(s, e).pc
    ensures var p := Step(s, e).pc[e.t]; Unpopping(p) && (e.t != TAKER ==> p.Idle? || p.Pushing? || p.PushDone?)
    ensures forall a | a in Step(s, e).heap :: Step(s, e).heap[a].owed == 0
  {
    hide Truncate, Wrap32;
  }

  lemma OnlyOneMoves(s: State, e: Event)
    ensures OneMoves(s, Step(s, e), e.t)
  {
    if e.Go? && e.t in s.pc { GoMovesOne(s, e.t, e.spurious); }
  }

  predicate OneMoves(s: State, s': State, t: Tid) {
    s'.pc.Keys == s.pc.Keys && forall u | u in s.pc && u != t :: s'.pc[u] == s.pc[u]
  }

  predicate Consuming(p: Pc) {
    p.ConsumeLoading? || p.ConsumeSwinging? || p.ConsumeReading? || p.ConsumeTaking? || p.ConsumeSettling? || p.ConsumeDeleting?
  }

  lemma ConsumerMovesOne(s: State, t: Tid, spurious: bool)
    requires t in s.pc && Consuming(s.pc[t])
    ensures OneMoves(s, GoStep(s, t, spurious), t)
  {
    hide Truncate, Wrap32;
  }

  lemma OtherMovesOne(s: State, t: Tid, spurious: bool)
    requires t in s.pc && !Consuming(s.pc[t])
    ensures OneMoves(s, GoStep(s, t, spurious), t)
  {
    hide Truncate, Wrap32;
  }

  lemma GoMovesOne(s: State, t: Tid, spurious: bool)
    requires t in s.pc
    ensures OneMoves(s, GoStep(s, t, spurious), t)
  {
    hide GoStep, OneMoves;
    if Consuming(s.pc[t]) { ConsumerMovesOne(s, t, spurious); } else { OtherMovesOne(s, t, spurious); }
  }

  lemma ReserveMoves(q: Queue, k: Stacks, e: Event)
    requires StacksOk(q, k) && !Miscounts(q.reserve, e)
    ensures StacksOk(OnReserve(q, e), ReserveMoved(q, k, e))
  {
    StepKeepsInv(q.reserve, k.reserveView, e);
    StepRefines(q.reserve, k.reserveView, k.reserve, e);
    OnlyOneMoves(q.reserve, e);
    hide Inv, Represents, StepView, SpecStep, Step, Label, NeverPopped;
  }

  /** The consumer is alone on the reserve. */
  lemma ReserveCounts(q: Queue, k: Stacks, e: Event)
    requires StacksOk(q, k) && Countable(q.reserve)
    ensures !Miscounts(q.reserve, e)
  {
    assert |q.reserve.pc| == |q.reserve.pc.Keys| == 1;
    hide Inv, Represents, NeverPopped, Countable, Miscounts;
    FewThreadsStep(q.reserve, k.reserveView, e);
  }

  lemma TakerKnown(q: Queue, k: Stacks)
    requires StacksOk(q, k)
    ensures TAKER in k.main.ops && TAKER in k.reserve.ops && !q.main.fault && !q.reserve.fault
  {
  }

  lemma OpAtMain(q: Queue, k: Stacks, t: Tid)
    requires StacksOk(q, k) && t in q.main.pc
    ensures t in k.main.ops && k.main.ops[t] == AbsOp(q.main, k.mainView, t)
  {
  }

  lemma OpAtReserve(q: Queue, k: Stacks)
    requires StacksOk(q, k)
    ensures TAKER in k.reserve.ops && k.reserve.ops[TAKER] == AbsOp(q.reserve, k.reserveView, TAKER)
  {
  }

  // ---- producers ----

  lemma ProducerKeeps(q: Queue, k: Stacks, f: Fifo, e: Event)
    requires QueueOk(q, k, f) && ProducerMay(e)
    ensures QueueOk(OnMain(q, e), MainMoved(q, k, e), FifoStep(f, QLabel(q, Producer(e))))
  {
    hide Inv, Represents, Step, StepView, SpecStep, Label, QLabel;
    MainMoves(q, k, e);
    TakerKnown(q, k);
    TakerKnown(OnMain(q, e), MainMoved(q, k, e));
    ProducerTurns(q, k, e);
    var l := QLabel(q, Producer(e));
    if l.Enqueue? {
      var a := k.main;
      assert ([l.x] + a.items)[1..] == a.items;
      PutAppends(q.phase, a, MainMoved(q, k, e).main, k.reserve, f, l.x);
    }
  }

  /** A producer's event appends at its linearization point and is otherwise unseen. */
  lemma ProducerTurns(q: Queue, k: Stacks, e: Event)
    requires StacksOk(q, k) && ProducerMay(e) && TAKER in k.main.ops
    ensures var a, a', l := k.main, MainMoved(q, k, e).main, QLabel(q, Producer(e));
      && TAKER in a'.ops && a'.ops[TAKER] == a.ops[TAKER]
      && (l == Unseen || l.Enqueue?)
      && a'.items == (if l.Enqueue? then [l.x] + a.items else a.items)
  {
    if e.t in q.main.pc {
      OpAtMain(q, k, e.t);
      assert ThreadOk(q.main, k.mainView, e.t);
    }
  }

  lemma PutAppends(phase: Phase, a: Spec, a': Spec, b: Spec, f: Fifo, x: Value)
    requires TAKER in a.ops && TAKER in b.ops && TAKER in a'.ops && Composed(phase, a, b, f)
    requires a'.items == [x] + a.items && a'.items[1..] == a.items && a'.ops[TAKER] == a.ops[TAKER]
    ensures Composed(phase, a', b, FifoStep(f, Enqueue(x)))
  {
    assert Reversed(a'.items) == Reversed(a.items) + [x];
  }

  // ---- the consumer ----

  function OpOf(op: Op): SpecOp {
    match op case Push(x, _) => SPushing(x) case TryPop => SPopping case ConsumeAll => SConsuming case IsEmpty => SAsking
  }

  lemma ReserveReturns(q: Queue, k: Stacks)
    requires StacksOk(q, k) && Returnable(q.reserve.pc[TAKER])
    ensures var e := Return(TAKER);
      && StacksOk(OnReserve(q, e), ReserveMoved(q, k, e)) && OnReserve(q, e).reserve.pc[TAKER] == Idle
      && ReserveMoved(q, k, e).reserve == k.reserve.(ops := k.reserve.ops[TAKER := SIdle])
  {
    hide Inv, Represents, Step, StepView, SpecStep, Label;
    ReserveMoves(q, k, Return(TAKER));
    OpAtReserve(q, k);
    ReturnSeen(q.reserve, k.reserveView, k.reserve);
  }

  lemma MainReturns(q: Queue, k: Stacks)
    requires StacksOk(q, k) && Returnable(q.main.pc[TAKER])
    ensures var e := Return(TAKER);
      && StacksOk(OnMain(q, e), MainMoved(q, k, e)) && OnMain(q, e).main.pc[TAKER] == Idle
      && MainMoved(q, k, e).main == k.main.(ops := k.main.ops[TAKER := SIdle])
  {
    hide Inv, Represents, Step, StepView, SpecStep, Label;
    MainMoves(q, k, Return(TAKER));
    OpAtMain(q, k, TAKER);
    ReturnSeen(q.main, k.mainView, k.main);
  }

  lemma ReturnSeen(s: State, v: View, a: Spec)
    requires Inv(s, v) && TAKER in s.pc && Returnable(s.pc[TAKER])
    requires TAKER in a.ops && a.ops[TAKER] == AbsOp(s, v, TAKER)
    ensures TAKER in Step(s, Return(TAKER)).pc && Step(s, Return(TAKER)).pc[TAKER] == Idle
    ensures SpecStep(a, Label(s, Return(TAKER))) == a.(ops := a.ops[TAKER := SIdle])
  {
  }

  lemma CallSeen(s: State, v: View, a: Spec, op: Op)
    requires !s.fault && TAKER in s.pc && s.pc[TAKER] == Idle && (op.Push? ==> op.node != NULL && op.node !in s.heap)
    requires TAKER in a.ops && a.ops[TAKER] == AbsOp(s, v, TAKER)
    ensures SpecStep(a, Label(s, Call(TAKER, op))) == a.(ops := a.ops[TAKER := OpOf(op)])
  {
  }

  lemma ReserveCalled(q: Queue, k: Stacks, op: Op)
    requires StacksOk(q, k) && q.reserve.pc[TAKER] == Idle && (op.Push? ==> op.node != NULL && op.node !in q.reserve.heap)
    ensures var e := Call(TAKER, op);
      && StacksOk(OnReserve(q, e), ReserveMoved(q, k, e))
      && ReserveMoved(q, k, e).reserve == k.reserve.(ops := k.reserve.ops[TAKER := OpOf(op)])
  {
    hide Inv, Represents, Step, StepView, SpecStep, Label;
    ReserveMoves(q, k, Call(TAKER, op));
    OpAtReserve(q, k);
    TakerKnown(q, k);
    CallSeen(q.reserve, k.reserveView, k.reserve, op);
  }

  lemma MainCalled(q: Queue, k: Stacks, op: Op)
    requires StacksOk(q, k) && q.main.pc[TAKER] == Idle && op == ConsumeAll
    ensures var e := Call(TAKER, op);
      && StacksOk(OnMain(q, e), MainMoved(q, k, e))
      && MainMoved(q, k, e).main == k.main.(ops := k.main.ops[TAKER := OpOf(op)])
  {
    hide Inv, Represents, Step, StepView, SpecStep, Label;
    MainMoves(q, k, Call(TAKER, op));
    OpAtMain(q, k, TAKER);
    TakerKnown(q, k);
    CallSeen(q.main, k.mainView, k.main, op);
  }

  lemma CallKeeps(q: Queue, k: Stacks, f: Fifo) returns (k': Stacks)
    requires QueueOk(q, k, f) && q.phase == Resting
    ensures QueueOk(QStep(q, CallTake), k', FifoStep(f, Begin))
  {
    hide Inv, Represents, Step, StepView, SpecStep, Label;
    TakerKnown(q, k);
    IdleAtReserve(q, k);
    k' := ReserveMoved(q, k, Call(TAKER, IsEmpty));
    ReserveCalled(q, k, IsEmpty);
  }

  lemma IdleAtMain(q: Queue, k: Stacks)
    requires StacksOk(q, k)
    ensures k.main.ops[TAKER] == SIdle <==> q.main.pc[TAKER] == Idle
  {
    OpAtMain(q, k, TAKER);
  }

  lemma IdleAtReserve(q: Queue, k: Stacks)
    requires StacksOk(q, k)
    ensures k.reserve.ops[TAKER] == SIdle <==> q.reserve.pc[TAKER] == Idle
  {
    OpAtReserve(q, k);
  }

  lemma AskKeeps(q: Queue, k: Stacks, f: Fifo, spurious: bool, node: Address) returns (k': Stacks)
    requires QueueOk(q, k, f) && q.phase == Asking && Countable(q.reserve)
    ensures QueueOk(AskStep(q, spurious), k', FifoStep(f, QLabel(q, GoTake(spurious, node))))
  {
    hide Inv, Represents, Step, StepView, SpecStep, Label;
    TakerKnown(q, k);
    OpAtReserve(q, k);
    if q.reserve.pc[TAKER].EmptyDone? {
      var q1, k1 := OnReserve(q, Return(TAKER)), ReserveMoved(q, k, Return(TAKER));
      ReserveReturns(q, k);
      if q.reserve.pc[TAKER].empty {
        IdleAtMain(q1, k1);
        k' := MainMoved(q1, k1, Call(TAKER, ConsumeAll));
        MainCalled(q1, k1, ConsumeAll);
      } else {
        k' := ReserveMoved(q1, k1, Call(TAKER, TryPop));
        ReserveCalled(q1, k1, TryPop);
      }
    } else {
      k' := ReserveMoved(q, k, Go(TAKER, spurious));
      ReserveCounts(q, k, Go(TAKER, spurious));
      ReserveMoves(q, k, Go(TAKER, spurious));
      AskingTurns(q, k, spurious);
    }
  }

  lemma AskingTurns(q: Queue, k: Stacks, spurious: bool)
    requires StacksOk(q, k) && k.reserve.ops[TAKER] == SAsking
    requires k.reserve.ops[TAKER] == AbsOp(q.reserve, k.reserveView, TAKER)
    ensures ReserveMoved(q, k, Go(TAKER, spurious)).reserve
         == k.reserve.(ops := k.reserve.ops[TAKER := SAsked(k.reserve.items == [])])
  {
    TakerKnown(q, k);
    OnlyAskerAsks(q.reserve, k.reserveView, TAKER);
    hide Inv, Represents, StepView, GoStep, AbsOp;
  }

  lemma OnlyAskerAsks(s: State, v: View, t: Tid)
    requires t in s.pc && AbsOp(s, v, t) == SAsking
    ensures s.pc[t].EmptyLoading?
  {
  }

  /** An action of ConsumeAll on `main` other than handing a value to its callback. */
  lemma WalkKeeps(q: Queue, k: Stacks, f: Fifo, spurious: bool, node: Address) returns (k': Stacks)
    requires QueueOk(q, k, f) && q.phase == Moving
    requires !q.main.pc[TAKER].ConsumeTaking? && !q.main.pc[TAKER].ConsumeDone?
    ensures QueueOk(OnMain(q, Go(TAKER, spurious)), k', FifoStep(f, QLabel(q, GoTake(spurious, node))))
    ensures k'.mainView == StepView(q.main, k.mainView, Go(TAKER, spurious))
  {
    hide Inv, Represents, Step, StepView, SpecStep, Label;
    TakerKnown(q, k);
    var e := Go(TAKER, spurious);
    OpAtMain(q, k, TAKER);
    k' := MainMoved(q, k, e);
    MainMoves(q, k, e);
    WalkTurns(q, k, spurious, node);
    assert QueueOk(q, k, f) && k'.reserve == k.reserve && OnMain(q, e).phase == Moving;
    hide QLabel, StacksOk, MainMoved, OnMain, LinearizeStep, FifoStep;
    if k'.main != k.main { TakeComposes(k.main, k'.main, k.reserve, f); }
  }

  /** At its exchange ConsumeAll gets the whole stack, oldest last; an empty one is the answer "nothing". */
  lemma TakeComposes(a: Spec, a': Spec, b: Spec, f: Fifo)
    requires TAKER in a.ops && TAKER in b.ops && Composed(Moving, a, b, f)
    requires a.ops[TAKER] == SConsuming && a' == LinearizeStep(a, TAKER)
    ensures TAKER in a'.ops && Composed(Moving, a', b, FifoStep(f, if a.items == [] then DequeueNothing else Unseen))
  {
    if a.items == [] {
      assert Reversed(a.items) == [];
    } else {
      assert [] + a.items == a.items;
      assert Reversed(a.items) + [] == Reversed(a.items);
    }
  }

  /** ConsumeAll takes everything at its exchange; the rest of its walk is unseen. */
  lemma WalkTurns(q: Queue, k: Stacks, spurious: bool, node: Address)
    requires StacksOk(q, k) && q.phase == Moving && !q.main.pc[TAKER].ConsumeTaking? && !q.main.pc[TAKER].ConsumeDone?
    requires TAKER in k.main.ops && k.main.ops[TAKER] == AbsOp(q.main, k.mainView, TAKER)
    requires k.main.ops[TAKER].SConsuming? || k.main.ops[TAKER].SConsumed?
    ensures var a, a', l := k.main, MainMoved(q, k, Go(TAKER, spurious)).main, QLabel(q, GoTake(spurious, node));
      || (a' == a && l == Unseen)
      || (&& a.ops[TAKER] == SConsuming && a' == LinearizeStep(a, TAKER)
          && l == if a.items == [] then DequeueNothing else Unseen)
  {
    if Label(q.main, Go(TAKER, spurious)) != Stutter {
      TakenIsTheHead(q.main, k.mainView, TAKER);
      NullIsEmpty(q.main, k.mainView);
    }
  }

  lemma DeliveryTurns(q: Queue, k: Stacks, spurious: bool)
    requires StacksOk(q, k) && q.main.pc[TAKER].ConsumeTaking?
    requires TAKER in k.main.ops && k.main.ops[TAKER] == AbsOp(q.main, k.mainView, TAKER)
    ensures var a, a' := k.main, MainMoved(q, k, Go(TAKER, spurious)).main;
      && q.main.pc[TAKER].cur.ptr in q.main.heap
      && a.ops[TAKER].SConsumed? && a.ops[TAKER].left != []
      && a.ops[TAKER].left[0] == q.main.heap[q.main.pc[TAKER].cur.ptr].value
      && a' == a.(ops := a.ops[TAKER := SConsumed(a.ops[TAKER].given + [a.ops[TAKER].left[0]], a.ops[TAKER].left[1..])])
  {
    NextOfTheTaken(q.main, k.mainView, TAKER);
  }

  /** The callback receives the next value and starts pushing it onto the reserve. */
  lemma HandOverKeeps(q: Queue, k: Stacks, f: Fifo, spurious: bool, node: Address) returns (k': Stacks)
    requires QueueOk(q, k, f) && q.phase == Moving
    requires q.main.pc[TAKER].ConsumeTaking?
    ensures QueueOk(MoveStep(q, spurious, node), k', f)
    ensures MoveStep(q, spurious, node).phase == Reserving ==> k'.mainView == StepView(q.main, k.mainView, Go(TAKER, spurious))
  {
    hide Inv, Represents, Step, StepView, SpecStep, Label;
    TakerKnown(q, k);
    if q.main.pc[TAKER].cur.ptr !in q.main.heap || node == NULL || node in q.reserve.heap {
      k' := k;
      return;
    }
    var e := Go(TAKER, spurious);
    OpAtMain(q, k, TAKER);
    var x := q.main.heap[q.main.pc[TAKER].cur.ptr].value;
    var q1, k1 := OnMain(q, e), MainMoved(q, k, e);
    MainMoves(q, k, e);
    DeliveryTurns(q, k, spurious);
    IdleAtReserve(q1, k1);
    k' := ReserveMoved(q1, k1, Call(TAKER, Push(x, node)));
    ReserveCalled(q1, k1, Push(x, node));
    var SConsumed(given, left) := k.main.ops[TAKER];
    assert (given + [x])[..|given|] == given;
    assert (given + [x]) + left[1..] == given + left;
  }

  lemma DoneMeansAllGiven(q: Queue, k: Stacks)
    requires StacksOk(q, k) && q.main.pc[TAKER].ConsumeDone?
    ensures TAKER in k.main.ops && k.main.ops[TAKER].SConsumed? && k.main.ops[TAKER].left == []
  {
    OpAtMain(q, k, TAKER);
  }

  lemma WalkedKeeps(q: Queue, k: Stacks, f: Fifo, spurious: bool, node: Address) returns (k': Stacks)
    requires QueueOk(q, k, f) && q.phase == Moving && q.main.pc[TAKER].ConsumeDone?
    ensures QueueOk(MoveStep(q, spurious, node), k', f)
  {
    hide Inv, Represents, Step, StepView, SpecStep, Label;
    TakerKnown(q, k);
    OpAtMain(q, k, TAKER);
    var q1, k1 := OnMain(q, Return(TAKER)), MainMoved(q, k, Return(TAKER));
    MainReturns(q, k);
    IdleAtReserve(q1, k1);
    k' := ReserveMoved(q1, k1, Call(TAKER, TryPop));
    ReserveCalled(q1, k1, TryPop);
    DoneMeansAllGiven(q, k);
    var given := k.main.ops[TAKER].given;
    assert given + [] == given;
    ReversedLength(given);
  }

  lemma ReserveKeeps(q: Queue, k: Stacks, f: Fifo, spurious: bool, node: Address) returns (k': Stacks)
    requires QueueOk(q, k, f) && q.phase == Reserving && Countable(q.reserve)
    ensures QueueOk(ReserveStep(q, spurious), k', f) && k'.mainView == k.mainView
  {
    hide Inv, Represents, Step, StepView, SpecStep, Label;
    TakerKnown(q, k);
    OpAtReserve(q, k);
    if q.reserve.pc[TAKER].PushDone? {
      k' := ReserveMoved(q, k, Return(TAKER));
      ReserveReturns(q, k);
    } else {
      var e := Go(TAKER, spurious);
      k' := ReserveMoved(q, k, e);
      ReserveCounts(q, k, e);
      ReserveMoves(q, k, e);
      var given := k.main.ops[TAKER].given;
      var n := |given| - 1;
      ReversedSnoc(given[..n], given[n]);
      assert given[..n] + [given[n]] == given;
      PushingTurns(q, k, spurious);
    }
  }

  lemma PushingTurns(q: Queue, k: Stacks, spurious: bool)
    requires StacksOk(q, k) && TAKER in k.reserve.ops && !q.reserve.pc[TAKER].PushDone?
    requires k.reserve.ops[TAKER] == AbsOp(q.reserve, k.reserveView, TAKER) && (k.reserve.ops[TAKER].SPushing? || k.reserve.ops[TAKER] == SPushed)
    ensures var b, b' := k.reserve, ReserveMoved(q, k, Go(TAKER, spurious)).reserve;
      k.reserve.ops[TAKER].SPushing? && (b' == b || b' == LinearizeStep(b, TAKER))
  {
    assert q.reserve.pc[TAKER].Pushing?;
  }

  lemma PopKeeps(q: Queue, k: Stacks, f: Fifo, spurious: bool, node: Address) returns (k': Stacks)
    requires QueueOk(q, k, f) && q.phase == Popping && Countable(q.reserve)
    ensures QueueOk(PopStep(q, spurious), k', FifoStep(f, QLabel(q, GoTake(spurious, node))))
  {
    hide Inv, Represents, Step, StepView, SpecStep, Label;
    TakerKnown(q, k);
    OpAtReserve(q, k);
    if q.reserve.pc[TAKER].PopDone? {
      k' := ReserveMoved(q, k, Return(TAKER));
      ReserveReturns(q, k);
    } else {
      var e := Go(TAKER, spurious);
      k' := ReserveMoved(q, k, e);
      ReserveCounts(q, k, e);
      ReserveMoves(q, k, e);
      PoppingTurns(q, k, spurious, node);
      if k.reserve.items != [] {
        assert (k.reserve.items + Reversed(k.main.items))[1..] == k.reserve.items[1..] + Reversed(k.main.items);
      }
    }
  }

  lemma PoppingTurns(q: Queue, k: Stacks, spurious: bool, node: Address)
    requires StacksOk(q, k) && q.phase == Popping && TAKER in k.reserve.ops && !q.reserve.pc[TAKER].PopDone?
    requires k.reserve.ops[TAKER] == AbsOp(q.reserve, k.reserveView, TAKER) && (k.reserve.ops[TAKER].SPopping? || k.reserve.ops[TAKER].SPopped?)
    ensures var b, b', l := k.reserve, ReserveMoved(q, k, Go(TAKER, spurious)).reserve, QLabel(q, GoTake(spurious, node));
      || (b' == b && l == Unseen)
      || (&& b.ops[TAKER] == SPopping && b' == LinearizeStep(b, TAKER)
          && l == if b.items == [] then Unseen else Dequeue)
  {
    Known(q.reserve, k.reserveView, TAKER);
    NullIsEmpty(q.reserve, k.reserveView);
    assert k.reserve.items == Values(q.reserve.heap, k.reserveView.shared);
    hide StacksOk, Inv, Represents, IsChain, Values, StepView;
  }

  lemma QuietLabels(q: Queue, e: QEvent)
    requires TAKER in q.main.pc && TAKER in q.reserve.pc
    ensures e.Producer? && !ProducerMay(e.e) ==> QLabel(q, e) == Unseen
    ensures e.CallTake? ==> QLabel(q, e) == if q.phase == Resting then Begin else Unseen
    ensures e.GoTake? && q.phase == Moving && (q.main.pc[TAKER].ConsumeTaking? || q.main.pc[TAKER].ConsumeDone?) ==> QLabel(q, e) == Unseen
    ensures e.GoTake? && (q.phase == Reserving || q.phase == Resting || q.phase.Took?) ==> QLabel(q, e) == Unseen
    ensures e.ReturnTake? ==> QLabel(q, e) == Unseen
  {
  }

  /** Every event of the queue is the event of the sequential queue that its label names. */
  lemma QStepKeeps(q: Queue, k: Stacks, f: Fifo, e: QEvent) returns (k': Stacks)
    requires QueueOk(q, k, f) && Countable(q.reserve)
    ensures QueueOk(QStep(q, e), k', FifoStep(f, QLabel(q, e)))
  {
    hide Inv, Represents, Step, StepView, SpecStep, Label, QLabel, Countable, AskStep, MoveStep, ReserveStep, PopStep;
    QuietLabels(q, e);
    TakerKnown(q, k);
    match e
    case Producer(pe) => k' := ProducerCase(q, k, f, pe);
    case CallTake => if q.phase == Resting { k' := CallKeeps(q, k, f); } else { k' := k; }
    case ReturnTake => k' := k;
    case GoTake(spurious, node) => k' := TakerKeeps(q, k, f, spurious, node);
  }

  lemma ProducerCase(q: Queue, k: Stacks, f: Fifo, pe: Event) returns (k': Stacks)
    requires QueueOk(q, k, f)
    ensures QueueOk(QStep(q, Producer(pe)), k', FifoStep(f, QLabel(q, Producer(pe))))
  {
    hide Inv, Represents, Step, StepView, SpecStep, Label, QLabel;
    QuietLabels(q, Producer(pe));
    if ProducerMay(pe) {
      ProducerKeeps(q, k, f, pe);
      k' := MainMoved(q, k, pe);
    } else {
      k' := k;
    }
  }

  lemma TakerKeeps(q: Queue, k: Stacks, f: Fifo, spurious: bool, node: Address) returns (k': Stacks)
    requires QueueOk(q, k, f) && Countable(q.reserve)
    ensures QueueOk(QStep(q, GoTake(spurious, node)), k', FifoStep(f, QLabel(q, GoTake(spurious, node))))
  {
    hide Inv, Represents, Step, StepView, SpecStep, Label, QLabel, Countable, AskStep, ReserveStep, PopStep, Composed;
    QuietLabels(q, GoTake(spurious, node));
    match q.phase
    case Asking => k' := AskKeeps(q, k, f, spurious, node);
    case Moving =>
      if q.main.pc[TAKER].ConsumeTaking? {
        k' := HandOverKeeps(q, k, f, spurious, node);
      } else if q.main.pc[TAKER].ConsumeDone? {
        k' := WalkedKeeps(q, k, f, spurious, node);
      } else {
        k' := WalkKeeps(q, k, f, spurious, node);
      }
    case Reserving => k' := ReserveKeeps(q, k, f, spurious, node);
    case Popping => k' := PopKeeps(q, k, f, spurious, node);
    case _ => k' := k;
  }

  const EMPTY_FIFO: Fifo := Fifo([], None, true)

  lemma InitOk(producers: set<Tid>) returns (k: Stacks)
    ensures QueueOk(InitQueue(producers), k, EMPTY_FIFO)
  {
    var all := producers + {TAKER};
    InitInv(all);
    InitInv({TAKER});
    k := Stacks(FirstView(all), FirstView({TAKER}), SpecInit(all), SpecInit({TAKER}));
  }

  lemma {:induction false} QRunKeeps(producers: set<Tid>, es: seq<QEvent>) returns (k: Stacks)
    requires TakesFit(InitQueue(producers), es)
    ensures QueueOk(QRun(InitQueue(producers), es), k, FifoRun(EMPTY_FIFO, QLabels(InitQueue(producers), es)))
  {
    var q0 := InitQueue(producers);
    if es == [] {
      k := InitOk(producers);
    } else {
      var n := |es| - 1;
      forall i | 0 <= i <= n
        ensures Countable(QRun(q0, es[..n][..i]).reserve)
      {
        assert es[..n][..i] == es[..i];
      }
      k := QRunKeeps(producers, es[..n]);
      var ls := QLabels(q0, es);
      assert ls[..|ls| - 1] == QLabels(q0, es[..n]);
      k := QStepKeeps(QRun(q0, es[..n]), k, FifoRun(EMPTY_FIFO, QLabels(q0, es[..n])), es[n]);
    }
  }

  /**
    The two stacks make a FIFO queue. On every run, whatever the producers do, each
    Take is given exactly one answer by the sequential queue between its call and its
    return, the answer is legal there (the oldest item, or nothing when there is
    none), and it is the answer Take returns.
   */
  lemma QueueIsFifo(producers: set<Tid>, es: seq<QEvent>)
    requires TakesFit(InitQueue(producers), es)
    ensures var q := QRun(InitQueue(producers), es);
      var f := FifoRun(EMPTY_FIFO, QLabels(InitQueue(producers), es));
      && f.legal && (q.phase.Took? ==> f.took == Some(q.phase.result))
      && !q.main.fault && !q.reserve.fault
  {
    var k := QRunKeeps(producers, es);
    Reported(QRun(InitQueue(producers), es), k, FifoRun(EMPTY_FIFO, QLabels(InitQueue(producers), es)));
  }

  lemma Reported(q: Queue, k: Stacks, f: Fifo)
    requires QueueOk(q, k, f)
    ensures f.legal && (q.phase.Took? ==> f.took == Some(q.phase.result)) && !q.main.fault && !q.reserve.fault
  {
  }
}
