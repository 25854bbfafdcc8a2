/** A Take that is left alone comes back, with the answer of the sequential queue. */
module QueueProgress {
  import opened Wrappers
  import opened StampedPtrs
  import opened StackModel
  import opened StackInvariant
  import opened StackReclamation
  import opened StackLinearizability
  import opened StackProgress
  import opened QueueModel
  import opened QueueProof
  import opened QueueCalls

  predicate Running(phase: Phase) { phase != Resting && !phase.Took? }

  // ---- the measure: what is left of the phases, of ConsumeAll on `main`, and of the call on the reserve ----

  function PhasesLeft(phase: Phase): nat {
    match phase case Asking => 3 case Moving => 2 case Reserving => 2 case Popping => 1 case _ => 0
  }

  function MainLeft(q: Queue, k: Stacks): nat
    requires TAKER in q.main.pc
  {
    if q.phase == Moving || q.phase == Reserving then ActionsLeft(q.main, k.mainView, TAKER) else 0
  }

  function ReserveLeft(q: Queue, k: Stacks): nat
    requires TAKER in q.reserve.pc
  {
    if Running(q.phase) && q.phase != Moving then ActionsLeft(q.reserve, k.reserveView, TAKER) + 1 else 0
  }

  predicate Closer(q: Queue, k: Stacks, q': Queue, k': Stacks)
    requires TAKER in q.main.pc && TAKER in q.reserve.pc && TAKER in q'.main.pc && TAKER in q'.reserve.pc
  {
    || PhasesLeft(q'.phase) < PhasesLeft(q.phase)
    || (&& PhasesLeft(q'.phase) == PhasesLeft(q.phase)
        && (|| MainLeft(q', k') < MainLeft(q, k)
            || (MainLeft(q', k') == MainLeft(q, k) && ReserveLeft(q', k') < ReserveLeft(q, k))))
  }

  lemma OpTells(s: State, v: View, t: Tid)
    requires t in s.pc && !AbsOp(s, v, t).SIdle? && !AbsOp(s, v, t).SConsuming? && !AbsOp(s, v, t).SConsumed?
    ensures !IsConsuming(s.pc[t]) && (Busy(s.pc[t]) || Returnable(s.pc[t]))
    ensures AbsOp(s, v, t).SPushing? ==> !Returnable(s.pc[t])
    ensures s.pc[t].PushDone? ==> AbsOp(s, v, t).SPushed?
    ensures s.pc[t].PopDone? ==> AbsOp(s, v, t).SPopped?
    ensures s.pc[t].EmptyDone? ==> AbsOp(s, v, t).SAsked?
  {
    hide Values;
  }

  /** Where the consumer is on the reserve while it is not on `main`. */
  lemma AtReserve(q: Queue, k: Stacks, f: Fifo)
    requires QueueOk(q, k, f) && Running(q.phase) && q.phase != Moving
    ensures var p := q.reserve.pc[TAKER];
      && !IsConsuming(p)
      && (q.phase == Asking ==> Busy(p) || p.EmptyDone?)
      && (q.phase == Reserving ==> Busy(p) || p.PushDone?)
      && (q.phase == Popping ==> Busy(p) || p.PopDone?)
  {
    hide Inv, Represents, NeverPopped;
    OpAtReserve(q, k);
    TakerKnown(q, k);
    OpTells(q.reserve, k.reserveView, TAKER);
    hide AbsOp;
  }

  /** Where it is on `main` while it moves the items. */
  lemma AtMain(q: Queue, k: Stacks, f: Fifo)
    requires QueueOk(q, k, f) && q.phase == Moving
    ensures Busy(q.main.pc[TAKER]) || q.main.pc[TAKER].ConsumeDone?
  {
    OpAtMain(q, k, TAKER);
    hide Inv, Represents, NeverPopped, Values;
  }

  /** An action on the reserve that stays in its phase. */
  lemma ReserveActs(q: Queue, k: Stacks, k': Stacks)
    requires StacksOk(q, k) && Countable(q.reserve) && StacksOk(OnReserve(q, Go(TAKER, false)), k')
    requires Busy(q.reserve.pc[TAKER]) && (q.phase == Reserving ==> k'.mainView == k.mainView)
    requires Running(q.phase) && q.phase != Moving
    requires !IsConsuming(OnReserve(q, Go(TAKER, false)).reserve.pc[TAKER])
    ensures Closer(q, k, OnReserve(q, Go(TAKER, false)), k')
  {
    hide Inv, Represents, Step, StepView, NeverPopped, Countable, ActionsLeft, Miscounts, IsConsuming;
    ReserveCounts(q, k, Go(TAKER, false));
    ActionIsProgress(q.reserve, k.reserveView, TAKER);
    var s' := Step(q.reserve, Go(TAKER, false));
    ViewDoesNotMatter(s', StepView(q.reserve, k.reserveView, Go(TAKER, false)), k'.reserveView, TAKER);
  }

  lemma ViewDoesNotMatter(s: State, v: View, v': View, t: Tid)
    requires t in s.pc && !IsConsuming(s.pc[t])
    ensures ActionsLeft(s, v, t) == ActionsLeft(s, v', t)
  {
    hide Segment;
  }

  lemma AskCloser(q: Queue, k: Stacks, f: Fifo, node: Address) returns (k': Stacks)
    requires QueueOk(q, k, f) && Countable(q.reserve) && q.phase == Asking
    ensures QueueOk(AskStep(q, false), k', FifoStep(f, QLabel(q, GoTake(false, node)))) && Closer(q, k, AskStep(q, false), k')
  {
    hide Inv, Represents, NeverPopped, Countable, Step, StepView, QLabel, FifoStep, IsConsuming, Composed, ActionsLeft;
    AtReserve(q, k, f);
    k' := AskKeeps(q, k, f, false, node);
    if Busy(q.reserve.pc[TAKER]) {
      AtReserve(AskStep(q, false), k', FifoStep(f, QLabel(q, GoTake(false, node))));
      ReserveActs(q, k, k');
    }
  }

  lemma PopCloser(q: Queue, k: Stacks, f: Fifo, node: Address) returns (k': Stacks)
    requires QueueOk(q, k, f) && Countable(q.reserve) && q.phase == Popping
    ensures QueueOk(PopStep(q, false), k', FifoStep(f, QLabel(q, GoTake(false, node)))) && Closer(q, k, PopStep(q, false), k')
  {
    hide Inv, Represents, NeverPopped, Countable, Step, StepView, QLabel, FifoStep, IsConsuming, Composed, ActionsLeft;
    AtReserve(q, k, f);
    k' := PopKeeps(q, k, f, false, node);
    if Busy(q.reserve.pc[TAKER]) {
      AtReserve(PopStep(q, false), k', FifoStep(f, QLabel(q, GoTake(false, node))));
      ReserveActs(q, k, k');
    }
  }

  lemma ReserveCloser(q: Queue, k: Stacks, f: Fifo, node: Address) returns (k': Stacks)
    requires QueueOk(q, k, f) && Countable(q.reserve) && q.phase == Reserving
    ensures QueueOk(ReserveStep(q, false), k', f) && Closer(q, k, ReserveStep(q, false), k')
  {
    hide Inv, Represents, NeverPopped, Countable, Step, StepView, QLabel, FifoStep, IsConsuming, Composed, ActionsLeft;
    AtReserve(q, k, f);
    k' := ReserveKeeps(q, k, f, false, node);
    if Busy(q.reserve.pc[TAKER]) {
      AtReserve(ReserveStep(q, false), k', f);
      ReserveActs(q, k, k');
    }
  }

  lemma MainNearer(q: Queue, k: Stacks)
    requires StacksOk(q, k) && Busy(q.main.pc[TAKER])
    ensures Nearer(q.main, k.mainView, TAKER)
  {
    MainCounts(q.main, k.mainView, Go(TAKER, false));
    ActionIsProgress(q.main, k.mainView, TAKER);
  }

  lemma MoveCloser(q: Queue, k: Stacks, f: Fifo, node: Address) returns (k': Stacks)
    requires QueueOk(q, k, f) && Countable(q.reserve) && q.phase == Moving && node != NULL && node !in q.reserve.heap
    ensures QueueOk(MoveStep(q, false, node), k', FifoStep(f, QLabel(q, GoTake(false, node)))) && Closer(q, k, MoveStep(q, false, node), k')
  {
    hide Inv, Represents, NeverPopped, Countable, Step, StepView, QLabel, FifoStep, Composed, ActionsLeft;
    TakerKnown(q, k);
    AtMain(q, k, f);
    QuietLabels(q, GoTake(false, node));
    assert FifoStep(f, Unseen) == f by { UnseenIsNothing(f); }
    if q.main.pc[TAKER].ConsumeTaking? {
      DeliveredIsThere(q, k);
      MainNearer(q, k);
      k' := HandOverKeeps(q, k, f, false, node);
    } else if q.main.pc[TAKER].ConsumeDone? {
      k' := WalkedKeeps(q, k, f, false, node);
    } else {
      MainNearer(q, k);
      k' := WalkKeeps(q, k, f, false, node);
    }
  }

  lemma UnseenIsNothing(f: Fifo)
    ensures FifoStep(f, Unseen) == f
  {
  }

  lemma DeliveredIsThere(q: Queue, k: Stacks)
    requires StacksOk(q, k) && q.main.pc[TAKER].ConsumeTaking?
    ensures q.main.pc[TAKER].cur.ptr in q.main.heap
  {
    Known(q.main, k.mainView, TAKER);
  }

  /** Each action of the consumer brings it nearer to the answer; `node` is what the allocator gives. */
  lemma ConsumerIsProgress(q: Queue, k: Stacks, f: Fifo, node: Address) returns (k': Stacks)
    requires QueueOk(q, k, f) && Countable(q.reserve) && Running(q.phase) && node != NULL && node !in q.reserve.heap
    ensures var q' := QStep(q, GoTake(false, node));
      QueueOk(q', k', FifoStep(f, QLabel(q, GoTake(false, node)))) && Closer(q, k, q', k')
  {
    hide Inv, Represents, NeverPopped, Countable, QLabel, FifoStep, Composed, Closer, AskStep, MoveStep, ReserveStep, PopStep;
    TakerKnown(q, k);
    QuietLabels(q, GoTake(false, node));
    UnseenIsNothing(f);
    match q.phase
    case Asking => k' := AskCloser(q, k, f, node);
    case Moving => k' := MoveCloser(q, k, f, node);
    case Reserving => k' := ReserveCloser(q, k, f, node);
    case Popping => k' := PopCloser(q, k, f, node);
  }

  // ---- the result ----

  /** The consumer acts alone, its exchanges do not fail by themselves, and the allocator gives these nodes, one an action. */
  function TakeAlone(q: Queue, nodes: seq<Address>): Queue
    decreases |nodes|
  {
    if nodes == [] then q else TakeAlone(QStep(q, GoTake(false, nodes[0])), nodes[1..])
  }

  /** What the sequential queue answers a running Take if nothing else happens. */
  function Answer(f: Fifo): Option<Value> {
    if f.took.Some? then f.took.value else if f.items == [] then None else Some(f.items[0])
  }

  /** Either the environment gave out on the way, or Take has its answer. */
  ghost predicate Answers(q: Queue, answer: Option<Value>) {
    || !Countable(q.reserve)
    || (forall a: Address :: a == NULL || a in q.reserve.heap)
    || q.phase == Took(answer)
  }

  lemma SameAnswer(q: Queue, f: Fifo, node: Address)
    requires Running(q.phase) && FifoStep(f, QLabel(q, GoTake(false, node))).legal
    ensures Answer(FifoStep(f, QLabel(q, GoTake(false, node)))) == Answer(f)
  {
    hide CasSucceeds;
  }

  /** The consumer enters and leaves Take where it should. */
  lemma PhaseTurns(q: Queue, k: Stacks, e: QEvent)
    requires StacksOk(q, k)
    ensures q.phase == Resting ==> (QStep(q, e).phase == Resting <==> e != CallTake)
    ensures q.phase != Resting ==> (QStep(q, e).phase == Resting <==> e == ReturnTake && q.phase.Took?)
  {
    hide Inv, Represents, NeverPopped, QStep;
    ComesAndGoes(q, e);
  }

  lemma {:induction false} TakeEnds(q: Queue, k: Stacks, f: Fifo) returns (nodes: seq<Address>)
    requires QueueOk(q, k, f) && q.phase != Resting
    ensures Answers(TakeAlone(q, nodes), Answer(f))
    decreases PhasesLeft(q.phase), MainLeft(q, k), ReserveLeft(q, k)
  {
    hide StacksOk, Composed, Countable, QStep, QLabel, FifoStep, MainLeft, ReserveLeft, PhasesLeft;
    nodes := [];
    if !q.phase.Took? && Countable(q.reserve) && exists a: Address :: a != NULL && a !in q.reserve.heap {
      var node: Address :| node != NULL && node !in q.reserve.heap;
      var k' := ConsumerIsProgress(q, k, f, node);
      var f' := FifoStep(f, QLabel(q, GoTake(false, node)));
      var q' := QStep(q, GoTake(false, node));
      PhaseTurns(q, k, GoTake(false, node));
      Reported(q', k', f');
      SameAnswer(q, f, node);
      nodes := TakeEnds(q', k', f');
      nodes := [node] + nodes;
    } else if q.phase.Took? {
      Reported(q, k, f);
    }
  }

  /**
    From any state of any run, wherever the producers are stopped: a Take that is left alone
    comes back, with the answer the sequential queue gives it, as long as there is memory
    and no node of the reserve is acquired too often.
   */
  lemma TakeFinishesAlone(producers: set<Tid>, es: seq<QEvent>) returns (nodes: seq<Address>)
    requires TakesFit(InitQueue(producers), es) && QRun(InitQueue(producers), es).phase != Resting
    ensures Answers(TakeAlone(QRun(InitQueue(producers), es), nodes),
                    Answer(FifoRun(EMPTY_FIFO, QLabels(InitQueue(producers), es))))
  {
    var k := QRunKeeps(producers, es);
    nodes := TakeEnds(QRun(InitQueue(producers), es), k, FifoRun(EMPTY_FIFO, QLabels(InitQueue(producers), es)));
  }

  /** A Take called and left alone brings the oldest item, or nothing exactly when there is none. */
  lemma TakeCalledAlone(producers: set<Tid>, es: seq<QEvent>) returns (nodes: seq<Address>)
    requires TakesFit(InitQueue(producers), es) && QRun(InitQueue(producers), es).phase == Resting
    ensures var items := FifoRun(EMPTY_FIFO, QLabels(InitQueue(producers), es)).items;
      Answers(TakeAlone(QStep(QRun(InitQueue(producers), es), CallTake), nodes), if items == [] then None else Some(items[0]))
  {
    var q, f := QRun(InitQueue(producers), es), FifoRun(EMPTY_FIFO, QLabels(InitQueue(producers), es));
    var k := QRunKeeps(producers, es);
    hide QRun, FifoRun, QLabels, TakesFit;
    nodes := CalledEnds(q, k, f);
  }

  lemma CalledEnds(q: Queue, k: Stacks, f: Fifo) returns (nodes: seq<Address>)
    requires QueueOk(q, k, f) && q.phase == Resting
    ensures Answers(TakeAlone(QStep(q, CallTake), nodes), if f.items == [] then None else Some(f.items[0]))
  {
    hide StacksOk, Composed, QStep, TakeAlone, Answers;
    var k' := CallKeeps(q, k, f);
    PhaseTurns(q, k, CallTake);
    nodes := TakeEnds(QStep(q, CallTake), k', FifoStep(f, Begin));
  }
}
