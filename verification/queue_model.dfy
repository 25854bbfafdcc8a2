/** The two-stack queue (queue.h) over two lock-free stacks, with one consumer and any number of producers. */
module QueueModel {
  import opened Wrappers
  import opened StampedPtrs
  import opened StackModel

  const TAKER: Tid := 0

  /** Where the consumer is inside Take. */
  datatype Phase =
    | Resting
    | Asking                          // reserve_.IsEmpty()
    | Moving                          // main_.ConsumeAll(...)
    | Reserving                       // its callback: reserve_.Push(...)
    | Popping                         // reserve_.TryPop()
    | Took(result: Option<Value>)

  datatype Queue = Queue(main: State, reserve: State, phase: Phase)

  /** A producer's event on `main`; or the consumer's call, action (with an address for the allocator) or return. */
  datatype QEvent =
    | Producer(e: Event)
    | CallTake
    | GoTake(spurious: bool, node: Address)
    | ReturnTake

  function InitQueue(producers: set<Tid>): Queue {
    Queue(Init(producers + {TAKER}), Init({TAKER}), Resting)
  }

  /** Producers put; they neither pop nor consume, and they are not the consumer. */
  predicate ProducerMay(e: Event) {
    e.t != TAKER && (e.Call? ==> e.op.Push?)
  }

  function OnMain(q: Queue, e: Event): Queue { q.(main := Step(q.main, e)) }

  function OnReserve(q: Queue, e: Event): Queue { q.(reserve := Step(q.reserve, e)) }

  function AskStep(q: Queue, spurious: bool): Queue
    requires TAKER in q.reserve.pc
  {
    match q.reserve.pc[TAKER]
    case EmptyDone(empty) =>
      var q' := OnReserve(q, Return(TAKER));
      if empty then OnMain(q', Call(TAKER, ConsumeAll)).(phase := Moving)
      else OnReserve(q', Call(TAKER, TryPop)).(phase := Popping)
    case _ => OnReserve(q, Go(TAKER, spurious))
  }

  function MoveStep(q: Queue, spurious: bool, node: Address): Queue
    requires TAKER in q.main.pc
  {
    match q.main.pc[TAKER]
    case ConsumeTaking(cur, _, _) =>
      if cur.ptr !in q.main.heap || node == NULL || node in q.reserve.heap then q
      else OnReserve(OnMain(q, Go(TAKER, spurious)), Call(TAKER, Push(q.main.heap[cur.ptr].value, node))).(phase := Reserving)
    case ConsumeDone(_) =>
      OnReserve(OnMain(q, Return(TAKER)), Call(TAKER, TryPop)).(phase := Popping)
    case _ => OnMain(q, Go(TAKER, spurious))
  }

  function ReserveStep(q: Queue, spurious: bool): Queue
    requires TAKER in q.reserve.pc
  {
    if q.reserve.pc[TAKER].PushDone? then OnReserve(q, Return(TAKER)).(phase := Moving)
    else OnReserve(q, Go(TAKER, spurious))
  }

  function PopStep(q: Queue, spurious: bool): Queue
    requires TAKER in q.reserve.pc
  {
    match q.reserve.pc[TAKER]
    case PopDone(result) => OnReserve(q, Return(TAKER)).(phase := Took(result))
    case _ => OnReserve(q, Go(TAKER, spurious))
  }

  function QStep(q: Queue, qe: QEvent): Queue {
    if TAKER !in q.main.pc || TAKER !in q.reserve.pc then q
    else match qe
      case Producer(e) => if ProducerMay(e) then OnMain(q, e) else q
      case CallTake => if q.phase == Resting then OnReserve(q, Call(TAKER, IsEmpty)).(phase := Asking) else q
      case ReturnTake => if q.phase.Took? then q.(phase := Resting) else q
      case GoTake(spurious, node) =>
        match q.phase {
          case Asking => AskStep(q, spurious)
          case Moving => MoveStep(q, spurious, node)
          case Reserving => ReserveStep(q, spurious)
          case Popping => PopStep(q, spurious)
          case _ => q
        }
  }

  function QRun(q: Queue, es: seq<QEvent>): Queue {
    if es == [] then q else QStep(QRun(q, es[..|es| - 1]), es[|es| - 1])
  }

  /** At every moment of the run no node of the reserve has been acquired more than 2^31 times. */
  predicate TakesFit(q: Queue, es: seq<QEvent>) {
    forall i :: 0 <= i <= |es| ==> Countable(QRun(q, es[..i]).reserve)
  }

  // ---- the sequential queue ----

  /** `took` is the answer the running Take has been given; `legal` falls if an answer is wrong or given twice. */
  datatype Fifo = Fifo(items: seq<Value>, took: Option<Option<Value>>, legal: bool)

  datatype FifoEvent = Enqueue(x: Value) | Dequeue | DequeueNothing | Begin | Unseen

  function FifoStep(f: Fifo, l: FifoEvent): Fifo {
    match l
    case Enqueue(x) => f.(items := f.items + [x])
    case Dequeue =>
      if f.items == [] || f.took.Some? then f.(legal := false)
      else f.(items := f.items[1..], took := Some(Some(f.items[0])))
    case DequeueNothing =>
      if f.items != [] || f.took.Some? then f.(legal := false) else f.(took := Some(None))
    case Begin => f.(took := None)
    case Unseen => f
  }

  function FifoRun(f: Fifo, ls: seq<FifoEvent>): Fifo {
    if ls == [] then f else FifoStep(FifoRun(f, ls[..|ls| - 1]), ls[|ls| - 1])
  }

  /**
    The linearization points: a Put at its successful Push on `main`; a Take at its
    successful pop from `reserve`, or, when it finds nothing, where its ConsumeAll
    exchanges a null head.
   */
  function QLabel(q: Queue, qe: QEvent): FifoEvent {
    match qe
    case Producer(e) =>
      if ProducerMay(e) && e.Go? && e.t in q.main.pc && q.main.pc[e.t].Pushing? && q.main.pc[e.t].node in q.main.heap
         && CasSucceeds(q.main.head, q.main.heap[q.main.pc[e.t].node].next, e.spurious)
      then Enqueue(q.main.heap[q.main.pc[e.t].node].value) else Unseen
    case CallTake => if q.phase == Resting then Begin else Unseen
    case GoTake(spurious, _) =>
      if q.phase == Popping && TAKER in q.reserve.pc && q.reserve.pc[TAKER].PopSwinging?
         && CasSucceeds(q.reserve.head, q.reserve.pc[TAKER].cur, spurious)
      then Dequeue
      else if q.phase == Moving && TAKER in q.main.pc && q.main.pc[TAKER].ConsumeSwinging?
         && CasSucceeds(q.main.head, q.main.pc[TAKER].cur, spurious) && q.main.pc[TAKER].cur.IsNull()
      then DequeueNothing
      else Unseen
    case ReturnTake => Unseen
  }

  function QLabels(q: Queue, es: seq<QEvent>): seq<FifoEvent> {
    if es == [] then []
    else QLabels(q, es[..|es| - 1]) + [QLabel(QRun(q, es[..|es| - 1]), es[|es| - 1])]
  }
}
