/** The queue as an object made of two stacks, with the sequential queue it stands for as a ghost. */
module LockFreeQueues {
  import opened StampedPtrs
  import opened Wrappers
  import opened StackModel
  import opened LockFreeStacks
  import opened QueueModel
  import opened QueueProof

  class LockFreeQueue {
    const main: LockFreeStack
    const reserve: LockFreeStack
    var phase: Phase
    ghost var fifo: Fifo

    constructor (producers: set<Tid>)
      ensures Valid() && Snapshot() == InitQueue(producers) && fifo == EMPTY_FIFO
    {
      main := new LockFreeStack(producers + {TAKER});
      reserve := new LockFreeStack({TAKER});
      phase := Resting;
      fifo := EMPTY_FIFO;
      new;
      ghost var k := InitOk(producers);
      assert QueueOk(Snapshot(), k, fifo);
    }

    /** The two stacks share no memory. */
    ghost predicate Separate() {
      main != reserve && main.head != reserve.head
    }

    function Snapshot(): Queue
      reads this, main, main.head, reserve, reserve.head
    {
      Queue(main.Snapshot(), reserve.Snapshot(), phase)
    }

    /** The two stacks, and the consumer between them, make up the queue `fifo`. */
    ghost predicate Valid()
      reads this, main, main.head, reserve, reserve.head
    {
      Separate() && exists k :: QueueOk(Snapshot(), k, fifo)
    }

    /** One event of Put, on a producer's thread. */
    method Put(e: Event)
      requires Separate() && ProducerMay(e) && TAKER in main.pc && TAKER in reserve.pc
      modifies main, main.head
      ensures Snapshot() == QStep(old(Snapshot()), Producer(e))
    {
      main.Dispatch(e);
    }

    /** Take asks the reserve whether it is empty. */
    method BeginTake()
      requires Separate() && phase == Resting && TAKER in main.pc && TAKER in reserve.pc
      modifies `phase, reserve, reserve.head
      ensures Snapshot() == QStep(old(Snapshot()), CallTake)
    {
      reserve.Dispatch(Call(TAKER, IsEmpty));
      phase := Asking;
    }

    /** One action of Take. */
    method AdvanceTake(spurious: bool, node: Address)
      requires Separate() && TAKER in main.pc && TAKER in reserve.pc
      modifies `phase, main, main.head, reserve, reserve.head
      ensures Snapshot() == QStep(old(Snapshot()), GoTake(spurious, node))
    {
      hide Step, Unpack, Truncate;
      match phase
      case Asking => Ask(spurious);
      case Moving => Move(spurious, node);
      case Reserving =>
        if reserve.pc[TAKER].PushDone? {
          reserve.Dispatch(Return(TAKER));
          phase := Moving;
        } else {
          reserve.Dispatch(Go(TAKER, spurious));
        }
      case Popping =>
        if reserve.pc[TAKER].PopDone? {
          phase := Took(reserve.pc[TAKER].result);
          reserve.Dispatch(Return(TAKER));
        } else {
          reserve.Dispatch(Go(TAKER, spurious));
        }
      case _ =>
    }

    /** With an empty reserve everything is taken from `main_` first; otherwise Take goes straight to the pop. */
    method Ask(spurious: bool)
      requires Separate() && phase == Asking && TAKER in main.pc && TAKER in reserve.pc
      modifies `phase, main, main.head, reserve, reserve.head
      ensures Snapshot() == AskStep(old(Snapshot()), spurious)
    {
      hide Step, Unpack, Truncate;
      match reserve.pc[TAKER]
      case EmptyDone(empty) =>
        reserve.Dispatch(Return(TAKER));
        if empty {
          main.Dispatch(Call(TAKER, ConsumeAll));
          phase := Moving;
        } else {
          reserve.Dispatch(Call(TAKER, TryPop));
          phase := Popping;
        }
      case _ => reserve.Dispatch(Go(TAKER, spurious));
    }

    /** Inside ConsumeAll: each value it hands over is pushed onto the reserve before the walk goes on. */
    method Move(spurious: bool, node: Address)
      requires Separate() && phase == Moving && TAKER in main.pc && TAKER in reserve.pc
      modifies `phase, main, main.head, reserve, reserve.head
      ensures Snapshot() == MoveStep(old(Snapshot()), spurious, node)
    {
      hide Step, Unpack, Truncate;
      match main.pc[TAKER]
      case ConsumeTaking(_, _, _) => HandOver(spurious, node);
      case ConsumeDone(_) =>
        main.Dispatch(Return(TAKER));
        reserve.Dispatch(Call(TAKER, TryPop));
        phase := Popping;
      case _ => main.Dispatch(Go(TAKER, spurious));
    }

    /** The callback given to ConsumeAll pushes the value it receives onto the reserve. */
    method HandOver(spurious: bool, node: Address)
      requires Separate() && phase == Moving && TAKER in main.pc && TAKER in reserve.pc && main.pc[TAKER].ConsumeTaking?
      modifies `phase, main, main.head, reserve, reserve.head
      ensures Snapshot() == MoveStep(old(Snapshot()), spurious, node)
    {
      hide Step, Unpack, Truncate;
      var cur := main.pc[TAKER].cur;
      if cur.ptr in main.heap && node != NULL && node !in reserve.heap {
        var value := main.heap[cur.ptr].value;
        main.Dispatch(Go(TAKER, spurious));
        reserve.Dispatch(Call(TAKER, Push(value, node)));
        phase := Reserving;
      }
    }

    /** One event: a linearization point moves the sequential queue, and it stays the one the stacks make up. */
    method Perform(e: QEvent)
      requires Valid() && Countable(reserve.Snapshot())
      modifies this, main, main.head, reserve, reserve.head
      ensures Valid() && Snapshot() == QStep(old(Snapshot()), e)
      ensures fifo == FifoStep(old(fifo), QLabel(old(Snapshot()), e))
    {
      hide QStep, QLabel, QueueOk, FifoStep;
      ghost var q := Snapshot();
      ghost var k := StaysTheQueue(q, fifo, e);
      fifo := FifoStep(fifo, QLabel(q, e));
      Dispatch(e);
      assert QueueOk(Snapshot(), k, fifo);
    }

    method Dispatch(e: QEvent)
      requires Separate() && TAKER in main.pc && TAKER in reserve.pc
      modifies `phase, main, main.head, reserve, reserve.head
      ensures Snapshot() == QStep(old(Snapshot()), e)
    {
      hide Step, AskStep, MoveStep, ReserveStep, PopStep;
      match e
      case Producer(pe) => if ProducerMay(pe) { Put(pe); }
      case CallTake => if phase == Resting { BeginTake(); }
      case GoTake(spurious, node) => AdvanceTake(spurious, node);
      case ReturnTake => if phase.Took? { phase := Resting; }
    }

    /**
      Any schedule at all: the answers are those of the sequential queue at the
      linearization points, and all of them are legal.
     */
    method RunSchedule(es: seq<QEvent>)
      requires Valid() && TakesFit(Snapshot(), es)
      modifies this, main, main.head, reserve, reserve.head
      ensures Valid() && Snapshot() == QRun(old(Snapshot()), es)
      ensures fifo == FifoRun(old(fifo), QLabels(old(Snapshot()), es))
      ensures fifo.legal && (phase.Took? ==> fifo.took == Some(phase.result))
    {
      hide QStep, QLabel, QueueOk, FifoStep;
      ghost var q0, f0 := Snapshot(), fifo;
      for i := 0 to |es|
        invariant Valid() && Snapshot() == QRun(q0, es[..i])
        invariant fifo == FifoRun(f0, QLabels(q0, es[..i]))
      {
        assert Countable(QRun(q0, es[..i]).reserve);
        OneMoreLabel(q0, f0, es, i);
        Perform(es[i]);
      }
      assert es[..|es|] == es;
      ghost var k :| QueueOk(Snapshot(), k, fifo);
      Reported(Snapshot(), k, fifo);
    }
  }

  lemma StaysTheQueue(q: Queue, f: Fifo, e: QEvent) returns (k': Stacks)
    requires (exists k :: QueueOk(q, k, f)) && Countable(q.reserve)
    ensures TAKER in q.main.pc && TAKER in q.reserve.pc
    ensures QueueOk(QStep(q, e), k', FifoStep(f, QLabel(q, e)))
  {
    var k :| QueueOk(q, k, f);
    k' := QStepKeeps(q, k, f, e);
  }

  lemma OneMoreLabel(q: Queue, f: Fifo, es: seq<QEvent>, i: nat)
    requires i < |es|
    ensures QRun(q, es[..i + 1]) == QStep(QRun(q, es[..i]), es[i])
    ensures FifoRun(f, QLabels(q, es[..i + 1])) == FifoStep(FifoRun(f, QLabels(q, es[..i])), QLabel(QRun(q, es[..i]), es[i]))
  {
    assert es[..i + 1][..i] == es[..i];
    var ls := QLabels(q, es[..i + 1]);
    assert ls[..|ls| - 1] == QLabels(q, es[..i]);
  }
}
