/** The calls of the queue: a Take comes back only with its answer, and what was put comes out once and in order. */
module QueueCalls {
  import opened Wrappers
  import opened StackModel
  import opened QueueModel
  import opened QueueProof

  /** How many Takes have been called. */
  function TakesCalled(q: Queue, es: seq<QEvent>): nat {
    if es == [] then 0
    else
      var n := |es| - 1;
      TakesCalled(q, es[..n]) + if es[n] == CallTake && QRun(q, es[..n]).phase == Resting then 1 else 0
  }

  /** The answers of the Takes that have come back. */
  function Returned(q: Queue, es: seq<QEvent>): seq<Option<Value>> {
    if es == [] then []
    else
      var n := |es| - 1;
      var phase := QRun(q, es[..n]).phase;
      Returned(q, es[..n]) + if es[n] == ReturnTake && phase.Took? then [phase.result] else []
  }

  /** What was put, in the order of the linearization points. */
  function Enqueued(ls: seq<FifoEvent>): seq<Value> {
    if ls == [] then []
    else
      var n := |ls| - 1;
      Enqueued(ls[..n]) + if ls[n].Enqueue? then [ls[n].x] else []
  }

  function Found(answers: seq<Option<Value>>): seq<Value> {
    if answers == [] then []
    else
      var n := |answers| - 1;
      Found(answers[..n]) + if answers[n].Some? then [answers[n].value] else []
  }

  /** The item a running Take has been given. */
  function InHand(phase: Phase, f: Fifo): seq<Value> {
    if phase != Resting && f.took.Some? && f.took.value.Some? then [f.took.value.value] else []
  }

  lemma TakerIsThere(producers: set<Tid>, es: seq<QEvent>)
    requires TakesFit(InitQueue(producers), es)
    ensures var q := QRun(InitQueue(producers), es); TAKER in q.main.pc && TAKER in q.reserve.pc
  {
    var k := QRunKeeps(producers, es);
  }

  lemma FitBefore(q: Queue, es: seq<QEvent>)
    requires es != [] && TakesFit(q, es)
    ensures TakesFit(q, es[..|es| - 1])
  {
    var before := es[..|es| - 1];
    forall i | 0 <= i <= |before| ensures Countable(QRun(q, before[..i]).reserve) {
      assert before[..i] == es[..i];
    }
  }

  /** How an event moves the consumer in and out of Take. */
  lemma ComesAndGoes(q: Queue, e: QEvent)
    requires TAKER in q.main.pc && TAKER in q.reserve.pc
    ensures q.phase == Resting ==> (QStep(q, e).phase == Resting <==> e != CallTake)
    ensures q.phase != Resting ==> (QStep(q, e).phase == Resting <==> e == ReturnTake && q.phase.Took?)
  {
    hide Step;
  }

  /** Every Take that was called has come back with one answer, but for the one that is running. */
  lemma {:induction false} EveryTakeIsAnswered(producers: set<Tid>, es: seq<QEvent>)
    requires TakesFit(InitQueue(producers), es)
    ensures var q0 := InitQueue(producers);
      TakesCalled(q0, es) == |Returned(q0, es)| + if QRun(q0, es).phase == Resting then 0 else 1
  {
    if es != [] {
      var n := |es| - 1;
      FitBefore(InitQueue(producers), es);
      EveryTakeIsAnswered(producers, es[..n]);
      TakerIsThere(producers, es[..n]);
      hide QStep;
      ComesAndGoes(QRun(InitQueue(producers), es[..n]), es[n]);
    }
  }

  /** What one event adds to the items put, to those come out, to the one in hand and to the queue. */
  lemma MovesOneItem(q: Queue, f: Fifo, e: QEvent)
    requires TAKER in q.main.pc && TAKER in q.reserve.pc
    requires FifoStep(f, QLabel(q, e)).legal && (q.phase.Took? ==> f.took == Some(q.phase.result))
    ensures var l := QLabel(q, e);
      InHand(q.phase, f) + f.items + (if l.Enqueue? then [l.x] else [])
      == (if e == ReturnTake && q.phase.Took? && q.phase.result.Some? then [q.phase.result.value] else [])
         + InHand(QStep(q, e).phase, FifoStep(f, l)) + FifoStep(f, l).items
  {
    ComesAndGoes(q, e);
    LabelPhase(q, e);
    hide QStep, QLabel;
  }

  lemma LabelPhase(q: Queue, e: QEvent)
    ensures var l := QLabel(q, e);
      && (l.Enqueue? ==> e.Producer?) && (l.Dequeue? ==> e.GoTake? && q.phase == Popping)
      && (l.DequeueNothing? ==> e.GoTake? && q.phase == Moving) && (l.Begin? ==> e == CallTake && q.phase == Resting)
      && (e == CallTake && q.phase == Resting ==> l.Begin?)
  {
    hide CasSucceeds;
  }

  /**
    Nothing is lost, made up or reordered: the items that the Takes have brought back, then the
    one in the hand of a running Take, then those in the queue are all that was put, in order.
   */
  lemma {:induction false} OutInOrder(producers: set<Tid>, es: seq<QEvent>)
    requires TakesFit(InitQueue(producers), es)
    ensures var q0 := InitQueue(producers);
      var f := FifoRun(EMPTY_FIFO, QLabels(q0, es));
      Enqueued(QLabels(q0, es)) == Found(Returned(q0, es)) + InHand(QRun(q0, es).phase, f) + f.items
  {
    if es != [] {
      var q0 := InitQueue(producers);
      var n := |es| - 1;
      var q, ls := QRun(q0, es[..n]), QLabels(q0, es[..n]);
      var f := FifoRun(EMPTY_FIFO, ls);
      QueueIsFifo(producers, es);
      FitBefore(q0, es);
      QueueIsFifo(producers, es[..n]);
      OutInOrder(producers, es[..n]);
      TakerIsThere(producers, es[..n]);
      RunsOneMore(q0, es);
      FoundOneMore(q0, es);
      hide QRun, QLabels, FifoRun, QStep, QLabel, FifoStep, Found, Returned, Enqueued, InHand, TakesFit;
      MovesOneItem(q, f, es[n]);
      var f', l := FifoStep(f, QLabel(q, es[n])), QLabel(q, es[n]);
      Regrouped(
        Found(Returned(q0, es[..n])), InHand(q.phase, f), f.items, if l.Enqueue? then [l.x] else [],
        if es[n] == ReturnTake && q.phase.Took? && q.phase.result.Some? then [q.phase.result.value] else [],
        InHand(QStep(q, es[n]).phase, f'), f'.items);
    }
  }

  lemma RunsOneMore(q: Queue, es: seq<QEvent>)
    requires es != []
    ensures var n := |es| - 1;
      var l, ls := QLabel(QRun(q, es[..n]), es[n]), QLabels(q, es[..n]);
      && QRun(q, es) == QStep(QRun(q, es[..n]), es[n])
      && FifoRun(EMPTY_FIFO, QLabels(q, es)) == FifoStep(FifoRun(EMPTY_FIFO, ls), l)
      && Enqueued(QLabels(q, es)) == Enqueued(ls) + if l.Enqueue? then [l.x] else []
  {
    var n := |es| - 1;
    var ls := QLabels(q, es[..n]);
    assert QLabels(q, es) == ls + [QLabel(QRun(q, es[..n]), es[n])] && QLabels(q, es)[..|ls|] == ls;
    hide QStep, QLabel, FifoStep;
  }

  lemma FoundOneMore(q: Queue, es: seq<QEvent>)
    requires es != []
    ensures var n := |es| - 1;
      var phase := QRun(q, es[..n]).phase;
      Found(Returned(q, es)) == Found(Returned(q, es[..n]))
        + if es[n] == ReturnTake && phase.Took? && phase.result.Some? then [phase.result.value] else []
  {
    var before, now := Returned(q, es[..|es| - 1]), Returned(q, es);
    if now != before { assert now[..|now| - 1] == before; }
    hide QRun;
  }

  lemma Regrouped(
    found: seq<Value>, hand: seq<Value>, queue: seq<Value>, put: seq<Value>,
    back: seq<Value>, hand': seq<Value>, queue': seq<Value>)
    requires hand + queue + put == back + hand' + queue'
    ensures found + hand + queue + put == (found + back) + hand' + queue'
  {
    assert found + hand + queue + put == found + (hand + queue + put);
    assert (found + back) + hand' + queue' == found + (back + hand' + queue');
  }
}
