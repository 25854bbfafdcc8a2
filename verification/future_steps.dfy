/** The invariant of a future pipeline is kept by every step. */
module FutureSteps {
  import opened Wrappers
  import opened FutureModel
  import opened FutureInvariant

  // ---- the shared state ----

  /** What is expected of the shared state `id`: its result, its callback, and whether that has gone out. */
  function Expected(p: Pipeline, id: CellId): Result
    requires if id.Main? then id.i <= |p.stages| else id.i < |p.stages|
  {
    if id.Main? then Carried(p, id.i) else Carried(p, id.i + 1)
  }

  function Receiver(p: Pipeline, id: CellId): Callback {
    if id.Main? then CallbackOf(p, id.i) else Forward(id.i)
  }

  predicate Out(p: Pipeline, s: State, id: CellId) {
    Receiver(p, id) in s.tasks || (if id.Main? then Ran(p, s, id.i) else Started(s, Main(id.i + 1)))
  }

  lemma Known(p: Pipeline, s: State, id: CellId)
    requires Inv(p, s) && id in s.cells
    ensures if id.Main? then id.i <= |p.stages| else id.i < |p.stages|
    ensures CellOk(s.cells[id], Expected(p, id), Receiver(p, id), Out(p, s, id))
    ensures id.Main? ==> MainOk(p, s, id.i)
    ensures id.i < |p.stages| ==> InnerOk(p, s, id.i)
    ensures MainOk(p, s, id.i)
    ensures Shape(p, s)
  {
    assert MainOk(p, s, id.i);
    if id.i < |p.stages| { assert InnerOk(p, s, id.i); }
  }

  /** The shared state moves on, without submitting anything. */
  lemma CellMoves(p: Pipeline, s: State, id: CellId, c: Cell)
    requires Inv(p, s) && id in s.cells
    requires CellOk(c, Expected(p, id), Receiver(p, id), Out(p, s, id))
    requires c.executor == s.cells[id].executor
    requires (c.prod.Unset? <==> s.cells[id].prod.Unset?) && (c.cons.Unsubscribed? <==> s.cells[id].cons.Unsubscribed?)
    requires s.cells[id].cons.Subscribed? ==> c.cons.Subscribed?
    ensures Inv(p, Put(s, id, c))
  {
    var s' := Put(s, id, c);
    hide Inv, CellOk;
    Known(p, s, id);
    Others(p, s, s', id.i);
    assert MainOk(p, s', id.i);
    assert id.i < |p.stages| ==> InnerOk(p, s', id.i);
    Concludes(p, s', id.i);
  }

  lemma Concludes(p: Pipeline, s: State, i: nat)
    requires Shape(p, s)
    requires i <= |p.stages| ==> MainOk(p, s, i)
    requires i < |p.stages| ==> InnerOk(p, s, i)
    requires forall j: nat | j <= |p.stages| && j != i :: MainOk(p, s, j)
    requires forall j: nat | j < |p.stages| && j != i :: InnerOk(p, s, j)
    requires forall k | 0 <= k < |s.calls| :: CallOk(p, s, s.calls[k])
    ensures Inv(p, s)
  {
  }

  /** The callback goes out, once, with the result and to the executor it should. */
  lemma CellFires(p: Pipeline, s: State, id: CellId, c: Cell)
    requires Inv(p, s) && id in s.cells && !Out(p, s, id)
    requires c.prod.Set? && c.cons.Subscribed? && c.producer && c.consumer
    requires s.cells[id].prod.Set? || s.cells[id].prod.Firing?
    requires s.cells[id].cons.Subscribed? || s.cells[id].cons.Firing?
    requires c == s.cells[id].(prod := c.prod, cons := c.cons)
    ensures Inv(p, InvokeCallback(Put(s, id, c), id))
  {
    Known(p, s, id);
    var s1 := Put(s, id, c);
    var s' := InvokeCallback(s1, id);
    assert s1.cells[id] == c;
    assert c.callback == Some(Receiver(p, id)) && c.result == Some(Expected(p, id));
    hide Inv;
    Others(p, s, s', id.i);
    assert MainOk(p, s', id.i);
    assert id.i < |p.stages| ==> InnerOk(p, s', id.i);
    Concludes(p, s', id.i);
  }

  lemma ProduceKeepsInv(p: Pipeline, s: State, id: CellId)
    requires Inv(p, s) && id in s.cells
    ensures Inv(p, ProduceStep(s, id))
  {
    Known(p, s, id);
    var c := s.cells[id];
    hide Inv;
    match c.prod
    case Emplacing(res) => CellMoves(p, s, id, c.(result := Some(res), prod := Emplaced));
    case Emplaced => CellMoves(p, s, id, c.(producer := true, prod := if c.consumer then Producing.Firing else Set));
    case Firing => CellFires(p, s, id, c.(prod := Set));
    case _ =>
  }

  lemma ConsumeKeepsInv(p: Pipeline, s: State, id: CellId)
    requires Inv(p, s) && id in s.cells
    ensures Inv(p, ConsumeStep(s, id))
  {
    Known(p, s, id);
    var c := s.cells[id];
    hide Inv;
    match c.cons
    case Subscribing(cb) => CellMoves(p, s, id, c.(callback := Some(cb), cons := Written));
    case Written => CellMoves(p, s, id, c.(consumer := true, cons := if c.producer then Consuming.Firing else Subscribed));
    case Firing => CellFires(p, s, id, c.(cons := Subscribed));
    case _ =>
  }

  // ---- attaching ----

  lemma ViaKeepsInv(p: Pipeline, s: State)
    requires Inv(p, s) && s.at <= |p.stages| && Main(s.at) in s.cells && s.via < |Vias(p, s.at)|
    ensures Inv(p, Put(s, Main(s.at), s.cells[Main(s.at)].(executor := Vias(p, s.at)[s.via])).(via := s.via + 1))
  {
    var s' := Put(s, Main(s.at), s.cells[Main(s.at)].(executor := Vias(p, s.at)[s.via])).(via := s.via + 1);
    Known(p, s, Main(s.at));
    hide Inv;
    Others(p, s, s', s.at);
    assert MainOk(p, s', s.at);
    assert s.at < |p.stages| ==> InnerOk(p, s', s.at);
    Concludes(p, s', s.at);
  }

  /** The caller goes on to the next future, which is new and has neither party yet. */
  lemma SubscribeOthers(p: Pipeline, s: State, s': State)
    requires Inv(p, s) && s.at <= |p.stages| && Main(s.at) in s.cells && Returned(s)
    requires s' == s.(at := s.at + 1, via := 0, cells := s'.cells)
    requires forall id | id != Main(s.at) && id != Main(s.at + 1) :: id in s.cells <==> id in s'.cells
    requires forall id | id != Main(s.at) && id != Main(s.at + 1) && id in s.cells :: s'.cells[id] == s.cells[id]
    requires !Started(s, Main(s.at + 1)) && !Started(s', Main(s.at + 1))
    requires Started(s, Main(s.at)) <==> Started(s', Main(s.at))
    ensures forall j: nat | j <= |p.stages| && j != s.at && j != s.at + 1 :: MainOk(p, s', j)
    ensures forall j: nat | j < |p.stages| :: InnerOk(p, s', j)
    ensures forall k | 0 <= k < |s'.calls| :: CallOk(p, s', s'.calls[k])
  {
    forall j: nat | j <= |p.stages|
      ensures Ran(p, s', j) == Ran(p, s, j)
    {
    }
    forall j: nat | j <= |p.stages| && j != s.at && j != s.at + 1
      ensures MainOk(p, s', j)
    {
      assert MainOk(p, s, j);
    }
    forall j: nat | j < |p.stages|
      ensures InnerOk(p, s', j)
    {
      assert InnerOk(p, s, j);
    }
  }

  lemma SubscribeKeepsInv(p: Pipeline, s: State)
    requires Inv(p, s) && s.at <= |p.stages| && Main(s.at) in s.cells && Returned(s) && s.via == |Vias(p, s.at)|
    ensures Inv(p, BuildStep(p, s))
  {
    var s' := BuildStep(p, s);
    var i := s.at;
    Known(p, s, Main(i));
    if i < |p.stages| { Absent(p, s, i + 1); }
    SubscribeOthers(p, s, s');
    SubscribeBoth(p, s);
    hide Inv, MainOk, InnerOk, CellOk;
    ConcludesTwo(p, s', i);
  }

  lemma SubscribeBoth(p: Pipeline, s: State)
    requires Inv(p, s) && s.at <= |p.stages| && Main(s.at) in s.cells && Returned(s) && s.via == |Vias(p, s.at)|
    ensures MainOk(p, BuildStep(p, s), s.at)
    ensures s.at < |p.stages| ==> MainOk(p, BuildStep(p, s), s.at + 1)
  {
    Known(p, s, Main(s.at));
    if s.at < |p.stages| { Absent(p, s, s.at + 1); }
    hide Inv;
  }

  lemma Absent(p: Pipeline, s: State, i: nat)
    requires Inv(p, s) && s.at < i <= |p.stages|
    ensures Main(i) !in s.cells && CallbackOf(p, i) !in s.tasks && !Ran(p, s, i)
  {
    assert MainOk(p, s, i);
  }

  lemma ConcludesTwo(p: Pipeline, s: State, i: nat)
    requires Shape(p, s)
    requires i <= |p.stages| ==> MainOk(p, s, i)
    requires i + 1 <= |p.stages| ==> MainOk(p, s, i + 1)
    requires forall j: nat | j <= |p.stages| && j != i && j != i + 1 :: MainOk(p, s, j)
    requires forall j: nat | j < |p.stages| :: InnerOk(p, s, j)
    requires forall k | 0 <= k < |s.calls| :: CallOk(p, s, s.calls[k])
    ensures Inv(p, s)
  {
  }

  lemma BuildKeepsInv(p: Pipeline, s: State)
    requires Inv(p, s)
    ensures Inv(p, BuildStep(p, s))
  {
    if s.at <= |p.stages| && Returned(s) && Main(s.at) in s.cells {
      assert MainOk(p, s, s.at);
      if s.via < |Vias(p, s.at)| { ViaKeepsInv(p, s); } else { SubscribeKeepsInv(p, s); }
    }
  }

  // ---- the callbacks ----

  /** Running a callback of combinator i: it may fulfil the next future or start the inner one. */
  ghost predicate RunConfined(p: Pipeline, s: State, s': State, i: nat) {
    && i < |p.stages|
    && s'.at == s.at && s'.via == s.via && s'.delivered == s.delivered
    && s.calls <= s'.calls && |s'.calls| <= |s.calls| + 1
    && (|s'.calls| == |s.calls| + 1 ==> CallOk(p, s', s'.calls[|s.calls|]))
    && (forall id | id != Main(i + 1) && id != Inner(i) :: id in s.cells <==> id in s'.cells)
    && (forall id | id != Main(i + 1) && id != Inner(i) && id in s.cells :: s'.cells[id] == s.cells[id])
    && (Started(s, Main(i + 1)) ==> Started(s', Main(i + 1)))
    && (Inner(i) in s.cells ==> Inner(i) in s'.cells)
    && s.dropped <= s'.dropped && (forall j | j != i && j in s'.dropped :: j in s.dropped)
    && (forall cb | cb != Continue(i) && cb != Forward(i) :: cb in s.tasks <==> cb in s'.tasks)
    && (forall cb | cb != Continue(i) && cb != Forward(i) && cb in s.tasks :: s'.tasks[cb] == s.tasks[cb])
  }

  lemma RunOthers(p: Pipeline, s: State, s': State, i: nat)
    requires Inv(p, s) && RunConfined(p, s, s', i)
    ensures forall j: nat | j <= |p.stages| && j != i && j != i + 1 :: MainOk(p, s', j)
    ensures forall j: nat | j < |p.stages| && j != i :: InnerOk(p, s', j)
    ensures forall k | 0 <= k < |s'.calls| :: CallOk(p, s', s'.calls[k])
  {
    forall j: nat | j <= |p.stages| && j != i && j != i + 1
      ensures MainOk(p, s', j)
    {
      assert MainOk(p, s, j);
    }
    forall j: nat | j < |p.stages| && j != i
      ensures InnerOk(p, s', j)
    {
      assert InnerOk(p, s, j);
    }
    forall k | 0 <= k < |s'.calls|
      ensures CallOk(p, s', s'.calls[k])
    {
      if k < |s.calls| {
        assert s'.calls[k] == s.calls[k];
        assert CallOk(p, s, s.calls[k]);
      }
    }
  }

  lemma Knowns(p: Pipeline, s: State, i: nat)
    requires Inv(p, s) && i < |p.stages|
    ensures Shape(p, s) && MainOk(p, s, i) && MainOk(p, s, i + 1) && InnerOk(p, s, i)
    ensures !Ran(p, s, i) ==> forall k | 0 <= k < |s.calls| :: s.calls[k].i != i
  {
    assert MainOk(p, s, i) && MainOk(p, s, i + 1) && InnerOk(p, s, i);
    forall k | 0 <= k < |s.calls|
      ensures CallOk(p, s, s.calls[k])
    {
    }
  }

  lemma RunConcludes(p: Pipeline, s: State, i: nat)
    requires Shape(p, s) && i < |p.stages|
    requires MainOk(p, s, i) && MainOk(p, s, i + 1) && InnerOk(p, s, i)
    requires forall j: nat | j <= |p.stages| && j != i && j != i + 1 :: MainOk(p, s, j)
    requires forall j: nat | j < |p.stages| && j != i :: InnerOk(p, s, j)
    requires forall k | 0 <= k < |s.calls| :: CallOk(p, s, s.calls[k])
    ensures Inv(p, s)
  {
  }

  lemma ForwardKeepsInv(p: Pipeline, s: State, i: nat)
    requires Inv(p, s) && Forward(i) in s.tasks && i < |p.stages|
    ensures Inv(p, RunStep(p, s, Forward(i)))
  {
    var s' := RunStep(p, s, Forward(i));
    Knowns(p, s, i);
    hide Inv;
    RunOthers(p, s, s', i);
    FulfilledNext(p, s, i, s', Forward(i));
    RunConcludes(p, s', i);
  }

  /** The promise of the next future is used, by the callback `cb` of combinator i. */
  lemma FulfilledNext(p: Pipeline, s: State, i: nat, s': State, cb: Callback)
    requires i < |p.stages| && cb in s.tasks && (cb == Continue(i) || cb == Forward(i))
    requires MainOk(p, s, i + 1) && !Started(s, Main(i + 1)) && Main(i + 1) in s.cells && Fold(p, i + 1).Some?
    requires s'.at == s.at && s'.via == s.via && s'.delivered == s.delivered && s'.tasks == s.tasks - {cb} && s'.dropped == s.dropped
    requires s'.cells == s.cells[Main(i + 1) := s.cells[Main(i + 1)].(prod := Emplacing(Carried(p, i + 1)))]
    ensures MainOk(p, s', i + 1)
  {
  }

  lemma FulfilKeepsInv(p: Pipeline, s: State, i: nat, s': State)
    requires Inv(p, s) && Continue(i) in s.tasks && i < |p.stages| && !IsAsync(p, i) && Fold(p, i + 1).Some?
    requires var s1 := s.(tasks := s.tasks - {Continue(i)}, calls := s'.calls);
      s' == Fulfil(s1, Main(i + 1), Carried(p, i + 1))
    requires s'.calls == s.calls || (OnBranch(p.stages[i].fn, Carried(p, i))
      && s'.calls == s.calls + [Call(i, Carried(p, i), Executor(p, i))])
    ensures Inv(p, s')
  {
    Knowns(p, s, i);
    hide Inv;
    RunOthers(p, s, s', i);
    FulfilledNext(p, s, i, s', Continue(i));
    hide CellOk;
    RunConcludes(p, s', i);
  }

  lemma StartInnerKeepsInv(p: Pipeline, s: State, i: nat)
    requires Inv(p, s) && Continue(i) in s.tasks && i < |p.stages| && IsAsync(p, i)
    ensures Inv(p, RunStep(p, s, Continue(i)))
  {
    var s' := RunStep(p, s, Continue(i));
    Knowns(p, s, i);
    hide Inv;
    RunOthers(p, s, s', i);
    RunConcludes(p, s', i);
  }

  /** A stage that throws: the next future's promise will never be used. */
  lemma ThrowKeepsInv(p: Pipeline, s: State, i: nat)
    requires Inv(p, s) && Continue(i) in s.tasks && i < |p.stages| && Throws(p, i)
    ensures Inv(p, RunStep(p, s, Continue(i)))
  {
    var s' := RunStep(p, s, Continue(i));
    Knowns(p, s, i);
    hide Inv;
    RunOthers(p, s, s', i);
    RunConcludes(p, s', i);
  }

  lemma ContinueKeepsInv(p: Pipeline, s: State, i: nat)
    requires Inv(p, s) && Continue(i) in s.tasks && i < |p.stages|
    ensures Inv(p, RunStep(p, s, Continue(i)))
  {
    Knowns(p, s, i);
    hide Inv;
    if IsAsync(p, i) {
      StartInnerKeepsInv(p, s, i);
    } else if Throws(p, i) {
      ThrowKeepsInv(p, s, i);
    } else {
      FulfilKeepsInv(p, s, i, RunStep(p, s, Continue(i)));
    }
  }

  lemma DeliverKeepsInv(p: Pipeline, s: State)
    requires Inv(p, s) && Deliver in s.tasks
    ensures Inv(p, RunStep(p, s, Deliver))
  {
    var s', n := RunStep(p, s, Deliver), |p.stages|;
    assert MainOk(p, s, n);
    forall j: nat | j <= n
      ensures MainOk(p, s', j)
    {
      assert MainOk(p, s, j);
    }
    forall j: nat | j < n
      ensures InnerOk(p, s', j)
    {
      assert InnerOk(p, s, j);
    }
    forall k | 0 <= k < |s'.calls|
      ensures CallOk(p, s', s'.calls[k])
    {
      assert CallOk(p, s, s.calls[k]);
    }
  }

  lemma StepKeepsInv(p: Pipeline, s: State, e: Event)
    requires Inv(p, s)
    ensures Inv(p, Step(p, s, e))
  {
    match e
    case Build => BuildKeepsInv(p, s);
    case Produce(id) => if id in s.cells { ProduceKeepsInv(p, s, id); }
    case Consume(id) => if id in s.cells { ConsumeKeepsInv(p, s, id); }
    case RunTask(cb) =>
      if cb in s.tasks {
        assert Belongs(p, cb);
        match cb
        case Continue(i) => ContinueKeepsInv(p, s, i);
        case Forward(i) => ForwardKeepsInv(p, s, i);
        case Deliver => DeliverKeepsInv(p, s);
      }
  }
}
