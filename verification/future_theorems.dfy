/** A pipeline of futures computes the fold of its stages, whatever the schedule. */
module FutureTheorems {
  import opened Wrappers
  import opened FutureModel
  import opened FutureInvariant
  import opened FutureSteps

  lemma StartKeepsInv(p: Pipeline)
    ensures Inv(p, Init(p))
  {
    var s := Init(p);
    assert forall i: nat | i <= |p.stages| :: MainOk(p, s, i);
  }

  lemma {:induction false} RunKeepsInv(p: Pipeline, es: seq<Event>)
    ensures Inv(p, Run(p, Init(p), es))
  {
    if es == [] {
      StartKeepsInv(p);
    } else {
      RunKeepsInv(p, es[..|es| - 1]);
      StepKeepsInv(p, Run(p, Init(p), es[..|es| - 1]), es[|es| - 1]);
    }
  }

  // ---- the executors, told from the pipeline ----

  /** Every Via applied to the first i + 1 futures, in order. */
  function AppliedVias(p: Pipeline, i: nat): seq<Exec>
    requires i <= |p.stages|
  {
    (if i == 0 then [] else AppliedVias(p, i - 1)) + (if i < |p.stages| then p.stages[i].vias else p.vias)
  }

  /** The executor set last for the i-th future: by the last Via so far, or else by the contract. */
  function SetLast(p: Pipeline, i: nat): Exec
    requires i <= |p.stages|
  {
    var vias := AppliedVias(p, i);
    if vias == [] then p.executor else vias[|vias| - 1]
  }

  lemma {:induction false} ExecutorIsSetLast(p: Pipeline, i: nat)
    requires i <= |p.stages|
    ensures Executor(p, i) == SetLast(p, i)
  {
    if i > 0 { ExecutorIsSetLast(p, i - 1); }
  }

  /**
    Under every schedule: no panic, no promise used twice, no missing result or
    callback; the final callback gets nothing but the fold of the stages over the
    source, at most once, on the executor set last by Via; each continuation runs
    at most once, on its own branch, with the fold up to it, on its executor; and
    nothing is dropped but by a stage that throws.
   */
  lemma ScheduleIndependent(p: Pipeline, es: seq<Event>)
    ensures var s, n := Run(p, Init(p), es), |p.stages|;
      && !s.fault
      && (s.delivered == [] || (Fold(p, n).Some? && s.delivered == [Task(Fold(p, n).value, SetLast(p, n))]))
      && (forall k | 0 <= k < |s.calls| ::
            && s.calls[k].i < n
            && Fold(p, s.calls[k].i) == Some(s.calls[k].input)
            && s.calls[k].executor == SetLast(p, s.calls[k].i)
            && OnBranch(p.stages[s.calls[k].i].fn, s.calls[k].input))
      && CallsDiffer(s.calls)
      && (forall i | i in s.dropped :: i < n && Throws(p, i))
  {
    var s := Run(p, Init(p), es);
    RunKeepsInv(p, es);
    ExecutorIsSetLast(p, |p.stages|);
    forall k | 0 <= k < |s.calls|
      ensures CallOk(p, s, s.calls[k]) && s.calls[k].executor == SetLast(p, s.calls[k].i)
    {
      assert CallOk(p, s, s.calls[k]);
      ExecutorIsSetLast(p, s.calls[k].i);
    }
    forall i | i in s.dropped
      ensures i < |p.stages| && Throws(p, i)
    {
      assert InnerOk(p, s, i);
    }
  }

  /**
    Rendezvous: a shared state's callback has gone out, with the result produced,
    exactly if both parties are through; whoever comes second submits it.
   */
  lemma RendezvousOnce(p: Pipeline, es: seq<Event>, i: nat)
    requires i <= |p.stages| && Main(i) in Run(p, Init(p), es).cells
    ensures var s, cb := Run(p, Init(p), es), CallbackOf(p, i);
      && (cb in s.tasks || Ran(p, s, i) <==> s.cells[Main(i)].prod.Set? && s.cells[Main(i)].cons.Subscribed?)
      && !(cb in s.tasks && Ran(p, s, i))
      && (cb in s.tasks ==> Fold(p, i).Some? && s.tasks[cb] == Task(Fold(p, i).value, SetLast(p, i)))
      && !(s.cells[Main(i)].prod.Firing? && s.cells[Main(i)].cons.Firing?)
  {
    RunKeepsInv(p, es);
    ExecutorIsSetLast(p, i);
    assert MainOk(p, Run(p, Init(p), es), i);
  }

  // ---- nothing is forgotten ----

  predicate Called(calls: seq<Call>, i: nat) { exists k :: 0 <= k < |calls| && calls[k].i == i }

  /** A stage that has been run on its own branch has been called. */
  ghost predicate AllCalled(p: Pipeline, s: State) {
    forall i: nat {:trigger Ran(p, s, i)} | i < |p.stages| && Ran(p, s, i) && OnBranch(p.stages[i].fn, Carried(p, i)) :: Called(s.calls, i)
  }

  lemma CalledStays(calls: seq<Call>, call: Call, i: nat)
    requires Called(calls, i) || call.i == i
    ensures Called(calls + [call], i)
  {
    if Called(calls, i) {
      var k :| 0 <= k < |calls| && calls[k].i == i;
      assert (calls + [call])[k].i == i;
    } else {
      assert (calls + [call])[|calls|].i == i;
    }
  }

  lemma RunTaskKeepsAllCalled(p: Pipeline, s: State, cb: Callback)
    requires Inv(p, s) && AllCalled(p, s) && cb in s.tasks
    ensures AllCalled(p, RunStep(p, s, cb))
  {
    var s' := RunStep(p, s, cb);
    assert Belongs(p, cb);
    forall i: nat | i < |p.stages| && Ran(p, s', i) && OnBranch(p.stages[i].fn, Carried(p, i))
      ensures Called(s'.calls, i)
    {
      assert MainOk(p, s, i) && InnerOk(p, s, i);
      RunTaskKeepsCalled(p, s, cb, i);
    }
  }

  lemma RunTaskKeepsCalled(p: Pipeline, s: State, cb: Callback, i: nat)
    requires cb in s.tasks && Belongs(p, cb) && AllCalled(p, s) && i < |p.stages| && MainOk(p, s, i) && InnerOk(p, s, i)
    requires Ran(p, RunStep(p, s, cb), i) && OnBranch(p.stages[i].fn, Carried(p, i))
    ensures Called(RunStep(p, s, cb).calls, i)
  {
    var s' := RunStep(p, s, cb);
    if cb == Continue(i) {
      assert s.tasks[cb].result == Carried(p, i);
      hide Fold, MainOk, InnerOk;
      CalledStays(s.calls, Call(i, s.tasks[cb].result, s.tasks[cb].executor), i);
    } else {
      OthersHaveRun(p, s, cb, i);
      CallsGrow(p, s, cb);
      hide RunStep, MainOk, InnerOk;
      if s'.calls != s.calls { CalledStays(s.calls, s'.calls[|s.calls|], i); }
    }
  }

  lemma CallsGrow(p: Pipeline, s: State, cb: Callback)
    requires cb in s.tasks && Belongs(p, cb)
    ensures var calls := RunStep(p, s, cb).calls;
      calls == s.calls || (|calls| == |s.calls| + 1 && calls == s.calls + [calls[|s.calls|]])
  {
  }

  /** No callback but its own has a combinator run. */
  lemma OthersHaveRun(p: Pipeline, s: State, cb: Callback, i: nat)
    requires cb in s.tasks && Belongs(p, cb) && i < |p.stages| && InnerOk(p, s, i) && cb != Continue(i)
    requires Ran(p, RunStep(p, s, cb), i)
    ensures Ran(p, s, i)
  {
    hide CellOk, Fold;
  }

  lemma StepKeepsAllCalled(p: Pipeline, s: State, e: Event)
    requires Inv(p, s) && AllCalled(p, s)
    ensures AllCalled(p, Step(p, s, e))
  {
    var s' := Step(p, s, e);
    if e.RunTask? && e.cb in s.tasks {
      RunTaskKeepsAllCalled(p, s, e.cb);
    } else {
      NothingStarts(p, s, e);
      forall i: nat | i < |p.stages| && Ran(p, s', i)
        ensures Ran(p, s, i)
      {
      }
    }
  }

  /** Only a callback starts a promise on its way, or an inner future. */
  lemma NothingStarts(p: Pipeline, s: State, e: Event)
    requires e.RunTask? ==> e.cb !in s.tasks
    ensures var s' := Step(p, s, e);
      && s'.calls == s.calls && s'.dropped == s.dropped && s'.delivered == s.delivered
      && (forall id :: Started(s', id) ==> Started(s, id))
      && (forall i :: Inner(i) in s'.cells ==> Inner(i) in s.cells)
  {
  }

  lemma {:induction false} RunKeepsAllCalled(p: Pipeline, es: seq<Event>)
    ensures AllCalled(p, Run(p, Init(p), es))
  {
    if es != [] {
      var n := |es| - 1;
      RunKeepsAllCalled(p, es[..n]);
      RunKeepsInv(p, es[..n]);
      StepKeepsAllCalled(p, Run(p, Init(p), es[..n]), es[n]);
    }
  }

  /** No event does anything any more. */
  ghost predicate Stuck(p: Pipeline, s: State) {
    forall e :: Step(p, s, e) == s
  }

  lemma StuckCell(p: Pipeline, s: State, id: CellId)
    requires Inv(p, s) && Stuck(p, s) && id in s.cells
    ensures s.cells[id].prod.Unset? || s.cells[id].prod.Set?
    ensures s.cells[id].cons.Unsubscribed? || s.cells[id].cons.Subscribed?
    ensures Receiver(p, id) !in s.tasks
  {
    Known(p, s, id);
    hide Inv;
    var c, cb := s.cells[id], Receiver(p, id);
    assert Step(p, s, Produce(id)) == s && Step(p, s, Consume(id)) == s && Step(p, s, RunTask(cb)) == s;
    if c.prod.Firing? || c.cons.Firing? {
      assert !Out(p, s, id);
    }
    if cb in s.tasks { RunTaskChanges(p, s, cb); }
  }

  lemma RunTaskChanges(p: Pipeline, s: State, cb: Callback)
    requires cb in s.tasks && !s.fault
    ensures RunStep(p, s, cb) != s
  {
    var s' := RunStep(p, s, cb);
    if !s'.fault { assert cb !in s'.tasks; }
  }

  lemma BuilderMoves(p: Pipeline, s: State)
    requires Inv(p, s) && s.at <= |p.stages| && Returned(s)
    ensures BuildStep(p, s) != s
  {
    assert MainOk(p, s, s.at);
  }

  lemma StuckBuilder(p: Pipeline, s: State)
    requires Inv(p, s) && Stuck(p, s)
    ensures s.at == |p.stages| + 1
  {
    assert Step(p, s, Build) == s;
    if s.at <= |p.stages| {
      if s.at > 0 {
        assert MainOk(p, s, s.at - 1);
        StuckCell(p, s, Main(s.at - 1));
      }
      BuilderMoves(p, s);
    }
  }

  lemma {:induction false} StuckChain(p: Pipeline, s: State, i: nat)
    requires Inv(p, s) && Stuck(p, s) && i <= |p.stages| && Fold(p, i).Some?
    ensures Started(s, Main(i)) && Ran(p, s, i)
  {
    StuckBuilder(p, s);
    if i > 0 {
      StuckChain(p, s, i - 1);
      assert InnerOk(p, s, i - 1);
      if !Started(s, Main(i)) { StuckCell(p, s, Inner(i - 1)); }
    }
    assert MainOk(p, s, i);
    StuckCell(p, s, Main(i));
  }

  /** The fold exists exactly if no stage throws. */
  lemma {:induction false} FoldExists(p: Pipeline, n: nat)
    requires n <= |p.stages|
    ensures Fold(p, n).Some? <==> forall i: nat | i < n :: !Throws(p, i)
  {
    if n > 0 {
      FoldExists(p, n - 1);
      assert Throws(p, n - 1) <==> Fold(p, n - 1).Some? && Fold(p, n).None?;
    }
  }

  /**
    Once there is nothing left to do, in whatever order it was done: the final
    callback has been called if and only if no asynchronous continuation or handler
    threw, and then exactly once and with the fold; and the continuations called
    are exactly those that were reached and on whose branch their input lay.
   */
  lemma DeliversTheFold(p: Pipeline, es: seq<Event>)
    requires Stuck(p, Run(p, Init(p), es))
    ensures var s, n := Run(p, Init(p), es), |p.stages|;
      && (s.delivered != [] <==> forall i: nat | i < n :: !Throws(p, i))
      && (s.delivered != [] ==> Fold(p, n).Some? && s.delivered == [Task(Fold(p, n).value, SetLast(p, n))])
      && (forall i: nat | i < n :: Called(s.calls, i) <==> Fold(p, i).Some? && OnBranch(p.stages[i].fn, Fold(p, i).value))
  {
    var s, n := Run(p, Init(p), es), |p.stages|;
    RunKeepsInv(p, es);
    RunKeepsAllCalled(p, es);
    FoldExists(p, n);
    ExecutorIsSetLast(p, n);
    if Fold(p, n).Some? { StuckChain(p, s, n); }
    forall i: nat | i < n
      ensures Called(s.calls, i) <==> Fold(p, i).Some? && OnBranch(p.stages[i].fn, Fold(p, i).value)
    {
      if Fold(p, i).Some? { StuckChain(p, s, i); }
      if Called(s.calls, i) {
        var k :| 0 <= k < |s.calls| && s.calls[k].i == i;
        assert CallOk(p, s, s.calls[k]);
      }
    }
  }

  /** A handler that throws loses the whole pipeline: the final callback is never called. */
  lemma ThrowingHandlerIsLost(e: Exec, error: Error, es: seq<Event>)
    requires var p := Pipeline(e, Fail(error), [Stage([], Recover((_: Error) => None))], []);
      Stuck(p, Run(p, Init(p), es))
    ensures var p := Pipeline(e, Fail(error), [Stage([], Recover((_: Error) => None))], []);
      Run(p, Init(p), es).delivered == []
  {
    var p := Pipeline(e, Fail(error), [Stage([], Recover((_: Error) => None))], []);
    DeliversTheFold(p, es);
    assert Fold(p, 0) == Some(p.source);
    assert Throws(p, 0);
  }

  // ---- and there is an end to it ----

  function ProducingLeft(prod: Producing): nat {
    match prod case Unset => 5 case Emplacing(_) => 4 case Emplaced => 3 case Firing => 2 case Set => 0
  }

  function ConsumingLeft(cons: Consuming): nat {
    match cons case Unsubscribed => 5 case Subscribing(_) => 4 case Written => 3 case Firing => 2 case Subscribed => 0
  }

  function CellLeft(s: State, id: CellId): nat {
    if id in s.cells then ProducingLeft(s.cells[id].prod) + ConsumingLeft(s.cells[id].cons) else 11
  }

  function TaskLeft(s: State, cb: Callback): nat { if cb in s.tasks then 1 else 0 }

  function ViasLeft(p: Pipeline, s: State, i: nat): nat {
    if i < s.at then 0
    else if i == s.at && s.via <= |Vias(p, i)| then |Vias(p, i)| - s.via
    else |Vias(p, i)|
  }

  /** What is left to do about the i-th future and the i-th combinator. */
  function Left(p: Pipeline, s: State, i: nat): nat {
    CellLeft(s, Main(i)) + CellLeft(s, Inner(i)) + TaskLeft(s, CallbackOf(p, i)) + TaskLeft(s, Forward(i)) + ViasLeft(p, s, i)
  }

  function Work(p: Pipeline, s: State, n: nat): nat {
    Left(p, s, n) + if n == 0 then 0 else Work(p, s, n - 1)
  }

  lemma {:induction false} WorkShrinks(p: Pipeline, s: State, s': State, n: nat, j: nat)
    requires forall i: nat | i <= n :: Left(p, s', i) <= Left(p, s, i)
    ensures Work(p, s', n) <= Work(p, s, n)
    ensures j <= n && Left(p, s', j) < Left(p, s, j) ==> Work(p, s', n) < Work(p, s, n)
  {
    if n > 0 { WorkShrinks(p, s, s', n - 1, j); }
  }

  /** One shared state moves on, and may submit its callback. */
  lemma OneCellLess(p: Pipeline, s: State, id: CellId, s': State)
    requires id in s.cells && id in s'.cells && id.i <= |p.stages|
    requires s'.at == s.at && s'.via == s.via
    requires s'.cells.Keys == s.cells.Keys && forall d | d in s.cells && d != id :: s'.cells[d] == s.cells[d]
    requires forall cb | cb != Receiver(p, id) :: cb in s'.tasks <==> cb in s.tasks
    requires CellLeft(s', id) + TaskLeft(s', Receiver(p, id)) < CellLeft(s, id) + TaskLeft(s, Receiver(p, id))
    ensures Work(p, s', |p.stages|) < Work(p, s, |p.stages|)
  {
    var i, n := id.i, |p.stages|;
    forall k: nat | k <= n && k != i
      ensures Left(p, s', k) <= Left(p, s, k)
    {
    }
    assert Left(p, s', i) < Left(p, s, i);
    hide Left;
    WorkShrinks(p, s, s', n, i);
  }

  lemma ProduceProgress(p: Pipeline, s: State, id: CellId)
    requires Inv(p, s) && id in s.cells && ProduceStep(s, id) != s
    ensures Work(p, ProduceStep(s, id), |p.stages|) < Work(p, s, |p.stages|)
  {
    Known(p, s, id);
    hide Inv, Work, MainOk, InnerOk, Out;
    OneCellLess(p, s, id, ProduceStep(s, id));
  }

  lemma ConsumeProgress(p: Pipeline, s: State, id: CellId)
    requires Inv(p, s) && id in s.cells && ConsumeStep(s, id) != s
    ensures Work(p, ConsumeStep(s, id), |p.stages|) < Work(p, s, |p.stages|)
  {
    Known(p, s, id);
    hide Inv, Work, MainOk, InnerOk, Out;
    OneCellLess(p, s, id, ConsumeStep(s, id));
  }

  lemma BuildProgress(p: Pipeline, s: State)
    requires Inv(p, s) && BuildStep(p, s) != s
    ensures Work(p, BuildStep(p, s), |p.stages|) < Work(p, s, |p.stages|)
  {
    var s' := BuildStep(p, s);
    Known(p, s, Main(s.at));
    if s.at < |p.stages| { Absent(p, s, s.at + 1); }
    hide Inv, InnerOk, CellOk;
    assert forall i: nat | i <= |p.stages| :: Left(p, s', i) <= Left(p, s, i);
    assert Left(p, s', s.at) < Left(p, s, s.at);
    hide Left;
    WorkShrinks(p, s, s', |p.stages|, s.at);
  }

  /** A callback is gone, and the next future's promise is used or the inner future started. */
  lemma OneTaskLess(p: Pipeline, s: State, cb: Callback, s': State, i: nat)
    requires s'.at == s.at && s'.via == s.via && i <= |p.stages|
    requires cb in s.tasks && s'.tasks == s.tasks - {cb}
    requires cb == CallbackOf(p, i) || cb == Forward(i)
    requires forall d :: CellLeft(s', d) <= CellLeft(s, d)
    ensures Work(p, s', |p.stages|) < Work(p, s, |p.stages|)
  {
    forall k: nat | k <= |p.stages|
      ensures Left(p, s', k) <= Left(p, s, k)
    {
      assert CellLeft(s', Main(k)) <= CellLeft(s, Main(k)) && CellLeft(s', Inner(k)) <= CellLeft(s, Inner(k));
    }
    assert CellLeft(s', Main(i)) <= CellLeft(s, Main(i)) && CellLeft(s', Inner(i)) <= CellLeft(s, Inner(i));
    assert Left(p, s', i) < Left(p, s, i);
    hide Left;
    WorkShrinks(p, s, s', |p.stages|, i);
  }

  lemma TaskEffect(p: Pipeline, s: State, cb: Callback)
    requires Inv(p, s) && cb in s.tasks
    ensures var s' := RunStep(p, s, cb);
      && Belongs(p, cb) && s'.at == s.at && s'.via == s.via && s'.tasks == s.tasks - {cb}
      && (forall d :: CellLeft(s', d) <= CellLeft(s, d))
  {
    assert Belongs(p, cb);
    if cb.Deliver? { assert MainOk(p, s, |p.stages|); } else { Knowns(p, s, cb.i); }
    hide Inv, CellOk, Fold, Vias, Executor, ExecutorAfter, CallsDiffer;
  }

  lemma TaskProgress(p: Pipeline, s: State, cb: Callback)
    requires Inv(p, s) && cb in s.tasks
    ensures Work(p, RunStep(p, s, cb), |p.stages|) < Work(p, s, |p.stages|)
  {
    hide Inv, Work, RunStep;
    TaskEffect(p, s, cb);
    OneTaskLess(p, s, cb, RunStep(p, s, cb), if cb.Deliver? then |p.stages| else cb.i);
  }

  /** Every event that does anything leaves less to do, so every schedule comes to the end described above. */
  lemma StepIsProgress(p: Pipeline, s: State, e: Event)
    requires Inv(p, s) && Step(p, s, e) != s
    ensures Work(p, Step(p, s, e), |p.stages|) < Work(p, s, |p.stages|)
  {
    hide Work;
    match e
    case Build => BuildProgress(p, s);
    case Produce(id) => ProduceProgress(p, s, id);
    case Consume(id) => ConsumeProgress(p, s, id);
    case RunTask(cb) => TaskProgress(p, s, cb);
  }
}
