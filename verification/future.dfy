/** A pipeline's shared states changed in place, and a manual executor that runs its callbacks. */
module Futures {
  import opened Wrappers
  import opened FutureModel
  import opened FutureInvariant
  import opened FutureSteps
  import opened FutureTheorems

  /** Nobody is on the way through a SetResult or a SetCallback. */
  predicate SettledCell(c: Cell) { (c.prod.Unset? || c.prod.Set?) && (c.cons.Unsubscribed? || c.cons.Subscribed?) }

  predicate Settled(s: State) { forall id | id in s.cells :: SettledCell(s.cells[id]) }

  function TasksRun(es: seq<Event>): nat {
    if es == [] then 0 else TasksRun(es[..|es| - 1]) + if es[|es| - 1].RunTask? then 1 else 0
  }

  /** Every callback that was to run was in the queue at that moment: what TasksRun counts did run. */
  ghost predicate AllQueued(p: Pipeline, s: State, es: seq<Event>) {
    forall i :: 0 <= i < |es| && es[i].RunTask? ==> es[i].cb in FutureModel.Run(p, s, es[..i]).tasks
  }

  lemma OneMore(p: Pipeline, s: State, es: seq<Event>, e: Event)
    ensures FutureModel.Run(p, s, es + [e]) == Step(p, FutureModel.Run(p, s, es), e)
    ensures TasksRun(es + [e]) == TasksRun(es) + if e.RunTask? then 1 else 0
    ensures AllQueued(p, s, es) && (e.RunTask? ==> e.cb in FutureModel.Run(p, s, es).tasks) ==> AllQueued(p, s, es + [e])
  {
    var es' := es + [e];
    assert es'[..|es|] == es;
    forall i | 0 <= i < |es| && AllQueued(p, s, es) && es'[i].RunTask?
      ensures es'[i].cb in FutureModel.Run(p, s, es'[..i]).tasks
    {
      assert es'[..i] == es[..i] && es'[i] == es[i];
    }
  }

  /** With every stage attached, every party through and no task left, nothing can happen any more. */
  lemma {:induction false} QuietDelivers(p: Pipeline, s: State, i: nat)
    requires Inv(p, s) && Settled(s) && s.tasks == map[] && s.at == |p.stages| + 1 && i <= |p.stages|
    requires Fold(p, i).Some?
    ensures Started(s, Main(i)) && Ran(p, s, i)
  {
    if i > 0 {
      QuietDelivers(p, s, i - 1);
      assert InnerOk(p, s, i - 1);
    }
    assert MainOk(p, s, i);
  }

  class FutureChain {
    const p: Pipeline
    var at: nat
    var via: nat
    var cells: map<CellId, Cell>
    var tasks: map<Callback, Task>
    var calls: seq<Call>
    var dropped: set<nat>
    var delivered: seq<Task>
    var fault: bool

    constructor (p: Pipeline)
      ensures this.p == p && Valid() && Snapshot() == Init(p)
    {
      this.p := p;
      at, via := 0, 0;
      cells := map[Main(0) := Fresh(p.executor).(prod := Emplacing(p.source))];
      tasks, calls, dropped, delivered, fault := map[], [], {}, [], false;
      new;
      StartKeepsInv(p);
    }

    function Snapshot(): State
      reads this
    {
      State(at, via, cells, tasks, calls, dropped, delivered, fault)
    }

    /** Shared states, callbacks and what has been called agree with the fold. */
    ghost predicate Valid()
      reads this
    {
      Inv(p, Snapshot())
    }

    /** Via, or one more combinator, or the final Subscribe. */
    method Attach()
      modifies this`at, this`via, this`cells
      ensures Snapshot() == BuildStep(p, old(Snapshot()))
    {
      if at > |p.stages| || !Returned(Snapshot()) || Main(at) !in cells { return; }
      var c := cells[Main(at)];
      var vias := Vias(p, at);
      if via < |vias| {
        cells := cells[Main(at) := c.(executor := vias[via])];
        via := via + 1;
      } else {
        cells := cells[Main(at) := c.(cons := Subscribing(CallbackOf(p, at)))];
        if at < |p.stages| { cells := cells[Main(at + 1) := Fresh(c.executor)]; }
        at, via := at + 1, 0;
      }
    }

    method InvokeCallback(id: CellId)
      requires id in cells
      modifies this`cells, this`tasks, this`fault
      ensures Snapshot() == FutureModel.InvokeCallback(old(Snapshot()), id)
    {
      var c := cells[id];
      if c.callback.None? || c.result.None? || c.callback.value in tasks {
        fault := true;
      } else {
        tasks := tasks[c.callback.value := Task(c.result.value, c.executor)];
        cells := cells[id := c.(result := None)];
      }
    }

    method SetResult(id: CellId)
      requires id in cells
      modifies this`cells, this`tasks, this`fault
      ensures Snapshot() == ProduceStep(old(Snapshot()), id)
    {
      var c := cells[id];
      match c.prod
      case Emplacing(res) => cells := cells[id := c.(result := Some(res), prod := Emplaced)];
      case Emplaced =>
        if c.producer {
          fault := true;
        } else {
          var then_ := if c.consumer then Producing.Firing else Producing.Set;
          cells := cells[id := c.(producer := true, prod := then_)];
        }
      case Firing =>
        cells := cells[id := c.(prod := Producing.Set)];
        InvokeCallback(id);
      case _ =>
    }

    method SetCallback(id: CellId)
      requires id in cells
      modifies this`cells, this`tasks, this`fault
      ensures Snapshot() == ConsumeStep(old(Snapshot()), id)
    {
      var c := cells[id];
      match c.cons
      case Subscribing(cb) => cells := cells[id := c.(callback := Some(cb), cons := Written)];
      case Written =>
        if c.consumer {
          fault := true;
        } else {
          var then_ := if c.producer then Consuming.Firing else Subscribed;
          cells := cells[id := c.(consumer := true, cons := then_)];
        }
      case Firing =>
        cells := cells[id := c.(cons := Subscribed)];
        InvokeCallback(id);
      case _ =>
    }

    method Fulfil(id: CellId, res: Result)
      modifies this`cells, this`fault
      ensures Snapshot() == FutureModel.Fulfil(old(Snapshot()), id, res)
    {
      if id !in cells || cells[id].prod != Unset {
        fault := true;
      } else {
        cells := cells[id := cells[id].(prod := Emplacing(res))];
      }
    }

    method Continue(i: nat, task: Task)
      requires i < |p.stages|
      modifies this`cells, this`calls, this`dropped, this`fault
      ensures Snapshot() == ContinueStep(p, old(Snapshot()), i, task)
    {
      var call := Call(i, task.result, task.executor);
      match p.stages[i].fn
      case Then(f) =>
        if task.result.Ok? {
          calls := calls + [call];
          Fulfil(Main(i + 1), f(task.result.value));
        } else {
          Fulfil(Main(i + 1), task.result);
        }
      case ThenAsync(g) =>
        if task.result.Ok? {
          match g(task.result.value)
          case None =>
            calls := calls + [call];
            dropped := dropped + {i};
          case Some(u) =>
            if Inner(i) in cells {
              fault := true;
            } else {
              calls := calls + [call];
              cells := cells[Inner(i) := Fresh(u.executor).(prod := Emplacing(u.result), cons := Subscribing(Forward(i)))];
            }
        } else {
          Fulfil(Main(i + 1), task.result);
        }
      case Recover(h) =>
        if task.result.Ok? {
          Fulfil(Main(i + 1), task.result);
        } else {
          calls := calls + [call];
          match h(task.result.error)
          case None => dropped := dropped + {i};
          case Some(res) => Fulfil(Main(i + 1), res);
        }
    }

    method Perform(e: Event)
      requires Valid()
      modifies this
      ensures Snapshot() == Step(p, old(Snapshot()), e) && Valid()
    {
      StepKeepsInv(p, Snapshot(), e);
      hide Inv, BuildStep, ProduceStep, ConsumeStep, ContinueStep;
      NoFault(p, Snapshot());
      match e
      case Build => Attach();
      case Produce(id) => if id in cells { SetResult(id); }
      case Consume(id) => if id in cells { SetCallback(id); }
      case RunTask(cb) =>
        if cb in tasks {
          TaskBelongs(p, Snapshot(), cb);
          var task := tasks[cb];
          tasks := tasks - {cb};
          match cb
          case Continue(i) => Continue(i, task);
          case Forward(i) => Fulfil(Main(i + 1), task.result);
          case Deliver => delivered := delivered + [task];
        }
    }

    /** The thread that has a promise or a callback to set goes through with it. */
    method Settle(id: CellId, ghost s0: State, ghost es0: seq<Event>) returns (ghost es: seq<Event>)
      requires Valid() && id in cells
      requires forall d | d in cells && d != id :: SettledCell(cells[d])
      requires Snapshot() == FutureModel.Run(p, s0, es0)
      modifies this
      ensures Valid() && Settled(Snapshot()) && at == old(at)
      ensures Snapshot() == FutureModel.Run(p, s0, es) && TasksRun(es) == TasksRun(es0)
      ensures es0 <= es && (AllQueued(p, s0, es0) ==> AllQueued(p, s0, es))
      ensures Work(p, Snapshot(), |p.stages|) <= Work(p, old(Snapshot()), |p.stages|)
    {
      es := es0;
      while !SettledCell(cells[id])
        invariant Valid() && id in cells && at == old(at)
        invariant forall d | d in cells && d != id :: SettledCell(cells[d])
        invariant Snapshot() == FutureModel.Run(p, s0, es) && TasksRun(es) == TasksRun(es0)
        invariant es0 <= es && (AllQueued(p, s0, es0) ==> AllQueued(p, s0, es))
        invariant Work(p, Snapshot(), |p.stages|) <= Work(p, old(Snapshot()), |p.stages|)
        decreases Work(p, Snapshot(), |p.stages|)
      {
        var e := if cells[id].prod.Unset? || cells[id].prod.Set? then Consume(id) else Produce(id);
        ghost var s := Snapshot();
        CellCanMove(p, s, id);
        StepIsProgress(p, s, e);
        OneMore(p, s0, es, e);
        Perform(e);
        es := es + [e];
      }
    }

    /** RunNextTask: the callback `cb`, first of all, and the SetResult or the Subscribe it ends in. */
    method RunNextTask(cb: Callback, ghost s0: State, ghost es0: seq<Event>) returns (ghost es: seq<Event>)
      requires Valid() && Settled(Snapshot()) && cb in tasks
      requires Snapshot() == FutureModel.Run(p, s0, es0)
      modifies this
      ensures Valid() && Settled(Snapshot()) && at == old(at)
      ensures Snapshot() == FutureModel.Run(p, s0, es) && TasksRun(es) == TasksRun(es0) + 1
      ensures es0 + [RunTask(cb)] <= es && (AllQueued(p, s0, es0) ==> AllQueued(p, s0, es))
      ensures Work(p, Snapshot(), |p.stages|) < Work(p, old(Snapshot()), |p.stages|)
    {
      hide Inv, RunStep, Work;
      ghost var s := Snapshot();
      NoFault(p, s);
      RunTaskChanges(p, s, cb);
      StepIsProgress(p, s, RunTask(cb));
      OneMore(p, s0, es0, RunTask(cb));
      WhatTaskTouches(p, s, cb);
      Perform(RunTask(cb));
      es := es0 + [RunTask(cb)];
      match cb
      case Continue(i) =>
        var id := if Inner(i) in cells && !SettledCell(cells[Inner(i)]) then Inner(i) else Main(i + 1);
        es := Settle(id, s0, es);
      case Forward(i) => es := Settle(Main(i + 1), s0, es);
      case Deliver =>
    }

    /** ManualExecutor::RunAll, with the pipeline's callbacks in its queue. */
    method RunAll() returns (completed: nat, ghost es: seq<Event>)
      requires Valid() && Settled(Snapshot())
      modifies this
      ensures Valid() && Settled(Snapshot())
      ensures tasks == map[] && completed == TasksRun(es) && AllQueued(p, old(Snapshot()), es)
      ensures Snapshot() == FutureModel.Run(p, old(Snapshot()), es)
      ensures at == |p.stages| + 1 && Fold(p, |p.stages|).Some? ==>
        delivered == [Task(Fold(p, |p.stages|).value, SetLast(p, |p.stages|))]
    {
      ghost var s0 := Snapshot();
      completed, es := 0, [];
      while tasks != map[]
        invariant Valid() && Settled(Snapshot()) && at == old(at)
        invariant Snapshot() == FutureModel.Run(p, s0, es) && completed == TasksRun(es)
        invariant AllQueued(p, s0, es)
        decreases Work(p, Snapshot(), |p.stages|)
      {
        SomeTask(tasks);
        var cb :| cb in tasks;
        es := RunNextTask(cb, s0, es);
        completed := completed + 1;
      }
      ExecutorIsSetLast(p, |p.stages|);
      if at == |p.stages| + 1 && Fold(p, |p.stages|).Some? { QuietDelivers(p, Snapshot(), |p.stages|); }
    }

    /** ManualExecutor::RunAtMost */
    method RunAtMost(limit: nat) returns (completed: nat, ghost es: seq<Event>)
      requires Valid() && Settled(Snapshot())
      modifies this
      ensures Valid() && Settled(Snapshot())
      ensures completed <= limit && (completed < limit ==> tasks == map[])
      ensures Snapshot() == FutureModel.Run(p, old(Snapshot()), es) && completed == TasksRun(es)
      ensures AllQueued(p, old(Snapshot()), es)
    {
      ghost var s0 := Snapshot();
      completed, es := 0, [];
      while completed < limit && tasks != map[]
        invariant completed <= limit && Valid() && Settled(Snapshot())
        invariant Snapshot() == FutureModel.Run(p, s0, es) && completed == TasksRun(es)
        invariant AllQueued(p, s0, es)
        decreases limit - completed
      {
        SomeTask(tasks);
        var cb :| cb in tasks;
        es := RunNextTask(cb, s0, es);
        completed := completed + 1;
      }
    }
  }

  lemma SomeTask(tasks: map<Callback, Task>)
    requires tasks != map[]
    ensures exists cb :: cb in tasks
  {
    assert tasks.Keys != {};
    var cb :| cb in tasks.Keys;
    assert cb in tasks;
  }

  lemma NoFault(p: Pipeline, s: State)
    requires Inv(p, s)
    ensures !s.fault
  {
  }

  lemma TaskBelongs(p: Pipeline, s: State, cb: Callback)
    requires Inv(p, s) && cb in s.tasks
    ensures Belongs(p, cb)
  {
  }

  lemma CellCanMove(p: Pipeline, s: State, id: CellId)
    requires Inv(p, s) && id in s.cells && !SettledCell(s.cells[id])
    ensures s.cells[id].prod.Unset? || s.cells[id].prod.Set? ==> ConsumeStep(s, id) != s
    ensures !s.cells[id].prod.Unset? && !s.cells[id].prod.Set? ==> ProduceStep(s, id) != s
    ensures var s' := if s.cells[id].prod.Unset? || s.cells[id].prod.Set? then ConsumeStep(s, id) else ProduceStep(s, id);
      s'.cells.Keys == s.cells.Keys && s'.at == s.at && forall d | d in s.cells && d != id :: s'.cells[d] == s.cells[d]
  {
    Known(p, s, id);
  }

  lemma WhatTaskTouches(p: Pipeline, s: State, cb: Callback)
    requires Inv(p, s) && cb in s.tasks && Settled(s)
    ensures var s' := RunStep(p, s, cb);
      && s'.at == s.at
      && (cb.Deliver? ==> s'.cells == s.cells)
      && (!cb.Deliver? ==> Main(cb.i + 1) in s'.cells)
      && (forall d | d in s'.cells && !(!cb.Deliver? && d == Main(cb.i + 1)) && !(cb.Continue? && d == Inner(cb.i)) ::
            SettledCell(s'.cells[d]))
      && (cb.Continue? && Inner(cb.i) in s'.cells && !SettledCell(s'.cells[Inner(cb.i)]) ==> SettledCell(s'.cells[Main(cb.i + 1)]))
  {
    assert Belongs(p, cb);
    if !cb.Deliver? { Knowns(p, s, cb.i); }
  }
}
