/** Every shared state meets its two parties once, and carries the fold so far. */
module FutureInvariant {
  import opened Wrappers
  import opened FutureModel

  /**
    One shared state whose producer brings `res` and whose consumer brings `cb`;
    `out` says that the callback has been submitted.
   */
  predicate CellOk(c: Cell, res: Result, cb: Callback, out: bool) {
    && (c.producer <==> c.prod.Firing? || c.prod.Set?)
    && (c.consumer <==> c.cons.Firing? || c.cons.Subscribed?)
    && (c.prod.Emplacing? ==> c.prod.res == res)
    && (c.cons.Subscribing? ==> c.cons.cb == cb)
    && c.result == (if c.prod.Unset? || c.prod.Emplacing? || out then None else Some(res))
    && c.callback == (if c.cons.Unsubscribed? || c.cons.Subscribing? then None else Some(cb))
    && (c.prod.Firing? ==> c.cons.Subscribed?)
    && (c.cons.Firing? ==> c.prod.Set?)
    && (out <==> c.prod.Set? && c.cons.Subscribed?)
  }

  predicate Started(s: State, id: CellId) { id in s.cells && s.cells[id].prod != Unset }

  /** The callback of the i-th future has been run by its executor. */
  predicate Ran(p: Pipeline, s: State, i: nat) {
    if i < |p.stages| then Started(s, Main(i + 1)) || Inner(i) in s.cells || i in s.dropped else s.delivered != []
  }

  predicate IsAsync(p: Pipeline, i: nat)
    requires i < |p.stages|
  {
    p.stages[i].fn.ThenAsync? && Fold(p, i).Some? && Fold(p, i).value.Ok? && p.stages[i].fn.g(Fold(p, i).value.value).Some?
  }

  /** The i-th future in the chain. */
  predicate MainOk(p: Pipeline, s: State, i: nat)
    requires i <= |p.stages|
  {
    var id, cb := Main(i), CallbackOf(p, i);
    && !(cb in s.tasks && Ran(p, s, i))
    && (id in s.cells <==> i <= s.at)
    && (id in s.cells ==>
          && CellOk(s.cells[id], Carried(p, i), cb, cb in s.tasks || Ran(p, s, i))
          && (Started(s, id) ==> Fold(p, i).Some?)
          && (s.cells[id].cons.Unsubscribed? <==> i == s.at)
          && (if i == s.at then s.via <= |Vias(p, i)| && s.cells[id].executor == ExecutorAfter(p, i, s.via)
              else s.cells[id].executor == Executor(p, i))
          && (i + 1 < s.at ==> s.cells[id].cons.Subscribed?))
    && (id !in s.cells ==> cb !in s.tasks && !Ran(p, s, i))
    && (cb in s.tasks ==> s.tasks[cb] == Task(Carried(p, i), Executor(p, i)))
  }

  /** The inner future of the i-th combinator, if it has one. */
  predicate InnerOk(p: Pipeline, s: State, i: nat)
    requires i < |p.stages|
  {
    var id, cb := Inner(i), Forward(i);
    && !(cb in s.tasks && Started(s, Main(i + 1)))
    && (id in s.cells ==>
          && IsAsync(p, i)
          && CellOk(s.cells[id], Carried(p, i + 1), cb, cb in s.tasks || Started(s, Main(i + 1)))
          && s.cells[id].executor == p.stages[i].fn.g(Carried(p, i).value).value.executor
          && !s.cells[id].prod.Unset? && !s.cells[id].cons.Unsubscribed?)
    && (id !in s.cells ==> cb !in s.tasks && (IsAsync(p, i) ==> !Started(s, Main(i + 1))))
    && (cb in s.tasks ==> s.tasks[cb].result == Carried(p, i + 1))
    && (i in s.dropped ==> Throws(p, i))
  }

  predicate CallOk(p: Pipeline, s: State, call: Call) {
    && call.i < |p.stages| && Ran(p, s, call.i)
    && Fold(p, call.i) == Some(call.input) && call.executor == Executor(p, call.i)
    && OnBranch(p.stages[call.i].fn, call.input)
  }

  predicate CallsDiffer(calls: seq<Call>) {
    forall j, k :: 0 <= j < k < |calls| ==> calls[j].i != calls[k].i
  }

  predicate Belongs(p: Pipeline, cb: Callback) {
    match cb
    case Continue(i) => i < |p.stages|
    case Forward(i) => i < |p.stages|
    case Deliver => true
  }

  ghost predicate Shape(p: Pipeline, s: State) {
    && !s.fault
    && s.at <= |p.stages| + 1
    && (s.delivered == [] || (Fold(p, |p.stages|).Some? && s.delivered == [Task(Carried(p, |p.stages|), Executor(p, |p.stages|))]))
    && (forall cb | cb in s.tasks :: Belongs(p, cb))
    && (forall id | id in s.cells :: if id.Main? then id.i <= |p.stages| else id.i < |p.stages|)
    && (forall i | i in s.dropped :: i < |p.stages|)
    && CallsDiffer(s.calls)
    && Started(s, Main(0))
  }

  ghost predicate Inv(p: Pipeline, s: State) {
    && Shape(p, s)
    && (forall i: nat {:trigger MainOk(p, s, i)} | i <= |p.stages| :: MainOk(p, s, i))
    && (forall i: nat {:trigger InnerOk(p, s, i)} | i < |p.stages| :: InnerOk(p, s, i))
    && (forall k {:trigger s.calls[k]} | 0 <= k < |s.calls| :: CallOk(p, s, s.calls[k]))
  }

  // ---- what an action leaves alone ----

  /** Only the i-th future and the inner future of combinator i are touched, and what they submit. */
  ghost predicate Confined(p: Pipeline, s: State, s': State, i: nat) {
    && i <= |p.stages|
    && s'.at == s.at && (s'.via == s.via || i == s.at) && s'.delivered == s.delivered && s'.calls == s.calls && s'.dropped == s.dropped
    && (forall id | id != Main(i) && id != Inner(i) :: id in s.cells <==> id in s'.cells)
    && (forall id | id != Main(i) && id != Inner(i) && id in s.cells :: s'.cells[id] == s.cells[id])
    && (Main(i) in s.cells <==> Main(i) in s'.cells) && (Inner(i) in s.cells <==> Inner(i) in s'.cells)
    && (Started(s, Main(i)) <==> Started(s', Main(i)))
    && (forall cb | cb != CallbackOf(p, i) && cb != Forward(i) :: cb in s.tasks <==> cb in s'.tasks)
    && (forall cb | cb != CallbackOf(p, i) && cb != Forward(i) && cb in s.tasks :: s'.tasks[cb] == s.tasks[cb])
  }

  lemma Others(p: Pipeline, s: State, s': State, i: nat)
    requires Inv(p, s) && Confined(p, s, s', i)
    ensures forall j: nat | j <= |p.stages| && j != i :: MainOk(p, s', j)
    ensures forall j: nat | j < |p.stages| && j != i :: InnerOk(p, s', j)
    ensures forall k | 0 <= k < |s'.calls| :: CallOk(p, s', s'.calls[k])
  {
    forall j: nat | j <= |p.stages|
      ensures Ran(p, s', j) == Ran(p, s, j)
    {
    }
    forall j: nat | j <= |p.stages| && j != i
      ensures MainOk(p, s', j)
    {
      assert MainOk(p, s, j);
    }
    forall j: nat | j < |p.stages| && j != i
      ensures InnerOk(p, s', j)
    {
      assert InnerOk(p, s, j);
    }
  }
}
