/**
  A chain of future combinators (future.h) over shared states (shared_state.h) and
  their rendezvous (rendezvous.h), as a step machine: a caller's thread attaches
  the stages one after another and subscribes a callback, a producer fulfils the
  source at any time, and the executors run submitted callbacks in any order.
 */
module FutureModel {
  import opened Wrappers

  type Value(==, 0, !new)
  type Error(==, 0, !new)
  type Exec(==, 0, !new)                // an executor

  datatype Result = Ok(value: Value) | Fail(error: Error)

  /** What an asynchronous continuation returns: a future, with its executor and its result to come. */
  datatype Promised = Promised(executor: Exec, result: Result)

  /**
    Continuations and handlers. A synchronous continuation that throws gives a Fail;
    None is an asynchronous continuation or a handler that throws.
   */
  datatype Fn =
    | Then(f: Value -> Result)
    | ThenAsync(g: Value -> Option<Promised>)
    | Recover(h: Error -> Option<Result>)

  /** Any number of Vias and then a combinator. */
  datatype Stage = Stage(vias: seq<Exec>, fn: Fn)

  /** A contract made on an executor, the stages, and more Vias before the final Subscribe. */
  datatype Pipeline = Pipeline(executor: Exec, source: Result, stages: seq<Stage>, vias: seq<Exec>)

  /** The shared states: one for every future in the chain, and one for each inner future. */
  datatype CellId = Main(i: nat) | Inner(i: nat)

  /** Continue(i) is the i-th combinator's callback, Forward(i) the one it subscribes to the inner future. */
  datatype Callback = Continue(i: nat) | Forward(i: nat) | Deliver

  /** The producer's way through SetResult, once it has the promise. */
  datatype Producing = Unset | Emplacing(res: Result) | Emplaced | Firing | Set

  /** The consumer's way through SetCallback. */
  datatype Consuming = Unsubscribed | Subscribing(cb: Callback) | Written | Firing | Subscribed

  datatype Cell = Cell(
    executor: Exec, producer: bool, consumer: bool,    // the two bits of `state_`
    callback: Option<Callback>, result: Option<Result>,
    prod: Producing, cons: Consuming)

  /** A submitted callback, with the result it carries. */
  datatype Task = Task(result: Result, executor: Exec)

  datatype Call = Call(i: nat, input: Result, executor: Exec)

  /**
    `at` is the future the caller holds and `via` the number of Vias applied to it;
    `calls` logs the invocations of continuations and handlers, `delivered` those
    of the final callback, and `dropped` the stages that threw.
   */
  datatype State = State(
    at: nat, via: nat, cells: map<CellId, Cell>, tasks: map<Callback, Task>,
    calls: seq<Call>, dropped: set<nat>, delivered: seq<Task>, fault: bool)

  datatype Event =
    | Build                             // the caller's thread
    | Produce(id: CellId)               // whoever holds the promise
    | Consume(id: CellId)               // whoever is subscribing
    | RunTask(cb: Callback)             // an executor

  function Vias(p: Pipeline, i: nat): seq<Exec> {
    if i < |p.stages| then p.stages[i].vias else p.vias
  }

  function Fresh(executor: Exec): Cell {
    Cell(executor, false, false, None, None, Unset, Unsubscribed)
  }

  function Init(p: Pipeline): State {
    State(0, 0, map[Main(0) := Fresh(p.executor).(prod := Emplacing(p.source))], map[], [], {}, [], false)
  }

  function Fault(s: State): State { s.(fault := true) }

  function Put(s: State, id: CellId, c: Cell): State { s.(cells := s.cells[id := c]) }

  function CallbackOf(p: Pipeline, i: nat): Callback { if i < |p.stages| then Continue(i) else Deliver }

  // ---- attaching ----

  /** The caller's thread is back from the last Subscribe. */
  predicate Returned(s: State) {
    s.at > 0 ==> Main(s.at - 1) in s.cells && s.cells[Main(s.at - 1)].cons == Subscribed
  }

  /** Via, or the next combinator: a new contract on the same executor, and a subscription to the old one. */
  function BuildStep(p: Pipeline, s: State): State {
    if s.at > |p.stages| || !Returned(s) || Main(s.at) !in s.cells then s
    else
      var c := s.cells[Main(s.at)];
      if s.via < |Vias(p, s.at)| then
        Put(s, Main(s.at), c.(executor := Vias(p, s.at)[s.via])).(via := s.via + 1)
      else
        var s1 := Put(s, Main(s.at), c.(cons := Subscribing(CallbackOf(p, s.at)))).(at := s.at + 1, via := 0);
        if s.at < |p.stages| then Put(s1, Main(s.at + 1), Fresh(c.executor)) else s1
  }

  // ---- the shared state ----

  /** InvokeCallback: result and callback had better be there, and the callback in no other queue. */
  function InvokeCallback(s: State, id: CellId): State
    requires id in s.cells
  {
    var c := s.cells[id];
    if c.callback.None? || c.result.None? || c.callback.value in s.tasks then Fault(s)
    else Put(s, id, c.(result := None)).(tasks := s.tasks[c.callback.value := Task(c.result.value, c.executor)])
  }

  /** SetResult: emplace, then `fetch_or(Producer)`, which panics unless its bit was clear. */
  function ProduceStep(s: State, id: CellId): State
    requires id in s.cells
  {
    var c := s.cells[id];
    match c.prod
    case Emplacing(res) => Put(s, id, c.(result := Some(res), prod := Emplaced))
    case Emplaced =>
      if c.producer then Fault(s)
      else Put(s, id, c.(producer := true, prod := if c.consumer then Producing.Firing else Set))
    case Firing => InvokeCallback(Put(s, id, c.(prod := Set)), id)
    case _ => s
  }

  /** SetCallback, likewise. */
  function ConsumeStep(s: State, id: CellId): State
    requires id in s.cells
  {
    var c := s.cells[id];
    match c.cons
    case Subscribing(cb) => Put(s, id, c.(callback := Some(cb), cons := Written))
    case Written =>
      if c.consumer then Fault(s)
      else Put(s, id, c.(consumer := true, cons := if c.producer then Consuming.Firing else Subscribed))
    case Firing => InvokeCallback(Put(s, id, c.(cons := Subscribed)), id)
    case _ => s
  }

  // ---- the callbacks ----

  /** Promise::Set: a promise can be used once. */
  function Fulfil(s: State, id: CellId, res: Result): State {
    if id !in s.cells || s.cells[id].prod != Unset then Fault(s)
    else Put(s, id, s.cells[id].(prod := Emplacing(res)))
  }

  /** The i-th combinator's callback; an exception is swallowed, and the promise destroyed with the callback. */
  function ContinueStep(p: Pipeline, s: State, i: nat, task: Task): State
    requires i < |p.stages|
  {
    var called := s.(calls := s.calls + [Call(i, task.result, task.executor)]);
    match p.stages[i].fn
    case Then(f) =>
      if task.result.Ok? then Fulfil(called, Main(i + 1), f(task.result.value))
      else Fulfil(s, Main(i + 1), task.result)
    case ThenAsync(g) =>
      if task.result.Ok? then
        (match g(task.result.value)
         case None => called.(dropped := s.dropped + {i})
         case Some(u) =>
           if Inner(i) in s.cells then Fault(s)
           else Put(called, Inner(i), Fresh(u.executor).(prod := Emplacing(u.result), cons := Subscribing(Forward(i)))))
      else Fulfil(s, Main(i + 1), task.result)
    case Recover(h) =>
      if task.result.Ok? then Fulfil(s, Main(i + 1), task.result)
      else
        match h(task.result.error)
        case None => called.(dropped := s.dropped + {i})
        case Some(res) => Fulfil(called, Main(i + 1), res)
  }

  function RunStep(p: Pipeline, s: State, cb: Callback): State
    requires cb in s.tasks
  {
    var task := s.tasks[cb];
    var s1 := s.(tasks := s.tasks - {cb});
    match cb
    case Continue(i) => if i < |p.stages| then ContinueStep(p, s1, i, task) else Fault(s)
    case Forward(i) => Fulfil(s1, Main(i + 1), task.result)
    case Deliver => s1.(delivered := s.delivered + [task])
  }

  function Step(p: Pipeline, s: State, e: Event): State {
    if s.fault then s
    else match e
      case Build => BuildStep(p, s)
      case Produce(id) => if id in s.cells then ProduceStep(s, id) else s
      case Consume(id) => if id in s.cells then ConsumeStep(s, id) else s
      case RunTask(cb) => if cb in s.tasks then RunStep(p, s, cb) else s
  }

  function Run(p: Pipeline, s: State, es: seq<Event>): State {
    if es == [] then s else Step(p, Run(p, s, es[..|es| - 1]), es[|es| - 1])
  }

  // ---- what it should compute ----

  function Apply(fn: Fn, input: Result): Option<Result> {
    match fn
    case Then(f) => Some(if input.Ok? then f(input.value) else input)
    case ThenAsync(g) =>
      if input.Ok? then (match g(input.value) case None => None case Some(u) => Some(u.result)) else Some(input)
    case Recover(h) => if input.Ok? then Some(input) else h(input.error)
  }

  /** The stages folded over the source, if none of them throws where it should not. */
  function Fold(p: Pipeline, i: nat): Option<Result>
    requires i <= |p.stages|
  {
    if i == 0 then Some(p.source)
    else match Fold(p, i - 1)
      case None => None
      case Some(res) => Apply(p.stages[i - 1].fn, res)
  }

  /** The fold, where there is one. */
  function Carried(p: Pipeline, i: nat): Result
    requires i <= |p.stages|
  {
    if Fold(p, i).Some? then Fold(p, i).value else p.source
  }

  /** The i-th stage is reached, and throws an exception that nobody handles. */
  predicate Throws(p: Pipeline, i: nat)
    requires i < |p.stages|
  {
    Fold(p, i).Some? && Fold(p, i + 1).None?
  }

  /** The executor of the i-th future once k of its Vias are applied: the last one, or else inherited. */
  function ExecutorAfter(p: Pipeline, i: nat, k: nat): Exec
    requires i <= |p.stages| && k <= |Vias(p, i)|
    decreases i
  {
    if k > 0 then Vias(p, i)[k - 1]
    else if i == 0 then p.executor
    else ExecutorAfter(p, i - 1, |Vias(p, i - 1)|)
  }

  function Executor(p: Pipeline, i: nat): Exec
    requires i <= |p.stages|
  {
    ExecutorAfter(p, i, |Vias(p, i)|)
  }

  /** The i-th stage's own function is for this kind of result. */
  predicate OnBranch(fn: Fn, input: Result) {
    if fn.Recover? then input.Fail? else input.Ok?
  }
}
