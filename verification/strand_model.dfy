/**
  The strand (strand.cpp) over its lock-free intrusive queue, as a step machine:
  any number of threads calling Execute, an underlying executor that runs a
  scheduled batch at any later time on any idle thread, and tasks that may submit
  to the same strand while they run.
 */
module StrandModel {

  const SIZE_T: nat := 0x1_0000_0000_0000_0000      // 2^64
  const TASKS: nat := 0x8000_0000_0000              // task nodes live at 47-bit addresses
  const THREADS: nat := 0x1_0000_0000               // threads have 32-bit names

  type Size = x: nat | x < SIZE_T
  type Task = x: nat | x < TASKS                    // the address of a task node
  type Tid = x: nat | x < THREADS

  const NULL: Task := 0

  /** What an Execute or a RunNextBatch goes back to: its caller, the task that called Execute, or the end of Run. */
  datatype Back =
    | ToCaller
    | ToTask(items: seq<Task>, completed: nat)
    | ToRelease

  datatype Pc =
    | Idle
    // Execute
    | Putting(task: Task, back: Back)
    | Counting(back: Back)
    // RunNextBatch, called from Execute or from Run
    | Referring(back: Back)
    | Scheduling(back: Back)
    // Run; `walk` is the rest of the taken chain, `items` the reversed list built from it
    | Taking
    | Reversing(walk: Task, items: seq<Task>)
    | Running(items: seq<Task>, completed: nat)
    | InTask(items: seq<Task>, completed: nat)
    | Settling(completed: nat)
    | Releasing
    | Destroying

  /**
    `pending` counts submissions of the strand that the executor has not started;
    `order` logs the successful Puts and `executed` the tasks started, oldest first.
   */
  datatype State = State(
    head: Task, next: map<Task, Task>, counter: Size,
    pending: nat, refs: Size, alive: bool, handle: bool,
    pc: map<Tid, Pc>, order: seq<Task>, executed: seq<Task>, fault: bool)

  datatype Event =
    | Submit(t: Tid, task: Task)          // Strand::Execute(task)
    | StartBatch(t: Tid)                  // the executor runs the strand
    | DropHandle(t: Tid)                  // the Strand object is destroyed
    | Go(t: Tid, spurious: bool)

  function Init(threads: set<Tid>): State {
    State(NULL, map[], 0, 0, 1, true, true, map t | t in threads :: Idle, [], [], false)
  }

  function At(s: State, t: Tid, p: Pc): State { s.(pc := s.pc[t := p]) }

  function NextOf(s: State, a: Task): Task { if a in s.next then s.next[a] else NULL }

  /** Inside Strand::Execute, where the caller keeps the Strand object alive. */
  predicate InExecute(p: Pc) {
    p.Putting? || p.Counting? || ((p.Referring? || p.Scheduling?) && !p.back.ToRelease?)
  }

  /** A caller may submit a node that is not on its way to running already. */
  predicate Submittable(s: State, task: Task) {
    && task != NULL
    && (forall i :: |s.executed| <= i < |s.order| ==> s.order[i] != task)
    && (forall t | t in s.pc && s.pc[t].Putting? :: s.pc[t].task != task)
  }

  /** A thread may submit outside everything, or from the task it is running. */
  predicate MaySubmit(p: Pc) { p.Idle? || p.InTask? }

  function BackTo(p: Pc): Back { if p.InTask? then ToTask(p.items, p.completed) else ToCaller }

  function Resumed(back: Back): Pc {
    match back
    case ToCaller => Idle
    case ToTask(items, completed) => InTask(items, completed)
    case ToRelease => Releasing
  }

  function SubmitStep(s: State, t: Tid, task: Task): State
    requires t in s.pc
  {
    if MaySubmit(s.pc[t]) && s.handle && Submittable(s, task) then At(s, t, Putting(task, BackTo(s.pc[t]))) else s
  }

  function StartStep(s: State, t: Tid): State
    requires t in s.pc
  {
    if s.pc[t] == Idle && s.pending > 0 then At(s.(pending := s.pending - 1), t, Taking) else s
  }

  function DropStep(s: State, t: Tid): State
    requires t in s.pc
  {
    if s.pc[t] == Idle && s.handle && (forall u | u in s.pc :: !InExecute(s.pc[u]))
    then At(s.(handle := false), t, Releasing) else s
  }

  /** MPSCLockFreeIntrusiveStack::Push: the expected head is the node's own `next_`. */
  function PutStep(s: State, t: Tid, spurious: bool): State
    requires t in s.pc && s.pc[t].Putting?
  {
    var Putting(task, back) := s.pc[t];
    if !spurious && s.head == NextOf(s, task) then
      At(s.(head := task, next := s.next[task := s.head], order := s.order + [task]), t, Counting(back))
    else
      At(s.(next := s.next[task := s.head]), t, Putting(task, back))
  }

  function CountStep(s: State, t: Tid): State
    requires t in s.pc && s.pc[t].Counting?
  {
    At(s.(counter := (s.counter + 1) % SIZE_T), t, if s.counter == 0 then Referring(s.pc[t].back) else Resumed(s.pc[t].back))
  }

  function ReferStep(s: State, t: Tid): State
    requires t in s.pc && s.pc[t].Referring?
  {
    At(s.(refs := (s.refs + 1) % SIZE_T), t, Scheduling(s.pc[t].back))
  }

  function ScheduleStep(s: State, t: Tid): State
    requires t in s.pc && s.pc[t].Scheduling?
  {
    At(s.(pending := s.pending + 1), t, Resumed(s.pc[t].back))
  }

  function TakeStep(s: State, t: Tid): State
    requires t in s.pc && s.pc[t].Taking?
  {
    At(s.(head := NULL), t, Reversing(s.head, []))
  }

  /** One turn of ConsumeAll's walk: read the link, then PushFront the node. */
  function ReverseStep(s: State, t: Tid): State
    requires t in s.pc && s.pc[t].Reversing?
  {
    var Reversing(walk, items) := s.pc[t];
    if walk == NULL then At(s, t, Running(items, 0))
    else At(s, t, Reversing(NextOf(s, walk), [walk] + items))
  }

  function RunStep(s: State, t: Tid): State
    requires t in s.pc && s.pc[t].Running?
  {
    var Running(items, completed) := s.pc[t];
    if items == [] then At(s, t, Settling(completed))
    else At(s.(executed := s.executed + [items[0]]), t, InTask(items[1..], completed))
  }

  /** The subtraction wraps, and the comparison is between unsigned numbers. */
  function SettleStep(s: State, t: Tid): State
    requires t in s.pc && s.pc[t].Settling?
  {
    var completed := s.pc[t].completed;
    At(s.(counter := (s.counter - completed) % SIZE_T), t,
       if s.counter > completed then Referring(ToRelease) else Releasing)
  }

  function ReleaseStep(s: State, t: Tid): State
    requires t in s.pc && s.pc[t].Releasing?
  {
    At(s.(refs := (s.refs - 1) % SIZE_T), t, if s.refs == 1 then Destroying else Idle)
  }

  function Action(s: State, t: Tid, spurious: bool): State
    requires t in s.pc
  {
    match s.pc[t]
    case Idle => s
    case Putting(_, _) => PutStep(s, t, spurious)
    case Counting(_) => CountStep(s, t)
    case Referring(_) => ReferStep(s, t)
    case Scheduling(_) => ScheduleStep(s, t)
    case Taking => TakeStep(s, t)
    case Reversing(_, _) => ReverseStep(s, t)
    case Running(_, _) => RunStep(s, t)
    case InTask(items, completed) => At(s, t, Running(items, completed + 1))
    case Settling(_) => SettleStep(s, t)
    case Releasing => ReleaseStep(s, t)
    case Destroying => At(s.(alive := false), t, Idle)
  }

  /** Every action reads or writes the implementation object, which had better be there. */
  function GoStep(s: State, t: Tid, spurious: bool): State
    requires t in s.pc
  {
    if s.pc[t] != Idle && !s.alive then s.(fault := true) else Action(s, t, spurious)
  }

  function Step(s: State, e: Event): State {
    if e.t !in s.pc || s.fault then s
    else match e
      case Submit(t, task) => SubmitStep(s, t, task)
      case StartBatch(t) => StartStep(s, t)
      case DropHandle(t) => DropStep(s, t)
      case Go(t, spurious) => GoStep(s, t, spurious)
  }

  function Run(s: State, es: seq<Event>): State {
    if es == [] then s else Step(Run(s, es[..|es| - 1]), es[|es| - 1])
  }
}
