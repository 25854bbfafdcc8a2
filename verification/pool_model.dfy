/**
  The thread pool (thread_pool.cpp) over its blocking queue (blocking_queue.h) and
  its counter (atomic_counter.h), as a step machine: workers, threads that submit
  tasks, wait for idleness or stop the pool, and tasks that submit tasks. Every
  submission has a ticket of its own. What happens under a mutex without touching
  the atomic counter is one step, and condition variables may wake spuriously.
 */
module PoolModel {
  import opened Wrappers

  type Tid = nat
  type Ticket = nat

  /** What comes after AtomicCounter::Done. */
  datatype After = TaskRun | Refusal | Disposal

  datatype Pc =
    | Free                              // in the task's code, or outside the pool
    // Execute
    | Adding(x: Ticket)
    | Putting(x: Ticket)
    | Refused(x: Ticket)
    // AtomicCounter::Done
    | Decrementing(after: After)
    | Notifying(after: After)
    // the worker's loop
    | Taking
    | Sleeping                          // on not_empty_
    | Exited
    // Stop
    | Closing
    | Disposing
    | Joining
    // WaitIdle
    | ZeroLocking
    | ZeroLoading
    | ZeroWaiting                       // has seen a positive count, about to sleep
    | Dozing                            // on all_done_

  /** A thread, and the task it is running if it is a worker. */
  datatype Thread = Thread(task: Option<Ticket>, pc: Pc)

  /**
    `tickets` counts the submissions; `puts` and `pops` log what went into the queue
    and out of it; `started` and `discarded` log the fates, and of the discarded
    `disposed` those that Stop found in the queue and `refused` those it kept out.
   */
  datatype State = State(
    workers: set<Tid>, threads: map<Tid, Thread>,
    counter: int, countLock: Option<Tid>,
    items: seq<Ticket>, closed: bool, queueLock: Option<Tid>,
    tickets: nat, puts: seq<Ticket>, pops: seq<Ticket>, started: seq<Ticket>, discarded: seq<Ticket>, disposed: seq<Ticket>, refused: seq<Ticket>)

  datatype Event =
    | Execute(t: Tid)
    | WaitIdle(t: Tid)
    | Stop(t: Tid)
    | Finish(t: Tid)                    // the task's Run returns
    | WakeUp(t: Tid)                    // a spurious wake-up
    | Go(t: Tid, pick: Tid)             // `pick` is whom notify_one wakes

  function Init(workers: set<Tid>, others: set<Tid>): State {
    State(workers, map t | t in workers + others :: Thread(None, if t in workers then Taking else Free),
          0, None, [], false, None, 0, [], [], [], [], [], [])
  }

  function At(s: State, t: Tid, pc: Pc): State
    requires t in s.threads
  {
    s.(threads := s.threads[t := s.threads[t].(pc := pc)])
  }

  predicate IsSleeping(th: Thread) { th.pc.Sleeping? }

  /** notify_all on not_empty_ */
  function WakeSleepers(threads: map<Tid, Thread>): map<Tid, Thread> {
    map t | t in threads :: if threads[t].pc.Sleeping? then threads[t].(pc := Taking) else threads[t]
  }

  /** notify_all on all_done_ */
  function WakeDozers(threads: map<Tid, Thread>): map<Tid, Thread> {
    map t | t in threads :: if threads[t].pc.Dozing? then threads[t].(pc := ZeroLocking) else threads[t]
  }

  // ---- Execute ----

  function PushBack(s: State, x: Ticket): State { s.(items := s.items + [x], puts := s.puts + [x]) }

  function PopFront(s: State): State
    requires s.items != []
  {
    s.(items := s.items[1..], pops := s.pops + [s.items[0]])
  }

  /** Put wakes one sleeper, if there is one. */
  function PutStep(s: State, t: Tid, x: Ticket, pick: Tid): State
    requires t in s.threads
  {
    if s.queueLock != None then s
    else if s.closed then At(s, t, Refused(x))
    else if forall u | u in s.threads :: !s.threads[u].pc.Sleeping? then At(PushBack(s, x), t, Free)
    else if pick in s.threads && s.threads[pick].pc.Sleeping? then At(At(PushBack(s, x), t, Free), pick, Taking)
    else s
  }

  /** Put has returned false: the task is discarded by its submitter. */
  function RefuseStep(s: State, t: Tid, x: Ticket): State
    requires t in s.threads
  {
    At(s.(discarded := s.discarded + [x], refused := s.refused + [x]), t, Decrementing(Refusal))
  }

  // ---- AtomicCounter ----

  function Continue(after: After): Pc {
    match after case TaskRun => Taking case Refusal => Free case Disposal => Disposing
  }

  function DecrementStep(s: State, t: Tid, after: After): State
    requires t in s.threads
  {
    var task := if after == TaskRun then None else s.threads[t].task;
    s.(counter := s.counter - 1,
       threads := s.threads[t := Thread(task, if s.counter == 1 then Notifying(after) else Continue(after))])
  }

  function NotifyStep(s: State, t: Tid, after: After): State
    requires t in s.threads
  {
    if s.countLock != None then s else At(s.(threads := WakeDozers(s.threads)), t, Continue(after))
  }

  /** WaitZero's look at the count, under the counter's mutex. */
  function LoadStep(s: State, t: Tid): State
    requires t in s.threads
  {
    if s.counter > 0 then At(s, t, ZeroWaiting) else At(s.(countLock := None), t, Free)
  }

  // ---- the worker ----

  function TakeStep(s: State, t: Tid): State
    requires t in s.threads
  {
    if s.queueLock != None then s
    else if s.items != [] then
      PopFront(s).(started := s.started + [s.items[0]], threads := s.threads[t := Thread(Some(s.items[0]), Free)])
    else if s.closed then At(s, t, Exited)
    else At(s, t, Sleeping)
  }

  // ---- Stop ----

  /** CloseImpl: dispose of one item after the other, then close, all under the queue's mutex. */
  function DisposeStep(s: State, t: Tid): State
    requires t in s.threads
  {
    if s.items == [] then At(s.(closed := true, queueLock := None, threads := WakeSleepers(s.threads)), t, Joining)
    else At(PopFront(s).(discarded := s.discarded + [s.items[0]], disposed := s.disposed + [s.items[0]]), t, Decrementing(Disposal))
  }

  function JoinStep(s: State, t: Tid): State
    requires t in s.threads
  {
    if forall w | w in s.workers && w in s.threads :: s.threads[w].pc.Exited? then At(s, t, Free) else s
  }

  function GoStep(s: State, t: Tid, pick: Tid): State
    requires t in s.threads
  {
    match s.threads[t].pc
    case Adding(x) => At(s.(counter := s.counter + 1), t, Putting(x))
    case Putting(x) => PutStep(s, t, x, pick)
    case Refused(x) => RefuseStep(s, t, x)
    case Decrementing(after) => DecrementStep(s, t, after)
    case Notifying(after) => NotifyStep(s, t, after)
    case Taking => TakeStep(s, t)
    case Closing => if s.queueLock == None then At(s.(queueLock := Some(t)), t, Disposing) else s
    case Disposing => DisposeStep(s, t)
    case Joining => JoinStep(s, t)
    case ZeroLocking => if s.countLock == None then At(s.(countLock := Some(t)), t, ZeroLoading) else s
    case ZeroLoading => LoadStep(s, t)
    case ZeroWaiting => At(s.(countLock := None), t, Dozing)
    case _ => s                         // Free, Sleeping, Exited, Dozing
  }

  function WakeUpStep(s: State, t: Tid): State
    requires t in s.threads
  {
    match s.threads[t].pc
    case Sleeping => At(s, t, Taking)
    case Dozing => At(s, t, ZeroLocking)
    case _ => s
  }

  function Step(s: State, e: Event): State {
    if e.t !in s.threads then s
    else
      var th := s.threads[e.t];
      match e
      case Execute(t) => if th.pc == Free then At(s.(tickets := s.tickets + 1), t, Adding(s.tickets)) else s
      case WaitIdle(t) => if th == Thread(None, Free) then At(s, t, ZeroLocking) else s
      case Stop(t) => if th == Thread(None, Free) then At(s, t, Closing) else s
      case Finish(t) => if th.pc == Free && th.task.Some? then At(s, t, Decrementing(TaskRun)) else s
      case WakeUp(t) => WakeUpStep(s, t)
      case Go(t, pick) => GoStep(s, t, pick)
  }

  function Run(s: State, es: seq<Event>): State {
    if es == [] then s else Step(Run(s, es[..|es| - 1]), es[|es| - 1])
  }
}
