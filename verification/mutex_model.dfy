/**
  Fibers contending for one mutex (mutex.h), on any number of workers that run
  Fiber::Run (fiber.cpp), as a step machine. A fiber is named by its address, and
  the Locker on its stack, linked while the fiber waits, goes by the same name:
  the same node comes back each time the fiber waits again.
 */
module MutexModel {

  type Fid = nat                        // a fiber and its Locker; 0 is the null pointer
  type Wid = nat                        // a worker of the executor

  const NULL: Fid := 0

  /** `state_` of the mutex. */
  datatype Word = Unlocked | LockedNoWaiters | WaitNode(node: Fid)

  datatype FiberState = Queued | Running | Suspended

  datatype Awaiter = NoAwaiter | Locker | Unlocker(next: Fid) | Yielder

  /** Where a fiber's own code stands. */
  datatype Pc =
    | Fresh
    | Outside
    | Inside                            // between lock and unlock
    // Release
    | Loading
    | Unlocking
    | Grabbing
    | Appending(cur: Fid)
    | Resuming
    // suspended
    | AtLock
    | AtUnlock
    | AtYield(inside: bool)
    | Completed

  datatype Fiber = Fiber(state: FiberState, awaiter: Awaiter, pc: Pc)

  /** Where a worker stands in Fiber::Run. */
  datatype Work =
    | Idle
    | Stepping(f: Fid)                  // about to resume the coroutine of f
    | InFiber(f: Fid)
    | After(f: Fid)                     // the coroutine has come back
    // Locker::OnCompleted, that is TryLockOrEnqueue
    | LockLoad(f: Fid)
    | LockTry(f: Fid)
    | LockPush(f: Fid, expected: Word)
    // Unlocker::OnCompleted
    | HandOff(f: Fid, next: Fid)

  /** `grants` logs who was given the lock, oldest first. */
  datatype State = State(
    word: Word, waiters: seq<Fid>, next: map<Fid, Fid>,
    fibers: map<Fid, Fiber>, queue: seq<Fid>, workers: map<Wid, Work>,
    grants: seq<Fid>, fault: bool)

  /** What a fiber does next, where its program is free to choose. */
  datatype Choice = Lock | TryLock | Unlock | Yield | Finish

  datatype Event =
    | Spawn(f: Fid)                     // Fiber::Create
    | Pick(w: Wid, i: nat)              // the executor gives a worker the i-th queued fiber
    | Go(w: Wid, choice: Choice)

  function Init(workers: set<Wid>): State {
    State(Unlocked, [], map[], map[], [], map w | w in workers :: Idle, [], false)
  }

  function NextOf(s: State, a: Fid): Fid { if a in s.next then s.next[a] else NULL }

  function Fault(s: State): State { s.(fault := true) }

  function At(s: State, w: Wid, work: Work): State { s.(workers := s.workers[w := work]) }

  function MoveTo(s: State, f: Fid, pc: Pc): State
    requires f in s.fibers
  {
    s.(fibers := s.fibers[f := s.fibers[f].(pc := pc)])
  }

  /** The running fiber suspends on an awaiter: control returns to RunFiber. */
  function Suspend(s: State, w: Wid, f: Fid, awaiter: Awaiter, pc: Pc): State
    requires f in s.fibers
  {
    At(s.(fibers := s.fibers[f := Fiber(Suspended, awaiter, pc)]), w, After(f))
  }

  /** Fiber::Schedule: the fiber is queued with the executor. */
  function Schedule(s: State, f: Fid): State
    requires f in s.fibers
  {
    s.(fibers := s.fibers[f := s.fibers[f].(state := Queued)], queue := s.queue + [f])
  }

  function TakeLock(s: State, f: Fid): State {
    s.(word := LockedNoWaiters, grants := s.grants + [f])
  }

  function SpawnStep(s: State, f: Fid): State {
    if f == NULL || f in s.fibers then s
    else s.(fibers := s.fibers[f := Fiber(Queued, NoAwaiter, Fresh)], queue := s.queue + [f])
  }

  function PickStep(s: State, w: Wid, i: nat): State
    requires w in s.workers
  {
    if s.workers[w] == Idle && i < |s.queue|
    then At(s.(queue := s.queue[..i] + s.queue[i + 1..]), w, Stepping(s.queue[i]))
    else s
  }

  // ---- the mutex, as the running fiber uses it ----

  /** Fast path, and on failure the suspension on a Locker. */
  function LockStep(s: State, w: Wid, f: Fid): State
    requires f in s.fibers
  {
    if s.word == Unlocked then MoveTo(TakeLock(s, f), f, Inside)
    else Suspend(s, w, f, Locker, AtLock)
  }

  function TryLockStep(s: State, f: Fid): State
    requires f in s.fibers
  {
    if s.word == Unlocked then MoveTo(TakeLock(s, f), f, Inside) else s
  }

  /** Release first looks at the owner's own list. */
  function UnlockStep(s: State, f: Fid): State
    requires f in s.fibers
  {
    MoveTo(s, f, if s.waiters != [] then Resuming else Loading)
  }

  function LoadStep(s: State, f: Fid): State
    requires f in s.fibers
  {
    MoveTo(s, f, if s.word == LockedNoWaiters then Unlocking else Grabbing)
  }

  function UnlockingStep(s: State, f: Fid): State
    requires f in s.fibers
  {
    if s.word == LockedNoWaiters then MoveTo(s.(word := Unlocked), f, Outside) else MoveTo(s, f, Loading)
  }

  /** The exchange had better return the address of a node, and the owner's list be empty. */
  function GrabStep(s: State, f: Fid): State
    requires f in s.fibers
  {
    if s.word.WaitNode? && s.waiters == [] then MoveTo(s.(word := LockedNoWaiters), f, Appending(s.word.node)) else Fault(s)
  }

  /** A Locker exists as long as its fiber is inside the call to Suspend. */
  predicate LockerAlive(s: State, n: Fid) { n in s.fibers && s.fibers[n].pc == AtLock }

  /** One turn of AppendToList. */
  function AppendStep(s: State, f: Fid): State
    requires f in s.fibers && s.fibers[f].pc.Appending?
  {
    var cur := s.fibers[f].pc.cur;
    if cur == NULL then MoveTo(s, f, Resuming)
    else if !LockerAlive(s, cur) then Fault(s)
    else MoveTo(s.(waiters := s.waiters + [cur]), f, Appending(NextOf(s, cur)))
  }

  /** ResumeNextWaiter: from here on the lock belongs to the first waiter. */
  function ResumeStep(s: State, w: Wid, f: Fid): State
    requires f in s.fibers
  {
    if s.waiters == [] || !LockerAlive(s, s.waiters[0]) then Fault(s)
    else
      var n := s.waiters[0];
      Suspend(s.(waiters := s.waiters[1..], grants := s.grants + [n]), w, f, Unlocker(n), AtUnlock)
  }

  function FiberStep(s: State, w: Wid, f: Fid, choice: Choice): State
    requires f in s.fibers
  {
    match s.fibers[f].pc
    case Outside =>
      (match choice
       case Lock => LockStep(s, w, f)
       case TryLock => TryLockStep(s, f)
       case Yield => Suspend(s, w, f, Yielder, AtYield(false))
       case Finish => At(MoveTo(s, f, Completed), w, After(f))
       case Unlock => s)
    case Inside =>
      (match choice
       case Unlock => UnlockStep(s, f)
       case Yield => Suspend(s, w, f, Yielder, AtYield(true))
       case _ => s)
    case Loading => LoadStep(s, f)
    case Unlocking => UnlockingStep(s, f)
    case Grabbing => GrabStep(s, f)
    case Appending(_) => AppendStep(s, f)
    case Resuming => ResumeStep(s, w, f)
    case _ => s
  }

  // ---- Fiber::Run ----

  function Resumed(pc: Pc): Pc {
    match pc
    case Fresh => Outside
    case AtLock => Inside
    case AtUnlock => Outside
    case AtYield(inside) => if inside then Inside else Outside
    case other => other
  }

  /** Fiber::Step: a worker resumes the coroutine of the fiber it has taken. */
  function ResumeFiber(s: State, w: Wid, f: Fid): State
    requires f in s.fibers
  {
    At(s.(fibers := s.fibers[f := s.fibers[f].(state := Running, pc := Resumed(s.fibers[f].pc))]), w, InFiber(f))
  }

  /** The rest of RunFiber: destroy, or hand the fiber to its awaiter. */
  function AfterStep(s: State, w: Wid, f: Fid): State
    requires f in s.fibers
  {
    var fiber := s.fibers[f];
    if fiber.pc == Completed then At(s.(fibers := s.fibers - {f}), w, Idle)
    else if fiber.state != Suspended then Fault(s)
    else
      var s1 := s.(fibers := s.fibers[f := fiber.(awaiter := NoAwaiter)]);
      match fiber.awaiter
      case NoAwaiter => At(s1, w, Idle)
      case Locker => At(s1, w, LockLoad(f))
      case Unlocker(n) => At(s1, w, HandOff(f, n))
      case Yielder => At(Schedule(s1, f), w, Idle)
  }

  function LockLoadStep(s: State, w: Wid, f: Fid): State {
    At(s, w, if s.word == Unlocked then LockTry(f) else LockPush(f, s.word))
  }

  function LockTryStep(s: State, w: Wid, f: Fid): State {
    if s.word == Unlocked then At(TakeLock(s, f), w, Stepping(f)) else At(s, w, LockLoad(f))
  }

  /** Link the node to what was read, then try to swing the word to it. */
  function LockPushStep(s: State, w: Wid, f: Fid, expected: Word): State {
    var linked := s.(next := s.next[f := if expected.WaitNode? then expected.node else NULL]);
    if s.word == expected then At(linked.(word := WaitNode(f)), w, Idle) else At(linked, w, LockLoad(f))
  }

  function HandOffStep(s: State, w: Wid, f: Fid, n: Fid): State
    requires f in s.fibers
  {
    At(Schedule(s, f), w, Stepping(n))
  }

  /** Every action of a worker reads or writes its fiber, which had better exist. */
  function GoStep(s: State, w: Wid, choice: Choice): State
    requires w in s.workers && s.workers[w] != Idle
  {
    var work := s.workers[w];
    if work.f !in s.fibers then Fault(s)
    else match work
      case Stepping(f) => ResumeFiber(s, w, f)
      case InFiber(f) => FiberStep(s, w, f, choice)
      case After(f) => AfterStep(s, w, f)
      case LockLoad(f) => LockLoadStep(s, w, f)
      case LockTry(f) => LockTryStep(s, w, f)
      case LockPush(f, expected) => LockPushStep(s, w, f, expected)
      case HandOff(f, n) => HandOffStep(s, w, f, n)
  }

  function Step(s: State, e: Event): State {
    if s.fault then s
    else match e
      case Spawn(f) => SpawnStep(s, f)
      case Pick(w, i) => if w in s.workers then PickStep(s, w, i) else s
      case Go(w, choice) => if w in s.workers && s.workers[w] != Idle then GoStep(s, w, choice) else s
  }

  function Run(s: State, es: seq<Event>): State {
    if es == [] then s else Step(Run(s, es[..|es| - 1]), es[|es| - 1])
  }
}
