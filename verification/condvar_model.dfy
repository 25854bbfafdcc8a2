/**
  A semaphore built from a mutex and a condition variable (condvar_test.cpp over
  condvar.cpp and futex.h), as a step machine: any number of fibers acquire and
  release, and anyone may notify without the lock at any time. The mutex is the
  one proved elsewhere, taken here as an atomic lock; the spinlock likewise.
 */
module CondVarModel {
  import opened Wrappers

  const SIZE_T: nat := 0x1_0000_0000_0000_0000      // 2^64

  type Size = x: nat | x < SIZE_T
  type Fid = nat

  /** Why a fiber is in WakeOne or WakeAll: as a releaser with the lock, or from outside. */
  datatype Waker = Releaser | Outsider(all: bool)

  datatype Pc =
    | Idle
    | Holding                           // has a permit
    // Acquire; `woken` says that a notification resumed the fiber
    | Locking(woken: bool)
    | Checking(woken: bool)
    | Preparing                         // CondVar::Wait
    | Unlocking(key: Size)
    | Spinning(key: Size)               // ParkIfEqual
    | Comparing(key: Size)
    | Backing                           // the epoch has moved on: release the spinlock
    | Handing                           // suspended; AwaitSuspend is to release the spinlock
    | Parked
    | Leaving(acquired: bool)           // the guard's destructor, from Acquire or from Release
    // Release
    | Entering
    | Adding
    // WakeOne and WakeAll
    | WakeSpinning(waker: Waker)
    | Bumping(waker: Waker)
    | Dropping(waker: Waker, list: seq<Fid>)
    | Waking(waker: Waker, list: seq<Fid>)

  /**
    `wakes` counts the increments of the epoch, `since` remembers it for each fiber
    that has prepared to wait, and `lastAll` is its value after the last WakeAll.
    `late` holds the waiters that parked although there had been notifications since
    they prepared.
   */
  datatype State = State(
    permits: nat, lock: Option<Fid>,
    spin: Option<Fid>, epoch: Size, waiters: seq<Fid>,
    pc: map<Fid, Pc>, wakes: nat, since: map<Fid, nat>, lastAll: nat, late: set<Fid>, fault: bool)

  datatype Event =
    | Acquire(f: Fid)
    | Release(f: Fid)
    | Notify(f: Fid, all: bool)         // by a fiber that neither waits nor holds the lock
    | Go(f: Fid)

  function Init(permits: nat, fibers: set<Fid>): State {
    State(permits, None, None, 0, [], map f | f in fibers :: Idle, 0, map[], 0, {}, false)
  }

  function At(s: State, f: Fid, p: Pc): State { s.(pc := s.pc[f := p]) }

  /** The state check in Fiber::Resume holds of a fiber that has suspended. */
  predicate IsSuspended(p: Pc) { p.Handing? || p.Parked? }

  // ---- Acquire ----

  function LockStep(s: State, f: Fid, p: Pc): State {
    if s.lock == None then At(s.(lock := Some(f)), f, p) else s
  }

  function CheckStep(s: State, f: Fid): State {
    if s.permits == 0 then At(s, f, Preparing) else At(s.(permits := s.permits - 1), f, Leaving(true))
  }

  function PrepareStep(s: State, f: Fid): State {
    At(s.(since := s.since[f := s.wakes]), f, Unlocking(s.epoch))
  }

  function SpinStep(s: State, f: Fid, p: Pc): State {
    if s.spin == None then At(s.(spin := Some(f)), f, p) else s
  }

  function CompareStep(s: State, f: Fid, key: Size): State {
    if s.epoch != key then At(s, f, Backing)
    else
      var onTime := f in s.since && s.since[f] == s.wakes;
      At(s.(waiters := s.waiters + [f], late := if onTime then s.late else s.late + {f}), f, Handing)
  }

  // ---- WakeOne and WakeAll ----

  function TakesAll(waker: Waker): bool { waker.Outsider? && waker.all }

  function BumpStep(s: State, f: Fid, waker: Waker): State {
    var s1 := s.(epoch := (s.epoch + 1) % SIZE_T, wakes := s.wakes + 1);
    if TakesAll(waker) then At(s1.(waiters := [], late := {}, lastAll := s1.wakes), f, Dropping(waker, s.waiters))
    else if s.waiters == [] then At(s1, f, Dropping(waker, []))
    else At(s1.(waiters := s.waiters[1..], late := s.late - {s.waiters[0]}), f, Dropping(waker, [s.waiters[0]]))
  }

  /** One turn of Wake. The fiber resumed goes on to take the lock again. */
  function WakeStep(s: State, f: Fid, waker: Waker, list: seq<Fid>): State {
    if list == [] then At(s, f, if waker == Releaser then Leaving(false) else Idle)
    else if list[0] !in s.pc || !IsSuspended(s.pc[list[0]]) then s.(fault := true)
    else At(At(s, list[0], Locking(true)), f, Waking(waker, list[1..]))
  }

  function GoStep(s: State, f: Fid): State
    requires f in s.pc
  {
    match s.pc[f]
    case Locking(woken) => LockStep(s, f, Checking(woken))
    case Checking(_) => CheckStep(s, f)
    case Preparing => PrepareStep(s, f)
    case Unlocking(key) => At(s.(lock := None), f, Spinning(key))
    case Spinning(key) => SpinStep(s, f, Comparing(key))
    case Comparing(key) => CompareStep(s, f, key)
    case Backing => At(s.(spin := None), f, Locking(false))
    case Handing => At(s.(spin := None), f, Parked)
    case Leaving(acquired) => At(s.(lock := None), f, if acquired then Holding else Idle)
    case Entering => LockStep(s, f, Adding)
    case Adding => At(s.(permits := s.permits + 1), f, WakeSpinning(Releaser))
    case WakeSpinning(waker) => SpinStep(s, f, Bumping(waker))
    case Bumping(waker) => BumpStep(s, f, waker)
    case Dropping(waker, list) => At(s.(spin := None), f, Waking(waker, list))
    case Waking(waker, list) => WakeStep(s, f, waker, list)
    case _ => s                         // Idle, Holding, Parked
  }

  function Step(s: State, e: Event): State {
    if e.f !in s.pc || s.fault then s
    else match e
      case Acquire(f) => if s.pc[f] == Idle then At(s, f, Locking(false)) else s
      case Release(f) => if s.pc[f] == Holding then At(s, f, Entering) else s
      case Notify(f, all) => if s.pc[f] == Idle then At(s, f, WakeSpinning(Outsider(all))) else s
      case Go(f) => GoStep(s, f)
  }

  function Run(s: State, es: seq<Event>): State {
    if es == [] then s else Step(Run(s, es[..|es| - 1]), es[|es| - 1])
  }
}
