/** The semaphore, its condition variable and its fibers, changed in place. */
module CondVars {
  import opened Wrappers
  import opened Collections
  import opened CondVarModel
  import opened CondVarInvariant
  import opened CondVarSteps
  import opened CondVarTheorems

  class Semaphore {
    const total: nat
    var permits: nat
    var lock: Option<Fid>
    var spin: Option<Fid>
    var epoch: Size
    var waiters: seq<Fid>
    var pc: map<Fid, Pc>
    var wakes: nat
    var since: map<Fid, nat>
    var lastAll: nat
    var late: set<Fid>
    var fault: bool

    constructor (init: nat, fibers: set<Fid>)
      ensures total == init && Valid() && Snapshot() == Init(init, fibers)
    {
      total := init;
      permits, lock, spin, epoch, waiters := init, None, None, 0, [];
      pc := map f | f in fibers :: Idle;
      wakes, since, lastAll, late, fault := 0, map[], 0, {}, false;
      new;
      InitInv(init, fibers);
      assert Inv(Snapshot(), map[], total);
    }

    function Snapshot(): State
      reads this
    {
      State(permits, lock, spin, epoch, waiters, pc, wakes, since, lastAll, late, fault)
    }

    /** Permits, epoch, waiters and fibers agree, and the permits are `total` in all. */
    ghost predicate Valid()
      reads this
    {
      exists v :: Inv(Snapshot(), v, total)
    }

    /** The mutex, if it is free. */
    method Lock(f: Fid, p: Pc)
      modifies this`lock, this`pc
      ensures Snapshot() == LockStep(old(Snapshot()), f, p)
    {
      if lock == None {
        lock := Some(f);
        pc := pc[f := p];
      }
    }

    /** The spinlock, if it is free. */
    method SpinLock(f: Fid, p: Pc)
      modifies this`spin, this`pc
      ensures Snapshot() == SpinStep(old(Snapshot()), f, p)
    {
      if spin == None {
        spin := Some(f);
        pc := pc[f := p];
      }
    }

    /** A permit, if there is one; otherwise the fiber is to wait and look again. */
    method Check(f: Fid)
      modifies this`permits, this`pc
      ensures Snapshot() == CheckStep(old(Snapshot()), f)
    {
      if permits == 0 {
        pc := pc[f := Preparing];
      } else {
        permits := permits - 1;
        pc := pc[f := Leaving(true)];
      }
    }

    /** The key to a wait is the epoch as it is now. */
    method PrepareWait(f: Fid)
      modifies this`since, this`pc
      ensures Snapshot() == PrepareStep(old(Snapshot()), f)
    {
      since := since[f := wakes];
      pc := pc[f := Unlocking(epoch)];
    }

    /** On the list, unless the epoch has moved on. */
    method ParkIfEqual(f: Fid, key: Size)
      modifies this`waiters, this`late, this`pc
      ensures Snapshot() == CompareStep(old(Snapshot()), f, key)
    {
      if epoch != key {
        pc := pc[f := Backing];
      } else {
        if f !in since || since[f] != wakes { late := late + {f}; }
        waiters := waiters + [f];
        pc := pc[f := Handing];
      }
    }

    /** Under the spinlock, the epoch moves on and the first waiter, or all of them, leave the list. */
    method Bump(f: Fid, waker: Waker)
      modifies this`epoch, this`wakes, this`waiters, this`lastAll, this`late, this`pc
      ensures Snapshot() == BumpStep(old(Snapshot()), f, waker)
      ensures f in pc && pc[f].Dropping? && pc[f].waker == waker && old(waiters) == pc[f].list + waiters
      ensures waker == Outsider(true) ==> waiters == []
      ensures waker == Releaser || waker == Outsider(false) ==> |pc[f].list| == if old(waiters) == [] then 0 else 1
    {
      epoch := (epoch + 1) % SIZE_T;
      wakes := wakes + 1;
      var list: seq<Fid>;
      if TakesAll(waker) {
        list, waiters := waiters, [];
        late, lastAll := {}, wakes;
      } else if waiters == [] {
        list := [];
      } else {
        late := late - {waiters[0]};
        list, waiters := [waiters[0]], waiters[1..];
      }
      pc := pc[f := Dropping(waker, list)];
    }

    /** Wake, run without interruption: everyone on the list is resumed, once. */
    method Wake(list: seq<Fid>) returns (count: nat)
      requires Distinct(list) && forall n | n in list :: n in pc && IsSuspended(pc[n])
      modifies this`pc
      ensures count == |list|
      ensures pc.Keys == old(pc).Keys
      ensures forall n | n in pc :: pc[n] == if n in list then Locking(true) else old(pc)[n]
    {
      count := 0;
      var rest := list;
      while rest != []
        invariant count + |rest| == |list| && rest == list[count..]
        invariant pc.Keys == old(pc).Keys
        invariant forall n | n in pc :: pc[n] == if n in list[..count] then Locking(true) else old(pc)[n]
      {
        var item := rest[0];
        assert item == list[count] && item !in list[..count];
        assert list[..count + 1] == list[..count] + [item];
        pc := pc[item := Locking(true)];
        rest := rest[1..];
        count := count + 1;
      }
      assert list[..count] == list;
    }

    /** One turn of that loop. */
    method WakeNext(f: Fid, waker: Waker, list: seq<Fid>)
      modifies this`pc, this`fault
      ensures Snapshot() == WakeStep(old(Snapshot()), f, waker, list)
    {
      if list == [] {
        var p := if waker == Releaser then Leaving(false) else Idle;
        pc := pc[f := p];
      } else if list[0] !in pc || !IsSuspended(pc[list[0]]) {
        fault := true;
      } else {
        pc := pc[list[0] := Locking(true)];
        pc := pc[f := Waking(waker, list[1..])];
      }
    }

    /** One action of a fiber. */
    method Advance(f: Fid)
      requires f in pc
      modifies this
      ensures Snapshot() == GoStep(old(Snapshot()), f)
    {
      hide CheckStep, CompareStep, BumpStep, WakeStep, LockStep, SpinStep, PrepareStep;
      match pc[f]
      case Locking(woken) => Lock(f, Checking(woken));
      case Checking(_) => Check(f);
      case Preparing => PrepareWait(f);
      case Unlocking(key) => lock, pc := None, pc[f := Spinning(key)];
      case Spinning(key) => SpinLock(f, Comparing(key));
      case Comparing(key) => ParkIfEqual(f, key);
      case Backing => spin, pc := None, pc[f := Locking(false)];
      case Handing => spin, pc := None, pc[f := Parked];
      case Leaving(acquired) =>
        var p := if acquired then Holding else Idle;
        lock, pc := None, pc[f := p];
      case Entering => Lock(f, Adding);
      case Adding => permits, pc := permits + 1, pc[f := WakeSpinning(Releaser)];
      case WakeSpinning(waker) => SpinLock(f, Bumping(waker));
      case Bumping(waker) => Bump(f, waker);
      case Dropping(waker, list) => spin, pc := None, pc[f := Waking(waker, list)];
      case Waking(waker, list) => WakeNext(f, waker, list);
      case _ =>
    }

    /** One event. */
    method Perform(e: Event)
      requires Valid()
      modifies this
      ensures Valid() && Snapshot() == Step(old(Snapshot()), e)
    {
      hide Inv, Step;
      StaysInv(Snapshot(), total, e);
      Dispatch(e);
    }

    method Dispatch(e: Event)
      modifies this
      ensures Snapshot() == Step(old(Snapshot()), e)
    {
      if e.f in pc && !fault {
        match e
        case Acquire(f) => if pc[f] == Idle { pc := pc[f := Locking(false)]; }
        case Release(f) => if pc[f] == Holding { pc := pc[f := Entering]; }
        case Notify(f, all) => if pc[f] == Idle { pc := pc[f := WakeSpinning(Outsider(all))]; }
        case Go(f) => Advance(f);
      }
    }

    /** Any schedule at all. */
    method RunSchedule(es: seq<Event>)
      requires Valid()
      modifies this
      ensures Valid() && Snapshot() == Run(old(Snapshot()), es)
    {
      for i := 0 to |es|
        invariant Valid() && Snapshot() == Run(old(Snapshot()), es[..i])
      {
        assert es[..i + 1][..i] == es[..i];
        Perform(es[i]);
      }
      assert es[..|es|] == es;
    }
  }

  lemma StaysInv(s: State, init: nat, e: Event)
    requires exists v :: Inv(s, v, init)
    ensures exists v :: Inv(Step(s, e), v, init)
  {
    var v :| Inv(s, v, init);
    var v' := StepKeepsInv(s, v, init, e);
  }
}
