/** The mutex, the fibers and the workers that run them, changed in place. */
module FiberMutex {
  import opened Collections
  import opened MutexModel
  import opened MutexInvariant
  import opened MutexTheorems

  class Mutex {
    var word: Word
    var waiters: seq<Fid>
    var next: map<Fid, Fid>
    var fibers: map<Fid, Fiber>
    var queue: seq<Fid>
    var workers: map<Wid, Work>
    var grants: seq<Fid>
    var fault: bool

    constructor (ws: set<Wid>)
      ensures Valid() && Snapshot() == Init(ws)
    {
      word, waiters, next, fibers, queue := Unlocked, [], map[], map[], [];
      workers := map w | w in ws :: Idle;
      grants, fault := [], false;
      new;
      InitInv(ws);
      assert Inv(Snapshot(), View([], [], map[]));
    }

    function Snapshot(): State
      reads this
    {
      State(word, waiters, next, fibers, queue, workers, grants, fault)
    }

    /** The word, the lists, the fibers and the workers agree. */
    ghost predicate Valid()
      reads this
    {
      exists v :: Inv(Snapshot(), v)
    }

    /** A strong compare-exchange from Unlocked to LockedNoWaiters on behalf of f. */
    method TryLock(f: Fid) returns (acquired: bool)
      modifies this`word, this`grants
      ensures acquired <==> old(word) == Unlocked
      ensures Snapshot() == if acquired then TakeLock(old(Snapshot()), f) else old(Snapshot())
    {
      acquired := word == Unlocked;
      if acquired {
        word := LockedNoWaiters;
        grants := grants + [f];
      }
    }

    method SetPc(f: Fid, pc: Pc)
      requires f in fibers
      modifies this`fibers
      ensures Snapshot() == MoveTo(old(Snapshot()), f, pc)
    {
      fibers := fibers[f := fibers[f].(pc := pc)];
    }

    /** The fiber suspends with its awaiter, and its worker is back in RunFiber. */
    method SuspendOn(w: Wid, f: Fid, awaiter: Awaiter, pc: Pc)
      requires f in fibers
      modifies this`fibers, this`workers
      ensures Snapshot() == Suspend(old(Snapshot()), w, f, awaiter, pc)
    {
      fibers := fibers[f := Fiber(Suspended, awaiter, pc)];
      workers := workers[w := After(f)];
    }

    method Enqueue(f: Fid)
      requires f in fibers
      modifies this`fibers, this`queue
      ensures Snapshot() == Schedule(old(Snapshot()), f)
    {
      fibers := fibers[f := fibers[f].(state := Queued)];
      queue := queue + [f];
    }

    /** Fast path, and on failure a suspension on a Locker. */
    method LockOrSuspend(w: Wid, f: Fid)
      requires f in fibers
      modifies this`word, this`grants, this`fibers, this`workers
      ensures Snapshot() == LockStep(old(Snapshot()), w, f)
    {
      var acquired := TryLock(f);
      if acquired { SetPc(f, Inside); } else { SuspendOn(w, f, Locker, AtLock); }
    }

    /** ResumeNextWaiter */
    method ResumeNextWaiter(w: Wid, f: Fid)
      requires f in fibers
      modifies this`waiters, this`grants, this`fibers, this`workers, this`fault
      ensures Snapshot() == ResumeStep(old(Snapshot()), w, f)
    {
      if waiters == [] || !LockerAlive(Snapshot(), waiters[0]) {
        fault := true;
        return;
      }
      var n := waiters[0];
      waiters := waiters[1..];
      grants := grants + [n];
      SuspendOn(w, f, Unlocker(n), AtUnlock);
    }

    /** AppendToList, run without interruption: the chain arrives in the owner's list, in its order. */
    method AppendToList(head: Fid, ghost ch: seq<Fid>)
      requires Linked(next, NULL, head, ch) && waiters == []
      modifies this`waiters
      ensures waiters == ch
    {
      var curr := head;
      ghost var rest := ch;
      while curr != NULL
        invariant Linked(next, NULL, curr, rest) && waiters + rest == ch
        decreases |rest|
      {
        var after := next[curr];
        waiters := waiters + [curr];
        curr := after;
        rest := rest[1..];
      }
    }

    /** One turn of that loop. */
    method AppendOne(f: Fid)
      requires f in fibers && fibers[f].pc.Appending?
      modifies this`waiters, this`fibers, this`fault
      ensures Snapshot() == AppendStep(old(Snapshot()), f)
    {
      var cur := fibers[f].pc.cur;
      if cur == NULL {
        SetPc(f, Resuming);
      } else if !LockerAlive(Snapshot(), cur) {
        fault := true;
      } else {
        var after := NextOf(Snapshot(), cur);
        waiters := waiters + [cur];
        SetPc(f, Appending(after));
      }
    }

    /** Release, one action on shared memory at a time. */
    method Release(w: Wid, f: Fid)
      requires f in fibers && Releasing(fibers[f].pc)
      modifies this
      ensures Snapshot() == FiberStep(old(Snapshot()), w, f, Unlock)
    {
      match fibers[f].pc
      case Loading =>
        var pc := if word == LockedNoWaiters then Unlocking else Grabbing;
        SetPc(f, pc);
      case Unlocking =>
        if word == LockedNoWaiters {
          word := Unlocked;
          SetPc(f, Outside);
        } else {
          SetPc(f, Loading);
        }
      case Grabbing =>
        if word.WaitNode? && waiters == [] {
          var head := word.node;
          word := LockedNoWaiters;
          SetPc(f, Appending(head));
        } else {
          fault := true;
        }
      case Appending(_) => AppendOne(f);
      case Resuming => ResumeNextWaiter(w, f);
    }

    method RunCode(w: Wid, f: Fid, choice: Choice)
      requires f in fibers
      modifies this
      ensures Snapshot() == FiberStep(old(Snapshot()), w, f, choice)
    {
      match fibers[f].pc
      case Outside =>
        match choice {
          case Lock => LockOrSuspend(w, f);
          case TryLock =>
            var acquired := TryLock(f);
            if acquired { SetPc(f, Inside); }
          case Yield => SuspendOn(w, f, Yielder, AtYield(false));
          case Finish =>
            SetPc(f, Completed);
            workers := workers[w := After(f)];
          case Unlock =>
        }
      case Inside =>
        match choice {
          case Unlock =>
            var pc := if waiters != [] then Resuming else Loading;
            SetPc(f, pc);
          case Yield => SuspendOn(w, f, Yielder, AtYield(true));
          case _ =>
        }
      case _ => if Releasing(fibers[f].pc) { Release(w, f); }
    }

    /** TryLockOrEnqueue, called by the Locker on the worker. */
    method TryLockOrEnqueue(w: Wid)
      requires w in workers && (workers[w].LockLoad? || workers[w].LockTry? || workers[w].LockPush?) && workers[w].f in fibers
      modifies this
      ensures Snapshot() == GoStep(old(Snapshot()), w, Lock)
    {
      match workers[w]
      case LockLoad(f) =>
        var work := if word == Unlocked then LockTry(f) else LockPush(f, word);
        workers := workers[w := work];
      case LockTry(f) =>
        var acquired := TryLock(f);
        var work := if acquired then Stepping(f) else LockLoad(f);
        workers := workers[w := work];
      case LockPush(f, expected) =>
        var after := if expected.WaitNode? then expected.node else NULL;
        next := next[f := after];
        if word == expected {
          word := WaitNode(f);
          workers := workers[w := Idle];
        } else {
          workers := workers[w := LockLoad(f)];
        }
    }

    /** RunFiber once the coroutine has returned. */
    method OnCompleted(w: Wid, f: Fid)
      requires f in fibers
      modifies this`fibers, this`queue, this`workers, this`fault
      ensures Snapshot() == AfterStep(old(Snapshot()), w, f)
    {
      var fiber := fibers[f];
      if fiber.pc == Completed {
        fibers := fibers - {f};
        workers := workers[w := Idle];
      } else if fiber.state != Suspended {
        fault := true;
      } else {
        fibers := fibers[f := fiber.(awaiter := NoAwaiter)];
        match fiber.awaiter
        case NoAwaiter => workers := workers[w := Idle];
        case Locker => workers := workers[w := LockLoad(f)];
        case Unlocker(n) => workers := workers[w := HandOff(f, n)];
        case Yielder =>
          Enqueue(f);
          workers := workers[w := Idle];
      }
    }

    /** The next action of a worker inside Fiber::Run. */
    method Advance(w: Wid, choice: Choice)
      requires w in workers && workers[w] != Idle
      modifies this
      ensures Snapshot() == GoStep(old(Snapshot()), w, choice)
    {
      if workers[w].f !in fibers {
        fault := true;
        return;
      }
      match workers[w]
      case Stepping(f) =>
        var pc := Resumed(fibers[f].pc);
        fibers := fibers[f := fibers[f].(state := Running, pc := pc)];
        workers := workers[w := InFiber(f)];
      case InFiber(f) => RunCode(w, f, choice);
      case After(f) => OnCompleted(w, f);
      case HandOff(f, n) =>
        Enqueue(f);
        workers := workers[w := Stepping(n)];
      case LockLoad(_) => TryLockOrEnqueue(w);
      case LockTry(_) => TryLockOrEnqueue(w);
      case LockPush(_, _) => TryLockOrEnqueue(w);
    }

    /** One event. */
    method Perform(e: Event)
      requires Valid()
      modifies this
      ensures Valid() && Snapshot() == Step(old(Snapshot()), e)
    {
      hide Inv, Step;
      StaysInv(Snapshot(), e);
      Dispatch(e);
    }

    method Dispatch(e: Event)
      modifies this
      ensures Snapshot() == Step(old(Snapshot()), e)
    {
      if fault { return; }
      match e
      case Spawn(f) =>
        if f != NULL && f !in fibers {
          fibers := fibers[f := Fiber(Queued, NoAwaiter, Fresh)];
          queue := queue + [f];
        }
      case Pick(w, i) =>
        if w in workers && workers[w] == Idle && i < |queue| {
          workers := workers[w := Stepping(queue[i])];
          queue := queue[..i] + queue[i + 1..];
        }
      case Go(w, choice) =>
        if w in workers && workers[w] != Idle { Advance(w, choice); }
    }

    /** Any schedule at all. */
    method RunSchedule(es: seq<Event>)
      requires Valid()
      modifies this
      ensures Valid() && Snapshot() == Run(old(Snapshot()), es)
    {
      for i := 0 to |es|
        invariant Valid() && Snapshot() == Run(old(Snapshot()), es[..i])
      {
        assert es[..i + 1][..i] == es[..i];
        Perform(es[i]);
      }
      assert es[..|es|] == es;
    }
  }

  lemma StaysInv(s: State, e: Event)
    requires exists v :: Inv(s, v)
    ensures exists v :: Inv(Step(s, e), v)
  {
    var v :| Inv(s, v);
    var v' := StepMoves(s, v, e);
  }
}
