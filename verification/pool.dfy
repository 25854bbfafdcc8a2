/** The thread pool, changed in place. */
module Pools {
  import opened Wrappers
  import opened PoolModel
  import opened PoolInvariant
  import opened PoolSteps
  import opened PoolTheorems

  class ThreadPool {
    var workers: set<Tid>
    var threads: map<Tid, Thread>
    var counter: int
    var countLock: Option<Tid>
    var items: seq<Ticket>
    var closed: bool
    var queueLock: Option<Tid>
    var tickets: nat
    var puts: seq<Ticket>
    var pops: seq<Ticket>
    var started: seq<Ticket>
    var discarded: seq<Ticket>
    var disposed: seq<Ticket>
    var refused: seq<Ticket>

    constructor (ws: set<Tid>, others: set<Tid>)
      ensures Valid() && Snapshot() == Init(ws, others)
    {
      workers := ws;
      threads := map t | t in ws + others :: Thread(None, if t in ws then Taking else Free);
      counter, countLock, items, closed, queueLock := 0, None, [], false, None;
      tickets, puts, pops, started, discarded, disposed, refused := 0, [], [], [], [], [], [];
      new;
      InitInv(ws, others);
      assert Inv(Snapshot(), map[]);
    }

    function Snapshot(): State
      reads this
    {
      State(workers, threads, counter, countLock, items, closed, queueLock, tickets, puts, pops, started, discarded, disposed, refused)
    }

    /** Counter, queue, tickets and threads agree. */
    ghost predicate Valid()
      reads this
    {
      exists v :: Inv(Snapshot(), v)
    }

    method PushBack(x: Ticket)
      modifies this`items, this`puts
      ensures Snapshot() == PoolModel.PushBack(old(Snapshot()), x)
    {
      items, puts := items + [x], puts + [x];
    }

    method PopFront() returns (x: Ticket)
      requires items != []
      modifies this`items, this`pops
      ensures x == old(items[0]) && Snapshot() == PoolModel.PopFront(old(Snapshot()))
    {
      x := items[0];
      items, pops := items[1..], pops + [x];
    }

    method SetPc(t: Tid, pc: Pc)
      requires t in threads
      modifies this`threads
      ensures Snapshot() == At(old(Snapshot()), t, pc)
    {
      threads := threads[t := threads[t].(pc := pc)];
    }

    /** Put: into the queue unless it is closed, and wake a sleeper if there is one. */
    method Put(t: Tid, x: Ticket, pick: Tid)
      requires t in threads
      modifies this`items, this`puts, this`threads
      ensures Snapshot() == PutStep(old(Snapshot()), t, x, pick)
    {
      if queueLock != None { return; }
      if closed {
        SetPc(t, Refused(x));
      } else if forall u | u in threads :: !threads[u].pc.Sleeping? {
        PushBack(x);
        SetPc(t, Free);
      } else if pick in threads && threads[pick].pc.Sleeping? {
        PushBack(x);
        SetPc(t, Free);
        SetPc(pick, Taking);
      }
    }

    /** AtomicCounter::Done, and the task is over if it was one. */
    method Done(t: Tid, after: After)
      requires t in threads
      modifies this`counter, this`threads
      ensures Snapshot() == DecrementStep(old(Snapshot()), t, after)
    {
      var before := counter;
      var task := if after == TaskRun then None else threads[t].task;
      var pc := if before == 1 then Notifying(after) else Continue(after);
      counter := before - 1;
      threads := threads[t := Thread(task, pc)];
    }

    /** Under the counter's mutex, everybody who waits for zero is to look again. */
    method NotifyAll(t: Tid, after: After)
      requires t in threads
      modifies this`threads
      ensures Snapshot() == NotifyStep(old(Snapshot()), t, after)
    {
      if countLock == None {
        threads := WakeDozers(threads);
        SetPc(t, Continue(after));
      }
    }

    /** A look at the count: sleep on it, or come back. */
    method WaitZero(t: Tid)
      requires t in threads
      modifies this`countLock, this`threads
      ensures Snapshot() == LoadStep(old(Snapshot()), t)
    {
      if counter > 0 {
        SetPc(t, ZeroWaiting);
      } else {
        countLock := None;
        SetPc(t, Free);
      }
    }

    /** The first item, the end, or sleep. */
    method Take(t: Tid)
      requires t in threads
      modifies this`items, this`pops, this`started, this`threads
      ensures Snapshot() == TakeStep(old(Snapshot()), t)
    {
      if queueLock != None { return; }
      if items != [] {
        var task := PopFront();
        started := started + [task];
        threads := threads[t := Thread(Some(task), Free)];
      } else if closed {
        SetPc(t, Exited);
      } else {
        SetPc(t, Sleeping);
      }
    }

    /** CloseImpl's loop, run without interruption: everything queued is discarded, in order, and accounted for. */
    method DiscardAll()
      modifies this`items, this`pops, this`discarded, this`disposed, this`counter
      ensures items == [] && pops == old(pops) + old(items)
      ensures discarded == old(discarded) + old(items) && disposed == old(disposed) + old(items)
      ensures counter == old(counter) - |old(items)|
    {
      while items != []
        invariant discarded + items == old(discarded) + old(items)
        invariant pops + items == old(pops) + old(items) && disposed + items == old(disposed) + old(items)
        invariant counter == old(counter) - |old(items)| + |items|
        decreases |items|
      {
        var task := PopFront();
        discarded, disposed := discarded + [task], disposed + [task];
        counter := counter - 1;
      }
    }

    /** One turn of that loop, or the end of it. */
    method Dispose(t: Tid)
      requires t in threads
      modifies this`items, this`pops, this`discarded, this`disposed, this`closed, this`queueLock, this`threads
      ensures Snapshot() == DisposeStep(old(Snapshot()), t)
    {
      if items == [] {
        closed := true;
        queueLock := None;
        threads := WakeSleepers(threads);
        SetPc(t, Joining);
      } else {
        var task := PopFront();
        discarded, disposed := discarded + [task], disposed + [task];
        SetPc(t, Decrementing(Disposal));
      }
    }

    /** One action of a thread. */
    method Advance(t: Tid, pick: Tid)
      requires t in threads
      modifies this
      ensures Snapshot() == GoStep(old(Snapshot()), t, pick)
    {
      hide PutStep, DecrementStep, NotifyStep, TakeStep, DisposeStep, LoadStep;
      match threads[t].pc
      case Adding(x) =>
        counter := counter + 1;
        SetPc(t, Putting(x));
      case Putting(x) => Put(t, x, pick);
      case Refused(x) =>
        discarded, refused := discarded + [x], refused + [x];
        SetPc(t, Decrementing(Refusal));
      case Decrementing(after) => Done(t, after);
      case Notifying(after) => NotifyAll(t, after);
      case Taking => Take(t);
      case Closing =>
        if queueLock == None {
          queueLock := Some(t);
          SetPc(t, Disposing);
        }
      case Disposing => Dispose(t);
      case Joining =>
        if forall w | w in workers && w in threads :: threads[w].pc.Exited? { SetPc(t, Free); }
      case ZeroLocking =>
        if countLock == None {
          countLock := Some(t);
          SetPc(t, ZeroLoading);
        }
      case ZeroLoading => WaitZero(t);
      case ZeroWaiting =>
        countLock := None;
        SetPc(t, Dozing);
      case _ =>
    }

    /** One event. */
    method Perform(e: Event)
      requires Valid()
      modifies this
      ensures Valid() && Snapshot() == Step(old(Snapshot()), e)
    {
      hide Inv, Step;
      StaysInv(Snapshot(), e);
      Dispatch(e);
    }

    method Dispatch(e: Event)
      modifies this
      ensures Snapshot() == Step(old(Snapshot()), e)
    {
      hide GoStep;
      var t := e.t;
      if t !in threads { return; }
      match e
      case Execute(_) =>
        if threads[t].pc == Free {
          var x := tickets;
          tickets := tickets + 1;
          SetPc(t, Adding(x));
        }
      case WaitIdle(_) => if threads[t] == Thread(None, Free) { SetPc(t, ZeroLocking); }
      case Stop(_) => if threads[t] == Thread(None, Free) { SetPc(t, Closing); }
      case Finish(_) =>
        if threads[t].pc == Free && threads[t].task.Some? { SetPc(t, Decrementing(TaskRun)); }
      case WakeUp(_) =>
        if threads[t].pc == Sleeping { SetPc(t, Taking); }
        else if threads[t].pc == Dozing { SetPc(t, ZeroLocking); }
      case Go(_, pick) => Advance(t, pick);
    }

    /** Any schedule at all. */
    method RunSchedule(es: seq<Event>)
      requires Valid()
      modifies this
      ensures Valid() && Snapshot() == Run(old(Snapshot()), es)
    {
      for i := 0 to |es|
        invariant Valid() && Snapshot() == Run(old(Snapshot()), es[..i])
      {
        assert es[..i + 1][..i] == es[..i];
        Perform(es[i]);
      }
      assert es[..|es|] == es;
    }
  }

  lemma StaysInv(s: State, e: Event)
    requires exists v :: Inv(s, v)
    ensures exists v :: Inv(Step(s, e), v)
  {
    var v :| Inv(s, v);
    var v' := StepKeepsInv(s, v, e);
  }
}
