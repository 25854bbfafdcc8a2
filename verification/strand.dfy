/** The strand's implementation object, changed in place. */
module Strands {
  import opened Collections
  import opened StrandModel
  import opened StrandInvariant
  import opened StrandLifetime
  import opened StrandTheorems

  class StrandImpl {
    var head: Task
    var next: map<Task, Task>
    var counter: Size
    var pending: nat
    var refs: Size
    var alive: bool
    var handle: bool
    var pc: map<Tid, Pc>
    var order: seq<Task>
    var executed: seq<Task>
    var fault: bool

    constructor (threads: set<Tid>)
      ensures Valid() && Snapshot() == Init(threads)
    {
      head, next, counter, pending, refs := NULL, map[], 0, 0, 1;
      alive, handle, fault := true, true, false;
      pc := map t | t in threads :: Idle;
      order, executed := [], [];
      new;
      InitBoth(threads);
      assert Inv(Snapshot(), FIRST);
    }

    function Snapshot(): State
      reads this
    {
      State(head, next, counter, pending, refs, alive, handle, pc, order, executed, fault)
    }

    /** Queue, counter, batch and references agree. */
    ghost predicate Valid()
      reads this
    {
      exists v :: Inv(Snapshot(), v) && RefInv(Snapshot())
    }

    /** One turn of the loop in Push: a failed exchange leaves the head it met in the node's `next_`. */
    method Put(t: Tid, spurious: bool)
      requires t in pc && pc[t].Putting?
      modifies this`head, this`next, this`order, this`pc
      ensures Snapshot() == PutStep(old(Snapshot()), t, spurious)
    {
      var Putting(task, back) := pc[t];
      var expected := NextOf(Snapshot(), task);
      next := next[task := head];
      if !spurious && head == expected {
        head := task;
        order := order + [task];
        pc := pc[t := Counting(back)];
      } else {
        pc := pc[t := Putting(task, back)];
      }
    }

    /** One more task; whoever takes the counter from zero starts a batch. */
    method Count(t: Tid)
      requires t in pc && pc[t].Counting?
      modifies this`counter, this`pc
      ensures Snapshot() == CountStep(old(Snapshot()), t)
    {
      var before := counter;
      counter := (before + 1) % SIZE_T;
      var then_ := if before == 0 then Referring(pc[t].back) else Resumed(pc[t].back);
      pc := pc[t := then_];
    }

    /** RunNextBatch: a reference for the batch ... */
    method AddRef(t: Tid)
      requires t in pc && pc[t].Referring?
      modifies this`refs, this`pc
      ensures Snapshot() == ReferStep(old(Snapshot()), t)
    {
      refs := (refs + 1) % SIZE_T;
      pc := pc[t := Scheduling(pc[t].back)];
    }

    /** ... which goes to the executor. */
    method Schedule(t: Tid)
      requires t in pc && pc[t].Scheduling?
      modifies this`pending, this`pc
      ensures Snapshot() == ScheduleStep(old(Snapshot()), t)
    {
      pending := pending + 1;
      pc := pc[t := Resumed(pc[t].back)];
    }

    /** tasks_.TakeAll(): exchange the head, then walk the links, pushing each node in front of the list. */
    method TakeAll(t: Tid, ghost ch: seq<Task>) returns (items: seq<Task>)
      requires t in pc && pc[t].Taking? && Linked(next, NULL, head, ch)
      modifies this`head, this`pc
      ensures head == NULL && items == Reversed(ch)
      ensures pc == old(pc)[t := StrandModel.Pc.Running(items, 0)]
    {
      var walk := head;
      head := NULL;
      items := [];
      ghost var rest := ch;
      while walk != NULL
        invariant head == NULL && pc == old(pc) && Linked(next, NULL, walk, rest)
        invariant Reversed(ch) == Reversed(rest) + items
        decreases |rest|
      {
        SameTasks(rest, items);
        items := [walk] + items;
        walk := next[walk];
        rest := rest[1..];
      }
      assert rest == [] && [] + items == items;
      pc := pc[t := StrandModel.Pc.Running(items, 0)];
    }

    /** One turn of that walk, when other threads may act in between. */
    method Walk(t: Tid)
      requires t in pc && pc[t].Reversing?
      modifies this`pc
      ensures Snapshot() == ReverseStep(old(Snapshot()), t)
    {
      var Reversing(walk, items) := pc[t];
      if walk == NULL {
        pc := pc[t := StrandModel.Pc.Running(items, 0)];
      } else {
        pc := pc[t := Reversing(NextOf(Snapshot(), walk), [walk] + items)];
      }
    }

    /** The first task of the list starts; without one the batch is over. */
    method RunNextTask(t: Tid)
      requires t in pc && pc[t].Running?
      modifies this`executed, this`pc
      ensures Snapshot() == RunStep(old(Snapshot()), t)
    {
      var Running(items, completed) := pc[t];
      if items == [] {
        pc := pc[t := Settling(completed)];
      } else {
        executed := executed + [items[0]];
        pc := pc[t := InTask(items[1..], completed)];
      }
    }

    /** The tasks run come off the counter; if there were more, the next batch is due. */
    method Settle(t: Tid)
      requires t in pc && pc[t].Settling?
      modifies this`counter, this`pc
      ensures Snapshot() == SettleStep(old(Snapshot()), t)
    {
      var before, completed := counter, pc[t].completed;
      counter := (before - completed) % SIZE_T;
      var then_ := if before > completed then Referring(ToRelease) else Releasing;
      pc := pc[t := then_];
    }

    /** The last reference to go takes the object with it. */
    method ReleaseRef(t: Tid)
      requires t in pc && pc[t].Releasing?
      modifies this`refs, this`pc
      ensures Snapshot() == ReleaseStep(old(Snapshot()), t)
    {
      var before := refs;
      refs := (before - 1) % SIZE_T;
      var then_ := if before == 1 then Destroying else Idle;
      pc := pc[t := then_];
    }

    /** One action of a thread. */
    method Advance(t: Tid, spurious: bool)
      requires t in pc && pc[t] != Idle
      modifies this
      ensures Snapshot() == GoStep(old(Snapshot()), t, spurious)
    {
      if !alive {
        fault := true;
        return;
      }
      match pc[t]
      case Putting(_, _) => Put(t, spurious);
      case Counting(_) => Count(t);
      case Referring(_) => AddRef(t);
      case Scheduling(_) => Schedule(t);
      case Taking =>
        pc := pc[t := Reversing(head, [])];
        head := NULL;
      case Reversing(_, _) => Walk(t);
      case Running(_, _) => RunNextTask(t);
      case InTask(items, completed) => pc := pc[t := StrandModel.Pc.Running(items, completed + 1)];
      case Settling(_) => Settle(t);
      case Releasing => ReleaseRef(t);
      case Destroying =>
        alive := false;
        pc := pc[t := Idle];
    }

    /** One event. */
    method Perform(e: Event)
      requires Valid()
      modifies this
      ensures Valid() && Snapshot() == Step(old(Snapshot()), e)
    {
      hide Inv, RefInv, Step;
      StaysValid(Snapshot(), e);
      Dispatch(e);
    }

    method Dispatch(e: Event)
      modifies this
      ensures Snapshot() == Step(old(Snapshot()), e)
    {
      if e.t in pc && !fault {
        match e
        case Submit(t, task) =>
          if MaySubmit(pc[t]) && handle && Submittable(Snapshot(), task) { pc := pc[t := Putting(task, BackTo(pc[t]))]; }
        case StartBatch(t) =>
          if pc[t] == Idle && pending > 0 {
            pending := pending - 1;
            pc := pc[t := Taking];
          }
        case DropHandle(t) =>
          if pc[t] == Idle && handle && forall u | u in pc :: !InExecute(pc[u]) {
            handle := false;
            pc := pc[t := Releasing];
          }
        case Go(t, spurious) => if pc[t] != Idle { Advance(t, spurious); }
      }
    }

    /** Any schedule at all. */
    method RunSchedule(es: seq<Event>)
      requires Valid()
      modifies this
      ensures Valid() && Snapshot() == StrandModel.Run(old(Snapshot()), es)
    {
      for i := 0 to |es|
        invariant Valid() && Snapshot() == StrandModel.Run(old(Snapshot()), es[..i])
      {
        assert es[..i + 1][..i] == es[..i];
        Perform(es[i]);
      }
      assert es[..|es|] == es;
    }
  }

  lemma StaysValid(s: State, e: Event)
    requires exists v :: Inv(s, v) && RefInv(s)
    ensures exists v :: Inv(Step(s, e), v) && RefInv(Step(s, e))
  {
    var v :| Inv(s, v) && RefInv(s);
    StepKeepsInv(s, v, e);
    StepKeepsRefs(s, v, e);
  }
}
