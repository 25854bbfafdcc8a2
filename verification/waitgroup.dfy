/** A wait group, its event and its fibers, changed in place. */
module WaitGroups {
  import opened Collections
  import opened WaitGroupModel
  import opened WaitGroupInvariant
  import opened WaitGroupSteps
  import opened WaitGroupTheorems

  class WaitGroup {
    var counter: Size
    var word: Word
    var next: map<Fid, Fid>
    var alive: bool
    var pc: map<Fid, Pc>
    var owed: nat
    var enqueued: seq<Fid>
    var scheduled: seq<Fid>
    var zeroed: bool
    var rearmed: bool
    var returned: set<Fid>
    var fault: bool

    constructor (fibers: set<Fid>)
      ensures Valid() && Snapshot() == Init(fibers)
    {
      counter, word, next, alive := 0, NoWaiters, map[], true;
      pc := map f | f in fibers :: Idle;
      owed, enqueued, scheduled := 0, [], [];
      zeroed, rearmed, returned, fault := false, false, {}, false;
      new;
      ghost var v := InitInv(fibers);
      assert Inv(Snapshot(), v);
    }

    function Snapshot(): State
      reads this
    {
      State(counter, word, next, alive, pc, owed, enqueued, scheduled, zeroed, rearmed, returned, fault)
    }

    /** Counter, word, lists and fibers agree. */
    ghost predicate Valid()
      reads this
    {
      exists v :: Inv(Snapshot(), v)
    }

    /** WaitAsync is over. */
    method Return(f: Fid)
      modifies this`returned, this`pc
      ensures Snapshot() == ReturnStep(old(Snapshot()), f)
    {
      returned := returned + {f};
      pc := pc[f := Idle];
    }

    /** TryEnqueue's compare-exchange, after linking the node to what was read. */
    method TryPush(f: Fid, expected: Word)
      modifies this`next, this`word, this`enqueued, this`pc
      ensures Snapshot() == PushStep(old(Snapshot()), f, expected)
    {
      var to := if expected.WaitNode? then expected.node else NULL;
      next := next[f := to];
      if word == expected {
        word := WaitNode(f);
        enqueued := enqueued + [f];
        pc := pc[f := Parked];
      } else {
        pc := pc[f := Loading];
      }
    }

    /** fetch_sub, and a look at the old count. */
    method Decrement(f: Fid)
      modifies this`counter, this`zeroed, this`pc
      ensures Snapshot() == DecrementStep(old(Snapshot()), f)
    {
      var before := counter;
      counter := (before - 1) % SIZE_T;
      zeroed := zeroed || before == 1;
      var then_ := if before == 1 then Firing else Idle;
      pc := pc[f := then_];
    }

    /** A compare-exchange from NoWaiters, and a look at what it found instead. */
    method Fire(f: Fid)
      modifies this`word, this`pc
      ensures Snapshot() == FireStep(old(Snapshot()), f)
    {
      match word
      case NoWaiters =>
        word := Signaled;
        pc := pc[f := Idle];
      case Signaled => pc := pc[f := Idle];
      case WaitNode(_) => pc := pc[f := Exchanging];
    }

    /** The signal in exchange for the chain, if the chain is still there. */
    method Exchange(f: Fid)
      modifies this`word, this`pc, this`fault
      ensures Snapshot() == ExchangeStep(old(Snapshot()), f)
    {
      if word.WaitNode? {
        pc := pc[f := Building(word.node, [])];
        word := Signaled;
      } else {
        fault := true;
      }
    }

    /** CreateWaiterList, run without interruption. */
    method CreateWaiterList(head: Fid, ghost ch: seq<Fid>) returns (list: seq<Fid>)
      requires Linked(next, NULL, head, ch)
      ensures list == ch
    {
      var curr := head;
      ghost var rest := ch;
      list := [];
      while curr != NULL
        invariant Linked(next, NULL, curr, rest) && list + rest == ch
        decreases |rest|
      {
        list := list + [curr];
        curr := next[curr];
        rest := rest[1..];
      }
    }

    /** One turn of that loop. */
    method Build(f: Fid, cur: Fid, list: seq<Fid>)
      modifies this`pc, this`fault
      ensures Snapshot() == BuildStep(old(Snapshot()), f, cur, list)
    {
      if cur == NULL {
        pc := pc[f := Scheduling(list)];
      } else if !AwaiterAlive(Snapshot(), cur) {
        fault := true;
      } else {
        pc := pc[f := Building(NextOf(Snapshot(), cur), list + [cur])];
      }
    }

    /** One turn of the loop that wakes the waiters. */
    method ScheduleNext(f: Fid, list: seq<Fid>)
      modifies this`scheduled, this`pc, this`fault
      ensures Snapshot() == ScheduleStep(old(Snapshot()), f, list)
    {
      if list == [] {
        pc := pc[f := Idle];
      } else if !AwaiterAlive(Snapshot(), list[0]) {
        fault := true;
      } else {
        scheduled := scheduled + [list[0]];
        pc := pc[list[0] := Woken];
        pc := pc[f := Scheduling(list[1..])];
      }
    }

    /** One action of a fiber. */
    method Advance(f: Fid)
      requires f in pc
      modifies this
      ensures Snapshot() == GoStep(old(Snapshot()), f)
    {
      hide PushStep, DecrementStep, FireStep, ExchangeStep, BuildStep, ScheduleStep, ReturnStep;
      if Touches(pc[f]) && !alive {
        fault := true;
        return;
      }
      match pc[f]
      case Reading => if word == Signaled { Return(f); } else { pc := pc[f := Loading]; }
      case Loading => if word == Signaled { Return(f); } else { pc := pc[f := Pushing(word)]; }
      case Pushing(expected) => TryPush(f, expected);
      case Woken => Return(f);
      case Decrementing => Decrement(f);
      case Firing => Fire(f);
      case Exchanging => Exchange(f);
      case Building(cur, list) => Build(f, cur, list);
      case Scheduling(list) => ScheduleNext(f, list);
      case _ =>
    }

    /** One event. */
    method Perform(e: Event)
      requires Valid()
      modifies this
      ensures Valid() && Snapshot() == Step(old(Snapshot()), e)
    {
      hide Inv, Step;
      StaysInv(Snapshot(), e);
      Dispatch(e);
    }

    method Dispatch(e: Event)
      modifies this
      ensures Snapshot() == Step(old(Snapshot()), e)
    {
      if fault { return; }
      match e
      case Add(count) =>
        if alive && counter + count < SIZE_T {
          counter := counter + count;
          owed := owed + count;
          rearmed := rearmed || (zeroed && count > 0);
        }
      case Done(f) =>
        if f in pc && pc[f] == Idle && alive && owed > 0 {
          owed := owed - 1;
          pc := pc[f := Decrementing];
        }
      case Wait(f) =>
        if f in pc && f != NULL && pc[f] == Idle && alive { pc := pc[f := Reading]; }
      case Destroy =>
        if alive && returned != {} && forall f | f in pc :: !InWait(pc[f]) { alive := false; }
      case Go(f) => if f in pc { Advance(f); }
    }

    /** Any schedule at all. */
    method RunSchedule(es: seq<Event>)
      requires Valid()
      modifies this
      ensures Valid() && Snapshot() == Run(old(Snapshot()), es)
    {
      for i := 0 to |es|
        invariant Valid() && Snapshot() == Run(old(Snapshot()), es[..i])
      {
        assert es[..i + 1][..i] == es[..i];
        Perform(es[i]);
      }
      assert es[..|es|] == es;
    }
  }

  lemma StaysInv(s: State, e: Event)
    requires exists v :: Inv(s, v)
    ensures exists v :: Inv(Step(s, e), v)
  {
    var v :| Inv(s, v);
    var v' := StepKeepsInv(s, v, e);
  }
}
