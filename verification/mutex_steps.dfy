/** The invariant is kept by every action of every worker. */
module MutexSteps {
  import opened Collections
  import opened MutexModel
  import opened MutexInvariant

  /** Nothing happens to the lists, and the owner is not in Release or stays where it is there. */
  lemma ListsUntouched(s: State, v: View, s': State, v': View)
    requires ListsOk(s, v)
    requires s'.word == s.word && s'.waiters == s.waiters && s'.next == s.next && s'.grants == s.grants
    requires v'.stack == v.stack && v'.grabbed == v.grabbed
    requires forall g | g in Enqueued(s, v) :: g in s'.fibers
    requires s.word != Unlocked ==> Owner(s) in s'.fibers
    requires s.word != Unlocked ==>
      var before, after := s.fibers[Owner(s)].pc, s'.fibers[Owner(s)].pc;
      before == after || (!Releasing(before) && !Releasing(after))
    ensures ListsOk(s', v')
  {
  }

  // ---- the executor ----

  lemma SpawnKeepsInv(s: State, v: View, f: Fid) returns (v': View)
    requires Inv(s, v)
    ensures Inv(SpawnStep(s, f), v') && v'.stack == v.stack && v'.grabbed == v.grabbed
  {
    v' := v;
    if f != NULL && f !in s.fibers {
      hide Inv;
      Known(s, v, f);
      v' := v.(place := v.place[f := InQueue]);
      ListsUntouched(s, v, SpawnStep(s, f), v');
      hide ListsOk;
      Concludes(s, v, SpawnStep(s, f), v', -1, {f});
    }
  }

  lemma PickedFromQueue(queue: seq<Fid>, i: nat)
    requires Distinct(queue) && i < |queue|
    ensures var q := queue[..i] + queue[i + 1..];
      Distinct(q) && queue[i] !in q && forall g | g != queue[i] :: g in q <==> g in queue
  {
    var q := queue[..i] + queue[i + 1..];
    forall g | g != queue[i] && g in queue
      ensures g in q
    {
      var k :| 0 <= k < |queue| && queue[k] == g;
      assert q[if k < i then k else k - 1] == g;
    }
  }

  lemma PickKeepsInv(s: State, v: View, w: Wid, i: nat) returns (v': View)
    requires Inv(s, v) && w in s.workers
    ensures Inv(PickStep(s, w, i), v') && v'.stack == v.stack && v'.grabbed == v.grabbed
  {
    v' := v;
    if s.workers[w] == Idle && i < |s.queue| {
      var f := s.queue[i];
      v' := v.(place := v.place[f := On(w)]);
      PickedFromQueue(s.queue, i);
      hide Inv;
      InHands(s, v, w);
      Known(s, v, f);
      ListsUntouched(s, v, PickStep(s, w, i), v');
      hide ListsOk;
      Concludes(s, v, PickStep(s, w, i), v', w, {f});
    }
  }

  /** The worker's fiber moves on, alone, and neither takes nor releases the lock. */
  lemma MovesAlone(s: State, v: View, w: Wid, fiber: Fiber, work: Work)
    requires Inv(s, v) && w in s.workers && s.workers[w] != Idle && s.workers[w].f in s.fibers
    requires work != Idle && work.f == s.workers[w].f && InHand(fiber, work)
    requires !s.workers[w].HandOff? && !work.HandOff?
    requires !s.fibers[work.f].awaiter.Unlocker? && !fiber.awaiter.Unlocker?
    requires !Releasing(s.fibers[work.f].pc) && !Releasing(fiber.pc)
    requires Critical(s.fibers[work.f].pc) || (s.fibers[work.f].pc.AtLock? && s.workers[w].Stepping?)
      <==> Critical(fiber.pc) || (fiber.pc.AtLock? && work.Stepping?)
    ensures Inv(At(s.(fibers := s.fibers[work.f := fiber]), w, work), v)
  {
    var f := work.f;
    var s' := At(s.(fibers := s.fibers[f := fiber]), w, work);
    hide Inv;
    InHands(s, v, w);
    ListsUntouched(s, v, s', v);
    hide ListsOk, InHand;
    Concludes(s, v, s', v, w, {f});
  }

  lemma ResumeFiberKeepsInv(s: State, v: View, w: Wid)
    requires Inv(s, v) && w in s.workers && s.workers[w].Stepping? && s.workers[w].f in s.fibers
    ensures Inv(ResumeFiber(s, w, s.workers[w].f), v)
  {
    var f := s.workers[w].f;
    hide Inv;
    InHands(s, v, w);
    hide FiberOk, ListsOk;
    MovesAlone(s, v, w, s.fibers[f].(state := Running, pc := Resumed(s.fibers[f].pc)), InFiber(f));
  }

  lemma HandOffKeepsInv(s: State, v: View, w: Wid) returns (v': View)
    requires Inv(s, v) && w in s.workers && s.workers[w].HandOff? && s.workers[w].f in s.fibers
    ensures Inv(HandOffStep(s, w, s.workers[w].f, s.workers[w].next), v') && v'.stack == v.stack && v'.grabbed == v.grabbed
  {
    var f, n := s.workers[w].f, s.workers[w].next;
    hide Inv;
    InHands(s, v, w);
    v' := v.(place := v.place[f := InQueue][n := On(w)]);
    ListsUntouched(s, v, HandOffStep(s, w, f, n), v');
    hide ListsOk;
    Concludes(s, v, HandOffStep(s, w, f, n), v', w, {f, n});
  }

  lemma DestroyKeepsInv(s: State, v: View, w: Wid) returns (v': View)
    requires Inv(s, v) && w in s.workers && s.workers[w].After? && s.workers[w].f in s.fibers
    requires s.fibers[s.workers[w].f].pc == Completed
    ensures Inv(AfterStep(s, w, s.workers[w].f), v') && v'.stack == v.stack && v'.grabbed == v.grabbed
  {
    var f := s.workers[w].f;
    hide Inv;
    InHands(s, v, w);
    v' := v.(place := v.place - {f});
    ListsUntouched(s, v, AfterStep(s, w, f), v');
    hide ListsOk;
    Concludes(s, v, AfterStep(s, w, f), v', w, {f});
  }

  lemma YieldedKeepsInv(s: State, v: View, w: Wid) returns (v': View)
    requires Inv(s, v) && w in s.workers && s.workers[w].After? && s.workers[w].f in s.fibers
    requires s.fibers[s.workers[w].f].pc.AtYield?
    ensures Inv(AfterStep(s, w, s.workers[w].f), v') && v'.stack == v.stack && v'.grabbed == v.grabbed
  {
    var f := s.workers[w].f;
    hide Inv;
    InHands(s, v, w);
    v' := v.(place := v.place[f := InQueue]);
    ListsUntouched(s, v, AfterStep(s, w, f), v');
    hide ListsOk;
    Concludes(s, v, AfterStep(s, w, f), v', w, {f});
  }

  lemma AwaitingKeepsInv(s: State, v: View, w: Wid)
    requires Inv(s, v) && w in s.workers && s.workers[w].After? && s.workers[w].f in s.fibers
    requires s.fibers[s.workers[w].f].pc.AtLock?
    ensures Inv(AfterStep(s, w, s.workers[w].f), v)
  {
    var f := s.workers[w].f;
    hide Inv;
    InHands(s, v, w);
    hide FiberOk, ListsOk;
    MovesAlone(s, v, w, s.fibers[f].(awaiter := NoAwaiter), LockLoad(f));
  }

  lemma UnlockedByKeepsInv(s: State, v: View, w: Wid)
    requires Inv(s, v) && w in s.workers && s.workers[w].After? && s.workers[w].f in s.fibers
    requires s.fibers[s.workers[w].f].pc.AtUnlock?
    ensures Inv(AfterStep(s, w, s.workers[w].f), v)
  {
    var f := s.workers[w].f;
    hide Inv;
    InHands(s, v, w);
    var n := s.fibers[f].awaiter.next;
    ListsUntouched(s, v, AfterStep(s, w, f), v);
    hide ListsOk;
    Concludes(s, v, AfterStep(s, w, f), v, w, {f, n});
  }

  lemma AfterKeepsInv(s: State, v: View, w: Wid) returns (v': View)
    requires Inv(s, v) && w in s.workers && s.workers[w].After? && s.workers[w].f in s.fibers
    ensures Inv(AfterStep(s, w, s.workers[w].f), v') && v'.stack == v.stack && v'.grabbed == v.grabbed
  {
    v' := v;
    hide Inv;
    InHands(s, v, w);
    match s.fibers[s.workers[w].f].pc
    case Completed => v' := DestroyKeepsInv(s, v, w);
    case AtYield(_) => v' := YieldedKeepsInv(s, v, w);
    case AtLock => AwaitingKeepsInv(s, v, w);
    case _ => UnlockedByKeepsInv(s, v, w);
  }

  // ---- TryLockOrEnqueue ----

  lemma StaysItself(s: State, f: Fid)
    requires f in s.fibers
    ensures s.(fibers := s.fibers[f := s.fibers[f]]) == s
  {
    assert s.fibers[f := s.fibers[f]] == s.fibers;
  }

  lemma LockLoadKeepsInv(s: State, v: View, w: Wid)
    requires Inv(s, v) && w in s.workers && s.workers[w].LockLoad?
    ensures Inv(LockLoadStep(s, w, s.workers[w].f), v)
  {
    var f := s.workers[w].f;
    var work := if s.word == Unlocked then LockTry(f) else LockPush(f, s.word);
    hide Inv;
    InHands(s, v, w);
    hide FiberOk, ListsOk;
    StaysItself(s, f);
    MovesAlone(s, v, w, s.fibers[f], work);
  }

  /** A fiber whose Locker is not enqueued may be given a free lock. */
  lemma TakeLockLists(s: State, v: View, f: Fid, s': State)
    requires ListsOk(s, v) && s.word == Unlocked && f in s'.fibers && !Releasing(s'.fibers[f].pc)
    requires s'.word == LockedNoWaiters && s'.waiters == s.waiters && s'.grants == s.grants + [f]
    ensures ListsOk(s', v)
  {
  }

  lemma LockTryKeepsInv(s: State, v: View, w: Wid)
    requires Inv(s, v) && w in s.workers && s.workers[w].LockTry?
    ensures Inv(LockTryStep(s, w, s.workers[w].f), v)
  {
    var f := s.workers[w].f;
    var s' := LockTryStep(s, w, f);
    hide Inv;
    InHands(s, v, w);
    if s.word == Unlocked { TakeLockLists(s, v, f, s'); } else { ListsUntouched(s, v, s', v); }
    hide ListsOk;
    Concludes(s, v, s', v, w, {f});
  }

  /** Writing the link of a node that is in no list. */
  lemma RelinkLists(s: State, v: View, f: Fid, to: Fid)
    requires ListsOk(s, v) && f !in Enqueued(s, v)
    ensures ListsOk(s.(next := s.next[f := to]), v)
  {
    if s.word.WaitNode? { LinkedFrame(s.next, NULL, f, to, s.word.node, v.stack); }
    if s.word != Unlocked && s.fibers[Owner(s)].pc.Appending? {
      LinkedFrame(s.next, NULL, f, to, s.fibers[Owner(s)].pc.cur, v.grabbed);
    }
  }

  lemma PushFailsKeepsInv(s: State, v: View, w: Wid, to: Fid)
    requires Inv(s, v) && w in s.workers && s.workers[w].LockPush?
    ensures Inv(At(s.(next := s.next[s.workers[w].f := to]), w, LockLoad(s.workers[w].f)), v)
  {
    var f := s.workers[w].f;
    var s1 := s.(next := s.next[f := to]);
    hide Inv;
    InHands(s, v, w);
    RelinkLists(s, v, f, to);
    ListsUntouched(s1, v, At(s1, w, LockLoad(f)), v);
    hide ListsOk;
    Concludes(s, v, At(s1, w, LockLoad(f)), v, w, {f});
  }

  lemma PushedLists(s: State, v: View, f: Fid, s': State, v': View)
    requires ListsOk(s, v) && f !in Enqueued(s, v) && f != NULL && f in s.fibers && s.word != Unlocked
    requires v' == v.(stack := [f] + v.stack, place := v'.place)
    requires s'.next == s.next[f := if s.word.WaitNode? then s.word.node else NULL] && s'.word == WaitNode(f)
    requires s'.waiters == s.waiters && s'.fibers == s.fibers && s'.grants == s.grants
    ensures ListsOk(s', v')
    ensures forall g :: g in Enqueued(s', v') <==> g == f || g in Enqueued(s, v)
  {
    var to := if s.word.WaitNode? then s.word.node else NULL;
    RelinkLists(s, v, f, to);
    assert v'.stack[1..] == v.stack;
    var a, b := Enqueued(s, v), Enqueued(s', v');
    var k := |s.waiters + v.grabbed|;
    assert b == a[..k] + [f] + a[k..];
    DistinctInsert(a, k, f);
  }

  lemma PushSucceedsKeepsInv(s: State, v: View, w: Wid) returns (v': View)
    requires Inv(s, v) && w in s.workers && s.workers[w].LockPush? && s.workers[w].expected == s.word != Unlocked
    ensures Inv(LockPushStep(s, w, s.workers[w].f, s.word), v')
    ensures v'.stack == [s.workers[w].f] + v.stack && v'.grabbed == v.grabbed
  {
    var f := s.workers[w].f;
    var s' := LockPushStep(s, w, f, s.word);
    hide Inv;
    InHands(s, v, w);
    v' := v.(stack := [f] + v.stack, place := v.place[f := Parked]);
    PushedLists(s, v, f, s', v');
    hide ListsOk;
    Concludes(s, v, s', v', w, {f});
  }

  // ---- the running fiber ----

  ghost predicate Runs(s: State, v: View, w: Wid, f: Fid) {
    Inv(s, v) && w in s.workers && s.workers[w] == InFiber(f) && f in s.fibers
  }

  lemma LockKeepsInv(s: State, v: View, w: Wid, f: Fid)
    requires Runs(s, v, w, f) && s.fibers[f].pc.Outside?
    ensures Inv(LockStep(s, w, f), v)
  {
    if s.word == Unlocked {
      TryLockKeepsInv(s, v, w, f);
    } else {
      hide Inv;
      InHands(s, v, w);
      hide FiberOk, ListsOk;
      MovesAlone(s, v, w, Fiber(Suspended, Locker, AtLock), After(f));
    }
  }

  lemma TryLockKeepsInv(s: State, v: View, w: Wid, f: Fid)
    requires Runs(s, v, w, f) && s.fibers[f].pc.Outside?
    ensures Inv(TryLockStep(s, f), v)
  {
    if s.word == Unlocked {
      var s' := TryLockStep(s, f);
      hide Inv;
      InHands(s, v, w);
      TakeLockLists(s, v, f, s');
      hide ListsOk;
      Concludes(s, v, s', v, w, {f});
    }
  }

  lemma YieldKeepsInv(s: State, v: View, w: Wid, f: Fid)
    requires Runs(s, v, w, f) && (s.fibers[f].pc.Outside? || s.fibers[f].pc.Inside?)
    ensures Inv(Suspend(s, w, f, Yielder, AtYield(s.fibers[f].pc.Inside?)), v)
  {
    hide Inv;
    InHands(s, v, w);
    hide FiberOk, ListsOk;
    MovesAlone(s, v, w, Fiber(Suspended, Yielder, AtYield(s.fibers[f].pc.Inside?)), After(f));
  }

  lemma FinishKeepsInv(s: State, v: View, w: Wid, f: Fid)
    requires Runs(s, v, w, f) && s.fibers[f].pc.Outside?
    ensures Inv(At(MoveTo(s, f, Completed), w, After(f)), v)
  {
    hide Inv;
    InHands(s, v, w);
    hide FiberOk, ListsOk;
    MovesAlone(s, v, w, s.fibers[f].(pc := Completed), After(f));
  }

  /** The owner moves on within Release, knowing what it needs to know there. */
  lemma OwnerMovesOn(s: State, v: View, w: Wid, f: Fid, pc: Pc)
    requires Runs(s, v, w, f) && Critical(s.fibers[f].pc) && Releasing(pc)
    requires OwnerKnows(s, v, pc)
    ensures Inv(MoveTo(s, f, pc), v)
  {
    var s' := MoveTo(s, f, pc);
    hide Inv;
    InHands(s, v, w);
    Concludes(s, v, s', v, w, {f});
  }

  lemma UnlockKeepsInv(s: State, v: View, w: Wid, f: Fid)
    requires Runs(s, v, w, f) && s.fibers[f].pc.Inside?
    ensures Inv(UnlockStep(s, f), v)
  {
    hide Inv;
    InHands(s, v, w);
    OwnerMovesOn(s, v, w, f, if s.waiters != [] then Resuming else Loading);
  }

  lemma LoadKeepsInv(s: State, v: View, w: Wid, f: Fid)
    requires Runs(s, v, w, f) && s.fibers[f].pc.Loading?
    ensures Inv(LoadStep(s, f), v)
  {
    hide Inv;
    InHands(s, v, w);
    OwnerMovesOn(s, v, w, f, if s.word == LockedNoWaiters then Unlocking else Grabbing);
  }

  lemma UnlockingKeepsInv(s: State, v: View, w: Wid, f: Fid)
    requires Runs(s, v, w, f) && s.fibers[f].pc.Unlocking?
    ensures Inv(UnlockingStep(s, f), v)
  {
    hide Inv;
    InHands(s, v, w);
    if s.word == LockedNoWaiters {
      var s' := UnlockingStep(s, f);
      Concludes(s, v, s', v, w, {f});
    } else {
      OwnerMovesOn(s, v, w, f, Loading);
    }
  }

  lemma GrabKeepsInv(s: State, v: View, w: Wid, f: Fid) returns (v': View)
    requires Runs(s, v, w, f) && s.fibers[f].pc.Grabbing?
    ensures Inv(GrabStep(s, f), v')
    ensures s.waiters == [] && v.grabbed == [] && v'.grabbed == v.stack && v.stack != [] && v'.stack == []
  {
    var s' := GrabStep(s, f);
    hide Inv;
    InHands(s, v, w);
    v' := v.(stack := [], grabbed := v.stack);
    assert Enqueued(s', v') == Enqueued(s, v);
    Concludes(s, v, s', v', w, {f});
  }

  lemma AppendKeepsInv(s: State, v: View, w: Wid, f: Fid) returns (v': View)
    requires Runs(s, v, w, f) && s.fibers[f].pc.Appending?
    ensures Inv(AppendStep(s, f), v')
    ensures v'.stack == v.stack && Line(AppendStep(s, f), v') == Line(s, v)
  {
    var s' := AppendStep(s, f);
    hide Inv;
    InHands(s, v, w);
    if s.fibers[f].pc.cur == NULL {
      v' := v;
      OwnerMovesOn(s, v, w, f, Resuming);
    } else {
      v' := v.(grabbed := v.grabbed[1..]);
      assert s.fibers[f].pc.cur == v.grabbed[0] && v.grabbed[0] in Enqueued(s, v);
      Known(s, v, v.grabbed[0]);
      assert s.waiters + v.grabbed == s'.waiters + v'.grabbed;
      assert ListsOk(s', v');
      hide ListsOk, Enqueued;
      Concludes(s, v, s', v', w, {f});
    }
  }

  /** The first waiter leaves the lists, as the new owner. */
  lemma PoppedLists(s: State, v: View, s': State, v': View)
    requires ListsOk(s, v) && s.waiters != [] && v.grabbed == [] && s.word != Unlocked
    requires s'.word == s.word && s'.waiters == s.waiters[1..] && s'.next == s.next
    requires s'.grants == s.grants + [s.waiters[0]]
    requires v'.stack == v.stack && v'.grabbed == []
    requires forall g | g in s.fibers :: g in s'.fibers
    requires s'.fibers[s.waiters[0]].pc.AtLock?
    ensures ListsOk(s', v')
    ensures s.waiters[0] !in Enqueued(s', v')
    ensures forall g | g != s.waiters[0] :: g in Enqueued(s', v') <==> g in Enqueued(s, v)
  {
    var a, b := Enqueued(s, v), Enqueued(s', v');
    assert a == [s.waiters[0]] + b && b == a[1..];
  }

  lemma ResumePlaces(s: State, v: View, w: Wid, f: Fid, n: Fid, s': State, v': View)
    requires Whole(s, v) && w in s.workers && s.workers[w] == InFiber(f) && f in s.fibers && n in s.fibers
    requires FiberOk(s, v, f) && FiberOk(s, v, n) && WorkerOk(s, v, w)
    requires s.fibers[f].pc.Resuming? && v.place[n] == Parked
    requires s' == Suspend(s.(waiters := s'.waiters, grants := s.grants + [n]), w, f, Unlocker(n), AtUnlock)
    requires v' == v.(place := v.place[n := Handed(w)])
    requires s.word != Unlocked && f !in Enqueued(s', v') && n !in Enqueued(s', v')
    ensures FiberOk(s', v', f) && FiberOk(s', v', n) && WorkerOk(s', v', w)
  {
    hide ListsOk, Enqueued;
    assert Owner(s) == f && Owner(s') == n;
    assert Carried(s', w) == n;
  }

  lemma ResumeKeepsInv(s: State, v: View, w: Wid, f: Fid) returns (v': View)
    requires Runs(s, v, w, f) && s.fibers[f].pc.Resuming?
    ensures Inv(ResumeStep(s, w, f), v')
    ensures s.waiters != [] && v.grabbed == v'.grabbed == [] && v'.stack == v.stack
  {
    var s' := ResumeStep(s, w, f);
    hide Inv;
    InHands(s, v, w);
    var n := s.waiters[0];
    assert n in Enqueued(s, v);
    Known(s, v, n);
    v' := v.(place := v.place[n := Handed(w)]);
    PoppedLists(s, v, s', v');
    ResumePlaces(s, v, w, f, n, s', v');
    hide ListsOk, Enqueued;
    Concludes(s, v, s', v', w, {f, n});
  }
}
