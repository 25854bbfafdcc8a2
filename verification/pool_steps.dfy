/** The pool's invariant is kept by every step. */
module PoolSteps {
  import opened Wrappers
  import opened Collections
  import opened PoolModel
  import opened PoolInvariant

  function Weight(th: Thread): nat { One(HasTask(th)) + One(IsSubmitting(th)) + One(IsDisposing(th)) }

  predicate OnlyMoves(s: State, s': State, t: Tid) {
    && t in s.threads && t in s'.threads && s'.threads == s.threads[t := s'.threads[t]]
    && s'.workers == s.workers && s'.closed == s.closed
  }

  /** The ledger after one thread's move. */
  lemma BalancedMoves(s: State, s': State, t: Tid)
    requires Balanced(s) && OnlyMoves(s, s', t)
    requires s'.counter == s.counter + |s'.items| - |s.items| + Weight(s'.threads[t]) - Weight(s.threads[t])
    requires s.closed ==> s'.items == []
    requires IsSleeping(s'.threads[t]) ==> s'.items == [] && !s.closed
    requires s'.items == [] || |s'.items| - One(IsTaking(s'.threads[t])) <= |s.items| - One(IsTaking(s.threads[t]))
      || Count(s, IsSleeping) == 0
    requires s'.counter > 0 || IsNotifying(s'.threads[t])
      || (s'.counter == s.counter && !IsNotifying(s.threads[t]) && (IsIdler(s'.threads[t]) ==> IsIdler(s.threads[t])))
      || (s'.counter == s.counter && Count(s, IsIdler) == 0 && !IsIdler(s'.threads[t]))
    ensures Balanced(s')
  {
    Counts(s, s', t);
    hide Where;
  }

  /** No submission changes its place. */
  lemma PlacedMoves(s: State, v: View, s': State, t: Tid)
    requires Placed(s, v) && OnlyMoves(s, s', t)
    requires s'.tickets == s.tickets && s'.items == s.items && s'.started == s.started && s'.discarded == s.discarded
    requires TicketAt(s'.threads[t].pc) == TicketAt(s.threads[t].pc)
    ensures Placed(s', v)
  {
  }

  predicate LocksMove(s: State, s': State, t: Tid) {
    && (s'.queueLock == s.queueLock || (s.queueLock in {None, Some(t)} && s'.queueLock in {None, Some(t)}))
    && (s'.countLock == s.countLock || (s.countLock in {None, Some(t)} && s'.countLock in {None, Some(t)}))
  }

  lemma Concludes(s: State, v: View, s': State, v': View, t: Tid)
    requires Inv(s, v) && OnlyMoves(s, s', t) && LocksMove(s, s', t)
    requires Balanced(s') && Placed(s', v') && ThreadOk(s', t)
    ensures Inv(s', v')
  {
    hide Balanced, Placed;
    forall u | u in s'.threads && u != t
      ensures ThreadOk(s', u)
    {
      assert ThreadOk(s, u);
    }
  }

  lemma Known(s: State, v: View, t: Tid)
    requires Inv(s, v) && t in s.threads
    ensures ThreadOk(s, t) && Balanced(s) && Placed(s, v)
  {
  }

  /** A thread moves on, and no submission changes its place. */
  lemma Moved(s: State, v: View, s': State, t: Tid)
    requires Inv(s, v) && OnlyMoves(s, s', t) && LocksMove(s, s', t)
    requires s'.tickets == s.tickets && s'.items == s.items && s'.started == s.started && s'.discarded == s.discarded
    requires TicketAt(s'.threads[t].pc) == TicketAt(s.threads[t].pc)
    requires s'.counter == s.counter + Weight(s'.threads[t]) - Weight(s.threads[t])
    requires IsSleeping(s'.threads[t]) ==> s'.items == [] && !s.closed
    requires IsTaking(s.threads[t]) ==> s'.items == [] || IsTaking(s'.threads[t])
    requires s'.counter > 0 || IsNotifying(s'.threads[t])
      || (s'.counter == s.counter && !IsNotifying(s.threads[t]) && (IsIdler(s'.threads[t]) ==> IsIdler(s.threads[t])))
      || (s'.counter == s.counter && Count(s, IsIdler) == 0 && !IsIdler(s'.threads[t]))
    requires ThreadOk(s', t)
    ensures Inv(s', v)
  {
    Known(s, v, t);
    assert s.closed ==> s.items == [];
    hide Inv, ThreadOk, Weight;
    BalancedMoves(s, s', t);
    PlacedMoves(s, v, s', t);
    Concludes(s, v, s', v, t);
  }

  // ---- moves that change nothing but a program counter, a lock and perhaps the counter ----

  lemma CallKeepsInv(s: State, v: View, t: Tid, pc: Pc)
    requires Inv(s, v) && t in s.threads && s.threads[t].pc.Free?
    requires ((pc.ZeroLocking? || pc.Closing?) && s.threads[t].task.None?) || (pc == Decrementing(TaskRun) && s.threads[t].task.Some?)
    ensures Inv(At(s, t, pc), v)
  {
    Known(s, v, t);
    hide Inv, Balanced, Placed;
    Moved(s, v, At(s, t, pc), t);
  }

  lemma WakeUpKeepsInv(s: State, v: View, t: Tid)
    requires Inv(s, v) && t in s.threads
    ensures Inv(WakeUpStep(s, t), v)
  {
    Known(s, v, t);
    hide Inv, Balanced, Placed;
    if s.threads[t].pc.Sleeping? || s.threads[t].pc.Dozing? { Moved(s, v, WakeUpStep(s, t), t); }
  }

  lemma AddKeepsInv(s: State, v: View, t: Tid)
    requires Inv(s, v) && t in s.threads && s.threads[t].pc.Adding?
    ensures Inv(At(s.(counter := s.counter + 1), t, Putting(s.threads[t].pc.x)), v)
  {
    Known(s, v, t);
    assert s.counter >= 0;
    hide Inv, Balanced, Placed;
    Moved(s, v, At(s.(counter := s.counter + 1), t, Putting(s.threads[t].pc.x)), t);
  }

  lemma DecrementKeepsInv(s: State, v: View, t: Tid)
    requires Inv(s, v) && t in s.threads && s.threads[t].pc.Decrementing?
    ensures Inv(DecrementStep(s, t, s.threads[t].pc.after), v)
  {
    hide Inv, Balanced, Placed;
    Known(s, v, t);
    assert s.threads[t].pc.after == TaskRun ==> HasTask(s.threads[t]);
    assert s.threads[t].pc.after == Refusal ==> IsSubmitting(s.threads[t]);
    CountedIsPositive(s, t);
    Moved(s, v, DecrementStep(s, t, s.threads[t].pc.after), t);
  }

  lemma CountedIsPositive(s: State, t: Tid)
    requires Balanced(s) && t in s.threads && Weight(s.threads[t]) > 0
    ensures s.counter > 0
  {
    Counts(s, s.(threads := s.threads[t := s.threads[t]]), t);
  }

  lemma LoadKeepsInv(s: State, v: View, t: Tid)
    requires Inv(s, v) && t in s.threads && s.threads[t].pc.ZeroLoading?
    ensures Inv(LoadStep(s, t), v)
  {
    Known(s, v, t);
    assert s.counter >= 0;
    hide Inv, Balanced, Placed;
    Moved(s, v, LoadStep(s, t), t);
  }

  lemma LockQueueKeepsInv(s: State, v: View, t: Tid)
    requires Inv(s, v) && t in s.threads && s.threads[t].pc.Closing? && s.queueLock == None
    ensures Inv(At(s.(queueLock := Some(t)), t, Disposing), v)
  {
    Known(s, v, t);
    hide Inv, Balanced, Placed;
    Moved(s, v, At(s.(queueLock := Some(t)), t, Disposing), t);
  }

  lemma LockCountKeepsInv(s: State, v: View, t: Tid)
    requires Inv(s, v) && t in s.threads && s.threads[t].pc.ZeroLocking? && s.countLock == None
    ensures Inv(At(s.(countLock := Some(t)), t, ZeroLoading), v)
  {
    Known(s, v, t);
    hide Inv, Balanced, Placed;
    Moved(s, v, At(s.(countLock := Some(t)), t, ZeroLoading), t);
  }

  lemma DozeKeepsInv(s: State, v: View, t: Tid)
    requires Inv(s, v) && t in s.threads && s.threads[t].pc.ZeroWaiting?
    ensures Inv(At(s.(countLock := None), t, Dozing), v)
  {
    Known(s, v, t);
    hide Inv, Balanced, Placed;
    Moved(s, v, At(s.(countLock := None), t, Dozing), t);
  }

  lemma JoinedKeepsInv(s: State, v: View, t: Tid)
    requires Inv(s, v) && t in s.threads && s.threads[t].pc.Joining?
    ensures Inv(At(s, t, Free), v)
  {
    Known(s, v, t);
    hide Inv, Balanced, Placed;
    Moved(s, v, At(s, t, Free), t);
  }

  lemma GoToSleepKeepsInv(s: State, v: View, t: Tid)
    requires Inv(s, v) && t in s.threads && s.threads[t].pc.Taking? && s.items == []
    ensures Inv(TakeStep(s, t), v)
  {
    Known(s, v, t);
    hide Inv, Balanced, Placed;
    if s.queueLock == None { Moved(s, v, TakeStep(s, t), t); }
  }

  // ---- moves that change a submission's place ----

  lemma ListGrows(v: View, v': View, xs: seq<Ticket>, place: Place, x: Ticket)
    requires ListIs(v, xs, place) && (x in v ==> v[x] != place) && v' == v[x := place]
    ensures ListIs(v', xs + [x], place)
  {
  }

  lemma ListShrinks(v: View, v': View, xs: seq<Ticket>, place: Place, to: Place)
    requires ListIs(v, xs, place) && xs != [] && to != place && v' == v[xs[0] := to]
    ensures ListIs(v', xs[1..], place)
  {
    assert xs == [xs[0]] + xs[1..];
  }

  lemma ListStays(v: View, v': View, xs: seq<Ticket>, place: Place, x: Ticket, to: Place)
    requires ListIs(v, xs, place) && (x in v ==> v[x] != place) && to != place && v' == v[x := to]
    ensures ListIs(v', xs, place)
  {
  }

  /** A thread takes a new ticket. */
  lemma PlacedExecute(s: State, v: View, t: Tid)
    requires Placed(s, v) && t in s.threads && s.threads[t].pc.Free?
    ensures Placed(At(s.(tickets := s.tickets + 1), t, Adding(s.tickets)), v[s.tickets := Carried(t)])
  {
    var v' := v[s.tickets := Carried(t)];
    ListStays(v, v', s.items, Queued, s.tickets, Carried(t));
    ListStays(v, v', s.started, Started, s.tickets, Carried(t));
    ListStays(v, v', s.discarded, Discarded, s.tickets, Carried(t));
    hide ListIs;
  }

  lemma ExecuteKeepsInv(s: State, v: View, t: Tid) returns (v': View)
    requires Inv(s, v) && t in s.threads && s.threads[t].pc.Free?
    ensures Inv(At(s.(tickets := s.tickets + 1), t, Adding(s.tickets)), v')
  {
    hide Inv, Balanced, Placed;
    var s' := At(s.(tickets := s.tickets + 1), t, Adding(s.tickets));
    v' := v[s.tickets := Carried(t)];
    Known(s, v, t);
    PlacedExecute(s, v, t);
    BalancedExecute(s, t);
    Concludes(s, v, s', v', t);
  }

  lemma BalancedExecute(s: State, t: Tid)
    requires Balanced(s) && t in s.threads && s.threads[t].pc.Free?
    ensures Balanced(At(s.(tickets := s.tickets + 1), t, Adding(s.tickets)))
  {
    BalancedMoves(s, At(s.(tickets := s.tickets + 1), t, Adding(s.tickets)), t);
  }

  lemma PlacedRefuse(s: State, v: View, t: Tid)
    requires Placed(s, v) && t in s.threads && s.threads[t].pc.Refused?
    ensures var x := s.threads[t].pc.x;
      Placed(RefuseStep(s, t, x), v[x := Discarded])
  {
    var x := s.threads[t].pc.x;
    var v' := v[x := Discarded];
    assert CarriedBy(v, x, t);
    ListStays(v, v', s.items, Queued, x, Discarded);
    ListStays(v, v', s.started, Started, x, Discarded);
    ListGrows(v, v', s.discarded, Discarded, x);
    hide ListIs;
  }

  lemma RefuseKeepsInv(s: State, v: View, t: Tid) returns (v': View)
    requires Inv(s, v) && t in s.threads && s.threads[t].pc.Refused?
    ensures Inv(RefuseStep(s, t, s.threads[t].pc.x), v')
  {
    hide Inv, Balanced, Placed;
    var x := s.threads[t].pc.x;
    var s' := RefuseStep(s, t, x);
    v' := v[x := Discarded];
    Known(s, v, t);
    PlacedRefuse(s, v, t);
    BalancedRefuse(s, t);
    Concludes(s, v, s', v', t);
  }

  lemma BalancedRefuse(s: State, t: Tid)
    requires Balanced(s) && t in s.threads && s.threads[t].pc.Refused?
    ensures Balanced(RefuseStep(s, t, s.threads[t].pc.x))
  {
    BalancedMoves(s, RefuseStep(s, t, s.threads[t].pc.x), t);
  }

  /** The first item leaves the queue, to be run or to be discarded. */
  lemma PlacedPop(s: State, v: View, s': State, t: Tid, to: Place)
    requires Placed(s, v) && OnlyMoves(s, s', t) && s.items != []
    requires TicketAt(s.threads[t].pc) == TicketAt(s'.threads[t].pc) == None
    requires s'.items == s.items[1..] && s'.tickets == s.tickets
    requires (to == Started && s'.started == s.started + [s.items[0]] && s'.discarded == s.discarded)
      || (to == Discarded && s'.discarded == s.discarded + [s.items[0]] && s'.started == s.started)
    ensures Placed(s', v[s.items[0] := to])
  {
    var x := s.items[0];
    var v' := v[x := to];
    assert x in v && v[x] == Queued;
    ListShrinks(v, v', s.items, Queued, to);
    if to == Started {
      ListGrows(v, v', s.started, Started, x);
      ListStays(v, v', s.discarded, Discarded, x, to);
    } else {
      ListGrows(v, v', s.discarded, Discarded, x);
      ListStays(v, v', s.started, Started, x, to);
    }
    hide ListIs;
  }

  lemma BalancedTake(s: State, t: Tid)
    requires Balanced(s) && t in s.threads && s.threads[t].pc.Taking? && s.threads[t].task.None? && s.items != [] && s.queueLock == None
    ensures Balanced(TakeStep(s, t))
  {
    BalancedMoves(s, TakeStep(s, t), t);
  }

  lemma TakeKeepsInv(s: State, v: View, t: Tid) returns (v': View)
    requires Inv(s, v) && t in s.threads && s.threads[t].pc.Taking? && s.items != [] && s.queueLock == None
    ensures Inv(TakeStep(s, t), v')
  {
    hide Inv, Balanced, Placed;
    var s' := TakeStep(s, t);
    v' := v[s.items[0] := Started];
    Known(s, v, t);
    PlacedPop(s, v, s', t, Started);
    BalancedTake(s, t);
    Concludes(s, v, s', v', t);
  }

  lemma BalancedDispose(s: State, t: Tid)
    requires Balanced(s) && t in s.threads && s.threads[t].pc.Disposing? && s.items != []
    ensures Balanced(DisposeStep(s, t))
  {
    BalancedMoves(s, DisposeStep(s, t), t);
  }

  lemma DisposeOneKeepsInv(s: State, v: View, t: Tid) returns (v': View)
    requires Inv(s, v) && t in s.threads && s.threads[t].pc.Disposing? && s.items != []
    ensures Inv(DisposeStep(s, t), v')
  {
    hide Inv, Balanced, Placed;
    var s' := DisposeStep(s, t);
    v' := v[s.items[0] := Discarded];
    Known(s, v, t);
    PlacedPop(s, v, s', t, Discarded);
    BalancedDispose(s, t);
    Concludes(s, v, s', v', t);
  }

  // ---- moves of several threads ----

  lemma PlacedPut(s: State, v: View, t: Tid)
    requires Placed(s, v) && t in s.threads && s.threads[t].pc.Putting?
    ensures var x := s.threads[t].pc.x;
      Placed(At(PushBack(s, x), t, Free), v[x := Queued])
  {
    var x := s.threads[t].pc.x;
    var v' := v[x := Queued];
    assert CarriedBy(v, x, t);
    ListGrows(v, v', s.items, Queued, x);
    ListStays(v, v', s.started, Started, x, Queued);
    ListStays(v, v', s.discarded, Discarded, x, Queued);
    hide ListIs;
  }

  lemma BalancedPut(s: State, t: Tid)
    requires Balanced(s) && t in s.threads && s.threads[t].pc.Putting? && !s.closed
    requires Count(s, IsSleeping) == 0 || |s.items| < Count(s, IsTaking)
    ensures Balanced(At(PushBack(s, s.threads[t].pc.x), t, Free))
  {
    Counts(s, At(PushBack(s, s.threads[t].pc.x), t, Free), t);
    hide Where;
  }

  /** An item is put where nobody sleeps, or enough workers are on their way. */
  lemma PutKeepsInv(s: State, v: View, t: Tid) returns (v': View)
    requires Inv(s, v) && t in s.threads && s.threads[t].pc.Putting? && !s.closed
    requires Count(s, IsSleeping) == 0 || |s.items| < Count(s, IsTaking)
    ensures Inv(At(PushBack(s, s.threads[t].pc.x), t, Free), v')
  {
    hide Inv, Balanced, Placed;
    var x := s.threads[t].pc.x;
    v' := v[x := Queued];
    Known(s, v, t);
    PlacedPut(s, v, t);
    BalancedPut(s, t);
    Concludes(s, v, At(PushBack(s, x), t, Free), v', t);
  }

  lemma NoneSleeping(s: State)
    ensures Count(s, IsSleeping) == 0 <==> forall u | u in s.threads :: !s.threads[u].pc.Sleeping?
  {
    WhereNone(s.threads, IsSleeping);
    assert forall u | u in s.threads :: IsSleeping(s.threads[u]) <==> s.threads[u].pc.Sleeping?;
  }

  lemma WokenTakes(s: State, pick: Tid)
    requires Balanced(s) && pick in s.threads && s.threads[pick].pc.Sleeping?
    ensures |s.items| < Count(At(s, pick, Taking), IsTaking)
  {
    Counts(s, At(s, pick, Taking), pick);
  }

  lemma PutStepKeepsInv(s: State, v: View, t: Tid, pick: Tid) returns (v': View)
    requires Inv(s, v) && t in s.threads && s.threads[t].pc.Putting?
    ensures Inv(PutStep(s, t, s.threads[t].pc.x, pick), v')
  {
    hide Inv, Balanced, Placed, ThreadOk;
    var x := s.threads[t].pc.x;
    v' := v;
    Known(s, v, t);
    NoneSleeping(s);
    if s.queueLock != None {
    } else if s.closed {
      RefusedKeepsInv(s, v, t);
    } else if Count(s, IsSleeping) == 0 {
      v' := PutKeepsInv(s, v, t);
    } else if pick in s.threads && s.threads[pick].pc.Sleeping? {
      var s1 := At(s, pick, Taking);
      WakeUpKeepsInv(s, v, pick);
      WokenTakes(s, pick);
      v' := PutKeepsInv(s1, v, t);
      assert At(PushBack(s1, x), t, Free) == At(At(PushBack(s, x), t, Free), pick, Taking) by {
        assert s.threads[pick := s.threads[pick].(pc := Taking)][t := s.threads[t].(pc := Free)]
            == s.threads[t := s.threads[t].(pc := Free)][pick := s.threads[pick].(pc := Taking)];
      }
    }
  }

  lemma RefusedKeepsInv(s: State, v: View, t: Tid)
    requires Inv(s, v) && t in s.threads && s.threads[t].pc.Putting?
    ensures Inv(At(s, t, Refused(s.threads[t].pc.x)), v)
  {
    Known(s, v, t);
    CountedIsPositive(s, t);
    hide Inv, Balanced, Placed;
    Moved(s, v, At(s, t, Refused(s.threads[t].pc.x)), t);
  }

  // ---- notify_all ----

  lemma WakeDozersCounts(s: State)
    requires forall u | u in s.threads :: !s.threads[u].pc.ZeroWaiting?
    ensures var s' := s.(threads := WakeDozers(s.threads));
      && Outstanding(s') == Outstanding(s) && Count(s', IsTaking) == Count(s, IsTaking)
      && Count(s', IsSleeping) == Count(s, IsSleeping) && Count(s', IsIdler) == 0
  {
    var after: map<Tid, Thread> := WakeDozers(s.threads);
    WhereSame(s.threads, after, HasTask);
    WhereSame(s.threads, after, IsSubmitting);
    WhereSame(s.threads, after, IsDisposing);
    WhereSame(s.threads, after, IsTaking);
    WhereSame(s.threads, after, IsSleeping);
    assert Where(after, IsIdler) == {};
  }

  lemma WakeDozersThreads(s: State, v: View)
    requires Inv(s, v) && s.countLock == None
    ensures var s' := s.(threads := WakeDozers(s.threads));
      forall u | u in s.threads :: ThreadOk(s', u) && !s.threads[u].pc.ZeroWaiting?
  {
    hide Balanced, Placed;
    var s' := s.(threads := WakeDozers(s.threads));
    forall u | u in s.threads
      ensures ThreadOk(s', u) && !s.threads[u].pc.ZeroWaiting?
    {
      assert ThreadOk(s, u);
    }
  }

  lemma WakeDozersPlaced(s: State, v: View)
    requires Placed(s, v)
    ensures Placed(s.(threads := WakeDozers(s.threads)), v)
  {
    hide ListIs;
  }

  lemma WakeDozersKeepsInv(s: State, v: View)
    requires Inv(s, v) && s.countLock == None
    ensures Inv(s.(threads := WakeDozers(s.threads)), v)
    ensures Count(s.(threads := WakeDozers(s.threads)), IsIdler) == 0
  {
    WakeDozersThreads(s, v);
    WakeDozersCounts(s);
    WakeDozersPlaced(s, v);
    hide Where, Placed, ThreadOk;
  }

  lemma NotifyKeepsInv(s: State, v: View, t: Tid)
    requires Inv(s, v) && t in s.threads && s.threads[t].pc.Notifying? && s.countLock == None
    ensures Inv(NotifyStep(s, t, s.threads[t].pc.after), v)
  {
    hide Inv, Balanced, Placed;
    var s1 := s.(threads := WakeDozers(s.threads));
    WakeDozersKeepsInv(s, v);
    Known(s1, v, t);
    Moved(s1, v, NotifyStep(s, t, s.threads[t].pc.after), t);
  }

  lemma WakeSleepersCounts(s: State)
    ensures var s' := s.(threads := WakeSleepers(s.threads));
      && Outstanding(s') == Outstanding(s) && Count(s', IsSleeping) == 0
      && Count(s', IsIdler) == Count(s, IsIdler) && Count(s', IsNotifying) == Count(s, IsNotifying)
  {
    var after: map<Tid, Thread> := WakeSleepers(s.threads);
    WhereSame(s.threads, after, HasTask);
    WhereSame(s.threads, after, IsSubmitting);
    WhereSame(s.threads, after, IsDisposing);
    WhereSame(s.threads, after, IsIdler);
    WhereSame(s.threads, after, IsNotifying);
    assert Where(after, IsSleeping) == {};
  }

  lemma WakeSleepersThreads(s: State, v: View)
    requires Inv(s, v)
    ensures var s' := s.(threads := WakeSleepers(s.threads), closed := true);
      forall u | u in s.threads :: ThreadOk(s', u)
  {
    hide Balanced, Placed;
    var s' := s.(threads := WakeSleepers(s.threads), closed := true);
    forall u | u in s.threads
      ensures ThreadOk(s', u)
    {
      assert ThreadOk(s, u);
    }
  }

  lemma WakeSleepersPlaced(s: State, v: View)
    requires Placed(s, v)
    ensures Placed(s.(threads := WakeSleepers(s.threads), closed := true), v)
  {
    hide ListIs;
  }

  lemma WakeSleepersKeepsInv(s: State, v: View)
    requires Inv(s, v) && s.items == []
    ensures Inv(s.(threads := WakeSleepers(s.threads), closed := true), v)
  {
    WakeSleepersThreads(s, v);
    WakeSleepersCounts(s);
    WakeSleepersPlaced(s, v);
    hide Where, Placed, ThreadOk;
  }

  lemma CloseKeepsInv(s: State, v: View, t: Tid)
    requires Inv(s, v) && t in s.threads && s.threads[t].pc.Disposing? && s.items == []
    ensures Inv(DisposeStep(s, t), v)
  {
    hide Inv, Balanced, Placed;
    var s1 := s.(threads := WakeSleepers(s.threads), closed := true);
    WakeSleepersKeepsInv(s, v);
    Known(s1, v, t);
    Moved(s1, v, DisposeStep(s, t), t);
  }

  // ---- all steps ----

  lemma GoKeepsInv(s: State, v: View, t: Tid, pick: Tid) returns (v': View)
    requires Inv(s, v) && t in s.threads
    ensures Inv(GoStep(s, t, pick), v')
  {
    hide Inv, Balanced, Placed, ThreadOk, PutStep;
    v' := v;
    match s.threads[t].pc
    case Adding(x) => AddKeepsInv(s, v, t);
    case Putting(x) => v' := PutStepKeepsInv(s, v, t, pick);
    case Refused(x) => v' := RefuseKeepsInv(s, v, t);
    case Decrementing(after) => DecrementKeepsInv(s, v, t);
    case Notifying(after) => if s.countLock == None { NotifyKeepsInv(s, v, t); }
    case Taking =>
      if s.items == [] { GoToSleepKeepsInv(s, v, t); } else if s.queueLock == None { v' := TakeKeepsInv(s, v, t); }
    case Closing => if s.queueLock == None { LockQueueKeepsInv(s, v, t); }
    case Disposing => if s.items == [] { CloseKeepsInv(s, v, t); } else { v' := DisposeOneKeepsInv(s, v, t); }
    case Joining => JoinedKeepsInv(s, v, t);
    case ZeroLocking => if s.countLock == None { LockCountKeepsInv(s, v, t); }
    case ZeroLoading => LoadKeepsInv(s, v, t);
    case ZeroWaiting => DozeKeepsInv(s, v, t);
    case _ =>
  }

  lemma CallStepKeepsInv(s: State, v: View, e: Event)
    requires Inv(s, v) && (e.WaitIdle? || e.Stop? || e.Finish?)
    ensures Inv(Step(s, e), v)
  {
    hide Inv;
    if e.t in s.threads {
      var pc := match e case WaitIdle(_) => ZeroLocking case Stop(_) => Closing case _ => Decrementing(TaskRun);
      if Step(s, e) != s { CallKeepsInv(s, v, e.t, pc); }
    }
  }

  lemma StepKeepsInv(s: State, v: View, e: Event) returns (v': View)
    requires Inv(s, v)
    ensures Inv(Step(s, e), v')
  {
    hide Inv, GoStep, WakeUpStep;
    v' := v;
    if e.t in s.threads {
      match e
      case Execute(t) => if s.threads[t].pc == Free { v' := ExecuteKeepsInv(s, v, t); }
      case WakeUp(t) => WakeUpKeepsInv(s, v, t);
      case Go(t, pick) => v' := GoKeepsInv(s, v, t, pick);
      case _ => CallStepKeepsInv(s, v, e);
    }
  }
}
