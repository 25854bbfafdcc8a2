/** The invariant of a wait group is kept by every step. */
module WaitGroupSteps {
  import opened Wrappers
  import opened Collections
  import opened WaitGroupModel
  import opened WaitGroupInvariant

  lemma AddKeepsInv(s: State, v: View, count: nat)
    requires Inv(s, v)
    ensures Inv(AddStep(s, count), v)
  {
    var s' := AddStep(s, count);
    if s' != s {
      assert Waiting(s', v) == Waiting(s, v);
      Concludes(s, v, s', v, {});
    }
  }

  lemma DoneKeepsInv(s: State, v: View, f: Fid)
    requires Inv(s, v) && f in s.pc && s.pc[f] == Idle && s.alive && s.owed > 0
    ensures Inv(At(s.(owed := s.owed - 1), f, Decrementing), v)
  {
    var s' := At(s.(owed := s.owed - 1), f, Decrementing);
    Known(s, v, f);
    assert Waiting(s', v) == Waiting(s, v);
    MovesAlone(s, v, s', f);
  }

  lemma WaitKeepsInv(s: State, v: View, f: Fid)
    requires Inv(s, v) && f in s.pc && f != NULL && s.pc[f] == Idle && s.alive
    ensures Inv(At(s, f, Reading), v)
  {
    var s' := At(s, f, Reading);
    Known(s, v, f);
    assert Waiting(s', v) == Waiting(s, v);
    MovesAlone(s, v, s', f);
  }

  /** A step that goes wrong changes nothing but the mark. */
  lemma FaultKeepsInv(s: State, v: View)
    requires Inv(s, v)
    ensures Inv(s.(fault := true), v)
  {
    var s' := s.(fault := true);
    assert Waiting(s', v) == Waiting(s, v);
    Concludes(s, v, s', v, {});
  }

  /** The object may go as soon as nobody is inside Wait: whoever is inside Fire has nobody left to schedule. */
  lemma DestroyKeepsInv(s: State, v: View)
    requires Inv(s, v)
    ensures Inv(DestroyStep(s), v)
  {
    var s' := DestroyStep(s);
    if s' != s {
      assert Waiting(s', v) == Waiting(s, v);
      forall f | f in s'.pc
        ensures FiberOk(s', v, f)
      {
        Known(s, v, f);
        CountMoves(s, f, Idle);
      }
    }
  }

  // ---- Wait ----

  lemma ReturnKeepsInv(s: State, v: View, f: Fid)
    requires Inv(s, v) && f in s.pc && s.word == Signaled && (s.pc[f].Reading? || s.pc[f].Loading? || s.pc[f].Woken?)
    ensures Inv(ReturnStep(s, f), v)
  {
    var s' := ReturnStep(s, f);
    Known(s, v, f);
    assert Waiting(s', v) == Waiting(s, v);
    MovesAlone(s, v, s', f);
  }

  lemma GoOnKeepsInv(s: State, v: View, f: Fid, p: Pc)
    requires Inv(s, v) && f in s.pc && s.word != Signaled
    requires (s.pc[f].Reading? && p == Loading) || (s.pc[f].Loading? && p == Pushing(s.word))
    ensures Inv(At(s, f, p), v)
  {
    var s' := At(s, f, p);
    Known(s, v, f);
    assert Waiting(s', v) == Waiting(s, v);
    MovesAlone(s, v, s', f);
  }

  /** Writing the link of a node that is in no list. */
  lemma Relink(s: State, v: View, f: Fid, to: Fid)
    requires ListsOk(s, v) && f !in Waiting(s, v)
    ensures ListsOk(s.(next := s.next[f := to]), v)
  {
    var s' := s.(next := s.next[f := to]);
    assert Waiting(s', v) == Waiting(s, v);
    if s.word.WaitNode? { LinkedFrame(s.next, NULL, f, to, s.word.node, v.stack); }
    if BuilderPc(s, v).Building? { LinkedFrame(s.next, NULL, f, to, BuilderPc(s, v).cur, v.grabbed); }
  }

  lemma PushFailsKeepsInv(s: State, v: View, f: Fid, to: Fid)
    requires Inv(s, v) && f in s.pc && s.pc[f].Pushing?
    ensures Inv(At(s.(next := s.next[f := to]), f, Loading), v)
  {
    var s1 := s.(next := s.next[f := to]);
    Known(s, v, f);
    Relink(s, v, f, to);
    assert Waiting(s1, v) == Waiting(s, v);
    assert Inv(s1, v) by { Concludes(s, v, s1, v, {}); }
    hide Inv;
    assert Waiting(At(s1, f, Loading), v) == Waiting(s1, v);
    MovesAlone(s1, v, At(s1, f, Loading), f);
  }

  /** While the event is not signalled, the chain from the word is all there is. */
  lemma OnlyTheStack(s: State, v: View)
    requires Inv(s, v) && s.word != Signaled
    ensures Waiting(s, v) == v.stack && ListOf(BuilderPc(s, v)) == [] && v.grabbed == [] && s.scheduled == []
    ensures !BuilderPc(s, v).Building? && !BuilderPc(s, v).Scheduling?
  {
    hide FiberOk;
  }

  lemma PushedInOrder(s: State, v: View, f: Fid)
    requires Inv(s, v) && s.word != Signaled && f !in v.stack
    ensures s.scheduled == [] && [f] + v.stack == Reversed(s.enqueued + [f]) && Distinct([f] + v.stack)
  {
    OnlyTheStack(s, v);
    ReversedSnoc(s.enqueued, f);
    assert s.scheduled + Waiting(s, v) == v.stack;
    DistinctInsert(v.stack, 0, f);
    assert v.stack[..0] + [f] + v.stack[0..] == [f] + v.stack;
  }

  lemma PushedLink(s: State, v: View, f: Fid, to: Fid)
    requires ListsOk(s, v) && s.word != Signaled && f !in v.stack && f != NULL
    requires to == if s.word.WaitNode? then s.word.node else NULL
    ensures Linked(s.next[f := to], NULL, f, [f] + v.stack)
  {
    assert ([f] + v.stack)[1..] == v.stack;
    if s.word.WaitNode? { LinkedFrame(s.next, NULL, f, to, s.word.node, v.stack); }
  }

  lemma PushLists(s: State, v: View, f: Fid)
    requires Inv(s, v) && f in s.pc && s.pc[f] == Pushing(s.word)
    ensures var s', v' := PushStep(s, f, s.word), v.(stack := [f] + v.stack);
      && ListsOk(s', v') && Waiting(s', v') == [f] + Waiting(s, v)
  {
    var s', v' := PushStep(s, f, s.word), v.(stack := [f] + v.stack);
    Known(s, v, f);
    OnlyTheStack(s, v);
    PushedInOrder(s, v, f);
    Relink(s, v, f, if s.word.WaitNode? then s.word.node else NULL);
    assert BuilderPc(s', v') == BuilderPc(s, v);
    hide Inv, Whole, CountOk, FiberOk, Distinct, Reversed;
    assert Waiting(s', v') == v'.stack;
    assert s'.scheduled + Waiting(s', v') == v'.stack;
    PushedLink(s, v, f, if s.word.WaitNode? then s.word.node else NULL);
    hide Linked;
    assert Distinct(s'.scheduled + Waiting(s', v'));
  }

  lemma PushKeepsInv(s: State, v: View, f: Fid) returns (v': View)
    requires Inv(s, v) && f in s.pc && s.pc[f] == Pushing(s.word)
    ensures Inv(PushStep(s, f, s.word), v')
  {
    var s' := PushStep(s, f, s.word);
    v' := v.(stack := [f] + v.stack);
    Known(s, v, f);
    PushLists(s, v, f);
    CountMoves(s, f, Parked);
    hide Inv, ListsOk;
    Concludes(s, v, s', v', {f});
  }

  // ---- Done and Fire ----

  /** A fiber that is not the builder moves, and perhaps signals an event nobody waits for. */
  lemma ListsKept(s: State, v: View, s': State, f: Fid)
    requires ListsOk(s, v) && f in s.pc && f in s'.pc && v.builder != Some(f)
    requires s'.pc == s.pc[f := s'.pc[f]] && s'.next == s.next && s'.enqueued == s.enqueued && s'.scheduled == s.scheduled
    requires s'.word == s.word || (s.word == NoWaiters && s'.word == Signaled)
    ensures ListsOk(s', v) && Waiting(s', v) == Waiting(s, v)
  {
    assert BuilderPc(s', v) == BuilderPc(s, v);
  }

  lemma DecrementKeepsInv(s: State, v: View, f: Fid)
    requires Inv(s, v) && f in s.pc && s.pc[f].Decrementing?
    ensures Inv(DecrementStep(s, f), v)
  {
    var s' := DecrementStep(s, f);
    Known(s, v, f);
    CountMoves(s, f, s'.pc[f]);
    hide Inv;
    ListsKept(s, v, s', f);
    hide ListsOk, Waiting;
    Concludes(s, v, s', v, {f});
  }

  lemma FireKeepsInv(s: State, v: View, f: Fid)
    requires Inv(s, v) && f in s.pc && s.pc[f].Firing?
    ensures Inv(FireStep(s, f), v)
  {
    var s' := FireStep(s, f);
    Known(s, v, f);
    hide Inv, Linked, Distinct, Reversed;
    ListsKept(s, v, s', f);
    FireCounts(s, v, f);
    hide ListsOk, Waiting, Where, CountOk;
    Concludes(s, v, s', v, {f});
  }

  lemma FireCounts(s: State, v: View, f: Fid)
    requires CountOk(s, v) && f in s.pc && s.pc[f].Firing? && s.zeroed
    ensures CountOk(FireStep(s, f), v)
  {
    CountMoves(s, f, FireStep(s, f).pc[f]);
    hide Where;
  }

  /** Whoever exchanges first gets the whole chain, whoever comes later gets the signal. */
  lemma ExchangeKeepsInv(s: State, v: View, f: Fid) returns (v': View)
    requires Inv(s, v) && f in s.pc && s.pc[f].Exchanging?
    ensures Inv(ExchangeStep(s, f), v')
  {
    var s' := ExchangeStep(s, f);
    Known(s, v, f);
    if !s.word.WaitNode? {
      v' := v;
      FaultKeepsInv(s, v);
      return;
    }
    v' := View([], v.stack, Some(f));
    CountMoves(s, f, s'.pc[f]);
    OnlyTheStack(s, v);
    assert Waiting(s', v') == Waiting(s, v) by { assert [] + v.stack + [] == v.stack; }
    hide Inv;
    Concludes(s, v, s', v', {f});
  }

  function Grab(v: View, cur: Fid): View {
    if cur == NULL || v.grabbed == [] then v else v.(grabbed := v.grabbed[1..])
  }

  lemma BuildKeepsInv(s: State, v: View, f: Fid) returns (v': View)
    requires Inv(s, v) && f in s.pc && s.pc[f].Building?
    ensures Inv(BuildStep(s, f, s.pc[f].cur, s.pc[f].list), v')
  {
    var cur, list := s.pc[f].cur, s.pc[f].list;
    var s' := BuildStep(s, f, cur, list);
    Known(s, v, f);
    v' := Grab(v, cur);
    BuildLists(s, v, f);
    CountMoves(s, f, s'.pc[f]);
    hide Inv, ListsOk, Waiting, Where;
    assert CountOk(s', v') && FiberOk(s', v', f);
    hide CountOk, FiberOk;
    Concludes(s, v, s', v', {f});
  }

  /** The next awaiter is still there, and moves from the chain to the list. */
  lemma BuildLists(s: State, v: View, f: Fid)
    requires Inv(s, v) && f in s.pc && s.pc[f].Building?
    ensures var cur := s.pc[f].cur;
      var s', v' := BuildStep(s, f, cur, s.pc[f].list), Grab(v, cur);
      && (cur != NULL ==> v.grabbed != [] && AwaiterAlive(s, cur))
      && ListsOk(s', v') && Waiting(s', v') == Waiting(s, v)
  {
    hide Inv, Distinct, Reversed, CountOk;
    var cur, list := s.pc[f].cur, s.pc[f].list;
    Known(s, v, f);
    if cur != NULL {
      assert v.grabbed[0] == cur && cur in Waiting(s, v) by { assert Waiting(s, v)[|list|] == cur; }
      Known(s, v, cur);
      assert list + v.grabbed + v.stack == (list + [cur]) + v.grabbed[1..] + v.stack;
    }
  }

  lemma DoneFiringKeepsInv(s: State, v: View, f: Fid) returns (v': View)
    requires Inv(s, v) && f in s.pc && s.pc[f] == Scheduling([])
    ensures Inv(ScheduleStep(s, f, []), v')
  {
    var s' := ScheduleStep(s, f, []);
    v' := v.(builder := None);
    Known(s, v, f);
    CountMoves(s, f, Idle);
    assert Waiting(s', v') == Waiting(s, v);
    hide Inv;
    Concludes(s, v, s', v', {f});
  }

  lemma ScheduleLists(s: State, v: View, f: Fid, n: Fid, list: seq<Fid>)
    requires ListsOk(s, v) && v.builder == Some(f) && f in s.pc && s.pc[f] == Scheduling([n] + list) && n != f
    requires n in s.pc && s.pc[n].Parked? && s.word == Signaled
    ensures var s' := ScheduleStep(s, f, [n] + list);
      && ListsOk(s', v) && Waiting(s, v) == [n] + Waiting(s', v) && n !in Waiting(s', v)
  {
    var s' := ScheduleStep(s, f, [n] + list);
    assert ([n] + list)[1..] == list;
    assert ([n] + list) + v.grabbed + v.stack == [n] + (list + v.grabbed + v.stack);
    var all := s.scheduled + Waiting(s, v);
    assert s'.scheduled + Waiting(s', v) == all;
    assert all[|s.scheduled|] == n;
    assert forall i | 0 <= i < |Waiting(s', v)| :: Waiting(s', v)[i] == all[|s.scheduled| + 1 + i];
  }

  lemma ScheduleKeepsInv(s: State, v: View, f: Fid)
    requires Inv(s, v) && f in s.pc && s.pc[f].Scheduling? && s.pc[f].list != []
    ensures Inv(ScheduleStep(s, f, s.pc[f].list), v)
  {
    var n, list := s.pc[f].list[0], s.pc[f].list[1..];
    var s' := ScheduleStep(s, f, s.pc[f].list);
    Known(s, v, f);
    assert s.pc[f].list == [n] + list;
    assert Waiting(s, v)[0] == n;
    Known(s, v, n);
    ScheduleLists(s, v, f, n, list);
    CountMoves(s, n, Woken);
    CountMoves(At(s, n, Woken), f, Scheduling(list));
    hide Inv, ListsOk;
    Concludes(s, v, s', v, {f, n});
  }

  // ---- all steps ----

  lemma GoKeepsInv(s: State, v: View, f: Fid) returns (v': View)
    requires Inv(s, v) && f in s.pc
    ensures Inv(GoStep(s, f), v')
  {
    v' := v;
    if Touches(s.pc[f]) && !s.alive {
      FaultKeepsInv(s, v);
      return;
    }
    Known(s, v, f);
    hide Inv, Whole, ListsOk, CountOk;
    match s.pc[f]
    case Reading => if s.word == Signaled { ReturnKeepsInv(s, v, f); } else { GoOnKeepsInv(s, v, f, Loading); }
    case Loading => if s.word == Signaled { ReturnKeepsInv(s, v, f); } else { GoOnKeepsInv(s, v, f, Pushing(s.word)); }
    case Pushing(expected) =>
      if s.word == expected { v' := PushKeepsInv(s, v, f); }
      else { PushFailsKeepsInv(s, v, f, if expected.WaitNode? then expected.node else NULL); }
    case Woken => ReturnKeepsInv(s, v, f);
    case Decrementing => DecrementKeepsInv(s, v, f);
    case Firing => FireKeepsInv(s, v, f);
    case Exchanging => v' := ExchangeKeepsInv(s, v, f);
    case Building(_, _) => v' := BuildKeepsInv(s, v, f);
    case Scheduling(list) => if list == [] { v' := DoneFiringKeepsInv(s, v, f); } else { ScheduleKeepsInv(s, v, f); }
    case _ =>
  }

  lemma StepKeepsInv(s: State, v: View, e: Event) returns (v': View)
    requires Inv(s, v)
    ensures Inv(Step(s, e), v')
  {
    v' := v;
    if s.fault { return; }
    match e
    case Add(count) => AddKeepsInv(s, v, count);
    case Done(f) => if f in s.pc && s.pc[f] == Idle && s.alive && s.owed > 0 { DoneKeepsInv(s, v, f); }
    case Wait(f) => if f in s.pc && f != NULL && s.pc[f] == Idle && s.alive { WaitKeepsInv(s, v, f); }
    case Destroy => DestroyKeepsInv(s, v);
    case Go(f) => if f in s.pc { v' := GoKeepsInv(s, v, f); }
  }
}
