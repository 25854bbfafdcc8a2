/** The semaphore's invariant is kept by every step. */
module CondVarSteps {
  import opened Wrappers
  import opened Collections
  import opened CondVarModel
  import opened CondVarInvariant

  /** How a change of one program counter shows in the counts. */
  lemma Counts(pc: map<Fid, Pc>, f: Fid, p: Pc)
    requires f in pc
    ensures |Where(pc[f := p], HasPermit)| == |Where(pc, HasPermit)| - (if HasPermit(pc[f]) then 1 else 0) + (if HasPermit(p) then 1 else 0)
    ensures |Where(pc[f := p], IsWoken)| == |Where(pc, IsWoken)| - (if IsWoken(pc[f]) then 1 else 0) + (if IsWoken(p) then 1 else 0)
    ensures HasPermit(pc[f]) ==> |Where(pc, HasPermit)| > 0
    ensures IsWoken(pc[f]) ==> |Where(pc, IsWoken)| > 0
  {
    WhereStep(pc, HasPermit, f, p);
    WhereStep(pc, IsWoken, f, p);
  }

  function One(b: bool): nat { if b then 1 else 0 }

  /** Neither list nor epoch changes, and f is the only fiber to move. */
  ghost predicate Moves(s: State, v: View, s': State, f: Fid) {
    && f in s.pc && f in s'.pc
    && s' == s.(pc := s.pc[f := s'.pc[f]], lock := s'.lock, spin := s'.spin, permits := s'.permits, since := s'.since)
    && (s'.lock == s.lock || (s.lock in {None, Some(f)} && s'.lock in {None, Some(f)}))
    && (s'.spin == s.spin || (s.spin in {None, Some(f)} && s'.spin in {None, Some(f)}))
    && (forall g | g != f && g in s.since :: g in s'.since && s'.since[g] == s.since[g])
    && s'.permits + One(HasPermit(s'.pc[f])) == s.permits + One(HasPermit(s.pc[f]))
    && (s'.permits == 0 || s'.permits - One(IsWoken(s'.pc[f])) - Pending(s') <= s.permits - One(IsWoken(s.pc[f])) - Pending(s))
    && (s.permits <= Pending(s) ==> s'.permits <= Pending(s'))
    && (s'.permits <= s.permits || s.lock == Some(f))
    && ListOf(s'.pc[f]) == ListOf(s.pc[f])
  }

  lemma MovesWhole(s: State, v: View, s': State, init: nat, f: Fid)
    requires Whole(s, v, init) && Moves(s, v, s', f)
    ensures Whole(s', v, init)
  {
    hide SomebodyOnTime;
    Counts(s.pc, f, s'.pc[f]);
  }

  lemma NobodyElsePrepares(s: State, v: View, init: nat, f: Fid)
    requires Inv(s, v, init) && s.lock == Some(f)
    ensures forall g | g in s.pc && g != f :: !s.pc[g].Preparing?
  {
    forall g | g in s.pc && g != f
      ensures !s.pc[g].Preparing?
    {
      assert FiberOk(s, v, g);
    }
  }

  lemma MovesConfined(s: State, v: View, s': State, init: nat, f: Fid)
    requires Inv(s, v, init) && Moves(s, v, s', f)
    ensures Confined(s, v, s', v, {f})
  {
    if s.lock == Some(f) { NobodyElsePrepares(s, v, init, f); }
    hide Inv;
  }

  lemma Moved(s: State, v: View, s': State, init: nat, f: Fid)
    requires Inv(s, v, init) && f in s.pc && f in s'.pc && Moves(s, v, s', f) && FiberOk(s', v, f)
    ensures Inv(s', v, init)
  {
    hide Moves, Inv, FiberOk, Whole, Confined;
    Known(s, v, init, f);
    MovesWhole(s, v, s', init, f);
    MovesConfined(s, v, s', init, f);
    Concludes(s, v, s', v, init, {f});
  }

  // ---- the locks ----

  lemma LockKeepsInv(s: State, v: View, init: nat, f: Fid, p: Pc)
    requires Inv(s, v, init) && f in s.pc
    requires (s.pc[f].Locking? && p == Checking(s.pc[f].woken)) || (s.pc[f].Entering? && p == Adding)
    ensures Inv(LockStep(s, f, p), v, init)
  {
    hide Inv, Whole;
    Known(s, v, init, f);
    if s.lock == None { Moved(s, v, LockStep(s, f, p), init, f); }
  }

  lemma UnlockKeepsInv(s: State, v: View, init: nat, f: Fid, p: Pc)
    requires Inv(s, v, init) && f in s.pc
    requires (s.pc[f].Unlocking? && p == Spinning(s.pc[f].key))
      || (s.pc[f].Leaving? && p == if s.pc[f].acquired then Holding else Idle)
    ensures Inv(At(s.(lock := None), f, p), v, init)
  {
    hide Inv, Whole;
    Known(s, v, init, f);
    Moved(s, v, At(s.(lock := None), f, p), init, f);
  }

  lemma SpinKeepsInv(s: State, v: View, init: nat, f: Fid, p: Pc)
    requires Inv(s, v, init) && f in s.pc
    requires (s.pc[f].Spinning? && p == Comparing(s.pc[f].key)) || (s.pc[f].WakeSpinning? && p == Bumping(s.pc[f].waker))
    ensures Inv(SpinStep(s, f, p), v, init)
  {
    hide Inv, Whole;
    Known(s, v, init, f);
    if s.spin == None { Moved(s, v, SpinStep(s, f, p), init, f); }
  }

  lemma UnspinKeepsInv(s: State, v: View, init: nat, f: Fid, p: Pc)
    requires Inv(s, v, init) && f in s.pc
    requires (s.pc[f].Backing? && p == Locking(false)) || (s.pc[f].Handing? && p == Parked)
      || (s.pc[f].Dropping? && p == Waking(s.pc[f].waker, s.pc[f].list))
    ensures Inv(At(s.(spin := None), f, p), v, init)
  {
    hide Inv, Whole;
    Known(s, v, init, f);
    Moved(s, v, At(s.(spin := None), f, p), init, f);
  }

  // ---- the permits ----

  lemma CheckKeepsInv(s: State, v: View, init: nat, f: Fid)
    requires Inv(s, v, init) && f in s.pc && s.pc[f].Checking?
    ensures Inv(CheckStep(s, f), v, init)
  {
    hide Inv, Whole;
    Known(s, v, init, f);
    Moved(s, v, CheckStep(s, f), init, f);
  }

  lemma PrepareKeepsInv(s: State, v: View, init: nat, f: Fid)
    requires Inv(s, v, init) && f in s.pc && s.pc[f].Preparing?
    ensures Inv(PrepareStep(s, f), v, init)
  {
    hide Inv;
    Known(s, v, init, f);
    Moved(s, v, PrepareStep(s, f), init, f);
  }

  lemma AddKeepsInv(s: State, v: View, init: nat, f: Fid)
    requires Inv(s, v, init) && f in s.pc && s.pc[f].Adding?
    ensures Inv(At(s.(permits := s.permits + 1), f, WakeSpinning(Releaser)), v, init)
  {
    hide Inv, Whole;
    Known(s, v, init, f);
    Moved(s, v, At(s.(permits := s.permits + 1), f, WakeSpinning(Releaser)), init, f);
  }

  lemma StartKeepsInv(s: State, v: View, init: nat, f: Fid, p: Pc)
    requires Inv(s, v, init) && f in s.pc
    requires (s.pc[f].Idle? && (p == Locking(false) || (p.WakeSpinning? && p.waker.Outsider?))) || (s.pc[f].Holding? && p == Entering)
    ensures Inv(At(s, f, p), v, init)
  {
    hide Inv, Whole;
    Known(s, v, init, f);
    Moved(s, v, At(s, f, p), init, f);
  }

  // ---- parking and waking ----

  lemma ParkWhole(s: State, v: View, init: nat, f: Fid)
    requires Whole(s, v, init) && f in s.pc && FiberOk(s, v, f) && s.pc[f].Comparing? && s.epoch == s.pc[f].key
    ensures Whole(CompareStep(s, f, s.pc[f].key), v, init)
  {
    hide NobodyForgotten, SomebodyOnTime, Where;
    Counts(s.pc, f, Handing);
    ParkForgetsNobody(s, v, f);
  }

  /** Whoever parks on time has seen the permits as they are now. */
  lemma ParkForgetsNobody(s: State, v: View, f: Fid)
    requires f in s.pc && FiberOk(s, v, f) && s.pc[f].Comparing? && s.epoch == s.pc[f].key && NobodyForgotten(s, v)
    ensures NobodyForgotten(CompareStep(s, f, s.pc[f].key), v)
  {
    var s' := CompareStep(s, f, s.pc[f].key);
    Counts(s.pc, f, Handing);
    hide Where;
    assert Pending(s') == Pending(s);
    if g :| g in s'.waiters && g !in s'.late {
      assert g == f || SomebodyOnTime(s.waiters, s.late);
    }
  }

  lemma ParkConfined(s: State, v: View, f: Fid)
    requires f in s.pc && FiberOk(s, v, f) && s.pc[f].Comparing? && s.epoch == s.pc[f].key
    ensures Confined(s, v, CompareStep(s, f, s.pc[f].key), v, {f})
  {
    var s' := CompareStep(s, f, s.pc[f].key);
    assert s.lock != Some(f) && s.lock == s'.lock && Pending(s') == Pending(s);
  }

  lemma ParkFiber(s: State, v: View, init: nat, f: Fid)
    requires Whole(s, v, init) && f in s.pc && FiberOk(s, v, f) && s.pc[f].Comparing? && s.epoch == s.pc[f].key
    ensures FiberOk(CompareStep(s, f, s.pc[f].key), v, f)
  {
  }

  lemma ParkKeepsInv(s: State, v: View, init: nat, f: Fid)
    requires Inv(s, v, init) && f in s.pc && s.pc[f].Comparing? && s.epoch == s.pc[f].key
    ensures Inv(CompareStep(s, f, s.pc[f].key), v, init)
  {
    var s' := CompareStep(s, f, s.pc[f].key);
    hide Inv;
    Known(s, v, init, f);
    ParkWhole(s, v, init, f);
    ParkFiber(s, v, init, f);
    ParkConfined(s, v, f);
    hide Whole, FiberOk, Confined;
    Concludes(s, v, s', v, init, {f});
  }

  lemma CompareKeepsInv(s: State, v: View, init: nat, f: Fid)
    requires Inv(s, v, init) && f in s.pc && s.pc[f].Comparing?
    ensures Inv(CompareStep(s, f, s.pc[f].key), v, init)
  {
    if s.epoch == s.pc[f].key {
      ParkKeepsInv(s, v, init, f);
    } else {
      hide Inv, Whole;
      Known(s, v, init, f);
      Moved(s, v, CompareStep(s, f, s.pc[f].key), init, f);
    }
  }

  lemma EpochAfter(wakes: nat)
    ensures (wakes % SIZE_T + 1) % SIZE_T == (wakes + 1) % SIZE_T
  {
  }

  /** A notification that takes one waiter makes up for the permit it announces. */
  lemma BumpForgetsNobody(s: State, v: View, v': View, f: Fid)
    requires f in s.pc && s.pc[f].Bumping? && NobodyForgotten(s, v)
    requires s.lock == Some(f) <==> s.pc[f].waker == Releaser
    requires TakesAll(s.pc[f].waker) || s.waiters == [] || |v'| == |v| + 1
    requires Distinct(s.waiters)
    ensures NobodyForgotten(BumpStep(s, f, s.pc[f].waker), v')
  {
    var s' := BumpStep(s, f, s.pc[f].waker);
    Counts(s.pc, f, s'.pc[f]);
    hide Where;
    if f :| f in s'.waiters && f !in s'.late {
      assert SomebodyOnTime(s.waiters, s.late);
      assert |v'| == |v| + 1 && Pending(s) <= Pending(s') + 1;
    }
  }

  /** The increment of the epoch, with the waiters it takes from the list. */
  lemma BumpWhole(s: State, v: View, v': View, init: nat, f: Fid)
    requires Whole(s, v, init) && f in s.pc && s.pc[f].Bumping?
    requires s.lock == Some(f) <==> s.pc[f].waker == Releaser
    requires TakesAll(s.pc[f].waker) || s.waiters == [] || |v'| == |v| + 1
    requires forall g | g in v' :: g in s.pc
    ensures Whole(BumpStep(s, f, s.pc[f].waker), v', init)
  {
    hide NobodyForgotten, Where, Distinct, Pending;
    var s' := BumpStep(s, f, s.pc[f].waker);
    Counts(s.pc, f, s'.pc[f]);
    EpochAfter(s.wakes);
    BumpForgetsNobody(s, v, v', f);
    BumpedWaiters(s, f);
  }

  lemma BumpedWaiters(s: State, f: Fid)
    requires f in s.pc && s.pc[f].Bumping? && Distinct(s.waiters) && forall g | g in s.late :: g in s.waiters
    ensures var s' := BumpStep(s, f, s.pc[f].waker);
      && Distinct(s'.waiters)
      && (forall g | g in s'.waiters :: g in s.waiters)
      && (forall g | g in s'.late :: g in s'.waiters)
      && (s'.late != {} ==> s.late != {})
  {
    var s' := BumpStep(s, f, s.pc[f].waker);
    if g :| g in s'.late { assert g in s.late; }
  }

  lemma BumpNoneKeepsInv(s: State, v: View, init: nat, f: Fid)
    requires Inv(s, v, init) && f in s.pc && s.pc[f].Bumping? && !TakesAll(s.pc[f].waker) && s.waiters == []
    ensures Inv(BumpStep(s, f, s.pc[f].waker), v, init)
  {
    hide Inv;
    Known(s, v, init, f);
    BumpWhole(s, v, v, init, f);
    BumpNoneConfined(s, v, f);
    hide Whole, Where, Confined;
    Concludes(s, v, BumpStep(s, f, s.pc[f].waker), v, init, {f});
  }

  lemma BumpNoneConfined(s: State, v: View, f: Fid)
    requires f in s.pc && s.pc[f].Bumping? && !TakesAll(s.pc[f].waker) && s.waiters == [] && s.late == {}
    requires s.lock == Some(f) <==> s.pc[f].waker == Releaser
    ensures Confined(s, v, BumpStep(s, f, s.pc[f].waker), v, {f})
  {
  }

  lemma BumpOneFibers(s: State, v: View, init: nat, f: Fid)
    requires Whole(s, v, init) && f in s.pc && s.pc[f].Bumping? && !TakesAll(s.pc[f].waker) && s.waiters != []
    requires s.waiters[0] in s.pc && FiberOk(s, v, f) && FiberOk(s, v, s.waiters[0])
    ensures var s', v' := BumpStep(s, f, s.pc[f].waker), v[s.waiters[0] := f];
      FiberOk(s', v', f) && FiberOk(s', v', s.waiters[0])
  {
    var n := s.waiters[0];
    assert s.waiters == [n] + s.waiters[1..];
  }

  lemma OneMoreTaken(s: State, v: View, init: nat, f: Fid, n: Fid)
    requires Whole(s, v, init) && n in s.pc && n !in v
    ensures |v[n := f]| == |v| + 1 && forall g | g in v[n := f] :: g in s.pc
  {
    assert v[n := f].Keys == v.Keys + {n};
    hide NobodyForgotten, Where, Distinct;
  }

  lemma BumpOneKeepsInv(s: State, v: View, init: nat, f: Fid) returns (v': View)
    requires Inv(s, v, init) && f in s.pc && s.pc[f].Bumping? && !TakesAll(s.pc[f].waker) && s.waiters != []
    ensures Inv(BumpStep(s, f, s.pc[f].waker), v', init)
  {
    hide Inv, FiberOk, Whole, Confined, BumpStep;
    Known(s, v, init, f);
    var n := s.waiters[0];
    WaiterIsNotTaken(s, v, init, f, n);
    Known(s, v, init, n);
    v' := v[n := f];
    OneMoreTaken(s, v, init, f, n);
    BumpWhole(s, v, v', init, f);
    BumpOneFibers(s, v, init, f);
    BumpOneConfined(s, v, f);
    Concludes(s, v, BumpStep(s, f, s.pc[f].waker), v', init, {f, n});
  }

  lemma BumpOneConfined(s: State, v: View, f: Fid)
    requires f in s.pc && s.pc[f].Bumping? && !TakesAll(s.pc[f].waker) && s.waiters != []
    requires s.waiters[0] in s.pc && s.waiters[0] !in v && s.spin == Some(f)
    requires s.lock == Some(f) <==> s.pc[f].waker == Releaser
    ensures Confined(s, v, BumpStep(s, f, s.pc[f].waker), v[s.waiters[0] := f], {f, s.waiters[0]})
  {
    assert s.waiters == [s.waiters[0]] + s.waiters[1..];
  }

  lemma WaiterIsNotTaken(s: State, v: View, init: nat, f: Fid, n: Fid)
    requires Inv(s, v, init) && n in s.waiters && f in s.pc && s.pc[f].Bumping?
    ensures n in s.pc && n != f && n !in v && f !in v && s.spin == Some(f) && f !in s.waiters
    ensures s.lock == Some(f) <==> s.pc[f].waker == Releaser
  {
    assert FiberOk(s, v, f) && FiberOk(s, v, n);
  }

  function Taken(v: View, waiters: seq<Fid>, f: Fid): View { v + map n | n in waiters :: f }

  lemma BumpAllConfined(s: State, v: View, f: Fid)
    requires f in s.pc && s.pc[f].Bumping? && TakesAll(s.pc[f].waker) && s.spin == Some(f) && s.lock != Some(f)
    requires forall n | n in s.waiters :: n in s.pc && n !in v
    requires forall n | n in s.late :: n in s.waiters
    requires s.lock.Some? ==> s.lock.value in s.pc
    ensures var fs := {f} + set n | n in s.waiters;
      Confined(s, v, BumpStep(s, f, s.pc[f].waker), Taken(v, s.waiters, f), fs)
  {
  }

  lemma BumpAllFiber(s: State, v: View, f: Fid, n: Fid)
    requires f in s.pc && s.pc[f].Bumping? && TakesAll(s.pc[f].waker) && Distinct(s.waiters)
    requires FiberOk(s, v, f) && n in s.pc && FiberOk(s, v, n) && (n in s.waiters || n == f)
    ensures FiberOk(BumpStep(s, f, s.pc[f].waker), Taken(v, s.waiters, f), n)
  {
  }

  lemma BumpAllOne(s: State, v: View, init: nat, f: Fid, n: Fid)
    requires Inv(s, v, init) && f in s.pc && s.pc[f].Bumping? && TakesAll(s.pc[f].waker)
    requires n in s.waiters || n == f
    ensures n in s.pc && FiberOk(BumpStep(s, f, s.pc[f].waker), Taken(v, s.waiters, f), n) && (n != f ==> n !in v)
  {
    Known(s, v, init, f);
    Known(s, v, init, n);
    hide Inv, FiberOk, BumpStep;
    BumpAllFiber(s, v, f, n);
    if n != f { WaiterIsNotTaken(s, v, init, f, n); }
  }

  lemma BumpAllFibers(s: State, v: View, init: nat, f: Fid)
    requires Inv(s, v, init) && f in s.pc && s.pc[f].Bumping? && TakesAll(s.pc[f].waker)
    ensures forall n | n in s.waiters || n == f ::
      n in s.pc && FiberOk(BumpStep(s, f, s.pc[f].waker), Taken(v, s.waiters, f), n) && (n != f ==> n !in v)
  {
    hide Inv, FiberOk, Whole, Taken, Distinct, Where;
    forall n | n in s.waiters || n == f
      ensures n in s.pc && FiberOk(BumpStep(s, f, s.pc[f].waker), Taken(v, s.waiters, f), n) && (n != f ==> n !in v)
    {
      BumpAllOne(s, v, init, f, n);
    }
  }

  lemma BumpAllKeepsInv(s: State, v: View, init: nat, f: Fid) returns (v': View)
    requires Inv(s, v, init) && f in s.pc && s.pc[f].Bumping? && TakesAll(s.pc[f].waker)
    ensures Inv(BumpStep(s, f, s.pc[f].waker), v', init)
  {
    hide Inv, FiberOk, BumpStep, Where, NobodyForgotten, Distinct;
    v' := Taken(v, s.waiters, f);
    Known(s, v, init, f);
    BumpAllFibers(s, v, init, f);
    Bumper(s, v, init, f);
    BumpWhole(s, v, v', init, f);
    BumpAllConfined(s, v, f);
    hide Whole, Confined;
    Concludes(s, v, BumpStep(s, f, s.pc[f].waker), v', init, {f} + set n | n in s.waiters);
  }

  lemma Bumper(s: State, v: View, init: nat, f: Fid)
    requires Inv(s, v, init) && f in s.pc && s.pc[f].Bumping?
    ensures s.spin == Some(f) && f !in v && f !in s.waiters
    ensures s.lock == Some(f) <==> s.pc[f].waker == Releaser
  {
    assert FiberOk(s, v, f);
  }

  /** The waker is done with its list. */
  lemma WokenUpKeepsInv(s: State, v: View, init: nat, f: Fid)
    requires Inv(s, v, init) && f in s.pc && s.pc[f].Waking? && s.pc[f].list == []
    ensures Inv(WakeStep(s, f, s.pc[f].waker, []), v, init)
  {
    hide Inv, Whole;
    Known(s, v, init, f);
    Moved(s, v, WakeStep(s, f, s.pc[f].waker, []), init, f);
  }

  lemma WakeWhole(s: State, v: View, init: nat, f: Fid, n: Fid)
    requires Whole(s, v, init) && f in s.pc && n in s.pc && s.pc[f].Waking? && s.pc[f].list != [] && s.pc[f].list[0] == n
    requires s.pc[n].Parked? && n in v
    ensures Whole(WakeStep(s, f, s.pc[f].waker, s.pc[f].list), v - {n}, init)
  {
    hide SomebodyOnTime, Where, Distinct;
    var s' := WakeStep(s, f, s.pc[f].waker, s.pc[f].list);
    var pc1 := s.pc[n := Locking(true)];
    Counts(s.pc, n, Locking(true));
    Counts(pc1, f, s'.pc[f]);
    assert s'.pc == pc1[f := s'.pc[f]];
    assert (v - {n}).Keys == v.Keys - {n};
  }

  lemma WakeFibers(s: State, v: View, f: Fid, n: Fid)
    requires f in s.pc && n in s.pc && s.pc[f].Waking? && s.pc[f].list != [] && s.pc[f].list[0] == n
    requires FiberOk(s, v, f) && FiberOk(s, v, n)
    ensures var s' := WakeStep(s, f, s.pc[f].waker, s.pc[f].list);
      s.pc[n].Parked? && n in v && v[n] == f && FiberOk(s', v - {n}, f) && FiberOk(s', v - {n}, n)
  {
    var list := s.pc[f].list;
    assert list == [n] + list[1..];
  }

  lemma WakeConfined(s: State, v: View, f: Fid, n: Fid)
    requires f in s.pc && n in s.pc && s.pc[f].Waking? && s.pc[f].list != [] && s.pc[f].list[0] == n
    requires s.pc[n].Parked? && n in v && v[n] == f && s.lock != Some(n)
    ensures Confined(s, v, WakeStep(s, f, s.pc[f].waker, s.pc[f].list), v - {n}, {f, n})
  {
    var list := s.pc[f].list;
    assert list == [n] + list[1..];
  }

  lemma WakeOneKeepsInv(s: State, v: View, init: nat, f: Fid) returns (v': View)
    requires Inv(s, v, init) && f in s.pc && s.pc[f].Waking? && s.pc[f].list != []
    ensures Inv(WakeStep(s, f, s.pc[f].waker, s.pc[f].list), v', init)
  {
    hide Inv, FiberOk, WakeStep;
    var n := s.pc[f].list[0];
    ListedIsParked(s, v, init, f, n);
    Known(s, v, init, f);
    Known(s, v, init, n);
    v' := v - {n};
    WakeFibers(s, v, f, n);
    WakeWhole(s, v, init, f, n);
    WakeConfined(s, v, f, n);
    hide Whole, Confined;
    Concludes(s, v, WakeStep(s, f, s.pc[f].waker, s.pc[f].list), v', init, {f, n});
  }

  lemma ListedIsParked(s: State, v: View, init: nat, f: Fid, n: Fid)
    requires Inv(s, v, init) && f in s.pc && n in ListOf(s.pc[f])
    ensures n in s.pc && s.lock != Some(n)
  {
    assert FiberOk(s, v, f);
    assert n in v && n in s.pc;
    assert FiberOk(s, v, n);
  }

  // ---- all steps ----

  lemma GoKeepsInv(s: State, v: View, init: nat, f: Fid) returns (v': View)
    requires Inv(s, v, init) && f in s.pc
    ensures Inv(GoStep(s, f), v', init)
  {
    hide Inv, CheckStep, CompareStep, BumpStep, WakeStep, LockStep, SpinStep, PrepareStep;
    v' := v;
    match s.pc[f]
    case Locking(woken) => LockKeepsInv(s, v, init, f, Checking(woken));
    case Checking(_) => CheckKeepsInv(s, v, init, f);
    case Preparing => PrepareKeepsInv(s, v, init, f);
    case Unlocking(key) => UnlockKeepsInv(s, v, init, f, Spinning(key));
    case Spinning(key) => SpinKeepsInv(s, v, init, f, Comparing(key));
    case Comparing(key) => CompareKeepsInv(s, v, init, f);
    case Backing => UnspinKeepsInv(s, v, init, f, Locking(false));
    case Handing => UnspinKeepsInv(s, v, init, f, Parked);
    case Leaving(acquired) => UnlockKeepsInv(s, v, init, f, if acquired then Holding else Idle);
    case Entering => LockKeepsInv(s, v, init, f, Adding);
    case Adding => AddKeepsInv(s, v, init, f);
    case WakeSpinning(waker) => SpinKeepsInv(s, v, init, f, Bumping(waker));
    case Bumping(waker) =>
      if TakesAll(waker) {
        v' := BumpAllKeepsInv(s, v, init, f);
      } else if s.waiters == [] {
        BumpNoneKeepsInv(s, v, init, f);
      } else {
        v' := BumpOneKeepsInv(s, v, init, f);
      }
    case Dropping(waker, list) => UnspinKeepsInv(s, v, init, f, Waking(waker, list));
    case Waking(waker, list) =>
      if list == [] { WokenUpKeepsInv(s, v, init, f); } else { v' := WakeOneKeepsInv(s, v, init, f); }
    case _ =>
  }

  lemma StepKeepsInv(s: State, v: View, init: nat, e: Event) returns (v': View)
    requires Inv(s, v, init)
    ensures Inv(Step(s, e), v', init)
  {
    v' := v;
    if e.f in s.pc && !s.fault {
      hide Inv;
      match e
      case Acquire(f) => if s.pc[f] == Idle { StartKeepsInv(s, v, init, f, Locking(false)); }
      case Release(f) => if s.pc[f] == Holding { StartKeepsInv(s, v, init, f, Entering); }
      case Notify(f, all) => if s.pc[f] == Idle { StartKeepsInv(s, v, init, f, WakeSpinning(Outsider(all))); }
      case Go(f) => v' := GoKeepsInv(s, v, init, f);
    }
  }
}
