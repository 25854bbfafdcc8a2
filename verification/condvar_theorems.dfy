/** What holds of every run of the semaphore. */
module CondVarTheorems {
  import opened Wrappers
  import opened Collections
  import opened CondVarModel
  import opened CondVarInvariant
  import opened CondVarSteps

  lemma InitInv(init: nat, fibers: set<Fid>)
    ensures Inv(Init(init, fibers), map[], init)
  {
    var pc := Init(init, fibers).pc;
    assert Where(pc, HasPermit) == {} && Where(pc, IsWoken) == {};
  }

  lemma {:induction false} RunKeepsInv(init: nat, fibers: set<Fid>, es: seq<Event>) returns (v: View)
    ensures Inv(Run(Init(init, fibers), es), v, init)
  {
    if es == [] {
      v := map[];
      InitInv(init, fibers);
    } else {
      v := RunKeepsInv(init, fibers, es[..|es| - 1]);
      v := StepKeepsInv(Run(Init(init, fibers), es[..|es| - 1]), v, init, es[|es| - 1]);
    }
  }

  /**
    The semaphore never hands out more permits than it has: those free and those
    held always make up the initial number. One fiber at a time is inside the
    monitor, one in the list of waiters, and every Resume finds its fiber suspended.
   */
  lemma PermitsConserved(init: nat, fibers: set<Fid>, es: seq<Event>)
    ensures var s := Run(Init(init, fibers), es);
      && s.permits + |Where(s.pc, HasPermit)| == init
      && (forall f, g | f in s.pc && g in s.pc && Critical(s.pc[f]) && Critical(s.pc[g]) :: f == g)
      && (forall f, g | f in s.pc && g in s.pc && HasSpinlock(s.pc[f]) && HasSpinlock(s.pc[g]) :: f == g)
      && !s.fault
  {
    var s := Run(Init(init, fibers), es);
    var v := RunKeepsInv(init, fibers, es);
    forall f | f in s.pc
      ensures Critical(s.pc[f]) ==> s.lock == Some(f)
      ensures HasSpinlock(s.pc[f]) ==> s.spin == Some(f)
    {
      Known(s, v, init, f);
    }
  }

  /** Taken off the list of waiters by a notification, and yet to look at the permits again. */
  predicate IsUnderway(s: State, f: Fid) {
    f in s.pc && (IsWoken(s.pc[f]) || (s.pc[f].Parked? && f !in s.waiters))
  }

  function AllUnderway(s: State): set<Fid> { set f | f in s.pc && IsUnderway(s, f) }

  lemma UnderwayCount(s: State, v: View, init: nat)
    requires Inv(s, v, init)
    ensures |AllUnderway(s)| == Underway(s, v)
  {
    forall f | f in s.pc
      ensures f in v <==> s.pc[f].Parked? && f !in s.waiters
    {
      Known(s, v, init, f);
    }
    assert AllUnderway(s) == v.Keys + Where(s.pc, IsWoken);
    assert v.Keys !! Where(s.pc, IsWoken);
  }

  /**
    No lost wake-up: while somebody is on the list of waiters who parked on time, there
    are no more free permits than fibers notified and underway to them, or one more if
    a releaser has added its permit and is about to notify. Nobody is late before the
    epoch has gone once round.
   */
  lemma NoLostWakeUp(init: nat, fibers: set<Fid>, es: seq<Event>)
    ensures var s := Run(Init(init, fibers), es);
      && (SomebodyOnTime(s.waiters, s.late) ==> s.permits <= |AllUnderway(s)| + Pending(s))
      && (s.late != {} ==> s.wakes >= SIZE_T)
      && (forall f | f in s.late :: f in s.waiters)
  {
    var v := RunKeepsInv(init, fibers, es);
    UnderwayCount(Run(Init(init, fibers), es), v, init);
  }

  lemma TakerIsBusy(s: State, v: View, init: nat, f: Fid)
    requires Inv(s, v, init) && f in v
    ensures v[f] in s.pc && (s.pc[v[f]].Dropping? || s.pc[v[f]].Waking?)
  {
    Known(s, v, init, f);
  }

  predicate AtRest(s: State) { forall f | f in s.pc :: s.pc[f].Idle? || s.pc[f].Holding? || s.pc[f].Parked? }

  /** When nobody can move, a fiber that parked on time is parked only because all permits are held, by others. */
  lemma RestMeansNoPermits(init: nat, fibers: set<Fid>, es: seq<Event>)
    requires AtRest(Run(Init(init, fibers), es))
    ensures var s := Run(Init(init, fibers), es);
      (exists f :: f in s.pc && s.pc[f].Parked? && f !in s.late) ==> s.permits == 0 && |Where(s.pc, HasPermit)| == init
  {
    var s := Run(Init(init, fibers), es);
    var v := RunKeepsInv(init, fibers, es);
    forall f
      ensures f !in v
    {
      if f in v { TakerIsBusy(s, v, init, f); }
    }
    assert v.Keys == {} && |v| == |v.Keys|;
    assert Where(s.pc, IsWoken) == {};
    if f :| f in s.pc && s.pc[f].Parked? && f !in s.late { Known(s, v, init, f); }
  }

  /**
    NotifyAll leaves nobody parked who had prepared to wait before it: whoever is on
    the list and parked on time prepared after the last WakeAll moved the epoch.
   */
  lemma NotifyAllReachesAll(init: nat, fibers: set<Fid>, es: seq<Event>)
    ensures var s := Run(Init(init, fibers), es);
      forall f | f in s.waiters && f !in s.late :: f in s.since && s.lastAll <= s.since[f] <= s.wakes
  {
    var s := Run(Init(init, fibers), es);
    var v := RunKeepsInv(init, fibers, es);
    var _ := SinceInPast(init, fibers, es);
    forall f | f in s.waiters && f !in s.late
      ensures f in s.since && s.lastAll <= s.since[f]
    {
      Known(s, v, init, f);
    }
  }

  lemma {:induction false} SinceInPast(init: nat, fibers: set<Fid>, es: seq<Event>) returns (s: State)
    ensures s == Run(Init(init, fibers), es)
    ensures forall f | f in s.since :: s.since[f] <= s.wakes
  {
    s := Init(init, fibers);
    if es != [] {
      var s0 := SinceInPast(init, fibers, es[..|es| - 1]);
      s := Step(s0, es[|es| - 1]);
      SinceAndWakes(s0, es[|es| - 1]);
    }
  }

  lemma SinceAndWakes(s: State, e: Event)
    ensures s.wakes <= Step(s, e).wakes
    ensures Step(s, e).since == s.since || Step(s, e).since == s.since[e.f := s.wakes]
  {
    hide LockStep, SpinStep, CheckStep, CompareStep, WakeStep, BumpStep;
    if e.f in s.pc { SinceInParts(s, e.f); }
  }

  lemma SinceInParts(s: State, f: Fid)
    ensures forall p :: LockStep(s, f, p).since == SpinStep(s, f, p).since == s.since && LockStep(s, f, p).wakes == SpinStep(s, f, p).wakes == s.wakes
    ensures CheckStep(s, f).since == s.since && CheckStep(s, f).wakes == s.wakes
    ensures forall key :: CompareStep(s, f, key).since == s.since && CompareStep(s, f, key).wakes == s.wakes
    ensures forall waker :: BumpStep(s, f, waker).since == s.since && BumpStep(s, f, waker).wakes == s.wakes + 1
    ensures forall waker, list :: WakeStep(s, f, waker, list).since == s.since && WakeStep(s, f, waker, list).wakes == s.wakes
  {
  }

  // ---- the epoch's one weakness ----

  /**
    Exactly when ParkIfEqual takes an old epoch for the current one: when the number
    of notifications since PrepareWait is a positive multiple of 2^64.
   */
  lemma TakenForCurrent(s: State, v: View, init: nat, f: Fid)
    requires Inv(s, v, init) && f in s.pc && s.pc[f].Comparing?
    ensures f in s.since && s.since[f] <= s.wakes
    ensures CompareStep(s, f, s.pc[f].key).pc[f].Handing? && s.since[f] != s.wakes
      <==> s.wakes - s.since[f] > 0 && (s.wakes - s.since[f]) % SIZE_T == 0
  {
    Known(s, v, init, f);
    SameRest(s.wakes, s.since[f]);
  }

  lemma SameRest(a: nat, b: nat)
    requires b <= a
    ensures a % SIZE_T == b % SIZE_T <==> (a - b) % SIZE_T == 0
  {
  }

  ghost predicate Reaches(s0: State, s: State) { exists es :: Run(s0, es) == s }

  lemma Then(s0: State, s: State, e: Event)
    requires Reaches(s0, s)
    ensures Reaches(s0, Step(s, e))
  {
    var es :| Run(s0, es) == s;
    assert (es + [e])[..|es + [e]| - 1] == es;
    assert Run(s0, es + [e]) == Step(s, e);
  }

  lemma Here(s: State)
    ensures Reaches(s, s)
  {
    assert Run(s, []) == s;
  }

  /** Fiber 1 has prepared at epoch 0 and not parked yet; there have been n notifications, the last to all at m. */
  function AfterNotifies(permits: nat, n: nat, m: nat): State {
    State(permits, None, None, n % SIZE_T, [], map[1 := Spinning(0), 2 := Idle], n, map[1 := 0], m, {}, false)
  }

  /** Fiber 1 has looked at the permits and found none. */
  function FoundNone(init: nat, p2: Pc): State {
    Init(init, {1, 2}).(permits := 0, lock := Some(1), pc := map[1 := Preparing, 2 := p2])
  }

  /** From a state in which fiber 1 is idle, there is no permit and nobody is in the monitor. */
  lemma Checked(s0: State, init: nat, p2: Pc)
    requires Reaches(s0, Init(init, {1, 2}).(permits := 0, pc := map[1 := Idle, 2 := p2]))
    ensures Reaches(s0, FoundNone(init, p2))
  {
    hide Reaches;
    var s := Init(init, {1, 2}).(permits := 0, pc := map[1 := Idle, 2 := p2]);
    Then(s0, s, Acquire(1)); s := Step(s, Acquire(1));
    Then(s0, s, Go(1)); s := Step(s, Go(1));
    Then(s0, s, Go(1)); s := Step(s, Go(1));
    assert s.pc == FoundNone(init, p2).pc;
  }

  /** Fiber 1 has the key 0, and nobody has notified. */
  function HasOldKey(init: nat, p2: Pc): State {
    Init(init, {1, 2}).(permits := 0, pc := map[1 := Spinning(0), 2 := p2], since := map[1 := 0])
  }

  lemma Prepared(s0: State, init: nat, p2: Pc)
    requires Reaches(s0, FoundNone(init, p2))
    ensures Reaches(s0, HasOldKey(init, p2))
  {
    hide Reaches;
    var s := FoundNone(init, p2);
    Then(s0, s, Go(1)); s := Step(s, Go(1));
    Then(s0, s, Go(1)); s := Step(s, Go(1));
    assert s.pc == HasOldKey(init, p2).pc && s.since == HasOldKey(init, p2).since;
  }

  /** Fiber 2 is in WakeAll, with the spinlock. */
  function Notifying(permits: nat, n: nat, m: nat): State {
    At(AfterNotifies(permits, n, m).(spin := Some(2)), 2, Bumping(Outsider(true)))
  }

  lemma CallsNotify(s0: State, permits: nat, n: nat, m: nat)
    requires Reaches(s0, AfterNotifies(permits, n, m))
    ensures Reaches(s0, Notifying(permits, n, m))
  {
    hide Reaches;
    var s := AfterNotifies(permits, n, m);
    Then(s0, s, Notify(2, true)); s := Step(s, Notify(2, true));
    Then(s0, s, Go(2)); s := Step(s, Go(2));
    assert s.pc == Notifying(permits, n, m).pc;
  }

  /** One NotifyAll by fiber 2, from its call to its return. */
  lemma OneMoreNotify(s0: State, permits: nat, n: nat, m: nat)
    requires Reaches(s0, AfterNotifies(permits, n, m))
    ensures Reaches(s0, AfterNotifies(permits, n + 1, n + 1))
  {
    hide Reaches;
    CallsNotify(s0, permits, n, m);
    var s := Notifying(permits, n, m);
    Then(s0, s, Go(2)); s := Step(s, Go(2));
    Then(s0, s, Go(2)); s := Step(s, Go(2));
    Then(s0, s, Go(2)); s := Step(s, Go(2));
    EpochAfter(n);
    assert s.pc == AfterNotifies(permits, n + 1, n + 1).pc;
  }

  lemma {:induction false} ManyNotifies(s0: State, permits: nat, k: nat, m: nat, n: nat)
    requires Reaches(s0, AfterNotifies(permits, k, m)) && k < n
    ensures Reaches(s0, AfterNotifies(permits, n, n))
    decreases n
  {
    if n == k + 1 {
      OneMoreNotify(s0, permits, k, m);
    } else {
      ManyNotifies(s0, permits, k, m, n - 1);
      OneMoreNotify(s0, permits, n - 1, n - 1);
    }
  }

  /** Fiber 1 parks on the epoch that has come round. */
  function LateParked(permits: nat): State {
    AfterNotifies(permits, SIZE_T, SIZE_T).(waiters := [1], late := {1}, pc := map[1 := Parked, 2 := Idle])
  }

  lemma ParksLate(s0: State, permits: nat)
    requires Reaches(s0, AfterNotifies(permits, SIZE_T, SIZE_T))
    ensures Reaches(s0, LateParked(permits))
  {
    hide Reaches;
    var s := AfterNotifies(permits, SIZE_T, SIZE_T);
    Then(s0, s, Go(1)); s := Step(s, Go(1));
    Then(s0, s, Go(1)); s := Step(s, Go(1));
    Then(s0, s, Go(1)); s := Step(s, Go(1));
    assert s.pc == LateParked(permits).pc && s.late == {1} && s.waiters == [1];
  }

  /** It does happen: after 2^64 NotifyAlls a fiber parks that had prepared before all of them. */
  lemma NotifyAllMissesOne()
    ensures exists es :: var s := Run(Init(0, {1, 2}), es);
      1 in s.waiters && 1 in s.late && 1 in s.since && s.since[1] < s.lastAll
  {
    var s0 := Init(0, {1, 2});
    hide Reaches;
    Here(s0);
    assert s0 == s0.(permits := 0, pc := map[1 := Idle, 2 := Idle]);
    Checked(s0, 0, Idle);
    Prepared(s0, 0, Idle);
    assert HasOldKey(0, Idle) == AfterNotifies(0, 0, 0);
    ManyNotifies(s0, 0, 0, 0, SIZE_T);
    ParksLate(s0, 0);
    Reached(s0, LateParked(0));
  }

  lemma Reached(s0: State, s: State)
    requires Reaches(s0, s)
    ensures exists es :: Run(s0, es) == s
  {
  }

  // ---- a wake-up that is lost ----

  lemma TwoAcquires(s0: State)
    requires s0 == Init(1, {1, 2})
    ensures Reaches(s0, Init(1, {1, 2}).(permits := 0, pc := map[1 := Idle, 2 := Holding]))
  {
    hide Reaches;
    Here(s0);
    var s := s0;
    Then(s0, s, Acquire(2)); s := Step(s, Acquire(2));
    Then(s0, s, Go(2)); s := Step(s, Go(2));
    Then(s0, s, Go(2)); s := Step(s, Go(2));
    Then(s0, s, Go(2)); s := Step(s, Go(2));
    assert s.pc == map[1 := Idle, 2 := Holding];
  }

  /** Fiber 2 has added its permit and is about to move the epoch. */
  function Announcing(): State {
    HasOldKey(1, Bumping(Releaser)).(permits := 1, lock := Some(2), spin := Some(2))
  }

  lemma TwoAdds(s0: State)
    requires Reaches(s0, HasOldKey(1, Holding))
    ensures Reaches(s0, Announcing())
  {
    hide Reaches;
    var s := HasOldKey(1, Holding);
    Then(s0, s, Release(2)); s := Step(s, Release(2));
    Then(s0, s, Go(2)); s := Step(s, Go(2));
    Then(s0, s, Go(2)); s := Step(s, Go(2));
    Then(s0, s, Go(2)); s := Step(s, Go(2));
    assert s.pc == Announcing().pc;
  }

  /** The epoch has moved; nobody was on the list. */
  function Announced(): State {
    AfterNotifies(1, 1, 0).(lock := Some(2), pc := map[1 := Spinning(0), 2 := Waking(Releaser, [])])
  }

  lemma TwoBumps(s0: State)
    requires Reaches(s0, Announcing())
    ensures Reaches(s0, Announced())
  {
    hide Reaches;
    var s := Announcing();
    Then(s0, s, Go(2)); s := Step(s, Go(2));
    Then(s0, s, Go(2)); s := Step(s, Go(2));
    assert s.pc == Announced().pc;
  }

  lemma TwoReturns(s0: State)
    requires Reaches(s0, Announced())
    ensures Reaches(s0, AfterNotifies(1, 1, 0))
  {
    hide Reaches;
    var s := Announced();
    Then(s0, s, Go(2)); s := Step(s, Go(2));
    Then(s0, s, Go(2)); s := Step(s, Go(2));
    assert s.pc == AfterNotifies(1, 1, 0).pc;
  }

  lemma NobodyIsComing()
    ensures var s := LateParked(1);
      && AtRest(s) && s.waiters == [1] && s.late == {1}
      && s.permits == 1 && |AllUnderway(s)| + Pending(s) == 0
  {
    assert AllUnderway(LateParked(1)) == {};
  }

  /**
    And then a wake-up can be lost: the permit is released while fiber 1 is about to
    park, 2^64 notifications go by, and it parks; nobody moves, the permit is free.
   */
  lemma WakeUpIsLost()
    ensures exists es :: var s := Run(Init(1, {1, 2}), es);
      && AtRest(s) && s.waiters == [1] && s.late == {1}
      && s.permits == 1 && |AllUnderway(s)| + Pending(s) == 0
  {
    hide AtRest, AllUnderway, Pending, LateParked;
    var s0 := Init(1, {1, 2});
    hide Reaches;
    TwoAcquires(s0);
    Checked(s0, 1, Holding);
    Prepared(s0, 1, Holding);
    TwoAdds(s0);
    TwoBumps(s0);
    TwoReturns(s0);
    ManyNotifies(s0, 1, 1, 0, SIZE_T);
    ParksLate(s0, 1);
    Reached(s0, LateParked(1));
    hide Init, Run, FoundNone, HasOldKey, AfterNotifies, Announcing, Announced;
    NobodyIsComing();
  }
}
