/** Why the semaphore loses no wake-up. */
module CondVarInvariant {
  import opened Wrappers
  import opened Collections
  import opened CondVarModel

  /** `taker` says whose list a waiter is on that has been removed and not been resumed yet. */
  type View = map<Fid, Fid>

  predicate Critical(p: Pc) {
    || p.Checking? || p.Preparing? || p.Unlocking? || p.Leaving? || p.Adding?
    || ((p.WakeSpinning? || p.Bumping? || p.Dropping? || p.Waking?) && p.waker == Releaser)
  }

  predicate HasSpinlock(p: Pc) { p.Comparing? || p.Backing? || p.Handing? || p.Bumping? || p.Dropping? }

  predicate HasPermit(p: Pc) { p.Holding? || p == Leaving(true) || p.Entering? || p.Adding? }

  /** Resumed by a notification, and yet to look at the permits again. */
  predicate IsWoken(p: Pc) { p == Locking(true) || p == Checking(true) }

  predicate HasKey(p: Pc) { p.Unlocking? || p.Spinning? || p.Comparing? }

  function ListOf(p: Pc): seq<Fid> { if p.Dropping? || p.Waking? then p.list else [] }

  /** A releaser has added its permit and not notified yet. */
  predicate IsNotifying(p: Pc) { p == WakeSpinning(Releaser) || p == Bumping(Releaser) }

  function Pending(s: State): nat {
    if s.lock.Some? && s.lock.value in s.pc && IsNotifying(s.pc[s.lock.value]) then 1 else 0
  }

  /** Removed from the list of waiters and not yet back at the permits. */
  function Underway(s: State, v: View): nat { |v| + |Where(s.pc, IsWoken)| }

  ghost predicate KeyOk(s: State, f: Fid)
    requires f in s.pc
  {
    && (HasKey(s.pc[f]) ==>
          && f in s.since && s.pc[f].key == s.since[f] % SIZE_T && s.since[f] <= s.wakes
          && (s.since[f] == s.wakes ==> s.permits <= Pending(s)))
    && (s.pc[f].Preparing? ==> s.permits == 0)
    && (f in s.waiters && f !in s.late ==> f in s.since && s.lastAll <= s.since[f])
  }

  ghost predicate FiberOk(s: State, v: View, f: Fid)
    requires f in s.pc
  {
    && (Critical(s.pc[f]) <==> s.lock == Some(f))
    && (HasSpinlock(s.pc[f]) <==> s.spin == Some(f))
    && (f in s.waiters ==> IsSuspended(s.pc[f]) && f !in v)
    && (IsSuspended(s.pc[f]) ==> f in s.waiters || f in v)
    && (s.pc[f].Handing? ==> f in s.waiters)
    && (f in v ==> s.pc[f].Parked? && v[f] in s.pc && f in ListOf(s.pc[v[f]]))
    && Distinct(ListOf(s.pc[f]))
    && (forall n | n in ListOf(s.pc[f]) :: n in v && v[n] == f)
    && KeyOk(s, f)
  }

  predicate SomebodyOnTime(waiters: seq<Fid>, late: set<Fid>) {
    exists f :: f in waiters && f !in late
  }

  /** While somebody waits who parked on time, every free permit has a woken waiter, or a notification to come, on its way. */
  predicate NobodyForgotten(s: State, v: View) {
    SomebodyOnTime(s.waiters, s.late) ==> s.permits <= Underway(s, v) + Pending(s)
  }

  ghost predicate Whole(s: State, v: View, init: nat) {
    && !s.fault
    && s.permits + |Where(s.pc, HasPermit)| == init
    && s.epoch == s.wakes % SIZE_T && s.lastAll <= s.wakes
    && Distinct(s.waiters)
    && (forall f | f in s.waiters :: f in s.pc)
    && (forall f | f in v :: f in s.pc)
    && (s.lock.Some? ==> s.lock.value in s.pc)
    && (s.spin.Some? ==> s.spin.value in s.pc)
    && (s.late != {} ==> s.wakes >= SIZE_T)
    && (forall f | f in s.late :: f in s.waiters)
    && NobodyForgotten(s, v)
  }

  ghost predicate Inv(s: State, v: View, init: nat) {
    && Whole(s, v, init)
    && forall f {:trigger FiberOk(s, v, f)} | f in s.pc :: FiberOk(s, v, f)
  }

  // ---- what an action leaves alone ----

  /** Only the fibers of `fs` change place. */
  ghost predicate Confined(s: State, v: View, s': State, v': View, fs: set<Fid>) {
    && s'.pc.Keys == s.pc.Keys
    && (forall g | g in s.pc && g !in fs :: s'.pc[g] == s.pc[g])
    && (forall g | g !in fs :: s'.lock == Some(g) <==> s.lock == Some(g))
    && (forall g | g !in fs :: s'.spin == Some(g) <==> s.spin == Some(g))
    && (forall g | g !in fs :: g in s'.waiters <==> g in s.waiters)
    && (forall g | g !in fs :: g in v' <==> g in v)
    && (forall g | g !in fs && g in v :: v'[g] == v[g])
    && (forall g | g in v && v[g] in fs && g !in fs && v[g] in s.pc && g in ListOf(s.pc[v[g]]) ::
          v[g] in s'.pc && g in ListOf(s'.pc[v[g]]))
    && (forall g | g in fs && g in v && v[g] !in fs && v[g] in s.pc && g in ListOf(s.pc[v[g]]) :: g in v' && v'[g] == v[g])
    && (forall g | g !in fs && g in s.since :: g in s'.since && s'.since[g] == s.since[g])
    && s.wakes <= s'.wakes && (forall g | g !in fs :: g in s'.late <==> g in s.late)
    && (s'.wakes == s.wakes && s.permits <= Pending(s) ==> s'.permits <= Pending(s'))
    && (forall g | g !in fs && g in s.pc && s.pc[g].Preparing? && s.permits == 0 :: s'.permits == 0)
    && (s'.lastAll == s.lastAll || s'.waiters == [])
  }

  lemma OthersKept(s: State, v: View, s': State, v': View, init: nat, fs: set<Fid>)
    requires Inv(s, v, init) && Confined(s, v, s', v', fs)
    ensures forall g | g in s'.pc && g !in fs :: FiberOk(s', v', g)
  {
    forall g | g in s'.pc && g !in fs
      ensures FiberOk(s', v', g)
    {
      assert FiberOk(s, v, g);
    }
  }

  lemma Concludes(s: State, v: View, s': State, v': View, init: nat, fs: set<Fid>)
    requires Inv(s, v, init) && Confined(s, v, s', v', fs) && Whole(s', v', init)
    requires forall f | f in fs && f in s'.pc :: FiberOk(s', v', f)
    ensures Inv(s', v', init)
  {
    hide FiberOk, Whole, Confined;
    OthersKept(s, v, s', v', init, fs);
  }

  lemma Known(s: State, v: View, init: nat, f: Fid)
    requires Inv(s, v, init) && f in s.pc
    ensures Whole(s, v, init) && FiberOk(s, v, f)
  {
  }
}
