/** What the semaphore's calls come to, told from the calls themselves. */
module CondVarCalls {
  import opened Wrappers
  import opened Collections
  import opened CondVarModel
  import opened CondVarInvariant
  import opened CondVarTheorems

  // ---- the calls ----

  predicate CallsAcquire(s: State, e: Event) { e.Acquire? && e.f in s.pc && s.pc[e.f] == Idle && !s.fault }

  predicate CallsRelease(s: State, e: Event) { e.Release? && e.f in s.pc && s.pc[e.f] == Holding && !s.fault }

  predicate CallsNotify(s: State, e: Event) { e.Notify? && e.f in s.pc && s.pc[e.f] == Idle && !s.fault }

  function One(b: bool): nat { if b then 1 else 0 }

  function Acquires(s: State, es: seq<Event>): nat {
    if es == [] then 0 else Acquires(s, es[..|es| - 1]) + One(CallsAcquire(Run(s, es[..|es| - 1]), es[|es| - 1]))
  }

  function Releases(s: State, es: seq<Event>): nat {
    if es == [] then 0 else Releases(s, es[..|es| - 1]) + One(CallsRelease(Run(s, es[..|es| - 1]), es[|es| - 1]))
  }

  function Notifies(s: State, es: seq<Event>): nat {
    if es == [] then 0 else Notifies(s, es[..|es| - 1]) + One(CallsNotify(Run(s, es[..|es| - 1]), es[|es| - 1]))
  }

  /** The fiber's last call, if that was one that notifies: a Release, a NotifyOne or a NotifyAll. */
  function LastCall(s: State, es: seq<Event>, f: Fid): Option<Waker> {
    if es == [] then None
    else
      var s1, e := Run(s, es[..|es| - 1]), es[|es| - 1];
      if e.f == f && CallsNotify(s1, e) then Some(Outsider(e.all))
      else if e.f == f && CallsRelease(s1, e) then Some(Releaser)
      else if e.f == f && CallsAcquire(s1, e) then None
      else LastCall(s, es[..|es| - 1], f)
  }

  // ---- where a fiber is in its call ----

  predicate InAcquire(p: Pc) {
    || p.Locking? || p.Checking? || p.Preparing? || p.Unlocking? || p.Spinning? || p.Comparing?
    || p.Backing? || p.Handing? || p.Parked? || p == Leaving(true)
  }

  /** Between the call of Acquire and the call of Release. */
  predicate Acquiring(p: Pc) { InAcquire(p) || p.Holding? }

  /** Has called something that notifies, and the epoch has not moved yet. */
  predicate BeforeBump(p: Pc) { p.Entering? || p.Adding? || p.WakeSpinning? || p.Bumping? }

  predicate CallOk(s: State, f: Fid, call: Option<Waker>)
    requires f in s.pc
  {
    && (s.pc[f].WakeSpinning? || s.pc[f].Bumping? || s.pc[f].Dropping? || s.pc[f].Waking? ==> call == Some(s.pc[f].waker))
    && (s.pc[f].Entering? || s.pc[f].Adding? || s.pc[f] == Leaving(false) ==> call == Some(Releaser))
  }

  lemma MoveCounts(pc: map<Fid, Pc>, f: Fid, p: Pc)
    requires f in pc
    ensures |Where(pc[f := p], Acquiring)| == |Where(pc, Acquiring)| - One(Acquiring(pc[f])) + One(Acquiring(p))
    ensures |Where(pc[f := p], BeforeBump)| == |Where(pc, BeforeBump)| - One(BeforeBump(pc[f])) + One(BeforeBump(p))
  {
    WhereStep(pc, Acquiring, f, p);
    WhereStep(pc, BeforeBump, f, p);
  }

  /** Acquires and releases balance, and so do notifications and moves of the epoch. */
  predicate Balanced(s: State, acquires: nat, releases: nat, notifies: nat) {
    && acquires == releases + |Where(s.pc, Acquiring)|
    && releases + notifies == s.wakes + |Where(s.pc, BeforeBump)|
  }

  lemma WakeBalances(s: State, f: Fid, acquires: nat, releases: nat, notifies: nat)
    requires f in s.pc && s.pc[f].Waking? && Balanced(s, acquires, releases, notifies)
    ensures Balanced(WakeStep(s, f, s.pc[f].waker, s.pc[f].list), acquires, releases, notifies)
  {
    var s' := WakeStep(s, f, s.pc[f].waker, s.pc[f].list);
    if s.pc[f].list != [] && s'.fault == s.fault && s' != s.(fault := true) {
      var n := s.pc[f].list[0];
      var pc1 := s.pc[n := Locking(true)];
      MoveCounts(s.pc, n, Locking(true));
      MoveCounts(pc1, f, s'.pc[f]);
      assert s'.pc == pc1[f := s'.pc[f]];
    } else if s.pc[f].list == [] {
      MoveCounts(s.pc, f, s'.pc[f]);
    }
    hide Where;
  }

  lemma GoBalances(s: State, f: Fid, acquires: nat, releases: nat, notifies: nat)
    requires f in s.pc && !s.fault && Balanced(s, acquires, releases, notifies)
    ensures Balanced(GoStep(s, f), acquires, releases, notifies)
  {
    if s.pc[f].Waking? {
      WakeBalances(s, f, acquires, releases, notifies);
    } else {
      OneMoves(s, f);
      MoveCounts(s.pc, f, GoStep(s, f).pc[f]);
      hide Where;
    }
  }

  lemma OneMoves(s: State, f: Fid)
    requires f in s.pc && !s.pc[f].Waking?
    ensures f in GoStep(s, f).pc && GoStep(s, f).pc == s.pc[f := GoStep(s, f).pc[f]]
  {
  }

  lemma StepBalances(s: State, e: Event, acquires: nat, releases: nat, notifies: nat)
    requires Balanced(s, acquires, releases, notifies)
    ensures Balanced(Step(s, e), acquires + One(CallsAcquire(s, e)), releases + One(CallsRelease(s, e)), notifies + One(CallsNotify(s, e)))
  {
    if e.f in s.pc && !s.fault {
      match e
      case Go(f) => GoBalances(s, f, acquires, releases, notifies);
      case Acquire(f) => MoveCounts(s.pc, f, Locking(false));
      case Release(f) => MoveCounts(s.pc, f, Entering);
      case Notify(f, all) => MoveCounts(s.pc, f, WakeSpinning(Outsider(all)));
      hide Where;
    }
  }

  lemma {:induction false} RunBalances(init: nat, fibers: set<Fid>, es: seq<Event>)
    ensures var s0 := Init(init, fibers);
      Balanced(Run(s0, es), Acquires(s0, es), Releases(s0, es), Notifies(s0, es))
  {
    var s0 := Init(init, fibers);
    if es == [] {
      var pc: map<Fid, Pc> := s0.pc;
      assert Where(pc, Acquiring) == {} && Where(pc, BeforeBump) == {};
    } else {
      var n := |es| - 1;
      RunBalances(init, fibers, es[..n]);
      StepBalances(Run(s0, es[..n]), es[n], Acquires(s0, es[..n]), Releases(s0, es[..n]), Notifies(s0, es[..n]));
    }
  }

  /** What one step does to the call of fiber f. */
  lemma StepKeepsCall(s: State, e: Event, f: Fid, call: Option<Waker>)
    requires f in s.pc && CallOk(s, f, call) && !s.fault
    ensures f in Step(s, e).pc
    ensures CallOk(Step(s, e), f,
      if e.f == f && CallsNotify(s, e) then Some(Outsider(e.all))
      else if e.f == f && CallsRelease(s, e) then Some(Releaser)
      else if e.f == f && CallsAcquire(s, e) then None else call)
  {
    if e.f != f {
      OthersOnlyWake(s, e, f);
      hide Step;
    } else if e.Go? {
      OwnStepKeepsCall(s, f, call);
      hide GoStep;
    }
  }

  /** Another fiber's step can do one thing to fiber f: resume it. */
  lemma OthersOnlyWake(s: State, e: Event, f: Fid)
    requires f in s.pc && e.f != f
    ensures f in Step(s, e).pc
    ensures Step(s, e).pc[f] == s.pc[f] || (IsSuspended(s.pc[f]) && Step(s, e).pc[f] == Locking(true))
  {
    hide BumpStep;
    if e.Go? && e.f in s.pc && s.pc[e.f].Bumping? { BumpMovesOne(s, e.f, s.pc[e.f].waker); }
  }

  lemma BumpMovesOne(s: State, f: Fid, waker: Waker)
    requires f in s.pc
    ensures BumpStep(s, f, waker).pc == s.pc[f := BumpStep(s, f, waker).pc[f]]
  {
  }

  lemma OwnStepKeepsCall(s: State, f: Fid, call: Option<Waker>)
    requires f in s.pc && CallOk(s, f, call)
    ensures f in GoStep(s, f).pc && CallOk(GoStep(s, f), f, call)
  {
    if s.pc[f].Bumping? {
      BumpKeepsCall(s, f, call);
    } else if s.pc[f].Waking? {
      WakeKeepsCall(s, f, call);
    } else {
      OtherKeepsCall(s, f, call);
    }
    hide GoStep, CallOk;
  }

  lemma BumpKeepsCall(s: State, f: Fid, call: Option<Waker>)
    requires f in s.pc && s.pc[f].Bumping? && CallOk(s, f, call)
    ensures f in GoStep(s, f).pc && CallOk(GoStep(s, f), f, call)
  {
  }

  lemma WakeKeepsCall(s: State, f: Fid, call: Option<Waker>)
    requires f in s.pc && s.pc[f].Waking? && CallOk(s, f, call)
    ensures f in GoStep(s, f).pc && CallOk(GoStep(s, f), f, call)
  {
  }

  lemma OtherKeepsCall(s: State, f: Fid, call: Option<Waker>)
    requires f in s.pc && !s.pc[f].Bumping? && !s.pc[f].Waking? && CallOk(s, f, call)
    ensures f in GoStep(s, f).pc && CallOk(GoStep(s, f), f, call)
  {
    hide BumpStep, WakeStep;
  }

  lemma {:induction false} RunKeepsCall(init: nat, fibers: set<Fid>, es: seq<Event>, f: Fid)
    requires f in fibers
    ensures var s := Run(Init(init, fibers), es);
      f in s.pc && CallOk(s, f, LastCall(Init(init, fibers), es, f))
  {
    if es != [] {
      var n := |es| - 1;
      RunKeepsCall(init, fibers, es[..n], f);
      var v := RunKeepsInv(init, fibers, es[..n]);
      StepKeepsCall(Run(Init(init, fibers), es[..n]), es[n], f, LastCall(Init(init, fibers), es[..n], f));
    }
  }

  lemma {:induction false} KeepsFibers(init: nat, fibers: set<Fid>, es: seq<Event>)
    ensures Run(Init(init, fibers), es).pc.Keys == fibers
  {
    if es != [] {
      KeepsFibers(init, fibers, es[..|es| - 1]);
      StepKeepsFibers(Run(Init(init, fibers), es[..|es| - 1]), es[|es| - 1]);
    }
  }

  lemma StepKeepsFibers(s: State, e: Event)
    ensures Step(s, e).pc.Keys == s.pc.Keys
  {
  }

  // ---- the theorems ----

  /**
    Whom a notification takes. At the moment a fiber moves the epoch, its last call
    says what happens to the list of waiters: after a Release or a NotifyOne the first
    of them leaves it, if there is one, and nobody else; after a NotifyAll all leave.
   */
  lemma NotificationTakes(init: nat, fibers: set<Fid>, es: seq<Event>, f: Fid)
    requires var s := Run(Init(init, fibers), es); f in s.pc && s.pc[f].Bumping?
    ensures var s := Run(Init(init, fibers), es);
      var s', call := Step(s, Go(f)), LastCall(Init(init, fibers), es, f);
      && call.Some? && f in s'.pc && s'.pc[f].Dropping?
      && (call == Some(Outsider(true)) ==> s'.pc[f].list == s.waiters && s'.waiters == [])
      && (call == Some(Releaser) || call == Some(Outsider(false)) ==>
            if s.waiters == [] then s'.pc[f].list == [] && s'.waiters == []
            else s'.pc[f].list == [s.waiters[0]] && s'.waiters == s.waiters[1..])
  {
    var v := RunKeepsInv(init, fibers, es);
    KeepsFibers(init, fibers, es);
    RunKeepsCall(init, fibers, es, f);
    hide Inv, Run, LastCall;
    assert !Run(Init(init, fibers), es).fault by { PermitsConserved(init, fibers, es); }
  }

  /**
    No call gets lost. Acquires and Releases differ by the fibers that are inside
    Acquire or hold a permit; and each Release, NotifyOne and NotifyAll moves the epoch
    once, but for those that have not come to it yet.
   */
  lemma CallsBalance(init: nat, fibers: set<Fid>, es: seq<Event>)
    ensures var s0 := Init(init, fibers);
      var s := Run(s0, es);
      && Acquires(s0, es) == Releases(s0, es) + |Where(s.pc, Acquiring)|
      && Releases(s0, es) + Notifies(s0, es) == s.wakes + |Where(s.pc, BeforeBump)|
  {
    RunBalances(init, fibers, es);
  }

  /** Acquire comes back only with a permit: a fiber leaves it only for holding one, and only by its own action. */
  lemma AcquireEndsWithPermit(init: nat, fibers: set<Fid>, es: seq<Event>, e: Event, f: Fid)
    requires var s := Run(Init(init, fibers), es); f in s.pc && InAcquire(s.pc[f])
    ensures var s := Run(Init(init, fibers), es);
      var s' := Step(s, e);
      f in s'.pc && (InAcquire(s'.pc[f]) || (s.pc[f] == Leaving(true) && s'.pc[f] == Holding && e == Go(f)))
  {
    var s := Run(Init(init, fibers), es);
    var v := RunKeepsInv(init, fibers, es);
    hide Inv, Run;
    if e.f != f {
      OthersOnlyWake(s, e, f);
      hide Step;
    } else if e.Go? && !s.fault {
      OwnStepStaysInside(s, f);
      hide GoStep;
    }
  }

  lemma OwnStepStaysInside(s: State, f: Fid)
    requires f in s.pc && InAcquire(s.pc[f])
    ensures f in GoStep(s, f).pc
    ensures InAcquire(GoStep(s, f).pc[f]) || (s.pc[f] == Leaving(true) && GoStep(s, f).pc[f] == Holding)
  {
    hide BumpStep, WakeStep;
  }

  /** A fiber that looks at the permits takes one exactly if there is one. */
  lemma CheckTakesPermit(s: State, f: Fid)
    requires f in s.pc && s.pc[f].Checking? && !s.fault
    ensures var s' := Step(s, Go(f));
      && f in s'.pc
      && (s.permits > 0 ==> s'.permits == s.permits - 1 && s'.pc[f] == Leaving(true))
      && (s.permits == 0 ==> s'.permits == 0 && s'.pc[f] == Preparing)
  {
  }

  // ---- somebody can always move ----

  /** A fiber in the middle of something can move, or the holder of the lock it wants can. */
  lemma SomebodyCanMove(init: nat, fibers: set<Fid>, es: seq<Event>, f: Fid) returns (g: Fid)
    requires var s := Run(Init(init, fibers), es);
      f in s.pc && !s.pc[f].Idle? && !s.pc[f].Holding? && !s.pc[f].Parked?
    ensures var s := Run(Init(init, fibers), es); Step(s, Go(g)) != s
  {
    var s := Run(Init(init, fibers), es);
    var v := RunKeepsInv(init, fibers, es);
    PermitsConserved(init, fibers, es);
    hide Run;
    g := f;
    if (s.pc[f].Locking? || s.pc[f].Entering?) && s.lock.Some? {
      g := s.lock.value;
      if NeedsSpin(s.pc[g]) && s.spin.Some? {
        Known(s, v, init, g);
        g := s.spin.value;
      }
      Known(s, v, init, g);
    } else if NeedsSpin(s.pc[f]) && s.spin.Some? {
      g := s.spin.value;
      Known(s, v, init, g);
    }
    hide Inv, Whole, FiberOk;
    Moves1(s, g);
  }

  predicate NeedsSpin(p: Pc) { p.Spinning? || p.WakeSpinning? }

  lemma Moves1(s: State, g: Fid)
    requires g in s.pc && !s.fault && !s.pc[g].Idle? && !s.pc[g].Holding? && !s.pc[g].Parked?
    requires s.pc[g].Locking? || s.pc[g].Entering? ==> s.lock == None
    requires NeedsSpin(s.pc[g]) ==> s.spin == None
    ensures Step(s, Go(g)) != s
  {
    if s.pc[g].Waking? {
      if s.pc[g].list == [] {
        assert Step(s, Go(g)).pc[g] != s.pc[g];
      } else if Step(s, Go(g)).fault == s.fault {
        assert Step(s, Go(g)).pc[g].list == s.pc[g].list[1..];
      }
    } else {
      assert Step(s, Go(g)).pc[g] != s.pc[g];
    }
  }
}
