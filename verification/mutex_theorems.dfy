/** What holds of every run of fibers over a mutex. */
module MutexTheorems {
  import opened Collections
  import opened MutexModel
  import opened MutexInvariant
  import opened MutexSteps

  /** How the enqueued waiters and the log of grants may change in one step. */
  ghost predicate Moves(s: State, v: View, s': State, v': View) {
    || (Line(s', v') == Line(s, v) && v'.stack == v.stack
        && (s'.grants == s.grants || (s.word == Unlocked && exists f :: s'.grants == s.grants + [f])))
    || Pushes(s, v, s', v')
    || (Line(s, v) == [] && Line(s', v') == v.stack && v'.stack == [] && s'.grants == s.grants)
    || (Line(s, v) != [] && Line(s', v') == Line(s, v)[1..] && v'.stack == v.stack && s'.grants == s.grants + [Line(s, v)[0]])
  }

  predicate Pushes(s: State, v: View, s': State, v': View) {
    && v'.stack != [] && v'.stack[1..] == v.stack && v'.stack[0] !in Enqueued(s, v)
    && Line(s', v') == Line(s, v) && s'.grants == s.grants
  }

  lemma LockPushMoves(s: State, v: View, w: Wid) returns (v': View)
    requires Inv(s, v) && w in s.workers && s.workers[w].LockPush? && s.workers[w].f in s.fibers
    ensures Inv(GoStep(s, w, Lock), v') && Moves(s, v, GoStep(s, w, Lock), v')
  {
    var f, expected := s.workers[w].f, s.workers[w].expected;
    v' := v;
    InHands(s, v, w);
    if s.word == expected {
      hide Inv;
      v' := PushSucceedsKeepsInv(s, v, w);
      assert Pushes(s, v, GoStep(s, w, Lock), v');
    } else {
      PushFailsKeepsInv(s, v, w, if expected.WaitNode? then expected.node else NULL);
    }
  }

  lemma FiberMoves(s: State, v: View, w: Wid, f: Fid, choice: Choice) returns (v': View)
    requires Runs(s, v, w, f)
    ensures Inv(FiberStep(s, w, f, choice), v') && Moves(s, v, FiberStep(s, w, f, choice), v')
  {
    v' := v;
    hide Inv;
    match s.fibers[f].pc
    case Outside =>
      match choice {
        case Lock => LockKeepsInv(s, v, w, f);
        case TryLock => TryLockKeepsInv(s, v, w, f);
        case Yield => YieldKeepsInv(s, v, w, f);
        case Finish => FinishKeepsInv(s, v, w, f);
        case Unlock =>
      }
    case Inside =>
      match choice {
        case Unlock => UnlockKeepsInv(s, v, w, f);
        case Yield => YieldKeepsInv(s, v, w, f);
        case _ =>
      }
    case Loading => LoadKeepsInv(s, v, w, f);
    case Unlocking => UnlockingKeepsInv(s, v, w, f);
    case Grabbing =>
      InHands(s, v, w);
      v' := GrabKeepsInv(s, v, w, f);
    case Appending(_) =>
      InHands(s, v, w);
      v' := AppendKeepsInv(s, v, w, f);
    case Resuming =>
      InHands(s, v, w);
      Known(s, v, s.waiters[0]);
      v' := ResumeKeepsInv(s, v, w, f);
    case _ =>
  }

  lemma GoMoves(s: State, v: View, w: Wid, choice: Choice) returns (v': View)
    requires Inv(s, v) && w in s.workers && s.workers[w] != Idle
    ensures Inv(GoStep(s, w, choice), v') && Moves(s, v, GoStep(s, w, choice), v')
  {
    v' := v;
    InHands(s, v, w);
    match s.workers[w] {
      case InFiber(f) => v' := FiberMoves(s, v, w, f, choice);
      case Stepping(_) => ResumeFiberKeepsInv(s, v, w);
      case After(_) => v' := AfterKeepsInv(s, v, w);
      case LockLoad(_) => LockLoadKeepsInv(s, v, w);
      case LockTry(_) => LockTryKeepsInv(s, v, w);
      case LockPush(_, _) => v' := LockPushMoves(s, v, w);
      case HandOff(_, _) => v' := HandOffKeepsInv(s, v, w);
    }
  }

  lemma StepMoves(s: State, v: View, e: Event) returns (v': View)
    requires Inv(s, v)
    ensures Inv(Step(s, e), v') && Moves(s, v, Step(s, e), v')
  {
    v' := v;
    hide Inv, FiberOk, WorkerOk;
    Known(s, v, NULL);
    match e
    case Spawn(f) => v' := SpawnKeepsInv(s, v, f);
    case Pick(w, i) => if w in s.workers { v' := PickKeepsInv(s, v, w, i); }
    case Go(w, choice) => if w in s.workers && s.workers[w] != Idle { v' := GoMoves(s, v, w, choice); }
  }

  lemma InitInv(workers: set<Wid>)
    ensures Inv(Init(workers), View([], [], map[]))
  {
  }

  lemma {:induction false} RunKeepsInv(workers: set<Wid>, es: seq<Event>) returns (v: View)
    ensures Inv(Run(Init(workers), es), v)
  {
    if es == [] {
      v := View([], [], map[]);
      InitInv(workers);
    } else {
      v := RunKeepsInv(workers, es[..|es| - 1]);
      v := StepMoves(Run(Init(workers), es[..|es| - 1]), v, es[|es| - 1]);
    }
  }

  // ---- placement ----

  /** In the hands of worker w: its current fiber, or the one it is about to go on with. */
  predicate With(s: State, w: Wid, f: Fid)
    requires w in s.workers
  {
    f != NULL && (Cur(s.workers[w]) == f || Carried(s, w) == f)
  }

  /** Its Locker is enqueued: TryLockOrEnqueue has swung the word to it, and it has not got the lock yet. */
  predicate Waiting(s: State, f: Fid) {
    && f in s.fibers && s.fibers[f] == Fiber(Suspended, NoAwaiter, AtLock)
    && forall w | w in s.workers :: !With(s, w, f)
  }

  lemma PlaceOf(s: State, v: View, f: Fid)
    requires Inv(s, v) && f in s.fibers
    ensures FiberOk(s, v, f)
    ensures f in s.queue <==> v.place[f] == InQueue
    ensures Waiting(s, f) <==> v.place[f] == Parked
    ensures forall w | w in s.workers :: With(s, w, f) <==> v.place[f] == On(w) || v.place[f] == Handed(w)
    ensures v.place[f].On? || v.place[f].Handed? ==> v.place[f].w in s.workers
  {
    assert FiberOk(s, v, f);
    forall w | w in s.workers
      ensures With(s, w, f) <==> v.place[f] == On(w) || v.place[f] == Handed(w)
    {
      assert WorkerOk(s, v, w);
    }
  }

  /**
    Nothing ever goes wrong: no check of a fiber's state fails, no destroyed fiber
    and no dead Locker is touched, and ResumeNextWaiter finds a waiter. And every
    live fiber is in exactly one place: once in the executor's queue, in the hands
    of one worker, or waiting for the lock.
   */
  lemma FiberPlacement(workers: set<Wid>, es: seq<Event>)
    ensures var s := Run(Init(workers), es);
      && !s.fault
      && Distinct(s.queue) && (forall f | f in s.queue :: f in s.fibers)
      && (forall f, w | f in s.fibers && w in s.workers && With(s, w, f) :: f !in s.queue && !Waiting(s, f))
      && (forall f, w, u | f in s.fibers && w in s.workers && u in s.workers && With(s, w, f) && With(s, u, f) :: w == u)
      && (forall f | f in s.queue :: !Waiting(s, f))
      && (forall f | f in s.fibers :: f in s.queue || Waiting(s, f) || exists w :: w in s.workers && With(s, w, f))
  {
    var s := Run(Init(workers), es);
    var v := RunKeepsInv(workers, es);
    hide FiberOk, WorkerOk, ListsOk;
    forall f | f in s.fibers
      ensures FiberOk(s, v, f)
      ensures f in s.queue <==> v.place[f] == InQueue
      ensures Waiting(s, f) <==> v.place[f] == Parked
      ensures forall w | w in s.workers :: With(s, w, f) <==> v.place[f] == On(w) || v.place[f] == Handed(w)
      ensures v.place[f].On? || v.place[f].Handed? ==> v.place[f].w in s.workers
    {
      PlaceOf(s, v, f);
    }
  }

  // ---- mutual exclusion ----

  /** Owns the lock; one who has been handed the lock and has not woken up yet counts. */
  predicate HasLock(s: State, f: Fid) {
    f in s.fibers && s.word != Unlocked && Owner(s) == f
  }

  /** About to enter the critical section, in a worker's hands. */
  predicate Arriving(s: State, f: Fid) {
    && f in s.fibers && s.fibers[f].pc.AtLock?
    && exists w :: w in s.workers && (s.workers[w] == Stepping(f) || Carried(s, w) == f)
  }

  lemma OwnerIsLegitimate(s: State, v: View, f: Fid)
    requires Inv(s, v) && f in s.fibers
    ensures Critical(s.fibers[f].pc) ==> HasLock(s, f)
    ensures HasLock(s, f) ==> Critical(s.fibers[f].pc) || Arriving(s, f)
  {
    assert FiberOk(s, v, f);
    var place := v.place[f];
    if HasLock(s, f) && !Critical(s.fibers[f].pc) {
      assert place.w in s.workers && (s.workers[place.w] == Stepping(f) || Carried(s, place.w) == f);
    }
  }

  /**
    At most one fiber is between getting the lock and giving it back, and it is the
    one to whom it was granted last; only that fiber ever touches the owner's list;
    and a lock that is not free belongs to a fiber inside the critical section or
    on its way into it, in a worker's hands.
   */
  lemma MutualExclusion(workers: set<Wid>, es: seq<Event>)
    ensures var s := Run(Init(workers), es);
      && (forall f, g | f in s.fibers && g in s.fibers && Critical(s.fibers[f].pc) && Critical(s.fibers[g].pc) :: f == g)
      && (forall f | f in s.fibers && Critical(s.fibers[f].pc) :: s.word != Unlocked && s.grants != [] && s.grants[|s.grants| - 1] == f)
      && (s.word != Unlocked ==> HasLock(s, Owner(s)))
      && (forall f | HasLock(s, f) && !Critical(s.fibers[f].pc) :: Arriving(s, f))
  {
    var s := Run(Init(workers), es);
    var v := RunKeepsInv(workers, es);
    hide FiberOk, WorkerOk;
    forall f | f in s.fibers
      ensures Critical(s.fibers[f].pc) ==> HasLock(s, f) && f != NULL
      ensures HasLock(s, f) ==> Critical(s.fibers[f].pc) || Arriving(s, f)
    {
      OwnerIsLegitimate(s, v, f);
      NotNull(s, v, f);
    }
  }

  lemma NotNull(s: State, v: View, f: Fid)
    requires Inv(s, v) && f in s.fibers
    ensures f != NULL
  {
    assert FiberOk(s, v, f);
  }

  // ---- no lost waiter ----

  /** `stack` is the chain from the state word, `grabbed` the chain from AppendToList's cursor. */
  ghost predicate Chains(s: State, stack: seq<Fid>, grabbed: seq<Fid>) {
    && (if s.word.WaitNode? then stack != [] && Linked(s.next, NULL, s.word.node, stack) else stack == [])
    && (if HasLock(s, Owner(s)) && s.fibers[Owner(s)].pc.Appending?
        then Linked(s.next, NULL, s.fibers[Owner(s)].pc.cur, grabbed) else grabbed == [])
  }

  /** Both chains with the owner's list, and nothing else, are the waiting fibers, once each. */
  ghost predicate AllWaiters(s: State, stack: seq<Fid>, grabbed: seq<Fid>) {
    && Chains(s, stack, grabbed)
    && Distinct(s.waiters + grabbed + stack)
    && forall f :: f in s.waiters + grabbed + stack <==> Waiting(s, f)
  }

  lemma WaitersAreEnqueued(s: State, v: View)
    requires Inv(s, v)
    ensures AllWaiters(s, v.stack, v.grabbed)
    ensures s.word == Unlocked ==> s.waiters == [] && forall f :: !Waiting(s, f)
  {
    var all := s.waiters + v.grabbed + v.stack;
    assert all == Enqueued(s, v);
    forall f
      ensures f in all <==> Waiting(s, f)
    {
      if f in s.fibers { PlaceOf(s, v, f); }
    }
  }

  /**
    Every waiting fiber's Locker is in the owner's list, on the chain being moved to
    it or on the chain from the state word, once; nothing else is there; and a free
    lock leaves nobody waiting.
   */
  lemma NoLostWaiter(workers: set<Wid>, es: seq<Event>)
    ensures exists stack, grabbed :: AllWaiters(Run(Init(workers), es), stack, grabbed)
    ensures var s := Run(Init(workers), es);
      s.word == Unlocked ==> s.waiters == [] && forall f :: !Waiting(s, f)
  {
    var v := RunKeepsInv(workers, es);
    WaitersAreEnqueued(Run(Init(workers), es), v);
  }

  /** Nothing left to run means nobody left waiting: every fiber has completed and the lock is free. */
  lemma QuietMeansDone(workers: set<Wid>, es: seq<Event>)
    requires var s := Run(Init(workers), es);
      s.queue == [] && forall w | w in s.workers :: s.workers[w] == Idle
    ensures var s := Run(Init(workers), es);
      s.word == Unlocked && s.waiters == [] && s.fibers == map[]
  {
    var s := Run(Init(workers), es);
    var v := RunKeepsInv(workers, es);
    forall f | f in s.fibers
      ensures Owner(s) != f && f in Enqueued(s, v)
    {
      PlaceOf(s, v, f);
    }
    assert s.fibers.Keys == {};
  }

  // ---- bypass ----

  function Before(xs: seq<Fid>, f: Fid): seq<Fid> {
    if xs == [] || xs[0] == f then [] else [xs[0]] + Before(xs[1..], f)
  }

  function Beyond(xs: seq<Fid>, f: Fid): seq<Fid> {
    if xs == [] then [] else if xs[0] == f then xs[1..] else Beyond(xs[1..], f)
  }

  function Count(xs: seq<Fid>, g: Fid): nat {
    if xs == [] then 0 else Count(xs[..|xs| - 1], g) + (if xs[|xs| - 1] == g then 1 else 0)
  }

  /** How often g may still be given the lock before f. */
  function Bypasses(line: seq<Fid>, stack: seq<Fid>, f: Fid, g: Fid): nat {
    if f in line then (if g in Before(line, f) then 1 else 0)
    else (if g in line then 1 else 0) + (if g in Beyond(stack, f) then 0 else 1)
  }

  lemma {:induction false} EitherSide(xs: seq<Fid>, f: Fid, g: Fid)
    requires Distinct(xs) && f in xs
    ensures g in Before(xs, f) ==> g in xs && g != f && g !in Beyond(xs, f)
    ensures g in Beyond(xs, f) ==> g in xs
  {
    if xs[0] != f {
      EitherSide(xs[1..], f, g);
      if g in Beyond(xs[1..], f) { BeyondIsWithin(xs[1..], f, g); }
    }
  }

  lemma {:induction false} BeyondIsWithin(xs: seq<Fid>, f: Fid, g: Fid)
    requires g in Beyond(xs, f)
    ensures g in xs
  {
    if xs != [] && xs[0] != f { BeyondIsWithin(xs[1..], f, g); }
  }

  lemma GrabBypasses(stack: seq<Fid>, f: Fid, g: Fid)
    requires Distinct(stack) && f in stack && f != g
    ensures Bypasses(stack, [], f, g) <= Bypasses([], stack, f, g)
  {
    EitherSide(stack, f, g);
  }

  /** Popping the line uses up a bypass of the one who gets the lock. */
  lemma PopBypasses(line: seq<Fid>, stack: seq<Fid>, f: Fid, g: Fid)
    requires Distinct(line) && line != [] && line[0] != f && f != g
    ensures Bypasses(line[1..], stack, f, g) + (if line[0] == g then 1 else 0) <= Bypasses(line, stack, f, g)
  {
    if f in line[1..] {
      EitherSide(line[1..], f, g);
    }
  }

  lemma HeadIsNot(xs: seq<Fid>, f: Fid)
    requires Distinct(xs) && xs != [] && f in xs[1..]
    ensures xs[0] != f
  {
    var i :| 0 <= i < |xs| - 1 && xs[1..][i] == f;
    assert xs[i + 1] == f;
  }

  lemma CountOne(x: Fid, g: Fid)
    ensures Count([x], g) == if x == g then 1 else 0
  {
    assert [x][..0] == [];
  }

  /** A grant to the first in line, seen by f who stays behind. */
  lemma GrantBypasses(line: seq<Fid>, stack: seq<Fid>, f: Fid, g: Fid)
    requires Distinct(line + stack) && line != [] && f in line[1..] + stack && f != g
    ensures line[0] != f
    ensures Count([line[0]], g) + Bypasses(line[1..], stack, f, g) <= Bypasses(line, stack, f, g)
  {
    hide Bypasses, Count;
    var all := line + stack;
    assert all[1..] == line[1..] + stack && all[0] == line[0];
    HeadIsNot(all, f);
    DistinctParts(line, stack);
    CountOne(line[0], g);
    PopBypasses(line, stack, f, g);
  }

  /** Being granted the lock uses up one bypass, and no step gives one back. */
  lemma StepBypasses(s: State, v: View, s': State, v': View, f: Fid, g: Fid)
    requires Moves(s, v, s', v') && Distinct(Enqueued(s, v)) && f != g
    requires f in Enqueued(s, v) && f in Enqueued(s', v') && s.word != Unlocked
    ensures s.grants <= s'.grants
    ensures Count(s'.grants[|s.grants|..], g) + Bypasses(Line(s', v'), v'.stack, f, g) <= Bypasses(Line(s, v), v.stack, f, g)
    ensures f !in s'.grants[|s.grants|..]
  {
    hide Bypasses, Distinct;
    var line, stack := Line(s, v), v.stack;
    assert Enqueued(s, v) == line + stack && Enqueued(s', v') == Line(s', v') + v'.stack;
    if s'.grants == s.grants {
      assert s'.grants[|s.grants|..] == [];
      if Pushes(s, v, s', v') {
        PushBypasses(line, stack, v'.stack, f, g);
      } else if line == [] && v'.stack == [] {
        assert line + stack == stack;
        GrabBypasses(stack, f, g);
      }
    } else {
      assert s'.grants[|s.grants|..] == [line[0]];
      GrantBypasses(line, stack, f, g);
    }
  }

  lemma PushBypasses(line: seq<Fid>, stack: seq<Fid>, stack': seq<Fid>, f: Fid, g: Fid)
    requires stack' != [] && stack'[1..] == stack && stack'[0] != f
    ensures Bypasses(line, stack', f, g) == Bypasses(line, stack, f, g)
  {
  }

  lemma CountSplit(xs: seq<Fid>, ys: seq<Fid>, g: Fid)
    ensures Count(xs + ys, g) == Count(xs, g) + Count(ys, g)
  {
    if ys == [] {
      assert xs + ys == xs;
    } else {
      CountSplit(xs, ys[..|ys| - 1], g);
      assert (xs + ys)[..|xs + ys| - 1] == xs + ys[..|ys| - 1];
    }
  }

  /** Given the lock at once or not at all: no TryLock, in fast path or awaiter, succeeds while somebody waits. */
  lemma WaitingMeansLocked(workers: set<Wid>, es: seq<Event>, f: Fid)
    requires Waiting(Run(Init(workers), es), f)
    ensures Run(Init(workers), es).word != Unlocked
  {
    NoLostWaiter(workers, es);
  }

  lemma {:induction false} BypassesLeft(workers: set<Wid>, es0: seq<Event>, es: seq<Event>, f: Fid, g: Fid, v0: View) returns (v: View)
    requires f != g
    requires forall k :: 0 <= k <= |es| ==> Waiting(Run(Run(Init(workers), es0), es[..k]), f)
    requires Inv(Run(Init(workers), es0), v0)
    ensures var s0 := Run(Init(workers), es0);
      var s := Run(s0, es);
      && Inv(s, v) && s0.grants <= s.grants && f !in s.grants[|s0.grants|..]
      && Count(s.grants[|s0.grants|..], g) + Bypasses(Line(s, v), v.stack, f, g) <= Bypasses(Line(s0, v0), v0.stack, f, g)
  {
    hide Inv, Bypasses, Waiting;
    var s0 := Run(Init(workers), es0);
    if es == [] {
      v := v0;
      assert s0.grants[|s0.grants|..] == [];
    } else {
      var n := |es| - 1;
      forall k | 0 <= k <= n
        ensures Waiting(Run(s0, es[..n][..k]), f)
      {
        assert es[..n][..k] == es[..k];
      }
      var v1 := BypassesLeft(workers, es0, es[..n], f, g, v0);
      var s1 := Run(s0, es[..n]);
      v := StepMoves(s1, v1, es[n]);
      var s := Step(s1, es[n]);
      assert es[..|es|] == es;
      StillWaiting(s1, v1, f);
      StillWaiting(s, v, f);
      StepBypasses(s1, v1, s, v, f, g);
      assert s.grants[|s0.grants|..] == s1.grants[|s0.grants|..] + s.grants[|s1.grants|..];
      CountSplit(s1.grants[|s0.grants|..], s.grants[|s1.grants|..], g);
    }
  }

  lemma StillWaiting(s: State, v: View, f: Fid)
    requires Inv(s, v) && Waiting(s, f)
    ensures f in Enqueued(s, v) && Distinct(Enqueued(s, v)) && s.word != Unlocked
  {
    PlaceOf(s, v, f);
  }

  /** As long as f waits, no other fiber is given the lock more than twice. */
  lemma BypassBound(workers: set<Wid>, es0: seq<Event>, es: seq<Event>, f: Fid, g: Fid)
    requires f != g
    requires forall k :: 0 <= k <= |es| ==> Waiting(Run(Run(Init(workers), es0), es[..k]), f)
    ensures var s0 := Run(Init(workers), es0);
      var s := Run(s0, es);
      s0.grants <= s.grants && Count(s.grants[|s0.grants|..], g) <= 2
  {
    var v0 := RunKeepsInv(workers, es0);
    var v := BypassesLeft(workers, es0, es, f, g, v0);
  }

  /** Who is ahead of f: the whole line while f is on the stack, and then those before it in the line. */
  function Ahead(line: seq<Fid>, stack: seq<Fid>, f: Fid): (nat, nat) {
    if f in line then (0, |Before(line, f)|) else (1, |line|)
  }

  predicate Less(a: (nat, nat), b: (nat, nat)) { a.0 < b.0 || (a.0 == b.0 && a.1 < b.1) }

  lemma MovesBringNearer(s: State, v: View, s': State, v': View, f: Fid)
    requires Moves(s, v, s', v') && Distinct(Enqueued(s, v)) && s.word != Unlocked
    requires f in Enqueued(s, v) && f in Enqueued(s', v')
    ensures var before, after := Ahead(Line(s, v), v.stack, f), Ahead(Line(s', v'), v'.stack, f);
      && (after == before || Less(after, before))
      && (s'.grants != s.grants ==> Less(after, before))
  {
    assert Enqueued(s, v) == Line(s, v) + v.stack && Enqueued(s', v') == Line(s', v') + v'.stack;
    if Line(s, v) != [] && Line(s', v') == Line(s, v)[1..] && v'.stack == v.stack {
      assert Enqueued(s', v') == Enqueued(s, v)[1..];
      HeadIsNot(Enqueued(s, v), f);
    }
  }

  /** Each hand-off brings a waiting fiber nearer to the lock, and nothing takes it further away. */
  lemma HandOffsBringNearer(s: State, v: View, e: Event, f: Fid) returns (v': View)
    requires Inv(s, v) && Waiting(s, f) && Waiting(Step(s, e), f)
    ensures Inv(Step(s, e), v')
    ensures var before, after := Ahead(Line(s, v), v.stack, f), Ahead(Line(Step(s, e), v'), v'.stack, f);
      && (after == before || Less(after, before))
      && (Step(s, e).grants != s.grants ==> Less(after, before))
  {
    hide *;
    v' := StepMoves(s, v, e);
    StillWaiting(s, v, f);
    StillWaiting(Step(s, e), v', f);
    MovesBringNearer(s, v, Step(s, e), v', f);
  }
}
