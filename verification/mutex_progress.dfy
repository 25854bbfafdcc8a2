/** Lock, TryLock and Unlock come to an end, and to the right one, when nobody gets in the way. */
module MutexProgress {
  import opened Collections
  import opened MutexModel
  import opened MutexInvariant
  import opened MutexTheorems

  /** Worker w acts n times, with the same choice wherever its fiber has one, and nobody else acts. */
  function Alone(s: State, w: Wid, choice: Choice, n: nat): State
    decreases n
  {
    if n == 0 then s else Alone(Step(s, Go(w, choice)), w, choice, n - 1)
  }

  // ---- Unlock ----

  predicate IsUnlocking(s: State, w: Wid, f: Fid) {
    && w in s.workers && s.workers[w] == InFiber(f) && f in s.fibers
    && (s.fibers[f].pc.Inside? || Releasing(s.fibers[f].pc))
  }

  /** The actions left until the lock is free or somebody else's. */
  function UnlockLeft(s: State, v: View, f: Fid): nat
    requires f in s.fibers
  {
    match s.fibers[f].pc
    case Inside => |v.stack| + 6
    case Unlocking => if s.word == LockedNoWaiters then 1 else |v.stack| + 5
    case Loading => |v.stack| + 4
    case Grabbing => |v.stack| + 3
    case Appending(_) => |v.grabbed| + 2
    case Resuming => 1
    case _ => 0
  }

  /** Who gets the lock next: the first in the owner's line, or else the one enqueued last. */
  function NextInLine(s: State, v: View): Fid {
    if Enqueued(s, v) == [] then NULL else Enqueued(s, v)[0]
  }

  lemma OwnerHolds(s: State, v: View, w: Wid, f: Fid)
    requires Inv(s, v) && IsUnlocking(s, w, f)
    ensures Whole(s, v) && f in v.place && FiberOk(s, v, f) && WorkerOk(s, v, w)
    ensures s.word != Unlocked && Owner(s) == f && OwnerKnows(s, v, s.fibers[f].pc)
  {
    InHands(s, v, w);
    Known(s, v, f);
    assert FiberOk(s, v, f);
  }

  /** One action of Release on its own. */
  lemma UnlockMoves(s: State, v: View, w: Wid, f: Fid) returns (v': View)
    requires Inv(s, v) && IsUnlocking(s, w, f)
    ensures Inv(Step(s, Go(w, Unlock)), v') && Ends(s, v, Step(s, Go(w, Unlock)), v', w, f)
  {
    OwnerHolds(s, v, w, f);
    v' := StepMoves(s, v, Go(w, Unlock));
    var s' := Step(s, Go(w, Unlock));
    UnlockShape(s, v, w, f);
    if IsUnlocking(s', w, f) { OwnerHolds(s', v', w, f); }
    Known(s', v', NULL);
    hide Inv, FiberOk, WorkerOk, ListsOk, Step, Moves, Shape, OwnerKnows;
    UnlockConcludes(s, v, s', v', w, f);
  }

  /** What the action does to the word, the list and the fiber. */
  predicate Shape(s: State, s': State, w: Wid, f: Fid)
    requires f in s.fibers
  {
    && f in s'.fibers && w in s'.workers
    && match s.fibers[f].pc
       case Inside =>
         && s'.workers[w] == InFiber(f) && s'.word == s.word && s'.waiters == s.waiters && s'.grants == s.grants
         && s'.fibers[f].pc == (if s.waiters != [] then Resuming else Loading)
       case Loading =>
         && s'.workers[w] == InFiber(f) && s'.word == s.word && s'.waiters == s.waiters && s'.grants == s.grants
         && s'.fibers[f].pc == (if s.word == LockedNoWaiters then Unlocking else Grabbing)
       case Unlocking =>
         && s'.workers[w] == InFiber(f) && s'.waiters == s.waiters && s'.grants == s.grants
         && (if s.word == LockedNoWaiters then s'.word == Unlocked && s'.fibers[f].pc == Outside
             else s'.word == s.word && s'.fibers[f].pc == Loading)
       case Grabbing =>
         && s'.workers[w] == InFiber(f) && s'.word == LockedNoWaiters && s'.waiters == s.waiters && s'.grants == s.grants
         && s'.fibers[f].pc.Appending?
       case Appending(cur) =>
         && s'.workers[w] == InFiber(f) && s'.word == s.word && s'.grants == s.grants
         && (if cur == NULL then s'.fibers[f].pc == Resuming && s'.waiters == s.waiters
             else s'.fibers[f].pc.Appending? && |s'.waiters| == |s.waiters| + 1)
       case Resuming => s.waiters != [] && s'.grants == s.grants + [s.waiters[0]] && s'.workers[w] == After(f)
       case _ => true
  }

  lemma UnlockShape(s: State, v: View, w: Wid, f: Fid)
    requires Inv(s, v) && IsUnlocking(s, w, f)
    ensures Shape(s, Step(s, Go(w, Unlock)), w, f)
  {
    OwnerHolds(s, v, w, f);
    var v' := StepMoves(s, v, Go(w, Unlock));
    assert !s.fault && !Step(s, Go(w, Unlock)).fault;
    hide Inv, Whole, FiberOk, WorkerOk, ListsOk, Moves, Shape, FiberStep;
    FiberShape(s, w, f);
  }

  lemma FiberShape(s: State, w: Wid, f: Fid)
    requires IsUnlocking(s, w, f) && !s.fault && !FiberStep(s, w, f, Unlock).fault
    ensures Shape(s, FiberStep(s, w, f, Unlock), w, f)
  {
    if s.fibers[f].pc.Grabbing? || s.fibers[f].pc.Appending? || s.fibers[f].pc.Resuming? {
      hide LoadStep, UnlockingStep, UnlockStep;
    } else {
      hide GrabStep, AppendStep, ResumeStep;
    }
  }

  /** Without a grab or a grant, and with the same word, no waiter changes its list. */
  lemma WaitersStay(s: State, v: View, s': State, v': View)
    requires Moves(s, v, s', v') && ListsOk(s, v) && ListsOk(s', v')
    requires s'.grants == s.grants && (s'.word == s.word || (s.word == LockedNoWaiters && s'.word == Unlocked))
    ensures Line(s', v') == Line(s, v) && v'.stack == v.stack
  {
    HeadOfStack(s, v);
    HeadOfStack(s', v');
    assert Line(s, v) != [] && s'.grants == s.grants + [Line(s, v)[0]] ==> |s'.grants| == |s.grants| + 1;
    hide Linked, Distinct, OwnerKnows;
  }

  predicate Ends(s: State, v: View, s': State, v': View, w: Wid, f: Fid)
    requires f in s.fibers
  {
    if IsUnlocking(s', w, f)
    then UnlockLeft(s', v', f) < UnlockLeft(s, v, f) && s'.grants == s.grants && Enqueued(s', v') == Enqueued(s, v)
    else if Enqueued(s, v) == [] then s'.word == Unlocked && s'.grants == s.grants && f in s'.fibers && s'.fibers[f].pc == Outside
    else s'.grants == s.grants + [Enqueued(s, v)[0]]
  }

  ghost predicate Context(s: State, v: View, s': State, v': View, w: Wid, f: Fid) {
    && w in s.workers && f in s.fibers && IsUnlocking(s, w, f) && Shape(s, s', w, f) && Moves(s, v, s', v')
    && ListsOk(s, v) && s.word != Unlocked && OwnerKnows(s, v, s.fibers[f].pc) && ListsOk(s', v')
    && (IsUnlocking(s', w, f) ==> s'.word != Unlocked && OwnerKnows(s', v', s'.fibers[f].pc))
  }

  lemma UnlockConcludes(s: State, v: View, s': State, v': View, w: Wid, f: Fid)
    requires Context(s, v, s', v', w, f)
    ensures Ends(s, v, s', v', w, f)
  {
    match s.fibers[f].pc
    case Grabbing => GrabEnds(s, v, s', v', w, f);
    case Resuming => GrantEnds(s, v, s', v', w, f);
    case Appending(_) => AppendEnds(s, v, s', v', w, f);
    case _ => StayEnds(s, v, s', v', w, f);
    hide Context, Ends;
  }

  lemma StayEnds(s: State, v: View, s': State, v': View, w: Wid, f: Fid)
    requires Context(s, v, s', v', w, f)
    requires s.fibers[f].pc.Inside? || s.fibers[f].pc.Loading? || s.fibers[f].pc.Unlocking?
    ensures Ends(s, v, s', v', w, f)
  {
    WaitersStay(s, v, s', v');
    assert s'.waiters == s.waiters;
    assert Enqueued(s', v') == Enqueued(s, v);
    hide Moves, Linked, Distinct, ListsOk, Line;
  }

  lemma AppendEnds(s: State, v: View, s': State, v': View, w: Wid, f: Fid)
    requires Context(s, v, s', v', w, f) && s.fibers[f].pc.Appending?
    ensures Ends(s, v, s', v', w, f)
  {
    WaitersStay(s, v, s', v');
    assert v.grabbed == [] || s.fibers[f].pc.cur != NULL;
    hide Moves, Linked, Distinct, ListsOk;
    assert |Line(s', v')| == |Line(s, v)|;
  }

  lemma GrabEnds(s: State, v: View, s': State, v': View, w: Wid, f: Fid)
    requires Context(s, v, s', v', w, f) && s.fibers[f].pc.Grabbing?
    ensures Ends(s, v, s', v', w, f)
  {
    HeadOfStack(s, v);
    hide Linked, Distinct;
    assert s.waiters == [] && v.grabbed == [] && v.stack != [] && v'.stack == [];
    assert Enqueued(s, v) == v.stack;
  }

  lemma GrantEnds(s: State, v: View, s': State, v': View, w: Wid, f: Fid)
    requires Context(s, v, s', v', w, f) && s.fibers[f].pc.Resuming?
    ensures Ends(s, v, s', v', w, f)
  {
    hide Linked, Distinct, Moves, ListsOk;
    assert Enqueued(s, v)[0] == s.waiters[0];
  }

  lemma HeadOfStack(s: State, v: View)
    requires ListsOk(s, v)
    ensures s.word.WaitNode? ==> v.stack != [] && v.stack[0] == s.word.node && v.stack[0] in Enqueued(s, v)
  {
  }

  lemma {:induction false} UnlockEnds(s: State, v: View, w: Wid, f: Fid) returns (n: nat)
    requires Inv(s, v) && IsUnlocking(s, w, f)
    ensures var s' := Alone(s, w, Unlock, n);
      if Enqueued(s, v) == [] then s'.word == Unlocked && s'.grants == s.grants && f in s'.fibers && s'.fibers[f].pc == Outside
      else s'.grants == s.grants + [Enqueued(s, v)[0]]
    decreases UnlockLeft(s, v, f)
  {
    hide Inv, Step, Enqueued, UnlockLeft, IsUnlocking;
    var s' := Step(s, Go(w, Unlock));
    var v' := UnlockMoves(s, v, w, f);
    if IsUnlocking(s', w, f) {
      n := UnlockEnds(s', v', w, f);
      n := n + 1;
    } else {
      n := 1;
      assert Alone(s', w, Unlock, 0) == s';
    }
  }

  /**
    Unlock ends, from whatever point of Release in whatever state: left alone, it frees
    the lock if nobody waits, and otherwise gives it to somebody who does.
   */
  lemma UnlockAlone(workers: set<Wid>, es: seq<Event>, w: Wid, f: Fid) returns (n: nat)
    requires IsUnlocking(Run(Init(workers), es), w, f)
    ensures var s := Run(Init(workers), es);
      var s' := Alone(s, w, Unlock, n);
      && ((forall g :: !Waiting(s, g)) ==>
            s'.word == Unlocked && s'.grants == s.grants && f in s'.fibers && s'.fibers[f].pc == Outside)
      && ((exists g :: Waiting(s, g)) ==> exists g :: Waiting(s, g) && s'.grants == s.grants + [g])
  {
    var s := Run(Init(workers), es);
    var v := RunKeepsInv(workers, es);
    WaitersAreEnqueued(s, v);
    hide Inv, Run, Waiting, IsUnlocking;
    n := UnlockEnds(s, v, w, f);
    if Enqueued(s, v) != [] { assert Waiting(s, Enqueued(s, v)[0]); }
  }

  // ---- Lock and TryLock ----

  /** TryLock, and the fast path of Lock, succeed exactly on a free lock; a TryLock that fails changes nothing. */
  lemma TryLockExactly(workers: set<Wid>, es: seq<Event>, w: Wid, f: Fid)
    requires var s := Run(Init(workers), es);
      w in s.workers && s.workers[w] == InFiber(f) && f in s.fibers && s.fibers[f].pc == Outside
    ensures var s := Run(Init(workers), es);
      var tried, locked := Step(s, Go(w, TryLock)), Step(s, Go(w, Lock));
      && f in tried.fibers && f in locked.fibers
      && (s.word == Unlocked ==>
            && tried == locked && tried.fibers[f].pc == Inside && tried.word == LockedNoWaiters && tried.grants == s.grants + [f])
      && (s.word != Unlocked ==> tried == s && locked.grants == s.grants && locked.fibers[f].pc == AtLock)
  {
    FiberPlacement(workers, es);
    hide Run;
  }

  /** In TryLockOrEnqueue, or on the way to it from a Lock that found the lock taken. */
  predicate IsLocking(s: State, w: Wid, f: Fid) {
    && w in s.workers && f in s.fibers && s.fibers[f].pc == AtLock
    && (s.workers[w] == LockLoad(f) || s.workers[w] == LockTry(f) || (s.workers[w].LockPush? && s.workers[w].f == f)
        || (s.workers[w] == After(f) && s.fibers[f].awaiter.Locker? && s.fibers[f].state == Suspended))
  }

  function LockLeft(s: State, w: Wid): nat
    requires w in s.workers
  {
    match s.workers[w]
    case After(_) => 4
    case LockLoad(_) => 2
    case LockTry(_) => if s.word == Unlocked then 1 else 3
    case LockPush(_, expected) => if s.word == expected then 1 else 3
    case _ => 0
  }

  /** The lock is f's, and its worker goes on with it; or its Locker is enqueued, and the worker is free. */
  predicate Locked(s: State, s': State, w: Wid, f: Fid) {
    && w in s'.workers && f in s'.fibers
    && if s.word == Unlocked then s'.workers[w] == Stepping(f) && s'.grants == s.grants + [f] && s'.word == LockedNoWaiters
       else s'.workers[w] == Idle && s'.grants == s.grants && s'.word == WaitNode(f)
  }

  lemma LockMoves(s: State, w: Wid, f: Fid, choice: Choice)
    requires IsLocking(s, w, f) && !s.fault
    requires s.workers[w].LockPush? ==> s.workers[w].expected != Unlocked
    ensures var s' := Step(s, Go(w, choice));
      && !s'.fault
      && (if IsLocking(s', w, f)
          then LockLeft(s', w) < LockLeft(s, w) && s'.word == s.word && s'.grants == s.grants
               && (s'.workers[w].LockPush? ==> s'.workers[w].expected != Unlocked)
          else Locked(s, s', w, f))
      && 1 <= LockLeft(s, w) <= 4
  {
  }

  lemma {:induction false} LockEndsWithin(s: State, w: Wid, f: Fid, choice: Choice) returns (n: nat)
    requires IsLocking(s, w, f) && !s.fault && (s.workers[w].LockPush? ==> s.workers[w].expected != Unlocked)
    ensures n <= LockLeft(s, w) <= 4 && Locked(s, Alone(s, w, choice, n), w, f)
    decreases LockLeft(s, w)
  {
    var s' := Step(s, Go(w, choice));
    LockMoves(s, w, f, choice);
    hide Step, IsLocking, LockLeft;
    if IsLocking(s', w, f) {
      n := LockEndsWithin(s', w, f, choice);
      n := n + 1;
    } else {
      n := 1;
      assert Alone(s', w, choice, 0) == s';
    }
  }

  /**
    Lock ends, from whatever point of TryLockOrEnqueue in whatever state: left alone for
    four actions at most, it has the lock if that is free, and otherwise is enqueued.
   */
  lemma LockAlone(workers: set<Wid>, es: seq<Event>, w: Wid, f: Fid, choice: Choice) returns (n: nat)
    requires IsLocking(Run(Init(workers), es), w, f)
    ensures n <= 4 && Locked(Run(Init(workers), es), Alone(Run(Init(workers), es), w, choice, n), w, f)
  {
    var s := Run(Init(workers), es);
    var v := RunKeepsInv(workers, es);
    InHands(s, v, w);
    hide Inv, Run, ListsOk;
    n := LockEndsWithin(s, w, f, choice);
  }

  // ---- somebody can always move ----

  /** A worker with a fiber can act, and an idle one can take any queued fiber. */
  lemma SomebodyCanMove(workers: set<Wid>, es: seq<Event>, w: Wid)
    requires w in Run(Init(workers), es).workers
    ensures var s := Run(Init(workers), es);
      && (s.workers[w] != Idle ==> exists choice :: Step(s, Go(w, choice)) != s)
      && (s.workers[w] == Idle && s.queue != [] ==> Step(s, Pick(w, 0)) != s)
  {
    var s := Run(Init(workers), es);
    var v := RunKeepsInv(workers, es);
    FiberPlacement(workers, es);
    InHands(s, v, w);
    hide Inv, Run, ListsOk;
    if s.workers[w] == Idle {
      if s.queue != [] { assert Step(s, Pick(w, 0)).workers[w] != Idle; }
    } else {
      Acts(s, w);
    }
  }

  lemma Acts(s: State, w: Wid)
    requires w in s.workers && s.workers[w] != Idle && !s.fault && s.workers[w].f in s.fibers
    requires InHand(s.fibers[s.workers[w].f], s.workers[w])
    ensures exists choice :: Step(s, Go(w, choice)) != s
  {
    var f := s.workers[w].f;
    var pc := s.fibers[f].pc;
    var choice := if s.workers[w].InFiber? && pc.Outside? then Finish else Unlock;
    var s' := Step(s, Go(w, choice));
    if !s'.fault {
      if s.workers[w].InFiber? {
        if pc.Appending? && pc.cur != NULL {
          assert |s'.waiters| == |s.waiters| + 1;
        } else {
          assert s'.fibers[f].pc != pc;
        }
      } else {
        assert s'.workers[w] != s.workers[w];
      }
    }
    assert s' != s;
  }
}
