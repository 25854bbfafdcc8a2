/** What every step of the mutex and of the fiber runtime keeps. */
module MutexInvariant {
  import opened Collections
  import opened MutexModel

  /** The one place where a fiber is. */
  datatype Place =
    | InQueue
    | On(w: Wid)                        // the worker's current fiber
    | Handed(w: Wid)                    // the fiber the worker goes on with, by hand-off
    | Parked                            // its Locker is enqueued

  /** `stack` hangs from the state word, `grabbed` from the cursor of AppendToList, both newest first. */
  datatype View = View(stack: seq<Fid>, grabbed: seq<Fid>, place: map<Fid, Place>)

  /** The last one who was given the lock and has not given it back; 0 if nobody. */
  function Owner(s: State): Fid {
    if s.word == Unlocked || s.grants == [] then NULL else s.grants[|s.grants| - 1]
  }

  /** Waiters the owner has in hand, in the order in which they will get the lock. */
  function Line(s: State, v: View): seq<Fid> { s.waiters + v.grabbed }

  /** Every enqueued Locker. */
  function Enqueued(s: State, v: View): seq<Fid> { s.waiters + v.grabbed + v.stack }

  function Cur(work: Work): Fid { if work == Idle then NULL else work.f }

  /** The fiber that worker w will run after its current one. */
  function Carried(s: State, w: Wid): Fid
    requires w in s.workers
  {
    match s.workers[w]
    case HandOff(_, n) => n
    case After(f) => if f in s.fibers && s.fibers[f].awaiter.Unlocker? then s.fibers[f].awaiter.next else NULL
    case _ => NULL
  }

  predicate Releasing(pc: Pc) {
    pc.Loading? || pc.Unlocking? || pc.Grabbing? || pc.Appending? || pc.Resuming?
  }

  /** The fiber's own code is between taking the lock and giving it back. */
  predicate Critical(pc: Pc) { pc.Inside? || Releasing(pc) || pc == AtYield(true) }

  predicate IsSuspension(pc: Pc) { pc.AtLock? || pc.AtUnlock? || pc.AtYield? }

  /** In possession of the lock, the hand-off in flight included. */
  predicate Holds(s: State, v: View, f: Fid)
    requires f in s.fibers && f in v.place
  {
    || Critical(s.fibers[f].pc)
    || (s.fibers[f].pc.AtLock?
        && (v.place[f].Handed? || (v.place[f].On? && v.place[f].w in s.workers && s.workers[v.place[f].w].Stepping?)))
  }

  ghost predicate FiberOk(s: State, v: View, f: Fid)
    requires f in s.fibers && f in v.place
  {
    var fiber := s.fibers[f];
    && f != NULL
    && (f in s.queue <==> v.place[f] == InQueue)
    && (f in Enqueued(s, v) <==> v.place[f] == Parked)
    && (Holds(s, v, f) <==> Owner(s) == f)
    && match v.place[f]
       case InQueue => fiber.state == Queued && fiber.awaiter == NoAwaiter && (fiber.pc.Fresh? || fiber.pc.AtUnlock? || fiber.pc.AtYield?)
       case Parked => fiber == Fiber(Suspended, NoAwaiter, AtLock)
       case Handed(w) => fiber == Fiber(Suspended, NoAwaiter, AtLock) && w in s.workers && Carried(s, w) == f
       case On(w) => w in s.workers && Cur(s.workers[w]) == f
  }

  /** The fiber in a worker's hands, according to where the worker stands in Run. */
  predicate InHand(fiber: Fiber, work: Work)
    requires work != Idle
  {
    match work
    case Stepping(_) => fiber.awaiter == NoAwaiter && fiber.state != Running && (fiber.pc.Fresh? || IsSuspension(fiber.pc))
    case InFiber(_) => fiber.awaiter == NoAwaiter && fiber.state == Running && !fiber.pc.Fresh? && !IsSuspension(fiber.pc) && !fiber.pc.Completed?
    case After(_) =>
      if fiber.pc == Completed then fiber.awaiter == NoAwaiter
      else
        && fiber.state == Suspended
        && IsSuspension(fiber.pc)
        && (fiber.pc.AtLock? <==> fiber.awaiter.Locker?)
        && (fiber.pc.AtYield? <==> fiber.awaiter.Yielder?)
        && (fiber.pc.AtUnlock? <==> fiber.awaiter.Unlocker? && fiber.awaiter.next != NULL)
    case HandOff(_, n) => fiber == Fiber(Suspended, NoAwaiter, AtUnlock) && n != NULL
    case LockPush(_, expected) => fiber == Fiber(Suspended, NoAwaiter, AtLock) && expected != Unlocked
    case _ => fiber == Fiber(Suspended, NoAwaiter, AtLock)
  }

  ghost predicate WorkerOk(s: State, v: View, w: Wid)
    requires w in s.workers
  {
    s.workers[w] != Idle ==>
      && Cur(s.workers[w]) in s.fibers && Cur(s.workers[w]) in v.place && v.place[Cur(s.workers[w])] == On(w)
      && InHand(s.fibers[Cur(s.workers[w])], s.workers[w])
      && (Carried(s, w) != NULL ==> Carried(s, w) in s.fibers && Carried(s, w) in v.place && v.place[Carried(s, w)] == Handed(w))
  }

  /** The two lists, and what the owner of the lock knows about them. */
  ghost predicate ListsOk(s: State, v: View) {
    && Distinct(Enqueued(s, v))
    && (if s.word.WaitNode? then v.stack != [] && Linked(s.next, NULL, s.word.node, v.stack) else v.stack == [])
    && (forall g | g in Enqueued(s, v) :: g in s.fibers)
    && (s.word == Unlocked ==> Enqueued(s, v) == [])
    && (s.word != Unlocked ==> Owner(s) in s.fibers && OwnerKnows(s, v, s.fibers[Owner(s)].pc))
  }

  ghost predicate OwnerKnows(s: State, v: View, pc: Pc) {
    && (pc.Appending? ==> Linked(s.next, NULL, pc.cur, v.grabbed) && Line(s, v) != [])
    && (!pc.Appending? ==> v.grabbed == [])
    && (pc.Loading? || pc.Unlocking? || pc.Grabbing? ==> s.waiters == [])
    && (pc.Grabbing? ==> s.word.WaitNode?)
    && (pc.Resuming? ==> s.waiters != [])
  }

  ghost predicate Whole(s: State, v: View) {
    && !s.fault
    && v.place.Keys == s.fibers.Keys
    && Distinct(s.queue)
    && (forall g | g in s.queue :: g in s.fibers)
    && ListsOk(s, v)
  }

  ghost predicate Inv(s: State, v: View) {
    && Whole(s, v)
    && (forall f {:trigger FiberOk(s, v, f)} | f in s.fibers :: FiberOk(s, v, f))
    && (forall w {:trigger WorkerOk(s, v, w)} | w in s.workers :: WorkerOk(s, v, w))
  }

  /** What the invariant says of a worker and of the fibers in its hands. */
  lemma InHands(s: State, v: View, w: Wid)
    requires Inv(s, v) && w in s.workers
    ensures Whole(s, v) && WorkerOk(s, v, w)
    ensures var f, n := Cur(s.workers[w]), Carried(s, w);
      && (f in s.fibers ==> FiberOk(s, v, f))
      && (n in s.fibers ==> FiberOk(s, v, n))
  {
  }

  lemma Known(s: State, v: View, f: Fid)
    requires Inv(s, v)
    ensures Whole(s, v)
    ensures f in s.fibers ==> FiberOk(s, v, f)
  {
  }

  // ---- what an action leaves alone ----

  /** No worker but w (-1: none at all) and no fibers but those of `fs` are concerned by the action. */
  ghost predicate Confined(s: State, v: View, s': State, v': View, w: int, fs: set<Fid>)
    requires v.place.Keys == s.fibers.Keys
  {
    && v'.place.Keys == s'.fibers.Keys
    && s'.workers.Keys == s.workers.Keys
    && (forall u | u in s.workers && u != w :: s'.workers[u] == s.workers[u])
    && (forall g | g !in fs :: g in s.fibers <==> g in s'.fibers)
    && (forall g | g !in fs && g in s.fibers :: s'.fibers[g] == s.fibers[g] && v'.place[g] == v.place[g])
    && (forall g | g !in fs :: g in s'.queue <==> g in s.queue)
    && (forall g | g !in fs :: g in Enqueued(s', v') <==> g in Enqueued(s, v))
    && (forall g | g !in fs && g != NULL :: Owner(s') == g <==> Owner(s) == g)
    && (w in s.workers ==> Cur(s.workers[w]) in fs + {NULL} && Carried(s, w) in fs + {NULL})
    && (forall g, u | g in fs && g in v.place && (v.place[g] == On(u) || v.place[g] == Handed(u)) :: u == w)
  }

  lemma OtherFibersKept(s: State, v: View, s': State, v': View, w: int, fs: set<Fid>)
    requires Inv(s, v) && Confined(s, v, s', v', w, fs)
    ensures forall g | g in s'.fibers && g !in fs :: FiberOk(s', v', g)
  {
    forall g | g in s'.fibers && g !in fs
      ensures FiberOk(s', v', g)
    {
      assert FiberOk(s, v, g);
      var p := v.place[g];
      if p.On? || p.Handed? {
        assert p.w != w;
        assert WorkerOk(s, v, p.w);
        var f := Cur(s.workers[p.w]);
        assert f !in fs;
      }
    }
  }

  lemma OtherWorkersKept(s: State, v: View, s': State, v': View, w: int, fs: set<Fid>)
    requires Inv(s, v) && Confined(s, v, s', v', w, fs)
    ensures forall u | u in s'.workers && u != w :: WorkerOk(s', v', u)
  {
    forall u | u in s'.workers && u != w
      ensures WorkerOk(s', v', u)
    {
      assert WorkerOk(s, v, u);
    }
  }

  /** What is left to show for one action. */
  lemma Concludes(s: State, v: View, s': State, v': View, w: int, fs: set<Fid>)
    requires Inv(s, v) && Confined(s, v, s', v', w, fs)
    requires !s'.fault && Distinct(s'.queue) && (forall g | g in s'.queue && g in fs :: g in s'.fibers)
    requires ListsOk(s', v')
    requires forall f | f in fs && f in s'.fibers :: FiberOk(s', v', f)
    requires w in s.workers ==> WorkerOk(s', v', w)
    ensures Inv(s', v')
  {
    hide FiberOk, WorkerOk, ListsOk;
    OtherFibersKept(s, v, s', v', w, fs);
    OtherWorkersKept(s, v, s', v', w, fs);
    forall g | g in s'.queue
      ensures g in s'.fibers
    {
      if g !in fs { assert g in s.queue; }
    }
  }
}
