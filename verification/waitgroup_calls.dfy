/** What a wait group's calls come to, told from the calls themselves. */
module WaitGroupCalls {
  import opened Collections
  import opened WaitGroupModel
  import opened WaitGroupInvariant
  import opened WaitGroupSteps
  import opened WaitGroupTheorems

  function One(b: bool): nat { if b then 1 else 0 }

  // ---- the calls ----

  /** The object is there, and the count stays within its 64 bits. */
  predicate CallsAdd(s: State, e: Event) { e.Add? && s.alive && !s.fault && s.counter + e.count < SIZE_T }

  /** All that was added by the Adds of a run. */
  function Added(s: State, es: seq<Event>): nat {
    if es == [] then 0
    else
      var e := es[|es| - 1];
      Added(s, es[..|es| - 1]) + if CallsAdd(Run(s, es[..|es| - 1]), e) then e.count else 0
  }

  /** Done is called by idle fibers, as often as was added in all. */
  predicate CallsDone(s: State, e: Event, left: int) {
    e.Done? && e.f in s.pc && s.pc[e.f] == Idle && s.alive && !s.fault && left > 0
  }

  function Dones(s: State, es: seq<Event>): nat {
    if es == [] then 0
    else
      var before := es[..|es| - 1];
      Dones(s, before) + One(CallsDone(Run(s, before), es[|es| - 1], Added(s, before) - Dones(s, before)))
  }

  /** A Done comes to its fetch_sub. */
  predicate Subtracts(s: State, e: Event) { e.Go? && e.f in s.pc && s.pc[e.f].Decrementing? && s.alive && !s.fault }

  function Subtracted(s: State, es: seq<Event>): nat {
    if es == [] then 0 else Subtracted(s, es[..|es| - 1]) + One(Subtracts(Run(s, es[..|es| - 1]), es[|es| - 1]))
  }

  /** At some moment of the run a Done has subtracted the last of what had been added by then. */
  predicate CameToZero(s: State, es: seq<Event>) {
    && es != []
    && (CameToZero(s, es[..|es| - 1]) || (Subtracts(Run(s, es[..|es| - 1]), es[|es| - 1]) && Added(s, es) == Subtracted(s, es)))
  }

  /** And after such a moment something has been added. */
  predicate AddedAfterZero(s: State, es: seq<Event>) {
    && es != []
    && var before, e := es[..|es| - 1], es[|es| - 1];
      AddedAfterZero(s, before) || (CameToZero(s, before) && CallsAdd(Run(s, before), e) && e.count > 0)
  }

  // ---- what the object's state has to do with them ----

  predicate Books(s: State, added: nat, dones: nat, subtracted: nat, zero: bool, again: bool) {
    && s.owed + dones == added
    && dones == subtracted + |Where(s.pc, IsDecrementing)|
    && s.zeroed == zero && s.rearmed == again
  }

  lemma GoKeepsBooks(s: State, v: View, f: Fid, added: nat, dones: nat, subtracted: nat, zero: bool, again: bool)
    requires Inv(s, v) && f in s.pc && !s.fault && Books(s, added, dones, subtracted, zero, again)
    ensures var sub := subtracted + One(Subtracts(s, Go(f)));
      Books(GoStep(s, f), added, dones, sub, zero || (Subtracts(s, Go(f)) && added == sub), again)
  {
    if Touches(s.pc[f]) && !s.alive {
    } else if s.pc[f].Decrementing? {
      CountMoves(s, f, DecrementStep(s, f).pc[f]);
      hide Where;
    } else {
      OthersKeepCount(s, f);
      hide Where, GoStep, Inv;
    }
  }

  /** Nothing but a Done's own action counts. */
  lemma OthersKeepCount(s: State, f: Fid)
    requires f in s.pc && !s.pc[f].Decrementing?
    ensures var s' := GoStep(s, f);
      && |Where(s'.pc, IsDecrementing)| == |Where(s.pc, IsDecrementing)|
      && s'.owed == s.owed && s'.zeroed == s.zeroed && s'.rearmed == s.rearmed
  {
    OthersStayOut(s, f);
    WhereSame(s.pc, GoStep(s, f).pc, IsDecrementing);
    hide Where;
  }

  /** Fiber f moves: the books and the decrementing fibers are as they were, and of the others some may be woken. */
  predicate Out(s: State, s': State, f: Fid) {
    && s'.pc.Keys == s.pc.Keys && s'.owed == s.owed && s'.zeroed == s.zeroed && s'.rearmed == s.rearmed
    && forall g {:trigger s'.pc[g]} | g in s.pc ::
      && IsDecrementing(s'.pc[g]) == IsDecrementing(s.pc[g])
      && (g == f || s'.pc[g] == s.pc[g] || s'.pc[g].Woken?)
  }

  lemma OthersStayOut(s: State, f: Fid)
    requires f in s.pc && !s.pc[f].Decrementing?
    ensures Out(s, GoStep(s, f), f)
  {
    hide PushStep, BuildStep, ScheduleStep, ReturnStep, FireStep, ExchangeStep, DecrementStep, Out, At;
    SameIsOut(s, f);
    match s.pc[f]
    case Pushing(expected) => PushesOut(s, f, expected);
    case Building(cur, list) => BuildsOut(s, f, cur, list);
    case Scheduling(list) => SchedulesOut(s, f, list);
    case Firing => FiresOut(s, f);
    case Exchanging => ExchangesOut(s, f);
    case _ =>
      MovesOut(s, f, Loading);
      MovesOut(s, f, Pushing(s.word));
      ReturnsOut(s, f);
  }

  lemma SameIsOut(s: State, f: Fid)
    ensures Out(s, s, f) && Out(s, s.(fault := true), f)
  {
  }

  lemma MovesOut(s: State, f: Fid, p: Pc)
    requires f in s.pc && !s.pc[f].Decrementing? && !p.Decrementing?
    ensures Out(s, At(s, f, p), f)
  {
  }

  lemma ReturnsOut(s: State, f: Fid)
    requires f in s.pc && !s.pc[f].Decrementing?
    ensures Out(s, ReturnStep(s, f), f)
  {
  }

  lemma FiresOut(s: State, f: Fid)
    requires f in s.pc && !s.pc[f].Decrementing?
    ensures Out(s, FireStep(s, f), f)
  {
  }

  lemma ExchangesOut(s: State, f: Fid)
    requires f in s.pc && !s.pc[f].Decrementing?
    ensures Out(s, ExchangeStep(s, f), f)
  {
  }

  lemma PushesOut(s: State, f: Fid, expected: Word)
    requires f in s.pc && !s.pc[f].Decrementing?
    ensures Out(s, PushStep(s, f, expected), f)
  {
  }

  lemma BuildsOut(s: State, f: Fid, cur: Fid, list: seq<Fid>)
    requires f in s.pc && !s.pc[f].Decrementing?
    ensures Out(s, BuildStep(s, f, cur, list), f)
  {
    hide NextOf;
  }

  lemma SchedulesOut(s: State, f: Fid, list: seq<Fid>)
    requires f in s.pc && !s.pc[f].Decrementing?
    ensures Out(s, ScheduleStep(s, f, list), f)
  {
  }

  lemma StepKeepsBooks(s: State, v: View, e: Event, added: nat, dones: nat, subtracted: nat, zero: bool, again: bool)
    requires Inv(s, v) && Books(s, added, dones, subtracted, zero, again)
    ensures
      var add := added + (if CallsAdd(s, e) then e.count else 0);
      var sub := subtracted + One(Subtracts(s, e));
      Books(Step(s, e), add, dones + One(CallsDone(s, e, added - dones)), sub,
        zero || (Subtracts(s, e) && add == sub), again || (zero && CallsAdd(s, e) && e.count > 0))
  {
    if !s.fault {
      match e
      case Go(f) => if f in s.pc { GoKeepsBooks(s, v, f, added, dones, subtracted, zero, again); }
      case Done(f) => if f in s.pc { CountMoves(s, f, Decrementing); hide Where; }
      case Wait(f) => if f in s.pc { CountMoves(s, f, Reading); hide Where; }
      case _ =>
    }
  }

  lemma {:induction false} RunKeepsBooks(fibers: set<Fid>, es: seq<Event>)
    ensures var s0 := Init(fibers);
      Books(Run(s0, es), Added(s0, es), Dones(s0, es), Subtracted(s0, es), CameToZero(s0, es), AddedAfterZero(s0, es))
  {
    var s0 := Init(fibers);
    if es == [] {
      var pc: map<Fid, Pc> := s0.pc;
      assert Where(pc, IsDecrementing) == {};
    } else {
      var b := es[..|es| - 1];
      RunKeepsBooks(fibers, b);
      var v := RunKeepsInv(fibers, b);
      hide Inv, Step;
      StepKeepsBooks(Run(s0, b), v, es[|es| - 1], Added(s0, b), Dones(s0, b), Subtracted(s0, b), CameToZero(s0, b), AddedAfterZero(s0, b));
      hide Books;
    }
  }

  // ---- the theorems ----

  /**
    The counter is what was added less what was subtracted; each Done subtracts once,
    but for those that have not come to it yet.
   */
  lemma CounterIsAddsLessDones(fibers: set<Fid>, es: seq<Event>)
    ensures var s0 := Init(fibers);
      var s := Run(s0, es);
      && s.counter == Added(s0, es) - Subtracted(s0, es)
      && Dones(s0, es) == Subtracted(s0, es) + |Where(s.pc, IsDecrementing)|
  {
    var v := RunKeepsInv(fibers, es);
    RunKeepsBooks(fibers, es);
  }

  /**
    Wait waits. If nothing is added once the count has come to zero, whoever has come
    back from Wait finds every Done called that was announced by an Add, and finished
    subtracting; and nothing that is gone is touched.
   */
  lemma WaitsForEveryDone(fibers: set<Fid>, es: seq<Event>)
    requires !AddedAfterZero(Init(fibers), es)
    ensures var s0 := Init(fibers);
      var s := Run(s0, es);
      && !s.fault
      && (s.returned != {} ==> Dones(s0, es) == Added(s0, es) == Subtracted(s0, es))
      && (!s.alive ==> forall f | f in s.pc :: !Touches(s.pc[f]) && !InWait(s.pc[f]))
  {
    RunKeepsBooks(fibers, es);
    CounterIsAddsLessDones(fibers, es);
    SafeAndNotEarly(fibers, es);
  }

  /**
    A fiber inside Wait leaves it by its own action and only once the event is
    signalled, which it is only after the count has come to zero.
   */
  lemma WaitEndsOnSignal(fibers: set<Fid>, es: seq<Event>, e: Event, f: Fid)
    requires var s := Run(Init(fibers), es); f in s.pc && InWait(s.pc[f])
    ensures var s := Run(Init(fibers), es);
      var s' := Step(s, e);
      && f in s'.pc
      && (!InWait(s'.pc[f]) ==>
            e == Go(f) && s'.pc[f] == Idle && f in s'.returned && s.word == Signaled && CameToZero(Init(fibers), es))
  {
    var s := Run(Init(fibers), es);
    var v := RunKeepsInv(fibers, es);
    RunKeepsBooks(fibers, es);
    Known(s, v, f);
    hide Inv, ListsOk, Run, Where;
    if e.Go? && e.f in s.pc && e.f != f {
      OthersLeaveWaiting(s, e.f, f);
      hide GoStep;
    } else if e.Go? && !s.fault {
      OwnWaitStep(s, v, f);
      hide GoStep;
    }
  }

  lemma OwnWaitStep(s: State, v: View, f: Fid)
    requires f in s.pc && InWait(s.pc[f]) && FiberOk(s, v, f)
    ensures var s' := GoStep(s, f);
      && f in s'.pc
      && (!InWait(s'.pc[f]) ==> s'.pc[f] == Idle && f in s'.returned && s.word == Signaled)
  {
    hide NextOf, BuildStep, ScheduleStep, FireStep, ExchangeStep, Waiting;
  }

  lemma OthersLeaveWaiting(s: State, g: Fid, f: Fid)
    requires f in s.pc && g in s.pc && g != f && InWait(s.pc[f])
    ensures f in GoStep(s, g).pc && InWait(GoStep(s, g).pc[f])
  {
    if s.pc[g].Decrementing? {
      hide InWait;
      assert f in GoStep(s, g).pc && GoStep(s, g).pc[f] == s.pc[f];
    } else {
      hide GoStep;
      OthersStayOut(s, g);
    }
  }

  // ---- progress ----

  /** How many actions fiber f is from having nothing to do, if nobody gets in its way. */
  function ActionsLeft(s: State, f: Fid): int
    requires f in s.pc
  {
    var chain := |s.enqueued| - |s.scheduled|;
    match s.pc[f]
    case Idle => 0
    case Parked => 0
    case Reading => 3
    case Loading => 2
    case Pushing(expected) => if s.word == expected then 1 else 3
    case Woken => 1
    case Decrementing => 2 * chain + 5
    case Firing => 2 * chain + 4
    case Exchanging => 2 * chain + 3
    case Building(_, list) => 2 * (chain - |list|) + |list| + 2
    case Scheduling(list) => |list| + 1
  }

  /** Whatever the others have left behind, each action of a fiber on its own brings it nearer to the end, or goes wrong. */
  lemma ActionIsProgress(fibers: set<Fid>, es: seq<Event>, f: Fid)
    requires var s := Run(Init(fibers), es); f in s.pc && s.pc[f] != Idle && s.pc[f] != Parked && !s.fault
    ensures var s := Run(Init(fibers), es);
      var s' := Step(s, Go(f));
      s'.fault || (f in s'.pc && 0 <= ActionsLeft(s', f) < ActionsLeft(s, f))
  {
    var s := Run(Init(fibers), es);
    var v := RunKeepsInv(fibers, es);
    Known(s, v, f);
    Lengths(s, v);
    if s.pc[f].Building? { BuildLists(s, v, f); }
    if s.pc[f].Scheduling? && s.pc[f].list != [] { FirstAlive(s, v, f); }
    hide Inv, Whole, Run;
    Progress(s, v, f);
  }

  lemma Lengths(s: State, v: View)
    requires Whole(s, v)
    ensures |s.enqueued| - |s.scheduled| == |ListOf(BuilderPc(s, v))| + |v.grabbed| + |v.stack|
  {
    ReversedLength(s.enqueued);
    assert |s.scheduled + Waiting(s, v)| == |s.scheduled| + |Waiting(s, v)|;
  }

  lemma Progress(s: State, v: View, f: Fid)
    requires f in s.pc && s.pc[f] != Idle && s.pc[f] != Parked && !s.fault && FiberOk(s, v, f)
    requires |s.enqueued| - |s.scheduled| == |ListOf(BuilderPc(s, v))| + |v.grabbed| + |v.stack|
    requires s.pc[f].Building? && s.pc[f].cur != NULL ==> v.grabbed != [] && AwaiterAlive(s, s.pc[f].cur)
    requires s.pc[f].Scheduling? && s.pc[f].list != [] ==> AwaiterAlive(s, s.pc[f].list[0])
    ensures var s' := Step(s, Go(f));
      s'.fault || (f in s'.pc && 0 <= ActionsLeft(s', f) < ActionsLeft(s, f))
  {
    hide Waiting, NextOf;
    if IsBuilding(s.pc[f]) {
      hide PushStep, DecrementStep, FireStep, ExchangeStep, ReturnStep;
    } else {
      hide BuildStep, ScheduleStep;
    }
  }
}
