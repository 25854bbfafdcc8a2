/** What holds of every run of a wait group, and exactly when one can go wrong. */
module WaitGroupTheorems {
  import opened Wrappers
  import opened Collections
  import opened WaitGroupModel
  import opened WaitGroupInvariant
  import opened WaitGroupSteps

  lemma InitInv(fibers: set<Fid>) returns (v: View)
    ensures Inv(Init(fibers), v)
  {
    v := View([], [], None);
    var pc: map<Fid, Pc> := Init(fibers).pc;
    assert Where(pc, IsDecrementing) == {};
  }

  lemma {:induction false} RunKeepsInv(fibers: set<Fid>, es: seq<Event>) returns (v: View)
    ensures Inv(Run(Init(fibers), es), v)
  {
    if es == [] {
      v := InitInv(fibers);
    } else {
      v := RunKeepsInv(fibers, es[..|es| - 1]);
      v := StepKeepsInv(Run(Init(fibers), es[..|es| - 1]), v, es[|es| - 1]);
    }
  }

  // ---- what every run keeps ----

  /**
    Waiters are scheduled once each, newest first; those enqueued and not scheduled
    are exactly the fibers suspended in Wait.
   */
  lemma ScheduledOnce(fibers: set<Fid>, es: seq<Event>)
    ensures var s := Run(Init(fibers), es);
      && s.scheduled <= Reversed(s.enqueued)
      && Distinct(Reversed(s.enqueued))
      && (forall f :: f in s.pc && s.pc[f].Parked? <==> f in s.enqueued && f !in s.scheduled)
  {
    var s := Run(Init(fibers), es);
    var v := RunKeepsInv(fibers, es);
    var all := Reversed(s.enqueued);
    ReversedMembers(s.enqueued);
    assert all == s.scheduled + Waiting(s, v);
    DistinctParts(s.scheduled, Waiting(s, v));
    forall f
      ensures f in s.pc && s.pc[f].Parked? <==> f in s.enqueued && f !in s.scheduled
    {
      if f in s.pc { Known(s, v, f); }
      assert f in all <==> f in s.scheduled || f in Waiting(s, v);
    }
  }

  /** The awaiters that a firing walks through and schedules are all still there. */
  lemma AwaitersAreAlive(fibers: set<Fid>, es: seq<Event>, f: Fid)
    requires var s := Run(Init(fibers), es); f in s.pc && IsBuilding(s.pc[f])
    ensures var s := Run(Init(fibers), es);
      && (forall n | n in s.pc[f].list :: AwaiterAlive(s, n))
      && (s.pc[f].Building? && s.pc[f].cur != NULL ==> AwaiterAlive(s, s.pc[f].cur))
  {
    var s := Run(Init(fibers), es);
    var v := RunKeepsInv(fibers, es);
    Known(s, v, f);
    forall n | n in s.pc[f].list
      ensures AwaiterAlive(s, n)
    {
      assert n in Waiting(s, v);
      Known(s, v, n);
    }
    if s.pc[f].Building? && s.pc[f].cur != NULL {
      assert Waiting(s, v)[|s.pc[f].list|] == s.pc[f].cur;
      Known(s, v, s.pc[f].cur);
    }
  }

  predicate Quiet(s: State) { forall f | f in s.pc :: s.pc[f].Idle? || s.pc[f].Parked? }

  /** When the count has ever come to zero and nobody is on the move, everyone who waited has been woken. */
  lemma NobodyLeftWaiting(fibers: set<Fid>, es: seq<Event>)
    requires Quiet(Run(Init(fibers), es))
    ensures var s := Run(Init(fibers), es);
      s.zeroed ==> s.word == Signaled && s.scheduled == Reversed(s.enqueued) && forall f | f in s.pc :: s.pc[f].Idle?
  {
    var s := Run(Init(fibers), es);
    var v := RunKeepsInv(fibers, es);
    if s.zeroed {
      assert Where(s.pc, IsSignalling) == {};
      if v.builder.Some? { Known(s, v, v.builder.value); }
      assert Waiting(s, v) == [];
      assert s.scheduled + Waiting(s, v) == s.scheduled;
      forall f | f in s.pc
        ensures s.pc[f].Idle?
      {
        Known(s, v, f);
      }
    }
  }

  lemma StaysSignaled(s: State, e: Event)
    requires s.word == Signaled && (e.Go? && e.f in s.pc && s.pc[e.f].Pushing? ==> s.pc[e.f].expected != Signaled)
    ensures Step(s, e).word == Signaled && Step(s, e).enqueued == s.enqueued
  {
    hide NextOf, AwaiterAlive;
    if e.Go? && e.f in s.pc {
      if s.pc[e.f].Pushing? { hide ScheduleStep, BuildStep; } else { hide PushStep; }
    }
  }

  lemma RunSnoc(s: State, es: seq<Event>, e: Event)
    ensures Run(s, es + [e]) == Step(Run(s, es), e)
  {
    assert (es + [e])[..|es + [e]| - 1] == es;
  }

  /** The signal is for good, and nobody enqueues after it. */
  lemma {:induction false} NoneAfterSignaled(fibers: set<Fid>, es0: seq<Event>, es: seq<Event>)
    requires Run(Init(fibers), es0).word == Signaled
    ensures var s0, s := Run(Init(fibers), es0), Run(Init(fibers), es0 + es);
      s.word == Signaled && s.enqueued == s0.enqueued
  {
    hide Run, Init, Step, Inv, Whole;
    if es == [] {
      assert es0 + es == es0;
    } else {
      var before, e := es[..|es| - 1], es[|es| - 1];
      assert es0 + es == (es0 + before) + [e];
      var s := Run(Init(fibers), es0 + before);
      RunSnoc(Init(fibers), es0 + before, e);
      NoneAfterSignaled(fibers, es0, before);
      var v := RunKeepsInv(fibers, es0 + before);
      if e.Go? && e.f in s.pc { Known(s, v, e.f); }
      StaysSignaled(s, e);
    }
  }

  // ---- when a run goes wrong ----

  /** Until the object is misused one fiber at most is bound for the exchange, with the chain in place; and the dead are left alone. */
  ghost predicate Orderly(s: State) {
    && (forall f | f in s.pc && s.pc[f].Exchanging? :: s.word.WaitNode?)
    && (forall f, g | f in s.pc && g in s.pc && s.pc[f].Exchanging? && s.pc[g].Exchanging? :: f == g)
    && (s.alive || forall f | f in s.pc :: !Touches(s.pc[f]))
  }

  lemma OrderlyStepIsSafe(s: State, e: Event, v: View)
    requires Inv(s, v) && Orderly(s) && !s.fault
    ensures !Step(s, e).fault
  {
    if e.Go? && e.f in s.pc {
      Known(s, v, e.f);
      match s.pc[e.f]
      case Building(cur, list) => BuildLists(s, v, e.f);
      case Scheduling(list) => if list != [] { FirstAlive(s, v, e.f); }
      case _ => hide Inv;
    }
  }

  lemma FirstAlive(s: State, v: View, f: Fid)
    requires Inv(s, v) && f in s.pc && s.pc[f].Scheduling? && s.pc[f].list != []
    ensures AwaiterAlive(s, s.pc[f].list[0])
  {
    Known(s, v, f);
    assert Waiting(s, v)[0] == s.pc[f].list[0];
    Known(s, v, s.pc[f].list[0]);
  }

  predicate Neutral(p: Pc) { !p.Decrementing? && !IsSignalling(p) }

  predicate AsideAt(s: State, p: Pc, p': Pc) {
    p' == p || (Neutral(p) && Neutral(p') && (s.alive || !Touches(p')))
  }

  /** A step outside Done and Fire leaves those inside alone, and gives no signal. */
  predicate Aside(s: State, s': State) {
    && s'.pc.Keys == s.pc.Keys && s'.counter == s.counter && s'.zeroed == s.zeroed && s'.rearmed == s.rearmed && s'.alive == s.alive
    && (s'.word == s.word || (s.word != Signaled && s'.word.WaitNode?))
    && (forall f {:trigger s'.pc[f]} | f in s.pc :: AsideAt(s, s.pc[f], s'.pc[f]))
  }

  lemma WaiterStepsAside(s: State, f: Fid)
    requires f in s.pc && InWait(s.pc[f]) && s.alive && (s.pc[f].Pushing? ==> s.pc[f].expected != Signaled)
    ensures Aside(s, GoStep(s, f))
  {
  }

  lemma BuilderStepsAside(s: State, f: Fid)
    requires f in s.pc && IsBuilding(s.pc[f])
    ensures Aside(s, GoStep(s, f))
  {
    if s.pc[f].Building? { BuildsAside(s, f, s.pc[f].cur, s.pc[f].list); } else { SchedulesAside(s, f, s.pc[f].list); }
    hide BuildStep, ScheduleStep, Aside;
  }

  lemma BuildsAside(s: State, f: Fid, cur: Fid, list: seq<Fid>)
    requires f in s.pc && IsBuilding(s.pc[f])
    ensures Aside(s, BuildStep(s, f, cur, list))
  {
    hide AwaiterAlive, NextOf;
  }

  lemma SchedulesAside(s: State, f: Fid, list: seq<Fid>)
    requires f in s.pc && IsBuilding(s.pc[f])
    ensures Aside(s, ScheduleStep(s, f, list))
  {
    if list == [] || !AwaiterAlive(s, list[0]) {
      hide AwaiterAlive;
    }
  }

  lemma AsideStaysOrderly(s: State, s': State)
    requires Orderly(s) && Aside(s, s')
    ensures Orderly(s')
  {
    assert forall f | f in s.pc :: AsideAt(s, s.pc[f], s'.pc[f]);
  }

  lemma AsideStaysSingle(s: State, s': State)
    requires Single(s) && Aside(s, s')
    ensures Single(s')
  {
    assert forall f | f in s.pc :: AsideAt(s, s.pc[f], s'.pc[f]);
  }

  lemma StaysOrderly(s: State, e: Event, v: View)
    requires Inv(s, v) && Orderly(s) && !s.fault && !Misuse(s, e)
    ensures Orderly(Step(s, e))
  {
    if e.Go? && e.f in s.pc {
      Known(s, v, e.f);
      hide Inv, Orderly, Aside, Misuse, GoStep;
      if InWait(s.pc[e.f]) {
        WaiterStepsAside(s, e.f);
        AsideStaysOrderly(s, GoStep(s, e.f));
      } else if IsBuilding(s.pc[e.f]) {
        BuilderStepsAside(s, e.f);
        AsideStaysOrderly(s, GoStep(s, e.f));
      } else {
        FiringStaysOrderly(s, e.f, v);
      }
    } else {
      hide Inv;
    }
  }

  lemma FiringStaysOrderly(s: State, f: Fid, v: View)
    requires f in s.pc && FiberOk(s, v, f) && Orderly(s) && !Misuse(s, Go(f)) && !InWait(s.pc[f]) && !IsBuilding(s.pc[f])
    ensures Orderly(GoStep(s, f))
  {
    hide Waiting;
  }

  lemma MisusedPrefix(s: State, es: seq<Event>)
    requires es != [] && !Misused(s, es)
    ensures !Misused(s, es[..|es| - 1]) && !Misuse(Run(s, es[..|es| - 1]), es[|es| - 1])
  {
    var n := |es| - 1;
    forall i | 0 <= i < n
      ensures !Misuse(Run(s, es[..n][..i]), es[..n][i])
    {
      assert es[..n][..i] == es[..i];
    }
  }

  /** A run on which the object is never misused touches nothing that is gone. */
  lemma {:induction false} SafeUnlessMisused(fibers: set<Fid>, es: seq<Event>)
    requires !Misused(Init(fibers), es)
    ensures var s := Run(Init(fibers), es); !s.fault && Orderly(s)
  {
    if es != [] {
      var n := |es| - 1;
      MisusedPrefix(Init(fibers), es);
      SafeUnlessMisused(fibers, es[..n]);
      var s := Run(Init(fibers), es[..n]);
      var v := RunKeepsInv(fibers, es[..n]);
      OrderlyStepIsSafe(s, es[n], v);
      StaysOrderly(s, es[n], v);
    }
  }

  lemma {:induction false} RunAppend(s: State, es: seq<Event>, fs: seq<Event>)
    ensures Run(s, es + fs) == Run(Run(s, es), fs)
  {
    if fs == [] {
      assert es + fs == es;
    } else {
      RunAppend(s, es, fs[..|fs| - 1]);
      assert es + fs == (es + fs[..|fs| - 1]) + [fs[|fs| - 1]];
      RunSnoc(s, es + fs[..|fs| - 1], fs[|fs| - 1]);
    }
  }

  lemma RunOne(s: State, e: Event)
    ensures Run(s, [e]) == Step(s, e)
  {
    assert [e][..0] == [];
  }

  /** From a misuse some continuation goes wrong. */
  lemma MisuseFaults(s: State, e: Event) returns (fs: seq<Event>)
    requires !s.fault && Misuse(s, e)
    ensures Run(s, [e] + fs).fault
  {
    RunOne(s, e);
    var s1 := Step(s, e);
    if e.Go? {
      var g :| g in s.pc && g != e.f && s.pc[g].Exchanging?;
      fs := [Go(e.f), Go(g)];
      RunOne(s1, Go(e.f));
      RunSnoc(s1, [Go(e.f)], Go(g));
      assert [Go(e.f)] + [Go(g)] == fs;
    } else {
      var f :| f in s.pc && Touches(s.pc[f]);
      fs := [Go(f)];
      RunOne(s1, Go(f));
    }
    RunAppend(s, [e], fs);
  }

  lemma {:induction false} FirstMisuse(s: State, es: seq<Event>) returns (n: nat)
    requires Misused(s, es)
    ensures n < |es| && !Misused(s, es[..n]) && Misuse(Run(s, es[..n]), es[n])
    decreases |es|
  {
    var i: nat :| i < |es| && Misuse(Run(s, es[..i]), es[i]);
    if Misused(s, es[..i]) {
      n := FirstMisuse(s, es[..i]);
      assert es[..i][..n] == es[..n];
    } else {
      n := i;
    }
  }

  /** The exact condition for safety: fibers can come to touch what is gone exactly if they can come to misuse the object. */
  lemma FaultsExactlyByMisuse(fibers: set<Fid>)
    ensures (exists es :: Run(Init(fibers), es).fault) <==> (exists es :: Misused(Init(fibers), es))
  {
    var s0 := Init(fibers);
    hide Init, Misuse, Misused, Run, Orderly;
    if es :| Run(s0, es).fault {
      if !Misused(s0, es) { SafeUnlessMisused(fibers, es); }
      assert Misused(s0, es);
    }
    if es :| Misused(s0, es) {
      var n := FirstMisuse(s0, es);
      SafeUnlessMisused(fibers, es[..n]);
      var fs := MisuseFaults(Run(s0, es[..n]), es[n]);
      RunAppend(s0, es[..n], [es[n]] + fs);
      assert Run(s0, es[..n] + ([es[n]] + fs)).fault;
    }
  }

  // ---- the intended use: nobody adds to a count that has come to zero ----

  /** Then the count stays at zero, and there is one firing. */
  ghost predicate Single(s: State) {
    !s.rearmed && s.zeroed ==>
      && s.counter == 0
      && (forall f | f in s.pc && IsSignalling(s.pc[f]) :: s.word != Signaled)
      && (forall f, g | f in s.pc && g in s.pc && IsSignalling(s.pc[f]) && IsSignalling(s.pc[g]) :: f == g)
  }

  lemma NobodySignalsYet(s: State, v: View)
    requires Inv(s, v) && !s.zeroed
    ensures s.word != Signaled && forall f | f in s.pc :: !IsSignalling(s.pc[f])
  {
    forall f | f in s.pc
      ensures !IsSignalling(s.pc[f])
    {
      Known(s, v, f);
    }
  }

  lemma StepStaysSingle(s: State, e: Event, v: View)
    requires Inv(s, v) && Single(s)
    ensures Single(Step(s, e))
  {
    if !s.zeroed { NobodySignalsYet(s, v); }
    if e.Go? && e.f in s.pc && !s.fault {
      Known(s, v, e.f);
      CountMoves(s, e.f, Idle);
      hide Inv, Single, Aside, GoStep;
      if InWait(s.pc[e.f]) {
        WaiterStepsAside(s, e.f);
        AsideStaysSingle(s, GoStep(s, e.f));
      } else if IsBuilding(s.pc[e.f]) {
        BuilderStepsAside(s, e.f);
        AsideStaysSingle(s, GoStep(s, e.f));
      } else {
        FiringStaysSingle(s, e.f);
      }
    } else {
      hide Inv;
    }
  }

  lemma FiringStaysSingle(s: State, f: Fid)
    requires f in s.pc && Single(s) && !InWait(s.pc[f]) && !IsBuilding(s.pc[f])
    requires !s.zeroed ==> s.word != Signaled && forall g | g in s.pc :: !IsSignalling(s.pc[g])
    requires IsSignalling(s.pc[f]) ==> s.zeroed
    requires s.pc[f].Decrementing? ==> s.counter > 0
    ensures Single(GoStep(s, f))
  {
  }

  lemma {:induction false} RunStaysSingle(fibers: set<Fid>, es: seq<Event>)
    ensures Single(Run(Init(fibers), es))
  {
    if es != [] {
      RunStaysSingle(fibers, es[..|es| - 1]);
      var v := RunKeepsInv(fibers, es[..|es| - 1]);
      StepStaysSingle(Run(Init(fibers), es[..|es| - 1]), es[|es| - 1], v);
    }
  }

  /** Used once, the object cannot be misused: there is one firing, and it has signalled before anybody returns. */
  lemma SingleIsNotMisused(s: State, e: Event, v: View)
    requires Inv(s, v) && Single(s) && !s.rearmed
    ensures !Misuse(s, e)
  {
    match e
    case Go(f) => if f in s.pc && s.pc[f].Firing? { Known(s, v, f); }
    case Destroy =>
      if s.returned != {} {
        forall f | f in s.pc && !InWait(s.pc[f])
          ensures !Touches(s.pc[f])
        {
          Known(s, v, f);
          CountMoves(s, f, Idle);
        }
      }
    case _ =>
  }

  lemma StaysRearmed(s: State, e: Event)
    ensures s.rearmed ==> Step(s, e).rearmed
  {
  }

  lemma {:induction false} NotMisusedUnlessRearmed(fibers: set<Fid>, es: seq<Event>)
    requires !Run(Init(fibers), es).rearmed
    ensures !Misused(Init(fibers), es)
  {
    hide Init, Misuse, Inv, Single;
    if es != [] {
      var n := |es| - 1;
      var s := Run(Init(fibers), es[..n]);
      StaysRearmed(s, es[n]);
      NotMisusedUnlessRearmed(fibers, es[..n]);
      RunStaysSingle(fibers, es[..n]);
      var v := RunKeepsInv(fibers, es[..n]);
      SingleIsNotMisused(s, es[n], v);
      hide Run, Step;
      forall i | 0 <= i < |es|
        ensures !Misuse(Run(Init(fibers), es[..i]), es[i])
      {
        if i < n { assert es[..n][..i] == es[..i] && es[..n][i] == es[i]; }
      }
    }
  }

  /**
    As long as nobody adds to a count that has come to zero, nothing that is gone is
    touched, and whoever has come back from Wait finds the count still at zero.
   */
  lemma SafeAndNotEarly(fibers: set<Fid>, es: seq<Event>)
    requires !Run(Init(fibers), es).rearmed
    ensures var s := Run(Init(fibers), es);
      && !s.fault
      && (s.returned != {} ==> s.zeroed && s.counter == 0 && s.owed == 0)
      && (!s.alive ==> forall f | f in s.pc :: !Touches(s.pc[f]) && !InWait(s.pc[f]))
  {
    var s := Run(Init(fibers), es);
    var v := RunKeepsInv(fibers, es);
    NotMisusedUnlessRearmed(fibers, es);
    SafeUnlessMisused(fibers, es);
    RunStaysSingle(fibers, es);
    forall f | f in s.pc
      ensures !s.alive ==> !InWait(s.pc[f])
    {
      Known(s, v, f);
    }
  }

  // ---- when Wait comes back ----

  /**
    Wait lets a fiber through at once exactly if the event is signalled, whatever the
    count is then. It is signalled only if the count has been zero; and if it is
    signalled with the count above zero, somebody has added after that.
   */
  lemma WaitGoesByTheSignal(fibers: set<Fid>, es: seq<Event>, f: Fid)
    requires var s := Run(Init(fibers), es); !s.fault && s.alive && f in s.pc && f != NULL && s.pc[f] == Idle
    ensures var s := Run(Init(fibers), es);
      && (Run(s, [Wait(f), Go(f)]).pc == s.pc <==> s.word == Signaled)
      && (s.word == Signaled ==> s.zeroed && Run(s, [Wait(f), Go(f)]).returned == s.returned + {f})
      && (s.word == Signaled && s.counter > 0 ==> s.rearmed)
      && (s.returned != {} ==> s.word == Signaled)
  {
    var s := Run(Init(fibers), es);
    var v := RunKeepsInv(fibers, es);
    RunStaysSingle(fibers, es);
    RunOne(s, Wait(f));
    RunSnoc(s, [Wait(f)], Go(f));
    assert [Wait(f)] + [Go(f)] == [Wait(f), Go(f)];
    hide Run, Inv, ListsOk;
    assert Whole(s, v) by { Known(s, v, f); }
  }

  // ---- two firings ----

  ghost predicate Reaches(s0: State, s: State) { exists es :: Run(s0, es) == s }

  lemma Here(s: State)
    ensures Reaches(s, s)
  {
    assert Run(s, []) == s;
  }

  lemma Then(s0: State, s: State, e: Event)
    requires Reaches(s0, s)
    ensures Reaches(s0, Step(s, e))
  {
    var es :| Run(s0, es) == s;
    assert (es + [e])[..|es + [e]| - 1] == es;
    assert Run(s0, es + [e]) == Step(s, e);
  }

  /** Fiber 1 waits; fibers 2 and 3 stand at p2 and p3. */
  predicate Scene(s: State, counter: Size, owed: nat, word: Word, p1: Pc, p2: Pc, p3: Pc) {
    && s.pc.Keys == {1, 2, 3} && s.pc[1] == p1 && s.pc[2] == p2 && s.pc[3] == p3
    && s.counter == counter && s.owed == owed && s.word == word && s.alive && !s.fault
  }

  lemma OneParks(s0: State) returns (s: State)
    requires s0 == Init({1, 2, 3})
    ensures Reaches(s0, s) && Scene(s, 1, 1, WaitNode(1), Parked, Idle, Idle) && 1 in s.next && s.next[1] == NULL
  {
    hide Reaches;
    Here(s0);
    s := s0;
    Then(s0, s, Add(1)); s := Step(s, Add(1));
    Then(s0, s, Wait(1)); s := Step(s, Wait(1));
    assert Scene(s, 1, 1, NoWaiters, Reading, Idle, Idle);
    Then(s0, s, Go(1)); s := Step(s, Go(1));
    Then(s0, s, Go(1)); s := Step(s, Go(1));
    assert Scene(s, 1, 1, NoWaiters, Pushing(NoWaiters), Idle, Idle);
    Then(s0, s, Go(1)); s := Step(s, Go(1));
  }

  /** Fiber 2 brings the count to zero and finds a waiter. */
  lemma TwoFires(s0: State, s1: State) returns (s: State)
    requires Reaches(s0, s1) && Scene(s1, 1, 1, WaitNode(1), Parked, Idle, Idle)
    ensures Reaches(s0, s) && Scene(s, 0, 0, WaitNode(1), Parked, Exchanging, Idle) && s.next == s1.next
  {
    hide Reaches;
    s := s1;
    Then(s0, s, Done(2)); s := Step(s, Done(2));
    assert Scene(s, 1, 0, WaitNode(1), Parked, Decrementing, Idle);
    Then(s0, s, Go(2)); s := Step(s, Go(2));
    assert Scene(s, 0, 0, WaitNode(1), Parked, Firing, Idle);
    Then(s0, s, Go(2)); s := Step(s, Go(2));
  }

  /** Somebody adds one, and fiber 3 brings the count to zero again. */
  lemma ThreeDecrements(s0: State, s1: State) returns (s: State)
    requires Reaches(s0, s1) && Scene(s1, 0, 0, WaitNode(1), Parked, Exchanging, Idle)
    ensures Reaches(s0, s) && Scene(s, 0, 0, WaitNode(1), Parked, Exchanging, Firing) && s.next == s1.next
  {
    hide Reaches;
    s := s1;
    Then(s0, s, Add(1)); s := Step(s, Add(1));
    Then(s0, s, Done(3)); s := Step(s, Done(3));
    assert Scene(s, 1, 0, WaitNode(1), Parked, Exchanging, Decrementing);
    Then(s0, s, Go(3)); s := Step(s, Go(3));
  }

  lemma BothExchange(s0: State, s1: State) returns (s: State)
    requires Reaches(s0, s1) && Scene(s1, 0, 0, WaitNode(1), Parked, Exchanging, Firing)
    ensures Reaches(s0, s) && s.fault && s.alive
  {
    hide Reaches;
    s := s1;
    Then(s0, s, Go(3)); s := Step(s, Go(3));
    assert Scene(s, 0, 0, WaitNode(1), Parked, Exchanging, Exchanging);
    Then(s0, s, Go(2)); s := Step(s, Go(2));
    assert Scene(s, 0, 0, Signaled, Parked, Building(1, []), Exchanging);
    Then(s0, s, Go(3)); s := Step(s, Go(3));
  }

  /** Of two overlapping firings the second takes the signal for the address of an awaiter. */
  lemma OverlappingFiringsFault()
    ensures exists es :: Run(Init({1, 2, 3}), es).fault && Run(Init({1, 2, 3}), es).alive
  {
    var s0 := Init({1, 2, 3});
    var s := OneParks(s0);
    s := TwoFires(s0, s);
    s := ThreeDecrements(s0, s);
    s := BothExchange(s0, s);
    var es :| Run(s0, es) == s;
    assert Run(s0, es).fault;
  }

  /** Fiber 2 takes the chain and lists it ... */
  lemma OneIsListed(s0: State, s1: State) returns (s: State)
    requires Reaches(s0, s1) && Scene(s1, 0, 0, WaitNode(1), Parked, Exchanging, Firing)
    requires 1 in s1.next && s1.next[1] == NULL
    ensures Reaches(s0, s) && Scene(s, 0, 0, Signaled, Parked, Building(NULL, [1]), Firing)
  {
    hide Reaches;
    s := s1;
    Then(s0, s, Go(2)); s := Step(s, Go(2));
    assert Scene(s, 0, 0, Signaled, Parked, Building(1, []), Firing);
    Then(s0, s, Go(2)); s := Step(s, Go(2));
  }

  /** ... and wakes fiber 1 from it. */
  lemma OneIsScheduled(s0: State, s1: State) returns (s: State)
    requires Reaches(s0, s1) && Scene(s1, 0, 0, Signaled, Parked, Building(NULL, [1]), Firing)
    ensures Reaches(s0, s) && Scene(s, 0, 0, Signaled, Woken, Scheduling([]), Firing)
  {
    hide Reaches;
    s := s1;
    Then(s0, s, Go(2)); s := Step(s, Go(2));
    assert Scene(s, 0, 0, Signaled, Parked, Scheduling([1]), Firing);
    Then(s0, s, Go(2)); s := Step(s, Go(2));
  }

  /** Fiber 1 comes back and destroys the object. */
  lemma OneDestroys(s0: State, s1: State) returns (s: State)
    requires Reaches(s0, s1) && Scene(s1, 0, 0, Signaled, Woken, Scheduling([]), Firing)
    ensures Reaches(s0, s) && s.fault && !s.alive
  {
    hide Reaches;
    s := s1;
    Then(s0, s, Go(1)); s := Step(s, Go(1));
    assert Scene(s, 0, 0, Signaled, Idle, Scheduling([]), Firing) && s.returned != {};
    Then(s0, s, Destroy); s := Step(s, Destroy);
    Then(s0, s, Go(3)); s := Step(s, Go(3));
  }

  /** A waiter that comes back and destroys the object can do it under a second firing. */
  lemma DestroyedUnderAFiring()
    ensures exists es :: Run(Init({1, 2, 3}), es).fault && !Run(Init({1, 2, 3}), es).alive
  {
    var s0 := Init({1, 2, 3});
    var s := OneParks(s0);
    s := TwoFires(s0, s);
    s := ThreeDecrements(s0, s);
    s := OneIsListed(s0, s);
    s := OneIsScheduled(s0, s);
    s := OneDestroys(s0, s);
    var es :| Run(s0, es) == s;
    assert Run(s0, es).fault;
  }

  /** The first round: fiber 2 brings the count to zero with nobody waiting, and a second round begins. */
  lemma SecondRound(s0: State) returns (s: State)
    requires s0 == Init({1, 2, 3})
    ensures Reaches(s0, s) && Scene(s, 1, 1, Signaled, Idle, Idle, Idle)
  {
    hide Reaches;
    Here(s0);
    s := s0;
    Then(s0, s, Add(1)); s := Step(s, Add(1));
    Then(s0, s, Done(2)); s := Step(s, Done(2));
    assert Scene(s, 1, 0, NoWaiters, Idle, Decrementing, Idle);
    Then(s0, s, Go(2)); s := Step(s, Go(2));
    Then(s0, s, Go(2)); s := Step(s, Go(2));
    assert Scene(s, 0, 0, Signaled, Idle, Idle, Idle);
    Then(s0, s, Add(1)); s := Step(s, Add(1));
  }

  /** In a second round Wait holds nobody: fiber 1 comes back with a Done still to be called. */
  lemma SecondRoundDoesNotWait()
    ensures exists es :: var s := Run(Init({1, 2, 3}), es); !s.fault && s.counter == 1 && s.owed == 1 && 1 in s.returned
  {
    var s0 := Init({1, 2, 3});
    var s := SecondRound(s0);
    var es :| Run(s0, es) == s;
    var fs := es + [Wait(1), Go(1)];
    WaitGoesByTheSignal({1, 2, 3}, es, 1);
    RunAppend(s0, es, [Wait(1), Go(1)]);
    RunOne(s, Wait(1));
    RunSnoc(s, [Wait(1)], Go(1));
    assert [Wait(1)] + [Go(1)] == [Wait(1), Go(1)];
    var s' := Run(s0, fs);
    assert !s'.fault && s'.counter == 1 && s'.owed == 1;
  }
}
