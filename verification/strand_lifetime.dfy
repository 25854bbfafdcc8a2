/** Who keeps the strand's implementation object alive. */
module StrandLifetime {
  import opened Collections
  import opened StrandModel
  import opened StrandInvariant

  /** Threads whose `Run` activation, or whose AddRef before scheduling, owns a reference. */
  predicate HoldsRef(p: Pc) {
    || IsNested(p) || (p.Referring? && !p.back.ToCaller?) || p.Scheduling?
    || p.Taking? || p.Reversing? || p.Running? || p.InTask? || p.Settling? || p.Releasing?
  }

  /** The activation's own reference and the one it has just added for the next batch. */
  predicate HoldsTwo(p: Pc) { p.Scheduling? && !p.back.ToCaller? }

  predicate IsDestroying(p: Pc) { p.Destroying? }

  function Owed(s: State): nat {
    (if s.handle then 1 else 0) + s.pending + |Where(s.pc, HoldsRef)| + |Where(s.pc, HoldsTwo)|
  }

  /** The count is the handle, the batches scheduled, and the activations that have not released yet. */
  predicate RefInv(s: State) {
    && !s.fault
    && s.pending <= 1
    && s.refs == Owed(s)
    && (s.alive <==> s.refs > 0 || |Where(s.pc, IsDestroying)| > 0)
    && (|Where(s.pc, IsDestroying)| > 0 ==> s.refs == 0 && |Where(s.pc, IsDestroying)| == 1)
    && (forall t {:trigger InExecute(s.pc[t])} | t in s.pc && InExecute(s.pc[t]) :: s.handle)
  }

  lemma WhereSteps(pc: map<Tid, Pc>, t: Tid, p: Pc)
    requires t in pc
    ensures forall f | f == HoldsRef || f == HoldsTwo || f == IsDestroying ::
      && |Where(pc[t := p], f)| == |Where(pc, f)| - (if f(pc[t]) then 1 else 0) + (if f(p) then 1 else 0)
      && (f(pc[t]) ==> |Where(pc, f)| > 0)
      && |Where(pc, f)| <= THREADS && |Where(pc[t := p], f)| <= THREADS
  {
    WhereStep(pc, HoldsRef, t, p);
    WhereStep(pc, HoldsTwo, t, p);
    WhereStep(pc, IsDestroying, t, p);
    ThreadsFit(pc, HoldsRef);
    ThreadsFit(pc, HoldsTwo);
    ThreadsFit(pc, IsDestroying);
    ThreadsFit(pc[t := p], HoldsRef);
    ThreadsFit(pc[t := p], HoldsTwo);
    ThreadsFit(pc[t := p], IsDestroying);
  }

  /** Whoever is inside an operation of the strand finds it alive. */
  lemma BusyMeansAlive(s: State, t: Tid)
    requires RefInv(s) && t in s.pc && s.pc[t] != Idle
    ensures s.alive
  {
    WhereStep(s.pc, HoldsRef, t, s.pc[t]);
    WhereStep(s.pc, IsDestroying, t, s.pc[t]);
    assert InExecute(s.pc[t]) || HoldsRef(s.pc[t]) || IsDestroying(s.pc[t]);
  }

  /** The handle cannot go while anyone is inside Execute, so it is there for the rest of that call. */
  lemma HandleOutlivesCalls(s: State, s': State, t: Tid)
    requires RefInv(s) && t in s.pc && t in s'.pc && s'.pc == s.pc[t := s'.pc[t]]
    requires InExecute(s'.pc[t]) ==> s'.handle
    requires s.handle && !s'.handle ==> forall u | u in s.pc :: !InExecute(s.pc[u])
    ensures forall u {:trigger InExecute(s'.pc[u])} | u in s'.pc && InExecute(s'.pc[u]) :: s'.handle
  {
    forall u | u in s'.pc && InExecute(s'.pc[u])
      ensures s'.handle
    {
      if u != t { assert InExecute(s.pc[u]); }
    }
  }

  lemma ActionKeepsRefs(s: State, v: View, t: Tid, spurious: bool)
    requires Inv(s, v) && RefInv(s) && t in s.pc && s.pc[t] != Idle
    ensures RefInv(Action(s, t, spurious))
  {
    assert ThreadOk(s, v, t);
    ActionBounds(s, v, t, spurious);
    hide Inv;
    var s' := Action(s, t, spurious);
    BusyMeansAlive(s, t);
    WhereSteps(s.pc, t, s'.pc[t]);
    assert InExecute(s.pc[t]) ==> s.handle;
    ActionStaysInside(s, t, spurious);
    HandleOutlivesCalls(s, s', t);
    ActionCounts(s, v, t, spurious);
    hide Action, Where, HoldsRef, HoldsTwo;
  }

  /** An action neither enters Execute nor touches the handle. */
  lemma ActionStaysInside(s: State, t: Tid, spurious: bool)
    requires t in s.pc && s.pc[t] != Idle && t in Action(s, t, spurious).pc
    ensures Action(s, t, spurious).handle == s.handle && (InExecute(Action(s, t, spurious).pc[t]) ==> InExecute(s.pc[t]))
  {
  }

  function One(b: bool): nat { if b then 1 else 0 }

  /** What one action does to the references, those counted and those owed. */
  predicate Accounted(s: State, s': State, t: Tid)
    requires t in s.pc && t in s'.pc
  {
    var p, p' := s.pc[t], s'.pc[t];
    && s'.fault == s.fault
    && s'.refs - s.refs == s'.pending - s.pending + One(HoldsRef(p')) - One(HoldsRef(p)) + One(HoldsTwo(p')) - One(HoldsTwo(p))
    && (IsDestroying(p') <==> p.Releasing? && s.refs == 1)
    && s'.alive == (s.alive && !IsDestroying(p))
    && (s'.refs < s.refs ==> p.Releasing?)
  }

  predicate IsWalking(p: Pc) { p.Putting? || p.Taking? || p.Reversing? || p.Running? || p.InTask? }

  lemma ActionCounts(s: State, v: View, t: Tid, spurious: bool)
    requires t in s.pc && s.pc[t] != Idle && ThreadOk(s, v, t) && t in Action(s, t, spurious).pc
    requires (s.pc[t].Releasing? ==> s.refs > 0) && s.refs < SIZE_T - 1
    ensures Accounted(s, Action(s, t, spurious), t)
  {
    hide Action, Accounted;
    if IsWalking(s.pc[t]) { WalkingCounts(s, t, spurious); } else { OtherCounts(s, v, t, spurious); }
  }

  lemma WalkingCounts(s: State, t: Tid, spurious: bool)
    requires t in s.pc && IsWalking(s.pc[t]) && t in Action(s, t, spurious).pc
    ensures Accounted(s, Action(s, t, spurious), t)
  {
    hide NextOf;
  }

  lemma OtherCounts(s: State, v: View, t: Tid, spurious: bool)
    requires t in s.pc && s.pc[t] != Idle && !IsWalking(s.pc[t]) && ThreadOk(s, v, t) && t in Action(s, t, spurious).pc
    requires (s.pc[t].Releasing? ==> s.refs > 0) && s.refs < SIZE_T - 1
    ensures Accounted(s, Action(s, t, spurious), t)
  {
    hide PutStep, TakeStep, ReverseStep, RunStep;
  }

  lemma SchedulerFindsNonePending(s: State, v: View, t: Tid)
    requires Inv(s, v) && t in s.pc
    ensures s.pc[t].Scheduling? ==> s.pending == 0
  {
    assert ThreadOk(s, v, t);
  }

  lemma ActionBounds(s: State, v: View, t: Tid, spurious: bool)
    requires Inv(s, v) && t in s.pc && s.pc[t] != Idle && s.pending <= 1
    ensures var s' := Action(s, t, spurious); s'.pending <= 1 && t in s'.pc && s'.pc == s.pc[t := s'.pc[t]]
  {
    hide Inv;
    SchedulerFindsNonePending(s, v, t);
    ActionMovesOne(s, t, spurious);
  }

  lemma ActionMovesOne(s: State, t: Tid, spurious: bool)
    requires t in s.pc && s.pc[t] != Idle
    ensures var s' := Action(s, t, spurious);
      && t in s'.pc && s'.pc == s.pc[t := s'.pc[t]]
      && s'.pending <= s.pending + (if s.pc[t].Scheduling? then 1 else 0)
  {
    match s.pc[t]
    case Putting(_, _) => assert t in PutStep(s, t, spurious).pc;
    case Counting(_) => assert t in CountStep(s, t).pc;
    case Referring(_) => assert t in ReferStep(s, t).pc;
    case Scheduling(_) => assert t in ScheduleStep(s, t).pc;
    case Taking => assert t in TakeStep(s, t).pc;
    case Reversing(_, _) => assert t in ReverseStep(s, t).pc;
    case Running(_, _) => assert t in RunStep(s, t).pc;
    case Settling(_) => assert t in SettleStep(s, t).pc;
    case Releasing => assert t in ReleaseStep(s, t).pc;
    case _ =>
  }

  lemma IdleDoesNothing(s: State, t: Tid, spurious: bool)
    requires t in s.pc && s.pc[t] == Idle
    ensures GoStep(s, t, spurious) == s
  {
  }

  lemma StepKeepsRefs(s: State, v: View, e: Event)
    requires Inv(s, v) && RefInv(s)
    ensures RefInv(Step(s, e))
  {
    hide Inv, Action, Submittable;
    if e.t in s.pc {
      var t, s' := e.t, Step(s, e);
      match e
      case Submit(_, task) =>
        if s' != s {
          WhereSteps(s.pc, t, s'.pc[t]);
          HandleOutlivesCalls(s, s', t);
        }
      case StartBatch(_) =>
        if s' != s {
          WhereSteps(s.pc, t, s'.pc[t]);
          HandleOutlivesCalls(s, s', t);
        }
      case DropHandle(_) =>
        if s' != s {
          WhereSteps(s.pc, t, s'.pc[t]);
          HandleOutlivesCalls(s, s', t);
        }
      case Go(_, spurious) =>
        if s.pc[t] == Idle {
          IdleDoesNothing(s, t, spurious);
        } else {
          BusyMeansAlive(s, t);
          ActionKeepsRefs(s, v, t, spurious);
        }
    }
  }
}
