/** The strand's tasks run: what the threads enter and leave, told from their steps and not from the logs. */
module StrandRuns {
  import opened Collections
  import opened StrandModel
  import opened StrandInvariant
  import opened StrandLifetime
  import opened StrandTheorems

  /** In the code of a task, or in a call of Execute made there. */
  predicate IsInTask(p: Pc) {
    match p
    case InTask(_, _) => true
    case Putting(_, back) => back.ToTask?
    case Counting(back) => back.ToTask?
    case Referring(back) => back.ToTask?
    case Scheduling(back) => back.ToTask?
    case _ => false
  }

  /** The task whose code a thread enters with this event, at the front of the batch it holds. */
  function EnteredBy(s: State, e: Event): seq<Task> {
    if e.Go? && e.t in s.pc && s.pc[e.t].Running? && s.pc[e.t].items != [] && e.t in Step(s, e).pc && Step(s, e).pc[e.t].InTask?
    then [s.pc[e.t].items[0]] else []
  }

  /** The tasks whose code has been entered on a run, oldest first. */
  function Entered(s: State, es: seq<Event>): seq<Task> {
    if es == [] then []
    else Entered(s, es[..|es| - 1]) + EnteredBy(StrandModel.Run(s, es[..|es| - 1]), es[|es| - 1])
  }

  /** The code of a task returns: the thread was in it and is in its batch again. */
  predicate ReturnsBy(s: State, e: Event) {
    e.Go? && e.t in s.pc && s.pc[e.t].InTask? && e.t in Step(s, e).pc && Step(s, e).pc[e.t].Running?
  }

  function Returns(s: State, es: seq<Event>): nat {
    if es == [] then 0
    else Returns(s, es[..|es| - 1]) + if ReturnsBy(StrandModel.Run(s, es[..|es| - 1]), es[|es| - 1]) then 1 else 0
  }

  /** How many threads are in a task. */
  function Inside(s: State): nat { |Where(s.pc, IsInTask)| }

  predicate Turns(s: State, s': State, e: Event) {
    && e.t in s.pc && e.t in s'.pc && s'.pc == s.pc[e.t := s'.pc[e.t]]
    && s'.executed == s.executed + EnteredBy(s, e)
    && (if IsInTask(s'.pc[e.t]) then 1 else 0) + (if ReturnsBy(s, e) then 1 else 0)
       == (if IsInTask(s.pc[e.t]) then 1 else 0) + |EnteredBy(s, e)|
  }

  lemma StepTurns(s: State, v: View, e: Event)
    requires Inv(s, v) && RefInv(s)
    ensures Step(s, e) == s || Turns(s, Step(s, e), e)
    ensures Step(s, e) == s ==> EnteredBy(s, e) == [] && !ReturnsBy(s, e)
  {
    if e.t in s.pc && s.pc[e.t] != Idle { BusyMeansAlive(s, e.t); }
    assert !s.fault;
    hide Inv, RefInv;
    if e.t in s.pc && e.Go? && s.pc[e.t] != Idle {
      ActionMovesOne(s, e.t, e.spurious);
      ActionTurns(s, e);
    }
    hide Action, Submittable;
  }

  lemma ActionTurns(s: State, e: Event)
    requires e.t in s.pc && e.Go? && s.pc[e.t] != Idle && s.alive && !s.fault
    requires var s' := Action(s, e.t, e.spurious); e.t in s'.pc && s'.pc == s.pc[e.t := s'.pc[e.t]]
    ensures Turns(s, Step(s, e), e)
  {
    hide NextOf;
  }

  /**
    A task logged as executed has run: on every run the log holds the tasks whose code
    was entered, in that order, and of these all have returned but the one, if any, that
    a thread is in.
   */
  lemma {:induction false} ExecutedMeansRun(threads: set<Tid>, es: seq<Event>)
    ensures var s0 := Init(threads);
      var s := StrandModel.Run(s0, es);
      && s.executed == Entered(s0, es)
      && |s.executed| == Returns(s0, es) + Inside(s)
  {
    var s0 := Init(threads);
    if es == [] {
      var pc: map<Tid, Pc> := s0.pc;
      assert Where(pc, IsInTask) == {};
    } else {
      var n := |es| - 1;
      ExecutedMeansRun(threads, es[..n]);
      RunKeepsBoth(threads, es[..n]);
      var s, e := StrandModel.Run(s0, es[..n]), es[n];
      StepTurns(s, RunView(s0, FIRST, es[..n]), e);
      hide Inv, RefInv, Step, Where, EnteredBy, ReturnsBy;
      if Step(s, e) != s { WhereStep(s.pc, IsInTask, e.t, Step(s, e).pc[e.t]); }
    }
  }

  /** When nothing is in flight, the code of every task submitted was entered and has returned, once for each submission. */
  lemma QuietMeansRun(threads: set<Tid>, es: seq<Event>)
    requires Quiet(StrandModel.Run(Init(threads), es))
    ensures var s0 := Init(threads);
      && multiset(Entered(s0, es)) == multiset(Submitted(s0, es))
      && Returns(s0, es) == |Submitted(s0, es)|
  {
    var s0 := Init(threads);
    QuietMeansDone(threads, es);
    ExecutedMeansRun(threads, es);
    var pc: map<Tid, Pc> := StrandModel.Run(s0, es).pc;
    assert Where(pc, IsInTask) == {};
    assert |multiset(Entered(s0, es))| == |Entered(s0, es)| && |multiset(Submitted(s0, es))| == |Submitted(s0, es)|;
  }
}
