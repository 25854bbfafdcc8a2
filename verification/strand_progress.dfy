/** A thread of the strand that is left alone gets to the end of what it does. */
module StrandProgress {
  import opened Collections
  import opened StrandModel
  import opened StrandInvariant
  import opened StrandLifetime
  import opened StrandTheorems

  /** What is left of a RunNextBatch, of a Release and of the task's batch that an Execute goes back to. */
  function BackLeft(back: Back): nat {
    match back
    case ToCaller => 0
    case ToTask(items, _) => 21 + 2 * |items|
    case ToRelease => 2
  }

  /** How many actions thread t is from being idle, if no exchange fails by itself and nobody gets in its way. */
  function ActionsLeft(s: State, v: View, t: Tid): nat
    requires t in s.pc
  {
    match s.pc[t]
    case Idle => 0
    case Putting(task, back) => BackLeft(back) + (if s.head == NextOf(s, task) then 4 else 5)
    case Counting(back) => BackLeft(back) + 3
    case Referring(back) => BackLeft(back) + 2
    case Scheduling(back) => BackLeft(back) + 1
    case Taking => 22 + 3 * |v.chain|
    case Reversing(_, items) => 21 + 3 * |v.rest| + 2 * |items|
    case Running(items, _) => 20 + 2 * |items|
    case InTask(items, _) => 21 + 2 * |items|
    case Settling(_) => 5
    case Releasing => 2
    case Destroying => 1
  }

  /**
    Whatever the other threads have left behind, each action of a thread on its own
    brings it nearer to the end, be it an Execute, a batch with all its tasks or the
    release of a reference; in particular an exchange that fails once succeeds next.
   */
  lemma ActionIsProgress(s: State, v: View, t: Tid)
    requires Inv(s, v) && RefInv(s) && t in s.pc && s.pc[t] != Idle
    ensures var e := Go(t, false);
      t in Step(s, e).pc && ActionsLeft(Step(s, e), StepView(s, v, e), t) < ActionsLeft(s, v, t)
  {
    BusyMeansAlive(s, t);
    assert ThreadOk(s, v, t) && !s.fault;
    assert s.pc[t].Reversing? ==> HolderPc(s, v) == s.pc[t];
    hide Inv, RefInv;
    if s.pc[t].Putting? {
      PutIsProgress(s, v, t);
    } else if s.pc[t].Reversing? {
      ReverseIsProgress(s, v, t);
    } else {
      OtherIsProgress(s, v, t);
    }
    hide Action, ActionsLeft;
  }

  lemma PutIsProgress(s: State, v: View, t: Tid)
    requires t in s.pc && s.pc[t].Putting? && s.alive && !s.fault
    ensures var e := Go(t, false);
      t in Step(s, e).pc && ActionsLeft(Step(s, e), StepView(s, v, e), t) < ActionsLeft(s, v, t)
  {
  }

  lemma ReverseIsProgress(s: State, v: View, t: Tid)
    requires t in s.pc && s.pc[t].Reversing? && s.alive && !s.fault && Linked(s.next, NULL, s.pc[t].walk, v.rest)
    ensures var e := Go(t, false);
      t in Step(s, e).pc && ActionsLeft(Step(s, e), StepView(s, v, e), t) < ActionsLeft(s, v, t)
  {
  }

  lemma OtherIsProgress(s: State, v: View, t: Tid)
    requires t in s.pc && s.pc[t] != Idle && !s.pc[t].Putting? && !s.pc[t].Reversing? && s.alive && !s.fault
    requires s.pc[t].Counting? ==> !s.pc[t].back.ToRelease?
    requires s.pc[t].Referring? || s.pc[t].Scheduling? ==> !s.pc[t].back.ToTask?
    ensures var e := Go(t, false);
      t in Step(s, e).pc && ActionsLeft(Step(s, e), StepView(s, v, e), t) < ActionsLeft(s, v, t)
  {
    hide PutStep, ReverseStep;
  }

  /** The executor may start a batch that is pending on any idle thread. */
  lemma PendingBatchStarts(s: State, t: Tid)
    requires t in s.pc && s.pc[t] == Idle && s.pending > 0 && !s.fault
    ensures t in Step(s, StartBatch(t)).pc && Step(s, StartBatch(t)).pc[t] == Taking
  {
  }

  function Alone(t: Tid, n: nat): seq<Event> { if n == 0 then [] else Alone(t, n - 1) + [Go(t, false)] }

  /**
    From any state of any run: a thread left alone is idle after as many actions as
    that, and all that it was to submit has been put.
   */
  lemma LeftAloneItEnds(threads: set<Tid>, es: seq<Event>, t: Tid) returns (n: nat)
    requires t in threads
    ensures var s := StrandModel.Run(Init(threads), es + Alone(t, n)); t in s.pc && s.pc[t] == Idle
  {
    KeepsThreads(threads, es);
    assert es + Alone(t, 0) == es;
    n := EndsWithin(threads, es, t, 0);
  }

  lemma {:induction false} KeepsThreads(threads: set<Tid>, es: seq<Event>)
    ensures StrandModel.Run(Init(threads), es).pc.Keys == threads
  {
    if es != [] {
      KeepsThreads(threads, es[..|es| - 1]);
      StepKeepsThreads(StrandModel.Run(Init(threads), es[..|es| - 1]), es[|es| - 1]);
    }
  }

  lemma StepKeepsThreads(s: State, e: Event)
    ensures Step(s, e).pc.Keys == s.pc.Keys
  {
    hide Submittable;
    if e.Go? && e.t in s.pc && s.pc[e.t] != Idle { ActionMovesOne(s, e.t, e.spurious); }
  }

  /** What the thread has still to do after k actions on its own. */
  function LeftAfter(threads: set<Tid>, es: seq<Event>, t: Tid, k: nat): nat {
    var es' := es + Alone(t, k);
    var s := StrandModel.Run(Init(threads), es');
    if t in s.pc then ActionsLeft(s, RunView(Init(threads), FIRST, es'), t) else 0
  }

  lemma OneAction(threads: set<Tid>, es: seq<Event>, t: Tid, k: nat)
    requires var s := StrandModel.Run(Init(threads), es + Alone(t, k)); t in s.pc && s.pc[t] != Idle
    ensures t in StrandModel.Run(Init(threads), es + Alone(t, k + 1)).pc
    ensures LeftAfter(threads, es, t, k + 1) < LeftAfter(threads, es, t, k)
  {
    var es', es1 := es + Alone(t, k), es + Alone(t, k + 1);
    var s, v := StrandModel.Run(Init(threads), es'), RunView(Init(threads), FIRST, es');
    RunKeepsBoth(threads, es');
    assert es1 == es' + [Go(t, false)];
    assert es1[..|es1| - 1] == es' && es1[|es1| - 1] == Go(t, false);
    hide Inv, RefInv, ActionsLeft, Step, StepView, Init;
    ActionIsProgress(s, v, t);
  }

  lemma {:induction false} EndsWithin(threads: set<Tid>, es: seq<Event>, t: Tid, k: nat) returns (n: nat)
    requires t in StrandModel.Run(Init(threads), es + Alone(t, k)).pc
    ensures var s := StrandModel.Run(Init(threads), es + Alone(t, n)); t in s.pc && s.pc[t] == Idle
    decreases LeftAfter(threads, es, t, k)
  {
    hide StrandModel.Run, LeftAfter, Init;
    if StrandModel.Run(Init(threads), es + Alone(t, k)).pc[t] == Idle {
      n := k;
    } else {
      OneAction(threads, es, t, k);
      n := EndsWithin(threads, es, t, k + 1);
    }
  }
}
