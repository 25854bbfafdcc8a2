/** What becomes of the tasks submitted to a pool, told from the calls made on it; and when those calls end. */
module PoolFates {
  import opened Wrappers
  import opened Collections
  import opened PoolModel
  import opened PoolInvariant
  import opened PoolSteps
  import opened PoolTheorems

  // ---- the calls ----

  /** A thread outside the pool, or running a task, calls Execute. */
  predicate CallsExecute(s: State, e: Event) { e.Execute? && e.t in s.threads && s.threads[e.t].pc == Free }

  predicate CallsStop(s: State, e: Event) { e.Stop? && e.t in s.threads && s.threads[e.t] == Thread(None, Free) }

  /** The code of a task that a worker is running returns. */
  predicate Returns(s: State, e: Event) {
    e.Finish? && e.t in s.threads && s.threads[e.t].task.Some? && s.threads[e.t].pc == Free
  }

  function Executes(s: State, es: seq<Event>): nat {
    if es == [] then 0
    else Executes(s, es[..|es| - 1]) + One(CallsExecute(Run(s, es[..|es| - 1]), es[|es| - 1]))
  }

  function Finishes(s: State, es: seq<Event>): nat {
    if es == [] then 0
    else Finishes(s, es[..|es| - 1]) + One(Returns(Run(s, es[..|es| - 1]), es[|es| - 1]))
  }

  predicate StopCalled(s: State, es: seq<Event>) {
    es != [] && (StopCalled(s, es[..|es| - 1]) || CallsStop(Run(s, es[..|es| - 1]), es[|es| - 1]))
  }

  // ---- what the logs have to do with them ----

  predicate IsStopping(pc: Pc) {
    pc.Closing? || pc.Disposing? || pc.Joining? || pc == Decrementing(Disposal) || pc == Notifying(Disposal)
  }

  /** A task that has been taken and whose code has not returned. */
  predicate IsRunning(th: Thread) { th.task.Some? && th.pc != Decrementing(TaskRun) }

  predicate FateOk(s: State, stopped: bool, t: Tid)
    requires t in s.threads
  {
    && (s.threads[t].pc.Refused? ==> s.closed)
    && (IsStopping(s.threads[t].pc) ==> stopped)
    && (s.threads[t].task.Some? ==> s.threads[t].task.value in s.started)
  }

  predicate Distinguished(s: State) {
    forall t, u | t in s.threads && u in s.threads && t != u && s.threads[t].task.Some? :: s.threads[u].task != s.threads[t].task
  }

  ghost predicate FatesOk(s: State, executes: nat, finishes: nat, stopped: bool) {
    && s.tickets == executes
    && |s.started| == finishes + Count(s, IsRunning)
    && (s.refused != [] ==> s.closed)
    && (s.closed || s.disposed != [] ==> stopped)
    && (forall t {:trigger FateOk(s, stopped, t)} | t in s.threads :: FateOk(s, stopped, t))
    && Distinguished(s)
  }

  // ---- one thread moves ----

  lemma MoveKeepsFates(s: State, s': State, t: Tid, executes: nat, finishes: nat, stopped: bool, executes': nat, finishes': nat, stopped': bool)
    requires FatesOk(s, executes, finishes, stopped) && OnlyMoves(s, s'.(closed := s.closed), t)
    requires s.closed ==> s'.closed
    requires stopped ==> stopped'
    requires s'.tickets - s.tickets == executes' - executes
    requires |s'.started| - |s.started| == finishes' - finishes + One(IsRunning(s'.threads[t])) - One(IsRunning(s.threads[t]))
    requires s.started <= s'.started
    requires s'.refused != [] ==> s'.closed
    requires s'.closed || s'.disposed != [] ==> stopped'
    requires FateOk(s', stopped', t)
    requires s'.threads[t].task.Some? ==>
      s'.threads[t].task == s.threads[t].task || s'.threads[t].task.value !in s.started
    ensures FatesOk(s', executes', finishes', stopped')
  {
    WhereStep(s.threads, IsRunning, t, s'.threads[t]);
    forall u | u in s'.threads
      ensures FateOk(s', stopped', u)
    {
      if u != t { assert FateOk(s, stopped, u); }
    }
    forall u, w | u in s'.threads && w in s'.threads && u != w && s'.threads[u].task.Some?
      ensures s'.threads[w].task != s'.threads[u].task
    {
      assert FateOk(s, stopped, u) && FateOk(s, stopped, w);
    }
  }

  /** Threads that are woken keep their tasks, and are neither refused nor stopping, before or after. */
  predicate OnlyWakes(s: State, s': State) {
    && s' == s.(threads := s'.threads) && s'.threads.Keys == s.threads.Keys
    && forall t {:trigger s'.threads[t]} | t in s.threads ::
      s'.threads[t] == s.threads[t]
      || (s'.threads[t].task == s.threads[t].task && Wakeable(s.threads[t].pc) && Wakeable(s'.threads[t].pc))
  }

  predicate Wakeable(pc: Pc) { pc.Sleeping? || pc.Taking? || pc.Dozing? || pc.ZeroLocking? }

  lemma WakesKeepFates(s: State, s': State, executes: nat, finishes: nat, stopped: bool)
    requires FatesOk(s, executes, finishes, stopped) && OnlyWakes(s, s')
    ensures FatesOk(s', executes, finishes, stopped)
  {
    assert forall t | t in s.threads :: s'.threads[t].task == s.threads[t].task;
    WhereSame(s.threads, s'.threads, IsRunning);
    forall t | t in s'.threads
      ensures FateOk(s', stopped, t)
    {
      assert FateOk(s, stopped, t);
    }
  }

  lemma ItemsNotStarted(s: State, v: View)
    requires Inv(s, v) && s.items != []
    ensures s.items[0] !in s.started
  {
  }

  lemma PutKeepsFates(s: State, t: Tid, pick: Tid, executes: nat, finishes: nat, stopped: bool)
    requires t in s.threads && s.threads[t].pc.Putting? && FatesOk(s, executes, finishes, stopped)
    ensures FatesOk(PutStep(s, t, s.threads[t].pc.x, pick), executes, finishes, stopped)
  {
    var x := s.threads[t].pc.x;
    assert FateOk(s, stopped, t);
    if s.queueLock != None {
    } else if s.closed {
      MoveKeepsFates(s, At(s, t, Refused(x)), t, executes, finishes, stopped, executes, finishes, stopped);
    } else {
      var s1 := At(PushBack(s, x), t, Free);
      MoveKeepsFates(s, s1, t, executes, finishes, stopped, executes, finishes, stopped);
      if pick in s.threads && s.threads[pick].pc.Sleeping? {
        WakesKeepFates(s1, At(s1, pick, Taking), executes, finishes, stopped);
      }
    }
  }

  lemma NotifyKeepsFates(s: State, t: Tid, executes: nat, finishes: nat, stopped: bool)
    requires t in s.threads && s.threads[t].pc.Notifying? && FatesOk(s, executes, finishes, stopped)
    ensures FatesOk(NotifyStep(s, t, s.threads[t].pc.after), executes, finishes, stopped)
  {
    if s.countLock == None {
      var s1 := s.(threads := WakeDozers(s.threads));
      WakesKeepFates(s, s1, executes, finishes, stopped);
      assert FateOk(s1, stopped, t);
      MoveKeepsFates(s1, NotifyStep(s, t, s.threads[t].pc.after), t, executes, finishes, stopped, executes, finishes, stopped);
    }
  }

  lemma DisposeKeepsFates(s: State, t: Tid, executes: nat, finishes: nat, stopped: bool)
    requires t in s.threads && s.threads[t].pc.Disposing? && FatesOk(s, executes, finishes, stopped)
    ensures FatesOk(DisposeStep(s, t), executes, finishes, stopped)
  {
    assert FateOk(s, stopped, t);
    if s.items == [] {
      var s1 := s.(threads := WakeSleepers(s.threads));
      WakesKeepFates(s, s1, executes, finishes, stopped);
      assert FateOk(s1, stopped, t);
      MoveKeepsFates(s1, DisposeStep(s, t), t, executes, finishes, stopped, executes, finishes, stopped);
    } else {
      MoveKeepsFates(s, DisposeStep(s, t), t, executes, finishes, stopped, executes, finishes, stopped);
    }
  }

  lemma TakeKeepsFates(s: State, v: View, t: Tid, executes: nat, finishes: nat, stopped: bool)
    requires Inv(s, v) && t in s.threads && s.threads[t].pc.Taking? && FatesOk(s, executes, finishes, stopped)
    ensures FatesOk(TakeStep(s, t), executes, finishes, stopped)
  {
    Known(s, v, t);
    if s.items != [] { ItemsNotStarted(s, v); }
    hide Inv, Balanced, Placed;
    assert FateOk(s, stopped, t);
    if s.queueLock == None {
      MoveKeepsFates(s, TakeStep(s, t), t, executes, finishes, stopped, executes, finishes, stopped);
    }
  }

  lemma OtherGoKeepsFates(s: State, v: View, t: Tid, pick: Tid, executes: nat, finishes: nat, stopped: bool)
    requires t in s.threads && ThreadOk(s, t) && FatesOk(s, executes, finishes, stopped)
    requires var pc := s.threads[t].pc; !pc.Putting? && !pc.Notifying? && !pc.Disposing? && !pc.Taking?
    ensures FatesOk(GoStep(s, t, pick), executes, finishes, stopped)
  {
    assert FateOk(s, stopped, t);
    hide PutStep, NotifyStep, DisposeStep, TakeStep, FatesOk;
    if GoStep(s, t, pick) != s {
      assert s.started == s.started + [];
      GoMoves(s, v, t, pick, executes, finishes, stopped);
    }
  }

  lemma GoMoves(s: State, v: View, t: Tid, pick: Tid, executes: nat, finishes: nat, stopped: bool)
    requires t in s.threads && ThreadOk(s, t) && FatesOk(s, executes, finishes, stopped) && FateOk(s, stopped, t)
    requires var pc := s.threads[t].pc; !pc.Putting? && !pc.Notifying? && !pc.Disposing? && !pc.Taking?
    ensures FatesOk(GoStep(s, t, pick), executes, finishes, stopped)
  {
    hide PutStep, NotifyStep, DisposeStep, TakeStep, Distinguished, Count;
    var s' := GoStep(s, t, pick);
    if s' != s { MoveKeepsFates(s, s', t, executes, finishes, stopped, executes, finishes, stopped); }
  }

  lemma GoKeepsFates(s: State, v: View, t: Tid, pick: Tid, executes: nat, finishes: nat, stopped: bool)
    requires Inv(s, v) && t in s.threads && FatesOk(s, executes, finishes, stopped)
    ensures FatesOk(GoStep(s, t, pick), executes, finishes, stopped)
  {
    Known(s, v, t);
    hide Inv, FatesOk, Balanced, Placed, ThreadOk;
    match s.threads[t].pc
    case Putting(_) => PutKeepsFates(s, t, pick, executes, finishes, stopped);
    case Notifying(_) => NotifyKeepsFates(s, t, executes, finishes, stopped);
    case Disposing => DisposeKeepsFates(s, t, executes, finishes, stopped);
    case Taking => TakeKeepsFates(s, v, t, executes, finishes, stopped);
    case _ => OtherGoKeepsFates(s, v, t, pick, executes, finishes, stopped);
  }

  lemma CallKeepsFates(s: State, e: Event, executes: nat, finishes: nat, stopped: bool)
    requires FatesOk(s, executes, finishes, stopped) && e.t in s.threads && !e.Go?
    ensures FatesOk(Step(s, e), executes + One(CallsExecute(s, e)), finishes + One(Returns(s, e)), stopped || CallsStop(s, e))
  {
    hide Distinguished, Count;
    assert FateOk(s, stopped, e.t);
    var s' := Step(s, e);
    if s' != s {
      MoveKeepsFates(s, s', e.t, executes, finishes, stopped,
                     executes + One(CallsExecute(s, e)), finishes + One(Returns(s, e)), stopped || CallsStop(s, e));
    }
  }

  lemma {:induction false} RunKeepsFates(workers: set<Tid>, others: set<Tid>, es: seq<Event>)
    ensures var s0 := Init(workers, others);
      FatesOk(Run(s0, es), Executes(s0, es), Finishes(s0, es), StopCalled(s0, es))
  {
    var s0 := Init(workers, others);
    if es == [] {
      var threads: map<Tid, Thread> := s0.threads;
      assert Where(threads, IsRunning) == {};
    } else {
      var n := |es| - 1;
      RunKeepsFates(workers, others, es[..n]);
      var v := RunKeepsInv(workers, others, es[..n]);
      StepKeepsFates(Run(s0, es[..n]), v, es[n], Executes(s0, es[..n]), Finishes(s0, es[..n]), StopCalled(s0, es[..n]));
    }
  }

  lemma StepKeepsFates(s: State, v: View, e: Event, executes: nat, finishes: nat, stopped: bool)
    requires Inv(s, v) && FatesOk(s, executes, finishes, stopped)
    ensures FatesOk(Step(s, e), executes + One(CallsExecute(s, e)), finishes + One(Returns(s, e)), stopped || CallsStop(s, e))
  {
    hide FatesOk, Inv, GoStep, WakeUpStep;
    if e.t in s.threads {
      match e
      case Go(t, pick) => GoKeepsFates(s, v, t, pick, executes, finishes, stopped);
      case _ => CallKeepsFates(s, e, executes, finishes, stopped);
    }
  }

  // ---- the theorems ----

  /**
    Nothing is discarded but by Stop: a task is refused only by a closed queue, one
    that was queued is disposed of, and the queue closed, only after Stop has been
    called; so on a run without Stop nothing is discarded.
   */
  lemma DiscardedOnlyByStop(workers: set<Tid>, others: set<Tid>, es: seq<Event>)
    ensures var s := Run(Init(workers, others), es);
      && (s.refused != [] || (exists t :: t in s.threads && s.threads[t].pc.Refused?) ==> s.closed)
      && (s.closed || s.disposed != [] || s.discarded != [] ==> StopCalled(Init(workers, others), es))
  {
    var s := Run(Init(workers, others), es);
    RunKeepsFates(workers, others, es);
    var stopped := StopCalled(Init(workers, others), es);
    if t :| t in s.threads && s.threads[t].pc.Refused? { assert FateOk(s, stopped, t); }
    QueueIsFifo(workers, others, es);
  }

  /**
    Execute, the workers and the tasks keep books: a ticket for each call of Execute;
    of the tasks started, those whose code has not returned are the ones that workers
    are running, each its own.
   */
  lemma StartedMeansRun(workers: set<Tid>, others: set<Tid>, es: seq<Event>)
    ensures var s := Run(Init(workers, others), es);
      && s.tickets == Executes(Init(workers, others), es)
      && |s.started| == Finishes(Init(workers, others), es) + Count(s, IsRunning)
      && (forall t | t in s.threads && s.threads[t].task.Some? :: s.threads[t].task.value in s.started)
      && Distinguished(s)
  {
    var s := Run(Init(workers, others), es);
    RunKeepsFates(workers, others, es);
    forall t | t in s.threads && s.threads[t].task.Some?
      ensures s.threads[t].task.value in s.started
    {
      assert FateOk(s, StopCalled(Init(workers, others), es), t);
    }
  }

  lemma NobodyRuns(s: State)
    requires NoWork(s)
    ensures Count(s, IsRunning) == 0
  {
    assert Where(s.threads, IsRunning) == {};
  }

  /**
    When nobody can move on a pool that nobody has stopped, every task that was
    submitted has been started, and its code has returned.
   */
  lemma RestMeansAllRun(workers: set<Tid>, others: set<Tid>, es: seq<Event>)
    requires var s := Run(Init(workers, others), es);
      s.workers != {} && forall t | t in s.threads :: Rests(s.threads[t])
    requires !StopCalled(Init(workers, others), es)
    ensures var s := Run(Init(workers, others), es);
      && (forall x: nat | x < s.tickets :: x in s.started)
      && s.tickets == Executes(Init(workers, others), es)
      && |s.started| == Finishes(Init(workers, others), es)
  {
    RestMeansDone(workers, others, es);
    DiscardedOnlyByStop(workers, others, es);
    StartedMeansRun(workers, others, es);
    NobodyRuns(Run(Init(workers, others), es));
  }

  // ---- where the calls end ----

  /**
    Stop comes back exactly when every worker has left its loop; the queue is closed
    and empty then, and no task is running.
   */
  lemma StopWaitsForWorkers(workers: set<Tid>, others: set<Tid>, es: seq<Event>, t: Tid, e: Event)
    requires var s := Run(Init(workers, others), es);
      t in s.threads && s.threads[t].pc.Joining? && t in Step(s, e).threads
    ensures var s := Run(Init(workers, others), es);
      && (!Step(s, e).threads[t].pc.Joining? ==> e.Go? && e.t == t && AllGone(s))
      && (AllGone(s) && e.Go? && e.t == t ==> Step(s, e).threads[t].pc.Free?)
      && (AllGone(s) ==> s.closed && s.items == [] && forall w | w in s.workers :: s.threads[w].task.None?)
  {
    var s := Run(Init(workers, others), es);
    var v := RunKeepsInv(workers, others, es);
    GoneMeansIdle(s, v, t);
    if e.Go? && e.t == t {
      JoinsExactly(s, v, t, e.pick);
    } else {
      JoiningStays(s, t, e);
    }
  }

  /** Every worker has left its loop. */
  predicate AllGone(s: State) { forall w | w in s.workers :: w in s.threads && s.threads[w].pc.Exited? }

  lemma GoneMeansIdle(s: State, v: View, t: Tid)
    requires Inv(s, v) && t in s.threads && s.threads[t].pc.Joining?
    ensures s.closed && s.items == []
    ensures AllGone(s) ==> forall w | w in s.workers :: w in s.threads && s.threads[w].task.None?
  {
    Known(s, v, t);
    forall w | w in s.workers && w in s.threads && s.threads[w].pc.Exited?
      ensures s.threads[w].task.None?
    {
      Known(s, v, w);
    }
  }

  lemma JoinsExactly(s: State, v: View, t: Tid, pick: Tid)
    requires Inv(s, v) && t in s.threads && s.threads[t].pc.Joining?
    ensures var s' := Step(s, Go(t, pick));
      t in s'.threads && (if AllGone(s) then s'.threads[t].pc.Free? else s'.threads[t].pc.Joining?)
  {
    assert s.workers <= s.threads.Keys;
    hide Inv;
  }

  lemma JoiningStays(s: State, t: Tid, e: Event)
    requires t in s.threads && s.threads[t].pc.Joining? && t in Step(s, e).threads && !(e.Go? && e.t == t)
    ensures Step(s, e).threads[t].pc.Joining?
  {
    if e.t in s.threads && e.t != t { OthersGoOn(s, t, e); }
  }

  predicate IsAwaitingIdle(pc: Pc) { pc.ZeroLocking? || pc.ZeroLoading? || pc.ZeroWaiting? || pc.Dozing? }

  predicate GoesOn(s: State, pc: Pc, pc': Pc) {
    && (IsStopping(pc) ==> IsStopping(pc') || (pc.Joining? && pc'.Free?))
    && (IsAwaitingIdle(pc) ==> IsAwaitingIdle(pc') || (pc.ZeroLoading? && s.counter <= 0 && pc'.Free?))
  }

  /** How a call goes on: it is left only where the code leaves it, and by the caller. */
  lemma CallGoesOn(s: State, t: Tid, e: Event)
    requires t in s.threads
    ensures t in Step(s, e).threads && GoesOn(s, s.threads[t].pc, Step(s, e).threads[t].pc)
    ensures var pc, pc' := s.threads[t].pc, Step(s, e).threads[t].pc;
      IsAwaitingIdle(pc) && !IsAwaitingIdle(pc') ==> e.Go? && e.t == t
  {
    if e.t in s.threads && e.t != t {
      hide Step;
      OthersGoOn(s, t, e);
    } else if e.t == t && e.Go? {
      OwnGoesOn(s, t, e.pick);
    } else {
      hide GoStep, IsStopping;
    }
  }

  lemma OwnGoesOn(s: State, t: Tid, pick: Tid)
    requires t in s.threads
    ensures t in GoStep(s, t, pick).threads && GoesOn(s, s.threads[t].pc, GoStep(s, t, pick).threads[t].pc)
  {
    var pc := s.threads[t].pc;
    if pc.Decrementing? || pc.Notifying? || pc.Disposing? || pc.Joining? {
      hide PutStep, TakeStep, RefuseStep, LoadStep;
    } else {
      hide NotifyStep, DisposeStep, DecrementStep, JoinStep;
    }
  }

  lemma OthersGoOn(s: State, t: Tid, e: Event)
    requires t in s.threads && e.t in s.threads && e.t != t
    ensures t in Step(s, e).threads && OtherGoesOn(s.threads[t].pc, Step(s, e).threads[t].pc)
  {
    hide GoStep, OtherGoesOn;
    if e.Go? { OthersAtGo(s, t, e.t, e.pick); } else { OthersAtCall(s, t, e); }
  }

  predicate OtherGoesOn(pc: Pc, pc': Pc) {
    pc' == pc || (pc.Sleeping? && pc'.Taking?) || (pc.Dozing? && pc'.ZeroLocking?)
  }

  lemma OthersAtGo(s: State, t: Tid, u: Tid, pick: Tid)
    requires t in s.threads && u in s.threads && u != t
    ensures t in GoStep(s, u, pick).threads && OtherGoesOn(s.threads[t].pc, GoStep(s, u, pick).threads[t].pc)
  {
    var pc := s.threads[u].pc;
    if !pc.Notifying? && !pc.Disposing? {
      hide NotifyStep, DisposeStep;
    } else {
      hide PutStep, TakeStep, RefuseStep, JoinStep, LoadStep, DecrementStep;
    }
  }

  lemma OthersAtCall(s: State, t: Tid, e: Event)
    requires t in s.threads && e.t in s.threads && e.t != t && !e.Go?
    ensures t in Step(s, e).threads && OtherGoesOn(s.threads[t].pc, Step(s, e).threads[t].pc)
  {
  }

  /**
    Stop comes back from nowhere but its Joining, and only when every worker has left its
    loop; WaitIdle comes back only by an action of its own that finds no work outstanding.
   */
  lemma CallsEndWhenDone(workers: set<Tid>, others: set<Tid>, es: seq<Event>, t: Tid, e: Event)
    requires t in Run(Init(workers, others), es).threads
    ensures var s := Run(Init(workers, others), es);
      && t in Step(s, e).threads
      && var pc, pc' := s.threads[t].pc, Step(s, e).threads[t].pc;
        && (IsStopping(pc) && !IsStopping(pc') ==> e.Go? && e.t == t && AllGone(s) && pc'.Free?)
        && (IsAwaitingIdle(pc) && !IsAwaitingIdle(pc') ==> e.Go? && e.t == t && NoWork(s) && pc'.Free?)
  {
    var s := Run(Init(workers, others), es);
    CounterIsWork(workers, others, es);
    hide Step, Run, NoWork;
    CallGoesOn(s, t, e);
    if s.threads[t].pc.Joining? { StopWaitsForWorkers(workers, others, es, t, e); }
  }

  // ---- somebody can always move ----

  /**
    The pool never comes to a standstill: while a thread is not at rest, some action
    of a thread, or the end of a task's code, changes something.
   */
  lemma SomebodyCanMove(workers: set<Tid>, others: set<Tid>, es: seq<Event>, t: Tid) returns (e: Event)
    requires var s := Run(Init(workers, others), es); t in s.threads && !Rests(s.threads[t])
    ensures var s := Run(Init(workers, others), es); (e.Go? || e.Finish?) && Step(s, e) != s
  {
    var s := Run(Init(workers, others), es);
    var v := RunKeepsInv(workers, others, es);
    hide Run;
    e := Mover(s, v, t);
  }

  lemma Mover(s: State, v: View, t: Tid) returns (e: Event)
    requires Inv(s, v) && t in s.threads && !Rests(s.threads[t])
    ensures (e.Go? || e.Finish?) && Step(s, e) != s
  {
    Known(s, v, t);
    var pc := s.threads[t].pc;
    if pc.Free? {
      hide Inv;
      e := Finish(t);
      assert Step(s, e).threads[t].pc == Decrementing(TaskRun);
    } else if (pc.Putting? || pc.Taking? || pc.Closing?) && s.queueLock.Some? {
      e := QueueLockHolderMoves(s, v);
    } else if pc.ZeroLocking? || pc.Notifying? {
      if s.countLock.Some? { e := CountLockHolderMoves(s, v); } else { e := FreeMoves(s, t); }
    } else {
      hide Inv;
      e := FreeMoves(s, t);
    }
  }

  /** A thread that wants no lock, or finds it free, moves. */
  lemma FreeMoves(s: State, t: Tid) returns (e: Event)
    requires t in s.threads && !Rests(s.threads[t]) && !s.threads[t].pc.Free?
    requires var pc := s.threads[t].pc;
      && (pc.Putting? || pc.Taking? || pc.Closing? ==> s.queueLock == None)
      && (pc.ZeroLocking? || pc.Notifying? ==> s.countLock == None)
    ensures e.Go? && Step(s, e) != s
  {
    var pick := t;
    if u :| u in s.threads && s.threads[u].pc.Sleeping? { pick := u; }
    e := Go(t, pick);
    assert t in Step(s, e).threads && Step(s, e).threads[t] != s.threads[t];
  }

  lemma CountLockHolderMoves(s: State, v: View) returns (e: Event)
    requires Inv(s, v) && s.countLock.Some?
    ensures e.Go? && Step(s, e) != s
  {
    var u := s.countLock.value;
    Known(s, v, u);
    hide Inv;
    e := FreeMoves(s, u);
  }

  lemma QueueLockHolderMoves(s: State, v: View) returns (e: Event)
    requires Inv(s, v) && s.queueLock.Some?
    ensures e.Go? && Step(s, e) != s
  {
    var u := s.queueLock.value;
    Known(s, v, u);
    if s.threads[u].pc.Notifying? && s.countLock.Some? {
      e := CountLockHolderMoves(s, v);
    } else {
      hide Inv;
      e := FreeMoves(s, u);
    }
  }
}
