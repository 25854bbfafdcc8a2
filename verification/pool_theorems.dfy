/** What holds of every run of the thread pool. */
module PoolTheorems {
  import opened Wrappers
  import opened Collections
  import opened PoolModel
  import opened PoolInvariant
  import opened PoolSteps

  lemma InitInv(workers: set<Tid>, others: set<Tid>)
    ensures Inv(Init(workers, others), map[])
  {
    var threads: map<Tid, Thread> := Init(workers, others).threads;
    assert Where(threads, HasTask) == {} && Where(threads, IsSubmitting) == {} && Where(threads, IsDisposing) == {};
    assert Where(threads, IsSleeping) == {} && Where(threads, IsIdler) == {};
  }

  lemma {:induction false} RunKeepsInv(workers: set<Tid>, others: set<Tid>, es: seq<Event>) returns (v: View)
    ensures Inv(Run(Init(workers, others), es), v)
  {
    if es == [] {
      v := map[];
      InitInv(workers, others);
    } else {
      v := RunKeepsInv(workers, others, es[..|es| - 1]);
      v := StepKeepsInv(Run(Init(workers, others), es[..|es| - 1]), v, es[|es| - 1]);
    }
  }

  /** Nothing queued, running, being submitted or being disposed of. */
  predicate NoWork(s: State) {
    s.items == [] && forall t | t in s.threads :: s.threads[t].task.None? && !IsSubmitting(s.threads[t]) && !IsDisposing(s.threads[t])
  }

  lemma ZeroMeansNoWork(s: State)
    ensures Outstanding(s) == 0 <==> NoWork(s)
  {
    WhereNone(s.threads, HasTask);
    WhereNone(s.threads, IsSubmitting);
    WhereNone(s.threads, IsDisposing);
    assert forall t | t in s.threads :: HasTask(s.threads[t]) <==> s.threads[t].task.Some?;
  }

  /**
    The counter is the work outstanding: queued, running, and submissions and
    disposals in progress, those by running tasks included.
   */
  lemma CounterIsWork(workers: set<Tid>, others: set<Tid>, es: seq<Event>)
    ensures var s := Run(Init(workers, others), es);
      s.counter == Outstanding(s) && (s.counter == 0 <==> NoWork(s))
  {
    var v := RunKeepsInv(workers, others, es);
    ZeroMeansNoWork(Run(Init(workers, others), es));
  }

  /** WaitIdle returns exactly when it looks at a pool that has no work. */
  lemma WaitIdleReturnsIdle(workers: set<Tid>, others: set<Tid>, es: seq<Event>, t: Tid, pick: Tid)
    requires var s := Run(Init(workers, others), es);
      t in s.threads && s.threads[t].pc.ZeroLoading?
    ensures var s := Run(Init(workers, others), es);
      Step(s, Go(t, pick)).threads[t].pc.Free? <==> NoWork(s)
  {
    CounterIsWork(workers, others, es);
  }

  /** Which submission a thread has in its hands, before it is in the queue. */
  predicate InHand(s: State, x: Ticket) {
    exists t :: t in s.threads && TicketAt(s.threads[t].pc) == Some(x)
  }

  /**
    Every submission is started once, or discarded once, or still on its way:
    with its submitter, or in the queue, but in one place only.
   */
  lemma EachTaskOnce(workers: set<Tid>, others: set<Tid>, es: seq<Event>)
    ensures var s := Run(Init(workers, others), es);
      && Distinct(s.started) && Distinct(s.discarded) && Distinct(s.items)
      && (forall x | x in s.started :: x !in s.discarded && x !in s.items && !InHand(s, x))
      && (forall x | x in s.discarded :: x !in s.items && !InHand(s, x))
      && (forall x | x in s.items :: !InHand(s, x))
      && (forall x: nat :: x < s.tickets <==> x in s.started || x in s.discarded || x in s.items || InHand(s, x))
  {
    var s := Run(Init(workers, others), es);
    var v := RunKeepsInv(workers, others, es);
    forall x: nat
      ensures InHand(s, x) <==> x in v && v[x].Carried?
    {
      if InHand(s, x) {
        var t :| t in s.threads && TicketAt(s.threads[t].pc) == Some(x);
        assert CarriedBy(v, x, t);
      }
    }
    hide Balanced, InHand;
    forall x: nat
      ensures x < s.tickets <==> x in s.started || x in s.discarded || x in s.items || InHand(s, x)
    {
      if x < s.tickets { assert x in v; }
    }
  }

  /**
    No lost notification: if a worker sleeps, enough others are on their way for all
    that is queued; if somebody waits for zero and the count is zero, a notification
    is on its way.
   */
  lemma NoLostNotification(workers: set<Tid>, others: set<Tid>, es: seq<Event>)
    ensures var s := Run(Init(workers, others), es);
      && (Count(s, IsSleeping) > 0 ==> |s.items| <= Count(s, IsTaking))
      && (s.counter == 0 && Count(s, IsIdler) > 0 ==> Count(s, IsNotifying) > 0)
      && (s.closed ==> s.items == [] && Count(s, IsSleeping) == 0)
  {
    var v := RunKeepsInv(workers, others, es);
  }

  predicate Rests(th: Thread) {
    th.pc.Sleeping? || th.pc.Exited? || th.pc.Dozing? || th.pc.Joining? || th == Thread(None, Free)
  }

  lemma RestingWorkers(s: State, v: View)
    requires Inv(s, v) && forall t | t in s.threads :: Rests(s.threads[t])
    ensures Count(s, IsTaking) == 0 && Count(s, IsNotifying) == 0
    ensures forall t | t in s.threads :: s.threads[t].task.None?
    ensures forall w | w in s.workers :: w in s.threads && (s.threads[w].pc.Sleeping? || (s.threads[w].pc.Exited? && s.closed))
    ensures forall t | t in s.threads && s.threads[t].pc.Joining? :: s.closed
  {
    WhereNone(s.threads, IsTaking);
    WhereNone(s.threads, IsNotifying);
    forall t | t in s.threads
      ensures ThreadOk(s, t)
    {
    }
    hide Balanced, Placed;
  }

  lemma RestingTickets(workers: set<Tid>, others: set<Tid>, es: seq<Event>)
    requires var s := Run(Init(workers, others), es);
      s.items == [] && forall t | t in s.threads :: Rests(s.threads[t])
    ensures var s := Run(Init(workers, others), es);
      forall x: nat | x < s.tickets :: x in s.started || x in s.discarded
  {
    EachTaskOnce(workers, others, es);
  }

  /**
    When nobody can move, the work is done: nothing is queued, every submission has
    been started or discarded, nobody is left waiting for the pool to be idle, and
    if somebody is stopping it, all workers have gone.
   */
  lemma RestMeansDone(workers: set<Tid>, others: set<Tid>, es: seq<Event>)
    requires var s := Run(Init(workers, others), es);
      s.workers != {} && forall t | t in s.threads :: Rests(s.threads[t])
    ensures var s := Run(Init(workers, others), es);
      && NoWork(s)
      && (forall x: nat | x < s.tickets :: x in s.started || x in s.discarded)
      && (forall t | t in s.threads :: !s.threads[t].pc.Dozing?)
      && (forall t, w | t in s.threads && s.threads[t].pc.Joining? && w in s.workers :: w in s.threads && s.threads[w].pc.Exited?)
  {
    var s := Run(Init(workers, others), es);
    var v := RunKeepsInv(workers, others, es);
    RestingWorkers(s, v);
    CounterIsWork(workers, others, es);
    if s.items == [] { RestingTickets(workers, others, es); }
    hide Placed, ThreadOk;
    WhereNone(s.threads, IsSleeping);
    WhereNone(s.threads, IsIdler);
    var w :| w in s.workers;
    assert IsSleeping(s.threads[w]) || s.closed;
    assert forall t | t in s.threads :: IsIdler(s.threads[t]) <==> s.threads[t].pc.Dozing?;
    assert forall t | t in s.threads :: IsSleeping(s.threads[t]) <==> s.threads[t].pc.Sleeping?;
  }

  // ---- the order of the queue ----

  /** `xs` is made of `ys` and `zs`, each in its order. */
  ghost predicate Interleaves(xs: seq<Ticket>, ys: seq<Ticket>, zs: seq<Ticket>)
    decreases |xs|
  {
    if xs == [] then ys == [] && zs == []
    else
      var n := |xs| - 1;
      || (ys != [] && ys[|ys| - 1] == xs[n] && Interleaves(xs[..n], ys[..|ys| - 1], zs))
      || (zs != [] && zs[|zs| - 1] == xs[n] && Interleaves(xs[..n], ys, zs[..|zs| - 1]))
  }

  lemma OneMoreOfEither(xs: seq<Ticket>, ys: seq<Ticket>, zs: seq<Ticket>, x: Ticket)
    requires Interleaves(xs, ys, zs)
    ensures Interleaves(xs + [x], ys + [x], zs) && Interleaves(xs + [x], ys, zs + [x])
  {
    assert (xs + [x])[..|xs|] == xs && (ys + [x])[..|ys|] == ys && (zs + [x])[..|zs|] == zs;
  }

  /** What has left the queue is the tasks started and those disposed of; what was discarded, those and the refused. */
  ghost predicate InOrder(s: State) {
    && s.puts == s.pops + s.items
    && Interleaves(s.pops, s.started, s.disposed)
    && Interleaves(s.discarded, s.disposed, s.refused)
  }

  predicate QueueStays(s: State, s': State) { s'.items == s.items && s'.puts == s.puts && s'.pops == s.pops }

  predicate QueuePopped(s: State, s': State) {
    s.items != [] && s'.items == s.items[1..] && s'.puts == s.puts && s'.pops == s.pops + [s.items[0]]
  }

  predicate FatesStay(s: State, s': State) {
    s'.started == s.started && s'.discarded == s.discarded && s'.disposed == s.disposed && s'.refused == s.refused
  }

  /** The five ways in which a step can move the logs. */
  predicate LogsMove(s: State, s': State) {
    || (QueueStays(s, s') && FatesStay(s, s'))
    || (FatesStay(s, s') && s'.items != [] && s'.pops == s.pops && PutLast(s, s', s'.items[|s'.items| - 1]))
    || (QueuePopped(s, s') && FatesStay(s, s'.(started := s.started)) && s'.started == s.started + [s.items[0]])
    || (QueuePopped(s, s') && s'.started == s.started && s'.refused == s.refused
        && s'.disposed == s.disposed + [s.items[0]] && s'.discarded == s.discarded + [s.items[0]])
    || (QueueStays(s, s') && s'.started == s.started && s'.disposed == s.disposed && s'.refused != []
        && RefusedLast(s, s', s'.refused[|s'.refused| - 1]))
  }

  predicate PutLast(s: State, s': State, x: Ticket) { s'.items == s.items + [x] && s'.puts == s.puts + [x] }

  predicate RefusedLast(s: State, s': State, x: Ticket) {
    s'.refused == s.refused + [x] && s'.discarded == s.discarded + [x]
  }

  lemma StepMovesLogs(s: State, e: Event)
    ensures LogsMove(s, Step(s, e))
  {
    hide GoStep;
    if e.Go? && e.t in s.threads { GoMovesLogs(s, e.t, e.pick); }
  }

  lemma GoMovesLogs(s: State, t: Tid, pick: Tid)
    requires t in s.threads
    ensures LogsMove(s, GoStep(s, t, pick))
  {
    hide WakeSleepers, WakeDozers;
    match s.threads[t].pc
    case Putting(x) => hide DisposeStep, TakeStep, RefuseStep, NotifyStep, DecrementStep, LoadStep, JoinStep;
    case Taking => hide PutStep, DisposeStep, RefuseStep, NotifyStep, DecrementStep, LoadStep, JoinStep;
    case _ => hide PutStep, TakeStep;
  }

  lemma MovedLogsInOrder(s: State, s': State)
    requires InOrder(s) && LogsMove(s, s')
    ensures InOrder(s')
  {
    hide Interleaves;
    if QueuePopped(s, s') {
      var x := s.items[0];
      assert s.pops + s.items == (s.pops + [x]) + s.items[1..];
      OneMoreOfEither(s.pops, s.started, s.disposed, x);
      OneMoreOfEither(s.discarded, s.disposed, s.refused, x);
    } else if QueueStays(s, s') {
      if s'.refused != [] { OneMoreOfEither(s.discarded, s.disposed, s.refused, s'.refused[|s'.refused| - 1]); }
    } else {
      var x := s'.items[|s'.items| - 1];
      assert (s.pops + s.items) + [x] == s.pops + (s.items + [x]);
    }
  }

  lemma StepKeepsOrder(s: State, e: Event)
    requires InOrder(s)
    ensures InOrder(Step(s, e))
  {
    hide InOrder, Step, LogsMove;
    StepMovesLogs(s, e);
    MovedLogsInOrder(s, Step(s, e));
  }

  /**
    The blocking queue is first-in first-out, up to the fates of the tasks: those
    started and those disposed of, merged as they left, and then those still queued
    are what was put, in order; so each kind is in the order of its Puts. And what was
    discarded is those disposed of and those refused, in order.
   */
  lemma {:induction false} QueueIsFifo(workers: set<Tid>, others: set<Tid>, es: seq<Event>)
    ensures InOrder(Run(Init(workers, others), es))
  {
    if es != [] {
      QueueIsFifo(workers, others, es[..|es| - 1]);
      StepKeepsOrder(Run(Init(workers, others), es[..|es| - 1]), es[|es| - 1]);
    }
  }

  /** Whose place in `pops` is which: a task started before another was put before it. */
  ghost predicate Follows(xs: seq<Ticket>, x: Ticket, y: Ticket) {
    exists i, j :: 0 <= i < j < |xs| && xs[i] == x && xs[j] == y
  }

  /** A part of an interleaving keeps its order in the whole. */
  lemma {:induction false} PartsKeepOrder(xs: seq<Ticket>, ys: seq<Ticket>, zs: seq<Ticket>, i: nat, j: nat)
    requires Interleaves(xs, ys, zs) && i < j < |ys|
    ensures Follows(xs, ys[i], ys[j])
    decreases |xs|
  {
    var n := |xs| - 1;
    var k := |ys| - 1;
    if ys[k] == xs[n] && Interleaves(xs[..n], ys[..k], zs) {
      if j < k {
        PartsKeepOrder(xs[..n], ys[..k], zs, i, j);
        var a, b :| 0 <= a < b < n && xs[..n][a] == ys[i] && xs[..n][b] == ys[j];
        assert xs[a] == ys[i] && xs[b] == ys[j];
      } else {
        PartIsIn(xs[..n], ys[..k], zs, i);
        var a :| 0 <= a < n && xs[..n][a] == ys[i];
        assert xs[a] == ys[i] && xs[n] == ys[j];
      }
    } else {
      PartsKeepOrder(xs[..n], ys, zs[..|zs| - 1], i, j);
      var a, b :| 0 <= a < b < n && xs[..n][a] == ys[i] && xs[..n][b] == ys[j];
      assert xs[a] == ys[i] && xs[b] == ys[j];
    }
  }

  lemma {:induction false} PartIsIn(xs: seq<Ticket>, ys: seq<Ticket>, zs: seq<Ticket>, i: nat)
    requires Interleaves(xs, ys, zs) && i < |ys|
    ensures exists a :: 0 <= a < |xs| && xs[a] == ys[i]
    decreases |xs|
  {
    var n := |xs| - 1;
    var k := |ys| - 1;
    if ys[k] == xs[n] && Interleaves(xs[..n], ys[..k], zs) {
      if i < k {
        PartIsIn(xs[..n], ys[..k], zs, i);
        var a :| 0 <= a < n && xs[..n][a] == ys[i];
        assert xs[a] == ys[i];
      }
    } else {
      PartIsIn(xs[..n], ys, zs[..|zs| - 1], i);
      var a :| 0 <= a < n && xs[..n][a] == ys[i];
      assert xs[a] == ys[i];
    }
  }

  /** Tasks start in the order in which they were put. */
  lemma StartedInOrder(workers: set<Tid>, others: set<Tid>, es: seq<Event>, i: nat, j: nat)
    requires i < j < |Run(Init(workers, others), es).started|
    ensures var s := Run(Init(workers, others), es); Follows(s.puts, s.started[i], s.started[j])
  {
    var s := Run(Init(workers, others), es);
    QueueIsFifo(workers, others, es);
    PartsKeepOrder(s.pops, s.started, s.disposed, i, j);
    var a, b :| 0 <= a < b < |s.pops| && s.pops[a] == s.started[i] && s.pops[b] == s.started[j];
    assert s.puts[a] == s.started[i] && s.puts[b] == s.started[j];
  }
}
