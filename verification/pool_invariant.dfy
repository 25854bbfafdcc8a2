/** What the pool's counter counts, where every submission is, and why no notification is lost. */
module PoolInvariant {
  import opened Wrappers
  import opened Collections
  import opened PoolModel

  /** Where a submission is: with its submitter, in the queue, taken by a worker, or discarded. */
  datatype Place = Carried(t: Tid) | Queued | Started | Discarded

  type View = map<Ticket, Place>

  // ---- what is counted ----

  predicate HasTask(th: Thread) { th.task.Some? }

  predicate IsSubmitting(th: Thread) { th.pc.Putting? || th.pc.Refused? || th.pc == Decrementing(Refusal) }

  predicate IsDisposing(th: Thread) { th.pc == Decrementing(Disposal) }

  predicate IsTaking(th: Thread) { th.pc.Taking? }

  predicate IsNotifying(th: Thread) { th.pc.Notifying? }

  /** Asleep on all_done_, or about to be, having seen a positive count. */
  predicate IsIdler(th: Thread) { th.pc.Dozing? || th.pc.ZeroWaiting? }

  function Count(s: State, f: Thread -> bool): nat { |Where(s.threads, f)| }

  /** Queued, running, being submitted, being disposed of. */
  function Outstanding(s: State): nat {
    |s.items| + Count(s, HasTask) + Count(s, IsSubmitting) + Count(s, IsDisposing)
  }

  /** Sleepers leave no more items than there are workers on their way to take them. */
  predicate NobodyOverslept(s: State) {
    Count(s, IsSleeping) > 0 ==> |s.items| <= Count(s, IsTaking)
  }

  /** Whoever dozes although the count is zero will be notified. */
  predicate NobodyForgotten(s: State) {
    s.counter == 0 && Count(s, IsIdler) > 0 ==> Count(s, IsNotifying) > 0
  }

  predicate Balanced(s: State) {
    && s.counter == Outstanding(s)
    && (s.closed ==> s.items == [] && Count(s, IsSleeping) == 0)
    && NobodyOverslept(s)
    && NobodyForgotten(s)
  }

  // ---- where every submission is ----

  function TicketAt(pc: Pc): Option<Ticket> {
    if pc.Adding? || pc.Putting? || pc.Refused? then Some(pc.x) else None
  }

  predicate ListIs(v: View, xs: seq<Ticket>, place: Place) {
    && Distinct(xs)
    && (forall x | x in xs :: x in v && v[x] == place)
    && (forall x | x in v && v[x] == place :: x in xs)
  }

  predicate Placed(s: State, v: View) {
    && (forall x | x in v :: x < s.tickets)
    && (forall x: nat | x < s.tickets :: x in v)
    && ListIs(v, s.items, Queued)
    && ListIs(v, s.started, Started)
    && ListIs(v, s.discarded, Discarded)
    && (forall x | x in v && v[x].Carried? :: v[x].t in s.threads && TicketAt(s.threads[v[x].t].pc) == Some(x))
    && (forall t | t in s.threads && TicketAt(s.threads[t].pc).Some? :: CarriedBy(v, TicketAt(s.threads[t].pc).value, t))
  }

  predicate CarriedBy(v: View, x: Ticket, t: Tid) { x in v && v[x] == Carried(t) }

  // ---- threads and locks ----

  predicate HasQueueLock(pc: Pc) {
    pc.Disposing? || pc == Decrementing(Disposal) || pc == Notifying(Disposal)
  }

  predicate HasCountLock(pc: Pc) { pc.ZeroLoading? || pc.ZeroWaiting? }

  /** Where a worker can be without a task: in its loop. */
  predicate InLoop(pc: Pc) { pc.Taking? || pc.Sleeping? || pc.Exited? || pc == Notifying(TaskRun) }

  predicate ThreadOk(s: State, t: Tid)
    requires t in s.threads
  {
    var th := s.threads[t];
    && (HasQueueLock(th.pc) <==> s.queueLock == Some(t))
    && (HasCountLock(th.pc) <==> s.countLock == Some(t))
    && (th.task.Some? ==> t in s.workers && !InLoop(th.pc))
    && (t in s.workers && th.task.None? ==> InLoop(th.pc))
    && (t !in s.workers ==> !InLoop(th.pc) && th.pc != Decrementing(TaskRun))
    && (th.pc.Exited? || th.pc.Joining? ==> s.closed)
    && (th.task.Some? ==> th.pc.Free? || th.pc.Adding? || th.pc.Putting? || th.pc.Refused? || th.pc.Decrementing? || th.pc.Notifying?)
    && (th.task.Some? && th.pc.Decrementing? ==> th.pc.after != Disposal)
    && (th.task.Some? && th.pc.Notifying? ==> th.pc.after == Refusal)
  }

  ghost predicate Inv(s: State, v: View) {
    && Balanced(s)
    && Placed(s, v)
    && (s.queueLock.Some? ==> s.queueLock.value in s.threads)
    && (s.countLock.Some? ==> s.countLock.value in s.threads)
    && s.workers <= s.threads.Keys
    && forall t {:trigger ThreadOk(s, t)} | t in s.threads :: ThreadOk(s, t)
  }

  // ---- one thread moves ----

  function One(b: bool): nat { if b then 1 else 0 }

  /** How one thread's move shows in all the counts. */
  lemma Counts(s: State, s': State, t: Tid)
    requires t in s.threads && t in s'.threads && s'.threads == s.threads[t := s'.threads[t]]
    ensures forall f | f == HasTask || f == IsSubmitting || f == IsDisposing || f == IsTaking || f == IsNotifying || f == IsIdler || f == IsSleeping ::
      && Count(s', f) == Count(s, f) - One(f(s.threads[t])) + One(f(s'.threads[t]))
      && (f(s.threads[t]) ==> Count(s, f) > 0)
  {
    WhereStep(s.threads, HasTask, t, s'.threads[t]);
    WhereStep(s.threads, IsSubmitting, t, s'.threads[t]);
    WhereStep(s.threads, IsDisposing, t, s'.threads[t]);
    WhereStep(s.threads, IsTaking, t, s'.threads[t]);
    WhereStep(s.threads, IsNotifying, t, s'.threads[t]);
    WhereStep(s.threads, IsIdler, t, s'.threads[t]);
    WhereStep(s.threads, IsSleeping, t, s'.threads[t]);
  }
}
