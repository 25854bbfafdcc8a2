/** What holds of every run of the strand. */
module StrandTheorems {
  import opened Collections
  import opened StrandModel
  import opened StrandInvariant
  import opened StrandLifetime

  function RunView(s: State, v: View, es: seq<Event>): View {
    if es == [] then v
    else StepView(StrandModel.Run(s, es[..|es| - 1]), RunView(s, v, es[..|es| - 1]), es[|es| - 1])
  }

  const FIRST: View := View([], [], 0, NoBatch)

  lemma {:induction false} NobodyYet(threads: set<Tid>, f: Pc -> bool)
    requires !f(Idle)
    ensures Where(Init(threads).pc, f) == {}
  {
  }

  lemma InitBoth(threads: set<Tid>)
    ensures Inv(Init(threads), FIRST) && RefInv(Init(threads))
  {
    NobodyYet(threads, IsCounting);
    NobodyYet(threads, HoldsRef);
    NobodyYet(threads, HoldsTwo);
    NobodyYet(threads, IsDestroying);
  }

  lemma {:induction false} RunKeepsBoth(threads: set<Tid>, es: seq<Event>)
    ensures var s := StrandModel.Run(Init(threads), es);
      Inv(s, RunView(Init(threads), FIRST, es)) && RefInv(s)
  {
    var s0 := Init(threads);
    if es == [] {
      InitBoth(threads);
    } else {
      var n := |es| - 1;
      RunKeepsBoth(threads, es[..n]);
      var s, v := StrandModel.Run(s0, es[..n]), RunView(s0, FIRST, es[..n]);
      StepKeepsInv(s, v, es[n]);
      StepKeepsRefs(s, v, es[n]);
    }
  }

  /** In possession of the next batch, or executing it. */
  predicate InBatch(s: State, t: Tid)
    requires t in s.pc
  {
    HasToken(s.pc[t])
  }

  /**
    An Execute called by a running task never starts a batch: it finds the counter
    above zero, since the tasks of the batch have not been subtracted yet.
   */
  lemma NestedExecuteFindsTheBatch(threads: set<Tid>, es: seq<Event>, t: Tid)
    requires var s := StrandModel.Run(Init(threads), es); t in s.pc && s.pc[t].Counting? && s.pc[t].back.ToTask?
    ensures var s := StrandModel.Run(Init(threads), es);
      s.counter > 0 && Action(s, t, false).pc[t] == InTask(s.pc[t].back.items, s.pc[t].back.completed)
  {
    var s, v := StrandModel.Run(Init(threads), es), RunView(Init(threads), FIRST, es);
    RunKeepsBoth(threads, es);
    assert ThreadOk(s, v, t);
    CounterIsExact(s, v);
  }

  /**
    The strand is a serial FIFO executor: tasks start in the order of their Puts,
    no task starts twice, at most one batch is pending or in progress, and a thread
    about to take a batch will find a task in it.
   */
  lemma SerialFifo(threads: set<Tid>, es: seq<Event>)
    ensures var s := StrandModel.Run(Init(threads), es);
      && s.executed <= s.order
      && s.pending <= 1
      && (forall t, u | t in s.pc && u in s.pc && InBatch(s, t) && InBatch(s, u) :: t == u)
      && (forall t | t in s.pc && InBatch(s, t) :: s.pending == 0)
      && (forall t | t in s.pc && s.pc[t].Taking? :: s.head != NULL)
  {
    var s, v := StrandModel.Run(Init(threads), es), RunView(Init(threads), FIRST, es);
    RunKeepsBoth(threads, es);
    assert s.order[..|s.executed|] == s.executed;
    forall t | t in s.pc && InBatch(s, t)
      ensures v.token == Held(t) && (s.pc[t].Taking? ==> s.head != NULL)
    {
      assert ThreadOk(s, v, t);
      if s.pc[t].Taking? { TakeKeepsInv(s, v, t); }
    }
  }

  // ---- everything submitted ----

  /**
    The call of Execute that an event makes: by a thread outside everything or from
    the task it runs, on a strand that is there, with a node that is on its way to
    running in no other call.
   */
  function SubmittedBy(s: State, e: Event): seq<Task> {
    if && e.Submit? && e.t in s.pc && (s.pc[e.t].Idle? || s.pc[e.t].InTask?)
       && s.handle && e.task != NULL && e.task !in Unstarted(s)
       && forall u | u in s.pc && s.pc[u].Putting? :: s.pc[u].task != e.task
    then [e.task] else []
  }

  /** The tasks with which Execute was called on a run, in the order of the calls. */
  function Submitted(s: State, es: seq<Event>): seq<Task> {
    if es == [] then []
    else Submitted(s, es[..|es| - 1]) + SubmittedBy(StrandModel.Run(s, es[..|es| - 1]), es[|es| - 1])
  }

  /** In the hands of a thread that has called Execute and not put its task yet. */
  function InHand(s: State): set<Task> { set t | t in s.pc && s.pc[t].Putting? :: s.pc[t].task }

  predicate AllThere(s: State, submitted: seq<Task>) {
    multiset(submitted) == multiset(s.order) + multiset(InHand(s))
  }

  lemma SubmittableIsNewer(s: State, v: View, task: Task)
    requires Inv(s, v)
    ensures Submittable(s, task) <==>
      task != NULL && task !in Unstarted(s) && forall u | u in s.pc && s.pc[u].Putting? :: s.pc[u].task != task
  {
    assert |s.executed| <= |s.order|;
    if task !in Unstarted(s) {
      forall i | |s.executed| <= i < |s.order|
        ensures s.order[i] != task
      {
        assert s.order[i] == Unstarted(s)[i - |s.executed|];
      }
    } else {
      var i :| 0 <= i < |Unstarted(s)| && Unstarted(s)[i] == task;
      assert s.order[|s.executed| + i] == task;
    }
  }

  lemma SubmitShape(s: State, v: View, e: Event)
    requires Inv(s, v) && e.Submit? && !s.fault
    ensures SubmittedBy(s, e) == [] ==> Step(s, e) == s
    ensures SubmittedBy(s, e) != [] ==>
      && SubmittedBy(s, e) == [e.task] && e.t in s.pc && !s.pc[e.t].Putting? && e.task !in InHand(s)
      && Step(s, e) == s.(pc := s.pc[e.t := Putting(e.task, BackTo(s.pc[e.t]))])
  {
    SubmittableIsNewer(s, v, e.task);
    hide Inv, Submittable, Unstarted;
  }

  lemma SubmitKeepsAll(s: State, v: View, e: Event, submitted: seq<Task>)
    requires Inv(s, v) && e.Submit? && !s.fault && AllThere(s, submitted)
    ensures AllThere(Step(s, e), submitted + SubmittedBy(s, e))
  {
    SubmitShape(s, v, e);
    hide Inv, Step, SubmittedBy;
    if SubmittedBy(s, e) != [] {
      HandGrows(s, Step(s, e), e.t);
    } else {
      assert submitted + [] == submitted;
    }
  }

  lemma HandGrows(s: State, s': State, t: Tid)
    requires t in s.pc && t in s'.pc && s'.pc == s.pc[t := s'.pc[t]] && !s.pc[t].Putting? && s'.pc[t].Putting?
    ensures InHand(s') == InHand(s) + {s'.pc[t].task}
  {
    forall x | x in InHand(s) + {s'.pc[t].task}
      ensures x in InHand(s')
    {
      if x == s'.pc[t].task {
        assert x == s'.pc[t].task;
      } else {
        var u :| u in s.pc && s.pc[u].Putting? && s.pc[u].task == x;
        assert s'.pc[u].task == x;
      }
    }
  }

  lemma HandStays(s: State, s': State, t: Tid)
    requires t in s.pc && t in s'.pc && s'.pc == s.pc[t := s'.pc[t]]
    requires s.pc[t].Putting? <==> s'.pc[t].Putting?
    requires s.pc[t].Putting? ==> s'.pc[t].task == s.pc[t].task
    ensures InHand(s') == InHand(s)
  {
    forall x
      ensures x in InHand(s') <==> x in InHand(s)
    {
      if u :| u in s.pc && s.pc[u].Putting? && s.pc[u].task == x { assert s'.pc[u].task == x; }
      if u :| u in s'.pc && s'.pc[u].Putting? && s'.pc[u].task == x { assert s.pc[u].task == x; }
    }
  }

  /** A task that has been put is in nobody's hands any more. */
  lemma HandShrinks(s: State, v: View, s': State, t: Tid)
    requires Inv(s, v) && t in s.pc && t in s'.pc && s'.pc == s.pc[t := s'.pc[t]] && s.pc[t].Putting? && !s'.pc[t].Putting?
    ensures InHand(s) == InHand(s') + {s.pc[t].task} && s.pc[t].task !in InHand(s')
  {
    var task := s.pc[t].task;
    assert ThreadOk(s, v, t);
    forall u | u in s'.pc && s'.pc[u].Putting?
      ensures s'.pc[u].task != task
    {
      assert ThreadOk(s, v, u);
      assert PutBy(s.pc, u) != PutBy(s.pc, t);
    }
    HandGrows(s', s, t);
  }

  lemma PutKeepsAll(s: State, v: View, t: Tid, spurious: bool, submitted: seq<Task>)
    requires Inv(s, v) && t in s.pc && s.pc[t].Putting? && AllThere(s, submitted)
    ensures AllThere(PutStep(s, t, spurious), submitted)
  {
    var s' := PutStep(s, t, spurious);
    var task := s.pc[t].task;
    PutOrHeld(s, t, spurious);
    hide Inv, PutStep;
    if s'.pc[t].Putting? {
      HandStays(s, s', t);
    } else {
      HandShrinks(s, v, s', t);
      hide InHand;
      assert multiset(InHand(s)) == multiset(InHand(s')) + multiset{task};
    }
  }

  lemma PutOrHeld(s: State, t: Tid, spurious: bool)
    requires t in s.pc && s.pc[t].Putting?
    ensures var s' := PutStep(s, t, spurious);
      && t in s'.pc && s'.pc == s.pc[t := s'.pc[t]]
      && (if s'.pc[t].Putting? then s'.pc[t].task == s.pc[t].task && s'.order == s.order
          else s'.order == s.order + [s.pc[t].task])
  {
    hide NextOf;
  }

  lemma GoKeepsAll(s: State, v: View, t: Tid, spurious: bool, submitted: seq<Task>)
    requires Inv(s, v) && t in s.pc && AllThere(s, submitted)
    ensures AllThere(GoStep(s, t, spurious), submitted)
  {
    if s.pc[t].Putting? && s.alive {
      PutKeepsAll(s, v, t, spurious, submitted);
    } else if s.pc[t] != Idle && s.alive {
      assert ThreadOk(s, v, t);
      OthersStayOut(s, v, t, spurious);
      HandStays(s, GoStep(s, t, spurious), t);
    }
  }

  lemma OthersStayOut(s: State, v: View, t: Tid, spurious: bool)
    requires t in s.pc && !s.pc[t].Putting? && s.pc[t] != Idle && s.alive && ThreadOk(s, v, t)
    ensures var s' := GoStep(s, t, spurious);
      t in s'.pc && s'.pc == s.pc[t := s'.pc[t]] && !s'.pc[t].Putting? && s'.order == s.order
  {
    ActionMovesOne(s, t, spurious);
    hide NextOf, PutStep;
  }

  /**
    Execute never drops a task: on every run the calls made so far are, call for call,
    the tasks put and those in the hands of threads that are still putting them.
   */
  lemma {:induction false} AllSubmitted(threads: set<Tid>, es: seq<Event>)
    ensures AllThere(StrandModel.Run(Init(threads), es), Submitted(Init(threads), es))
  {
    var s0 := Init(threads);
    if es == [] {
      assert InHand(s0) == {};
    } else {
      var n := |es| - 1;
      AllSubmitted(threads, es[..n]);
      RunKeepsBoth(threads, es[..n]);
      var s, v, e := StrandModel.Run(s0, es[..n]), RunView(s0, FIRST, es[..n]), es[n];
      StepKeepsAll(s, v, e, Submitted(s0, es[..n]));
    }
  }

  lemma StepKeepsAll(s: State, v: View, e: Event, submitted: seq<Task>)
    requires Inv(s, v) && RefInv(s) && AllThere(s, submitted)
    ensures AllThere(Step(s, e), submitted + SubmittedBy(s, e))
  {
    hide Inv, AllThere, GoStep, Submittable;
    if e.Submit? {
      SubmitKeepsAll(s, v, e, submitted);
    } else {
      assert submitted + SubmittedBy(s, e) == submitted;
      if e.t in s.pc {
        match e
        case Go(t, spurious) => GoKeepsAll(s, v, t, spurious, submitted);
        case _ => CallerKeepsAll(s, e, submitted);
      }
    }
  }

  lemma CallerKeepsAll(s: State, e: Event, submitted: seq<Task>)
    requires e.t in s.pc && (e.StartBatch? || e.DropHandle?) && AllThere(s, submitted)
    ensures AllThere(Step(s, e), submitted)
  {
    if Step(s, e) != s { HandStays(s, Step(s, e), e.t); }
  }

  /** Where the pending work is: in the executor, in a thread's hands, or about to be counted. */
  predicate InGoodHands(s: State) {
    || s.pending > 0
    || (exists t :: t in s.pc && HasToken(s.pc[t]))
    || (exists t :: t in s.pc && s.pc[t].Counting?)
  }

  /**
    No task is lost, although the counter may have wrapped below zero: as long as
    fewer tasks have started than were submitted, some thread is still putting one,
    or somebody will get to those that were put.
   */
  lemma NoTaskLost(threads: set<Tid>, es: seq<Event>)
    ensures var s := StrandModel.Run(Init(threads), es);
      && (|s.executed| < |s.order| ==> InGoodHands(s))
      && (|s.executed| < |Submitted(Init(threads), es)| ==> InGoodHands(s) || exists t :: t in s.pc && s.pc[t].Putting?)
  {
    PutAreInGoodHands(threads, es);
    AllSubmitted(threads, es);
    var s := StrandModel.Run(Init(threads), es);
    assert |multiset(s.order)| == |s.order|;
    if InHand(s) == {} {
      assert |Submitted(Init(threads), es)| == |multiset(Submitted(Init(threads), es))| == |s.order|;
    } else {
      var x :| x in InHand(s);
      assert exists t :: t in s.pc && s.pc[t].Putting?;
    }
  }

  lemma PutAreInGoodHands(threads: set<Tid>, es: seq<Event>)
    ensures var s := StrandModel.Run(Init(threads), es);
      |s.executed| < |s.order| ==> InGoodHands(s)
  {
    var s, v := StrandModel.Run(Init(threads), es), RunView(Init(threads), FIRST, es);
    RunKeepsBoth(threads, es);
    if |s.executed| < |s.order| {
      match v.token
      case Pending =>
      case Held(t) => assert ThreadOk(s, v, t);
      case NoBatch =>
        ReversedLength(v.chain);
        assert Uncounted(s.pc) != {};
        var t :| t in Uncounted(s.pc);
        assert s.pc[t].Counting?;
    }
  }

  predicate Quiet(s: State) {
    s.pending == 0 && forall t | t in s.pc :: s.pc[t] == Idle
  }

  /**
    When nothing is in flight, every task submitted has run, once for each
    submission; the queue is empty and the counter reads zero.
   */
  lemma QuietMeansDone(threads: set<Tid>, es: seq<Event>)
    requires Quiet(StrandModel.Run(Init(threads), es))
    ensures var s := StrandModel.Run(Init(threads), es);
      && multiset(s.executed) == multiset(Submitted(Init(threads), es))
      && s.executed == s.order && s.head == NULL && s.counter == 0
  {
    var s, v := StrandModel.Run(Init(threads), es), RunView(Init(threads), FIRST, es);
    AllSubmitted(threads, es);
    assert InHand(s) == {};
    PutAreInGoodHands(threads, es);
    RunKeepsBoth(threads, es);
    hide RefInv, StrandModel.Run, RunView, Submitted;
    QuietQueue(s, v);
  }

  lemma QuietQueue(s: State, v: View)
    requires Inv(s, v) && Quiet(s) && (|s.executed| < |s.order| ==> InGoodHands(s))
    ensures s.executed == s.order && s.head == NULL && s.counter == 0
  {
    assert Uncounted(s.pc) == {};
    ReversedLength(v.chain);
  }

  /** While no batch exists, the counter is minus the Executes that have put and not yet added, plus the queue. */
  lemma CounterWraps(threads: set<Tid>, es: seq<Event>)
    ensures var s := StrandModel.Run(Init(threads), es);
      s.pending == 0 && (forall t | t in s.pc :: !HasToken(s.pc[t])) ==>
        && |s.order| - |s.executed| <= |Uncounted(s.pc)|
        && s.counter == (|s.order| - |s.executed| - |Uncounted(s.pc)|) % SIZE_T
  {
    var s, v := StrandModel.Run(Init(threads), es), RunView(Init(threads), FIRST, es);
    RunKeepsBoth(threads, es);
    if s.pending == 0 && forall t | t in s.pc :: !HasToken(s.pc[t]) {
      forall t | t in s.pc
        ensures v.token != Held(t)
      {
        assert ThreadOk(s, v, t);
      }
      ReversedLength(v.chain);
    }
  }

  /**
    Lifetime. No action ever meets a destroyed object; the reference count is the
    handle plus the scheduled and unreleased batches; the object is gone exactly
    when that is nothing and its destroyer has finished, and then nobody is inside.
   */
  lemma Lifetime(threads: set<Tid>, es: seq<Event>)
    ensures var s := StrandModel.Run(Init(threads), es);
      && !s.fault
      && s.refs == Owed(s)
      && (!s.alive ==> !s.handle && s.pending == 0 && forall t | t in s.pc :: s.pc[t] == Idle)
      && (Quiet(s) && !s.handle ==> !s.alive)
      && (forall t, u | t in s.pc && u in s.pc && s.pc[t].Destroying? && s.pc[u] != Idle :: t == u)
  {
    var s, v := StrandModel.Run(Init(threads), es), RunView(Init(threads), FIRST, es);
    RunKeepsBoth(threads, es);
    if !s.alive {
      forall t | t in s.pc
        ensures s.pc[t] == Idle
      {
        if s.pc[t] != Idle { BusyMeansAlive(s, t); }
      }
    }
    if Quiet(s) && !s.handle {
      assert Where(s.pc, HoldsRef) == {} && Where(s.pc, HoldsTwo) == {} && Where(s.pc, IsDestroying) == {};
    }
    forall t, u | t in s.pc && u in s.pc && s.pc[t].Destroying? && s.pc[u] != Idle
      ensures t == u
    {
      if t != u { LastOneOut(s, t, u); }
    }
  }

  lemma LastOneOut(s: State, t: Tid, u: Tid)
    requires RefInv(s) && t in s.pc && u in s.pc && s.pc[t].Destroying? && u != t
    ensures s.pc[u] == Idle
  {
    var pc': map<Tid, Pc> := s.pc[t := Idle];
    WhereStep(s.pc, IsDestroying, t, Idle);
    WhereStep(s.pc, HoldsRef, u, s.pc[u]);
    WhereStep(pc', IsDestroying, u, pc'[u]);
    assert InExecute(s.pc[u]) || HoldsRef(s.pc[u]) || IsDestroying(s.pc[u]) || s.pc[u] == Idle;
  }

  ghost predicate Reaches(s: State, s': State) {
    exists es :: StrandModel.Run(s, es) == s'
  }

  lemma Start(s0: State)
    ensures Reaches(s0, s0)
  {
    assert StrandModel.Run(s0, []) == s0;
  }

  lemma Then(s0: State, s: State, e: Event)
    requires Reaches(s0, s)
    ensures Reaches(s0, Step(s, e))
  {
    var es :| StrandModel.Run(s0, es) == s;
    assert (es + [e])[..|es + [e]| - 1] == es;
    assert StrandModel.Run(s0, es + [e]) == Step(s, e);
  }

  /** Threads 1 and 2 submit tasks 10 and 20, thread 3 runs batches. */
  predicate Scene(s: State, head: Task, counter: Size, pending: nat, p1: Pc, p2: Pc, p3: Pc) {
    && s.pc.Keys == {1, 2, 3} && s.pc[1] == p1 && s.pc[2] == p2 && s.pc[3] == p3
    && s.head == head && s.counter == counter && s.pending == pending
    && s.alive && s.handle && !s.fault && NextOf(s, 10) == NULL
  }

  /** Threads 1 and 2 put tasks 10 and 20; the second has to retry. */
  lemma TwoPuts() returns (s: State)
    ensures Reaches(Init({1, 2, 3}), s)
    ensures Scene(s, 20, 0, 0, Counting(ToCaller), Counting(ToCaller), Idle) && NextOf(s, 20) == 10
  {
    hide Reaches, StrandModel.Run;
    var s0 := Init({1, 2, 3});
    Start(s0);
    Then(s0, s0, Submit(1, 10));
    s := Step(s0, Submit(1, 10));
    assert Scene(s, NULL, 0, 0, Putting(10, ToCaller), Idle, Idle) && s.order == [] && NextOf(s, 20) == NULL;
    Then(s0, s, Submit(2, 20));
    s := Step(s, Submit(2, 20));
    assert Scene(s, NULL, 0, 0, Putting(10, ToCaller), Putting(20, ToCaller), Idle) && NextOf(s, 20) == NULL;
    s := BothPut(s0, s);
  }

  lemma BothPut(s0: State, s1: State) returns (s: State)
    requires Reaches(s0, s1) && Scene(s1, NULL, 0, 0, Putting(10, ToCaller), Putting(20, ToCaller), Idle) && NextOf(s1, 20) == NULL
    ensures Reaches(s0, s) && Scene(s, 20, 0, 0, Counting(ToCaller), Counting(ToCaller), Idle) && NextOf(s, 20) == 10
  {
    hide Reaches, StrandModel.Run;
    s := s1;
    Then(s0, s, Go(1, false));
    s := Step(s, Go(1, false));
    assert Scene(s, 10, 0, 0, Counting(ToCaller), Putting(20, ToCaller), Idle) && NextOf(s, 20) == NULL;
    Then(s0, s, Go(2, false));
    s := Step(s, Go(2, false));
    assert Scene(s, 10, 0, 0, Counting(ToCaller), Putting(20, ToCaller), Idle) && NextOf(s, 20) == 10;
    Then(s0, s, Go(2, false));
    s := Step(s, Go(2, false));
  }

  /** Thread 1 counts its task and schedules the batch; thread 3 starts it. */
  lemma OneCounts(s0: State, s1: State) returns (s: State)
    requires Reaches(s0, s1) && Scene(s1, 20, 0, 0, Counting(ToCaller), Counting(ToCaller), Idle) && NextOf(s1, 20) == 10
    ensures Reaches(s0, s) && Scene(s, 20, 1, 0, Idle, Counting(ToCaller), Taking) && NextOf(s, 20) == 10
  {
    hide Reaches, StrandModel.Run;
    Then(s0, s1, Go(1, false));
    s := Step(s1, Go(1, false));
    assert Scene(s, 20, 1, 0, Referring(ToCaller), Counting(ToCaller), Idle) && NextOf(s, 20) == 10;
    Then(s0, s, Go(1, false));
    s := Step(s, Go(1, false));
    assert Scene(s, 20, 1, 0, Scheduling(ToCaller), Counting(ToCaller), Idle) && NextOf(s, 20) == 10;
    Then(s0, s, Go(1, false));
    s := Step(s, Go(1, false));
    assert Scene(s, 20, 1, 1, Idle, Counting(ToCaller), Idle) && NextOf(s, 20) == 10;
    Then(s0, s, StartBatch(3));
    s := Step(s, StartBatch(3));
  }

  /** The batch takes both tasks ... */
  lemma BothTaken(s0: State, s1: State) returns (s: State)
    requires Reaches(s0, s1) && Scene(s1, 20, 1, 0, Idle, Counting(ToCaller), Taking) && NextOf(s1, 20) == 10
    ensures Reaches(s0, s) && Scene(s, NULL, 1, 0, Idle, Counting(ToCaller), Pc.Running([10, 20], 0))
  {
    hide Reaches, StrandModel.Run;
    Then(s0, s1, Go(3, false));
    s := Step(s1, Go(3, false));
    assert Scene(s, NULL, 1, 0, Idle, Counting(ToCaller), Reversing(20, [])) && NextOf(s, 20) == 10;
    Then(s0, s, Go(3, false));
    s := Step(s, Go(3, false));
    assert Scene(s, NULL, 1, 0, Idle, Counting(ToCaller), Reversing(10, [20]));
    Then(s0, s, Go(3, false));
    s := Step(s, Go(3, false));
    assert Scene(s, NULL, 1, 0, Idle, Counting(ToCaller), Reversing(NULL, [10, 20]));
    Then(s0, s, Go(3, false));
    s := Step(s, Go(3, false));
  }

  /** ... runs them, and subtracts two from a counter that says one. */
  lemma BothRun(s0: State, s1: State) returns (s: State)
    requires Reaches(s0, s1) && Scene(s1, NULL, 1, 0, Idle, Counting(ToCaller), Pc.Running([10, 20], 0))
    ensures Reaches(s0, s) && Scene(s, NULL, SIZE_T - 1, 0, Idle, Counting(ToCaller), Releasing)
  {
    hide Reaches, StrandModel.Run;
    Then(s0, s1, Go(3, false));
    s := Step(s1, Go(3, false));
    assert Scene(s, NULL, 1, 0, Idle, Counting(ToCaller), InTask([20], 0));
    Then(s0, s, Go(3, false));
    s := Step(s, Go(3, false));
    Then(s0, s, Go(3, false));
    s := Step(s, Go(3, false));
    s := BothSubtracted(s0, s);
  }

  lemma BothSubtracted(s0: State, s1: State) returns (s: State)
    requires Reaches(s0, s1) && Scene(s1, NULL, 1, 0, Idle, Counting(ToCaller), InTask([], 1))
    ensures Reaches(s0, s) && Scene(s, NULL, SIZE_T - 1, 0, Idle, Counting(ToCaller), Releasing)
  {
    hide Reaches, StrandModel.Run;
    s := s1;
    Then(s0, s, Go(3, false));
    s := Step(s, Go(3, false));
    Then(s0, s, Go(3, false));
    s := Step(s, Go(3, false));
    assert Scene(s, NULL, 1, 0, Idle, Counting(ToCaller), Settling(2));
    Then(s0, s, Go(3, false));
    s := Step(s, Go(3, false));
  }

  /** The wrap really happens: the counter reads 2^64 - 1 while an Execute has yet to add its one. */
  lemma BelowZero()
    ensures exists es :: StrandModel.Run(Init({1, 2, 3}), es).counter == SIZE_T - 1
  {
    var s0 := Init({1, 2, 3});
    var s := TwoPuts();
    s := OneCounts(s0, s);
    s := BothTaken(s0, s);
    s := BothRun(s0, s);
    var es :| StrandModel.Run(s0, es) == s;
    assert StrandModel.Run(s0, es).counter == SIZE_T - 1;
  }
}
