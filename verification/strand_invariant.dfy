/** Why the strand loses no task although its counter wraps, and why it is a serial FIFO executor. */
module StrandInvariant {
  import opened Collections
  import opened StrandModel

  /** Who may run, or is running, the next batch. */
  datatype Token = NoBatch | Pending | Held(t: Tid)

  /** `chain` hangs from the head and `rest` from the walk of the running batch, both newest first. */
  datatype View = View(chain: seq<Task>, rest: seq<Task>, signed: int, token: Token)

  /** Inside Execute, called by a task of the batch. */
  predicate IsNested(p: Pc) { (p.Putting? || p.Counting?) && p.back.ToTask? }

  predicate HasToken(p: Pc) {
    IsNested(p) || p.Referring? || p.Scheduling? || p.Taking? || p.Reversing? || p.Running? || p.InTask? || p.Settling?
  }

  /** The batch's tasks that have not started, oldest first. */
  function BatchTasks(p: Pc, rest: seq<Task>): seq<Task> {
    match p
    case Reversing(_, items) => Reversed(rest) + items
    case Running(items, _) => items
    case InTask(items, _) => items
    case Putting(_, ToTask(items, _)) => items
    case Counting(ToTask(items, _)) => items
    case _ => []
  }

  /** The tasks the batch has taken and not yet subtracted from the counter. */
  function BatchCount(p: Pc, rest: seq<Task>): nat {
    match p
    case Reversing(_, items) => |rest| + |items|
    case Running(items, completed) => |items| + completed
    case InTask(items, completed) => |items| + 1 + completed
    case Settling(completed) => completed
    case Putting(_, ToTask(items, completed)) => |items| + 1 + completed
    case Counting(ToTask(items, completed)) => |items| + 1 + completed
    case _ => 0
  }

  function HolderPc(s: State, v: View): Pc {
    if v.token.Held? && v.token.t in s.pc then s.pc[v.token.t] else Idle
  }

  function Unstarted(s: State): seq<Task> {
    if |s.executed| <= |s.order| then s.order[|s.executed|..] else []
  }

  predicate IsCounting(p: Pc) { p.Counting? }

  function Uncounted(pc: map<Tid, Pc>): set<Tid> { Where(pc, IsCounting) }

  ghost predicate ThreadOk(s: State, v: View, t: Tid)
    requires t in s.pc
  {
    && (HasToken(s.pc[t]) <==> v.token == Held(t))
    && (s.pc[t].Reversing? ==> Linked(s.next, NULL, s.pc[t].walk, v.rest))
    && (s.pc[t].Putting? ==> s.pc[t].task != NULL && s.pc[t].task !in Unstarted(s))
    && (s.pc[t].Putting? || s.pc[t].Counting? ==> !s.pc[t].back.ToRelease?)
    && (s.pc[t].Referring? || s.pc[t].Scheduling? ==> !s.pc[t].back.ToTask?)
  }

  /** Order of execution: started, then the batch, then what hangs from the head. */
  predicate InOrder(s: State, v: View) {
    && s.order == s.executed + BatchTasks(HolderPc(s, v), v.rest) + Reversed(v.chain)
    && Distinct(Unstarted(s)) && NULL !in Unstarted(s)
  }

  /** The counter is the signed count of tasks put and not subtracted, less the Executes yet to add. */
  predicate Counted(s: State, v: View) {
    && v.signed == |v.chain| + BatchCount(HolderPc(s, v), v.rest) - |Uncounted(s.pc)|
    && s.counter == v.signed % SIZE_T
    && |v.chain| <= TASKS && BatchCount(HolderPc(s, v), v.rest) <= TASKS && |Uncounted(s.pc)| <= THREADS
    && (v.token == NoBatch ==> v.signed <= 0)
    && (v.token != NoBatch ==> v.signed >= 1)
  }

  ghost predicate Inv(s: State, v: View) {
    && Linked(s.next, NULL, s.head, v.chain)
    && (!HolderPc(s, v).Reversing? ==> v.rest == [])
    && (v.token.Held? ==> v.token.t in s.pc)
    && s.pending == (if v.token == Pending then 1 else 0)
    && InOrder(s, v)
    && Counted(s, v)
    && (forall t {:trigger ThreadOk(s, v, t)} | t in s.pc :: ThreadOk(s, v, t))
    && PuttersDiffer(s.pc)
  }

  function PutBy(pc: map<Tid, Pc>, t: Tid): Task
    requires t in pc
  {
    if pc[t].Putting? then pc[t].task else NULL
  }

  /** No node is being put by two threads at once. */
  predicate PuttersDiffer(pc: map<Tid, Pc>) {
    forall t, u {:trigger PutBy(pc, t), PutBy(pc, u)} | t in pc && u in pc && t != u && PutBy(pc, t) != NULL ::
      PutBy(pc, t) != PutBy(pc, u)
  }

  lemma PuttersStillDiffer(pc: map<Tid, Pc>, t: Tid, p: Pc)
    requires t in pc && PuttersDiffer(pc)
    requires p.Putting? ==> forall u | u in pc && u != t && pc[u].Putting? :: pc[u].task != p.task
    ensures PuttersDiffer(pc[t := p])
  {
    var pc' := pc[t := p];
    forall u, w | u in pc' && w in pc' && u != w && PutBy(pc', u) != NULL
      ensures PutBy(pc', u) != PutBy(pc', w)
    {
      assert PutBy(pc, u) == NULL || PutBy(pc, u) != PutBy(pc, w);
    }
  }

  // ---- sequences and sets ----

  /** Distinct addresses below `n` are at most `n`. */
  lemma {:induction false} Pigeonhole(xs: set<nat>, n: nat)
    requires forall x | x in xs :: x < n
    ensures |xs| <= n
  {
    if n > 0 {
      var ys := xs - {n - 1};
      Pigeonhole(ys, n - 1);
      assert xs == ys + {n - 1} || xs == ys;
    } else {
      assert xs == {};
    }
  }

  lemma {:induction false} DistinctFit(ts: seq<Task>)
    requires Distinct(ts)
    ensures |ts| <= TASKS
  {
    var xs := Elements(ts);
    ElementsCount(ts);
    Pigeonhole(xs, TASKS);
  }

  function Elements(ts: seq<Task>): set<nat> { set t | t in ts }

  lemma {:induction false} ElementsCount(ts: seq<Task>)
    requires Distinct(ts)
    ensures |Elements(ts)| == |ts|
  {
    if ts != [] {
      var rest := ts[1..];
      ElementsCount(rest);
      assert ts == [ts[0]] + rest;
      assert Elements(ts) == Elements(rest) + {ts[0]};
      assert ts[0] !in rest;
    }
  }

  lemma ThreadsFit(pc: map<Tid, Pc>, f: Pc -> bool)
    ensures |Where(pc, f)| <= THREADS
  {
    var xs: set<nat> := set t: Tid | t in Where(pc, f) :: t;
    assert xs == Where(pc, f);
    Pigeonhole(xs, THREADS);
  }

  // ---- what an action by one thread leaves alone ----

  predicate About(token: Token, t: Tid) { token == NoBatch || token == Pending || token == Held(t) }

  lemma OthersKept(s: State, v: View, s': State, v': View, t: Tid)
    requires Inv(s, v) && t in s.pc && t in s'.pc && s'.pc == s.pc[t := s'.pc[t]]
    requires v'.token == v.token || (About(v.token, t) && About(v'.token, t))
    requires v'.rest == v.rest || v.token == Held(t)
    requires forall p: Task :: Linked(s.next, NULL, p, v.rest) ==> Linked(s'.next, NULL, p, v.rest)
    requires forall x | x in Unstarted(s') :: x in Unstarted(s) || (s.pc[t].Putting? && s.pc[t].task == x)
    ensures forall u | u in s.pc && u != t :: ThreadOk(s', v', u)
  {
    forall u | u in s.pc && u != t
      ensures ThreadOk(s', v', u)
    {
      assert ThreadOk(s, v, u) && ThreadOk(s, v, t);
      assert PutBy(s.pc, u) == NULL || PutBy(s.pc, u) != PutBy(s.pc, t);
    }
  }

  /** The rest of the invariant, for an action that puts no task. */
  lemma Concludes(s: State, v: View, s': State, v': View, t: Tid)
    requires Inv(s, v) && t in s.pc && t in s'.pc && s'.pc == s.pc[t := s'.pc[t]]
    requires v'.token == v.token || (About(v.token, t) && About(v'.token, t))
    requires v'.rest == v.rest || v.token == Held(t)
    requires s'.next == s.next && !s'.pc[t].Putting?
    requires forall x | x in Unstarted(s') :: x in Unstarted(s)
    requires Linked(s'.next, NULL, s'.head, v'.chain) && (!HolderPc(s', v').Reversing? ==> v'.rest == [])
    requires s'.pending == (if v'.token == Pending then 1 else 0)
    requires InOrder(s', v') && Counted(s', v') && ThreadOk(s', v', t)
    ensures Inv(s', v')
  {
    OthersKept(s, v, s', v', t);
    PuttersStillDiffer(s.pc, t, s'.pc[t]);
  }

  /** An action by a thread that is neither putting nor counting nor in the batch, before and after. */
  lemma Bystands(s: State, v: View, t: Tid, p: Pc, s': State)
    requires Inv(s, v) && t in s.pc && !HasToken(s.pc[t]) && !HasToken(p)
    requires s'.pc == s.pc[t := p] && !s.pc[t].Counting? && !p.Counting? && !p.Putting?
    requires s'.head == s.head && s'.next == s.next && s'.counter == s.counter && s'.pending == s.pending
    requires s'.order == s.order && s'.executed == s.executed
    ensures Inv(s', v)
  {
    assert ThreadOk(s, v, t);
    WhereStep(s.pc, IsCounting, t, p);
    Concludes(s, v, s', v, t);
  }

  // ---- Execute ----

  lemma SubmitKeepsInv(s: State, v: View, t: Tid, task: Task)
    requires Inv(s, v) && t in s.pc
    ensures Inv(SubmitStep(s, t, task), v)
  {
    if MaySubmit(s.pc[t]) && s.handle && Submittable(s, task) {
      var p := Putting(task, BackTo(s.pc[t]));
      var s' := At(s, t, p);
      assert ThreadOk(s, v, t);
      WhereStep(s.pc, IsCounting, t, p);
      SubmittableIsNew(s, task);
      PuttersStillDiffer(s.pc, t, p);
      hide Submittable, PuttersDiffer, Linked, Distinct;
      OthersKept(s, v, s', v, t);
    }
  }

  lemma SubmittableIsNew(s: State, task: Task)
    requires Submittable(s, task)
    ensures task !in Unstarted(s)
  {
    var ts := Unstarted(s);
    forall i | 0 <= i < |ts|
      ensures ts[i] != task
    {
      assert ts[i] == s.order[|s.executed| + i];
    }
  }

  function PutView(s: State, v: View, t: Tid, spurious: bool): View
    requires t in s.pc && s.pc[t].Putting?
  {
    if !spurious && s.head == NextOf(s, s.pc[t].task) then v.(chain := [s.pc[t].task] + v.chain) else v
  }

  lemma {:induction false} UnstartedParts(s: State, v: View)
    requires InOrder(s, v)
    ensures Unstarted(s) == BatchTasks(HolderPc(s, v), v.rest) + Reversed(v.chain)
  {
  }

  lemma StrangerToChains(s: State, v: View, task: Task)
    requires Inv(s, v) && task !in Unstarted(s)
    ensures task !in v.chain && task !in v.rest
  {
    UnstartedParts(s, v);
    ReversedMembers(v.chain);
    ReversedMembers(v.rest);
  }

  /** Writing the `next_` of a node that nobody else can see disturbs neither chain. */
  lemma PutFrames(s: State, v: View, t: Tid)
    requires Inv(s, v) && t in s.pc && s.pc[t].Putting?
    ensures var next' := s.next[s.pc[t].task := s.head];
      && Linked(next', NULL, s.head, v.chain)
      && (forall p: Task :: Linked(s.next, NULL, p, v.rest) ==> Linked(next', NULL, p, v.rest))
  {
    var task := s.pc[t].task;
    assert ThreadOk(s, v, t);
    StrangerToChains(s, v, task);
    LinkedFrame(s.next, NULL, task, s.head, s.head, v.chain);
    forall p: Task | Linked(s.next, NULL, p, v.rest)
      ensures Linked(s.next[task := s.head], NULL, p, v.rest)
    {
      LinkedFrame(s.next, NULL, task, s.head, p, v.rest);
    }
  }

  lemma PutRetryKeepsInv(s: State, v: View, t: Tid)
    requires Inv(s, v) && t in s.pc && s.pc[t].Putting?
    ensures Inv(At(s.(next := s.next[s.pc[t].task := s.head]), t, s.pc[t]), v)
  {
    var s' := At(s.(next := s.next[s.pc[t].task := s.head]), t, s.pc[t]);
    PutFrames(s, v, t);
    assert ThreadOk(s, v, t);
    assert s'.pc == s.pc;
    OthersKept(s, v, s', v, t);
  }

  lemma PutOrder(s: State, v: View, task: Task)
    requires InOrder(s, v) && task !in Unstarted(s) && task != NULL
    ensures var order' := s.order + [task];
      && order' == s.executed + BatchTasks(HolderPc(s, v), v.rest) + Reversed([task] + v.chain)
      && order'[|s.executed|..] == Unstarted(s) + [task]
      && Distinct(order'[|s.executed|..]) && NULL !in order'[|s.executed|..]
  {
    assert ([task] + v.chain)[1..] == v.chain;
    assert Reversed([task] + v.chain) == Reversed(v.chain) + [task];
  }

  lemma PutFits(s: State, v: View, task: Task)
    requires InOrder(s, v) && Distinct(Unstarted(s) + [task])
    ensures |v.chain| + 1 <= TASKS
  {
    UnstartedParts(s, v);
    DistinctFit(Unstarted(s) + [task]);
    ReversedLength(v.chain);
  }

  lemma PutInOrder(s: State, v: View, t: Tid)
    requires InOrder(s, v) && t in s.pc && s.pc[t].Putting? && (HasToken(s.pc[t]) <==> v.token == Held(t)) && s.head == NextOf(s, s.pc[t].task)
    requires s.pc[t].task !in Unstarted(s) && s.pc[t].task != NULL
    ensures var s', v' := PutStep(s, t, false), PutView(s, v, t, false);
      && InOrder(s', v') && |v'.chain| <= TASKS
      && (forall x | x in Unstarted(s') :: x in Unstarted(s) || x == s.pc[t].task)
  {
    PutOrder(s, v, s.pc[t].task);
    PutFits(s, v, s.pc[t].task);
  }

  lemma PutCounted(s: State, v: View, t: Tid)
    requires Counted(s, v) && t in s.pc && s.pc[t].Putting? && (HasToken(s.pc[t]) <==> v.token == Held(t)) && s.head == NextOf(s, s.pc[t].task)
    requires |v.chain| + 1 <= TASKS
    ensures Counted(PutStep(s, t, false), PutView(s, v, t, false))
  {
    WhereStep(s.pc, IsCounting, t, Counting(s.pc[t].back));
    ThreadsFit(PutStep(s, t, false).pc, IsCounting);
  }

  lemma PutKeepsInv(s: State, v: View, t: Tid, spurious: bool)
    requires Inv(s, v) && t in s.pc && s.pc[t].Putting?
    ensures Inv(PutStep(s, t, spurious), PutView(s, v, t, spurious))
  {
    hide InOrder, Counted, Unstarted;
    var task := s.pc[t].task;
    var s', v' := PutStep(s, t, spurious), PutView(s, v, t, spurious);
    if spurious || s.head != NextOf(s, task) {
      PutRetryKeepsInv(s, v, t);
    } else {
      assert ThreadOk(s, v, t);
      PutFrames(s, v, t);
      PutInOrder(s, v, t);
      PutCounted(s, v, t);
      assert v'.chain[1..] == v.chain;
      PuttersStillDiffer(s.pc, t, Counting(s.pc[t].back));
      OthersKept(s, v, s', v', t);
    }
  }

  function CountView(s: State, v: View, t: Tid): View {
    v.(signed := v.signed + 1, token := if s.counter == 0 then Held(t) else v.token)
  }

  /** The counter reads zero exactly when the signed count is zero: it is too small to have gone all the way round. */
  lemma CounterIsExact(s: State, v: View)
    requires Counted(s, v)
    ensures -(THREADS as int) <= v.signed <= 2 * TASKS
    ensures s.counter == 0 <==> v.signed == 0
    ensures v.signed >= 0 ==> s.counter == v.signed
    ensures v.signed < 0 ==> s.counter == v.signed + SIZE_T
  {
  }

  lemma CountKeepsInv(s: State, v: View, t: Tid)
    requires Inv(s, v) && t in s.pc && s.pc[t].Counting?
    ensures Inv(CountStep(s, t), CountView(s, v, t))
  {
    var s', v' := CountStep(s, t), CountView(s, v, t);
    assert ThreadOk(s, v, t);
    CounterIsExact(s, v);
    WhereStep(s.pc, IsCounting, t, s'.pc[t]);
    Concludes(s, v, s', v', t);
  }

  // ---- RunNextBatch, and the executor ----

  lemma ReferKeepsInv(s: State, v: View, t: Tid)
    requires Inv(s, v) && t in s.pc && s.pc[t].Referring?
    ensures Inv(ReferStep(s, t), v)
  {
    var s' := ReferStep(s, t);
    assert ThreadOk(s, v, t);
    WhereStep(s.pc, IsCounting, t, s'.pc[t]);
    Concludes(s, v, s', v, t);
  }

  lemma ScheduleKeepsInv(s: State, v: View, t: Tid)
    requires Inv(s, v) && t in s.pc && s.pc[t].Scheduling?
    ensures Inv(ScheduleStep(s, t), v.(token := Pending))
  {
    var s', v' := ScheduleStep(s, t), v.(token := Pending);
    assert ThreadOk(s, v, t);
    WhereStep(s.pc, IsCounting, t, s'.pc[t]);
    Concludes(s, v, s', v', t);
  }

  function StartView(s: State, v: View, t: Tid): View
    requires t in s.pc
  {
    if s.pc[t] == Idle && s.pending > 0 then v.(token := Held(t)) else v
  }

  lemma StartKeepsInv(s: State, v: View, t: Tid)
    requires Inv(s, v) && t in s.pc
    ensures Inv(StartStep(s, t), StartView(s, v, t))
  {
    if s.pc[t] == Idle && s.pending > 0 {
      var s', v' := StartStep(s, t), StartView(s, v, t);
      assert ThreadOk(s, v, t);
      WhereStep(s.pc, IsCounting, t, s'.pc[t]);
      Concludes(s, v, s', v', t);
    }
  }

  // ---- Run ----

  lemma TakeKeepsInv(s: State, v: View, t: Tid)
    requires Inv(s, v) && t in s.pc && s.pc[t].Taking?
    ensures Inv(TakeStep(s, t), v.(chain := [], rest := v.chain))
    ensures s.head != NULL
  {
    var s', v' := TakeStep(s, t), v.(chain := [], rest := v.chain);
    assert ThreadOk(s, v, t);
    WhereStep(s.pc, IsCounting, t, s'.pc[t]);
    assert BatchTasks(HolderPc(s', v'), v'.rest) == Reversed(v.chain);
    Concludes(s, v, s', v', t);
  }

  function ReverseView(v: View): View {
    if v.rest == [] then v else v.(rest := v.rest[1..])
  }

  lemma SameTasks(rest: seq<Task>, items: seq<Task>)
    ensures rest != [] ==> Reversed(rest) + items == Reversed(rest[1..]) + ([rest[0]] + items)
  {
  }

  lemma ReverseKeepsInv(s: State, v: View, t: Tid)
    requires Inv(s, v) && t in s.pc && s.pc[t].Reversing?
    ensures Inv(ReverseStep(s, t), ReverseView(v))
  {
    var s', v' := ReverseStep(s, t), ReverseView(v);
    assert ThreadOk(s, v, t);
    WhereStep(s.pc, IsCounting, t, s'.pc[t]);
    SameTasks(v.rest, s.pc[t].items);
    assert BatchTasks(HolderPc(s', v'), v'.rest) == BatchTasks(HolderPc(s, v), v.rest);
    Concludes(s, v, s', v', t);
  }

  lemma FirstStarts(order: seq<Task>, executed: seq<Task>, items: seq<Task>, later: seq<Task>)
    requires order == executed + items + later && items != [] && Distinct(order[|executed|..]) && NULL !in order[|executed|..]
    ensures var executed' := executed + [items[0]];
      && order == executed' + items[1..] + later
      && order[|executed'|..] == order[|executed|..][1..]
      && Distinct(order[|executed'|..]) && NULL !in order[|executed'|..]
      && (forall x | x in order[|executed'|..] :: x in order[|executed|..])
  {
    assert items == [items[0]] + items[1..];
  }

  lemma RunOrder(s: State, v: View, t: Tid)
    requires InOrder(s, v) && t in s.pc && s.pc[t].Running? && v.token == Held(t)
    ensures InOrder(RunStep(s, t), v)
    ensures forall x | x in Unstarted(RunStep(s, t)) :: x in Unstarted(s)
  {
    var items := s.pc[t].items;
    if items != [] {
      FirstStarts(s.order, s.executed, items, Reversed(v.chain));
    }
  }

  lemma RunCounted(s: State, v: View, t: Tid)
    requires Counted(s, v) && t in s.pc && s.pc[t].Running? && v.token == Held(t)
    ensures Counted(RunStep(s, t), v)
  {
    WhereStep(s.pc, IsCounting, t, RunStep(s, t).pc[t]);
  }

  lemma RunKeepsInv(s: State, v: View, t: Tid)
    requires Inv(s, v) && t in s.pc && s.pc[t].Running?
    ensures Inv(RunStep(s, t), v)
  {
    hide InOrder, Counted, Unstarted;
    var s' := RunStep(s, t);
    assert ThreadOk(s, v, t);
    RunOrder(s, v, t);
    RunCounted(s, v, t);
    Concludes(s, v, s', v, t);
  }

  lemma FinishKeepsInv(s: State, v: View, t: Tid)
    requires Inv(s, v) && t in s.pc && s.pc[t].InTask?
    ensures Inv(At(s, t, StrandModel.Pc.Running(s.pc[t].items, s.pc[t].completed + 1)), v)
  {
    var s' := At(s, t, StrandModel.Pc.Running(s.pc[t].items, s.pc[t].completed + 1));
    assert ThreadOk(s, v, t);
    WhereStep(s.pc, IsCounting, t, s'.pc[t]);
    Concludes(s, v, s', v, t);
  }

  function SettleView(s: State, v: View, t: Tid): View
    requires t in s.pc && s.pc[t].Settling?
  {
    var completed := s.pc[t].completed;
    v.(signed := v.signed - completed, token := if s.counter > completed then Held(t) else NoBatch)
  }

  lemma SettleKeepsInv(s: State, v: View, t: Tid)
    requires Inv(s, v) && t in s.pc && s.pc[t].Settling?
    ensures Inv(SettleStep(s, t), SettleView(s, v, t))
  {
    var s', v' := SettleStep(s, t), SettleView(s, v, t);
    assert ThreadOk(s, v, t);
    CounterIsExact(s, v);
    WhereStep(s.pc, IsCounting, t, s'.pc[t]);
    Concludes(s, v, s', v', t);
  }

  // ---- any event ----

  function StepView(s: State, v: View, e: Event): View {
    if e.t !in s.pc || s.fault then v
    else match e
      case StartBatch(t) => StartView(s, v, t)
      case Go(t, spurious) =>
        if s.pc[t] != Idle && !s.alive then v
        else match s.pc[t] {
          case Putting(_, _) => PutView(s, v, t, spurious)
          case Counting(_) => CountView(s, v, t)
          case Scheduling(_) => v.(token := Pending)
          case Taking => v.(chain := [], rest := v.chain)
          case Reversing(_, _) => ReverseView(v)
          case Settling(_) => SettleView(s, v, t)
          case _ => v
        }
      case _ => v
  }

  lemma FaultKeepsInv(s: State, v: View)
    requires Inv(s, v)
    ensures Inv(s.(fault := true), v)
  {
    var s' := s.(fault := true);
    forall t | t in s'.pc
      ensures ThreadOk(s', v, t)
    {
      assert ThreadOk(s, v, t);
    }
  }

  lemma ActionKeepsInv(s: State, v: View, t: Tid, spurious: bool)
    requires Inv(s, v) && t in s.pc && !s.fault && (s.pc[t] == Idle || s.alive)
    ensures Inv(Action(s, t, spurious), StepView(s, v, Go(t, spurious)))
  {
    match s.pc[t]
    case Idle =>
    case Putting(_, _) => PutKeepsInv(s, v, t, spurious);
    case Counting(_) => CountKeepsInv(s, v, t);
    case Referring(_) => ReferKeepsInv(s, v, t);
    case Scheduling(_) => ScheduleKeepsInv(s, v, t);
    case Taking => TakeKeepsInv(s, v, t);
    case Reversing(_, _) => ReverseKeepsInv(s, v, t);
    case Running(_, _) => RunKeepsInv(s, v, t);
    case InTask(_, _) => FinishKeepsInv(s, v, t);
    case Settling(_) => SettleKeepsInv(s, v, t);
    case Releasing => Bystands(s, v, t, if s.refs == 1 then Destroying else Idle, ReleaseStep(s, t));
    case Destroying => Bystands(s, v, t, Idle, At(s.(alive := false), t, Idle));
  }

  lemma StepKeepsInv(s: State, v: View, e: Event)
    requires Inv(s, v)
    ensures Inv(Step(s, e), StepView(s, v, e))
  {
    if e.t in s.pc && !s.fault {
      match e
      case Submit(t, task) => SubmitKeepsInv(s, v, t, task);
      case StartBatch(t) => StartKeepsInv(s, v, t);
      case DropHandle(t) => if DropStep(s, t) != s { Bystands(s, v, t, Releasing, DropStep(s, t)); }
      case Go(t, spurious) =>
        if s.pc[t] != Idle && !s.alive {
          FaultKeepsInv(s, v);
        } else {
          ActionKeepsInv(s, v, t, spurious);
        }
    }
  }
}
