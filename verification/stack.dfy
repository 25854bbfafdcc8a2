/** The lock-free stack as an object: its head word, its memory and its threads, changed in place. */
module LockFreeStacks {
  import opened Wrappers
  import opened Collections
  import opened StampedPtrs
  import opened StackModel
  import opened StackInvariant
  import opened StackReclamation
  import opened StackTheorems

  class LockFreeStack {
    const head: AtomicStampedPtr
    var heap: Heap
    var pc: map<Tid, Pc>
    var fault: bool

    constructor (threads: set<Tid>)
      ensures Snapshot() == Init(threads) && fresh(head) && Valid()
    {
      head := new AtomicStampedPtr(StampedPtr(NULL, 0));
      heap := map[];
      pc := map t | t in threads :: Idle;
      fault := false;
      new;
      InitInv(threads);
    }

    /** The model's state, with the head as the packed word unpacks to. */
    function Snapshot(): State
      reads this, head
    {
      State(heap, head.Value(), pc, fault)
    }

    /** Links, stamps, counters and threads agree: no counting error has happened. */
    ghost predicate Valid()
      reads this, head
    {
      exists v :: Inv(Snapshot(), v)
    }

    /** The allocation that starts a Push, and the start of every other operation. */
    method Call(t: Tid, op: Op)
      requires t in pc
      modifies this
      ensures Snapshot() == CallStep(old(Snapshot()), t, op)
    {
      if pc[t] == Idle {
        match op
        case Push(value, node) =>
          if node != NULL && node !in heap {
            heap := heap[node := Node(value, StampedPtr(NULL, 0), 0, 0)];
            pc := pc[t := Pushing(node)];
          }
        case TryPop => pc := pc[t := PopLoading];
        case ConsumeAll => pc := pc[t := ConsumeLoading];
        case IsEmpty => pc := pc[t := EmptyLoading];
      }
    }

    /** One turn of the loop in Push: the failed exchange writes the head it met into the node's `next`. */
    method TryPublish(t: Tid, spurious: bool)
      requires t in pc && pc[t].Pushing? && !fault
      modifies this, head
      ensures Snapshot() == PushCas(old(Snapshot()), t, spurious)
    {
      var node := pc[t].node;
      if node !in heap {
        fault := true;
        return;
      }
      var ok, witnessed := head.CompareExchangeWeak(heap[node].next, StampedPtr(node, 0), spurious);
      if ok {
        pc := pc[t := PushDone];
      } else {
        heap := heap[node := heap[node].(next := witnessed)];
      }
    }

    /** One turn of the loop in AcquireRef. */
    method TryAcquire(t: Tid, spurious: bool)
      requires t in pc && pc[t].PopAcquiring?
      modifies this, head
      ensures Snapshot() == AcquireCas(old(Snapshot()), t, spurious)
    {
      var cur := pc[t].cur;
      var ok, witnessed := head.CompareExchangeWeak(cur, cur.IncrementStamp(), spurious);
      if !ok {
        pc := pc[t := PopAcquiring(witnessed)];
        return;
      }
      heap := Acquired(heap, cur.ptr);
      if cur.IsNull() {
        pc := pc[t := PopDone(None)];
      } else {
        pc := pc[t := PopReading(cur.IncrementStamp())];
      }
    }

    /** The exchange that takes the top node off. */
    method TrySwing(t: Tid, spurious: bool)
      requires t in pc && pc[t].PopSwinging?
      modifies this, head
      ensures Snapshot() == PopCas(old(Snapshot()), t, spurious)
    {
      var PopSwinging(cur, next) := pc[t];
      var ok, _ := head.CompareExchangeWeak(cur, next, spurious);
      pc := pc[t := if ok then PopTaking(cur) else PopReleasing(cur)];
    }

    /** One turn of the loop in ConsumeAll. */
    method TryTakeAll(t: Tid, spurious: bool)
      requires t in pc && pc[t].ConsumeSwinging?
      modifies this, head
      ensures Snapshot() == ConsumeCas(old(Snapshot()), t, spurious)
    {
      var cur := pc[t].cur;
      var ok, witnessed := head.CompareExchangeWeak(cur, StampedPtr(NULL, 0), spurious);
      pc := pc[t := if ok then ConsumeNext(cur, []) else ConsumeSwinging(witnessed)];
    }

    /** Node::IncrementGlobal up to its `delete`: an addition, and a test of the sum. */
    method AddToGlobal(t: Tid, node: Address, delta: int, paid: nat, ifZero: Pc, otherwise: Pc)
      requires t in pc && !fault
      modifies this
      ensures Snapshot() == IncrementGlobal(old(Snapshot()), t, node, delta, paid, ifZero, otherwise)
    {
      hide Sum, Added, Overflows, Truncate, Unpack;
      if node !in heap {
        fault := true;
        return;
      }
      var n := heap[node];
      if Overflows(Sum(n, delta)) {
        fault := true;
      } else {
        var next := if Sum(n, delta) == 0 then ifZero else otherwise;
        heap := heap[node := Added(n, delta, paid)];
        pc := pc[t := next];
      }
    }

    /** The `delete`. */
    method Free(t: Tid, node: Address, next: Pc)
      requires t in pc && !fault
      modifies this
      ensures Snapshot() == Delete(old(Snapshot()), t, node, next)
    {
      if node in heap {
        heap := heap - {node};
        pc := pc[t := next];
      } else {
        fault := true;
      }
    }

    method Advance(t: Tid, spurious: bool)
      requires t in pc && !fault
      modifies this, head
      ensures Snapshot() == GoStep(old(Snapshot()), t, spurious)
    {
      hide Truncate, Wrap32;
      match pc[t]
      case Pushing(_) => TryPublish(t, spurious);
      case PopLoading =>
        var top := head.Load();
        pc := pc[t := PopAcquiring(top)];
      case PopAcquiring(_) => TryAcquire(t, spurious);
      case PopReading(cur) =>
        if cur.ptr in heap { pc := pc[t := PopSwinging(cur, heap[cur.ptr].next)]; } else { fault := true; }
      case PopSwinging(_, _) => TrySwing(t, spurious);
      case PopTaking(cur) =>
        if cur.ptr in heap { pc := pc[t := PopSettling(cur, heap[cur.ptr].value)]; } else { fault := true; }
      case PopSettling(cur, value) =>
        AddToGlobal(t, cur.ptr, cur.stamp - 1, cur.stamp, PopDeleting(cur.ptr, value), PopDone(Some(value)));
      case PopDeleting(node, value) => Free(t, node, PopDone(Some(value)));
      case PopReleasing(cur) => AddToGlobal(t, cur.ptr, -1, 0, PopRedeleting(cur.ptr), PopLoading);
      case PopRedeleting(node) => Free(t, node, PopLoading);
      case ConsumeLoading =>
        var top := head.Load();
        pc := pc[t := ConsumeSwinging(top)];
      case ConsumeSwinging(_) => TryTakeAll(t, spurious);
      case ConsumeReading(cur, given) =>
        if cur.ptr in heap { pc := pc[t := ConsumeTaking(cur, heap[cur.ptr].next, given)]; } else { fault := true; }
      case ConsumeTaking(cur, next, given) =>
        if cur.ptr in heap {
          pc := pc[t := ConsumeSettling(cur, next, given + [heap[cur.ptr].value])];
        } else {
          fault := true;
        }
      case ConsumeSettling(cur, next, given) =>
        AddToGlobal(t, cur.ptr, cur.stamp, cur.stamp, ConsumeDeleting(cur.ptr, next, given), ConsumeNext(next, given));
      case ConsumeDeleting(node, next, given) => Free(t, node, ConsumeNext(next, given));
      case EmptyLoading =>
        var top := head.Load();
        pc := pc[t := EmptyDone(top.IsNull())];
      case _ =>
    }

    method Dispatch(e: Event)
      modifies this, head
      ensures Snapshot() == Step(old(Snapshot()), e)
    {
      if e.t in pc && !fault {
        match e
        case Call(t, op) => Call(t, op);
        case Go(t, spurious) => Advance(t, spurious);
        case Return(t) => if Returnable(pc[t]) { pc := pc[t := Idle]; }
      }
    }

    /** One event, which leaves the object valid unless it miscounts. */
    method Perform(e: Event)
      modifies this, head
      ensures Snapshot() == Step(old(Snapshot()), e)
      ensures old(Valid()) && !Miscounts(old(Snapshot()), e) ==> Valid()
    {
      hide Inv, Step, Miscounts;
      StaysInv(Snapshot(), e);
      Dispatch(e);
    }

    /** Any schedule at all, one event after the other. */
    method RunSchedule(es: seq<Event>)
      modifies this, head
      ensures Snapshot() == Run(old(Snapshot()), es)
      ensures old(Valid()) && Counted(old(Snapshot()), es) ==> Valid()
    {
      ghost var before := Snapshot();
      for i := 0 to |es|
        invariant Snapshot() == Run(before, es[..i])
        invariant old(Valid()) && Counted(before, es) ==> Valid()
      {
        assert es[..i + 1][..i] == es[..i];
        Perform(es[i]);
      }
      assert es[..|es|] == es;
    }

    /**
      The destructor: with no operation in progress it deletes every node on the stack,
      each once, in order from the head; what stays are the nodes a short settlement lost.
     */
    method DestroySelf() returns (deleted: seq<Address>)
      requires Valid() && Quiet(Snapshot())
      modifies this`heap
      ensures Distinct(deleted) && Members(deleted) <= old(heap).Keys
      ensures heap == old(heap) - Members(deleted)
      ensures forall a | a in heap :: heap[a].owed != 0
      ensures Leads(old(heap), head.Value(), deleted)
    {
      ghost var v :| Inv(Snapshot(), v);
      QuietNodes(Snapshot(), v);
      ChainIsDistinct(heap, v.status, Shared, head.Value(), v.shared);
      ChainLeads(heap, v.status, head.Value(), v.shared);
      deleted := DeleteChain(v.shared);
    }

    /** The destructor's loop. */
    method DeleteChain(ghost ch: seq<Address>) returns (deleted: seq<Address>)
      requires Leads(heap, head.Value(), ch) && Distinct(ch)
      modifies this`heap
      ensures deleted == ch && heap == old(heap) - Members(ch)
    {
      hide Unpack, Leads, Distinct, Members;
      var current := head.Load();
      deleted := [];
      ghost var rest := ch;
      MembersGrow(deleted, NULL);
      LeadsOn(heap, current, rest);
      while !current.IsNull()
        invariant deleted + rest == ch && Distinct(rest)
        invariant Leads(heap, current, rest) && (rest == [] <==> current.IsNull())
        invariant heap == old(heap) - Members(deleted)
        decreases |rest|
      {
        var toDelete := current.ptr;
        UnlinkFirst(heap, current, rest);
        current := heap[toDelete].next;
        heap := heap - {toDelete};
        MembersGrow(deleted, toDelete);
        deleted, rest := deleted + [toDelete], rest[1..];
        LeadsOn(heap, current, rest);
      }
    }
  }

  lemma StaysInv(s: State, e: Event)
    ensures (exists v :: Inv(s, v)) && !Miscounts(s, e) ==> exists v :: Inv(Step(s, e), v)
  {
    if v :| Inv(s, v) && !Miscounts(s, e) {
      StepKeepsInv(s, v, e);
    }
  }

  /** From p, the links lead through `ch` to null. */
  ghost predicate Leads(heap: Heap, p: StampedPtr, ch: seq<Address>)
    decreases |ch|
  {
    if ch == [] then p.IsNull()
    else !p.IsNull() && p.ptr == ch[0] && ch[0] in heap && Leads(heap, heap[ch[0]].next, ch[1..])
  }

  lemma {:induction false} ChainLeads(heap: Heap, status: map<Address, Status>, p: StampedPtr, ch: seq<Address>)
    requires IsChain(heap, status, Shared, p, ch)
    ensures Leads(heap, p, ch)
    decreases |ch|
  {
    if ch != [] { ChainLeads(heap, status, heap[ch[0]].next, ch[1..]); }
  }

  lemma MembersGrow(ch: seq<Address>, a: Address)
    ensures Members([]) == {} && Members(ch + [a]) == Members(ch) + {a}
  {
  }

  lemma LeadsOn(heap: Heap, p: StampedPtr, ch: seq<Address>)
    requires Leads(heap, p, ch)
    ensures ch == [] <==> p.IsNull()
  {
  }

  lemma UnlinkFirst(heap: Heap, p: StampedPtr, ch: seq<Address>)
    requires ch != [] && Leads(heap, p, ch) && Distinct(ch)
    ensures p.ptr == ch[0] && p.ptr in heap && ch == [ch[0]] + ch[1..] && Distinct(ch[1..])
    ensures Leads(heap - {p.ptr}, heap[p.ptr].next, ch[1..])
  {
    assert forall j | 0 < j < |ch| :: ch[j] == ch[1..][j - 1];
    LeadsFrame(heap, p.ptr, heap[p.ptr].next, ch[1..]);
  }

  lemma {:induction false} LeadsFrame(heap: Heap, a: Address, p: StampedPtr, ch: seq<Address>)
    requires Leads(heap, p, ch) && a !in ch
    ensures Leads(heap - {a}, p, ch)
    decreases |ch|
  {
    if ch != [] { LeadsFrame(heap, a, heap[ch[0]].next, ch[1..]); }
  }
}
