/**
  The lock-free stack (stack.h) as a step machine: any number of threads, one
  atomic action per step, sequentially consistent memory, weak compare-exchange
  that may fail spuriously, and an allocator that may hand out any address that
  is not live, so deleted addresses come back.
 */
module StackModel {
  import opened Wrappers
  import opened StampedPtrs

  type Value = int       // the template parameter T; the protocol never looks inside
  type Tid = nat

  /**
    `owed` is history, which no branch reads: how often the node has been acquired
    through its one incoming link, less what a detacher's stamp has paid back.
   */
  datatype Node = Node(value: Value, next: StampedPtr, global: int, owed: int)

  type Heap = map<Address, Node>

  /** Where a thread is, and the locals it carries. */
  datatype Pc =
    | Idle
    // Push
    | Pushing(node: Address)
    | PushDone
    // TryPop, with AcquireRef inlined
    | PopLoading
    | PopAcquiring(cur: StampedPtr)
    | PopReading(cur: StampedPtr)
    | PopSwinging(cur: StampedPtr, next: StampedPtr)
    | PopTaking(cur: StampedPtr)
    | PopSettling(cur: StampedPtr, value: Value)
    | PopDeleting(node: Address, value: Value)
    | PopReleasing(cur: StampedPtr)
    | PopRedeleting(node: Address)
    | PopDone(result: Option<Value>)
    // ConsumeAll; `given` is what its callback has received so far
    | ConsumeLoading
    | ConsumeSwinging(cur: StampedPtr)
    | ConsumeReading(cur: StampedPtr, given: seq<Value>)
    | ConsumeTaking(cur: StampedPtr, next: StampedPtr, given: seq<Value>)
    | ConsumeSettling(cur: StampedPtr, next: StampedPtr, given: seq<Value>)
    | ConsumeDeleting(node: Address, next: StampedPtr, given: seq<Value>)
    | ConsumeDone(given: seq<Value>)
    // IsEmpty
    | EmptyLoading
    | EmptyDone(empty: bool)

  /** `fault` records a step that touched or deleted an address that is not live, or overflowed an int32_t sum. */
  datatype State = State(heap: Heap, head: StampedPtr, pc: map<Tid, Pc>, fault: bool)

  datatype Op = Push(value: Value, node: Address) | TryPop | ConsumeAll | IsEmpty

  /** A call (with the address its allocation returns), a step of the code, or a return. */
  datatype Event =
    | Call(t: Tid, op: Op)
    | Go(t: Tid, spurious: bool)
    | Return(t: Tid)

  function Init(threads: set<Tid>): State {
    State(map[], StampedPtr(NULL, 0), map t | t in threads :: Idle, false)
  }

  function At(s: State, t: Tid, p: Pc): State {
    s.(pc := s.pc[t := p])
  }

  function Fault(s: State): State { s.(fault := true) }

  /** Conversion of a mathematical integer to int32_t. */
  function Wrap32(x: int): int {
    (x + 0x8000_0000) % 0x1_0000_0000 - 0x8000_0000
  }

  /** A packed compare-exchange: see AtomicStampedPtr.CompareExchangeWeak. */
  predicate CasSucceeds(head: StampedPtr, expected: StampedPtr, spurious: bool) {
    !spurious && head == Truncate(expected)
  }

  function CallStep(s: State, t: Tid, op: Op): State
    requires t in s.pc
  {
    if s.pc[t] != Idle then s
    else match op
      case Push(value, node) =>
        if node == NULL || node in s.heap then s
        else At(s.(heap := s.heap[node := Node(value, StampedPtr(NULL, 0), 0, 0)]), t, Pushing(node))
      case TryPop => At(s, t, PopLoading)
      case ConsumeAll => At(s, t, ConsumeLoading)
      case IsEmpty => At(s, t, EmptyLoading)
  }

  predicate Returnable(p: Pc) { p.PushDone? || p.PopDone? || p.ConsumeDone? || p.EmptyDone? }

  function ReturnStep(s: State, t: Tid): State
    requires t in s.pc
  {
    if Returnable(s.pc[t]) then At(s, t, Idle) else s
  }

  /** Line 37: the expected value lives in the node's own `next`, which a failure overwrites. */
  function PushCas(s: State, t: Tid, spurious: bool): State
    requires t in s.pc && s.pc[t].Pushing?
  {
    var node := s.pc[t].node;
    if node !in s.heap then Fault(s)
    else if CasSucceeds(s.head, s.heap[node].next, spurious) then
      At(s.(head := StampedPtr(node, 0)), t, PushDone)
    else
      s.(heap := s.heap[node := s.heap[node].(next := s.head)])
  }

  function Acquired(heap: Heap, a: Address): Heap {
    if a in heap then heap[a := heap[a].(owed := heap[a].owed + 1)] else heap
  }

  /** Lines 99-101: one acquisition attempt; success bumps the stamp in the head word. */
  function AcquireCas(s: State, t: Tid, spurious: bool): State
    requires t in s.pc && s.pc[t].PopAcquiring?
  {
    var cur := s.pc[t].cur;
    if CasSucceeds(s.head, cur, spurious) then
      At(s.(head := Truncate(cur.IncrementStamp()), heap := Acquired(s.heap, cur.ptr)), t,
         if cur.IsNull() then PopDone(None) else PopReading(cur.IncrementStamp()))
    else
      At(s, t, PopAcquiring(s.head))
  }

  function PopRead(s: State, t: Tid): State
    requires t in s.pc && s.pc[t].PopReading?
  {
    var cur := s.pc[t].cur;
    if cur.ptr !in s.heap then Fault(s)
    else At(s, t, PopSwinging(cur, s.heap[cur.ptr].next))
  }

  /** Line 51. */
  function PopCas(s: State, t: Tid, spurious: bool): State
    requires t in s.pc && s.pc[t].PopSwinging?
  {
    var PopSwinging(cur, next) := s.pc[t];
    if CasSucceeds(s.head, cur, spurious) then
      At(s.(head := Truncate(next)), t, PopTaking(cur))
    else
      At(s, t, PopReleasing(cur))
  }

  function PopTake(s: State, t: Tid): State
    requires t in s.pc && s.pc[t].PopTaking?
  {
    var cur := s.pc[t].cur;
    if cur.ptr !in s.heap then Fault(s)
    else At(s, t, PopSettling(cur, s.heap[cur.ptr].value))
  }

  /** What the fetch_add's caller computes, an addition of two int32_t. */
  function Sum(n: Node, delta: int): int { n.global + Wrap32(delta) }

  predicate Overflows(sum: int) { !(-0x8000_0000 <= sum < 0x8000_0000) }

  function Added(n: Node, delta: int, paid: nat): Node {
    n.(global := Sum(n, delta), owed := n.owed - paid)
  }

  /**
    Node::IncrementGlobal up to its `delete`: zero sends the thread to `ifZero`.
    `paid` is how many acquisitions the caller settles with it.
   */
  function IncrementGlobal(s: State, t: Tid, node: Address, delta: int, paid: nat, ifZero: Pc, otherwise: Pc): State {
    if node !in s.heap || Overflows(Sum(s.heap[node], delta)) then Fault(s)
    else
      At(s.(heap := s.heap[node := Added(s.heap[node], delta, paid)]), t,
         if Sum(s.heap[node], delta) == 0 then ifZero else otherwise)
  }

  function Delete(s: State, t: Tid, node: Address, then_: Pc): State {
    if node !in s.heap then Fault(s)
    else At(s.(heap := s.heap - {node}), t, then_)
  }

  /** Lines 65-66. */
  function ConsumeCas(s: State, t: Tid, spurious: bool): State
    requires t in s.pc && s.pc[t].ConsumeSwinging?
  {
    var cur := s.pc[t].cur;
    if CasSucceeds(s.head, cur, spurious) then
      At(s.(head := StampedPtr(NULL, 0)), t, ConsumeNext(cur, []))
    else
      At(s, t, ConsumeSwinging(s.head))
  }

  /** The guard of the walk at line 69. */
  function ConsumeNext(cur: StampedPtr, given: seq<Value>): Pc {
    if cur.IsNull() then ConsumeDone(given) else ConsumeReading(cur, given)
  }

  function ConsumeRead(s: State, t: Tid): State
    requires t in s.pc && s.pc[t].ConsumeReading?
  {
    var ConsumeReading(cur, given) := s.pc[t];
    if cur.ptr !in s.heap then Fault(s)
    else At(s, t, ConsumeTaking(cur, s.heap[cur.ptr].next, given))
  }

  function ConsumeTake(s: State, t: Tid): State
    requires t in s.pc && s.pc[t].ConsumeTaking?
  {
    var ConsumeTaking(cur, next, given) := s.pc[t];
    if cur.ptr !in s.heap then Fault(s)
    else At(s, t, ConsumeSettling(cur, next, given + [s.heap[cur.ptr].value]))
  }

  function GoStep(s: State, t: Tid, spurious: bool): State
    requires t in s.pc
  {
    match s.pc[t]
    case Pushing(_) => PushCas(s, t, spurious)
    case PopLoading => At(s, t, PopAcquiring(s.head))
    case PopAcquiring(_) => AcquireCas(s, t, spurious)
    case PopReading(_) => PopRead(s, t)
    case PopSwinging(_, _) => PopCas(s, t, spurious)
    case PopTaking(_) => PopTake(s, t)
    case PopSettling(cur, value) =>
      IncrementGlobal(s, t, cur.ptr, cur.stamp - 1, cur.stamp, PopDeleting(cur.ptr, value), PopDone(Some(value)))
    case PopDeleting(node, value) => Delete(s, t, node, PopDone(Some(value)))
    case PopReleasing(cur) => IncrementGlobal(s, t, cur.ptr, -1, 0, PopRedeleting(cur.ptr), PopLoading)
    case PopRedeleting(node) => Delete(s, t, node, PopLoading)
    case ConsumeLoading => At(s, t, ConsumeSwinging(s.head))
    case ConsumeSwinging(_) => ConsumeCas(s, t, spurious)
    case ConsumeReading(_, _) => ConsumeRead(s, t)
    case ConsumeTaking(_, _, _) => ConsumeTake(s, t)
    case ConsumeSettling(cur, next, given) =>
      IncrementGlobal(s, t, cur.ptr, cur.stamp, cur.stamp, ConsumeDeleting(cur.ptr, next, given), ConsumeNext(next, given))
    case ConsumeDeleting(node, next, given) => Delete(s, t, node, ConsumeNext(next, given))
    case EmptyLoading => At(s, t, EmptyDone(s.head.IsNull()))
    case _ => s
  }

  /** One event; an event its thread is not ready for, or any event after a fault, changes nothing. */
  function Step(s: State, e: Event): State {
    if e.t !in s.pc || s.fault then s
    else match e
      case Call(t, op) => CallStep(s, t, op)
      case Go(t, spurious) => GoStep(s, t, spurious)
      case Return(t) => ReturnStep(s, t)
  }

  function Run(s: State, es: seq<Event>): State {
    if es == [] then s else Step(Run(s, es[..|es| - 1]), es[|es| - 1])
  }

  // ---- where the counting can go wrong ----

  /** Does a thread at `p` hold an unreleased acquisition of `a`? */
  predicate Holds(p: Pc, a: Address) {
    match p
    case PopReading(cur) => cur.ptr == a
    case PopSwinging(cur, _) => cur.ptr == a
    case PopReleasing(cur) => cur.ptr == a
    case PopTaking(cur) => cur.ptr == a
    case PopSettling(cur, _) => cur.ptr == a
    case _ => false
  }

  function Holders(pc: map<Tid, Pc>, a: Address): set<Tid> {
    set t | t in pc && Holds(pc[t], a)
  }

  /** What a thread at `p` is about to add to the `global` of `p.cur`'s node, if it is about to add something. */
  predicate Counting(p: Pc) { p.PopSettling? || p.PopReleasing? || p.ConsumeSettling? }

  function Delta(p: Pc): int
    requires Counting(p)
  {
    if p.PopReleasing? then -1 else if p.PopSettling? then p.cur.stamp - 1 else p.cur.stamp
  }

  /** The next addition overflows, or it brings `global` to zero while another thread holds the node. */
  predicate Miscounts(s: State, e: Event) {
    && e.Go? && e.t in s.pc && Counting(s.pc[e.t]) && s.pc[e.t].cur.ptr in s.heap
    && var a := s.pc[e.t].cur.ptr;
      var sum := Sum(s.heap[a], Delta(s.pc[e.t]));
      Overflows(sum) || (sum == 0 && Holders(s.pc, a) - {e.t} != {})
  }

  predicate Counted(s: State, es: seq<Event>) {
    forall i :: 0 <= i < |es| ==> !Miscounts(Run(s, es[..i]), es[i])
  }

  /** No node has been acquired more than 2^31 times through one link. */
  predicate Countable(s: State) {
    forall a | a in s.heap :: s.heap[a].owed <= 0x8000_0000
  }

  predicate AlwaysCountable(s: State, es: seq<Event>) {
    forall i :: 0 <= i <= |es| ==> Countable(Run(s, es[..i]))
  }
}
