/**
  The invariant behind safe reclamation: what the stamp on a node's one incoming
  link, the node's `global` counter, the acquisitions it owes for and the threads
  still holding one have to do with each other.
 */
module StackInvariant {
  import opened Collections
  import opened StampedPtrs
  import opened StackModel

  /** The link a chain of nodes hangs from: the head word, or the cursor of a ConsumeAll. */
  datatype Owner = Shared | Taker(t: Tid)

  /** The stage of a live node's life. `height` counts the nodes from it to the end of its chain. */
  datatype Status =
    | Private(t: Tid)                                   // allocated, not yet published
    | Linked(owner: Owner, height: nat)                 // one link leads to it
    | Detached(t: Tid, stamp: nat)                      // popped; `t` has yet to add the stamp it holds
    | Settled                                           // the stamp is in, `global` is not zero
    | Doomed(t: Tid)                                    // `t` saw zero and will delete it

  /** What the invariant knows beyond the machine state. */
  datatype View = View(status: map<Address, Status>, shared: seq<Address>, taken: map<Tid, seq<Address>>)

  function Segment(v: View, o: Owner): seq<Address> {
    match o
    case Shared => v.shared
    case Taker(t) => if t in v.taken then v.taken[t] else []
  }

  ghost predicate IsChain(heap: Heap, status: map<Address, Status>, o: Owner, p: StampedPtr, ch: seq<Address>)
    decreases |ch|
  {
    && p.stamp < STAMPS
    && if ch == [] then p.IsNull() else
        && !p.IsNull() && p.ptr == ch[0]
        && ch[0] in heap && ch[0] in status
        && status[ch[0]] == Linked(o, |ch|)
        && p.stamp == heap[ch[0]].owed % STAMPS
        && IsChain(heap, status, o, heap[ch[0]].next, ch[1..])
  }

  /**
    Always global == holders - owed; and the stage says how the two compare. A
    detacher's stamp is what the node owes modulo 2^16, so a settled node owes a
    multiple of 2^16.
   */
  ghost predicate NodeOk(s: State, v: View, a: Address)
    requires a in s.heap && a in v.status
  {
    var h, owed := |Holders(s.pc, a)|, s.heap[a].owed;
    && s.heap[a].global == h - owed && owed >= 0
    && match v.status[a]
       case Private(t) => t in s.pc && s.pc[t] == Pushing(a) && h == 0 && owed == 0
       case Linked(o, _) => a in Segment(v, o) && h <= owed
       case Detached(t, stamp) =>
         && t in s.pc && (s.pc[t].PopTaking? || s.pc[t].PopSettling?) && s.pc[t].cur == StampedPtr(a, stamp)
         && h <= owed && 1 <= stamp <= STAMPS && owed % STAMPS == stamp % STAMPS
       case Settled => owed % STAMPS == 0 && h != owed
       case Doomed(t) => t in s.pc && WillDelete(s.pc[t], a) && h == 0 && owed == 0
  }

  predicate WillDelete(p: Pc, a: Address) {
    (p.PopDeleting? || p.PopRedeleting? || p.ConsumeDeleting?) && p.node == a
  }

  predicate Holdable(st: Status) { st.Linked? || st.Detached? || st.Settled? }

  predicate HolderOk(s: State, v: View, cur: StampedPtr) {
    && !cur.IsNull() && cur.ptr in s.heap && cur.ptr in v.status
    && 1 <= cur.stamp <= STAMPS && Holdable(v.status[cur.ptr])
  }

  predicate Owns(s: State, v: View, a: Address, st: Status) {
    a != NULL && a in s.heap && a in v.status && v.status[a] == st
  }

  ghost predicate ThreadOk(s: State, v: View, t: Tid)
    requires t in s.pc && t in v.taken
  {
    var chain := v.taken[t];
    match s.pc[t]
    case Pushing(n) => chain == [] && Owns(s, v, n, Private(t)) && s.heap[n].next.stamp < STAMPS
    case PopAcquiring(cur) => chain == [] && cur.stamp < STAMPS
    case PopReading(cur) => chain == [] && HolderOk(s, v, cur)
    case PopSwinging(cur, next) => chain == [] && HolderOk(s, v, cur) && next == s.heap[cur.ptr].next
    case PopReleasing(cur) => chain == [] && HolderOk(s, v, cur)
    case PopTaking(cur) => chain == [] && Owns(s, v, cur.ptr, Detached(t, cur.stamp))
    case PopSettling(cur, value) =>
      chain == [] && Owns(s, v, cur.ptr, Detached(t, cur.stamp)) && value == s.heap[cur.ptr].value
    case PopDeleting(n, _) => chain == [] && Owns(s, v, n, Doomed(t))
    case PopRedeleting(n) => chain == [] && Owns(s, v, n, Doomed(t))
    case ConsumeSwinging(cur) => chain == [] && cur.stamp < STAMPS
    case ConsumeReading(cur, _) => chain != [] && IsChain(s.heap, v.status, Taker(t), cur, chain)
    case ConsumeTaking(cur, next, _) =>
      && chain != [] && IsChain(s.heap, v.status, Taker(t), cur, chain)
      && next == s.heap[cur.ptr].next
    case ConsumeSettling(cur, next, given) =>
      && chain != [] && IsChain(s.heap, v.status, Taker(t), cur, chain)
      && next == s.heap[cur.ptr].next
      && given != [] && given[|given| - 1] == s.heap[cur.ptr].value
    case ConsumeDeleting(n, next, _) =>
      && Owns(s, v, n, Doomed(t))
      && IsChain(s.heap, v.status, Taker(t), next, chain)
    case _ => chain == []
  }

  ghost predicate Inv(s: State, v: View) {
    && !s.fault
    && v.taken.Keys == s.pc.Keys
    && v.status.Keys == s.heap.Keys
    && NULL !in s.heap
    && IsChain(s.heap, v.status, Shared, s.head, v.shared)
    && (forall a {:trigger NodeOk(s, v, a)} | a in s.heap :: NodeOk(s, v, a))
    && (forall t {:trigger ThreadOk(s, v, t)} | t in s.pc :: ThreadOk(s, v, t))
  }

  /** What the invariant says of one thread, of one node, and of the whole. */
  lemma Known(s: State, v: View, t: Tid)
    requires Inv(s, v) && t in s.pc
    ensures ThreadOk(s, v, t)
    ensures !s.fault && v.taken.Keys == s.pc.Keys && v.status.Keys == s.heap.Keys && NULL !in s.heap
    ensures IsChain(s.heap, v.status, Shared, s.head, v.shared)
  {
  }

  lemma NodeKnown(s: State, v: View, a: Address)
    requires Inv(s, v) && a in s.heap
    ensures a in v.status && NodeOk(s, v, a)
  {
  }

  // ---- chains ----

  lemma {:induction false} ChainMembers(heap: Heap, status: map<Address, Status>, o: Owner, p: StampedPtr, ch: seq<Address>)
    requires IsChain(heap, status, o, p, ch)
    ensures forall a | a in ch :: a in heap && a in status && status[a].Linked? && status[a].owner == o && status[a].height <= |ch|
    decreases |ch|
  {
    if ch != [] {
      ChainMembers(heap, status, o, heap[ch[0]].next, ch[1..]);
    }
  }

  /** A chain reads only the links and stages of its own nodes. */
  lemma {:induction false} ChainFrame(heap: Heap, status: map<Address, Status>, heap': Heap, status': map<Address, Status>,
                                      o: Owner, o': Owner, p: StampedPtr, ch: seq<Address>)
    requires IsChain(heap, status, o, p, ch)
    requires forall a | a in ch && a in heap && a in status && status[a].Linked? && status[a].height <= |ch| ::
      && a in heap' && a in status'
      && heap'[a].next == heap[a].next && heap'[a].owed == heap[a].owed
      && status'[a] == status[a].(owner := o')
    ensures IsChain(heap', status', o', p, ch)
    decreases |ch|
  {
    if ch != [] {
      ChainFrame(heap, status, heap', status', o, o', heap[ch[0]].next, ch[1..]);
    }
  }

  function Members(ch: seq<Address>): set<Address> { set a | a in ch }

  lemma {:induction false} ChainIsDistinct(heap: Heap, status: map<Address, Status>, o: Owner, p: StampedPtr, ch: seq<Address>)
    requires IsChain(heap, status, o, p, ch)
    ensures Distinct(ch) && |Members(ch)| == |ch|
    decreases |ch|
  {
    if ch != [] {
      var next, rest := heap[ch[0]].next, ch[1..];
      ChainIsDistinct(heap, status, o, next, rest);
      ChainMembers(heap, status, o, next, rest);
      assert forall j | 0 < j < |ch| :: ch[j] == rest[j - 1];
      assert ch == [ch[0]] + rest;
      assert Members(ch) == {ch[0]} + Members(rest);
    }
  }

  // ---- holders ----

  lemma HoldersStep(pc: map<Tid, Pc>, t: Tid, p: Pc, a: Address)
    requires t in pc
    ensures var n, n' := |Holders(pc, a)|, |Holders(pc[t := p], a)|;
      n' == n - (if Holds(pc[t], a) then 1 else 0) + (if Holds(p, a) then 1 else 0)
    ensures Holds(pc[t], a) ==> |Holders(pc, a)| > 0
  {
    var before, after := Holders(pc, a), Holders(pc[t := p], a);
    var rest := before - {t};
    assert before == if Holds(pc[t], a) then rest + {t} else rest;
    assert after == if Holds(p, a) then rest + {t} else rest;
  }

  lemma SomeHolder(pc: map<Tid, Pc>, t: Tid, a: Address)
    requires t in pc && Holds(pc[t], a)
    ensures |Holders(pc, a)| > 0
  {
    HoldersStep(pc, t, pc[t], a);
  }

  // ---- what one thread's step at one node leaves alone ----

  /** Everything but node `a` is as it was, in the machine and in the view. */
  predicate OnlyAt(s: State, v: View, s': State, v': View, a: Address) {
    && (forall b | b in s.heap && b != a :: b in s'.heap && s'.heap[b] == s.heap[b])
    && (forall b | b in s'.heap && b != a :: b in s.heap)
    && (forall b | b in v.status && b != a :: b in v'.status && v'.status[b] == v.status[b])
    && (forall b | b in v'.status && b != a :: b in v.status)
  }

  predicate BelongsTo(st: Status, u: Tid) {
    st == Private(u) || (st.Detached? && st.t == u) || st == Doomed(u) || (st.Linked? && st.owner == Taker(u))
  }

  /** No other thread sees node `a` change in a way that matters to it. */
  ghost predicate Undisturbed(s: State, v: View, s': State, v': View, t: Tid, a: Address) {
    a in s.heap && a in v.status ==>
      var kept := a in s'.heap && a in v'.status && s'.heap[a].next == s.heap[a].next && s'.heap[a].value == s.heap[a].value;
      forall u {:trigger BelongsTo(v.status[a], u)} {:trigger Holds(s.pc[u], a)} | u in s.pc && u != t ::
        && (BelongsTo(v.status[a], u) ==> kept && s'.heap[a].owed == s.heap[a].owed && v'.status[a] == v.status[a])
        && (Holds(s.pc[u], a) ==> kept && (Holdable(v.status[a]) ==> Holdable(v'.status[a])))
  }

  /** Thread `t` moved, at most node `a` changed, and no other thread noticed. */
  ghost predicate Local(s: State, v: View, s': State, v': View, t: Tid, a: Address) {
    && t in s.pc && t in s'.pc && s'.pc == s.pc[t := s'.pc[t]]
    && v'.taken.Keys == v.taken.Keys
    && (forall u | u in v.taken && u != t :: v'.taken[u] == v.taken[u])
    && OnlyAt(s, v, s', v', a)
    && Undisturbed(s, v, s', v', t, a)
  }

  lemma OtherThreadKept(s: State, v: View, s': State, v': View, t: Tid, a: Address, u: Tid)
    requires Inv(s, v) && Local(s, v, s', v', t, a) && u in s.pc && u != t
    ensures ThreadOk(s', v', u)
  {
    assert ThreadOk(s, v, u);
    match s.pc[u]
    case Pushing(n) => OwnedKept(s, v, s', v', t, a, u, n);
    case PopReading(cur) => HolderKept(s, v, s', v', t, a, u, cur);
    case PopSwinging(cur, _) => HolderKept(s, v, s', v', t, a, u, cur);
    case PopReleasing(cur) => HolderKept(s, v, s', v', t, a, u, cur);
    case PopTaking(cur) => OwnedKept(s, v, s', v', t, a, u, cur.ptr);
    case PopSettling(cur, _) => OwnedKept(s, v, s', v', t, a, u, cur.ptr);
    case PopDeleting(n, _) => OwnedKept(s, v, s', v', t, a, u, n);
    case PopRedeleting(n) => OwnedKept(s, v, s', v', t, a, u, n);
    case ConsumeReading(cur, _) => ChainKept(s, v, s', v', t, a, u, cur);
    case ConsumeTaking(cur, _, _) => ChainKept(s, v, s', v', t, a, u, cur);
    case ConsumeSettling(cur, _, _) => ChainKept(s, v, s', v', t, a, u, cur);
    case ConsumeDeleting(n, next, _) =>
      OwnedKept(s, v, s', v', t, a, u, n);
      ChainKept(s, v, s', v', t, a, u, next);
    case _ =>
  }

  lemma HolderKept(s: State, v: View, s': State, v': View, t: Tid, a: Address, u: Tid, cur: StampedPtr)
    requires Local(s, v, s', v', t, a) && u in s.pc && u != t
    requires HolderOk(s, v, cur) && Holds(s.pc[u], cur.ptr)
    ensures HolderOk(s', v', cur) && s'.heap[cur.ptr].next == s.heap[cur.ptr].next
  {
  }

  lemma OwnedKept(s: State, v: View, s': State, v': View, t: Tid, a: Address, u: Tid, n: Address)
    requires Local(s, v, s', v', t, a) && u in s.pc && u != t
    requires n in v.status && BelongsTo(v.status[n], u) && Owns(s, v, n, v.status[n])
    ensures Owns(s', v', n, v.status[n])
    ensures s'.heap[n].next == s.heap[n].next && s'.heap[n].value == s.heap[n].value
  {
  }

  lemma ChainKept(s: State, v: View, s': State, v': View, t: Tid, a: Address, u: Tid, p: StampedPtr)
    requires Local(s, v, s', v', t, a) && u in s.pc && u != t && u in v.taken
    requires IsChain(s.heap, v.status, Taker(u), p, v.taken[u])
    ensures IsChain(s'.heap, v'.status, Taker(u), p, v.taken[u])
    ensures forall b | b in v.taken[u] :: b in s.heap && b in s'.heap && s'.heap[b].next == s.heap[b].next && s'.heap[b].value == s.heap[b].value
  {
    ChainMembers(s.heap, v.status, Taker(u), p, v.taken[u]);
    if a in v.taken[u] {
      assert BelongsTo(v.status[a], u);
    }
    ChainFrame(s.heap, v.status, s'.heap, v'.status, Taker(u), Taker(u), p, v.taken[u]);
  }

  /** The one node a thread's position is about. */
  predicate Mentions(p: Pc, a: Address) {
    Holds(p, a) || p == Pushing(a) || WillDelete(p, a)
  }

  /** No segment lost a node other than `a`. */
  predicate SegmentsKept(v: View, v': View, a: Address) {
    && (forall b :: b in v.shared && b != a ==> b in v'.shared)
    && (forall u, b :: u in v.taken && b in v.taken[u] && b != a ==> u in v'.taken && b in v'.taken[u])
  }

  lemma OtherNodeKept(s: State, v: View, s': State, v': View, t: Tid, a: Address, b: Address)
    requires Inv(s, v) && Local(s, v, s', v', t, a) && b in s.heap && b != a
    requires !Mentions(s.pc[t], b) && !Mentions(s'.pc[t], b)
    requires SegmentsKept(v, v', a)
    ensures b in s'.heap && b in v'.status && NodeOk(s', v', b)
  {
    assert NodeOk(s, v, b);
    HoldersStep(s.pc, t, s'.pc[t], b);
  }

  /** A local step keeps the invariant once its own thread, its own node and the shared chain are right. */
  lemma LocalStepKeepsInv(s: State, v: View, s': State, v': View, t: Tid, a: Address)
    requires Inv(s, v) && Local(s, v, s', v', t, a)
    requires !s'.fault && s'.heap.Keys == v'.status.Keys && NULL !in s'.heap
    requires forall b | b in s.heap && b != a :: !Mentions(s.pc[t], b) && !Mentions(s'.pc[t], b)
    requires SegmentsKept(v, v', a)
    requires IsChain(s'.heap, v'.status, Shared, s'.head, v'.shared)
    requires ThreadOk(s', v', t)
    requires a in s'.heap ==> NodeOk(s', v', a)
    ensures Inv(s', v')
  {
    forall b | b in s'.heap
      ensures NodeOk(s', v', b)
    {
      if b != a {
        OtherNodeKept(s, v, s', v', t, a, b);
      }
    }
    forall u | u in s'.pc
      ensures ThreadOk(s', v', u)
    {
      if u != t {
        OtherThreadKept(s, v, s', v', t, a, u);
      }
    }
  }
}
