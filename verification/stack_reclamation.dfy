/** Every action of the stack keeps the invariant; hence no run touches a deleted node. */
module StackReclamation {
  import opened Wrappers
  import opened StampedPtrs
  import opened StackModel
  import opened StackInvariant

  // ---- how the view follows an action ----

  function AllocView(v: View, t: Tid, node: Address): View {
    v.(status := v.status[node := Private(t)])
  }

  function PushView(v: View, node: Address): View {
    v.(status := v.status[node := Linked(Shared, |v.shared| + 1)], shared := [node] + v.shared)
  }

  function PopView(v: View, t: Tid, cur: StampedPtr): View {
    if v.shared == [] then v
    else v.(status := v.status[cur.ptr := Detached(t, cur.stamp)], shared := v.shared[1..])
  }

  /** After an IncrementGlobal that brings a detached node's count to `global`. */
  function SettleView(v: View, t: Tid, node: Address, global: int): View {
    v.(status := v.status[node := if global == 0 then Doomed(t) else Settled])
  }

  function DeleteView(v: View, node: Address): View {
    v.(status := v.status - {node})
  }

  function TakeView(v: View, t: Tid): View {
    View(map a | a in v.status :: if v.status[a].Linked? && v.status[a].owner == Shared
                                  then v.status[a].(owner := Taker(t)) else v.status[a],
         [], v.taken[t := v.shared])
  }

  function DropTaken(v: View, t: Tid): View {
    if t in v.taken && v.taken[t] != [] then v.(taken := v.taken[t := v.taken[t][1..]]) else v
  }

  // ---- one lemma per action ----

  /** A step that moves its thread and nothing else. */
  lemma MoveKeepsInv(s: State, v: View, t: Tid, a: Address, p: Pc)
    requires Inv(s, v) && t in s.pc
    requires forall b | b in s.heap && b != a :: !Mentions(s.pc[t], b) && !Mentions(p, b)
    requires ThreadOk(At(s, t, p), v, t)
    requires a in s.heap ==> Holds(p, a) == Holds(s.pc[t], a) && NodeOk(At(s, t, p), v, a)
    ensures Inv(At(s, t, p), v)
  {
    LocalStepKeepsInv(s, v, At(s, t, p), v, t, a);
  }

  lemma AllocKeepsInv(s: State, v: View, t: Tid, value: Value, node: Address)
    requires Inv(s, v) && t in s.pc && s.pc[t] == Idle && node != NULL && node !in s.heap
    ensures Inv(CallStep(s, t, Push(value, node)), AllocView(v, t, node))
  {
    var s', v' := CallStep(s, t, Push(value, node)), AllocView(v, t, node);
    assert ThreadOk(s, v, t);
    NobodyHoldsAStranger(s, v, node);
    HoldersStep(s.pc, t, s'.pc[t], node);
    SharedChainFrame(s, v, s', v', node);
    assert Local(s, v, s', v', t, node);
    assert ThreadOk(s', v', t) && NodeOk(s', v', node);
    LocalStepKeepsInv(s, v, s', v', t, node);
  }

  lemma NobodyHoldsAStranger(s: State, v: View, node: Address)
    requires Inv(s, v) && node !in s.heap
    ensures Holders(s.pc, node) == {}
  {
    forall u | u in s.pc
      ensures !Holds(s.pc[u], node)
    {
      assert ThreadOk(s, v, u);
    }
  }

  /** The shared chain does not care about a node that is not on it. */
  lemma SharedChainFrame(s: State, v: View, s': State, v': View, a: Address)
    requires Inv(s, v) && OnlyAt(s, v, s', v', a)
    requires a in v.status ==> !(v.status[a].Linked? && v.status[a].owner == Shared)
    ensures IsChain(s'.heap, v'.status, Shared, s.head, v.shared)
  {
    ChainMembers(s.heap, v.status, Shared, s.head, v.shared);
    ChainFrame(s.heap, v.status, s'.heap, v'.status, Shared, Shared, s.head, v.shared);
  }

  lemma PushRetryKeepsInv(s: State, v: View, t: Tid)
    requires Inv(s, v) && t in s.pc && s.pc[t].Pushing?
    requires s.pc[t].node in s.heap
    ensures var n := s.pc[t].node; Inv(s.(heap := s.heap[n := s.heap[n].(next := s.head)]), v)
  {
    var n := s.pc[t].node;
    assert ThreadOk(s, v, t) && NodeOk(s, v, n);
    var s' := s.(heap := s.heap[n := s.heap[n].(next := s.head)]);
    SharedChainFrame(s, v, s', v, n);
    HoldersStep(s.pc, t, s.pc[t], n);
    assert Undisturbed(s, v, s', v, t, n) by { NobodyElse(s, v, t, n); }
    LocalStepKeepsInv(s, v, s', v, t, n);
  }

  /** A node owned by `t` with no holders means nothing to any other thread. */
  lemma NobodyElse(s: State, v: View, t: Tid, a: Address)
    requires Inv(s, v) && t in s.pc && a in s.heap && (v.status[a] == Private(t) || v.status[a] == Doomed(t))
    ensures forall u | u in s.pc :: !Holds(s.pc[u], a)
    ensures forall u | u in s.pc && u != t :: !BelongsTo(v.status[a], u)
  {
    assert NodeOk(s, v, a);
    forall u | u in s.pc
      ensures !Holds(s.pc[u], a)
    {
      if Holds(s.pc[u], a) {
        SomeHolder(s.pc, u, a);
      }
    }
  }

  lemma PushKeepsInv(s: State, v: View, t: Tid)
    requires Inv(s, v) && t in s.pc && s.pc[t].Pushing?
    requires s.pc[t].node in s.heap && s.heap[s.pc[t].node].next == s.head
    ensures var n := s.pc[t].node; Inv(At(s.(head := StampedPtr(n, 0)), t, PushDone), PushView(v, n))
  {
    var n := s.pc[t].node;
    assert ThreadOk(s, v, t) && NodeOk(s, v, n);
    var s', v' := At(s.(head := StampedPtr(n, 0)), t, PushDone), PushView(v, n);
    SharedChainFrame(s, v, s', v', n);
    assert v'.shared[1..] == v.shared;
    HoldersStep(s.pc, t, PushDone, n);
    NobodyElse(s, v, t, n);
    LocalStepKeepsInv(s, v, s', v', t, n);
  }

  /** One more holder, one more acquisition owed for, one more on the link's stamp. */
  lemma AcquireKeepsInv(s: State, v: View, t: Tid)
    requires Inv(s, v) && t in s.pc && s.pc[t] == PopAcquiring(s.head) && !s.head.IsNull()
    ensures var up := s.head.IncrementStamp();
      Inv(At(s.(head := Truncate(up), heap := Acquired(s.heap, up.ptr)), t, PopReading(up)), v)
  {
    var a, up := s.head.ptr, s.head.IncrementStamp();
    var s' := At(s.(head := Truncate(up), heap := Acquired(s.heap, a)), t, PopReading(up));
    assert ThreadOk(s, v, t) && NodeOk(s, v, a);
    HoldersStep(s.pc, t, PopReading(up), a);
    TailFrame(s, v, s', v);
    OneMore(s.heap[a].owed);
    assert ThreadOk(s', v, t) && NodeOk(s', v, a);
    LocalStepKeepsInv(s, v, s', v, t, a);
  }

  lemma OneMore(n: int)
    requires n >= 0
    ensures (n % STAMPS + 1) % STAMPS == (n + 1) % STAMPS
  {
  }

  /** Changing the counts or the stage of the top node leaves the rest of the shared chain a chain. */
  lemma TailFrame(s: State, v: View, s': State, v': View)
    requires Inv(s, v) && v.shared != [] && OnlyAt(s, v, s', v', v.shared[0])
    ensures IsChain(s'.heap, v'.status, Shared, s.heap[v.shared[0]].next, v.shared[1..])
    ensures v.shared[0] !in v.shared[1..]
  {
    var next := s.heap[v.shared[0]].next;
    ChainMembers(s.heap, v.status, Shared, next, v.shared[1..]);
    ChainFrame(s.heap, v.status, s'.heap, v'.status, Shared, Shared, next, v.shared[1..]);
  }

  lemma PopKeepsInv(s: State, v: View, t: Tid)
    requires Inv(s, v) && t in s.pc && s.pc[t].PopSwinging? && Truncate(s.pc[t].cur) == s.head
    ensures v.shared != [] && Inv(At(s.(head := s.pc[t].next), t, PopTaking(s.pc[t].cur)), PopView(v, t, s.pc[t].cur))
  {
    var cur := s.pc[t].cur;
    var a := cur.ptr;
    assert ThreadOk(s, v, t) && NodeOk(s, v, a);
    var s', v' := At(s.(head := s.pc[t].next), t, PopTaking(cur)), PopView(v, t, cur);
    HoldersStep(s.pc, t, PopTaking(cur), a);
    TailFrame(s, v, s', v');
    assert ThreadOk(s', v', t) && NodeOk(s', v', a);
    LocalStepKeepsInv(s, v, s', v', t, a);
  }

  /** The machine after IncrementGlobal has brought `a` to `global` g and `owed` o, and sent `t` to `p`. */
  predicate Stored(s: State, s': State, t: Tid, a: Address, g: int, o: int, p: Pc) {
    t in s.pc && a in s.heap && s' == At(s.(heap := s.heap[a := s.heap[a].(global := g, owed := o)]), t, p)
  }

  /** The detaching thread puts the stamp in: what the node owes from then on can no longer be paid. */
  lemma SettleIsLocal(s: State, v: View, s': State, v': View, t: Tid, a: Address, g: int, o: int, p: Pc)
    requires Inv(s, v) && Stored(s, s', t, a, g, o, p) && (g == 0 ==> Holders(s.pc, a) <= {t})
    requires (v.status[a].Detached? && v.status[a].t == t) || (v.status[a].Linked? && v.status[a].owner == Taker(t))
    requires v'.status == SettleView(v, t, a, g).status
    requires v'.taken.Keys == v.taken.Keys && forall u | u in v.taken && u != t :: v'.taken[u] == v.taken[u]
    ensures Local(s, v, s', v', t, a)
    ensures IsChain(s'.heap, v'.status, Shared, s.head, v.shared)
  {
    SharedChainFrame(s, v, s', v', a);
    if g == 0 { OnlyMine(s.pc, t, a); }
  }

  lemma OnlyMine(pc: map<Tid, Pc>, t: Tid, a: Address)
    requires Holders(pc, a) <= {t}
    ensures forall u | u in pc && u != t :: !Holds(pc[u], a)
  {
    forall u | u in pc && u != t
      ensures !Holds(pc[u], a)
    {
      assert u in Holders(pc, a) <==> Holds(pc[u], a);
    }
  }

  /** A thread that stops holding `a`, with nobody else holding it, leaves it without holders. */
  lemma LastHolder(pc: map<Tid, Pc>, t: Tid, p: Pc, a: Address)
    requires t in pc && Holders(pc, a) <= {t} && !Holds(p, a)
    ensures Holders(pc[t := p], a) == {}
  {
    OnlyMine(pc, t, a);
  }

  lemma PaidInFull(n: int, stamp: nat)
    requires n >= 1 && 1 <= stamp <= STAMPS && n % STAMPS == stamp % STAMPS
    ensures n >= stamp && (n - stamp) % STAMPS == 0
  {
  }

  /** A popper adds its stamp less its own reference. */
  lemma PopSettleKeepsInv(s: State, v: View, s': State, t: Tid, g: int, p: Pc)
    requires Inv(s, v) && t in s.pc && s.pc[t].PopSettling?
    requires var PopSettling(cur, value) := s.pc[t];
      && p == (if g == 0 then PopDeleting(cur.ptr, value) else PopDone(Some(value)))
      && (cur.ptr in s.heap ==>
        && g == s.heap[cur.ptr].global + cur.stamp - 1 && (g == 0 ==> Holders(s.pc, cur.ptr) <= {t})
        && Stored(s, s', t, cur.ptr, g, s.heap[cur.ptr].owed - cur.stamp, p))
    ensures s.pc[t].cur.ptr in s.heap
    ensures Inv(s', SettleView(v, t, s.pc[t].cur.ptr, g))
  {
    var cur := s.pc[t].cur;
    var a := cur.ptr;
    assert ThreadOk(s, v, t) && NodeOk(s, v, a);
    HoldersStep(s.pc, t, p, a);
    PaidInFull(s.heap[a].owed, cur.stamp);
    if g == 0 { LastHolder(s.pc, t, p, a); }
    var v' := SettleView(v, t, a, g);
    SettleIsLocal(s, v, s', v', t, a, g, s.heap[a].owed - cur.stamp, p);
    LocalStepKeepsInv(s, v, s', v', t, a);
  }

  function ReleaseView(v: View, t: Tid, a: Address, g: int): View {
    if a in v.status && v.status[a] == Settled then SettleView(v, t, a, g) else v
  }

  lemma ReleaseIsLocal(s: State, v: View, s': State, v': View, t: Tid, a: Address, g: int, p: Pc)
    requires Inv(s, v) && a in s.heap && Stored(s, s', t, a, g, s.heap[a].owed, p) && v' == ReleaseView(v, t, a, g)
    requires Holdable(v.status[a]) && (v.status[a] == Settled && g == 0 ==> Holders(s.pc, a) <= {t})
    ensures Local(s, v, s', v', t, a)
    ensures IsChain(s'.heap, v'.status, Shared, s.head, v.shared)
  {
    if g == 0 && v.status[a] == Settled { OnlyMine(s.pc, t, a); }
    ChainMembers(s.heap, v.status, Shared, s.head, v.shared);
    ChainFrame(s.heap, v.status, s'.heap, v'.status, Shared, Shared, s.head, v.shared);
  }

  /** A failed popper gives its reference back; only after the stamp is in can that reach zero. */
  lemma PopReleaseKeepsInv(s: State, v: View, s': State, t: Tid, g: int, p: Pc)
    requires Inv(s, v) && t in s.pc && s.pc[t].PopReleasing?
    requires var a := s.pc[t].cur.ptr;
      && p == (if g == 0 then PopRedeleting(a) else PopLoading)
      && (a in s.heap ==>
        && g == s.heap[a].global - 1 && (g == 0 ==> Holders(s.pc, a) <= {t})
        && Stored(s, s', t, a, g, s.heap[a].owed, p))
    ensures s.pc[t].cur.ptr in s.heap
    ensures Inv(s', ReleaseView(v, t, s.pc[t].cur.ptr, g))
  {
    var a := s.pc[t].cur.ptr;
    assert ThreadOk(s, v, t) && NodeOk(s, v, a);
    HoldersStep(s.pc, t, p, a);
    if g == 0 { LastHolder(s.pc, t, p, a); }
    var v' := ReleaseView(v, t, a, g);
    ReleaseIsLocal(s, v, s', v', t, a, g, p);
    assert NodeOk(s', v', a);
    LocalStepKeepsInv(s, v, s', v', t, a);
  }

  lemma DeleteKeepsInv(s: State, v: View, s': State, v': View, t: Tid, node: Address, p: Pc)
    requires Inv(s, v) && t in s.pc && WillDelete(s.pc[t], node)
    requires s' == Delete(s, t, node, p) && v' == DeleteView(v, node)
    requires forall b :: !Mentions(p, b)
    requires ThreadOk(s', v', t)
    ensures node in s.heap && Inv(s', v')
  {
    Known(s, v, t);
    NobodyElse(s, v, t, node);
    hide IsChain, Holders;
    assert OnlyAt(s, v, s', v', node);
    SharedChainFrame(s, v, s', v', node);
    hide Inv;
    assert Undisturbed(s, v, s', v', t, node);
    LocalStepKeepsInv(s, v, s', v', t, node);
  }

  // ---- ConsumeAll ----

  /** Taking the whole chain changes its owner, and nothing a thread or a node depends on. */
  lemma TakeKeepsInv(s: State, v: View, t: Tid)
    requires Inv(s, v) && t in s.pc && s.pc[t] == ConsumeSwinging(s.head)
    ensures Inv(At(s.(head := StampedPtr(NULL, 0)), t, ConsumeNext(s.head, [])), TakeView(v, t))
  {
    var p := ConsumeNext(s.head, []);
    var s', v' := At(s.(head := StampedPtr(NULL, 0)), t, p), TakeView(v, t);
    assert ThreadOk(s, v, t);
    ChainMembers(s.heap, v.status, Shared, s.head, v.shared);
    ChainFrame(s.heap, v.status, s'.heap, v'.status, Shared, Taker(t), s.head, v.shared);
    forall b | b in s'.heap
      ensures NodeOk(s', v', b)
    {
      TakeKeepsNode(s, v, t, b);
    }
    forall u | u in s'.pc
      ensures ThreadOk(s', v', u)
    {
      if u != t { TakeKeepsThread(s, v, t, u); }
    }
  }

  lemma TakeKeepsNode(s: State, v: View, t: Tid, b: Address)
    requires Inv(s, v) && t in s.pc && b in s.heap && s.pc[t] == ConsumeSwinging(s.head)
    ensures b in TakeView(v, t).status
    ensures NodeOk(At(s.(head := StampedPtr(NULL, 0)), t, ConsumeNext(s.head, [])), TakeView(v, t), b)
  {
    ChainMembers(s.heap, v.status, Shared, s.head, v.shared);
    assert ThreadOk(s, v, t) && NodeOk(s, v, b);
    HoldersStep(s.pc, t, ConsumeNext(s.head, []), b);
  }

  lemma TakeKeepsThread(s: State, v: View, t: Tid, u: Tid)
    requires Inv(s, v) && t in s.pc && u in s.pc && u != t && s.pc[t] == ConsumeSwinging(s.head)
    ensures ThreadOk(At(s.(head := StampedPtr(NULL, 0)), t, ConsumeNext(s.head, [])), TakeView(v, t), u)
  {
    assert ThreadOk(s, v, u);
    match s.pc[u]
    case ConsumeReading(cur, _) => TakeKeepsOthersChain(s, v, t, u, cur);
    case ConsumeTaking(cur, _, _) => TakeKeepsOthersChain(s, v, t, u, cur);
    case ConsumeSettling(cur, _, _) => TakeKeepsOthersChain(s, v, t, u, cur);
    case ConsumeDeleting(_, next, _) => TakeKeepsOthersChain(s, v, t, u, next);
    case _ =>
  }

  lemma TakeKeepsOthersChain(s: State, v: View, t: Tid, u: Tid, p: StampedPtr)
    requires u in v.taken && IsChain(s.heap, v.status, Taker(u), p, v.taken[u])
    ensures IsChain(s.heap, TakeView(v, t).status, Taker(u), p, v.taken[u])
  {
    ChainMembers(s.heap, v.status, Taker(u), p, v.taken[u]);
    ChainFrame(s.heap, v.status, s.heap, TakeView(v, t).status, Taker(u), Taker(u), p, v.taken[u]);
  }

  /** The consumer's thread once its first node has been settled. */
  lemma ConsumeSettledThread(s: State, v: View, s': State, v': View, t: Tid, g: int, o: int, p: Pc)
    requires t in s.pc && s.pc[t].ConsumeSettling? && v.taken.Keys == s.pc.Keys && ThreadOk(s, v, t)
    requires var ConsumeSettling(cur, next, given) := s.pc[t];
      && cur.ptr in s.heap && Stored(s, s', t, cur.ptr, g, o, p)
      && p == (if g == 0 then ConsumeDeleting(cur.ptr, next, given) else ConsumeNext(next, given))
      && v' == DropTaken(SettleView(v, t, cur.ptr, g), t) && OnlyAt(s, v, s', v', cur.ptr)
    ensures ThreadOk(s', v', t)
  {
    WalkedChain(s, v, s', v', t, s.pc[t].cur);
  }

  lemma ConsumeSettledNode(s: State, v: View, s': State, v': View, t: Tid, g: int, o: int, p: Pc)
    requires t in s.pc && s.pc[t].ConsumeSettling? && !Holds(p, s.pc[t].cur.ptr)
    requires var a := s.pc[t].cur.ptr;
      && a in s.heap && a in v.status && NodeOk(s, v, a) && Stored(s, s', t, a, g, o, p)
      && g == s.heap[a].global + s.heap[a].owed - o && o % STAMPS == 0 && o >= 0
      && (g == 0 ==> Holders(s'.pc, a) == {} && WillDelete(p, a)) && v'.status == SettleView(v, t, a, g).status
    ensures s.pc[t].cur.ptr in s'.heap && s.pc[t].cur.ptr in v'.status && NodeOk(s', v', s.pc[t].cur.ptr)
  {
    HoldersStep(s.pc, t, p, s.pc[t].cur.ptr);
  }

  lemma Remainder(n: int)
    requires n >= 0
    ensures n - n % STAMPS >= 0 && (n - n % STAMPS) % STAMPS == 0
  {
  }

  /** The walk adds the link's whole stamp: the walker never held a reference of its own. */
  lemma ConsumeSettleKeepsInv(s: State, v: View, s': State, t: Tid, g: int, p: Pc)
    requires Inv(s, v) && t in s.pc && s.pc[t].ConsumeSettling?
    requires var ConsumeSettling(cur, next, given) := s.pc[t];
      && p == (if g == 0 then ConsumeDeleting(cur.ptr, next, given) else ConsumeNext(next, given))
      && (cur.ptr in s.heap ==>
        && g == s.heap[cur.ptr].global + cur.stamp && (g == 0 ==> Holders(s.pc, cur.ptr) <= {t})
        && Stored(s, s', t, cur.ptr, g, s.heap[cur.ptr].owed - cur.stamp, p))
    ensures s.pc[t].cur.ptr in s.heap
    ensures Inv(s', DropTaken(SettleView(v, t, s.pc[t].cur.ptr, g), t))
  {
    var cur := s.pc[t].cur;
    var a := cur.ptr;
    Known(s, v, t);
    NodeKnown(s, v, a);
    var o := s.heap[a].owed - cur.stamp;
    assert v.status[a].Linked? && v.status[a].owner == Taker(t) && cur.stamp == s.heap[a].owed % STAMPS;
    hide Inv, Holders, IsChain;
    Remainder(s.heap[a].owed);
    if g == 0 { LastHolder(s.pc, t, p, a); }
    var v' := DropTaken(SettleView(v, t, a, g), t);
    SettleIsLocal(s, v, s', v', t, a, g, o, p);
    assert t in v'.taken && v'.taken[t] == v.taken[t][1..];
    ConsumeSettledNode(s, v, s', v', t, g, o, p);
    hide NodeOk, HolderOk;
    WalkedChain(s, v, s', v', t, cur);
    ConsumeSettledThread(s, v, s', v', t, g, o, p);
    hide ThreadOk;
    LocalStepKeepsInv(s, v, s', v', t, a);
  }

  /** What is left of a taken chain once its first node has been settled. */
  lemma WalkedChain(s: State, v: View, s': State, v': View, t: Tid, cur: StampedPtr)
    requires t in v.taken && v.taken[t] != [] && OnlyAt(s, v, s', v', cur.ptr)
    requires IsChain(s.heap, v.status, Taker(t), cur, v.taken[t])
    ensures IsChain(s'.heap, v'.status, Taker(t), s.heap[cur.ptr].next, v.taken[t][1..])
    ensures cur.ptr !in v.taken[t][1..]
  {
    var next, rest := s.heap[cur.ptr].next, v.taken[t][1..];
    ChainMembers(s.heap, v.status, Taker(t), next, rest);
    ChainFrame(s.heap, v.status, s'.heap, v'.status, Taker(t), Taker(t), next, rest);
  }

  // ---- any step, any run ----

  /** How the view follows one thread step. */
  function GoView(s: State, v: View, t: Tid, spurious: bool): View
    requires t in s.pc
  {
    match s.pc[t]
    case Pushing(n) =>
      if n in s.heap && CasSucceeds(s.head, s.heap[n].next, spurious) then PushView(v, n) else v
    case PopSwinging(cur, _) => if CasSucceeds(s.head, cur, spurious) then PopView(v, t, cur) else v
    case PopSettling(cur, _) =>
      if cur.ptr in s.heap then SettleView(v, t, cur.ptr, s.heap[cur.ptr].global + cur.stamp - 1) else v
    case PopReleasing(cur) => if cur.ptr in s.heap then ReleaseView(v, t, cur.ptr, s.heap[cur.ptr].global - 1) else v
    case PopDeleting(n, _) => DeleteView(v, n)
    case PopRedeleting(n) => DeleteView(v, n)
    case ConsumeSwinging(cur) => if CasSucceeds(s.head, cur, spurious) then TakeView(v, t) else v
    case ConsumeSettling(cur, _, _) =>
      if cur.ptr in s.heap then DropTaken(SettleView(v, t, cur.ptr, s.heap[cur.ptr].global + cur.stamp), t) else v
    case ConsumeDeleting(n, _, _) => DeleteView(v, n)
    case _ => v
  }

  function StepView(s: State, v: View, e: Event): View {
    if e.t !in s.pc || s.fault then v
    else match e
      case Call(t, op) =>
        if s.pc[t] == Idle && op.Push? && op.node != NULL && op.node !in s.heap then AllocView(v, t, op.node) else v
      case Go(t, spurious) => GoView(s, v, t, spurious)
      case Return(_) => v
  }

  lemma HeadStampFits(s: State, v: View)
    requires Inv(s, v)
    ensures s.head.stamp < STAMPS && Truncate(s.head) == s.head
    ensures !s.head.IsNull() ==> v.shared != [] && s.head.ptr in s.heap && Holdable(v.status[s.head.ptr])
  {
  }

  lemma PopStepKeepsInv(s: State, v: View, t: Tid, spurious: bool)
    requires Inv(s, v) && t in s.pc
    requires s.pc[t].PopLoading? || s.pc[t].PopAcquiring? || s.pc[t].PopReading? || s.pc[t].PopSwinging? || s.pc[t].PopTaking?
    ensures Inv(GoStep(s, t, spurious), GoView(s, v, t, spurious))
  {
    Known(s, v, t);
    HeadStampFits(s, v);
    hide Inv, IsChain;
    match s.pc[t]
    case PopLoading => MoveKeepsInv(s, v, t, NULL, PopAcquiring(s.head));
    case PopAcquiring(cur) =>
      if !CasSucceeds(s.head, cur, spurious) {
        MoveKeepsInv(s, v, t, NULL, PopAcquiring(s.head));
      } else if cur.IsNull() {
        AcquireNullKeepsInv(s, v, t);
      } else {
        AcquireKeepsInv(s, v, t);
      }
    case PopReading(cur) => MoveHolderKeepsInv(s, v, t, PopSwinging(cur, s.heap[cur.ptr].next));
    case PopSwinging(cur, next) =>
      if CasSucceeds(s.head, cur, spurious) {
        PopKeepsInv(s, v, t);
      } else {
        MoveHolderKeepsInv(s, v, t, PopReleasing(cur));
      }
    case PopTaking(cur) => MoveHolderKeepsInv(s, v, t, PopSettling(cur, s.heap[cur.ptr].value));
  }

  /** A holder that only moves on to its next action with the same reference. */
  lemma MoveHolderKeepsInv(s: State, v: View, t: Tid, p: Pc)
    requires Inv(s, v) && t in s.pc
    requires s.pc[t].PopReading? || s.pc[t].PopSwinging? || s.pc[t].PopTaking?
    requires p.PopSwinging? || p.PopReleasing? || p.PopSettling?
    requires p.PopSettling? <==> s.pc[t].PopTaking?
    requires p.cur == s.pc[t].cur && ThreadOk(At(s, t, p), v, t)
    ensures Inv(At(s, t, p), v)
  {
    var a := p.cur.ptr;
    assert ThreadOk(s, v, t) && NodeOk(s, v, a);
    HoldersStep(s.pc, t, p, a);
    MoveKeepsInv(s, v, t, a, p);
  }

  /** An acquisition of the null head bumps a stamp that counts nothing. */
  lemma AcquireNullKeepsInv(s: State, v: View, t: Tid)
    requires Inv(s, v) && t in s.pc && s.pc[t] == PopAcquiring(s.head) && s.head.IsNull()
    ensures Inv(At(s.(head := Truncate(s.head.IncrementStamp()), heap := Acquired(s.heap, NULL)), t, PopDone(None)), v)
  {
    var s' := At(s.(head := Truncate(s.head.IncrementStamp()), heap := Acquired(s.heap, NULL)), t, PopDone(None));
    assert ThreadOk(s, v, t);
    LocalStepKeepsInv(s, v, s', v, t, NULL);
  }

  lemma Exact32(x: int)
    requires -1 <= x <= STAMPS
    ensures Wrap32(x) == x
  {
  }

  /** An addition that is not miscounted reaches zero only for the last holder. */
  lemma CountedSum(s: State, t: Tid, spurious: bool)
    requires t in s.pc && Counting(s.pc[t]) && s.pc[t].cur.ptr in s.heap && !Miscounts(s, Go(t, spurious))
    requires s.pc[t].cur.stamp <= STAMPS && (s.pc[t].PopSettling? ==> s.pc[t].cur.stamp >= 1)
    ensures var sum := s.heap[s.pc[t].cur.ptr].global + Delta(s.pc[t]);
      && Sum(s.heap[s.pc[t].cur.ptr], Delta(s.pc[t])) == sum && !Overflows(sum)
      && (sum == 0 ==> Holders(s.pc, s.pc[t].cur.ptr) <= {t})
  {
    Exact32(Delta(s.pc[t]));
  }

  lemma PopSettleStepKeepsInv(s: State, v: View, t: Tid, spurious: bool)
    requires Inv(s, v) && t in s.pc && s.pc[t].PopSettling? && !Miscounts(s, Go(t, spurious))
    ensures Inv(GoStep(s, t, spurious), GoView(s, v, t, spurious))
  {
    Known(s, v, t);
    var PopSettling(cur, value) := s.pc[t];
    NodeKnown(s, v, cur.ptr);
    hide Inv, IsChain;
    CountedSum(s, t, spurious);
    var g := s.heap[cur.ptr].global + cur.stamp - 1;
    PopSettleKeepsInv(s, v, GoStep(s, t, spurious), t, g, if g == 0 then PopDeleting(cur.ptr, value) else PopDone(Some(value)));
  }

  lemma PopReleaseStepKeepsInv(s: State, v: View, t: Tid, spurious: bool)
    requires Inv(s, v) && t in s.pc && s.pc[t].PopReleasing? && !Miscounts(s, Go(t, spurious))
    ensures Inv(GoStep(s, t, spurious), GoView(s, v, t, spurious))
  {
    Known(s, v, t);
    hide Inv, IsChain;
    var a := s.pc[t].cur.ptr;
    CountedSum(s, t, spurious);
    var g := s.heap[a].global - 1;
    PopReleaseKeepsInv(s, v, GoStep(s, t, spurious), t, g, if g == 0 then PopRedeleting(a) else PopLoading);
  }

  lemma ConsumeSettleStepKeepsInv(s: State, v: View, t: Tid, spurious: bool)
    requires Inv(s, v) && t in s.pc && s.pc[t].ConsumeSettling? && !Miscounts(s, Go(t, spurious))
    ensures Inv(GoStep(s, t, spurious), GoView(s, v, t, spurious))
  {
    Known(s, v, t);
    var ConsumeSettling(cur, next, given) := s.pc[t];
    assert cur.ptr in s.heap && cur.stamp < STAMPS;
    hide Inv, IsChain;
    CountedSum(s, t, spurious);
    var g := s.heap[cur.ptr].global + cur.stamp;
    ConsumeSettleKeepsInv(s, v, GoStep(s, t, spurious), t, g,
                          if g == 0 then ConsumeDeleting(cur.ptr, next, given) else ConsumeNext(next, given));
  }

  lemma DeleteStepKeepsInv(s: State, v: View, t: Tid, spurious: bool)
    requires Inv(s, v) && t in s.pc
    requires s.pc[t].PopDeleting? || s.pc[t].PopRedeleting? || s.pc[t].ConsumeDeleting?
    ensures Inv(GoStep(s, t, spurious), GoView(s, v, t, spurious))
  {
    assert ThreadOk(s, v, t);
    var n := s.pc[t].node;
    var s', v' := GoStep(s, t, spurious), DeleteView(v, n);
    match s.pc[t]
    case PopDeleting(_, value) => DeleteKeepsInv(s, v, s', v', t, n, PopDone(Some(value)));
    case PopRedeleting(_) => DeleteKeepsInv(s, v, s', v', t, n, PopLoading);
    case ConsumeDeleting(_, next, given) =>
      var chain := v.taken[t];
      ChainMembers(s.heap, v.status, Taker(t), next, chain);
      ChainFrame(s.heap, v.status, s'.heap, v'.status, Taker(t), Taker(t), next, chain);
      DeleteKeepsInv(s, v, s', v', t, n, ConsumeNext(next, given));
  }

  lemma ConsumeStepKeepsInv(s: State, v: View, t: Tid, spurious: bool)
    requires Inv(s, v) && t in s.pc
    requires s.pc[t].ConsumeLoading? || s.pc[t].ConsumeSwinging? || s.pc[t].ConsumeReading? || s.pc[t].ConsumeTaking?
    ensures Inv(GoStep(s, t, spurious), GoView(s, v, t, spurious))
  {
    assert ThreadOk(s, v, t);
    HeadStampFits(s, v);
    match s.pc[t]
    case ConsumeLoading => MoveKeepsInv(s, v, t, NULL, ConsumeSwinging(s.head));
    case ConsumeSwinging(cur) =>
      if CasSucceeds(s.head, cur, spurious) {
        TakeKeepsInv(s, v, t);
      } else {
        MoveKeepsInv(s, v, t, NULL, ConsumeSwinging(s.head));
      }
    case ConsumeReading(cur, given) => MoveKeepsInv(s, v, t, NULL, ConsumeTaking(cur, s.heap[cur.ptr].next, given));
    case ConsumeTaking(cur, next, given) =>
      MoveKeepsInv(s, v, t, NULL, ConsumeSettling(cur, next, given + [s.heap[cur.ptr].value]));
  }

  lemma PushStepKeepsInv(s: State, v: View, t: Tid, spurious: bool)
    requires Inv(s, v) && t in s.pc && s.pc[t].Pushing?
    ensures Inv(GoStep(s, t, spurious), GoView(s, v, t, spurious))
  {
    assert ThreadOk(s, v, t);
    if CasSucceeds(s.head, s.heap[s.pc[t].node].next, spurious) {
      PushKeepsInv(s, v, t);
    } else {
      PushRetryKeepsInv(s, v, t);
    }
  }

  lemma GoKeepsInv(s: State, v: View, t: Tid, spurious: bool)
    requires Inv(s, v) && t in s.pc && !Miscounts(s, Go(t, spurious))
    ensures Inv(GoStep(s, t, spurious), GoView(s, v, t, spurious))
  {
    match s.pc[t]
    case Pushing(_) => PushStepKeepsInv(s, v, t, spurious);
    case PopLoading => PopStepKeepsInv(s, v, t, spurious);
    case PopAcquiring(_) => PopStepKeepsInv(s, v, t, spurious);
    case PopReading(_) => PopStepKeepsInv(s, v, t, spurious);
    case PopSwinging(_, _) => PopStepKeepsInv(s, v, t, spurious);
    case PopTaking(_) => PopStepKeepsInv(s, v, t, spurious);
    case PopSettling(_, _) => PopSettleStepKeepsInv(s, v, t, spurious);
    case PopReleasing(_) => PopReleaseStepKeepsInv(s, v, t, spurious);
    case ConsumeSettling(_, _, _) => ConsumeSettleStepKeepsInv(s, v, t, spurious);
    case PopDeleting(_, _) => DeleteStepKeepsInv(s, v, t, spurious);
    case PopRedeleting(_) => DeleteStepKeepsInv(s, v, t, spurious);
    case ConsumeDeleting(_, _, _) => DeleteStepKeepsInv(s, v, t, spurious);
    case ConsumeLoading => ConsumeStepKeepsInv(s, v, t, spurious);
    case ConsumeSwinging(_) => ConsumeStepKeepsInv(s, v, t, spurious);
    case ConsumeReading(_, _) => ConsumeStepKeepsInv(s, v, t, spurious);
    case ConsumeTaking(_, _, _) => ConsumeStepKeepsInv(s, v, t, spurious);
    case EmptyLoading =>
      assert ThreadOk(s, v, t);
      MoveKeepsInv(s, v, t, NULL, EmptyDone(s.head.IsNull()));
    case _ =>
  }

  lemma CallKeepsInv(s: State, v: View, t: Tid, op: Op)
    requires Inv(s, v) && t in s.pc
    ensures Inv(CallStep(s, t, op), StepView(s, v, Call(t, op)))
  {
    assert ThreadOk(s, v, t);
    if s.pc[t] == Idle {
      match op
      case Push(value, node) => if node != NULL && node !in s.heap { AllocKeepsInv(s, v, t, value, node); }
      case TryPop => MoveKeepsInv(s, v, t, NULL, PopLoading);
      case ConsumeAll => MoveKeepsInv(s, v, t, NULL, ConsumeLoading);
      case IsEmpty => MoveKeepsInv(s, v, t, NULL, EmptyLoading);
    }
  }

  /** Every action of every operation keeps the invariant, unless it miscounts. */
  lemma StepKeepsInv(s: State, v: View, e: Event)
    requires Inv(s, v) && !Miscounts(s, e)
    ensures Inv(Step(s, e), StepView(s, v, e))
  {
    if e.t in s.pc {
      match e
      case Call(t, op) => CallKeepsInv(s, v, t, op);
      case Go(t, spurious) => GoKeepsInv(s, v, t, spurious);
      case Return(t) =>
        assert ThreadOk(s, v, t);
        if Returnable(s.pc[t]) { MoveKeepsInv(s, v, t, NULL, Idle); }
    }
  }
}
