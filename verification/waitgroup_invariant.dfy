/** Why a wait group wakes every waiter once, however often its count comes to zero. */
module WaitGroupInvariant {
  import opened Wrappers
  import opened Collections
  import opened WaitGroupModel

  /**
    `stack` hangs from the state word, `grabbed` from CreateWaiterList's cursor, both
    newest first. Several fibers may be firing at once, but only one ever gets the
    chain: the builder.
   */
  datatype View = View(stack: seq<Fid>, grabbed: seq<Fid>, builder: Option<Fid>)

  predicate IsDecrementing(p: Pc) { p.Decrementing? }

  /** Inside FireImpl, with the signal still to be given. */
  predicate IsSignalling(p: Pc) { p.Firing? || p.Exchanging? }

  predicate IsBuilding(p: Pc) { p.Building? || p.Scheduling? }

  function ListOf(p: Pc): seq<Fid> { if IsBuilding(p) then p.list else [] }

  function BuilderPc(s: State, v: View): Pc {
    if v.builder.Some? && v.builder.value in s.pc then s.pc[v.builder.value] else Idle
  }

  /** Everyone enqueued and not scheduled yet, in the order in which they will be. */
  function Waiting(s: State, v: View): seq<Fid> { ListOf(BuilderPc(s, v)) + v.grabbed + v.stack }

  ghost predicate ListsOk(s: State, v: View) {
    && (if s.word.WaitNode? then v.stack != [] && Linked(s.next, NULL, s.word.node, v.stack) else v.stack == [])
    && (if BuilderPc(s, v).Building? then Linked(s.next, NULL, BuilderPc(s, v).cur, v.grabbed) else v.grabbed == [])
    && s.scheduled + Waiting(s, v) == Reversed(s.enqueued)
    && Distinct(s.scheduled + Waiting(s, v))
  }

  predicate CountOk(s: State, v: View) {
    && s.counter == s.owed + |Where(s.pc, IsDecrementing)|
    && (s.word == Signaled ==> s.zeroed)
    && (v.builder.Some? ==> s.word == Signaled && v.builder.value in s.pc)
    && (s.zeroed && s.word != Signaled ==> |Where(s.pc, IsSignalling)| > 0)
    && (s.returned != {} || s.scheduled != [] || !s.alive ==> s.word == Signaled)
  }

  ghost predicate FiberOk(s: State, v: View, f: Fid)
    requires f in s.pc
  {
    && (IsBuilding(s.pc[f]) <==> v.builder == Some(f))
    && (s.pc[f].Parked? <==> f in Waiting(s, v))
    && (InWait(s.pc[f]) ==> f != NULL && s.alive)
    && (s.pc[f].Pushing? ==> s.pc[f].expected != Signaled)
    && (s.pc[f].Woken? ==> s.word == Signaled)
    && (IsSignalling(s.pc[f]) ==> s.zeroed)
    && (s.pc[f].Exchanging? ==> s.word != NoWaiters)
  }

  ghost predicate Whole(s: State, v: View) {
    && CountOk(s, v)
    && ListsOk(s, v)
    && (forall f | f in Waiting(s, v) :: f in s.pc)
  }

  ghost predicate Inv(s: State, v: View) {
    && Whole(s, v)
    && forall f {:trigger FiberOk(s, v, f)} | f in s.pc :: FiberOk(s, v, f)
  }

  // ---- what an action leaves alone ----

  ghost predicate Confined(s: State, v: View, s': State, v': View, fs: set<Fid>) {
    && s'.pc.Keys == s.pc.Keys
    && (forall g | g in s.pc && g !in fs :: s'.pc[g] == s.pc[g])
    && (forall g | g !in fs :: v'.builder == Some(g) <==> v.builder == Some(g))
    && (forall g | g !in fs :: g in Waiting(s', v') <==> g in Waiting(s, v))
    && s'.alive == s.alive
    && (s.word == Signaled ==> s'.word == Signaled) && (s.word != NoWaiters ==> s'.word != NoWaiters)
    && (s.zeroed ==> s'.zeroed)
  }

  lemma Concludes(s: State, v: View, s': State, v': View, fs: set<Fid>)
    requires Inv(s, v) && Confined(s, v, s', v', fs) && Whole(s', v')
    requires forall f | f in fs && f in s'.pc :: FiberOk(s', v', f)
    ensures Inv(s', v')
  {
    forall g | g in s'.pc && g !in fs
      ensures FiberOk(s', v', g)
    {
      assert FiberOk(s, v, g);
    }
  }

  lemma Known(s: State, v: View, f: Fid)
    requires Inv(s, v) && f in s.pc
    ensures Whole(s, v) && FiberOk(s, v, f)
  {
  }

  /** How the numbers of those decrementing and of those about to signal move with one fiber. */
  lemma CountMoves(s: State, f: Fid, p: Pc)
    requires f in s.pc
    ensures |Where(s.pc[f := p], IsDecrementing)|
      == |Where(s.pc, IsDecrementing)| - (if s.pc[f].Decrementing? then 1 else 0) + (if p.Decrementing? then 1 else 0)
    ensures s.pc[f].Decrementing? ==> |Where(s.pc, IsDecrementing)| > 0
    ensures |Where(s.pc[f := p], IsSignalling)|
      == |Where(s.pc, IsSignalling)| - (if IsSignalling(s.pc[f]) then 1 else 0) + (if IsSignalling(p) then 1 else 0)
    ensures IsSignalling(s.pc[f]) ==> |Where(s.pc, IsSignalling)| > 0
  {
    WhereStep(s.pc, IsDecrementing, f, p);
    WhereStep(s.pc, IsSignalling, f, p);
  }

  /** A fiber outside Fire and Done moves on; counter, lists and word stay as they are. */
  lemma MovesAlone(s: State, v: View, s': State, f: Fid)
    requires Inv(s, v) && f in s.pc && f in s'.pc
    requires s' == s.(pc := s.pc[f := s'.pc[f]], owed := s'.owed, returned := s'.returned)
    requires !IsBuilding(s.pc[f]) && !IsBuilding(s'.pc[f]) && !s.pc[f].Parked? && !s'.pc[f].Parked?
    requires !IsSignalling(s.pc[f]) && !IsSignalling(s'.pc[f])
    requires !s.pc[f].Decrementing? && s'.owed + (if s'.pc[f].Decrementing? then 1 else 0) == s.owed
    requires s'.returned != {} ==> s.word == Signaled
    requires FiberOk(s', v, f)
    ensures Inv(s', v)
  {
    Known(s, v, f);
    CountMoves(s, f, s'.pc[f]);
    hide Inv, FiberOk;
    assert Waiting(s', v) == Waiting(s, v);
    Concludes(s, v, s', v, {f});
  }
}
