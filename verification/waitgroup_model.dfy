/**
  A wait group (wait_group.h) over its one-shot event (oneshotevent.h), as a step
  machine. A waiting fiber's awaiter goes by the fiber's name. The object may be
  destroyed as soon as a Wait has returned and nobody is inside Wait any more,
  even while the one who fired is still inside Done.
 */
module WaitGroupModel {

  const SIZE_T: nat := 0x1_0000_0000_0000_0000      // 2^64

  type Size = x: nat | x < SIZE_T
  type Fid = x: nat | x < 0x8000_0000_0000          // fibers are objects at 47-bit addresses

  const NULL: Fid := 0

  /** `state_` of the event. */
  datatype Word = NoWaiters | Signaled | WaitNode(node: Fid)

  datatype Pc =
    | Idle
    // WaitAsync, TryEnqueue
    | Reading
    | Loading
    | Pushing(expected: Word)
    | Parked
    | Woken
    // Done
    | Decrementing
    // FireImpl, CreateWaiterList
    | Firing
    | Exchanging
    | Building(cur: Fid, list: seq<Fid>)
    | Scheduling(list: seq<Fid>)

  /**
    `owed` counts the Dones still to be called; `enqueued` and `scheduled` log the
    waiters, oldest first; `zeroed` says that the count has come to zero and
    `rearmed` that somebody added to it after that; `returned` holds whoever has
    come back from Wait.
   */
  datatype State = State(
    counter: Size, word: Word, next: map<Fid, Fid>, alive: bool, pc: map<Fid, Pc>,
    owed: nat, enqueued: seq<Fid>, scheduled: seq<Fid>,
    zeroed: bool, rearmed: bool, returned: set<Fid>, fault: bool)

  datatype Event =
    | Add(count: nat)
    | Done(f: Fid)
    | Wait(f: Fid)
    | Destroy
    | Go(f: Fid)

  function Init(fibers: set<Fid>): State {
    State(0, NoWaiters, map[], true, map f | f in fibers :: Idle, 0, [], [], false, false, {}, false)
  }

  function At(s: State, f: Fid, p: Pc): State { s.(pc := s.pc[f := p]) }

  function NextOf(s: State, a: Fid): Fid { if a in s.next then s.next[a] else NULL }

  predicate InWait(p: Pc) { p.Reading? || p.Loading? || p.Pushing? || p.Parked? || p.Woken? }

  /** The fiber is about to access a member of the wait group. */
  predicate Touches(p: Pc) {
    p.Reading? || p.Loading? || p.Pushing? || p.Decrementing? || p.Firing? || p.Exchanging?
  }

  function AddStep(s: State, count: nat): State {
    if s.alive && s.counter + count < SIZE_T
    then s.(counter := s.counter + count, owed := s.owed + count, rearmed := s.rearmed || (s.zeroed && count > 0))
    else s
  }

  function DestroyStep(s: State): State {
    if s.alive && s.returned != {} && forall f | f in s.pc :: !InWait(s.pc[f]) then s.(alive := false) else s
  }

  function ReturnStep(s: State, f: Fid): State { At(s.(returned := s.returned + {f}), f, Idle) }

  function PushStep(s: State, f: Fid, expected: Word): State {
    var linked := s.(next := s.next[f := if expected.WaitNode? then expected.node else NULL]);
    if s.word == expected then At(linked.(word := WaitNode(f), enqueued := s.enqueued + [f]), f, Parked)
    else At(linked, f, Loading)
  }

  /** Done: one less; whoever takes the count from one to zero goes on to fire the event. */
  function DecrementStep(s: State, f: Fid): State {
    At(s.(counter := (s.counter - 1) % SIZE_T, zeroed := s.zeroed || s.counter == 1), f, if s.counter == 1 then Firing else Idle)
  }

  function FireStep(s: State, f: Fid): State {
    match s.word
    case NoWaiters => At(s.(word := Signaled), f, Idle)
    case Signaled => At(s, f, Idle)
    case WaitNode(_) => At(s, f, Exchanging)
  }

  /** The exchange had better return the address of an awaiter. */
  function ExchangeStep(s: State, f: Fid): State {
    if s.word.WaitNode? then At(s.(word := Signaled), f, Building(s.word.node, [])) else s.(fault := true)
  }

  /** An awaiter exists as long as its fiber is suspended on it. */
  predicate AwaiterAlive(s: State, n: Fid) { n in s.pc && s.pc[n] == Parked }

  /** One turn of CreateWaiterList. */
  function BuildStep(s: State, f: Fid, cur: Fid, list: seq<Fid>): State {
    if cur == NULL then At(s, f, Scheduling(list))
    else if !AwaiterAlive(s, cur) then s.(fault := true)
    else At(s, f, Building(NextOf(s, cur), list + [cur]))
  }

  /** PopFront, then Schedule. */
  function ScheduleStep(s: State, f: Fid, list: seq<Fid>): State {
    if list == [] then At(s, f, Idle)
    else if !AwaiterAlive(s, list[0]) then s.(fault := true)
    else At(At(s.(scheduled := s.scheduled + [list[0]]), list[0], Woken), f, Scheduling(list[1..]))
  }

  function GoStep(s: State, f: Fid): State
    requires f in s.pc
  {
    if Touches(s.pc[f]) && !s.alive then s.(fault := true)
    else match s.pc[f]
      case Reading => if s.word == Signaled then ReturnStep(s, f) else At(s, f, Loading)
      case Loading => if s.word == Signaled then ReturnStep(s, f) else At(s, f, Pushing(s.word))
      case Pushing(expected) => PushStep(s, f, expected)
      case Woken => ReturnStep(s, f)
      case Decrementing => DecrementStep(s, f)
      case Firing => FireStep(s, f)
      case Exchanging => ExchangeStep(s, f)
      case Building(cur, list) => BuildStep(s, f, cur, list)
      case Scheduling(list) => ScheduleStep(s, f, list)
      case _ => s                       // Idle, Parked
  }

  function Step(s: State, e: Event): State {
    if s.fault then s
    else match e
      case Add(count) => AddStep(s, count)
      case Done(f) =>
        if f in s.pc && s.pc[f] == Idle && s.alive && s.owed > 0 then At(s.(owed := s.owed - 1), f, Decrementing) else s
      case Wait(f) => if f in s.pc && f != NULL && s.pc[f] == Idle && s.alive then At(s, f, Reading) else s
      case Destroy => DestroyStep(s)
      case Go(f) => if f in s.pc then GoStep(s, f) else s
  }

  /**
    The two ways to misuse the object, as far as they show: to go for the exchange
    while another firing is about to make it, and to destroy the object under a
    Done or a firing that has yet to touch it.
   */
  predicate Misuse(s: State, e: Event) {
    match e
    case Go(f) =>
      && s.alive && f in s.pc && s.pc[f].Firing? && s.word.WaitNode?
      && exists g :: g in s.pc && g != f && s.pc[g].Exchanging?
    case Destroy => DestroyStep(s) != s && exists f :: f in s.pc && Touches(s.pc[f])
    case _ => false
  }

  predicate Misused(s: State, es: seq<Event>) {
    exists i :: 0 <= i < |es| && Misuse(Run(s, es[..i]), es[i])
  }

  function Run(s: State, es: seq<Event>): State {
    if es == [] then s else Step(Run(s, es[..|es| - 1]), es[|es| - 1])
  }
}
