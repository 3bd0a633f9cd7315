/**
 The FIFO mutex shared by coroutines of several workers: a spin guard around an intrusive
 list of waiters, and direct hand-off of ownership to the oldest of them. Every access to
 shared memory is one step, and steps of different coroutines interleave in any way.
 */
module WorkerMutex {
  /** A pointer to the waiter record inside a coroutine's frame. */
  datatype Ptr = Null | At(waiter: nat)

  /** Where a coroutine is in AcquireOrQueue, Unlock or await_resume. */
  datatype Pc =
    | Idle
    | SpinToAcquire
    | TestHeld
    | TakeHeld
    | LinkWaiter
    | SetTail
    | LeaveAcquire(won: bool)
    | Suspended
    | Scheduled
    | Synchronize
    | Owning
    | SpinToUnlock
    | ReadHead
    | ClearHeld
    | LeaveUnlock
    | AdvanceHead(wake: nat)
    | FixTail(wake: nat)
    | LeaveHandoff(wake: nat)
    | Wake(wake: nat)

  datatype Guard = Unlocked | LockedBy(holder: nat)

  datatype Owner = NoOwner | OwnedBy(who: nat)

  /** A hand-off under way: from has moved the head past to and has not resumed it yet. */
  datatype Handoff = NoHandoff | Handing(giver: nat, taker: nat)

  /** The shared memory, each coroutine's position, and the history the proofs talk about. */
  datatype State = State(
    guard: Guard, held: bool, head: Ptr, tail: Ptr, next: map<nat, Ptr>, pcs: seq<Pc>,
    queue: seq<nat>, owner: Owner, handoff: Handoff, arrivals: seq<nat>, grants: seq<nat>, resumed: seq<nat>)

  predicate HoldsGuard(pc: Pc) {
    || pc.TestHeld? || pc.TakeHeld? || pc.LinkWaiter? || pc.SetTail? || pc.LeaveAcquire? || pc.Synchronize?
    || pc.ReadHead? || pc.ClearHeld? || pc.LeaveUnlock? || pc.AdvanceHead? || pc.FixTail? || pc.LeaveHandoff?
  }

  predicate HoldsMutex(pc: Pc) {
    || pc == LeaveAcquire(true) || pc.Scheduled? || pc.Synchronize? || pc.Owning? || pc.SpinToUnlock? || pc.ReadHead?
    || pc.ClearHeld? || pc.AdvanceHead?
  }

  /** The coroutine's waiter record is initialised and not yet in the list. */
  predicate Arriving(pc: Pc) { pc.SpinToAcquire? || pc.TestHeld? || pc.LinkWaiter? || pc.SetTail? }

  predicate Spins(pc: Pc) { pc.SpinToAcquire? || pc.SpinToUnlock? || pc.Scheduled? }

  /** A spinning coroutine may only step once the guard is free. */
  predicate Enabled(s: State, i: nat) {
    && i < |s.pcs| && !s.pcs[i].Suspended?
    && (Spins(s.pcs[i]) ==> s.guard.Unlocked?)
    && (s.pcs[i].LinkWaiter? && s.tail.At? ==> s.tail.waiter in s.next)
    && (s.pcs[i].AdvanceHead? ==> s.pcs[i].wake in s.next)
    && (s.pcs[i].Wake? ==> s.pcs[i].wake < |s.pcs|)
  }

  function Goto(s: State, i: nat, pc: Pc): State
    requires i < |s.pcs|
  {
    s.(pcs := s.pcs[i := pc])
  }

  /** The next access coroutine i makes. */
  function Step(s: State, i: nat): State
    requires Enabled(s, i)
  {
    match s.pcs[i]
    case Idle => Goto(s, i, SpinToAcquire).(next := s.next[i := Null])
    case SpinToAcquire => Goto(s, i, TestHeld).(guard := LockedBy(i))
    case TestHeld => Goto(s, i, if s.held then LinkWaiter else TakeHeld)
    case TakeHeld => Goto(s, i, LeaveAcquire(true)).(held := true, owner := OwnedBy(i))
    case LinkWaiter =>
      if s.tail.Null? then Goto(s, i, SetTail).(head := At(i))
      else Goto(s, i, SetTail).(next := s.next[s.tail.waiter := At(i)])
    case SetTail => Goto(s, i, LeaveAcquire(false)).(tail := At(i), queue := s.queue + [i], arrivals := s.arrivals + [i])
    case LeaveAcquire(won) => Goto(s, i, if won then Owning else Suspended).(guard := Unlocked)
    case Suspended => s
    case Scheduled => Goto(s, i, Synchronize).(guard := LockedBy(i))
    case Synchronize => Goto(s, i, Owning).(guard := Unlocked)
    case Owning => Goto(s, i, SpinToUnlock)
    case SpinToUnlock => Goto(s, i, ReadHead).(guard := LockedBy(i))
    case ReadHead => Goto(s, i, if s.head.Null? then ClearHeld else AdvanceHead(s.head.waiter))
    case ClearHeld => Goto(s, i, LeaveUnlock).(held := false, owner := NoOwner)
    case LeaveUnlock => Goto(s, i, Idle).(guard := Unlocked)
    case AdvanceHead(w) =>
      Goto(s, i, FixTail(w)).(head := s.next[w], owner := OwnedBy(w), handoff := Handing(i, w),
                              queue := if s.queue == [] then [] else s.queue[1..], grants := s.grants + [w])
    case FixTail(w) => Goto(s, i, LeaveHandoff(w)).(tail := if s.head.Null? then Null else s.tail)
    case LeaveHandoff(w) => Goto(s, i, Wake(w)).(guard := Unlocked)
    case Wake(w) => Goto(Goto(s, w, Scheduled), i, Idle).(handoff := NoHandoff, resumed := s.resumed + [w])
  }

  // ---------------------------------------------------------------- the invariant

  /** The records reachable from p, in order. */
  ghost predicate Chain(next: map<nat, Ptr>, p: Ptr, list: seq<nat>)
    decreases |list|
  {
    if list == [] then p == Null else p == At(list[0]) && list[0] in next && Chain(next, next[list[0]], list[1..])
  }

  function Last(list: seq<nat>): Ptr { if list == [] then Null else At(list[|list| - 1]) }

  /** The intrusive list is the queue, except while its guard holder is halfway through a change. */
  ghost predicate ListOk(s: State) {
    match s.guard
    case LockedBy(i) =>
      if i < |s.pcs| && s.pcs[i].SetTail? then Chain(s.next, s.head, s.queue + [i]) && s.tail == Last(s.queue)
      else if i < |s.pcs| && s.pcs[i].FixTail?
      then Chain(s.next, s.head, s.queue) && (s.queue != [] ==> s.tail == Last(s.queue))
      else Chain(s.next, s.head, s.queue) && s.tail == Last(s.queue)
    case Unlocked => Chain(s.next, s.head, s.queue) && s.tail == Last(s.queue)
  }

  ghost predicate ThreadOk(s: State, i: nat)
    requires i < |s.pcs|
  {
    var pc := s.pcs[i];
    && (HoldsGuard(pc) <==> s.guard == LockedBy(i))
    && (HoldsMutex(pc) ==> s.owner == OwnedBy(i))
    && (s.owner == OwnedBy(i) ==> HoldsMutex(pc) || (pc.Suspended? && s.handoff.Handing? && s.handoff.taker == i))
    && (i in s.queue ==> pc.Suspended? || pc == LeaveAcquire(false))
    && (pc == LeaveAcquire(false) ==> i in s.queue)
    && (pc.Suspended? ==> i in s.queue || s.owner == OwnedBy(i))
    && (pc.TakeHeld? ==> !s.held) && (pc.LinkWaiter? || pc.SetTail? ==> s.held)
    && (pc.ClearHeld? ==> s.queue == []) && (pc.AdvanceHead? ==> s.queue != [] && s.queue[0] == pc.wake)
    && (pc.FixTail? || pc.LeaveHandoff? || pc.Wake? ==> s.handoff == Handing(i, pc.wake))
    && (Arriving(pc) ==> i in s.next && s.next[i].Null?)
  }

  ghost predicate HandoffOk(s: State) {
    s.handoff.Handing? ==>
      && s.handoff.giver < |s.pcs| && s.handoff.taker < |s.pcs| && s.handoff.giver != s.handoff.taker
      && s.owner == OwnedBy(s.handoff.taker) && s.pcs[s.handoff.taker].Suspended? && s.handoff.taker !in s.queue
      && s.pcs[s.handoff.giver] in {FixTail(s.handoff.taker), LeaveHandoff(s.handoff.taker), Wake(s.handoff.taker)}
  }

  ghost predicate QueueOk(queue: seq<nat>, n: nat) {
    (forall i, j | 0 <= i < j < |queue| :: queue[i] != queue[j]) && (forall i | 0 <= i < |queue| :: queue[i] < n)
  }

  ghost predicate Books(s: State) {
    && (s.held <==> s.owner.OwnedBy?) && (!s.held ==> s.queue == [])
    && s.arrivals == s.grants + s.queue
    && s.grants == s.resumed + (if s.handoff.Handing? then [s.handoff.taker] else [])
    && QueueOk(s.queue, |s.pcs|)
    && (s.guard.LockedBy? ==> s.guard.holder < |s.pcs|) && (s.owner.OwnedBy? ==> s.owner.who < |s.pcs|)
  }

  ghost predicate Inv(s: State) {
    ListOk(s) && HandoffOk(s) && Books(s) && forall i | 0 <= i < |s.pcs| :: ThreadOk(s, i)
  }

  // ---------------------------------------------------------------- what every step keeps

  lemma {:induction false} ChainFrame(next: map<nat, Ptr>, next': map<nat, Ptr>, p: Ptr, list: seq<nat>)
    requires Chain(next, p, list)
    requires forall k | k in list && k in next :: k in next' && next'[k] == next[k]
    ensures Chain(next', p, list)
    decreases |list|
  {
    if list != [] { ChainFrame(next, next', next[list[0]], list[1..]); }
  }

  /** Linking a record behind the last one. */
  lemma {:induction false} ChainAppend(next: map<nat, Ptr>, p: Ptr, list: seq<nat>, i: nat)
    requires Chain(next, p, list) && list != [] && i !in list && i in next && next[i].Null?
    requires forall a, b | 0 <= a < b < |list| :: list[a] != list[b]
    ensures Chain(next[list[|list| - 1] := At(i)], p, list + [i])
    decreases |list|
  {
    var next' := next[list[|list| - 1] := At(i)];
    assert (list + [i])[1..] == list[1..] + [i];
    if |list| > 1 {
      ChainAppend(next, next[list[0]], list[1..], i);
    } else {
      assert Chain(next', At(i), [i]);
    }
  }

  /** The step changes nothing the other coroutines' positions depend on. */
  ghost predicate Private(s: State, t: State, i: nat) {
    && i < |s.pcs| && |t.pcs| == |s.pcs| && (forall k | 0 <= k < |s.pcs| && k != i :: t.pcs[k] == s.pcs[k])
    && t.queue == s.queue && t.owner == s.owner && t.held == s.held && t.handoff == s.handoff
    && (t.guard == s.guard || (s.guard == LockedBy(i) && t.guard.Unlocked?) || (s.guard.Unlocked? && t.guard == LockedBy(i)))
    && (forall k | 0 <= k < |s.pcs| && k != i && Arriving(s.pcs[k]) && k in s.next ::
         k in t.next && t.next[k] == s.next[k])
  }

  lemma Bystanders(s: State, t: State, i: nat)
    requires (forall k | 0 <= k < |s.pcs| :: ThreadOk(s, k)) && Private(s, t, i) && ThreadOk(t, i)
    ensures forall k | 0 <= k < |t.pcs| :: ThreadOk(t, k)
  {
    forall k | 0 <= k < |t.pcs| ensures ThreadOk(t, k) {
      assert ThreadOk(s, k);
    }
  }

  predicate MovesIn(pc: Pc) {
    pc.SpinToAcquire? || pc.TestHeld? || pc.LeaveAcquire? || pc.Scheduled? || pc.Synchronize?
  }

  predicate MovesOut(pc: Pc) {
    pc.Owning? || pc.SpinToUnlock? || pc.ReadHead? || pc.LeaveUnlock? || pc.LeaveHandoff?
  }

  /** Steps that only move a coroutine or its hold on the guard. */
  predicate Moves(pc: Pc) { MovesIn(pc) || MovesOut(pc) }

  lemma MovePrivate(s: State, i: nat)
    requires Enabled(s, i) && Moves(s.pcs[i]) && ThreadOk(s, i)
    ensures Private(s, Step(s, i), i)
  {
  }

  lemma MoveIn(s: State, i: nat)
    requires Enabled(s, i) && MovesIn(s.pcs[i]) && ThreadOk(s, i)
    ensures ThreadOk(Step(s, i), i)
  {
  }

  lemma MoveOut(s: State, i: nat)
    requires Enabled(s, i) && MovesOut(s.pcs[i]) && ThreadOk(s, i)
    requires s.pcs[i].ReadHead? ==> s.head == if s.queue == [] then Null else At(s.queue[0])
    ensures ThreadOk(Step(s, i), i)
  {
  }

  lemma MoveList(s: State, i: nat)
    requires Inv(s) && Enabled(s, i) && Moves(s.pcs[i])
    ensures ListOk(Step(s, i))
  {
    assert ThreadOk(s, i);
  }

  lemma MoveHandoff(s: State, i: nat)
    requires HandoffOk(s) && Enabled(s, i) && Moves(s.pcs[i]) && ThreadOk(s, i)
    ensures HandoffOk(Step(s, i))
  {
  }

  /** The place and the guard such a step leaves; nothing else changes. */
  lemma MoveIs(s: State, i: nat) returns (pc: Pc, guard: Guard)
    requires Enabled(s, i) && Moves(s.pcs[i])
    ensures Step(s, i) == Goto(s, i, pc).(guard := guard)
    ensures guard == s.guard || guard == Unlocked || guard == LockedBy(i)
  {
    match s.pcs[i]
    case SpinToAcquire => pc, guard := TestHeld, LockedBy(i);
    case TestHeld => pc, guard := if s.held then LinkWaiter else TakeHeld, s.guard;
    case LeaveAcquire(won) => pc, guard := if won then Owning else Suspended, Unlocked;
    case Scheduled => pc, guard := Synchronize, LockedBy(i);
    case Synchronize => pc, guard := Owning, Unlocked;
    case Owning => pc, guard := SpinToUnlock, s.guard;
    case SpinToUnlock => pc, guard := ReadHead, LockedBy(i);
    case ReadHead => pc, guard := if s.head.Null? then ClearHeld else AdvanceHead(s.head.waiter), s.guard;
    case LeaveUnlock => pc, guard := Idle, Unlocked;
    case LeaveHandoff(w) => pc, guard := Wake(w), Unlocked;
  }

  lemma GotoBooks(s: State, i: nat, pc: Pc, guard: Guard)
    requires Books(s) && i < |s.pcs| && (guard == s.guard || guard == Unlocked || guard == LockedBy(i))
    ensures Books(Goto(s, i, pc).(guard := guard))
  {
  }

  lemma MoveBooks(s: State, i: nat)
    requires Books(s) && Enabled(s, i) && Moves(s.pcs[i])
    ensures Books(Step(s, i))
  {
    var pc, guard := MoveIs(s, i);
    GotoBooks(s, i, pc, guard);
  }

  lemma MoveKeeps(s: State, i: nat)
    requires Inv(s) && Enabled(s, i) && Moves(s.pcs[i])
    ensures Inv(Step(s, i))
  {
    var t := Step(s, i);
    assert ThreadOk(s, i);
    MovePrivate(s, i);
    if MovesIn(s.pcs[i]) { MoveIn(s, i); } else { MoveOut(s, i); }
    MoveList(s, i);
    MoveHandoff(s, i);
    MoveBooks(s, i);
    Bystanders(s, t, i);
  }

  lemma IdleKeeps(s: State, i: nat)
    requires Inv(s) && Enabled(s, i) && s.pcs[i].Idle?
    ensures Inv(Step(s, i))
  {
    var t := Step(s, i);
    assert ThreadOk(s, i);
    if s.guard.LockedBy? && s.guard.holder < |s.pcs| && s.pcs[s.guard.holder].SetTail? {
      ChainFrame(s.next, t.next, s.head, s.queue + [s.guard.holder]);
    } else {
      ChainFrame(s.next, t.next, s.head, s.queue);
    }
    Bystanders(s, t, i);
  }

  lemma TakeKeeps(s: State, i: nat)
    requires Inv(s) && Enabled(s, i) && s.pcs[i].TakeHeld?
    ensures Inv(Step(s, i))
  {
    var t := Step(s, i);
    assert ThreadOk(s, i);
    forall k | 0 <= k < |t.pcs| ensures ThreadOk(t, k) { assert ThreadOk(s, k); }
  }

  lemma LinkList(s: State, i: nat)
    requires Inv(s) && Enabled(s, i) && s.pcs[i].LinkWaiter?
    ensures ListOk(Step(s, i))
  {
    assert ThreadOk(s, i);
    if s.queue == [] {
      assert Chain(Step(s, i).next, At(i), [i]);
      assert s.queue + [i] == [i];
    } else {
      ChainAppend(s.next, s.head, s.queue, i);
    }
  }

  lemma LinkKeeps(s: State, i: nat)
    requires Inv(s) && Enabled(s, i) && s.pcs[i].LinkWaiter?
    ensures Inv(Step(s, i))
  {
    assert ThreadOk(s, i);
    LinkList(s, i);
    if s.queue != [] {
      assert s.queue[|s.queue| - 1] in s.queue;
      assert ThreadOk(s, s.tail.waiter);
    }
    Bystanders(s, Step(s, i), i);
  }

  lemma SetTailKeeps(s: State, i: nat)
    requires Inv(s) && Enabled(s, i) && s.pcs[i].SetTail?
    ensures Inv(Step(s, i))
  {
    var t := Step(s, i);
    assert ThreadOk(s, i);
    forall k | 0 <= k < |t.pcs| ensures ThreadOk(t, k) { assert ThreadOk(s, k); }
  }

  lemma ClearKeeps(s: State, i: nat)
    requires Inv(s) && Enabled(s, i) && s.pcs[i].ClearHeld?
    ensures Inv(Step(s, i))
  {
    var t := Step(s, i);
    assert ThreadOk(s, i);
    forall k | 0 <= k < |t.pcs| ensures ThreadOk(t, k) { assert ThreadOk(s, k); }
  }

  lemma QueueTail(queue: seq<nat>, n: nat)
    requires QueueOk(queue, n) && queue != []
    ensures QueueOk(queue[1..], n) && queue[0] !in queue[1..]
  {
  }

  lemma HistoryTail(arrivals: seq<nat>, grants: seq<nat>, queue: seq<nat>)
    requires arrivals == grants + queue && queue != []
    ensures arrivals == (grants + [queue[0]]) + queue[1..]
  {
  }

  lemma AdvanceBooks(s: State, i: nat)
    requires Books(s) && Enabled(s, i) && s.pcs[i].AdvanceHead? && s.handoff.NoHandoff?
    requires s.queue != [] && s.queue[0] == s.pcs[i].wake && s.held
    ensures Books(Step(s, i))
  {
    QueueTail(s.queue, |s.pcs|);
    HistoryTail(s.arrivals, s.grants, s.queue);
    assert s.grants == s.resumed;
  }

  lemma AdvanceKeeps(s: State, i: nat)
    requires Inv(s) && Enabled(s, i) && s.pcs[i].AdvanceHead?
    ensures Inv(Step(s, i))
  {
    var t, w := Step(s, i), s.pcs[i].wake;
    assert ThreadOk(s, i);
    assert w in s.queue;
    assert ThreadOk(s, w);
    assert s.handoff.NoHandoff?;
    AdvanceBooks(s, i);
    QueueTail(s.queue, |s.pcs|);
    forall k | 0 <= k < |t.pcs| ensures ThreadOk(t, k) { assert ThreadOk(s, k); }
  }

  lemma FixTailKeeps(s: State, i: nat)
    requires Inv(s) && Enabled(s, i) && s.pcs[i].FixTail?
    ensures Inv(Step(s, i))
  {
    var t := Step(s, i);
    assert ThreadOk(s, i);
    Bystanders(s, t, i);
  }

  lemma WakeKeeps(s: State, i: nat)
    requires Inv(s) && Enabled(s, i) && s.pcs[i].Wake?
    ensures Inv(Step(s, i))
  {
    var t, w := Step(s, i), s.pcs[i].wake;
    assert ThreadOk(s, i) && ThreadOk(s, w);
    forall k | 0 <= k < |t.pcs| ensures ThreadOk(t, k) { assert ThreadOk(s, k); }
  }

  lemma StepKeeps(s: State, i: nat)
    requires Inv(s) && Enabled(s, i)
    ensures Inv(Step(s, i))
  {
    match s.pcs[i]
    case Idle => IdleKeeps(s, i);
    case TakeHeld => TakeKeeps(s, i);
    case LinkWaiter => LinkKeeps(s, i);
    case SetTail => SetTailKeeps(s, i);
    case ClearHeld => ClearKeeps(s, i);
    case AdvanceHead(_) => AdvanceKeeps(s, i);
    case FixTail(_) => FixTailKeeps(s, i);
    case Wake(_) => WakeKeeps(s, i);
    case _ => MoveKeeps(s, i);
  }

  // ---------------------------------------------------------------- whole runs

  predicate Init(s: State) {
    && s.guard.Unlocked? && !s.held && s.head.Null? && s.tail.Null? && (forall i | 0 <= i < |s.pcs| :: s.pcs[i].Idle?)
    && s.queue == [] && s.owner.NoOwner? && s.handoff.NoHandoff?
    && s.arrivals == [] && s.grants == [] && s.resumed == []
  }

  ghost predicate IsRun(run: seq<State>, steps: seq<nat>) {
    && |run| == |steps| + 1 && Init(run[0])
    && forall i {:trigger steps[i]} | 0 <= i < |steps| :: Enabled(run[i], steps[i]) && run[i + 1] == Step(run[i], steps[i])
  }

  lemma {:induction false} RunKeeps(run: seq<State>, steps: seq<nat>, k: nat)
    requires IsRun(run, steps) && k < |run|
    ensures Inv(run[k])
  {
    if 0 < k {
      RunKeeps(run, steps, k - 1);
      StepKeeps(run[k - 1], steps[k - 1]);
    }
  }

  /** No two coroutines own the mutex, and the flag is clear only when nobody owns or awaits it. */
  lemma AtMostOneOwner(run: seq<State>, steps: seq<nat>, k: nat, i: nat, j: nat)
    requires IsRun(run, steps) && k < |run| && i < |run[k].pcs| && j < |run[k].pcs|
    requires HoldsMutex(run[k].pcs[i]) && HoldsMutex(run[k].pcs[j])
    ensures i == j && run[k].held
  {
    RunKeeps(run, steps, k);
    assert ThreadOk(run[k], i) && ThreadOk(run[k], j);
  }

  lemma FreeMeansNobodyWaits(run: seq<State>, steps: seq<nat>, k: nat)
    requires IsRun(run, steps) && k < |run| && !run[k].held
    ensures run[k].queue == []
    ensures forall i | 0 <= i < |run[k].pcs| :: !HoldsMutex(run[k].pcs[i]) && !run[k].pcs[i].Suspended?
  {
    RunKeeps(run, steps, k);
    forall i | 0 <= i < |run[k].pcs| ensures !HoldsMutex(run[k].pcs[i]) && !run[k].pcs[i].Suspended? {
      assert ThreadOk(run[k], i);
    }
  }

  /** Waiters are granted the mutex and resumed once each, in the order they joined the list;
      a newcomer takes it directly only when nobody waits. */
  lemma GrantsInOrder(run: seq<State>, steps: seq<nat>, k: nat)
    requires IsRun(run, steps) && k < |run|
    ensures run[k].resumed <= run[k].grants <= run[k].arrivals && |run[k].grants| <= |run[k].resumed| + 1
    ensures run[k].arrivals == run[k].grants + run[k].queue
    ensures k < |steps| && run[k].pcs[steps[k]].TakeHeld? ==> run[k].grants == run[k].arrivals
  {
    RunKeeps(run, steps, k);
    if k < |steps| { assert ThreadOk(run[k], steps[k]); }
  }

  /** Whenever the guard is free, the linked records are exactly the waiting coroutines in order. */
  lemma ListIsQueue(run: seq<State>, steps: seq<nat>, k: nat)
    requires IsRun(run, steps) && k < |run| && run[k].guard.Unlocked?
    ensures Chain(run[k].next, run[k].head, run[k].queue) && run[k].tail == Last(run[k].queue)
    ensures forall i | 0 <= i < |run[k].pcs| ::
      i in run[k].queue <==> run[k].pcs[i].Suspended? && run[k].owner != OwnedBy(i)
  {
    RunKeeps(run, steps, k);
    forall i | 0 <= i < |run[k].pcs|
      ensures i in run[k].queue <==> run[k].pcs[i].Suspended? && run[k].owner != OwnedBy(i)
    {
      assert ThreadOk(run[k], i);
    }
  }

  predicate Asleep(s: State, w: nat) { w < |s.pcs| && s.pcs[w].Suspended? }

  /** Every record that is followed belongs to a coroutine that still waits: the one a newcomer
      links behind, the one ownership is handed to, and the one that is resumed. Waiting in the
      list or being handed the mutex, its frame is alive; so only the guard makes anyone wait. */
  lemma NeverDangles(run: seq<State>, steps: seq<nat>, k: nat, i: nat)
    requires IsRun(run, steps) && k < |run| && i < |run[k].pcs|
    ensures var s, pc := run[k], run[k].pcs[i];
      && (pc.LinkWaiter? && s.tail.At? ==> s.tail.waiter in s.queue && s.tail.waiter in s.next)
      && (pc.AdvanceHead? ==> pc.wake in s.queue && pc.wake in s.next && Asleep(s, pc.wake))
      && (pc.Wake? ==> Asleep(s, pc.wake) && s.owner == OwnedBy(pc.wake))
    ensures !run[k].pcs[i].Suspended? && (Spins(run[k].pcs[i]) ==> run[k].guard.Unlocked?) ==> Enabled(run[k], i)
  {
    RunKeeps(run, steps, k);
    var s := run[k];
    assert ThreadOk(s, i);
    if s.pcs[i].LinkWaiter? && s.queue != [] { ChainHas(s.next, s.head, s.queue, |s.queue| - 1); }
    if s.pcs[i].AdvanceHead? {
      assert s.pcs[i].wake in s.queue;
      assert ThreadOk(s, s.pcs[i].wake);
    }
  }

  lemma {:induction false} ChainHas(next: map<nat, Ptr>, p: Ptr, list: seq<nat>, i: nat)
    requires Chain(next, p, list) && i < |list|
    ensures list[i] in next
    decreases |list|
  {
    if 0 < i { ChainHas(next, next[list[0]], list[1..], i - 1); }
  }
}
