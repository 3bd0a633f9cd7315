/**
 The cross-core messaging and parking protocol, one atomic load, store or
 read-modify-write per step, over any number of workers and foreign threads.

 Every worker is a receiver of its own mailbox and a producer for every mailbox,
 its own included. A worker runs one thread, but a notification callback may post
 while a drain is running, so a worker carries two program counters: `send` for
 the post or wake flush in progress and `recv` for its drain and park section.
 A `recv` step waits until `send` is idle again, as a nested call would.
 */
module CrossCore {

  const PARKED: nat := 0x8000_0000
  const SEQ_MODULUS: nat := 0x1_0000_0000
  const RING_SLOTS: nat := 255
  const WORD_BITS: nat := 64

  datatype Kind = Request | Reply | Notification

  function Rank(k: Kind): nat {
    match k case Request => 0 case Reply => 1 case Notification => 2
  }

  /** Number of messages of each kind. */
  datatype Counts = Counts(requests: nat, replies: nat, notifications: nat) {
    function Get(k: Kind): nat {
      match k case Request => requests case Reply => replies case Notification => notifications
    }

    function Put(k: Kind, v: nat): Counts {
      match k
      case Request => this.(requests := v)
      case Reply => this.(replies := v)
      case Notification => this.(notifications := v)
    }
  }

  /** Everything one producer shares with one receiver: its SPSC lane, its messages
      in the receiver's overflow queues, the lane's active flag, the producer's bit in
      the receiver's bitmap, and the producer's own wake_pending entry. */
  datatype Link = Link(lane: Counts, overflow: Counts, active: bool, bit: bool, pend: nat) {
    ghost predicate Empty() {
      forall k: Kind :: lane.Get(k) == 0 && overflow.Get(k) == 0
    }
  }

  /** A receiver's mailbox words. `bumps` counts the fetch_adds since the owner's last
      snapshot or park, and `waker` is the last producer that read the parked sentinel. */
  datatype Box = Box(flag: bool, wakeSeq: nat, bumps: nat, signal: bool, waker: nat)

  datatype Send =
    | Idle
    | Enqueue(target: nat, kind: Kind)   // about to try the ring
    | Overflow(target: nat, kind: Kind)  // the ring refused
    | RaiseFlag(target: nat)             // overflow message queued, flag not yet stored
    | Mark(target: nat, queued: bool)    // about to run MarkWakeWorker
    | Publish(target: nat, flush: bool)  // about to exchange the active flag
    | SetBit(target: nat, flush: bool)   // owns the token, about to fetch_or the bitmap
    | Bump(target: nat)                  // about to fetch_add wake_seq
    | Wake(target: nat)                  // read the sentinel, about to wake the owner

  /** A drain in progress. `snap` is the park section's wake_seq snapshot, if any. */
  datatype Drain = Drain(snap: Snap, owed: set<Kind>, words: set<nat>, taken: set<nat>, got: bool)
  datatype Snap = NoSnap | Snap(value: nat)

  datatype Recv =
    | Running
    | Check(d: Drain)                     // about to load overflow_pending
    | TakeFlag(d: Drain)                  // about to exchange overflow_pending
    | Hub(d: Drain)                       // between micro-operations
    | StoreFlag(d: Drain)                 // a full overflow batch, about to raise the flag again
    | Visit(d: Drain, s: nat, k: Kind)    // about to dequeue kind k of sender s
    | Clear(d: Drain, s: nat)             // about to clear the active flag
    | Recheck(d: Drain, s: nat, k: Kind)  // about to test kind k for emptiness
    | Reactivate(d: Drain, s: nat)        // found work, about to exchange the flag back
    | ReactBit(d: Drain, s: nat)          // took the token back, about to fetch_or
    | Cas(value: nat)                     // nothing found, about to compare-exchange
    | Parked
    | Unpark                              // Wait returned, sentinel not yet cleared
  {
    predicate Draining() {
      !Running? && !Cas? && !Parked? && !Unpark?
    }

    /** In the park section with a live snapshot and nothing consumed. */
    predicate InPark() {
      Cas? || Parked? || (Draining() && d.snap.Snap? && !d.got)
    }

    function Snapshot(): nat
      requires InPark() && !Parked?
    {
      if Cas? then value else d.snap.value
    }
  }

  datatype Sys = Sys(n: nat, link: map<(nat, nat), Link>, send: seq<Send>, recv: seq<Recv>, box: seq<Box>)

  datatype Step =
    | StartPost(p: nat, t: nat, k: Kind)
    | StartForeign(p: nat, t: nat)
    | StartFlush(p: nat, t: nat)
    | SendStep(p: nat)
    | StartDrain(r: nat)
    | StartPark(r: nat)
    | DrainOverflow(r: nat, kind: Kind, left: map<nat, nat>, full: bool)
    | TakeWord(r: nat, word: nat)
    | BeginVisit(r: nat, s: nat)
    | Dequeue(r: nat, count: nat)
    | EndDrain(r: nat)
    | RecvStep(r: nat)

  // ---------------------------------------------------------------- the steps

  ghost predicate Shape(s: Sys) {
    && 0 < s.n <= |s.send|
    && |s.recv| == |s.box| == s.n
    && (forall r, p | 0 <= r < s.n && 0 <= p < |s.send| :: (r, p) in s.link)
    && (forall p | 0 <= p < |s.send| :: SendShape(s.send[p], p, s.n))
    && (forall r | 0 <= r < s.n :: RecvShape(s.recv[r], s.n))
  }

  predicate SendShape(send: Send, p: nat, n: nat) {
    && (send.Idle? || send.target < n)
    && (n <= p ==> send.Idle? || send.Overflow? || send.RaiseFlag? || send.Bump? || send.Wake?)
    && (send.Bump? || send.Wake? ==> send.target != p)
    && ((send.Publish? || send.SetBit?) && send.flush ==> send.target != p)
  }

  predicate RecvShape(recv: Recv, n: nat) {
    && (recv.Draining() ==> forall p | p in recv.d.taken :: p < n)
    && (recv.Visit? || recv.Clear? || recv.Recheck? || recv.Reactivate? || recv.ReactBit? ==> recv.s < n)
  }

  /** A worker posts from ordinary code, from a callback run while waiting, or from a
      notification callback of the drain in progress. */
  predicate MayPost(recv: Recv) {
    recv.Running? || recv.Unpark? || (recv.Draining() && recv.d.got)
  }

  const ALL_KINDS: set<Kind> := {Request, Reply, Notification}

  ghost function AllWords(n: nat): set<nat> {
    set p: nat | p < n :: p / WORD_BITS
  }

  function FreshDrain(snap: Snap, words: set<nat>): Drain {
    Drain(snap, {}, words, {}, false)
  }

  function NextKind(k: Kind): Kind {
    if k.Request? then Reply else Notification
  }

  ghost predicate Enabled(s: Sys, st: Step)
    requires Shape(s)
  {
    match st
    case StartPost(p, t, _) => p < s.n && t < s.n && s.send[p].Idle? && MayPost(s.recv[p])
    case StartForeign(p, t) => s.n <= p < |s.send| && t < s.n && s.send[p].Idle?
    case StartFlush(p, t) =>
      p < s.n && t < s.n && s.send[p].Idle? && s.recv[p].Running? && p != t && s.link[(t, p)].pend != 0
    case SendStep(p) =>
      && p < |s.send| && !s.send[p].Idle?
      // Fewer than 2^32 posts may land between the snapshot and its compare-exchange.
      && (s.send[p].Bump? && s.recv[s.send[p].target].InPark() && !s.recv[s.send[p].target].Parked? ==>
            s.box[s.send[p].target].bumps + 1 < SEQ_MODULUS)
    case StartDrain(r) => r < s.n && s.send[r].Idle? && s.recv[r].Running?
    case StartPark(r) =>
      && r < s.n && s.send[r].Idle? && s.recv[r].Running?
      && forall t | 0 <= t < s.n :: s.link[(t, r)].pend == 0
    case DrainOverflow(r, k, left, full) =>
      && r < s.n && s.send[r].Idle? && s.recv[r].Hub? && k in s.recv[r].d.owed
      && (forall p | 0 <= p < |s.send| :: p in left && left[p] <= s.link[(r, p)].overflow.Get(k))
      // A batch that leaves messages behind was full; an empty-handed first batch found nothing.
      && (!full ==> forall p | 0 <= p < |s.send| :: left[p] == 0)
      && (!s.recv[r].d.got ==> (exists p :: 0 <= p < |s.send| && 0 < s.link[(r, p)].overflow.Get(k)) ==>
            Removed(s, r, k, left))
    case TakeWord(r, w) => r < s.n && s.send[r].Idle? && s.recv[r].Hub? && w in s.recv[r].d.words
    case BeginVisit(r, p) => r < s.n && s.send[r].Idle? && s.recv[r].Hub? && p in s.recv[r].d.taken
    case Dequeue(r, c) =>
      && r < s.n && s.send[r].Idle? && s.recv[r].Visit?
      && c <= s.link[(r, s.recv[r].s)].lane.Get(s.recv[r].k)
      // The batch and quota limits withhold messages only after something was consumed.
      && (!s.recv[r].d.got && 0 < s.link[(r, s.recv[r].s)].lane.Get(s.recv[r].k) ==> 0 < c)
    case EndDrain(r) =>
      && r < s.n && s.send[r].Idle? && s.recv[r].Hub?
      && s.recv[r].d.owed == {} && s.recv[r].d.taken == {}
      && (s.recv[r].d.words == {} || s.recv[r].d.got)
    case RecvStep(r) =>
      && r < s.n && s.send[r].Idle?
      && !s.recv[r].Running? && !s.recv[r].Hub? && !s.recv[r].Visit?
  }

  ghost predicate Removed(s: Sys, r: nat, k: Kind, left: map<nat, nat>)
    requires Shape(s) && r < s.n
  {
    exists p :: 0 <= p < |s.send| && p in left && left[p] < s.link[(r, p)].overflow.Get(k)
  }

  ghost function Apply(s: Sys, st: Step): Sys
    requires Shape(s) && Enabled(s, st)
  {
    match st
    case StartPost(p, t, k) => s.(send := s.send[p := Enqueue(t, k)])
    case StartForeign(p, t) => s.(send := s.send[p := Overflow(t, Notification)])
    case StartFlush(p, t) =>
      s.(send := s.send[p := if s.link[(t, p)].pend == 2 then Publish(t, true) else Bump(t)])
    case SendStep(p) => ApplySend(s, p)
    case StartDrain(r) => s.(recv := s.recv[r := Check(FreshDrain(NoSnap, AllWords(s.n)))])
    case StartPark(r) =>
      s.(recv := s.recv[r := Check(FreshDrain(Snap(s.box[r].wakeSeq), AllWords(s.n)))],
         box := s.box[r := s.box[r].(bumps := 0)])
    case DrainOverflow(r, k, left, full) =>
      var d := s.recv[r].d;
      var got := d.got || Removed(s, r, k, left);
      var d' := d.(owed := d.owed - {k}, got := got);
      s.(recv := s.recv[r := if full then StoreFlag(d') else Hub(d')],
         link := map rp | rp in s.link :: TrimOverflow(s.link[rp], rp.0 == r, rp.1, k, left))
    case TakeWord(r, w) =>
      var d := s.recv[r].d;
      var hits := set p: nat | p < s.n && p / WORD_BITS == w && s.link[(r, p)].bit;
      s.(recv := s.recv[r := Hub(d.(words := d.words - {w}, taken := d.taken + hits))],
         link := map rp | rp in s.link ::
           if rp.0 == r && rp.1 in hits then s.link[rp].(bit := false) else s.link[rp])
    case BeginVisit(r, p) =>
      s.(recv := s.recv[r := Visit(s.recv[r].d.(taken := s.recv[r].d.taken - {p}), p, Request)])
    case Dequeue(r, c) =>
      var Visit(d, p, k) := s.recv[r];
      var (l, recv) := VisitEffect(s.link[(r, p)], d, p, k, c);
      s.(recv := s.recv[r := recv], link := s.link[(r, p) := l])
    case EndDrain(r) =>
      var d := s.recv[r].d;
      s.(recv := s.recv[r := if d.snap.Snap? && !d.got then Cas(d.snap.value) else Running])
    case RecvStep(r) => ApplyRecv(s, r)
  }

  function VisitEffect(l: Link, d: Drain, p: nat, k: Kind, c: nat): (e: (Link, Recv))
    requires c <= l.lane.Get(k)
  {
    var d' := d.(got := d.got || 0 < c);
    (l.(lane := l.lane.Put(k, l.lane.Get(k) - c)),
     if k.Notification? then Clear(d', p) else Visit(d', p, NextKind(k)))
  }

  function TrimOverflow(l: Link, mine: bool, p: nat, k: Kind, left: map<nat, nat>): Link {
    if mine && p in left then l.(overflow := l.overflow.Put(k, left[p])) else l
  }

  /** One step of a post or wake flush: its effect on the producer's link with the
      target, on the target's mailbox and on the producer's program counter. */
  function SendEffect(l: Link, b: Box, send: Send, p: nat, n: nat): (e: (Link, Box, Send))
    requires !send.Idle?
  {
    var t := send.target;
    match send
    case Enqueue(_, k) =>
      if l.lane.Get(k) < RING_SLOTS then
        (l.(lane := l.lane.Put(k, l.lane.Get(k) + 1)), b, Mark(t, true))
      else (l, b, Overflow(t, k))
    case Overflow(_, k) => (l.(overflow := l.overflow.Put(k, l.overflow.Get(k) + 1)), b, RaiseFlag(t))
    case RaiseFlag(_) => (l, b.(flag := true), if p < n then Mark(t, false) else Bump(t))
    case Mark(_, queued) =>
      if t == p then (l, b, if queued then Publish(t, false) else Idle)
      else if l.pend == 0 then (l.(pend := 1), b, if queued then Publish(t, false) else Idle)
      else (l.(pend := 2), b, Idle)
    case Publish(_, flush) =>
      (l.(active := true), b, if l.active then AfterPublish(t, flush) else SetBit(t, flush))
    case SetBit(_, flush) => (l.(bit := true), b, AfterPublish(t, flush))
    case Bump(_) =>
      var saw := b.wakeSeq == PARKED;
      (l.(pend := 0),
       b.(wakeSeq := (b.wakeSeq + 1) % SEQ_MODULUS, bumps := b.bumps + 1, waker := if saw then p else b.waker),
       if saw then Wake(t) else Idle)
    case Wake(_) => (l, b.(signal := true), Idle)
  }

  function AfterPublish(t: nat, flush: bool): Send {
    if flush then Bump(t) else Idle
  }

  ghost function ApplySend(s: Sys, p: nat): Sys
    requires Shape(s) && Enabled(s, SendStep(p))
  {
    var t := s.send[p].target;
    var (l, b, send) := SendEffect(s.link[(t, p)], s.box[t], s.send[p], p, s.n);
    s.(send := s.send[p := send], link := s.link[(t, p) := l], box := s.box[t := b])
  }

  /** The sender whose lane a receiver step touches; its own lane when it touches none. */
  function Current(recv: Recv, r: nat): nat {
    if recv.Visit? || recv.Clear? || recv.Recheck? || recv.Reactivate? || recv.ReactBit? then recv.s else r
  }

  /** One step of a drain or of the park section: its effect on the current lane, the
      receiver's own mailbox and its program counter. */
  function RecvEffect(l: Link, b: Box, recv: Recv): (e: (Link, Box, Recv))
    requires !recv.Running? && !recv.Hub? && !recv.Visit?
  {
    match recv
    case Check(d) => (l, b, if b.flag then TakeFlag(d) else Hub(d))
    case TakeFlag(d) => (l, b.(flag := false), Hub(d.(owed := ALL_KINDS)))
    case StoreFlag(d) => (l, b.(flag := true), Hub(d))
    case Clear(d, p) => (l.(active := false), b, Recheck(d, p, Request))
    case Recheck(d, p, k) =>
      (l, b, if 0 < l.lane.Get(k) then Reactivate(d, p)
             else if k.Notification? then Hub(d) else Recheck(d, p, NextKind(k)))
    case Reactivate(d, p) => (l.(active := true), b, if l.active then Hub(d) else ReactBit(d, p))
    case ReactBit(d, p) => (l.(bit := true), b, Hub(d))
    case Cas(v) =>
      if b.wakeSeq == v then (l, b.(wakeSeq := PARKED, bumps := 0), Parked) else (l, b, Running)
    case Parked => (l, b.(signal := false), Unpark)
    case Unpark => (l, b.(wakeSeq := 0), Running)
  }

  ghost function ApplyRecv(s: Sys, r: nat): Sys
    requires Shape(s) && Enabled(s, RecvStep(r))
  {
    var p := Current(s.recv[r], r);
    var (l, b, recv) := RecvEffect(s.link[(r, p)], s.box[r], s.recv[r]);
    s.(recv := s.recv[r := recv], link := s.link[(r, p) := l], box := s.box[r := b])
  }

  // ---------------------------------------------------------------- what every step keeps

  function One(b: bool): nat { if b then 1 else 0 }

  /** How many places hold the right to publish this lane in the bitmap: the bit itself,
      the producer about to set it, the receiver's taken bits, or the receiver's current visit. */
  function Holders(l: Link, send: Send, recv: Recv, r: nat, p: nat): nat {
    One(l.bit)
    + One(send.SetBit? && send.target == r)
    + One(recv.Draining() && p in recv.d.taken)
    + One((recv.Visit? || recv.Clear? || recv.ReactBit?) && recv.s == p)
  }

  /** The active flag is up exactly when one token holder exists. */
  predicate TokenExact(l: Link, send: Send, recv: Recv, r: nat, p: nat) {
    && Holders(l, send, recv, r, p) <= 1
    && (l.active <==> Holders(l, send, recv, r, p) == 1)
  }

  /** A nonempty queue of a lane is active, or someone is still bound to look at it. */
  predicate LaneCovered(l: Link, send: Send, recv: Recv, r: nat, p: nat, k: Kind) {
    0 < l.lane.Get(k) ==>
      || l.active
      || (send.Mark? && send.target == r && send.queued)
      || (send.Publish? && send.target == r)
      || (l.pend == 2 && !(send.Bump? && send.target == r))
      || (recv.Recheck? && recv.s == p && Rank(recv.k) <= Rank(k))
      || (recv.Reactivate? && recv.s == p)
  }

  /** A queued overflow message is covered by the flag or by someone about to raise or serve it. */
  predicate OverflowCovered(l: Link, send: Send, recv: Recv, b: Box, r: nat, k: Kind) {
    0 < l.overflow.Get(k) ==>
      || b.flag
      || (send.RaiseFlag? && send.target == r)
      || (recv.Draining() && k in recv.d.owed)
      || recv.StoreFlag?
  }

  /** The producer still has to bump this receiver's wake_seq, or is in the middle of a post. */
  predicate Debt(l: Link, send: Send, r: nat) {
    || l.pend != 0
    || ((send.RaiseFlag? || send.Mark? || send.Publish? || send.SetBit? || send.Bump?) && send.target == r)
  }

  /** The park section's drain has yet to look at kind k of this lane. */
  predicate LaneAhead(l: Link, recv: Recv, p: nat, k: Kind) {
    && recv.Draining()
    && (|| (l.bit && p / WORD_BITS in recv.d.words)
        || p in recv.d.taken
        || (recv.Visit? && recv.s == p && Rank(recv.k) <= Rank(k)))
  }

  predicate OverflowAhead(b: Box, recv: Recv, k: Kind) {
    (recv.Check? && b.flag) || recv.TakeFlag? || (recv.Draining() && k in recv.d.owed)
  }

  /** While a snapshot is live and no bump has landed, only indebted producers can have
      messages that the park section will not see. */
  predicate ParkLane(l: Link, send: Send, recv: Recv, b: Box, r: nat, p: nat, k: Kind) {
    recv.InPark() && b.bumps == 0 && !Debt(l, send, r) && 0 < l.lane.Get(k) ==> LaneAhead(l, recv, p, k)
  }

  predicate ParkOverflow(l: Link, send: Send, recv: Recv, b: Box, r: nat, k: Kind) {
    recv.InPark() && b.bumps == 0 && !Debt(l, send, r) && 0 < l.overflow.Get(k) ==> OverflowAhead(b, recv, k)
  }

  predicate Tidy(l: Link, send: Send, r: nat, p: nat, n: nat) {
    && l.pend <= 2
    && (p == r || n <= p ==> l.pend == 0)
    && (n <= p ==> !l.active && !l.bit && (l.lane.requests == l.lane.replies == l.lane.notifications == 0))
    && ((send.Publish? || send.SetBit?) && send.target == r && p != r ==> l.pend != 0)
  }

  ghost predicate PairInv(l: Link, send: Send, recv: Recv, b: Box, r: nat, p: nat, n: nat) {
    && Tidy(l, send, r, p, n)
    && TokenExact(l, send, recv, r, p)
    && (forall k: Kind :: KindInv(l, send, recv, b, r, p, k))
  }

  predicate KindInv(l: Link, send: Send, recv: Recv, b: Box, r: nat, p: nat, k: Kind) {
    && LaneCovered(l, send, recv, r, p, k)
    && OverflowCovered(l, send, recv, b, r, k)
    && ParkLane(l, send, recv, b, r, p, k)
    && ParkOverflow(l, send, recv, b, r, k)
  }

  /** The wake sequence agrees with the owner's place in the park handshake. */
  predicate SeqInv(recv: Recv, b: Box) {
    && b.wakeSeq < SEQ_MODULUS
    && (recv.InPark() && !recv.Parked? ==>
          b.bumps < SEQ_MODULUS && recv.Snapshot() < SEQ_MODULUS
          && b.wakeSeq == (recv.Snapshot() + b.bumps) % SEQ_MODULUS)
    && (recv.Parked? && b.bumps == 0 ==> b.wakeSeq == PARKED)
  }

  /** A parked owner whose wake_seq was bumped has a wake pending or in flight. */
  predicate WakeInv(recv: Recv, b: Box, send: seq<Send>, r: nat) {
    recv.Parked? && 0 < b.bumps ==> b.signal || (b.waker < |send| && send[b.waker] == Wake(r))
  }

  /** A worker in its park section owes nobody a wake. */
  ghost predicate DebtFree(s: Sys, r: nat)
    requires Shape(s) && r < s.n
  {
    s.recv[r].InPark() ==> s.send[r].Idle? && forall t | 0 <= t < s.n :: s.link[(t, r)].pend == 0
  }

  ghost predicate BoxInv(s: Sys, r: nat)
    requires Shape(s) && r < s.n
  {
    SeqInv(s.recv[r], s.box[r]) && WakeInv(s.recv[r], s.box[r], s.send, r) && DebtFree(s, r)
  }

  ghost predicate PairOk(s: Sys, r: nat, p: nat)
    requires Shape(s) && r < s.n && p < |s.send|
  {
    PairInv(s.link[(r, p)], s.send[p], s.recv[r], s.box[r], r, p, s.n)
  }

  ghost predicate Inv(s: Sys) {
    && Shape(s)
    && (forall r | 0 <= r < s.n :: BoxInv(s, r))
    && (forall r, p | 0 <= r < s.n && 0 <= p < |s.send| :: PairOk(s, r, p))
  }

  /** A change of the producer's program counter that concerns another receiver. */
  lemma OtherTarget(l: Link, send: Send, send': Send, recv: Recv, b: Box, r: nat, p: nat, n: nat)
    requires PairInv(l, send, recv, b, r, p, n)
    requires send.Idle? || send.target != r
    requires send'.Idle? || send'.target != r
    ensures PairInv(l, send', recv, b, r, p, n)
  {
    forall k: Kind ensures KindInv(l, send', recv, b, r, p, k) {
      assert KindInv(l, send, recv, b, r, p, k);
    }
  }

  /** A mailbox change made by another producer. */
  lemma OtherProducer(l: Link, send: Send, recv: Recv, b: Box, b': Box, r: nat, p: nat, n: nat)
    requires PairInv(l, send, recv, b, r, p, n)
    requires b.flag ==> b'.flag
    requires b'.bumps == b.bumps || 0 < b'.bumps
    ensures PairInv(l, send, recv, b', r, p, n)
  {
    forall k: Kind ensures KindInv(l, send, recv, b', r, p, k) {
      assert KindInv(l, send, recv, b, r, p, k);
    }
  }

  lemma SendLaneKeeps(l: Link, send: Send, recv: Recv, b: Box, p: nat, n: nat, k: Kind)
    requires !send.Idle? && SendShape(send, p, n)
    requires Tidy(l, send, send.target, p, n) && TokenExact(l, send, recv, send.target, p)
    requires LaneCovered(l, send, recv, send.target, p, k)
    ensures var e := SendEffect(l, b, send, p, n);
      && Tidy(e.0, e.2, send.target, p, n) && TokenExact(e.0, e.2, recv, send.target, p)
      && LaneCovered(e.0, e.2, recv, send.target, p, k)
  {
  }

  lemma SendParkKeeps(l: Link, send: Send, recv: Recv, b: Box, p: nat, n: nat, k: Kind)
    requires !send.Idle? && SendShape(send, p, n)
    requires Tidy(l, send, send.target, p, n)
    requires OverflowCovered(l, send, recv, b, send.target, k)
    requires ParkLane(l, send, recv, b, send.target, p, k)
    requires ParkOverflow(l, send, recv, b, send.target, k)
    requires recv.InPark() ==> send.target != p
    ensures var e := SendEffect(l, b, send, p, n);
      && OverflowCovered(e.0, e.2, recv, e.1, send.target, k)
      && ParkLane(e.0, e.2, recv, e.1, send.target, p, k)
      && ParkOverflow(e.0, e.2, recv, e.1, send.target, k)
  {
  }

  /** The link of producer p after a receiver step that touched the lane of `current`. */
  function After(l: Link, touched: Link, p: nat, current: nat): Link {
    if p == current then touched else l
  }

  lemma RecvLaneKeeps(l: Link, m: Link, send: Send, recv: Recv, b: Box, r: nat, p: nat, n: nat, k: Kind)
    requires !recv.Running? && !recv.Hub? && !recv.Visit? && Current(recv, r) < n
    requires p == Current(recv, r) ==> l == m
    requires Tidy(l, send, r, p, n) && TokenExact(l, send, recv, r, p)
    requires LaneCovered(l, send, recv, r, p, k)
    ensures var e := RecvEffect(m, b, recv); var l' := After(l, e.0, p, Current(recv, r));
      Tidy(l', send, r, p, n) && TokenExact(l', send, e.2, r, p) && LaneCovered(l', send, e.2, r, p, k)
  {
  }

  lemma RecvParkLaneKeeps(l: Link, m: Link, send: Send, recv: Recv, b: Box, r: nat, p: nat, k: Kind)
    requires !recv.Running? && !recv.Hub? && !recv.Visit?
    requires p == Current(recv, r) ==> l == m
    requires recv.Cas? && b.wakeSeq == recv.value ==> b.bumps == 0
    requires ParkLane(l, send, recv, b, r, p, k)
    ensures var e := RecvEffect(m, b, recv); ParkLane(After(l, e.0, p, Current(recv, r)), send, e.2, e.1, r, p, k)
  {
    var e := RecvEffect(m, b, recv);
    var l' := After(l, e.0, p, Current(recv, r));
    assert l'.lane == l.lane && (l.bit ==> l'.bit) && l'.pend == l.pend;
    if e.2.InPark() && e.1.bumps == 0 && !Debt(l', send, r) && 0 < l'.lane.Get(k) {
      assert !Debt(l, send, r);
      assert LaneAhead(l, recv, p, k);
      assert e.2.d.words == recv.d.words && e.2.d.taken == recv.d.taken;
    }
  }

  lemma RecvParkOverflowKeeps(l: Link, m: Link, send: Send, recv: Recv, b: Box, r: nat, p: nat, k: Kind)
    requires !recv.Running? && !recv.Hub? && !recv.Visit?
    requires p == Current(recv, r) ==> l == m
    requires recv.Cas? && b.wakeSeq == recv.value ==> b.bumps == 0
    requires OverflowCovered(l, send, recv, b, r, k)
    requires ParkOverflow(l, send, recv, b, r, k)
    ensures var e := RecvEffect(m, b, recv); var l' := After(l, e.0, p, Current(recv, r));
      OverflowCovered(l', send, e.2, e.1, r, k) && ParkOverflow(l', send, e.2, e.1, r, k)
  {
    var e := RecvEffect(m, b, recv);
    var l' := After(l, e.0, p, Current(recv, r));
    assert l'.overflow == l.overflow && l'.pend == l.pend;
  }

  // ---------------------------------------------------------------- whole-system steps

  lemma SendStepPair(s: Sys, p: nat, r: nat, q: nat)
    requires Inv(s) && Enabled(s, SendStep(p)) && r < s.n && q < |s.send|
    requires Shape(Apply(s, SendStep(p)))
    ensures PairOk(Apply(s, SendStep(p)), r, q)
  {
    var s' := Apply(s, SendStep(p));
    var t, send := s.send[p].target, s.send[p];
    var e := SendEffect(s.link[(t, p)], s.box[t], send, p, s.n);
    assert PairOk(s, r, q);
    if r == t && q == p {
      assert BoxInv(s, t);
      forall k: Kind ensures KindInv(e.0, e.2, s.recv[t], e.1, t, p, k) {
        assert KindInv(s.link[(t, p)], send, s.recv[t], s.box[t], t, p, k);
        SendLaneKeeps(s.link[(t, p)], send, s.recv[t], s.box[t], p, s.n, k);
        SendParkKeeps(s.link[(t, p)], send, s.recv[t], s.box[t], p, s.n, k);
      }
      assert KindInv(s.link[(t, p)], send, s.recv[t], s.box[t], t, p, Request);
      SendLaneKeeps(s.link[(t, p)], send, s.recv[t], s.box[t], p, s.n, Request);
    } else if q == p {
      OtherTarget(s.link[(r, p)], send, e.2, s.recv[r], s.box[r], r, p, s.n);
    } else if r == t {
      OtherProducer(s.link[(t, q)], s.send[q], s.recv[t], s.box[t], e.1, t, q, s.n);
    }
  }

  lemma SendSeqKeeps(l: Link, send: Send, recv: Recv, b: Box, p: nat, n: nat)
    requires !send.Idle? && SeqInv(recv, b)
    requires send.Bump? && recv.InPark() && !recv.Parked? ==> b.bumps + 1 < SEQ_MODULUS
    ensures SeqInv(recv, SendEffect(l, b, send, p, n).1)
  {
  }

  lemma SendStepShape(s: Sys, p: nat)
    requires Shape(s) && Enabled(s, SendStep(p))
    ensures Shape(Apply(s, SendStep(p)))
  {
  }

  lemma SendStepBox(s: Sys, p: nat, r: nat)
    requires Inv(s) && Enabled(s, SendStep(p)) && r < s.n
    requires Shape(Apply(s, SendStep(p)))
    ensures BoxInv(Apply(s, SendStep(p)), r)
  {
    var t := s.send[p].target;
    assert BoxInv(s, r);
    if r == t {
      SendSeqKeeps(s.link[(t, p)], s.send[p], s.recv[t], s.box[t], p, s.n);
    }
  }

  lemma SendStepKeeps(s: Sys, p: nat)
    requires Inv(s) && Enabled(s, SendStep(p))
    ensures Inv(Apply(s, SendStep(p)))
  {
    var s' := Apply(s, SendStep(p));
    SendStepShape(s, p);
    forall r, q | 0 <= r < s.n && 0 <= q < |s.send| ensures PairOk(s', r, q) {
      SendStepPair(s, p, r, q);
    }
    forall r | 0 <= r < s.n ensures BoxInv(s', r) {
      SendStepBox(s, p, r);
    }
  }

  lemma RecvStepPair(s: Sys, r: nat, p: nat)
    requires Inv(s) && Enabled(s, RecvStep(r)) && p < |s.send|
    requires Shape(Apply(s, RecvStep(r)))
    ensures PairOk(Apply(s, RecvStep(r)), r, p)
  {
    var recv, b, c := s.recv[r], s.box[r], Current(s.recv[r], r);
    var l, m, send := s.link[(r, p)], s.link[(r, c)], s.send[p];
    var e := RecvEffect(m, b, recv);
    assert PairOk(s, r, p) && BoxInv(s, r);
    forall k: Kind ensures KindInv(After(l, e.0, p, c), send, e.2, e.1, r, p, k) {
      assert KindInv(l, send, recv, b, r, p, k);
      RecvLaneKeeps(l, m, send, recv, b, r, p, s.n, k);
      RecvParkLaneKeeps(l, m, send, recv, b, r, p, k);
      RecvParkOverflowKeeps(l, m, send, recv, b, r, p, k);
    }
    assert KindInv(l, send, recv, b, r, p, Request);
    RecvLaneKeeps(l, m, send, recv, b, r, p, s.n, Request);
  }

  /** Nothing changes but receiver r's program counter, its mailbox and its links, and no link's
      pending wake. */
  ghost predicate OnlyReceiver(s: Sys, s': Sys, r: nat)
    requires Shape(s) && Shape(s') && r < s.n
  {
    && s'.n == s.n && s'.send == s.send
    && (forall q | 0 <= q < s.n && q != r :: s'.recv[q] == s.recv[q] && s'.box[q] == s.box[q])
    && (forall q, p | 0 <= q < s.n && 0 <= p < |s.send| ::
          if q == r then s'.link[(q, p)].pend == s.link[(q, p)].pend else s'.link[(q, p)] == s.link[(q, p)])
  }

  lemma OtherBoxes(s: Sys, s': Sys, r: nat, q: nat)
    requires Inv(s) && Shape(s') && r < s.n && OnlyReceiver(s, s', r) && q < s.n && q != r
    ensures BoxInv(s', q)
  {
    assert BoxInv(s, q);
    forall t | 0 <= t < s.n ensures s'.link[(t, q)].pend == s.link[(t, q)].pend {}
  }

  /** A step of a receiver is safe if it is for its own mailbox and lanes. */
  lemma ReceiverKeeps(s: Sys, s': Sys, r: nat)
    requires Inv(s) && Shape(s') && r < s.n && OnlyReceiver(s, s', r)
    requires SeqInv(s'.recv[r], s'.box[r]) && WakeInv(s'.recv[r], s'.box[r], s'.send, r) && DebtFree(s', r)
    requires forall p | 0 <= p < |s.send| :: PairOk(s', r, p)
    ensures Inv(s')
  {
    forall q, p | 0 <= q < s.n && 0 <= p < |s.send| ensures PairOk(s', q, p) {
      assert PairOk(s, q, p);
    }
    forall q | 0 <= q < s.n ensures BoxInv(s', q) {
      if q != r { OtherBoxes(s, s', r, q); }
    }
  }

  lemma RecvBoxKeeps(l: Link, b: Box, recv: Recv, send: seq<Send>, r: nat)
    requires !recv.Running? && !recv.Hub? && !recv.Visit? && SeqInv(recv, b) && WakeInv(recv, b, send, r)
    ensures var e := RecvEffect(l, b, recv);
      SeqInv(e.2, e.1) && WakeInv(e.2, e.1, send, r) && (e.2.InPark() ==> recv.InPark())
  {
  }

  lemma RecvStepShape(s: Sys, r: nat)
    requires Shape(s) && Enabled(s, RecvStep(r))
    ensures Shape(Apply(s, RecvStep(r))) && OnlyReceiver(s, Apply(s, RecvStep(r)), r)
  {
  }

  lemma RecvStepKeeps(s: Sys, r: nat)
    requires Inv(s) && Enabled(s, RecvStep(r))
    ensures Inv(Apply(s, RecvStep(r)))
  {
    var s' := Apply(s, RecvStep(r));
    RecvStepShape(s, r);
    forall p | 0 <= p < |s.send| ensures PairOk(s', r, p) {
      RecvStepPair(s, r, p);
    }
    assert BoxInv(s, r);
    RecvBoxKeeps(s.link[(r, Current(s.recv[r], r))], s.box[r], s.recv[r], s.send, r);
    ReceiverKeeps(s, s', r);
  }

  /** An idle producer begins a post, or a flush it owes. */
  lemma StartPair(l: Link, send: Send, recv: Recv, b: Box, r: nat, p: nat, n: nat)
    requires PairInv(l, Idle, recv, b, r, p, n)
    requires send.Enqueue? || send.Overflow? || (send.Publish? && send.flush) || send.Bump?
    requires send.Publish? && send.target == r ==> l.pend == 2
    requires send.Bump? && send.target == r ==> l.pend != 2
    ensures PairInv(l, send, recv, b, r, p, n)
  {
    forall k: Kind ensures KindInv(l, send, recv, b, r, p, k) {
      assert KindInv(l, Idle, recv, b, r, p, k);
    }
  }

  /** Starting a post or a flush moves one program counter only. */
  lemma StartStepsKeep(s: Sys, st: Step)
    requires Inv(s) && Enabled(s, st)
    requires st.StartPost? || st.StartForeign? || st.StartFlush?
    ensures Inv(Apply(s, st))
  {
    var s' := Apply(s, st);
    assert Shape(s');
    forall r, q | 0 <= r < s.n && 0 <= q < |s.send| ensures PairOk(s', r, q) {
      assert PairOk(s, r, q);
      if q == st.p {
        StartPair(s.link[(r, q)], s'.send[q], s.recv[r], s.box[r], r, q, s.n);
      }
    }
    forall r | 0 <= r < s.n ensures BoxInv(s', r) {
      assert BoxInv(s, r);
    }
  }

  lemma StartDrainPair(l: Link, send: Send, b: Box, snap: Snap, r: nat, p: nat, n: nat)
    requires PairInv(l, send, Running, b, r, p, n) && r < n
    ensures PairInv(l, send, Check(FreshDrain(snap, AllWords(n))), b.(bumps := 0), r, p, n)
    ensures PairInv(l, send, Check(FreshDrain(NoSnap, AllWords(n))), b, r, p, n)
  {
    var recv := Check(FreshDrain(snap, AllWords(n)));
    assert p < n ==> p / WORD_BITS in AllWords(n);
    forall k: Kind
      ensures KindInv(l, send, recv, b.(bumps := 0), r, p, k)
      ensures KindInv(l, send, Check(FreshDrain(NoSnap, AllWords(n))), b, r, p, k)
    {
      assert KindInv(l, send, Running, b, r, p, k);
    }
  }

  lemma StartRecvShape(s: Sys, st: Step)
    requires Shape(s) && Enabled(s, st) && (st.StartDrain? || st.StartPark?)
    ensures Shape(Apply(s, st)) && OnlyReceiver(s, Apply(s, st), st.r)
  {
  }

  lemma StartRecvKeeps(s: Sys, st: Step)
    requires Inv(s) && Enabled(s, st) && (st.StartDrain? || st.StartPark?)
    ensures Inv(Apply(s, st))
  {
    var s', r := Apply(s, st), st.r;
    StartRecvShape(s, st);
    forall p | 0 <= p < |s.send| ensures PairOk(s', r, p) {
      assert PairOk(s, r, p);
      StartDrainPair(s.link[(r, p)], s.send[p], s.box[r], Snap(s.box[r].wakeSeq), r, p, s.n);
    }
    assert BoxInv(s, r);
    ReceiverKeeps(s, s', r);
  }

  /** Taking a bitmap word moves its tokens from the bits to the receiver. */
  lemma TakeWordPair(l: Link, send: Send, d: Drain, w: nat, hits: set<nat>, b: Box, r: nat, p: nat, n: nat)
    requires PairInv(l, send, Hub(d), b, r, p, n)
    requires p in hits <==> p < n && p / WORD_BITS == w && l.bit
    ensures PairInv(if p in hits then l.(bit := false) else l, send,
                    Hub(d.(words := d.words - {w}, taken := d.taken + hits)), b, r, p, n)
  {
    var l' := if p in hits then l.(bit := false) else l;
    var recv := Hub(d.(words := d.words - {w}, taken := d.taken + hits));
    forall k: Kind ensures KindInv(l', send, recv, b, r, p, k) {
      assert KindInv(l, send, Hub(d), b, r, p, k);
    }
  }

  lemma TakeWordShape(s: Sys, r: nat, w: nat)
    requires Shape(s) && Enabled(s, TakeWord(r, w))
    ensures Shape(Apply(s, TakeWord(r, w))) && OnlyReceiver(s, Apply(s, TakeWord(r, w)), r)
  {
  }

  lemma TakeWordKeeps(s: Sys, r: nat, w: nat)
    requires Inv(s) && Enabled(s, TakeWord(r, w))
    ensures Inv(Apply(s, TakeWord(r, w)))
  {
    var s' := Apply(s, TakeWord(r, w));
    var hits := set p: nat | p < s.n && p / WORD_BITS == w && s.link[(r, p)].bit;
    TakeWordShape(s, r, w);
    forall p | 0 <= p < |s.send| ensures PairOk(s', r, p) {
      assert PairOk(s, r, p);
      TakeWordPair(s.link[(r, p)], s.send[p], s.recv[r].d, w, hits, s.box[r], r, p, s.n);
    }
    assert BoxInv(s, r);
    ReceiverKeeps(s, s', r);
  }

  lemma DrainOverflowPair(l: Link, send: Send, d: Drain, kind: Kind, left: nat, full: bool, got: bool,
                          b: Box, r: nat, p: nat, n: nat)
    requires PairInv(l, send, Hub(d), b, r, p, n)
    requires left <= l.overflow.Get(kind) && (!full ==> left == 0)
    requires d.got ==> got
    requires !got ==> l.overflow.Get(kind) == 0
    ensures var d' := d.(owed := d.owed - {kind}, got := got);
      PairInv(l.(overflow := l.overflow.Put(kind, left)), send, if full then StoreFlag(d') else Hub(d'), b, r, p, n)
  {
    var d' := d.(owed := d.owed - {kind}, got := got);
    var l' := l.(overflow := l.overflow.Put(kind, left));
    var recv := if full then StoreFlag(d') else Hub(d');
    forall k: Kind ensures KindInv(l', send, recv, b, r, p, k) {
      assert KindInv(l, send, Hub(d), b, r, p, k);
    }
  }

  lemma DrainOverflowShape(s: Sys, st: Step)
    requires Shape(s) && Enabled(s, st) && st.DrainOverflow?
    ensures Shape(Apply(s, st)) && OnlyReceiver(s, Apply(s, st), st.r)
  {
  }

  lemma DrainOverflowKeeps(s: Sys, st: Step)
    requires Inv(s) && Enabled(s, st) && st.DrainOverflow?
    ensures Inv(Apply(s, st))
  {
    var s' := Apply(s, st);
    var r, d := st.r, s.recv[st.r].d;
    var got := d.got || Removed(s, r, st.kind, st.left);
    DrainOverflowShape(s, st);
    forall p | 0 <= p < |s.send| ensures PairOk(s', r, p) {
      assert PairOk(s, r, p);
      assert !got ==> s.link[(r, p)].overflow.Get(st.kind) == 0;
      DrainOverflowPair(s.link[(r, p)], s.send[p], d, st.kind, st.left[p], st.full, got, s.box[r], r, p, s.n);
    }
    assert BoxInv(s, r);
    ReceiverKeeps(s, s', r);
  }

  lemma DequeuePair(l: Link, m: Link, send: Send, recv: Recv, c: nat, b: Box, r: nat, p: nat, n: nat)
    requires recv.Visit? && c <= m.lane.Get(recv.k)
    requires p == recv.s ==> l == m
    requires PairInv(l, send, recv, b, r, p, n)
    requires !recv.d.got && 0 < m.lane.Get(recv.k) ==> 0 < c
    ensures var e := VisitEffect(m, recv.d, recv.s, recv.k, c);
      PairInv(After(l, e.0, p, recv.s), send, e.1, b, r, p, n)
  {
    var e := VisitEffect(m, recv.d, recv.s, recv.k, c);
    var l' := After(l, e.0, p, recv.s);
    forall k: Kind ensures KindInv(l', send, e.1, b, r, p, k) {
      assert KindInv(l, send, recv, b, r, p, k);
    }
  }

  lemma DequeueShape(s: Sys, r: nat, c: nat)
    requires Shape(s) && Enabled(s, Dequeue(r, c))
    ensures Shape(Apply(s, Dequeue(r, c))) && OnlyReceiver(s, Apply(s, Dequeue(r, c)), r)
  {
  }

  lemma DequeueKeeps(s: Sys, r: nat, c: nat)
    requires Inv(s) && Enabled(s, Dequeue(r, c))
    ensures Inv(Apply(s, Dequeue(r, c)))
  {
    var s' := Apply(s, Dequeue(r, c));
    var recv := s.recv[r];
    DequeueShape(s, r, c);
    forall p | 0 <= p < |s.send| ensures PairOk(s', r, p) {
      assert PairOk(s, r, p);
      DequeuePair(s.link[(r, p)], s.link[(r, recv.s)], s.send[p], recv, c, s.box[r], r, p, s.n);
    }
    assert BoxInv(s, r);
    ReceiverKeeps(s, s', r);
  }

  lemma VisitPair(l: Link, send: Send, d: Drain, v: nat, b: Box, r: nat, p: nat, n: nat)
    requires PairInv(l, send, Hub(d), b, r, p, n) && v in d.taken
    ensures PairInv(l, send, Visit(d.(taken := d.taken - {v}), v, Request), b, r, p, n)
  {
    forall k: Kind ensures KindInv(l, send, Visit(d.(taken := d.taken - {v}), v, Request), b, r, p, k) {
      assert KindInv(l, send, Hub(d), b, r, p, k);
    }
  }

  lemma EndDrainPair(l: Link, send: Send, d: Drain, b: Box, r: nat, p: nat, n: nat)
    requires PairInv(l, send, Hub(d), b, r, p, n)
    requires d.owed == {} && d.taken == {} && (d.words == {} || d.got)
    ensures PairInv(l, send, if d.snap.Snap? && !d.got then Cas(d.snap.value) else Running, b, r, p, n)
  {
    var recv := if d.snap.Snap? && !d.got then Cas(d.snap.value) else Running;
    forall k: Kind ensures KindInv(l, send, recv, b, r, p, k) {
      assert KindInv(l, send, Hub(d), b, r, p, k);
    }
  }

  lemma VisitStepsShape(s: Sys, st: Step)
    requires Shape(s) && Enabled(s, st) && (st.BeginVisit? || st.EndDrain?)
    ensures Shape(Apply(s, st)) && OnlyReceiver(s, Apply(s, st), st.r)
  {
  }

  lemma VisitStepsKeep(s: Sys, st: Step)
    requires Inv(s) && Enabled(s, st) && (st.BeginVisit? || st.EndDrain?)
    ensures Inv(Apply(s, st))
  {
    var s' := Apply(s, st);
    var r, d := st.r, s.recv[st.r].d;
    VisitStepsShape(s, st);
    forall p | 0 <= p < |s.send| ensures PairOk(s', r, p) {
      assert PairOk(s, r, p);
      if st.BeginVisit? {
        VisitPair(s.link[(r, p)], s.send[p], d, st.s, s.box[r], r, p, s.n);
      } else {
        EndDrainPair(s.link[(r, p)], s.send[p], d, s.box[r], r, p, s.n);
      }
    }
    assert BoxInv(s, r);
    ReceiverKeeps(s, s', r);
  }

  lemma StepKeeps(s: Sys, st: Step)
    requires Inv(s) && Enabled(s, st)
    ensures Inv(Apply(s, st))
  {
    match st
    case StartPost(_, _, _) => StartStepsKeep(s, st);
    case StartForeign(_, _) => StartStepsKeep(s, st);
    case StartFlush(_, _) => StartStepsKeep(s, st);
    case SendStep(p) => SendStepKeeps(s, p);
    case StartDrain(_) => StartRecvKeeps(s, st);
    case StartPark(_) => StartRecvKeeps(s, st);
    case DrainOverflow(_, _, _, _) => DrainOverflowKeeps(s, st);
    case TakeWord(r, w) => TakeWordKeeps(s, r, w);
    case BeginVisit(_, _) => VisitStepsKeep(s, st);
    case Dequeue(r, c) => DequeueKeeps(s, r, c);
    case EndDrain(_) => VisitStepsKeep(s, st);
    case RecvStep(r) => RecvStepKeeps(s, r);
  }

  // ---------------------------------------------------------------- every run

  ghost predicate Init(s: Sys) {
    && Shape(s)
    && (forall p | 0 <= p < |s.send| :: s.send[p] == Idle)
    && (forall r | 0 <= r < s.n :: s.recv[r] == Running && s.box[r] == Box(false, 0, 0, false, 0))
    && (forall r, p | 0 <= r < s.n && 0 <= p < |s.send| ::
          s.link[(r, p)] == Link(Counts(0, 0, 0), Counts(0, 0, 0), false, false, 0))
  }

  ghost predicate StepsTo(a: Sys, b: Sys) {
    Shape(a) && exists st :: Enabled(a, st) && b == Apply(a, st)
  }

  /** Any interleaving of any length, from fresh mailboxes. */
  ghost predicate IsRun(run: seq<Sys>) {
    0 < |run| && Init(run[0]) && forall i, j | 0 <= i < j < |run| && j == i + 1 :: StepsTo(run[i], run[j])
  }

  lemma {:induction false} RunKeeps(run: seq<Sys>, i: nat)
    requires IsRun(run) && i < |run|
    ensures Inv(run[i])
  {
    if i == 0 {
      forall r, p | 0 <= r < run[0].n && 0 <= p < |run[0].send| ensures PairOk(run[0], r, p) {
        forall k: Kind
          ensures KindInv(run[0].link[(r, p)], run[0].send[p], run[0].recv[r], run[0].box[r], r, p, k) {}
      }
    } else {
      RunKeeps(run, i - 1);
      assert StepsTo(run[i - 1], run[i]);
      var st :| Enabled(run[i - 1], st) && run[i] == Apply(run[i - 1], st);
      StepKeeps(run[i - 1], st);
    }
  }

  // ---------------------------------------------------------------- conservation of messages

  /** A run together with the step taken at each point. */
  ghost predicate IsTrace(run: seq<Sys>, steps: seq<Step>) {
    && |run| == |steps| + 1 && Init(run[0])
    && forall i {:trigger steps[i]} | 0 <= i < |steps| ::
         Shape(run[i]) && Enabled(run[i], steps[i]) && run[i + 1] == Apply(run[i], steps[i])
  }

  lemma TraceIsRun(run: seq<Sys>, steps: seq<Step>)
    requires IsTrace(run, steps)
    ensures IsRun(run)
  {
    forall i, j | 0 <= i < j < |run| && j == i + 1 ensures StepsTo(run[i], run[j]) {
      assert Enabled(run[i], steps[i]);
    }
  }

  /** Whether a step begins to post a message of kind k from producer p to receiver r. */
  function Posts(st: Step, r: nat, p: nat, k: Kind): nat {
    One(st == StartPost(p, r, k) || (st == StartForeign(p, r) && k.Notification?))
  }

  /** How many such messages a step hands to the receiver, from the lane or the overflow queue. */
  ghost function Takes(s: Sys, st: Step, r: nat, p: nat, k: Kind): nat
    requires Shape(s) && Enabled(s, st) && r < s.n && p < |s.send|
  {
    match st
    case Dequeue(q, c) => if q == r && s.recv[r].s == p && s.recv[r].k == k then c else 0
    case DrainOverflow(q, kind, left, _) => if q == r && kind == k then s.link[(r, p)].overflow.Get(k) - left[p] else 0
    case _ => 0
  }

  /** How many are under way: in the lane, in the overflow queue, or about to be put into one. */
  function UnderWay(l: Link, send: Send, r: nat, k: Kind): nat {
    l.lane.Get(k) + l.overflow.Get(k) + One(send == Enqueue(r, k) || send == Overflow(r, k))
  }

  lemma SendConserves(l: Link, b: Box, send: Send, p: nat, n: nat, k: Kind)
    requires !send.Idle?
    ensures var e := SendEffect(l, b, send, p, n);
      UnderWay(e.0, e.2, send.target, k) == UnderWay(l, send, send.target, k)
  {
  }

  lemma RecvConserves(l: Link, b: Box, recv: Recv, send: Send, r: nat, k: Kind)
    requires !recv.Running? && !recv.Hub? && !recv.Visit?
    ensures UnderWay(RecvEffect(l, b, recv).0, send, r, k) == UnderWay(l, send, r, k)
  {
  }

  /** A message under way stays so until the receiver takes it, and none appears but by a post. */
  ghost predicate Conserves(s: Sys, st: Step, r: nat, p: nat, k: Kind)
    requires Shape(s) && Enabled(s, st) && r < s.n && p < |s.send|
  {
    var s' := Apply(s, st);
    && s'.n == s.n && |s'.send| == |s.send| && (r, p) in s'.link
    && UnderWay(s'.link[(r, p)], s'.send[p], r, k) + Takes(s, st, r, p, k)
       == UnderWay(s.link[(r, p)], s.send[p], r, k) + Posts(st, r, p, k)
  }

  lemma SendStepConserves(s: Sys, q: nat, r: nat, p: nat, k: Kind)
    requires Shape(s) && Enabled(s, SendStep(q)) && r < s.n && p < |s.send|
    ensures Conserves(s, SendStep(q), r, p, k)
  {
    var t := s.send[q].target;
    SendConserves(s.link[(t, q)], s.box[t], s.send[q], q, s.n, k);
  }

  lemma RecvStepConserves(s: Sys, q: nat, r: nat, p: nat, k: Kind)
    requires Shape(s) && Enabled(s, RecvStep(q)) && r < s.n && p < |s.send|
    ensures Conserves(s, RecvStep(q), r, p, k)
  {
    var c := Current(s.recv[q], q);
    RecvConserves(s.link[(q, c)], s.box[q], s.recv[q], s.send[c], q, k);
  }

  lemma DequeueConserves(s: Sys, q: nat, c: nat, r: nat, p: nat, k: Kind)
    requires Shape(s) && Enabled(s, Dequeue(q, c)) && r < s.n && p < |s.send|
    ensures Conserves(s, Dequeue(q, c), r, p, k)
  {
  }

  lemma OverflowConserves(s: Sys, st: Step, r: nat, p: nat, k: Kind)
    requires Shape(s) && Enabled(s, st) && st.DrainOverflow? && r < s.n && p < |s.send|
    ensures Conserves(s, st, r, p, k)
  {
    assert Apply(s, st).link[(r, p)] == TrimOverflow(s.link[(r, p)], r == st.r, p, st.kind, st.left);
  }

  lemma StartConserves(s: Sys, st: Step, r: nat, p: nat, k: Kind)
    requires Shape(s) && Enabled(s, st) && (st.StartPost? || st.StartForeign? || st.StartFlush?)
    requires r < s.n && p < |s.send|
    ensures Conserves(s, st, r, p, k)
  {
  }

  lemma QuietConserves(s: Sys, st: Step, r: nat, p: nat, k: Kind)
    requires Shape(s) && Enabled(s, st)
    requires st.StartDrain? || st.StartPark? || st.TakeWord? || st.BeginVisit? || st.EndDrain?
    requires r < s.n && p < |s.send|
    ensures Conserves(s, st, r, p, k)
  {
  }

  lemma StepConserves(s: Sys, st: Step, r: nat, p: nat, k: Kind)
    requires Shape(s) && Enabled(s, st) && r < s.n && p < |s.send|
    ensures Conserves(s, st, r, p, k)
  {
    match st
    case SendStep(q) => SendStepConserves(s, q, r, p, k);
    case RecvStep(q) => RecvStepConserves(s, q, r, p, k);
    case Dequeue(q, c) => DequeueConserves(s, q, c, r, p, k);
    case DrainOverflow(_, _, _, _) => OverflowConserves(s, st, r, p, k);
    case StartPost(_, _, _) => StartConserves(s, st, r, p, k);
    case StartForeign(_, _) => StartConserves(s, st, r, p, k);
    case StartFlush(_, _) => StartConserves(s, st, r, p, k);
    case _ => QuietConserves(s, st, r, p, k);
  }

  function Posted(steps: seq<Step>, r: nat, p: nat, k: Kind): nat {
    if steps == [] then 0 else Posted(steps[..|steps| - 1], r, p, k) + Posts(steps[|steps| - 1], r, p, k)
  }

  ghost function Taken(run: seq<Sys>, steps: seq<Step>, i: nat, r: nat, p: nat, k: Kind): nat
    requires IsTrace(run, steps) && i < |run| && r < run[0].n && p < |run[0].send|
  {
    if i == 0 then 0
    else
      SizesStay(run, steps, i - 1);
      Taken(run, steps, i - 1, r, p, k) + Takes(run[i - 1], steps[i - 1], r, p, k)
  }

  lemma {:induction false} SizesStay(run: seq<Sys>, steps: seq<Step>, i: nat)
    requires IsTrace(run, steps) && i < |run|
    ensures Shape(run[i]) && run[i].n == run[0].n && |run[i].send| == |run[0].send|
  {
    TraceIsRun(run, steps);
    RunKeeps(run, i);
    if 0 < i {
      SizesStay(run, steps, i - 1);
      assert run[i] == Apply(run[i - 1], steps[i - 1]);
      StepConserves(run[i - 1], steps[i - 1], 0, 0, Request);
    }
  }

  /** No message is lost, duplicated or invented: what was posted is what was handed to the
      receiver and what is still under way. */
  lemma {:induction false} MessagesConserved(run: seq<Sys>, steps: seq<Step>, i: nat, r: nat, p: nat, k: Kind)
    requires IsTrace(run, steps) && i < |run| && r < run[0].n && p < |run[0].send|
    ensures (r, p) in run[i].link && p < |run[i].send|
    ensures Posted(steps[..i], r, p, k) ==
      Taken(run, steps, i, r, p, k) + UnderWay(run[i].link[(r, p)], run[i].send[p], r, k)
  {
    SizesStay(run, steps, i);
    if 0 < i {
      MessagesConserved(run, steps, i - 1, r, p, k);
      SizesStay(run, steps, i - 1);
      assert steps[..i][..i - 1] == steps[..i - 1];
      assert run[i] == Apply(run[i - 1], steps[i - 1]);
      StepConserves(run[i - 1], steps[i - 1], r, p, k);
    }
  }

  // ---------------------------------------------------------------- what a run promises

  /** The active flag of a lane is up exactly when one party holds its token: the bitmap bit,
      the publishing producer, or the receiver that took the bit. */
  lemma ActiveTokenIsUnique(run: seq<Sys>, i: nat, r: nat, p: nat)
    requires IsRun(run) && i < |run| && Shape(run[i]) && r < run[i].n && p < |run[i].send|
    ensures var s := run[i]; var h := Holders(s.link[(r, p)], s.send[p], s.recv[r], r, p);
      h <= 1 && (s.link[(r, p)].active <==> h == 1)
  {
    RunKeeps(run, i);
    assert PairOk(run[i], r, p);
  }

  /** No lost work: a message in a lane is announced, or its sender or the receiver is still
      on the way to announce it; likewise for a message in an overflow queue. */
  lemma NoLostWork(run: seq<Sys>, i: nat, r: nat, p: nat, k: Kind)
    requires IsRun(run) && i < |run| && Shape(run[i]) && r < run[i].n && p < |run[i].send|
    ensures var s := run[i]; LaneCovered(s.link[(r, p)], s.send[p], s.recv[r], r, p, k)
    ensures var s := run[i]; OverflowCovered(s.link[(r, p)], s.send[p], s.recv[r], s.box[r], r, k)
  {
    RunKeeps(run, i);
    assert PairOk(run[i], r, p);
    assert KindInv(run[i].link[(r, p)], run[i].send[p], run[i].recv[r], run[i].box[r], r, p, k);
  }

  /** Between drains, a nonempty lane whose sender is not in the middle of anything and owes no
      deferred publication has its bit set, so the next drain takes it. */
  lemma WaitingLaneIsAnnounced(run: seq<Sys>, i: nat, r: nat, p: nat, k: Kind)
    requires IsRun(run) && i < |run| && Shape(run[i]) && r < run[i].n && p < |run[i].send|
    requires run[i].recv[r].Running? && run[i].send[p].Idle?
    requires run[i].link[(r, p)].pend != 2 && 0 < run[i].link[(r, p)].lane.Get(k)
    ensures run[i].link[(r, p)].bit
  {
    NoLostWork(run, i, r, p, k);
    ActiveTokenIsUnique(run, i, r, p);
  }

  /** A drain ends in an attempt to sleep exactly if it belongs to a park section and took nothing. */
  lemma EmptyDrainTriesToSleep(run: seq<Sys>, steps: seq<Step>, i: nat, r: nat)
    requires IsTrace(run, steps) && i < |steps| && steps[i] == EndDrain(r)
    requires Shape(run[i]) && r < run[i].n && run[i].recv[r].Hub?
    ensures Shape(run[i + 1]) && run[i + 1].n == run[i].n
    ensures var d := run[i].recv[r].d;
      run[i + 1].recv[r] == if d.snap.Snap? && !d.got then Cas(d.snap.value) else Running
  {
    VisitStepsShape(run[i], steps[i]);
    assert run[i + 1] == Apply(run[i], steps[i]);
  }

  /** A worker that found nothing falls asleep exactly if no producer has bumped its wake sequence
      since it took its snapshot; the 32-bit comparison is never deceived. */
  lemma SleepsIffNoBump(run: seq<Sys>, steps: seq<Step>, i: nat, r: nat)
    requires IsTrace(run, steps) && i < |steps| && steps[i] == RecvStep(r)
    requires Shape(run[i]) && r < run[i].n && run[i].recv[r].Cas?
    ensures Shape(run[i + 1]) && run[i + 1].n == run[i].n
    ensures run[i + 1].recv[r].Parked? <==> run[i].box[r].bumps == 0
    ensures !run[i + 1].recv[r].Parked? ==> run[i + 1].recv[r].Running? && run[i + 1].box[r] == run[i].box[r]
  {
    TraceIsRun(run, steps);
    RunKeeps(run, i);
    assert BoxInv(run[i], r);
    RecvStepShape(run[i], r);
    assert run[i + 1] == Apply(run[i], steps[i]);
  }

  /** A worker that wakes up runs again with the sentinel gone and the signal taken. */
  lemma AwakeClearsSentinel(run: seq<Sys>, steps: seq<Step>, i: nat, r: nat)
    requires IsTrace(run, steps) && i < |steps| && steps[i] == RecvStep(r)
    requires Shape(run[i]) && r < run[i].n && (run[i].recv[r].Parked? || run[i].recv[r].Unpark?)
    ensures Shape(run[i + 1]) && run[i + 1].n == run[i].n
    ensures run[i].recv[r].Parked? ==> run[i + 1].recv[r].Unpark? && !run[i + 1].box[r].signal
    ensures run[i].recv[r].Unpark? ==> run[i + 1].recv[r].Running? && run[i + 1].box[r].wakeSeq == 0
  {
    RecvStepShape(run[i], r);
    assert run[i + 1] == Apply(run[i], steps[i]);
  }

  /** A bump pays the producer's debt to that receiver, counts once, and is followed by a wake exactly
      if it met the sentinel. */
  lemma BumpPaysDebt(run: seq<Sys>, steps: seq<Step>, i: nat, p: nat)
    requires IsTrace(run, steps) && i < |steps| && steps[i] == SendStep(p)
    requires Shape(run[i]) && p < |run[i].send| && run[i].send[p].Bump?
    ensures Shape(run[i + 1]) && run[i + 1].n == run[i].n && |run[i + 1].send| == |run[i].send|
    ensures var s, t, r := run[i], run[i + 1], run[i].send[p].target;
      && t.link[(r, p)] == s.link[(r, p)].(pend := 0)
      && t.box[r].wakeSeq == (if s.box[r].wakeSeq + 1 == 0x1_0000_0000 then 0 else s.box[r].wakeSeq + 1)
      && t.send[p] == if s.box[r].wakeSeq == PARKED then Wake(r) else Idle
  {
    TraceIsRun(run, steps);
    RunKeeps(run, i);
    assert BoxInv(run[i], run[i].send[p].target);
    SendStepShape(run[i], p);
    assert run[i + 1] == Apply(run[i], steps[i]);
  }

  /** No lost wakeup: while a worker is parked, either a wake is pending or in flight, or
      every message left for it belongs to a producer that has yet to bump its wake_seq. */
  lemma NoLostWakeup(run: seq<Sys>, i: nat, r: nat)
    requires IsRun(run) && i < |run| && Shape(run[i]) && r < run[i].n && run[i].recv[r].Parked?
    ensures var s := run[i]; var b := s.box[r];
      || b.signal
      || (exists p :: 0 <= p < |s.send| && s.send[p] == Wake(r))
      || (&& b.wakeSeq == PARKED
          && forall p | 0 <= p < |s.send| && !s.link[(r, p)].Empty() :: Debt(s.link[(r, p)], s.send[p], r))
  {
    RunKeeps(run, i);
    var s := run[i];
    assert BoxInv(s, r);
    if s.box[r].bumps == 0 {
      forall p | 0 <= p < |s.send| && !Debt(s.link[(r, p)], s.send[p], r)
        ensures s.link[(r, p)].Empty()
      {
        assert PairOk(s, r, p);
        forall k: Kind ensures s.link[(r, p)].lane.Get(k) == 0 && s.link[(r, p)].overflow.Get(k) == 0 {
          assert KindInv(s.link[(r, p)], s.send[p], s.recv[r], s.box[r], r, p, k);
        }
      }
    }
  }

  /** The system cannot fall asleep on its own mail: when every worker is parked, no wake is
      pending and no producer is in the middle of a post or a wake, every queue is empty. */
  lemma NoStall(run: seq<Sys>, i: nat)
    requires IsRun(run) && i < |run| && Shape(run[i])
    requires forall r | 0 <= r < run[i].n :: run[i].recv[r].Parked? && !run[i].box[r].signal
    requires forall p | 0 <= p < |run[i].send| :: run[i].send[p].Idle?
    ensures forall r, p | 0 <= r < run[i].n && 0 <= p < |run[i].send| :: run[i].link[(r, p)].Empty()
  {
    RunKeeps(run, i);
    var s := run[i];
    forall r, p | 0 <= r < s.n && 0 <= p < |s.send| ensures s.link[(r, p)].Empty() {
      NoLostWakeup(run, i, r);
      assert PairOk(s, r, p);
      if p < s.n { assert BoxInv(s, p); }
      assert !Debt(s.link[(r, p)], s.send[p], r);
    }
  }
}
