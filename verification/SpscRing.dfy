/**
 The bounded single-producer single-consumer ring under every interleaving of its two
 sides. The producer keeps a stale snapshot of the consumer's head and refreshes it only
 when the ring looks full; the consumer copies a whole batch before it stores its head.
 Each load or store of a shared word is one step.
 */
module SpscRing {

  /** The producer between the shared accesses of try_enqueue. */
  datatype Producer<T> =
    | Ready
    | LoadHead(value: T)   // the snapshot says full: about to load head
    | Write(value: T)      // a slot is free: about to write the entry
    | StoreTail(value: T)  // entry written: about to publish it

  /** The consumer between the shared accesses of try_dequeue_bulk. */
  datatype Consumer<T> =
    | Waiting
    | LoadTail(maximum: nat)
    | Copy(limit: nat, at: nat, output: seq<T>, maximum: nat)  // snapshot of tail, local head
    | StoreHead(at: nat, output: seq<T>)

  /** `sent` and `received` record what the two sides were told they moved. */
  datatype Ring<T> = Ring(
    entries: seq<T>, head: nat, tail: nat, cachedHead: nat,
    producer: Producer<T>, consumer: Consumer<T>,
    sent: seq<T>, received: seq<T>)

  datatype Step<T> =
    | Enqueue(value: T)
    | ProducerStep
    | Dequeue(maximum: nat)
    | ConsumerStep

  /** (i + 1) & (capacity - 1), for a power-of-two capacity. */
  function Next(i: nat, capacity: nat): nat {
    if i + 1 == capacity then 0 else i + 1
  }

  predicate Enabled<T>(r: Ring<T>, st: Step<T>) {
    match st
    case Enqueue(_) => r.producer.Ready?
    case ProducerStep => !r.producer.Ready?
    case Dequeue(_) => r.consumer.Waiting?
    case ConsumerStep => !r.consumer.Waiting?
  }

  predicate Shape<T>(r: Ring<T>) {
    && 2 <= |r.entries| && r.head < |r.entries| && r.tail < |r.entries|
    && (r.consumer.Copy? ==> r.consumer.at < |r.entries|)
  }

  function Apply<T>(r: Ring<T>, st: Step<T>): (r': Ring<T>)
    requires Shape(r) && Enabled(r, st)
  {
    var capacity := |r.entries|;
    match st
    case Enqueue(v) =>
      r.(producer := if Next(r.tail, capacity) == r.cachedHead then LoadHead(v) else Write(v))
    case ProducerStep => (
      match r.producer
      case LoadHead(v) =>
        // Still full after the refresh: try_enqueue returns false.
        r.(cachedHead := r.head,
           producer := if Next(r.tail, capacity) == r.head then Ready else Write(v))
      case Write(v) => r.(entries := r.entries[r.tail := v], producer := StoreTail(v))
      case StoreTail(v) => r.(tail := Next(r.tail, capacity), sent := r.sent + [v], producer := Ready)
    )
    case Dequeue(maximum) => r.(consumer := LoadTail(maximum))
    case ConsumerStep => (
      match r.consumer
      case LoadTail(maximum) => r.(consumer := Copy(r.tail, r.head, [], maximum))
      case Copy(limit, at, output, maximum) =>
        if at != limit && |output| < maximum then
          r.(consumer := Copy(limit, Next(at, capacity), output + [r.entries[at]], maximum))
        else if output != [] then r.(consumer := StoreHead(at, output))
        else r.(consumer := Waiting)
      case StoreHead(at, output) =>
        r.(head := at, received := r.received + output, consumer := Waiting)
    )
  }

  // ---------------------------------------------------------------- slot arithmetic

  /** The slot of a position counted from the first message ever sent. */
  function Slot(i: nat, capacity: nat): (slot: nat)
    requires 0 < capacity
    ensures slot < capacity
  {
    if i < capacity then i else Slot(i - capacity, capacity)
  }

  lemma {:induction false} NextSlot(i: nat, capacity: nat)
    requires 0 < capacity
    ensures Next(Slot(i, capacity), capacity) == Slot(i + 1, capacity)
  {
    if capacity <= i { NextSlot(i - capacity, capacity); }
  }

  /** Two positions less than a capacity apart share a slot only if they are equal. */
  lemma {:induction false} SlotsDiffer(i: nat, j: nat, capacity: nat)
    requires 0 < capacity && i <= j < i + capacity && Slot(i, capacity) == Slot(j, capacity)
    ensures i == j
  {
    if capacity <= i {
      SlotsDiffer(i - capacity, j - capacity, capacity);
    }
  }

  // ---------------------------------------------------------------- the invariant

  /** The unread positions are |received| .. |sent|; `seen` is the position behind cachedHead. */
  ghost predicate Queue<T>(r: Ring<T>, seen: nat) {
    var c := |r.entries|;
    && Shape(r) && 0 < c
    && seen <= |r.received| <= |r.sent| < seen + c
    && r.head == Slot(|r.received|, c) && r.tail == Slot(|r.sent|, c) && r.cachedHead == Slot(seen, c)
    && Stored(r.entries, r.sent, |r.received|)
  }

  /** Every position from `first` on is still in its slot. */
  ghost predicate Stored<T>(entries: seq<T>, sent: seq<T>, first: nat) {
    0 < |entries| && forall i {:trigger sent[i]} | first <= i < |sent| :: entries[Slot(i, |entries|)] == sent[i]
  }

  ghost predicate ProducerOk<T>(r: Ring<T>, seen: nat) {
    match r.producer
    case Ready => true
    case LoadHead(_) => true
    case Write(_) => |r.sent| + 1 < seen + |r.entries|
    case StoreTail(v) =>
      |r.sent| + 1 < seen + |r.entries| && r.tail < |r.entries| && r.entries[r.tail] == v
  }

  /** `limit` is the position of the consumer's tail snapshot. */
  ghost predicate ConsumerOk<T>(r: Ring<T>, limit: nat) {
    0 < |r.entries| &&
    match r.consumer
    case Waiting => true
    case LoadTail(_) => true
    case Copy(l, at, output, maximum) =>
      && |r.received| + |output| <= limit <= |r.sent| && |output| <= maximum
      && l == Slot(limit, |r.entries|) && at == Slot(|r.received| + |output|, |r.entries|)
      && r.received + output <= r.sent
    case StoreHead(at, output) =>
      at == Slot(|r.received| + |output|, |r.entries|) && r.received + output <= r.sent
  }

  ghost predicate Inv<T>(r: Ring<T>, seen: nat, limit: nat) {
    Queue(r, seen) && ProducerOk(r, seen) && ConsumerOk(r, limit) && r.received <= r.sent
  }

  ghost function SeenAfter<T>(r: Ring<T>, st: Step<T>, seen: nat): nat {
    if st.ProducerStep? && r.producer.LoadHead? then |r.received| else seen
  }

  ghost function LimitAfter<T>(r: Ring<T>, st: Step<T>, limit: nat): nat {
    if st.ConsumerStep? && r.consumer.LoadTail? then |r.sent| else limit
  }

  lemma WriteKeeps<T>(r: Ring<T>, seen: nat, limit: nat)
    requires Inv(r, seen, limit) && r.producer.Write?
    ensures Inv(Apply(r, ProducerStep), seen, limit)
  {
    var c := |r.entries|;
    var r' := Apply(r, ProducerStep);
    forall i {:trigger r'.sent[i]} | |r'.received| <= i < |r'.sent| ensures r'.entries[Slot(i, c)] == r'.sent[i] {
      assert r.entries[Slot(i, c)] == r.sent[i];
      if Slot(i, c) == r.tail { SlotsDiffer(i, |r.sent|, c); }
    }
  }

  /** The next tail meets the slot of an earlier position only when the ring is full from there. */
  lemma RoomUnlessFull(sent: nat, from: nat, c: nat)
    requires 0 < c && from <= sent < from + c
    requires Next(Slot(sent, c), c) != Slot(from, c)
    ensures sent + 1 < from + c
  {
    NextSlot(sent, c);
    assert Slot(from + c, c) == Slot(from, c);
  }

  lemma BeginKeeps<T>(r: Ring<T>, value: T, seen: nat, limit: nat)
    requires Inv(r, seen, limit) && r.producer.Ready?
    ensures Inv(Apply(r, Enqueue(value)), seen, limit)
  {
    if Next(r.tail, |r.entries|) != r.cachedHead { RoomUnlessFull(|r.sent|, seen, |r.entries|); }
  }

  lemma RefreshKeeps<T>(r: Ring<T>, seen: nat, limit: nat)
    requires Inv(r, seen, limit) && r.producer.LoadHead?
    ensures Inv(Apply(r, ProducerStep), |r.received|, limit)
  {
    if Next(r.tail, |r.entries|) != r.head { RoomUnlessFull(|r.sent|, |r.received|, |r.entries|); }
  }

  lemma PublishKeeps<T>(r: Ring<T>, seen: nat, limit: nat)
    requires Inv(r, seen, limit) && r.producer.StoreTail?
    ensures Inv(Apply(r, ProducerStep), seen, limit)
  {
    NextSlot(|r.sent|, |r.entries|);
  }

  lemma ProducerKeeps<T>(r: Ring<T>, st: Step<T>, seen: nat, limit: nat)
    requires Inv(r, seen, limit) && Enabled(r, st) && (st.Enqueue? || st.ProducerStep?)
    ensures Inv(Apply(r, st), SeenAfter(r, st, seen), limit)
  {
    if st.Enqueue? {
      BeginKeeps(r, st.value, seen, limit);
    } else {
      match r.producer
      case LoadHead(_) => RefreshKeeps(r, seen, limit);
      case Write(_) => WriteKeeps(r, seen, limit);
      case StoreTail(_) => PublishKeeps(r, seen, limit);
    }
  }

  lemma ExtendPrefix<T>(a: seq<T>, b: seq<T>, sent: seq<T>)
    requires a + b <= sent && |a + b| < |sent|
    ensures a + (b + [sent[|a + b|]]) <= sent
  {
    assert a + (b + [sent[|a + b|]]) == (a + b) + [sent[|a + b|]] == sent[..|a + b| + 1];
  }

  lemma CopyOneKeeps<T>(r: Ring<T>, seen: nat, limit: nat)
    requires Inv(r, seen, limit) && r.consumer.Copy?
    requires r.consumer.at != r.consumer.limit && |r.consumer.output| < r.consumer.maximum
    ensures Inv(Apply(r, ConsumerStep), seen, limit)
  {
    var at := |r.received| + |r.consumer.output|;
    assert |r.received + r.consumer.output| == at && r.entries[Slot(at, |r.entries|)] == r.sent[at];
    NextSlot(at, |r.entries|);
    ExtendPrefix(r.received, r.consumer.output, r.sent);
  }

  lemma CopyKeeps<T>(r: Ring<T>, seen: nat, limit: nat)
    requires Inv(r, seen, limit) && r.consumer.Copy?
    ensures Inv(Apply(r, ConsumerStep), seen, limit)
  {
    if r.consumer.at != r.consumer.limit && |r.consumer.output| < r.consumer.maximum {
      CopyOneKeeps(r, seen, limit);
    }
  }

  lemma ConsumerKeeps<T>(r: Ring<T>, st: Step<T>, seen: nat, limit: nat)
    requires Inv(r, seen, limit) && Enabled(r, st) && (st.Dequeue? || st.ConsumerStep?)
    ensures Inv(Apply(r, st), seen, LimitAfter(r, st, limit))
  {
    if st.ConsumerStep? && r.consumer.Copy? {
      CopyKeeps(r, seen, limit);
    }
  }

  // ---------------------------------------------------------------- every run

  ghost predicate Init<T>(r: Ring<T>) {
    && 2 <= |r.entries| && r.head == r.tail == r.cachedHead == 0
    && r.producer.Ready? && r.consumer.Waiting? && r.sent == r.received == []
  }

  ghost predicate IsRun<T>(run: seq<Ring<T>>, steps: seq<Step<T>>) {
    && |run| == |steps| + 1 && Init(run[0])
    && forall i {:trigger steps[i]} | 0 <= i < |steps| ::
         Shape(run[i]) && Enabled(run[i], steps[i]) && run[i + 1] == Apply(run[i], steps[i])
  }

  lemma {:induction false} RunKeeps<T>(run: seq<Ring<T>>, steps: seq<Step<T>>, i: nat)
    returns (seen: nat, limit: nat)
    requires IsRun(run, steps) && i < |run|
    ensures Inv(run[i], seen, limit)
  {
    if i == 0 {
      seen, limit := 0, 0;
    } else {
      seen, limit := RunKeeps(run, steps, i - 1);
      var r, st := run[i - 1], steps[i - 1];
      if st.Enqueue? || st.ProducerStep? {
        ProducerKeeps(r, st, seen, limit);
      } else {
        ConsumerKeeps(r, st, seen, limit);
      }
      seen, limit := SeenAfter(r, st, seen), LimitAfter(r, st, limit);
    }
  }

  /** In every interleaving, what was dequeued is a prefix of what was enqueued. */
  lemma DequeuedIsPrefix<T>(run: seq<Ring<T>>, steps: seq<Step<T>>, i: nat)
    requires IsRun(run, steps) && i < |run|
    ensures run[i].received <= run[i].sent
    ensures |run[i].sent| - |run[i].received| < |run[i].entries|
  {
    var _, _ := RunKeeps(run, steps, i);
  }

  /** The producer never overwrites a slot that still holds an unread message, not even one
      the consumer is in the middle of copying. */
  lemma NoOverwrite<T>(run: seq<Ring<T>>, steps: seq<Step<T>>, i: nat, unread: nat)
    requires IsRun(run, steps) && i < |run| && run[i].producer.Write?
    requires |run[i].received| <= unread < |run[i].sent|
    ensures 0 < |run[i].entries| && run[i].tail != Slot(unread, |run[i].entries|)
  {
    var seen, limit := RunKeeps(run, steps, i);
    var c := |run[i].entries|;
    if run[i].tail == Slot(unread, c) { SlotsDiffer(unread, |run[i].sent|, c); }
  }

  /** try_enqueue refuses exactly when the ring holds capacity - 1 unread messages at the
      moment it refreshes its snapshot. */
  lemma RefusesIffFull<T>(run: seq<Ring<T>>, steps: seq<Step<T>>, i: nat)
    requires IsRun(run, steps) && i < |steps| && steps[i].ProducerStep? && run[i].producer.LoadHead?
    ensures run[i + 1].producer.Ready? <==> |run[i].sent| - |run[i].received| == |run[i].entries| - 1
  {
    var seen, limit := RunKeeps(run, steps, i);
    var r := run[i];
    var c := |r.entries|;
    NextSlot(|r.sent|, c);
    assert run[i + 1] == Apply(r, steps[i]);
    if |r.sent| + 1 == |r.received| + c {
      assert Slot(|r.received| + c, c) == Slot(|r.received|, c);
    } else if Slot(|r.sent| + 1, c) == Slot(|r.received|, c) {
      SlotsDiffer(|r.received|, |r.sent| + 1, c);
    }
  }

  /** Steps j .. i run inside one bulk dequeue that loaded tail at step j. */
  ghost predicate InBatch<T>(run: seq<Ring<T>>, steps: seq<Step<T>>, j: nat, i: nat) {
    && IsRun(run, steps) && j < i < |run|
    && steps[j].ConsumerStep? && run[j].consumer.LoadTail?
    && forall k | j < k <= i :: run[k].consumer.Copy?
  }

  lemma BatchContinues<T>(r: Ring<T>, st: Step<T>)
    requires Shape(r) && Enabled(r, st) && r.consumer.Copy? && Apply(r, st).consumer.Copy?
    ensures Apply(r, st).received == r.received && r.sent <= Apply(r, st).sent
    ensures Apply(r, st).consumer.maximum == r.consumer.maximum
  {
  }

  /** What a bulk dequeue that loaded tail in state `r0` maintains. */
  ghost predicate BatchInv<T>(r0: Ring<T>, r: Ring<T>, seen: nat) {
    && r0.consumer.LoadTail? && r.consumer.Copy? && Inv(r, seen, |r0.sent|)
    && r.received == r0.received && r0.sent <= r.sent && r.consumer.maximum == r0.consumer.maximum
  }

  lemma BatchStep<T>(r0: Ring<T>, r: Ring<T>, st: Step<T>, seen: nat) returns (seen': nat)
    requires BatchInv(r0, r, seen) && Enabled(r, st) && Apply(r, st).consumer.Copy?
    ensures BatchInv(r0, Apply(r, st), seen')
  {
    seen' := SeenAfter(r, st, seen);
    BatchContinues(r, st);
    if st.Enqueue? || st.ProducerStep? {
      ProducerKeeps(r, st, seen, |r0.sent|);
    } else {
      ConsumerKeeps(r, st, seen, |r0.sent|);
    }
  }

  lemma BatchStarts<T>(r: Ring<T>, st: Step<T>, seen: nat, limit: nat)
    requires Inv(r, seen, limit) && Enabled(r, st) && st.ConsumerStep? && r.consumer.LoadTail?
    requires Apply(r, st).consumer.Copy?
    ensures BatchInv(r, Apply(r, st), seen)
  {
    ConsumerKeeps(r, st, seen, limit);
  }

  lemma {:induction false} BatchKeeps<T>(run: seq<Ring<T>>, steps: seq<Step<T>>, j: nat, i: nat)
    returns (seen: nat)
    requires InBatch(run, steps, j, i)
    ensures BatchInv(run[j], run[i], seen)
  {
    if i == j + 1 {
      var limit;
      seen, limit := RunKeeps(run, steps, j);
      assert run[i] == Apply(run[j], steps[j]);
      BatchStarts(run[j], steps[j], seen, limit);
    } else {
      seen := BatchKeeps(run, steps, j, i - 1);
      assert run[i] == Apply(run[i - 1], steps[i - 1]);
      seen := BatchStep(run[j], run[i - 1], steps[i - 1], seen);
    }
  }

  /** Whatever the producer does meanwhile, a bulk dequeue delivers exactly the messages that
      were published when it loaded tail, oldest first, up to its maximum. */
  lemma BatchIsExact<T>(run: seq<Ring<T>>, steps: seq<Step<T>>, j: nat, i: nat)
    requires InBatch(run, steps, j, i) && i < |steps|
    requires steps[i].ConsumerStep? && !run[i + 1].consumer.Copy?
    ensures |run[j].received| <= |run[j].sent|
    ensures var available := |run[j].sent| - |run[j].received|;
      var count := if run[j].consumer.maximum < available then run[j].consumer.maximum else available;
      run[i].consumer.output == run[j].sent[|run[j].received|..|run[j].received| + count]
  {
    var seen := BatchKeeps(run, steps, j, i);
    var r, limit := run[i], |run[j].sent|;
    var at := |r.received| + |r.consumer.output|;
    assert run[i + 1] == Apply(r, steps[i]);
    if |r.consumer.output| < r.consumer.maximum {
      SlotsDiffer(at, limit, |r.entries|);
    }
    assert r.received + r.consumer.output == r.sent[..at] == run[j].sent[..at];
  }

  // ---------------------------------------------------------------- from what the callers see

  /** The values offered so far, without those that were refused. */
  ghost function Sends<T>(run: seq<Ring<T>>, steps: seq<Step<T>>, i: nat): seq<T>
    requires IsRun(run, steps) && i < |run|
  {
    if i == 0 then []
    else
      var before := Sends(run, steps, i - 1);
      if steps[i - 1].Enqueue? then before + [steps[i - 1].value]
      else if steps[i - 1].ProducerStep? && run[i - 1].producer.LoadHead? && run[i].producer.Ready? && before != []
      then before[..|before| - 1]
      else before
  }

  /** What the bulk dequeues that have returned gave their callers, one after the other. */
  ghost function Returns<T>(run: seq<Ring<T>>, steps: seq<Step<T>>, i: nat): seq<T>
    requires IsRun(run, steps) && i < |run|
  {
    if i == 0 then []
    else
      var before := Returns(run, steps, i - 1);
      if steps[i - 1].ConsumerStep? && run[i - 1].consumer.StoreHead? then before + run[i - 1].consumer.output
      else before
  }

  /** The value try_enqueue is working on. */
  function InHand<T>(p: Producer<T>): seq<T> { if p.Ready? then [] else [p.value] }

  lemma {:induction false} SendsAreSent<T>(run: seq<Ring<T>>, steps: seq<Step<T>>, i: nat)
    requires IsRun(run, steps) && i < |run|
    ensures Sends(run, steps, i) == run[i].sent + InHand(run[i].producer)
  {
    if 0 < i {
      SendsAreSent(run, steps, i - 1);
      assert run[i] == Apply(run[i - 1], steps[i - 1]);
    }
  }

  lemma {:induction false} ReturnsAreReceived<T>(run: seq<Ring<T>>, steps: seq<Step<T>>, i: nat)
    requires IsRun(run, steps) && i < |run|
    ensures Returns(run, steps, i) == run[i].received
  {
    if 0 < i {
      ReturnsAreReceived(run, steps, i - 1);
      assert run[i] == Apply(run[i - 1], steps[i - 1]);
    }
  }

  /** First in, first out, nothing lost, repeated or invented: what all dequeues together returned is
      a prefix of what the enqueues that were not refused offered, in order. */
  lemma FirstInFirstOut<T>(run: seq<Ring<T>>, steps: seq<Step<T>>, i: nat)
    requires IsRun(run, steps) && i < |run|
    ensures Returns(run, steps, i) <= Sends(run, steps, i)
    ensures |Sends(run, steps, i)| <= |Returns(run, steps, i)| + |run[i].entries|
  {
    SendsAreSent(run, steps, i);
    ReturnsAreReceived(run, steps, i);
    DequeuedIsPrefix(run, steps, i);
  }
}
