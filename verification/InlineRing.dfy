/**
 The resizable FIFO ring: power-of-two slots indexed through a mask, growth by doubling,
 shrinking after a full capacity's worth of pops at low water, and what all that copying costs.
 */
module InlineRing {
  import opened Bits

  const MAX_CAPACITY: nat := 0x4000_0000

  // ---------------------------------------------------------------- the ring

  /** The live elements of a ring, oldest first. */
  ghost function Live<T>(slots: seq<T>, head: nat, size: nat): seq<T>
    requires head < |slots| && size <= |slots|
  {
    if head + size <= |slots| then slots[head..head + size]
    else slots[head..] + slots[..head + size - |slots|]
  }

  lemma LivePush<T>(slots: seq<T>, head: nat, size: nat, value: T)
    requires head < |slots| && size < |slots|
    ensures Live(slots[Wrap(head + size, |slots|) := value], head, size + 1) == Live(slots, head, size) + [value]
  {
  }

  lemma LivePop<T>(slots: seq<T>, head: nat, size: nat)
    requires head < |slots| && 0 < size <= |slots|
    ensures Live(slots, Wrap(head + 1, |slots|), size - 1) == Live(slots, head, size)[1..]
  {
  }

  lemma LiveAt<T>(slots: seq<T>, head: nat, size: nat, i: nat)
    requires head < |slots| && i < size <= |slots|
    ensures Live(slots, head, size)[i] == slots[Wrap(head + i, |slots|)]
  {
  }

  // ---------------------------------------------------------------- the resizing policy

  datatype Shape = Shape(size: nat, capacity: nat, low: nat)

  datatype Op =
    | Push(allocates: bool)
    | Pop(allocates: bool)
    | Clear

  ghost predicate InlineOk(inlined: nat) { PowerOfTwo(inlined) && inlined <= 0x2000_0000 }

  function MinHeap(inlined: nat): nat { if 8 < 2 * inlined then 2 * inlined else 8 }

  function LowWaterLimit(inlined: nat, capacity: nat): nat {
    if capacity == MinHeap(inlined) then inlined else capacity / 4
  }

  ghost predicate ShapeOk(inlined: nat, s: Shape) {
    && InlineOk(inlined) && s.size <= s.capacity <= MAX_CAPACITY && PowerOfTwo(s.capacity) && s.low < s.capacity
    && (if s.capacity == inlined then s.low == 0 else MinHeap(inlined) <= s.capacity)
  }

  function Grown(inlined: nat, capacity: nat): nat {
    if capacity == inlined then MinHeap(inlined) else 2 * capacity
  }

  function Shrunk(inlined: nat, capacity: nat): nat {
    if capacity == MinHeap(inlined) then inlined else capacity / 2
  }

  /** A push fails only when it has to grow and cannot. */
  predicate PushFails(s: Shape, allocates: bool) {
    s.size == s.capacity && (s.capacity == MAX_CAPACITY || !allocates)
  }

  function Pushed(inlined: nat, s: Shape, allocates: bool): Shape {
    if PushFails(s, allocates) then s
    else
      var g := if s.size == s.capacity then Shape(s.size, Grown(inlined, s.capacity), 0) else s;
      var high := inlined < g.capacity && LowWaterLimit(inlined, g.capacity) < s.size + 1;
      Shape(s.size + 1, g.capacity, if high then 0 else g.low)
  }

  predicate ShrinkDue(inlined: nat, s: Shape) {
    s.capacity != inlined && s.size <= LowWaterLimit(inlined, s.capacity) + 1 && s.low + 1 == s.capacity
  }

  /** Shrinking into the inline slots needs no allocation. */
  predicate ShrinkDone(inlined: nat, s: Shape, allocates: bool) {
    ShrinkDue(inlined, s) && (allocates || Shrunk(inlined, s.capacity) == inlined)
  }

  function Popped(inlined: nat, s: Shape, allocates: bool): Shape
    requires 0 < s.size
  {
    if s.capacity == inlined then Shape(s.size - 1, s.capacity, s.low)
    else if LowWaterLimit(inlined, s.capacity) < s.size - 1 then Shape(s.size - 1, s.capacity, 0)
    else if !ShrinkDue(inlined, s) then Shape(s.size - 1, s.capacity, s.low + 1)
    else Shape(s.size - 1, if ShrinkDone(inlined, s, allocates) then Shrunk(inlined, s.capacity) else s.capacity, 0)
  }

  predicate Legal(s: Shape, op: Op) { op.Pop? ==> 0 < s.size }

  function Next(inlined: nat, s: Shape, op: Op): Shape
    requires Legal(s, op)
  {
    match op
    case Push(allocates) => Pushed(inlined, s, allocates)
    case Pop(allocates) => Popped(inlined, s, allocates)
    case Clear => Shape(0, s.capacity, 0)
  }

  /** The elements that growing or shrinking relocates during one operation. */
  function Copied(inlined: nat, s: Shape, op: Op): nat {
    match op
    case Push(allocates) => if s.size == s.capacity && !PushFails(s, allocates) then s.size else 0
    case Pop(allocates) => if 0 < s.size && ShrinkDone(inlined, s, allocates) then s.size - 1 else 0
    case Clear => 0
  }

  lemma Powers(inlined: nat)
    requires InlineOk(inlined)
    ensures PowerOfTwo(MAX_CAPACITY)
    ensures PowerOfTwo(MinHeap(inlined)) && 2 * inlined <= MinHeap(inlined) <= MAX_CAPACITY
  {
    Thirty();
    assert Exp(3) == 8;
    PowersApart(inlined, MAX_CAPACITY);
  }

  /** Every operation keeps the shape well formed, and every shrink fits the live elements. */
  lemma NextOk(inlined: nat, s: Shape, op: Op)
    requires ShapeOk(inlined, s) && Legal(s, op)
    ensures ShapeOk(inlined, Next(inlined, s, op))
  {
    Powers(inlined);
    if s.capacity < MAX_CAPACITY { PowersApart(s.capacity, MAX_CAPACITY); }
    if MinHeap(inlined) < s.capacity { PowersApart(MinHeap(inlined), s.capacity); }
  }

  // ---------------------------------------------------------------- amortised cost

  /** What a queue has put aside for its next relocation. */
  function Credit(inlined: nat, s: Shape): nat {
    if s.capacity == inlined then s.size
    else (if s.capacity < 2 * s.size then 2 * s.size - s.capacity else 0) + s.low
  }

  datatype Ledger = Ledger(copies: nat, pushes: nat, pops: nat)

  function Added(a: Ledger, b: Ledger): Ledger {
    Ledger(a.copies + b.copies, a.pushes + b.pushes, a.pops + b.pops)
  }

  /** What one operation costs and accomplishes; a push that fails accomplishes nothing. */
  function Entry(inlined: nat, s: Shape, op: Op): Ledger {
    Ledger(Copied(inlined, s, op), if op.Push? && !PushFails(s, op.allocates) then 1 else 0, if op.Pop? then 1 else 0)
  }

  predicate LegalRun(inlined: nat, s: Shape, ops: seq<Op>)
    decreases |ops|
  {
    ops != [] ==> Legal(s, ops[0]) && LegalRun(inlined, Next(inlined, s, ops[0]), ops[1..])
  }

  function Total(inlined: nat, s: Shape, ops: seq<Op>): Ledger
    requires LegalRun(inlined, s, ops)
    decreases |ops|
  {
    if ops == [] then Ledger(0, 0, 0)
    else Added(Entry(inlined, s, ops[0]), Total(inlined, Next(inlined, s, ops[0]), ops[1..]))
  }

  lemma EntryPays(inlined: nat, s: Shape, op: Op)
    requires ShapeOk(inlined, s) && Legal(s, op)
    ensures var e := Entry(inlined, s, op);
      e.copies + Credit(inlined, Next(inlined, s, op)) <= Credit(inlined, s) + 2 * e.pushes + e.pops
  {
    Powers(inlined);
    if MinHeap(inlined) < s.capacity { PowersApart(MinHeap(inlined), s.capacity); }
  }

  lemma {:induction false} TotalPays(inlined: nat, s: Shape, ops: seq<Op>)
    requires ShapeOk(inlined, s) && LegalRun(inlined, s, ops)
    ensures Total(inlined, s, ops).copies <=
      Credit(inlined, s) + 2 * Total(inlined, s, ops).pushes + Total(inlined, s, ops).pops
    decreases |ops|
  {
    if ops != [] {
      EntryPays(inlined, s, ops[0]);
      NextOk(inlined, s, ops[0]);
      TotalPays(inlined, Next(inlined, s, ops[0]), ops[1..]);
    }
  }

  /** From an empty queue, growing and shrinking copy at most 2 * pushes + pops elements,
      over every sequence of operations and every pattern of allocation failures. */
  lemma AmortisedCopies(inlined: nat, ops: seq<Op>)
    requires InlineOk(inlined) && LegalRun(inlined, Shape(0, inlined, 0), ops)
    ensures var t := Total(inlined, Shape(0, inlined, 0), ops); t.copies <= 2 * t.pushes + t.pops
  {
    Powers(inlined);
    TotalPays(inlined, Shape(0, inlined, 0), ops);
  }

  function Final(inlined: nat, s: Shape, ops: seq<Op>): Shape
    requires LegalRun(inlined, s, ops)
    decreases |ops|
  {
    if ops == [] then s else Final(inlined, Next(inlined, s, ops[0]), ops[1..])
  }

  lemma CalmStep(inlined: nat, s: Shape, op: Op)
    requires ShapeOk(inlined, s) && Legal(s, op) && s.low + Entry(inlined, s, op).pops < s.capacity
    ensures var t := Next(inlined, s, op);
      s.capacity <= t.capacity && (t.capacity == s.capacity ==> t.low <= s.low + Entry(inlined, s, op).pops)
      && (s.capacity < t.capacity ==> t.low == 0)
  {
    Powers(inlined);
  }

  /** A queue does not shrink before a full capacity's worth of pops, however they are mixed
      with pushes: brief bursts never give memory back just to ask for it again. */
  lemma {:induction false} ShrinksOnlyAfterCalm(inlined: nat, s: Shape, ops: seq<Op>)
    requires ShapeOk(inlined, s) && LegalRun(inlined, s, ops)
    requires s.low + Total(inlined, s, ops).pops < s.capacity
    ensures s.capacity <= Final(inlined, s, ops).capacity
    decreases |ops|
  {
    if ops != [] {
      CalmStep(inlined, s, ops[0]);
      NextOk(inlined, s, ops[0]);
      ShrinksOnlyAfterCalm(inlined, Next(inlined, s, ops[0]), ops[1..]);
    }
  }

  // ---------------------------------------------------------------- the queue

  function Pops(ops: seq<Op>): nat { if ops == [] then 0 else Pops(ops[1..]) + if ops[0].Pop? then 1 else 0 }

  /** While the capacity stays, every operation leaves at most a quarter of it in use, or what fits
      inline at the smallest heap capacity, and allocation succeeds. */
  predicate Sparse(inlined: nat, s: Shape, ops: seq<Op>)
    requires LegalRun(inlined, s, ops)
    decreases |ops|
  {
    ops == [] ||
    var next := Next(inlined, s, ops[0]);
    && !ops[0].Clear? && ops[0].allocates && next.size <= (if s.capacity == MinHeap(inlined) then inlined else s.capacity / 4)
    && (next.capacity == s.capacity ==> Sparse(inlined, next, ops[1..]))
  }

  lemma SparseStep(inlined: nat, s: Shape, op: Op)
    requires InlineOk(inlined) && ShapeOk(inlined, s) && Legal(s, op) && s.capacity != inlined && !op.Clear? && op.allocates
    requires var next := Next(inlined, s, op);
      next.size <= if s.capacity == MinHeap(inlined) then inlined else s.capacity / 4
    ensures var next := Next(inlined, s, op);
      next.capacity < s.capacity || (next.capacity == s.capacity && next.low == s.low + if op.Pop? then 1 else 0)
  {
    Powers(inlined);
    if s.capacity != MinHeap(inlined) { PowersApart(MinHeap(inlined), s.capacity); }
  }

  /** Memory is given back: a queue that stays nearly empty for a full capacity's worth of pops gets
      a smaller capacity. */
  lemma {:induction false} ShrinksAfterCalm(inlined: nat, s: Shape, ops: seq<Op>) returns (k: nat)
    requires InlineOk(inlined) && ShapeOk(inlined, s) && s.capacity != inlined && LegalRun(inlined, s, ops)
    requires Sparse(inlined, s, ops) && s.capacity <= s.low + Pops(ops)
    ensures k <= |ops| && LegalRun(inlined, s, ops[..k]) && Final(inlined, s, ops[..k]).capacity < s.capacity
    decreases |ops|
  {
    if ops == [] {
      assert false;
    } else {
      var next := Next(inlined, s, ops[0]);
      SparseStep(inlined, s, ops[0]);
      NextOk(inlined, s, ops[0]);
      if next.capacity < s.capacity {
        k := 1;
        assert ops[..1][1..] == [] && ops[..1][0] == ops[0];
      } else {
        var j := ShrinksAfterCalm(inlined, next, ops[1..]);
        k := j + 1;
        assert ops[..k][1..] == ops[1..][..j] && ops[..k][0] == ops[0];
      }
    }
  }

  class InlineRingQueue<T(0)> {
    const inlineCapacity: nat
    var slots: array<T>
    var head: nat
    var size: nat
    var capacity: nat
    var lowWaterPops: nat
    ghost var copies: nat

    ghost predicate Valid()
      reads this
    {
      && ShapeOk(inlineCapacity, View()) && slots.Length == capacity && head < capacity
    }

    function View(): Shape
      reads this
    {
      Shape(size, capacity, lowWaterPops)
    }

    ghost function Contents(): seq<T>
      requires Valid()
      reads this, slots
    {
      Live(slots[..], head, size)
    }

    constructor (inlined: nat)
      requires InlineOk(inlined)
      ensures Valid() && fresh(slots) && inlineCapacity == inlined && Contents() == [] && copies == 0
      ensures View() == Shape(0, inlined, 0)
    {
      inlineCapacity, head, size, capacity, lowWaterPops := inlined, 0, 0, inlined, 0;
      slots := new T[inlined];
      copies := 0;
      new;
      Powers(inlined);
    }

    method At(index: nat) returns (value: T)
      requires Valid() && index < size
      ensures value == Contents()[index]
    {
      MaskWraps(head + index, capacity);
      LiveAt(slots[..], head, size, index);
      value := slots[And(head + index, capacity - 1)];
    }

    method Front() returns (value: T)
      requires Valid() && 0 < size
      ensures value == Contents()[0]
    {
      value := slots[head];
    }

    /** Relocates the live elements to the start of another array. */
    method CopyTo(destination: array<T>)
      requires Valid() && destination != slots && size <= destination.Length
      modifies destination, this`copies
      ensures Valid() && Contents() == old(Contents()) && destination[..size] == Contents()
      ensures copies == old(copies) + size
    {
      ghost var live := Contents();
      var first := if size < capacity - head then size else capacity - head;
      for i := 0 to first
        invariant copies == old(copies) + i
        invariant destination[..i] == live[..i]
      {
        LiveAt(slots[..], head, size, i);
        destination[i] := slots[head + i];
        copies := copies + 1;
      }
      for i := first to size
        invariant copies == old(copies) + i
        invariant destination[..i] == live[..i]
      {
        LiveAt(slots[..], head, size, i);
        destination[i] := slots[i - first];
        copies := copies + 1;
      }
    }

    method Grow(allocates: bool) returns (ok: bool)
      requires Valid() && size == capacity
      modifies this
      ensures ok <==> !PushFails(old(View()), allocates)
      ensures Valid() && Contents() == old(Contents())
      ensures if ok then fresh(slots) && View() == Shape(size, Grown(inlineCapacity, old(capacity)), 0)
              else unchanged(this)
      ensures size == old(size) && copies == old(copies) + if ok then size else 0
    {
      if capacity == MAX_CAPACITY || !allocates { return false; }
      Powers(inlineCapacity);
      PowersApart(capacity, MAX_CAPACITY);
      var larger := if capacity == inlineCapacity then MinHeap(inlineCapacity) else 2 * capacity;
      var data := new T[larger];
      CopyTo(data);
      slots, head, capacity, lowWaterPops := data, 0, larger, 0;
      ok := true;
    }

    method Shrink(allocates: bool)
      requires Valid() && lowWaterPops == 0 && capacity != inlineCapacity && size <= LowWaterLimit(inlineCapacity, capacity)
      modifies this
      ensures Valid() && Contents() == old(Contents()) && size == old(size) && lowWaterPops == old(lowWaterPops)
      ensures var smaller := Shrunk(inlineCapacity, old(capacity));
        && capacity == (if allocates || smaller == inlineCapacity then smaller else old(capacity))
        && copies == old(copies) + (if allocates || smaller == inlineCapacity then size else 0)
      ensures fresh(slots) || slots == old(slots)
    {
      Powers(inlineCapacity);
      if capacity != MinHeap(inlineCapacity) { PowersApart(MinHeap(inlineCapacity), capacity); }
      var smaller := if capacity == MinHeap(inlineCapacity) then inlineCapacity else capacity / 2;
      if smaller != inlineCapacity && !allocates { return; }
      var data := new T[smaller];
      CopyTo(data);
      slots, head, capacity := data, 0, smaller;
    }

    /** Writes the slot behind the last element. */
    method Append(value: T)
      requires Valid() && size < capacity
      modifies this`size, slots
      ensures Valid() && Contents() == old(Contents()) + [value] && size == old(size) + 1
    {
      MaskWraps(head + size, capacity);
      LivePush(slots[..], head, size, value);
      slots[And(head + size, capacity - 1)] := value;
      size := size + 1;
    }

    method PushBack(value: T, allocates: bool) returns (ok: bool)
      requires Valid()
      modifies this, slots
      ensures Valid() && ok == !PushFails(old(View()), allocates)
      ensures Contents() == if ok then old(Contents()) + [value] else old(Contents())
      ensures View() == Pushed(inlineCapacity, old(View()), allocates)
      ensures copies == old(copies) + Copied(inlineCapacity, old(View()), Push(allocates))
      ensures fresh(slots) || slots == old(slots)
    {
      if size == capacity {
        ok := Grow(allocates);
        if !ok { return; }
        assert size < capacity by { Powers(inlineCapacity); }
      }
      Append(value);
      if inlineCapacity < capacity && LowWaterLimit(inlineCapacity, capacity) < size {
        lowWaterPops := 0;
      }
      ok := true;
    }

    /** Moves the head past the oldest element. */
    method Advance()
      requires Valid() && 0 < size
      modifies this`head, this`size
      ensures Valid() && Contents() == old(Contents())[1..] && size == old(size) - 1
    {
      var next := And(head + 1, capacity - 1);
      ghost var ring := slots[..];
      assert next == Wrap(head + 1, |ring|) < |ring| by { MaskWraps(head + 1, capacity); }
      LivePop(ring, head, size);
      head, size := next, size - 1;
      assert slots[..] == ring;
    }

    method PopFront(allocates: bool)
      requires Valid() && 0 < size
      modifies this
      ensures Valid() && Contents() == old(Contents())[1..]
      ensures View() == Popped(inlineCapacity, old(View()), allocates)
      ensures copies == old(copies) + Copied(inlineCapacity, old(View()), Pop(allocates))
      ensures fresh(slots) || slots == old(slots)
    {
      Advance();
      if capacity == inlineCapacity { return; }
      if size <= LowWaterLimit(inlineCapacity, capacity) {
        if lowWaterPops + 1 == capacity {
          lowWaterPops := 0;  // the first thing Shrink does, whatever becomes of the allocation
          Shrink(allocates);
        } else {
          lowWaterPops := lowWaterPops + 1;
        }
      } else {
        lowWaterPops := 0;
      }
    }

    method Clear()
      requires Valid()
      modifies this
      ensures Valid() && Contents() == [] && View() == Shape(0, old(capacity), 0)
      ensures slots == old(slots) && copies == old(copies)
    {
      head, size, lowWaterPops := 0, 0, 0;
    }

    /** Move assignment: inline elements are copied, a heap array changes hands. */
    method MoveFrom(other: InlineRingQueue<T>)
      requires Valid() && other.Valid() && inlineCapacity == other.inlineCapacity
      requires other != this ==> slots != other.slots
      modifies this, other, slots
      ensures Valid() && other.Valid() && Contents() == old(other.Contents()) && View() == old(other.View())
      ensures other != this ==> slots != other.slots && other.View() == Shape(0, inlineCapacity, 0)
    {
      if other == this { return; }
      if other.capacity == inlineCapacity {
        if capacity != inlineCapacity { slots := new T[inlineCapacity]; }
        other.CopyTo(slots);
        head := 0;
      } else {
        slots, head := other.slots, other.head;
        other.slots := new T[inlineCapacity];
      }
      other.head := 0;
      size, other.size := other.size, 0;
      capacity, other.capacity := other.capacity, inlineCapacity;
      lowWaterPops, other.lowWaterPops := other.lowWaterPops, 0;
    }
  }
}
