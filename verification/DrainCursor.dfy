/**
 The receiver's sweep over its active-sender bitmap: cyclic order from a cursor that
 survives across drains, a 64-message batch per kind, and a 256-message quota per visit
 shared by all kinds.
 */
module DrainCursor {

  const BATCH: nat := 64
  const QUOTA: nat := 256
  const WORD_BITS: nat := 64

  datatype Cursor = Cursor(sender: nat, consumed: nat)

  /** Messages of each kind: taken so far by this drain, or found in a lane when visited. */
  datatype Counts = Counts(requests: nat, replies: nat, notifications: nat) {
    predicate Full() { requests == BATCH || replies == BATCH || notifications == BATCH }
    predicate InBatch() { requests <= BATCH && replies <= BATCH && notifications <= BATCH }
    function Sum(): nat { requests + replies + notifications }
  }

  const NONE := Counts(0, 0, 0)

  function Min(a: nat, b: nat): nat { if a < b then a else b }

  /** What one bulk dequeue takes from a queue holding `available` messages. */
  function Take(available: nat, total: nat, consumed: nat): nat
    requires total <= BATCH && consumed <= QUOTA
  {
    Min(available, Min(BATCH - total, QUOTA - consumed))
  }

  /** The three bulk dequeues of a visit. */
  function TakeAll(found: Counts, totals: Counts, consumed: nat): (took: Counts)
    requires totals.InBatch() && consumed <= QUOTA
    ensures took.requests + totals.requests <= BATCH && took.replies + totals.replies <= BATCH
    ensures took.notifications + totals.notifications <= BATCH
    ensures consumed + took.Sum() <= QUOTA
  {
    var a := Take(found.requests, totals.requests, consumed);
    var b := Take(found.replies, totals.replies, consumed + a);
    Counts(a, b, Take(found.notifications, totals.notifications, consumed + a + b))
  }

  function Add(a: Counts, b: Counts): Counts {
    Counts(a.requests + b.requests, a.replies + b.replies, a.notifications + b.notifications)
  }

  function Following(sender: nat, n: nat): nat { if sender + 1 == n then 0 else sender + 1 }

  /** How far the cursor carries a visit of `sender` that already consumed some messages. */
  function Carried(c: Cursor, sender: nat): nat { if c.sender == sender then c.consumed else 0 }

  /** One taken bit: nothing once a batch is full, otherwise a visit that either retains the
      sender or moves the cursor past it. */
  function Visit(c: Cursor, totals: Counts, sender: nat, found: Counts, n: nat): (e: (Cursor, Counts, Counts))
    requires totals.InBatch() && c.consumed < QUOTA
    ensures e.0.consumed < QUOTA && e.1.InBatch()
  {
    if totals.Full() then (c, totals, NONE)
    else
      var took := TakeAll(found, totals, Carried(c, sender));
      (Leave(Carried(c, sender) + took.Sum(), Add(totals, took), sender, n), Add(totals, took), took)
  }

  /** Where a visit leaves the cursor. */
  function Leave(consumed: nat, totals: Counts, sender: nat, n: nat): Cursor {
    if consumed == QUOTA || !totals.Full() then Cursor(Following(sender, n), 0) else Cursor(sender, consumed)
  }

  predicate InRange(order: seq<nat>, n: nat) { forall i | 0 <= i < |order| :: order[i] < n }

  /** All taken bits in the order they are handled; `found` is indexed by sender. */
  function VisitAll(c: Cursor, totals: Counts, order: seq<nat>, found: seq<Counts>, n: nat)
    : (e: (Cursor, Counts, seq<Counts>))
    requires totals.InBatch() && c.consumed < QUOTA
    requires |found| == n && InRange(order, n)
    ensures e.0.consumed < QUOTA && e.1.InBatch() && |e.2| == |order|
  {
    if order == [] then (c, totals, [])
    else
      var rest := order[..|order| - 1];
      var (c1, t1, tooks) := VisitAll(c, totals, rest, found, n);
      var (c2, t2, took) := Visit(c1, t1, order[|order| - 1], found[order[|order| - 1]], n);
      (c2, t2, tooks + [took])
  }

  lemma {:induction false} VisitAllAppend(c: Cursor, totals: Counts, a: seq<nat>, b: seq<nat>, found: seq<Counts>, n: nat)
    requires totals.InBatch() && c.consumed < QUOTA
    requires |found| == n && InRange(a, n) && InRange(b, n)
    ensures InRange(a + b, n)
    ensures var e := VisitAll(c, totals, a, found, n); var f := VisitAll(e.0, e.1, b, found, n);
      VisitAll(c, totals, a + b, found, n) == (f.0, f.1, e.2 + f.2)
  {
    var e := VisitAll(c, totals, a, found, n);
    if b == [] {
      assert a + b == a && e.2 + [] == e.2;
    } else {
      var rest, last := b[..|b| - 1], b[|b| - 1];
      VisitAllAppend(c, totals, a, rest, found, n);
      assert (a + b)[..|a + b| - 1] == a + rest;
      var g := VisitAll(e.0, e.1, rest, found, n);
      var v := Visit(g.0, g.1, last, found[last], n);
      assert e.2 + (g.2 + [v.2]) == (e.2 + g.2) + [v.2];
    }
  }

  lemma VisitAllSnoc(c: Cursor, totals: Counts, order: seq<nat>, x: nat, found: seq<Counts>, n: nat)
    requires totals.InBatch() && c.consumed < QUOTA
    requires |found| == n && InRange(order, n) && x < n
    ensures InRange(order + [x], n)
    ensures var e := VisitAll(c, totals, order, found, n); var v := Visit(e.0, e.1, x, found[x], n);
      VisitAll(c, totals, order + [x], found, n) == (v.0, v.1, e.2 + [v.2])
  {
    assert (order + [x])[..|order|] == order;
  }

  // ---------------------------------------------------------------- the sweep

  /** Cyclic distance from the cursor's sender. */
  function Dist(start: nat, x: nat, n: nat): nat
    requires start < n && x < n
  {
    if start <= x then x - start else x + n - start
  }

  predicate Cyclic(order: seq<nat>, start: nat, n: nat) {
    && start < n && InRange(order, n)
    && forall i, j | 0 <= i < j < |order| :: Dist(start, order[i], n) < Dist(start, order[j], n)
  }

  /** The bit of sender x is among the taken bits. */
  predicate Taken(bits: seq<set<nat>>, x: nat) {
    x / WORD_BITS < |bits| && x % WORD_BITS in bits[x / WORD_BITS]
  }

  /** At which step of the sweep the bit of sender x is handled: the first word's low bits
      wait for the wrap. */
  function StepOf(start: nat, x: nat, words: nat): int {
    var w, first := x / WORD_BITS, start / WORD_BITS;
    if w > first then w - first
    else if w < first then w + words - first
    else if start % WORD_BITS <= x % WORD_BITS then 0 else words
  }

  lemma SweepOrder(start: nat, x: nat, y: nat, n: nat, words: nat)
    requires start < n && x < n && y < n && words == (n + 63) / WORD_BITS
    requires StepOf(start, x, words) < StepOf(start, y, words)
      || (StepOf(start, x, words) == StepOf(start, y, words) && x % WORD_BITS < y % WORD_BITS)
    ensures Dist(start, x, n) < Dist(start, y, n)
  {
  }

  predicate WordHas(word: nat, bits: set<nat>, x: nat, n: nat) {
    x < n && x / WORD_BITS == word && x % WORD_BITS in bits
  }

  /** Handled senders ascend and precede every bit of the word still to be handled. */
  ghost predicate Ascending(order: seq<nat>, word: nat, active: set<nat>) {
    && (forall i, j | 0 <= i < j < |order| :: order[i] < order[j])
    && forall i, b | 0 <= i < |order| && b in active :: order[i] < word * WORD_BITS + b
  }

  /** The bits of a word that are no longer active were handled, lowest first. */
  ghost predicate Handled(order: seq<nat>, word: nat, bits: set<nat>, active: set<nat>, n: nat) {
    && active <= bits && InRange(order, n) && Ascending(order, word, active)
    && forall x :: x in order <==> WordHas(word, bits - active, x, n)
  }

  lemma WordMember(word: nat, bits: set<nat>, active: set<nat>, bit: nat, n: nat)
    requires bit in active && active <= bits && forall b | b in bits :: b < WORD_BITS
    ensures forall x: nat :: WordHas(word, bits - (active - {bit}), x, n) <==>
      (WordHas(word, bits - active, x, n) || (x == word * WORD_BITS + bit && x < n))
  {
  }

  lemma AscendingNext(order: seq<nat>, word: nat, active: set<nat>, bit: nat)
    requires Ascending(order, word, active) && bit in active && forall b | b in active :: bit <= b
    ensures Ascending(order, word, active - {bit})
    ensures Ascending(order + [word * WORD_BITS + bit], word, active - {bit})
  {
  }

  lemma HandledNext(order: seq<nat>, word: nat, bits: set<nat>, active: set<nat>, bit: nat, n: nat)
    requires Handled(order, word, bits, active, n) && forall b | b in bits :: b < WORD_BITS
    requires bit in active && forall b | b in active :: bit <= b
    ensures var x := word * WORD_BITS + bit;
      Handled(if x < n then order + [x] else order, word, bits, active - {bit}, n)
  {
    WordMember(word, bits, active, bit, n);
    AscendingNext(order, word, active, bit);
  }

  lemma HandledAll(order: seq<nat>, word: nat, bits: set<nat>, n: nat)
    requires Handled(order, word, bits, {}, n)
    ensures forall i, j | 0 <= i < j < |order| :: order[i] < order[j]
    ensures forall x :: x in order <==> WordHas(word, bits, x, n)
  {
    assert bits - {} == bits;
  }

  /** The bitmap word visited at a given step. */
  function WordAt(first: nat, step: nat, words: nat): int {
    if first + step < words then first + step
    else if first + step < 2 * words then first + step - words
    else first + step - 2 * words
  }

  /** The first `step` steps of the sweep are done. */
  ghost predicate Swept(order: seq<nat>, bits: seq<set<nat>>, start: nat, n: nat, step: nat) {
    && Cyclic(order, start, n)
    && forall x :: x in order <==> (0 <= x < n && Taken(bits, x) && StepOf(start, x, |bits|) < step)
  }

  lemma SweptWord(order: seq<nat>, more: seq<nat>, bits: seq<set<nat>>, active: set<nat>, start: nat, n: nat, step: nat)
    requires |bits| == (n + 63) / WORD_BITS && step <= |bits|
    requires Swept(order, bits, start, n, step) && InRange(more, n)
    requires forall i, j | 0 <= i < j < |more| :: more[i] < more[j]
    requires forall x :: x in more <==> WordHas(WordAt(start / WORD_BITS, step, |bits|), active, x, n)
    requires active == if step == 0 then set b | b in bits[start / WORD_BITS] && start % WORD_BITS <= b
                       else if step == |bits| then set b | b in bits[start / WORD_BITS] && b < start % WORD_BITS
                       else bits[WordAt(start / WORD_BITS, step, |bits|)]
    ensures Swept(order + more, bits, start, n, step + 1)
  {
    var both := order + more;
    forall i, j | 0 <= i < j < |both| ensures Dist(start, both[i], n) < Dist(start, both[j], n) {
      assert both[i] in order || both[i] in more;
      if |order| <= j {
        assert both[j] in more;
        SweepOrder(start, both[i], both[j], n, |bits|);
      }
    }
  }

  /** The lowest set bit, as countr_zero finds it. */
  method LowestBit(active: set<nat>) returns (bit: nat)
    requires active != {}
    ensures bit in active && forall b | b in active :: bit <= b
  {
    ghost var some :| some in active;
    bit := 0;
    while bit !in active
      invariant bit <= some && forall b | b in active :: bit <= b
      decreases some - bit
    {
      bit := bit + 1;
    }
  }

  class Receiver {
    const n: nat
    var cursor: Cursor

    predicate Valid()
      reads this
    {
      0 < n && cursor.sender < n && cursor.consumed < QUOTA
    }

    constructor (n: nat)
      requires 0 < n
      ensures Valid() && this.n == n && cursor == Cursor(0, 0)
    {
      this.n := n;
      cursor := Cursor(0, 0);
    }

    /** One bulk dequeue of a visit, charged to the shared quota. */
    method DrainQueue(available: nat, total: nat) returns (count: nat)
      requires total <= BATCH && cursor.consumed <= QUOTA
      modifies this
      ensures count == Take(available, total, old(cursor).consumed)
      ensures cursor == old(cursor).(consumed := old(cursor).consumed + count) && cursor.consumed <= QUOTA
    {
      var maximum := Min(BATCH - total, QUOTA - cursor.consumed);
      count := 0;
      if maximum == 0 { return; }
      count := Min(available, maximum);
      cursor := cursor.(consumed := cursor.consumed + count);
    }

    /** The three bulk dequeues of a visit. */
    method DrainLane(totals: Counts, found: Counts) returns (took: Counts)
      requires totals.InBatch() && cursor.consumed <= QUOTA
      modifies this
      ensures took == TakeAll(found, totals, old(cursor).consumed)
      ensures cursor == old(cursor).(consumed := old(cursor).consumed + took.Sum()) && cursor.consumed <= QUOTA
    {
      var a := DrainQueue(found.requests, totals.requests);
      var b := DrainQueue(found.replies, totals.replies);
      var c := DrainQueue(found.notifications, totals.notifications);
      took := Counts(a, b, c);
    }

    method VisitLane(totals: Counts, sender: nat, found: Counts) returns (totals': Counts, took: Counts)
      requires Valid() && totals.InBatch() && sender < n
      modifies this
      ensures Valid() && (cursor, totals', took) == Visit(old(cursor), totals, sender, found, n)
    {
      totals', took := totals, NONE;
      if totals.Full() { return; }
      if cursor.sender != sender {
        cursor := Cursor(sender, 0);
      }
      took := DrainLane(totals, found);
      totals' := Add(totals, took);
      if cursor.consumed == QUOTA || !totals'.Full() {
        cursor := Cursor(Following(sender, n), 0);
      }
    }

    /** Handle the taken bits of one bitmap word, lowest first. */
    method HandleWord(word: nat, bits: set<nat>, totals: Counts, found: seq<Counts>)
      returns (totals': Counts, order: seq<nat>, tooks: seq<Counts>)
      requires Valid() && totals.InBatch() && |found| == n
      requires forall b | b in bits :: b < WORD_BITS
      modifies this
      ensures Valid() && InRange(order, n)
      ensures forall i, j | 0 <= i < j < |order| :: order[i] < order[j]
      ensures forall x :: x in order <==> WordHas(word, bits, x, n)
      ensures (cursor, totals', tooks) == VisitAll(old(cursor), totals, order, found, n)
    {
      var active := bits;
      totals', order, tooks := totals, [], [];
      while active != {}
        invariant Handled(order, word, bits, active, n) && totals'.InBatch() && Valid()
        invariant (cursor, totals', tooks) == VisitAll(old(cursor), totals, order, found, n)
        decreases |active|
      {
        var bit := LowestBit(active);
        var sender := word * WORD_BITS + bit;
        HandledNext(order, word, bits, active, bit, n);
        active := active - {bit};
        if sender < n {
          var took;
          totals', took := VisitLane(totals', sender, found[sender]);
          VisitAllSnoc(old(cursor), totals, order, sender, found, n);
          order, tooks := order + [sender], tooks + [took];
        }
      }
      HandledAll(order, word, bits, n);
    }

    /** One SPSC-only drain. `bits` are the bitmap words as taken, `found` what each lane held
        when its turn came. */
    method DrainSpsc(bits: seq<set<nat>>, found: seq<Counts>)
      returns (didWork: bool, order: seq<nat>, tooks: seq<Counts>)
      requires Valid() && |found| == n && |bits| == (n + 63) / WORD_BITS
      requires forall w, b | 0 <= w < |bits| && b in bits[w] :: b < WORD_BITS
      modifies this
      ensures Valid()
      ensures Cyclic(order, old(cursor).sender, n)
      ensures forall x :: x in order <==> 0 <= x < n && Taken(bits, x)
      ensures var e := VisitAll(old(cursor), NONE, order, found, n);
        cursor == e.0 && tooks == e.2 && (didWork <==> 0 < e.1.Sum())
    {
      var words := |bits|;
      var start := cursor.sender;
      var first := start / WORD_BITS;
      var word := first;
      var wrapped: set<nat> := {};
      var totals := NONE;
      order, tooks := [], [];
      for step := 0 to words + 1
        invariant word == WordAt(first, step, words)
        invariant 0 < step ==> wrapped == set b | b in bits[first] && b < start % WORD_BITS
        invariant Swept(order, bits, start, n, step)
        invariant totals.InBatch() && Valid()
        invariant (cursor, totals, tooks) == VisitAll(old(cursor), NONE, order, found, n)
      {
        var active := if step == words then wrapped else bits[word];
        if step == 0 {
          wrapped := set b | b in active && b < start % WORD_BITS;
          active := active - wrapped;
        }
        var more, took;
        totals, more, took := HandleWord(word, active, totals, found);
        VisitAllAppend(old(cursor), NONE, order, more, found, n);
        SweptWord(order, more, bits, active, start, n, step);
        order, tooks := order + more, tooks + took;
        word := if word + 1 == words then 0 else word + 1;
      }
      didWork := 0 < totals.Sum();
    }
  }

  // ---------------------------------------------------------------- quota and fairness

  /** All kinds together, a visit never exceeds the quota, across however many drains it spans;
      and while nothing was taken, a nonempty lane yields at least one message. */
  lemma VisitWithinQuota(c: Cursor, totals: Counts, sender: nat, found: Counts, n: nat)
    requires totals.InBatch() && c.consumed < QUOTA
    ensures var (c', totals', took) := Visit(c, totals, sender, found, n);
      && Carried(c, sender) + took.Sum() <= QUOTA
      && (c'.sender == sender && c'.consumed != 0 && !totals.Full() ==> c'.consumed == Carried(c, sender) + took.Sum())
      && (!totals.Full() && 0 < found.Sum() ==> 0 < took.Sum())
  {
  }

  /** A visit takes everything it finds of a kind unless the batch of that kind or the quota is used
      up; the cursor stays at the sender exactly if a batch is full and quota is left. */
  lemma VisitIsGreedy(c: Cursor, totals: Counts, sender: nat, found: Counts, n: nat)
    requires totals.InBatch() && c.consumed < QUOTA
    ensures var (c', totals', took) := Visit(c, totals, sender, found, n);
      var consumed := (if c.sender == sender then c.consumed else 0) + took.requests + took.replies + took.notifications;
      if totals.Full() then c' == c && totals' == totals && took == Counts(0, 0, 0)
      else
        && TakesAll(found.requests, took.requests, totals.requests, totals'.requests, consumed)
        && TakesAll(found.replies, took.replies, totals.replies, totals'.replies, consumed)
        && TakesAll(found.notifications, took.notifications, totals.notifications, totals'.notifications, consumed)
        && consumed <= QUOTA
        && c' == if totals'.Full() && consumed < QUOTA then Cursor(sender, consumed)
                 else Cursor(if sender + 1 == n then 0 else sender + 1, 0)
  {
  }

  predicate TakesAll(found: nat, took: nat, total: nat, total': nat, consumed: nat) {
    && took <= found && total' == total + took <= BATCH
    && (took < found ==> total' == BATCH || consumed == QUOTA)
  }

  lemma {:induction false} FullFreezes(c: Cursor, totals: Counts, order: seq<nat>, found: seq<Counts>, n: nat)
    requires totals.InBatch() && totals.Full() && c.consumed < QUOTA && |found| == n && InRange(order, n)
    ensures VisitAll(c, totals, order, found, n).0 == c && VisitAll(c, totals, order, found, n).1 == totals
  {
    if order != [] { FullFreezes(c, totals, order[..|order| - 1], found, n); }
  }

  /** The cursor has moved away from where the drain began, or has used up 64 more of its quota. */
  predicate Advanced(c0: Cursor, c: Cursor, totals: Counts, n: nat)
    requires c0.sender < n && c.sender < n
  {
    1 <= Dist(c0.sender, c.sender, n) || (totals.Full() && c.sender == c0.sender && c0.consumed + BATCH <= c.consumed)
  }

  /** A visit to sender x moves the cursor on, but not past the senders behind x. */
  lemma WalkStep(c0: Cursor, c: Cursor, totals: Counts, x: nat, found: Counts, s: nat, n: nat)
    requires c0.sender < n && c.sender < n && x < n && s < n && totals.InBatch() && c.consumed < QUOTA
    requires Dist(c0.sender, c.sender, n) <= Dist(c0.sender, x, n) < Dist(c0.sender, s, n)
    requires (c == c0 && totals == NONE) || (Advanced(c0, c, totals, n) && 0 < Dist(c0.sender, x, n))
    ensures var e := Visit(c, totals, x, found, n);
      && e.0.sender < n && Dist(c0.sender, e.0.sender, n) <= Dist(c0.sender, s, n) && Advanced(c0, e.0, e.1, n)
  {
  }

  /** After the first k taken bits, all of them before sender s, the cursor has not passed s. */
  lemma {:induction false} WalkBefore(c0: Cursor, order: seq<nat>, found: seq<Counts>, n: nat, k: nat, s: nat)
    requires c0.consumed < QUOTA && |found| == n && Cyclic(order, c0.sender, n)
    requires k < |order| && order[k] == s
    ensures var e := VisitAll(c0, NONE, order[..k], found, n);
      && e.0.sender < n && Dist(c0.sender, e.0.sender, n) <= Dist(c0.sender, s, n)
      && (0 < k ==> Advanced(c0, e.0, e.1, n))
    decreases k
  {
    if 0 < k {
      var x := order[k - 1];
      WalkBefore(c0, order, found, n, k - 1, x);
      var e := VisitAll(c0, NONE, order[..k - 1], found, n);
      if 1 < k { assert Dist(c0.sender, order[0], n) < Dist(c0.sender, x, n); }
      WalkStep(c0, e.0, e.1, x, found[x], s, n);
      assert order[..k] == order[..k - 1] + [x];
      VisitAllSnoc(c0, NONE, order[..k - 1], x, found, n);
    }
  }

  /** What is left before sender s must be served: four drains for every sender in between. */
  function Rank(c: Cursor, s: nat, n: nat): (rank: nat)
    requires c.sender < n && s < n && c.consumed < QUOTA
    ensures 0 < rank <= 4 * n
  {
    4 * Dist(c.sender, s, n) + (QUOTA - c.consumed + BATCH - 1) / BATCH
  }

  /** One drain: the taken bits in sweep order and what each lane held when visited. */
  datatype Input = Input(order: seq<nat>, found: seq<Counts>)

  /** A drain from cursor c that takes the bit of sender s, whose lane is not empty. That the bit of
      such a lane is set when a drain begins is `CrossCore.WaitingLaneIsAnnounced`. */
  predicate Eligible(c: Cursor, d: Input, s: nat, n: nat) {
    && c.consumed < QUOTA && Cyclic(d.order, c.sender, n) && |d.found| == n
    && s < n && s in d.order && 0 < d.found[s].Sum()
  }

  function After(c: Cursor, d: Input, n: nat): Cursor
    requires c.consumed < QUOTA && InRange(d.order, n) && |d.found| == n
  {
    VisitAll(c, NONE, d.order, d.found, n).0
  }

  /** Messages the drain takes from sender s. */
  predicate Serves(c: Cursor, d: Input, s: nat, n: nat)
    requires c.consumed < QUOTA && InRange(d.order, n) && |d.found| == n
  {
    exists i :: 0 <= i < |d.order| && d.order[i] == s && 0 < VisitAll(c, NONE, d.order, d.found, n).2[i].Sum()
  }

  lemma RankDrops(c0: Cursor, c: Cursor, totals: Counts, s: nat, n: nat)
    requires c0.sender < n && c.sender < n && s < n && c0.consumed < QUOTA && c.consumed < QUOTA
    requires Dist(c0.sender, c.sender, n) <= Dist(c0.sender, s, n) && Advanced(c0, c, totals, n)
    ensures Rank(c, s, n) < Rank(c0, s, n)
  {
    assert Dist(c.sender, s, n) == Dist(c0.sender, s, n) - Dist(c0.sender, c.sender, n);
  }

  /** A lane reached before the batch fills gives up at least one message. */
  lemma ServedWhenReached(c: Cursor, order: seq<nat>, found: seq<Counts>, n: nat, m: nat)
    requires c.consumed < QUOTA && |found| == n && InRange(order, n) && m < |order|
    requires !VisitAll(c, NONE, order[..m], found, n).1.Full() && 0 < found[order[m]].Sum()
    ensures 0 < VisitAll(c, NONE, order, found, n).2[m].Sum()
  {
    var before, s, rest := order[..m], order[m], order[m + 1..];
    var e := VisitAll(c, NONE, before, found, n);
    VisitAllSnoc(c, NONE, before, s, found, n);
    VisitWithinQuota(e.0, e.1, s, found[s], n);
    SplitAt(order, m);
    VisitAllAppend(c, NONE, before + [s], rest, found, n);
  }

  lemma SplitAt(order: seq<nat>, m: nat)
    requires m < |order|
    ensures order == order[..m] + [order[m]] + order[m + 1..]
  {
  }

  /** A drain whose batch is full before it reaches sender s brings s closer. */
  lemma CloserWhenFull(c: Cursor, d: Input, s: nat, n: nat, m: nat)
    requires Eligible(c, d, s, n) && m < |d.order| && d.order[m] == s
    requires VisitAll(c, NONE, d.order[..m], d.found, n).1.Full()
    ensures After(c, d, n).sender < n && Rank(After(c, d, n), s, n) < Rank(c, s, n)
  {
    var before, rest := d.order[..m], d.order[m..];
    var e := VisitAll(c, NONE, before, d.found, n);
    WalkBefore(c, d.order, d.found, n, m, s);
    RankDrops(c, e.0, e.1, s, n);
    FullFreezes(e.0, e.1, rest, d.found, n);
    VisitAllAppend(c, NONE, before, rest, d.found, n);
    assert before + rest == d.order;
  }

  lemma DrainProgress(c: Cursor, d: Input, s: nat, n: nat)
    requires Eligible(c, d, s, n)
    ensures After(c, d, n).sender < n && After(c, d, n).consumed < QUOTA
    ensures Serves(c, d, s, n) || Rank(After(c, d, n), s, n) < Rank(c, s, n)
  {
    var m :| 0 <= m < |d.order| && d.order[m] == s;
    if VisitAll(c, NONE, d.order[..m], d.found, n).1.Full() {
      CloserWhenFull(c, d, s, n, m);
    } else {
      CursorStays(c, d.order, d.found, n);
      ServedWhenReached(c, d.order, d.found, n, m);
    }
  }

  lemma {:induction false} CursorStays(c: Cursor, order: seq<nat>, found: seq<Counts>, n: nat)
    requires c.sender < n && c.consumed < QUOTA && |found| == n && InRange(order, n)
    ensures VisitAll(c, NONE, order, found, n).0.sender < n
  {
    if order != [] { CursorStays(c, order[..|order| - 1], found, n); }
  }

  /** Consecutive drains, each started at the cursor the previous one left. */
  predicate Chain(c: Cursor, drains: seq<Input>, s: nat, n: nat)
    decreases |drains|
  {
    drains == [] || (Eligible(c, drains[0], s, n) && Chain(After(c, drains[0], n), drains[1..], s, n))
  }

  predicate Served(c: Cursor, drains: seq<Input>, s: nat, n: nat)
    requires Chain(c, drains, s, n)
    decreases |drains|
  {
    drains != [] && (Serves(c, drains[0], s, n) || Served(After(c, drains[0], n), drains[1..], s, n))
  }

  lemma {:induction false} ServedWithinRank(c: Cursor, drains: seq<Input>, s: nat, n: nat)
    requires c.sender < n && c.consumed < QUOTA && s < n && Chain(c, drains, s, n)
    requires Rank(c, s, n) <= |drains|
    ensures Served(c, drains, s, n)
    decreases |drains|
  {
    DrainProgress(c, drains[0], s, n);
    if !Serves(c, drains[0], s, n) {
      ServedWithinRank(After(c, drains[0], n), drains[1..], s, n);
    }
  }

  /** A sender whose lane stays announced and nonempty has a message consumed within 4n
      consecutive SPSC-only drains, whatever the other senders do. */
  lemma NoStarvation(c: Cursor, drains: seq<Input>, s: nat, n: nat)
    requires c.sender < n && c.consumed < QUOTA && s < n
    requires |drains| == 4 * n && Chain(c, drains, s, n)
    ensures Served(c, drains, s, n)
  {
    ServedWithinRank(c, drains, s, n);
  }
}
