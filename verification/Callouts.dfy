/**
 The timer list of one worker: callouts ordered by expiry time, callbacks that re-arm and
 stop callouts while the list is being polled, and the clock value at which to wake up.
 */
module Callouts {
  const SBT_1S: int := 0x1_0000_0000
  const NS_1S: int := 1_000_000_000
  const BOUND: nat := 256

  /** A pending callout: which one, when it is due, and the how-many-th arming that made it so. */
  datatype Entry = Entry(id: nat, time: int, armed: nat)

  /** A callout that was run, at what time, and what else was pending then. */
  datatype Firing = Firing(entry: Entry, now: int, others: seq<Entry>)

  // ---------------------------------------------------------------- the list

  predicate Before(a: Entry, b: Entry) { a.time < b.time || (a.time == b.time && a.armed < b.armed) }

  /** Earliest first; among equals, first armed first. */
  predicate Sorted(list: seq<Entry>) { forall i, j | 0 <= i < j < |list| :: Before(list[i], list[j]) }

  predicate Distinct(list: seq<Entry>) { forall i, j | 0 <= i < j < |list| :: list[i].id != list[j].id }

  predicate Numbered(list: seq<Entry>, next: nat) { forall i | 0 <= i < |list| :: list[i].armed < next }

  predicate Has(list: seq<Entry>, id: nat) { exists i :: 0 <= i < |list| && list[i].id == id }

  function Without(list: seq<Entry>, id: nat): seq<Entry> {
    if list == [] then [] else if list[0].id == id then list[1..] else [list[0]] + Without(list[1..], id)
  }

  /** Behind everything that is not due later. */
  function Inserted(list: seq<Entry>, e: Entry): seq<Entry> {
    if list == [] then [e] else if e.time < list[0].time then [e] + list else [list[0]] + Inserted(list[1..], e)
  }

  lemma {:induction false} InsertedMembers(list: seq<Entry>, e: Entry)
    ensures |Inserted(list, e)| == |list| + 1
    ensures forall x :: x in Inserted(list, e) <==> x == e || x in list
  {
    if list != [] && list[0].time <= e.time {
      InsertedMembers(list[1..], e);
      assert forall x :: x in list <==> x == list[0] || x in list[1..];
      assert forall x :: x in Inserted(list, e) <==> x == list[0] || x in Inserted(list[1..], e);
    }
  }

  /** Insertion of the youngest arming keeps the list sorted, stably. */
  lemma {:induction false} InsertedSorted(list: seq<Entry>, e: Entry)
    requires Sorted(list) && Numbered(list, e.armed)
    ensures Sorted(Inserted(list, e))
  {
    if list != [] {
      if e.time < list[0].time {
        assert forall i | 0 <= i < |list| :: e.time < list[i].time;
      } else {
        InsertedSorted(list[1..], e);
        InsertedMembers(list[1..], e);
        ConsSorted(list[0], Inserted(list[1..], e));
      }
    }
  }

  lemma ConsSorted(x: Entry, list: seq<Entry>)
    requires Sorted(list) && forall y | y in list :: Before(x, y)
    ensures Sorted([x] + list)
  {
  }

  lemma {:induction false} InsertedDistinct(list: seq<Entry>, e: Entry)
    requires Distinct(list) && !Has(list, e.id)
    ensures Distinct(Inserted(list, e))
  {
    if list != [] && list[0].time <= e.time {
      assert list[0].id != e.id;
      HasTail(list, e.id);
      InsertedDistinct(list[1..], e);
      InsertedMembers(list[1..], e);
      var rest := Inserted(list[1..], e);
      forall j | 0 <= j < |rest| ensures rest[j].id != list[0].id { assert rest[j] in rest; }
    }
  }

  lemma {:induction false} WithoutMembers(list: seq<Entry>, id: nat)
    requires Distinct(list)
    ensures forall x :: x in Without(list, id) <==> x in list && x.id != id
    ensures |Without(list, id)| == |list| - if Has(list, id) then 1 else 0
  {
    if list != [] {
      assert forall x :: x in list <==> x == list[0] || x in list[1..];
      if list[0].id == id {
        forall x | x in list[1..] ensures x.id != id { var i :| 0 <= i < |list| - 1 && list[1..][i] == x; }
        assert Has(list, id);
      } else {
        WithoutMembers(list[1..], id);
        assert Has(list, id) <==> Has(list[1..], id) by { HasTail(list, id); }
      }
    }
  }

  lemma HasTail(list: seq<Entry>, id: nat)
    requires list != [] && list[0].id != id
    ensures Has(list, id) <==> Has(list[1..], id)
  {
    if Has(list, id) { var i :| 0 <= i < |list| && list[i].id == id; assert list[1..][i - 1].id == id; }
    if Has(list[1..], id) { var i :| 0 <= i < |list| - 1 && list[1..][i].id == id; assert list[i + 1].id == id; }
  }

  /** Removal keeps the order of the rest. */
  lemma {:induction false} WithoutOrdered(list: seq<Entry>, id: nat)
    requires Sorted(list) && Distinct(list)
    ensures Sorted(Without(list, id))
  {
    if list != [] && list[0].id != id {
      WithoutOrdered(list[1..], id);
      WithoutMembers(list[1..], id);
      ConsSorted(list[0], Without(list[1..], id));
    }
  }

  /** Removal keeps the order and leaves no second entry. */
  lemma WithoutSorted(list: seq<Entry>, id: nat)
    requires Sorted(list) && Distinct(list)
    ensures Sorted(Without(list, id)) && Distinct(Without(list, id)) && !Has(Without(list, id), id)
  {
    WithoutOrdered(list, id);
    WithoutMembers(list, id);
  }

  // ---------------------------------------------------------------- operations on values

  /** What a callout's function may do to the list, and at what time. */
  datatype Call = DoReset(id: nat, sbt: int, absolute: bool, clock: int) | DoStop(id: nat)

  /** The list, with the history of every arming and of how it ended. */
  datatype State = State(
    pending: seq<Entry>, active: set<nat>, armings: nat,
    armed: seq<Entry>, removed: seq<Entry>, fired: seq<Firing>)

  function EntryOf(list: seq<Entry>, id: nat): Entry
    requires Has(list, id)
  {
    if list[0].id == id then list[0] else HasTail(list, id); EntryOf(list[1..], id)
  }

  function Stopped(s: State, id: nat): State {
    if !Has(s.pending, id) then s
    else s.(pending := Without(s.pending, id), active := s.active - {id},
            removed := s.removed + [EntryOf(s.pending, id)])
  }

  function NewEntry(s: State, id: nat, sbt: int, absolute: bool, clock: int): Entry {
    Entry(id, if absolute then sbt else clock + sbt, s.armings)
  }

  function Armed(s: State, id: nat, sbt: int, absolute: bool, clock: int): State {
    var t, e := Stopped(s, id), NewEntry(s, id, sbt, absolute, clock);
    t.(pending := Inserted(t.pending, e), active := t.active + {id}, armings := t.armings + 1, armed := t.armed + [e])
  }

  function Called(s: State, call: Call): State {
    match call
    case DoReset(id, sbt, absolute, clock) => Armed(s, id, sbt, absolute, clock)
    case DoStop(id) => Stopped(s, id)
  }

  function CalledAll(s: State, calls: seq<Call>): State
    decreases |calls|
  {
    if calls == [] then s else CalledAll(Called(s, calls[0]), calls[1..])
  }

  predicate Due(s: State, now: int) { s.pending != [] && s.pending[0].time <= now }

  function HeadFired(s: State, now: int): State
    requires s.pending != []
  {
    s.(pending := s.pending[1..], fired := s.fired + [Firing(s.pending[0], now, s.pending[1..])])
  }

  function ScriptOf(scripts: seq<seq<Call>>): seq<Call> { if scripts == [] then [] else scripts[0] }

  function Later(scripts: seq<seq<Call>>): seq<seq<Call>> { if scripts == [] then [] else scripts[1..] }

  /** At most n due callouts run, each followed by what its function does. */
  function Polled(s: State, now: int, scripts: seq<seq<Call>>, n: nat): State
    decreases n
  {
    if n == 0 || !Due(s, now) then s
    else Polled(CalledAll(HeadFired(s, now), ScriptOf(scripts)), now, Later(scripts), n - 1)
  }

  // ---------------------------------------------------------------- what every operation keeps

  /** A callout that ran was due and came before everything else that was pending. */
  predicate FiredOk(f: Firing) { f.entry.time <= f.now && forall e | e in f.others :: Before(f.entry, e) }

  function One(b: bool): nat { if b then 1 else 0 }

  function Count(list: seq<Entry>, e: Entry): nat {
    if list == [] then 0 else One(list[0] == e) + Count(list[1..], e)
  }

  function Runs(fired: seq<Firing>, e: Entry): nat {
    if fired == [] then 0 else One(fired[0].entry == e) + Runs(fired[1..], e)
  }

  /** An arming is pending, has run, or was stopped or replaced: exactly one of these, once. */
  predicate Accounted(s: State, e: Entry) {
    Count(s.armed, e) == Count(s.pending, e) + Runs(s.fired, e) + Count(s.removed, e)
  }

  ghost predicate Balanced(s: State) { forall e :: Accounted(s, e) }

  ghost predicate InOrder(s: State) {
    && Sorted(s.pending) && Distinct(s.pending) && Numbered(s.pending, s.armings)
    && forall i | 0 <= i < |s.fired| :: FiredOk(s.fired[i])
  }

  lemma {:induction false} CountSnoc(list: seq<Entry>, x: Entry, e: Entry)
    ensures Count(list + [x], e) == Count(list, e) + One(x == e)
  {
    if list != [] {
      CountSnoc(list[1..], x, e);
      assert (list + [x])[1..] == list[1..] + [x];
    }
  }

  lemma {:induction false} RunsSnoc(fired: seq<Firing>, f: Firing, e: Entry)
    ensures Runs(fired + [f], e) == Runs(fired, e) + One(f.entry == e)
  {
    if fired != [] {
      RunsSnoc(fired[1..], f, e);
      assert (fired + [f])[1..] == fired[1..] + [f];
    }
  }

  lemma {:induction false} WithoutCounts(list: seq<Entry>, id: nat, e: Entry)
    requires Has(list, id)
    ensures Count(list, e) == Count(Without(list, id), e) + One(EntryOf(list, id) == e)
  {
    if list[0].id != id {
      HasTail(list, id);
      WithoutCounts(list[1..], id, e);
      assert Without(list, id)[1..] == Without(list[1..], id);
    }
  }

  lemma {:induction false} InsertedCounts(list: seq<Entry>, x: Entry, e: Entry)
    ensures Count(Inserted(list, x), e) == Count(list, e) + One(x == e)
  {
    if list != [] {
      if x.time < list[0].time {
        assert Inserted(list, x)[1..] == list;
      } else {
        InsertedCounts(list[1..], x, e);
        assert Inserted(list, x)[1..] == Inserted(list[1..], x);
      }
    }
  }

  lemma StoppedKeeps(s: State, id: nat)
    requires InOrder(s)
    ensures InOrder(Stopped(s, id)) && !Has(Stopped(s, id).pending, id)
  {
    WithoutSorted(s.pending, id);
    WithoutMembers(s.pending, id);
    if Has(s.pending, id) {
      var r := Without(s.pending, id);
      forall i | 0 <= i < |r| ensures r[i].armed < s.armings { assert r[i] in r; }
    }
  }

  lemma CalledKeeps(s: State, call: Call)
    requires InOrder(s)
    ensures InOrder(Called(s, call))
  {
    StoppedKeeps(s, call.id);
    if call.DoReset? {
      InsertedOk(Stopped(s, call.id).pending, NewEntry(s, call.id, call.sbt, call.absolute, call.clock));
    }
  }

  lemma StoppedAccounts(s: State, id: nat, e: Entry)
    requires Accounted(s, e)
    ensures Accounted(Stopped(s, id), e)
  {
    if Has(s.pending, id) {
      WithoutCounts(s.pending, id, e);
      CountSnoc(s.removed, EntryOf(s.pending, id), e);
    }
  }

  lemma CalledBalances(s: State, call: Call)
    requires Balanced(s)
    ensures Balanced(Called(s, call))
  {
    forall e ensures Accounted(Called(s, call), e) {
      assert Accounted(s, e);
      StoppedAccounts(s, call.id, e);
      if call.DoReset? {
        var t, x := Stopped(s, call.id), NewEntry(s, call.id, call.sbt, call.absolute, call.clock);
        InsertedCounts(t.pending, x, e);
        CountSnoc(t.armed, x, e);
      }
    }
  }

  lemma {:induction false} CalledAllKeeps(s: State, calls: seq<Call>)
    ensures InOrder(s) ==> InOrder(CalledAll(s, calls))
    ensures Balanced(s) ==> Balanced(CalledAll(s, calls))
    decreases |calls|
  {
    if calls != [] {
      var t := Called(s, calls[0]);
      if InOrder(s) { CalledKeeps(s, calls[0]); }
      if Balanced(s) { CalledBalances(s, calls[0]); }
      CalledAllKeeps(t, calls[1..]);
    }
  }

  /** The callout that runs is a pending one that is due, before every other pending one. */
  lemma FiresTheLeast(s: State, now: int)
    requires InOrder(s) && Due(s, now)
    ensures InOrder(HeadFired(s, now))
    ensures var f := HeadFired(s, now).fired[|s.fired|];
      && f.entry in s.pending && f.entry.time <= now
      && forall e | e in s.pending && e != f.entry :: Before(f.entry, e)
  {
    HeadIsLeast(s.pending);
  }

  lemma FiringBalances(s: State, now: int)
    requires Balanced(s) && s.pending != []
    ensures Balanced(HeadFired(s, now))
  {
    forall e ensures Accounted(HeadFired(s, now), e) {
      assert Accounted(s, e);
      RunsSnoc(s.fired, Firing(s.pending[0], now, s.pending[1..]), e);
    }
  }

  lemma {:induction false} CalledAllFires(s: State, calls: seq<Call>)
    ensures CalledAll(s, calls).fired == s.fired
    decreases |calls|
  {
    if calls != [] { CalledAllFires(Called(s, calls[0]), calls[1..]); }
  }

  /** Whatever the callouts' functions do, a poll keeps the list in order. */
  lemma {:induction false} PolledKeeps(s: State, now: int, scripts: seq<seq<Call>>, n: nat)
    requires InOrder(s)
    ensures InOrder(Polled(s, now, scripts, n))
    decreases n
  {
    if n != 0 && Due(s, now) {
      FiresTheLeast(s, now);
      CalledAllKeeps(HeadFired(s, now), ScriptOf(scripts));
      PolledKeeps(CalledAll(HeadFired(s, now), ScriptOf(scripts)), now, Later(scripts), n - 1);
    }
  }

  /** And every arming stays accounted for. */
  lemma {:induction false} PolledBalances(s: State, now: int, scripts: seq<seq<Call>>, n: nat)
    requires Balanced(s)
    ensures Balanced(Polled(s, now, scripts, n))
    decreases n
  {
    if n != 0 && Due(s, now) {
      FiringBalances(s, now);
      CalledAllKeeps(HeadFired(s, now), ScriptOf(scripts));
      PolledBalances(CalledAll(HeadFired(s, now), ScriptOf(scripts)), now, Later(scripts), n - 1);
    }
  }

  /** A poll runs at most n callouts, and fewer only if nothing due is left. */
  lemma {:induction false} PolledRuns(s: State, now: int, scripts: seq<seq<Call>>, n: nat)
    ensures var t := Polled(s, now, scripts, n);
      && s.fired <= t.fired && |t.fired| <= |s.fired| + n && (|t.fired| < |s.fired| + n ==> !Due(t, now))
      && forall i | |s.fired| <= i < |t.fired| :: t.fired[i].now == now
    decreases n
  {
    if n != 0 && Due(s, now) {
      CalledAllFires(HeadFired(s, now), ScriptOf(scripts));
      PolledRuns(CalledAll(HeadFired(s, now), ScriptOf(scripts)), now, Later(scripts), n - 1);
    }
  }

  // ---------------------------------------------------------------- what a reset and a stop promise

  /** A stop leaves nothing of the callout pending and a reset one arming, for the time asked for;
      the others stay as they are. */
  lemma CallsAreLocal(s: State, call: Call)
    requires InOrder(s)
    ensures forall x: Entry | x.id != call.id :: x in Called(s, call).pending <==> x in s.pending
    ensures call.DoStop? ==> forall x | x in Called(s, call).pending :: x.id != call.id
    ensures call.DoReset? ==> forall x | x in Called(s, call).pending && x.id == call.id ::
      x.armed == s.armings && x.time == if call.absolute then call.sbt else call.clock + call.sbt
    ensures Called(s, call).active ==
      if call.DoReset? then s.active + {call.id} else if Has(s.pending, call.id) then s.active - {call.id} else s.active
  {
    WithoutMembers(s.pending, call.id);
    assert !Has(s.pending, call.id) ==> forall x | x in s.pending :: x.id != call.id;
    if call.DoReset? {
      InsertedMembers(Stopped(s, call.id).pending, NewEntry(s, call.id, call.sbt, call.absolute, call.clock));
    }
  }

  /** A callout reset for a time is not run by a poll before that time, and a poll from then on runs
      it unless it is stopped or reset first or the poll has run its full bound of callouts. */
  lemma RunsAtItsTime(s: State, call: Call, now: int, scripts: seq<seq<Call>>, n: nat) returns (e: Entry)
    requires InOrder(s) && call.DoReset?
    ensures e in Called(s, call).pending && e.id == call.id && e.armed == s.armings
    ensures var t, due := Called(s, call), if call.absolute then call.sbt else call.clock + call.sbt;
      var p := Polled(t, now, scripts, n);
      && (now < due ==> forall i | |t.fired| <= i < |p.fired| :: p.fired[i].entry != e)
      && (due <= now && e in p.pending ==> |p.fired| == |t.fired| + n)
  {
    e := NewEntry(s, call.id, call.sbt, call.absolute, call.clock);
    InsertedMembers(Stopped(s, call.id).pending, e);
    CallsAreLocal(s, call);
    CalledKeeps(s, call);
    var t := Called(s, call);
    PolledKeeps(t, now, scripts, n);
    PolledRuns(t, now, scripts, n);
    var p := Polled(t, now, scripts, n);
    forall i | |t.fired| <= i < |p.fired| ensures p.fired[i].entry.time <= now { assert FiredOk(p.fired[i]); }
    if e in p.pending && e.time <= now { HeadIsLeast(p.pending); }
  }

  // ---------------------------------------------------------------- any sequence of operations

  datatype Op = Do(call: Call) | DoPoll(now: int, scripts: seq<seq<Call>>)

  function Next(s: State, op: Op): State {
    match op
    case Do(call) => Called(s, call)
    case DoPoll(now, scripts) => Polled(s, now, scripts, BOUND)
  }

  function After(s: State, ops: seq<Op>): State
    decreases |ops|
  {
    if ops == [] then s else After(Next(s, ops[0]), ops[1..])
  }

  const EMPTY := State([], {}, 0, [], [], [])

  lemma {:induction false} AfterKeeps(s: State, ops: seq<Op>)
    requires InOrder(s) && Balanced(s)
    ensures InOrder(After(s, ops)) && Balanced(After(s, ops))
    decreases |ops|
  {
    if ops != [] {
      match ops[0] {
        case Do(call) =>
          CalledKeeps(s, call);
          CalledBalances(s, call);
        case DoPoll(now, scripts) =>
          PolledKeeps(s, now, scripts, BOUND);
          PolledBalances(s, now, scripts, BOUND);
      }
      AfterKeeps(Next(s, ops[0]), ops[1..]);
    }
  }

  /** Under any sequence of resets, stops and polls the list is sorted and stable, and an armed
      callout leaves it only by running when due and first, by a stop or by a reset. */
  lemma AnySequence(ops: seq<Op>)
    ensures InOrder(After(EMPTY, ops)) && Balanced(After(EMPTY, ops))
  {
    AfterKeeps(EMPTY, ops);
  }

  // ---------------------------------------------------------------- the list in place

  /** The pending list of one worker. */
  class CalloutList {
    var pending: seq<Entry>
    var active: set<nat>
    var armings: nat
    ghost var armed: seq<Entry>
    ghost var removed: seq<Entry>
    ghost var fired: seq<Firing>

    ghost function View(): State
      reads this
    {
      State(pending, active, armings, armed, removed, fired)
    }

    constructor ()
      ensures View() == EMPTY
    {
      pending, active, armings := [], {}, 0;
      armed, removed, fired := [], [], [];
    }

    method Find(id: nat) returns (at: nat)
      ensures at <= |pending| && (forall k | 0 <= k < at :: pending[k].id != id)
      ensures at < |pending| ==> pending[at].id == id
    {
      at := 0;
      while at < |pending| && pending[at].id != id
        invariant at <= |pending| && forall k | 0 <= k < at :: pending[k].id != id
      {
        at := at + 1;
      }
    }

    /** Takes a callout off the list; tells whether it was pending. */
    method Stop(id: nat) returns (stopped: bool)
      modifies this`pending, this`active, this`removed
      ensures stopped == Has(old(pending), id) && View() == Stopped(old(View()), id)
    {
      var at := Find(id);
      stopped := at < |pending|;
      if stopped {
        FoundAt(pending, id, at);
        removed := removed + [pending[at]];
        pending := pending[..at] + pending[at + 1..];
        active := active - {id};
      }
    }

    /** Walks to the first callout that is due later. */
    method Insert(e: Entry)
      modifies this`pending
      ensures pending == Inserted(old(pending), e)
    {
      var at := 0;
      while at < |pending| && pending[at].time <= e.time
        invariant at <= |pending| && pending == old(pending)
        invariant Inserted(pending, e) == pending[..at] + Inserted(pending[at..], e)
      {
        InsertedTail(pending, at, e);
        at := at + 1;
      }
      assert Inserted(pending[at..], e) == [e] + pending[at..];
      pending := pending[..at] + ([e] + pending[at..]);
    }

    /** Arms a callout for a relative or absolute time, replacing an earlier arming. */
    method Reset(id: nat, sbt: int, absolute: bool, clock: int) returns (replaced: bool)
      modifies this`pending, this`active, this`armings, this`armed, this`removed
      ensures replaced == Has(old(pending), id) && View() == Armed(old(View()), id, sbt, absolute, clock)
    {
      replaced := Stop(id);
      var e := Entry(id, if absolute then sbt else clock + sbt, armings);
      Insert(e);
      armings := armings + 1;
      active := active + {id};
      armed := armed + [e];
    }

    /** What a callout's function does to the list. */
    method Run(calls: seq<Call>)
      modifies this`pending, this`active, this`armings, this`armed, this`removed
      ensures View() == CalledAll(old(View()), calls)
    {
      for i := 0 to |calls|
        invariant CalledAll(View(), calls[i..]) == CalledAll(old(View()), calls)
      {
        assert calls[i..][0] == calls[i] && calls[i..][1..] == calls[i + 1..];
        match calls[i] {
          case DoReset(id, sbt, absolute, clock) => var replaced := Reset(id, sbt, absolute, clock);
          case DoStop(id) => var stopped := Stop(id);
        }
      }
    }

    /** Takes the first callout off the list and runs it. */
    method FireHead(now: int)
      requires pending != []
      modifies this`pending, this`fired
      ensures View() == HeadFired(old(View()), now)
    {
      fired := fired + [Firing(pending[0], now, pending[1..])];
      pending := pending[1..];
    }

    /** Runs due callouts, earliest first, but not more than the bound in one poll; scripts are
        what the functions of those callouts do, one after the other. */
    method Poll(now: int, scripts: seq<seq<Call>>)
      modifies this
      ensures View() == Polled(old(View()), now, scripts, BOUND)
    {
      var left := scripts;
      for n := 0 to BOUND
        invariant Polled(View(), now, left, BOUND - n) == Polled(old(View()), now, scripts, BOUND)
      {
        if pending == [] || now < pending[0].time { return; }
        FireHead(now);
        Run(ScriptOf(left));
        left := Later(left);
      }
    }
  }

  lemma InsertedOk(list: seq<Entry>, e: Entry)
    requires Sorted(list) && Distinct(list) && Numbered(list, e.armed) && !Has(list, e.id)
    ensures var r := Inserted(list, e); Sorted(r) && Distinct(r) && Numbered(r, e.armed + 1) && e in r
  {
    InsertedSorted(list, e);
    InsertedDistinct(list, e);
    InsertedMembers(list, e);
    var r := Inserted(list, e);
    forall i | 0 <= i < |r| ensures r[i].armed < e.armed + 1 { assert r[i] in r; }
  }

  lemma HeadIsLeast(list: seq<Entry>)
    requires list != [] && Sorted(list)
    ensures forall e | e in list[1..] :: Before(list[0], e)
  {
  }

  lemma {:induction false} FoundAt(list: seq<Entry>, id: nat, at: nat)
    requires at < |list| && list[at].id == id && forall k | 0 <= k < at :: list[k].id != id
    ensures Has(list, id) && EntryOf(list, id) == list[at] && Without(list, id) == list[..at] + list[at + 1..]
  {
    if 0 < at {
      HasTail(list, id);
      FoundAt(list[1..], id, at - 1);
      assert list[..at] + list[at + 1..] == [list[0]] + (list[1..][..at - 1] + list[1..][at..]);
    }
  }

  lemma {:induction false} InsertedTail(list: seq<Entry>, at: nat, e: Entry)
    requires at < |list| && list[at].time <= e.time && Inserted(list, e) == list[..at] + Inserted(list[at..], e)
    ensures Inserted(list, e) == list[..at + 1] + Inserted(list[at + 1..], e)
  {
    assert list[at..][1..] == list[at + 1..];
    assert list[..at] + ([list[at]] + Inserted(list[at + 1..], e)) == list[..at + 1] + Inserted(list[at + 1..], e);
  }

  // ---------------------------------------------------------------- deadlines

  /** The monotonic clock in 1/2^32 seconds, as uptime_sbt computes it. */
  function Uptime(ns: nat): int { ns / NS_1S * SBT_1S + ns % NS_1S * SBT_1S / NS_1S }

  /** Splitting off the seconds does not change the rounding. */
  lemma UptimeIsFloor(ns: nat)
    ensures Uptime(ns) == ns * SBT_1S / NS_1S
  {
  }

  lemma UptimeMonotone(a: nat, b: nat)
    requires a <= b
    ensures Uptime(a) <= Uptime(b)
  {
    UptimeIsFloor(a);
    UptimeIsFloor(b);
  }

  /** When to wake for a callout: two readings of the clock, first for the distance, then for the base. */
  function Deadline(time: int, first: nat, second: nat): int {
    var delta := time - Uptime(first);
    if delta <= 0 then second else second + (delta * NS_1S + SBT_1S - 1) / SBT_1S
  }

  /** Once the clock has reached the deadline the callout is due, in spite of both roundings. */
  lemma DueAtDeadline(time: int, first: nat, second: nat, clock: nat)
    requires first <= second && Deadline(time, first, second) <= clock
    ensures time <= Uptime(clock)
  {
    UptimeIsFloor(first);
    UptimeIsFloor(clock);
    UptimeMonotone(first, clock);
  }

  /** How far the clock reading was past the last 1/2^32 second, in parts of 10^9. */
  function Past(now: nat): nat { now * SBT_1S % NS_1S }

  /** What the last nanosecond before the deadline still has to cover of the distance. */
  function LastPiece(delta: nat): int { delta * NS_1S - ((delta * NS_1S + SBT_1S - 1) / SBT_1S - 1) * SBT_1S }

  lemma DueCondition(time: int, clock: nat)
    ensures time <= Uptime(clock) <==> time * NS_1S <= clock * SBT_1S
  {
    UptimeIsFloor(clock);
  }

  lemma ReadingSplits(now: nat)
    ensures now * SBT_1S == Uptime(now) * NS_1S + Past(now)
  {
    UptimeIsFloor(now);
  }

  /** The deadline is hardly late: with one clock reading, the callout is not due two nanoseconds
      before it, */
  lemma NotDueBefore(time: int, now: nat, clock: nat)
    requires Uptime(now) < time && clock + 2 <= Deadline(time, now, now)
    ensures Uptime(clock) < time
  {
    ReadingSplits(now);
    DueCondition(time, clock);
  }

  /** and one nanosecond before it exactly if the reading was further past a tick than the last
      nanosecond has to cover. */
  lemma DueOneBefore(time: int, now: nat)
    requires Uptime(now) < time
    ensures 0 <= Deadline(time, now, now) - 1
    ensures time <= Uptime(Deadline(time, now, now) - 1) <==> LastPiece(time - Uptime(now)) <= Past(now)
  {
    ReadingSplits(now);
    DueCondition(time, Deadline(time, now, now) - 1);
  }

  /** For instance with the clock at 1 and a callout due 13 ticks later, at 17. */
  lemma OneNanosecondEarly()
    ensures Uptime(1) == 4 && Deadline(17, 1, 1) == 5 && Uptime(4) == 17
  {
  }
}
