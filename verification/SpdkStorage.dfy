/**
 The SPDK storage backend of one worker: requests go straight to their queue pair or wait
 behind earlier ones, completions call back into the backend, and opening and closing files
 adds and removes channels underneath.
 */
module SpdkStorage {
  import Bits

  const ENOMEM := -12

  /** One accepted read, write or flush; every acceptance has its own number. */
  datatype Request = Request(id: nat, file: nat)

  /** A channel with the requests waiting in software and those the device holds. */
  datatype Channel = Channel(controller: nat, qpair: nat, openFiles: nat, pending: seq<Request>, issued: seq<Request>)

  datatype File = Closed | Open(controller: nat, qpair: nat, channelIndex: nat)

  datatype Event = Event(qpair: nat, id: nat)

  /** Opens, closes and flushes without a write cache finish on the next poll, on no queue pair. */
  const NO_QPAIR: nat := 0

  datatype State = State(
    files: seq<File>, channels: seq<Channel>, outstanding: int, generation: nat, nextPoll: nat,
    ready: seq<nat>, batch: seq<nat>, qpairs: nat,
    accepted: seq<Event>, decided: seq<Event>, completed: seq<nat>)

  // ---------------------------------------------------------------- operations on values

  function Without<T>(s: seq<T>, i: nat): seq<T>
    requires i < |s|
  {
    s[..i] + s[i + 1..]
  }

  predicate IsOpen(s: State, file: nat) { file < |s.files| && s.files[file].Open? }

  function NewId(s: State): nat { |s.accepted| }

  function Issued(s: State, c: nat, file: nat): State
    requires c < |s.channels|
  {
    var ch, e := s.channels[c], Event(s.channels[c].qpair, NewId(s));
    s.(channels := s.channels[c := ch.(issued := ch.issued + [Request(NewId(s), file)])],
       outstanding := s.outstanding + 1, accepted := s.accepted + [e], decided := s.decided + [e])
  }

  function Queued(s: State, c: nat, file: nat): State
    requires c < |s.channels|
  {
    var ch := s.channels[c];
    s.(channels := s.channels[c := ch.(pending := ch.pending + [Request(NewId(s), file)])],
       outstanding := s.outstanding + 1, accepted := s.accepted + [Event(ch.qpair, NewId(s))])
  }

  /** The device has no room now but will, once a command it holds completes. */
  predicate MustWait(ch: Channel, rc: int) { rc == ENOMEM && ch.issued != [] }

  predicate Refused(s: State, c: nat, rc: int, allocates: bool)
    requires c < |s.channels|
  {
    if s.channels[c].pending != [] || MustWait(s.channels[c], rc) then !allocates else rc != 0
  }

  function Submitted(s: State, c: nat, file: nat, rc: int, allocates: bool): State
    requires c < |s.channels|
  {
    if Refused(s, c, rc, allocates) then s
    else if s.channels[c].pending == [] && rc == 0 then Issued(s, c, file)
    else Queued(s, c, file)
  }

  /** The oldest waiting request goes to the device. */
  function HeadIssued(s: State, c: nat): State
    requires c < |s.channels| && s.channels[c].pending != []
  {
    var ch := s.channels[c];
    s.(channels := s.channels[c := ch.(pending := ch.pending[1..], issued := ch.issued + [ch.pending[0]])],
       decided := s.decided + [Event(ch.qpair, ch.pending[0].id)])
  }

  /** The oldest waiting request fails for good and completes. */
  function HeadFailed(s: State, c: nat): State
    requires c < |s.channels| && s.channels[c].pending != []
  {
    var ch := s.channels[c];
    s.(channels := s.channels[c := ch.(pending := ch.pending[1..])], outstanding := s.outstanding - 1,
       decided := s.decided + [Event(ch.qpair, ch.pending[0].id)], completed := s.completed + [ch.pending[0].id])
  }

  /** The device completes one of the commands it holds. */
  function DeviceDone(s: State, c: nat, i: nat): State
    requires c < |s.channels| && i < |s.channels[c].issued|
  {
    var ch := s.channels[c];
    s.(channels := s.channels[c := ch.(issued := Without(ch.issued, i))], outstanding := s.outstanding - 1,
       completed := s.completed + [ch.issued[i].id])
  }

  /** An operation that finishes on the next poll. */
  function Deferred(s: State): State {
    s.(ready := s.ready + [NewId(s)], accepted := s.accepted + [Event(NO_QPAIR, NewId(s))])
  }

  function WithChannel(s: State, controller: nat): State {
    s.(channels := s.channels + [Channel(controller, s.qpairs, 0, [], [])], qpairs := s.qpairs + 1,
       generation := s.generation + 1)
  }

  function Attached(s: State, file: nat, c: nat): State
    requires file < |s.files| && c < |s.channels|
  {
    var ch := s.channels[c];
    s.(files := s.files[file := Open(ch.controller, ch.qpair, c)],
       channels := s.channels[c := ch.(openFiles := ch.openFiles + 1)])
  }

  function Shifted(f: File, index: nat): File {
    if f.Open? && index < f.channelIndex then f.(channelIndex := f.channelIndex - 1) else f
  }

  /** The same file on the same queue pair, maybe under another index. */
  predicate SameFile(f: File, g: File) {
    f.Closed? == g.Closed? && (f.Open? ==> f.controller == g.controller && f.qpair == g.qpair)
  }

  function ShiftedAll(files: seq<File>, index: nat): (r: seq<File>)
    ensures |r| == |files| && forall i | 0 <= i < |r| :: r[i] == Shifted(files[i], index)
  {
    seq(|files|, i requires 0 <= i < |files| => Shifted(files[i], index))
  }

  function Remapped(next: nat, count: nat): nat {
    if count == 0 then 0 else if count <= next then next % count else next
  }

  /** The i-th channel after the first, going around. */
  function Cyclic(first: nat, i: nat, count: nat): (r: nat)
    requires first < count && i <= count
    ensures r < count
  {
    if first + i < count then first + i else first + i - count
  }

  /** Where the cursor is after n turns from the first channel. */
  function Turned(first: nat, n: nat, count: nat): nat {
    if first < count && n <= count then Cyclic(first, n, count) else first
  }

  lemma TurnedNext(first: nat, n: nat, count: nat)
    requires first < count && n < count
    ensures Turned(first, n, count) == Cyclic(first, n, count)
    ensures Turned(first, n + 1, count) == Cyclic(Cyclic(first, n, count), 1, count)
  {
  }

  /** Going around once is taking the remainder, as the code does. */
  lemma CyclicIsRemainder(first: nat, i: nat, count: nat)
    requires first < count && i <= count
    ensures (first + i) % count == Cyclic(first, i, count)
  {
    Bits.ModUnique(first + i, if first + i < count then 0 else 1, count, Cyclic(first, i, count));
  }

  function Detached(s: State, file: nat): State
    requires IsOpen(s, file) && s.files[file].channelIndex < |s.channels|
    requires 0 < s.channels[s.files[file].channelIndex].openFiles
  {
    var c := s.files[file].channelIndex;
    var ch := s.channels[c];
    if ch.openFiles == 1 then
      s.(files := ShiftedAll(s.files, c)[file := Closed], channels := Without(s.channels, c),
         generation := s.generation + 1, nextPoll := Remapped(s.nextPoll, |s.channels| - 1))
    else
      s.(files := s.files[file := Closed], channels := s.channels[c := ch.(openFiles := ch.openFiles - 1)])
  }

  // ---------------------------------------------------------------- counting

  function One(b: bool): nat { if b then 1 else 0 }

  function Ids(rs: seq<Request>): (r: seq<nat>)
    ensures |r| == |rs| && forall i | 0 <= i < |r| :: r[i] == rs[i].id
  {
    seq(|rs|, i requires 0 <= i < |rs| => rs[i].id)
  }

  function Occurs(s: seq<nat>, id: nat): nat { if s == [] then 0 else One(s[0] == id) + Occurs(s[1..], id) }

  /** The requests a log mentions for one queue pair, in order. */
  function Of(log: seq<Event>, q: nat): seq<nat> {
    if log == [] then [] else (if log[0].qpair == q then [log[0].id] else []) + Of(log[1..], q)
  }

  function Sum(cs: seq<Channel>, f: Channel -> nat): nat { if cs == [] then 0 else f(cs[0]) + Sum(cs[1..], f) }

  function Users(files: seq<File>, c: nat): nat {
    if files == [] then 0 else One(files[0].Open? && files[0].channelIndex == c) + Users(files[1..], c)
  }

  function Load(): Channel -> nat { (c: Channel) => |c.issued| + |c.pending| }

  function Holding(id: nat): Channel -> nat {
    (c: Channel) => Occurs(Ids(c.issued), id) + Occurs(Ids(c.pending), id)
  }

  /** In how many places a request is. */
  function Places(s: State, id: nat): nat {
    Occurs(s.ready, id) + Occurs(s.batch, id) + Occurs(s.completed, id) + Sum(s.channels, Holding(id))
  }

  lemma {:induction false} OccursAppend(a: seq<nat>, b: seq<nat>, id: nat)
    ensures Occurs(a + b, id) == Occurs(a, id) + Occurs(b, id)
  {
    if a == [] {
      assert a + b == b;
    } else {
      OccursAppend(a[1..], b, id);
      assert (a + b)[1..] == a[1..] + b;
    }
  }

  lemma OccursWithout(rs: seq<Request>, i: nat, id: nat)
    requires i < |rs|
    ensures Occurs(Ids(rs), id) == Occurs(Ids(Without(rs, i)), id) + One(rs[i].id == id)
  {
    var s := Ids(rs);
    assert s == s[..i] + ([s[i]] + s[i + 1..]) && Ids(Without(rs, i)) == s[..i] + s[i + 1..];
    OccursAppend(s[..i], [s[i]] + s[i + 1..], id);
    OccursAppend([s[i]], s[i + 1..], id);
    OccursAppend(s[..i], s[i + 1..], id);
  }

  lemma OccursPush(rs: seq<Request>, r: Request, id: nat)
    ensures Occurs(Ids(rs + [r]), id) == Occurs(Ids(rs), id) + One(r.id == id)
  {
    assert Ids(rs + [r]) == Ids(rs) + [r.id];
    OccursAppend(Ids(rs), [r.id], id);
  }

  lemma {:induction false} OfAppend(log: seq<Event>, e: Event, q: nat)
    ensures Of(log + [e], q) == Of(log, q) + if e.qpair == q then [e.id] else []
  {
    if log != [] {
      OfAppend(log[1..], e, q);
      assert (log + [e])[1..] == log[1..] + [e];
    }
  }

  lemma {:induction false} SumUpdate(cs: seq<Channel>, f: Channel -> nat, c: nat, ch: Channel)
    requires c < |cs|
    ensures Sum(cs[c := ch], f) + f(cs[c]) == Sum(cs, f) + f(ch)
  {
    if c == 0 {
      assert cs[0 := ch][1..] == cs[1..];
    } else {
      SumUpdate(cs[1..], f, c - 1, ch);
      assert cs[c := ch][1..] == cs[1..][c - 1 := ch];
    }
  }

  lemma {:induction false} SumWithout(cs: seq<Channel>, f: Channel -> nat, c: nat)
    requires c < |cs|
    ensures Sum(Without(cs, c), f) + f(cs[c]) == Sum(cs, f)
  {
    if c == 0 {
      assert Without(cs, 0) == cs[1..];
    } else {
      SumWithout(cs[1..], f, c - 1);
      assert Without(cs, c)[1..] == Without(cs[1..], c - 1);
    }
  }

  lemma {:induction false} SumPush(cs: seq<Channel>, f: Channel -> nat, ch: Channel)
    ensures Sum(cs + [ch], f) == Sum(cs, f) + f(ch)
  {
    if cs != [] {
      SumPush(cs[1..], f, ch);
      assert (cs + [ch])[1..] == cs[1..] + [ch];
    }
  }

  lemma {:induction false} SumBounds(cs: seq<Channel>, f: Channel -> nat, c: nat)
    requires c < |cs|
    ensures f(cs[c]) <= Sum(cs, f)
  {
    if c != 0 { SumBounds(cs[1..], f, c - 1); }
  }

  lemma {:induction false} UsersUpdate(files: seq<File>, i: nat, f: File, c: nat)
    requires i < |files|
    ensures Users(files[i := f], c) + One(files[i].Open? && files[i].channelIndex == c) ==
      Users(files, c) + One(f.Open? && f.channelIndex == c)
  {
    if i == 0 {
      assert files[0 := f][1..] == files[1..];
    } else {
      UsersUpdate(files[1..], i - 1, f, c);
      assert files[i := f][1..] == files[1..][i - 1 := f];
    }
  }

  lemma {:induction false} UsersShift(files: seq<File>, index: nat, c: nat)
    requires Users(files, index) == 0
    ensures Users(ShiftedAll(files, index), c) == Users(files, if c < index then c else c + 1)
  {
    if files != [] {
      UsersShift(files[1..], index, c);
      assert ShiftedAll(files, index)[1..] == ShiftedAll(files[1..], index);
    }
  }

  lemma {:induction false} UsersPositive(files: seq<File>, i: nat)
    requires i < |files| && files[i].Open?
    ensures 0 < Users(files, files[i].channelIndex)
  {
    if i != 0 { UsersPositive(files[1..], i - 1); }
  }

  // ---------------------------------------------------------------- the invariant

  /** Every open file's index names the channel that holds its queue pair. */
  ghost predicate FileOk(f: File, channels: seq<Channel>) {
    f.Open? ==>
      f.channelIndex < |channels| && channels[f.channelIndex].qpair == f.qpair
      && channels[f.channelIndex].controller == f.controller
  }

  ghost predicate FilesOk(files: seq<File>, channels: seq<Channel>) {
    forall i | 0 <= i < |files| :: FileOk(files[i], channels)
  }

  /** A channel exists exactly as long as some file uses it, one per controller. */
  ghost predicate ChannelsOk(files: seq<File>, channels: seq<Channel>, qpairs: nat) {
    && (forall c | 0 <= c < |channels| ::
         0 < channels[c].openFiles == Users(files, c) && 0 < channels[c].qpair < qpairs)
    && (forall c, d | 0 <= c < d < |channels| ::
         channels[c].qpair != channels[d].qpair && channels[c].controller != channels[d].controller)
  }

  /** A waiting request's file is still open on the queue pair it waits for. */
  ghost predicate WaitsOk(ch: Channel, files: seq<File>) {
    forall i | 0 <= i < |ch.pending| ::
      var f := ch.pending[i].file; f < |files| && files[f].Open? && files[f].qpair == ch.qpair
  }

  ghost predicate PendingOk(files: seq<File>, channels: seq<Channel>) {
    forall c | 0 <= c < |channels| :: WaitsOk(channels[c], files)
  }

  ghost predicate OrderOk(ch: Channel, accepted: seq<Event>, decided: seq<Event>) {
    Of(accepted, ch.qpair) == Of(decided, ch.qpair) + Ids(ch.pending)
  }

  ghost predicate Unused(channels: seq<Channel>, q: nat) {
    forall c | 0 <= c < |channels| :: channels[c].qpair != q
  }

  /** Per queue pair, the requests decided so far and those waiting are the accepted ones, in order. */
  ghost predicate Ordered(channels: seq<Channel>, accepted: seq<Event>, decided: seq<Event>) {
    && (forall c | 0 <= c < |channels| :: OrderOk(channels[c], accepted, decided))
    && (forall q: nat | q != NO_QPAIR && Unused(channels, q) :: Of(accepted, q) == Of(decided, q))
  }

  ghost predicate Conserved(s: State) {
    && (forall id: nat :: Places(s, id) == One(id < |s.accepted|))
    && (forall i | 0 <= i < |s.accepted| :: s.accepted[i].id == i)
  }

  predicate CursorOk(next: nat, channels: seq<Channel>) { next < |channels| || next == 0 }

  ghost predicate TablesOk(files: seq<File>, channels: seq<Channel>, qpairs: nat) {
    FilesOk(files, channels) && ChannelsOk(files, channels, qpairs) && PendingOk(files, channels)
  }

  ghost predicate Inv(s: State) {
    && TablesOk(s.files, s.channels, s.qpairs) && CursorOk(s.nextPoll, s.channels) && 0 < s.qpairs
    && Ordered(s.channels, s.accepted, s.decided) && Conserved(s) && s.outstanding == Sum(s.channels, Load())
  }

  // ---------------------------------------------------------------- steps

  datatype Step =
    | Submit(file: nat, rc: int, allocates: bool)
    | Flush(file: nat)
    | OpenFile(file: nat, controller: nat, channel: nat, allocates: bool)
    | CloseFile(file: nat)
    | Retry(channel: nat, rc: int)
    | Device(channel: nat, index: nat)
    | TakeReady
    | DispatchReady
    | MoveCursor(next: nat)

  ghost predicate Unserved(s: State, controller: nat) {
    forall c | 0 <= c < |s.channels| :: s.channels[c].controller != controller
  }

  /** SubmitOpenDirect, given the channel that already serves the controller, if any. */
  function Opened(s: State, file: nat, controller: nat, c: nat, allocates: bool): State
    requires c <= |s.channels| && (c < |s.channels| ==> s.channels[c].controller == controller)
  {
    if |s.files| <= file || s.files[file].Open? || (c == |s.channels| && !allocates) then s
    else
      var t := if c == |s.channels| then WithChannel(s, controller) else s;
      Deferred(Attached(t, file, c))
  }

  predicate MayClose(s: State, file: nat) { IsOpen(s, file) && s.outstanding == 0 }

  function ClosedFile(s: State, file: nat): State
    requires IsOpen(s, file) ==>
      s.files[file].channelIndex < |s.channels| && 0 < s.channels[s.files[file].channelIndex].openFiles
  {
    if MayClose(s, file) then Deferred(Detached(s, file)) else s
  }

  /** One turn of RetryDeferred on a channel whose software queue is not empty. */
  function Retried(s: State, c: nat, rc: int): State
    requires c < |s.channels| && s.channels[c].pending != []
  {
    if MustWait(s.channels[c], rc) then s else if rc == 0 then HeadIssued(s, c) else HeadFailed(s, c)
  }

  /** SubmitIo: a request for a file that is not open is refused. */
  function SubmittedTo(s: State, file: nat, rc: int, allocates: bool): State {
    if IsOpen(s, file) && s.files[file].channelIndex < |s.channels|
    then Submitted(s, s.files[file].channelIndex, file, rc, allocates)
    else s
  }

  function Dispatched(s: State): State
    requires s.batch != []
  {
    s.(batch := s.batch[1..], completed := s.completed + [s.batch[0]])
  }

  ghost predicate Found(s: State, controller: nat, c: nat) {
    if c < |s.channels| then s.channels[c].controller == controller else c == |s.channels| && Unserved(s, controller)
  }

  ghost predicate Enabled(s: State, st: Step) {
    match st
    case Submit(_, _, _) => true
    case Flush(file) => IsOpen(s, file)
    case OpenFile(_, controller, c, _) => Found(s, controller, c)
    case CloseFile(file) =>
      IsOpen(s, file) ==>
        s.files[file].channelIndex < |s.channels| && 0 < s.channels[s.files[file].channelIndex].openFiles
    case Retry(c, _) => c < |s.channels| && s.channels[c].pending != []
    case Device(c, i) => c < |s.channels| && i < |s.channels[c].issued|
    case TakeReady => s.batch == []
    case DispatchReady => s.batch != []
    case MoveCursor(next) => next < |s.channels|
  }

  ghost function Apply(s: State, st: Step): State
    requires Enabled(s, st)
  {
    match st
    case Submit(file, rc, allocates) => SubmittedTo(s, file, rc, allocates)
    case Flush(file) => Deferred(s)
    case OpenFile(file, controller, c, allocates) => Opened(s, file, controller, c, allocates)
    case CloseFile(file) => ClosedFile(s, file)
    case Retry(c, rc) => Retried(s, c, rc)
    case Device(c, i) => DeviceDone(s, c, i)
    case TakeReady => s.(batch := s.ready, ready := [])
    case DispatchReady => Dispatched(s)
    case MoveCursor(next) => s.(nextPoll := next)
  }

  // ---------------------------------------------------------------- what every step keeps

  /** A change inside one channel that leaves its identity alone. */
  predicate SameIdentity(ch: Channel, d: Channel) {
    ch.qpair == d.qpair && ch.controller == d.controller && ch.openFiles == d.openFiles
  }

  lemma TablesKeep(files: seq<File>, channels: seq<Channel>, qpairs: nat, c: nat, ch: Channel)
    requires TablesOk(files, channels, qpairs)
    requires c < |channels| && SameIdentity(channels[c], ch) && WaitsOk(ch, files)
    ensures TablesOk(files, channels[c := ch], qpairs)
  {
    forall i | 0 <= i < |files| ensures FileOk(files[i], channels[c := ch]) {
      assert FileOk(files[i], channels);
    }
  }

  function Logged(log: seq<Event>, e: Event, b: bool): seq<Event> { if b then log + [e] else log }

  lemma LoggedOf(log: seq<Event>, e: Event, b: bool, q: nat)
    ensures Of(Logged(log, e, b), q) == Of(log, q) + if b && e.qpair == q then [e.id] else []
  {
    OfAppend(log, e, q);
  }

  /** A request of one queue pair is accepted, decided or both; the other queue pairs' books stay. */
  lemma OrderKeeps(files: seq<File>, channels: seq<Channel>, qpairs: nat, a: seq<Event>, d: seq<Event>, e: Event,
                   inA: bool, inD: bool, c: nat, ch: Channel)
    requires Ordered(channels, a, d) && ChannelsOk(files, channels, qpairs)
    requires c < |channels| && ch.qpair == channels[c].qpair == e.qpair
    requires OrderOk(ch, Logged(a, e, inA), Logged(d, e, inD))
    ensures Ordered(channels[c := ch], Logged(a, e, inA), Logged(d, e, inD))
  {
    var next := channels[c := ch];
    forall k | 0 <= k < |next| ensures OrderOk(next[k], Logged(a, e, inA), Logged(d, e, inD)) {
      if k != c {
        assert OrderOk(channels[k], a, d);
        LoggedOf(a, e, inA, channels[k].qpair);
        LoggedOf(d, e, inD, channels[k].qpair);
      }
    }
    forall q: nat | q != NO_QPAIR && Unused(next, q) ensures Of(Logged(a, e, inA), q) == Of(Logged(d, e, inD), q) {
      assert next[c].qpair != q;
      assert Unused(channels, q) by {
        forall k | 0 <= k < |channels| ensures channels[k].qpair != q { assert next[k].qpair != q; }
      }
      LoggedOf(a, e, inA, q);
      LoggedOf(d, e, inD, q);
    }
  }

  lemma IssuedOrder(ch: Channel, a: seq<Event>, d: seq<Event>, id: nat, issued: seq<Request>)
    requires OrderOk(ch, a, d) && ch.pending == []
    ensures OrderOk(ch.(issued := issued), a + [Event(ch.qpair, id)], d + [Event(ch.qpair, id)])
  {
    OfAppend(a, Event(ch.qpair, id), ch.qpair);
    OfAppend(d, Event(ch.qpair, id), ch.qpair);
    assert Ids([]) == [];
  }

  lemma QueuedOrder(ch: Channel, a: seq<Event>, d: seq<Event>, r: Request)
    requires OrderOk(ch, a, d)
    ensures OrderOk(ch.(pending := ch.pending + [r]), a + [Event(ch.qpair, r.id)], d)
  {
    OfAppend(a, Event(ch.qpair, r.id), ch.qpair);
    assert Ids(ch.pending + [r]) == Ids(ch.pending) + [r.id];
  }

  lemma IdsHead(rs: seq<Request>)
    requires rs != []
    ensures Ids(rs) == [rs[0].id] + Ids(rs[1..])
  {
  }

  lemma Rejoin(done: seq<nat>, x: nat, rest: seq<nat>)
    ensures done + ([x] + rest) == (done + [x]) + rest
  {
  }

  lemma HeadOrder(ch: Channel, a: seq<Event>, d: seq<Event>, issued: seq<Request>)
    requires OrderOk(ch, a, d) && ch.pending != []
    ensures OrderOk(ch.(pending := ch.pending[1..], issued := issued), a, d + [Event(ch.qpair, ch.pending[0].id)])
  {
    var e, rest := Event(ch.qpair, ch.pending[0].id), Ids(ch.pending[1..]);
    calc {
      Of(a, ch.qpair);
      { IdsHead(ch.pending); }
      Of(d, ch.qpair) + ([e.id] + rest);
      { Rejoin(Of(d, ch.qpair), e.id, rest); }
      (Of(d, ch.qpair) + [e.id]) + rest;
      { OfAppend(d, e, ch.qpair); }
      Of(d + [e], ch.qpair) + rest;
    }
  }

  lemma IssuedConserves(s: State, c: nat, file: nat)
    requires Conserved(s) && c < |s.channels|
    ensures Conserved(Issued(s, c, file))
  {
    var t, ch, id := Issued(s, c, file), s.channels[c], NewId(s);
    forall k: nat ensures Places(t, k) == One(k < |t.accepted|) {
      assert Places(s, k) == One(k < |s.accepted|);
      SumUpdate(s.channels, Holding(k), c, t.channels[c]);
      OccursPush(ch.issued, Request(id, file), k);
    }
  }

  lemma IssuedKeeps(s: State, c: nat, file: nat)
    requires Inv(s) && c < |s.channels| && s.channels[c].pending == []
    ensures Inv(Issued(s, c, file))
  {
    var t, ch, id := Issued(s, c, file), s.channels[c], NewId(s);
    TablesKeep(s.files, s.channels, s.qpairs, c, t.channels[c]);
    IssuedOrder(ch, s.accepted, s.decided, id, t.channels[c].issued);
    OrderKeeps(s.files, s.channels, s.qpairs, s.accepted, s.decided, Event(ch.qpair, id), true, true, c, t.channels[c]);
    SumUpdate(s.channels, Load(), c, t.channels[c]);
    IssuedConserves(s, c, file);
  }

  lemma QueuedConserves(s: State, c: nat, file: nat)
    requires Conserved(s) && c < |s.channels|
    ensures Conserved(Queued(s, c, file))
  {
    var t, ch, id := Queued(s, c, file), s.channels[c], NewId(s);
    forall k: nat ensures Places(t, k) == One(k < |t.accepted|) {
      assert Places(s, k) == One(k < |s.accepted|);
      SumUpdate(s.channels, Holding(k), c, t.channels[c]);
      OccursPush(ch.pending, Request(id, file), k);
    }
  }

  lemma QueuedKeeps(s: State, c: nat, file: nat)
    requires Inv(s) && c < |s.channels| && IsOpen(s, file) && s.files[file].channelIndex == c
    ensures Inv(Queued(s, c, file))
  {
    var t, ch, id := Queued(s, c, file), s.channels[c], NewId(s);
    assert FileOk(s.files[file], s.channels);
    assert WaitsOk(ch, s.files);
    TablesKeep(s.files, s.channels, s.qpairs, c, t.channels[c]);
    QueuedOrder(ch, s.accepted, s.decided, Request(id, file));
    OrderKeeps(s.files, s.channels, s.qpairs, s.accepted, s.decided, Event(ch.qpair, id), true, false, c, t.channels[c]);
    SumUpdate(s.channels, Load(), c, t.channels[c]);
    QueuedConserves(s, c, file);
  }

  lemma HeadPlaces(rs: seq<Request>, k: nat)
    requires rs != []
    ensures Occurs(Ids(rs), k) == Occurs(Ids(rs[1..]), k) + One(rs[0].id == k)
  {
    assert Without(rs, 0) == rs[1..];
    OccursWithout(rs, 0, k);
  }

  lemma HeadIssuedConserves(s: State, c: nat)
    requires Conserved(s) && c < |s.channels| && s.channels[c].pending != []
    ensures Conserved(HeadIssued(s, c))
  {
    var t, ch := HeadIssued(s, c), s.channels[c];
    forall k: nat ensures Places(t, k) == One(k < |t.accepted|) {
      assert Places(s, k) == One(k < |s.accepted|);
      SumUpdate(s.channels, Holding(k), c, t.channels[c]);
      OccursPush(ch.issued, ch.pending[0], k);
      HeadPlaces(ch.pending, k);
    }
  }

  lemma HeadIssuedKeeps(s: State, c: nat)
    requires Inv(s) && c < |s.channels| && s.channels[c].pending != []
    ensures Inv(HeadIssued(s, c))
  {
    var t, ch := HeadIssued(s, c), s.channels[c];
    assert WaitsOk(ch, s.files);
    TablesKeep(s.files, s.channels, s.qpairs, c, t.channels[c]);
    HeadOrder(ch, s.accepted, s.decided, t.channels[c].issued);
    OrderKeeps(s.files, s.channels, s.qpairs, s.accepted, s.decided, Event(ch.qpair, ch.pending[0].id), false, true,
               c, t.channels[c]);
    SumUpdate(s.channels, Load(), c, t.channels[c]);
    HeadIssuedConserves(s, c);
  }

  lemma HeadFailedConserves(s: State, c: nat)
    requires Conserved(s) && c < |s.channels| && s.channels[c].pending != []
    ensures Conserved(HeadFailed(s, c))
  {
    var t, ch := HeadFailed(s, c), s.channels[c];
    forall k: nat ensures Places(t, k) == One(k < |t.accepted|) {
      assert Places(s, k) == One(k < |s.accepted|);
      SumUpdate(s.channels, Holding(k), c, t.channels[c]);
      OccursAppend(s.completed, [ch.pending[0].id], k);
      HeadPlaces(ch.pending, k);
    }
  }

  lemma HeadFailedKeeps(s: State, c: nat)
    requires Inv(s) && c < |s.channels| && s.channels[c].pending != []
    ensures 0 < s.outstanding && Inv(HeadFailed(s, c))
  {
    SumBounds(s.channels, Load(), c);
    var t, ch := HeadFailed(s, c), s.channels[c];
    assert WaitsOk(ch, s.files);
    TablesKeep(s.files, s.channels, s.qpairs, c, t.channels[c]);
    HeadOrder(ch, s.accepted, s.decided, ch.issued);
    OrderKeeps(s.files, s.channels, s.qpairs, s.accepted, s.decided, Event(ch.qpair, ch.pending[0].id), false, true,
               c, t.channels[c]);
    SumUpdate(s.channels, Load(), c, t.channels[c]);
    HeadFailedConserves(s, c);
  }

  lemma DeviceDoneConserves(s: State, c: nat, i: nat)
    requires Conserved(s) && c < |s.channels| && i < |s.channels[c].issued|
    ensures Conserved(DeviceDone(s, c, i))
  {
    var t, ch := DeviceDone(s, c, i), s.channels[c];
    forall k: nat ensures Places(t, k) == One(k < |t.accepted|) {
      assert Places(s, k) == One(k < |s.accepted|);
      SumUpdate(s.channels, Holding(k), c, t.channels[c]);
      OccursAppend(s.completed, [ch.issued[i].id], k);
      OccursWithout(ch.issued, i, k);
    }
  }

  lemma DeviceDoneKeeps(s: State, c: nat, i: nat)
    requires Inv(s) && c < |s.channels| && i < |s.channels[c].issued|
    ensures 0 < s.outstanding && Inv(DeviceDone(s, c, i))
  {
    SumBounds(s.channels, Load(), c);
    var t, ch := DeviceDone(s, c, i), s.channels[c];
    assert WaitsOk(ch, s.files) && OrderOk(ch, s.accepted, s.decided);
    TablesKeep(s.files, s.channels, s.qpairs, c, t.channels[c]);
    OrderKeeps(s.files, s.channels, s.qpairs, s.accepted, s.decided, Event(ch.qpair, 0), false, false, c, t.channels[c]);
    SumUpdate(s.channels, Load(), c, t.channels[c]);
    DeviceDoneConserves(s, c, i);
  }

  lemma DeferredKeeps(s: State)
    requires Inv(s)
    ensures Inv(Deferred(s))
  {
    var t, e := Deferred(s), Event(NO_QPAIR, NewId(s));
    forall q: nat | q != NO_QPAIR ensures Of(t.accepted, q) == Of(s.accepted, q) { OfAppend(s.accepted, e, q); }
    forall c | 0 <= c < |s.channels| ensures OrderOk(s.channels[c], t.accepted, t.decided) {
      assert OrderOk(s.channels[c], s.accepted, s.decided);
    }
    forall k: nat ensures Places(t, k) == One(k < |t.accepted|) {
      assert Places(s, k) == One(k < |s.accepted|);
      OccursAppend(s.ready, [NewId(s)], k);
    }
  }

  // ---------------------------------------------------------------- opening and closing

  lemma {:induction false} UsersNone(files: seq<File>, c: nat)
    requires forall i | 0 <= i < |files| && files[i].Open? :: files[i].channelIndex != c
    ensures Users(files, c) == 0
  {
    if files != [] { UsersNone(files[1..], c); }
  }

  lemma FilesAttach(files: seq<File>, channels: seq<Channel>, next: seq<Channel>, file: nat, f: File)
    requires FilesOk(files, channels) && |channels| <= |next| && file < |files| && files[file].Closed?
    requires forall c | 0 <= c < |channels| ::
      next[c].qpair == channels[c].qpair && next[c].controller == channels[c].controller
      && next[c].pending == channels[c].pending
    requires forall c | |channels| <= c < |next| :: next[c].pending == []
    requires PendingOk(files, channels) && FileOk(f, next)
    ensures FilesOk(files[file := f], next) && PendingOk(files[file := f], next)
  {
    var files' := files[file := f];
    forall i | 0 <= i < |files'| ensures FileOk(files'[i], next) {
      assert FileOk(files[i], channels);
    }
    forall c | 0 <= c < |next| ensures WaitsOk(next[c], files') {
      if c < |channels| { assert WaitsOk(channels[c], files); }
    }
  }

  lemma AttachTables(files: seq<File>, channels: seq<Channel>, qpairs: nat, file: nat, c: nat)
    requires TablesOk(files, channels, qpairs) && file < |files| && files[file].Closed? && c < |channels|
    ensures var ch := channels[c];
      TablesOk(files[file := Open(ch.controller, ch.qpair, c)], channels[c := ch.(openFiles := ch.openFiles + 1)], qpairs)
  {
    var ch := channels[c];
    var f, next := Open(ch.controller, ch.qpair, c), channels[c := ch.(openFiles := ch.openFiles + 1)];
    FilesAttach(files, channels, next, file, f);
    forall k | 0 <= k < |next| ensures 0 < next[k].openFiles == Users(files[file := f], k) {
      UsersUpdate(files, file, f, k);
    }
  }

  lemma AddTables(files: seq<File>, channels: seq<Channel>, qpairs: nat, file: nat, controller: nat)
    requires TablesOk(files, channels, qpairs) && file < |files| && files[file].Closed? && 0 < qpairs
    requires forall c | 0 <= c < |channels| :: channels[c].controller != controller
    ensures TablesOk(files[file := Open(controller, qpairs, |channels|)],
                     channels + [Channel(controller, qpairs, 1, [], [])], qpairs + 1)
  {
    var f, next := Open(controller, qpairs, |channels|), channels + [Channel(controller, qpairs, 1, [], [])];
    FilesAttach(files, channels, next, file, f);
    forall i | 0 <= i < |files| && files[i].Open? ensures files[i].channelIndex != |channels| {
      assert FileOk(files[i], channels);
    }
    UsersNone(files, |channels|);
    forall k | 0 <= k < |next| ensures 0 < next[k].openFiles == Users(files[file := f], k) {
      UsersUpdate(files, file, f, k);
    }
  }

  lemma AddOrder(channels: seq<Channel>, a: seq<Event>, d: seq<Event>, ch: Channel)
    requires Ordered(channels, a, d) && Unused(channels, ch.qpair) && ch.qpair != NO_QPAIR && ch.pending == []
    ensures Ordered(channels + [ch], a, d)
  {
    var next := channels + [ch];
    assert Ids([]) == [];
    forall q: nat | q != NO_QPAIR && Unused(next, q) ensures Of(a, q) == Of(d, q) {
      assert Unused(channels, q) by {
        forall k | 0 <= k < |channels| ensures channels[k].qpair != q { assert next[k].qpair != q; }
      }
    }
  }

  lemma AttachedConserves(s: State, file: nat, c: nat)
    requires Conserved(s) && file < |s.files| && c < |s.channels|
    ensures Conserved(Attached(s, file, c))
  {
    var t := Attached(s, file, c);
    forall k: nat ensures Places(t, k) == One(k < |t.accepted|) {
      assert Places(s, k) == One(k < |s.accepted|);
      SumUpdate(s.channels, Holding(k), c, t.channels[c]);
    }
  }

  lemma AttachedKeeps(s: State, file: nat, c: nat)
    requires Inv(s) && file < |s.files| && s.files[file].Closed? && c < |s.channels|
    ensures Inv(Attached(s, file, c))
  {
    var t, ch := Attached(s, file, c), s.channels[c];
    AttachTables(s.files, s.channels, s.qpairs, file, c);
    assert OrderOk(ch, s.accepted, s.decided);
    OrderKeeps(s.files, s.channels, s.qpairs, s.accepted, s.decided, Event(ch.qpair, 0), false, false, c, t.channels[c]);
    SumUpdate(s.channels, Load(), c, t.channels[c]);
    AttachedConserves(s, file, c);
  }

  lemma AddedConserves(s: State, file: nat, controller: nat)
    requires Conserved(s) && file < |s.files|
    ensures Conserved(Attached(WithChannel(s, controller), file, |s.channels|))
  {
    var t, ch := Attached(WithChannel(s, controller), file, |s.channels|), Channel(controller, s.qpairs, 1, [], []);
    assert t.channels == s.channels + [ch];
    forall k: nat ensures Places(t, k) == One(k < |t.accepted|) {
      assert Places(s, k) == One(k < |s.accepted|);
      SumPush(s.channels, Holding(k), ch);
      assert Ids([]) == [];
    }
  }

  lemma AddedKeeps(s: State, file: nat, controller: nat)
    requires Inv(s) && file < |s.files| && s.files[file].Closed? && Unserved(s, controller)
    ensures Inv(Attached(WithChannel(s, controller), file, |s.channels|))
  {
    var t, ch := Attached(WithChannel(s, controller), file, |s.channels|), Channel(controller, s.qpairs, 1, [], []);
    assert t.channels == s.channels + [ch];
    AddTables(s.files, s.channels, s.qpairs, file, controller);
    AddOrder(s.channels, s.accepted, s.decided, ch);
    SumPush(s.channels, Load(), ch);
    AddedConserves(s, file, controller);
  }

  lemma OpenedKeeps(s: State, file: nat, controller: nat, c: nat, allocates: bool)
    requires Inv(s) && c <= |s.channels|
    requires if c < |s.channels| then s.channels[c].controller == controller else Unserved(s, controller)
    ensures Inv(Opened(s, file, controller, c, allocates))
  {
    if file < |s.files| && s.files[file].Closed? {
      if c < |s.channels| {
        AttachedKeeps(s, file, c);
        DeferredKeeps(Attached(s, file, c));
      } else if allocates {
        AddedKeeps(s, file, controller);
        DeferredKeeps(Attached(WithChannel(s, controller), file, c));
      }
    }
  }

  /** With nothing outstanding every channel is idle. */
  lemma Idle(s: State, c: nat)
    requires Inv(s) && s.outstanding == 0 && c < |s.channels|
    ensures s.channels[c].pending == [] && s.channels[c].issued == []
  {
    SumBounds(s.channels, Load(), c);
  }

  lemma DetachShared(files: seq<File>, channels: seq<Channel>, qpairs: nat, file: nat)
    requires TablesOk(files, channels, qpairs) && file < |files| && files[file].Open?
    requires forall c | 0 <= c < |channels| :: channels[c].pending == []
    requires files[file].channelIndex < |channels| && 1 < channels[files[file].channelIndex].openFiles
    ensures var c := files[file].channelIndex;
      TablesOk(files[file := Closed], channels[c := channels[c].(openFiles := channels[c].openFiles - 1)], qpairs)
  {
    var c := files[file].channelIndex;
    var next := channels[c := channels[c].(openFiles := channels[c].openFiles - 1)];
    var files' := files[file := Closed];
    forall i | 0 <= i < |files'| ensures FileOk(files'[i], next) {
      assert FileOk(files[i], channels);
    }
    forall k | 0 <= k < |next| ensures 0 < next[k].openFiles == Users(files', k) {
      UsersUpdate(files, file, Closed, k);
    }
  }

  /** The last user of a channel leaves: the channel goes and the later indices move down. */
  lemma DetachFiles(files: seq<File>, channels: seq<Channel>, c: nat)
    requires FilesOk(files, channels) && c < |channels| && Users(files, c) == 0
    ensures FilesOk(ShiftedAll(files, c), Without(channels, c))
  {
    var moved := ShiftedAll(files, c);
    forall i | 0 <= i < |moved| ensures FileOk(moved[i], Without(channels, c)) {
      assert FileOk(files[i], channels);
      if files[i].Open? { UsersPositive(files, i); }
    }
  }

  /** A channel that stays has the users it had. */
  lemma DetachUsers(files: seq<File>, channels: seq<Channel>, qpairs: nat, file: nat, k: nat)
    requires TablesOk(files, channels, qpairs) && file < |files| && files[file].Open?
    requires files[file].channelIndex < |channels| && k < |channels| - 1
    requires Users(files[file := Closed], files[file].channelIndex) == 0
    ensures var c := files[file].channelIndex;
      0 < Without(channels, c)[k].openFiles == Users(ShiftedAll(files[file := Closed], c), k)
  {
    var c := files[file].channelIndex;
    UsersShift(files[file := Closed], c, k);
    UsersUpdate(files, file, Closed, if k < c then k else k + 1);
  }

  lemma ShiftClosed(files: seq<File>, file: nat, c: nat)
    requires file < |files|
    ensures ShiftedAll(files, c)[file := Closed] == ShiftedAll(files[file := Closed], c)
  {
  }

  lemma CloseFilesOk(files: seq<File>, channels: seq<Channel>, file: nat)
    requires FilesOk(files, channels) && file < |files|
    ensures FilesOk(files[file := Closed], channels)
  {
  }

  /** What is left of the table has no queue pair and no controller twice. */
  lemma DistinctWithout(channels: seq<Channel>, c: nat, qpairs: nat)
    requires c < |channels|
    requires forall k | 0 <= k < |channels| :: 0 < channels[k].qpair < qpairs
    requires forall k, d | 0 <= k < d < |channels| ::
      channels[k].qpair != channels[d].qpair && channels[k].controller != channels[d].controller
    ensures var next := Without(channels, c);
      && (forall k | 0 <= k < |next| :: 0 < next[k].qpair < qpairs)
      && forall k, d | 0 <= k < d < |next| :: next[k].qpair != next[d].qpair && next[k].controller != next[d].controller
  {
    assert forall k | 0 <= k < |channels| - 1 :: Without(channels, c)[k] == channels[if k < c then k else k + 1];
  }

  lemma DetachLast(files: seq<File>, channels: seq<Channel>, qpairs: nat, file: nat)
    requires TablesOk(files, channels, qpairs) && file < |files| && files[file].Open?
    requires forall c | 0 <= c < |channels| :: channels[c].pending == []
    requires files[file].channelIndex < |channels| && channels[files[file].channelIndex].openFiles == 1
    ensures var c := files[file].channelIndex;
      TablesOk(ShiftedAll(files, c)[file := Closed], Without(channels, c), qpairs)
  {
    var c := files[file].channelIndex;
    var left, next := files[file := Closed], Without(channels, c);
    ShiftClosed(files, file, c);
    UsersUpdate(files, file, Closed, c);
    CloseFilesOk(files, channels, file);
    DetachFiles(left, channels, c);
    DistinctWithout(channels, c, qpairs);
    forall k | 0 <= k < |next| ensures 0 < next[k].openFiles == Users(ShiftedAll(left, c), k) {
      DetachUsers(files, channels, qpairs, file, k);
    }
  }

  lemma UnusedWithout(channels: seq<Channel>, c: nat, q: nat)
    requires c < |channels| && Unused(Without(channels, c), q) && q != channels[c].qpair
    ensures Unused(channels, q)
  {
    var next := Without(channels, c);
    forall k | 0 <= k < |channels| ensures channels[k].qpair != q {
      assert k < c ==> next[k].qpair != q;
      assert c < k ==> next[k - 1].qpair != q;
    }
  }

  lemma RemoveOrder(channels: seq<Channel>, a: seq<Event>, d: seq<Event>, c: nat)
    requires Ordered(channels, a, d) && c < |channels| && channels[c].pending == []
    ensures Ordered(Without(channels, c), a, d)
  {
    var next := Without(channels, c);
    forall k | 0 <= k < |next| ensures OrderOk(next[k], a, d) {
      assert OrderOk(channels[if k < c then k else k + 1], a, d);
    }
    forall q: nat | q != NO_QPAIR && Unused(next, q) ensures Of(a, q) == Of(d, q) {
      if q == channels[c].qpair {
        assert OrderOk(channels[c], a, d) && Ids([]) == [];
      } else {
        UnusedWithout(channels, c, q);
      }
    }
  }

  lemma DetachedSums(s: State, file: nat, f: Channel -> nat)
    requires Inv(s) && MayClose(s, file) && IsOpen(s, file) && s.files[file].channelIndex < |s.channels|
    requires 0 < s.channels[s.files[file].channelIndex].openFiles
    requires forall ch: Channel | ch.issued == [] && ch.pending == [] :: f(ch) == 0
    ensures Sum(Detached(s, file).channels, f) == Sum(s.channels, f)
  {
    var c := s.files[file].channelIndex;
    Idle(s, c);
    SumWithout(s.channels, f, c);
    SumUpdate(s.channels, f, c, s.channels[c].(openFiles := s.channels[c].openFiles - 1));
  }

  lemma DetachedTables(s: State, file: nat)
    requires Inv(s) && MayClose(s, file) && s.files[file].channelIndex < |s.channels|
    requires 0 < s.channels[s.files[file].channelIndex].openFiles
    ensures var t := Detached(s, file);
      TablesOk(t.files, t.channels, t.qpairs) && Ordered(t.channels, t.accepted, t.decided)
  {
    var c := s.files[file].channelIndex;
    forall k | 0 <= k < |s.channels| ensures s.channels[k].pending == [] { Idle(s, k); }
    if s.channels[c].openFiles == 1 {
      DetachLast(s.files, s.channels, s.qpairs, file);
      RemoveOrder(s.channels, s.accepted, s.decided, c);
    } else {
      DetachShared(s.files, s.channels, s.qpairs, file);
      assert OrderOk(s.channels[c], s.accepted, s.decided);
      OrderKeeps(s.files, s.channels, s.qpairs, s.accepted, s.decided, Event(s.channels[c].qpair, 0), false, false,
                 c, Detached(s, file).channels[c]);
    }
  }

  lemma DetachedConserves(s: State, file: nat)
    requires Inv(s) && MayClose(s, file) && s.files[file].channelIndex < |s.channels|
    requires 0 < s.channels[s.files[file].channelIndex].openFiles
    ensures var t := Detached(s, file); Conserved(t) && t.outstanding == Sum(t.channels, Load())
  {
    var t := Detached(s, file);
    DetachedSums(s, file, Load());
    assert Ids([]) == [];
    forall k: nat ensures Places(t, k) == One(k < |t.accepted|) {
      assert Places(s, k) == One(k < |s.accepted|);
      DetachedSums(s, file, Holding(k));
    }
  }

  lemma DetachedKeeps(s: State, file: nat)
    requires Inv(s) && MayClose(s, file)
    ensures s.files[file].channelIndex < |s.channels| && 0 < s.channels[s.files[file].channelIndex].openFiles
    ensures Inv(Detached(s, file))
  {
    assert FileOk(s.files[file], s.channels);
    DetachedTables(s, file);
    DetachedConserves(s, file);
  }

  lemma ClosedKeeps(s: State, file: nat)
    requires Inv(s)
    ensures IsOpen(s, file) ==>
      s.files[file].channelIndex < |s.channels| && 0 < s.channels[s.files[file].channelIndex].openFiles
    ensures Inv(ClosedFile(s, file))
  {
    if IsOpen(s, file) { assert FileOk(s.files[file], s.channels); }
    if MayClose(s, file) {
      DetachedKeeps(s, file);
      DeferredKeeps(Detached(s, file));
    }
  }

  lemma SubmittedKeeps(s: State, c: nat, file: nat, rc: int, allocates: bool)
    requires Inv(s) && IsOpen(s, file) && s.files[file].channelIndex == c < |s.channels|
    ensures Inv(Submitted(s, c, file, rc, allocates))
  {
    if !Refused(s, c, rc, allocates) {
      if s.channels[c].pending == [] && rc == 0 { IssuedKeeps(s, c, file); } else { QueuedKeeps(s, c, file); }
    }
  }

  lemma RetriedKeeps(s: State, c: nat, rc: int)
    requires Inv(s) && c < |s.channels| && s.channels[c].pending != []
    ensures 0 < s.outstanding && Inv(Retried(s, c, rc))
  {
    HeadFailedKeeps(s, c);
    HeadIssuedKeeps(s, c);
  }

  lemma ReadyKeeps(s: State)
    requires Inv(s)
    ensures s.batch == [] ==> Inv(s.(batch := s.ready, ready := []))
    ensures s.batch != [] ==> Inv(Dispatched(s))
  {
    forall k: nat
      ensures s.batch == [] ==> Places(s.(batch := s.ready, ready := []), k) == One(k < |s.accepted|)
      ensures s.batch != [] ==> Places(Dispatched(s), k) == One(k < |s.accepted|)
    {
      assert Places(s, k) == One(k < |s.accepted|);
      if s.batch != [] { OccursAppend(s.completed, [s.batch[0]], k); }
    }
  }

  lemma StepKeeps(s: State, st: Step)
    requires Inv(s) && Enabled(s, st)
    ensures Inv(Apply(s, st))
  {
    match st
    case Submit(file, rc, allocates) =>
      if IsOpen(s, file) {
        assert FileOk(s.files[file], s.channels);
        SubmittedKeeps(s, s.files[file].channelIndex, file, rc, allocates);
      }
    case Flush(file) => DeferredKeeps(s);
    case OpenFile(file, controller, c, allocates) => OpenedKeeps(s, file, controller, c, allocates);
    case CloseFile(file) => ClosedKeeps(s, file);
    case Retry(c, rc) => RetriedKeeps(s, c, rc);
    case Device(c, i) => DeviceDoneKeeps(s, c, i);
    case TakeReady => ReadyKeeps(s);
    case DispatchReady => ReadyKeeps(s);
    case MoveCursor(next) => assert forall k: nat :: Places(s.(nextPoll := next), k) == Places(s, k);
  }

  // ---------------------------------------------------------------- whole runs

  predicate Init(s: State) {
    && (forall i | 0 <= i < |s.files| :: s.files[i].Closed?) && s.channels == [] && s.outstanding == 0 && s.nextPoll == 0
    && s.ready == [] && s.batch == [] && s.qpairs == 1 && s.accepted == [] && s.decided == [] && s.completed == []
  }

  ghost predicate IsRun(run: seq<State>, steps: seq<Step>) {
    && |run| == |steps| + 1 && Init(run[0])
    && forall i {:trigger steps[i]} | 0 <= i < |steps| :: Enabled(run[i], steps[i]) && run[i + 1] == Apply(run[i], steps[i])
  }

  lemma InitInv(s: State)
    requires Init(s)
    ensures Inv(s)
  {
    assert forall k: nat :: Places(s, k) == 0;
  }

  lemma {:induction false} RunKeeps(run: seq<State>, steps: seq<Step>, k: nat)
    requires IsRun(run, steps) && k < |run|
    ensures Inv(run[k])
  {
    if k == 0 {
      InitInv(run[0]);
    } else {
      RunKeeps(run, steps, k - 1);
      StepKeeps(run[k - 1], steps[k - 1]);
    }
  }

  /** The admission count is what the device holds plus what waits, and never goes below zero. */
  lemma OutstandingIsExact(run: seq<State>, steps: seq<Step>, k: nat)
    requires IsRun(run, steps) && k < |run|
    ensures run[k].outstanding == Sum(run[k].channels, Load())
    ensures k < |steps| && steps[k].Retry? ==> 0 < run[k].outstanding
    ensures k < |steps| && steps[k].Device? ==> 0 < run[k].outstanding
  {
    RunKeeps(run, steps, k);
    if k < |steps| && steps[k].Retry? { RetriedKeeps(run[k], steps[k].channel, steps[k].rc); }
    if k < |steps| && steps[k].Device? { DeviceDoneKeeps(run[k], steps[k].channel, steps[k].index); }
  }

  /** Each queue pair's accepted requests are issued or failed in the order they were accepted. */
  lemma DecidedInOrder(run: seq<State>, steps: seq<Step>, k: nat, q: nat)
    requires IsRun(run, steps) && k < |run| && q != NO_QPAIR
    ensures Of(run[k].decided, q) <= Of(run[k].accepted, q)
    ensures run[k].outstanding == 0 ==> Of(run[k].decided, q) == Of(run[k].accepted, q)
  {
    RunKeeps(run, steps, k);
    var s := run[k];
    if !Unused(s.channels, q) {
      var c :| 0 <= c < |s.channels| && s.channels[c].qpair == q;
      assert OrderOk(s.channels[c], s.accepted, s.decided);
      if s.outstanding == 0 { Idle(s, c); assert Ids([]) == []; }
    }
  }

  /** The device's answer decides what becomes of the oldest waiting request. */
  lemma AnswerDecides(run: seq<State>, steps: seq<Step>, k: nat)
    requires IsRun(run, steps) && k < |steps| && steps[k].Retry?
    ensures Turn(run[k], run[k + 1], steps[k].channel, steps[k].rc)
  {
    RunKeeps(run, steps, k);
    var s, c := run[k], steps[k].channel;
    RetriedKeeps(s, c, steps[k].rc);
    HeadIssuedTurn(s, c);
    FailedThen(s, HeadFailed(s, c), HeadFailed(s, c), c);
  }

  /** Every accepted request is in exactly one place, and completes at most once. */
  lemma OneCompletionEach(run: seq<State>, steps: seq<Step>, k: nat, id: nat)
    requires IsRun(run, steps) && k < |run|
    ensures Places(run[k], id) == One(id < |run[k].accepted|)
    ensures Occurs(run[k].completed, id) <= 1
    ensures run[k].outstanding == 0 && run[k].ready == [] == run[k].batch && id < |run[k].accepted| ==>
      Occurs(run[k].completed, id) == 1
  {
    RunKeeps(run, steps, k);
    if run[k].outstanding == 0 { IdleHolds(run[k].channels, id); }
  }

  lemma {:induction false} IdleHolds(channels: seq<Channel>, id: nat)
    requires Sum(channels, Load()) == 0
    ensures Sum(channels, Holding(id)) == 0
  {
    if channels != [] {
      assert Ids([]) == [];
      IdleHolds(channels[1..], id);
    }
  }

  /** However channels come and go, an open file's index names the channel of its queue pair. */
  lemma IndexNamesChannel(run: seq<State>, steps: seq<Step>, k: nat, file: nat)
    requires IsRun(run, steps) && k < |run| && IsOpen(run[k], file)
    ensures var f := run[k].files[file];
      f.channelIndex < |run[k].channels| && run[k].channels[f.channelIndex].qpair == f.qpair
  {
    RunKeeps(run, steps, k);
    assert FileOk(run[k].files[file], run[k].channels);
  }

  // ---------------------------------------------------------------- the backend

  /** The same queue pair under every index. */
  predicate SameTable(a: seq<Channel>, b: seq<Channel>) {
    |a| == |b| && forall c | 0 <= c < |a| :: a[c].qpair == b[c].qpair
  }

  /** What a caller that was interrupted by callbacks may rely on: the books only grow, and a
      channel index it remembers is still good while the generation is the one it saw. */
  ghost predicate Grows(s: State, t: State) {
    && s.generation <= t.generation
    && (s.generation == t.generation ==> SameTable(s.channels, t.channels) && s.nextPoll == t.nextPoll)
    && s.accepted <= t.accepted && s.decided <= t.decided && s.completed <= t.completed
  }

  lemma GrowsTwice(s: State, t: State, u: State)
    requires Grows(s, t) && Grows(t, u)
    ensures Grows(s, u) && |s.decided| <= |t.decided| <= |u.decided|
  {
  }

  /** Only the cursor has been set in between. */
  lemma GrowsTurned(s: State, cursor: nat, t: State, next: nat, u: State)
    requires Grows(s.(nextPoll := cursor), t) && Grows(t.(nextPoll := next), u)
    ensures Grows(s.(nextPoll := next), u)
  {
  }

  lemma HeadFailedGrows(s: State, c: nat)
    requires c < |s.channels| && s.channels[c].pending != [] && 0 < s.outstanding
    ensures Grows(s, HeadFailed(s, c)) && |s.decided| < |HeadFailed(s, c).decided|
  {
  }

  /** The device holds a command for a request of a queue pair. */
  ghost predicate HeldOn(s: State, q: nat, r: Request) {
    exists c :: 0 <= c < |s.channels| && s.channels[c].qpair == q && r in s.channels[c].issued
  }

  /** What a callback leaves alone: commands the device holds, and requests that wait. */
  ghost predicate Undisturbed(s: State, t: State) {
    && (forall q, r | HeldOn(s, q, r) :: HeldOn(t, q, r))
    && (s.generation == t.generation ==>
         forall c | 0 <= c < |s.channels| && c < |t.channels| :: s.channels[c].pending <= t.channels[c].pending)
  }

  lemma UndisturbedTwice(s: State, t: State, u: State)
    requires Undisturbed(s, t) && Undisturbed(t, u) && Grows(s, t) && Grows(t, u)
    ensures Undisturbed(s, u)
  {
  }

  /** What callbacks may do. */
  ghost predicate CalledBack(s: State, t: State) {
    Grows(s, t) && Undisturbed(s, t) && t.completed == s.completed && t.batch == s.batch
  }

  lemma CalledBackTwice(s: State, t: State, u: State)
    requires CalledBack(s, t) && CalledBack(t, u)
    ensures CalledBack(s, u)
  {
    GrowsTwice(s, t, u);
    UndisturbedTwice(s, t, u);
  }

  lemma SubmitUndisturbed(s: State, c: nat, file: nat, rc: int, allocates: bool)
    requires c < |s.channels|
    ensures Undisturbed(s, Submitted(s, c, file, rc, allocates))
  {
    var t := Submitted(s, c, file, rc, allocates);
    forall q, r | HeldOn(s, q, r) ensures HeldOn(t, q, r) {
      var k :| 0 <= k < |s.channels| && s.channels[k].qpair == q && r in s.channels[k].issued;
      assert t.channels[k].qpair == q && r in t.channels[k].issued;
    }
  }

  lemma OpenUndisturbed(s: State, file: nat, controller: nat, c: nat, allocates: bool)
    requires c <= |s.channels| && (c < |s.channels| ==> s.channels[c].controller == controller)
    ensures Undisturbed(s, Opened(s, file, controller, c, allocates))
  {
    var t := Opened(s, file, controller, c, allocates);
    forall q, r | HeldOn(s, q, r) ensures HeldOn(t, q, r) {
      var k :| 0 <= k < |s.channels| && s.channels[k].qpair == q && r in s.channels[k].issued;
      assert t.channels[k].qpair == q && r in t.channels[k].issued;
    }
  }

  /** Files are closed only while nothing is held and nothing waits. */
  lemma CloseUndisturbed(s: State, file: nat)
    requires Inv(s) && Enabled(s, CloseFile(file))
    ensures Undisturbed(s, ClosedFile(s, file))
  {
    if MayClose(s, file) {
      forall c | 0 <= c < |s.channels| ensures s.channels[c].pending == [] && s.channels[c].issued == [] { Idle(s, c); }
    }
  }

  lemma StepUndisturbed(s: State, st: Step)
    requires Inv(s) && Enabled(s, st) && FromCallback(st)
    ensures Undisturbed(s, Apply(s, st))
  {
    match st
    case Submit(file, rc, allocates) =>
      if IsOpen(s, file) && s.files[file].channelIndex < |s.channels| {
        SubmitUndisturbed(s, s.files[file].channelIndex, file, rc, allocates);
      }
    case OpenFile(file, controller, c, allocates) => OpenUndisturbed(s, file, controller, c, allocates);
    case CloseFile(file) => CloseUndisturbed(s, file);
    case Flush(file) => assert Apply(s, st).channels == s.channels;
    case _ =>
  }

  lemma StepCallsBack(s: State, st: Step)
    requires Inv(s) && Enabled(s, st) && FromCallback(st)
    ensures Inv(Apply(s, st)) && CalledBack(s, Apply(s, st))
  {
    StepKeeps(s, st);
    StepGrows(s, st);
    StepUndisturbed(s, st);
  }

  // ---------------------------------------------------------------- retrying, turn by turn

  /** The oldest waiting request has gone to the device, and nothing else has happened. */
  ghost predicate IssuedTurn(s: State, t: State, c: nat)
    requires c < |s.channels| && s.channels[c].pending != []
  {
    var ch := s.channels[c];
    && t.channels == s.channels[c := ch.(pending := ch.pending[1..], issued := ch.issued + [ch.pending[0]])]
    && t.completed == s.completed && t.generation == s.generation && Grows(s, t) && t.batch == s.batch
    && |s.decided| < |t.decided|
  }

  /** It has failed and completed, and then its callback has run. */
  ghost predicate FailedTurn(s: State, t: State, c: nat)
    requires c < |s.channels| && s.channels[c].pending != []
  {
    && t.completed == s.completed + [s.channels[c].pending[0].id] && Grows(s, t) && t.batch == s.batch
    && |s.decided| < |t.decided| && (forall q, r | HeldOn(s, q, r) :: HeldOn(t, q, r))
    && (t.generation == s.generation ==>
         c < |t.channels| && s.channels[c].pending[1..] <= t.channels[c].pending)
  }

  lemma HeadIssuedTurn(s: State, c: nat)
    requires c < |s.channels| && s.channels[c].pending != []
    ensures IssuedTurn(s, HeadIssued(s, c), c)
  {
  }

  /** What the device's answer to a resubmission decides. */
  ghost predicate Turn(s: State, t: State, c: nat, rc: int)
    requires c < |s.channels| && s.channels[c].pending != []
  {
    if rc == ENOMEM && s.channels[c].issued != [] then t == s
    else if rc == 0 then IssuedTurn(s, t, c)
    else FailedTurn(s, t, c)
  }

  /** The requests of a queue whose submission the device answered with an error. */
  function FailedIds(queue: seq<Request>, answers: nat -> int): (ids: seq<nat>)
    ensures |ids| <= |queue|
  {
    if queue == [] then []
    else
      var n := |queue| - 1;
      FailedIds(queue[..n], answers) + if answers(n) == 0 then [] else [queue[n].id]
  }

  /** After m turns from s: queue is everything that has waited, the first m of it have been decided
      by the device's answers, those answered 0 are held by the device, the others have completed. */
  ghost predicate Retrying(s: State, t: State, c: nat, answers: nat -> int, m: nat, queue: seq<Request>) {
    && c < |s.channels| && s.channels[c].pending <= queue && m <= |queue| && Grows(s, t) && t.batch == s.batch
    && t.completed == s.completed + FailedIds(queue[..m], answers) && |s.decided| + m <= |t.decided|
    && (forall i | 0 <= i < m && answers(i) == 0 :: HeldOn(t, s.channels[c].qpair, queue[i]))
    && (t.generation == s.generation ==> c < |t.channels| && t.channels[c].pending == queue[m..])
  }

  lemma FailedIdsNext(queue: seq<Request>, m: nat, answers: nat -> int)
    requires m < |queue|
    ensures FailedIds(queue[..m + 1], answers) ==
      FailedIds(queue[..m], answers) + if answers(m) == 0 then [] else [queue[m].id]
  {
    assert queue[..m + 1][..m] == queue[..m];
  }

  lemma RetryingBegins(s: State, c: nat, answers: nat -> int)
    requires c < |s.channels|
    ensures Retrying(s, s, c, answers, 0, s.channels[c].pending)
  {
    assert s.channels[c].pending[0..] == s.channels[c].pending;
  }

  lemma RetryingIssues(s: State, t: State, u: State, c: nat, answers: nat -> int, m: nat, queue: seq<Request>)
    requires Retrying(s, t, c, answers, m, queue) && t.generation == s.generation && t.channels[c].pending != []
    requires answers(m) == 0 && IssuedTurn(t, u, c)
    ensures Retrying(s, u, c, answers, m + 1, queue)
  {
    FailedIdsNext(queue, m, answers);
    GrowsTwice(s, t, u);
    var q := s.channels[c].qpair;
    assert t.channels[c].qpair == q && queue[m] == t.channels[c].pending[0];
    assert u.channels[c].qpair == q && queue[m] in u.channels[c].issued;
    forall i | 0 <= i < m && answers(i) == 0 ensures HeldOn(u, q, queue[i]) {
      var k :| 0 <= k < |t.channels| && t.channels[k].qpair == q && queue[i] in t.channels[k].issued;
      assert u.channels[k].qpair == q && queue[i] in u.channels[k].issued;
    }
    assert queue[m..][1..] == queue[m + 1..];
  }

  lemma RetryingFails(s: State, t: State, u: State, c: nat, answers: nat -> int, m: nat, queue: seq<Request>)
    returns (longer: seq<Request>)
    requires Retrying(s, t, c, answers, m, queue) && t.generation == s.generation && t.channels[c].pending != []
    requires answers(m) != 0 && FailedTurn(t, u, c)
    ensures Retrying(s, u, c, answers, m + 1, longer)
  {
    longer := if u.generation == s.generation then queue[..m + 1] + u.channels[c].pending else queue;
    assert queue[m..][1..] == queue[m + 1..] && queue[m] == t.channels[c].pending[0];
    assert longer[..m + 1] == queue[..m + 1] && queue <= longer;
    FailedIdsNext(queue, m, answers);
    GrowsTwice(s, t, u);
  }

  lemma RetryingNext(s: State, t: State, u: State, c: nat, answers: nat -> int, m: nat, queue: seq<Request>)
    returns (longer: seq<Request>)
    requires Retrying(s, t, c, answers, m, queue) && t.generation == s.generation && t.channels[c].pending != []
    requires Turn(t, u, c, answers(m)) && !(answers(m) == ENOMEM && t.channels[c].issued != [])
    ensures Retrying(s, u, c, answers, m + 1, longer) && (u.generation != s.generation ==> answers(m) != 0)
    ensures |u.completed| == |t.completed| + One(answers(m) != 0)
  {
    if answers(m) == 0 {
      longer := queue;
      RetryingIssues(s, t, u, c, answers, m, queue);
    } else {
      longer := RetryingFails(s, t, u, c, answers, m, queue);
    }
  }

  /** The device side: which queue pairs it was asked to process, in order. */
  class Device {
    ghost var polled: seq<nat>

    /** spdk_nvme_qpair_process_completions is entered for a queue pair. */
    method Enter(qpair: nat)
      modifies this
      ensures polled == old(polled) + [qpair]
    {
      polled := polled + [qpair];
    }
  }

  /** Why retrying a channel's waiting requests ended. */
  datatype Halt = Emptied | LimitReached | DeviceFull | TableChanged | Cut

  class SpdkBackend {
    const device: Device
    var files: seq<File>
    var channels: seq<Channel>
    var outstanding: int
    var generation: nat
    var nextPoll: nat
    var ready: seq<nat>
    var batch: seq<nat>
    var qpairs: nat
    ghost var accepted: seq<Event>
    ghost var decided: seq<Event>
    ghost var completed: seq<nat>
    var nextId: nat

    ghost function View(): State
      reads this
    {
      State(files, channels, outstanding, generation, nextPoll, ready, batch, qpairs, accepted, decided, completed)
    }

    ghost predicate Valid()
      reads this
    {
      Inv(View()) && Numbered()
    }

    ghost predicate Numbered()
      reads this
    {
      nextId == |accepted|
    }

    constructor (count: nat, d: Device)
      ensures device == d && Valid() && Init(View()) && |files| == count
    {
      device := d;
      files := seq(count, i => Closed);
      channels, outstanding, generation, nextPoll, ready, batch, nextId := [], 0, 0, 0, [], [], 0;
      qpairs, accepted, decided, completed := 1, [], [], [];
    }

    method QueuePending(c: nat, file: nat, allocates: bool) returns (ok: bool)
      requires Numbered() && c < |channels|
      modifies this
      ensures Numbered() && ok == allocates
      ensures View() == if ok then Queued(old(View()), c, file) else old(View())
    {
      if !allocates { return false; }
      accepted := accepted + [Event(channels[c].qpair, nextId)];
      channels := channels[c := channels[c].(pending := channels[c].pending + [Request(nextId, file)])];
      outstanding := outstanding + 1;
      nextId := nextId + 1;
      ok := true;
    }

    /** Straight to the device unless earlier requests of the queue pair are waiting. */
    method SubmitOrDefer(c: nat, file: nat, rc: int, allocates: bool) returns (ok: bool)
      requires Numbered() && c < |channels|
      modifies this
      ensures Numbered() && ok == !Refused(old(View()), c, rc, allocates)
      ensures View() == Submitted(old(View()), c, file, rc, allocates)
      ensures var ch, r := old(channels)[c], Request(old(nextId), file);
        var waits := ch.pending != [] || (rc == ENOMEM && ch.issued != []);
        && |channels| == |old(channels)| && (ok <==> if waits then allocates else rc == 0)
        && channels[c] == (if !ok then ch else if waits then ch.(pending := ch.pending + [r])
                           else ch.(issued := ch.issued + [r]))
    {
      if channels[c].pending != [] || (rc == ENOMEM && channels[c].issued != []) {
        ok := QueuePending(c, file, allocates);
      } else if rc == 0 {
        accepted := accepted + [Event(channels[c].qpair, nextId)];
        decided := decided + [Event(channels[c].qpair, nextId)];
        channels := channels[c := channels[c].(issued := channels[c].issued + [Request(nextId, file)])];
        outstanding := outstanding + 1;
        nextId := nextId + 1;
        ok := true;
      } else {
        ok := false;
      }
    }

    /** A completion for the next poll. */
    method Defer()
      requires Numbered()
      modifies this
      ensures Numbered() && View() == Deferred(old(View()))
    {
      accepted := accepted + [Event(NO_QPAIR, nextId)];
      ready := ready + [nextId];
      nextId := nextId + 1;
    }

    method FindChannel(controller: nat) returns (c: nat)
      ensures Found(View(), controller, c)
    {
      c := 0;
      while c < |channels| && channels[c].controller != controller
        invariant c <= |channels| && forall k | 0 <= k < c :: channels[k].controller != controller
      {
        c := c + 1;
      }
    }

    method SubmitOpenDirect(file: nat, controller: nat, allocates: bool) returns (ok: bool, ghost at: nat)
      requires Numbered()
      modifies this
      ensures Numbered() && Found(old(View()), controller, at)
      ensures View() == Opened(old(View()), file, controller, at, allocates)
      ensures ok <==> file < |old(files)| && old(files)[file].Closed? && (at < |old(channels)| || allocates)
      ensures |files| == |old(files)| && forall f | 0 <= f < |files| && (f != file || !ok) :: files[f] == old(files)[f]
      ensures ok ==> files[file] == Open(controller, channels[at].qpair, at) && channels[at].controller == controller
    {
      var c := FindChannel(controller);
      at := c;
      if |files| <= file || files[file].Open? { return false, at; }
      if c == |channels| {
        if !allocates { return false, at; }
        AddChannel(controller);
      }
      files := files[file := Open(channels[c].controller, channels[c].qpair, c)];
      channels := channels[c := channels[c].(openFiles := channels[c].openFiles + 1)];
      Defer();
      ok := true;
    }

    method AddChannel(controller: nat)
      modifies this
      ensures nextId == old(nextId) && View() == WithChannel(old(View()), controller)
    {
      channels := channels + [Channel(controller, qpairs, 0, [], [])];
      qpairs := qpairs + 1;
      generation := generation + 1;
    }

    /** Moves the cached indices behind a removed channel down by one. */
    method ShiftFiles(index: nat)
      modifies this`files
      ensures files == ShiftedAll(old(files), index)
    {
      for i := 0 to |files|
        invariant |files| == |old(files)|
        invariant forall k | 0 <= k < i :: files[k] == Shifted(old(files)[k], index)
        invariant forall k | i <= k < |files| :: files[k] == old(files)[k]
      {
        if files[i].Open? && index < files[i].channelIndex {
          files := files[i := files[i].(channelIndex := files[i].channelIndex - 1)];
        }
      }
    }

    method RemoveChannel(c: nat)
      requires c < |channels|
      modifies this`channels, this`generation, this`files, this`nextPoll
      ensures channels == Without(old(channels), c) && files == ShiftedAll(old(files), c)
      ensures generation == old(generation) + 1 && nextPoll == Remapped(old(nextPoll), |old(channels)| - 1)
      ensures (channels != [] ==> nextPoll < |channels|) && (old(nextPoll) < |channels| ==> nextPoll == old(nextPoll))
    {
      channels := channels[..c] + channels[c + 1..];
      generation := generation + 1;
      ShiftFiles(c);
      if |channels| == 0 {
        nextPoll := 0;
      } else if |channels| <= nextPoll {
        nextPoll := nextPoll % |channels|;
      }
    }

    method SubmitCloseDirect(file: nat) returns (ok: bool)
      requires Numbered()
      requires IsOpen(View(), file) ==>
        files[file].channelIndex < |channels| && 0 < channels[files[file].channelIndex].openFiles
      modifies this
      ensures Numbered() && ok == MayClose(old(View()), file)
      ensures View() == ClosedFile(old(View()), file)
      ensures |files| == |old(files)| && (ok ==> files[file].Closed?) && (!ok ==> View() == old(View()))
      ensures forall f | 0 <= f < |files| && f != file :: SameFile(files[f], old(files)[f])
    {
      if |files| <= file || files[file].Closed? || outstanding != 0 { return false; }
      var c := files[file].channelIndex;
      if channels[c].openFiles == 1 {
        RemoveChannel(c);
      } else {
        channels := channels[c := channels[c].(openFiles := channels[c].openFiles - 1)];
      }
      files := files[file := Closed];
      Defer();
      ok := true;
    }

    method CallSubmit(file: nat, rc: int, allocates: bool)
      requires Valid()
      modifies this
      ensures Valid() && CalledBack(old(View()), View())
    {
      ghost var s := View();
      if file < |files| && files[file].Open? {
        assert FileOk(files[file], channels);
        StepCallsBack(s, Submit(file, rc, allocates));
        var ok := SubmitOrDefer(files[file].channelIndex, file, rc, allocates);
      }
    }

    method CallOpen(file: nat, controller: nat, allocates: bool)
      requires Valid()
      modifies this
      ensures Valid() && CalledBack(old(View()), View())
    {
      ghost var s := View();
      var ok, at := SubmitOpenDirect(file, controller, allocates);
      StepCallsBack(s, OpenFile(file, controller, at, allocates));
    }

    method CallClose(file: nat)
      requires Valid()
      modifies this
      ensures Valid() && CalledBack(old(View()), View())
    {
      ghost var s := View();
      ClosedKeeps(s, file);
      StepCallsBack(s, CloseFile(file));
      var ok := SubmitCloseDirect(file);
    }

    /** One call a completion callback makes back into the backend, whatever it is. */
    method CallBack()
      requires Valid()
      modifies this
      ensures Valid() && CalledBack(old(View()), View())
    {
      var file: nat, controller: nat, rc: int, allocates: bool := *, *, *, *;
      if * {
        CallSubmit(file, rc, allocates);
      } else if * {
        CallOpen(file, controller, allocates);
      } else if * {
        CallClose(file);
      } else {
        DeferredKeeps(View());
        Defer();
      }
    }

    /** A caller's callback: any number of calls back into the backend. */
    method Complete()
      requires Valid()
      modifies this
      ensures Valid() && CalledBack(old(View()), View())
    {
      var n: int := *;
      ghost var s := View();
      while 0 < n
        invariant Valid() && CalledBack(s, View())
        decreases n
      {
        ghost var t := View();
        CallBack();
        CalledBackTwice(s, t, View());
        n := n - 1;
      }
    }

    /** One command leaves the device. */
    method TakeIssued(c: nat, i: nat)
      requires c < |channels| && i < |channels[c].issued|
      modifies this`channels, this`outstanding, this`completed
      ensures View() == DeviceDone(old(View()), c, i)
    {
      completed := completed + [channels[c].issued[i].id];
      channels := channels[c := channels[c].(issued := channels[c].issued[..i] + channels[c].issued[i + 1..])];
      outstanding := outstanding - 1;
    }

    /** The device reports one command of a queue pair; the count drops before the callback. */
    method CompleteIssued(c: nat, i: nat)
      requires Valid() && c < |channels| && i < |channels[c].issued|
      modifies this
      ensures Valid() && Grows(old(View()), View()) && batch == old(batch)
      ensures completed == old(completed) + [old(channels)[c].issued[i].id]
    {
      DeviceDoneKeeps(View(), c, i);
      TakeIssued(c, i);
      Complete();
    }

    /** The device completes some of a queue pair's commands, in any order. */
    method ProcessCompletions(qpair: nat, limit: nat) returns (done: nat)
      requires Valid()
      modifies this, device
      ensures device.polled == old(device.polled) + [qpair]
      ensures Valid() && Grows(old(View()), View()) && batch == old(batch)
      ensures |completed| == |old(completed)| + done && (limit != 0 ==> done <= limit)
    {
      device.Enter(qpair);
      var n: int := *;
      done := 0;
      while done < n && (limit == 0 || done < limit)
        invariant device.polled == old(device.polled) + [qpair]
        invariant Valid() && Grows(old(View()), View()) && batch == old(batch)
        invariant |completed| == |old(completed)| + done && (limit != 0 ==> done <= limit)
        decreases n - done
      {
        var c: int, i: int := *, *;
        if !(0 <= c < |channels| && channels[c].qpair == qpair && 0 <= i < |channels[c].issued|) { break; }
        CompleteIssued(c, i);
        done := done + 1;
      }
    }

    /** The oldest waiting request of a channel leaves the queue for the device. */
    method SendHead(c: nat)
      requires c < |channels| && channels[c].pending != []
      modifies this`channels, this`decided
      ensures View() == HeadIssued(old(View()), c)
    {
      var ch := channels[c];
      channels := channels[c := ch.(pending := ch.pending[1..], issued := ch.issued + [ch.pending[0]])];
      decided := decided + [Event(ch.qpair, ch.pending[0].id)];
    }

    method IssueHead(c: nat)
      requires Valid() && c < |channels| && channels[c].pending != []
      modifies this
      ensures Valid() && IssuedTurn(old(View()), View(), c)
    {
      HeadIssuedKeeps(View(), c);
      HeadIssuedTurn(View(), c);
      SendHead(c);
    }

    /** The oldest waiting request leaves the queue for good. */
    method DropHead(c: nat)
      requires c < |channels| && channels[c].pending != []
      modifies this`channels, this`outstanding, this`decided, this`completed
      ensures View() == HeadFailed(old(View()), c)
    {
      var ch := channels[c];
      channels := channels[c := ch.(pending := ch.pending[1..])];
      decided := decided + [Event(ch.qpair, ch.pending[0].id)];
      completed := completed + [ch.pending[0].id];
      outstanding := outstanding - 1;
    }

    /** The oldest waiting request fails: it leaves the queue before its callback runs. */
    method FailHead(c: nat)
      requires Valid() && c < |channels| && channels[c].pending != []
      modifies this
      ensures Valid() && FailedTurn(old(View()), View(), c)
    {
      HeadFailedKeeps(View(), c);
      HeadFailedGrows(View(), c);
      DropHead(c);
      ghost var s := View();
      Complete();
      FailedThen(old(View()), s, View(), c);
    }

    /** One resubmission of the oldest waiting request, given the device's answer. */
    method RetryOne(c: nat, rc: int) returns (moved: bool)
      requires Valid() && c < |channels| && channels[c].pending != []
      modifies this
      ensures Valid() && Turn(old(View()), View(), c, rc)
      ensures moved <==> !(rc == ENOMEM && old(channels)[c].issued != [])
    {
      WaitingFileIsOpen(View(), c);
      if rc == ENOMEM && channels[c].issued != [] { return false; }
      if rc == 0 { IssueHead(c); } else { FailHead(c); }
      moved := true;
    }

    /** The turn that comes next when retrying from state s. */
    method RetryNext(ghost s: State, c: nat, limit: nat, turns: nat, answers: nat -> int, m: nat, done: nat,
                     ghost queue: seq<Request>)
      returns (submitted: nat, completions: nat, going: bool, why: Halt, ghost longer: seq<Request>)
      requires Valid() && Progress(s, View(), c, limit, turns, answers, m, done, queue, true, Cut)
      requires channels[c].pending != [] && m < turns && (limit == 0 || m < limit)
      modifies this
      ensures Valid() && Progress(s, View(), c, limit, turns, answers, submitted, completions, longer, going, why)
      ensures (going ==> submitted == m + 1 && why == Cut) && (submitted == m || submitted == m + 1)
    {
      ghost var t := View();
      var seen := generation;
      var moved := RetryOne(c, answers(m));
      longer := ProgressNext(s, t, View(), c, limit, turns, answers, m, done, queue);
      going := moved && generation == seen;
      why := if going then Cut else if moved then TableChanged else DeviceFull;
      submitted, completions := if moved then m + 1 else m, if moved && answers(m) != 0 then done + 1 else done;
    }

    /** Sends waiting requests in order, or fails them, until none waits, the limit is reached, the
        device is full, a callback has changed the table, or, at the latest, the given number of
        turns is over; answers(n) is what the device says to the n-th resubmission. */
    method RetryDeferred(c: nat, limit: nat, turns: nat, answers: nat -> int)
      returns (completions: nat, submitted: nat, why: Halt, ghost queue: seq<Request>)
      requires Valid() && c < |channels|
      modifies this
      ensures Valid()
      ensures Progress(old(View()), View(), c, limit, turns, answers, submitted, completions, queue, false, why)
    {
      var going := true;
      completions, submitted, why, queue := 0, 0, Cut, channels[c].pending;
      ghost var s := View();
      RetryingBegins(s, c, answers);
      while going && submitted < turns && channels[c].pending != [] && (limit == 0 || submitted < limit)
        invariant Valid() && (going ==> why == Cut)
        invariant Progress(s, View(), c, limit, turns, answers, submitted, completions, queue, going, why)
        decreases turns - submitted, going
      {
        submitted, completions, going, why, queue := RetryNext(s, c, limit, turns, answers, submitted, completions, queue);
      }
      if going {
        why := EndOf(channels[c].pending == [], limit, submitted);
        EndHalts(s, View(), c, limit, turns, answers, submitted);
      }
    }

    method DispatchOne()
      requires Valid() && batch != []
      modifies this
      ensures Valid() && Grows(old(View()), View())
      ensures completed == old(completed) + [old(batch)[0]] && batch == old(batch)[1..]
    {
      ReadyKeeps(View());
      completed, batch := completed + [batch[0]], batch[1..];
      assert View() == Dispatched(old(View()));
      Complete();
    }

    /** Hands out the completions that were ready when the poll began. */
    method DispatchReady()
      requires Valid() && batch == []
      modifies this
      ensures Valid() && Grows(old(View()), View()) && completed == old(completed) + old(ready) && batch == []
    {
      ReadyKeeps(View());
      ghost var s := View();
      batch, ready := ready, [];
      while batch != []
        invariant Valid() && Grows(s, View()) && completed + batch == s.completed + s.ready
        decreases |batch|
      {
        ghost var t := View();
        DispatchOne();
        GrowsTwice(s, t, View());
      }
    }

    /** One channel's turn in a poll: the device reports, and then what waits is retried, unless a
        callback has changed the table. */
    method Visit(index: nat, remaining: nat, max: nat, turns: nat, answers: nat -> int)
      returns (completions: nat, ghost v: Visiting)
      requires Valid() && index < |channels|
      modifies this, device
      ensures device.polled == old(device.polled) + [old(channels)[index].qpair]
      ensures Valid() && Visited(old(View()), View(), index, remaining, max, turns, answers, v)
      ensures |completed| == |old(completed)| + completions
    {
      ghost var s := View();
      var qpair, seen := channels[index].qpair, generation;
      completions := ProcessCompletions(qpair, remaining);
      v := Visiting(View(), 0, Emptied, []);
      if generation != seen || channels[index].pending == [] { return; }
      var failed, submitted, why, queue := RetryDeferred(index, max, turns, answers);
      completions := completions + failed;
      v := v.(submitted := submitted, why := why, queue := queue);
      GrowsTwice(s, v.mid, View());
    }

    /** The next channel is polled, unless the pass has completed enough already. */
    method PollOne(index: nat, max: nat, already: nat, turns: nat, answers: nat -> int)
      returns (completions: nat, visited: bool)
      requires Valid() && index < |channels|
      modifies this, device
      ensures visited <==> max == 0 || already < max
      ensures device.polled == if visited then old(device.polled) + [old(channels)[index].qpair] else old(device.polled)
      ensures Valid() && |completed| + already == |old(completed)| + completions
      ensures !visited ==> View() == old(View()).(nextPoll := index)
      ensures visited ==>
        VisitedBy(old(View()).(nextPoll := Cyclic(index, 1, |old(channels)|)), View(), index,
                  Left(max, already), max, turns, answers)
    {
      visited := max == 0 || already < max;
      MoveCursor(if visited then Cyclic(index, 1, |channels|) else index);
      completions := already;
      if visited {
        var done, v := Visit(index, Left(max, already), max, turns, answers);
        completions := already + done;
      }
    }

    /** The visit that comes next in a pass begun in state s. */
    method PollNext(ghost s: State, ghost log: seq<nat>, ghost pass: seq<State>, first: nat, count: nat, visits: nat,
                    spent: nat, max: nat, ghost already: nat, turns: nat, answers: nat -> nat -> int)
      returns (completions: nat, visited: bool, ghost longer: seq<State>)
      requires Valid() && generation == s.generation && first == s.nextPoll && visits < count == |s.channels|
      requires Passing(s, View(), log, device.polled, pass, visits, spent, max, already, turns, answers)
      modifies this, device
      ensures Valid() && (!visited ==> 0 < max <= completions && generation == s.generation)
      ensures Passing(s, View(), log, device.polled, longer, if visited then visits + 1 else visits, completions,
                      max, already, turns, answers)
    {
      ghost var t, before := View(), device.polled;
      longer := pass;
      PassingCursor(s, t, log, before, pass, visits, spent, max, already, turns, answers);
      completions, visited := PollOne(Cyclic(first, visits, count), max, spent, turns, answers(visits));
      if visited {
        longer := PassingNext(s, t, View(), log, before, pass, visits, max, already, turns, answers);
      }
    }

    /** Polls the channels in turn; stops short only once enough has completed or as soon as a
        callback has changed the table. answers(i)(n) is what the device says to the n-th
        resubmission of the i-th visit. */
    method PollChannels(max: nat, already: nat, turns: nat, answers: nat -> nat -> int)
      returns (completions: nat, visits: nat, ghost pass: seq<State>)
      requires Valid()
      modifies this, device
      ensures Valid()
      ensures Passing(old(View()), View(), old(device.polled), device.polled, pass, visits, completions,
                      max, already, turns, answers)
      ensures visits < |old(channels)| ==> generation != old(generation) || 0 < max <= completions
    {
      completions, visits := already, 0;
      var count, seen, first := |channels|, generation, nextPoll;
      ghost var s, log := View(), device.polled;
      pass := [s];
      while visits < count
        invariant Valid() && generation == seen && visits <= count
        invariant Passing(s, View(), log, device.polled, pass, visits, completions, max, already, turns, answers)
        decreases count - visits
      {
        var visited;
        completions, visited, pass :=
          PollNext(s, log, pass, first, count, visits, completions, max, already, turns, answers);
        if !visited { break; }
        visits := visits + 1;
        if generation != seen { break; }
      }
    }

    /** Hands out what was ready, then polls the channels of the table as it is then. */
    method Poll(max: nat, turns: nat, answers: nat -> nat -> int)
      returns (completions: nat, visits: nat, ghost start: State, ghost pass: seq<State>)
      requires Valid() && batch == []
      modifies this, device
      ensures Valid() && batch == [] && Grows(old(View()), start) && start.completed == old(completed) + old(ready)
      ensures Passing(start, View(), old(device.polled), device.polled, pass, visits, completions,
                      max, |old(ready)|, turns, answers)
      ensures visits < |start.channels| ==> generation != start.generation || 0 < max <= completions
    {
      var instant := |ready|;
      DispatchReady();
      start := View();
      completions, visits, pass := PollChannels(max, instant, turns, answers);
    }

    method MoveCursor(next: nat)
      requires Valid() && next < |channels|
      modifies this`nextPoll
      ensures Valid() && View() == old(View()).(nextPoll := next)
    {
      StepKeeps(View(), Step.MoveCursor(next));
      nextPoll := next;
    }
  }

  /** A visit in the middle, after the device has reported, and how retrying then went. */
  datatype Visiting = Visiting(mid: State, submitted: nat, why: Halt, queue: seq<Request>)

  /** What a visit does: some commands complete, no more than allowed; then, if requests wait and the
      table is as it was, they are retried, and else nothing more happens. */
  ghost predicate Visited(s: State, t: State, index: nat, remaining: nat, max: nat, turns: nat, answers: nat -> int,
                          v: Visiting)
  {
    && index < |s.channels| && Grows(s, v.mid) && v.mid.batch == s.batch
    && (remaining != 0 ==> |v.mid.completed| <= |s.completed| + remaining)
    && Grows(s, t) && t.batch == s.batch
    && if v.mid.generation == s.generation && v.mid.channels[index].pending != []
       then Retrying(v.mid, t, index, answers, v.submitted, v.queue)
            && Halted(v.mid, t, index, max, turns, answers, v.submitted, v.why)
       else t == v.mid
  }

  ghost predicate VisitedBy(s: State, t: State, index: nat, remaining: nat, max: nat, turns: nat, answers: nat -> int) {
    exists v :: Visited(s, t, index, remaining, max, turns, answers, v)
  }

  /** How many completions a limit still allows, 0 meaning any number. */
  function Left(max: nat, spent: nat): nat { if spent < max then max - spent else 0 }

  /** The states of a pass over the table: each is a visit away from the one before, at the next
      channel in turn, with what the completions so far leave of the limit. */
  ghost predicate IsPass(s: State, t: State, pass: seq<State>, visits: nat, max: nat, already: nat, turns: nat,
                         answers: nat -> nat -> int)
  {
    && |pass| == visits + 1 && pass[0] == s && pass[visits] == t && visits <= |s.channels|
    && (visits == 0 || s.nextPoll < |s.channels|)
    && forall i, j | 0 <= i < j <= visits && j == i + 1 ::
         PassStep(s, pass[i], pass[j], i, max, already, turns, answers(i))
  }

  ghost predicate PassStep(s: State, t: State, u: State, i: nat, max: nat, already: nat, turns: nat, answers: nat -> int) {
    && i < |s.channels| && s.nextPoll < |s.channels| && |s.completed| <= |t.completed|
    && var spent := already + |t.completed| - |s.completed|;
       && (max == 0 || spent < max)
       && VisitedBy(t.(nextPoll := Turned(s.nextPoll, i + 1, |s.channels|)), u, Cyclic(s.nextPoll, i, |s.channels|),
                    Left(max, spent), max, turns, answers)
  }

  /** What a pass has done after some visits, with the device's log. */
  ghost predicate Passing(s: State, t: State, before: seq<nat>, log: seq<nat>, pass: seq<State>, visits: nat,
                          completions: nat, max: nat, already: nat, turns: nat, answers: nat -> nat -> int)
  {
    && PolledInTurn(before, log, s.channels, s.nextPoll, visits) && t.batch == s.batch
    && Grows(s.(nextPoll := Turned(s.nextPoll, visits, |s.channels|)), t)
    && |t.completed| + already == |s.completed| + completions
    && IsPass(s, t, pass, visits, max, already, turns, answers)
  }

  lemma PassNext(s: State, t: State, u: State, pass: seq<State>, visits: nat, max: nat, already: nat, turns: nat,
                 answers: nat -> nat -> int) returns (longer: seq<State>)
    requires IsPass(s, t, pass, visits, max, already, turns, answers)
    requires PassStep(s, t, u, visits, max, already, turns, answers(visits))
    ensures IsPass(s, u, longer, visits + 1, max, already, turns, answers)
  {
    longer := pass + [u];
    forall i, j | 0 <= i < j <= visits + 1 && j == i + 1
      ensures PassStep(s, longer[i], longer[j], i, max, already, turns, answers(i))
    {
      if i < visits { assert longer[i] == pass[i] && longer[j] == pass[j]; }
    }
  }

  lemma PassingCursor(s: State, t: State, before: seq<nat>, log: seq<nat>, pass: seq<State>, visits: nat,
                      completions: nat, max: nat, already: nat, turns: nat, answers: nat -> nat -> int)
    requires Passing(s, t, before, log, pass, visits, completions, max, already, turns, answers)
    requires visits < |s.channels| && t.generation == s.generation && Inv(t)
    ensures s.nextPoll < |s.channels| == |t.channels|
    ensures t.nextPoll == Cyclic(s.nextPoll, visits, |s.channels|) && |s.completed| <= |t.completed|
    ensures Turned(s.nextPoll, visits + 1, |s.channels|) == Cyclic(t.nextPoll, 1, |s.channels|)
  {
    TurnedNext(s.nextPoll, visits, |s.channels|);
  }

  lemma PassingNext(s: State, t: State, u: State, before: seq<nat>, log: seq<nat>, pass: seq<State>, visits: nat,
                    max: nat, already: nat, turns: nat, answers: nat -> nat -> int) returns (longer: seq<State>)
    requires visits < |s.channels| && s.nextPoll < |s.channels| && t.generation == s.generation
    requires |s.completed| <= |t.completed| <= |u.completed|
    requires var spent := already + |t.completed| - |s.completed|;
      && Passing(s, t, before, log, pass, visits, spent, max, already, turns, answers) && (max == 0 || spent < max)
      && VisitedBy(t.(nextPoll := Turned(s.nextPoll, visits + 1, |s.channels|)), u,
                   Cyclic(s.nextPoll, visits, |s.channels|), Left(max, spent), max, turns, answers(visits))
    ensures var index := Cyclic(s.nextPoll, visits, |s.channels|);
      && index < |t.channels|
      && Passing(s, u, before, log + [t.channels[index].qpair], longer, visits + 1,
                 already + |u.completed| - |s.completed|, max, already, turns, answers)
  {
    var next := Turned(s.nextPoll, visits + 1, |s.channels|);
    PolledNext(before, log, s.channels, s.nextPoll, visits);
    GrowsTurned(s, Turned(s.nextPoll, visits, |s.channels|), t, next, u);
    assert t.channels[Cyclic(s.nextPoll, visits, |s.channels|)].qpair ==
      s.channels[Cyclic(s.nextPoll, visits, |s.channels|)].qpair;
    longer := PassNext(s, t, u, pass, visits, max, already, turns, answers);
  }

  /** What each reason to stop retrying means. */
  ghost predicate Halted(s: State, t: State, c: nat, limit: nat, turns: nat, answers: nat -> int, m: nat, why: Halt) {
    && (t.generation != s.generation <==> why.TableChanged?)
    && (!why.TableChanged? ==> c < |t.channels|)
    && match why
       case Emptied => t.channels[c].pending == []
       case LimitReached => 0 < limit == m
       case DeviceFull => t.channels[c].pending != [] && t.channels[c].issued != [] && answers(m) == ENOMEM
       case Cut => m == turns
       case TableChanged => 0 < m && answers(m - 1) != 0
  }

  function EndOf(empty: bool, limit: nat, m: nat): Halt {
    if empty then Emptied else if limit != 0 && m == limit then LimitReached else Cut
  }

  /** What holds after m turns, whether retrying goes on or has ended. */
  ghost predicate Progress(s: State, t: State, c: nat, limit: nat, turns: nat, answers: nat -> int, m: nat,
                           completions: nat, queue: seq<Request>, going: bool, why: Halt)
  {
    && Retrying(s, t, c, answers, m, queue) && |t.completed| == |s.completed| + completions
    && if going then InProgress(s, t, c, limit, turns, m) else Halted(s, t, c, limit, turns, answers, m, why)
  }

  lemma ProgressNext(s: State, t: State, u: State, c: nat, limit: nat, turns: nat, answers: nat -> int, m: nat,
                     done: nat, queue: seq<Request>) returns (longer: seq<Request>)
    requires Progress(s, t, c, limit, turns, answers, m, done, queue, true, Cut)
    requires t.channels[c].pending != [] && m < turns && (limit == 0 || m < limit) && Turn(t, u, c, answers(m))
    ensures var full := answers(m) == ENOMEM && t.channels[c].issued != [];
      if full then Progress(s, u, c, limit, turns, answers, m, done, longer, false, DeviceFull)
      else Progress(s, u, c, limit, turns, answers, m + 1, done + One(answers(m) != 0), longer,
                    u.generation == t.generation, if u.generation == t.generation then Cut else TableChanged)
  {
    longer := queue;
    if !(answers(m) == ENOMEM && t.channels[c].issued != []) {
      longer := RetryingNext(s, t, u, c, answers, m, queue);
    }
  }

  lemma EndHalts(s: State, t: State, c: nat, limit: nat, turns: nat, answers: nat -> int, m: nat)
    requires InProgress(s, t, c, limit, turns, m)
    requires m == turns || t.channels[c].pending == [] || (limit != 0 && limit <= m)
    ensures Halted(s, t, c, limit, turns, answers, m, EndOf(t.channels[c].pending == [], limit, m))
  {
  }

  /** Retrying has not ended yet. */
  ghost predicate InProgress(s: State, t: State, c: nat, limit: nat, turns: nat, m: nat) {
    t.generation == s.generation && c < |t.channels| && m <= turns && (limit != 0 ==> m <= limit)
  }

  lemma FailedThen(s: State, t: State, u: State, c: nat)
    requires c < |s.channels| && s.channels[c].pending != [] && 0 < s.outstanding && t == HeadFailed(s, c)
    requires CalledBack(t, u)
    ensures FailedTurn(s, u, c)
  {
    HeadFailedGrows(s, c);
    GrowsTwice(s, t, u);
    forall q, r | HeldOn(s, q, r) ensures HeldOn(u, q, r) {
      var k :| 0 <= k < |s.channels| && s.channels[k].qpair == q && r in s.channels[k].issued;
      assert t.channels[k].qpair == q && r in t.channels[k].issued;
    }
  }

  /** A request that waits for a queue pair belongs to a file that is open on it. */
  lemma WaitingFileIsOpen(s: State, c: nat)
    requires Inv(s) && c < |s.channels| && s.channels[c].pending != []
    ensures var f := s.channels[c].pending[0].file; IsOpen(s, f) && s.files[f].qpair == s.channels[c].qpair
  {
    assert WaitsOk(s.channels[c], s.files);
  }

  /** Since the log was as before, n channels were polled, from the first on and around the table. */
  ghost predicate PolledInTurn(before: seq<nat>, log: seq<nat>, table: seq<Channel>, first: nat, n: nat) {
    && n <= |table| && (first < |table| || n == 0) && |log| == |before| + n && before <= log
    && forall i: nat | i < n :: log[|before| + i] == table[Cyclic(first, i, |table|)].qpair
  }

  lemma PolledNext(before: seq<nat>, log: seq<nat>, table: seq<Channel>, first: nat, n: nat)
    requires PolledInTurn(before, log, table, first, n) && n < |table| && first < |table|
    ensures PolledInTurn(before, log + [table[Cyclic(first, n, |table|)].qpair], table, first, n + 1)
  {
  }

  /** So a pass that is not cut short leaves no queue pair of the table unpolled. */
  lemma NoChannelSkipped(before: seq<nat>, log: seq<nat>, table: seq<Channel>, first: nat, c: nat)
    requires PolledInTurn(before, log, table, first, |table|) && c < |table|
    ensures table[c].qpair in log[|before|..]
  {
    var n := if first <= c then c - first else c + |table| - first;
    assert log[|before|..][n] == table[Cyclic(first, n, |table|)].qpair;
  }

  /** A step a callback can take. */
  predicate FromCallback(st: Step) { st.Submit? || st.Flush? || st.OpenFile? || st.CloseFile? }

  lemma StepGrows(s: State, st: Step)
    requires Enabled(s, st) && FromCallback(st)
    ensures Grows(s, Apply(s, st)) && Apply(s, st).completed == s.completed && Apply(s, st).batch == s.batch
  {
  }
}
