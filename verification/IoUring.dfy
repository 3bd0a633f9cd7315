/**
 The io_uring backend's operation lifecycle: a software FIFO in front of the submission
 queue, synthetic completions for operations cancelled before the kernel saw them, and the
 retirement of cancels whose target finished first. The kernel consumes a prefix of the
 submission queue on each enter, and answers each operation with any number of F_MORE
 completions and one terminal completion.
 */
module IoUring {

  const ECANCELED := -125
  const ENOENT := -2

  /** Completion tags: the addresses carried in user_data. A connection's receive and its
      peer-disconnect poll encode the connection's address; a write carries its own. */
  datatype Tag =
    | CancelRequest
    | WakePoll
    | CrossCoreWake
    | PeerDisconnectCancel
    | RecvTag(connection: nat)
    | PollTag(connection: nat)
    | WriteTag(connection: nat)
    | OpTag(completion: nat)

  datatype Opcode =
    | Nop | Send | SendMsg | Recv | Accept | Connect | PollAdd | AsyncCancel | Timeout | MsgRing | Storage

  /** A prepared descriptor. `id` is the operation's position in acceptance order. */
  datatype Sqe = Sqe(id: nat, op: Opcode, fd: int, fixedFile: bool, addr: Tag, userData: Tag)

  /** A deferred completion of an operation that never reached the kernel. */
  datatype Synthetic = Synthetic(id: nat, userData: Tag, result: int)

  /** A completion; one with nop set answers no accepted operation: it belongs to a neutralised
      entry, or is a wake that another worker's ring posted here. */
  datatype Cqe = Cqe(id: nat, userData: Tag, more: bool, nop: bool, result: int)

  datatype Op = Op(id: nat, tag: Tag)

  /** An entry neutralised in place; its completion carries no operation. */
  function NopEntry(): Sqe { Sqe(0, Nop, -1, false, CancelRequest, CancelRequest) }

  datatype Backend = Backend(
    entries: nat, sq: seq<Sqe>, pendingIo: seq<Sqe>, completions: seq<Synthetic>, mayCancel: bool)

  // ---------------------------------------------------------------- specification

  /** An accepted operation takes a free SQ entry unless older work is still queued. */
  function Accepted(b: Backend, x: Sqe): Backend {
    if b.pendingIo == [] && |b.sq| < b.entries then b.(sq := b.sq + [x])
    else b.(pendingIo := b.pendingIo + [x])
  }

  function Min(a: nat, b: nat): nat { if a < b then a else b }

  function Room(b: Backend): nat { if |b.sq| < b.entries then b.entries - |b.sq| else 0 }

  /** Move queued work into the SQ, oldest first, as far as it fits. */
  function Drained(b: Backend): Backend {
    var k := Min(Room(b), |b.pendingIo|);
    b.(sq := b.sq + b.pendingIo[..k], pendingIo := b.pendingIo[k..])
  }

  function Neutralised(s: seq<Sqe>, m: Sqe -> bool): seq<Sqe> {
    if s == [] then [] else [if m(s[0]) then NopEntry() else s[0]] + Neutralised(s[1..], m)
  }

  function Kept(s: seq<Sqe>, m: Sqe -> bool): seq<Sqe> {
    if s == [] then [] else (if m(s[0]) then [] else [s[0]]) + Kept(s[1..], m)
  }

  function Retired(s: seq<Sqe>, m: Sqe -> bool, result: int): seq<Synthetic> {
    if s == [] then []
    else (if m(s[0]) then [Synthetic(s[0].id, s[0].userData, result)] else []) + Retired(s[1..], m, result)
  }

  function Cancelled(b: Backend, m: Sqe -> bool, result: int): Backend {
    b.(sq := Neutralised(b.sq, m), pendingIo := Kept(b.pendingIo, m),
       completions := b.completions + Retired(b.sq, m, result) + Retired(b.pendingIo, m, result))
  }

  predicate Any(s: seq<Sqe>, m: Sqe -> bool) { exists i :: 0 <= i < |s| && m(s[i]) }

  function CarriesData(target: Tag): Sqe -> bool { (x: Sqe) => x.userData == target }

  function CancelsTag(target: Tag): Sqe -> bool { (x: Sqe) => x.op.AsyncCancel? && x.addr == target }

  function CancelsOther(target: Tag): Sqe -> bool { (x: Sqe) => x.op.AsyncCancel? && x.addr != target }

  /** A socket operation on a plain descriptor. */
  function UsesFd(fd: int): Sqe -> bool {
    (x: Sqe) => !x.fixedFile && x.fd == fd &&
      (x.op.Send? || x.op.SendMsg? || x.op.Recv? || x.op.Accept? || x.op.Connect? || x.op.PollAdd?)
  }

  /** Cancel by tag: locally when the target is still unsubmitted, else through the kernel. */
  function CancelledByData(b: Backend, target: Tag, completion: Tag, id: nat): Backend {
    if Any(b.sq, CarriesData(target)) || Any(b.pendingIo, CarriesData(target)) then
      var c := Cancelled(b, CarriesData(target), ECANCELED);
      c.(completions := c.completions + [Synthetic(id, completion, 0)])
    else Accepted(b, Sqe(id, AsyncCancel, -1, false, target, completion)).(mayCancel := true)
  }

  function CancelsRetired(b: Backend, target: Tag): Backend {
    Cancelled(b, CancelsTag(target), ENOENT)
    .(mayCancel := Any(b.sq, CancelsOther(target)) || Any(b.pendingIo, CancelsOther(target)))
  }

  /** What every terminal dispatch does before the callback may free or reuse its tag. */
  function BeforeCallback(b: Backend, tag: Tag, more: bool): Backend {
    if b.mayCancel && !more then CancelsRetired(b, tag) else b
  }

  // ---------------------------------------------------------------- the backend

  class IoUringBackend {
    const entries: nat
    var initialized: bool
    var sq: seq<Sqe>  // entries the kernel has not consumed
    var pendingIo: seq<Sqe>
    var pendingCompletions: seq<Synthetic>
    var mayHaveUnsubmittedCancels: bool

    ghost function View(): Backend
      reads this
    {
      Backend(entries, sq, pendingIo, pendingCompletions, mayHaveUnsubmittedCancels)
    }

    constructor (entries: nat)
      ensures initialized && View() == Backend(entries, [], [], [], false)
    {
      this.entries := entries;
      initialized, sq, pendingIo, pendingCompletions, mayHaveUnsubmittedCancels := true, [], [], [], false;
    }

    /** Submission either accepts the operation or reports that the backend is shut down. An
        operation goes behind everything accepted before, never overfills the ring, and waits in
        the FIFO only behind others or for want of room. */
    method SubmitOrQueue(prepared: Sqe) returns (ok: bool)
      modifies this
      ensures initialized == old(initialized) && (ok <==> initialized)
      ensures View() == if ok then Accepted(old(View()), prepared) else old(View())
      ensures ok ==> sq + pendingIo == old(sq) + old(pendingIo) + [prepared] && old(sq) <= sq
      ensures ok && |old(sq)| <= entries ==> |sq| <= entries
      ensures ok ==> (pendingIo == [] <==> old(pendingIo) == [] && |old(sq)| < entries)
    {
      if initialized && pendingIo == [] && |sq| < entries {
        sq := sq + [prepared];
        assert sq + pendingIo == sq;
        return true;
      }
      if !initialized {
        return false;
      }
      pendingIo := pendingIo + [prepared];
      return true;
    }

    /** Waiting operations move into the ring, oldest first, until none waits or the ring is full. */
    method DrainPending() returns (prepared: bool)
      requires initialized
      modifies this
      ensures initialized && View() == Drained(old(View()))
      ensures sq + pendingIo == old(sq) + old(pendingIo) && old(sq) <= sq
      ensures (pendingIo == [] || entries <= |sq|) && (|old(sq)| <= entries ==> |sq| <= entries)
      ensures prepared <==> |old(sq)| < |sq|
    {
      prepared := false;
      ghost var k := 0;
      while pendingIo != [] && |sq| < entries
        invariant initialized && k <= |old(pendingIo)| && (k == 0 || k <= Room(old(View())))
        invariant pendingIo == old(pendingIo)[k..] && sq == old(sq) + old(pendingIo)[..k]
        invariant pendingCompletions == old(pendingCompletions)
        invariant mayHaveUnsubmittedCancels == old(mayHaveUnsubmittedCancels)
        invariant prepared <==> 0 < k
        decreases |pendingIo|
      {
        sq := sq + [pendingIo[0]];
        pendingIo := pendingIo[1..];
        prepared := true;
        k := k + 1;
      }
      assert k == Min(Room(old(View())), |old(pendingIo)|);
    }

    /** Neutralise matching SQ entries in place. */
    method CancelInSq(m: Sqe -> bool, result: int) returns (cancelled: bool)
      modifies this`sq, this`pendingCompletions
      ensures sq == Neutralised(old(sq), m)
      ensures pendingCompletions == old(pendingCompletions) + Retired(old(sq), m, result)
      ensures cancelled <==> Any(old(sq), m)
    {
      cancelled := false;
      ghost var all, after := old(pendingCompletions) + Retired(sq, m, result), Neutralised(sq, m);
      var head := 0;
      ghost var done, rest := [], sq;
      while head < |sq|
        invariant 0 <= head == |done| && sq == done + rest
        invariant done + Neutralised(rest, m) == after
        invariant pendingCompletions + Retired(rest, m, result) == all
        invariant Any(old(sq), m) <==> cancelled || Any(rest, m)
        decreases |rest|
      {
        var sqe := sq[head];
        assert sqe == rest[0];
        RetiredHead(pendingCompletions, rest, m, result);
        NeutralisedHead(done, rest, m);
        AnyHead(rest, m);
        if m(sqe) {
          pendingCompletions := pendingCompletions + [Synthetic(sqe.id, sqe.userData, result)];
          cancelled := true;
          SetMiddle(done, rest, NopEntry());
          sq := sq[head := NopEntry()];
        } else {
          SetMiddle(done, rest, sqe);
        }
        done, rest := done + [sq[head]], rest[1..];
        head := head + 1;
      }
      assert rest == [] && done + [] == done && pendingCompletions + [] == pendingCompletions;
    }

    /** Erase matching entries of the software queue. */
    method CancelQueued(m: Sqe -> bool, result: int) returns (cancelled: bool)
      modifies this`pendingIo, this`pendingCompletions
      ensures pendingIo == Kept(old(pendingIo), m)
      ensures pendingCompletions == old(pendingCompletions) + Retired(old(pendingIo), m, result)
      ensures cancelled <==> Any(old(pendingIo), m)
    {
      cancelled := false;
      ghost var all, kept := old(pendingCompletions) + Retired(pendingIo, m, result), Kept(pendingIo, m);
      var it := 0;
      ghost var done, rest := [], pendingIo;
      while it < |pendingIo|
        invariant 0 <= it == |done| && pendingIo == done + rest
        invariant done + Kept(rest, m) == kept
        invariant pendingCompletions + Retired(rest, m, result) == all
        invariant Any(old(pendingIo), m) <==> cancelled || Any(rest, m)
        decreases |rest|
      {
        var sqe := pendingIo[it];
        assert sqe == rest[0];
        RetiredHead(pendingCompletions, rest, m, result);
        KeptHead(done, rest, m);
        AnyHead(rest, m);
        if m(sqe) {
          pendingCompletions := pendingCompletions + [Synthetic(sqe.id, sqe.userData, result)];
          cancelled := true;
          pendingIo := pendingIo[..it] + pendingIo[it + 1..];
        } else {
          it := it + 1;
          done := done + [sqe];
        }
        rest := rest[1..];
        assert pendingIo == done + rest;
      }
      assert rest == [] && done + [] == done && pendingCompletions + [] == pendingCompletions;
    }

    method CancelUnsubmittedMatching(m: Sqe -> bool, result: int) returns (cancelled: bool)
      requires initialized
      modifies this
      ensures initialized && View() == Cancelled(old(View()), m, result)
      ensures cancelled <==> Any(old(sq), m) || Any(old(pendingIo), m)
    {
      var inSq := CancelInSq(m, result);
      var queued := CancelQueued(m, result);
      cancelled := inSq || queued;
    }

    method CancelByData(target: Tag, completion: Tag, id: nat) returns (ok: bool)
      modifies this
      ensures initialized == old(initialized) && (ok <==> initialized)
      ensures View() == if ok then CancelledByData(old(View()), target, completion, id) else old(View())
    {
      if !initialized {
        return false;
      }
      var local := CancelUnsubmittedMatching(CarriesData(target), ECANCELED);
      if local {
        pendingCompletions := pendingCompletions + [Synthetic(id, completion, 0)];
        return true;
      }
      NothingCancelled(old(View()), CarriesData(target), ECANCELED);
      ok := SubmitOrQueue(Sqe(id, AsyncCancel, -1, false, target, completion));
      if ok {
        mayHaveUnsubmittedCancels := true;
      }
    }

    method CancelUnsubmittedForFd(fd: int)
      requires initialized
      modifies this
      ensures initialized && View() == if fd < 0 then old(View()) else Cancelled(old(View()), UsesFd(fd), ECANCELED)
    {
      if fd < 0 {
        return;
      }
      var _ := CancelUnsubmittedMatching(UsesFd(fd), ECANCELED);
    }

    method RetireUnsubmittedCancels(target: Tag)
      requires initialized
      modifies this
      ensures initialized && View() == CancelsRetired(old(View()), target)
    {
      var other := AnyOf(sq, CancelsOther(target));
      var otherQueued := AnyOf(pendingIo, CancelsOther(target));
      var _ := CancelUnsubmittedMatching(CancelsTag(target), ENOENT);
      mayHaveUnsubmittedCancels := other || otherQueued;
    }

    method PrepareDispatch(tag: Tag, more: bool)
      requires initialized
      modifies this
      ensures initialized && View() == BeforeCallback(old(View()), tag, more)
    {
      if mayHaveUnsubmittedCancels && !more {
        RetireUnsubmittedCancels(tag);
      }
    }
  }

  method AnyOf(s: seq<Sqe>, m: Sqe -> bool) returns (any: bool)
    ensures any <==> Any(s, m)
  {
    any := false;
    for i := 0 to |s|
      invariant any <==> exists j :: 0 <= j < i && m(s[j])
    {
      any := any || m(s[i]);
    }
  }

  lemma SetMiddle(done: seq<Sqe>, rest: seq<Sqe>, x: Sqe)
    requires rest != []
    ensures (done + rest)[|done| := x] == (done + [x]) + rest[1..] && (done + rest)[|done|] == rest[0]
    ensures done + rest == (done + [rest[0]]) + rest[1..]
  {
  }

  lemma AnyHead(s: seq<Sqe>, m: Sqe -> bool)
    requires s != []
    ensures Any(s, m) <==> m(s[0]) || Any(s[1..], m)
  {
    if Any(s, m) { var i :| 0 <= i < |s| && m(s[i]); assert i == 0 || m(s[1..][i - 1]); }
    if Any(s[1..], m) { var i :| 0 <= i < |s| - 1 && m(s[1..][i]); assert m(s[i + 1]); }
  }

  lemma RetiredHead(done: seq<Synthetic>, s: seq<Sqe>, m: Sqe -> bool, result: int)
    requires s != []
    ensures done + Retired(s, m, result) ==
      (if m(s[0]) then done + [Synthetic(s[0].id, s[0].userData, result)] else done) + Retired(s[1..], m, result)
  {
  }

  lemma NeutralisedHead(done: seq<Sqe>, s: seq<Sqe>, m: Sqe -> bool)
    requires s != []
    ensures done + Neutralised(s, m) == done + [if m(s[0]) then NopEntry() else s[0]] + Neutralised(s[1..], m)
  {
  }

  lemma KeptHead(done: seq<Sqe>, s: seq<Sqe>, m: Sqe -> bool)
    requires s != []
    ensures done + Kept(s, m) == (if m(s[0]) then done else done + [s[0]]) + Kept(s[1..], m)
  {
  }

  lemma {:induction false} NothingMatches(s: seq<Sqe>, m: Sqe -> bool, result: int)
    requires !Any(s, m)
    ensures Neutralised(s, m) == s && Kept(s, m) == s && Retired(s, m, result) == []
  {
    if s != [] {
      AnyHead(s, m);
      NothingMatches(s[1..], m, result);
    }
  }

  lemma NothingCancelled(b: Backend, m: Sqe -> bool, result: int)
    requires !Any(b.sq, m) && !Any(b.pendingIo, m)
    ensures Cancelled(b, m, result) == b
  {
    NothingMatches(b.sq, m, result);
    NothingMatches(b.pendingIo, m, result);
    assert b.completions + [] + [] == b.completions;
  }

  // ---------------------------------------------------------------- the system

  /** The backend with its kernel, its completion queue, the batch of deferred completions
      being dispatched, and the history of what was accepted, entered and delivered. */
  datatype System = System(
    b: Backend, kernel: seq<Sqe>, cq: seq<Cqe>, batch: seq<Synthetic>,
    accepted: seq<Op>, entered: seq<Sqe>, delivered: seq<Op>)

  datatype Step =
    | Submit(x: Sqe)
    | Cancel(target: Tag, completion: Tag)
    | CloseFd(fd: int)
    | Drain
    | Enter(count: nat)
    | More(index: nat, result: int)
    | Done(index: nat, result: int)
    | Posted(result: int)
    | Reap
    | Detach
    | DispatchDeferred

  predicate Enabled(s: System, st: Step) {
    match st
    case Submit(x) => x.id == |s.accepted| && !x.op.Nop? && !x.op.AsyncCancel?
    case Cancel(target, _) => !target.CancelRequest?
    case CloseFd(fd) => 0 <= fd
    case Drain => true
    case Enter(k) => k <= |s.b.sq|
    case More(i, _) => i < |s.kernel| && !s.kernel[i].op.Nop?
    case Done(i, _) => i < |s.kernel|
    case Posted(_) => true
    case Reap => s.cq != []
    case Detach => s.batch == []
    case DispatchDeferred => s.batch != []
  }

  function Apply(s: System, st: Step): System
    requires Enabled(s, st)
  {
    match st
    case Submit(x) => s.(b := Accepted(s.b, x), accepted := s.accepted + [Op(x.id, x.userData)])
    case Cancel(target, completion) =>
      s.(b := CancelledByData(s.b, target, completion, |s.accepted|),
         accepted := s.accepted + [Op(|s.accepted|, completion)])
    case CloseFd(fd) => s.(b := Cancelled(s.b, UsesFd(fd), ECANCELED))
    case Drain => s.(b := Drained(s.b))
    case Enter(k) =>
      s.(b := s.b.(sq := s.b.sq[k..]), kernel := s.kernel + s.b.sq[..k], entered := s.entered + s.b.sq[..k])
    case More(i, result) => s.(cq := s.cq + [Cqe(s.kernel[i].id, s.kernel[i].userData, true, false, result)])
    case Done(i, result) =>
      var x := s.kernel[i];
      s.(kernel := s.kernel[..i] + s.kernel[i + 1..],
         cq := s.cq + [Cqe(x.id, x.userData, false, x.op.Nop?, result)])
    case Posted(result) => s.(cq := s.cq + [Cqe(0, CrossCoreWake, false, true, result)])
    case Reap =>
      var c := s.cq[0];
      s.(b := BeforeCallback(s.b, c.userData, c.more), cq := s.cq[1..],
         delivered := s.delivered + if c.more || c.nop then [] else [Op(c.id, c.userData)])
    case Detach => s.(batch := s.b.completions, b := s.b.(completions := []))
    case DispatchDeferred =>
      var c := s.batch[0];
      s.(b := BeforeCallback(s.b, c.userData, false), batch := s.batch[1..],
         delivered := s.delivered + [Op(c.id, c.userData)])
  }

  // ---------------------------------------------------------------- conservation

  function One(b: bool): nat { if b then 1 else 0 }

  /** How often operation o occurs among the entries of a queue. */
  function InQueue(s: seq<Sqe>, o: Op): nat {
    if s == [] then 0 else One(!s[0].op.Nop? && Op(s[0].id, s[0].userData) == o) + InQueue(s[1..], o)
  }

  function InDeferred(s: seq<Synthetic>, o: Op): nat {
    if s == [] then 0 else One(Op(s[0].id, s[0].userData) == o) + InDeferred(s[1..], o)
  }

  function InTerminal(s: seq<Cqe>, o: Op): nat {
    if s == [] then 0 else One(!s[0].more && !s[0].nop && Op(s[0].id, s[0].userData) == o) + InTerminal(s[1..], o)
  }

  function InLog(s: seq<Op>, o: Op): nat {
    if s == [] then 0 else One(s[0] == o) + InLog(s[1..], o)
  }

  lemma {:induction false} QueueAppend(a: seq<Sqe>, b: seq<Sqe>, o: Op)
    ensures InQueue(a + b, o) == InQueue(a, o) + InQueue(b, o)
  {
    if a == [] {
      assert a + b == b;
    } else {
      QueueAppend(a[1..], b, o);
      assert (a + b)[1..] == a[1..] + b;
    }
  }

  lemma {:induction false} DeferredAppend(a: seq<Synthetic>, b: seq<Synthetic>, o: Op)
    ensures InDeferred(a + b, o) == InDeferred(a, o) + InDeferred(b, o)
  {
    if a == [] {
      assert a + b == b;
    } else {
      DeferredAppend(a[1..], b, o);
      assert (a + b)[1..] == a[1..] + b;
    }
  }

  lemma {:induction false} TerminalAppend(a: seq<Cqe>, b: seq<Cqe>, o: Op)
    ensures InTerminal(a + b, o) == InTerminal(a, o) + InTerminal(b, o)
  {
    if a == [] {
      assert a + b == b;
    } else {
      TerminalAppend(a[1..], b, o);
      assert (a + b)[1..] == a[1..] + b;
    }
  }

  lemma {:induction false} LogAppend(a: seq<Op>, b: seq<Op>, o: Op)
    ensures InLog(a + b, o) == InLog(a, o) + InLog(b, o)
  {
    if a == [] {
      assert a + b == b;
    } else {
      LogAppend(a[1..], b, o);
      assert (a + b)[1..] == a[1..] + b;
    }
  }

  lemma QueueRemove(s: seq<Sqe>, i: nat, o: Op)
    requires i < |s|
    ensures InQueue(s, o) == InQueue(s[..i] + s[i + 1..], o) + InQueue([s[i]], o)
  {
    assert s == s[..i] + ([s[i]] + s[i + 1..]);
    QueueAppend(s[..i], [s[i]] + s[i + 1..], o);
    QueueAppend([s[i]], s[i + 1..], o);
    QueueAppend(s[..i], s[i + 1..], o);
  }

  /** Neutralised and erased entries reappear as deferred completions, nothing else changes. */
  lemma {:induction false} RetireConserves(s: seq<Sqe>, m: Sqe -> bool, result: int, o: Op)
    requires forall i | 0 <= i < |s| && s[i].op.Nop? :: !m(s[i])
    ensures InQueue(s, o) == InQueue(Neutralised(s, m), o) + InDeferred(Retired(s, m, result), o)
    ensures InQueue(s, o) == InQueue(Kept(s, m), o) + InDeferred(Retired(s, m, result), o)
  {
    if s != [] {
      RetireConserves(s[1..], m, result, o);
      var retired := if m(s[0]) then [Synthetic(s[0].id, s[0].userData, result)] else [];
      DeferredAppend(retired, Retired(s[1..], m, result), o);
      QueueAppend([if m(s[0]) then NopEntry() else s[0]], Neutralised(s[1..], m), o);
      QueueAppend(if m(s[0]) then [] else [s[0]], Kept(s[1..], m), o);
    }
  }

  /** Occurrences in what the backend itself owns: SQ, software FIFO and deferred completions. */
  function InBackend(b: Backend, o: Op): nat {
    InQueue(b.sq, o) + InQueue(b.pendingIo, o) + InDeferred(b.completions, o)
  }

  ghost predicate NopsAreBlank(s: seq<Sqe>) { forall i | 0 <= i < |s| && s[i].op.Nop? :: s[i] == NopEntry() }

  lemma AcceptedOwns(b: Backend, x: Sqe, o: Op)
    requires !x.op.Nop?
    ensures InBackend(Accepted(b, x), o) == InBackend(b, o) + One(Op(x.id, x.userData) == o)
  {
    QueueAppend(b.sq, [x], o);
    QueueAppend(b.pendingIo, [x], o);
  }

  lemma DrainedOwns(b: Backend, o: Op)
    ensures InBackend(Drained(b), o) == InBackend(b, o)
  {
    var k := Min(Room(b), |b.pendingIo|);
    QueueAppend(b.sq, b.pendingIo[..k], o);
    QueueAppend(b.pendingIo[..k], b.pendingIo[k..], o);
    assert b.pendingIo[..k] + b.pendingIo[k..] == b.pendingIo;
  }

  lemma CancelledOwns(b: Backend, m: Sqe -> bool, result: int, o: Op)
    requires NopsAreBlank(b.sq) && NopsAreBlank(b.pendingIo) && !m(NopEntry())
    ensures InBackend(Cancelled(b, m, result), o) == InBackend(b, o)
  {
    RetireConserves(b.sq, m, result, o);
    RetireConserves(b.pendingIo, m, result, o);
    var r, q := Retired(b.sq, m, result), Retired(b.pendingIo, m, result);
    DeferredAppend(b.completions + r, q, o);
    DeferredAppend(b.completions, r, o);
  }

  lemma CancelledByDataOwns(b: Backend, target: Tag, completion: Tag, id: nat, o: Op)
    requires NopsAreBlank(b.sq) && NopsAreBlank(b.pendingIo) && !target.CancelRequest?
    ensures InBackend(CancelledByData(b, target, completion, id), o) == InBackend(b, o) + One(Op(id, completion) == o)
  {
    if Any(b.sq, CarriesData(target)) || Any(b.pendingIo, CarriesData(target)) {
      CancelledOwns(b, CarriesData(target), ECANCELED, o);
      DeferredAppend(Cancelled(b, CarriesData(target), ECANCELED).completions, [Synthetic(id, completion, 0)], o);
    } else {
      AcceptedOwns(b, Sqe(id, AsyncCancel, -1, false, target, completion), o);
    }
  }

  lemma BeforeCallbackOwns(b: Backend, tag: Tag, more: bool, o: Op)
    requires NopsAreBlank(b.sq) && NopsAreBlank(b.pendingIo)
    ensures InBackend(BeforeCallback(b, tag, more), o) == InBackend(b, o)
  {
    CancelledOwns(b, CancelsTag(tag), ENOENT, o);
  }

  // ---------------------------------------------------------------- queues under cancellation

  lemma {:induction false} NeutralisedAt(s: seq<Sqe>, m: Sqe -> bool)
    ensures |Neutralised(s, m)| == |s|
    ensures forall i | 0 <= i < |s| :: Neutralised(s, m)[i] == if m(s[i]) then NopEntry() else s[i]
  {
    if s != [] {
      NeutralisedAt(s[1..], m);
      forall i | 0 <= i < |s| ensures Neutralised(s, m)[i] == if m(s[i]) then NopEntry() else s[i] {
        if 0 < i { assert s[i] == s[1..][i - 1]; }
      }
    }
  }

  lemma {:induction false} KeptMembers(s: seq<Sqe>, m: Sqe -> bool)
    ensures forall x :: x in Kept(s, m) <==> x in s && !m(x)
  {
    if s != [] {
      KeptMembers(s[1..], m);
      assert forall x :: x in s <==> x == s[0] || x in s[1..];
    }
  }

  /** Accepted operations appear in acceptance order; neutralised entries do not count. */
  ghost predicate Rising(t: seq<Sqe>) {
    forall i, j | 0 <= i < j < |t| && !t[i].op.Nop? && !t[j].op.Nop? :: t[i].id < t[j].id
  }

  lemma RisingSplit(a: seq<Sqe>, x: Sqe, b: seq<Sqe>)
    requires Rising(a + ([x] + b))
    ensures Rising(a + b) && Rising((a + [x]) + b)
  {
    var t := a + ([x] + b);
    assert (a + [x]) + b == t;
    forall i, j | 0 <= i < j < |a + b| && !(a + b)[i].op.Nop? && !(a + b)[j].op.Nop?
      ensures (a + b)[i].id < (a + b)[j].id
    {
      assert (a + b)[i] == t[if i < |a| then i else i + 1];
      assert (a + b)[j] == t[if j < |a| then j else j + 1];
    }
  }

  lemma {:induction false} KeptRising(a: seq<Sqe>, s: seq<Sqe>, m: Sqe -> bool)
    requires Rising(a + s)
    ensures Rising(a + Kept(s, m))
    decreases |s|
  {
    if s != [] {
      assert s == [s[0]] + s[1..];
      RisingSplit(a, s[0], s[1..]);
      if m(s[0]) {
        KeptRising(a, s[1..], m);
        assert Kept(s, m) == Kept(s[1..], m);
      } else {
        KeptRising(a + [s[0]], s[1..], m);
        assert a + Kept(s, m) == (a + [s[0]]) + Kept(s[1..], m);
      }
    }
  }

  lemma CancelledRising(a: seq<Sqe>, b: Backend, m: Sqe -> bool, result: int)
    requires Rising(a + b.sq + b.pendingIo)
    ensures var c := Cancelled(b, m, result); Rising(a + c.sq + c.pendingIo)
  {
    NeutralisedAt(b.sq, m);
    var t, n := a + b.sq + b.pendingIo, a + Neutralised(b.sq, m) + b.pendingIo;
    assert |t| == |n|;
    assert forall i | 0 <= i < |n| && !n[i].op.Nop? :: n[i] == t[i];
    KeptRising(a + Neutralised(b.sq, m), b.pendingIo, m);
  }

  /** x is a real entry the kernel has not consumed. */
  predicate Unsubmitted(b: Backend, x: Sqe) { !x.op.Nop? && (x in b.sq || x in b.pendingIo) }

  lemma CancelledMembers(b: Backend, m: Sqe -> bool, result: int)
    ensures forall x :: Unsubmitted(Cancelled(b, m, result), x) <==> Unsubmitted(b, x) && !m(x)
    ensures NopsAreBlank(b.sq) ==> NopsAreBlank(Cancelled(b, m, result).sq)
    ensures NopsAreBlank(b.pendingIo) ==> NopsAreBlank(Cancelled(b, m, result).pendingIo)
  {
    NeutralisedAt(b.sq, m);
    KeptMembers(b.pendingIo, m);
    var n, k := Neutralised(b.sq, m), Kept(b.pendingIo, m);
    forall x: Sqe ensures (!x.op.Nop? && x in n) <==> (!x.op.Nop? && x in b.sq && !m(x)) {
      if x in b.sq && !m(x) { var i :| 0 <= i < |b.sq| && b.sq[i] == x; assert n[i] == x; }
    }
    if NopsAreBlank(b.pendingIo) {
      forall i | 0 <= i < |k| && k[i].op.Nop? ensures k[i] == NopEntry() {
        assert k[i] in k;
        assert k[i] in b.pendingIo;
      }
    }
  }

  ghost predicate NoCancels(b: Backend) { forall x | Unsubmitted(b, x) :: !x.op.AsyncCancel? }

  lemma RetiredMembersOf(b: Backend, target: Tag)
    ensures forall x :: Unsubmitted(CancelsRetired(b, target), x) <==> Unsubmitted(b, x) && !CancelsTag(target)(x)
  {
    CancelledMembers(b, CancelsTag(target), ENOENT);
    var c, d := CancelsRetired(b, target), Cancelled(b, CancelsTag(target), ENOENT);
    assert c.sq == d.sq && c.pendingIo == d.pendingIo;
  }

  lemma AnyIn(s: seq<Sqe>, m: Sqe -> bool)
    ensures Any(s, m) <==> exists x :: x in s && m(x)
  {
    if Any(s, m) { var i :| 0 <= i < |s| && m(s[i]); assert s[i] in s; }
    if x :| x in s && m(x) { var i :| 0 <= i < |s| && s[i] == x; }
  }

  lemma FlagDown(b: Backend, target: Tag)
    requires !CancelsRetired(b, target).mayCancel
    ensures NoCancels(CancelsRetired(b, target))
  {
    RetiredMembersOf(b, target);
    AnyIn(b.sq, CancelsOther(target));
    AnyIn(b.pendingIo, CancelsOther(target));
    forall x | Unsubmitted(CancelsRetired(b, target), x) ensures !x.op.AsyncCancel? {
      assert !CancelsOther(target)(x);
    }
  }

  lemma FlagUp(b: Backend, target: Tag)
    requires CancelsRetired(b, target).mayCancel
    ensures !NoCancels(CancelsRetired(b, target))
  {
    RetiredMembersOf(b, target);
    AnyIn(b.sq, CancelsOther(target));
    AnyIn(b.pendingIo, CancelsOther(target));
    var x :| (x in b.sq || x in b.pendingIo) && CancelsOther(target)(x);
    assert Unsubmitted(CancelsRetired(b, target), x);
  }

  /** The flag is left up exactly if some other cancel still waits. */
  lemma FlagIsExact(b: Backend, target: Tag)
    ensures CancelsRetired(b, target).mayCancel <==> !NoCancels(CancelsRetired(b, target))
  {
    if CancelsRetired(b, target).mayCancel { FlagUp(b, target); } else { FlagDown(b, target); }
  }

  lemma RetiredCancels(b: Backend, target: Tag)
    ensures forall x | Unsubmitted(CancelsRetired(b, target), x) :: !(x.op.AsyncCancel? && x.addr == target)
    ensures !CancelsRetired(b, target).mayCancel ==> NoCancels(CancelsRetired(b, target))
  {
    RetiredMembersOf(b, target);
    FlagIsExact(b, target);
  }

  // ---------------------------------------------------------------- what every step keeps

  /** Occurrences of an operation in all the places that may still complete it. */
  function Places(s: System, o: Op): nat {
    InBackend(s.b, o) + InQueue(s.kernel, o) + InTerminal(s.cq, o) + InDeferred(s.batch, o)
  }

  ghost predicate Conserved(s: System) {
    forall o :: Places(s, o) + InLog(s.delivered, o) == InLog(s.accepted, o)
  }

  /** Entries on their way to the kernel or already there, in that order. */
  function Track(s: System): seq<Sqe> { s.entered + s.b.sq + s.b.pendingIo }

  ghost predicate Below(t: seq<Sqe>, n: nat) { forall i | 0 <= i < |t| && !t[i].op.Nop? :: t[i].id < n }

  ghost predicate Inv(s: System) {
    && Conserved(s)
    && (forall i | 0 <= i < |s.accepted| :: s.accepted[i].id == i)
    && Rising(Track(s)) && Below(Track(s), |s.accepted|)
    && NopsAreBlank(s.b.sq) && NopsAreBlank(s.b.pendingIo)
    && (!s.b.mayCancel ==> NoCancels(s.b)) && |s.b.sq| <= s.b.entries
  }

  lemma EnterConserves(s: System, k: nat, o: Op)
    requires Enabled(s, Enter(k))
    ensures Places(Apply(s, Enter(k)), o) == Places(s, o)
  {
    QueueAppend(s.kernel, s.b.sq[..k], o);
    QueueAppend(s.b.sq[..k], s.b.sq[k..], o);
    assert s.b.sq[..k] + s.b.sq[k..] == s.b.sq;
  }

  lemma KernelConserves(s: System, st: Step, o: Op)
    requires Enabled(s, st) && (st.Enter? || st.More? || st.Done? || st.Posted?)
    ensures Places(Apply(s, st), o) == Places(s, o)
  {
    match st
    case Enter(k) => EnterConserves(s, k, o);
    case More(i, result) =>
      TerminalAppend(s.cq, [Cqe(s.kernel[i].id, s.kernel[i].userData, true, false, result)], o);
    case Done(i, result) =>
      var x := s.kernel[i];
      QueueRemove(s.kernel, i, o);
      TerminalAppend(s.cq, [Cqe(x.id, x.userData, false, x.op.Nop?, result)], o);
    case Posted(result) => TerminalAppend(s.cq, [Cqe(0, CrossCoreWake, false, true, result)], o);
  }

  lemma DispatchConserves(s: System, st: Step, o: Op)
    requires NopsAreBlank(s.b.sq) && NopsAreBlank(s.b.pendingIo) && Enabled(s, st)
    requires st.Reap? || st.DispatchDeferred?
    requires Places(s, o) + InLog(s.delivered, o) == InLog(s.accepted, o)
    ensures var t := Apply(s, st); Places(t, o) + InLog(t.delivered, o) == InLog(t.accepted, o)
  {
    if st.Reap? {
      var c := s.cq[0];
      BeforeCallbackOwns(s.b, c.userData, c.more, o);
      LogAppend(s.delivered, if c.more || c.nop then [] else [Op(c.id, c.userData)], o);
    } else {
      BeforeCallbackOwns(s.b, s.batch[0].userData, false, o);
      LogAppend(s.delivered, [Op(s.batch[0].id, s.batch[0].userData)], o);
    }
  }

  lemma StepConserves(s: System, st: Step, o: Op)
    requires NopsAreBlank(s.b.sq) && NopsAreBlank(s.b.pendingIo) && Enabled(s, st)
    requires Places(s, o) + InLog(s.delivered, o) == InLog(s.accepted, o)
    ensures var t := Apply(s, st); Places(t, o) + InLog(t.delivered, o) == InLog(t.accepted, o)
  {
    match st
    case Submit(x) =>
      AcceptedOwns(s.b, x, o);
      LogAppend(s.accepted, [Op(x.id, x.userData)], o);
    case Cancel(target, completion) =>
      CancelledByDataOwns(s.b, target, completion, |s.accepted|, o);
      LogAppend(s.accepted, [Op(|s.accepted|, completion)], o);
    case CloseFd(fd) => CancelledOwns(s.b, UsesFd(fd), ECANCELED, o);
    case Drain => DrainedOwns(s.b, o);
    case Enter(_) => KernelConserves(s, st, o);
    case More(_, _) => KernelConserves(s, st, o);
    case Done(_, _) => KernelConserves(s, st, o);
    case Posted(_) => KernelConserves(s, st, o);
    case Reap => DispatchConserves(s, st, o);
    case Detach =>
    case DispatchDeferred => DispatchConserves(s, st, o);
  }

  /** The operation a step accepts, if any. */
  predicate Accepts(s: System, st: Step, o: Op) {
    (st.Submit? && o == Op(st.x.id, st.x.userData)) || (st.Cancel? && o == Op(|s.accepted|, st.completion))
  }

  /** The operation whose terminal completion a step delivers, if any. */
  predicate Delivers(s: System, st: Step, o: Op) {
    || (st.Reap? && s.cq != [] && !s.cq[0].more && !s.cq[0].nop && o == Op(s.cq[0].id, s.cq[0].userData))
    || (st.DispatchDeferred? && s.batch != [] && o == Op(s.batch[0].id, s.batch[0].userData))
  }

  lemma LogsChange(s: System, st: Step, o: Op)
    requires Enabled(s, st)
    ensures InLog(Apply(s, st).accepted, o) == InLog(s.accepted, o) + One(Accepts(s, st, o))
    ensures InLog(Apply(s, st).delivered, o) == InLog(s.delivered, o) + One(Delivers(s, st, o))
  {
    match st
    case Submit(x) => LogAppend(s.accepted, [Op(x.id, x.userData)], o);
    case Cancel(_, completion) => LogAppend(s.accepted, [Op(|s.accepted|, completion)], o);
    case Reap =>
      var c := s.cq[0];
      LogAppend(s.delivered, if c.more || c.nop then [] else [Op(c.id, c.userData)], o);
    case DispatchDeferred => LogAppend(s.delivered, [Op(s.batch[0].id, s.batch[0].userData)], o);
    case _ =>
  }

  /** An operation enters the system when accepted and leaves it when delivered. */
  lemma PlacesChange(s: System, st: Step, o: Op)
    requires Inv(s) && Enabled(s, st)
    ensures Places(Apply(s, st), o) == Places(s, o) + One(Accepts(s, st, o)) - One(Delivers(s, st, o))
  {
    StepConserves(s, st, o);
    LogsChange(s, st, o);
    assert Places(s, o) + InLog(s.delivered, o) == InLog(s.accepted, o);
  }

  lemma AcceptedTrack(a: seq<Sqe>, b: Backend, x: Sqe)
    requires Rising(a + b.sq + b.pendingIo) && Below(a + b.sq + b.pendingIo, x.id)
    ensures var c := Accepted(b, x); Rising(a + c.sq + c.pendingIo) && Below(a + c.sq + c.pendingIo, x.id + 1)
  {
    var c, t := Accepted(b, x), a + b.sq + b.pendingIo;
    assert a + c.sq + c.pendingIo == t + [x];
  }

  lemma CancelledBelow(a: seq<Sqe>, b: Backend, m: Sqe -> bool, result: int, n: nat)
    requires Below(a + b.sq + b.pendingIo, n)
    ensures var c := Cancelled(b, m, result); Below(a + c.sq + c.pendingIo, n)
  {
    var c := Cancelled(b, m, result);
    var t, u := a + b.sq + b.pendingIo, a + c.sq + c.pendingIo;
    CancelledMembers(b, m, result);
    forall i | 0 <= i < |u| && !u[i].op.Nop? ensures u[i].id < n {
      if i < |a| {
        assert u[i] == t[i];
      } else {
        assert Unsubmitted(c, u[i]);
        assert Unsubmitted(b, u[i]);
        assert u[i] in t;
      }
    }
  }

  lemma StepTrack(s: System, st: Step)
    requires Rising(Track(s)) && Below(Track(s), |s.accepted|) && Enabled(s, st)
    ensures var t := Apply(s, st); Rising(Track(t)) && Below(Track(t), |t.accepted|)
  {
    match st
    case Submit(x) => AcceptedTrack(s.entered, s.b, x);
    case Cancel(target, completion) =>
      if Any(s.b.sq, CarriesData(target)) || Any(s.b.pendingIo, CarriesData(target)) {
        CancelledRising(s.entered, s.b, CarriesData(target), ECANCELED);
        CancelledBelow(s.entered, s.b, CarriesData(target), ECANCELED, |s.accepted|);
      } else {
        AcceptedTrack(s.entered, s.b, Sqe(|s.accepted|, AsyncCancel, -1, false, target, completion));
      }
    case CloseFd(fd) =>
      CancelledRising(s.entered, s.b, UsesFd(fd), ECANCELED);
      CancelledBelow(s.entered, s.b, UsesFd(fd), ECANCELED, |s.accepted|);
    case Drain =>
      var d := Drained(s.b);
      assert s.entered + d.sq + d.pendingIo == Track(s);
    case Enter(k) =>
      assert (s.entered + s.b.sq[..k]) + s.b.sq[k..] + s.b.pendingIo == Track(s);
    case More(_, _) =>
    case Done(_, _) =>
    case Posted(_) =>
    case Reap =>
      CancelledRising(s.entered, s.b, CancelsTag(s.cq[0].userData), ENOENT);
      CancelledBelow(s.entered, s.b, CancelsTag(s.cq[0].userData), ENOENT, |s.accepted|);
    case Detach =>
    case DispatchDeferred =>
      CancelledRising(s.entered, s.b, CancelsTag(s.batch[0].userData), ENOENT);
      CancelledBelow(s.entered, s.b, CancelsTag(s.batch[0].userData), ENOENT, |s.accepted|);
  }

  lemma AcceptedMembers(b: Backend, x: Sqe)
    ensures forall y :: Unsubmitted(Accepted(b, x), y) <==> Unsubmitted(b, y) || (y == x && !x.op.Nop?)
    ensures !x.op.Nop? && NopsAreBlank(b.sq) ==> NopsAreBlank(Accepted(b, x).sq)
    ensures !x.op.Nop? && NopsAreBlank(b.pendingIo) ==> NopsAreBlank(Accepted(b, x).pendingIo)
  {
  }

  lemma DrainedMembers(b: Backend)
    ensures forall y :: Unsubmitted(Drained(b), y) <==> Unsubmitted(b, y)
    ensures NopsAreBlank(b.sq) && NopsAreBlank(b.pendingIo) ==>
      NopsAreBlank(Drained(b).sq) && NopsAreBlank(Drained(b).pendingIo)
  {
    var k := Min(Room(b), |b.pendingIo|);
    assert b.pendingIo == b.pendingIo[..k] + b.pendingIo[k..];
  }

  /** The descriptor an accepting step queues. */
  predicate Entered(s: System, st: Step, x: Sqe) {
    || (st.Submit? && x == st.x && x.id == |s.accepted|)
    || (st.Cancel? && x == Sqe(|s.accepted|, AsyncCancel, -1, false, st.target, st.completion))
  }

  /** Nothing becomes unsubmitted except the operation just accepted, and the skip flag stays sound. */
  lemma StepMembers(s: System, st: Step)
    requires NopsAreBlank(s.b.sq) && NopsAreBlank(s.b.pendingIo) && (!s.b.mayCancel ==> NoCancels(s.b))
    requires Enabled(s, st)
    ensures var t := Apply(s, st);
      && NopsAreBlank(t.b.sq) && NopsAreBlank(t.b.pendingIo) && (!t.b.mayCancel ==> NoCancels(t.b))
      && forall x | Unsubmitted(t.b, x) :: Unsubmitted(s.b, x) || Entered(s, st, x)
  {
    match st
    case Submit(x) => AcceptedMembers(s.b, x);
    case Cancel(target, completion) =>
      CancelledMembers(s.b, CarriesData(target), ECANCELED);
      AcceptedMembers(s.b, Sqe(|s.accepted|, AsyncCancel, -1, false, target, completion));
      var t, c := Apply(s, st), Cancelled(s.b, CarriesData(target), ECANCELED);
      assert forall x :: Unsubmitted(t.b.(completions := c.completions), x) <==> Unsubmitted(t.b, x);
      if Any(s.b.sq, CarriesData(target)) || Any(s.b.pendingIo, CarriesData(target)) {
        assert forall x | Unsubmitted(t.b, x) :: Unsubmitted(c, x);
      }
    case CloseFd(fd) => CancelledMembers(s.b, UsesFd(fd), ECANCELED);
    case Drain => DrainedMembers(s.b);
    case Enter(k) =>
    case More(_, _) =>
    case Done(_, _) =>
    case Posted(_) =>
    case Reap => DispatchMembers(s.b, s.cq[0].userData, s.cq[0].more);
    case Detach =>
    case DispatchDeferred => DispatchMembers(s.b, s.batch[0].userData, false);
  }

  lemma DispatchMembers(b: Backend, tag: Tag, more: bool)
    requires !b.mayCancel ==> NoCancels(b)
    ensures var c := BeforeCallback(b, tag, more);
      && (forall x | Unsubmitted(c, x) :: Unsubmitted(b, x)) && (!c.mayCancel ==> NoCancels(c))
      && (NopsAreBlank(b.sq) ==> NopsAreBlank(c.sq)) && (NopsAreBlank(b.pendingIo) ==> NopsAreBlank(c.pendingIo))
      && (!more ==> forall x | Unsubmitted(c, x) :: !(x.op.AsyncCancel? && x.addr == tag))
  {
    if b.mayCancel && !more {
      var c := CancelsRetired(b, tag);
      CancelledMembers(b, CancelsTag(tag), ENOENT);
      RetiredCancels(b, tag);
      assert forall x :: Unsubmitted(c, x) <==> Unsubmitted(Cancelled(b, CancelsTag(tag), ENOENT), x);
    }
  }

  lemma StepKeeps(s: System, st: Step)
    requires Inv(s) && Enabled(s, st)
    ensures Inv(Apply(s, st))
  {
    forall o: Op
      ensures var t := Apply(s, st); Places(t, o) + InLog(t.delivered, o) == InLog(t.accepted, o)
    {
      StepConserves(s, st, o);
    }
    StepTrack(s, st);
    StepMembers(s, st);
    StepFits(s, st);
  }

  /** The ring is never overfilled, and its size is fixed. */
  lemma StepFits(s: System, st: Step)
    requires |s.b.sq| <= s.b.entries && Enabled(s, st)
    ensures Apply(s, st).b.entries == s.b.entries && |Apply(s, st).b.sq| <= s.b.entries
  {
    match st
    case Cancel(target, _) => NeutralisedAt(s.b.sq, CarriesData(target));
    case CloseFd(fd) => NeutralisedAt(s.b.sq, UsesFd(fd));
    case Reap => NeutralisedAt(s.b.sq, CancelsTag(s.cq[0].userData));
    case DispatchDeferred => NeutralisedAt(s.b.sq, CancelsTag(s.batch[0].userData));
    case _ =>
  }

  // ---------------------------------------------------------------- what a cancellation does

  /** A deferred completion of an entry, with the result given. */
  predicate Answered(b: Backend, x: Sqe, result: int) { Synthetic(x.id, x.userData, result) in b.completions }

  lemma {:induction false} RetiredMembers(s: seq<Sqe>, m: Sqe -> bool, result: int)
    ensures forall y :: y in Retired(s, m, result) <==>
      exists i :: 0 <= i < |s| && m(s[i]) && y == Synthetic(s[i].id, s[i].userData, result)
  {
    if s != [] {
      RetiredMembers(s[1..], m, result);
      forall y ensures y in Retired(s, m, result) <==>
        exists i :: 0 <= i < |s| && m(s[i]) && y == Synthetic(s[i].id, s[i].userData, result)
      {
        if y in Retired(s[1..], m, result) {
          var i :| 0 <= i < |s| - 1 && m(s[1..][i]) && y == Synthetic(s[1..][i].id, s[1..][i].userData, result);
          assert s[i + 1] == s[1..][i];
        }
        if i :| 0 < i < |s| && m(s[i]) && y == Synthetic(s[i].id, s[i].userData, result) {
          assert s[1..][i - 1] == s[i];
        }
      }
    }
  }

  /** Exactly the matching entries leave, each with a deferred completion of its own. */
  lemma CancelledEffect(b: Backend, m: Sqe -> bool, result: int)
    ensures forall x :: Unsubmitted(Cancelled(b, m, result), x) <==> Unsubmitted(b, x) && !m(x)
    ensures forall x | Unsubmitted(b, x) && m(x) :: Answered(Cancelled(b, m, result), x, result)
    ensures b.completions <= Cancelled(b, m, result).completions
  {
    CancelledMembers(b, m, result);
    RetiredMembers(b.sq, m, result);
    RetiredMembers(b.pendingIo, m, result);
    var c := Cancelled(b, m, result);
    forall x | Unsubmitted(b, x) && m(x) ensures Answered(c, x, result) {
      var y := Synthetic(x.id, x.userData, result);
      if x in b.sq {
        var i :| 0 <= i < |b.sq| && b.sq[i] == x;
        assert y in Retired(b.sq, m, result);
      } else {
        var i :| 0 <= i < |b.pendingIo| && b.pendingIo[i] == x;
        assert y in Retired(b.pendingIo, m, result);
      }
    }
  }

  /** A cancel takes an unsubmitted target back at once, which then completes as cancelled and the
      cancel as done; else the cancel itself goes to the kernel. Nothing else is affected. */
  lemma CancelTakesEffect(b: Backend, target: Tag, completion: Tag, id: nat)
    requires !target.CancelRequest? && NopsAreBlank(b.sq) && NopsAreBlank(b.pendingIo)
    ensures var c, cancel := CancelledByData(b, target, completion, id), Sqe(id, AsyncCancel, -1, false, target, completion);
      if exists x :: Unsubmitted(b, x) && x.userData == target then
        && (forall x :: Unsubmitted(c, x) <==> Unsubmitted(b, x) && x.userData != target)
        && (forall x | Unsubmitted(b, x) && x.userData == target :: Answered(c, x, ECANCELED))
        && Answered(c, cancel, 0)
      else
        && (forall x :: Unsubmitted(c, x) <==> Unsubmitted(b, x) || x == cancel)
        && c.completions == b.completions && c.mayCancel
    ensures b.completions <= CancelledByData(b, target, completion, id).completions
  {
    var m := CarriesData(target);
    CancelledEffect(b, m, ECANCELED);
    AnyUnsubmitted(b, m);
    var c, d := CancelledByData(b, target, completion, id), Cancelled(b, m, ECANCELED);
    if exists x :: Unsubmitted(b, x) && x.userData == target {
      assert forall x :: Unsubmitted(c, x) <==> Unsubmitted(d, x);
      assert c.completions[|d.completions|] == Synthetic(id, completion, 0);
      assert forall x, r | Answered(d, x, r) :: Answered(c, x, r);
    } else {
      AcceptedMembers(b, Sqe(id, AsyncCancel, -1, false, target, completion));
    }
  }

  predicate Ascending(r: seq<Synthetic>) { forall i, j | 0 <= i < j < |r| :: r[i].id < r[j].id }

  /** Deferred completions come in the order of the entries they answer. */
  lemma {:induction false} RetiredInOrder(s: seq<Sqe>, m: Sqe -> bool, result: int)
    requires forall i, j | 0 <= i < j < |s| && m(s[i]) && m(s[j]) :: s[i].id < s[j].id
    ensures Ascending(Retired(s, m, result))
  {
    if s != [] {
      var t := s[1..];
      assert forall i | 0 <= i < |t| :: t[i] == s[i + 1];
      RetiredInOrder(t, m, result);
      RetiredMembers(t, m, result);
      var rest := Retired(t, m, result);
      if m(s[0]) {
        forall j | 0 <= j < |rest| ensures s[0].id < rest[j].id {
          assert rest[j] in rest;
          var i :| 0 <= i < |t| && m(t[i]) && rest[j] == Synthetic(t[i].id, t[i].userData, result);
        }
        assert Retired(s, m, result) == [Synthetic(s[0].id, s[0].userData, result)] + rest;
      } else {
        assert Retired(s, m, result) == rest;
      }
    }
  }

  lemma AnyUnsubmitted(b: Backend, m: Sqe -> bool)
    requires NopsAreBlank(b.sq) && NopsAreBlank(b.pendingIo) && !m(NopEntry())
    ensures (Any(b.sq, m) || Any(b.pendingIo, m)) <==> exists x :: Unsubmitted(b, x) && m(x)
  {
    if Any(b.sq, m) { var i :| 0 <= i < |b.sq| && m(b.sq[i]); assert Unsubmitted(b, b.sq[i]); }
    if Any(b.pendingIo, m) { var i :| 0 <= i < |b.pendingIo| && m(b.pendingIo[i]); assert Unsubmitted(b, b.pendingIo[i]); }
    if x :| Unsubmitted(b, x) && m(x) {
      if x in b.sq { var i :| 0 <= i < |b.sq| && b.sq[i] == x; } else { var i :| 0 <= i < |b.pendingIo| && b.pendingIo[i] == x; }
    }
  }

  /** The operations that act on a socket through its plain descriptor. */
  predicate SocketUse(x: Sqe, fd: int) {
    x.fd == fd && !x.fixedFile && x.op in {Send, SendMsg, Recv, Accept, Connect, PollAdd}
  }

  /** Giving a descriptor up retires its unsubmitted socket operations, and nothing else. */
  lemma CloseTakesEffect(b: Backend, fd: int)
    ensures var c := Cancelled(b, UsesFd(fd), ECANCELED);
      && (forall x :: Unsubmitted(c, x) <==>
           Unsubmitted(b, x) && !SocketUse(x, fd))
      && (forall x | Unsubmitted(b, x) && !Unsubmitted(c, x) :: Answered(c, x, ECANCELED))
  {
    CancelledEffect(b, UsesFd(fd), ECANCELED);
  }

  // ---------------------------------------------------------------- every run

  predicate Init(s: System) {
    && s.b.sq == s.b.pendingIo == s.kernel == s.entered == [] && s.b.completions == s.batch == []
    && s.cq == [] && s.accepted == s.delivered == [] && !s.b.mayCancel
  }

  ghost predicate IsRun(run: seq<System>, steps: seq<Step>) {
    && |run| == |steps| + 1 && Init(run[0])
    && forall i {:trigger steps[i]} | 0 <= i < |steps| :: Enabled(run[i], steps[i]) && run[i + 1] == Apply(run[i], steps[i])
  }

  lemma {:induction false} RunKeeps(run: seq<System>, steps: seq<Step>, i: nat)
    requires IsRun(run, steps) && i < |run|
    ensures Inv(run[i])
  {
    if 0 < i {
      RunKeeps(run, steps, i - 1);
      StepKeeps(run[i - 1], steps[i - 1]);
    }
  }

  lemma {:induction false} AcceptedOnce(log: seq<Op>, first: nat, o: Op)
    requires forall i | 0 <= i < |log| :: log[i].id == first + i
    ensures InLog(log, o) == One(first <= o.id < first + |log| && log[o.id - first] == o)
  {
    if log != [] {
      AcceptedOnce(log[1..], first + 1, o);
    }
  }

  /** Exactly-once ownership: every accepted operation is in exactly one of the SQ, the software
      FIFO, the deferred completions, the kernel, the completion queue, the batch being dispatched
      or the delivered log; so it is delivered at most once, and is delivered once nobody holds it.
      Nothing that was not accepted is ever held or delivered. */
  lemma ExactlyOnce(run: seq<System>, steps: seq<Step>, i: nat, o: Op)
    requires IsRun(run, steps) && i < |run|
    ensures var s := run[i];
      InQueue(s.b.sq, o) + InQueue(s.b.pendingIo, o) + InDeferred(s.b.completions, o) + InQueue(s.kernel, o)
      + InTerminal(s.cq, o) + InDeferred(s.batch, o) + InLog(s.delivered, o)
      == One(o.id < |s.accepted| && s.accepted[o.id] == o)
  {
    RunKeeps(run, steps, i);
    AcceptedOnce(run[i].accepted, 0, o);
    assert Places(run[i], o) + InLog(run[i].delivered, o) == InLog(run[i].accepted, o);
  }

  /** Operations that reach the kernel reach it in acceptance order, and whatever still waits
      was accepted later. */
  lemma SubmissionOrder(run: seq<System>, steps: seq<Step>, i: nat)
    requires IsRun(run, steps) && i < |run|
    ensures Rising(run[i].entered)
    ensures forall j, x | 0 <= j < |run[i].entered| && !run[i].entered[j].op.Nop? && Unsubmitted(run[i].b, x) ::
      run[i].entered[j].id < x.id
  {
    RunKeeps(run, steps, i);
    var s, t := run[i], Track(run[i]);
    assert forall j | 0 <= j < |s.entered| :: s.entered[j] == t[j];
    forall j, x | 0 <= j < |s.entered| && !s.entered[j].op.Nop? && Unsubmitted(s.b, x)
      ensures s.entered[j].id < x.id
    {
      var q := s.b.sq + s.b.pendingIo;
      assert x in q;
      var k :| 0 <= k < |q| && q[k] == x;
      assert t == s.entered + q && t[|s.entered| + k] == x;
    }
  }

  /** From s on, only operations accepted since become unsubmitted or enter the kernel, apart from
      those already waiting. */
  ghost predicate Follows(s: System, t: System) {
    && s.accepted <= t.accepted && s.entered <= t.entered
    && (forall x | Unsubmitted(t.b, x) :: Unsubmitted(s.b, x) || |s.accepted| <= x.id)
    && (forall k | |s.entered| <= k < |t.entered| && !t.entered[k].op.Nop? ::
         Unsubmitted(s.b, t.entered[k]) || |s.accepted| <= t.entered[k].id)
  }

  lemma FollowsStep(s: System, st: Step)
    requires Inv(s) && Enabled(s, st)
    ensures Follows(s, Apply(s, st))
  {
    StepMembers(s, st);
    var t := Apply(s, st);
    forall k | |s.entered| <= k < |t.entered| && !t.entered[k].op.Nop? ensures Unsubmitted(s.b, t.entered[k]) {
      assert t.entered[k] == s.b.sq[k - |s.entered|];
    }
  }

  lemma FollowsSame(s: System)
    ensures Follows(s, s)
  {
  }

  lemma FollowsOn(s: System, t: System, u: System)
    requires Follows(s, t) && Follows(t, u)
    ensures Follows(s, u)
  {
    forall k | |s.entered| <= k < |u.entered| && !u.entered[k].op.Nop?
      ensures Unsubmitted(s.b, u.entered[k]) || |s.accepted| <= u.entered[k].id
    {
      if k < |t.entered| { assert t.entered[k] == u.entered[k]; }
    }
  }

  lemma {:induction false} NothingReappears(run: seq<System>, steps: seq<Step>, i: nat, j: nat)
    requires IsRun(run, steps) && i <= j < |run|
    ensures Follows(run[i], run[j])
    decreases j
  {
    if i < j {
      NothingReappears(run, steps, i, j - 1);
      RunKeeps(run, steps, j - 1);
      FollowsStep(run[j - 1], steps[j - 1]);
      FollowsOn(run[i], run[j - 1], run[j]);
    }
  }

  /** The tag whose terminal completion a step dispatches, if it dispatches one. */
  predicate DispatchesTerminal(s: System, st: Step, tag: Tag) {
    || (st.Reap? && s.cq != [] && !s.cq[0].more && s.cq[0].userData == tag)
    || (st.DispatchDeferred? && s.batch != [] && s.batch[0].userData == tag)
  }

  /** Dispatching a terminal completion retires every unsubmitted cancel aimed at its tag, so a
      cancel accepted before the dispatch can never strike a later operation that reuses the tag:
      any such cancel found waiting or entering the kernel afterwards was accepted afterwards. */
  lemma NoStaleCancel(run: seq<System>, steps: seq<Step>, i: nat, j: nat, tag: Tag)
    requires IsRun(run, steps) && i < |steps| && i + 1 <= j < |run|
    requires DispatchesTerminal(run[i], steps[i], tag)
    ensures forall x | Unsubmitted(run[i + 1].b, x) :: !(x.op.AsyncCancel? && x.addr == tag)
    ensures forall x | Unsubmitted(run[j].b, x) && x.op.AsyncCancel? && x.addr == tag :: |run[i].accepted| <= x.id
    ensures forall k | |run[i].entered| <= k < |run[j].entered| && run[j].entered[k].op.AsyncCancel?
                       && run[j].entered[k].addr == tag :: |run[i].accepted| <= run[j].entered[k].id
  {
    RunKeeps(run, steps, i);
    DispatchMembers(run[i].b, tag, false);
    NothingReappears(run, steps, i + 1, j);
    assert run[i + 1].entered == run[i].entered && run[i + 1].accepted == run[i].accepted;
  }

  /** After a descriptor is closed, no socket operation on it accepted before the close is
      waiting or can still reach the kernel, even if the descriptor number is reused. */
  lemma NoStaleDescriptor(run: seq<System>, steps: seq<Step>, i: nat, j: nat, fd: int)
    requires IsRun(run, steps) && i < |steps| && i + 1 <= j < |run| && steps[i] == CloseFd(fd)
    ensures forall x | Unsubmitted(run[j].b, x) && SocketUse(x, fd) :: |run[i].accepted| <= x.id
    ensures forall k | |run[i].entered| <= k < |run[j].entered| && SocketUse(run[j].entered[k], fd) ::
      |run[i].accepted| <= run[j].entered[k].id
  {
    CloseTakesEffect(run[i].b, fd);
    NothingReappears(run, steps, i + 1, j);
    assert run[i + 1].entered == run[i].entered && run[i + 1].accepted == run[i].accepted;
  }

  /** The ring is never overfilled, whatever the interleaving of submissions, drains and enters. */
  lemma {:induction false} RingFits(run: seq<System>, steps: seq<Step>, i: nat)
    requires IsRun(run, steps) && i < |run|
    ensures run[i].b.entries == run[0].b.entries && |run[i].b.sq| <= run[0].b.entries
  {
    if 0 < i {
      RingFits(run, steps, i - 1);
      StepFits(run[i - 1], steps[i - 1]);
    }
  }

  // ---------------------------------------------------------------- progress

  /** A drain followed by an enter that takes the whole ring. */
  function Round(s: System): System { var d := Apply(s, Drain); Apply(d, Enter(|d.b.sq|)) }

  function Rounds(s: System, n: nat): System
    decreases n
  {
    if n == 0 then s else Rounds(Round(s), n - 1)
  }

  lemma RoundMoves(s: System)
    ensures var t := Round(s);
      && t.b.sq == [] && |t.b.pendingIo| <= |s.b.pendingIo| && t.b.entries == s.b.entries
      && t.kernel + t.b.pendingIo == s.kernel + s.b.sq + s.b.pendingIo
      && t.entered + t.b.pendingIo == s.entered + s.b.sq + s.b.pendingIo
      && (s.b.sq == [] && s.b.pendingIo != [] && 0 < s.b.entries ==> |t.b.pendingIo| < |s.b.pendingIo|)
  {
    var k := Min(Room(s.b), |s.b.pendingIo|);
    assert s.b.pendingIo == s.b.pendingIo[..k] + s.b.pendingIo[k..];
    var d := Drained(s.b);
    assert d.sq[..|d.sq|] == d.sq && d.sq[|d.sq|..] == [];
    assert s.kernel + d.sq + d.pendingIo == s.kernel + s.b.sq + s.b.pendingIo;
    assert s.entered + d.sq + d.pendingIo == s.entered + s.b.sq + s.b.pendingIo;
  }

  lemma {:induction false} RoundsMove(s: System, n: nat)
    requires 0 < s.b.entries && s.b.sq == [] && |s.b.pendingIo| <= n
    ensures var t := Rounds(s, n);
      && t.b.sq == t.b.pendingIo == [] && t.kernel == s.kernel + s.b.pendingIo && t.entered == s.entered + s.b.pendingIo
    decreases n
  {
    if 0 < n {
      var t := Round(s);
      RoundMoves(s);
      assert s.kernel + s.b.sq == s.kernel && s.entered + s.b.sq == s.entered;
      RoundsMove(t, n - 1);
    }
  }

  /** Nothing waits for ever: however long the backlog, rounds of draining and entering hand every
      waiting entry to the kernel, in order. */
  lemma BacklogReachesKernel(s: System)
    requires 0 < s.b.entries
    ensures var t := Rounds(s, |s.b.pendingIo| + 1);
      && t.b.sq == t.b.pendingIo == []
      && t.kernel == s.kernel + s.b.sq + s.b.pendingIo && t.entered == s.entered + s.b.sq + s.b.pendingIo
  {
    RoundMoves(s);
    RoundsMove(Round(s), |s.b.pendingIo|);
  }

  function Dispatches(s: System, n: nat): System
    requires n <= |s.batch|
    decreases n
  {
    if n == 0 then s else Dispatches(Apply(s, DispatchDeferred), n - 1)
  }

  function OpsOf(batch: seq<Synthetic>): (ops: seq<Op>)
    ensures |ops| == |batch| && forall i | 0 <= i < |ops| :: ops[i] == Op(batch[i].id, batch[i].userData)
  {
    seq(|batch|, i requires 0 <= i < |batch| => Op(batch[i].id, batch[i].userData))
  }

  lemma {:induction false} DispatchesDeliver(s: System, n: nat)
    requires n <= |s.batch|
    ensures Dispatches(s, n).batch == s.batch[n..] && Dispatches(s, n).delivered == s.delivered + OpsOf(s.batch[..n])
    decreases n
  {
    if 0 < n {
      var t := Apply(s, DispatchDeferred);
      DispatchesDeliver(t, n - 1);
      assert t.batch[n - 1..] == s.batch[n..];
      assert OpsOf(s.batch[..n]) == [Op(s.batch[0].id, s.batch[0].userData)] + OpsOf(t.batch[..n - 1]);
    }
  }

  /** One poll delivers every completion that was deferred when it began, in order. */
  lemma DeferredAreDelivered(s: System)
    requires s.batch == []
    ensures var t := Apply(s, Detach);
      && |t.batch| == |s.b.completions|
      && Dispatches(t, |t.batch|).batch == []
      && Dispatches(t, |t.batch|).delivered == s.delivered + OpsOf(s.b.completions)
  {
    var t := Apply(s, Detach);
    DispatchesDeliver(t, |t.batch|);
    assert t.batch[..|t.batch|] == t.batch;
  }

  /** The skip is sound: while the flag is down no cancel waits unsubmitted. */
  lemma SkipIsSound(run: seq<System>, steps: seq<Step>, i: nat)
    requires IsRun(run, steps) && i < |run| && !run[i].b.mayCancel
    ensures NoCancels(run[i].b)
  {
    RunKeeps(run, steps, i);
  }
}
