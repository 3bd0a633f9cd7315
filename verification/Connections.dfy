/**
 Connection storage on one worker: which receives, polls and writes reference a Connection,
 how its in-flight count follows them, and when its storage may be reclaimed. Addresses are
 reused: a new connection may be placed where a reclaimed one lived.
 */
module Connections {
  import Io = IoUring

  /** The operation of a given kind outstanding for a connection. */
  datatype Slot = Free | Busy(id: nat)

  datatype State = Active | Closing | Draining | Retired

  /** The operations that reference a connection, with the flags and the count that track them. */
  datatype Ops = Ops(recvArmed: bool, pollArmed: bool, writeInflight: bool, inflight: nat,
                     recvOp: Slot, pollOp: Slot, writeOp: Slot)

  datatype Reader = Reader(waiter: bool, inflight: bool, buffers: nat, borrows: nat,
                           eof: bool, paused: bool, needsRearm: bool)

  datatype Life = Life(state: State, closing: bool, closed: bool, retired: bool, fd: int)

  datatype Conn = Conn(multishot: bool, pollCancelRequested: bool, ops: Ops, reader: Reader, life: Life)

  datatype Worker = Worker(io: Io.System, conns: map<nat, Conn>, rearm: seq<nat>, polling: bool)

  datatype Step =
    | Other(st: Io.Step)
    | Add(a: nat, fd: int, multishot: bool)
    | StartRecv(a: nat)
    | StartPoll(a: nat)
    | StartWrite(a: nat)
    | CancelRecv(a: nat, completion: nat)
    | BeginClose(a: nat, peerClosed: bool)
    | Touch(a: nat, c: Conn)
    | BeginPoll
    | Dispatch(st: Io.Step, hasBuffer: bool)
    | Rearm
    | EndPoll
    | Reclaim(a: nat)

  predicate ConnTag(tag: Io.Tag) { tag.RecvTag? || tag.PollTag? || tag.WriteTag? }

  function SlotOf(ops: Ops, tag: Io.Tag): Slot
    requires ConnTag(tag)
  {
    if tag.RecvTag? then ops.recvOp else if tag.PollTag? then ops.pollOp else ops.writeOp
  }

  // ---------------------------------------------------------------- connection operations

  function NewConn(fd: int, multishot: bool): Conn {
    Conn(multishot, false, Ops(false, false, false, 0, Free, Free, Free),
         Reader(false, false, 0, 0, false, false, false), Life(Active, false, false, false, fd))
  }

  predicate MayArm(c: Conn) {
    && !c.ops.recvArmed && !c.life.closed && !c.life.closing && !c.reader.paused
    && (c.multishot || c.reader.buffers == 0)
  }

  predicate MayWrite(c: Conn) {
    c.life.state.Active? && !c.life.closed && !c.life.closing && !c.ops.writeInflight
  }

  predicate MayPoll(c: Conn) { !c.ops.pollArmed && !c.life.closed && !c.life.closing }

  predicate CanReclaim(c: Conn) {
    && !c.life.state.Active? && c.ops.inflight == 0 && c.reader.borrows == 0 && !c.reader.waiter
    && !c.reader.inflight && !c.ops.writeInflight && !c.ops.recvArmed && c.reader.buffers == 0
  }

  function RecvSqe(w: Worker, a: nat): Io.Sqe
    requires a in w.conns
  {
    Io.Sqe(|w.io.accepted|, Io.Recv, w.conns[a].life.fd, false, Io.CancelRequest, Io.RecvTag(a))
  }

  function PollSqe(w: Worker, a: nat): Io.Sqe
    requires a in w.conns
  {
    Io.Sqe(|w.io.accepted|, Io.PollAdd, w.conns[a].life.fd, false, Io.CancelRequest, Io.PollTag(a))
  }

  function WriteSqe(w: Worker, a: nat): Io.Sqe
    requires a in w.conns
  {
    Io.Sqe(|w.io.accepted|, Io.Send, w.conns[a].life.fd, false, Io.CancelRequest, Io.WriteTag(a))
  }

  function RecvStarted(ops: Ops, id: nat): Ops {
    ops.(recvArmed := true, inflight := ops.inflight + 1, recvOp := Busy(id))
  }

  function PollStarted(ops: Ops, id: nat): Ops {
    ops.(pollArmed := true, inflight := ops.inflight + 1, pollOp := Busy(id))
  }

  function WriteStarted(ops: Ops, id: nat): Ops {
    ops.(writeInflight := true, inflight := ops.inflight + 1, writeOp := Busy(id))
  }

  function Fewer(inflight: nat): nat { if inflight > 0 then inflight - 1 else 0 }

  function RecvDone(ops: Ops): Ops {
    ops.(recvArmed := false, recvOp := Free, inflight := Fewer(ops.inflight))
  }

  function PollDone(ops: Ops): Ops {
    ops.(pollArmed := false, pollOp := Free, inflight := Fewer(ops.inflight))
  }

  function WriteDone(ops: Ops): Ops {
    ops.(writeInflight := false, writeOp := Free, inflight := Fewer(ops.inflight))
  }

  /** StartRecvMultishot: idempotent, and refused while the connection cannot be armed. */
  function ArmRecv(w: Worker, a: nat): Worker
    requires a in w.conns
  {
    if !MayArm(w.conns[a]) then w
    else w.(io := Io.Apply(w.io, Io.Submit(RecvSqe(w, a))),
            conns := w.conns[a := w.conns[a].(ops := RecvStarted(w.conns[a].ops, |w.io.accepted|))])
  }

  function ArmPoll(w: Worker, a: nat): Worker
    requires a in w.conns
  {
    if !MayPoll(w.conns[a]) then w
    else w.(io := Io.Apply(w.io, Io.Submit(PollSqe(w, a))),
            conns := w.conns[a := w.conns[a].(ops := PollStarted(w.conns[a].ops, |w.io.accepted|),
                                              pollCancelRequested := false)])
  }

  function Write(w: Worker, a: nat): Worker
    requires a in w.conns
  {
    if !MayWrite(w.conns[a]) then w
    else w.(io := Io.Apply(w.io, Io.Submit(WriteSqe(w, a))),
            conns := w.conns[a := w.conns[a].(ops := WriteStarted(w.conns[a].ops, |w.io.accepted|))])
  }

  function CancelPollOf(w: Worker, a: nat): Worker
    requires a in w.conns
  {
    var c := w.conns[a];
    if !c.ops.pollArmed || c.pollCancelRequested then w
    else w.(io := Io.Apply(w.io, Io.Cancel(Io.PollTag(a), Io.PeerDisconnectCancel)),
            conns := w.conns[a := c.(pollCancelRequested := true)])
  }

  function CancelRecvOf(w: Worker, a: nat, completion: Io.Tag): Worker
    requires a in w.conns
  {
    if !w.conns[a].ops.recvArmed then w
    else w.(io := Io.Apply(w.io, Io.Cancel(Io.RecvTag(a), completion)))
  }

  /** Retire what the kernel has not seen yet, then give the descriptor up. */
  function CloseFdOf(w: Worker, a: nat): Worker
    requires a in w.conns
  {
    var c := w.conns[a];
    var v := w.(conns := w.conns[a := c.(life := c.life.(fd := -1, closed := true))]);
    if c.life.fd < 0 then v else v.(io := Io.Apply(w.io, Io.CloseFd(c.life.fd)))
  }

  function RetireReader(r: Reader, peerClosed: bool): Reader {
    r.(waiter := false, inflight := if r.waiter then false else r.inflight, eof := r.eof && peerClosed)
  }

  predicate StillBusy(ops: Ops, r: Reader) {
    ops.recvArmed || ops.inflight != 0 || r.inflight || ops.writeInflight || r.buffers != 0
  }

  function RetireConn(c: Conn, peerClosed: bool): Conn {
    var r := RetireReader(c.reader, peerClosed);
    if c.life.retired then c.(reader := r, life := c.life.(state := Closing, closing := true))
    else
      var state := if StillBusy(c.ops, r) then Draining else Retired;
      c.(reader := r.(buffers := 0), life := c.life.(state := state, closing := true, retired := true))
  }

  function Close(w: Worker, a: nat, peerClosed: bool): Worker
    requires a in w.conns
  {
    if w.conns[a].life.state.Retired? then w
    else
      var v := CloseFdOf(CancelRecvOf(CancelPollOf(w, a), a, Io.CancelRequest), a);
      v.(conns := v.conns[a := RetireConn(v.conns[a], peerClosed)])
  }

  predicate Usable(c: Conn) {
    c.life.state.Active? && !c.life.closed && !c.life.closing && !c.reader.eof && !c.reader.paused
  }

  predicate MustRearm(c: Conn) { c.multishot && Usable(c) }

  /** What a receive completion hands to the reader. */
  function OnData(r: Reader, multishot: bool, result: int, hasBuffer: bool): Reader {
    var data := result > 0 && (hasBuffer || !multishot);
    var wakes := r.waiter && (result >= 0 || (result != Io.ECANCELED && result != ENOBUFS));
    r.(buffers := if data then r.buffers + 1 else r.buffers, eof := r.eof || result == 0,
       waiter := r.waiter && !wakes, inflight := r.inflight && !wakes)
  }

  /** HandleMultishotRecv on a terminal completion, up to the re-arm decision. */
  function OnLastRecv(c: Conn, result: int, hasBuffer: bool): Conn {
    var d := c.(ops := RecvDone(c.ops), reader := OnData(c.reader, c.multishot, result, hasBuffer));
    if !d.life.state.Active? then d.(life := d.life.(state := Draining)) else d
  }

  const ENOBUFS := -105

  function NeedingRearm(c: Conn): Conn { c.(reader := c.reader.(needsRearm := true)) }

  /** The connection after the terminal completion of one of its operations. */
  function Finished(c: Conn, tag: Io.Tag, result: int, hasBuffer: bool): Conn
    requires ConnTag(tag)
  {
    if tag.RecvTag? then OnLastRecv(c, result, hasBuffer)
    else if tag.PollTag? then c.(ops := PollDone(c.ops), pollCancelRequested := false)
    else c.(ops := WriteDone(c.ops))
  }

  /** One completion reaches its handler. */
  function Handle(w: Worker, tag: Io.Tag, more: bool, result: int, hasBuffer: bool): Worker {
    if !ConnTag(tag) || tag.connection !in w.conns then w
    else
      var a := tag.connection;
      var c := w.conns[a];
      if tag.RecvTag? && more
      then w.(conns := w.conns[a := c.(reader := OnData(c.reader, c.multishot, result, hasBuffer))])
      else
        var d := Finished(c, tag, result, hasBuffer);
        if tag.RecvTag? && MustRearm(d) && !d.reader.needsRearm
        then w.(conns := w.conns[a := NeedingRearm(d)], rearm := w.rearm + [a])
        else w.(conns := w.conns[a := d])
  }

  /** The connection a step's handler dereferences, if any. */
  predicate Dereferences(io: Io.System, st: Io.Step, a: nat) {
    || (st.Reap? && io.cq != [] && !io.cq[0].nop && ConnTag(io.cq[0].userData) && io.cq[0].userData.connection == a)
    || (st.DispatchDeferred? && io.batch != [] && ConnTag(io.batch[0].userData) && io.batch[0].userData.connection == a)
  }

  predicate Enabled(w: Worker, st: Step) {
    match st
    case Other(st) =>
      && Io.Enabled(w.io, st) && !st.Reap? && !st.DispatchDeferred?
      && (st.Submit? ==> !ConnTag(st.x.userData))
      && (st.Cancel? ==> !ConnTag(st.target) && !ConnTag(st.completion))
      // Only multishot receives and accepts answer with F_MORE.
      && (st.More? ==> w.io.kernel[st.index].userData.RecvTag? || !ConnTag(w.io.kernel[st.index].userData))
      && (st.Detach? ==> w.polling)
    case Add(a, fd, _) => a !in w.conns && 0 <= fd
    case StartRecv(a) => a in w.conns
    case StartPoll(a) => a in w.conns
    case StartWrite(a) => a in w.conns
    case CancelRecv(a, _) => a in w.conns
    case BeginClose(a, _) => a in w.conns
    case Touch(a, c) =>
      && a in w.conns && c.ops == w.conns[a].ops && c.pollCancelRequested == w.conns[a].pollCancelRequested
      && c.reader.needsRearm == w.conns[a].reader.needsRearm
    case BeginPoll => !w.polling
    case Dispatch(st, _) => w.polling && Io.Enabled(w.io, st) && (st.Reap? || st.DispatchDeferred?)
    case Rearm => w.polling && w.rearm != [] && w.rearm[0] in w.conns
    case EndPoll => w.polling && w.rearm == [] && w.io.batch == []
    case Reclaim(a) => !w.polling && a in w.conns && w.conns[a].life.retired && CanReclaim(w.conns[a])
  }

  function Apply(w: Worker, st: Step): Worker
    requires Enabled(w, st)
  {
    match st
    case Other(st) => w.(io := Io.Apply(w.io, st))
    case Add(a, fd, multishot) => w.(conns := w.conns[a := NewConn(fd, multishot)])
    case StartRecv(a) => ArmRecv(w, a)
    case StartPoll(a) => ArmPoll(w, a)
    case StartWrite(a) => Write(w, a)
    case CancelRecv(a, completion) => CancelRecvOf(w, a, Io.OpTag(completion))
    case BeginClose(a, peerClosed) => Close(w, a, peerClosed)
    case Touch(a, c) => w.(conns := w.conns[a := c])
    case BeginPoll => w.(polling := true)
    case Dispatch(st, hasBuffer) =>
      var v := w.(io := Io.Apply(w.io, st));
      if st.Reap? then
        if w.io.cq[0].nop then v
        else Handle(v, w.io.cq[0].userData, w.io.cq[0].more, w.io.cq[0].result, hasBuffer)
      else Handle(v, w.io.batch[0].userData, false, w.io.batch[0].result, hasBuffer)
    case Rearm =>
      var a := w.rearm[0];
      var c := w.conns[a].(reader := w.conns[a].reader.(needsRearm := false));
      var v := w.(rearm := w.rearm[1..], conns := w.conns[a := c]);
      if Usable(c) then ArmRecv(v, a) else v
    case EndPoll => w.(polling := false)
    case Reclaim(a) => w.(conns := w.conns - {a})
  }

  // ---------------------------------------------------------------- the invariant

  predicate OpsOk(c: Ops) {
    && c.inflight == Io.One(c.recvArmed) + Io.One(c.pollArmed) + Io.One(c.writeInflight)
    && c.recvArmed == c.recvOp.Busy? && c.pollArmed == c.pollOp.Busy? && c.writeInflight == c.writeOp.Busy?
  }

  /** The operations that have been accepted and not yet delivered. */
  ghost function Outstanding(io: Io.System): iset<Io.Op> { iset o: Io.Op | 0 < Io.Places(io, o) }

  /** The tags that unsubmitted cancels aim at. */
  ghost function Targets(b: Io.Backend): iset<Io.Tag> {
    iset x: Io.Sqe | Io.Unsubmitted(b, x) && x.op.AsyncCancel? :: x.addr
  }

  /** Every outstanding connection operation belongs to a live connection that expects it. */
  ghost predicate Held(out: iset<Io.Op>, conns: map<nat, Conn>) {
    forall o | o in out && ConnTag(o.tag) ::
      o.tag.connection in conns && SlotOf(conns[o.tag.connection].ops, o.tag) == Busy(o.id)
  }

  /** Every operation a connection expects is outstanding. */
  ghost predicate Backed(out: iset<Io.Op>, conns: map<nat, Conn>) {
    forall o: Io.Op | ConnTag(o.tag) && o.tag.connection in conns
      && SlotOf(conns[o.tag.connection].ops, o.tag) == Busy(o.id) :: o in out
  }

  /** An unsubmitted cancel aims at a connection operation only while that is outstanding. */
  ghost predicate Aimed(targets: iset<Io.Tag>, conns: map<nat, Conn>) {
    forall tag | tag in targets && ConnTag(tag) ::
      tag.connection in conns && SlotOf(conns[tag.connection].ops, tag).Busy?
  }

  /** The connection table agrees with what is outstanding. */
  ghost predicate Linked(out: iset<Io.Op>, targets: iset<Io.Tag>, conns: map<nat, Conn>) {
    && (forall a | a in conns :: OpsOk(conns[a].ops))
    && Held(out, conns) && Backed(out, conns) && Aimed(targets, conns)
  }

  function OpOf(c: Io.Cqe): Io.Op { Io.Op(c.id, c.userData) }

  /** An F_MORE completion is followed by its operation's terminal one, now or later. */
  predicate MoreBackedAt(kernel: seq<Io.Sqe>, cq: seq<Io.Cqe>, i: nat)
    requires i < |cq|
  {
    && 0 < Io.InQueue(kernel, OpOf(cq[i])) + Io.InTerminal(cq[i..], OpOf(cq[i]))
    && !cq[i].nop && !cq[i].userData.PollTag? && !cq[i].userData.WriteTag?
  }

  ghost predicate MoreBacked(io: Io.System) {
    forall i | 0 <= i < |io.cq| && io.cq[i].more :: MoreBackedAt(io.kernel, io.cq, i)
  }

  ghost predicate RearmOk(w: Worker) {
    (forall i | 0 <= i < |w.rearm| :: w.rearm[i] in w.conns) && (!w.polling ==> w.rearm == [])
  }

  ghost predicate Inv(w: Worker) {
    Io.Inv(w.io) && Linked(Outstanding(w.io), Targets(w.io.b), w.conns) && MoreBacked(w.io) && RearmOk(w)
  }

  // ---------------------------------------------------------------- what every step keeps

  lemma PlacesBound(io: Io.System, o: Io.Op)
    requires Io.Inv(io)
    ensures Io.Places(io, o) <= Io.One(o.id < |io.accepted| && io.accepted[o.id] == o)
  {
    Io.AcceptedOnce(io.accepted, 0, o);
    assert Io.Places(io, o) + Io.InLog(io.delivered, o) == Io.InLog(io.accepted, o);
  }

  lemma {:induction false} QueueHas(s: seq<Io.Sqe>, i: nat)
    requires i < |s| && !s[i].op.Nop?
    ensures 0 < Io.InQueue(s, Io.Op(s[i].id, s[i].userData))
  {
    if 0 < i { QueueHas(s[1..], i - 1); }
  }

  /** A completion stays backed when another one is posted, also by its own operation. */
  lemma MorePosted(kernel: seq<Io.Sqe>, kernel': seq<Io.Sqe>, cq: seq<Io.Cqe>, c: Io.Cqe, i: nat)
    requires i < |cq| && MoreBackedAt(kernel, cq, i)
    requires Io.InQueue(kernel, OpOf(cq[i])) <= Io.InQueue(kernel', OpOf(cq[i])) + Io.InTerminal([c], OpOf(cq[i]))
    ensures MoreBackedAt(kernel', cq + [c], i)
  {
    assert (cq + [c])[i..] == cq[i..] + [c];
    Io.TerminalAppend(cq[i..], [c], OpOf(cq[i]));
  }

  lemma MoreStep(io: Io.System, st: Io.Step)
    requires MoreBacked(io) && Io.Enabled(io, st)
    requires st.More? ==> !io.kernel[st.index].userData.PollTag? && !io.kernel[st.index].userData.WriteTag?
    ensures MoreBacked(Io.Apply(io, st))
  {
    var t := Io.Apply(io, st);
    forall i | 0 <= i < |t.cq| && t.cq[i].more ensures MoreBackedAt(t.kernel, t.cq, i) {
      match st
      case Enter(k) => Io.QueueAppend(io.kernel, io.b.sq[..k], OpOf(t.cq[i]));
      case More(k, _) =>
        if i < |io.cq| { MorePosted(io.kernel, t.kernel, io.cq, t.cq[|io.cq|], i); } else { QueueHas(io.kernel, k); }
      case Done(k, _) =>
        Io.QueueRemove(io.kernel, k, OpOf(t.cq[i]));
        MorePosted(io.kernel, t.kernel, io.cq, t.cq[|io.cq|], i);
      case Posted(_) => MorePosted(io.kernel, t.kernel, io.cq, t.cq[|io.cq|], i);
      case Reap => assert t.cq[i..] == io.cq[i + 1..];
      case _ => assert t.cq == io.cq && t.kernel == io.kernel;
    }
  }

  /** Cancel targets change only by the target of a cancel step. */
  lemma TargetsStep(io: Io.System, st: Io.Step)
    requires Io.Inv(io) && Io.Enabled(io, st)
    ensures forall tag | tag in Targets(Io.Apply(io, st).b) :: tag in Targets(io.b) || (st.Cancel? && tag == st.target)
  {
    Io.StepMembers(io, st);
  }

  lemma OutstandingStep(io: Io.System, st: Io.Step)
    requires Io.Inv(io) && Io.Enabled(io, st)
    ensures forall o: Io.Op | o !in Outstanding(io) && !Io.Accepts(io, st, o) :: o !in Outstanding(Io.Apply(io, st))
    ensures forall o: Io.Op | Io.Accepts(io, st, o) :: o in Outstanding(Io.Apply(io, st)) && o !in Outstanding(io)
    ensures forall o: Io.Op | Io.Delivers(io, st, o) :: o in Outstanding(io) && o !in Outstanding(Io.Apply(io, st))
    ensures forall o: Io.Op | o in Outstanding(io) && !Io.Delivers(io, st, o) :: o in Outstanding(Io.Apply(io, st))
  {
    var t := Io.Apply(io, st);
    forall o: Io.Op
      ensures Io.Places(t, o) == Io.Places(io, o) + Io.One(Io.Accepts(io, st, o)) - Io.One(Io.Delivers(io, st, o))
      ensures Io.Places(io, o) <= 1 && (Io.Accepts(io, st, o) ==> Io.Places(io, o) == 0)
    {
      Io.PlacesChange(io, st, o);
      PlacesBound(io, o);
    }
  }

  /** Neither the connections nor what is outstanding for them changes. */
  lemma LinkedNeutral(out: iset<Io.Op>, out': iset<Io.Op>, targets: iset<Io.Tag>, targets': iset<Io.Tag>,
                      conns: map<nat, Conn>)
    requires Linked(out, targets, conns)
    requires forall o: Io.Op | ConnTag(o.tag) :: o in out <==> o in out'
    requires forall tag | tag in targets' && ConnTag(tag) && tag !in targets ::
      tag.connection in conns && SlotOf(conns[tag.connection].ops, tag).Busy?
    ensures Linked(out', targets', conns)
  {
  }

  /** A connection starts expecting an operation, or stops expecting it. */
  predicate Switches(c: Ops, d: Ops, tag: Io.Tag, before: Slot, after: Slot)
    requires ConnTag(tag)
  {
    && SlotOf(c, tag) == before && SlotOf(d, tag) == after && OpsOk(d)
    && (!tag.RecvTag? ==> d.recvOp == c.recvOp) && (!tag.PollTag? ==> d.pollOp == c.pollOp)
    && (!tag.WriteTag? ==> d.writeOp == c.writeOp)
  }

  lemma LinkedArm(out: iset<Io.Op>, out': iset<Io.Op>, targets: iset<Io.Tag>, targets': iset<Io.Tag>,
                  conns: map<nat, Conn>, d: Conn, o: Io.Op)
    requires Linked(out, targets, conns) && ConnTag(o.tag) && o.tag.connection in conns
    requires Switches(conns[o.tag.connection].ops, d.ops, o.tag, Free, Busy(o.id))
    requires o in out' && forall q: Io.Op | q != o :: q in out <==> q in out'
    requires forall tag | tag in targets' :: tag in targets
    ensures Linked(out', targets', conns[o.tag.connection := d])
  {
  }

  lemma LinkedDisarm(out: iset<Io.Op>, out': iset<Io.Op>, targets: iset<Io.Tag>, targets': iset<Io.Tag>,
                     conns: map<nat, Conn>, d: Conn, o: Io.Op)
    requires Linked(out, targets, conns) && ConnTag(o.tag) && o.tag.connection in conns
    requires Switches(conns[o.tag.connection].ops, d.ops, o.tag, Busy(o.id), Free)
    requires o !in out' && forall q: Io.Op | q != o :: q in out <==> q in out'
    requires forall tag | tag in targets' :: tag in targets && tag != o.tag
    ensures Linked(out', targets', conns[o.tag.connection := d])
  {
  }

  lemma LinkedFields(out: iset<Io.Op>, targets: iset<Io.Tag>, conns: map<nat, Conn>, a: nat, c: Conn)
    requires Linked(out, targets, conns) && a in conns && c.ops == conns[a].ops
    ensures Linked(out, targets, conns[a := c])
  {
  }

  /** A step of the backend that accepts and delivers no connection operation. */
  lemma NeutralKeeps(w: Worker, st: Io.Step)
    requires Inv(w) && Io.Enabled(w.io, st)
    requires forall o: Io.Op | ConnTag(o.tag) :: !Io.Accepts(w.io, st, o) && !Io.Delivers(w.io, st, o)
    requires st.Cancel? && ConnTag(st.target) ==>
      st.target.connection in w.conns && SlotOf(w.conns[st.target.connection].ops, st.target).Busy?
    requires st.More? ==> !w.io.kernel[st.index].userData.PollTag? && !w.io.kernel[st.index].userData.WriteTag?
    ensures Inv(w.(io := Io.Apply(w.io, st)))
  {
    var t := Io.Apply(w.io, st);
    OutstandingStep(w.io, st);
    TargetsStep(w.io, st);
    MoreStep(w.io, st);
    Io.StepKeeps(w.io, st);
    LinkedNeutral(Outstanding(w.io), Outstanding(t), Targets(w.io.b), Targets(t.b), w.conns);
  }

  lemma FieldsKeep(w: Worker, a: nat, c: Conn)
    requires Inv(w) && a in w.conns && c.ops == w.conns[a].ops
    ensures Inv(w.(conns := w.conns[a := c]))
  {
    LinkedFields(Outstanding(w.io), Targets(w.io.b), w.conns, a, c);
  }

  lemma ArmKeeps(w: Worker, a: nat, x: Io.Sqe, d: Conn)
    requires Inv(w) && a in w.conns && Io.Enabled(w.io, Io.Submit(x))
    requires ConnTag(x.userData) && x.userData.connection == a
    requires Switches(w.conns[a].ops, d.ops, x.userData, Free, Busy(x.id))
    ensures Inv(w.(io := Io.Apply(w.io, Io.Submit(x)), conns := w.conns[a := d]))
  {
    var st := Io.Submit(x);
    var t := Io.Apply(w.io, st);
    OutstandingStep(w.io, st);
    TargetsStep(w.io, st);
    MoreStep(w.io, st);
    Io.StepKeeps(w.io, st);
    LinkedArm(Outstanding(w.io), Outstanding(t), Targets(w.io.b), Targets(t.b), w.conns, d, Io.Op(x.id, x.userData));
  }

  lemma ArmRecvKeeps(w: Worker, a: nat)
    requires Inv(w) && a in w.conns
    ensures Inv(ArmRecv(w, a))
  {
    if MayArm(w.conns[a]) {
      assert OpsOk(w.conns[a].ops);
      ArmKeeps(w, a, RecvSqe(w, a), ArmRecv(w, a).conns[a]);
    }
  }

  lemma ArmPollKeeps(w: Worker, a: nat)
    requires Inv(w) && a in w.conns
    ensures Inv(ArmPoll(w, a))
  {
    if MayPoll(w.conns[a]) {
      assert OpsOk(w.conns[a].ops);
      ArmKeeps(w, a, PollSqe(w, a), ArmPoll(w, a).conns[a]);
    }
  }

  lemma WriteKeeps(w: Worker, a: nat)
    requires Inv(w) && a in w.conns
    ensures Inv(Write(w, a))
  {
    if MayWrite(w.conns[a]) {
      assert OpsOk(w.conns[a].ops);
      ArmKeeps(w, a, WriteSqe(w, a), Write(w, a).conns[a]);
    }
  }

  lemma CancelPollKeeps(w: Worker, a: nat)
    requires Inv(w) && a in w.conns
    ensures Inv(CancelPollOf(w, a)) && a in CancelPollOf(w, a).conns
  {
    var c := w.conns[a];
    if c.ops.pollArmed && !c.pollCancelRequested {
      assert OpsOk(c.ops);
      var st := Io.Cancel(Io.PollTag(a), Io.PeerDisconnectCancel);
      NeutralKeeps(w, st);
      FieldsKeep(w.(io := Io.Apply(w.io, st)), a, c.(pollCancelRequested := true));
    }
  }

  lemma CancelRecvKeeps(w: Worker, a: nat, completion: Io.Tag)
    requires Inv(w) && a in w.conns && !ConnTag(completion)
    ensures Inv(CancelRecvOf(w, a, completion)) && a in CancelRecvOf(w, a, completion).conns
  {
    if w.conns[a].ops.recvArmed {
      assert OpsOk(w.conns[a].ops);
      NeutralKeeps(w, Io.Cancel(Io.RecvTag(a), completion));
    }
  }

  lemma CloseFdKeeps(w: Worker, a: nat)
    requires Inv(w) && a in w.conns
    ensures Inv(CloseFdOf(w, a)) && a in CloseFdOf(w, a).conns
  {
    var c := w.conns[a];
    var d := c.(life := c.life.(fd := -1, closed := true));
    FieldsKeep(w, a, d);
    if 0 <= c.life.fd {
      NeutralKeeps(w.(conns := w.conns[a := d]), Io.CloseFd(c.life.fd));
    }
  }

  lemma CloseKeeps(w: Worker, a: nat, peerClosed: bool)
    requires Inv(w) && a in w.conns
    ensures Inv(Close(w, a, peerClosed))
  {
    if !w.conns[a].life.state.Retired? {
      var p := CancelPollOf(w, a);
      CancelPollKeeps(w, a);
      var r := CancelRecvOf(p, a, Io.CancelRequest);
      CancelRecvKeeps(p, a, Io.CancelRequest);
      var v := CloseFdOf(r, a);
      CloseFdKeeps(r, a);
      FieldsKeep(v, a, RetireConn(v.conns[a], peerClosed));
    }
  }

  /** Some operation that refers to the connection has been accepted and not yet delivered. */
  ghost predicate Referenced(io: Io.System, a: nat) {
    exists o: Io.Op :: o in Outstanding(io) && ConnTag(o.tag) && o.tag.connection == a
  }

  lemma InflightMeansReferenced(w: Worker, a: nat)
    requires Inv(w) && a in w.conns
    ensures w.conns[a].ops.inflight != 0 <==> Referenced(w.io, a)
  {
    var c := w.conns[a].ops;
    assert OpsOk(c);
    if c.recvArmed { assert Io.Op(c.recvOp.id, Io.RecvTag(a)) in Outstanding(w.io); }
    if c.pollArmed { assert Io.Op(c.pollOp.id, Io.PollTag(a)) in Outstanding(w.io); }
    if c.writeInflight { assert Io.Op(c.writeOp.id, Io.WriteTag(a)) in Outstanding(w.io); }
  }

  /** Data is there, or a receive, poll or write may still be started. */
  predicate MayContinue(c: Conn) { c.reader.buffers != 0 || MayArm(c) || MayPoll(c) || MayWrite(c) }

  lemma RetiredConn(c: Conn, peerClosed: bool)
    requires OpsOk(c.ops) && !c.life.retired
    ensures var d, r := RetireConn(c, peerClosed), c.reader;
      var idle := c.ops.inflight == 0 && r.buffers == 0 && (r.inflight ==> r.waiter);
      && d.life.state == (if idle then Retired else Draining)
      && d.life.retired && !d.reader.waiter && !MayContinue(d) && d.ops == c.ops
      && d.reader.eof == (r.eof && peerClosed)
  {
  }

  /** What closing does to the connection before its fields are retired. */
  lemma Disconnected(w: Worker, a: nat, peerClosed: bool) returns (c: Conn)
    requires a in w.conns && !w.conns[a].life.state.Retired?
    ensures a in Close(w, a, peerClosed).conns && Close(w, a, peerClosed).conns[a] == RetireConn(c, peerClosed)
    ensures c.ops == w.conns[a].ops && c.reader == w.conns[a].reader && c.life.retired == w.conns[a].life.retired
  {
    var p := CancelPollOf(w, a);
    var r := CancelRecvOf(p, a, Io.CancelRequest);
    assert a in p.conns && p.conns[a].(pollCancelRequested := false) == w.conns[a].(pollCancelRequested := false);
    assert r.conns == p.conns;
    c := CloseFdOf(r, a).conns[a];
  }

  /** Closing wakes a reader, and calls the connection retired at once only if no operation refers
      to it, nothing was left unread and no read is under way; otherwise it drains. */
  lemma DrainsWhileReferenced(w: Worker, a: nat, peerClosed: bool)
    requires Inv(w) && a in w.conns && !w.conns[a].life.state.Retired? && !w.conns[a].life.retired
    ensures a in Close(w, a, peerClosed).conns
    ensures var v, r := Close(w, a, peerClosed), w.conns[a].reader;
      var idle := !Referenced(v.io, a) && r.buffers == 0 && (r.inflight ==> r.waiter);
      && v.conns[a].life.state == (if idle then Retired else Draining)
      && v.conns[a].life.retired && !v.conns[a].reader.waiter && !MayContinue(v.conns[a])
      && v.conns[a].reader.eof == (r.eof && peerClosed)
  {
    CloseKeeps(w, a, peerClosed);
    var c := Disconnected(w, a, peerClosed);
    assert OpsOk(w.conns[a].ops);
    RetiredConn(c, peerClosed);
    InflightMeansReferenced(Close(w, a, peerClosed), a);
  }

  /** Closing once more changes nothing but the state, and what the reader may still expect. */
  lemma ClosedAgain(w: Worker, a: nat, peerClosed: bool)
    requires a in w.conns && !w.conns[a].life.state.Retired? && w.conns[a].life.retired
    ensures a in Close(w, a, peerClosed).conns
    ensures var c, d := w.conns[a], Close(w, a, peerClosed).conns[a];
      && d.life.state == Closing && d.life.closing && d.life.retired && d.ops == c.ops
      && d.reader.buffers == c.reader.buffers && !d.reader.waiter && d.reader.eof == (c.reader.eof && peerClosed)
  {
    var c := Disconnected(w, a, peerClosed);
  }

  /** Storage can be reclaimed exactly if the connection is not active, no operation refers to it and
      its reader has neither data nor a read nor a borrowed buffer left. */
  lemma ReclaimableIffIdle(w: Worker, a: nat)
    requires Inv(w) && a in w.conns
    ensures var c := w.conns[a];
      CanReclaim(c) <==>
        && c.life.state != Active && !Referenced(w.io, a)
        && c.reader.buffers == 0 && c.reader.borrows == 0 && !c.reader.waiter && !c.reader.inflight
  {
    InflightMeansReferenced(w, a);
    assert OpsOk(w.conns[a].ops);
  }

  lemma DeliverKeeps(w: Worker, st: Io.Step, o: Io.Op, d: Conn)
    requires Inv(w) && Io.Enabled(w.io, st) && ConnTag(o.tag) && Io.Delivers(w.io, st, o)
    requires o.tag.connection in w.conns
    requires Switches(w.conns[o.tag.connection].ops, d.ops, o.tag, Busy(o.id), Free)
    ensures Inv(w.(io := Io.Apply(w.io, st), conns := w.conns[o.tag.connection := d]))
  {
    var t := Io.Apply(w.io, st);
    OutstandingStep(w.io, st);
    TargetsStep(w.io, st);
    MoreStep(w.io, st);
    Io.StepKeeps(w.io, st);
    Io.DispatchMembers(w.io.b, o.tag, false);
    assert o.tag !in Targets(t.b);
    LinkedDisarm(Outstanding(w.io), Outstanding(t), Targets(w.io.b), Targets(t.b), w.conns, d, o);
  }

  /** What a completion that is about to be dispatched says about its connection. */
  lemma DispatchTarget(w: Worker, st: Io.Step, o: Io.Op)
    requires Inv(w) && Io.Enabled(w.io, st) && ConnTag(o.tag) && Io.Delivers(w.io, st, o)
    ensures o.tag.connection in w.conns && SlotOf(w.conns[o.tag.connection].ops, o.tag) == Busy(o.id)
  {
    OutstandingStep(w.io, st);
  }

  lemma MoreTarget(w: Worker)
    requires Inv(w) && w.io.cq != [] && w.io.cq[0].more && ConnTag(w.io.cq[0].userData)
    ensures w.io.cq[0].userData.RecvTag? && !w.io.cq[0].nop
    ensures w.io.cq[0].userData.connection in w.conns
  {
    var o := OpOf(w.io.cq[0]);
    assert w.io.cq[0..] == w.io.cq;
    assert 0 < Io.Places(w.io, o);
    assert o in Outstanding(w.io);
  }

  lemma RearmPushed(w: Worker, a: nat)
    requires Inv(w) && w.polling && a in w.conns
    ensures Inv(w.(conns := w.conns[a := NeedingRearm(w.conns[a])], rearm := w.rearm + [a]))
  {
    FieldsKeep(w, a, NeedingRearm(w.conns[a]));
  }

  lemma FinishedSwitches(c: Conn, o: Io.Op, result: int, hasBuffer: bool)
    requires ConnTag(o.tag) && OpsOk(c.ops) && SlotOf(c.ops, o.tag) == Busy(o.id)
    ensures Switches(c.ops, Finished(c, o.tag, result, hasBuffer).ops, o.tag, Busy(o.id), Free)
  {
  }

  lemma FinishKeeps(w: Worker, st: Io.Step, o: Io.Op, result: int, hasBuffer: bool)
    requires Inv(w) && Io.Enabled(w.io, st) && ConnTag(o.tag) && Io.Delivers(w.io, st, o)
    ensures o.tag.connection in w.conns
    ensures var a := o.tag.connection;
      Inv(w.(io := Io.Apply(w.io, st), conns := w.conns[a := Finished(w.conns[a], o.tag, result, hasBuffer)]))
  {
    DispatchTarget(w, st, o);
    var c := w.conns[o.tag.connection];
    FinishedSwitches(c, o, result, hasBuffer);
    DeliverKeeps(w, st, o, Finished(c, o.tag, result, hasBuffer));
  }

  lemma SetTwice(conns: map<nat, Conn>, a: nat, c: Conn, d: Conn)
    ensures conns[a := c][a := d] == conns[a := d]
  {
  }

  lemma HandleTerminal(w: Worker, st: Io.Step, o: Io.Op, result: int, hasBuffer: bool)
    requires Inv(w) && w.polling && Io.Enabled(w.io, st) && ConnTag(o.tag) && Io.Delivers(w.io, st, o)
    ensures Inv(Handle(w.(io := Io.Apply(w.io, st)), o.tag, false, result, hasBuffer))
  {
    FinishKeeps(w, st, o, result, hasBuffer);
    var a := o.tag.connection;
    var d := Finished(w.conns[a], o.tag, result, hasBuffer);
    var u := w.(io := Io.Apply(w.io, st), conns := w.conns[a := d]);
    var h := Handle(w.(io := Io.Apply(w.io, st)), o.tag, false, result, hasBuffer);
    if o.tag.RecvTag? && MustRearm(d) && !d.reader.needsRearm {
      RearmPushed(u, a);
      SetTwice(w.conns, a, d, NeedingRearm(d));
    } else {
      assert h == u;
    }
  }

  lemma HandleMore(w: Worker, hasBuffer: bool)
    requires Inv(w) && w.io.cq != [] && w.io.cq[0].more && ConnTag(w.io.cq[0].userData)
    ensures var c := w.io.cq[0];
      Inv(Handle(w.(io := Io.Apply(w.io, Io.Reap)), c.userData, true, c.result, hasBuffer))
  {
    MoreTarget(w);
    NeutralKeeps(w, Io.Reap);
    var v := w.(io := Io.Apply(w.io, Io.Reap));
    var a := w.io.cq[0].userData.connection;
    var c := v.conns[a];
    FieldsKeep(v, a, c.(reader := OnData(c.reader, c.multishot, w.io.cq[0].result, hasBuffer)));
  }

  lemma HandleForeign(w: Worker, st: Io.Step, tag: Io.Tag, more: bool, result: int, hasBuffer: bool)
    requires Inv(w) && Io.Enabled(w.io, st) && !ConnTag(tag) && (st.Reap? || st.DispatchDeferred?)
    requires st.Reap? ==> tag == w.io.cq[0].userData
    requires st.DispatchDeferred? ==> tag == w.io.batch[0].userData
    ensures Inv(Handle(w.(io := Io.Apply(w.io, st)), tag, more, result, hasBuffer))
  {
    NeutralKeeps(w, st);
    assert Handle(w.(io := Io.Apply(w.io, st)), tag, more, result, hasBuffer) == w.(io := Io.Apply(w.io, st));
  }

  lemma DispatchKeeps(w: Worker, st: Io.Step, hasBuffer: bool)
    requires Inv(w) && Enabled(w, Dispatch(st, hasBuffer))
    ensures Inv(Apply(w, Dispatch(st, hasBuffer)))
  {
    if st.Reap? {
      var c := w.io.cq[0];
      if c.nop {
        NeutralKeeps(w, st);
      } else if !ConnTag(c.userData) {
        HandleForeign(w, st, c.userData, c.more, c.result, hasBuffer);
      } else if c.more {
        HandleMore(w, hasBuffer);
      } else {
        HandleTerminal(w, st, OpOf(c), c.result, hasBuffer);
      }
    } else {
      var c := w.io.batch[0];
      if !ConnTag(c.userData) {
        HandleForeign(w, st, c.userData, false, c.result, hasBuffer);
      } else {
        HandleTerminal(w, st, Io.Op(c.id, c.userData), c.result, hasBuffer);
      }
    }
  }

  lemma RearmKeeps(w: Worker)
    requires Inv(w) && Enabled(w, Rearm)
    ensures Inv(Apply(w, Rearm))
  {
    var a := w.rearm[0];
    var c := w.conns[a].(reader := w.conns[a].reader.(needsRearm := false));
    FieldsKeep(w, a, c);
    var v := w.(rearm := w.rearm[1..], conns := w.conns[a := c]);
    assert Inv(v);
    ArmRecvKeeps(v, a);
  }

  /** A fresh connection, possibly at a reused address, is referenced by nothing. */
  lemma LinkedAdd(out: iset<Io.Op>, targets: iset<Io.Tag>, conns: map<nat, Conn>, a: nat, c: Conn)
    requires Linked(out, targets, conns) && a !in conns && c.ops == Ops(false, false, false, 0, Free, Free, Free)
    ensures Linked(out, targets, conns[a := c])
  {
  }

  lemma LinkedRemove(out: iset<Io.Op>, targets: iset<Io.Tag>, conns: map<nat, Conn>, a: nat)
    requires Linked(out, targets, conns) && a in conns && conns[a].ops.inflight == 0
    ensures Linked(out, targets, conns - {a})
    ensures forall o | o in out && ConnTag(o.tag) :: o.tag.connection != a
    ensures forall tag | tag in targets && ConnTag(tag) :: tag.connection != a
  {
    assert OpsOk(conns[a].ops);
  }

  lemma StepKeeps(w: Worker, st: Step)
    requires Inv(w) && Enabled(w, st)
    ensures Inv(Apply(w, st))
  {
    match st
    case Other(st) => NeutralKeeps(w, st);
    case Add(a, fd, multishot) =>
      LinkedAdd(Outstanding(w.io), Targets(w.io.b), w.conns, a, NewConn(fd, multishot));
    case StartRecv(a) => ArmRecvKeeps(w, a);
    case StartPoll(a) => ArmPollKeeps(w, a);
    case StartWrite(a) => WriteKeeps(w, a);
    case CancelRecv(a, completion) => CancelRecvKeeps(w, a, Io.OpTag(completion));
    case BeginClose(a, peerClosed) => CloseKeeps(w, a, peerClosed);
    case Touch(a, c) => FieldsKeep(w, a, c);
    case BeginPoll =>
    case Dispatch(st, hasBuffer) => DispatchKeeps(w, st, hasBuffer);
    case Rearm => RearmKeeps(w);
    case EndPoll =>
    case Reclaim(a) => LinkedRemove(Outstanding(w.io), Targets(w.io.b), w.conns, a);
  }

  // ---------------------------------------------------------------- whole runs

  ghost predicate Init(w: Worker) { Io.Init(w.io) && w.conns == map[] && w.rearm == [] && !w.polling }

  ghost predicate IsRun(run: seq<Worker>, steps: seq<Step>) {
    && |run| == |steps| + 1 && Init(run[0])
    && forall i {:trigger steps[i]} | 0 <= i < |steps| :: Enabled(run[i], steps[i]) && run[i + 1] == Apply(run[i], steps[i])
  }

  lemma InitInv(w: Worker)
    requires Init(w)
    ensures Inv(w)
  {
    assert forall o :: o !in Outstanding(w.io);
    assert forall tag :: tag !in Targets(w.io.b);
  }

  lemma {:induction false} RunKeeps(run: seq<Worker>, steps: seq<Step>, k: nat)
    requires IsRun(run, steps) && k < |run|
    ensures Inv(run[k])
  {
    if k == 0 {
      InitInv(run[0]);
    } else {
      RunKeeps(run, steps, k - 1);
      StepKeeps(run[k - 1], steps[k - 1]);
    }
  }

  /** The outstanding operations tied to the connection at address a. */
  ghost function Tied(w: Worker, a: nat): set<Io.Op> {
    set o | o in w.io.accepted && 0 < Io.Places(w.io, o) && ConnTag(o.tag) && o.tag.connection == a
  }

  function Expected(s: Slot, tag: Io.Tag): set<Io.Op> { if s.Busy? then {Io.Op(s.id, tag)} else {} }

  function ExpectedOps(c: Ops, a: nat): set<Io.Op> {
    Expected(c.recvOp, Io.RecvTag(a)) + Expected(c.pollOp, Io.PollTag(a)) + Expected(c.writeOp, Io.WriteTag(a))
  }

  lemma ExpectedIs(c: Ops, a: nat, o: Io.Op)
    ensures o in ExpectedOps(c, a) <==> ConnTag(o.tag) && o.tag.connection == a && SlotOf(c, o.tag) == Busy(o.id)
  {
  }

  lemma ExpectedSize(c: Ops, a: nat)
    requires OpsOk(c)
    ensures |ExpectedOps(c, a)| == c.inflight
  {
    var r, p := Expected(c.recvOp, Io.RecvTag(a)), Expected(c.pollOp, Io.PollTag(a));
    var x := Expected(c.writeOp, Io.WriteTag(a));
    assert |r + p + x| == |r| + |p| + |x|;
  }

  lemma TiedIsExpected(w: Worker, a: nat)
    requires Inv(w) && a in w.conns
    ensures Tied(w, a) == ExpectedOps(w.conns[a].ops, a)
  {
    forall o: Io.Op ensures o in Tied(w, a) <==> o in ExpectedOps(w.conns[a].ops, a) {
      PlacesBound(w.io, o);
      ExpectedIs(w.conns[a].ops, a, o);
      assert o in Outstanding(w.io) <==> 0 < Io.Places(w.io, o);
    }
  }

  /** In every reachable state the in-flight count of a connection is the number of receives,
      polls and writes that are queued, in the kernel or completed but not dispatched. */
  lemma InflightIsExact(run: seq<Worker>, steps: seq<Step>, k: nat, a: nat)
    requires IsRun(run, steps) && k < |run| && a in run[k].conns
    ensures run[k].conns[a].ops.inflight == |Tied(run[k], a)|
    ensures forall o | o in Tied(run[k], a) :: Io.Places(run[k].io, o) == 1
  {
    RunKeeps(run, steps, k);
    TiedIsExpected(run[k], a);
    ExpectedSize(run[k].conns[a].ops, a);
    forall o | o in Tied(run[k], a) ensures Io.Places(run[k].io, o) == 1 { PlacesBound(run[k].io, o); }
  }

  /** Every completion is handled by the connection that started the operation, never by a
      reclaimed one nor by a later one at the same address; so is every queued re-arm. */
  lemma NoUseAfterReclaim(run: seq<Worker>, steps: seq<Step>, k: nat, a: nat)
    requires IsRun(run, steps) && k < |steps|
    requires steps[k].Dispatch? && Dereferences(run[k].io, steps[k].st, a)
    ensures a in run[k].conns
    ensures var io := run[k].io;
      var o := if steps[k].st.Reap? then OpOf(io.cq[0]) else Io.Op(io.batch[0].id, io.batch[0].userData);
      SlotOf(run[k].conns[a].ops, o.tag) == Busy(o.id)
  {
    RunKeeps(run, steps, k);
    var w, st := run[k], steps[k].st;
    if st.Reap? && w.io.cq[0].more {
      MoreTarget(w);
    } else if st.Reap? {
      DispatchTarget(w, st, OpOf(w.io.cq[0]));
    } else {
      DispatchTarget(w, st, Io.Op(w.io.batch[0].id, w.io.batch[0].userData));
    }
  }

  lemma RearmQueueIsLive(run: seq<Worker>, steps: seq<Step>, k: nat, i: nat)
    requires IsRun(run, steps) && k < |run| && i < |run[k].rearm|
    ensures run[k].rearm[i] in run[k].conns && run[k].polling
  {
    RunKeeps(run, steps, k);
  }

  lemma {:induction false} TerminalHas(s: seq<Io.Cqe>, i: nat)
    requires i < |s| && !s[i].more && !s[i].nop
    ensures 0 < Io.InTerminal(s, OpOf(s[i]))
  {
    if 0 < i { TerminalHas(s[1..], i - 1); }
  }

  lemma {:induction false} TerminalTail(s: seq<Io.Cqe>, i: nat, o: Io.Op)
    requires i <= |s|
    ensures Io.InTerminal(s[i..], o) <= Io.InTerminal(s, o)
  {
    if 0 < i {
      TerminalTail(s[1..], i - 1, o);
      assert s[1..][i - 1..] == s[i..];
    } else {
      assert s[i..] == s;
    }
  }

  /** When storage is reclaimed nothing refers to it: no queued entry, kernel operation,
      completion or deferred completion, no unsubmitted cancel, no re-arm and no borrow. */
  lemma ReclaimIsSafe(run: seq<Worker>, steps: seq<Step>, k: nat, a: nat)
    requires IsRun(run, steps) && k < |steps| && steps[k] == Reclaim(a)
    ensures var w := run[k];
      && (forall o: Io.Op | ConnTag(o.tag) && o.tag.connection == a :: Io.Places(w.io, o) == 0)
      && (forall i | 0 <= i < |w.io.cq| && ConnTag(w.io.cq[i].userData) && !w.io.cq[i].nop ::
           w.io.cq[i].userData.connection != a)
      && (forall x | Io.Unsubmitted(w.io.b, x) && x.op.AsyncCancel? && ConnTag(x.addr) :: x.addr.connection != a)
      && a !in w.rearm && w.conns[a].reader.borrows == 0 && w.conns[a].reader.buffers == 0
  {
    RunKeeps(run, steps, k);
    var w := run[k];
    LinkedRemove(Outstanding(w.io), Targets(w.io.b), w.conns, a);
    forall o: Io.Op | ConnTag(o.tag) && o.tag.connection == a ensures Io.Places(w.io, o) == 0 {
      assert o !in Outstanding(w.io);
    }
    forall i | 0 <= i < |w.io.cq| && ConnTag(w.io.cq[i].userData) && !w.io.cq[i].nop
      ensures w.io.cq[i].userData.connection != a
    {
      var o := OpOf(w.io.cq[i]);
      if w.io.cq[i].more {
        TerminalTail(w.io.cq, i, o);
      } else {
        TerminalHas(w.io.cq, i);
      }
      assert 0 < Io.Places(w.io, o);
    }
    forall x | Io.Unsubmitted(w.io.b, x) && x.op.AsyncCancel? && ConnTag(x.addr) ensures x.addr.connection != a {
      assert x.addr in Targets(w.io.b);
    }
  }

  // ---------------------------------------------------------------- what closing takes back

  /** An operation was retired before the kernel saw it, or a cancel aimed at it was accepted since. */
  ghost predicate TakenBack(io: Io.System, o: Io.Op, completion: Io.Tag, since: nat) {
    || Io.Synthetic(o.id, o.tag, Io.ECANCELED) in io.b.completions
    || exists id: nat :: since <= id && Io.Unsubmitted(io.b, Io.Sqe(id, Io.AsyncCancel, -1, false, o.tag, completion))
  }

  lemma UnsubmittedIsOutstanding(io: Io.System, x: Io.Sqe)
    requires Io.Unsubmitted(io.b, x)
    ensures Io.Op(x.id, x.userData) in Outstanding(io)
  {
    if x in io.b.sq {
      var i :| 0 <= i < |io.b.sq| && io.b.sq[i] == x;
      QueueHas(io.b.sq, i);
    } else {
      var i :| 0 <= i < |io.b.pendingIo| && io.b.pendingIo[i] == x;
      QueueHas(io.b.pendingIo, i);
    }
  }

  /** A cancel takes its connection's operation back. */
  lemma CancelTakesBack(w: Worker, o: Io.Op, completion: Io.Tag)
    requires Inv(w) && ConnTag(o.tag) && o.tag.connection in w.conns
    requires SlotOf(w.conns[o.tag.connection].ops, o.tag) == Busy(o.id)
    ensures TakenBack(Io.Apply(w.io, Io.Cancel(o.tag, completion)), o, completion, |w.io.accepted|)
  {
    var io := w.io;
    Io.CancelTakesEffect(io.b, o.tag, completion, |io.accepted|);
    if x :| Io.Unsubmitted(io.b, x) && x.userData == o.tag {
      UnsubmittedIsOutstanding(io, x);
      assert x.id == o.id;
    } else {
      var t := Io.Apply(io, Io.Cancel(o.tag, completion));
      assert Io.Unsubmitted(t.b, Io.Sqe(|io.accepted|, Io.AsyncCancel, -1, false, o.tag, completion));
    }
  }

  /** Cancelling something else and closing do not undo that. */
  lemma TakenBackStays(io: Io.System, st: Io.Step, o: Io.Op, completion: Io.Tag, since: nat)
    requires Io.Inv(io) && Io.Enabled(io, st) && TakenBack(io, o, completion, since)
    requires st.CloseFd? || (st.Cancel? && ConnTag(st.target) && !ConnTag(completion))
    ensures TakenBack(Io.Apply(io, st), o, completion, since)
  {
    if st.CloseFd? {
      Io.CloseTakesEffect(io.b, st.fd);
    } else {
      Io.CancelTakesEffect(io.b, st.target, st.completion, |io.accepted|);
    }
    var t := Io.Apply(io, st);
    if Io.Synthetic(o.id, o.tag, Io.ECANCELED) !in io.b.completions {
      var id: nat :| since <= id && Io.Unsubmitted(io.b, Io.Sqe(id, Io.AsyncCancel, -1, false, o.tag, completion));
      assert Io.Unsubmitted(t.b, Io.Sqe(id, Io.AsyncCancel, -1, false, o.tag, completion));
    }
  }

  /** What a close owes the descriptor and the operations of its connection: no socket operation on
      the descriptor waits any more, and an armed receive or poll is taken back. */
  ghost predicate Released(before: Worker, after: Worker, a: nat)
    requires a in before.conns
  {
    var c, since := before.conns[a], |before.io.accepted|;
    && (0 <= c.life.fd ==> forall x | Io.Unsubmitted(after.io.b, x) :: !Io.SocketUse(x, c.life.fd))
    && (c.ops.recvOp.Busy? ==> TakenBack(after.io, Io.Op(c.ops.recvOp.id, Io.RecvTag(a)), Io.CancelRequest, since))
    && (c.ops.pollOp.Busy? && !c.pollCancelRequested ==>
         TakenBack(after.io, Io.Op(c.ops.pollOp.id, Io.PollTag(a)), Io.PeerDisconnectCancel, since))
  }

  lemma PollTakenBack(w: Worker, a: nat)
    requires Inv(w) && a in w.conns && w.conns[a].ops.pollOp.Busy? && !w.conns[a].pollCancelRequested
    ensures TakenBack(CancelPollOf(w, a).io, Io.Op(w.conns[a].ops.pollOp.id, Io.PollTag(a)), Io.PeerDisconnectCancel,
                      |w.io.accepted|)
  {
    assert OpsOk(w.conns[a].ops);
    CancelTakesBack(w, Io.Op(w.conns[a].ops.pollOp.id, Io.PollTag(a)), Io.PeerDisconnectCancel);
  }

  /** The backend's part of a close. */
  lemma CloseIo(w: Worker, a: nat, peerClosed: bool)
    requires a in w.conns && !w.conns[a].life.state.Retired?
    ensures var p := CancelPollOf(w, a);
      && a in p.conns && p.conns[a].ops == w.conns[a].ops && w.io.accepted <= p.io.accepted
      && Close(w, a, peerClosed).io == ClosedIo(CancelRecvOf(p, a, Io.CancelRequest).io, w.conns[a].life.fd)
  {
  }

  lemma CloseReleases(w: Worker, a: nat, peerClosed: bool)
    requires Inv(w) && a in w.conns && !w.conns[a].life.state.Retired?
    ensures Released(w, Close(w, a, peerClosed), a)
  {
    var c, p := w.conns[a], CancelPollOf(w, a);
    assert OpsOk(c.ops);
    CloseIo(w, a, peerClosed);
    CancelPollKeeps(w, a);
    if c.ops.recvArmed { RecvTakenBack(p, a, |w.io.accepted|, c.life.fd); }
    if c.ops.pollArmed && !c.pollCancelRequested {
      PollTakenBack(w, a);
      PollStaysBack(p, a, Io.Op(c.ops.pollOp.id, Io.PollTag(a)), |w.io.accepted|, c.life.fd);
    }
    if 0 <= c.life.fd { Io.CloseTakesEffect(CancelRecvOf(p, a, Io.CancelRequest).io.b, c.life.fd); }
  }

  function ClosedIo(io: Io.System, fd: int): Io.System { if fd < 0 then io else Io.Apply(io, Io.CloseFd(fd)) }

  lemma RecvTakenBack(p: Worker, a: nat, since: nat, fd: int)
    requires Inv(p) && a in p.conns && p.conns[a].ops.recvArmed && since <= |p.io.accepted|
    ensures p.conns[a].ops.recvOp.Busy?
    ensures TakenBack(ClosedIo(CancelRecvOf(p, a, Io.CancelRequest).io, fd),
                      Io.Op(p.conns[a].ops.recvOp.id, Io.RecvTag(a)), Io.CancelRequest, since)
  {
    assert OpsOk(p.conns[a].ops);
    var o, r := Io.Op(p.conns[a].ops.recvOp.id, Io.RecvTag(a)), CancelRecvOf(p, a, Io.CancelRequest);
    CancelTakesBack(p, o, Io.CancelRequest);
    CancelRecvKeeps(p, a, Io.CancelRequest);
    assert TakenBack(r.io, o, Io.CancelRequest, since);
    if 0 <= fd { TakenBackStays(r.io, Io.CloseFd(fd), o, Io.CancelRequest, since); }
  }

  lemma PollStaysBack(p: Worker, a: nat, o: Io.Op, since: nat, fd: int)
    requires Inv(p) && a in p.conns && TakenBack(p.io, o, Io.PeerDisconnectCancel, since)
    ensures TakenBack(ClosedIo(CancelRecvOf(p, a, Io.CancelRequest).io, fd), o, Io.PeerDisconnectCancel, since)
  {
    var r := CancelRecvOf(p, a, Io.CancelRequest);
    CancelRecvKeeps(p, a, Io.CancelRequest);
    if p.conns[a].ops.recvArmed {
      TakenBackStays(p.io, Io.Cancel(Io.RecvTag(a), Io.CancelRequest), o, Io.PeerDisconnectCancel, since);
    }
    if 0 <= fd { TakenBackStays(r.io, Io.CloseFd(fd), o, Io.PeerDisconnectCancel, since); }
  }

  lemma CloseFollows(w: Worker, a: nat, peerClosed: bool)
    requires Inv(w) && a in w.conns
    ensures Io.Follows(w.io, Close(w, a, peerClosed).io) && Close(w, a, peerClosed).io.entered == w.io.entered
  {
    if !w.conns[a].life.state.Retired? {
      var p := CancelPollOf(w, a);
      var r := CancelRecvOf(p, a, Io.CancelRequest);
      CloseIo(w, a, peerClosed);
      CancelPollKeeps(w, a);
      CancelRecvKeeps(p, a, Io.CancelRequest);
      Io.FollowsSame(w.io);
      if p.io != w.io { Io.FollowsStep(w.io, Io.Cancel(Io.PollTag(a), Io.PeerDisconnectCancel)); }
      if r.io != p.io {
        Io.FollowsStep(p.io, Io.Cancel(Io.RecvTag(a), Io.CancelRequest));
        Io.FollowsOn(w.io, p.io, r.io);
      }
      var fd := w.conns[a].life.fd;
      if 0 <= fd {
        Io.FollowsStep(r.io, Io.CloseFd(fd));
        Io.FollowsOn(w.io, r.io, ClosedIo(r.io, fd));
      }
    }
  }

  lemma StepFollows(w: Worker, st: Step)
    requires Inv(w) && Enabled(w, st)
    ensures Io.Follows(w.io, Apply(w, st).io)
  {
    Io.FollowsSame(w.io);
    match st
    case Other(st) => Io.FollowsStep(w.io, st);
    case StartRecv(a) => if MayArm(w.conns[a]) { Io.FollowsStep(w.io, Io.Submit(RecvSqe(w, a))); }
    case StartPoll(a) => if MayPoll(w.conns[a]) { Io.FollowsStep(w.io, Io.Submit(PollSqe(w, a))); }
    case StartWrite(a) => if MayWrite(w.conns[a]) { Io.FollowsStep(w.io, Io.Submit(WriteSqe(w, a))); }
    case CancelRecv(a, completion) =>
      if w.conns[a].ops.recvArmed { Io.FollowsStep(w.io, Io.Cancel(Io.RecvTag(a), Io.OpTag(completion))); }
    case BeginClose(a, peerClosed) => CloseFollows(w, a, peerClosed);
    case Dispatch(st, _) => Io.FollowsStep(w.io, st);
    case Rearm =>
      var a := w.rearm[0];
      var c := w.conns[a].(reader := w.conns[a].reader.(needsRearm := false));
      var v := w.(rearm := w.rearm[1..], conns := w.conns[a := c]);
      if Usable(c) && MayArm(c) { Io.FollowsStep(w.io, Io.Submit(RecvSqe(v, a))); }
    case _ =>
  }

  lemma {:induction false} RunFollows(run: seq<Worker>, steps: seq<Step>, i: nat, j: nat)
    requires IsRun(run, steps) && i <= j < |run|
    ensures Io.Follows(run[i].io, run[j].io)
    decreases j
  {
    if i == j {
      Io.FollowsSame(run[i].io);
    } else {
      RunFollows(run, steps, i, j - 1);
      RunKeeps(run, steps, j - 1);
      StepFollows(run[j - 1], steps[j - 1]);
      Io.FollowsOn(run[i].io, run[j - 1].io, run[j].io);
    }
  }

  /** After a connection is closed, no socket operation on its descriptor that was accepted before
      waits or ever enters the kernel, though the descriptor number may be reused; and what was
      armed for it is taken back. */
  lemma ClosedDescriptorIsQuiet(run: seq<Worker>, steps: seq<Step>, i: nat, j: nat)
    requires IsRun(run, steps) && i < |steps| && i < j < |run| && steps[i].BeginClose?
    requires !run[i].conns[steps[i].a].life.state.Retired? && 0 <= run[i].conns[steps[i].a].life.fd
    ensures var fd, since := run[i].conns[steps[i].a].life.fd, |run[i].io.accepted|;
      && (forall x | Io.Unsubmitted(run[j].io.b, x) && Io.SocketUse(x, fd) :: since <= x.id)
      && (forall k | |run[i].io.entered| <= k < |run[j].io.entered| && Io.SocketUse(run[j].io.entered[k], fd) ::
           since <= run[j].io.entered[k].id)
    ensures Released(run[i], run[i + 1], steps[i].a)
  {
    RunKeeps(run, steps, i);
    CloseReleases(run[i], steps[i].a, steps[i].peerClosed);
    CloseFollows(run[i], steps[i].a, steps[i].peerClosed);
    RunFollows(run, steps, i + 1, j);
  }

  // ---------------------------------------------------------------- cancelled polls

  /** A poll marked as cancelled has indeed been asked to stop: such a cancel was accepted after it. */
  ghost predicate PollOk(c: Conn, accepted: seq<Io.Op>) {
    c.ops.pollOp.Busy? && c.pollCancelRequested ==>
      exists id :: c.ops.pollOp.id < id < |accepted| && accepted[id].tag == Io.PeerDisconnectCancel
  }

  ghost predicate PollsOk(w: Worker) { forall a | a in w.conns :: PollOk(w.conns[a], w.io.accepted) }

  /** No poll changes, except that one may start anew or end. */
  ghost predicate PollsKept(w: Worker, v: Worker) {
    && w.io.accepted <= v.io.accepted
    && forall a | a in v.conns :: v.conns[a].pollCancelRequested ==>
         a in w.conns && w.conns[a].pollCancelRequested && w.conns[a].ops.pollOp == v.conns[a].ops.pollOp
  }

  lemma KeptPollsOk(w: Worker, v: Worker)
    requires PollsOk(w) && PollsKept(w, v)
    ensures PollsOk(v)
  {
    forall a | a in v.conns ensures PollOk(v.conns[a], v.io.accepted) {
      if v.conns[a].pollCancelRequested && v.conns[a].ops.pollOp.Busy? {
        assert PollOk(w.conns[a], w.io.accepted);
        var id :| w.conns[a].ops.pollOp.id < id < |w.io.accepted| && w.io.accepted[id].tag == Io.PeerDisconnectCancel;
        assert v.io.accepted[id] == w.io.accepted[id];
      }
    }
  }

  lemma CancelledPollOk(w: Worker, a: nat)
    requires Inv(w) && PollsOk(w) && a in w.conns
    ensures PollsOk(CancelPollOf(w, a))
  {
    var c, p := w.conns[a], CancelPollOf(w, a);
    if c.ops.pollArmed && !c.pollCancelRequested {
      assert OpsOk(c.ops);
      var o := Io.Op(c.ops.pollOp.id, Io.PollTag(a));
      assert o in Outstanding(w.io);
      PlacesBound(w.io, o);
      assert p.io.accepted[|w.io.accepted|].tag == Io.PeerDisconnectCancel;
      assert PollOk(p.conns[a], p.io.accepted);
      KeptPollsOk(w, p.(conns := w.conns));
    }
  }

  lemma HandlePolls(w: Worker, tag: Io.Tag, more: bool, result: int, hasBuffer: bool)
    ensures PollsKept(w, Handle(w, tag, more, result, hasBuffer))
  {
  }

  lemma DispatchPolls(w: Worker, st: Io.Step, hasBuffer: bool)
    requires Enabled(w, Dispatch(st, hasBuffer))
    ensures PollsKept(w, Apply(w, Dispatch(st, hasBuffer)))
  {
    var v := w.(io := Io.Apply(w.io, st));
    if st.Reap? {
      HandlePolls(v, w.io.cq[0].userData, w.io.cq[0].more, w.io.cq[0].result, hasBuffer);
    } else {
      HandlePolls(v, w.io.batch[0].userData, false, w.io.batch[0].result, hasBuffer);
    }
  }

  lemma CancelRecvPolls(w: Worker, a: nat)
    requires a in w.conns
    ensures PollsKept(w, CancelRecvOf(w, a, Io.CancelRequest)) && a in CancelRecvOf(w, a, Io.CancelRequest).conns
  {
  }

  lemma CloseFdPolls(w: Worker, a: nat)
    requires a in w.conns
    ensures PollsKept(w, CloseFdOf(w, a)) && a in CloseFdOf(w, a).conns
  {
  }

  lemma RetirePolls(w: Worker, a: nat, peerClosed: bool)
    requires a in w.conns
    ensures PollsKept(w, w.(conns := w.conns[a := RetireConn(w.conns[a], peerClosed)]))
  {
  }

  lemma ClosePolls(w: Worker, a: nat, peerClosed: bool)
    requires Inv(w) && PollsOk(w) && a in w.conns && !w.conns[a].life.state.Retired?
    ensures PollsOk(Close(w, a, peerClosed))
  {
    var p := CancelPollOf(w, a);
    CancelPollKeeps(w, a);
    CancelledPollOk(w, a);
    var r := CancelRecvOf(p, a, Io.CancelRequest);
    CancelRecvPolls(p, a);
    KeptPollsOk(p, r);
    var v := CloseFdOf(r, a);
    CloseFdPolls(r, a);
    KeptPollsOk(r, v);
    RetirePolls(v, a, peerClosed);
    KeptPollsOk(v, Close(w, a, peerClosed));
  }

  lemma PlainPolls(w: Worker, st: Step)
    requires Enabled(w, st) && !st.Dispatch? && !st.BeginClose? && !st.Rearm?
    ensures PollsKept(w, Apply(w, st))
  {
  }

  lemma RearmPolls(w: Worker)
    requires Enabled(w, Rearm)
    ensures PollsKept(w, Apply(w, Rearm))
  {
  }

  lemma PollsStep(w: Worker, st: Step)
    requires Inv(w) && PollsOk(w) && Enabled(w, st)
    ensures PollsOk(Apply(w, st))
  {
    var v := Apply(w, st);
    match st
    case BeginClose(a, peerClosed) =>
      if !w.conns[a].life.state.Retired? { ClosePolls(w, a, peerClosed); }
    case Dispatch(st, hasBuffer) =>
      DispatchPolls(w, st, hasBuffer);
      KeptPollsOk(w, v);
    case Rearm =>
      RearmPolls(w);
      KeptPollsOk(w, v);
    case _ =>
      PlainPolls(w, st);
      KeptPollsOk(w, v);
  }

  lemma {:induction false} CancelledPollsAreAsked(run: seq<Worker>, steps: seq<Step>, k: nat)
    requires IsRun(run, steps) && k < |run|
    ensures PollsOk(run[k])
  {
    if 0 < k {
      CancelledPollsAreAsked(run, steps, k - 1);
      RunKeeps(run, steps, k - 1);
      PollsStep(run[k - 1], steps[k - 1]);
    }
  }

  // ---------------------------------------------------------------- starting and re-arming

  /** The connection is open and its reader wants data. */
  predicate Reading(c: Conn) {
    c.life.state == Active && !c.life.closed && !c.life.closing && !c.reader.eof && !c.reader.paused
  }

  predicate StillReading(w: Worker, a: nat) { a in w.conns && w.conns[a].multishot && Reading(w.conns[a]) }

  /** Starting an operation on an open connection that has none of that kind submits one. */
  lemma StartsOperation(w: Worker, a: nat)
    requires Inv(w) && a in w.conns && Reading(w.conns[a])
    ensures var c, id := w.conns[a], |w.io.accepted|;
      && (!c.ops.recvArmed && c.multishot ==> Io.Op(id, Io.RecvTag(a)) in Outstanding(ArmRecv(w, a).io))
      && (!c.ops.recvArmed && c.reader.buffers == 0 ==> Io.Op(id, Io.RecvTag(a)) in Outstanding(ArmRecv(w, a).io))
      && (!c.ops.pollArmed ==> Io.Op(id, Io.PollTag(a)) in Outstanding(ArmPoll(w, a).io))
      && (!c.ops.writeInflight ==> Io.Op(id, Io.WriteTag(a)) in Outstanding(Write(w, a).io))
  {
    OutstandingStep(w.io, Io.Submit(RecvSqe(w, a)));
    OutstandingStep(w.io, Io.Submit(PollSqe(w, a)));
    OutstandingStep(w.io, Io.Submit(WriteSqe(w, a)));
  }

  /** What a receive completion means for the reader: data that came with a buffer is there to be
      read, a result of 0 is the end of the stream, and a waiting reader is woken unless the receive
      was cancelled or found no buffer. */
  lemma CompletionReachesReader(w: Worker, a: nat, more: bool, result: int, hasBuffer: bool)
    requires a in w.conns
    ensures a in Handle(w, Io.RecvTag(a), more, result, hasBuffer).conns
    ensures var c, d := w.conns[a], Handle(w, Io.RecvTag(a), more, result, hasBuffer).conns[a];
      && d.reader.buffers == (if 0 < result && (hasBuffer || !c.multishot) then c.reader.buffers + 1 else c.reader.buffers)
      && (d.reader.eof <==> c.reader.eof || result == 0)
      && (d.reader.waiter <==> c.reader.waiter && (result == -125 || result == -105))
  {
    HandledReader(w, a, more, result, hasBuffer);
  }

  lemma HandledReader(w: Worker, a: nat, more: bool, result: int, hasBuffer: bool)
    requires a in w.conns
    ensures a in Handle(w, Io.RecvTag(a), more, result, hasBuffer).conns
    ensures var c, d := w.conns[a], Handle(w, Io.RecvTag(a), more, result, hasBuffer).conns[a];
      d.reader.(needsRearm := false) == OnData(c.reader, c.multishot, result, hasBuffer).(needsRearm := false)
  {
  }

  /** A connection marked for re-arming is in the queue. */
  ghost predicate MarkedAreQueued(w: Worker) {
    forall a | a in w.conns && w.conns[a].reader.needsRearm :: a in w.rearm
  }

  lemma HandleQueues(w: Worker, tag: Io.Tag, more: bool, result: int, hasBuffer: bool)
    requires MarkedAreQueued(w)
    ensures MarkedAreQueued(Handle(w, tag, more, result, hasBuffer))
    ensures forall a | a in w.rearm :: a in Handle(w, tag, more, result, hasBuffer).rearm
    ensures var v := Handle(w, tag, more, result, hasBuffer);
      tag.RecvTag? && !more && StillReading(v, tag.connection) ==> tag.connection in v.rearm
  {
    assert forall a | a in w.rearm :: a in w.rearm + [if ConnTag(tag) then tag.connection else 0];
  }

  lemma CloseQueues(w: Worker, a: nat, peerClosed: bool)
    requires MarkedAreQueued(w) && a in w.conns
    ensures MarkedAreQueued(Close(w, a, peerClosed)) && Close(w, a, peerClosed).rearm == w.rearm
  {
    if !w.conns[a].life.state.Retired? {
      CloseFrame(w, a, peerClosed);
      var c := Disconnected(w, a, peerClosed);
    }
  }

  lemma DispatchQueues(w: Worker, st: Io.Step, hasBuffer: bool)
    requires MarkedAreQueued(w) && Enabled(w, Dispatch(st, hasBuffer))
    ensures MarkedAreQueued(Apply(w, Dispatch(st, hasBuffer)))
    ensures forall a | a in w.rearm :: a in Apply(w, Dispatch(st, hasBuffer)).rearm
  {
    var v := w.(io := Io.Apply(w.io, st));
    if st.Reap? {
      HandleQueues(v, w.io.cq[0].userData, w.io.cq[0].more, w.io.cq[0].result, hasBuffer);
    } else {
      HandleQueues(v, w.io.batch[0].userData, false, w.io.batch[0].result, hasBuffer);
    }
  }

  lemma LastReceiveQueues(w: Worker, st: Io.Step, hasBuffer: bool, a: nat)
    requires MarkedAreQueued(w) && Enabled(w, Dispatch(st, hasBuffer))
    requires Io.DispatchesTerminal(w.io, st, Io.RecvTag(a)) && (st.Reap? ==> !w.io.cq[0].nop)
    requires StillReading(Apply(w, Dispatch(st, hasBuffer)), a)
    ensures a in Apply(w, Dispatch(st, hasBuffer)).rearm
  {
    var v := w.(io := Io.Apply(w.io, st));
    HandleQueues(v, Io.RecvTag(a), false, if st.Reap? then w.io.cq[0].result else w.io.batch[0].result, hasBuffer);
  }

  lemma RearmQueues(w: Worker)
    requires MarkedAreQueued(w) && Enabled(w, Rearm)
    ensures MarkedAreQueued(Apply(w, Rearm)) && Apply(w, Rearm).rearm == w.rearm[1..]
  {
    assert w.rearm == [w.rearm[0]] + w.rearm[1..];
  }

  lemma RearmArms(w: Worker)
    requires Enabled(w, Rearm)
    ensures var a := w.rearm[0];
      a in Apply(w, Rearm).conns && (StillReading(w, a) ==> Apply(w, Rearm).conns[a].ops.recvArmed)
  {
  }

  lemma PlainQueues(w: Worker, st: Step)
    requires MarkedAreQueued(w) && Enabled(w, st) && !st.Dispatch? && !st.BeginClose? && !st.Rearm?
    ensures MarkedAreQueued(Apply(w, st)) && Apply(w, st).rearm == w.rearm
  {
  }

  lemma StepQueues(w: Worker, st: Step)
    requires MarkedAreQueued(w) && Enabled(w, st)
    ensures MarkedAreQueued(Apply(w, st))
    ensures forall a | a in w.rearm :: a in Apply(w, st).rearm || (st.Rearm? && w.rearm[0] == a)
  {
    match st
    case BeginClose(a, peerClosed) => CloseQueues(w, a, peerClosed);
    case Dispatch(st, hasBuffer) => DispatchQueues(w, st, hasBuffer);
    case Rearm =>
      RearmQueues(w);
      assert w.rearm == [w.rearm[0]] + w.rearm[1..];
    case _ => PlainQueues(w, st);
  }

  lemma {:induction false} RunQueues(run: seq<Worker>, steps: seq<Step>, k: nat)
    requires IsRun(run, steps) && k < |run|
    ensures MarkedAreQueued(run[k])
  {
    if 0 < k {
      RunQueues(run, steps, k - 1);
      StepQueues(run[k - 1], steps[k - 1]);
    }
  }

  /** What is queued for re-arming is taken from the queue before that is empty. */
  lemma {:induction false} QueuedIsTaken(run: seq<Worker>, steps: seq<Step>, i: nat, j: nat, a: nat) returns (m: nat)
    requires IsRun(run, steps) && i <= j < |run| && a in run[i].rearm && run[j].rearm == []
    ensures i <= m < j && steps[m].Rearm? && run[m].rearm[0] == a
    decreases j - i
  {
    if steps[i].Rearm? && run[i].rearm[0] == a {
      m := i;
    } else {
      RunQueues(run, steps, i);
      StepQueues(run[i], steps[i]);
      m := QueuedIsTaken(run, steps, i + 1, j, a);
    }
  }

  /** No receive is forgotten: when the last completion of a multishot receive finds its reader still
      wanting data, the connection is re-armed before the poll ends, unless it stops wanting them. */
  lemma NoReceiveForgotten(run: seq<Worker>, steps: seq<Step>, k: nat, j: nat, a: nat) returns (m: nat)
    requires IsRun(run, steps) && k < j < |steps| && steps[k].Dispatch? && steps[j].EndPoll?
    requires Io.DispatchesTerminal(run[k].io, steps[k].st, Io.RecvTag(a))
    requires steps[k].st.Reap? ==> !run[k].io.cq[0].nop
    requires StillReading(run[k + 1], a)
    ensures k < m < j && steps[m].Rearm? && run[m].rearm[0] == a && a in run[m].conns && a in run[m + 1].conns
    ensures StillReading(run[m], a) ==> run[m + 1].conns[a].ops.recvArmed
  {
    RunQueues(run, steps, k);
    LastReceiveQueues(run[k], steps[k].st, steps[k].hasBuffer, a);
    m := QueuedIsTaken(run, steps, k + 1, j, a);
    TakenIsRearmed(run, steps, m);
  }

  lemma TakenIsRearmed(run: seq<Worker>, steps: seq<Step>, m: nat)
    requires IsRun(run, steps) && m < |steps| && steps[m].Rearm?
    ensures run[m].rearm != []
    ensures var a := run[m].rearm[0];
      a in run[m].conns && a in run[m + 1].conns && (StillReading(run[m], a) ==> run[m + 1].conns[a].ops.recvArmed)
  {
    RearmArms(run[m]);
    assert run[m + 1] == Apply(run[m], steps[m]);
  }

  // ---------------------------------------------------------------- closing and reclaiming in place

  /** The worker's connection table, with the list of connections waiting to be reclaimed. */
  class ConnectionTable {
    var conns: map<nat, Conn>
    var retiredIds: seq<nat>
    ghost var io: Io.System

    ghost function View(): Worker
      reads this
    {
      Worker(io, conns, [], false)
    }

    ghost predicate Valid()
      reads this
    {
      Inv(View()) && Listed(retiredIds, conns)
    }

    method Update(a: nat, c: Conn)
      requires a in conns
      modifies this`conns
      ensures conns == old(conns)[a := c]
    {
      conns := conns[a := c];
    }

    /** Cancels what the backend still holds for the connection and gives its descriptor up. */
    method Disconnect(a: nat)
      requires a in conns
      modifies this`conns, this`io
      ensures View() == CloseFdOf(CancelRecvOf(CancelPollOf(old(View()), a), a, Io.CancelRequest), a)
    {
      if conns[a].ops.pollArmed && !conns[a].pollCancelRequested {
        io := Io.Apply(io, Io.Cancel(Io.PollTag(a), Io.PeerDisconnectCancel));
        Update(a, conns[a].(pollCancelRequested := true));
      }
      if conns[a].ops.recvArmed {
        io := Io.Apply(io, Io.Cancel(Io.RecvTag(a), Io.CancelRequest));
      }
      var c := conns[a];
      if 0 <= c.life.fd {
        io := Io.Apply(io, Io.CloseFd(c.life.fd));
      }
      Update(a, c.(life := c.life.(fd := -1, closed := true)));
    }

    /** The fields BeginClose and RetireConnection set, assignment by assignment. */
    method RetireFields(c: Conn, peerClosed: bool) returns (d: Conn)
      ensures d == RetireConn(c, peerClosed)
    {
      var r := c.reader.(eof := c.reader.eof && peerClosed);
      if r.waiter {
        r := r.(waiter := false, inflight := false);
      }
      if c.life.retired {
        d := c.(reader := r, life := c.life.(closing := true, state := Closing));
      } else {
        var busy := c.ops.recvArmed || c.ops.inflight != 0 || r.inflight || c.ops.writeInflight || r.buffers != 0;
        var state := if busy then Draining else Retired;
        d := c.(reader := r.(buffers := 0), life := c.life.(closing := true, state := state, retired := true));
      }
    }

    method Retire(a: nat, peerClosed: bool)
      requires a in conns && !conns[a].life.state.Retired?
      modifies this
      ensures View() == Close(old(View()), a, peerClosed)
      ensures retiredIds == if old(conns)[a].life.retired then old(retiredIds) else old(retiredIds) + [a]
    {
      if !conns[a].life.retired {
        retiredIds := retiredIds + [a];
      }
      Disconnect(a);
      var d := RetireFields(conns[a], peerClosed);
      Update(a, d);
    }

    /** The connection stops being usable at once; its storage stays until nothing refers to it. */
    method BeginClose(a: nat, peerClosed: bool)
      requires Valid() && a in conns
      modifies this
      ensures Valid() && View() == Close(old(View()), a, peerClosed)
      ensures !old(conns)[a].life.state.Retired? ==> Released(old(View()), View(), a)
    {
      if conns[a].life.state.Retired? { return; }
      CloseReleases(View(), a, peerClosed);
      CloseKeeps(View(), a, peerClosed);
      ListedClose(retiredIds, View(), a, peerClosed);
      Retire(a, peerClosed);
    }

    /** One turn of the loop below. */
    method Sweep(a: nat) returns (kept: bool)
      requires a in conns
      modifies this`conns
      ensures kept == !CanReclaim(old(conns)[a])
      ensures conns == if kept then old(conns)[a := Drained(old(conns)[a])] else old(conns) - {a}
    {
      kept := !CanReclaim(conns[a]);
      if kept {
        Update(a, Drained(conns[a]));
      } else {
        conns := conns - {a};
      }
    }

    method SweepAll() returns (still: seq<nat>)
      requires Listed(retiredIds, conns)
      modifies this`conns
      ensures Swept(old(conns), conns, retiredIds) && KeptIn(still, retiredIds, conns)
    {
      still := [];
      ghost var before := conns;
      for i := 0 to |retiredIds|
        invariant Swept(before, conns, retiredIds[..i]) && KeptIn(still, retiredIds[..i], conns)
      {
        var a := retiredIds[i];
        assert retiredIds[..i + 1] == retiredIds[..i] + [a];
        ListedNext(retiredIds, before, i);
        SweepStep(before, conns, retiredIds[..i], a, still);
        var kept := Sweep(a);
        if kept { still := still + [a]; }
      }
      assert retiredIds[..|retiredIds|] == retiredIds;
    }

    /** Frees exactly the retired connections that nothing needs any more. */
    method ReclaimConnections()
      requires Valid()
      modifies this`conns, this`retiredIds
      ensures Valid() && Reclaimed(old(conns), conns)
    {
      var still := SweepAll();
      SweptAll(old(conns), conns, retiredIds, still);
      LinkedReclaimed(Outstanding(io), Targets(io.b), old(conns), conns);
      retiredIds := still;
    }
  }

  /** A connection is gone exactly if it was retired and reclaimable; the others keep their operations. */
  ghost predicate Reclaimed(before: map<nat, Conn>, after: map<nat, Conn>) {
    && (forall a :: a in after <==> a in before && !(before[a].life.retired && CanReclaim(before[a])))
    && (forall a | a in after :: after[a].ops == before[a].ops && after[a].reader == before[a].reader)
  }

  lemma LinkedReclaimed(out: iset<Io.Op>, targets: iset<Io.Tag>, before: map<nat, Conn>, after: map<nat, Conn>)
    requires Linked(out, targets, before) && Reclaimed(before, after)
    ensures Linked(out, targets, after)
  {
    forall a | a in before && a !in after
      ensures before[a].ops.recvOp.Free? && before[a].ops.pollOp.Free? && before[a].ops.writeOp.Free?
    {
      assert OpsOk(before[a].ops);
    }
  }

  lemma SweptAll(before: map<nat, Conn>, after: map<nat, Conn>, ids: seq<nat>, still: seq<nat>)
    requires Listed(ids, before) && Swept(before, after, ids) && KeptIn(still, ids, after)
    ensures Listed(still, after) && Reclaimed(before, after)
  {
  }

  function Drained(c: Conn): Conn { c.(life := c.life.(state := Draining)) }

  /** The list names the retired connections, each once. */
  ghost predicate Listed(ids: seq<nat>, conns: map<nat, Conn>) {
    && (forall i, j | 0 <= i < j < |ids| :: ids[i] != ids[j])
    && (forall a :: a in ids <==> a in conns && conns[a].life.retired)
  }

  lemma ListedNext(ids: seq<nat>, conns: map<nat, Conn>, i: nat)
    requires Listed(ids, conns) && i < |ids|
    ensures ids[i] in conns && ids[i] !in ids[..i]
  {
    assert ids[i] in ids;
  }

  lemma CloseFrame(w: Worker, a: nat, peerClosed: bool)
    requires a in w.conns && !w.conns[a].life.state.Retired?
    ensures a in Close(w, a, peerClosed).conns && Close(w, a, peerClosed).conns[a].life.retired
    ensures Close(w, a, peerClosed).conns.Keys == w.conns.Keys
    ensures forall b | b in w.conns && b != a :: Close(w, a, peerClosed).conns[b] == w.conns[b]
  {
  }

  lemma ListedClose(ids: seq<nat>, w: Worker, a: nat, peerClosed: bool)
    requires Listed(ids, w.conns) && a in w.conns && !w.conns[a].life.state.Retired?
    ensures Listed(if w.conns[a].life.retired then ids else ids + [a], Close(w, a, peerClosed).conns)
  {
    CloseFrame(w, a, peerClosed);
  }

  lemma SweepStep(before: map<nat, Conn>, after: map<nat, Conn>, done: seq<nat>, a: nat, still: seq<nat>)
    requires Swept(before, after, done) && a in before && a !in done && KeptIn(still, done, after)
    ensures a in after && after[a] == before[a]
    ensures CanReclaim(after[a]) ==> Swept(before, after - {a}, done + [a]) && KeptIn(still, done + [a], after - {a})
    ensures !CanReclaim(after[a]) ==>
      Swept(before, after[a := Drained(after[a])], done + [a])
      && KeptIn(still + [a], done + [a], after[a := Drained(after[a])])
  {
  }

  /** The table after the given retired connections were looked at. */
  ghost predicate Swept(before: map<nat, Conn>, after: map<nat, Conn>, done: seq<nat>) {
    && (forall a :: a in after <==> a in before && !(a in done && CanReclaim(before[a])))
    && (forall a | a in after && a !in done :: after[a] == before[a])
    && (forall a | a in after :: after[a].ops == before[a].ops && after[a].reader == before[a].reader
                                 && after[a].life.retired == before[a].life.retired)
  }

  ghost predicate KeptIn(still: seq<nat>, done: seq<nat>, after: map<nat, Conn>) {
    && (forall a :: a in still <==> a in done && a in after)
    && (forall i, j | 0 <= i < j < |still| :: still[i] != still[j])
  }
}
