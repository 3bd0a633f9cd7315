/**
 A connect racing its timer: the connect and the timer may complete in either order, the
 timer may fail to be submitted, and the caller may cancel at any moment. The awaiting
 coroutine must be resumed once, and only when nothing references its frame any more.
 */
module ConnectRace {
  const ECANCELED := -125

  datatype Option<T> = None | Some(value: T)

  datatype Status = Success | InvalidTarget | Rejected(code: int) | DeadlineExceeded | Failed(errno: int) | Cancelled

  /** The fields of the operation, with the enclosing awaitable's cancellation record. */
  datatype Op = Op(
    validTarget: bool, hasTimeout: bool, connectDone: bool, timeoutDone: bool, resumed: bool,
    loserCancelSubmitted: bool, immediate: Option<Status>, connectResult: int, cancelled: bool, bound: bool)

  /** Where the frame and the operations that reference it are. */
  datatype Phase = Created | Running | Refused | Finished(status: Status)

  datatype Stage = Absent | Pending | Completed

  datatype World = World(
    op: Op, phase: Phase, connect: Stage, timer: Stage, timerFirst: bool,
    loserCancels: nat, connectCancels: nat, timerCancels: nat, enqueued: nat)

  datatype Step =
    | Suspend(connectAccepted: Option<int>, timerAccepted: Option<int>)
    | ConnectCompletes(result: int)
    | TimerCompletes
    | CallerCancels
    | Resume

  function NewOp(validTarget: bool, hasTimeout: bool, cancelled: bool): Op {
    Op(validTarget, hasTimeout, false, !hasTimeout, false, false, None, 0, cancelled, false)
  }

  // ---------------------------------------------------------------- the operation

  class ConnectOperation {
    const validTarget: bool
    const hasTimeout: bool
    var connectDone: bool
    var timeoutDone: bool
    var resumed: bool
    var loserCancelSubmitted: bool
    var immediate: Option<Status>
    var connectResult: int
    var cancelled: bool
    var bound: bool
    ghost var loserCancels: nat
    ghost var connectCancels: nat
    ghost var timerCancels: nat
    ghost var enqueued: nat

    ghost function Fields(): Op
      reads this
    {
      Op(validTarget, hasTimeout, connectDone, timeoutDone, resumed, loserCancelSubmitted, immediate, connectResult,
         cancelled, bound)
    }

    /** The operation agrees with a state of the world. */
    ghost predicate Is(w: World)
      reads this
    {
      && Fields() == w.op && loserCancels == w.loserCancels && connectCancels == w.connectCancels
      && timerCancels == w.timerCancels && enqueued == w.enqueued
    }

    constructor (valid: bool, timeout: bool, early: bool)
      ensures Fields() == NewOp(valid, timeout, early)
      ensures loserCancels == 0 && connectCancels == 0 && timerCancels == 0 && enqueued == 0
    {
      validTarget, hasTimeout, cancelled := valid, timeout, early;
      connectDone, timeoutDone, resumed, loserCancelSubmitted := false, !timeout, false, false;
      immediate, connectResult, bound := None, 0, false;
      loserCancels, connectCancels, timerCancels, enqueued := 0, 0, 0, 0;
    }

    method CancelLoser(ghost w: World, connect: bool)
      requires Is(w)
      modifies this`loserCancelSubmitted, this`loserCancels, this`connectCancels, this`timerCancels
      ensures Is(WithLoserCancel(w, connect))
    {
      if loserCancelSubmitted { return; }
      loserCancelSubmitted := true;
      loserCancels := loserCancels + 1;
      if connect { connectCancels := connectCancels + 1; } else { timerCancels := timerCancels + 1; }
    }

    method MaybeResume(ghost w: World)
      requires Is(w)
      modifies this`resumed, this`enqueued
      ensures Is(MaybeResumed(w))
    {
      if connectDone && timeoutDone && !resumed {
        resumed := true;
        enqueued := enqueued + 1;
      }
    }

    method RejectTimer(ghost w: World, code: int)
      requires Is(w)
      modifies this
      ensures Is(TimerRejected(w, code))
    {
      timeoutDone := true;
      immediate := Some(Rejected(code));
      CancelLoser(w.(op := Fields()), true);
    }

    /** await_suspend, with what the backend answers to the two submissions; false means no suspension. */
    method Suspend(ghost w: World, connectAccepted: Option<int>, timerAccepted: Option<int>) returns (suspended: bool)
      requires Is(w) && w.phase.Created?
      modifies this
      ensures Is(Suspended(w, connectAccepted, timerAccepted))
      ensures suspended <==> Suspended(w, connectAccepted, timerAccepted).phase.Running?
    {
      if !validTarget {
        immediate := Some(InvalidTarget);
        return false;
      }
      if connectAccepted.Some? {
        immediate := Some(Rejected(connectAccepted.value));
        return false;
      }
      if hasTimeout && timerAccepted.Some? {
        RejectTimer(w, timerAccepted.value);
      }
      bound := true;
      if cancelled { connectCancels := connectCancels + 1; }
      suspended := true;
    }

    method Complete(ghost w: World, result: int)
      requires Is(w)
      modifies this
      ensures Is(ConnectCompleted(w, result))
    {
      connectResult := result;
      connectDone := true;
      ghost var v := w.(op := Fields(), connect := Completed);
      if !timeoutDone { CancelLoser(v, false); }
      MaybeResume(if w.op.timeoutDone then v else WithLoserCancel(v, false));
    }

    method OnTimeoutComplete(ghost w: World)
      requires Is(w)
      modifies this
      ensures Is(TimerCompleted(w))
    {
      timeoutDone := true;
      ghost var v := w.(op := Fields(), timer := Completed, timerFirst := !w.op.connectDone);
      if !connectDone { CancelLoser(v, true); }
      MaybeResume(if w.op.connectDone then v else WithLoserCancel(v, true));
    }

    method Cancel(ghost w: World)
      requires Is(w)
      modifies this
      ensures Is(CallerCancelled(w))
    {
      if cancelled { return; }
      cancelled := true;
      if bound { connectCancels := connectCancels + 1; }
    }

    method Resume(ghost w: World) returns (status: Status)
      requires Is(w)
      modifies this
      ensures Is(Resumed(w)) && Resumed(w).phase == Finished(status)
    {
      bound := false;
      if cancelled { return Cancelled; }
      if immediate.Some? { return immediate.value; }
      if connectResult == 0 { return Success; }
      if connectResult == ECANCELED { return DeadlineExceeded; }
      status := Failed(-connectResult);
    }
  }

  // ---------------------------------------------------------------- the race

  function WithLoserCancel(w: World, connect: bool): World {
    if w.op.loserCancelSubmitted then w
    else w.(op := w.op.(loserCancelSubmitted := true), loserCancels := w.loserCancels + 1,
            connectCancels := w.connectCancels + if connect then 1 else 0,
            timerCancels := w.timerCancels + if connect then 0 else 1)
  }

  function MaybeResumed(w: World): World {
    if w.op.connectDone && w.op.timeoutDone && !w.op.resumed
    then w.(op := w.op.(resumed := true), enqueued := w.enqueued + 1)
    else w
  }

  function TimerRejected(w: World, code: int): World {
    WithLoserCancel(w.(op := w.op.(timeoutDone := true, immediate := Some(Rejected(code)))), true)
  }

  function Suspended(w: World, connectAccepted: Option<int>, timerAccepted: Option<int>): World {
    if !w.op.validTarget then w.(op := w.op.(immediate := Some(InvalidTarget)), phase := Refused)
    else if connectAccepted.Some?
    then w.(op := w.op.(immediate := Some(Rejected(connectAccepted.value))), phase := Refused)
    else
      var failed := w.op.hasTimeout && timerAccepted.Some?;
      var v := if failed then TimerRejected(w, timerAccepted.value) else w;
      v.(op := v.op.(bound := true), phase := Running, connect := Pending,
         timer := if w.op.hasTimeout && !failed then Pending else Absent,
         connectCancels := v.connectCancels + if w.op.cancelled then 1 else 0)
  }

  function ConnectCompleted(w: World, result: int): World {
    var v := w.(op := w.op.(connectResult := result, connectDone := true), connect := Completed);
    MaybeResumed(if w.op.timeoutDone then v else WithLoserCancel(v, false))
  }

  function TimerCompleted(w: World): World {
    var v := w.(op := w.op.(timeoutDone := true), timer := Completed, timerFirst := !w.op.connectDone);
    MaybeResumed(if w.op.connectDone then v else WithLoserCancel(v, true))
  }

  function CallerCancelled(w: World): World {
    if w.op.cancelled then w
    else w.(op := w.op.(cancelled := true), connectCancels := w.connectCancels + if w.op.bound then 1 else 0)
  }

  function Resumed(w: World): World {
    w.(op := w.op.(bound := false), phase := Finished(if w.op.cancelled then Cancelled else Outcome(w)))
  }

  /** A connect completes as cancelled only if somebody asked for that. */
  predicate Enabled(w: World, st: Step) {
    match st
    case Suspend(_, _) => w.phase.Created?
    case ConnectCompletes(result) => w.connect.Pending? && (result == ECANCELED ==> 0 < w.connectCancels)
    case TimerCompletes => w.timer.Pending?
    case CallerCancels => true
    case Resume => w.phase.Refused? || (w.phase.Running? && 0 < w.enqueued)
  }

  function Apply(w: World, st: Step): World {
    match st
    case Suspend(connectAccepted, timerAccepted) => Suspended(w, connectAccepted, timerAccepted)
    case ConnectCompletes(result) => ConnectCompleted(w, result)
    case TimerCompletes => TimerCompleted(w)
    case CallerCancels => CallerCancelled(w)
    case Resume => Resumed(w)
  }

  function One(b: bool): nat { if b then 1 else 0 }

  /** What the caller is told when it did not cancel: the failures recorded before the race,
      else the connect's own result. */
  function Outcome(w: World): Status {
    match w.op.immediate
    case Some(status) => status
    case None =>
      if w.op.connectResult == 0 then Success
      else if w.op.connectResult == ECANCELED then DeadlineExceeded
      else Failed(-w.op.connectResult)
  }

  ghost predicate Inv(w: World) {
    && w.loserCancels == One(w.op.loserCancelSubmitted) && w.enqueued == One(w.op.resumed)
    && (w.phase.Created? || w.phase.Refused? ==> w.connect.Absent? && w.timer.Absent? && !w.op.bound && !w.op.resumed)
    && (w.phase.Created? ==>
         && w.op.immediate.None? && w.op.timeoutDone == !w.op.hasTimeout && !w.op.connectDone
         && !w.op.loserCancelSubmitted && w.connectCancels == 0)
    && (w.connect.Absent? && !w.phase.Created? ==>
         w.op.immediate.Some? && (w.op.immediate.value.InvalidTarget? || w.op.immediate.value.Rejected?))
    && (w.phase.Running? ==> w.op.bound && w.connect != Absent)
    && (w.phase.Finished? ==> !w.connect.Pending? && !w.timer.Pending? && !w.op.bound)
    && (w.phase.Finished? && !w.phase.status.Cancelled? ==> w.phase.status == Outcome(w))
    && (w.phase == Finished(DeadlineExceeded) ==> w.connect.Completed? && w.timer.Completed? && w.timerFirst)
    && (w.connect != Absent ==>
         && w.op.connectDone == w.connect.Completed? && w.op.timeoutDone == !w.timer.Pending?
         && w.op.resumed == (w.op.connectDone && w.op.timeoutDone)
         && w.op.hasTimeout == (w.timer != Absent || w.op.immediate.Some?)
         && (w.op.immediate.Some? ==> w.timer.Absent? && w.op.immediate.value.Rejected?)
         && (w.connect.Pending? && w.timer.Pending? ==> !w.op.loserCancelSubmitted)
         && (w.op.immediate.None? && !w.op.cancelled && 0 < w.connectCancels ==> w.timer.Completed? && w.timerFirst)
         && (w.connect.Completed? && w.op.connectResult == ECANCELED && w.op.immediate.None? && !w.op.cancelled ==>
              w.timer.Completed? && w.timerFirst))
  }

  lemma SuspendKeeps(w: World, connectAccepted: Option<int>, timerAccepted: Option<int>)
    requires Inv(w) && w.phase.Created?
    ensures Inv(Suspended(w, connectAccepted, timerAccepted))
  {
  }

  lemma ConnectKeeps(w: World, result: int)
    requires Inv(w) && Enabled(w, ConnectCompletes(result))
    ensures Inv(ConnectCompleted(w, result))
  {
  }

  lemma TimerKeeps(w: World)
    requires Inv(w) && w.timer.Pending?
    ensures Inv(TimerCompleted(w))
  {
  }

  lemma CancelKeeps(w: World)
    requires Inv(w)
    ensures Inv(CallerCancelled(w))
  {
  }

  lemma ResumeKeeps(w: World)
    requires Inv(w) && Enabled(w, Resume)
    ensures Inv(Resumed(w))
  {
  }

  lemma StepKeeps(w: World, st: Step)
    requires Inv(w) && Enabled(w, st)
    ensures Inv(Apply(w, st))
  {
    match st
    case Suspend(connectAccepted, timerAccepted) => SuspendKeeps(w, connectAccepted, timerAccepted);
    case ConnectCompletes(result) => ConnectKeeps(w, result);
    case TimerCompletes => TimerKeeps(w);
    case CallerCancels => CancelKeeps(w);
    case Resume => ResumeKeeps(w);
  }

  // ---------------------------------------------------------------- whole runs

  predicate Init(w: World) {
    && w.op == NewOp(w.op.validTarget, w.op.hasTimeout, w.op.cancelled) && w.phase.Created?
    && w.connect.Absent? && w.timer.Absent? && !w.timerFirst
    && w.loserCancels == 0 && w.connectCancels == 0 && w.timerCancels == 0 && w.enqueued == 0
  }

  predicate IsRun(run: seq<World>, steps: seq<Step>) {
    && |run| == |steps| + 1 && Init(run[0])
    && forall i {:trigger steps[i]} | 0 <= i < |steps| :: Enabled(run[i], steps[i]) && run[i + 1] == Apply(run[i], steps[i])
  }

  lemma {:induction false} RunKeeps(run: seq<World>, steps: seq<Step>, k: nat)
    requires IsRun(run, steps) && k < |run|
    ensures Inv(run[k])
  {
    if 0 < k {
      RunKeeps(run, steps, k - 1);
      StepKeeps(run[k - 1], steps[k - 1]);
    }
  }

  /** The coroutine is enqueued at most once, only after everything accepted has completed, and
      always by then: a suspended coroutine with nothing pending has been enqueued. */
  lemma ResumedExactlyOnce(run: seq<World>, steps: seq<Step>, k: nat)
    requires IsRun(run, steps) && k < |run|
    ensures run[k].enqueued <= 1
    ensures run[k].phase.Running? ==>
      (run[k].enqueued == 1 <==> !run[k].connect.Pending? && !run[k].timer.Pending?)
    ensures run[k].phase.Finished? ==> !run[k].connect.Pending? && !run[k].timer.Pending?
  {
    RunKeeps(run, steps, k);
  }

  lemma OneLoserCancel(run: seq<World>, steps: seq<Step>, k: nat)
    requires IsRun(run, steps) && k < |run|
    ensures run[k].loserCancels <= 1
    ensures run[k].phase.Finished? && k < |steps| ==>
      && run[k + 1].loserCancels == run[k].loserCancels && run[k + 1].connectCancels == run[k].connectCancels
      && run[k + 1].timerCancels == run[k].timerCancels
  {
    RunKeeps(run, steps, k);
    if k < |steps| { assert run[k + 1] == Apply(run[k], steps[k]); }
  }

  // ---------------------------------------------------------------- the status, from what happened

  /** What has happened: whether the caller cancelled, how the backend answered the submissions
      if they were made, the result the connect completed with if it did, and whether the timer
      completed before that. */
  datatype Seen = Seen(cancelled: bool, submission: Option<Step>, answer: Option<int>, timerWon: bool)

  function Next(seen: Seen, st: Step): Seen {
    match st
    case Suspend(_, _) => seen.(submission := Some(st))
    case ConnectCompletes(result) => seen.(answer := Some(result))
    case TimerCompletes => seen.(timerWon := seen.timerWon || seen.answer.None?)
    case CallerCancels => seen.(cancelled := true)
    case Resume => seen
  }

  /** What is seen in a history; an operation may be cancelled before it begins. */
  function SeenIn(h: seq<Step>, early: bool): Seen {
    if h == [] then Seen(early, None, None, false) else Next(SeenIn(h[..|h| - 1], early), h[|h| - 1])
  }

  /** The failure to submit, if any. */
  function Failure(op: Op, submission: Option<Step>): Option<Status> {
    match submission
    case Some(Suspend(connect, timer)) =>
      if !op.validTarget then Some(InvalidTarget)
      else if connect.Some? then Some(Rejected(connect.value))
      else if op.hasTimeout && timer.Some? then Some(Rejected(timer.value))
      else None
    case _ => None
  }

  /** What the caller of an operation is to be told after a history: its own cancellation first,
      then a failure to submit, then the connect's result. */
  function Told(op: Op, seen: Seen): Status {
    if seen.cancelled then Cancelled
    else if Failure(op, seen.submission).Some? then Failure(op, seen.submission).value
    else
      match seen.answer
      case Some(result) =>
        if result == 0 then Success else if result == ECANCELED then DeadlineExceeded else Failed(-result)
      case None => Success
  }

  /** The fields of the operation record what has happened. */
  ghost predicate Records(op: Op, seen: Seen, w: World) {
    && w.op.cancelled == seen.cancelled && w.op.immediate == Failure(op, seen.submission)
    && w.op.validTarget == op.validTarget && w.op.hasTimeout == op.hasTimeout
    && (w.phase.Created? <==> seen.submission.None?) && (w.connect.Completed? <==> seen.answer.Some?)
    && (w.connect.Completed? ==> w.op.connectResult == seen.answer.value)
    && (if w.timer.Completed? then w.timerFirst == seen.timerWon else !seen.timerWon)
  }

  lemma RecordsStep(op: Op, seen: Seen, w: World, st: Step)
    requires Records(op, seen, w) && Inv(w) && Enabled(w, st)
    ensures Records(op, Next(seen, st), Apply(w, st))
  {
  }

  lemma {:induction false} RunRecords(run: seq<World>, steps: seq<Step>, k: nat)
    requires IsRun(run, steps) && k < |run|
    ensures Records(run[0].op, SeenIn(steps[..k], run[0].op.cancelled), run[k])
  {
    if 0 < k {
      var before := steps[..k - 1];
      assert steps[..k][..k - 1] == before;
      RunKeeps(run, steps, k - 1);
      RunRecords(run, steps, k - 1);
      RecordsStep(run[0].op, SeenIn(before, run[0].op.cancelled), run[k - 1], steps[k - 1]);
    }
  }

  lemma ToldAtResume(op: Op, seen: Seen, w: World)
    requires Records(op, seen, w) && Inv(w) && Enabled(w, Resume)
    ensures Resumed(w).phase == Finished(Told(op, seen)) && (Told(op, seen).Cancelled? <==> seen.cancelled)
  {
  }

  lemma FinishedStays(w: World, st: Step)
    requires Inv(w) && Enabled(w, st) && Apply(w, st).phase.Finished? && !st.Resume?
    ensures w.phase == Apply(w, st).phase
  {
  }

  /** The status of a finished operation is what the history up to its resumption tells: cancelled
      exactly if the caller had cancelled by then. */
  lemma {:induction false} StatusIsDetermined(run: seq<World>, steps: seq<Step>, k: nat) returns (r: nat)
    requires IsRun(run, steps) && k < |run| && run[k].phase.Finished?
    ensures r < k && steps[r].Resume?
    ensures var seen := SeenIn(steps[..r], run[0].op.cancelled);
      run[k].phase.status == Told(run[0].op, seen) && (run[k].phase.status.Cancelled? <==> seen.cancelled)
  {
    assert run[k] == Apply(run[k - 1], steps[k - 1]);
    RunKeeps(run, steps, k - 1);
    if steps[k - 1].Resume? {
      r := k - 1;
      RunRecords(run, steps, r);
      ToldAtResume(run[0].op, SeenIn(steps[..r], run[0].op.cancelled), run[r]);
    } else {
      FinishedStays(run[k - 1], steps[k - 1]);
      r := StatusIsDetermined(run, steps, k - 1);
    }
  }

  /** A deadline is reported only when the timer did complete before the connect, a success only
      when the connect succeeded. */
  lemma DeadlineMeansTimerFirst(run: seq<World>, steps: seq<Step>, k: nat)
    requires IsRun(run, steps) && k < |run| && run[k].phase.Finished?
    ensures var seen, status := SeenIn(steps[..k], run[0].op.cancelled), run[k].phase.status;
      && (status.DeadlineExceeded? ==> seen.timerWon && seen.answer == Some(ECANCELED))
      && (status.Success? ==> seen.answer == Some(0))
      && (status.InvalidTarget? ==> seen.answer.None?)
  {
    RunKeeps(run, steps, k);
    RunRecords(run, steps, k);
  }

  // ---------------------------------------------------------------- the cancels, from what happened

  /** Why a cancel was due: the timer completed first, its submission failed, the connect completed
      first, or the caller pulled a connect back that was under way. */
  datatype Due = Due(timerWon: bool, timerRefused: bool, connectWon: bool, pulled: bool)

  /** Whether the connect and the timer have been accepted and have not completed, whether the frame
      is suspended, and whether the caller has cancelled. */
  datatype Going = Going(connect: bool, timer: bool, frame: bool, cancelled: bool)

  function GoingNext(op: Op, g: Going, st: Step): Going {
    match st
    case Suspend(connect, timer) =>
      if op.validTarget && connect.None? then Going(true, op.hasTimeout && timer.None?, true, g.cancelled) else g
    case ConnectCompletes(_) => g.(connect := false)
    case TimerCompletes => g.(timer := false)
    case CallerCancels => g.(cancelled := true)
    case Resume => g.(frame := false)
  }

  function GoingAfter(op: Op, h: seq<Step>): Going {
    if h == [] then Going(false, false, false, op.cancelled)
    else GoingNext(op, GoingAfter(op, h[..|h| - 1]), h[|h| - 1])
  }

  function DueNext(op: Op, g: Going, due: Due, st: Step): Due {
    match st
    case Suspend(connect, timer) =>
      if op.validTarget && connect.None?
      then due.(timerRefused := op.hasTimeout && timer.Some?, pulled := due.pulled || g.cancelled)
      else due
    case ConnectCompletes(_) => due.(connectWon := due.connectWon || g.timer)
    case TimerCompletes => due.(timerWon := due.timerWon || g.connect)
    case CallerCancels => due.(pulled := due.pulled || (!g.cancelled && g.frame))
    case Resume => due
  }

  function DueAfter(op: Op, h: seq<Step>): Due {
    if h == [] then Due(false, false, false, false)
    else DueNext(op, GoingAfter(op, h[..|h| - 1]), DueAfter(op, h[..|h| - 1]), h[|h| - 1])
  }

  ghost predicate Tracks(op: Op, g: Going, w: World) {
    && w.op.validTarget == op.validTarget && w.op.hasTimeout == op.hasTimeout && w.op.cancelled == g.cancelled
    && g.connect == w.connect.Pending? && g.timer == w.timer.Pending? && g.frame == w.phase.Running?
  }

  /** Every cancel was due, was submitted once, and went to the right operation. */
  ghost predicate Paid(due: Due, w: World) {
    && w.connectCancels == One(due.timerWon) + One(due.timerRefused) + One(due.pulled)
    && w.timerCancels == One(due.connectWon)
    && (w.phase.Created? ==> due == Due(false, false, false, false))
    && (w.connect.Pending? && w.timer.Pending? ==> !due.timerWon && !due.connectWon)
    && (w.connect.Pending? ==> !due.connectWon) && (w.timer.Pending? ==> !due.timerWon)
    && (due.pulled ==> w.op.cancelled) && (w.timer.Completed? ==> due.timerWon == w.timerFirst)
  }

  lemma TracksStep(op: Op, g: Going, w: World, st: Step)
    requires Tracks(op, g, w) && Inv(w) && Enabled(w, st)
    ensures Tracks(op, GoingNext(op, g, st), Apply(w, st))
  {
  }

  lemma PaidStep(op: Op, g: Going, due: Due, w: World, st: Step)
    requires Tracks(op, g, w) && Paid(due, w) && Inv(w) && Enabled(w, st)
    ensures Paid(DueNext(op, g, due, st), Apply(w, st))
  {
  }

  /** Whoever loses is cancelled, and nobody else: each time one part completes while the other is
      pending, the timer cannot be submitted, or the caller cancels a connect under way, exactly one
      cancel goes to the part that is to stop. */
  lemma {:induction false} CancelsAreExact(run: seq<World>, steps: seq<Step>, k: nat)
    requires IsRun(run, steps) && k < |run|
    ensures var due := DueAfter(run[0].op, steps[..k]);
      && run[k].connectCancels == One(due.timerWon) + One(due.timerRefused) + One(due.pulled)
      && run[k].timerCancels == One(due.connectWon)
    ensures Tracks(run[0].op, GoingAfter(run[0].op, steps[..k]), run[k])
    ensures Paid(DueAfter(run[0].op, steps[..k]), run[k])
  {
    if 0 < k {
      var before := steps[..k - 1];
      assert steps[..k][..k - 1] == before;
      RunKeeps(run, steps, k - 1);
      CancelsAreExact(run, steps, k - 1);
      var g, due := GoingAfter(run[0].op, before), DueAfter(run[0].op, before);
      TracksStep(run[0].op, g, run[k - 1], steps[k - 1]);
      PaidStep(run[0].op, g, due, run[k - 1], steps[k - 1]);
    }
  }

  /** In particular a timer that completes first always pulls the connect back. */
  lemma ExpiryReachesConnect(run: seq<World>, steps: seq<Step>, k: nat)
    requires IsRun(run, steps) && k < |run| && SeenIn(steps[..k], run[0].op.cancelled).timerWon
    ensures 0 < run[k].connectCancels && run[k].timerCancels == 0
  {
    RunKeeps(run, steps, k);
    RunRecords(run, steps, k);
    CancelsAreExact(run, steps, k);
    WinnerIsOne(run, steps, k);
  }

  lemma {:induction false} WinnerIsOne(run: seq<World>, steps: seq<Step>, k: nat)
    requires IsRun(run, steps) && k < |run|
    ensures var due := DueAfter(run[0].op, steps[..k]); !(due.timerWon && due.connectWon)
  {
    if 0 < k {
      assert steps[..k][..k - 1] == steps[..k - 1];
      WinnerIsOne(run, steps, k - 1);
      CancelsAreExact(run, steps, k - 1);
      RunKeeps(run, steps, k - 1);
    }
  }
}
