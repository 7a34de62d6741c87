/** A worker session: many senders, one writer and racing closers around a closed flag, a
    context and a bounded outbox channel. */
module Session {
  import opened Sequences

  type Message = string

  const OUTBOX_SIZE: nat := 1024

  // ---------------------------------------------------------------- undisturbed operations

  datatype SendOutcome = Sent | SessionClosed | Blocked

  class WorkerSession {
    var closed: bool
    var ctxDone: bool
    var outbox: seq<Message>
    var outboxClosed: bool

    constructor ()
      ensures !closed && !ctxDone && outbox == [] && !outboxClosed
    {
      closed, ctxDone, outbox, outboxClosed := false, false, [], false;
    }

    /** Send, with the select's choice when both of its cases are ready. Sending on a closed
        channel panics and is recovered into the same error. */
    method Send(msg: Message, pickDone: bool) returns (r: SendOutcome)
      modifies this`outbox
      ensures r.Sent? <==> !closed && !outboxClosed && |old(outbox)| < OUTBOX_SIZE && !(ctxDone && pickDone)
      ensures outbox == if r.Sent? then old(outbox) + [msg] else old(outbox)
      ensures r.Blocked? <==> !closed && !ctxDone && !outboxClosed && |old(outbox)| >= OUTBOX_SIZE
    {
      if closed { return SessionClosed; }
      if ctxDone && pickDone { return SessionClosed; }
      if outboxClosed { return SessionClosed; }
      if |outbox| < OUTBOX_SIZE {
        outbox := outbox + [msg];
        return Sent;
      }
      return if ctxDone then SessionClosed else Blocked;
    }

    /** The first Close cancels the context and closes the outbox; later ones do nothing. */
    method Close()
      modifies this`closed, this`ctxDone, this`outboxClosed
      ensures closed
      ensures if old(closed) then ctxDone == old(ctxDone) && outboxClosed == old(outboxClosed)
              else ctxDone && outboxClosed
    {
      if !closed {
        closed := true;
        ctxDone := true;
        outboxClosed := true;
      }
    }

    /** drainOutbox takes from the front until the outbox is empty or time is up after
        `budget` messages, and writes what it took in order. */
    method DrainOutbox(budget: nat) returns (written: seq<Message>)
      modifies this`outbox
      ensures written + outbox == old(outbox)
      ensures |written| == if budget < |old(outbox)| then budget else |old(outbox)|
    {
      written := [];
      while |written| < budget && outbox != []
        invariant written + outbox == old(outbox) && |written| <= budget
        decreases |outbox|
      {
        written := written + [outbox[0]];
        outbox := outbox[1..];
      }
    }
  }

  // ---------------------------------------------------------------- the machine

  datatype SendPhase = Begun | Selecting | Succeeded | Rejected

  /** `late` records that the session's closed flag was already set when the call began. */
  datatype SendCall = SendCall(msg: Message, phase: SendPhase, late: bool)

  /** Before the compare-and-swap, winner before cancel, winner before close(outbox),
      winner done, loser. */
  datatype ClosePhase = Arrived | Won | Cancelled | Finished | Lost

  datatype ExitReason = OutboxClosed | Drained | TimedOut | WriteFailed

  datatype Writer = Idle | Writing | Draining | ClosingAfterError(closer: nat) | Exited(reason: ExitReason)

  datatype State = State(
    closed: bool,
    ctxDone: bool,
    outbox: seq<Message>,
    outboxClosed: bool,
    sends: map<nat, SendCall>,
    closers: map<nat, ClosePhase>,
    writer: Writer,
    accepted: seq<nat>,          // sends whose message entered the outbox, in order
    taken: seq<Message>,         // messages the writer took, in order
    closes: nat)                 // executions of close(outbox)

  ghost predicate Initial(s: State) {
    s == State(false, false, [], false, map[], map[], Idle, [], [], 0)
  }

  datatype Step =
    | BeginSend(id: nat, msg: Message)
    | CheckOpen(id: nat)
    | Enqueue(id: nat)
    | Refuse(id: nat)            // the context is done, or the recovered panic
    | BeginClose(cid: nat)
    | Swap(cid: nat)
    | CancelContext(cid: nat)
    | CloseOutbox(cid: nat)
    | ParentCancelled
    | Receive
    | SeeOutboxClosed
    | SeeDone
    | WriteOk
    | WriteError(cid: nat)       // the writer calls Close and will return
    | ReturnAfterError
    | DrainReceive
    | DrainEnd
    | DrainTimeout

  ghost predicate SendIn(s: State, id: nat, p: SendPhase) { id in s.sends && s.sends[id].phase == p }

  ghost predicate CloseIn(s: State, cid: nat, p: ClosePhase) { cid in s.closers && s.closers[cid] == p }

  ghost predicate Enabled(s: State, step: Step) {
    match step
    case BeginSend(id, _) => id !in s.sends
    case CheckOpen(id) => SendIn(s, id, Begun)
    case Enqueue(id) => SendIn(s, id, Selecting) && !s.outboxClosed && |s.outbox| < OUTBOX_SIZE
    case Refuse(id) => SendIn(s, id, Selecting) && (s.ctxDone || s.outboxClosed)
    case BeginClose(cid) => cid !in s.closers
    case Swap(cid) => CloseIn(s, cid, Arrived)
    case CancelContext(cid) => CloseIn(s, cid, Won)
    case CloseOutbox(cid) => CloseIn(s, cid, Cancelled)
    case ParentCancelled => true
    case Receive => s.writer.Idle? && s.outbox != []
    case SeeOutboxClosed => s.writer.Idle? && s.outbox == [] && s.outboxClosed
    case SeeDone => s.writer.Idle? && s.ctxDone
    case WriteOk => s.writer.Writing?
    case WriteError(cid) => s.writer.Writing? && cid !in s.closers
    case ReturnAfterError =>
      s.writer.ClosingAfterError? && (CloseIn(s, s.writer.closer, Finished) || CloseIn(s, s.writer.closer, Lost))
    case DrainReceive => s.writer.Draining? && s.outbox != []
    case DrainEnd => s.writer.Draining? && s.outbox == []
    case DrainTimeout => s.writer.Draining?
  }

  ghost function SetSend(s: State, id: nat, p: SendPhase): State
    requires id in s.sends
  {
    s.(sends := s.sends[id := s.sends[id].(phase := p)])
  }

  ghost function TakeFront(s: State): State
    requires s.outbox != []
  {
    s.(taken := s.taken + [s.outbox[0]], outbox := s.outbox[1..])
  }

  ghost function Next(s: State, step: Step): State
    requires Enabled(s, step)
  {
    match step
    case BeginSend(id, msg) => s.(sends := s.sends[id := SendCall(msg, Begun, s.closed)])
    case CheckOpen(id) => SetSend(s, id, if s.closed then Rejected else Selecting)
    case Enqueue(id) =>
      SetSend(s, id, Succeeded).(outbox := s.outbox + [s.sends[id].msg], accepted := s.accepted + [id])
    case Refuse(id) => SetSend(s, id, Rejected)
    case BeginClose(cid) => s.(closers := s.closers[cid := Arrived])
    case Swap(cid) =>
      if s.closed then s.(closers := s.closers[cid := Lost])
      else s.(closed := true, closers := s.closers[cid := Won])
    case CancelContext(cid) => s.(ctxDone := true, closers := s.closers[cid := Cancelled])
    case CloseOutbox(cid) => s.(outboxClosed := true, closes := s.closes + 1, closers := s.closers[cid := Finished])
    case ParentCancelled => s.(ctxDone := true)
    case Receive => TakeFront(s).(writer := Writing)
    case SeeOutboxClosed => s.(writer := Exited(OutboxClosed))
    case SeeDone => s.(writer := Draining)
    case WriteOk => s.(writer := Idle)
    case WriteError(cid) => s.(writer := ClosingAfterError(cid), closers := s.closers[cid := Arrived])
    case ReturnAfterError => s.(writer := Exited(WriteFailed))
    case DrainReceive => TakeFront(s)
    case DrainEnd => s.(writer := Exited(Drained))
    case DrainTimeout => s.(writer := Exited(TimedOut))
  }

  ghost predicate CanStep(s: State, s': State) {
    exists step :: Enabled(s, step) && s' == Next(s, step)
  }

  /** A sequence of states in which each follows from the one before by a step. */
  ghost predicate IsPath(path: seq<State>) {
    |path| > 0 && forall i :: 0 <= i < |path| - 1 ==> CanStep(path[i], path[i + 1])
  }

  ghost predicate IsRun(run: seq<State>) {
    IsPath(run) && Initial(run[0])
  }

  // ---------------------------------------------------------------- messages

  /** The messages of the accepted sends, in the order of acceptance. */
  ghost function Accepted(s: State): seq<Message>
    requires forall id :: id in s.accepted ==> id in s.sends
  {
    seq(|s.accepted|, i requires 0 <= i < |s.accepted| => s.sends[s.accepted[i]].msg)
  }

  ghost predicate OrderInv(s: State) {
    && (forall id :: id in s.accepted <==> SendIn(s, id, Succeeded))
    && (forall i, j :: 0 <= i < j < |s.accepted| ==> s.accepted[i] != s.accepted[j])
    && s.taken + s.outbox == Accepted(s)
    && |s.outbox| <= OUTBOX_SIZE
  }

  lemma AcceptedKnown(s: State, i: nat)
    requires OrderInv(s) && i < |s.accepted|
    ensures SendIn(s, s.accepted[i], Succeeded)
  {
    assert s.accepted[i] in s.accepted;
  }

  lemma EnqueueKeepsOrder(s: State, id: nat)
    requires OrderInv(s) && Enabled(s, Enqueue(id))
    ensures OrderInv(Next(s, Enqueue(id)))
  {
    var s' := Next(s, Enqueue(id));
    assert id !in s.accepted;
    forall k ensures k in s'.accepted <==> SendIn(s', k, Succeeded) {
      assert k in s.accepted <==> SendIn(s, k, Succeeded);
    }
    forall i | 0 <= i < |s.accepted| ensures s.accepted[i] in s.sends && s.accepted[i] != id { AcceptedKnown(s, i); }
    assert Accepted(s') == Accepted(s) + [s.sends[id].msg];
    assert s'.taken + s'.outbox == (s.taken + s.outbox) + [s.sends[id].msg];
  }

  lemma TakeFrontEffect(s: State)
    requires s.outbox != []
    ensures var s' := TakeFront(s);
            && s'.sends == s.sends && s'.accepted == s.accepted
            && s'.taken + s'.outbox == s.taken + s.outbox && |s'.outbox| <= |s.outbox|
  {
  }

  /** Steps of closers and of the writer leave the sends alone and move messages at most
      from the front of the outbox to the end of what was taken. */
  lemma OtherStepEffect(s: State, step: Step)
    requires Enabled(s, step)
    requires !step.BeginSend? && !step.CheckOpen? && !step.Enqueue? && !step.Refuse?
    ensures var s' := Next(s, step);
            && s'.sends == s.sends && s'.accepted == s.accepted
            && s'.taken + s'.outbox == s.taken + s.outbox && |s'.outbox| <= |s.outbox|
  {
    hide TakeFront;
    if s.outbox != [] { TakeFrontEffect(s); }
  }

  lemma OtherStepKeepsOrder(s: State, step: Step)
    requires OrderInv(s) && Enabled(s, step)
    requires !step.BeginSend? && !step.CheckOpen? && !step.Enqueue? && !step.Refuse?
    ensures OrderInv(Next(s, step))
  {
    hide Next, Enabled;
    OtherStepEffect(s, step);
    assert Accepted(Next(s, step)) == Accepted(s);
  }

  /** Steps of a send other than its enqueue touch only that send, which was and is not
      successful. */
  lemma SendStepEffect(s: State, step: Step)
    requires Enabled(s, step) && (step.BeginSend? || step.CheckOpen? || step.Refuse?)
    ensures !SendIn(s, step.id, Succeeded)
    ensures exists c: SendCall :: !c.phase.Succeeded? && Next(s, step) == s.(sends := s.sends[step.id := c])
  {
    assert Next(s, step) == s.(sends := s.sends[step.id := Next(s, step).sends[step.id]]);
  }

  lemma SendStepKeepsOrder(s: State, step: Step)
    requires OrderInv(s) && Enabled(s, step) && (step.BeginSend? || step.CheckOpen? || step.Refuse?)
    ensures OrderInv(Next(s, step))
  {
    hide Next, Enabled;
    SendStepEffect(s, step);
    var c: SendCall :| !c.phase.Succeeded? && Next(s, step) == s.(sends := s.sends[step.id := c]);
    var s' := s.(sends := s.sends[step.id := c]);
    forall i | 0 <= i < |s.accepted| ensures s.accepted[i] in s.sends && s.accepted[i] != step.id {
      AcceptedKnown(s, i);
    }
    assert Accepted(s') == Accepted(s);
    forall k ensures k in s'.accepted <==> SendIn(s', k, Succeeded) {
      assert k in s.accepted <==> SendIn(s, k, Succeeded);
    }
  }

  lemma StepKeepsOrder(s: State, step: Step)
    requires OrderInv(s) && Enabled(s, step)
    ensures OrderInv(Next(s, step))
  {
    hide OrderInv, Next, Enabled;
    match step
    case Enqueue(id) => EnqueueKeepsOrder(s, id);
    case BeginSend(_, _) => SendStepKeepsOrder(s, step);
    case CheckOpen(_) => SendStepKeepsOrder(s, step);
    case Refuse(_) => SendStepKeepsOrder(s, step);
    case _ => OtherStepKeepsOrder(s, step);
  }

  // ---------------------------------------------------------------- closing

  ghost predicate Winner(s: State, cid: nat) {
    cid in s.closers && (s.closers[cid].Won? || s.closers[cid].Cancelled? || s.closers[cid].Finished?)
  }

  /** What the phase of a winning closer says about the session. */
  ghost predicate CloserInv(s: State, p: ClosePhase) {
    && (p.Won? || p.Cancelled? ==> !s.outboxClosed)
    && (!p.Arrived? ==> s.closed)
    && (p.Cancelled? ==> s.ctxDone)
    && (p.Finished? ==> s.outboxClosed)
  }

  ghost predicate CloseInv(s: State) {
    && (forall c, c' :: Winner(s, c) && Winner(s, c') ==> c == c')
    && (forall c :: c in s.closers ==> CloserInv(s, s.closers[c]))
    && s.closes == (if s.outboxClosed then 1 else 0)
    && (s.outboxClosed ==> s.closed && s.ctxDone)
    && (s.closed ==> exists c :: Winner(s, c))
  }

  ghost predicate ClosingStep(step: Step) {
    step.BeginClose? || step.Swap? || step.CancelContext? || step.CloseOutbox? || step.WriteError?
  }

  /** Every other step leaves the closers and the close of the outbox alone. */
  lemma OtherStepLeavesClose(s: State, step: Step)
    requires Enabled(s, step) && !ClosingStep(step)
    ensures var s' := Next(s, step);
            && s'.closers == s.closers && s'.closed == s.closed && s'.outboxClosed == s.outboxClosed
            && s'.closes == s.closes && (s.ctxDone ==> s'.ctxDone)
  {
  }

  /** A new closer, or one that lost. */
  lemma LoserKeepsClose(s: State, cid: nat, p: ClosePhase)
    requires CloseInv(s) && (p.Arrived? || (p.Lost? && s.closed)) && !Winner(s, cid)
    ensures CloseInv(s.(closers := s.closers[cid := p]))
  {
    var s' := s.(closers := s.closers[cid := p]);
    forall c ensures Winner(s', c) <==> Winner(s, c) {
    }
  }

  lemma CloseDependsOn(s: State, s': State)
    requires CloseInv(s) && s'.closers == s.closers && s'.closed == s.closed
    requires s'.outboxClosed == s.outboxClosed && s'.closes == s.closes && (s.ctxDone ==> s'.ctxDone)
    ensures CloseInv(s')
  {
    forall c ensures Winner(s', c) <==> Winner(s, c) {
    }
  }

  /** The winner's progress, from its swap on. */
  lemma WinnerKeepsClose(s: State, step: Step)
    requires CloseInv(s) && Enabled(s, step)
    requires (step.Swap? && !s.closed) || step.CancelContext? || step.CloseOutbox?
    ensures CloseInv(Next(s, step))
  {
    var s' := Next(s, step);
    assert Winner(s', step.cid);
    assert !step.Swap? ==> Winner(s, step.cid);
    forall c | Winner(s', c) ensures c == step.cid { assert c != step.cid ==> Winner(s, c); }
    forall c | c in s'.closers ensures CloserInv(s', s'.closers[c]) {
      if c != step.cid { assert CloserInv(s, s.closers[c]) && !Winner(s, c); }
    }
  }

  lemma StepKeepsClose(s: State, step: Step)
    requires CloseInv(s) && Enabled(s, step)
    ensures CloseInv(Next(s, step))
  {
    hide CloseInv, CloserInv;
    match step
    case BeginClose(cid) => LoserKeepsClose(s, cid, Arrived);
    case WriteError(cid) =>
      LoserKeepsClose(s, cid, Arrived);
      CloseDependsOn(s.(closers := s.closers[cid := Arrived]), Next(s, step));
    case Swap(cid) => if s.closed { LoserKeepsClose(s, cid, Lost); } else { WinnerKeepsClose(s, step); }
    case CancelContext(cid) => WinnerKeepsClose(s, step);
    case CloseOutbox(cid) => WinnerKeepsClose(s, step);
    case _ =>
      OtherStepLeavesClose(s, step);
      CloseDependsOn(s, Next(s, step));
  }

  /** A send that began after the flag was set never gets past its check. */
  ghost predicate LateInv(s: State) {
    && (forall id :: id in s.sends && s.sends[id].late ==> s.closed)
    && (forall id :: SendIn(s, id, Selecting) || SendIn(s, id, Succeeded) ==> !s.sends[id].late)
  }

  lemma StepKeepsLate(s: State, step: Step)
    requires LateInv(s) && Enabled(s, step)
    ensures LateInv(Next(s, step))
  {
  }

  /** When the writer may leave: it drains, and leaves by draining, only once the context is
      done. */
  ghost predicate ExitInv(s: State) {
    && (s.writer.ClosingAfterError? ==> s.writer.closer in s.closers)
    && (s.writer.Draining? || s.writer == Exited(Drained) || s.writer == Exited(TimedOut) ==> s.ctxDone)
    && (s.writer == Exited(OutboxClosed) ==> s.outboxClosed && s.outbox == [])
    && (s.writer == Exited(WriteFailed) ==> s.closed)
  }

  lemma StepKeepsExit(s: State, step: Step)
    requires CloseInv(s) && ExitInv(s) && Enabled(s, step)
    ensures ExitInv(Next(s, step))
  {
  }

  // ---------------------------------------------------------------- all runs

  ghost predicate Inv(s: State) {
    OrderInv(s) && CloseInv(s) && LateInv(s) && ExitInv(s)
  }

  lemma InitialInv(s: State)
    requires Initial(s)
    ensures Inv(s)
  {
  }

  lemma StepKeepsInv(s: State, s': State)
    requires Inv(s) && CanStep(s, s')
    ensures Inv(s')
  {
    hide Next, Enabled, OrderInv, CloseInv, LateInv, ExitInv;
    var step :| Enabled(s, step) && s' == Next(s, step);
    StepKeepsOrder(s, step);
    StepKeepsClose(s, step);
    StepKeepsLate(s, step);
    StepKeepsExit(s, step);
  }

  lemma {:induction false} PathKeepsInv(path: seq<State>, n: nat)
    requires IsPath(path) && n < |path| && Inv(path[0])
    ensures Inv(path[n])
  {
    hide Inv, CanStep;
    if n > 0 {
      PathKeepsInv(path, n - 1);
      assert CanStep(path[n - 1], path[n]);
      StepKeepsInv(path[n - 1], path[n]);
    }
  }

  lemma RunKeepsInv(run: seq<State>, n: nat)
    requires IsRun(run) && n < |run|
    ensures Inv(run[n])
  {
    hide Initial, Inv;
    InitialInv(run[0]);
    PathKeepsInv(run, n);
  }

  /** Outbox order: what the writer took, followed by the outbox, is exactly the accepted
      messages in order. Each accepted send appears once, and a send reports success exactly
      when its message was enqueued. */
  lemma OutboxKeepsOrder(run: seq<State>, n: nat)
    requires IsRun(run) && n < |run|
    ensures var s := run[n];
            && (forall id :: id in s.accepted <==> SendIn(s, id, Succeeded))
            && (forall i, j :: 0 <= i < j < |s.accepted| ==> s.accepted[i] != s.accepted[j])
            && s.taken + s.outbox == Accepted(s) && s.taken <= Accepted(s) && |s.outbox| <= OUTBOX_SIZE
  {
    hide CloseInv, LateInv, ExitInv;
    RunKeepsInv(run, n);
  }

  /** The outbox is closed at most once, and the close is never a second one: whoever is
      about to execute it finds the channel open. */
  lemma OutboxClosedOnce(run: seq<State>, n: nat, cid: nat)
    requires IsRun(run) && n < |run|
    ensures run[n].closes <= 1
    ensures Enabled(run[n], CloseOutbox(cid)) ==> !run[n].outboxClosed && run[n].ctxDone
  {
    hide OrderInv, LateInv, ExitInv;
    RunKeepsInv(run, n);
  }

  /** No send that began after the winning close succeeds. */
  lemma NoSuccessAfterClose(run: seq<State>, n: nat, id: nat)
    requires IsRun(run) && n < |run| && id in run[n].sends && run[n].sends[id].late
    ensures run[n].closed && !run[n].sends[id].phase.Succeeded?
  {
    hide OrderInv, CloseInv, ExitInv;
    RunKeepsInv(run, n);
  }

  /** A writer that gave up on a write error has closed the session. */
  lemma FailedWriteCloses(run: seq<State>, n: nat)
    requires IsRun(run) && n < |run| && run[n].writer == Exited(WriteFailed)
    ensures run[n].closed
  {
    hide OrderInv, CloseInv, LateInv;
    RunKeepsInv(run, n);
  }

  // ---------------------------------------------------------------- the writer goes on

  /** The writer leaves only a session that is closed or whose context is done. */
  lemma ExitMeansOver(run: seq<State>, n: nat)
    requires IsRun(run) && n < |run| && run[n].writer.Exited?
    ensures match run[n].writer.reason
            case OutboxClosed => run[n].outboxClosed && run[n].ctxDone
            case WriteFailed => run[n].closed
            case Drained => run[n].ctxDone
            case TimedOut => run[n].ctxDone
  {
    hide OrderInv, LateInv;
    RunKeepsInv(run, n);
  }

  /** A step of the writer's goroutine in which no write fails and no time runs out. */
  ghost predicate OfWriter(step: Step) {
    || step.Receive? || step.SeeOutboxClosed? || step.SeeDone? || step.WriteOk? || step.DrainReceive? || step.DrainEnd?
  }

  ghost predicate WriterCanStep(s: State, s': State) {
    exists step :: OfWriter(step) && Enabled(s, step) && s' == Next(s, step)
  }

  ghost predicate IsWriterPath(path: seq<State>) {
    |path| > 0 && forall i :: 0 <= i < |path| - 1 ==> WriterCanStep(path[i], path[i + 1])
  }

  ghost function TakeOfWriter(s: State, step: Step): (s': State)
    requires OfWriter(step) && Enabled(s, step)
    ensures s' == Next(s, step) && WriterCanStep(s, s')
  {
    Next(s, step)
  }

  /** The writer alone writes out the whole outbox, message by message. */
  lemma {:induction false} WriteOut(s: State) returns (path: seq<State>)
    requires s.writer.Idle? || s.writer.Writing?
    ensures IsWriterPath(path) && path[0] == s
    ensures path[|path| - 1] == s.(writer := Idle, outbox := [], taken := s.taken + s.outbox)
    decreases |s.outbox|, if s.writer.Writing? then 1 else 0
  {
    hide WriterCanStep;
    if s.writer.Writing? {
      var rest := WriteOut(TakeOfWriter(s, WriteOk));
      path := [s] + rest;
    } else if s.outbox == [] {
      path := [s];
      assert s.taken + s.outbox == s.taken;
    } else {
      var s' := TakeOfWriter(s, Receive);
      var rest := WriteOut(s');
      path := [s] + rest;
      assert s'.taken + s'.outbox == s.taken + s.outbox;
    }
  }

  lemma {:induction false} DrainOut(s: State) returns (path: seq<State>)
    requires s.writer.Draining?
    ensures IsWriterPath(path) && path[0] == s
    ensures path[|path| - 1] == s.(writer := Exited(Drained), outbox := [], taken := s.taken + s.outbox)
    decreases |s.outbox|
  {
    hide WriterCanStep;
    if s.outbox == [] {
      path := [s, TakeOfWriter(s, DrainEnd)];
      assert s.taken + s.outbox == s.taken;
    } else {
      var s' := TakeOfWriter(s, DrainReceive);
      var rest := DrainOut(s');
      path := [s] + rest;
      assert s'.taken + s'.outbox == s.taken + s.outbox;
    }
  }

  lemma JoinWriter(a: seq<State>, b: seq<State>)
    requires IsWriterPath(a) && IsWriterPath(b) && b[0] == a[|a| - 1]
    ensures IsWriterPath(a + b[1..]) && (a + b[1..])[|a| + |b| - 2] == b[|b| - 1]
  {
    hide WriterCanStep;
    var c := a + b[1..];
    forall i | 0 <= i < |c| - 1 ensures WriterCanStep(c[i], c[i + 1]) {
      if i >= |a| - 1 { assert c[i] == b[i + 1 - |a|] && c[i + 1] == b[i + 2 - |a|]; }
    }
  }

  /** The writer alone can empty the outbox. */
  ghost predicate CanWriteOut(s: State) {
    exists path: seq<State> :: IsWriterPath(path) && path[0] == s && path[|path| - 1].outbox == []
  }

  lemma NotOverNotLeft(s: State)
    requires CloseInv(s) && ExitInv(s) && !s.closed && !s.ctxDone
    ensures s.writer.Idle? || s.writer.Writing? || s.writer.ClosingAfterError?
  {
    hide CloserInv;
    match s.writer
    case Exited(OutboxClosed) =>
    case Exited(_) =>
    case _ =>
  }

  lemma StuckAfterError(s: State, step: Step)
    requires s.writer.ClosingAfterError? && OfWriter(step)
    ensures !Enabled(s, step)
  {
  }

  /** While the session is open and its context live, the writer alone can take and write all
      accepted messages, unless a write has failed and the writer is about to close. */
  lemma OpenSessionWritesOut(run: seq<State>, n: nat)
    requires IsRun(run) && n < |run| && !run[n].closed && !run[n].ctxDone
    ensures CanWriteOut(run[n]) <==> run[n].outbox == [] || !run[n].writer.ClosingAfterError?
  {
    hide WriterCanStep, OrderInv, LateInv, Initial;
    var s := run[n];
    RunKeepsInv(run, n);
    NotOverNotLeft(s);
    if s.outbox == [] {
      assert IsWriterPath([s]);
    } else if s.writer.ClosingAfterError? {
      forall path: seq<State> | IsWriterPath(path) && path[0] == s ensures |path| == 1 {
        if |path| > 1 { NoWriterStep(s, path[1]); }
      }
    } else {
      var path := WriteOut(s);
    }
  }

  lemma NoWriterStep(s: State, s': State)
    requires s.writer.ClosingAfterError?
    ensures !WriterCanStep(s, s')
  {
    forall step | OfWriter(step) ensures !Enabled(s, step) { StuckAfterError(s, step); }
  }

  /** And once the context is done, a writer that has not left and has not failed can drain all
      that is left and leave. */
  lemma DoneSessionDrains(s: State) returns (path: seq<State>)
    requires s.ctxDone && (s.writer.Idle? || s.writer.Writing? || s.writer.Draining?)
    ensures IsWriterPath(path) && path[0] == s
    ensures path[|path| - 1] == s.(writer := Exited(Drained), outbox := [], taken := s.taken + s.outbox)
  {
    hide WriterCanStep;
    if s.writer.Draining? {
      path := DrainOut(s);
    } else {
      var a := WriteOut(s);
      var t := a[|a| - 1];
      var u := TakeOfWriter(t, SeeDone);
      JoinWriter(a, [t, u]);
      var b := DrainOut(u);
      JoinWriter(a + [t, u][1..], b);
      path := a + [t, u][1..] + b[1..];
    }
  }

  /** Nor does a closed outbox hold the writer: it can write what is left and leave. */
  lemma ClosedOutboxEndsWriter(s: State) returns (path: seq<State>)
    requires s.outboxClosed && (s.writer.Idle? || s.writer.Writing?)
    ensures IsWriterPath(path) && path[0] == s
    ensures path[|path| - 1] == s.(writer := Exited(OutboxClosed), outbox := [], taken := s.taken + s.outbox)
  {
    hide WriterCanStep;
    var a := WriteOut(s);
    var t := a[|a| - 1];
    var u := TakeOfWriter(t, SeeOutboxClosed);
    JoinWriter(a, [t, u]);
    path := a + [t, u][1..];
  }

  ghost function NextOfClose(p: ClosePhase, cid: nat): Step {
    match p
    case Arrived => Swap(cid)
    case Won => CancelContext(cid)
    case _ => CloseOutbox(cid)
  }

  /** A Close call can always run to its end, and the session is closed then. */
  lemma {:induction false} CloseCompletes(s: State, cid: nat) returns (path: seq<State>)
    requires cid in s.closers && CloseInv(s)
    ensures IsPath(path) && path[0] == s
    ensures var t := path[|path| - 1];
            && CloseInv(t) && t == s.(closed := true, ctxDone := t.ctxDone, outboxClosed := t.outboxClosed,
                                      closes := t.closes, closers := t.closers)
            && (CloseIn(t, cid, Finished) || CloseIn(t, cid, Lost))
            && (CloseIn(t, cid, Finished) ==> t.ctxDone && t.outboxClosed)
            && t.closers.Keys == s.closers.Keys
    decreases match s.closers[cid] case Arrived => 3 case Won => 2 case Cancelled => 1 case _ => 0
  {
    hide CanStep, CloseInv;
    if s.closers[cid].Finished? || s.closers[cid].Lost? {
      path := [s];
      PhaseMeans(s, cid);
    } else {
      var step := NextOfClose(s.closers[cid], cid);
      PhaseMeans(s, cid);
      StepKeepsClose(s, step);
      var rest := CloseCompletes(Take(s, step), cid);
      path := [s] + rest;
    }
  }

  lemma PhaseMeans(s: State, cid: nat)
    requires CloseInv(s) && cid in s.closers
    ensures !s.closers[cid].Arrived? ==> s.closed
    ensures s.closers[cid].Finished? ==> s.outboxClosed && s.ctxDone
  {
    assert CloserInv(s, s.closers[cid]);
  }

  /** A writer whose write failed can close the session and leave. */
  lemma FailedWriterCanLeave(s: State) returns (path: seq<State>)
    requires s.writer.ClosingAfterError? && CloseInv(s) && s.writer.closer in s.closers
    ensures IsPath(path) && path[0] == s
    ensures var t := path[|path| - 1];
            t.writer == Exited(WriteFailed) && t.closed && t.outbox == s.outbox && t.taken == s.taken
  {
    hide CanStep, CloseInv;
    var a := CloseCompletes(s, s.writer.closer);
    var t := a[|a| - 1];
    path := a + [Take(t, ReturnAfterError)];
  }

  /** A failed write ends the session: the writer takes nothing more, closes and leaves. */
  lemma FailedWriteEndsSession(run: seq<State>, n: nat, cid: nat) returns (path: seq<State>)
    requires IsRun(run) && n < |run| && run[n].writer.Writing? && cid !in run[n].closers
    ensures IsPath(path) && path[0] == run[n] && |path| > 1 && path[1] == Next(run[n], WriteError(cid))
    ensures forall t :: !WriterCanStep(path[1], t)
    ensures var t := path[|path| - 1]; t.writer == Exited(WriteFailed) && t.closed && t.taken == run[n].taken
  {
    hide CanStep, OrderInv, LateInv, Initial, CloseInv, ExitInv;
    var s := run[n];
    RunKeepsInv(run, n);
    var s' := Take(s, WriteError(cid));
    StepKeepsClose(s, WriteError(cid));
    forall t ensures !WriterCanStep(s', t) { NoWriterStep(s', t); }
    var rest := FailedWriterCanLeave(s');
    path := [s] + rest;
  }

  /** A send call never hangs while the outbox has room, is closed, or the context is done: it
      can run to its end, and it fails when the flag was set before its check. */
  lemma {:induction false} SendCompletes(s: State, id: nat) returns (path: seq<State>)
    requires SendIn(s, id, Begun) || SendIn(s, id, Selecting)
    requires |s.outbox| < OUTBOX_SIZE || s.outboxClosed || s.ctxDone
    ensures IsPath(path) && path[0] == s
    ensures var t := path[|path| - 1];
            && (SendIn(t, id, Succeeded) || SendIn(t, id, Rejected))
            && (SendIn(s, id, Begun) && s.closed ==> SendIn(t, id, Rejected))
            && (SendIn(t, id, Succeeded) ==> t.accepted == s.accepted + [id])
    decreases if SendIn(s, id, Begun) then 1 else 0
  {
    hide CanStep;
    if SendIn(s, id, Begun) {
      var s' := Take(s, CheckOpen(id));
      if s.closed {
        path := [s, s'];
      } else {
        var rest := SendCompletes(s', id);
        path := [s] + rest;
      }
    } else if !s.outboxClosed && |s.outbox| < OUTBOX_SIZE {
      path := [s, Take(s, Enqueue(id))];
    } else {
      path := [s, Take(s, Refuse(id))];
    }
  }

  lemma DrainedStep(s: State, step: Step)
    requires Enabled(s, step) && !s.writer.Exited? && Next(s, step).writer == Exited(Drained)
    ensures s.outbox == [] && s.writer.Draining?
  {
  }

  /** A writer that left by draining had found the outbox empty. */
  lemma {:induction false} DrainedWasEmpty(run: seq<State>, n: nat) returns (m: nat)
    requires IsRun(run) && n < |run| && run[n].writer == Exited(Drained)
    ensures m < n && run[m].writer.Draining? && run[m].outbox == []
    ensures forall k :: m < k <= n ==> run[k].writer == Exited(Drained)
  {
    hide Next, Enabled;
    assert n > 0;
    assert CanStep(run[n - 1], run[n]);
    var step :| Enabled(run[n - 1], step) && run[n] == Next(run[n - 1], step);
    if run[n - 1].writer.Exited? {
      ExitStays(run[n - 1], step);
      m := DrainedWasEmpty(run, n - 1);
    } else {
      DrainedStep(run[n - 1], step);
      m := n - 1;
    }
  }

  lemma ExitStays(s: State, step: Step)
    requires s.writer.Exited? && Enabled(s, step)
    ensures Next(s, step).writer == s.writer
  {
  }

  // ---------------------------------------------------------------- what the writer leaves behind

  /** Every message ever accepted has been taken by the writer. */
  ghost predicate AllTaken(s: State) {
    (forall id :: id in s.accepted ==> id in s.sends) && s.taken == Accepted(s)
  }

  /** The same in every state that can follow. */
  ghost predicate AllTakenForGood(s: State) {
    forall path :: IsPath(path) && path[0] == s ==> AllTaken(path[|path| - 1])
  }

  /** No send can get into the outbox any more: it is closed, or the flag is set and no send
      stands at its select. */
  ghost predicate Sealed(s: State) {
    s.outboxClosed || (s.closed && forall id :: !SendIn(s, id, Selecting))
  }

  lemma AllTakenIffEmpty(s: State)
    requires OrderInv(s)
    ensures AllTaken(s) <==> s.outbox == []
  {
    assert s.outbox == [] ==> s.taken + s.outbox == s.taken;
    assert |s.taken + s.outbox| == |s.taken| + |s.outbox|;
  }

  lemma SealedStays(s: State, step: Step)
    requires Sealed(s) && s.writer.Exited? && s.outbox == [] && Enabled(s, step)
    ensures var s' := Next(s, step); Sealed(s') && s'.writer == s.writer && s'.outbox == []
  {
    var s' := Next(s, step);
    forall id | SendIn(s', id, Selecting) ensures SendIn(s, id, Selecting) || !s.closed {
    }
  }

  lemma {:induction false} SealedPath(path: seq<State>, n: nat)
    requires IsPath(path) && n < |path|
    requires Sealed(path[0]) && path[0].writer.Exited? && path[0].outbox == []
    ensures Sealed(path[n]) && path[n].writer == path[0].writer && path[n].outbox == []
  {
    hide Next, Enabled, Sealed;
    if n > 0 {
      SealedPath(path, n - 1);
      assert CanStep(path[n - 1], path[n]);
      var step :| Enabled(path[n - 1], step) && path[n] == Next(path[n - 1], step);
      SealedStays(path[n - 1], step);
    }
  }

  /** While it is not sealed, an outbox the writer has left empty can still be filled. */
  lemma UnsealedCanStrand(s: State) returns (path: seq<State>)
    requires !s.outboxClosed && s.outbox == [] && !Sealed(s)
    ensures IsPath(path) && path[0] == s && path[|path| - 1].outbox != []
  {
    hide CanStep;
    if id :| SendIn(s, id, Selecting) {
      path := [s, Take(s, Enqueue(id))];
    } else {
      var id := Unused(s.sends.Keys);
      var s1 := Take(s, BeginSend(id, ""));
      var s2 := Take(s1, CheckOpen(id));
      var s3 := Take(s2, Enqueue(id));
      path := [s, s1, s2, s3];
    }
  }

  /** Once the writer has gone, every successful send has been taken, then and in whatever
      follows, exactly when the outbox is empty and sealed. */
  lemma ExitLosesNothingIff(run: seq<State>, n: nat)
    requires IsRun(run) && n < |run| && run[n].writer.Exited?
    ensures AllTakenForGood(run[n]) <==> run[n].outbox == [] && Sealed(run[n])
  {
    hide Initial, CanStep, Sealed, AllTaken, OrderInv, CloseInv, LateInv, ExitInv;
    var s := run[n];
    RunKeepsInv(run, n);
    forall path: seq<State> | IsPath(path) && path[0] == s
      ensures AllTaken(path[|path| - 1]) <==> path[|path| - 1].outbox == []
    {
      PathKeepsInv(path, |path| - 1);
      AllTakenIffEmpty(path[|path| - 1]);
    }
    if s.outbox == [] && Sealed(s) {
      forall path: seq<State> | IsPath(path) && path[0] == s ensures path[|path| - 1].outbox == [] {
        SealedPath(path, |path| - 1);
      }
    } else if s.outbox != [] {
      assert IsPath([s]);
    } else {
      OpenUnlessSealed(s);
      var path := UnsealedCanStrand(s);
    }
  }

  lemma OpenUnlessSealed(s: State)
    requires !Sealed(s)
    ensures !s.outboxClosed
  {
  }

  /** A writer that leaves because the outbox is closed and empty leaves nothing behind:
      from then on, every message ever accepted has been taken. */
  lemma ClosedExitLosesNothing(run: seq<State>, i: nat, n: nat)
    requires IsRun(run) && i <= n < |run| && run[i].writer == Exited(OutboxClosed)
    ensures run[n].writer == Exited(OutboxClosed) && AllTaken(run[n])
  {
    hide Initial, CanStep, AllTaken, OrderInv, CloseInv, LateInv;
    RunKeepsInv(run, i);
    ExitLosesNothingIff(run, i);
    var path := run[i..n + 1];
    assert IsPath(path) && path[0] == run[i] && path[|path| - 1] == run[n] by {
      forall k | 0 <= k < |path| - 1 ensures CanStep(path[k], path[k + 1]) {
        assert path[k] == run[i + k] && path[k + 1] == run[i + k + 1];
      }
    }
    SealedPath(path, n - i);
  }

  /** Leaving through the drain gives no such promise: a send can report success after the
      writer has gone, and its message is never taken. */
  lemma SuccessCanBeStranded(msg: Message) returns (run: seq<State>)
    ensures IsRun(run)
    ensures var s := run[|run| - 1];
            SendIn(s, 1, Succeeded) && s.writer == Exited(Drained) && s.taken == [] && s.outbox == [msg]
  {
    hide CanStep, Next, Enabled;
    var s0 := State(false, false, [], false, map[], map[], Idle, [], [], 0);
    var a := SelectingThenCancelled(s0, 1, msg);
    var b := DrainThenEnqueue(a[3], 1);
    run := a + b[1..];
  }

  /** A send reaches its select just before the parent context is cancelled. */
  lemma SelectingThenCancelled(s: State, id: nat, msg: Message) returns (run: seq<State>)
    requires id !in s.sends && !s.closed
    ensures |run| == 4 && run[0] == s && forall i :: 0 <= i < 3 ==> CanStep(run[i], run[i + 1])
    ensures run[3] == s.(sends := s.sends[id := SendCall(msg, Selecting, false)], ctxDone := true)
  {
    hide CanStep;
    var s1 := Take(s, BeginSend(id, msg));
    var s2 := Take(s1, CheckOpen(id));
    var s3 := Take(s2, ParentCancelled);
    assert s3.sends == s.sends[id := SendCall(msg, Selecting, false)];
    run := [s, s1, s2, s3];
  }

  /** The idle writer drains an empty outbox and leaves; then the send enqueues. */
  lemma DrainThenEnqueue(s: State, id: nat) returns (run: seq<State>)
    requires SendIn(s, id, Selecting) && s.writer.Idle? && s.ctxDone && s.outbox == [] && !s.outboxClosed
    ensures |run| == 4 && run[0] == s && forall i :: 0 <= i < 3 ==> CanStep(run[i], run[i + 1])
    ensures run[3] == SetSend(s, id, Succeeded).(writer := Exited(Drained), outbox := [s.sends[id].msg],
                                                 accepted := s.accepted + [id])
  {
    hide CanStep;
    var s1 := Take(s, SeeDone);
    var s2 := Take(s1, DrainEnd);
    var s3 := Take(s2, Enqueue(id));
    run := [s, s1, s2, s3];
  }

  ghost function Take(s: State, step: Step): (s': State)
    requires Enabled(s, step)
    ensures s' == Next(s, step) && CanStep(s, s')
  {
    Next(s, step)
  }
}
