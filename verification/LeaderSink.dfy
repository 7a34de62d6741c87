/** A listener's sink: a one-slot leader channel, a bounded membership channel and a
    done flag. First the channel operations as they run undisturbed, then the machine
    of all interleavings: any number of enqueueLeader calls, the membership producer
    and the single consumer. Every select statement is one atomic step. */
module LeaderSink {
  import opened Sequences

  datatype LeaderEventType = Elected | Resigned | Expired
  datatype LeaderEvent = LeaderEvent(kind: LeaderEventType, member: string, epoch: nat)

  datatype MembershipEventType = Joined | Left | Updated
  datatype MembershipEvent = MembershipEvent(kind: MembershipEventType, member: string)

  const LISTENER_QUEUE_SIZE: nat := 16

  // ---------------------------------------------------------------- channels

  datatype Channels = Channels(leader: Option<LeaderEvent>, members: seq<MembershipEvent>, done: bool)

  /** `case leaderCh <- ev` with a default: sends only into an empty slot. */
  function SendLeader(ch: Channels, ev: LeaderEvent): Channels {
    if ch.leader.None? then ch.(leader := Some(ev)) else ch
  }

  function DrainLeader(ch: Channels): Channels {
    ch.(leader := None)
  }

  function SendMember(ch: Channels, ev: MembershipEvent): Channels {
    if |ch.members| < LISTENER_QUEUE_SIZE then ch.(members := ch.members + [ev]) else ch
  }

  class Sink {
    var leaderCh: Option<LeaderEvent>
    var memberCh: seq<MembershipEvent>
    var done: bool

    ghost function View(): Channels
      reads this
    {
      Channels(leaderCh, memberCh, done)
    }

    constructor ()
      ensures View() == Channels(None, [], false)
    {
      leaderCh, memberCh, done := None, [], false;
    }

    /** close() may be called any number of times. */
    method Close()
      modifies this
      ensures View() == old(View()).(done := true)
    {
      if !done { done := true; }
    }

    method TrySendLeader(ev: LeaderEvent) returns (sent: bool)
      modifies this`leaderCh
      ensures View() == SendLeader(old(View()), ev) && sent == old(leaderCh).None?
    {
      sent := leaderCh.None?;
      if sent { leaderCh := Some(ev); }
    }

    method TryDrainLeader()
      modifies this`leaderCh
      ensures View() == DrainLeader(old(View()))
    {
      leaderCh := None;
    }

    /** enqueueLeader undisturbed: on an open sink the event ends up in the slot whatever
        was there; a closed sink is left alone. */
    method EnqueueLeader(ev: LeaderEvent) returns (ok: bool)
      modifies this`leaderCh
      ensures ok == !done
      ensures View() == if done then old(View()) else old(View()).(leader := Some(ev))
    {
      if done { return false; }
      var sent := TrySendLeader(ev);
      if sent { return true; }
      TryDrainLeader();
      sent := TrySendLeader(ev);
      return sent;
    }

    method EnqueueMembership(ev: MembershipEvent) returns (ok: bool)
      modifies this`memberCh
      ensures ok == (!done && |old(memberCh)| < LISTENER_QUEUE_SIZE)
      ensures View() == if ok then SendMember(old(View()), ev) else old(View())
    {
      if done { return false; }
      if |memberCh| < LISTENER_QUEUE_SIZE {
        memberCh := memberCh + [ev];
        return true;
      }
      return false;
    }
  }

  // ---------------------------------------------------------------- the machine

  /** Where an enqueueLeader call stands: before each of its four selects, or returned.
      After its drain a call knows which push it removed, if any. */
  datatype CallPhase = Entered | Sending | Draining | Resending(removed: Option<nat>) | Returned(ok: bool)

  /** `since` is the number of pushes made when the call began, `late` that the sink was
      closed by then. */
  datatype Call = Call(ev: LeaderEvent, phase: CallPhase, since: nat, late: bool)

  /** Before its first select, before its second, inside a callback, or gone. */
  datatype Consumer = Polling | Waiting | InLeaderCallback | InMemberCallback | Stopped

  datatype State = State(
    ch: Channels,
    consumer: Consumer,
    calls: map<nat, Call>,
    pushes: seq<LeaderEvent>,             // every leader event put into the slot
    pushers: seq<nat>,                    // and the call that put it there
    handed: seq<LeaderEvent>,             // leader events OnLeaderChange was called with
    delivered: seq<nat>,                  // their positions in pushes
    offering: Option<MembershipEvent>,    // the membership producer is before its send
    offered: seq<MembershipEvent>,        // membership events whose enqueue has ended
    called: seq<MembershipEvent>,         // membership events OnMembershipChange was called with
    accepted: seq<nat>,                   // positions in offered that entered the queue
    dropped: nat)

  ghost function NewState(): State {
    State(Channels(None, [], false), Polling, map[], [], [], [], [], None, [], [], [], 0)
  }

  ghost predicate Initial(s: State) {
    s == NewState()
  }

  datatype Step =
    | Enter(id: nat, ev: LeaderEvent)
    | CheckDone(id: nat)
    | Send(id: nat)
    | Drain(id: nat)
    | Resend(id: nat)                     // third select: the slot is free
    | GiveUp(id: nat)                     // third select: done or default
    | TakeLeader                          // either select of the consumer; calls OnLeaderChange
    | PollEmpty
    | TakeMember                          // calls OnMembershipChange
    | CallbackReturns
    | Stop
    | Close
    | Offer(mev: MembershipEvent)         // enqueueMembership passes its done check
    | OfferClosed(mev: MembershipEvent)   // ... or fails it
    | Accept
    | Drop

  ghost predicate InPhase(s: State, id: nat, p: CallPhase) {
    id in s.calls && s.calls[id].phase == p
  }

  ghost predicate IsResending(s: State, id: nat) {
    id in s.calls && s.calls[id].phase.Resending?
  }

  ghost predicate AtSelect(s: State) {
    s.consumer.Polling? || s.consumer.Waiting?
  }

  ghost predicate Enabled(s: State, step: Step) {
    match step
    case Enter(id, _) => id !in s.calls
    case CheckDone(id) => InPhase(s, id, Entered)
    case Send(id) => InPhase(s, id, Sending)
    case Drain(id) => InPhase(s, id, Draining)
    case Resend(id) => IsResending(s, id) && s.ch.leader.None?
    case GiveUp(id) => IsResending(s, id) && (s.ch.leader.Some? || s.ch.done)
    case TakeLeader => AtSelect(s) && s.ch.leader.Some?
    case PollEmpty => s.consumer.Polling? && s.ch.leader.None? && !s.ch.done
    case TakeMember => s.consumer.Waiting? && s.ch.members != []
    case CallbackReturns => s.consumer.InLeaderCallback? || s.consumer.InMemberCallback?
    case Stop => AtSelect(s) && s.ch.done
    case Close => true
    case Offer(_) => s.offering.None? && !s.ch.done
    case OfferClosed(_) => s.offering.None? && s.ch.done
    case Accept => s.offering.Some? && |s.ch.members| < LISTENER_QUEUE_SIZE
    case Drop => s.offering.Some? && (|s.ch.members| >= LISTENER_QUEUE_SIZE || s.ch.done)
  }

  ghost function SetPhase(s: State, id: nat, p: CallPhase): State
    requires id in s.calls
  {
    s.(calls := s.calls[id := s.calls[id].(phase := p)])
  }

  /** Call id puts its event into the empty slot and returns true. */
  ghost function Push(s: State, id: nat): State
    requires id in s.calls
  {
    var ev := s.calls[id].ev;
    SetPhase(s, id, Returned(true))
      .(ch := SendLeader(s.ch, ev), pushes := s.pushes + [ev], pushers := s.pushers + [id])
  }

  ghost function Next(s: State, step: Step): State
    requires Enabled(s, step)
  {
    match step
    case Enter(id, ev) => s.(calls := s.calls[id := Call(ev, Entered, |s.pushes|, s.ch.done)])
    case CheckDone(id) => SetPhase(s, id, if s.ch.done then Returned(false) else Sending)
    case Send(id) => if s.ch.leader.None? then Push(s, id) else SetPhase(s, id, Draining)
    case Drain(id) =>
      var removed := if s.ch.leader.Some? then Some(LastPush(s)) else None;
      SetPhase(s, id, Resending(removed)).(ch := DrainLeader(s.ch))
    case Resend(id) => Push(s, id)
    case GiveUp(id) => SetPhase(s, id, Returned(false))
    case TakeLeader =>
      s.(ch := DrainLeader(s.ch), consumer := InLeaderCallback,
         handed := s.handed + [s.ch.leader.value], delivered := s.delivered + [LastPush(s)])
    case PollEmpty => s.(consumer := Waiting)
    case TakeMember =>
      s.(ch := s.ch.(members := s.ch.members[1..]), consumer := InMemberCallback,
         called := s.called + [s.ch.members[0]])
    case CallbackReturns => s.(consumer := Polling)
    case Stop => s.(consumer := Stopped)
    case Close => s.(ch := s.ch.(done := true))
    case Offer(mev) => s.(offering := Some(mev))
    case OfferClosed(mev) => s.(offered := s.offered + [mev], dropped := s.dropped + 1)
    case Accept =>
      s.(ch := SendMember(s.ch, s.offering.value), offering := None,
         offered := s.offered + [s.offering.value], accepted := s.accepted + [|s.offered|])
    case Drop => s.(offering := None, offered := s.offered + [s.offering.value], dropped := s.dropped + 1)
  }

  /** Position of the newest push; the slot, when full, holds that event. */
  ghost function LastPush(s: State): nat {
    if |s.pushes| == 0 then 0 else |s.pushes| - 1
  }

  ghost predicate CanStep(s: State, s': State) {
    exists step :: Enabled(s, step) && s' == Next(s, step)
  }

  /** A sequence of states in which each follows from the one before by a step. */
  ghost predicate IsPath(path: seq<State>) {
    |path| > 0 && forall i :: 0 <= i < |path| - 1 ==> CanStep(path[i], path[i + 1])
  }

  ghost predicate IsRun(run: seq<State>) {
    IsPath(run) && Initial(run[0])
  }

  ghost function Take(s: State, step: Step): (s': State)
    requires Enabled(s, step)
    ensures s' == Next(s, step) && CanStep(s, s')
  {
    Next(s, step)
  }

  /** Two paths, the second of which starts where the first ends. */
  lemma Join(a: seq<State>, b: seq<State>)
    requires IsPath(a) && IsPath(b) && b[0] == a[|a| - 1]
    ensures IsPath(a + b[1..]) && (a + b[1..])[|a| + |b| - 2] == b[|b| - 1]
  {
    hide CanStep;
    var c := a + b[1..];
    forall i | 0 <= i < |c| - 1 ensures CanStep(c[i], c[i + 1]) {
      if i >= |a| - 1 { assert c[i] == b[i + 1 - |a|] && c[i + 1] == b[i + 2 - |a|]; }
    }
  }

  // ---------------------------------------------------------------- leader events

  /** How many more selects an undisturbed call makes at most. */
  ghost function SelectsLeft(p: CallPhase): nat {
    match p
    case Entered => 4
    case Sending => 3
    case Draining => 2
    case Resending(_) => 1
    case Returned(_) => 0
  }

  /** The next select of a call that has not returned; it never blocks. */
  ghost function NextSelect(s: State, id: nat): Step
    requires id in s.calls
  {
    match s.calls[id].phase
    case Entered => CheckDone(id)
    case Sending => Send(id)
    case Draining => Drain(id)
    case _ => if s.ch.leader.None? then Resend(id) else GiveUp(id)
  }

  lemma CallsNeverBlock(s: State, id: nat)
    requires id in s.calls && !s.calls[id].phase.Returned?
    ensures Enabled(s, NextSelect(s, id)) && !NextSelect(s, id).Enter?
    ensures var s' := Next(s, NextSelect(s, id));
            && id in s'.calls && s'.calls == s.calls[id := s'.calls[id]] && s'.calls[id].ev == s.calls[id].ev
            && SelectsLeft(s'.calls[id].phase) < SelectsLeft(s.calls[id].phase)
  {
  }

  /** The leader events whose callback has returned. */
  ghost function Handled(s: State): seq<LeaderEvent> {
    if s.consumer.InLeaderCallback? && s.handed != [] then s.handed[..|s.handed| - 1] else s.handed
  }

  /** The listener was called with the newest push. */
  ghost predicate LastDelivered(s: State) {
    s.delivered != [] && s.delivered[|s.delivered| - 1] == |s.pushes| - 1
  }

  /** The listener was called with the newest push, and that callback has returned. */
  ghost predicate NewestHandled(s: State) {
    0 < |Handled(s)| <= |s.delivered| && s.delivered[|Handled(s)| - 1] == |s.pushes| - 1
  }

  /** The call stands between its drain, which removed the newest push, and its resend. */
  ghost predicate HoldsNewest(s: State, id: nat) {
    IsResending(s, id) && s.calls[id].phase.removed.Some? && s.calls[id].phase.removed.value == |s.pushes| - 1
  }

  ghost predicate NewestDisplaced(s: State) {
    exists id :: HoldsNewest(s, id)
  }

  /** Where the newest push is: in the slot, delivered, or held by a call. */
  ghost predicate NewestInv(s: State) {
    && (s.ch.leader.Some? ==> s.pushes != [] && s.ch.leader.value == s.pushes[|s.pushes| - 1] && !LastDelivered(s))
    && (s.ch.leader.None? && s.pushes != [] ==> LastDelivered(s) || NewestDisplaced(s) || s.ch.done)
  }

  ghost predicate HandedInv(s: State) {
    Selects(s.handed, s.pushes, s.delivered) && (s.consumer.InLeaderCallback? ==> s.handed != [])
  }

  ghost predicate SlotInv(s: State) {
    NewestInv(s) && HandedInv(s)
  }

  /** What a call knows about pushes made since it began, and about the push it removed. */
  ghost predicate CallInv(s: State, c: Call) {
    && c.since <= |s.pushes|
    && (c.phase.Resending? && s.ch.leader.Some? ==> c.since < |s.pushes|)
    && (c.phase.Returned? ==> c.since < |s.pushes| || (s.ch.done && !c.phase.ok))
    && (c.late ==> s.ch.done && (c.phase.Entered? || c.phase == Returned(false)))
    && (c.phase.Resending? && c.phase.removed.Some? ==> RemovedInv(s, c.phase.removed.value))
  }

  /** A removed push was not delivered and is not in the slot. */
  ghost predicate RemovedInv(s: State, k: nat) {
    k < |s.pushes| && k !in s.delivered && (s.ch.leader.Some? ==> k < |s.pushes| - 1)
  }

  ghost predicate CallsInv(s: State) {
    forall id :: id in s.calls ==> CallInv(s, s.calls[id])
  }

  lemma HolderStays(s: State, step: Step, id: nat)
    requires HoldsNewest(s, id) && Enabled(s, step) && Next(s, step).pushes == s.pushes
    requires step != GiveUp(id)
    ensures HoldsNewest(Next(s, step), id)
  {
  }

  lemma DrainHolds(s: State, id: nat)
    requires Enabled(s, Drain(id)) && s.ch.leader.Some? && s.pushes != []
    ensures HoldsNewest(Next(s, Drain(id)), id)
  {
  }

  lemma StepKeepsNewest(s: State, step: Step)
    requires NewestInv(s) && Enabled(s, step) && (s.delivered != [] ==> s.delivered[|s.delivered| - 1] < |s.pushes|)
    ensures NewestInv(Next(s, step))
  {
    hide HoldsNewest;
    var s' := Next(s, step);
    if step.Drain? && s.ch.leader.Some? {
      DrainHolds(s, step.id);
    } else if s'.pushes == s.pushes && NewestDisplaced(s) {
      var id :| HoldsNewest(s, id);
      if step != GiveUp(id) { HolderStays(s, step, id); }
    }
  }

  lemma StepKeepsHanded(s: State, step: Step)
    requires SlotInv(s) && Enabled(s, step)
    ensures HandedInv(Next(s, step))
  {
    hide NewestDisplaced;
    var s' := Next(s, step);
    if s'.pushes != s.pushes { SelectsLonger(s.handed, s.pushes, s.delivered, s'.pushes[|s.pushes|]); }
    if step.TakeLeader? {
      SelectsWithin(s.handed, s.pushes, s.delivered);
      assert s.delivered != [] ==> s.delivered[|s.delivered| - 1] in s.delivered;
      SelectsLast(s.handed, s.pushes, s.delivered);
    }
  }

  lemma StepKeepsSlotInv(s: State, step: Step)
    requires SlotInv(s) && Enabled(s, step)
    ensures SlotInv(Next(s, step))
  {
    hide NewestInv, Enabled, Next;
    StepKeepsNewest(s, step);
    StepKeepsHanded(s, step);
  }

  lemma PendingNotDelivered(s: State)
    requires SlotInv(s) && s.ch.leader.Some?
    ensures s.pushes != [] && |s.pushes| - 1 !in s.delivered
  {
    forall k | 0 <= k < |s.delivered| ensures s.delivered[k] < |s.pushes| - 1 {
      assert k < |s.delivered| - 1 ==> s.delivered[k] < s.delivered[|s.delivered| - 1];
    }
  }

  /** The call makes a step of its own. */
  lemma OwnStepKeepsCall(s: State, step: Step)
    requires Enabled(s, step) && Calls(step)
    requires s.ch.leader.Some? ==> s.pushes != [] && |s.pushes| - 1 !in s.delivered
    requires step.id in s.calls ==> CallInv(s, s.calls[step.id])
    ensures var s' := Next(s, step); step.id in s'.calls && CallInv(s', s'.calls[step.id])
  {
  }

  ghost predicate Calls(step: Step) {
    step.Enter? || step.CheckDone? || step.Send? || step.Drain? || step.Resend? || step.GiveUp?
  }

  /** What a step leaves a call of which it is not a step. */
  lemma OtherCallsStay(s: State, step: Step)
    requires Enabled(s, step)
    ensures var s' := Next(s, step);
            && (forall id :: id in s'.calls && !(Calls(step) && id == step.id) ==>
                  id in s.calls && s'.calls[id] == s.calls[id])
            && (s.ch.done ==> s'.ch.done)
            && (s'.pushes == s.pushes || (|s'.pushes| == |s.pushes| + 1 && s'.delivered == s.delivered))
            && (s'.pushes == s.pushes && s'.ch.leader.Some? ==> s.ch.leader.Some?)
            && (s'.delivered == s.delivered || (s.ch.leader.Some? && s'.delivered == s.delivered + [LastPush(s)]))
  {
  }

  lemma StepKeepsCall(s: State, step: Step, id: nat)
    requires Enabled(s, step) && id in Next(s, step).calls
    requires s.ch.leader.Some? ==> s.pushes != [] && |s.pushes| - 1 !in s.delivered
    requires id in s.calls ==> CallInv(s, s.calls[id])
    ensures CallInv(Next(s, step), Next(s, step).calls[id])
  {
    hide Enabled, Next;
    if Calls(step) && id == step.id { OwnStepKeepsCall(s, step); } else { OtherCallsStay(s, step); }
  }

  lemma StepKeepsCallsInv(s: State, step: Step)
    requires SlotInv(s) && CallsInv(s) && Enabled(s, step)
    ensures CallsInv(Next(s, step))
  {
    hide SlotInv, Enabled, Next, CallInv;
    if s.ch.leader.Some? { PendingNotDelivered(s); }
    var s' := Next(s, step);
    forall id | id in s'.calls ensures CallInv(s', s'.calls[id]) { StepKeepsCall(s, step, id); }
  }

  /** Every push belongs to a call that returned true. */
  ghost predicate PusherInv(s: State) {
    && |s.pushers| == |s.pushes|
    && forall k :: 0 <= k < |s.pushes| ==> PushedAs(s, s.pushers[k], s.pushes[k])
  }

  ghost predicate PushedAs(s: State, id: nat, ev: LeaderEvent) {
    id in s.calls && s.calls[id].phase == Returned(true) && s.calls[id].ev == ev
  }

  lemma StepKeepsPushed(s: State, step: Step, id: nat, ev: LeaderEvent)
    requires Enabled(s, step) && PushedAs(s, id, ev)
    ensures PushedAs(Next(s, step), id, ev)
  {
  }

  /** What a step does to the pushes. */
  lemma StepPushes(s: State, step: Step)
    requires Enabled(s, step)
    ensures var s' := Next(s, step);
            || (s'.pushes == s.pushes && s'.pushers == s.pushers)
            || (exists id :: PushesNow(s, s', id))
  {
    var s' := Next(s, step);
    if s'.pushes != s.pushes { assert PushesNow(s, s', step.id); }
  }

  /** The step is the send of call id into the slot. */
  ghost predicate PushesNow(s: State, s': State, id: nat) {
    && id in s.calls && !s.calls[id].phase.Returned? && s'.pushers == s.pushers + [id]
    && s'.pushes == s.pushes + [s.calls[id].ev] && PushedAs(s', id, s.calls[id].ev)
  }

  lemma StepKeepsPushers(s: State, step: Step)
    requires PusherInv(s) && Enabled(s, step)
    ensures PusherInv(Next(s, step))
  {
    hide Next, Enabled, PushedAs;
    var s' := Next(s, step);
    forall k | 0 <= k < |s.pushes| ensures PushedAs(s', s.pushers[k], s.pushes[k]) {
      StepKeepsPushed(s, step, s.pushers[k], s.pushes[k]);
    }
    StepPushes(s, step);
  }

  // ---------------------------------------------------------------- membership events

  ghost predicate MemberInv(s: State) {
    && Selects(s.called + s.ch.members, s.offered, s.accepted)
    && |s.offered| == |s.accepted| + s.dropped
    && |s.ch.members| <= LISTENER_QUEUE_SIZE
  }

  lemma StepKeepsMemberInv(s: State, step: Step)
    requires MemberInv(s) && Enabled(s, step)
    ensures MemberInv(Next(s, step))
  {
    hide Selects;
    var s' := Next(s, step);
    var before := s.called + s.ch.members;
    if s'.offered != s.offered {
      SelectsLonger(before, s.offered, s.accepted, s'.offered[|s.offered|]);
    }
    if step.Accept? { assert s'.called + s'.ch.members == before + [s.offering.value]; }
    if step.TakeMember? { assert s'.called + s'.ch.members == before; }
  }

  // ---------------------------------------------------------------- all runs

  ghost predicate Inv(s: State) {
    SlotInv(s) && CallsInv(s) && PusherInv(s) && MemberInv(s)
  }

  lemma InitialInv(s: State)
    requires Initial(s)
    ensures Inv(s)
  {
  }

  lemma StepKeepsInv(s: State, step: Step)
    requires Inv(s) && Enabled(s, step)
    ensures Inv(Next(s, step))
  {
    hide SlotInv, CallsInv, PusherInv, MemberInv, Next, Enabled;
    StepKeepsSlotInv(s, step);
    StepKeepsCallsInv(s, step);
    StepKeepsPushers(s, step);
    StepKeepsMemberInv(s, step);
  }

  lemma {:induction false} RunKeepsInv(run: seq<State>, n: nat)
    requires IsRun(run) && n < |run|
    ensures Inv(run[n])
  {
    hide Inv, Next, Enabled, Initial;
    if n == 0 {
      InitialInv(run[0]);
    } else {
      RunKeepsInv(run, n - 1);
      assert CanStep(run[n - 1], run[n]);
      var step :| Enabled(run[n - 1], step) && run[n] == Next(run[n - 1], step);
      StepKeepsInv(run[n - 1], step);
    }
  }

  /** Latest push wins: on an open sink the newest pushed event is pending in the slot, or
      it was the last one delivered; it is neither exactly while a call that removed it has
      not resent yet. */
  lemma LatestPushWins(run: seq<State>, n: nat)
    requires IsRun(run) && n < |run| && run[n].pushes != [] && !run[n].ch.done
    ensures var s := run[n];
            if s.ch.leader.Some? then s.ch.leader.value == s.pushes[|s.pushes| - 1] && !LastDelivered(s)
            else LastDelivered(s) <==> !NewestDisplaced(s)
  {
    RunKeepsInv(run, n);
    NewestIsWhere(run[n]);
  }

  lemma NewestIsWhere(s: State)
    requires Inv(s) && s.pushes != [] && !s.ch.done
    ensures if s.ch.leader.Some? then s.ch.leader.value == s.pushes[|s.pushes| - 1] && !LastDelivered(s)
            else LastDelivered(s) <==> !NewestDisplaced(s)
  {
    if s.ch.leader.None? && NewestDisplaced(s) {
      var id :| HoldsNewest(s, id);
      assert CallInv(s, s.calls[id]);
    }
  }

  /** Nothing is on its way to an open sink: all calls have returned, the slot is empty, no
      leader callback runs, and some event has been pushed. */
  ghost predicate Settled(s: State) {
    && !s.ch.done && s.ch.leader.None? && !s.consumer.InLeaderCallback? && s.pushes != []
    && forall id :: id in s.calls ==> s.calls[id].phase.Returned?
  }

  lemma SettledNotDisplaced(s: State)
    requires Settled(s)
    ensures !NewestDisplaced(s)
  {
  }

  lemma NewestHandledWhen(s: State)
    requires Inv(s) && s.pushes != [] && !s.ch.done
    ensures NewestHandled(s) <==> s.ch.leader.None? && !s.consumer.InLeaderCallback? && !NewestDisplaced(s)
  {
    hide CallsInv, MemberInv, PusherInv, NewestDisplaced, NewestInv;
    NewestIsWhere(s);
    assert |s.delivered| == |s.handed|;
    if s.consumer.InLeaderCallback? && |s.handed| > 1 {
      assert s.delivered[|s.handed| - 2] < s.delivered[|s.handed| - 1] < |s.pushes|;
    }
  }

  /** The newest push has been handled, callback included, exactly when the slot is empty,
      no leader callback is running and no call holds the newest push removed. */
  lemma NewestHandledIff(run: seq<State>, n: nat)
    requires IsRun(run) && n < |run| && run[n].pushes != [] && !run[n].ch.done
    ensures NewestHandled(run[n])
            <==> run[n].ch.leader.None? && !run[n].consumer.InLeaderCallback? && !NewestDisplaced(run[n])
  {
    hide Inv;
    RunKeepsInv(run, n);
    NewestHandledWhen(run[n]);
  }

  /** And that push is not older than any completed call: each completed call on an open
      sink, also one that returned false, has seen a push since it began. */
  lemma PushSinceEveryCall(run: seq<State>, n: nat, id: nat)
    requires IsRun(run) && n < |run| && id in run[n].calls && run[n].calls[id].phase.Returned?
    ensures run[n].calls[id].phase.ok || !run[n].ch.done ==> run[n].calls[id].since < |run[n].pushes|
  {
    RunKeepsInv(run, n);
    assert CallInv(run[n], run[n].calls[id]);
  }

  /** A call that begins after the sink was closed never gets to a send. */
  lemma ClosedSinkRefuses(run: seq<State>, n: nat, id: nat)
    requires IsRun(run) && n < |run| && id in run[n].calls && run[n].calls[id].late
    ensures run[n].ch.done && (run[n].calls[id].phase.Entered? || run[n].calls[id].phase == Returned(false))
  {
    RunKeepsInv(run, n);
    assert CallInv(run[n], run[n].calls[id]);
  }

  /** Delivered events are pushed events, each at most once and in push order. */
  lemma DeliveredInPushOrder(run: seq<State>, n: nat)
    requires IsRun(run) && n < |run|
    ensures Selects(run[n].handed, run[n].pushes, run[n].delivered)
  {
    RunKeepsInv(run, n);
  }

  /** Membership conservation: offered = called back + queued + dropped, the queue is
      bounded, and what was called back and queued is an in-order selection of what was
      offered. */
  lemma MembershipConserved(run: seq<State>, n: nat)
    requires IsRun(run) && n < |run|
    ensures var s := run[n];
            && |s.offered| == |s.called| + |s.ch.members| + s.dropped
            && |s.ch.members| <= LISTENER_QUEUE_SIZE
            && Selects(s.called + s.ch.members, s.offered, s.accepted)
  {
    RunKeepsInv(run, n);
  }

  lemma DropStep(s: State, step: Step)
    requires Enabled(s, step)
    ensures s.ch.done ==> Next(s, step).ch.done
    ensures s.dropped <= Next(s, step).dropped
    ensures !s.ch.done && s.dropped < Next(s, step).dropped ==> |s.ch.members| >= LISTENER_QUEUE_SIZE
  {
  }

  /** An open sink that has dropped a membership event had a full queue at that moment. */
  lemma {:induction false} DropMeansFullQueue(run: seq<State>, n: nat) returns (i: nat)
    requires IsRun(run) && n < |run| && !run[n].ch.done && run[n].dropped > 0
    ensures i < n && run[i].dropped < run[i + 1].dropped && |run[i].ch.members| == LISTENER_QUEUE_SIZE
  {
    hide Next, Enabled, SlotInv, CallsInv;
    assert n > 0;
    assert CanStep(run[n - 1], run[n]);
    var step :| Enabled(run[n - 1], step) && run[n] == Next(run[n - 1], step);
    DropStep(run[n - 1], step);
    RunKeepsInv(run, n - 1);
    if run[n - 1].dropped < run[n].dropped { i := n - 1; } else { i := DropMeansFullQueue(run, n - 1); }
  }

  /** Membership callbacks that may still start before the pending leader event is taken. */
  ghost function Allowance(s: State): nat {
    if s.consumer.Waiting? then 1 else 0
  }

  lemma PriorityStep(s: State, step: Step)
    requires Enabled(s, step) && s.ch.leader.Some? && Next(s, step).ch.leader.Some?
    ensures |Next(s, step).called| + Allowance(Next(s, step)) <= |s.called| + Allowance(s)
  {
  }

  /** Leader priority: while the leader slot stays occupied at most one membership
      callback starts, and none once the consumer is back at its poll. */
  lemma {:induction false} LeaderPriority(run: seq<State>, i: nat, j: nat)
    requires IsRun(run) && i <= j < |run|
    requires forall k :: i <= k <= j ==> run[k].ch.leader.Some?
    ensures |run[j].called| + Allowance(run[j]) <= |run[i].called| + Allowance(run[i])
    ensures |run[j].called| <= |run[i].called| + 1
  {
    hide Enabled, Next;
    if i < j {
      LeaderPriority(run, i, j - 1);
      assert CanStep(run[j - 1], run[j]);
      var step :| Enabled(run[j - 1], step) && run[j] == Next(run[j - 1], step);
      PriorityStep(run[j - 1], step);
    }
  }

  // ---------------------------------------------------------------- the consumer goes on

  /** The steps of the consumer's goroutine. */
  ghost predicate OfConsumer(step: Step) {
    step.TakeLeader? || step.PollEmpty? || step.TakeMember? || step.CallbackReturns? || step.Stop?
  }

  ghost predicate ConsumerCanStep(s: State, s': State) {
    exists step :: OfConsumer(step) && Enabled(s, step) && s' == Next(s, step)
  }

  /** A path on which nobody but the consumer moves. */
  ghost predicate IsConsumerPath(path: seq<State>) {
    |path| > 0 && forall i :: 0 <= i < |path| - 1 ==> ConsumerCanStep(path[i], path[i + 1])
  }

  ghost function TakeOfConsumer(s: State, step: Step): (s': State)
    requires OfConsumer(step) && Enabled(s, step)
    ensures s' == Next(s, step) && ConsumerCanStep(s, s')
  {
    Next(s, step)
  }

  lemma StoppedStep(s: State, step: Step)
    requires Enabled(s, step) && (s.consumer.Stopped? ==> s.ch.done)
    ensures Next(s, step).consumer.Stopped? ==> Next(s, step).ch.done
  {
  }

  /** The consumer leaves only once the sink is closed. */
  lemma {:induction false} StoppedMeansClosed(run: seq<State>, n: nat)
    requires IsRun(run) && n < |run|
    ensures run[n].consumer.Stopped? ==> run[n].ch.done
  {
    hide Next, Enabled;
    if n > 0 {
      StoppedMeansClosed(run, n - 1);
      assert CanStep(run[n - 1], run[n]);
      var step :| Enabled(run[n - 1], step) && run[n] == Next(run[n - 1], step);
      StoppedStep(run[n - 1], step);
    }
  }

  /** Whatever it is doing, a consumer that has not left can come back to its first select. */
  lemma BackToPoll(s: State) returns (path: seq<State>)
    requires s.consumer.InLeaderCallback? || s.consumer.InMemberCallback? || s.consumer.Polling?
    ensures IsConsumerPath(path) && path[0] == s && path[|path| - 1] == s.(consumer := Polling)
  {
    hide ConsumerCanStep;
    path := if s.consumer.Polling? then [s] else [s, TakeOfConsumer(s, CallbackReturns)];
  }

  lemma JoinConsumer(a: seq<State>, b: seq<State>)
    requires IsConsumerPath(a) && IsConsumerPath(b) && b[0] == a[|a| - 1]
    ensures IsConsumerPath(a + b[1..]) && (a + b[1..])[|a| + |b| - 2] == b[|b| - 1]
  {
    hide ConsumerCanStep;
    var c := a + b[1..];
    forall i | 0 <= i < |c| - 1 ensures ConsumerCanStep(c[i], c[i + 1]) {
      if i >= |a| - 1 { assert c[i] == b[i + 1 - |a|] && c[i + 1] == b[i + 2 - |a|]; }
    }
  }

  /** A pending leader event of an open sink is never stuck: the consumer alone, wherever it
      stands, gets to call the listener with it, and to return from that callback. */
  lemma PendingCanBeHandled(run: seq<State>, n: nat) returns (path: seq<State>)
    requires IsRun(run) && n < |run| && !run[n].ch.done && run[n].ch.leader.Some?
    ensures IsConsumerPath(path) && path[0] == run[n]
    ensures var s, t := run[n], path[|path| - 1];
            && Handled(t) == s.handed + [s.ch.leader.value] && t.ch == s.ch.(leader := None)
            && t.consumer.Polling? && t.called == s.called
  {
    hide ConsumerCanStep, Initial;
    var s := run[n];
    StoppedMeansClosed(run, n);
    var back := [s];
    if !s.consumer.Waiting? { back := BackToPoll(s); }
    var t := back[|back| - 1];
    var u := TakeOfConsumer(t, TakeLeader);
    var rest := [t, u, TakeOfConsumer(u, CallbackReturns)];
    JoinConsumer(back, rest);
    path := back + rest[1..];
  }

  /** Nor is the head of the membership queue while no leader event is pending. */
  lemma QueuedCanBeHandled(run: seq<State>, n: nat) returns (path: seq<State>)
    requires IsRun(run) && n < |run| && !run[n].ch.done && run[n].ch.leader.None? && run[n].ch.members != []
    ensures IsConsumerPath(path) && path[0] == run[n]
    ensures var s, t := run[n], path[|path| - 1];
            && t.called == s.called + [s.ch.members[0]] && t.ch == s.ch.(members := s.ch.members[1..])
            && t.consumer.Polling? && t.handed == s.handed
  {
    hide ConsumerCanStep, Initial;
    var s := run[n];
    StoppedMeansClosed(run, n);
    var wait := [s];
    if !s.consumer.Waiting? {
      var back := BackToPoll(s);
      var t := back[|back| - 1];
      JoinConsumer(back, [t, TakeOfConsumer(t, PollEmpty)]);
      wait := back + [t, TakeOfConsumer(t, PollEmpty)][1..];
    }
    var t := wait[|wait| - 1];
    var u := TakeOfConsumer(t, TakeMember);
    var rest := [t, u, TakeOfConsumer(u, CallbackReturns)];
    JoinConsumer(wait, rest);
    path := wait + rest[1..];
  }

  lemma ClosedConsumerCanStop(s: State) returns (path: seq<State>)
    requires s.ch.done
    ensures IsConsumerPath(path) && path[0] == s && path[|path| - 1].consumer.Stopped?
  {
    hide ConsumerCanStep;
    if s.consumer.Stopped? {
      path := [s];
    } else if s.consumer.Waiting? {
      path := [s, TakeOfConsumer(s, Stop)];
    } else {
      var back := BackToPoll(s);
      var t := back[|back| - 1];
      var u := TakeOfConsumer(t, Stop);
      JoinConsumer(back, [t, u]);
      path := back + [t, u][1..];
    }
  }

  /** Closing a listener does not hang: from any state the sink can be closed, and then the
      consumer alone can leave. */
  lemma CloseEndsConsumer(s: State) returns (closed: State, path: seq<State>)
    ensures CanStep(s, closed) && closed == s.(ch := s.ch.(done := true))
    ensures IsConsumerPath(path) && path[0] == closed && path[|path| - 1].consumer.Stopped?
  {
    hide CanStep, ConsumerCanStep;
    closed := Take(s, Close);
    path := ClosedConsumerCanStop(closed);
  }

  /** The membership producer never blocks: its next step ends the offer, one way or the other,
      and with room in an open sink the event is queued. */
  lemma OfferNeverBlocks(s: State) returns (step: Step)
    requires s.offering.Some?
    ensures (step.Accept? || step.Drop?) && Enabled(s, step)
    ensures Next(s, step).offering.None? && Next(s, step).offered == s.offered + [s.offering.value]
    ensures !s.ch.done && |s.ch.members| < LISTENER_QUEUE_SIZE ==>
              !Enabled(s, Drop) && Next(s, step).ch.members == s.ch.members + [s.offering.value]
  {
    step := if |s.ch.members| < LISTENER_QUEUE_SIZE then Accept else Drop;
  }

  /** enqueueMembership always ends: the event is queued if the sink is open and has room, and
      counted as dropped otherwise. */
  lemma EnqueueMembershipCompletes(s: State, mev: MembershipEvent) returns (path: seq<State>)
    requires s.offering.None? && |s.ch.members| <= LISTENER_QUEUE_SIZE
    ensures IsPath(path) && path[0] == s
    ensures var t := path[|path| - 1];
            && t.offering.None? && t.offered == s.offered + [mev]
            && if !s.ch.done && |s.ch.members| < LISTENER_QUEUE_SIZE
               then t.ch == s.ch.(members := s.ch.members + [mev]) && t.dropped == s.dropped
               else t.ch == s.ch && t.dropped == s.dropped + 1
  {
    hide CanStep;
    if s.ch.done {
      path := [s, Take(s, OfferClosed(mev))];
    } else {
      var s' := Take(s, Offer(mev));
      var step := OfferNeverBlocks(s');
      path := [s, s', Take(s', step)];
    }
  }
}
