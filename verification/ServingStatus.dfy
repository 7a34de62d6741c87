/** How the gRPC server reacts to leader events, and why coalescing them is safe for its
    health status. */
module ServingStatus {
  import opened Sequences
  import opened LeaderSink

  /** The health of the two services and the open worker sessions. */
  datatype Health = Health(management: bool, controlPlane: bool, sessions: set<string>)

  /** The event says that node `own` is the leader. */
  predicate Leads(ev: LeaderEvent, own: string) {
    ev.kind.Elected? && ev.member == own
  }

  function Handle(h: Health, ev: LeaderEvent, own: string): Health {
    if Leads(ev, own) then h.(management := true, controlPlane := true) else Health(false, false, {})
  }

  class GrpcServer {
    const nodeName: string
    var managementServing: bool
    var controlPlaneServing: bool
    var sessions: set<string>

    ghost function View(): Health
      reads this
    {
      Health(managementServing, controlPlaneServing, sessions)
    }

    constructor (nodeName: string, sessions: set<string>)
      ensures this.nodeName == nodeName && View() == Health(true, true, sessions)
    {
      this.nodeName := nodeName;
      managementServing, controlPlaneServing := true, true;
      this.sessions := sessions;
    }

    method SetServingState(serving: bool)
      modifies this`managementServing, this`controlPlaneServing
      ensures View() == Health(serving, serving, sessions)
    {
      managementServing := serving;
      controlPlaneServing := serving;
    }

    method HandleLeaderEvent(ev: LeaderEvent)
      modifies this
      ensures View() == Handle(old(View()), ev, nodeName)
    {
      var isLocalLeader := ev.member == nodeName;
      if ev.kind.Elected? && isLocalLeader {
        SetServingState(true);
        return;
      }
      SetServingState(false);
      sessions := {};
    }
  }

  /** Handling a list of events one after the other. */
  function HandleAll(h: Health, evs: seq<LeaderEvent>, own: string): Health {
    if evs == [] then h else Handle(HandleAll(h, evs[..|evs| - 1], own), evs[|evs| - 1], own)
  }

  /** The status after a list of events is decided by the last one; the sessions are gone
      exactly when some event was not a lead of this node. */
  lemma {:induction false} HandleAllResult(h: Health, evs: seq<LeaderEvent>, own: string)
    requires evs != []
    ensures var r := HandleAll(h, evs, own);
            var last := Leads(evs[|evs| - 1], own);
            && r.management == last && r.controlPlane == last
            && r.sessions == if forall k :: 0 <= k < |evs| ==> Leads(evs[k], own) then h.sessions else {}
  {
    var n := |evs| - 1;
    if n > 0 {
      HandleAllResult(h, evs[..n], own);
    } else {
      assert HandleAll(h, evs[..n], own) == h;
    }
  }

  /** A slow listener refines a lossless one: on an open sink with the slot empty, no leader
      callback running and no call holding the newest push removed, the status equals the
      one after handling every pushed event, whatever was coalesced. NewestHandledIff says
      that these are exactly the states in which the newest push has been handled. */
  lemma SlowListenerRefinesLossless(run: seq<State>, n: nat, h: Health, own: string)
    requires IsRun(run) && n < |run| && run[n].pushes != [] && !run[n].ch.done
    requires run[n].ch.leader.None? && !run[n].consumer.InLeaderCallback? && !NewestDisplaced(run[n])
    ensures var slow, lossless := HandleAll(h, Handled(run[n]), own), HandleAll(h, run[n].pushes, own);
            slow.management == lossless.management && slow.controlPlane == lossless.controlPlane
  {
    hide IsRun, HandleAll, NewestDisplaced;
    var s := run[n];
    NewestHandledIff(run, n);
    DeliveredInPushOrder(run, n);
    HandleAllResult(h, Handled(s), own);
    HandleAllResult(h, s.pushes, own);
  }

  /** For the sessions that were open before the first event, and against the pushed events
      only: they are those of the lossless listener exactly when there were none to close, or
      an event that does not elect this node was handled, or none was pushed. Sessions that
      register later, and losses whose call gave up, are the subject of WorkerSessions. */
  lemma SessionsRefinedIff(run: seq<State>, n: nat, h: Health, own: string)
    requires IsRun(run) && n < |run|
    ensures var handled, pushes := Handled(run[n]), run[n].pushes;
            HandleAll(h, handled, own).sessions == HandleAll(h, pushes, own).sessions
            <==> h.sessions == {}
                 || (exists ev :: ev in handled && !Leads(ev, own))
                 || (forall ev :: ev in pushes ==> Leads(ev, own))
  {
    hide IsRun, HandleAll, Leads;
    var s := run[n];
    DeliveredInPushOrder(run, n);
    forall ev | ev in Handled(s) ensures ev in s.pushes {
      var k :| 0 <= k < |Handled(s)| && Handled(s)[k] == ev;
      assert s.handed[k] == s.pushes[s.delivered[k]];
    }
    SessionsAfter(h, Handled(s), own);
    SessionsAfter(h, s.pushes, own);
  }

  lemma SessionsAfter(h: Health, evs: seq<LeaderEvent>, own: string)
    ensures HandleAll(h, evs, own).sessions
            == if forall ev :: ev in evs ==> Leads(ev, own) then h.sessions else {}
  {
    hide Leads;
    if evs != [] {
      HandleAllResult(h, evs, own);
      assert (forall k :: 0 <= k < |evs| ==> Leads(evs[k], own)) <==> forall ev :: ev in evs ==> Leads(ev, own);
    }
  }

  // ---------------------------------------------------------------- the windows occur

  /** Every leader callback on the path, if it may have any, is the one for ev that follows
      on s. */
  ghost predicate CallbacksOnly(path: seq<State>, s: State, ev: LeaderEvent, any: bool) {
    forall k :: 0 <= k < |path| && path[k].consumer.InLeaderCallback? && !s.consumer.InLeaderCallback? ==>
      any && path[k].handed == s.handed + [ev]
  }

  /** An undisturbed call up to its send. */
  lemma Deliver(s: State, id: nat, ev: LeaderEvent) returns (path: seq<State>)
    requires id !in s.calls && !s.ch.done && s.ch.leader.None?
    ensures IsPath(path) && path[0] == s && CallbacksOnly(path, s, ev, false)
    ensures path[|path| - 1] == s.(calls := s.calls[id := Call(ev, Returned(true), |s.pushes|, false)],
                                   ch := s.ch.(leader := Some(ev)), pushes := s.pushes + [ev],
                                   pushers := s.pushers + [id])
  {
    hide CanStep;
    var s1 := Take(s, Enter(id, ev));
    var s2 := Take(s1, CheckDone(id));
    var s3 := Take(s2, Send(id));
    assert s3.calls == s.calls[id := Call(ev, Returned(true), |s.pushes|, false)];
    path := [s, s1, s2, s3];
  }

  /** An undisturbed call that finds the slot full, up to its drain. */
  lemma Displace(s: State, id: nat, ev: LeaderEvent) returns (path: seq<State>)
    requires id !in s.calls && !s.ch.done && s.ch.leader.Some? && s.pushes != []
    ensures IsPath(path) && path[0] == s && CallbacksOnly(path, s, ev, false)
    ensures var c := Call(ev, Resending(Some(|s.pushes| - 1)), |s.pushes|, false);
            path[|path| - 1] == s.(calls := s.calls[id := c], ch := s.ch.(leader := None))
  {
    hide CanStep;
    var s1 := Take(s, Enter(id, ev));
    var s2 := Take(s1, CheckDone(id));
    var s3 := Take(s2, Send(id));
    var s4 := Take(s3, Drain(id));
    assert s4.calls == s.calls[id := Call(ev, Resending(Some(|s.pushes| - 1)), |s.pushes|, false)];
    path := [s, s1, s2, s3, s4];
  }

  /** The consumer takes the pending event and its callback returns. */
  lemma Consume(s: State) returns (path: seq<State>)
    requires AtSelect(s) && s.ch.leader.Some? && s.pushes != []
    ensures IsPath(path) && path[0] == s && CallbacksOnly(path, s, s.ch.leader.value, true)
    ensures path[|path| - 1] == s.(ch := s.ch.(leader := None), consumer := Polling,
                                   handed := s.handed + [s.ch.leader.value],
                                   delivered := s.delivered + [|s.pushes| - 1])
  {
    hide CanStep;
    var s1 := Take(s, TakeLeader);
    path := [s, s1, Take(s1, CallbackReturns)];
  }

  /** Elected here and handled, then a loss is pushed: the run the counterexamples below
      start from. */
  lemma LossPending(own: string) returns (run: seq<State>)
    ensures IsRun(run)
    ensures var s := run[|run| - 1];
            var elected, lost := LeaderEvent(Elected, own, 1), LeaderEvent(Expired, own, 0);
            && s.pushes == [elected, lost] && s.handed == [elected]
            && s.ch == Channels(Some(lost), [], false) && s.consumer.Polling?
            && s.calls.Keys == {1, 2} && s.calls[1].phase.Returned? && s.calls[2].phase.Returned?
  {
    hide CanStep, Enabled, Next;
    var elected, lost := LeaderEvent(Elected, own, 1), LeaderEvent(Expired, own, 0);
    var a := Deliver(NewState(), 1, elected);
    var b := Consume(a[|a| - 1]);
    Join(a, b);
    var ab := a + b[1..];
    var c := Deliver(ab[|ab| - 1], 2, lost);
    Join(ab, c);
    run := ab + c[1..];
  }

  /** The condition on calls is needed: with the newest push removed by a call that has not
      resent yet, the status can still say serving although that push is a loss. */
  lemma WindowBreaksRefinement(own: string, h: Health) returns (run: seq<State>)
    ensures IsRun(run)
    ensures var s := run[|run| - 1];
            && s.pushes != [] && !s.ch.done && s.ch.leader.None? && s.consumer.Polling? && NewestDisplaced(s)
            && HandleAll(h, Handled(s), own).management && !HandleAll(h, s.pushes, own).management
  {
    hide CanStep, Enabled, Next, HandleAll;
    var a := LossPending(own);
    var b := Displace(a[|a| - 1], 3, LeaderEvent(Expired, own, 0));
    Join(a, b);
    run := a + b[1..];
    var s := run[|run| - 1];
    assert HoldsNewest(s, 3);
    HandleAllResult(h, Handled(s), own);
    HandleAllResult(h, s.pushes, own);
  }

  /** So is the condition on the consumer: the event leaves the slot before the callback
      has changed the status. */
  lemma CallbackBreaksRefinement(own: string, h: Health) returns (run: seq<State>)
    ensures IsRun(run)
    ensures var s := run[|run| - 1];
            && s.pushes != [] && !s.ch.done && s.ch.leader.None? && !NewestDisplaced(s)
            && s.consumer.InLeaderCallback?
            && HandleAll(h, Handled(s), own).management && !HandleAll(h, s.pushes, own).management
  {
    hide HandleAll;
    var a := LossPending(own);
    var s := a[|a| - 1];
    var t := Take(s, TakeLeader);
    run := a + [t];
    assert t.handed[..1] == [LeaderEvent(Elected, own, 1)];
    HandleAllResult(h, Handled(t), own);
    HandleAllResult(h, t.pushes, own);
  }

  /** Sessions are not refined: when a loss is displaced by a re-election, the worker
      sessions that the lossless listener closes stay open. */
  lemma SessionsCanOutliveALoss(own: string, h: Health) returns (run: seq<State>)
    requires h.sessions != {}
    ensures IsRun(run)
    ensures var s := run[|run| - 1];
            && s.ch.leader.None? && !s.ch.done && s.consumer.Polling? && !NewestDisplaced(s)
            && HandleAll(h, Handled(s), own).sessions == h.sessions
            && HandleAll(h, s.pushes, own).sessions == {}
  {
    hide CanStep, HandleAll, Enabled, Next;
    var again := LeaderEvent(Elected, own, 2);
    var a := LossPending(own);
    var b := Displace(a[|a| - 1], 3, again);
    Join(a, b);
    var ab := a + b[1..];
    var c := ResendAndConsume(ab[|ab| - 1], 3);
    Join(ab, c);
    run := ab + c[1..];
    var s := run[|run| - 1];
    assert Handled(s) == [LeaderEvent(Elected, own, 1), again];
    assert s.pushes == [LeaderEvent(Elected, own, 1), LeaderEvent(Expired, own, 0), again];
    assert !Leads(s.pushes[1], own);
    assert forall id :: id in s.calls ==> s.calls[id].phase.Returned?;
    HandleAllResult(h, Handled(s), own);
    HandleAllResult(h, s.pushes, own);
  }

  lemma ResendAndConsume(s: State, id: nat) returns (path: seq<State>)
    requires IsResending(s, id) && s.ch.leader.None? && AtSelect(s)
    ensures IsPath(path) && path[0] == s && CallbacksOnly(path, s, s.calls[id].ev, true)
    ensures var ev, t := s.calls[id].ev, path[|path| - 1];
            && t.ch == s.ch && t.consumer.Polling? && t.handed == s.handed + [ev] && t.pushes == s.pushes + [ev]
            && t.calls == s.calls[id := s.calls[id].(phase := Returned(true))]
  {
    hide CanStep;
    var s1 := Take(s, Resend(id));
    var s2 := Take(s1, TakeLeader);
    path := [s, s1, s2, Take(s2, CallbackReturns)];
  }

  // ---------------------------------------------------------------- longer stretches

  /** The events are pushed and the last one of them is handled, from an empty slot to an
      empty slot. */
  ghost predicate PushedAndHandled(s: State, t: State, pushed: seq<LeaderEvent>, handled: LeaderEvent) {
    && t.ch == s.ch && t.consumer.Polling? && t.pushes == s.pushes + pushed && t.handed == s.handed + [handled]
    && t.pushes != []
  }

  /** An event is pushed and handled. */
  lemma PushAndHandle(s: State, id: nat, ev: LeaderEvent) returns (path: seq<State>)
    requires id !in s.calls && !s.ch.done && s.ch.leader.None? && AtSelect(s)
    ensures IsPath(path) && path[0] == s && CallbacksOnly(path, s, ev, true)
    ensures var t := path[|path| - 1];
            && PushedAndHandled(s, t, [ev], ev)
            && t.calls == s.calls[id := Call(ev, Returned(true), |s.pushes|, false)]
  {
    hide CanStep, Next, Enabled;
    var a := Deliver(s, id, ev);
    var b := Consume(a[|a| - 1]);
    Join(a, b);
    path := a + b[1..];
  }

  /** A loss is pushed and displaced by a re-election, which is handled. */
  lemma LossDisplaced(s: State, id: nat, lost: LeaderEvent, id': nat, again: LeaderEvent) returns (path: seq<State>)
    requires id !in s.calls && id' !in s.calls && id != id' && !s.ch.done && s.ch.leader.None? && AtSelect(s)
    ensures IsPath(path) && path[0] == s && CallbacksOnly(path, s, again, true)
    ensures var t := path[|path| - 1];
            && PushedAndHandled(s, t, [lost, again], again)
            && t.calls == s.calls[id := Call(lost, Returned(true), |s.pushes|, false)]
                                 [id' := Call(again, Returned(true), |s.pushes| + 1, false)]
  {
    hide CanStep, Next, Enabled;
    var a := Deliver(s, id, lost);
    var b := Displace(a[|a| - 1], id', again);
    Join(a, b);
    var ab := a + b[1..];
    var c := ResendAndConsume(ab[|ab| - 1], id');
    Join(ab, c);
    path := ab + c[1..];
    assert s.pushes + [lost] + [again] == s.pushes + [lost, again];
  }

  /** An election is pending; a loss call removes it, but before it can push, an election is
      pushed again, and the loss call gives up. */
  lemma LossGivenUp(s: State, id: nat, first: LeaderEvent, id': nat, lost: LeaderEvent, id'': nat, again: LeaderEvent)
    returns (path: seq<State>)
    requires id !in s.calls && id' !in s.calls && id'' !in s.calls && id != id' && id' != id'' && id != id''
    requires !s.ch.done && s.ch.leader.None? && AtSelect(s)
    ensures IsPath(path) && path[0] == s && CallbacksOnly(path, s, again, true)
    ensures var t := path[|path| - 1];
            && PushedAndHandled(s, t, [first, again], again)
            && t.calls.Keys == s.calls.Keys + {id, id', id''}
            && t.calls[id'] == Call(lost, Returned(false), |s.pushes| + 1, false)
            && t.calls[id].phase.Returned? && t.calls[id''].phase.Returned?
            && forall k :: k in s.calls ==> t.calls[k] == s.calls[k]
  {
    hide CanStep, Next, Enabled;
    var a := Deliver(s, id, first);
    var b := Displace(a[|a| - 1], id', lost);
    Join(a, b);
    var ab := a + b[1..];
    var c := Deliver(ab[|ab| - 1], id'', again);
    Join(ab, c);
    var abc := ab + c[1..];
    var d := GiveUpAndConsume(abc[|abc| - 1], id');
    Join(abc, d);
    path := abc + d[1..];
    assert s.pushes + [first] + [again] == s.pushes + [first, again];
  }

  lemma GiveUpAndConsume(s: State, id: nat) returns (path: seq<State>)
    requires IsResending(s, id) && s.ch.leader.Some? && AtSelect(s) && s.pushes != []
    ensures IsPath(path) && path[0] == s && CallbacksOnly(path, s, s.ch.leader.value, true)
    ensures var t := path[|path| - 1];
            && t.ch == s.ch.(leader := None) && t.consumer.Polling? && t.pushes == s.pushes
            && t.handed == s.handed + [s.ch.leader.value]
            && t.calls == s.calls[id := s.calls[id].(phase := Returned(false))]
  {
    hide CanStep;
    var s1 := Take(s, GiveUp(id));
    var s2 := Take(s1, TakeLeader);
    path := [s, s1, s2, Take(s2, CallbackReturns)];
  }
}
