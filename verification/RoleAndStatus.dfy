/** Whether the health status of the gRPC server, which follows the events its listener
    handles, agrees with the role the node reports, which follows its goroutines. */
module RoleAndStatus {
  import opened Sequences
  import opened Leadership
  import L = LeaderSink
  import E = Election
  import Status = ServingStatus

  /** The status after the handled events. */
  ghost predicate Serving(s: State, h: Status.Health) {
    Status.HandleAll(h, L.Handled(s.sink), s.own).management
  }

  /** The call that made the newest push. */
  ghost function LastPusher(k: L.State): nat
    requires |k.pushers| == |k.pushes| && k.pushes != []
  {
    k.pushers[|k.pushers| - 1]
  }

  // ---------------------------------------------------------------- one step

  /** What a step of the node does to the sink: calls keep their event and their start,
      returned calls stay as they are, and only a call in progress pushes. */
  ghost predicate SinkMoves(k: L.State, k': L.State) {
    && (forall id :: id in k.calls ==>
          && id in k'.calls && k'.calls[id].ev == k.calls[id].ev && k'.calls[id].since == k.calls[id].since
          && (k.calls[id].phase.Returned? ==> k'.calls[id].phase.Returned?))
    && (k'.pushers == k.pushers
        || exists id :: id in k.calls && !k.calls[id].phase.Returned? && k'.pushers == k.pushers + [id])
  }

  lemma SinkStepMoves(k: L.State, step: L.Step)
    requires L.Enabled(k, step)
    ensures SinkMoves(k, L.Next(k, step))
    ensures !step.Enter? ==> L.Next(k, step).calls.Keys == k.calls.Keys
  {
    var k' := L.Next(k, step);
    if k'.pushers != k.pushers { assert !k.calls[step.id].phase.Returned?; }
  }

  /** The step broadcasts a change of the view: it begins call id. */
  ghost predicate Begins(s: State, s': State, id: nat) {
    && id !in s.sink.calls && s'.sink.calls.Keys == s.sink.calls.Keys + {id} && s'.told == Some(id)
    && s'.sink.calls[id].since == |s.sink.pushes| && s'.sink.pushes == s.sink.pushes
    && (s'.view.role.Leader? <==> Status.Leads(s'.sink.calls[id].ev, s.own))
    && forall k :: k in s.sink.calls && (s.sink.calls[k].ev.kind.Elected? <==> s'.sink.calls[id].ev.kind.Elected?) ==>
         s.sink.calls[k].phase.Returned?
  }

  lemma TellBegins(s: State, step: Step, ev: L.LeaderEvent)
    requires Enabled(s, step) && (step.Expire? || step.GiveUpLeadership? || step.Observe?) && step.listening
    requires Next(s, step).sink == L.Next(s.sink, L.Enter(step.id, ev))
    requires Next(s, step).view.role.Leader? <==> Status.Leads(ev, s.own)
    requires ev.kind.Elected? <==> step.Observe?
    ensures Begins(s, Next(s, step), step.id) && SinkMoves(s.sink, Next(s, step).sink)
  {
    SinkStepMoves(s.sink, L.Enter(step.id, ev));
  }

  /** No other step begins a call; it leaves the view or the record of its broadcast. */
  lemma OtherStepEffect(s: State, step: Step)
    requires Enabled(s, step) && !step.SinkStep?
    requires step.Expire? || step.GiveUpLeadership? || step.Observe? ==> !step.listening
    ensures var s' := Next(s, step);
            s'.own == s.own && s'.sink == s.sink && (s'.told.None? || (s'.told == s.told && s'.view == s.view))
  {
    hide E.Next, E.Enabled, HasKey, NoOlder, KeyLive, KeyRev, Possible, L.Next, L.Enabled, ObserverIdle, CampaignIdle;
  }

  lemma BroadcastEffect(s: State, step: Step)
    requires Enabled(s, step) && (step.Expire? || step.GiveUpLeadership? || step.Observe?) && step.listening
    ensures var s' := Next(s, step); s'.own == s.own && Begins(s, s', step.id) && SinkMoves(s.sink, s'.sink)
  {
    hide E.Next, E.Enabled, L.Next, L.Enabled, Begins, SinkMoves, ObserverIdle, CampaignIdle;
    match step
    case Expire(id, _) => TellBegins(s, step, LossEvent(L.Expired, s.own));
    case GiveUpLeadership(id, _) => TellBegins(s, step, LossEvent(L.Resigned, s.own));
    case Observe(at, id, _) => TellBegins(s, step, ElectedEvent(s.etcd.history[at]));
  }

  /** Every step either begins a call, or leaves the set of calls as it is and, if it leaves
      the last broadcast as it is too, the view. */
  lemma StepEffect(s: State, s': State)
    requires CanStep(s, s')
    ensures s'.own == s.own && SinkMoves(s.sink, s'.sink)
    ensures (exists id :: Begins(s, s', id))
            || (s'.sink.calls.Keys == s.sink.calls.Keys && (s'.told.None? || (s'.told == s.told && s'.view == s.view)))
  {
    hide Begins, SinkMoves, Next, Enabled;
    var step :| Enabled(s, step) && s' == Next(s, step);
    if step.SinkStep? {
      SinkEffect(s, step.k);
    } else if (step.Expire? || step.GiveUpLeadership? || step.Observe?) && step.listening {
      BroadcastEffect(s, step);
    } else {
      OtherStepEffect(s, step);
      NoSinkMove(s.sink);
    }
  }

  lemma SinkEffect(s: State, k: L.Step)
    requires Enabled(s, SinkStep(k))
    ensures var s' := Next(s, SinkStep(k));
            && s' == s.(sink := s'.sink) && SinkMoves(s.sink, s'.sink) && s'.sink.calls.Keys == s.sink.calls.Keys
  {
    hide L.Next, L.Enabled, SinkMoves;
    SinkStepMoves(s.sink, k);
  }

  lemma NoSinkMove(k: L.State)
    ensures SinkMoves(k, k)
  {
  }

  // ---------------------------------------------------------------- runs

  /** The last broadcast says what the role is. */
  ghost predicate ToldInv(s: State) {
    s.told.Some? ==>
      s.told.value in s.sink.calls && (s.view.role.Leader? <==> Status.Leads(s.sink.calls[s.told.value].ev, s.own))
  }

  lemma {:induction false} RunKeepsTold(run: seq<State>, n: nat)
    requires IsRun(run) && n < |run|
    ensures ToldInv(run[n])
  {
    hide CanStep;
    if n > 0 {
      RunKeepsTold(run, n - 1);
      assert CanStep(run[n - 1], run[n]);
      StepEffect(run[n - 1], run[n]);
    }
  }

  /** The last broadcast began in step m, and no call has begun since. */
  lemma {:induction false} ToldWhen(run: seq<State>, n: nat) returns (m: nat)
    requires IsRun(run) && n < |run| && run[n].told.Some?
    ensures m < n && Begins(run[m], run[m + 1], run[n].told.value)
    ensures run[n].sink.calls.Keys == run[m + 1].sink.calls.Keys
  {
    hide CanStep, Begins;
    assert n > 0;
    var s, s' := run[n - 1], run[n];
    assert CanStep(s, s');
    StepEffect(s, s');
    if id :| Begins(s, s', id) {
      m := n - 1;
      BeginsTold(s, s', id);
    } else {
      m := ToldWhen(run, n - 1);
    }
  }

  lemma BeginsTold(s: State, s': State, id: nat)
    requires Begins(s, s', id)
    ensures s'.told == Some(id)
  {
  }

  /** A returned call stays returned and pushes nothing more. */
  lemma {:induction false} ReturnedStays(run: seq<State>, m: nat, n: nat, id: nat)
    requires IsRun(run) && m <= n < |run| && id in run[m].sink.calls && run[m].sink.calls[id].phase.Returned?
    ensures id in run[n].sink.calls && run[n].sink.calls[id].phase.Returned?
    ensures run[m].sink.pushers <= run[n].sink.pushers
    ensures forall k :: |run[m].sink.pushers| <= k < |run[n].sink.pushers| ==> run[n].sink.pushers[k] != id
  {
    hide CanStep;
    if m < n {
      ReturnedStays(run, m, n - 1, id);
      assert CanStep(run[n - 1], run[n]);
      StepEffect(run[n - 1], run[n]);
    }
  }

  lemma {:induction false} SinceStays(run: seq<State>, m: nat, n: nat, id: nat)
    requires IsRun(run) && m <= n < |run| && id in run[m].sink.calls
    ensures id in run[n].sink.calls && run[n].sink.calls[id].since == run[m].sink.calls[id].since
    ensures run[n].sink.calls[id].ev == run[m].sink.calls[id].ev
  {
    hide CanStep;
    if m < n {
      SinceStays(run, m, n - 1, id);
      assert CanStep(run[n - 1], run[n]);
      StepEffect(run[n - 1], run[n]);
    }
  }

  /** The settled status is that of the newest push. */
  lemma SettledStatus(s: State, h: Status.Health)
    requires Inv(s) && L.Settled(s.sink)
    ensures |s.sink.pushers| == |s.sink.pushes| && LastPusher(s.sink) in s.sink.calls
    ensures Serving(s, h) <==> Status.Leads(s.sink.calls[LastPusher(s.sink)].ev, s.own)
  {
    hide E.TokenInv, NodeInv, WaitInv, ViewInv, FenceInv, L.MemberInv, L.CallsInv, L.Next, L.Enabled;
    var k := s.sink;
    L.SettledNotDisplaced(k);
    L.NewestHandledWhen(k);
    Status.HandleAllResult(h, L.Handled(k), s.own);
    assert L.PushedAs(k, k.pushers[|k.pushers| - 1], k.pushes[|k.pushes| - 1]);
  }

  /** In settled states in which the last change of the view was broadcast, status and role
      agree exactly when the newest push is that broadcast, or says the same of this node. */
  lemma StatusAgreesIff(run: seq<State>, n: nat, h: Status.Health)
    requires IsRun(run) && n < |run| && L.Settled(run[n].sink) && run[n].told.Some?
    ensures var s := run[n];
            && |s.sink.pushers| == |s.sink.pushes|
            && LastPusher(s.sink) in s.sink.calls && s.told.value in s.sink.calls
            && var c, c' := s.told.value, LastPusher(s.sink);
               (Serving(s, h) <==> s.view.role.Leader?)
               <==> c' == c || (Status.Leads(s.sink.calls[c'].ev, s.own) <==> Status.Leads(s.sink.calls[c].ev, s.own))
  {
    hide CanStep, Inv, Initial, Serving, Status.Leads;
    RunKeepsInv(run, n);
    RunKeepsTold(run, n);
    SettledStatus(run[n], h);
  }

  /** And only a race makes them differ: the newest push is then the other goroutine's, whose
      call was in progress when the last change of the view was made, in step m. */
  lemma DisagreementIsARace(run: seq<State>, n: nat, h: Status.Health) returns (m: nat)
    requires IsRun(run) && n < |run| && L.Settled(run[n].sink) && run[n].told.Some?
    requires Serving(run[n], h) != run[n].view.role.Leader?
    ensures m < n && Begins(run[m], run[m + 1], run[n].told.value)
    ensures |run[n].sink.pushers| == |run[n].sink.pushes|
    ensures var c, c', k := run[n].told.value, LastPusher(run[n].sink), run[m].sink;
            && c' != c && c' in k.calls && !k.calls[c'].phase.Returned?
            && (k.calls[c'].ev.kind.Elected? <==> !run[m + 1].sink.calls[c].ev.kind.Elected?)
  {
    hide CanStep, Initial, Serving, Status.Leads, E.TokenInv, NodeInv, WaitInv, ViewInv, FenceInv,
      L.SlotInv, L.MemberInv;
    StatusAgreesIff(run, n, h);
    RunKeepsInv(run, n);
    m := ToldWhen(run, n);
    var c, c' := run[n].told.value, LastPusher(run[n].sink);
    SinceStays(run, m + 1, n, c);
    assert L.CallInv(run[n].sink, run[n].sink.calls[c]);
    assert c' in run[m].sink.calls;
    RunKeepsInv(run, m);
    if run[m].sink.calls[c'].phase.Returned? { ReturnedStays(run, m, n, c'); }
  }

  // ---------------------------------------------------------------- the race occurs

  /** An undisturbed call into an empty slot, its event taken and handled. */
  lemma SendAndHandle(s: State, id: nat) returns (path: seq<State>)
    requires id in s.sink.calls && s.sink.calls[id].phase.Entered? && !s.sink.ch.done && s.sink.ch.leader.None?
    requires s.sink.consumer.Polling?
    ensures IsPath(path) && path[0] == s
    ensures var t := path[|path| - 1]; var ev := s.sink.calls[id].ev;
            && t == s.(sink := t.sink) && t.sink.consumer.Polling? && t.sink.ch == s.sink.ch
            && t.sink.calls == s.sink.calls[id := s.sink.calls[id].(phase := L.Returned(true))]
            && t.sink.handed == s.sink.handed + [ev] && t.sink.pushes == s.sink.pushes + [ev]
  {
    hide CanStep;
    var s1 := Take(s, SinkStep(L.CheckDone(id)));
    var s2 := Take(s1, SinkStep(L.Send(id)));
    var s3 := Take(s2, SinkStep(L.TakeLeader));
    var s4 := Take(s3, SinkStep(L.CallbackReturns));
    assert s4.sink.calls == s.sink.calls[id := s.sink.calls[id].(phase := L.Returned(true))];
    path := [s, s1, s2, s3, s4];
  }

  /** The late observation of the node's own term and the loss of its session: the loss is
      recorded last and pushed first. All is settled, the node is a candidate without a lease,
      and the server keeps serving. */
  lemma CandidateCanKeepServing(own: string, h: Status.Health) returns (run: seq<State>)
    requires own != ""
    ensures IsRun(run)
    ensures var s := run[|run| - 1];
            L.Settled(s.sink) && s.told.Some? && s.view == Lose() && LeaseGone(s.etcd, s.lease) && Serving(s, h)
  {
    hide CanStep, Initial, L.Next, L.Enabled, LeaseGone, Status.HandleAll;
    var a := LeadThenRevoked(own);
    var s := a[|a| - 1];
    var b := TwoBroadcasts(s);
    Join(a, b);
    var ab := a + b[1..];
    var c := SendAndHandle(ab[|ab| - 1], 2);
    Join(ab, c);
    var abc := ab + c[1..];
    var d := SendAndHandle(abc[|abc| - 1], 1);
    Join(abc, d);
    run := abc + d[1..];
    var t := run[|run| - 1];
    assert L.Handled(t.sink) == [LossEvent(L.Expired, own), ElectedEvent(E.Term(1, own, 2))];
    Status.HandleAllResult(h, L.Handled(t.sink), own);
  }

  lemma TwoBroadcasts(s: State) returns (path: seq<State>)
    requires s.campaign.Leading? && s.observer.Watching? && s.seen == 0 && |s.etcd.history| > 0
    requires s.sink == L.NewState()
    ensures IsPath(path) && path[0] == s
    ensures var t := path[|path| - 1];
            && t.view == Lose() && t.told == Some(2) && t.etcd == s.etcd && t.lease == s.lease && t.own == s.own
            && t.sink == s.sink.(calls := map[1 := L.Call(ElectedEvent(s.etcd.history[0]), L.Entered, 0, false),
                                              2 := L.Call(LossEvent(L.Expired, s.own), L.Entered, 0, false)])
  {
    hide CanStep;
    var s1 := Take(s, Observe(0, 1, true));
    var s2 := Take(s1, Expire(2, true));
    path := [s, s1, s2];
  }
}
