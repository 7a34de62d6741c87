/** The worker sessions of the gRPC server: streams register their session with the session
    manager under a worker id, and the leader callback closes what it finds there. The
    callback runs beside the streams, so its loop over the sessions and the clearing of the
    map are steps of their own. */
module WorkerSessions {
  import opened Sequences
  import L = LeaderSink
  import Status = ServingStatus

  type Worker = string

  /** Where SessionManager.Close stands: not called, in its loop, or done. `due` are the
      worker ids that were there when the loop began and have not been removed since. */
  datatype Closing = NotCalled | Ranging(due: set<Worker>, visited: set<Worker>) | Cleared

  datatype State = State(
    own: string,
    sink: L.State,
    registry: map<Worker, nat>,    // the session manager's map
    worker: map<nat, Worker>,      // the worker id under which a stream registered last
    closed: set<nat>,              // closed sessions
    ended: set<nat>,               // sessions whose stream has returned
    closing: Closing)

  ghost predicate Initial(s: State) {
    L.Initial(s.sink) && s == State(s.own, s.sink, map[], map[], {}, {}, NotCalled)
  }

  datatype Step =
    | SinkStep(k: L.Step)
    | BeginClose                         // the callback calls SessionManager.Close
    | Visit(w: Worker)                   // its loop closes the session it finds under w
    | Clear
    | Register(w: Worker, x: nat)        // a stream handles a register event
    | EndStream(x: nat)                  // a stream returns: Unregister and Session.Close

  /** A leader callback is running; its event elects this node, or does not. */
  ghost predicate InLead(s: State) {
    && s.sink.consumer.InLeaderCallback? && s.sink.handed != []
    && Status.Leads(s.sink.handed[|s.sink.handed| - 1], s.own)
  }

  ghost predicate InLoss(s: State) {
    && s.sink.consumer.InLeaderCallback? && s.sink.handed != []
    && !Status.Leads(s.sink.handed[|s.sink.handed| - 1], s.own)
  }

  /** The loop visits every id that stays in the map, and none twice. */
  ghost predicate Enabled(s: State, step: Step) {
    match step
    case SinkStep(k) =>
      && L.Enabled(s.sink, k)
      && (k.CallbackReturns? && s.sink.consumer.InLeaderCallback? ==>
            s.closing.Cleared? || (s.closing.NotCalled? && InLead(s)))
    case BeginClose => InLoss(s) && s.closing.NotCalled?
    case Visit(w) => s.closing.Ranging? && w in s.registry && w !in s.closing.visited
    case Clear => s.closing.Ranging? && s.closing.due * s.registry.Keys <= s.closing.visited
    case Register(_, x) => x !in s.ended
    case EndStream(x) => x !in s.ended
  }

  /** The stream has registered, and not under the empty id, which it does not unregister. */
  ghost predicate HasId(s: State, x: nat) {
    x in s.worker && s.worker[x] != ""
  }

  /** Unregister removes whatever session stands under the id. */
  ghost function Unregister(s: State, w: Worker): State {
    s.(registry := s.registry - {w},
       closing := if s.closing.Ranging? then s.closing.(due := s.closing.due - {w}) else s.closing)
  }

  ghost function Next(s: State, step: Step): State
    requires Enabled(s, step)
  {
    match step
    case SinkStep(k) =>
      s.(sink := L.Next(s.sink, k), closing := if k.CallbackReturns? then NotCalled else s.closing)
    case BeginClose => s.(closing := Ranging(s.registry.Keys, {}))
    case Visit(w) =>
      s.(closed := s.closed + {s.registry[w]}, closing := s.closing.(visited := s.closing.visited + {w}))
    case Clear => s.(registry := map[], closing := Cleared)
    case Register(w, x) =>
      s.(registry := s.registry[w := x], worker := s.worker[x := w],
         closed := if w in s.registry then s.closed + {s.registry[w]} else s.closed)
    case EndStream(x) =>
      (if HasId(s, x) then Unregister(s, s.worker[x]) else s).(closed := s.closed + {x}, ended := s.ended + {x})
  }

  /** A path with the steps it takes. */
  ghost predicate IsPath(path: seq<State>, steps: seq<Step>) {
    && |path| == |steps| + 1
    && forall i :: 0 <= i < |steps| ==> Enabled(path[i], steps[i]) && path[i + 1] == Next(path[i], steps[i])
  }

  ghost predicate IsRun(run: seq<State>, steps: seq<Step>) {
    IsPath(run, steps) && Initial(run[0])
  }

  // ---------------------------------------------------------------- one session

  /** Session x stands in the map under w and is open. */
  ghost predicate Holds(s: State, w: Worker, x: nat) {
    w in s.registry && s.registry[w] == x && x !in s.closed
  }

  /** The stream of x or one that registered as w ends, w registers again, or x is replaced
      under another id. */
  ghost predicate Touches(s: State, step: Step, w: Worker, x: nat) {
    match step
    case Register(v, _) => v == w || (v in s.registry && s.registry[v] == x)
    case EndStream(y) => y == x || (HasId(s, y) && s.worker[y] == w)
    case _ => false
  }

  /** From event number h on, a callback for an event that does not elect this node has
      begun; or has returned. */
  ghost predicate LossCalled(s: State, h: nat) {
    exists d :: h <= d < |s.sink.handed| && !Status.Leads(s.sink.handed[d], s.own)
  }

  ghost predicate LossHandled(s: State, h: nat) {
    exists d :: h <= d < |L.Handled(s.sink)| && !Status.Leads(L.Handled(s.sink)[d], s.own)
  }

  /** No loss has reached the session: h events had been handed over when it was last known
      to be registered outside a leader callback. */
  ghost predicate StillOpen(s: State, h: nat, w: Worker, x: nat) {
    && Holds(s, w, x) && h <= |s.sink.handed| && !LossHandled(s, h)
    && (s.sink.consumer.InLeaderCallback? ==> h < |s.sink.handed|)
    && !s.closing.Cleared?
    && (s.closing.Ranging? ==> InLoss(s) && w in s.closing.due && w !in s.closing.visited)
  }

  ghost predicate ClosedByLoss(s: State, h: nat, x: nat) {
    x in s.closed && LossCalled(s, h)
  }

  /** What a step of the sink does to the events handed over. */
  lemma SinkHands(k: L.State, step: L.Step)
    requires L.Enabled(k, step)
    ensures var k' := L.Next(k, step);
            if step.TakeLeader? then !k.consumer.InLeaderCallback? && k'.consumer.InLeaderCallback?
                                     && |k'.handed| == |k.handed| + 1 && k.handed <= k'.handed
            else && k'.handed == k.handed
                 && (k'.consumer.InLeaderCallback? <==> k.consumer.InLeaderCallback? && !step.CallbackReturns?)
  {
  }

  lemma SinkStepOutcome(s: State, k: L.Step, h: nat, w: Worker, x: nat)
    requires StillOpen(s, h, w, x) && Enabled(s, SinkStep(k))
    ensures StillOpen(Next(s, SinkStep(k)), h, w, x)
  {
    hide L.Next, L.Enabled, Status.Leads;
    SinkHands(s.sink, k);
    var s' := Next(s, SinkStep(k));
    forall d | h <= d < |L.Handled(s'.sink)| ensures Status.Leads(L.Handled(s'.sink)[d], s.own) {
      if d < |L.Handled(s.sink)| { assert L.Handled(s'.sink)[d] == L.Handled(s.sink)[d]; }
    }
  }

  lemma OtherStepOutcome(s: State, step: Step, h: nat, w: Worker, x: nat)
    requires StillOpen(s, h, w, x) && Enabled(s, step) && !Touches(s, step, w, x) && !step.SinkStep?
    ensures var s' := Next(s, step); StillOpen(s', h, w, x) || ClosedByLoss(s', h, x)
  {
    hide L.Next, L.Enabled, Status.Leads;
    var s' := Next(s, step);
    if step.Visit? {
      var d := |s.sink.handed| - 1;
      assert !Status.Leads(s'.sink.handed[d], s'.own);
    }
  }

  lemma ClosedStays(s: State, step: Step, h: nat, x: nat)
    requires ClosedByLoss(s, h, x) && Enabled(s, step)
    ensures ClosedByLoss(Next(s, step), h, x)
  {
    hide L.Next, L.Enabled, Status.Leads;
    var s' := Next(s, step);
    if step.SinkStep? { SinkHands(s.sink, step.k); }
    var d :| h <= d < |s.sink.handed| && !Status.Leads(s.sink.handed[d], s.own);
    assert s'.sink.handed[d] == s.sink.handed[d];
  }

  /** Session x is registered under w in state i, outside a leader callback, and nothing but
      leader events touches it until state n. */
  ghost predicate Tenure(run: seq<State>, steps: seq<Step>, i: nat, n: nat, w: Worker, x: nat) {
    && IsRun(run, steps) && i <= n < |run| && Holds(run[i], w, x)
    && !run[i].sink.consumer.InLeaderCallback?
    && forall k :: i <= k < n ==> !Touches(run[k], steps[k], w, x)
  }

  lemma {:induction false} TenureOutcome(run: seq<State>, steps: seq<Step>, i: nat, n: nat, w: Worker, x: nat)
    requires Tenure(run, steps, i, n, w, x)
    ensures var h := |run[i].sink.handed|; StillOpen(run[n], h, w, x) || ClosedByLoss(run[n], h, x)
  {
    hide Next, Enabled, StillOpen, ClosedByLoss, Touches, Initial, Status.Leads;
    var h := |run[i].sink.handed|;
    if i == n {
      ClosingInCallback(run, steps, i);
      FreshTenure(run[i], w, x);
    } else {
      TenureOutcome(run, steps, i, n - 1, w, x);
      var s, step := run[n - 1], steps[n - 1];
      assert Enabled(s, step) && run[n] == Next(s, step);
      if ClosedByLoss(s, h, x) {
        ClosedStays(s, step, h, x);
      } else if step.SinkStep? {
        SinkStepOutcome(s, step.k, h, w, x);
      } else {
        OtherStepOutcome(s, step, h, w, x);
      }
    }
  }

  /** Close runs only inside a leader callback. */
  lemma {:induction false} ClosingInCallback(run: seq<State>, steps: seq<Step>, n: nat)
    requires IsRun(run, steps) && n < |run|
    ensures run[n].closing.NotCalled? || InLoss(run[n])
  {
    hide L.Next, L.Enabled, Status.Leads;
    if n > 0 {
      ClosingInCallback(run, steps, n - 1);
      var s, step := run[n - 1], steps[n - 1];
      assert Enabled(s, step) && run[n] == Next(s, step);
      if step.SinkStep? { SinkHands(s.sink, step.k); }
    }
  }

  lemma FreshTenure(s: State, w: Worker, x: nat)
    requires Holds(s, w, x) && !s.sink.consumer.InLeaderCallback? && s.closing.NotCalled?
    ensures StillOpen(s, |s.sink.handed|, w, x)
  {
  }

  /** A session that registers outside a leader callback is closed by leader events exactly
      when one that does not elect this node is handled after that. Its closing falls between
      the begin and the return of the callback; outside callbacks the two coincide. */
  lemma ClosedByLossIff(run: seq<State>, steps: seq<Step>, i: nat, n: nat, w: Worker, x: nat)
    requires Tenure(run, steps, i, n, w, x)
    ensures LossHandled(run[n], |run[i].sink.handed|) ==> x in run[n].closed
    ensures x in run[n].closed ==> LossCalled(run[n], |run[i].sink.handed|)
    ensures !run[n].sink.consumer.InLeaderCallback? ==>
              (x in run[n].closed <==> LossHandled(run[n], |run[i].sink.handed|))
  {
    hide IsRun, Touches, Status.Leads;
    TenureOutcome(run, steps, i, n, w, x);
    var s, h := run[n], |run[i].sink.handed|;
    if !s.sink.consumer.InLeaderCallback? && LossCalled(s, h) {
      var d :| h <= d < |s.sink.handed| && !Status.Leads(s.sink.handed[d], s.own);
      assert L.Handled(s.sink)[d] == s.sink.handed[d];
    }
  }

  /** A call that began after state i carries an event that does not elect this node, whether
      it pushed that event or gave up. */
  ghost predicate LossBroadcast(s: State, s': State) {
    exists id :: id in s'.sink.calls && id !in s.sink.calls && !Status.Leads(s'.sink.calls[id].ev, s'.own)
  }

  /** The session outlives a loss that was broadcast after it registered exactly when no such
      event has been handled since. */
  lemma OutlivesLossIff(run: seq<State>, steps: seq<Step>, i: nat, n: nat, w: Worker, x: nat)
    requires Tenure(run, steps, i, n, w, x) && !run[n].sink.consumer.InLeaderCallback?
    ensures LossBroadcast(run[i], run[n]) && x !in run[n].closed
            <==> LossBroadcast(run[i], run[n]) && !LossHandled(run[n], |run[i].sink.handed|)
  {
    hide Tenure, Status.Leads, LossHandled, LossCalled, LossBroadcast;
    ClosedByLossIff(run, steps, i, n, w, x);
  }

  // ---------------------------------------------------------------- the callback goes on

  /** The steps of the callback that handles a loss. */
  ghost predicate OfCallback(step: Step) {
    step.BeginClose? || step.Visit? || step.Clear? || step == SinkStep(L.CallbackReturns)
  }

  /** What the loop has visited is closed. */
  ghost predicate VisitedClosed(s: State) {
    s.closing.Ranging? && forall w :: w in s.closing.visited && w in s.registry ==> s.registry[w] in s.closed
  }

  lemma VisitOne(s: State, w: Worker)
    requires VisitedClosed(s) && w in s.registry && w !in s.closing.visited
    ensures Enabled(s, Visit(w)) && OfCallback(Visit(w))
    ensures var s' := Next(s, Visit(w));
            && s' == s.(closed := s.closed + {s.registry[w]}, closing := s'.closing) && VisitedClosed(s')
            && |s'.registry.Keys - s'.closing.visited| < |s.registry.Keys - s.closing.visited|
  {
    hide L.Next, L.Enabled;
    var s' := Next(s, Visit(w));
    assert w in s.registry.Keys - s.closing.visited;
    SmallerSet(s'.registry.Keys - s'.closing.visited, s.registry.Keys - s.closing.visited);
  }

  lemma ClearNow(s: State)
    requires s.closing.Ranging? && s.registry.Keys <= s.closing.visited
    ensures Enabled(s, Clear) && OfCallback(Clear) && Next(s, Clear) == s.(registry := map[], closing := Cleared)
  {
  }

  /** The loop visits what is left, and the map is cleared. */
  lemma {:induction false} LoopEnds(s: State) returns (path: seq<State>, steps: seq<Step>)
    requires VisitedClosed(s)
    ensures IsPath(path, steps) && path[0] == s && forall k :: 0 <= k < |steps| ==> OfCallback(steps[k])
    ensures var t := path[|path| - 1];
            && t == s.(registry := map[], closed := t.closed, closing := Cleared) && s.closed <= t.closed
            && forall w :: w in s.registry ==> s.registry[w] in t.closed
    decreases |s.registry.Keys - s.closing.visited|
  {
    hide Next, Enabled, OfCallback;
    if s.registry.Keys <= s.closing.visited {
      ClearNow(s);
      path, steps := [s, Next(s, Clear)], [Clear];
    } else {
      var w :| w in s.registry && w !in s.closing.visited;
      VisitOne(s, w);
      var s' := Next(s, Visit(w));
      var rest, rs := LoopEnds(s');
      Join([s, s'], [Visit(w)], rest, rs);
      path, steps := [s, s'] + rest[1..], [Visit(w)] + rs;
    }
  }

  lemma SmallerSet<T>(a: set<T>, b: set<T>)
    requires a < b
    ensures |a| < |b|
  {
    var x :| x in b && x !in a;
    assert a <= b - {x};
    SubsetSize(a, b - {x});
  }

  lemma {:induction false} SubsetSize<T>(a: set<T>, b: set<T>)
    requires a <= b
    ensures |a| <= |b|
  {
    if a != {} {
      var x :| x in a;
      SubsetSize(a - {x}, b - {x});
    }
  }

  /** A callback for an event that does not elect this node can run to its end, whatever the
      streams do not do, and has then closed every session it found. */
  lemma LossCallbackCloses(s: State) returns (path: seq<State>, steps: seq<Step>)
    requires InLoss(s) && s.closing.NotCalled?
    ensures IsPath(path, steps) && path[0] == s && forall k :: 0 <= k < |steps| ==> OfCallback(steps[k])
    ensures var t := path[|path| - 1];
            && !t.sink.consumer.InLeaderCallback? && t.closing.NotCalled? && t.registry == map[]
            && forall w :: w in s.registry ==> s.registry[w] in t.closed
  {
    hide Status.Leads;
    var s1 := Next(s, BeginClose);
    var loop, ls := LoopEnds(s1);
    var t := loop[|loop| - 1];
    var u := Next(t, SinkStep(L.CallbackReturns));
    Join([s, s1], [BeginClose], loop, ls);
    Join([s, s1] + loop[1..], [BeginClose] + ls, [t, u], [SinkStep(L.CallbackReturns)]);
    path := [s, s1] + loop[1..] + [t, u][1..];
    steps := [BeginClose] + ls + [SinkStep(L.CallbackReturns)];
  }

  // ---------------------------------------------------------------- sessions the manager forgets

  ghost predicate Registered(s: State, x: nat) {
    exists w :: w in s.registry && s.registry[w] == x
  }

  /** An open session that has registered and is not in the map: no leader event closes it. */
  ghost predicate Forgotten(s: State, x: nat) {
    x in s.worker && x !in s.closed && !Registered(s, x)
  }

  /** The ids a step removes from the map. */
  ghost function Removes(s: State, step: Step): set<Worker> {
    match step
    case Clear => s.registry.Keys
    case EndStream(y) => if HasId(s, y) then {s.worker[y]} else {}
    case _ => {}
  }

  /** A step makes the manager forget an open session exactly when it is the clearing at the
      end of Close, or the end of another stream, and removes every id the session has. */
  lemma StepForgetsIff(s: State, step: Step, x: nat)
    requires Enabled(s, step) && x in s.worker && x !in s.closed && Registered(s, x)
    ensures Forgotten(Next(s, step), x)
            <==> step != EndStream(x) && forall w :: w in s.registry && s.registry[w] == x ==> w in Removes(s, step)
  {
    hide L.Next, L.Enabled;
    var s' := Next(s, step);
    var w :| w in s.registry && s.registry[w] == x;
    if step.Register? && x !in s'.closed {
      assert s'.registry[w] == x;
    }
    if Registered(s', x) {
      var v :| v in s'.registry && s'.registry[v] == x;
      assert step.Register? || (v in s.registry && s.registry[v] == x);
    }
    forall v | v in s.registry && s.registry[v] == x && v !in Removes(s, step) && !step.Register?
      ensures v in s'.registry && s'.registry[v] == x
    {
    }
  }

  /** And then only its own stream can change that. */
  lemma StepStaysForgotten(s: State, step: Step, x: nat)
    requires Enabled(s, step) && Forgotten(s, x) && step != EndStream(x)
    requires step.Register? ==> step.x != x
    ensures Forgotten(Next(s, step), x)
  {
    hide L.Next, L.Enabled;
    var s' := Next(s, step);
    forall v | v in s'.registry ensures s'.registry[v] != x { assert v in s.registry ==> s.registry[v] != x; }
  }

  /** Whatever leader events come, a forgotten session stays open until its own stream
      registers again or ends. */
  lemma {:induction false} ForgottenStaysOpen(path: seq<State>, steps: seq<Step>, n: nat, x: nat)
    requires IsPath(path, steps) && n < |path| && Forgotten(path[0], x)
    requires forall k :: 0 <= k < n ==> steps[k] != EndStream(x) && (steps[k].Register? ==> steps[k].x != x)
    ensures x !in path[n].closed && Forgotten(path[n], x)
  {
    hide Next, Enabled, Registered;
    if n > 0 {
      ForgottenStaysOpen(path, steps, n - 1, x);
      assert Enabled(path[n - 1], steps[n - 1]) && path[n] == Next(path[n - 1], steps[n - 1]);
      StepStaysForgotten(path[n - 1], steps[n - 1], x);
    }
  }

  // ---------------------------------------------------------------- settled states

  /** What the sink keeps along a path: pushes and deliveries only grow, and calls that begin
      later have seen the pushes made before. */
  ghost predicate Grows(k: L.State, k': L.State) {
    && k.pushes <= k'.pushes && k.delivered <= k'.delivered
    && forall id :: id in k'.calls && id !in k.calls ==> |k.pushes| <= k'.calls[id].since
  }

  lemma SinkStepGrows(k: L.State, step: L.Step)
    requires L.Enabled(k, step)
    ensures var k' := L.Next(k, step);
            && Grows(k, k') && k.calls.Keys <= k'.calls.Keys
            && forall id :: id in k.calls ==> k'.calls[id].since == k.calls[id].since
  {
  }

  lemma StepGrows(s: State, step: Step)
    requires Enabled(s, step)
    ensures var k, k' := s.sink, Next(s, step).sink;
            && Grows(k, k') && k.calls.Keys <= k'.calls.Keys && Next(s, step).own == s.own
            && (forall id :: id in k.calls ==> k'.calls[id].since == k.calls[id].since)
            && (L.Inv(k) ==> L.Inv(k'))
  {
    hide L.Next, L.Enabled, L.Inv;
    if step.SinkStep? {
      SinkStepGrows(s.sink, step.k);
      if L.Inv(s.sink) { L.StepKeepsInv(s.sink, step.k); }
    }
  }

  lemma {:induction false} RunGrows(run: seq<State>, steps: seq<Step>, i: nat, n: nat)
    requires IsRun(run, steps) && i <= n < |run|
    ensures Grows(run[i].sink, run[n].sink) && run[i].sink.calls.Keys <= run[n].sink.calls.Keys
    ensures run[n].own == run[i].own
  {
    hide Next, Enabled, L.Inv;
    if i < n {
      RunGrows(run, steps, i, n - 1);
      assert Enabled(run[n - 1], steps[n - 1]) && run[n] == Next(run[n - 1], steps[n - 1]);
      StepGrows(run[n - 1], steps[n - 1]);
    }
  }

  lemma {:induction false} RunKeepsSink(run: seq<State>, steps: seq<Step>, n: nat)
    requires IsRun(run, steps) && n < |run|
    ensures L.Inv(run[n].sink)
  {
    hide Next, Enabled, L.Inv, L.Initial;
    if n == 0 {
      L.InitialInv(run[0].sink);
    } else {
      RunKeepsSink(run, steps, n - 1);
      assert Enabled(run[n - 1], steps[n - 1]) && run[n] == Next(run[n - 1], steps[n - 1]);
      StepGrows(run[n - 1], steps[n - 1]);
    }
  }

  /** In a settled state the newest push, if made after h events were handed over, is among
      the events handled since. */
  lemma NewestAmongHandled(k: L.State, k': L.State)
    requires L.Inv(k) && L.Inv(k') && Grows(k, k') && L.Settled(k') && |k.pushes| < |k'.pushes|
    ensures |k.handed| < |k'.handed| && L.Handled(k') == k'.handed
    ensures k'.handed[|k'.handed| - 1] == k'.pushes[|k'.pushes| - 1]
  {
    hide L.CallsInv, L.MemberInv, L.PusherInv, L.NewestDisplaced;
    L.SettledNotDisplaced(k');
    L.NewestHandledWhen(k');
    assert |k.handed| == |k.delivered| && |k'.handed| == |k'.delivered|;
    assert k.delivered != [] ==> k'.delivered[|k.delivered| - 1] == k.delivered[|k.delivered| - 1] < |k.pushes|;
  }

  /** When all is settled, a session outlives a loss broadcast after it registered only
      through a re-election: the newest event then elects this node. */
  lemma OutlivesOnlyReelection(run: seq<State>, steps: seq<Step>, i: nat, n: nat, w: Worker, x: nat)
    requires Tenure(run, steps, i, n, w, x) && L.Settled(run[n].sink)
    requires LossBroadcast(run[i], run[n]) && x !in run[n].closed
    ensures var pushes := run[n].sink.pushes; Status.Leads(pushes[|pushes| - 1], run[n].own)
  {
    hide Initial, Next, Enabled, Touches, Status.Leads, L.SlotInv, L.MemberInv, L.PusherInv;
    var k, k' := run[i].sink, run[n].sink;
    RunKeepsSink(run, steps, i);
    RunKeepsSink(run, steps, n);
    RunGrows(run, steps, i, n);
    var id :| id in k'.calls && id !in k.calls && !Status.Leads(k'.calls[id].ev, run[n].own);
    assert L.CallInv(k', k'.calls[id]);
    NewestAmongHandled(k, k');
    ClosedByLossIff(run, steps, i, n, w, x);
    assert L.Handled(k')[|k'.handed| - 1] == k'.pushes[|k'.pushes| - 1];
  }

  // ---------------------------------------------------------------- runs

  /** Beside a path of the sink on which no callback is for a loss, nothing else need happen. */
  lemma {:induction false} Lift(s: State, sinks: seq<L.State>) returns (path: seq<State>, steps: seq<Step>)
    requires L.IsPath(sinks) && sinks[0] == s.sink && s.closing.NotCalled?
    requires forall k :: 0 <= k < |sinks| && sinks[k].consumer.InLeaderCallback? ==> InLead(s.(sink := sinks[k]))
    ensures IsPath(path, steps) && path[0] == s && path[|path| - 1] == s.(sink := sinks[|sinks| - 1])
    decreases |sinks|
  {
    hide L.Next, L.Enabled, Status.Leads;
    var n := |sinks| - 1;
    if n == 0 {
      path, steps := [s], [];
    } else {
      path, steps := Lift(s, sinks[..n]);
      assert L.CanStep(sinks[n - 1], sinks[n]);
      var k :| L.Enabled(sinks[n - 1], k) && sinks[n] == L.Next(sinks[n - 1], k);
      path, steps := path + [s.(sink := sinks[n])], steps + [SinkStep(k)];
    }
  }

  lemma Join(a: seq<State>, sa: seq<Step>, b: seq<State>, sb: seq<Step>)
    requires IsPath(a, sa) && IsPath(b, sb) && b[0] == a[|a| - 1]
    ensures IsPath(a + b[1..], sa + sb) && (a + b[1..])[|a| + |b| - 2] == b[|b| - 1]
    ensures forall k :: 0 <= k < |a| ==> (a + b[1..])[k] == a[k]
  {
    hide Next, Enabled;
    var c, sc := a + b[1..], sa + sb;
    forall i | 0 <= i < |sc| ensures Enabled(c[i], sc[i]) && c[i + 1] == Next(c[i], sc[i]) {
      if i >= |sa| { assert c[i] == b[i - |sa|] && c[i + 1] == b[i + 1 - |sa|] && sc[i] == sb[i - |sa|]; }
    }
  }

  ghost function NewServer(own: string): State {
    State(own, L.NewState(), map[], map[], {}, {}, NotCalled)
  }

  /** A stretch of the sink on which only an election of this node is handled. */
  lemma Stretch(s: State, sinks: seq<L.State>, ev: L.LeaderEvent) returns (path: seq<State>, steps: seq<Step>)
    requires L.IsPath(sinks) && sinks[0] == s.sink && Status.CallbacksOnly(sinks, s.sink, ev, true)
    requires s.closing.NotCalled? && !s.sink.consumer.InLeaderCallback? && Status.Leads(ev, s.own)
    ensures IsPath(path, steps) && path[0] == s && path[|path| - 1] == s.(sink := sinks[|sinks| - 1])
  {
    path, steps := Lift(s, sinks);
  }

  /** A pending loss is handled while no session is registered. */
  lemma HandleLoss(s: State) returns (path: seq<State>, steps: seq<Step>)
    requires s.registry == map[] && s.closing.NotCalled? && L.AtSelect(s.sink)
    requires s.sink.ch.leader.Some? && !Status.Leads(s.sink.ch.leader.value, s.own)
    ensures IsPath(path, steps) && path[0] == s
    ensures var t := path[|path| - 1];
            && t == s.(sink := t.sink) && t.sink.consumer.Polling? && t.sink.ch == s.sink.ch.(leader := None)
            && t.sink.calls == s.sink.calls && t.sink.pushes == s.sink.pushes
            && t.sink.handed == s.sink.handed + [s.sink.ch.leader.value]
  {
    steps := [SinkStep(L.TakeLeader), BeginClose, Clear, SinkStep(L.CallbackReturns)];
    var s1 := Next(s, steps[0]);
    var s2 := Next(s1, steps[1]);
    var s3 := Next(s2, steps[2]);
    var s4 := Next(s3, steps[3]);
    path := [s, s1, s2, s3, s4];
  }

  lemma RegisterNow(s: State, w: Worker, x: nat) returns (path: seq<State>, steps: seq<Step>)
    requires x !in s.ended && w !in s.registry
    ensures IsPath(path, steps) && path[0] == s && steps == [Register(w, x)]
    ensures path[|path| - 1] == s.(registry := s.registry[w := x], worker := s.worker[x := w])
  {
    path, steps := [s, Next(s, Register(w, x))], [Register(w, x)];
  }

  /** A session registers after a loss was handled and the node elected; a second loss is
      displaced by a re-election. All is settled, and the session has outlived the second
      loss although a loss was handled before it registered. */
  lemma OutlivesLaterLoss(own: string, w: Worker) returns (run: seq<State>, steps: seq<Step>, i: nat)
    ensures IsRun(run, steps) && i < |run|
    ensures var s, t := run[i], run[|run| - 1];
            && Holds(s, w, 1) && LossHandled(s, 0)
            && Holds(t, w, 1) && L.Settled(t.sink) && LossBroadcast(s, t)
  {
    hide Next, Enabled, L.IsPath, Status.CallbacksOnly;
    var lost, elected := L.LeaderEvent(L.Expired, own, 0), L.LeaderEvent(L.Elected, own, 1);
    var s0 := NewServer(own);
    var a, sa := PushLoss(s0, 1, lost);
    var b, sb := HandleLoss(a[|a| - 1]);
    Join(a, sa, b, sb);
    var ab, sab := a + b[1..], sa + sb;
    var sinks := Status.PushAndHandle(ab[|ab| - 1].sink, 2, elected);
    var c, sc := Stretch(ab[|ab| - 1], sinks, elected);
    Join(ab, sab, c, sc);
    var abc, sabc := ab + c[1..], sab + sc;
    var d, sd := RegisterNow(abc[|abc| - 1], w, 1);
    Join(abc, sabc, d, sd);
    var upTo, sUpTo := abc + d[1..], sabc + sd;
    i := |upTo| - 1;
    var s := upTo[i];
    var more := Status.LossDisplaced(s.sink, 3, lost, 4, L.LeaderEvent(L.Elected, own, 2));
    var e, se := Stretch(s, more, L.LeaderEvent(L.Elected, own, 2));
    Join(upTo, sUpTo, e, se);
    run, steps := upTo + e[1..], sUpTo + se;
    assert L.Handled(s.sink)[0] == lost;
    assert 3 in run[|run| - 1].sink.calls && 3 !in s.sink.calls;
  }

  lemma PushLoss(s: State, id: nat, ev: L.LeaderEvent) returns (path: seq<State>, steps: seq<Step>)
    requires s == NewServer(s.own)
    ensures IsPath(path, steps) && path[0] == s
    ensures var t := path[|path| - 1];
            && t == s.(sink := t.sink) && t.sink.consumer.Polling? && t.sink.ch == L.Channels(Some(ev), [], false)
            && t.sink.calls == map[id := L.Call(ev, L.Returned(true), 0, false)]
            && t.sink.pushes == [ev] && t.sink.handed == []
  {
    var sinks := Status.Deliver(s.sink, id, ev);
    path, steps := Lift(s, sinks);
  }

  /** The loss need not even be pushed: its call gives up in favour of an election, and no
      pushed event is a loss. */
  lemma OutlivesGivenUpLoss(own: string, w: Worker) returns (run: seq<State>, steps: seq<Step>, i: nat)
    ensures IsRun(run, steps) && i < |run|
    ensures var s, t := run[i], run[|run| - 1];
            && Holds(s, w, 1) && Holds(t, w, 1) && L.Settled(t.sink) && LossBroadcast(s, t)
            && forall ev :: ev in t.sink.pushes ==> Status.Leads(ev, own)
  {
    hide Next, Enabled, L.IsPath, Status.CallbacksOnly;
    var lost, elected := L.LeaderEvent(L.Expired, own, 0), L.LeaderEvent(L.Elected, own, 1);
    var a, sa := RegisterNow(NewServer(own), w, 1);
    i := 1;
    var s := a[1];
    var sinks := Status.LossGivenUp(s.sink, 1, elected, 2, lost, 3, elected);
    var b, sb := Stretch(s, sinks, elected);
    Join(a, sa, b, sb);
    run, steps := a + b[1..], sa + sb;
    assert 2 in run[|run| - 1].sink.calls && 2 !in s.sink.calls;
  }

  /** A session that registers between the loop and the clearing of Close is forgotten: the
      loss is handled and the session stays open. */
  lemma RegisteredDuringCloseIsForgotten(own: string, w: Worker) returns (run: seq<State>, steps: seq<Step>)
    ensures IsRun(run, steps)
    ensures var t := run[|run| - 1]; Forgotten(t, 1) && LossHandled(t, 0) && t.closing.NotCalled?
  {
    var lost := L.LeaderEvent(L.Expired, own, 0);
    var a, sa := PushLoss(NewServer(own), 1, lost);
    var b, sb := RegisterDuringClose(a[|a| - 1], w, 1);
    Join(a, sa, b, sb);
    run, steps := a + b[1..], sa + sb;
    assert L.Handled(run[|run| - 1].sink)[0] == lost;
  }

  lemma RegisterDuringClose(s: State, w: Worker, x: nat) returns (path: seq<State>, steps: seq<Step>)
    requires s.registry == map[] && s.closing.NotCalled? && L.AtSelect(s.sink) && x !in s.ended && x !in s.closed
    requires s.sink.ch.leader.Some? && !Status.Leads(s.sink.ch.leader.value, s.own)
    ensures IsPath(path, steps) && path[0] == s
    ensures var t := path[|path| - 1];
            && t == s.(sink := t.sink, worker := s.worker[x := w]) && t.sink.consumer.Polling?
            && t.sink.handed == s.sink.handed + [s.sink.ch.leader.value]
  {
    steps := [SinkStep(L.TakeLeader), BeginClose, Register(w, x), Clear, SinkStep(L.CallbackReturns)];
    var s1 := Next(s, steps[0]);
    var s2 := Next(s1, steps[1]);
    var s3 := Next(s2, steps[2]);
    var s4 := Next(s3, steps[3]);
    var s5 := Next(s4, steps[4]);
    path := [s, s1, s2, s3, s4, s5];
  }

  /** So is one that replaces an older session of the same worker, once the stream of the
      older one has returned. */
  lemma ReconnectedIsForgotten(own: string, w: Worker) returns (run: seq<State>, steps: seq<Step>)
    requires w != ""
    ensures IsRun(run, steps) && Forgotten(run[|run| - 1], 2)
  {
    hide L.Next, L.Enabled;
    steps := [Register(w, 1), Register(w, 2), EndStream(1)];
    var s0 := NewServer(own);
    var s1 := Next(s0, steps[0]);
    var s2 := Next(s1, steps[1]);
    var s3 := Next(s2, steps[2]);
    run := [s0, s1, s2, s3];
  }
}
