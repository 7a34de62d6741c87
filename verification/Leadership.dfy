/** One node of the cluster: its view of the leadership, its campaign and observer
    goroutines, and one listener's sink, running against etcd. */
module Leadership {
  import opened Sequences
  import E = Election
  import L = LeaderSink

  // ---------------------------------------------------------------- the local view

  datatype Role = Leader | Follower | Candidate
  datatype View = View(role: Role, currentLeader: string)

  function Become(own: string): View { View(Leader, own) }

  function Lose(): View { View(Candidate, "") }

  function Observed(own: string, leader: string): View {
    View(if leader == own then Leader else Follower, leader)
  }

  /** Leader exactly when the current leader is the own name, candidate exactly when no
      leader is known. */
  predicate Coherent(v: View, own: string) {
    (v.role.Leader? <==> v.currentLeader == own) && (v.role.Candidate? <==> v.currentLeader == "")
  }

  function LossEvent(kind: L.LeaderEventType, own: string): L.LeaderEvent {
    L.LeaderEvent(kind, own, 0)
  }

  function ElectedEvent(t: E.Term): L.LeaderEvent {
    L.LeaderEvent(L.Elected, t.name, t.createRev)
  }

  /** The election object: the fields its lock protects, updated as one step each. */
  class LeaderElection {
    const nodeName: string
    var role: Role
    var currentLeader: string
    var listeners: map<nat, L.Sink>
    var nextListenerId: nat

    ghost predicate Valid()
      reads this
    {
      && nodeName != ""
      && Coherent(View(role, currentLeader), nodeName)
      && forall id :: id in listeners ==> id <= nextListenerId
    }

    constructor (nodeName: string)
      requires nodeName != ""
      ensures Valid() && this.nodeName == nodeName && listeners == map[]
      ensures role.Candidate? && currentLeader == ""
    {
      this.nodeName := nodeName;
      role, currentLeader := Candidate, "";
      listeners, nextListenerId := map[], 0;
    }

    method IsLeader() returns (r: bool)
      requires Valid()
      ensures r <==> currentLeader == nodeName
    {
      r := role.Leader?;
    }

    /** The event reaches every registered open sink; closed sinks and everything else
        stay as they are. */
    method BroadcastLeaderEvent(ev: L.LeaderEvent)
      modifies listeners.Values
      ensures forall id :: id in listeners ==>
                listeners[id].View() == if old(listeners[id].done) then old(listeners[id].View())
                                        else old(listeners[id].View()).(leader := Some(ev))
    {
      var ids := listeners.Keys;
      while ids != {}
        invariant ids <= listeners.Keys
        invariant forall id :: id in listeners ==>
                    listeners[id].View() == old(listeners[id].View())
                    || (!listeners[id].done && listeners[id].View() == old(listeners[id].View()).(leader := Some(ev)))
        invariant forall id :: id in listeners && id !in ids && !listeners[id].done ==>
                    listeners[id].leaderCh == Some(ev)
      {
        var id :| id in ids;
        var ok := listeners[id].EnqueueLeader(ev);
        ids := ids - {id};
      }
    }

    method BecomeLeader()
      requires Valid()
      modifies this`role, this`currentLeader
      ensures Valid() && role.Leader? && currentLeader == nodeName && View(role, currentLeader) == Become(nodeName)
    {
      role := Leader;
      currentLeader := nodeName;
    }

    method LoseLeadership(kind: L.LeaderEventType)
      requires Valid()
      modifies this`role, this`currentLeader, listeners.Values
      ensures Valid() && role.Candidate? && currentLeader == "" && View(role, currentLeader) == Lose()
      ensures forall id :: id in listeners && !listeners[id].done ==>
                listeners[id].leaderCh == Some(L.LeaderEvent(kind, nodeName, 0))
    {
      role := Candidate;
      currentLeader := "";
      BroadcastLeaderEvent(LossEvent(kind, nodeName));
    }

    /** One response of the observation channel; None stands for a response without keys. */
    method ObserveLeader(resp: Option<E.Term>)
      requires Valid() && (resp.Some? ==> resp.value.name != "")
      modifies this`role, this`currentLeader, listeners.Values
      ensures Valid()
      ensures resp.None? ==> View(role, currentLeader) == old(View(role, currentLeader))
      ensures resp.Some? ==>
                && currentLeader == resp.value.name
                && role == (if resp.value.name == nodeName then Leader else Follower)
                && View(role, currentLeader) == Observed(nodeName, resp.value.name)
                && forall id :: id in listeners && !listeners[id].done ==>
                     listeners[id].leaderCh == Some(L.LeaderEvent(L.Elected, resp.value.name, resp.value.createRev))
    {
      if resp.None? { return; }
      var leaderName := resp.value.name;
      if leaderName == nodeName { role := Leader; } else { role := Follower; }
      currentLeader := leaderName;
      BroadcastLeaderEvent(ElectedEvent(resp.value));
    }

    /** Watch registers a fresh, empty sink under a new id. */
    method Watch() returns (id: nat)
      requires Valid()
      modifies this`listeners, this`nextListenerId
      ensures Valid() && id !in old(listeners) && listeners.Keys == old(listeners).Keys + {id}
      ensures fresh(listeners[id]) && listeners[id].View() == L.Channels(None, [], false)
      ensures forall k :: k in old(listeners) ==> listeners[k] == old(listeners)[k]
    {
      nextListenerId := nextListenerId + 1;
      id := nextListenerId;
      var s := new L.Sink();
      listeners := listeners[id := s];
    }

    /** Removing a listener closes its sink; removing it again does nothing. */
    method RemoveListener(id: nat)
      requires Valid()
      modifies this`listeners, listeners.Values
      ensures Valid() && listeners == old(listeners) - {id}
      ensures id in old(listeners) ==> old(listeners)[id].View() == old(listeners[id].View()).(done := true)
    {
      if id in listeners {
        var s := listeners[id];
        listeners := listeners - {id};
        s.Close();
      }
    }
  }

  // ---------------------------------------------------------------- the machine

  /** At the top of its loop; in Election.Campaign before its put, and then waiting for all
      keys older than its own to be deleted; back from it; waiting for the term to end; about
      to give up leadership on shutdown; or gone. */
  datatype CampaignPhase =
    | Top
    | Calling
    | Waiting(rev: nat)
    | Unblocked(rev: nat)
    | Leading
    | Resigning
    | Stopped

  /** Before Election.Observe, reading its channel, or gone. */
  datatype Observer = Starting | Watching | Gone

  datatype State = State(
    etcd: E.Etcd,
    own: string,
    lease: nat,              // of the one session that Start creates
    view: View,
    observer: Observer,
    seen: nat,               // the observer has reached this point of the leader history
    token: nat,              // create revision it reported last
    campaign: CampaignPhase,
    lostKey: bool,           // a campaign call came back although its key was gone
    cancelled: bool,
    told: Option<nat>,       // the call that broadcasts the last change of the view, if any
    sink: L.State)

  ghost predicate Initial(s: State) {
    && E.Initial(s.etcd) && L.Initial(s.sink) && s.own != "" && s.view == Lose()
    && s.observer.Starting? && s.seen == 0 && s.token == 0
    && s.campaign.Top? && !s.lostKey && !s.cancelled && s.told.None?
  }

  /** `listening` is false when the sink is not, or no longer, among the listeners. */
  datatype Step =
    | EtcdStep(e: E.Step)
    | SinkStep(k: L.Step)
    | Contend
    | JoinQueue                          // Election.Campaign puts its key, or finds it there
    | CampaignError
    | Withdraw                           // cancelled while waiting: it deletes its key and fails
    | Unblock                            // no older key is left
    | Win
    | Expire(id: nat, listening: bool)
    | Interrupted
    | Cancel
    | Shutdown
    | GiveUpLeadership(id: nat, listening: bool)
    | StartObserving
    | Observe(at: nat, id: nat, listening: bool)
    | StopObserving

  /** Each goroutine makes one enqueueLeader call at a time: the observer's calls carry
      elected events, the campaign's calls losses. */
  ghost predicate ObserverIdle(k: L.State) {
    forall id :: id in k.calls && k.calls[id].ev.kind.Elected? ==> k.calls[id].phase.Returned?
  }

  ghost predicate CampaignIdle(k: L.State) {
    forall id :: id in k.calls && !k.calls[id].ev.kind.Elected? ==> k.calls[id].phase.Returned?
  }

  /** Node names are distinct and this node has one session: its name goes with its lease.
      Its key is put by its own campaign, and deleted by it or on shutdown. */
  ghost predicate Possible(s: State, e: E.Step) {
    match e
    case Grant(lease, name) => lease == s.lease <==> name == s.own
    case Campaign(lease) => lease != s.lease
    case Resign(lease) => lease == s.lease ==> s.campaign.Resigning?
    case _ => true
  }

  ghost predicate HasKey(e: E.Etcd, lease: nat) {
    exists t :: t in e.keys && t.lease == lease
  }

  /** The create revision of the key under the lease. */
  ghost function KeyRev(e: E.Etcd, lease: nat): nat
    requires HasKey(e, lease)
  {
    var t :| t in e.keys && t.lease == lease;
    t.createRev
  }

  /** No live key is older than revision rev. */
  ghost predicate NoOlder(e: E.Etcd, rev: nat) {
    forall t :: t in e.keys ==> rev <= t.createRev
  }

  ghost predicate KeyLive(e: E.Etcd, lease: nat, rev: nat) {
    exists t :: t in e.keys && t.lease == lease && t.createRev == rev
  }

  /** Where the current leader stands in the history, or the next one will. */
  ghost function Now(e: E.Etcd): nat {
    if e.keys == [] || e.history == [] then |e.history| else |e.history| - 1
  }

  /** Start launches both goroutines after registerMember. Election.Campaign waits until no
      key older than its own is left; it does not look at its own key again. */
  ghost predicate Enabled(s: State, step: Step) {
    match step
    case EtcdStep(e) => E.Enabled(s.etcd, e) && Possible(s, e)
    case SinkStep(k) => !k.Enter? && L.Enabled(s.sink, k)
    case Contend => s.campaign.Top? && !s.cancelled && s.lease in s.etcd.registered
    case JoinQueue => s.campaign.Calling? && (HasKey(s.etcd, s.lease) || E.Enabled(s.etcd, E.Campaign(s.lease)))
    case CampaignError => s.campaign.Calling? || s.campaign.Waiting?
    case Withdraw => s.campaign.Waiting? && s.cancelled
    case Unblock => s.campaign.Waiting? && NoOlder(s.etcd, s.campaign.rev)
    case Win => s.campaign.Unblocked?
    case Expire(id, _) => s.campaign.Leading? && CampaignIdle(s.sink) && id !in s.sink.calls
    case Interrupted => s.campaign.Leading? && s.cancelled
    case Cancel => true
    case Shutdown => s.campaign.Top? && s.cancelled
    case GiveUpLeadership(id, _) => s.campaign.Resigning? && CampaignIdle(s.sink) && id !in s.sink.calls
    case StartObserving => s.observer.Starting? && s.lease in s.etcd.registered
    case Observe(at, id, _) =>
      && s.observer.Watching? && s.seen <= at < |s.etcd.history|
      && ObserverIdle(s.sink) && id !in s.sink.calls
    case StopObserving => s.observer.Watching? && ObserverIdle(s.sink)
  }

  ghost function Tell(k: L.State, id: nat, ev: L.LeaderEvent, listening: bool): L.State
    requires id !in k.calls
  {
    if listening then L.Next(k, L.Enter(id, ev)) else k
  }

  ghost function Told(id: nat, listening: bool): Option<nat> {
    if listening then Some(id) else None
  }

  ghost function Next(s: State, step: Step): State
    requires Enabled(s, step)
  {
    match step
    case EtcdStep(e) => s.(etcd := E.Next(s.etcd, e))
    case SinkStep(k) => s.(sink := L.Next(s.sink, k))
    case Contend => s.(campaign := Calling)
    case JoinQueue =>
      if HasKey(s.etcd, s.lease) then s.(campaign := Waiting(KeyRev(s.etcd, s.lease)))
      else s.(etcd := E.Next(s.etcd, E.Campaign(s.lease)), campaign := Waiting(s.etcd.revision + 1))
    case CampaignError => s.(campaign := Top)
    case Withdraw =>
      s.(campaign := Top,
         etcd := if E.Enabled(s.etcd, E.Resign(s.lease)) then E.Next(s.etcd, E.Resign(s.lease)) else s.etcd)
    case Unblock =>
      s.(campaign := Unblocked(s.campaign.rev),
         lostKey := s.lostKey || !KeyLive(s.etcd, s.lease, s.campaign.rev))
    case Win => s.(campaign := Leading, view := Become(s.own), told := None)
    case Expire(id, listening) =>
      s.(campaign := Top, view := Lose(), told := Told(id, listening),
         sink := Tell(s.sink, id, LossEvent(L.Expired, s.own), listening))
    case Interrupted => s.(campaign := Top)
    case Cancel => s.(cancelled := true)
    case Shutdown => s.(campaign := if s.view.role.Leader? then Resigning else Stopped)
    case GiveUpLeadership(id, listening) =>
      s.(campaign := Stopped, view := Lose(), told := Told(id, listening),
         sink := Tell(s.sink, id, LossEvent(L.Resigned, s.own), listening))
    case StartObserving => s.(observer := Watching, seen := Now(s.etcd))
    case Observe(at, id, listening) =>
      var t := s.etcd.history[at];
      s.(view := Observed(s.own, t.name), seen := at, token := t.createRev, told := Told(id, listening),
         sink := Tell(s.sink, id, ElectedEvent(t), listening))
    case StopObserving => s.(observer := Gone)
  }

  ghost predicate CanStep(s: State, s': State) {
    exists step :: Enabled(s, step) && s' == Next(s, step)
  }

  /** A sequence of states in which each follows from the one before by a step. */
  ghost predicate IsPath(path: seq<State>) {
    |path| > 0 && forall i :: 0 <= i < |path| - 1 ==> CanStep(path[i], path[i + 1])
  }

  ghost predicate IsRun(run: seq<State>) {
    IsPath(run) && Initial(run[0])
  }

  ghost function Take(s: State, step: Step): (s': State)
    requires Enabled(s, step)
    ensures s' == Next(s, step) && CanStep(s, s')
  {
    Next(s, step)
  }

  // ---------------------------------------------------------------- etcd steps

  /** The etcd step that a step makes, if any. */
  ghost function Move(s: State, step: Step): Option<E.Step> {
    match step
    case EtcdStep(e) => Some(e)
    case JoinQueue => if HasKey(s.etcd, s.lease) then None else Some(E.Campaign(s.lease))
    case Withdraw => if E.Enabled(s.etcd, E.Resign(s.lease)) then Some(E.Resign(s.lease)) else None
    case _ => None
  }

  ghost predicate GrantsRight(e: E.Step, own: string, lease: nat) {
    e.Grant? ==> (e.lease == lease <==> e.name == own)
  }

  lemma StepMoves(s: State, step: Step)
    requires Enabled(s, step)
    ensures var s', move := Next(s, step), Move(s, step);
            && s'.own == s.own && s'.lease == s.lease
            && (move.None? ==> s'.etcd == s.etcd)
            && (move.Some? ==> && E.Enabled(s.etcd, move.value) && s'.etcd == E.Next(s.etcd, move.value)
                               && GrantsRight(move.value, s.own, s.lease))
  {
    hide E.Next, E.Enabled, L.Next, L.Enabled, HasKey, NoOlder, KeyLive;
  }

  /** What an etcd step does to the history: it records the leader it leaves, if any. */
  lemma HistoryGrows(e: E.Etcd, step: E.Step)
    requires E.Enabled(e, step)
    ensures var e' := E.Next(e, step);
            e'.history == if e'.keys == [] then e.history else e.history + [e'.keys[0]]
  {
  }

  // ---------------------------------------------------------------- own terms

  /** A term goes by the node's name exactly when it is under the node's lease. */
  ghost predicate NamedRight(t: E.Term, own: string, lease: nat) {
    t.name == own <==> t.lease == lease
  }

  ghost predicate NodeInv(e: E.Etcd, own: string, lease: nat) {
    && E.KeysLive(e)
    && (forall l :: l in e.leases ==> (e.leases[l] == own <==> l == lease))
    && (forall t :: t in e.history ==> NamedRight(t, own, lease))
    && (e.keys != [] ==> e.history != [] && e.history[|e.history| - 1] == e.keys[0])
  }

  lemma EtcdStepKeepsNode(e: E.Etcd, step: E.Step, own: string, lease: nat)
    requires NodeInv(e, own, lease) && E.Enabled(e, step) && GrantsRight(step, own, lease)
    ensures NodeInv(E.Next(e, step), own, lease)
  {
    hide E.KeysLive, E.Next, E.Enabled, GrantsRight, NamedRight;
    var e' := E.Next(e, step);
    E.StepKeepsKeysLive(e, step);
    HistoryGrows(e, step);
    LeasesNamedRight(e, step, own, lease);
    if e'.keys != [] { LiveNamedRight(e', own, lease, e'.keys[0]); }
  }

  lemma LeasesNamedRight(e: E.Etcd, step: E.Step, own: string, lease: nat)
    requires forall l :: l in e.leases ==> (e.leases[l] == own <==> l == lease)
    requires E.Enabled(e, step) && GrantsRight(step, own, lease)
    ensures var e' := E.Next(e, step); forall l :: l in e'.leases ==> (e'.leases[l] == own <==> l == lease)
  {
  }

  lemma LiveNamedRight(e: E.Etcd, own: string, lease: nat, t: E.Term)
    requires E.KeysLive(e) && t in e.keys
    requires forall l :: l in e.leases ==> (e.leases[l] == own <==> l == lease)
    ensures NamedRight(t, own, lease)
  {
  }

  lemma StepKeepsNode(s: State, step: Step)
    requires NodeInv(s.etcd, s.own, s.lease) && Enabled(s, step)
    ensures var s' := Next(s, step); NodeInv(s'.etcd, s'.own, s'.lease)
  {
    hide Next, Enabled, E.Next, E.Enabled, NodeInv, Move, GrantsRight;
    StepMoves(s, step);
    if Move(s, step).Some? { EtcdStepKeepsNode(s.etcd, Move(s, step).value, s.own, s.lease); }
  }

  // ---------------------------------------------------------------- the node's key

  /** While a campaign waits, and after, only its key is under the lease. */
  ghost predicate OnlyKey(e: E.Etcd, lease: nat, rev: nat) {
    rev <= e.revision && forall t :: t in e.keys && t.lease == lease ==> t.createRev == rev
  }

  ghost predicate OneKey(e: E.Etcd, lease: nat) {
    forall t, t' :: t in e.keys && t' in e.keys && t.lease == lease && t'.lease == lease ==> t == t'
  }

  ghost predicate WaitInv(s: State) {
    && OneKey(s.etcd, s.lease)
    && (s.campaign.Waiting? || s.campaign.Unblocked? ==> OnlyKey(s.etcd, s.lease, s.campaign.rev))
  }

  /** The keys after a step: old ones, and the one that a campaign puts. */
  lemma StepKeys(e: E.Etcd, step: E.Step, t: E.Term)
    requires E.Enabled(e, step)
    ensures var e' := E.Next(e, step);
            && e.revision <= e'.revision
            && (t in e'.keys ==> t in e.keys
                                 || (step == E.Campaign(t.lease) && t.createRev == e.revision + 1 == e'.revision))
            && (t in e.keys && t !in e'.keys ==> step == E.Resign(t.lease) || step == E.Revoke(t.lease))
  {
    if step.Resign? || step.Revoke? { E.WithoutIs(e.keys, step.lease, t); }
  }

  lemma EtcdStepKeepsOnlyKey(e: E.Etcd, step: E.Step, lease: nat, rev: nat)
    requires OnlyKey(e, lease, rev) && E.Enabled(e, step) && step != E.Campaign(lease)
    ensures OnlyKey(E.Next(e, step), lease, rev)
  {
    hide E.Next, E.Enabled;
    forall t | t in E.Next(e, step).keys && t.lease == lease ensures t.createRev == rev { StepKeys(e, step, t); }
    StepKeys(e, step, E.Term(0, "", 0));
  }

  lemma EtcdStepKeepsOneKey(e: E.Etcd, step: E.Step, lease: nat)
    requires OneKey(e, lease) && E.Enabled(e, step)
    ensures OneKey(E.Next(e, step), lease)
  {
    var e' := E.Next(e, step);
    if !step.Campaign? {
      forall t | t in e'.keys ensures t in e.keys { StepKeys(e, step, t); }
    }
  }

  lemma JoinedQueue(s: State)
    requires E.TokenInv(s.etcd) && WaitInv(s) && Enabled(s, JoinQueue)
    ensures WaitInv(Next(s, JoinQueue))
  {
    if !HasKey(s.etcd, s.lease) { EtcdStepKeepsOneKey(s.etcd, E.Campaign(s.lease), s.lease); }
  }

  lemma StepKeepsWait(s: State, step: Step)
    requires E.TokenInv(s.etcd) && WaitInv(s) && Enabled(s, step)
    ensures WaitInv(Next(s, step))
  {
    hide E.Next, E.Enabled, L.Next, L.Enabled, OnlyKey, OneKey, E.TokenInv;
    match step
    case JoinQueue => JoinedQueue(s);
    case EtcdStep(e) =>
      EtcdStepKeepsOneKey(s.etcd, e, s.lease);
      if s.campaign.Waiting? || s.campaign.Unblocked? { EtcdStepKeepsOnlyKey(s.etcd, e, s.lease, s.campaign.rev); }
    case Withdraw =>
      if E.Enabled(s.etcd, E.Resign(s.lease)) { EtcdStepKeepsOneKey(s.etcd, E.Resign(s.lease), s.lease); }
    case _ =>
  }

  /** A live key with no older one beside it is the winning key. */
  lemma OldestWins(s: State, rev: nat)
    requires E.TokenInv(s.etcd) && KeyLive(s.etcd, s.lease, rev) && NoOlder(s.etcd, rev)
    ensures Winning(s)
  {
    var t :| t in s.etcd.keys && t.lease == s.lease && t.createRev == rev;
    var i :| 0 <= i < |s.etcd.keys| && s.etcd.keys[i] == t;
    assert s.etcd.keys[0] in s.etcd.keys;
  }

  // ---------------------------------------------------------------- view

  /** The key under the node's lease is the winning key. */
  ghost predicate Winning(s: State) {
    s.etcd.keys != [] && s.etcd.keys[0].lease == s.lease
  }

  /** A term of this node lies at or after a point of the leader history. */
  ghost predicate OwnTermFrom(s: State, k: nat) {
    exists at :: k <= at < |s.etcd.history| && s.etcd.history[at].name == s.own
  }

  /** The node's key has led, or a campaign call came back without it. */
  ghost predicate HasLed(s: State) {
    OwnTermFrom(s, 0) || s.lostKey
  }

  ghost predicate ViewInv(s: State) {
    && s.own != "" && Coherent(s.view, s.own)
    && (s.view.role.Leader? || s.campaign.Unblocked? ==> HasLed(s))
  }

  lemma HasLedStays(s: State, s': State)
    requires s.etcd.history <= s'.etcd.history && s'.own == s.own && (s.lostKey ==> s'.lostKey) && HasLed(s)
    ensures HasLed(s')
  {
    if OwnTermFrom(s, 0) {
      var at :| 0 <= at < |s.etcd.history| && s.etcd.history[at].name == s.own;
      assert s'.etcd.history[at].name == s'.own;
    }
  }

  lemma OwnTermAt(s: State, at: nat)
    requires E.TokenInv(s.etcd) && NodeInv(s.etcd, s.own, s.lease) && at < |s.etcd.history|
    ensures s.etcd.history[at].name != ""
    ensures s.etcd.history[at].name == s.own <==> s.etcd.history[at].lease == s.lease
    ensures s.etcd.history[at].name == s.own ==> HasLed(s)
  {
    assert s.etcd.history[at] in s.etcd.history;
  }

  lemma UnblockedHasLed(s: State)
    requires E.TokenInv(s.etcd) && NodeInv(s.etcd, s.own, s.lease) && Enabled(s, Unblock)
    ensures HasLed(Next(s, Unblock))
  {
    if KeyLive(s.etcd, s.lease, s.campaign.rev) {
      OldestWins(s, s.campaign.rev);
      OwnTermAt(s, |s.etcd.history| - 1);
      HasLedStays(s, Next(s, Unblock));
    }
  }

  lemma StepKeepsViewInv(s: State, step: Step)
    requires E.TokenInv(s.etcd) && NodeInv(s.etcd, s.own, s.lease) && ViewInv(s) && Enabled(s, step)
    ensures ViewInv(Next(s, step))
  {
    hide E.Next, E.Enabled, L.Next, L.Enabled, HasLed, E.TokenInv, NodeInv, Move, HasKey, NoOlder, KeyLive, KeyRev,
      ObserverIdle, CampaignIdle, Possible, Tell;
    var s' := Next(s, step);
    StepMoves(s, step);
    if Move(s, step).Some? { HistoryGrows(s.etcd, Move(s, step).value); }
    if HasLed(s) { HasLedStays(s, s'); }
    if step.Unblock? { UnblockedHasLed(s); }
    if step.Observe? {
      OwnTermAt(s, step.at);
      if s.etcd.history[step.at].name == s.own { HasLedStays(s, s'); }
    }
  }

  // ---------------------------------------------------------------- fencing

  /** The event reports a term that led. */
  ghost predicate Reports(history: seq<E.Term>, ev: L.LeaderEvent) {
    exists t :: t in history && ev == ElectedEvent(t)
  }

  ghost predicate FenceInv(s: State) {
    && (s.observer.Starting? ==> s.seen == 0)
    && (s.token == 0 || exists t :: t in s.etcd.history && t.createRev == s.token)
    && (forall k :: s.seen <= k < |s.etcd.history| ==> s.token <= s.etcd.history[k].createRev)
    && CallFence(s.etcd.history, s.token, s.sink)
    && PushFence(s.etcd.history, s.token, s.sink.pushes)
  }

  /** An elected event on its way to the slot carries the newest token. */
  ghost predicate CallFence(history: seq<E.Term>, token: nat, k: L.State) {
    forall id :: id in k.calls && k.calls[id].ev.kind.Elected? && !k.calls[id].phase.Returned? ==>
      k.calls[id].ev.epoch == token && Reports(history, k.calls[id].ev)
  }

  /** Pushed elected events carry tokens up to the newest, in order. */
  ghost predicate PushFence(history: seq<E.Term>, token: nat, pushes: seq<L.LeaderEvent>) {
    && (forall i :: 0 <= i < |pushes| && pushes[i].kind.Elected? ==>
          pushes[i].epoch <= token && Reports(history, pushes[i]))
    && (forall i, j :: 0 <= i < j < |pushes| && pushes[i].kind.Elected? && pushes[j].kind.Elected? ==>
          pushes[i].epoch <= pushes[j].epoch)
  }

  lemma ReportsGrow(history: seq<E.Term>, history': seq<E.Term>, ev: L.LeaderEvent)
    requires history <= history' && Reports(history, ev)
    ensures Reports(history', ev)
  {
    var t :| t in history && ev == ElectedEvent(t);
    assert t in history';
  }

  ghost predicate PushedBy(k: L.State, k': L.State, id: nat) {
    id in k.calls && !k.calls[id].phase.Returned? && k'.pushes == k.pushes + [k.calls[id].ev]
  }

  /** What a sink step may do to calls and pushes. */
  lemma SinkStepEffect(k: L.State, step: L.Step)
    requires !step.Enter? && L.Enabled(k, step)
    ensures var k' := L.Next(k, step);
            && k'.calls.Keys == k.calls.Keys
            && (forall id :: id in k.calls ==> k'.calls[id].ev == k.calls[id].ev)
            && (forall id :: id in k.calls && k.calls[id].phase.Returned? ==> k'.calls[id].phase.Returned?)
            && (k'.pushes == k.pushes || exists id :: PushedBy(k, k', id))
  {
    if step.Send? || step.Resend? {
      assert L.Next(k, step).pushes != k.pushes ==> PushedBy(k, L.Next(k, step), step.id);
    }
  }

  lemma SinkStepKeepsFence(s: State, k: L.Step)
    requires FenceInv(s) && Enabled(s, SinkStep(k))
    ensures FenceInv(Next(s, SinkStep(k)))
  {
    hide L.Next, L.Enabled, Reports;
    SinkStepEffect(s.sink, k);
  }

  lemma FenceGrows(history: seq<E.Term>, history': seq<E.Term>, token: nat, k: L.State)
    requires history <= history' && CallFence(history, token, k) && PushFence(history, token, k.pushes)
    ensures CallFence(history', token, k) && PushFence(history', token, k.pushes)
  {
    hide Reports;
    forall ev | Reports(history, ev) ensures Reports(history', ev) { ReportsGrow(history, history', ev); }
  }

  /** A token that led is not above any leader that comes later. */
  lemma TokenNotAboveLater(e: E.Etcd, i: nat, k: nat)
    requires E.TokenInv(e) && i < k < |e.history|
    ensures e.history[i].createRev <= e.history[k].createRev
  {
    assert E.Precedes(e.history[i], e.history[k]);
  }

  lemma EtcdStepKeepsFence(s: State, e: E.Step)
    requires E.TokenInv(s.etcd) && FenceInv(s) && E.Enabled(s.etcd, e)
    ensures FenceInv(s.(etcd := E.Next(s.etcd, e)))
  {
    hide E.Next, E.Enabled, E.TokenInv, CallFence, PushFence;
    var history, after := s.etcd.history, E.Next(s.etcd, e);
    HistoryGrows(s.etcd, e);
    E.StepKeepsTokenInv(s.etcd, e);
    FenceGrows(history, after.history, s.token, s.sink);
    if s.token != 0 {
      var t :| t in history && t.createRev == s.token;
      var i :| 0 <= i < |history| && history[i] == t;
      assert after.history[i] == t && t in after.history;
      forall k | |history| <= k < |after.history| ensures s.token <= after.history[k].createRev {
        TokenNotAboveLater(after, i, k);
      }
    }
  }

  /** With no observer call in progress, an elected event with a token not below the last
      one may be told. */
  lemma ElectedKeepsFence(history: seq<E.Term>, token: nat, k: L.State, id: nat, t: E.Term, listening: bool)
    requires CallFence(history, token, k) && PushFence(history, token, k.pushes) && ObserverIdle(k)
    requires t in history && token <= t.createRev && id !in k.calls
    ensures var k' := Tell(k, id, ElectedEvent(t), listening);
            CallFence(history, t.createRev, k') && PushFence(history, t.createRev, k'.pushes)
  {
    assert Reports(history, ElectedEvent(t));
    hide Reports;
  }

  lemma TokensFrom(e: E.Etcd, at: nat, k: nat)
    requires E.TokenInv(e) && at <= k < |e.history|
    ensures e.history[at].createRev <= e.history[k].createRev
  {
    if at < k { TokenNotAboveLater(e, at, k); }
  }

  lemma ObserveKeepsFence(s: State, at: nat, id: nat, listening: bool)
    requires E.TokenInv(s.etcd) && FenceInv(s) && Enabled(s, Observe(at, id, listening))
    ensures FenceInv(Next(s, Observe(at, id, listening)))
  {
    hide E.TokenInv, CallFence, PushFence, Tell, ObserverIdle;
    var t, s' := s.etcd.history[at], Next(s, Observe(at, id, listening));
    assert t in s'.etcd.history && t.createRev == s'.token;
    forall k | at <= k < |s.etcd.history| ensures t.createRev <= s.etcd.history[k].createRev {
      TokensFrom(s.etcd, at, k);
    }
    ElectedKeepsFence(s.etcd.history, s.token, s.sink, id, t, listening);
  }

  lemma LossKeepsFence(s: State, id: nat, ev: L.LeaderEvent, listening: bool)
    requires FenceInv(s) && id !in s.sink.calls && !ev.kind.Elected?
    ensures var k := Tell(s.sink, id, ev, listening);
            CallFence(s.etcd.history, s.token, k) && PushFence(s.etcd.history, s.token, k.pushes)
  {
    hide Reports, PushFence;
  }

  lemma StepKeepsFenceInv(s: State, step: Step)
    requires E.TokenInv(s.etcd) && FenceInv(s) && Enabled(s, step)
    ensures FenceInv(Next(s, step))
  {
    hide E.Next, E.Enabled, HasKey, NoOlder, KeyLive, KeyRev, L.Enabled, L.Next, Possible, E.TokenInv,
      CallFence, PushFence, Tell, CampaignIdle;
    match step
    case EtcdStep(e) => EtcdStepKeepsFence(s, e);
    case JoinQueue => if !HasKey(s.etcd, s.lease) { EtcdStepKeepsFence(s, E.Campaign(s.lease)); }
    case Withdraw => if E.Enabled(s.etcd, E.Resign(s.lease)) { EtcdStepKeepsFence(s, E.Resign(s.lease)); }
    case SinkStep(k) => SinkStepKeepsFence(s, k);
    case Observe(at, id, listening) => ObserveKeepsFence(s, at, id, listening);
    case Expire(id, listening) => LossKeepsFence(s, id, LossEvent(L.Expired, s.own), listening);
    case GiveUpLeadership(id, listening) => LossKeepsFence(s, id, LossEvent(L.Resigned, s.own), listening);
    case _ =>
  }

  // ---------------------------------------------------------------- all runs

  ghost predicate Inv(s: State) {
    && E.TokenInv(s.etcd) && NodeInv(s.etcd, s.own, s.lease) && WaitInv(s)
    && ViewInv(s) && FenceInv(s) && L.Inv(s.sink)
  }

  lemma StepKeepsSink(s: State, step: Step)
    requires L.Inv(s.sink) && Enabled(s, step)
    ensures L.Inv(Next(s, step).sink)
  {
    hide L.Next, L.Inv, E.Next, HasKey, NoOlder, KeyLive;
    forall k | L.Enabled(s.sink, k) ensures L.Inv(L.Next(s.sink, k)) { L.StepKeepsInv(s.sink, k); }
    if step.Expire? || step.GiveUpLeadership? || step.Observe? {
      assert forall ev :: L.Enabled(s.sink, L.Enter(step.id, ev));
    }
  }

  lemma StepKeepsTokens(s: State, step: Step)
    requires E.TokenInv(s.etcd) && Enabled(s, step)
    ensures E.TokenInv(Next(s, step).etcd)
  {
    hide Next, Enabled, E.Next, E.Enabled, E.TokenInv, Move;
    StepMoves(s, step);
    if Move(s, step).Some? { E.StepKeepsTokenInv(s.etcd, Move(s, step).value); }
  }

  lemma StepKeepsInv(s: State, s': State)
    requires Inv(s) && CanStep(s, s')
    ensures Inv(s')
  {
    hide Next, Enabled, L.Inv, FenceInv, ViewInv, WaitInv, NodeInv, E.TokenInv;
    var step :| Enabled(s, step) && s' == Next(s, step);
    StepKeepsTokens(s, step);
    StepKeepsNode(s, step);
    StepKeepsWait(s, step);
    StepKeepsViewInv(s, step);
    StepKeepsFenceInv(s, step);
    StepKeepsSink(s, step);
  }

  lemma {:induction false} PathKeepsInv(path: seq<State>, n: nat)
    requires IsPath(path) && n < |path| && Inv(path[0])
    ensures Inv(path[n])
  {
    hide Inv, CanStep;
    if n > 0 {
      PathKeepsInv(path, n - 1);
      assert CanStep(path[n - 1], path[n]);
      StepKeepsInv(path[n - 1], path[n]);
    }
  }

  lemma RunKeepsInv(run: seq<State>, n: nat)
    requires IsRun(run) && n < |run|
    ensures Inv(run[n])
  {
    hide Initial, Inv;
    InitialInv(run[0]);
    PathKeepsInv(run, n);
  }

  lemma InitialInv(s: State)
    requires Initial(s)
    ensures Inv(s)
  {
    L.InitialInv(s.sink);
  }

  // ---------------------------------------------------------------- winning

  /** One step extends the history by the leader it leaves, and keeps name and lease. */
  lemma StepHistory(s: State, s': State)
    requires CanStep(s, s')
    ensures s'.own == s.own && s'.lease == s.lease
    ensures s'.etcd.history == s.etcd.history
            || (s'.etcd.keys != [] && s'.etcd.history == s.etcd.history + [s'.etcd.keys[0]])
  {
    hide Next, Enabled, E.Next, E.Enabled, Move;
    var step :| Enabled(s, step) && s' == Next(s, step);
    StepMoves(s, step);
    if Move(s, step).Some? { HistoryGrows(s.etcd, Move(s, step).value); }
  }

  /** Every entry of the history was the winning key in some state. */
  lemma {:induction false} LedWhen(run: seq<State>, n: nat, at: nat) returns (m: nat)
    requires IsRun(run) && n < |run| && at < |run[n].etcd.history|
    ensures m <= n && run[m].lease == run[n].lease
    ensures run[m].etcd.keys != [] && run[m].etcd.keys[0] == run[n].etcd.history[at]
  {
    hide CanStep;
    assert n > 0;
    StepHistory(run[n - 1], run[n]);
    if at < |run[n - 1].etcd.history| { m := LedWhen(run, n - 1, at); } else { m := n; }
  }

  /** In every run the local view is coherent, and the node reports itself leader only if
      the key under its lease was the winning key at some earlier instant, or a campaign
      call of its own came back after that key was gone. */
  lemma ViewAlwaysCoherent(run: seq<State>, n: nat)
    requires IsRun(run) && n < |run|
    ensures Coherent(run[n].view, run[n].own)
    ensures run[n].view.role.Leader? && !run[n].lostKey ==> exists m :: 0 <= m <= n && Winning(run[m])
  {
    hide L.Inv, FenceInv, WaitInv, E.TokenInv, CanStep;
    RunKeepsInv(run, n);
    var s := run[n];
    if s.view.role.Leader? && !s.lostKey {
      var at :| 0 <= at < |s.etcd.history| && s.etcd.history[at].name == s.own;
      var m := LedWhen(run, n, at);
      assert NamedRight(s.etcd.history[at], s.own, s.lease);
      assert Winning(run[m]);
    }
  }

  /** One campaign call from its put to its return: the same key all along. */
  ghost predicate OneWait(run: seq<State>, p: nat, n: nat, rev: nat) {
    && p <= n < |run|
    && forall k :: p <= k <= n ==> run[k].campaign == Waiting(rev) || run[k].campaign == Unblocked(rev)
  }

  lemma WaitingStep(s: State, s': State, rev: nat)
    requires CanStep(s, s')
    requires s'.campaign == Waiting(rev) || s'.campaign == Unblocked(rev)
    ensures s.campaign == Waiting(rev) || s.campaign == Unblocked(rev)
            || (s.campaign.Calling? && s'.campaign.Waiting? && KeyLive(s'.etcd, s.lease, rev))
    ensures s'.campaign.Unblocked? ==>
              s.campaign == s'.campaign || (s.campaign == Waiting(rev) && NoOlder(s'.etcd, rev))
  {
    hide Next, Enabled, KeyLive, NoOlder;
    var step :| Enabled(s, step) && s' == Next(s, step);
    match step
    case JoinQueue =>
      JoinedWithKey(s);
      JoinedFromCall(s);
    case Unblock => UnblockedFromWait(s);
    case _ => OtherCampaignPhases(s, step);
  }

  lemma JoinedFromCall(s: State)
    requires Enabled(s, JoinQueue)
    ensures s.campaign.Calling?
  {
  }

  lemma UnblockedFromWait(s: State)
    requires Enabled(s, Unblock)
    ensures var s' := Next(s, Unblock);
            && s.campaign.Waiting? && s'.campaign == Unblocked(s.campaign.rev) && NoOlder(s'.etcd, s.campaign.rev)
  {
    hide KeyLive;
  }

  /** No other step enters the waiting phases. */
  lemma OtherCampaignPhases(s: State, step: Step)
    requires Enabled(s, step) && !step.JoinQueue? && !step.Unblock?
    ensures var s' := Next(s, step); s'.campaign.Waiting? || s'.campaign.Unblocked? ==> s'.campaign == s.campaign
  {
    hide E.Next, E.Enabled, L.Next, L.Enabled, HasKey, KeyLive, KeyRev, NoOlder, ObserverIdle, CampaignIdle, Possible;
  }

  lemma JoinedWithKey(s: State)
    requires Enabled(s, JoinQueue)
    ensures var s' := Next(s, JoinQueue); s'.campaign.Waiting? && KeyLive(s'.etcd, s.lease, s'.campaign.rev)
  {
    hide L.Next;
    var s' := Next(s, JoinQueue);
    if !HasKey(s.etcd, s.lease) { assert s'.etcd.keys[|s.etcd.keys|] in s'.etcd.keys; }
  }

  /** The wait began when the campaign put or found its key. */
  lemma {:induction false} WaitedSince(run: seq<State>, n: nat, rev: nat) returns (p: nat)
    requires IsRun(run) && n < |run| && (run[n].campaign == Waiting(rev) || run[n].campaign == Unblocked(rev))
    ensures 0 < p && OneWait(run, p, n, rev) && run[p - 1].campaign.Calling? && KeyLive(run[p].etcd, run[p].lease, rev)
  {
    hide CanStep, KeyLive;
    assert n > 0;
    WaitingStep(run[n - 1], run[n], rev);
    StepHistory(run[n - 1], run[n]);
    if run[n - 1].campaign.Calling? { p := n; } else { p := WaitedSince(run, n - 1, rev); }
  }

  /** Neither older keys nor the call's own key come back. */
  lemma WaitMonotone(s: State, s': State, rev: nat)
    requires Inv(s) && CanStep(s, s')
    requires s.campaign == Waiting(rev) || s.campaign == Unblocked(rev)
    requires s'.campaign == Waiting(rev) || s'.campaign == Unblocked(rev)
    ensures NoOlder(s.etcd, rev) ==> NoOlder(s'.etcd, rev)
    ensures KeyLive(s'.etcd, s.lease, rev) ==> KeyLive(s.etcd, s.lease, rev)
  {
    hide Next, Enabled, E.Next, E.Enabled, Move, L.Inv, FenceInv, ViewInv, NodeInv, E.TokenInv, OneKey;
    var step :| Enabled(s, step) && s' == Next(s, step);
    StepMoves(s, step);
    var move := Move(s, step);
    if move.Some? {
      forall t | t in s'.etcd.keys ensures t in s.etcd.keys || t.createRev > rev { StepKeys(s.etcd, move.value, t); }
    }
  }

  /** So the key is live in every state before one in which it is, and older keys are gone in
      every state after one in which they are. */
  lemma {:induction false} WaitPath(run: seq<State>, p: nat, n: nat, rev: nat, k: nat)
    requires IsRun(run) && OneWait(run, p, n, rev) && p <= k <= n
    ensures NoOlder(run[k].etcd, rev) ==> NoOlder(run[n].etcd, rev)
    ensures KeyLive(run[n].etcd, run[n].lease, rev) ==> KeyLive(run[k].etcd, run[n].lease, rev)
  {
    hide CanStep, Inv, NoOlder, KeyLive;
    if k < n {
      RunKeepsInv(run, n - 1);
      assert CanStep(run[n - 1], run[n]);
      StepHistory(run[n - 1], run[n]);
      WaitMonotone(run[n - 1], run[n], rev);
      WaitPath(run, p, n - 1, rev, k);
    }
  }

  /** An unblocked call has seen a state without older keys; the first such state. */
  lemma {:induction false} FirstWithoutOlder(run: seq<State>, p: nat, n: nat, rev: nat) returns (f: nat)
    requires IsRun(run) && OneWait(run, p, n, rev) && NoOlder(run[n].etcd, rev)
    ensures p <= f <= n && NoOlder(run[f].etcd, rev) && forall k :: p <= k < f ==> !NoOlder(run[k].etcd, rev)
  {
    hide NoOlder, IsRun;
    if p < n && NoOlder(run[n - 1].etcd, rev) {
      f := FirstWithoutOlder(run, p, n - 1, rev);
    } else {
      f := n;
      forall k | p <= k < f ensures !NoOlder(run[k].etcd, rev) {
        if NoOlder(run[k].etcd, rev) { WaitPath(run, p, n - 1, rev, k); }
      }
    }
  }

  /** In a wait, winning is having the key live with no older one. */
  lemma WinningInWait(s: State, rev: nat)
    requires Inv(s) && (s.campaign == Waiting(rev) || s.campaign == Unblocked(rev))
    ensures Winning(s) <==> KeyLive(s.etcd, s.lease, rev) && NoOlder(s.etcd, rev)
  {
    hide L.Inv, FenceInv, ViewInv, NodeInv, OneKey;
    if KeyLive(s.etcd, s.lease, rev) && NoOlder(s.etcd, rev) { OldestWins(s, rev); }
    if Winning(s) {
      var t := s.etcd.keys[0];
      assert t in s.etcd.keys && t.createRev == rev;
      forall k | k in s.etcd.keys ensures rev <= k.createRev { E.LeaderIsOldestKey(s.etcd, k); }
    }
  }

  lemma UnblockedWithoutOlder(run: seq<State>, n: nat)
    requires IsRun(run) && n < |run| && run[n].campaign.Unblocked?
    ensures NoOlder(run[n].etcd, run[n].campaign.rev)
    decreases n
  {
    hide CanStep, Inv, NoOlder, KeyLive;
    assert n > 0;
    var rev := run[n].campaign.rev;
    WaitingStep(run[n - 1], run[n], rev);
    if run[n - 1].campaign.Unblocked? {
      UnblockedWithoutOlder(run, n - 1);
      RunKeepsInv(run, n - 1);
      WaitMonotone(run[n - 1], run[n], rev);
    }
  }

  lemma CallLedIff(run: seq<State>, n: nat) returns (p: nat, f: nat)
    requires IsRun(run) && n < |run| && run[n].campaign.Unblocked?
    ensures var rev := run[n].campaign.rev;
            && 0 < p <= f <= n && run[p - 1].campaign.Calling? && OneWait(run, p, n, rev)
            && KeyLive(run[p].etcd, run[p].lease, rev)
            && NoOlder(run[f].etcd, rev) && (forall k :: p <= k < f ==> !NoOlder(run[k].etcd, rev))
    ensures (exists m :: p <= m <= n && Winning(run[m]))
            <==> KeyLive(run[f].etcd, run[f].lease, run[n].campaign.rev)
  {
    hide CanStep, Initial, Inv, NoOlder, KeyLive, Winning;
    var rev := run[n].campaign.rev;
    p := WaitedSince(run, n, rev);
    UnblockedWithoutOlder(run, n);
    f := FirstWithoutOlder(run, p, n, rev);
    forall m | p <= m <= n
      ensures Winning(run[m]) <==> KeyLive(run[m].etcd, run[m].lease, rev) && NoOlder(run[m].etcd, rev)
    {
      RunKeepsInv(run, m);
      WinningInWait(run[m], rev);
    }
    forall m | p <= m <= n && Winning(run[m]) ensures Winning(run[f]) {
      assert f <= m;
      WaitPath(run, p, m, rev, f);
      SameLease(run, f, m);
    }
  }

  lemma {:induction false} SameLease(run: seq<State>, i: nat, n: nat)
    requires IsRun(run) && i <= n < |run|
    ensures run[i].lease == run[n].lease && run[i].own == run[n].own
  {
    hide CanStep;
    if i < n {
      SameLease(run, i, n - 1);
      StepHistory(run[n - 1], run[n]);
    }
  }

  /** becomeLeader follows a campaign call that came back. */
  lemma {:induction false} LeadingSince(run: seq<State>, n: nat) returns (u: nat)
    requires IsRun(run) && n < |run| && run[n].campaign.Leading?
    ensures u < n && run[u].campaign.Unblocked? && forall k :: u < k <= n ==> run[k].campaign.Leading?
  {
    hide E.Next, E.Enabled, L.Next, L.Enabled, HasKey, NoOlder, KeyLive;
    assert n > 0;
    assert CanStep(run[n - 1], run[n]);
    if run[n - 1].campaign.Leading? { u := LeadingSince(run, n - 1); } else { u := n - 1; }
  }

  /** A node that leads did so through a campaign call that came back in state u; p is the
      state in which that call had put its key, f the first one without older keys. Its key
      led within the call exactly when it was still there in f. */
  lemma LeaderHasLedIff(run: seq<State>, n: nat) returns (p: nat, f: nat, u: nat)
    requires IsRun(run) && n < |run| && run[n].campaign.Leading?
    ensures 0 < p <= f <= u < n && run[p - 1].campaign.Calling? && run[u].campaign.Unblocked?
    ensures OneWait(run, p, u, run[u].campaign.rev) && forall k :: u < k <= n ==> run[k].campaign.Leading?
    ensures KeyLive(run[p].etcd, run[p].lease, run[u].campaign.rev)
    ensures NoOlder(run[f].etcd, run[u].campaign.rev)
    ensures forall k :: p <= k < f ==> !NoOlder(run[k].etcd, run[u].campaign.rev)
    ensures (exists m :: p <= m <= u && Winning(run[m]))
            <==> KeyLive(run[f].etcd, run[f].lease, run[u].campaign.rev)
  {
    hide IsRun, NoOlder, KeyLive, Winning;
    u := LeadingSince(run, n);
    p, f := CallLedIff(run, u);
  }

  // ---------------------------------------------------------------- stopping

  /** The step by which the campaign goroutine leaves: it was at the top of its loop, cancelled
      and not leader; or it gave up its leadership, and told a listener so. */
  ghost predicate Leaves(s: State, s': State) {
    || (s.campaign.Top? && s.cancelled && !s.view.role.Leader?)
    || (s.campaign.Resigning? && s'.view == View(Candidate, "")
        && (s'.told.Some? ==> s'.told.value in s'.sink.calls && s'.told.value !in s.sink.calls
                              && s'.sink.calls[s'.told.value].ev == L.LeaderEvent(L.Resigned, s.own, 0)))
  }

  /** Only the shutdown and giving up lead to the last two phases. */
  lemma OtherStepGoesOn(s: State, step: Step)
    requires Enabled(s, step) && !step.Shutdown? && !step.GiveUpLeadership?
    ensures var c := Next(s, step).campaign; c.Stopped? || c.Resigning? ==> c == s.campaign
  {
    hide E.Next, E.Enabled, L.Next, L.Enabled, HasKey, NoOlder, KeyLive, KeyRev, ObserverIdle, CampaignIdle, Possible,
      Tell, Told, Now, LossEvent, ElectedEvent, Observed;
  }

  lemma ShutdownEffect(s: State)
    requires Enabled(s, Shutdown)
    ensures var c := Next(s, Shutdown).campaign;
            s.campaign.Top? && s.cancelled && if s.view.role.Leader? then c.Resigning? else c.Stopped?
  {
  }

  lemma GivingUpEffect(s: State, id: nat, listening: bool)
    requires Enabled(s, GiveUpLeadership(id, listening))
    ensures var s' := Next(s, GiveUpLeadership(id, listening)); s'.campaign.Stopped? && Leaves(s, s')
  {
    hide L.Enabled, CampaignIdle;
  }

  lemma LeavingStep(s: State, s': State)
    requires CanStep(s, s') && s'.campaign.Stopped? && !s.campaign.Stopped?
    ensures Leaves(s, s')
  {
    hide Next, Enabled;
    var step :| Enabled(s, step) && s' == Next(s, step);
    match step
    case Shutdown => ShutdownEffect(s);
    case GiveUpLeadership(id, listening) => GivingUpEffect(s, id, listening);
    case _ => OtherStepGoesOn(s, step);
  }

  lemma ResigningStep(s: State, s': State)
    requires CanStep(s, s') && s'.campaign.Resigning? && !s.campaign.Resigning?
    ensures s.campaign.Top? && s.cancelled && s.view.role.Leader?
  {
    hide Next, Enabled;
    var step :| Enabled(s, step) && s' == Next(s, step);
    match step
    case Shutdown => ShutdownEffect(s);
    case GiveUpLeadership(id, listening) => GivingUpEffect(s, id, listening);
    case _ => OtherStepGoesOn(s, step);
  }

  /** A campaign goroutine that has left did so in step m, cancelled, and not as a leader:
      it was none, or it gave up its leadership first. */
  lemma {:induction false} StoppedOnlyAfterGivingUp(run: seq<State>, n: nat) returns (m: nat)
    requires IsRun(run) && n < |run| && run[n].campaign.Stopped?
    ensures m < n && Leaves(run[m], run[m + 1]) && forall k :: m < k <= n ==> run[k].campaign.Stopped?
  {
    hide CanStep, Leaves;
    assert n > 0;
    assert CanStep(run[n - 1], run[n]);
    if run[n - 1].campaign.Stopped? {
      m := StoppedOnlyAfterGivingUp(run, n - 1);
    } else {
      LeavingStep(run[n - 1], run[n]);
      m := n - 1;
    }
  }

  /** And one that is about to give up was found leader by the cancellation. */
  lemma {:induction false} ResigningSince(run: seq<State>, n: nat) returns (m: nat)
    requires IsRun(run) && n < |run| && run[n].campaign.Resigning?
    ensures m < n && run[m].campaign.Top? && run[m].cancelled && run[m].view.role.Leader?
    ensures forall k :: m < k <= n ==> run[k].campaign.Resigning?
  {
    hide CanStep;
    assert n > 0;
    assert CanStep(run[n - 1], run[n]);
    if run[n - 1].campaign.Resigning? {
      m := ResigningSince(run, n - 1);
    } else {
      ResigningStep(run[n - 1], run[n]);
      m := n - 1;
    }
  }

  /** A cancelled campaign that is not giving up can come back to the top of its loop. */
  lemma BackToTop(s: State) returns (path: seq<State>)
    requires s.cancelled && !s.campaign.Stopped? && !s.campaign.Resigning?
    ensures IsPath(path) && path[0] == s
    ensures var t := path[|path| - 1]; t == s.(campaign := Top, view := t.view, told := t.told)
  {
    hide CanStep, E.Next, L.Next;
    match s.campaign
    case Top => path := [s];
    case Calling => path := [s, Take(s, CampaignError)];
    case Waiting(_) => path := [s, Take(s, CampaignError)];
    case Unblocked(_) =>
      var s1 := Take(s, Win);
      path := [s, s1, Take(s1, Interrupted)];
    case Leading => path := [s, Take(s, Interrupted)];
  }

  /** From the top of the loop, or from giving up, it can leave, and does not leave a leader. */
  lemma LeaveFrom(s: State) returns (path: seq<State>)
    requires ObserverIdle(s.sink) && CampaignIdle(s.sink)
    requires (s.campaign.Top? && s.cancelled) || s.campaign.Resigning?
    ensures IsPath(path) && path[0] == s
    ensures var t := path[|path| - 1];
            t.campaign.Stopped? && !t.view.role.Leader? && t.sink == s.sink && t.observer == s.observer
  {
    hide CanStep, E.Next, L.Next;
    var id := Unused(s.sink.calls.Keys);
    if s.campaign.Resigning? {
      path := [s, Take(s, GiveUpLeadership(id, false))];
    } else {
      var s1 := Take(s, Shutdown);
      path := if s1.campaign.Stopped? then [s, s1] else [s, s1, Take(s1, GiveUpLeadership(id, false))];
    }
  }

  /** Shutting a node down does not hang: from any state in which its campaign runs, it can be
      cancelled, its campaign can leave, not as a leader, and its observer can end. */
  lemma ShutdownCompletes(s: State) returns (cancelled: State, path: seq<State>)
    requires !s.campaign.Stopped?
    ensures CanStep(s, cancelled) && cancelled == s.(cancelled := true)
    ensures IsPath(path) && path[0] == cancelled
    ensures var t := path[|path| - 1]; t.campaign.Stopped? && !t.view.role.Leader? && !t.observer.Watching?
  {
    hide CanStep, E.Next, L.Next, E.Enabled, L.Enabled;
    cancelled := Take(s, Cancel);
    var a := FinishCalls(cancelled, cancelled.sink.calls.Keys);
    var t := a[|a| - 1];
    if !t.campaign.Resigning? {
      var b := BackToTop(t);
      Join(a, b);
      a := a + b[1..];
    }
    t := a[|a| - 1];
    var c := LeaveFrom(t);
    Join(a, c);
    path := a + c[1..];
    t := path[|path| - 1];
    if t.observer.Watching? {
      var u := Take(t, StopObserving);
      Join(path, [t, u]);
      path := path + [t, u][1..];
    }
  }

  // ---------------------------------------------------------------- the observer goes on

  /** An observer has not run past the current leader. */
  ghost predicate SeenInv(s: State) {
    s.observer.Watching? ==> s.seen <= |s.etcd.history| && (s.etcd.keys != [] ==> s.seen < |s.etcd.history|)
  }

  /** Only the begin of the observation and an observation move the point it has reached. */
  lemma StepSeen(s: State, step: Step)
    requires Enabled(s, step)
    ensures var s' := Next(s, step);
            s'.observer.Watching? ==>
              || (s.observer.Watching? && s'.seen == s.seen)
              || (s'.etcd == s.etcd && s'.seen == Now(s.etcd))
              || (s'.etcd == s.etcd && s'.seen < |s.etcd.history|)
  {
    hide E.Next, E.Enabled, L.Next, L.Enabled, HasKey, NoOlder, KeyLive, KeyRev, Possible, ObserverIdle, CampaignIdle,
      Tell, Now;
  }

  lemma StepKeepsSeen(s: State, s': State)
    requires SeenInv(s) && NodeInv(s.etcd, s.own, s.lease) && CanStep(s, s')
    ensures SeenInv(s')
  {
    hide Next, Enabled, E.Next, E.Enabled, Move, E.KeysLive, NamedRight;
    var step :| Enabled(s, step) && s' == Next(s, step);
    StepMoves(s, step);
    StepSeen(s, step);
    if Move(s, step).Some? { HistoryGrows(s.etcd, Move(s, step).value); }
  }

  lemma {:induction false} RunKeepsSeen(run: seq<State>, n: nat)
    requires IsRun(run) && n < |run|
    ensures SeenInv(run[n])
  {
    hide CanStep, E.TokenInv, NodeInv, WaitInv, ViewInv, FenceInv, L.Inv;
    if n > 0 {
      RunKeepsSeen(run, n - 1);
      RunKeepsInv(run, n - 1);
      assert CanStep(run[n - 1], run[n]);
      StepKeepsSeen(run[n - 1], run[n]);
    }
  }

  /** Whatever happened before, an observer that has not ended can report the current leader,
      go on watching, and have the node's view name that leader. */
  lemma ObserverCanCatchUp(run: seq<State>, n: nat) returns (path: seq<State>)
    requires IsRun(run) && n < |run| && run[n].observer.Watching? && run[n].etcd.keys != []
    ensures IsPath(path) && path[0] == run[n]
    ensures var s, t := run[n], path[|path| - 1];
            && t.etcd == s.etcd && t.observer.Watching? && t.view.currentLeader == s.etcd.keys[0].name
            && (t.view.role.Leader? <==> s.etcd.keys[0].name == s.own) && t.token == s.etcd.keys[0].createRev
  {
    hide CanStep, Initial, L.Next, E.TokenInv, WaitInv, ViewInv, FenceInv, L.Inv;
    var s := run[n];
    RunKeepsInv(run, n);
    RunKeepsSeen(run, n);
    var idle := FinishCalls(s, s.sink.calls.Keys);
    var t := idle[|idle| - 1];
    var id := Unused(t.sink.calls.Keys);
    var u := Take(t, Observe(|s.etcd.history| - 1, id, false));
    Join(idle, [t, u]);
    path := idle + [t, u][1..];
  }

  /** A node with a live session whose campaign is at the top of its loop and not cancelled can
      still become leader with its key winning, whoever leads now. */
  lemma CampaignCanWin(run: seq<State>, n: nat) returns (path: seq<State>)
    requires IsRun(run) && n < |run| && run[n].campaign.Top? && !run[n].cancelled
    requires run[n].lease in run[n].etcd.leases && run[n].lease in run[n].etcd.registered
    ensures IsPath(path) && path[0] == run[n]
    ensures path[|path| - 1].view.role.Leader? && path[|path| - 1].campaign.Leading? && Winning(path[|path| - 1])
  {
    hide CanStep, Initial, E.Next, L.Next, Inv, NoOlder, KeyLive, Winning;
    var s := run[n];
    RunKeepsInv(run, n);
    var s1 := Take(s, Contend);
    CanJoin(s1);
    var s2 := Take(s1, JoinQueue);
    JoinedWithKey(s1);
    StepKeepsInv(s, s1);
    StepKeepsInv(s1, s2);
    var clear := ClearTheWay(s2);
    var t := clear[|clear| - 1];
    var u := Take(t, Unblock);
    var v := Take(u, Win);
    WinsAtLast(t, v, s2.campaign.rev);
    Join([s, s1, s2], clear);
    Join([s, s1, s2] + clear[1..], [t, u, v]);
    path := [s, s1, s2] + clear[1..] + [t, u, v][1..];
  }

  lemma CanJoin(s: State)
    requires s.campaign.Calling? && s.lease in s.etcd.leases && s.lease in s.etcd.registered
    ensures Enabled(s, JoinQueue)
  {
  }

  lemma WinsAtLast(t: State, v: State, rev: nat)
    requires Inv(t) && KeyLive(t.etcd, t.lease, rev) && NoOlder(t.etcd, rev) && v.etcd == t.etcd && v.lease == t.lease
    ensures Winning(v)
  {
    hide L.Inv, FenceInv, ViewInv, NodeInv, WaitInv;
    OldestWins(t, rev);
  }

  // ---------------------------------------------------------------- fencing over runs

  /** Fencing end to end: whatever campaigns, resignations, revocations and lagging
      observations happen, and whatever the sink coalesces, the elected events a listener
      is called with report terms that led, their tokens never decrease, and two that report
      different terms have strictly increasing tokens. */
  lemma FencingOrder(run: seq<State>, n: nat, i: nat, j: nat)
    requires IsRun(run) && n < |run| && i < j < |run[n].sink.handed|
    requires run[n].sink.handed[i].kind.Elected? && run[n].sink.handed[j].kind.Elected?
    ensures var h, history := run[n].sink.handed, run[n].etcd.history;
            && Reports(history, h[i]) && Reports(history, h[j])
            && h[i].epoch <= h[j].epoch
            && forall t, t' :: t in history && t' in history && h[i] == ElectedEvent(t) && h[j] == ElectedEvent(t') ==>
                 t == t' || h[i].epoch < h[j].epoch
  {
    hide L.CallsInv, L.MemberInv, ViewInv, CallFence, Reports, L.Next, L.Enabled;
    RunKeepsInv(run, n);
    var s := run[n];
    var a, b := s.sink.delivered[i], s.sink.delivered[j];
    assert s.sink.handed[i] == s.sink.pushes[a] && s.sink.handed[j] == s.sink.pushes[b] && a < b;
    forall t, t' | t in s.etcd.history && t' in s.etcd.history && t.createRev == t'.createRev ensures t == t' {
      SameTokenSameTerm(s.etcd, t, t');
    }
  }

  lemma SameTokenSameTerm(e: E.Etcd, t: E.Term, t': E.Term)
    requires E.TokenInv(e) && t in e.history && t' in e.history && t.createRev == t'.createRev
    ensures t == t'
  {
    var i :| 0 <= i < |e.history| && e.history[i] == t;
    var j :| 0 <= j < |e.history| && e.history[j] == t';
    assert i < j ==> E.Precedes(e.history[i], e.history[j]);
    assert j < i ==> E.Precedes(e.history[j], e.history[i]);
  }

  // ---------------------------------------------------------------- after a loss

  /** The session is over: its lease has been used and is gone. */
  ghost predicate LeaseGone(e: E.Etcd, lease: nat) {
    lease in e.registered && lease !in e.leases
  }

  /** A term of this node is still ahead of the observer, or a campaign call is past its
      put. */
  ghost predicate TermAhead(s: State) {
    (s.observer.Watching? && OwnTermFrom(s, s.seen)) || s.campaign.Waiting? || s.campaign.Unblocked?
  }

  ghost predicate CanLeadAgain(s: State) {
    exists path: seq<State> :: IsPath(path) && path[0] == s && path[|path| - 1].view.role.Leader?
  }

  /** No leader of the present or the future is this node. */
  lemma GoneStays(e: E.Etcd, step: E.Step, own: string, lease: nat)
    requires NodeInv(e, own, lease) && LeaseGone(e, lease) && E.Enabled(e, step) && GrantsRight(step, own, lease)
    ensures LeaseGone(E.Next(e, step), lease)
    ensures var e' := E.Next(e, step); e'.keys != [] ==> e'.keys[0].name != own
  {
    EtcdStepKeepsNode(e, step, own, lease);
    var e' := E.Next(e, step);
    if e'.keys != [] {
      assert e'.keys[0] in e'.keys;
      LiveNamedRight(e', own, lease, e'.keys[0]);
    }
  }

  /** Without its lease a campaign cannot put a key, and has none. */
  lemma CannotJoin(s: State)
    requires NodeInv(s.etcd, s.own, s.lease) && LeaseGone(s.etcd, s.lease)
    ensures !Enabled(s, JoinQueue)
  {
  }

  lemma NothingFromNow(s: State)
    requires NodeInv(s.etcd, s.own, s.lease) && LeaseGone(s.etcd, s.lease)
    ensures !OwnTermFrom(s, Now(s.etcd))
  {
    if s.etcd.keys != [] {
      assert s.etcd.keys[0] in s.etcd.keys;
      LiveNamedRight(s.etcd, s.own, s.lease, s.etcd.keys[0]);
    }
  }

  /** No term of this node is ahead, and none will be. */
  ghost predicate Done(s: State) {
    !s.view.role.Leader? && LeaseGone(s.etcd, s.lease) && !TermAhead(s)
  }

  lemma StepStaysDone(s: State, step: Step)
    requires NodeInv(s.etcd, s.own, s.lease) && Done(s) && Enabled(s, step)
    ensures Done(Next(s, step))
  {
    hide E.Next, E.Enabled, L.Next, L.Enabled, LeaseGone, NodeInv, HasKey, NoOlder, KeyLive;
    var s' := Next(s, step);
    CannotJoin(s);
    StepMoves(s, step);
    match step
    case EtcdStep(e) =>
      GoneStays(s.etcd, e, s.own, s.lease);
      HistoryGrows(s.etcd, e);
      forall k: nat | OwnTermFrom(s', k) ensures OwnTermFrom(s, k) {
        var at :| k <= at < |s'.etcd.history| && s'.etcd.history[at].name == s.own;
        assert s.etcd.history[at].name == s.own;
      }
    case Observe(at, _, _) =>
      assert s.etcd.history[at].name != s.own;
      SameHistory(s, s');
    case StartObserving =>
      NothingFromNow(s);
      SameHistory(s, s');
    case _ => SameHistory(s, s');
  }

  lemma SameHistory(s: State, s': State)
    requires s'.etcd.history == s.etcd.history && s'.own == s.own
    ensures forall k: nat, k': nat :: k <= k' && OwnTermFrom(s', k') ==> OwnTermFrom(s, k)
  {
    forall k: nat, k': nat | k <= k' && OwnTermFrom(s', k') ensures OwnTermFrom(s, k) {
      var at :| k' <= at < |s'.etcd.history| && s'.etcd.history[at].name == s'.own;
      assert s.etcd.history[at].name == s.own;
    }
  }

  lemma {:induction false} PathStaysDone(path: seq<State>, n: nat)
    requires IsPath(path) && n < |path| && Inv(path[0]) && Done(path[0])
    ensures Done(path[n])
  {
    hide Done, Next, Enabled, E.TokenInv, NodeInv, ViewInv, FenceInv, L.Inv;
    if n > 0 {
      PathStaysDone(path, n - 1);
      PathKeepsInv(path, n - 1);
      assert CanStep(path[n - 1], path[n]);
      var step :| Enabled(path[n - 1], step) && path[n] == Next(path[n - 1], step);
      StepStaysDone(path[n - 1], step);
    }
  }

  /** A pending call can be run to its end. */
  lemma {:induction false} FinishCall(s: State, id: nat) returns (path: seq<State>)
    requires id in s.sink.calls
    ensures IsPath(path) && path[0] == s
    ensures var t := path[|path| - 1];
            && t == s.(sink := t.sink) && id in t.sink.calls && t.sink.calls[id].phase.Returned?
            && t.sink.calls == s.sink.calls[id := t.sink.calls[id]] && t.sink.calls[id].ev == s.sink.calls[id].ev
    decreases L.SelectsLeft(s.sink.calls[id].phase)
  {
    hide CanStep, L.Next, L.Enabled;
    if s.sink.calls[id].phase.Returned? {
      path := [s];
      assert s.sink.calls == s.sink.calls[id := s.sink.calls[id]];
    } else {
      L.CallsNeverBlock(s.sink, id);
      var s' := Take(s, SinkStep(L.NextSelect(s.sink, id)));
      var rest := FinishCall(s', id);
      path := [s] + rest;
    }
  }

  /** So all calls can be: both goroutines can always become idle. */
  lemma {:induction false} FinishCalls(s: State, ids: set<nat>) returns (path: seq<State>)
    requires ids <= s.sink.calls.Keys
    requires forall id :: id in s.sink.calls && id !in ids ==> s.sink.calls[id].phase.Returned?
    ensures IsPath(path) && path[0] == s
    ensures var t := path[|path| - 1]; t == s.(sink := t.sink) && ObserverIdle(t.sink) && CampaignIdle(t.sink)
    decreases |ids|
  {
    hide CanStep;
    if ids == {} {
      path := [s];
    } else {
      var id :| id in ids;
      var first := FinishCall(s, id);
      var t := first[|first| - 1];
      var rest := FinishCalls(t, ids - {id});
      Join(first, rest);
      path := first + rest[1..];
    }
  }

  lemma Join(a: seq<State>, b: seq<State>)
    requires IsPath(a) && IsPath(b) && b[0] == a[|a| - 1]
    ensures IsPath(a + b[1..]) && (a + b[1..])[|a| + |b| - 2] == b[|b| - 1]
  {
    hide CanStep;
    var c := a + b[1..];
    forall i | 0 <= i < |c| - 1 ensures CanStep(c[i], c[i + 1]) {
      if i >= |a| - 1 { assert c[i] == b[i + 1 - |a|] && c[i + 1] == b[i + 2 - |a|]; }
    }
  }

  /** Older keys can go: their sessions can end. */
  lemma {:induction false} ClearTheWay(s: State) returns (path: seq<State>)
    requires Inv(s) && s.campaign.Waiting?
    ensures IsPath(path) && path[0] == s
    ensures var t := path[|path| - 1];
            && t.campaign == s.campaign && NoOlder(t.etcd, s.campaign.rev) && t.lease == s.lease && Inv(t)
            && (KeyLive(s.etcd, s.lease, s.campaign.rev) ==> KeyLive(t.etcd, t.lease, s.campaign.rev))
    decreases |s.etcd.keys|
  {
    hide CanStep, E.Next, L.Inv, E.TokenInv, ViewInv, FenceInv, KeyLive;
    if NoOlder(s.etcd, s.campaign.rev) {
      path := [s];
    } else {
      var t :| t in s.etcd.keys && t.createRev < s.campaign.rev;
      var s' := Take(s, EtcdStep(E.Revoke(t.lease)));
      StepKeepsInv(s, s');
      RevokeShrinks(s.etcd, t);
      if KeyLive(s.etcd, s.lease, s.campaign.rev) { OlderGoesKeyStays(s.etcd, t, s.lease, s.campaign.rev); }
      var rest := ClearTheWay(s');
      path := [s] + rest;
    }
  }

  lemma OlderGoesKeyStays(e: E.Etcd, t: E.Term, lease: nat, rev: nat)
    requires OnlyKey(e, lease, rev) && t in e.keys && t.createRev < rev && KeyLive(e, lease, rev)
    requires E.Enabled(e, E.Revoke(t.lease))
    ensures KeyLive(E.Next(e, E.Revoke(t.lease)), lease, rev)
  {
    hide E.Next, E.Enabled;
    var k :| k in e.keys && k.lease == lease && k.createRev == rev;
    StepKeys(e, E.Revoke(t.lease), k);
  }

  lemma RevokeShrinks(e: E.Etcd, t: E.Term)
    requires t in e.keys && E.Enabled(e, E.Revoke(t.lease))
    ensures |E.Next(e, E.Revoke(t.lease)).keys| < |e.keys|
  {
    E.WithoutShrinks(e.keys, t);
  }

  lemma AheadCanBeReached(s: State) returns (path: seq<State>)
    requires Inv(s) && TermAhead(s)
    ensures IsPath(path) && path[0] == s && path[|path| - 1].view.role.Leader?
  {
    hide CanStep, E.Next, L.Next, Inv, NoOlder, KeyLive;
    if s.campaign.Unblocked? {
      path := [s, Take(s, Win)];
    } else if s.campaign.Waiting? {
      var clear := ClearTheWay(s);
      var t := clear[|clear| - 1];
      var u := Take(t, Unblock);
      var v := Take(u, Win);
      Join(clear, [t, u, v]);
      path := clear + [t, u, v][1..];
    } else {
      var at :| s.seen <= at < |s.etcd.history| && s.etcd.history[at].name == s.own;
      var idle := FinishCalls(s, s.sink.calls.Keys);
      var t := idle[|idle| - 1];
      var id := Unused(t.sink.calls.Keys);
      var u := Take(t, Observe(at, id, false));
      Join(idle, [t, u]);
      path := idle + [t, u][1..];
    }
  }

  /** Once the node is not leader and its session is over, it reports itself leader again in
      some later state of some continuation exactly when a term of its own is still ahead of
      the observer or a campaign call is past its put; otherwise it never does. */
  lemma LeadsAgainIff(run: seq<State>, n: nat)
    requires IsRun(run) && n < |run| && !run[n].view.role.Leader? && LeaseGone(run[n].etcd, run[n].lease)
    ensures CanLeadAgain(run[n]) <==> TermAhead(run[n])
  {
    hide CanStep, Initial, Inv, LeaseGone, TermAhead;
    var s := run[n];
    RunKeepsInv(run, n);
    if TermAhead(s) {
      var path := AheadCanBeReached(s);
    } else {
      forall path | IsPath(path) && path[0] == s ensures Done(path[|path| - 1]) {
        PathStaysDone(path, |path| - 1);
      }
    }
  }

  /** The node before Start, with lease 1. */
  ghost function NewNode(own: string): State {
    State(E.Etcd(0, map[], {}, [], map[], []), own, 1, Lose(), Starting, 0, 0, Top, false, false, None, L.NewState())
  }

  /** Start creates the session, registers and launches the goroutines. */
  lemma Started(own: string) returns (run: seq<State>)
    requires own != ""
    ensures IsRun(run) && forall k :: 0 <= k < |run| ==> run[k].etcd.keys == []
    ensures run[|run| - 1]
            == NewNode(own).(etcd := E.Etcd(1, map[1 := own], {1}, [], map[own := 1], []),
                             observer := Watching, campaign := Calling)
  {
    hide CanStep, L.Next;
    var s0 := NewNode(own);
    var s1 := Take(s0, EtcdStep(E.Grant(1, own)));
    var s2 := Take(s1, EtcdStep(E.Register(1)));
    var s3 := Take(s2, StartObserving);
    var s4 := Take(s3, Contend);
    run := [s0, s1, s2, s3, s4];
  }

  lemma NothingLeft(t: E.Term)
    ensures E.Without([t], t.lease) == []
  {
    assert [t][..0] == [];
  }

  /** The node wins and leads, and its session ends. */
  lemma LeadThenRevoked(own: string) returns (run: seq<State>)
    requires own != ""
    ensures IsRun(run)
    ensures var s := run[|run| - 1];
            && s == NewNode(own).(etcd := s.etcd, view := Become(own), observer := Watching, campaign := Leading)
            && s.etcd.history == [E.Term(1, own, 2)] && s.etcd.keys == [] && LeaseGone(s.etcd, 1)
  {
    hide CanStep, L.Next, E.Without;
    var a := Started(own);
    var s := a[|a| - 1];
    var s1 := Take(s, JoinQueue);
    assert s1.etcd.keys == [E.Term(1, own, 2)];
    var s2 := Take(s1, Unblock);
    assert KeyLive(s1.etcd, 1, 2) by { assert E.Term(1, own, 2) in s1.etcd.keys; }
    var s3 := Take(s2, Win);
    NothingLeft(E.Term(1, own, 2));
    var s4 := Take(s3, EtcdStep(E.Revoke(1)));
    Join(a, [s, s1, s2, s3, s4]);
    run := a + [s, s1, s2, s3, s4][1..];
  }

  /** Such a stale observation does occur: the lease is gone, the loss has been recorded,
      and yet the node reports itself leader. */
  lemma StaleObservationRestoresLeader(own: string) returns (run: seq<State>)
    requires own != ""
    ensures IsRun(run) && |run| > 1
    ensures var before, s := run[|run| - 2], run[|run| - 1];
            && before.view == Lose() && LeaseGone(before.etcd, before.lease)
            && s.view.role.Leader? && s.etcd.keys == []
  {
    hide CanStep, L.Next, E.Initial, L.Initial, LeaseGone;
    var start := LeadThenRevoked(own);
    var s := start[|start| - 1];
    var s8 := Take(s, Expire(1, false));
    var s9 := Take(s8, Observe(0, 1, false));
    Join(start, [s, s8, s9]);
    run := start + [s, s8, s9][1..];
  }

  /** The etcd side: node `other` registers and puts its key before the one of lease 1. */
  lemma SecondNodeFirst(e: E.Etcd, own: string, other: string) returns (es: seq<E.Etcd>)
    requires other != "" && other != own && e == E.Etcd(1, map[1 := own], {1}, [], map[own := 1], [])
    ensures |es| == 5 && es[0] == e
    ensures E.Enabled(e, E.Grant(2, other)) && es[1] == E.Next(e, E.Grant(2, other)) && es[1].keys == []
    ensures E.Enabled(es[1], E.Register(2)) && es[2] == E.Next(es[1], E.Register(2)) && es[2].keys == []
    ensures E.Enabled(es[2], E.Campaign(2)) && es[3] == E.Next(es[2], E.Campaign(2))
    ensures es[3].keys == [E.Term(2, other, 3)] && es[3].revision == 3
    ensures E.Enabled(es[3], E.Campaign(1)) && es[4] == E.Next(es[3], E.Campaign(1))
    ensures es[4].keys == [E.Term(2, other, 3), E.Term(1, own, 4)]
    ensures es[4].leases.Keys == {1, 2} && es[4].registered == {1, 2}
  {
    var e1 := E.Next(e, E.Grant(2, other));
    var e2 := E.Next(e1, E.Register(2));
    var e3 := E.Next(e2, E.Campaign(2));
    var e4 := E.Next(e3, E.Campaign(1));
    es := [e, e1, e2, e3, e4];
  }

  /** Another node leads, and this one waits behind it. */
  lemma WaitsBehind(s: State, other: string) returns (path: seq<State>)
    requires other != "" && other != s.own && s.lease == 1 && s.campaign.Calling?
    requires s.etcd == E.Etcd(1, map[1 := s.own], {1}, [], map[s.own := 1], [])
    ensures IsPath(path) && path[0] == s && forall k :: 0 <= k < |path| ==> !Winning(path[k])
    ensures var t := path[|path| - 1];
            && t == s.(etcd := t.etcd, campaign := Waiting(4))
            && t.etcd.keys == [E.Term(2, other, 3), E.Term(1, s.own, 4)]
            && t.etcd.leases.Keys == {1, 2} && t.etcd.registered == {1, 2}
  {
    hide CanStep, L.Next, E.Next, E.Enabled;
    var e := SecondNodeFirst(s.etcd, s.own, other);
    var s1 := Take(s, EtcdStep(E.Grant(2, other)));
    var s2 := Take(s1, EtcdStep(E.Register(2)));
    var s3 := Take(s2, EtcdStep(E.Campaign(2)));
    var s4 := Take(s3, JoinQueue);
    path := [s, s1, s2, s3, s4];
  }

  /** Its session ends, then the other's; its campaign call comes back. */
  lemma BothRevoked(s: State, first: E.Term, mine: E.Term) returns (path: seq<State>)
    requires s.etcd.keys == [first, mine] && s.campaign == Waiting(mine.createRev) && mine.lease == s.lease == 1
    requires first.lease == 2 && s.etcd.leases.Keys == {1, 2} && s.etcd.registered == {1, 2}
    ensures IsPath(path) && path[0] == s && forall k :: 0 <= k < |path| ==> !Winning(path[k])
    ensures var t := path[|path| - 1]; t.view.role.Leader? && t.lostKey && LeaseGone(t.etcd, t.lease)
  {
    hide CanStep, L.Next, E.Without;
    OneLeft(first, mine);
    var s1 := Take(s, EtcdStep(E.Revoke(1)));
    NothingLeft(first);
    var s2 := Take(s1, EtcdStep(E.Revoke(2)));
    var s3 := Take(s2, Unblock);
    path := [s, s1, s2, s3, Take(s3, Win)];
  }

  /** And a node can become leader without ever having led: its session ends while it waits
      behind another node's key, which is deleted later. */
  lemma LeaderWithoutHavingLed(own: string, other: string) returns (run: seq<State>)
    requires own != "" && other != "" && own != other
    ensures IsRun(run) && forall k :: 0 <= k < |run| ==> !Winning(run[k])
    ensures var s := run[|run| - 1]; s.view.role.Leader? && s.lostKey && LeaseGone(s.etcd, s.lease)
  {
    hide CanStep, Next, Enabled, LeaseGone;
    var a := Started(own);
    var b := WaitsBehind(a[|a| - 1], other);
    Join(a, b);
    var ab := a + b[1..];
    var c := BothRevoked(ab[|ab| - 1], E.Term(2, other, 3), E.Term(1, own, 4));
    Join(ab, c);
    run := ab + c[1..];
    forall k | 0 <= k < |run| ensures !Winning(run[k]) {
      if k >= |ab| { assert run[k] == c[k + 1 - |ab|]; } else if k >= |a| { assert run[k] == b[k + 1 - |a|]; }
    }
  }

  lemma OneLeft(t: E.Term, u: E.Term)
    requires t.lease != u.lease
    ensures E.Without([t, u], u.lease) == [t]
  {
    assert [t, u][..1] == [t] && [t][..0] == [];
    assert E.Without([], u.lease) == [];
    assert E.Without([t], u.lease) == [t];
  }
}
