/** The etcd side of leader election: revisions, leases, election keys and member keys. A
    revision counts every write; an election key's create revision is its fencing token;
    the live key with the smallest create revision leads. */
module Election {

  /** A live election key, or a past one: one leadership candidacy. */
  datatype Term = Term(lease: nat, name: string, createRev: nat)

  datatype Etcd = Etcd(
    revision: nat,
    leases: map<nat, string>,      // live session leases and the node that holds each
    registered: set<nat>,          // leases whose node has finished registerMember
    keys: seq<Term>,               // live election keys, in order of creation
    members: map<string, nat>,     // live member keys and the lease each is attached to
    history: seq<Term>)            // the leader after each step that left one

  ghost predicate Initial(e: Etcd) {
    e.leases == map[] && e.registered == {} && e.keys == [] && e.members == map[] && e.history == []
  }

  datatype Step =
    | Grant(lease: nat, name: string)    // concurrency.NewSession
    | Register(lease: nat)               // registerMember
    | Campaign(lease: nat)               // the key put by Election.Campaign
    | Resign(lease: nat)                 // Election.Resign deletes the key
    | Revoke(lease: nat)                 // Session.Close, or the lease expires
    | OtherWrite

  /** Start registers the member before it launches the campaign, both with the lease of
      the one session it created; etcd refuses a put under a lease that is gone. */
  ghost predicate Enabled(e: Etcd, step: Step) {
    match step
    case Grant(lease, name) => lease !in e.leases && lease !in e.registered && name != ""
    case Register(lease) => lease in e.leases
    case Campaign(lease) => lease in e.leases && lease in e.registered && forall t :: t in e.keys ==> t.lease != lease
    case Resign(lease) => lease in e.leases
    case Revoke(lease) => lease in e.leases
    case OtherWrite => true
  }

  /** The keys left when the key of `lease` is deleted. */
  function Without(keys: seq<Term>, lease: nat): seq<Term> {
    if keys == [] then []
    else
      var t := keys[|keys| - 1];
      Without(keys[..|keys| - 1], lease) + if t.lease == lease then [] else [t]
  }

  ghost function Write(e: Etcd, step: Step): Etcd
    requires Enabled(e, step)
  {
    var rev := e.revision + 1;
    match step
    case Grant(lease, name) => e.(leases := e.leases[lease := name])
    case Register(lease) =>
      e.(revision := rev, members := e.members[e.leases[lease] := lease], registered := e.registered + {lease})
    case Campaign(lease) => e.(revision := rev, keys := e.keys + [Term(lease, e.leases[lease], rev)])
    case Resign(lease) => e.(revision := rev, keys := Without(e.keys, lease))
    case Revoke(lease) =>
      e.(revision := rev, leases := e.leases - {lease}, keys := Without(e.keys, lease),
         members := map m | m in e.members && e.members[m] != lease :: e.members[m])
    case OtherWrite => e.(revision := rev)
  }

  ghost function Next(e: Etcd, step: Step): Etcd
    requires Enabled(e, step)
  {
    var e' := Write(e, step);
    if e'.keys == [] then e' else e'.(history := e'.history + [e'.keys[0]])
  }

  ghost predicate CanStep(e: Etcd, e': Etcd) {
    exists step :: Enabled(e, step) && e' == Next(e, step)
  }

  ghost predicate IsRun(run: seq<Etcd>) {
    |run| > 0 && Initial(run[0]) && forall i :: 0 <= i < |run| - 1 ==> CanStep(run[i], run[i + 1])
  }

  /** Every write has a revision of its own; a grant writes nothing. */
  lemma WritesRaiseRevision(e: Etcd, step: Step)
    requires Enabled(e, step)
    ensures Next(e, step).revision == if step.Grant? then e.revision else e.revision + 1
  {
  }

  // ---------------------------------------------------------------- deleting keys

  lemma {:induction false} WithoutIs(keys: seq<Term>, lease: nat, t: Term)
    ensures t in Without(keys, lease) <==> t in keys && t.lease != lease
  {
    if keys != [] {
      WithoutIs(keys[..|keys| - 1], lease, t);
      assert keys == keys[..|keys| - 1] + [keys[|keys| - 1]];
    }
  }

  lemma {:induction false} WithoutShrinks(keys: seq<Term>, t: Term)
    requires t in keys
    ensures |Without(keys, t.lease)| < |keys|
  {
    var n := |keys| - 1;
    WithoutNotLonger(keys[..n], t.lease);
    if t in keys[..n] { WithoutShrinks(keys[..n], t); }
  }

  lemma {:induction false} WithoutNotLonger(keys: seq<Term>, lease: nat)
    ensures |Without(keys, lease)| <= |keys|
  {
    if keys != [] { WithoutNotLonger(keys[..|keys| - 1], lease); }
  }

  /** Keys in order of their create revisions. */
  ghost predicate Ordered(keys: seq<Term>) {
    forall i, j :: 0 <= i < j < |keys| ==> keys[i].createRev < keys[j].createRev
  }

  lemma {:induction false} WithoutOrdered(keys: seq<Term>, lease: nat)
    requires Ordered(keys)
    ensures Ordered(Without(keys, lease))
  {
    if keys != [] {
      var n := |keys| - 1;
      WithoutOrdered(keys[..n], lease);
      var rest := Without(keys[..n], lease);
      forall i | 0 <= i < |rest| ensures rest[i].createRev < keys[n].createRev {
        WithoutIs(keys[..n], lease, rest[i]);
      }
    }
  }

  // ---------------------------------------------------------------- fencing tokens

  /** h came before k, or is the same term. */
  ghost predicate Precedes(h: Term, k: Term) {
    h.createRev < k.createRev || h == k
  }

  ghost predicate TokenInv(e: Etcd) {
    && Ordered(e.keys)
    && (forall k :: k in e.keys ==> k.createRev <= e.revision && k.name != "")
    && (forall h :: h in e.history ==> h.createRev <= e.revision && h.name != "")
    && (forall h, k :: h in e.history && k in e.keys ==> Precedes(h, k))
    && (forall i, j :: 0 <= i < j < |e.history| ==> Precedes(e.history[i], e.history[j]))
    && (forall l :: l in e.leases ==> e.leases[l] != "")
  }

  lemma WriteKeepsTokenInv(e: Etcd, step: Step)
    requires TokenInv(e) && Enabled(e, step)
    ensures TokenInv(Write(e, step))
  {
    if step.Resign? || step.Revoke? {
      WithoutOrdered(e.keys, step.lease);
      forall t | t in Without(e.keys, step.lease) ensures t in e.keys { WithoutIs(e.keys, step.lease, t); }
    }
  }

  lemma StepKeepsTokenInv(e: Etcd, step: Step)
    requires TokenInv(e) && Enabled(e, step)
    ensures TokenInv(Next(e, step))
  {
    hide Write;
    WriteKeepsTokenInv(e, step);
    var w := Write(e, step);
    if w.keys != [] {
      assert w.keys[0] in w.keys;
      forall k | k in w.keys ensures Precedes(w.keys[0], k) {
        var i :| 0 <= i < |w.keys| && w.keys[i] == k;
      }
    }
  }

  /** The leader is the live key with the smallest create revision. */
  lemma LeaderIsOldestKey(e: Etcd, t: Term)
    requires TokenInv(e) && t in e.keys
    ensures e.keys[0].createRev <= t.createRev
  {
    var i :| 0 <= i < |e.keys| && e.keys[i] == t;
  }

  /** Over every run of campaigns, resignations and revocations the leaders' tokens never
      decrease, and a change of leader strictly increases them. */
  lemma TokensIncrease(run: seq<Etcd>, n: nat, i: nat, j: nat)
    requires IsRun(run) && n < |run| && i < j < |run[n].history|
    ensures run[n].history[i].createRev <= run[n].history[j].createRev
    ensures run[n].history[i] != run[n].history[j] ==> run[n].history[i].createRev < run[n].history[j].createRev
  {
    RunKeepsTokenInv(run, n);
    assert Precedes(run[n].history[i], run[n].history[j]);
  }

  lemma {:induction false} RunKeepsTokenInv(run: seq<Etcd>, n: nat)
    requires IsRun(run) && n < |run|
    ensures TokenInv(run[n])
  {
    hide Next, Enabled;
    if n > 0 {
      RunKeepsTokenInv(run, n - 1);
      assert CanStep(run[n - 1], run[n]);
      var step :| Enabled(run[n - 1], step) && run[n] == Next(run[n - 1], step);
      StepKeepsTokenInv(run[n - 1], step);
    }
  }

  // ---------------------------------------------------------------- the shared lease

  /** No two live sessions carry the same node name. */
  ghost predicate UniqueNames(e: Etcd) {
    forall l, l' :: l in e.leases && l' in e.leases && e.leases[l] == e.leases[l'] ==> l == l'
  }

  /** The member key of the session's node is live and attached to that session's lease. */
  ghost predicate MemberUnder(e: Etcd, lease: nat, name: string) {
    lease in e.leases && e.leases[lease] == name && name in e.members && e.members[name] == lease
  }

  ghost predicate SharedLease(e: Etcd) {
    forall t :: t in e.keys ==> MemberUnder(e, t.lease, t.name)
  }

  /** Live election keys belong to live sessions whose node has registered. */
  ghost predicate KeysLive(e: Etcd) {
    forall t :: t in e.keys ==> t.lease in e.leases && t.lease in e.registered && e.leases[t.lease] == t.name
  }

  ghost predicate LeaseInv(e: Etcd) {
    KeysLive(e) && forall l :: l in e.leases && l in e.registered ==> MemberUnder(e, l, e.leases[l])
  }

  lemma StepKeepsKeysLive(e: Etcd, step: Step)
    requires KeysLive(e) && Enabled(e, step)
    ensures KeysLive(Next(e, step))
  {
    if step.Resign? || step.Revoke? {
      forall t | t in Next(e, step).keys ensures t in e.keys && t.lease != step.lease {
        WithoutIs(e.keys, step.lease, t);
      }
    }
  }

  lemma StepKeepsLeaseInv(e: Etcd, step: Step)
    requires LeaseInv(e) && Enabled(e, step) && UniqueNames(e)
    ensures LeaseInv(Next(e, step))
  {
    hide KeysLive;
    StepKeepsKeysLive(e, step);
    var e' := Next(e, step);
    forall l | l in e'.leases && l in e'.registered ensures MemberUnder(e', l, e'.leases[l]) {
      if l in e.leases && l in e.registered { assert MemberUnder(e, l, e.leases[l]); }
    }
  }

  /** In every run with one live session per node name, a live election key implies the
      node's member key under the same lease. */
  lemma {:induction false} ElectionKeyImpliesMemberKey(run: seq<Etcd>, n: nat)
    requires IsRun(run) && n < |run| && forall i :: 0 <= i < n ==> UniqueNames(run[i])
    ensures LeaseInv(run[n]) && SharedLease(run[n])
  {
    hide Next, Enabled, UniqueNames;
    if n > 0 {
      ElectionKeyImpliesMemberKey(run, n - 1);
      assert CanStep(run[n - 1], run[n]);
      var step :| Enabled(run[n - 1], step) && run[n] == Next(run[n - 1], step);
      StepKeepsLeaseInv(run[n - 1], step);
    }
  }

  /** Revoking a lease removes the node's election key and member key in one step; a
      resignation removes the election key and leaves every member key. */
  lemma RevokeRemovesBoth(e: Etcd, lease: nat)
    requires lease in e.leases
    ensures var r := Next(e, Revoke(lease));
            (forall t :: t in r.keys ==> t.lease != lease) && (forall m :: m in r.members ==> r.members[m] != lease)
    ensures var r := Next(e, Resign(lease));
            (forall t :: t in r.keys ==> t.lease != lease) && r.members == e.members
    ensures forall t :: t in e.keys && t.lease != lease ==>
              t in Next(e, Revoke(lease)).keys && t in Next(e, Resign(lease)).keys
  {
    forall t ensures t in Without(e.keys, lease) <==> t in e.keys && t.lease != lease { WithoutIs(e.keys, lease, t); }
  }

  /** A registration takes over a member key on which a live election key of another
      session relies. */
  ghost predicate TakesOver(e: Etcd, step: Step) {
    && step.Register? && step.lease in e.leases
    && exists t :: t in e.keys && t.name == e.leases[step.lease] && t.lease != step.lease
  }

  /** A campaign puts its key although the member key is not under its lease. */
  ghost predicate LacksMember(e: Etcd, step: Step) {
    step.Campaign? && step.lease in e.leases && !MemberUnder(e, step.lease, e.leases[step.lease])
  }

  lemma LeavingKeepsSharedLease(e: Etcd, step: Step)
    requires SharedLease(e) && Enabled(e, step) && (step.Resign? || step.Revoke?)
    ensures SharedLease(Next(e, step))
  {
    var e' := Next(e, step);
    forall t | t in e'.keys ensures MemberUnder(e', t.lease, t.name) {
      WithoutIs(e.keys, step.lease, t);
      assert MemberUnder(e, t.lease, t.name);
    }
  }

  lemma GrowingKeepsSharedLeaseIff(e: Etcd, step: Step)
    requires SharedLease(e) && Enabled(e, step) && !step.Resign? && !step.Revoke?
    ensures !SharedLease(Next(e, step)) <==> TakesOver(e, step) || LacksMember(e, step)
  {
    var e' := Next(e, step);
    forall t | t in e.keys ensures MemberUnder(e, t.lease, t.name) && t in e'.keys {
    }
    if step.Campaign? {
      var t := e'.keys[|e.keys|];
      assert t in e'.keys && t.lease == step.lease;
    }
    if TakesOver(e, step) {
      var t :| t in e.keys && t.name == e.leases[step.lease] && t.lease != step.lease;
      assert !MemberUnder(e', t.lease, t.name);
    }
  }

  /** The step that breaks the shared lease is exactly a registration that takes over
      another session's member key, or a campaign whose member key was taken over. */
  lemma StepBreaksSharedLeaseIff(e: Etcd, step: Step)
    requires SharedLease(e) && Enabled(e, step)
    ensures !SharedLease(Next(e, step)) <==> TakesOver(e, step) || LacksMember(e, step)
  {
    if step.Resign? || step.Revoke? {
      LeavingKeepsSharedLease(e, step);
    } else {
      GrowingKeepsSharedLeaseIff(e, step);
    }
  }

  /** Two sessions under one name can break it: the second registration takes over the
      member key, and revoking that session removes it while the first still leads. */
  lemma SharedNameBreaksSharedLease(name: string) returns (run: seq<Etcd>)
    requires name != ""
    ensures IsRun(run) && !SharedLease(run[|run| - 1])
    ensures name !in run[|run| - 1].members && exists t :: t in run[|run| - 1].keys && t.name == name
  {
    hide CanStep, Without;
    var t := Term(1, name, 2);
    var e0 := Etcd(0, map[], {}, [], map[], []);
    var e1 := Take(e0, Grant(1, name));
    var e2 := Take(e1, Register(1));
    var e3 := Take(e2, Campaign(1));
    assert e3 == Etcd(2, map[1 := name], {1}, [t], map[name := 1], [t]);
    var later := SecondSession(e3, name);
    run := [e0, e1, e2] + later;
    assert t in later[3].keys;
  }

  lemma SecondSession(e: Etcd, name: string) returns (path: seq<Etcd>)
    requires name != "" && e == Etcd(2, map[1 := name], {1}, [Term(1, name, 2)], map[name := 1], [Term(1, name, 2)])
    ensures |path| == 4 && path[0] == e && forall i :: 0 <= i < 3 ==> CanStep(path[i], path[i + 1])
    ensures Term(1, name, 2) in path[3].keys && name !in path[3].members
  {
    hide CanStep, Without;
    var e4 := Take(e, Grant(2, name));
    var e5 := Take(e4, Register(2));
    var e6 := Take(e5, Revoke(2));
    WithoutIs(e5.keys, 2, Term(1, name, 2));
    path := [e, e4, e5, e6];
  }

  ghost function Take(e: Etcd, step: Step): (e': Etcd)
    requires Enabled(e, step)
    ensures e' == Next(e, step) && CanStep(e, e')
  {
    Next(e, step)
  }
}
