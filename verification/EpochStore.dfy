/** saveEpochs: the read / merge / compare-and-swap of a dataset's epoch list in etcd,
    sequentially and as a machine of many interleaved admissions. */
module EpochStore {
  import opened Sequences
  import opened EpochMatching
  import opened EpochGenerator

  // ---------------------------------------------------------------- merging

  /** The old epochs that are not among the new ones, in old order. */
  function Survivors(epochs: seq<Epoch>, old_: seq<Epoch>): seq<Epoch> {
    if old_ == [] then []
    else
      var e := old_[|old_| - 1];
      Survivors(epochs, old_[..|old_| - 1]) + if e in epochs then [] else [e]
  }

  function Merged(epochs: seq<Epoch>, old_: seq<Epoch>): seq<Epoch> {
    epochs + Survivors(epochs, old_)
  }

  method MergeEpochs(epochs: seq<Epoch>, old_: seq<Epoch>) returns (merged: seq<Epoch>)
    ensures merged == Merged(epochs, old_)
  {
    merged := epochs;
    for i := 0 to |old_|
      invariant merged == Merged(epochs, old_[..i])
    {
      var present := ContainsEpoch(epochs, old_[i]);
      assert old_[..i + 1][..i] == old_[..i];
      if !present { merged := merged + [old_[i]]; }
    }
    assert old_[..|old_|] == old_;
  }

  lemma {:induction false} SurvivorsAre(epochs: seq<Epoch>, old_: seq<Epoch>, e: Epoch)
    ensures e in Survivors(epochs, old_) <==> e in old_ && e !in epochs
  {
    if old_ != [] {
      SurvivorsAre(epochs, old_[..|old_| - 1], e);
      assert old_ == old_[..|old_| - 1] + [old_[|old_| - 1]];
    }
  }

  /** No surviving copy is lost or added. */
  lemma {:induction false} SurvivorsMultiplicity(epochs: seq<Epoch>, old_: seq<Epoch>, e: Epoch)
    ensures multiset(Survivors(epochs, old_))[e] == if e in epochs then 0 else multiset(old_)[e]
  {
    if old_ != [] {
      SurvivorsMultiplicity(epochs, old_[..|old_| - 1], e);
      assert old_ == old_[..|old_| - 1] + [old_[|old_| - 1]];
    }
  }

  /** The survivors keep the old order. */
  lemma {:induction false} SurvivorsInOrder(epochs: seq<Epoch>, old_: seq<Epoch>) returns (at: seq<nat>)
    ensures Selects(Survivors(epochs, old_), old_, at)
  {
    at := [];
    if old_ != [] {
      hide Selects;
      var n := |old_| - 1;
      at := SurvivorsInOrder(epochs, old_[..n]);
      SelectsLonger(Survivors(epochs, old_[..n]), old_[..n], at, old_[n]);
      assert old_ == old_[..n] + [old_[n]];
      if old_[n] !in epochs { at := at + [n]; } else { assert Survivors(epochs, old_) == Survivors(epochs, old_[..n]); }
    }
  }

  /** The merged list is the new epochs, followed by a selection of the old list in its
      order. */
  lemma MergedShape(epochs: seq<Epoch>, old_: seq<Epoch>) returns (at: seq<nat>)
    ensures epochs <= Merged(epochs, old_)
    ensures Selects(Merged(epochs, old_)[|epochs|..], old_, at)
  {
    at := SurvivorsInOrder(epochs, old_);
    assert Merged(epochs, old_)[|epochs|..] == Survivors(epochs, old_);
  }

  /** As a set the merged list is the union. */
  lemma MergedIsUnion(epochs: seq<Epoch>, old_: seq<Epoch>, e: Epoch)
    ensures e in Merged(epochs, old_) <==> e in epochs || e in old_
  {
    SurvivorsAre(epochs, old_, e);
  }

  lemma {:induction false} SurvivorsNoDuplicates(epochs: seq<Epoch>, old_: seq<Epoch>)
    requires NoDuplicates(old_)
    ensures NoDuplicates(Survivors(epochs, old_))
  {
    if old_ != [] {
      var n := |old_| - 1;
      SurvivorsNoDuplicates(epochs, old_[..n]);
      SurvivorsAre(epochs, old_[..n], old_[n]);
    }
  }

  lemma MergedNoDuplicates(epochs: seq<Epoch>, old_: seq<Epoch>)
    requires NoDuplicates(epochs) && NoDuplicates(old_)
    ensures NoDuplicates(Merged(epochs, old_))
  {
    SurvivorsNoDuplicates(epochs, old_);
    var n, kept, m := |epochs|, Survivors(epochs, old_), Merged(epochs, old_);
    forall a, b | 0 <= a < n <= b < |m| ensures m[a] != m[b] {
      SurvivorsAre(epochs, old_, kept[b - n]);
    }
    assert forall b :: n <= b < |m| ==> m[b] == kept[b - n];
  }

  lemma {:induction false} SurvivorsConcat(epochs: seq<Epoch>, s: seq<Epoch>, t: seq<Epoch>)
    ensures Survivors(epochs, s + t) == Survivors(epochs, s) + Survivors(epochs, t)
  {
    if t == [] {
      assert s + t == s;
    } else {
      assert (s + t)[..|s + t| - 1] == s + t[..|t| - 1];
      SurvivorsConcat(epochs, s, t[..|t| - 1]);
    }
  }

  lemma {:induction false} SurvivorsAll(epochs: seq<Epoch>, s: seq<Epoch>)
    ensures (forall e :: e in s ==> e in epochs) ==> Survivors(epochs, s) == []
    ensures (forall e :: e in s ==> e !in epochs) ==> Survivors(epochs, s) == s
  {
    if s != [] {
      SurvivorsAll(epochs, s[..|s| - 1]);
      assert s == s[..|s| - 1] + [s[|s| - 1]];
    }
  }

  // ---------------------------------------------------------------- one save

  /** What saveEpochs leaves in the store when it finds `old_` there. */
  ghost function SavedList(epochs: seq<Epoch>, old_: seq<Epoch>): seq<Epoch> {
    if multiset(old_) == multiset(epochs) then old_ else Merged(epochs, old_)
  }

  /** Saving the same epochs again changes nothing, not even the order. */
  lemma SaveIdempotent(epochs: seq<Epoch>, old_: seq<Epoch>)
    ensures SavedList(epochs, SavedList(epochs, old_)) == SavedList(epochs, old_)
  {
    hide Survivors;
    if multiset(old_) != multiset(epochs) {
      var kept := Survivors(epochs, old_);
      SurvivorsConcat(epochs, epochs, kept);
      SurvivorsAll(epochs, epochs);
      forall e | e in kept ensures e !in epochs { SurvivorsAre(epochs, old_, e); }
      SurvivorsAll(epochs, kept);
      assert Survivors(epochs, epochs + kept) == kept;
      assert Merged(epochs, Merged(epochs, old_)) == Merged(epochs, old_);
    }
  }

  lemma SavedListContains(epochs: seq<Epoch>, old_: seq<Epoch>, e: Epoch)
    ensures e in SavedList(epochs, old_) <==> e in epochs || e in old_
  {
    if multiset(old_) == multiset(epochs) {
      assert e in old_ <==> e in multiset(old_);
      assert e in epochs <==> e in multiset(epochs);
    } else {
      MergedIsUnion(epochs, old_, e);
    }
  }

  /** The key of a dataset's epoch list, and the store revision. */
  datatype Stored = Absent | Present(list: seq<Epoch>, modRevision: nat)
  datatype Register = Register(stored: Stored, revision: nat)

  /** The stored list already holds exactly these epochs. */
  ghost predicate Unchanged(stored: Stored, epochs: seq<Epoch>) {
    stored.Present? && multiset(stored.list) == multiset(epochs)
  }

  /** The list a save of these epochs leaves. */
  ghost function ListAfter(stored: Stored, epochs: seq<Epoch>): seq<Epoch> {
    match stored
    case Absent => epochs
    case Present(list, _) => SavedList(epochs, list)
  }

  function PutTo(r: Register, list: seq<Epoch>): Register {
    Register(Present(list, r.revision + 1), r.revision + 1)
  }

  predicate CompareHolds(r: Register, rev: nat) {
    r.stored.Present? && r.stored.modRevision == rev
  }

  /** Txn: If ModRevision == rev Then Put. */
  function TxnTo(r: Register, rev: nat, list: seq<Epoch>): Register {
    if CompareHolds(r, rev) then PutTo(r, list) else r
  }

  /** How a save fares with etcd: its read can fail; its write can fail, with or without
      having taken effect. */
  datatype Link = Up | ReadFails | WriteFails(applied: bool)

  predicate Writes(link: Link) { link.Up? || (link.WriteFails? && link.applied) }

  /** The key in etcd, as the client sees it. */
  class EpochKey {
    var stored: Stored
    var revision: nat

    ghost function View(): Register
      reads this
    {
      Register(stored, revision)
    }

    constructor ()
      ensures View() == Register(Absent, 0)
    {
      stored, revision := Absent, 0;
    }

    method Put(list: seq<Epoch>)
      modifies this
      ensures View() == PutTo(old(View()), list)
    {
      revision := revision + 1;
      stored := Present(list, revision);
    }

    method Txn(rev: nat, list: seq<Epoch>) returns (succeeded: bool)
      modifies this
      ensures View() == TxnTo(old(View()), rev, list)
      ensures succeeded <==> CompareHolds(old(View()), rev)
    {
      succeeded := stored.Present? && stored.modRevision == rev;
      if succeeded { Put(list); }
    }

    /** saveEpochs with no other admission in between: it fails only with etcd, a write that
        takes effect leaves SavedList, and an equal list is not written again. */
    method SaveEpochs(epochs: seq<Epoch>, link: Link) returns (saved: bool)
      modifies this
      ensures saved <==> link.Up? || (link.WriteFails? && Unchanged(old(stored), epochs))
      ensures link.ReadFails? || link == WriteFails(false) || Unchanged(old(stored), epochs) ==> View() == old(View())
      ensures (link.Up? || link == WriteFails(true)) && old(stored).Absent? ==> View() == PutTo(old(View()), epochs)
      ensures link == WriteFails(true) || saved ==> stored.Present? && stored.list == ListAfter(old(stored), epochs)
    {
      if link.ReadFails? { return false; }
      match stored {
        case Absent =>
          if Writes(link) { Put(epochs); }
          return link.Up?;
        case Present(list, rev) =>
          var same := AreEpochSlicesEqual(Same, list, epochs);
          SameBagIsMultisetEquality(list, epochs);
          if same { return true; }
          var merged := MergeEpochs(epochs, list);
          if Writes(link) { saved := Txn(rev, merged); }
          return link.Up?;
      }
    }
  }

  // ---------------------------------------------------------------- interleaved saves

  datatype Phase =
    | Pending
    | SawAbsent                                  // about to Put unconditionally
    | SawPresent(list: seq<Epoch>, rev: nat)     // about to commit the merged list
    | Saved
    | Failed

  datatype Admission = Admission(epochs: seq<Epoch>, phase: Phase)

  datatype State = State(register: Register, admissions: map<nat, Admission>)

  /** One atomic step. `reported` is false when the write took effect but the client
      got an error back. */
  datatype Step =
    | Begin(id: nat, epochs: seq<Epoch>)
    | Read(id: nat)
    | Fault(id: nat)                             // a request to etcd fails without effect
    | PutNew(id: nat, reported: bool)
    | Commit(id: nat, reported: bool)
    | OtherKeyWritten

  ghost predicate Enabled(s: State, step: Step) {
    match step
    case Begin(id, _) => id !in s.admissions
    case Read(id) => id in s.admissions && s.admissions[id].phase.Pending?
    case Fault(id) => id in s.admissions && !s.admissions[id].phase.Saved? && !s.admissions[id].phase.Failed?
    case PutNew(id, _) => id in s.admissions && s.admissions[id].phase.SawAbsent?
    case Commit(id, _) => id in s.admissions && s.admissions[id].phase.SawPresent?
    case OtherKeyWritten => true
  }

  ghost function SetPhase(s: State, id: nat, phase: Phase): State
    requires id in s.admissions
  {
    s.(admissions := s.admissions[id := s.admissions[id].(phase := phase)])
  }

  ghost function PhaseAfterRead(stored: Stored, epochs: seq<Epoch>): Phase {
    match stored
    case Absent => SawAbsent
    case Present(list, rev) => if multiset(list) == multiset(epochs) then Saved else SawPresent(list, rev)
  }

  ghost function Next(s: State, step: Step): State
    requires Enabled(s, step)
  {
    match step
    case Begin(id, epochs) => s.(admissions := s.admissions[id := Admission(epochs, Pending)])
    case Read(id) => SetPhase(s, id, PhaseAfterRead(s.register.stored, s.admissions[id].epochs))
    case Fault(id) => SetPhase(s, id, Failed)
    case PutNew(id, reported) =>
      SetPhase(s, id, if reported then Saved else Failed).(register := PutTo(s.register, s.admissions[id].epochs))
    case Commit(id, reported) =>
      var a := s.admissions[id];
      SetPhase(s, id, if reported && CompareHolds(s.register, a.phase.rev) then Saved else Failed)
        .(register := TxnTo(s.register, a.phase.rev, Merged(a.epochs, a.phase.list)))
    case OtherKeyWritten => s.(register := s.register.(revision := s.register.revision + 1))
  }

  ghost predicate CanStep(s: State, s': State) {
    exists step :: Enabled(s, step) && s' == Next(s, step)
  }

  /** Uninterrupted, the steps of one admission have the effect of SaveEpochs. */
  lemma UninterruptedSave(s: State, id: nat)
    requires Enabled(s, Read(id))
    ensures var read := Next(s, Read(id));
            var a := s.admissions[id];
            match s.register.stored
            case Absent =>
              && Enabled(read, PutNew(id, true))
              && HasSaved(Next(read, PutNew(id, true)), id)
              && Next(read, PutNew(id, true)).register == PutTo(s.register, a.epochs)
            case Present(list, _) =>
              var done := if HasSaved(read, id) then read else Next(read, Commit(id, true));
              && HasSaved(done, id) && done.register.stored.Present?
              && done.register.stored.list == SavedList(a.epochs, list)
  {
  }

  /** A finite run, as its sequence of states. */
  ghost predicate IsRun(run: seq<State>) {
    |run| > 0 && forall i :: 0 <= i < |run| - 1 ==> CanStep(run[i], run[i + 1])
  }

  ghost predicate Initial(s: State) {
    s.register.stored.Absent? && s.admissions == map[]
  }

  /** A pending commit whose revision is still current has read the current list. */
  ghost predicate Fresh(r: Register, p: Phase) {
    p.SawPresent? ==>
      && r.stored.Present?
      && p.rev <= r.stored.modRevision
      && (p.rev == r.stored.modRevision ==> p.list == r.stored.list)
  }

  ghost predicate Inv(s: State) {
    && (s.register.stored.Present? ==> s.register.stored.modRevision <= s.register.revision)
    && (forall id :: id in s.admissions ==> Fresh(s.register, s.admissions[id].phase))
  }

  lemma StepKeepsInv(s: State, step: Step)
    requires Inv(s) && Enabled(s, step)
    ensures Inv(Next(s, step))
  {
    var s' := Next(s, step);
    forall id | id in s'.admissions ensures Fresh(s'.register, s'.admissions[id].phase) {
      if id in s.admissions { assert Fresh(s.register, s.admissions[id].phase); }
    }
  }

  lemma {:induction false} RunKeepsInv(run: seq<State>, i: nat)
    requires IsRun(run) && i < |run| && Inv(run[0])
    ensures Inv(run[i])
  {
    if i > 0 {
      RunKeepsInv(run, i - 1);
      assert CanStep(run[i - 1], run[i]);
      var step :| Enabled(run[i - 1], step) && run[i] == Next(run[i - 1], step);
      StepKeepsInv(run[i - 1], step);
    }
  }

  // ---------------------------------------------------------------- no lost update

  ghost predicate InStore(s: State, e: Epoch) {
    s.register.stored.Present? && e in s.register.stored.list
  }

  ghost predicate StoreGrows(s: State, s': State) {
    forall e :: InStore(s, e) ==> InStore(s', e)
  }

  /** The key exists and nobody is about to create it. */
  ghost predicate Quiet(s: State) {
    s.register.stored.Present? && forall id :: id in s.admissions ==> !s.admissions[id].phase.SawAbsent?
  }

  ghost predicate HasSaved(s: State, id: nat) {
    id in s.admissions && s.admissions[id].phase.Saved?
  }

  lemma QuietIsStable(s: State, step: Step)
    requires Quiet(s) && Enabled(s, step)
    ensures Quiet(Next(s, step))
  {
  }

  /** A step loses stored epochs exactly when it is the unconditional Put of an
      admission, the key exists by then, and its epochs do not include the stored ones. */
  lemma StepLosesIff(s: State, step: Step)
    requires Inv(s) && Enabled(s, step)
    ensures !StoreGrows(s, Next(s, step)) <==>
              step.PutNew? && exists e :: InStore(s, e) && e !in s.admissions[step.id].epochs
  {
    var s' := Next(s, step);
    match step
    case Commit(id, _) =>
      assert Fresh(s.register, s.admissions[id].phase);
      forall e | InStore(s, e) ensures InStore(s', e) {
        MergedIsUnion(s.admissions[id].epochs, s.admissions[id].phase.list, e);
      }
    case PutNew(id, _) =>
      if exists e :: InStore(s, e) && e !in s.admissions[id].epochs {
        var e :| InStore(s, e) && e !in s.admissions[id].epochs;
        assert InStore(s, e) && !InStore(s', e);
      }
    case _ =>
      assert forall e :: InStore(s, e) == InStore(s', e);
  }

  /** A save that reports success has just left all its epochs in the store. */
  lemma SuccessMeansStored(s: State, step: Step, id: nat, e: Epoch)
    requires Inv(s) && Enabled(s, step) && !HasSaved(s, id) && HasSaved(Next(s, step), id)
    requires e in Next(s, step).admissions[id].epochs
    ensures InStore(Next(s, step), e)
  {
    assert id in s.admissions;
    match step
    case Read(_) =>
      assert e in multiset(s.admissions[id].epochs);
    case Commit(_, _) =>
      MergedIsUnion(s.admissions[id].epochs, s.admissions[id].phase.list, e);
    case _ =>
  }

  /** From a quiet state on, the stored epochs only grow. */
  lemma {:induction false} QuietStoreGrows(run: seq<State>, i: nat, j: nat)
    requires IsRun(run) && Inv(run[0]) && i <= j < |run| && Quiet(run[i])
    ensures Quiet(run[j]) && StoreGrows(run[i], run[j])
  {
    if i < j {
      QuietStoreGrows(run, i, j - 1);
      RunKeepsInv(run, j - 1);
      assert CanStep(run[j - 1], run[j]);
      var step :| Enabled(run[j - 1], step) && run[j] == Next(run[j - 1], step);
      QuietIsStable(run[j - 1], step);
      StepLosesIff(run[j - 1], step);
    }
  }

  /** Every save that reports success after a quiet state keeps all its epochs in the
      store in every later state. */
  lemma NoLostUpdate(run: seq<State>, i: nat, j: nat, k: nat, id: nat, e: Epoch)
    requires IsRun(run) && Inv(run[0]) && i <= j < k < |run| && Quiet(run[i])
    requires !HasSaved(run[j], id) && HasSaved(run[j + 1], id) && e in run[j + 1].admissions[id].epochs
    ensures InStore(run[k], e)
  {
    RunKeepsInv(run, j);
    assert CanStep(run[j], run[j + 1]);
    var step :| Enabled(run[j], step) && run[j + 1] == Next(run[j], step);
    SuccessMeansStored(run[j], step, id, e);
    QuietStoreGrows(run, i, j + 1);
    QuietStoreGrows(run, j + 1, k);
  }

  /** Before the key exists the promise fails: two first saves both report success and
      the epochs of one are gone. */
  lemma FirstSavesCanLose(e1: Epoch, e2: Epoch) returns (run: seq<State>)
    requires e1 != e2
    ensures IsRun(run) && Initial(run[0])
    ensures var last := run[|run| - 1];
            && last.admissions == map[1 := Admission([e1], Saved), 2 := Admission([e2], Saved)]
            && HasSaved(last, 1) && !InStore(last, e1)
  {
    hide CanStep;
    var s0 := State(Register(Absent, 0), map[]);
    var s1 := Take(s0, Begin(1, [e1]));
    var s2 := Take(s1, Begin(2, [e2]));
    var s3 := Take(s2, Read(1));
    var s4 := Take(s3, Read(2));
    var s5 := Take(s4, PutNew(1, true));
    var s6 := Take(s5, PutNew(2, true));
    run := [s0, s1, s2, s3, s4, s5, s6];
  }

  /** Requests to etcd that an admission may still make. */
  ghost function RequestsLeft(p: Phase): nat {
    match p
    case Pending => 2
    case SawAbsent => 1
    case SawPresent(_, _) => 1
    case Saved => 0
    case Failed => 0
  }

  /** Every admission ends: each of its own steps uses up a request, also one that fails, and an
      admission that has ended stays as it is. Other steps do not touch it, but other writes
      move the store's revision. */
  lemma AdmissionEnds(s: State, step: Step, id: nat)
    requires Enabled(s, step) && id in s.admissions
    ensures var s' := Next(s, step);
            && id in s'.admissions && s'.admissions[id].epochs == s.admissions[id].epochs
            && if (step.Read? || step.Fault? || step.PutNew? || step.Commit?) && step.id == id
               then RequestsLeft(s'.admissions[id].phase) < RequestsLeft(s.admissions[id].phase)
               else s'.admissions[id] == s.admissions[id]
    ensures step.OtherKeyWritten? ==> Next(s, step).register == s.register.(revision := s.register.revision + 1)
  {
  }

  ghost function Take(s: State, step: Step): (s': State)
    requires Enabled(s, step)
    ensures s' == Next(s, step) && CanStep(s, s')
  {
    Next(s, step)
  }

  // ---------------------------------------------------------------- provenance

  ghost predicate Admitted(s: State, e: Epoch) {
    exists id :: id in s.admissions && e in s.admissions[id].epochs
  }

  ghost predicate ToWriteBack(s: State, id: nat, e: Epoch) {
    id in s.admissions && s.admissions[id].phase.SawPresent? && e in s.admissions[id].phase.list
  }

  /** Everything stored, or about to be written back, was admitted by some request. */
  ghost predicate Provenance(s: State) {
    && (forall e :: InStore(s, e) ==> Admitted(s, e))
    && (forall id, e :: ToWriteBack(s, id, e) ==> Admitted(s, e))
  }

  lemma AdmittedIsStable(s: State, step: Step, e: Epoch)
    requires Enabled(s, step) && Admitted(s, e)
    ensures Admitted(Next(s, step), e)
  {
    var id :| id in s.admissions && e in s.admissions[id].epochs;
    assert id in Next(s, step).admissions && e in Next(s, step).admissions[id].epochs;
  }

  lemma StepKeepsProvenance(s: State, step: Step)
    requires Provenance(s) && Enabled(s, step)
    ensures Provenance(Next(s, step))
  {
    var s' := Next(s, step);
    forall e | InStore(s', e) ensures Admitted(s', e) {
      if step.Commit? {
        MergedIsUnion(s.admissions[step.id].epochs, s.admissions[step.id].phase.list, e);
        assert ToWriteBack(s, step.id, e) || e in s.admissions[step.id].epochs || InStore(s, e);
      }
      assert InStore(s, e) || Admitted(s, e);
      AdmittedIsStable(s, step, e);
    }
    forall id, e | ToWriteBack(s', id, e) ensures Admitted(s', e) {
      assert InStore(s, e) || ToWriteBack(s, id, e);
      AdmittedIsStable(s, step, e);
    }
  }

  lemma {:induction false} RunKeepsProvenance(run: seq<State>, i: nat)
    requires IsRun(run) && i < |run| && Initial(run[0])
    ensures Provenance(run[i])
  {
    if i > 0 {
      RunKeepsProvenance(run, i - 1);
      assert CanStep(run[i - 1], run[i]);
      var step :| Enabled(run[i - 1], step) && run[i] == Next(run[i - 1], step);
      StepKeepsProvenance(run[i - 1], step);
    }
  }
}
