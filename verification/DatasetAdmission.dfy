/** AdmitDataset: the quota gate in front of the store, and what the generator and the
    store guarantee together over whole runs. */
module DatasetAdmission {
  import opened Sequences
  import opened Granularity
  import opened Slicing
  import opened EpochId
  import opened Dimensions
  import opened EpochGenerator
  import opened EpochStore

  // ---------------------------------------------------------------- the quota gate

  /** Go's int32(n): keep the low 32 bits, as a signed number. */
  function ToInt32(n: nat): int32 {
    (n + 0x8000_0000) % 0x1_0000_0000 - 0x8000_0000
  }

  predicate OverQuota(count: nat, maxEpochs: int32) {
    maxEpochs > 0 && ToInt32(count) > maxEpochs
  }

  /** For a given count the gate agrees with `count > maxEpochs` under every positive
      quota exactly when the count fits a signed 32-bit number; no other quota rejects. */
  lemma GateExactIff(count: nat)
    ensures (forall max: int32 :: max > 0 ==> (OverQuota(count, max) <==> count > max)) <==> count < 0x8000_0000
    ensures forall max: int32 :: max <= 0 ==> !OverQuota(count, max)
  {
    if count < 0x8000_0000 {
      assert ToInt32(count) == count;
    } else {
      assert !OverQuota(count, 0x7fff_ffff) && count > 0x7fff_ffff;
    }
  }

  // ---------------------------------------------------------------- one admission

  datatype Leadership = NoProvider | Provider(isLeader: bool, leaderName: string)
  datatype Outcome = Unavailable | NotLeader(leader: string) | Rejected | SaveFailed | Accepted(epochs: seq<Epoch>)

  predicate MayServe(l: Leadership) { l.NoProvider? || l.isLeader }

  predicate ValidRequest(r: AdmitRequest) {
    r.tenantId != "" && r.datasetId != "" && r.source.Some?
  }

  /** The request yields these epochs. */
  ghost predicate Generates(hash: Hash, r: AdmitRequest, es: seq<Epoch>) {
    && ExtractTimeRange(r).Ok?
    && DetermineGranularity(r).Some?
    && Advances(DetermineGranularity(r).value)
    && var (start, end) := ExtractTimeRange(r).value;
       var ss := SliceRange(start, end, DetermineGranularity(r).value);
       start < end && IsGenerated(es, ss, hash, Sets(Effective(DimensionPartitionsOf(r))))
  }

  /** The request is served and yields these epochs within the quota. */
  ghost predicate Admissible(leadership: Leadership, quota: Option<int32>, hash: Hash, r: AdmitRequest,
                             es: seq<Epoch>)
  {
    && MayServe(leadership) && ValidRequest(r) && quota.Some?
    && Generates(hash, r, es) && !OverQuota(|es|, quota.value)
  }

  /** AdmitDataset with no other admission in between. `quota` is the tenant's MaxEpochs,
      or None when it could not be read. A save that fails may still have taken effect. */
  method AdmitDataset(leadership: Leadership, quota: Option<int32>, hash: Hash, request: AdmitRequest,
                      order: MapOrder, key: EpochKey, link: Link)
    returns (outcome: Outcome)
    requires ValidOrder(order)
    requires DetermineGranularity(request).Some? ==> Advances(DetermineGranularity(request).value)
    modifies key
    ensures outcome.Accepted? ==>
              && Admissible(leadership, quota, hash, request, outcome.epochs) && Answers(request, outcome.epochs)
              && key.stored.Present? && key.stored.list == ListAfter(old(key.stored), outcome.epochs)
    ensures outcome.SaveFailed? ==>
              && !link.Up?
              && exists es :: Admissible(leadership, quota, hash, request, es)
                   && if link != WriteFails(true) then key.View() == old(key.View())
                      else key.stored.Present? && key.stored.list == ListAfter(old(key.stored), es)
    ensures !outcome.Accepted? && !outcome.SaveFailed? ==> key.View() == old(key.View())
    ensures leadership.NoProvider? || leadership.isLeader ==> !outcome.Unavailable? && !outcome.NotLeader?
    ensures leadership.Provider? && !leadership.isLeader ==>
              outcome == if leadership.leaderName == "" then Unavailable else NotLeader(leadership.leaderName)
    ensures outcome.Rejected? && ValidRequest(request) && quota.Some? ==>
              forall es :: Generates(hash, request, es) ==> OverQuota(|es|, quota.value)
  {
    hide Advances, SliceRange, IsGenerated, SavedList, OverQuota, Answers;
    if !MayServe(leadership) {
      if leadership.leaderName == "" { return Unavailable; }
      return NotLeader(leadership.leaderName);
    }
    if request.tenantId == "" || request.datasetId == "" || request.source.None? { return Rejected; }
    if quota.None? { return Rejected; }
    var generated := GenerateEpochs(hash, request, order);
    if generated.Err? { return Rejected; }
    var epochs := generated.value;
    if OverQuota(|epochs|, quota.value) {
      forall es | Generates(hash, request, es) ensures |es| == |epochs| {
        var (start, end) := ExtractTimeRange(request).value;
        var ss := SliceRange(start, end, DetermineGranularity(request).value);
        SameCount(es, epochs, ss, hash, Sets(Effective(DimensionPartitionsOf(request))));
      }
      return Rejected;
    }
    assert Admissible(leadership, quota, hash, request, epochs);
    var saved := key.SaveEpochs(epochs, link);
    return if saved then Accepted(epochs) else SaveFailed;
  }

  lemma SameCount(es: seq<Epoch>, es': seq<Epoch>, ss: seq<Slice>, hash: Hash, sets: seq<DimValues>)
    requires IsGenerated(es, ss, hash, sets) && IsGenerated(es', ss, hash, sets)
    ensures |es| == |es'|
  {
    hide EpochFor;
    var parts :| AreParts(parts, ss, hash, sets) && es == Concat(parts);
    var parts' :| AreParts(parts', ss, hash, sets) && es' == Concat(parts');
    ConcatLength(parts, |ss|);
    ConcatLength(parts', |ss|);
  }

  /** An accepted request within 32 bits respects the quota, in terms of the request
      alone: cells of the range over the value, times the dimension product. */
  lemma AcceptedWithinQuota(hash: Hash, r: AdmitRequest, es: seq<Epoch>, maxEpochs: int32)
    requires Generates(hash, r, es) && Sane(DetermineGranularity(r).value)
    requires maxEpochs > 0 && !OverQuota(|es|, maxEpochs) && |es| < 0x8000_0000
    ensures var (start, end) := ExtractTimeRange(r).value;
            var g := DetermineGranularity(r).value;
            ProductSize(Effective(DimensionPartitionsOf(r)))
              * ((Cell(g.unit, end - 1) - Cell(g.unit, start)) / g.value + 1) <= maxEpochs
  {
    hide Cell, SliceRange, IsGenerated, Advances, Sane;
    var (start, end) := ExtractTimeRange(r).value;
    EpochCount(es, hash, start, end, DetermineGranularity(r).value, Effective(DimensionPartitionsOf(r)));
    GateExactIff(|es|);
  }

  // ---------------------------------------------------------------- overlap in the store

  /** The epochs slice some range with granularity g, from a cell congruent
      to `residue` modulo the value. */
  ghost predicate SlicedBy(es: seq<Epoch>, hash: Hash, g: EpochGranularity, residue: int)
    requires Sane(g)
  {
    exists start, end, sets :: SlicedFrom(es, hash, g, residue, start, end, sets)
  }

  ghost predicate SlicedFrom(es: seq<Epoch>, hash: Hash, g: EpochGranularity, residue: int, start: int, end: int,
                             sets: seq<DimValues>)
    requires Sane(g)
  {
    SaneAdvances(g);
    start < end && Cell(g.unit, start) % g.value == residue && IsGenerated(es, SliceRange(start, end, g), hash, sets)
  }

  /** The epoch is `value` whole calendar cells from a cell congruent to the residue. */
  ghost predicate OnGrid(e: Epoch, hash: Hash, g: EpochGranularity, residue: int, i: int)
    requires g.value >= 1
  {
    i % g.value == residue && EpochFor(e, GridSlice(g, i), hash, e.dims)
  }

  lemma SlicedEpochOnGrid(es: seq<Epoch>, hash: Hash, g: EpochGranularity, residue: int, e: Epoch) returns (i: int)
    requires Sane(g) && SlicedBy(es, hash, g, residue) && e in es
    ensures OnGrid(e, hash, g, residue, i)
  {
    hide Cell, Advances, SliceRange, IsGenerated, GridSlice, IsEpochId;
    var start, end, sets :| SlicedFrom(es, hash, g, residue, start, end, sets);
    SaneAdvances(g);
    RangeClosedForm(start, end, g);
    var j, k := GeneratedEpoch(es, SliceRange(start, end, g), hash, sets, e);
    i := Cell(g.unit, start) + k * g.value;
    ShiftKeepsResidue(Cell(g.unit, start), k, g.value);
  }

  lemma GridEpochsCompatible(e: Epoch, e': Epoch, hash: Hash, g: EpochGranularity, residue: int, i: int, i': int)
    requires Sane(g) && e.dims == e'.dims
    requires OnGrid(e, hash, g, residue, i) && OnGrid(e', hash, g, residue, i')
    ensures e == e' || e.end <= e'.start || e'.end <= e.start
  {
    hide Boundary, IsEpochId;
    SameResidueCompatible(g, i, i');
    if GridSlice(g, i) == GridSlice(g, i') { EpochForUnique(e, e', GridSlice(g, i), hash, e.dims); }
  }

  /** Over every run of interleaved admissions: if all of them slice with the same
      granularity from congruent cells (for value 1, from any cell), then any two stored
      epochs with equal dimension values are identical or disjoint in time. */
  lemma StoredEpochsNeverOverlap(run: seq<State>, n: nat, hash: Hash, g: EpochGranularity, residue: int,
                                 e: Epoch, e': Epoch)
    requires IsRun(run) && Initial(run[0]) && n < |run| && Sane(g)
    requires forall id :: id in run[n].admissions ==> SlicedBy(run[n].admissions[id].epochs, hash, g, residue)
    requires InStore(run[n], e) && InStore(run[n], e') && e.dims == e'.dims
    ensures e == e' || e.end <= e'.start || e'.end <= e.start
  {
    hide SlicedBy, OnGrid;
    RunKeepsProvenance(run, n);
    assert Admitted(run[n], e) && Admitted(run[n], e');
    var id :| id in run[n].admissions && e in run[n].admissions[id].epochs;
    var id' :| id' in run[n].admissions && e' in run[n].admissions[id'].epochs;
    var i := SlicedEpochOnGrid(run[n].admissions[id].epochs, hash, g, residue, e);
    var i' := SlicedEpochOnGrid(run[n].admissions[id'].epochs, hash, g, residue, e');
    GridEpochsCompatible(e, e', hash, g, residue, i, i');
  }

  /** Some request with granularity g yields these epochs. */
  ghost predicate RequestedWith(hash: Hash, g: EpochGranularity, es: seq<Epoch>) {
    exists r :: Generates(hash, r, es) && DetermineGranularity(r) == Some(g)
  }

  /** With value 1 every range starts on the same residue. */
  lemma ValueOneResidue(hash: Hash, g: EpochGranularity, es: seq<Epoch>)
    requires g.value == 1 && RequestedWith(hash, g, es)
    ensures SlicedBy(es, hash, g, 0)
  {
    hide IsGenerated, Cell, SliceRange, Advances, Effective, Sets;
    var r :| Generates(hash, r, es) && DetermineGranularity(r) == Some(g);
    var (start, end) := ExtractTimeRange(r).value;
    assert SlicedFrom(es, hash, g, 0, start, end, Sets(Effective(DimensionPartitionsOf(r))));
  }

  /** In terms of requests: if all admissions of a dataset ask for one calendar cell of the
      same unit per epoch, then after any run of concurrent saves any two stored epochs with
      equal dimension values are identical or disjoint in time. */
  lemma CellRequestsNeverOverlap(run: seq<State>, n: nat, hash: Hash, g: EpochGranularity, e: Epoch, e': Epoch)
    requires IsRun(run) && Initial(run[0]) && n < |run| && g.value == 1
    requires forall id :: id in run[n].admissions ==> RequestedWith(hash, g, run[n].admissions[id].epochs)
    requires InStore(run[n], e) && InStore(run[n], e') && e.dims == e'.dims
    ensures e == e' || e.end <= e'.start || e'.end <= e.start
  {
    hide SlicedBy, RequestedWith, IsRun, InStore, Initial;
    forall id | id in run[n].admissions ensures SlicedBy(run[n].admissions[id].epochs, hash, g, 0) {
      ValueOneResidue(hash, g, run[n].admissions[id].epochs);
    }
    StoredEpochsNeverOverlap(run, n, hash, g, 0, e, e');
  }

  // ---------------------------------------------------------------- overlap does occur

  function PlainEpoch(hash: Hash, g: EpochGranularity, i: int): Epoch {
    var s := GridSlice(g, i);
    var ms := Decimal(UnixMilli(s.start));
    Epoch(ms + "_" + hash(ms), s.start, s.end, map[])
  }

  lemma PlainEpochIsEpoch(hash: Hash, g: EpochGranularity, i: int)
    ensures EpochFor(PlainEpoch(hash, g, i), GridSlice(g, i), hash, map[])
  {
    hide Decimal, UnixMilli, GridSlice;
    var e, dims: DimValues := PlainEpoch(hash, g, i), map[];
    var ms := Decimal(UnixMilli(e.start));
    assert Lists([], dims) by { assert dims.Keys == {}; }
    assert ms + Pairs([], dims) == ms;
    assert IdFrom(e.id, hash, e.start, dims, []);
  }

  /** A request for the first instant of cell i, without dimensions. */
  function PlainRequest(g: EpochGranularity, i: int): AdmitRequest {
    var start := Boundary(g.unit, i);
    var time := TimePartition(None, TimeRangeFilter(Some(start), Some(start + 1)));
    AdmitRequest("tenant", "dataset", Some(DataSource(Some(Partition(Some(time), [])))), Some(g))
  }

  lemma PlainRequestParts(g: EpochGranularity, i: int)
    ensures var r, start := PlainRequest(g, i), Boundary(g.unit, i);
            && ValidRequest(r) && DetermineGranularity(r) == Some(g) && DimensionPartitionsOf(r) == []
            && ExtractTimeRange(r) == Ok((start, start + 1))
  {
    hide Boundary;
  }

  /** It yields one epoch, of `value` cells. */
  lemma OneStepRequest(hash: Hash, g: EpochGranularity, i: int)
    requires Sane(g)
    ensures RequestedWith(hash, g, [PlainEpoch(hash, g, i)])
  {
    hide Boundary, Cell, IsBoundary, Advances, SliceRange, EpochFor, PlainEpoch, GridSlice, PlainRequest,
      DetermineGranularity, DimensionPartitionsOf, ExtractTimeRange;
    var e := PlainEpoch(hash, g, i);
    var start := Boundary(g.unit, i);
    RangeClosedForm(start, start + 1, g);
    BoundaryIsBoundary(g.unit, i);
    PlainEpochIsEpoch(hash, g, i);
    var ss := SliceRange(start, start + 1, g);
    assert Count(g, i, start + 1) == 1;
    assert ss == [GridSlice(g, i)];
    var parts: seq<seq<Epoch>> := [[e]];
    assert AreEpochs([e], ss, hash, map[]);
    assert AreParts(parts, ss, hash, [map[]]);
    assert parts[..0] == [];
    assert Concat(parts) == Concat(parts[..0]) + [e] == [e];
    assert IsGenerated([e], ss, hash, [map[]]);
    PlainRequestParts(g, i);
    assert Sets(Effective([])) == [map[]];
    assert Generates(hash, PlainRequest(g, i), [e]);
  }

  /** For larger values starting cells matter: a run of two sequential, successful
      admissions one cell apart stores two epochs that partially overlap. */
  lemma OverlapCanBeStored(hash: Hash, g: EpochGranularity) returns (run: seq<State>, e: Epoch, e': Epoch)
    requires Sane(g) && g.value >= 2
    ensures IsRun(run) && Initial(run[0])
    ensures var s := run[|run| - 1];
            && (forall id | id in s.admissions ::
                  s.admissions[id].phase.Saved? && RequestedWith(hash, g, s.admissions[id].epochs))
            && InStore(s, e) && InStore(s, e') && e.dims == e'.dims
    ensures e.start < e'.start < e.end < e'.end
  {
    hide RequestedWith, PlainEpoch, Boundary, Sane;
    e, e' := PlainEpoch(hash, g, 0), PlainEpoch(hash, g, 1);
    PlainSpan(hash, g, 0);
    PlainSpan(hash, g, 1);
    BoundaryOrder(g.unit, 0, 1);
    BoundaryOrder(g.unit, 1, g.value);
    BoundaryOrder(g.unit, g.value, g.value + 1);
    OneStepRequest(hash, g, 0);
    OneStepRequest(hash, g, 1);
    run := TwoSaves(e, e');
  }

  /** Two requests for a new dataset can both be accepted and the epochs of one be lost. */
  lemma FirstRequestsCanLose(hash: Hash, g: EpochGranularity) returns (run: seq<State>, e: Epoch)
    requires Sane(g)
    ensures IsRun(run) && Initial(run[0])
    ensures var s := run[|run| - 1];
            && (forall id | id in s.admissions ::
                  s.admissions[id].phase.Saved? && RequestedWith(hash, g, s.admissions[id].epochs))
            && 1 in s.admissions && e in s.admissions[1].epochs && !InStore(s, e)
  {
    hide RequestedWith, PlainEpoch, Boundary, Sane, IsRun, InStore;
    e := PlainEpoch(hash, g, 0);
    var other := PlainEpoch(hash, g, 1);
    PlainSpan(hash, g, 0);
    PlainSpan(hash, g, 1);
    BoundaryOrder(g.unit, 0, 1);
    OneStepRequest(hash, g, 0);
    OneStepRequest(hash, g, 1);
    run := FirstSavesCanLose(e, other);
  }

  lemma PlainSpan(hash: Hash, g: EpochGranularity, i: int)
    ensures var e := PlainEpoch(hash, g, i);
            e.start == Boundary(g.unit, i) && e.end == Boundary(g.unit, i + g.value) && e.dims == map[]
  {
  }

  lemma TwoSaves(e: Epoch, e': Epoch) returns (run: seq<State>)
    requires e != e'
    ensures IsRun(run) && Initial(run[0])
    ensures run[|run| - 1].admissions == map[1 := Admission([e], Saved), 2 := Admission([e'], Saved)]
    ensures InStore(run[|run| - 1], e) && InStore(run[|run| - 1], e')
  {
    hide CanStep, Merged;
    var s0 := State(Register(Absent, 0), map[]);
    var s1 := Take(s0, Begin(1, [e]));
    var s2 := Take(s1, Read(1));
    var s3 := Take(s2, PutNew(1, true));
    var s4 := Take(s3, Begin(2, [e']));
    assert multiset([e])[e] != multiset([e'])[e];
    var s5 := Take(s4, Read(2));
    assert s5.admissions[2].phase == SawPresent([e], 1);
    var s6 := Take(s5, Commit(2, true));
    MergedIsUnion([e'], [e], e);
    MergedIsUnion([e'], [e], e');
    run := [s0, s1, s2, s3, s4, s5, s6];
  }
}
