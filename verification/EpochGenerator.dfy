/** EpochGenerator: from an admission request to its list of epochs. */
module EpochGenerator {
  import opened Grid
  import opened Sequences
  import opened Granularity
  import opened Slicing
  import opened EpochId
  import opened Dimensions

  // ---------------------------------------------------------------- requests

  datatype SourceGranularity = Unspecified | Hourly | Daily | Weekly | Monthly
  datatype PartitionColumn = PartitionColumn(name: string, sourceGranularity: Option<SourceGranularity>)
  datatype TimeRangeFilter = TimeRangeFilter(startInclusive: Option<int>, endExclusive: Option<int>)
  datatype TimePartition = TimePartition(column: Option<PartitionColumn>, filter: TimeRangeFilter)
  datatype Partition = Partition(timePartition: Option<TimePartition>, dimensionPartitions: seq<DimensionPartition>)
  datatype DataSource = DataSource(partition: Option<Partition>)
  datatype AdmitRequest = AdmitRequest(
    tenantId: string, datasetId: string, source: Option<DataSource>, epochGranularity: Option<EpochGranularity>)

  datatype Epoch = Epoch(id: string, start: int, end: int, dims: DimValues)

  datatype Error = IncompleteTimePartition | BoundsRequired | NoGranularity | InvalidTimeRange | NoEpochs
  datatype Result<+T> = Ok(value: T) | Err(error: Error)

  function TimePartitionOf(r: AdmitRequest): Option<TimePartition> {
    if r.source.None? || r.source.value.partition.None? then None
    else r.source.value.partition.value.timePartition
  }

  function ExtractTimeRange(r: AdmitRequest): (range: Result<(int, int)>)
    ensures range == Err(IncompleteTimePartition) <==> TimePartitionOf(r).None?
    ensures range.Ok? ==> TimePartitionOf(r).value.filter == TimeRangeFilter(Some(range.value.0), Some(range.value.1))
  {
    match TimePartitionOf(r)
    case None => Err(IncompleteTimePartition)
    case Some(tp) =>
      if tp.filter.startInclusive.None? || tp.filter.endExclusive.None? then Err(BoundsRequired)
      else Ok((tp.filter.startInclusive.value, tp.filter.endExclusive.value))
  }

  function ConvertSourceGranularity(s: SourceGranularity): Option<EpochGranularity> {
    match s
    case Hourly => Some(EpochGranularity(1, Hour))
    case Daily => Some(EpochGranularity(1, Day))
    case Weekly => Some(EpochGranularity(1, Week))
    case Monthly => Some(EpochGranularity(1, Month))
    case Unspecified => None
  }

  function DetermineGranularity(r: AdmitRequest): Option<EpochGranularity> {
    if r.epochGranularity.Some? then r.epochGranularity
    else
      match TimePartitionOf(r)
      case None => None
      case Some(tp) =>
        if tp.column.Some? && tp.column.value.sourceGranularity.Some?
        then ConvertSourceGranularity(tp.column.value.sourceGranularity.value)
        else Some(EpochGranularity(1, Day))
  }

  function DimensionPartitionsOf(r: AdmitRequest): seq<DimensionPartition> {
    if r.source.None? || r.source.value.partition.None? then []
    else r.source.value.partition.value.dimensionPartitions
  }

  /** The request has this time partition. */
  ghost predicate HasTime(r: AdmitRequest, tp: TimePartition) {
    r.source.Some? && r.source.value.partition.Some? && r.source.value.partition.value.timePartition == Some(tp)
  }

  /** The bounds are found exactly when the request has both; without a time partition, or
      with a bound missing, the error says which. */
  lemma TimeRangeIff(r: AdmitRequest, start: int, end: int)
    ensures ExtractTimeRange(r) == Ok((start, end))
            <==> exists tp :: HasTime(r, tp) && tp.filter == TimeRangeFilter(Some(start), Some(end))
    ensures ExtractTimeRange(r) == Err(IncompleteTimePartition) <==> forall tp :: !HasTime(r, tp)
    ensures ExtractTimeRange(r) == Err(BoundsRequired)
            <==> exists tp :: HasTime(r, tp) && (tp.filter.startInclusive.None? || tp.filter.endExclusive.None?)
  {
    if r.source.Some? && r.source.value.partition.Some? {
      var tp := r.source.value.partition.value.timePartition;
      assert tp.Some? ==> HasTime(r, tp.value);
    }
  }

  /** One unit of what the source table declares. */
  predicate MatchesSource(g: EpochGranularity, s: SourceGranularity) {
    g.value == 1 && match s
                    case Hourly => g.unit.Hour?
                    case Daily => g.unit.Day?
                    case Weekly => g.unit.Week?
                    case Monthly => g.unit.Month?
                    case Unspecified => false
  }

  predicate MatchesTime(g: EpochGranularity, tp: TimePartition) {
    if tp.column.Some? && tp.column.value.sourceGranularity.Some?
    then MatchesSource(g, tp.column.value.sourceGranularity.value)
    else g == EpochGranularity(1, Day)
  }

  /** The request's own granularity wins. Without one, a time partition decides: by what its
      column declares, or one day when it declares nothing. */
  lemma GranularityIff(r: AdmitRequest, g: EpochGranularity)
    ensures DetermineGranularity(r) == Some(g)
            <==> r.epochGranularity == Some(g)
                 || (r.epochGranularity.None? && exists tp :: HasTime(r, tp) && MatchesTime(g, tp))
  {
    if r.source.Some? && r.source.value.partition.Some? {
      var tp := r.source.value.partition.value.timePartition;
      assert tp.Some? ==> HasTime(r, tp.value);
    }
  }

  /** How the source table is partitioned: the span of one partition, months excepted. */
  function SourceSpan(s: SourceGranularity): Option<int> {
    match s
    case Hourly => Some(60 * 60 * 1_000_000_000)
    case Daily => Some(24 * 60 * 60 * 1_000_000_000)
    case Weekly => Some(7 * 24 * 60 * 60 * 1_000_000_000)
    case Monthly | Unspecified => None
  }

  /** A request without its own granularity gets one epoch per source partition, or per day
      when the source says nothing: always a sane granularity. */
  lemma DerivedGranularity(r: AdmitRequest)
    requires r.epochGranularity.None? && DetermineGranularity(r).Some?
    ensures var g := DetermineGranularity(r).value;
            && Sane(g) && g.value == 1
            && var column := TimePartitionOf(r).value.column;
               if column.None? || column.value.sourceGranularity.None? then g.unit.Day?
               else
                 var source := column.value.sourceGranularity.value;
                 if g.unit.Month? then source.Monthly? else SourceSpan(source) == Some(StepWidth(g))
  {
    hide Sane;
    assert Sane(DetermineGranularity(r).value) by { SaneOne(DetermineGranularity(r).value); }
  }

  lemma SaneOne(g: EpochGranularity)
    requires g.value == 1
    ensures Sane(g)
  {
  }

  // ---------------------------------------------------------------- slicing one dimension set

  ghost predicate EpochFor(e: Epoch, s: Slice, hash: Hash, dims: DimValues) {
    e.start == s.start && e.end == s.end && e.dims == dims && IsEpochId(e.id, hash, s.start, dims)
  }

  ghost predicate AreEpochs(es: seq<Epoch>, ss: seq<Slice>, hash: Hash, dims: DimValues) {
    |es| == |ss| && forall k :: 0 <= k < |es| ==> EpochFor(es[k], ss[k], hash, dims)
  }

  lemma NoEpochsYet(hash: Hash, dims: DimValues)
    ensures AreEpochs([], [], hash, dims)
  {
  }

  lemma OneMoreEpoch(es: seq<Epoch>, ss: seq<Slice>, hash: Hash, dims: DimValues, e: Epoch, s: Slice)
    requires AreEpochs(es, ss, hash, dims) && EpochFor(e, s, hash, dims)
    ensures AreEpochs(es + [e], ss + [s], hash, dims)
  {
  }

  method SliceTimeRange(hash: Hash, start: int, end: int, g: EpochGranularity, dims: DimValues, order: MapOrder)
    returns (r: Result<seq<Epoch>>)
    requires Advances(g) && ValidOrder(order)
    ensures r.Err? <==> start >= end
    ensures r.Err? ==> r.error == InvalidTimeRange
    ensures r.Ok? ==> r.value != [] && AreEpochs(r.value, SliceRange(start, end, g), hash, dims)
  {
    hide AddGranularity, TruncateToGranularity, IsBoundary, Advances, IsEpochId, Lists, Slices, AreEpochs;
    if start > end || start == end {
      return Err(InvalidTimeRange);
    }
    var epochs: seq<Epoch> := [];
    var current := TruncateToGranularity(start, g.unit);
    TruncateIsGreatestBoundary(start, g.unit, current);
    SlicesTile(current, end, g);
    ghost var done: seq<Slice> := [];
    NoEpochsYet(hash, dims);
    while current < end
      invariant SliceRange(start, end, g) == done + Slices(current, end, g)
      invariant |epochs| == |done| && AreEpochs(epochs, done, hash, dims)
      decreases end - current
    {
      AddMovesForward(current, g);
      var epochEnd := AddGranularity(current, g);
      assert Lists(order(dims, |epochs|), dims);
      var id := GenerateEpochId(hash, current, dims, order(dims, |epochs|));
      var values := CloneDimensionValues(dims, order(dims, |epochs|));
      var epoch := Epoch(id, current, epochEnd, values);
      OneMoreEpoch(epochs, done, hash, dims, epoch, Slice(current, epochEnd));
      SlicesStep(current, end, g);
      epochs := epochs + [epoch];
      done := done + [Slice(current, epochEnd)];
      current := epochEnd;
    }
    SlicesEnd(current, end, g);
    assert SliceRange(start, end, g) == done;
    if |epochs| == 0 {
      return Err(NoEpochs);
    }
    return Ok(epochs);
  }

  // ---------------------------------------------------------------- whole requests

  function Concat<T>(parts: seq<seq<T>>): seq<T> {
    if parts == [] then [] else Concat(parts[..|parts| - 1]) + parts[|parts| - 1]
  }

  /** One part per dimension set, each slicing the same range. */
  ghost predicate AreParts(parts: seq<seq<Epoch>>, ss: seq<Slice>, hash: Hash, sets: seq<DimValues>) {
    |parts| == |sets| && forall j :: 0 <= j < |sets| ==> AreEpochs(parts[j], ss, hash, sets[j])
  }

  /** es is the epoch list of the request. */
  ghost predicate IsGenerated(es: seq<Epoch>, ss: seq<Slice>, hash: Hash, sets: seq<DimValues>) {
    exists parts :: AreParts(parts, ss, hash, sets) && es == Concat(parts)
  }

  /** Some epoch has the picked dimension values and covers the instant. */
  ghost predicate Covered(es: seq<Epoch>, parts: seq<DimensionPartition>, pick: seq<nat>, t: int)
    requires IsPick(parts, pick)
  {
    exists e :: e in es && Carries(parts, pick, e.dims) && e.start <= t < e.end
  }

  ghost predicate CarriesSome(parts: seq<DimensionPartition>, dims: DimValues) {
    exists pick :: IsPick(parts, pick) && Carries(parts, pick, dims)
  }

  /** The epochs answer the request, in terms of its own fields: for every instant of its range
      and every choice of one value per dimension partition there is an epoch with exactly
      those columns and values, and every epoch carries such a choice. */
  ghost predicate Answers(r: AdmitRequest, es: seq<Epoch>) {
    && r.source.Some? && r.source.value.partition.Some?
    && var p := r.source.value.partition.value;
       && p.timePartition.Some?
       && var filter := p.timePartition.value.filter;
          && filter.startInclusive.Some? && filter.endExclusive.Some?
          && (forall pick, t | IsPick(p.dimensionPartitions, pick) ::
                filter.startInclusive.value <= t < filter.endExclusive.value ==>
                  Covered(es, p.dimensionPartitions, pick, t))
          && (forall e :: e in es ==> CarriesSome(p.dimensionPartitions, e.dims))
  }

  lemma PicksCovered(es: seq<Epoch>, ss: seq<Slice>, from: int, end: int, hash: Hash,
                     parts: seq<DimensionPartition>, pick: seq<nat>, t: int)
    requires Tiles(ss, from, end) && from <= t < end && IsPick(parts, pick)
    requires IsGenerated(es, ss, hash, Sets(Effective(parts)))
    ensures Covered(es, parts, pick, t)
  {
    hide Carries, IsGenerated, Tiles, Sets;
    var j := PickHasSet(parts, pick);
    SomeEpochAt(es, ss, from, end, hash, Sets(Effective(parts)), t, j);
  }

  lemma EpochsCarry(es: seq<Epoch>, ss: seq<Slice>, hash: Hash, parts: seq<DimensionPartition>, e: Epoch)
    requires IsGenerated(es, ss, hash, Sets(Effective(parts))) && e in es
    ensures CarriesSome(parts, e.dims)
  {
    hide Carries, IsGenerated, Sets, IsEpochId;
    var j, k := GeneratedEpoch(es, ss, hash, Sets(Effective(parts)), e);
    var pick := SetHasPick(parts, j);
  }

  /** What is generated for the request's own partitions answers it. */
  lemma GeneratedAnswers(r: AdmitRequest, es: seq<Epoch>, hash: Hash, tp: TimePartition, start: int, end: int,
                         g: EpochGranularity)
    requires HasTime(r, tp) && tp.filter == TimeRangeFilter(Some(start), Some(end)) && start < end && Advances(g)
    requires var parts := r.source.value.partition.value.dimensionPartitions;
             IsGenerated(es, SliceRange(start, end, g), hash, Sets(Effective(parts)))
    ensures Answers(r, es)
  {
    hide Advances, Slices, TruncateToGranularity, IsBoundary, IsGenerated, Sets, Effective, Tiles, IsPick, Covered,
      CarriesSome;
    var parts := r.source.value.partition.value.dimensionPartitions;
    var ss := SliceRange(start, end, g);
    var from := TruncateToGranularity(start, g.unit);
    TruncateIsGreatestBoundary(start, g.unit, from);
    SlicesTile(from, end, g);
    forall pick, t | IsPick(parts, pick) && start <= t < end ensures Covered(es, parts, pick, t) {
      PicksCovered(es, ss, from, end, hash, parts, pick, t);
    }
    forall e | e in es ensures CarriesSome(parts, e.dims) { EpochsCarry(es, ss, hash, parts, e); }
  }

  lemma PartitionsOf(r: AdmitRequest, tp: TimePartition)
    requires HasTime(r, tp)
    ensures DimensionPartitionsOf(r) == r.source.value.partition.value.dimensionPartitions
  {
  }

  method GenerateEpochs(hash: Hash, request: AdmitRequest, order: MapOrder) returns (r: Result<seq<Epoch>>)
    requires ValidOrder(order)
    requires DetermineGranularity(request).Some? ==> Advances(DetermineGranularity(request).value)
    ensures r == Err(IncompleteTimePartition) <==> TimePartitionOf(request).None?
    ensures ExtractTimeRange(request).Err? ==> r == Err(ExtractTimeRange(request).error)
    ensures ExtractTimeRange(request).Ok? && DetermineGranularity(request).None? ==> r == Err(NoGranularity)
    ensures ExtractTimeRange(request).Ok? && DetermineGranularity(request).Some? ==>
              var (start, end) := ExtractTimeRange(request).value;
              var g := DetermineGranularity(request).value;
              if start >= end then r == Err(InvalidTimeRange)
              else
                var sets := Sets(Effective(DimensionPartitionsOf(request)));
                r.Ok? && IsGenerated(r.value, SliceRange(start, end, g), hash, sets)
    ensures r.Ok? ==> Answers(request, r.value)
  {
    hide Advances, SliceRange, EpochFor, Sets, Effective, DetermineGranularity, DimensionPartitionsOf, TimePartitionOf,
      Answers, HasTime;
    var timeRange := ExtractTimeRange(request);
    if timeRange.Err? { return Err(timeRange.error); }
    var granularity := DetermineGranularity(request);
    if granularity.None? { return Err(NoGranularity); }
    var (start, end) := timeRange.value;
    var g := granularity.value;
    var sets := ExtractDimensionValueSets(DimensionPartitionsOf(request), order);
    SetsNonEmpty(Effective(DimensionPartitionsOf(request)));
    var epochs: seq<Epoch> := [];
    ghost var parts: seq<seq<Epoch>> := [];
    for j := 0 to |sets|
      invariant j > 0 ==> start < end
      invariant start < end ==> AreParts(parts, SliceRange(start, end, g), hash, sets[..j]) && epochs == Concat(parts)
    {
      var part := SliceTimeRange(hash, start, end, g, sets[j], order);
      if part.Err? { return Err(part.error); }
      epochs := epochs + part.value;
      assert (parts + [part.value])[..|parts|] == parts;
      parts := parts + [part.value];
    }
    assert sets[..|sets|] == sets;
    TimeRangeIff(request, start, end);
    ghost var tp :| HasTime(request, tp) && tp.filter == TimeRangeFilter(Some(start), Some(end));
    PartitionsOf(request, tp);
    assert IsGenerated(epochs, SliceRange(start, end, g), hash, sets);
    GeneratedAnswers(request, epochs, hash, tp, start, end, g);
    return Ok(epochs);
  }

  lemma {:induction false} SetsNonEmpty(dims: seq<Dimension>)
    requires forall d :: d in dims ==> d.values != []
    ensures |Sets(dims)| > 0
  {
    if dims != [] {
      var n := |dims| - 1;
      SetsNonEmpty(dims[..n]);
      ExtendAt(Sets(dims[..n]), dims[n], 0, 0);
      assert dims[n] in dims;
    }
  }

  // ---------------------------------------------------------------- counts

  lemma {:induction false} ConcatLength<T>(parts: seq<seq<T>>, n: nat)
    requires forall j :: 0 <= j < |parts| ==> |parts[j]| == n
    ensures |Concat(parts)| == |parts| * n
  {
    if parts != [] {
      ConcatLength(parts[..|parts| - 1], n);
      assert |parts| * n == (|parts| - 1) * n + n;
    }
  }

  /** The number of epochs: cells from start to end, in steps of the value, for each
      combination of dimension values. */
  lemma EpochCount(es: seq<Epoch>, hash: Hash, start: int, end: int, g: EpochGranularity, dims: seq<Dimension>)
    requires Sane(g) && start < end && Advances(g)
    requires IsGenerated(es, SliceRange(start, end, g), hash, Sets(dims))
    ensures |es| == ProductSize(dims) * ((Cell(g.unit, end - 1) - Cell(g.unit, start)) / g.value + 1)
  {
    hide Cell, Advances, SliceRange, Boundary, EpochFor;
    var parts :| AreParts(parts, SliceRange(start, end, g), hash, Sets(dims)) && es == Concat(parts);
    RangeClosedForm(start, end, g);
    SetsLength(dims);
    ConcatLength(parts, |SliceRange(start, end, g)|);
  }

  // ---------------------------------------------------------------- contents

  lemma {:induction false} ConcatMember<T>(parts: seq<seq<T>>, x: T) returns (j: nat, k: nat)
    requires x in Concat(parts)
    ensures j < |parts| && k < |parts[j]| && parts[j][k] == x
  {
    var n := |parts| - 1;
    if x in parts[n] {
      j := n;
      k :| 0 <= k < |parts[n]| && parts[n][k] == x;
    } else {
      j, k := ConcatMember(parts[..n], x);
    }
  }

  lemma {:induction false} ConcatAt<T>(parts: seq<seq<T>>, j: nat, k: nat)
    requires j < |parts| && k < |parts[j]|
    ensures |Concat(parts[..j])| + k < |Concat(parts)|
    ensures Concat(parts)[|Concat(parts[..j])| + k] == parts[j][k]
    ensures |Concat(parts[..j])| + k < |Concat(parts[..j + 1])|
  {
    assert parts[..j + 1][..j] == parts[..j];
    var n := |parts| - 1;
    if j < n {
      assert parts[..n][..j] == parts[..j];
      ConcatAt(parts[..n], j, k);
    } else {
      assert parts[..j + 1] == parts;
    }
  }

  lemma {:induction false} ConcatPrefix<T>(parts: seq<seq<T>>, i: nat, j: nat)
    requires i <= j <= |parts|
    ensures |Concat(parts[..i])| <= |Concat(parts[..j])|
  {
    if i < j {
      ConcatPrefix(parts, i, j - 1);
      assert parts[..j][..j - 1] == parts[..j - 1];
    }
  }

  /** Every generated epoch carries one of the dimension sets and one of the slices. */
  lemma GeneratedEpoch(es: seq<Epoch>, ss: seq<Slice>, hash: Hash, sets: seq<DimValues>, e: Epoch)
    returns (j: nat, k: nat)
    requires IsGenerated(es, ss, hash, sets) && e in es
    ensures j < |sets| && k < |ss| && EpochFor(e, ss[k], hash, sets[j])
  {
    hide EpochFor;
    var parts :| AreParts(parts, ss, hash, sets) && es == Concat(parts);
    j, k := ConcatMember(parts, e);
    assert AreEpochs(parts[j], ss, hash, sets[j]);
  }

  /** Two epochs for the same slice and dimension values are the same epoch. */
  lemma EpochForUnique(e: Epoch, e': Epoch, s: Slice, hash: Hash, dims: DimValues)
    requires EpochFor(e, s, hash, dims) && EpochFor(e', s, hash, dims)
    ensures e == e'
  {
    EpochIdUnique(hash, s.start, dims, e.id, e'.id);
  }

  /** The request is covered: for every instant of the requested range and every
      combination of dimension values there is exactly one epoch. */
  lemma EveryInstantCovered(es: seq<Epoch>, hash: Hash, start: int, end: int, g: EpochGranularity,
                            sets: seq<DimValues>, t: int, j: nat)
    requires Advances(g) && start <= t < end && j < |sets|
    requires IsGenerated(es, SliceRange(start, end, g), hash, sets)
    ensures exists e :: e in es && e.dims == sets[j] && e.start <= t < e.end
    ensures forall e, e' | e in es && e' in es && e.dims == e'.dims ::
              e.start <= t < e.end && e'.start <= t < e'.end ==> e == e'
  {
    hide Advances, TruncateToGranularity, IsBoundary, Slices, IsGenerated, Tiles;
    var ss := SliceRange(start, end, g);
    var from := TruncateToGranularity(start, g.unit);
    TruncateIsGreatestBoundary(start, g.unit, from);
    SlicesTile(from, end, g);
    SomeEpochAt(es, ss, from, end, hash, sets, t, j);
    forall e, e' | e in es && e' in es && e.dims == e'.dims && e.start <= t < e.end && e'.start <= t < e'.end
      ensures e == e'
    {
      OneEpochAt(es, ss, from, end, hash, sets, t, e, e');
    }
  }

  lemma SomeEpochAt(es: seq<Epoch>, ss: seq<Slice>, from: int, end: int, hash: Hash, sets: seq<DimValues>,
                    t: int, j: nat)
    requires Tiles(ss, from, end) && IsGenerated(es, ss, hash, sets) && from <= t < end && j < |sets|
    ensures exists e :: e in es && e.dims == sets[j] && e.start <= t < e.end
  {
    hide IsEpochId, Tiles;
    var k := TilingCovers(ss, from, end, t);
    var parts :| AreParts(parts, ss, hash, sets) && es == Concat(parts);
    assert AreEpochs(parts[j], ss, hash, sets[j]);
    ConcatAt(parts, j, k);
    assert parts[j][k] in es;
  }

  lemma OneEpochAt(es: seq<Epoch>, ss: seq<Slice>, from: int, end: int, hash: Hash, sets: seq<DimValues>,
                   t: int, e: Epoch, e': Epoch)
    requires Tiles(ss, from, end) && IsGenerated(es, ss, hash, sets) && from <= t < end
    requires e in es && e' in es && e.dims == e'.dims && e.start <= t < e.end && e'.start <= t < e'.end
    ensures e == e'
  {
    hide IsEpochId, IsGenerated, Tiles;
    var k := TilingCovers(ss, from, end, t);
    var a, b := GeneratedEpoch(es, ss, hash, sets, e);
    var a', b' := GeneratedEpoch(es, ss, hash, sets, e');
    EpochForUnique(e, e', ss[k], hash, e.dims);
  }

  /** The epoch list is free of duplicates exactly when the dimension sets are distinct,
      which SetsDistinctIff decides from the request. */
  lemma NoDuplicateEpochsIff(es: seq<Epoch>, hash: Hash, start: int, end: int, g: EpochGranularity,
                             sets: seq<DimValues>)
    requires Advances(g) && start < end
    requires IsGenerated(es, SliceRange(start, end, g), hash, sets)
    ensures NoDuplicates(es) <==> NoDuplicates(sets)
  {
    hide Advances, TruncateToGranularity, IsBoundary, Slices, EpochFor;
    var ss := SliceRange(start, end, g);
    var from := TruncateToGranularity(start, g.unit);
    TruncateIsGreatestBoundary(start, g.unit, from);
    SlicesTile(from, end, g);
    var parts :| AreParts(parts, ss, hash, sets) && es == Concat(parts);
    if !NoDuplicates(sets) {
      var i, j :| 0 <= i < j < |sets| && sets[i] == sets[j];
      assert AreEpochs(parts[i], ss, hash, sets[i]) && AreEpochs(parts[j], ss, hash, sets[j]);
      EpochForUnique(parts[i][0], parts[j][0], ss[0], hash, sets[i]);
      ConcatAt(parts, i, 0);
      ConcatAt(parts, j, 0);
      ConcatPrefix(parts, i + 1, j);
      assert !NoDuplicates(es);
    } else {
      DistinctSetsDistinctEpochs(parts, ss, from, end, hash, sets);
    }
  }

  lemma {:induction false} DistinctSetsDistinctEpochs(parts: seq<seq<Epoch>>, ss: seq<Slice>, from: int, end: int,
                                                      hash: Hash, sets: seq<DimValues>)
    requires Tiles(ss, from, end) && NoDuplicates(sets)
    requires AreParts(parts, ss, hash, sets)
    ensures NoDuplicates(Concat(parts))
  {
    hide IsEpochId;
    if parts != [] {
      var n := |parts| - 1;
      var before, last := Concat(parts[..n]), parts[n];
      DistinctSetsDistinctEpochs(parts[..n], ss, from, end, hash, sets[..n]);
      forall a, b | 0 <= a < |before| && 0 <= b < |last| ensures before[a] != last[b] {
        var j, k := ConcatMember(parts[..n], before[a]);
        assert AreEpochs(parts[j], ss, hash, sets[j]) && AreEpochs(parts[n], ss, hash, sets[n]);
        assert before[a].dims == sets[j] && last[b].dims == sets[n];
      }
      forall a, b | 0 <= a < b < |last| ensures last[a] != last[b] {
        TilingOrdered(ss, from, end, a, b);
      }
    }
  }

  // ---------------------------------------------------------------- identifiers

  lemma BoundaryWholeMillis(unit: Unit, i: int)
    ensures UnixMilli(Boundary(unit, i)) * 1_000_000 == Boundary(unit, i)
  {
    hide Calendar.MonthStart;
    match unit
    case Hour => FloorDiv(i * HOUR, 1_000_000, i * 3_600_000, 0);
    case Day => FloorDiv(i * DAY, 1_000_000, i * 86_400_000, 0);
    case Week => FloorDiv((7 * i + 4) * DAY, 1_000_000, (7 * i + 4) * 86_400_000, 0);
    case Month => FloorDiv(Calendar.MonthStart(i) * DAY, 1_000_000, Calendar.MonthStart(i) * 86_400_000, 0);
  }

  /** Within one dimension set identifiers sort and decode by time: the milliseconds
      read back from them strictly increase, so they are distinct for every hash. */
  lemma IdsIncrease(es: seq<Epoch>, hash: Hash, start: int, end: int, g: EpochGranularity, dims: DimValues,
                    a: nat, b: nat)
    requires Sane(g) && Advances(g) && start < end && a < b < |es|
    requires AreEpochs(es, SliceRange(start, end, g), hash, dims)
    ensures DecodeMillis(es[a].id) * 1_000_000 == es[a].start
    ensures DecodeMillis(es[a].id) < DecodeMillis(es[b].id) && es[a].id != es[b].id
  {
    hide Advances, Boundary, Cell, SliceRange, IsEpochId, DecodeMillis, UnixMilli;
    RangeClosedForm(start, end, g);
    var i, v := Cell(g.unit, start), g.value;
    EpochIdDecodes(hash, es[a].start, dims, es[a].id);
    EpochIdDecodes(hash, es[b].start, dims, es[b].id);
    BoundaryWholeMillis(g.unit, i + a * v);
    BoundaryWholeMillis(g.unit, i + b * v);
    assert (b - a) * v > 0;
    BoundaryOrder(g.unit, i + a * v, i + b * v);
  }
}
