/** The cross product of dimension partition values. */
module Dimensions {
  import EpochId
  import opened Grid
  import opened Sequences

  type DimValues = map<string, string>

  /** A dimension partition of a request; either field may be absent. */
  datatype DimensionPartition = DimensionPartition(column: Option<string>, values: Option<seq<string>>)

  /** A partition that takes part in the product. */
  datatype Dimension = Dimension(column: string, values: seq<string>)

  predicate Skipped(p: DimensionPartition) {
    p.column.None? || p.values.None? || p.values.value == []
  }

  function Effective(parts: seq<DimensionPartition>): (dims: seq<Dimension>)
    ensures forall d :: d in dims ==> d.values != []
  {
    if parts == [] then []
    else
      var p := parts[|parts| - 1];
      var rest := Effective(parts[..|parts| - 1]);
      if Skipped(p) then rest else rest + [Dimension(p.column.value, p.values.value)]
  }

  /** Dimensions written back as partitions. */
  function AsPartitions(dims: seq<Dimension>): seq<DimensionPartition> {
    seq(|dims|, i requires 0 <= i < |dims| => DimensionPartition(Some(dims[i].column), Some(dims[i].values)))
  }

  /** The effective dimensions are the request's partitions in their order; exactly the
      skipped ones are missing. */
  lemma {:induction false} EffectiveSelects(parts: seq<DimensionPartition>) returns (at: seq<nat>)
    ensures Selects(AsPartitions(Effective(parts)), parts, at)
    ensures forall i :: 0 <= i < |parts| ==> (i in at <==> !Skipped(parts[i]))
  {
    at := [];
    if parts != [] {
      hide Selects;
      var n := |parts| - 1;
      var at' := EffectiveSelects(parts[..n]);
      var p := parts[n];
      var before := AsPartitions(Effective(parts[..n]));
      SelectsLonger(before, parts[..n], at', p);
      SelectsWithin(before, parts[..n], at');
      assert parts == parts[..n] + [p];
      at := if Skipped(p) then at' else at' + [n];
      assert AsPartitions(Effective(parts)) == if Skipped(p) then before else before + [p];
      forall i | 0 <= i < n ensures i in at <==> !Skipped(parts[i]) { assert parts[..n][i] == parts[i]; }
    }
  }

  function Row(s: DimValues, d: Dimension): seq<DimValues> {
    seq(|d.values|, i requires 0 <= i < |d.values| => s[d.column := d.values[i]])
  }

  function Extend(sets: seq<DimValues>, d: Dimension): seq<DimValues> {
    if sets == [] then [] else Extend(sets[..|sets| - 1], d) + Row(sets[|sets| - 1], d)
  }

  /** What extractDimensionValueSets computes, one dimension after the other. */
  function Sets(dims: seq<Dimension>): seq<DimValues> {
    if dims == [] then [map[]] else Extend(Sets(dims[..|dims| - 1]), dims[|dims| - 1])
  }

  /** cloneDimensionValues copies entry by entry, in any iteration order. */
  method CloneDimensionValues(values: DimValues, order: seq<string>) returns (cloned: DimValues)
    requires EpochId.Lists(order, values)
    ensures cloned == values
  {
    EpochId.ListsKeys(order, values);
    cloned := map[];
    if |values| == 0 { return; }
    for i := 0 to |order|
      invariant forall k :: k in cloned <==> k in order[..i]
      invariant forall k :: k in cloned ==> cloned[k] == values[k]
    {
      cloned := cloned[order[i] := values[order[i]]];
    }
    assert forall k :: k in values ==> k in multiset(order);
  }

  /** The two inner loops: every set with every value. */
  method CrossWith(sets: seq<DimValues>, d: Dimension, order: EpochId.MapOrder) returns (next: seq<DimValues>)
    requires EpochId.ValidOrder(order)
    ensures next == Extend(sets, d)
  {
    hide EpochId.Lists;
    next := [];
    for i := 0 to |sets|
      invariant next == Extend(sets[..i], d)
    {
      var done := next;
      for v := 0 to |d.values|
        invariant next == done + Row(sets[i], d)[..v]
      {
        assert EpochId.Lists(order(sets[i], v), sets[i]);
        var newSet := CloneDimensionValues(sets[i], order(sets[i], v));
        newSet := newSet[d.column := d.values[v]];
        next := next + [newSet];
      }
      assert sets[..i + 1][..i] == sets[..i];
      assert Row(sets[i], d)[..|d.values|] == Row(sets[i], d);
    }
    assert sets[..|sets|] == sets;
  }

  method ExtractDimensionValueSets(parts: seq<DimensionPartition>, order: EpochId.MapOrder)
    returns (sets: seq<DimValues>)
    requires EpochId.ValidOrder(order)
    ensures sets == Sets(Effective(parts))
  {
    hide Extend;
    sets := [map[]];
    for p := 0 to |parts|
      invariant sets == Sets(Effective(parts[..p]))
    {
      assert parts[..p + 1][..p] == parts[..p];
      if Skipped(parts[p]) { continue; }
      var d := Dimension(parts[p].column.value, parts[p].values.value);
      assert Effective(parts[..p + 1])[..|Effective(parts[..p])|] == Effective(parts[..p]);
      sets := CrossWith(sets, d, order);
    }
    assert parts[..|parts|] == parts;
  }

  // ---------------------------------------------------------------- the product, by choices

  /** One value picked per dimension. */
  predicate IsChoice(dims: seq<Dimension>, c: seq<nat>) {
    |c| == |dims| && forall j :: 0 <= j < |c| ==> c[j] < |dims[j].values|
  }

  /** The dimension values a choice stands for. */
  function Valuation(dims: seq<Dimension>, c: seq<nat>): DimValues
    requires IsChoice(dims, c)
  {
    if dims == [] then map[]
    else
      var n := |dims| - 1;
      Valuation(dims[..n], c[..n])[dims[n].column := dims[n].values[c[n]]]
  }

  function ProductSize(dims: seq<Dimension>): nat {
    if dims == [] then 1 else ProductSize(dims[..|dims| - 1]) * |dims[|dims| - 1].values|
  }

  /** The position of a choice in the product: the last dimension varies fastest. */
  function Rank(dims: seq<Dimension>, c: seq<nat>): nat
    requires IsChoice(dims, c)
  {
    if dims == [] then 0
    else
      var n := |dims| - 1;
      Rank(dims[..n], c[..n]) * |dims[n].values| + c[n]
  }

  lemma RowMajor(r: nat, v: nat, rows: nat, width: nat)
    requires r < rows && v < width
    ensures r * width + v < rows * width
  {
    MulLeq(r + 1, rows, width);
    assert (r + 1) * width == r * width + width;
  }

  /** A position has a row and a column, and only one of each. */
  lemma RowOf(k: nat, rows: nat, width: nat)
    requires k < rows * width
    ensures width > 0 && k / width < rows && k == k / width * width + k % width
  {
    if width > 0 {
      var q := k / width;
      assert k == q * width + k % width;
      MulLeq(rows, q, width);
    }
  }

  lemma RowUnique(r: nat, v: nat, r': nat, v': nat, width: nat)
    requires v < width && v' < width && r * width + v == r' * width + v'
    ensures r == r' && v == v'
  {
    FloorDiv(r * width + v, width, r, v);
    FloorDiv(r * width + v, width, r', v');
  }

  lemma {:induction false} ExtendAt(sets: seq<DimValues>, d: Dimension, r: nat, v: nat)
    ensures |Extend(sets, d)| == |sets| * |d.values|
    ensures r < |sets| && v < |d.values| ==>
              r * |d.values| + v < |sets| * |d.values|
              && Extend(sets, d)[r * |d.values| + v] == sets[r][d.column := d.values[v]]
  {
    if sets != [] {
      var n := |sets| - 1;
      ExtendAt(sets[..n], d, r, v);
      assert |sets| * |d.values| == n * |d.values| + |d.values|;
      if r < |sets| && v < |d.values| { RowMajor(r, v, |sets|, |d.values|); }
    }
  }

  lemma {:induction false} SetsLength(dims: seq<Dimension>)
    ensures |Sets(dims)| == ProductSize(dims)
  {
    if dims != [] {
      SetsLength(dims[..|dims| - 1]);
      ExtendAt(Sets(dims[..|dims| - 1]), dims[|dims| - 1], 0, 0);
    }
  }

  /** Every choice has its dimension values in the product, at its rank. */
  lemma {:induction false} ChoiceAtRank(dims: seq<Dimension>, c: seq<nat>)
    requires IsChoice(dims, c)
    ensures Rank(dims, c) < |Sets(dims)| && Sets(dims)[Rank(dims, c)] == Valuation(dims, c)
  {
    hide Extend;
    if dims != [] {
      var n := |dims| - 1;
      ChoiceAtRank(dims[..n], c[..n]);
      ExtendAt(Sets(dims[..n]), dims[n], Rank(dims[..n], c[..n]), c[n]);
    }
  }

  /** Every position of the product is the rank of a choice. */
  lemma {:induction false} EveryRankTaken(dims: seq<Dimension>, k: nat) returns (c: seq<nat>)
    requires k < |Sets(dims)|
    ensures IsChoice(dims, c) && Rank(dims, c) == k
  {
    if dims == [] {
      c := [];
    } else {
      var n := |dims| - 1;
      var w := |dims[n].values|;
      ExtendAt(Sets(dims[..n]), dims[n], 0, 0);
      RowOf(k, |Sets(dims[..n])|, w);
      var c' := EveryRankTaken(dims[..n], k / w);
      c := c' + [k % w];
      assert c[..n] == c';
    }
  }

  /** Different choices have different ranks. */
  lemma {:induction false} RankInjective(dims: seq<Dimension>, c: seq<nat>, c': seq<nat>)
    requires IsChoice(dims, c) && IsChoice(dims, c') && Rank(dims, c) == Rank(dims, c')
    ensures c == c'
  {
    if dims != [] {
      var n := |dims| - 1;
      RowUnique(Rank(dims[..n], c[..n]), c[n], Rank(dims[..n], c'[..n]), c'[n], |dims[n].values|);
      RankInjective(dims[..n], c[..n], c'[..n]);
      assert c == c[..n] + [c[n]] && c' == c'[..n] + [c'[n]];
    }
  }

  // ---------------------------------------------------------------- distinctness

  /** No later dimension names the same column. */
  predicate IsLast(dims: seq<Dimension>, j: nat)
    requires j < |dims|
  {
    forall k :: j < k < |dims| ==> dims[k].column != dims[j].column
  }

  /** The dimension values of a choice are the chosen value in each column, the last
      dimension of that name winning. */
  lemma {:induction false} ValuationReads(dims: seq<Dimension>, c: seq<nat>, j: nat)
    requires IsChoice(dims, c) && j < |dims| && IsLast(dims, j)
    ensures dims[j].column in Valuation(dims, c)
    ensures Valuation(dims, c)[dims[j].column] == dims[j].values[c[j]]
  {
    var n := |dims| - 1;
    if j < n {
      assert IsLast(dims[..n], j);
      ValuationReads(dims[..n], c[..n], j);
    }
  }

  lemma {:induction false} ValuationKey(dims: seq<Dimension>, c: seq<nat>, k: string) returns (j: nat)
    requires IsChoice(dims, c) && k in Valuation(dims, c)
    ensures j < |dims| && IsLast(dims, j) && dims[j].column == k
  {
    j := |dims| - 1;
    if k != dims[j].column { j := ValuationKey(dims[..j], c[..j], k); }
  }

  predicate Agree(dims: seq<Dimension>, c: seq<nat>, c': seq<nat>)
    requires IsChoice(dims, c) && IsChoice(dims, c')
  {
    forall j :: 0 <= j < |dims| && IsLast(dims, j) ==> dims[j].values[c[j]] == dims[j].values[c'[j]]
  }

  lemma SameValuation(dims: seq<Dimension>, c: seq<nat>, c': seq<nat>)
    requires IsChoice(dims, c) && IsChoice(dims, c')
    ensures Valuation(dims, c) == Valuation(dims, c') <==> Agree(dims, c, c')
  {
    forall j | 0 <= j < |dims| && IsLast(dims, j)
      ensures dims[j].column in Valuation(dims, c) && Valuation(dims, c)[dims[j].column] == dims[j].values[c[j]]
      ensures dims[j].column in Valuation(dims, c') && Valuation(dims, c')[dims[j].column] == dims[j].values[c'[j]]
    {
      ValuationReads(dims, c, j);
      ValuationReads(dims, c', j);
    }
    forall k | k in Valuation(dims, c) ensures exists j :: 0 <= j < |dims| && IsLast(dims, j) && dims[j].column == k {
      var j := ValuationKey(dims, c, k);
    }
    forall k | k in Valuation(dims, c') ensures exists j :: 0 <= j < |dims| && IsLast(dims, j) && dims[j].column == k {
      var j := ValuationKey(dims, c', k);
    }
  }

  /** Every dimension that is not overridden has distinct values; an overridden one has
      a single value. */
  ghost predicate Separates(dims: seq<Dimension>) {
    forall j :: 0 <= j < |dims| ==>
      if IsLast(dims, j) then NoDuplicates(dims[j].values) else |dims[j].values| <= 1
  }

  lemma SeparatesDistinguishes(dims: seq<Dimension>, j: nat, k: nat)
    requires Separates(dims) && j < |Sets(dims)| && k < |Sets(dims)| && Sets(dims)[j] == Sets(dims)[k]
    ensures j == k
  {
    var c := EveryRankTaken(dims, j);
    var c' := EveryRankTaken(dims, k);
    ChoiceAtRank(dims, c);
    ChoiceAtRank(dims, c');
    SameValuation(dims, c, c');
    forall i | 0 <= i < |dims| ensures c[i] == c'[i] {
      if IsLast(dims, i) {
        assert dims[i].values[c[i]] == dims[i].values[c'[i]];
      }
    }
    assert c == c';
  }

  /** Two values of one dimension that yield the same dimension values twice. */
  lemma ClashRepeatsASet(dims: seq<Dimension>, j: nat, a: nat, b: nat)
    requires forall d :: d in dims ==> d.values != []
    requires j < |dims| && a < b < |dims[j].values|
    requires IsLast(dims, j) ==> dims[j].values[a] == dims[j].values[b]
    ensures !NoDuplicates(Sets(dims))
  {
    var zeros: seq<nat> := seq(|dims|, i => 0);
    var c, c' := zeros[j := a], zeros[j := b];
    assert IsChoice(dims, c) && IsChoice(dims, c') by {
      forall i | 0 <= i < |dims| ensures 0 < |dims[i].values| { assert dims[i] in dims; }
    }
    assert c[j] != c'[j];
    SameValuation(dims, c, c');
    ChoiceAtRank(dims, c);
    ChoiceAtRank(dims, c');
    var r, r' := Rank(dims, c), Rank(dims, c');
    if r == r' { RankInjective(dims, c, c'); }
    assert Sets(dims)[r] == Sets(dims)[r'];
    assert !(r < r' && NoDuplicates(Sets(dims)));
  }

  /** The sets of the product are pairwise distinct exactly when the dimensions separate. */
  lemma SetsDistinctIff(dims: seq<Dimension>)
    requires forall d :: d in dims ==> d.values != []
    ensures NoDuplicates(Sets(dims)) <==> Separates(dims)
  {
    if Separates(dims) {
      forall j, k | 0 <= j < k < |Sets(dims)| ensures Sets(dims)[j] != Sets(dims)[k] {
        if Sets(dims)[j] == Sets(dims)[k] { SeparatesDistinguishes(dims, j, k); }
      }
    } else {
      var j :| 0 <= j < |dims| &&
        !(if IsLast(dims, j) then NoDuplicates(dims[j].values) else |dims[j].values| <= 1);
      if IsLast(dims, j) {
        var a, b :| 0 <= a < b < |dims[j].values| && dims[j].values[a] == dims[j].values[b];
        ClashRepeatsASet(dims, j, a, b);
      } else {
        ClashRepeatsASet(dims, j, 0, 1);
      }
    }
  }

  // ---------------------------------------------------------------- in terms of the partitions

  /** The partition takes part: it names a column and lists values. */
  predicate Usable(p: DimensionPartition) {
    p.column.Some? && p.values.Some? && p.values.value != []
  }

  /** One value for each partition that takes part. */
  ghost predicate IsPick(parts: seq<DimensionPartition>, pick: seq<nat>) {
    |pick| == |parts| && forall j :: 0 <= j < |parts| && Usable(parts[j]) ==> pick[j] < |parts[j].values.value|
  }

  /** Partition j decides column k: no later one that takes part has that column. */
  ghost predicate Decides(parts: seq<DimensionPartition>, j: nat, k: string) {
    && j < |parts| && Usable(parts[j]) && parts[j].column.value == k
    && forall i :: j < i < |parts| && Usable(parts[i]) ==> parts[i].column.value != k
  }

  /** The dimension values have exactly the columns of the partitions that take part, each with
      the value picked from the partition that decides it. */
  ghost predicate Carries(parts: seq<DimensionPartition>, pick: seq<nat>, dims: DimValues)
    requires IsPick(parts, pick)
  {
    && (forall k :: k in dims ==> exists j :: Decides(parts, j, k))
    && (forall j: nat, k :: Decides(parts, j, k) ==> k in dims && dims[k] == parts[j].values.value[pick[j]])
  }

  /** One partition more. */
  lemma DecidesMore(parts: seq<DimensionPartition>, j: nat, k: string)
    requires parts != []
    ensures var n := |parts| - 1;
            var last := Usable(parts[n]) && parts[n].column.value == k;
            Decides(parts, j, k) <==> if last then j == n else Decides(parts[..n], j, k)
  {
  }

  lemma CarriesMore(parts: seq<DimensionPartition>, pick: seq<nat>, dims: DimValues)
    requires parts != [] && IsPick(parts, pick) && IsPick(parts[..|parts| - 1], pick[..|parts| - 1])
    requires Carries(parts[..|parts| - 1], pick[..|parts| - 1], dims)
    ensures var n := |parts| - 1;
            Carries(parts, pick, if Usable(parts[n]) then dims[parts[n].column.value := parts[n].values.value[pick[n]]]
                                 else dims)
  {
    var n := |parts| - 1;
    var dims' := if Usable(parts[n]) then dims[parts[n].column.value := parts[n].values.value[pick[n]]] else dims;
    forall j: nat, k | Decides(parts, j, k) ensures k in dims' && dims'[k] == parts[j].values.value[pick[j]] {
      DecidesMore(parts, j, k);
    }
    forall k | k in dims' ensures exists j :: Decides(parts, j, k) {
      if Usable(parts[n]) && parts[n].column.value == k {
        DecidesMore(parts, n, k);
      } else {
        var j :| Decides(parts[..n], j, k);
        DecidesMore(parts, j, k);
      }
    }
  }

  /** Every pick has its set in the product. */
  lemma {:induction false} PickHasSet(parts: seq<DimensionPartition>, pick: seq<nat>) returns (r: nat)
    requires IsPick(parts, pick)
    ensures r < |Sets(Effective(parts))| && Carries(parts, pick, Sets(Effective(parts))[r])
  {
    hide Carries, Extend;
    if parts == [] {
      r := 0;
      NothingCarried(pick);
    } else {
      var n := |parts| - 1;
      var rest := Effective(parts[..n]);
      r := PickHasSet(parts[..n], pick[..n]);
      CarriesMore(parts, pick, Sets(rest)[r]);
      if Usable(parts[n]) {
        var d := Dimension(parts[n].column.value, parts[n].values.value);
        assert (rest + [d])[..|rest|] == rest;
        ExtendAt(Sets(rest), d, r, pick[n]);
        r := r * |d.values| + pick[n];
      }
    }
  }

  lemma NothingCarried(pick: seq<nat>)
    requires IsPick([], pick)
    ensures Carries([], pick, map[])
  {
  }

  lemma ExtendReads(sets: seq<DimValues>, d: Dimension, r: nat)
    requires r < |Extend(sets, d)|
    ensures |d.values| > 0 && r / |d.values| < |sets|
    ensures Extend(sets, d)[r] == sets[r / |d.values|][d.column := d.values[r % |d.values|]]
  {
    hide Extend;
    ExtendAt(sets, d, 0, 0);
    RowOf(r, |sets|, |d.values|);
    ExtendAt(sets, d, r / |d.values|, r % |d.values|);
  }

  /** And every set of the product comes from a pick. */
  lemma {:induction false} SetHasPick(parts: seq<DimensionPartition>, r: nat) returns (pick: seq<nat>)
    requires r < |Sets(Effective(parts))|
    ensures IsPick(parts, pick) && Carries(parts, pick, Sets(Effective(parts))[r])
  {
    hide Carries, Extend;
    if parts == [] {
      pick := [];
      NothingCarried(pick);
    } else {
      var n := |parts| - 1;
      var rest := Effective(parts[..n]);
      if Usable(parts[n]) {
        var d := Dimension(parts[n].column.value, parts[n].values.value);
        var w := |d.values|;
        assert (rest + [d])[..|rest|] == rest;
        ExtendReads(Sets(rest), d, r);
        var before := SetHasPick(parts[..n], r / w);
        pick := before + [r % w];
        assert pick[..n] == before;
        CarriesMore(parts, pick, Sets(rest)[r / w]);
      } else {
        var before := SetHasPick(parts[..n], r);
        pick := before + [0];
        assert pick[..n] == before;
        CarriesMore(parts, pick, Sets(rest)[r]);
      }
    }
  }
}
