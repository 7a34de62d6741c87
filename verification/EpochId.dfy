/** Epoch identifiers: {start in milliseconds}_{hash suffix}. The hash (the first six
    hex digits of a SHA-256) is an arbitrary function of the text that is hashed. */
module EpochId {

  type Hash = string -> string

  // ---------------------------------------------------------------- decimal numbers

  const DIGITS: string := "0123456789"

  /** fmt.Sprintf("%d", n) for n >= 0. */
  function Digits(n: nat): string {
    if n < 10 then [DIGITS[n]] else Digits(n / 10) + [DIGITS[n % 10]]
  }

  function Decimal(n: int): string {
    if n < 0 then "-" + Digits(-n) else Digits(n)
  }

  function DigitValue(c: char): nat {
    if '0' <= c <= '9' then (c - '0') as int else 0
  }

  function ParseDigits(s: string): nat {
    if s == [] then 0 else 10 * ParseDigits(s[..|s| - 1]) + DigitValue(s[|s| - 1])
  }

  function ParseDecimal(s: string): int {
    if s != [] && s[0] == '-' then 0 - ParseDigits(s[1..]) else ParseDigits(s)
  }

  lemma DigitParses(d: nat)
    requires d < 10
    ensures DigitValue(DIGITS[d]) == d && '0' <= DIGITS[d] <= '9'
  {
  }

  lemma {:induction false} DigitsParse(n: nat)
    ensures ParseDigits(Digits(n)) == n
    ensures Digits(n) != [] && forall c :: c in Digits(n) ==> '0' <= c <= '9'
  {
    hide DigitValue;
    DigitParses(n % 10);
    if n < 10 {
      assert Digits(n)[..0] == [];
    } else {
      DigitsParse(n / 10);
      assert Digits(n)[..|Digits(n)| - 1] == Digits(n / 10);
    }
  }

  lemma DecimalParses(n: int)
    ensures ParseDecimal(Decimal(n)) == n
    ensures '_' !in Decimal(n)
  {
    hide Digits, ParseDigits;
    if n < 0 {
      DigitsParse(-n);
      assert Decimal(n)[1..] == Digits(-n);
    } else {
      DigitsParse(n);
      assert Digits(n)[0] in Digits(n);
    }
  }

  // ---------------------------------------------------------------- sorted keys

  /** The order of sort.Strings. */
  predicate Leq(a: string, b: string) {
    a == [] || (b != [] && (a[0] < b[0] || (a[0] == b[0] && Leq(a[1..], b[1..]))))
  }

  /** i is the first position where a and b differ, and a is smaller there. */
  ghost predicate SmallerAt(a: string, b: string, i: nat) {
    i < |a| && i < |b| && a[i] < b[i] && forall j :: 0 <= j < i ==> a[j] == b[j]
  }

  /** a is a prefix of b, or smaller at the first position where they differ. */
  ghost predicate Before(a: string, b: string) {
    a <= b || exists i :: SmallerAt(a, b, i)
  }

  lemma SmallerAtTail(a: string, b: string, i: nat)
    requires a != [] && b != [] && a[0] == b[0]
    ensures SmallerAt(a, b, i + 1) <==> SmallerAt(a[1..], b[1..], i)
  {
    forall j | 0 <= j < i && SmallerAt(a, b, i + 1) ensures a[1..][j] == b[1..][j] { assert a[j + 1] == b[j + 1]; }
    forall j | 0 <= j <= i && SmallerAt(a[1..], b[1..], i) ensures a[j] == b[j] {
      if j > 0 { assert a[1..][j - 1] == b[1..][j - 1]; }
    }
  }

  lemma BeforeTail(a: string, b: string)
    requires a != [] && b != [] && a[0] == b[0]
    ensures Before(a, b) <==> Before(a[1..], b[1..])
  {
    assert a <= b <==> a[1..] <= b[1..] by { assert a == [a[0]] + a[1..] && b == [b[0]] + b[1..]; }
    if i: nat :| SmallerAt(a, b, i) {
      if i > 0 { SmallerAtTail(a, b, i - 1); }
    }
    if i: nat :| SmallerAt(a[1..], b[1..], i) { SmallerAtTail(a, b, i); }
  }

  /** The order of sort.Strings is the lexicographic one, ascending. */
  lemma {:induction false} LeqIsLexicographic(a: string, b: string)
    ensures Leq(a, b) <==> Before(a, b)
  {
    if a != [] && b != [] {
      if a[0] == b[0] {
        LeqIsLexicographic(a[1..], b[1..]);
        BeforeTail(a, b);
      } else if a[0] < b[0] {
        assert SmallerAt(a, b, 0);
      }
    }
  }

  lemma {:induction false} LeqTotal(a: string, b: string)
    ensures Leq(a, b) || Leq(b, a)
    ensures Leq(a, b) && Leq(b, a) ==> a == b
  {
    if a != [] && b != [] && a[0] == b[0] {
      LeqTotal(a[1..], b[1..]);
      if Leq(a, b) && Leq(b, a) { assert a == [a[0]] + a[1..] == [b[0]] + b[1..] == b; }
    }
  }

  lemma {:induction false} LeqTransitive(a: string, b: string, c: string)
    requires Leq(a, b) && Leq(b, c)
    ensures Leq(a, c)
  {
    if a != [] && a[0] == b[0] && b[0] == c[0] { LeqTransitive(a[1..], b[1..], c[1..]); }
  }

  predicate Sorted(s: seq<string>) {
    forall i, j :: 0 <= i < j < |s| ==> Leq(s[i], s[j])
  }

  function Insert(x: string, s: seq<string>): seq<string> {
    if s == [] || Leq(x, s[0]) then [x] + s else [s[0]] + Insert(x, s[1..])
  }

  lemma {:induction false} InsertSorted(x: string, s: seq<string>)
    requires Sorted(s)
    ensures Sorted(Insert(x, s)) && multiset(Insert(x, s)) == multiset(s) + multiset{x}
  {
    hide Leq;
    if s == [] {
    } else if Leq(x, s[0]) {
      forall j | 0 <= j < |s| ensures Leq(x, s[j]) {
        if j > 0 { LeqTransitive(x, s[0], s[j]); }
      }
    } else {
      var rest := Insert(x, s[1..]);
      InsertSorted(x, s[1..]);
      LeqTotal(x, s[0]);
      assert s == [s[0]] + s[1..];
      forall j | 0 <= j < |rest| ensures Leq(s[0], rest[j]) {
        assert rest[j] in multiset(rest);
        assert rest[j] == x || rest[j] in s[1..];
      }
    }
  }

  /** sort.Strings: a sorted permutation. */
  function SortStrings(s: seq<string>): (r: seq<string>)
    ensures Sorted(r) && multiset(r) == multiset(s)
  {
    if s == [] then []
    else
      assert s == s[..|s| - 1] + [s[|s| - 1]];
      var rest := SortStrings(s[..|s| - 1]);
      InsertSorted(s[|s| - 1], rest);
      Insert(s[|s| - 1], rest)
  }

  /** The first element of a sorted listing is not above any other. */
  lemma FirstIsLeast(s: seq<string>, x: string)
    requires Sorted(s) && x in multiset(s)
    ensures s != [] && Leq(s[0], x)
  {
    var i :| 0 <= i < |s| && s[i] == x;
    LeqTotal(x, x);
  }

  lemma TailBag(s: seq<string>)
    requires s != []
    ensures s[0] in multiset(s) && multiset(s[1..]) == multiset(s) - multiset{s[0]}
  {
    assert s == [s[0]] + s[1..];
  }

  /** A multiset of strings has only one sorted listing. */
  lemma {:induction false} SortedUnique(s: seq<string>, t: seq<string>)
    requires Sorted(s) && Sorted(t) && multiset(s) == multiset(t)
    ensures s == t
  {
    hide Leq;
    assert |multiset(s)| == |s| && |multiset(t)| == |t|;
    if s != [] {
      TailBag(s);
      TailBag(t);
      FirstIsLeast(s, t[0]);
      FirstIsLeast(t, s[0]);
      LeqTotal(s[0], t[0]);
      SortedUnique(s[1..], t[1..]);
      assert s == [s[0]] + s[1..] && t == [t[0]] + t[1..];
    }
  }

  // ---------------------------------------------------------------- identifiers

  /** Time.UnixMilli of an instant in nanoseconds. */
  function UnixMilli(t: int): (ms: int)
    ensures ms * 1_000_000 <= t < (ms + 1) * 1_000_000
  {
    t / 1_000_000
  }

  /** The text key=value for each key, concatenated. */
  function Pairs(keys: seq<string>, dims: map<string, string>): string
    requires forall k :: k in keys ==> k in dims
  {
    if keys == [] then ""
    else
      var k := keys[|keys| - 1];
      Pairs(keys[..|keys| - 1], dims) + k + "=" + dims[k]
  }

  /** s lists every key of the map once, in any order: what a range over a map visits. */
  ghost predicate Lists(s: seq<string>, dims: map<string, string>) {
    multiset(s) == multiset(dims.Keys)
  }

  lemma ListsKeys(s: seq<string>, dims: map<string, string>)
    requires Lists(s, dims)
    ensures forall k :: k in s ==> k in dims
  {
    forall k | k in s ensures k in dims { assert k in multiset(s); }
  }

  /** An order for each visit of each map: Go fixes none. */
  type MapOrder = (map<string, string>, nat) -> seq<string>

  ghost predicate ValidOrder(order: MapOrder) {
    forall m, k :: Lists(order(m, k), m)
  }

  ghost predicate IsEpochId(id: string, hash: Hash, start: int, dims: map<string, string>) {
    exists keys :: Sorted(keys) && Lists(keys, dims) && IdFrom(id, hash, start, dims, keys)
  }

  ghost predicate IdFrom(id: string, hash: Hash, start: int, dims: map<string, string>, keys: seq<string>)
    requires Lists(keys, dims)
  {
    ListsKeys(keys, dims);
    var ms := Decimal(UnixMilli(start));
    id == ms + "_" + hash(ms + Pairs(keys, dims))
  }

  lemma SortKeepsListing(s: seq<string>, dims: map<string, string>)
    requires Lists(s, dims)
    ensures Sorted(SortStrings(s)) && Lists(SortStrings(s), dims)
  {
  }

  /** Keys that are not listed do not matter to the text. */
  lemma {:induction false} PairsIgnores(keys: seq<string>, dims: map<string, string>, k: string, v: string)
    requires (forall j :: j in keys ==> j in dims) && k !in keys
    ensures Pairs(keys, dims[k := v]) == Pairs(keys, dims)
  {
    if keys != [] {
      assert forall j :: j in keys[..|keys| - 1] ==> j in keys;
      PairsIgnores(keys[..|keys| - 1], dims, k, v);
    }
  }

  /** The hashed text, column by column: it is the milliseconds alone without dimensions, and a
      column that sorts after all others appends its name, an equals sign and its value. */
  lemma LastColumnAppends(keys: seq<string>, dims: map<string, string>, k: string, v: string)
    requires Sorted(keys + [k]) && Lists(keys, dims) && k !in dims
    ensures forall j :: j in keys ==> j in dims
    ensures Lists(keys + [k], dims[k := v]) && forall j :: j in keys + [k] ==> j in dims[k := v]
    ensures Pairs(keys + [k], dims[k := v]) == Pairs(keys, dims) + k + "=" + v
    ensures Pairs([], map[]) == ""
  {
    hide Sorted, Leq, Lists;
    ListsKeys(keys, dims);
    ListsOneMore(keys, dims, k, v);
    ListsKeys(keys + [k], dims[k := v]);
    PairsIgnores(keys, dims, k, v);
    assert (keys + [k])[..|keys|] == keys;
  }

  lemma ListsOneMore(keys: seq<string>, dims: map<string, string>, k: string, v: string)
    requires Lists(keys, dims) && k !in dims
    ensures Lists(keys + [k], dims[k := v])
  {
    assert dims[k := v].Keys == dims.Keys + {k};
    assert multiset(dims.Keys + {k}) == multiset(dims.Keys) + multiset{k};
    assert multiset(keys + [k]) == multiset(keys) + multiset([k]);
  }

  /** The identifier of a start with a single column. */
  lemma OneColumnId(hash: Hash, start: int, k: string, v: string, id: string)
    ensures var ms := Decimal(UnixMilli(start));
            IsEpochId(id, hash, start, map[k := v]) <==> id == ms + "_" + hash(ms + k + "=" + v)
  {
    hide Decimal, UnixMilli;
    var none: map<string, string> := map[];
    var dims := none[k := v];
    var ms := Decimal(UnixMilli(start));
    assert Lists([], none) by { assert none.Keys == {}; }
    assert [] + [k] == [k];
    LastColumnAppends([], none, k, v);
    assert Pairs([k], dims) == k + "=" + v;
    assert ms + (k + "=" + v) == ms + k + "=" + v;
    assert dims == map[k := v];
    assert IdFrom(ms + "_" + hash(ms + k + "=" + v), hash, start, dims, [k]);
    if IsEpochId(id, hash, start, dims) {
      var keys :| Sorted(keys) && Lists(keys, dims) && IdFrom(id, hash, start, dims, keys);
      SortedUnique(keys, [k]);
    }
  }

  /** generateEpochID, for any iteration order of the map. */
  method GenerateEpochId(hash: Hash, start: int, dims: map<string, string>, order: seq<string>) returns (id: string)
    requires Lists(order, dims)
    ensures IsEpochId(id, hash, start, dims)
  {
    hide Decimal, UnixMilli, Sorted, Lists, SortStrings;
    var ms := UnixMilli(start);
    var input := Decimal(ms);
    var keys: seq<string> := [];
    for i := 0 to |order|
      invariant keys == order[..i]
    {
      keys := keys + [order[i]];
    }
    assert keys == order;
    SortKeepsListing(keys, dims);
    keys := SortStrings(keys);
    ListsKeys(keys, dims);
    for i := 0 to |keys|
      invariant input == Decimal(ms) + Pairs(keys[..i], dims)
    {
      assert keys[..i + 1][..i] == keys[..i];
      input := input + keys[i] + "=" + dims[keys[i]];
    }
    assert keys[..|keys|] == keys;
    id := Decimal(ms) + "_" + hash(input);
    assert IdFrom(id, hash, start, dims, keys);
  }

  /** The identifier is a function of the start and the map's contents: iteration
      order cannot change it. */
  lemma EpochIdUnique(hash: Hash, start: int, dims: map<string, string>, id: string, id': string)
    requires IsEpochId(id, hash, start, dims) && IsEpochId(id', hash, start, dims)
    ensures id == id'
  {
    var keys :| Sorted(keys) && Lists(keys, dims) && IdFrom(id, hash, start, dims, keys);
    var keys' :| Sorted(keys') && Lists(keys', dims) && IdFrom(id', hash, start, dims, keys');
    SortedUnique(keys, keys');
  }

  /** Reads the start back from an identifier. */
  function DecodeMillis(id: string): int {
    ParseDecimal(BeforeUnderscore(id))
  }

  function BeforeUnderscore(id: string): string {
    if id == [] || id[0] == '_' then [] else [id[0]] + BeforeUnderscore(id[1..])
  }

  lemma {:induction false} PrefixBeforeUnderscore(p: string, rest: string)
    requires '_' !in p
    ensures BeforeUnderscore(p + "_" + rest) == p
  {
    if p == [] {
      assert p + "_" + rest == "_" + rest;
    } else {
      assert (p + "_" + rest)[1..] == p[1..] + "_" + rest;
      PrefixBeforeUnderscore(p[1..], rest);
    }
  }

  /** The start in milliseconds is recovered from the identifier, so identifiers of
      starts in different milliseconds differ, whatever the hash. */
  lemma EpochIdDecodes(hash: Hash, start: int, dims: map<string, string>, id: string)
    requires IsEpochId(id, hash, start, dims)
    ensures DecodeMillis(id) == UnixMilli(start)
  {
    var keys :| Sorted(keys) && Lists(keys, dims) && IdFrom(id, hash, start, dims, keys);
    DecimalParses(UnixMilli(start));
    ListsKeys(keys, dims);
    var ms := Decimal(UnixMilli(start));
    PrefixBeforeUnderscore(ms, hash(ms + Pairs(keys, dims)));
  }
}
