/** areEpochSlicesEqual and containsEpoch, over any equivalence that stands for
    proto.Equal. */
module EpochMatching {

  ghost predicate IsEquivalence<T(!new)>(eq: (T, T) -> bool) {
    && (forall x :: eq(x, x))
    && (forall x, y :: eq(x, y) ==> eq(y, x))
    && (forall x, y, z :: eq(x, y) && eq(y, z) ==> eq(x, z))
  }

  /** Equality itself, as the equivalence of plain values. */
  predicate Same<T(==)>(u: T, v: T) { u == v }

  /** How many elements of s are equivalent to x. */
  function Occurrences<T>(eq: (T, T) -> bool, s: seq<T>, x: T): nat {
    if s == [] then 0
    else Occurrences(eq, s[..|s| - 1], x) + if eq(s[|s| - 1], x) then 1 else 0
  }

  /** Equal as multisets of equivalence classes. */
  ghost predicate SameBag<T(!new)>(eq: (T, T) -> bool, a: seq<T>, b: seq<T>) {
    |a| == |b| && forall x :: Occurrences(eq, a, x) == Occurrences(eq, b, x)
  }

  /** How many marked elements of b are equivalent to x. */
  function Marked<T>(eq: (T, T) -> bool, b: seq<T>, marks: seq<bool>, x: T): nat
    requires |marks| == |b|
  {
    if b == [] then 0
    else
      var n := |b| - 1;
      Marked(eq, b[..n], marks[..n], x) + if marks[n] && eq(b[n], x) then 1 else 0
  }

  function CountTrue(marks: seq<bool>): nat {
    if marks == [] then 0 else CountTrue(marks[..|marks| - 1]) + if marks[|marks| - 1] then 1 else 0
  }

  /** The marks account for exactly the elements of s. */
  ghost predicate Balanced<T(!new)>(eq: (T, T) -> bool, b: seq<T>, marks: seq<bool>, s: seq<T>)
    requires |marks| == |b|
  {
    CountTrue(marks) == |s| && forall x :: Marked(eq, b, marks, x) == Occurrences(eq, s, x)
  }

  lemma {:induction false} NothingTrue(marks: seq<bool>)
    requires forall j :: 0 <= j < |marks| ==> !marks[j]
    ensures CountTrue(marks) == 0
  {
    if marks != [] { NothingTrue(marks[..|marks| - 1]); }
  }

  lemma {:induction false} NothingMarked<T>(eq: (T, T) -> bool, b: seq<T>, marks: seq<bool>, x: T)
    requires |marks| == |b| && forall j :: 0 <= j < |b| ==> !marks[j]
    ensures Marked(eq, b, marks, x) == 0
  {
    if b != [] { NothingMarked(eq, b[..|b| - 1], marks[..|b| - 1], x); }
  }

  /** Marking one more element. */
  lemma {:induction false} MarkOne<T>(eq: (T, T) -> bool, b: seq<T>, marks: seq<bool>, j: nat, x: T)
    requires |marks| == |b| && j < |b| && !marks[j]
    ensures CountTrue(marks[j := true]) == CountTrue(marks) + 1
    ensures Marked(eq, b, marks[j := true], x) == Marked(eq, b, marks, x) + if eq(b[j], x) then 1 else 0
  {
    var n := |b| - 1;
    var after := marks[j := true];
    if j < n {
      MarkOne(eq, b[..n], marks[..n], j, x);
      assert after[..n] == marks[..n][j := true];
    } else {
      assert after[..n] == marks[..n];
    }
  }

  /** If every element equivalent to x is marked, the marks count all of them. */
  lemma {:induction false} MarksComplete<T>(eq: (T, T) -> bool, b: seq<T>, marks: seq<bool>, x: T)
    requires |marks| == |b| && forall j :: 0 <= j < |b| && eq(b[j], x) ==> marks[j]
    ensures Marked(eq, b, marks, x) == Occurrences(eq, b, x)
  {
    if b != [] { MarksComplete(eq, b[..|b| - 1], marks[..|b| - 1], x); }
  }

  lemma {:induction false} AllMarked(marks: seq<bool>)
    ensures CountTrue(marks) <= |marks|
    ensures CountTrue(marks) == |marks| ==> forall j :: 0 <= j < |marks| ==> marks[j]
  {
    if marks != [] { AllMarked(marks[..|marks| - 1]); }
  }

  lemma {:induction false} OccurrencesMonotone<T>(eq: (T, T) -> bool, s: seq<T>, i: nat, x: T)
    requires i <= |s|
    ensures Occurrences(eq, s[..i], x) <= Occurrences(eq, s, x)
  {
    if i < |s| {
      assert s[..|s| - 1][..i] == s[..i];
      OccurrencesMonotone(eq, s[..|s| - 1], i, x);
    } else {
      assert s[..i] == s;
    }
  }

  /** Greedy matching with a matched array decides multiset equality. */
  method AreEpochSlicesEqual<T(!new)>(eq: (T, T) -> bool, a: seq<T>, b: seq<T>) returns (equal: bool)
    requires IsEquivalence(eq)
    ensures equal <==> SameBag(eq, a, b)
  {
    if |a| != |b| { return false; }
    var matched := new bool[|b|](_ => false);
    forall x ensures Marked(eq, b, matched[..], x) == 0 { NothingMarked(eq, b, matched[..], x); }
    NothingTrue(matched[..]);
    for i := 0 to |a|
      invariant Balanced(eq, b, matched[..], a[..i])
    {
      var found := false;
      ghost var marks := matched[..];
      for j := 0 to |b|
        invariant !found && matched[..] == marks
        invariant forall k :: 0 <= k < j ==> marks[k] || !eq(a[i], b[k])
      {
        if !matched[j] && eq(a[i], b[j]) {
          matched[j] := true;
          found := true;
          assert matched[..] == marks[j := true];
          MatchStep(eq, a, b, marks, i, j);
          break;
        }
      }
      if !found {
        Unmatched(eq, a, b, matched[..], i);
        return false;
      }
    }
    AllMarked(matched[..]);
    forall x ensures Occurrences(eq, a, x) == Occurrences(eq, b, x) {
      assert a[..|a|] == a;
      MarksComplete(eq, b, matched[..], x);
    }
    return true;
  }

  lemma MatchStep<T(!new)>(eq: (T, T) -> bool, a: seq<T>, b: seq<T>, marks: seq<bool>, i: nat, j: nat)
    requires IsEquivalence(eq) && |marks| == |b| && i < |a| && j < |b| && !marks[j] && eq(a[i], b[j])
    requires Balanced(eq, b, marks, a[..i])
    ensures Balanced(eq, b, marks[j := true], a[..i + 1])
  {
    MarkOne(eq, b, marks, j, b[j]);
    var marks', s := marks[j := true], a[..i + 1];
    assert s[..i] == a[..i];
    forall x ensures Marked(eq, b, marks', x) == Occurrences(eq, s, x) {
      MarkOne(eq, b, marks, j, x);
      assert eq(a[i], x) <==> eq(b[j], x);
    }
  }

  lemma Unmatched<T(!new)>(eq: (T, T) -> bool, a: seq<T>, b: seq<T>, marks: seq<bool>, i: nat)
    requires IsEquivalence(eq) && |marks| == |b| && i < |a|
    requires Balanced(eq, b, marks, a[..i])
    requires forall k :: 0 <= k < |b| ==> marks[k] || !eq(a[i], b[k])
    ensures !SameBag(eq, a, b)
  {
    MarksComplete(eq, b, marks, a[i]);
    assert a[..i + 1][..i] == a[..i];
    OccurrencesMonotone(eq, a, i + 1, a[i]);
    assert Occurrences(eq, a, a[i]) > Occurrences(eq, b, a[i]);
  }

  // ---------------------------------------------------------------- consequences

  lemma {:induction false} OccurrencesIsMultiplicity<T>(s: seq<T>, x: T)
    ensures Occurrences(Same, s, x) == multiset(s)[x]
  {
    if s != [] {
      OccurrencesIsMultiplicity(s[..|s| - 1], x);
      assert s == s[..|s| - 1] + [s[|s| - 1]];
    }
  }

  /** Under plain equality the bags are ordinary multisets. */
  lemma SameBagIsMultisetEquality<T(!new)>(a: seq<T>, b: seq<T>)
    ensures SameBag(Same, a, b) <==> multiset(a) == multiset(b)
  {
    forall x ensures Occurrences(Same, a, x) == multiset(a)[x] && Occurrences(Same, b, x) == multiset(b)[x] {
      OccurrencesIsMultiplicity(a, x);
      OccurrencesIsMultiplicity(b, x);
    }
    assert |a| == |multiset(a)| && |b| == |multiset(b)|;
  }

  lemma {:induction false} OccurrencesConcat<T>(eq: (T, T) -> bool, s: seq<T>, t: seq<T>, x: T)
    ensures Occurrences(eq, s + t, x) == Occurrences(eq, s, x) + Occurrences(eq, t, x)
  {
    if t == [] {
      assert s + t == s;
    } else {
      assert (s + t)[..|s + t| - 1] == s + t[..|t| - 1];
      OccurrencesConcat(eq, s, t[..|t| - 1], x);
    }
  }

  lemma RemoveFromBag<T>(s: seq<T>, i: nat)
    requires i < |s|
    ensures multiset(s[..i] + s[i + 1..]) == multiset(s) - multiset{s[i]}
  {
    assert s == s[..i] + [s[i]] + s[i + 1..];
  }

  lemma RemoveOne<T>(eq: (T, T) -> bool, s: seq<T>, i: nat, x: T)
    requires i < |s|
    ensures Occurrences(eq, s, x) == Occurrences(eq, s[..i] + s[i + 1..], x) + if eq(s[i], x) then 1 else 0
  {
    hide Occurrences;
    var front, back := s[..i], s[i + 1..];
    assert s == front + [s[i]] + back;
    OccurrencesConcat(eq, front, back, x);
    OccurrencesConcat(eq, front + [s[i]], back, x);
    OccurrencesAppend(eq, front, s[i], x);
  }

  lemma OccurrencesAppend<T>(eq: (T, T) -> bool, s: seq<T>, e: T, x: T)
    ensures Occurrences(eq, s + [e], x) == Occurrences(eq, s, x) + if eq(e, x) then 1 else 0
  {
    assert (s + [e])[..|s|] == s;
  }

  /** The outcome does not depend on the order of either list. */
  lemma {:induction false} OrderIrrelevant<T>(eq: (T, T) -> bool, a: seq<T>, a': seq<T>, x: T)
    requires multiset(a) == multiset(a')
    ensures |a| == |a'| && Occurrences(eq, a, x) == Occurrences(eq, a', x)
  {
    assert |a| == |multiset(a)| && |a'| == |multiset(a')|;
    if a != [] {
      var n := |a| - 1;
      assert a[n] in multiset(a');
      var i :| 0 <= i < |a'| && a'[i] == a[n];
      RemoveOne(eq, a, n, x);
      RemoveOne(eq, a', i, x);
      RemoveFromBag(a, n);
      RemoveFromBag(a', i);
      OrderIrrelevant(eq, a[..n] + a[n + 1..], a'[..i] + a'[i + 1..], x);
    }
  }

  method ContainsEpoch<T(==)>(epochs: seq<T>, target: T) returns (found: bool)
    ensures found <==> target in epochs
  {
    for i := 0 to |epochs|
      invariant target !in epochs[..i]
    {
      if epochs[i] == target { return true; }
    }
    return false;
  }
}
