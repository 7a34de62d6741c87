/** Optional values, unused numbers, distinct elements and in-order selections. */
module Sequences {

  datatype Option<+T> = None | Some(value: T)

  ghost predicate NoDuplicates<T>(s: seq<T>) {
    forall j, k :: 0 <= j < k < |s| ==> s[j] != s[k]
  }

  /** s reads off the elements of t at the positions `at`, which increase. */
  ghost predicate Selects<T>(s: seq<T>, t: seq<T>, at: seq<nat>) {
    && |at| == |s|
    && (forall k :: 0 <= k < |at| ==> at[k] < |t| && s[k] == t[at[k]])
    && (forall j, k :: 0 <= j < k < |at| ==> at[j] < at[k])
  }

  /** A selection survives an element added at the end, which may be selected too. */
  lemma SelectsLonger<T>(s: seq<T>, t: seq<T>, at: seq<nat>, e: T)
    requires Selects(s, t, at)
    ensures Selects(s, t + [e], at) && Selects(s + [e], t + [e], at + [|t|])
  {
  }

  /** Selecting the last element, if the selection has not reached it yet. */
  lemma SelectsLast<T>(s: seq<T>, t: seq<T>, at: seq<nat>)
    requires Selects(s, t, at) && t != [] && (at != [] ==> at[|at| - 1] < |t| - 1)
    ensures Selects(s + [t[|t| - 1]], t, at + [|t| - 1])
  {
  }

  lemma SelectsWithin<T>(s: seq<T>, t: seq<T>, at: seq<nat>)
    requires Selects(s, t, at)
    ensures forall i :: i in at ==> i < |t|
  {
  }

  /** A number above all of a finite set. */
  lemma {:induction false} Unused(ids: set<nat>) returns (id: nat)
    ensures id !in ids && forall k :: k in ids ==> k < id
  {
    id := 0;
    if ids != {} {
      var k :| k in ids;
      var below := Unused(ids - {k});
      id := if below > k then below else k + 1;
      forall m | m in ids ensures m < id { if m != k { assert m in ids - {k}; } }
    }
  }
}
