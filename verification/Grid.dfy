/** A grid is a strictly increasing assignment of instants (or days) to the
    integers; cell i of grid f is the half-open interval [f(i), f(i + 1)).
    Months on the day line and calendar boundaries on the time line are grids. */
module Grid {

  ghost predicate IsGrid(f: int -> int) {
    forall i, j :: i < j ==> f(i) < f(j)
  }

  predicate InCell(f: int -> int, i: int, t: int) {
    f(i) <= t < f(i + 1)
  }

  /** The cell that contains t, walking there from cell i. */
  function CellOf(f: int -> int, t: int, i: int): (r: int)
    requires IsGrid(f)
    ensures InCell(f, r, t)
    decreases if t < f(i) then f(i) - t else if t >= f(i + 1) then t - f(i + 1) + 1 else 0
  {
    if t < f(i) then CellOf(f, t, i - 1)
    else if t >= f(i + 1) then CellOf(f, t, i + 1)
    else i
  }

  ghost predicate Climbs(f: int -> int) {
    forall i :: f(i) < f(i + 1)
  }

  lemma {:induction false} ClimbsTo(f: int -> int, i: int, j: int)
    requires Climbs(f) && i < j
    ensures f(i) < f(j)
    decreases j - i
  {
    if i < j - 1 { ClimbsTo(f, i, j - 1); }
    assert f(j - 1) < f(j - 1 + 1);
  }

  /** It is enough that each point is below the next. */
  lemma ClimbsIsGrid(f: int -> int)
    requires Climbs(f)
    ensures IsGrid(f)
  {
    forall i, j | i < j ensures f(i) < f(j) { ClimbsTo(f, i, j); }
  }

  lemma Order(f: int -> int, i: int, j: int)
    requires IsGrid(f)
    ensures i < j <==> f(i) < f(j)
    ensures i == j <==> f(i) == f(j)
  {
  }

  /** An instant lies in at most one cell, and comparing it with grid points is
      comparing their indices with the index of its cell. */
  lemma CellOrder(f: int -> int, i: int, t: int, j: int)
    requires IsGrid(f) && InCell(f, i, t)
    ensures f(j) <= t <==> j <= i
    ensures InCell(f, j, t) <==> j == i
  {
    Order(f, j, i);
    Order(f, i + 1, j);
    Order(f, j + 1, i);
  }

  /** Quotient and remainder are unique. */
  lemma FloorDiv(p: int, d: int, q: int, r: int)
    requires d > 0 && 0 <= r < d && p == d * q + r
    ensures p / d == q && p % d == r
  {
    var e := p / d - q;
    assert d * e == r - p % d;
    assert -d < d * e < d;
    assert e == 0;
  }

  lemma {:induction false} MulLeq(a: nat, b: nat, w: nat)
    ensures a <= b ==> a * w <= b * w
    decreases b
  {
    if a < b {
      MulLeq(a, b - 1, w);
      assert b * w == (b - 1) * w + w;
    }
  }
}
