/** The order in which an enemy body lays out its parts: the cells (i, j, k) of an n × n × n
    grid, i outermost and k innermost, each cell exactly once. */
module Lattice {

  type Cell = (nat, nat, nat)

  /** Cell a comes before cell b in the loops' order */
  predicate Before(a: Cell, b: Cell)
  {
    a.0 < b.0 || (a.0 == b.0 && (a.1 < b.1 || (a.1 == b.1 && a.2 < b.2)))
  }

  /** Each cell comes strictly after the previous one, so no cell appears twice */
  predicate Ascending(s: seq<Cell>)
  {
    forall a, b :: 0 <= a < b < |s| ==> Before(s[a], s[b])
  }

  /** The first k cells of row (i, j) */
  function Row(i: nat, j: nat, k: nat): (r: seq<Cell>)
    ensures |r| == k
  {
    if k == 0 then [] else Row(i, j, k - 1) + [(i, j, k - 1)]
  }

  /** The first j rows of plane i */
  function Rows(n: nat, i: nat, j: nat): (r: seq<Cell>)
    ensures |r| == j * n
  {
    if j == 0 then [] else Rows(n, i, j - 1) + Row(i, j - 1, n)
  }

  /** The first i planes of the grid */
  function Planes(n: nat, i: nat): (r: seq<Cell>)
    ensures |r| == i * (n * n)
  {
    if i == 0 then []
    else
      var front, last := Planes(n, i - 1), Rows(n, i - 1, n);
      ghost var area := n * n;
      assert |front| + |last| == i * area by {
        assert (i - 1) * area + area == i * area;
      }
      front + last
  }

  /** The whole grid */
  function Cells(n: nat): (r: seq<Cell>)
    ensures |r| == n * n * n
  {
    Planes(n, n)
  }

  /** One more row: the rows so far, then that row */
  lemma RowsGrow(n: nat, i: nat, j: nat, before: seq<Cell>)
    ensures before + Rows(n, i, j + 1) == (before + Rows(n, i, j)) + Row(i, j, n)
  {
    assert Rows(n, i, j + 1) == Rows(n, i, j) + Row(i, j, n);
  }

  /** One more plane: the planes so far, then that plane */
  lemma PlanesGrow(n: nat, i: nat)
    ensures Planes(n, i + 1) == Planes(n, i) + Rows(n, i, n)
  {
  }

  /** Two ascending runs, the second wholly after the first, make one ascending run. */
  lemma JoinAscending(front: seq<Cell>, last: seq<Cell>)
    requires Ascending(front) && Ascending(last)
    requires forall x, y :: x in front && y in last ==> Before(x, y)
    ensures Ascending(front + last)
  {
    var r := front + last;
    forall a, b | 0 <= a < b < |r| ensures Before(r[a], r[b]) {
      if b < |front| {
        assert r[a] == front[a] && r[b] == front[b];
      } else if a >= |front| {
        assert r[a] == last[a - |front|] && r[b] == last[b - |front|];
      } else {
        assert r[a] in front && r[b] in last;
      }
    }
  }

  /** Row (i, j) holds cells k = 0, 1, …, in that order. */
  lemma {:induction false} RowShape(i: nat, j: nat, k: nat)
    ensures forall t :: 0 <= t < k ==> Row(i, j, k)[t] == (i, j, t)
    ensures Ascending(Row(i, j, k))
    ensures forall c: Cell :: c in Row(i, j, k) <==> c.0 == i && c.1 == j && c.2 < k
  {
    if k > 0 {
      RowShape(i, j, k - 1);
      var r := Row(i, j, k);
      assert r == Row(i, j, k - 1) + [(i, j, k - 1)];
      forall c: Cell | c.0 == i && c.1 == j && c.2 < k ensures c in r {
        assert r[c.2] == c;
      }
    }
  }

  /** `s` lists, in order, the cells of plane i in rows below j */
  ghost predicate RowsOf(s: seq<Cell>, n: nat, i: nat, j: nat)
  {
    Ascending(s) && forall c: Cell :: c in s <==> c.0 == i && c.1 < j && c.2 < n
  }

  /** `s` lists, in order, the cells of the planes below i */
  ghost predicate PlanesOf(s: seq<Cell>, n: nat, i: nat)
  {
    Ascending(s) && forall c: Cell :: c in s <==> c.0 < i && c.1 < n && c.2 < n
  }

  /** The cells up to row j of plane i, then row j, are the cells up to row j + 1. */
  lemma JoinRows(front: seq<Cell>, last: seq<Cell>, n: nat, i: nat, j: nat)
    requires RowsOf(front, n, i, j)
    requires Ascending(last) && forall c: Cell :: c in last <==> c.0 == i && c.1 == j && c.2 < n
    ensures RowsOf(front + last, n, i, j + 1)
  {
    forall x, y | x in front && y in last ensures Before(x, y) {
      assert x.1 < j && y.1 == j && x.0 == y.0;
    }
    JoinAscending(front, last);
  }

  /** The first j rows of plane i hold the cells of that plane in rows below j, in order. */
  lemma {:induction false} RowsShape(n: nat, i: nat, j: nat)
    ensures RowsOf(Rows(n, i, j), n, i, j)
  {
    if j > 0 {
      var m: nat := j - 1;
      var front, last := Rows(n, i, m), Row(i, m, n);
      RowsShape(n, i, m);
      RowShape(i, m, n);
      JoinRows(front, last, n, i, m);
      assert Rows(n, i, j) == front + last;
    }
  }

  /** The cells of the planes below i, then plane i, are the cells of the planes below i + 1. */
  lemma JoinPlanes(front: seq<Cell>, last: seq<Cell>, n: nat, i: nat)
    requires PlanesOf(front, n, i) && RowsOf(last, n, i, n)
    ensures PlanesOf(front + last, n, i + 1)
  {
    forall x, y | x in front && y in last ensures Before(x, y) {
      assert x.0 < i && y.0 == i;
    }
    JoinAscending(front, last);
  }

  /** The first i planes hold the cells of planes below i, in order. */
  lemma {:induction false} PlanesShape(n: nat, i: nat)
    ensures PlanesOf(Planes(n, i), n, i)
  {
    if i > 0 {
      var m: nat := i - 1;
      var front, last := Planes(n, m), Rows(n, m, n);
      PlanesShape(n, m);
      RowsShape(n, m, n);
      JoinPlanes(front, last, n, m);
      PlanesGrow(n, m);
    }
  }

  /** The grid lists exactly the cells with every coordinate below n, each once and in the
      loops' order. */
  lemma CellsShape(n: nat)
    ensures Ascending(Cells(n))
    ensures forall c: Cell :: c in Cells(n) <==> c.0 < n && c.1 < n && c.2 < n
    ensures forall a, b :: 0 <= a < b < |Cells(n)| ==> Cells(n)[a] != Cells(n)[b]
  {
    PlanesShape(n, n);
  }
}
