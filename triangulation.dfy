/** The triangle index scheme shared by Chunk and TerrainChunk: a square grid
    of w x w cells over (w + 1) x (w + 1) vertices in row-major order, each
    cell split into two counter-clockwise triangles

        b --- d
        |  \  |
        c --- a

    written as the six indices a, b, c, a, d, b. */
module Triangulation {

  /** Row-major vertex index of grid corner (x, y), vw vertices per row. */
  function Corner(vw: int, x: int, y: int): int
  {
    y * vw + x
  }

  /** The six indices of cell (x, y): triangle (a, b, c), then (a, d, b). */
  function CellIndices(vw: int, x: int, y: int): (r: seq<int>)
    ensures |r| == 6
  {
    var c := Corner(vw, x, y);
    var a := c + 1;
    var b := c + vw;
    var d := a + vw;
    [a, b, c, a, d, b]
  }

  /** The indices of cells 0 .. n-1 of row y of a w-wide grid, in order. */
  function RowIndices(w: int, y: int, n: nat): (r: seq<int>)
    ensures |r| == 6 * n
  {
    if n == 0 then [] else RowIndices(w, y, n - 1) + CellIndices(w + 1, n - 1, y)
  }

  /** The indices of rows 0 .. h-1 of a w-wide grid: the whole index array
      when h == w. */
  function GridIndices(w: nat, h: nat): (r: seq<int>)
    ensures |r| == 6 * (h * w)
  {
    if h == 0 then [] else
      assert (h - 1) * w + w == h * w;
      GridIndices(w, h - 1) + RowIndices(w, h - 1, w)
  }

  /** Every entry of s names one of the first n vertices. */
  ghost predicate AllBelow(s: seq<int>, n: int)
  {
    forall k :: 0 <= k < |s| ==> 0 <= s[k] < n
  }

  // ---------------------------------------------------------------------------
  // Arithmetic helpers
  // ---------------------------------------------------------------------------

  /** Multiplication by a positive width is monotonic. */
  lemma MulMonotonic(a: int, b: int, n: int)
    requires a <= b && n >= 0
    ensures a * n <= b * n
  {
    assert b * n - a * n == (b - a) * n;
  }

  // ---------------------------------------------------------------------------
  // Properties of the scheme
  // ---------------------------------------------------------------------------

  /** Every index of a cell in row y names a vertex of rows y and y + 1. */
  lemma CellIndicesBelow(w: int, x: int, y: int)
    requires 0 <= x < w && 0 <= y
    ensures AllBelow(CellIndices(w + 1, x, y), (y + 2) * (w + 1))
  {
    var r := CellIndices(w + 1, x, y);
    assert (y + 2) * (w + 1) == y * (w + 1) + 2 * (w + 1);
    assert y * (w + 1) >= 0 by { MulMonotonic(0, y, w + 1); }
    forall k | 0 <= k < 6
      ensures 0 <= r[k] < (y + 2) * (w + 1)
    {
    }
  }

  lemma {:induction false} RowIndicesBelow(w: int, y: int, n: nat)
    requires 0 <= y && n <= w
    ensures AllBelow(RowIndices(w, y, n), (y + 2) * (w + 1))
  {
    if n > 0 {
      RowIndicesBelow(w, y, n - 1);
      CellIndicesBelow(w, n - 1, y);
      var p, c := RowIndices(w, y, n - 1), CellIndices(w + 1, n - 1, y);
      assert RowIndices(w, y, n) == p + c;
      forall k | 0 <= k < |p + c|
        ensures 0 <= (p + c)[k] < (y + 2) * (w + 1)
      {
        if k >= |p| {
          assert (p + c)[k] == c[k - |p|];
        }
      }
    }
  }

  lemma {:induction false} GridIndicesBelow(w: nat, h: nat)
    ensures AllBelow(GridIndices(w, h), (h + 1) * (w + 1))
  {
    if h > 0 {
      GridIndicesBelow(w, h - 1);
      RowIndicesBelow(w, h - 1, w);
      var p, q := GridIndices(w, h - 1), RowIndices(w, h - 1, w);
      assert GridIndices(w, h) == p + q;
      assert h * (w + 1) <= (h + 1) * (w + 1) by { MulMonotonic(h, h + 1, w + 1); }
      forall k | 0 <= k < |p + q|
        ensures 0 <= (p + q)[k] < (h + 1) * (w + 1)
      {
        if k >= |p| {
          assert (p + q)[k] == q[k - |p|];
        }
      }
    }
  }

  /** Every entry of the index array of a w x w grid names one of its
      (w + 1)^2 vertices, and the last cell's corner d is the last vertex,
      so the bound is tight. */
  lemma IndexArrayInBounds(w: nat)
    requires w > 0
    ensures AllBelow(GridIndices(w, w), (w + 1) * (w + 1))
    ensures GridIndices(w, w)[6 * (w * w) - 2] == (w + 1) * (w + 1) - 1
  {
    GridIndicesBelow(w, w);
    var g, r := GridIndices(w, w - 1), RowIndices(w, w - 1, w);
    assert GridIndices(w, w) == g + r;
    assert r == RowIndices(w, w - 1, w - 1) + CellIndices(w + 1, w - 1, w - 1);
    assert (w - 1) * (w + 1) == w * w - 1;
  }

  /** Cell x of a row occupies entries 6x .. 6x + 5 of the row. */
  lemma {:induction false} RowIndicesAt(w: int, y: int, n: nat, x: int, j: int)
    requires 0 <= x < n && 0 <= j < 6
    ensures RowIndices(w, y, n)[6 * x + j] == CellIndices(w + 1, x, y)[j]
  {
    var p := RowIndices(w, y, n - 1);
    assert RowIndices(w, y, n) == p + CellIndices(w + 1, n - 1, y);
    if x < n - 1 {
      RowIndicesAt(w, y, n - 1, x, j);
    }
  }

  /** Cell (x, y) occupies entries 6 (y w + x) .. 6 (y w + x) + 5 of the
      index array: the running index of the source's loop. */
  lemma {:induction false} GridIndicesAt(w: nat, h: nat, x: int, y: int, j: int)
    requires 0 <= x < w && 0 <= y < h && 0 <= j < 6
    ensures 0 <= 6 * (y * w) + 6 * x + j < 6 * (h * w)
    ensures GridIndices(w, h)[6 * (y * w) + 6 * x + j] == CellIndices(w + 1, x, y)[j]
  {
    var p := GridIndices(w, h - 1);
    assert GridIndices(w, h) == p + RowIndices(w, h - 1, w);
    if y < h - 1 {
      GridIndicesAt(w, h - 1, x, y, j);
    } else {
      RowIndicesAt(w, y, w, x, j);
    }
    MulMonotonic(0, y, w);
  }

  /** The two triangles of a cell share the edge a-b; together they use the
      four corners a, b, c, d, which are distinct. */
  lemma CellTriangles(vw: int, x: int, y: int)
    requires vw > 1
    ensures var r := CellIndices(vw, x, y);
      var c := Corner(vw, x, y);
      var a, b, d := c + 1, c + vw, c + 1 + vw;
      && r[0] == a && r[1] == b && r[2] == c
      && r[3] == a && r[4] == d && r[5] == b
      && (set j | 0 <= j < 6 :: r[j]) == {a, b, c, d}
      && |{a, b, c, d}| == 4
  {
    var r := CellIndices(vw, x, y);
    var c := Corner(vw, x, y);
    var a, b, d := c + 1, c + vw, c + 1 + vw;
    assert r[0] == a && r[1] == b && r[2] == c && r[4] == d;
    assert (set j | 0 <= j < 6 :: r[j]) == {a, b, c, d};
    assert {a, b, c, d} == {c} + {a} + {b} + {d};
  }

  /** The index loop: for each cell in row-major order, write a, b, c, a, d, b
      at the running index. Exactly the first 6 * w^2 entries are written. */
  method FillIndices(buf: array<int>, w: nat)
    requires 6 * (w * w) <= buf.Length
    modifies buf
    ensures buf[..6 * (w * w)] == GridIndices(w, w)
    ensures buf[6 * (w * w)..] == old(buf[6 * (w * w)..])
  {
    var index := 0;
    for y := 0 to w
      invariant index == 6 * (y * w)
      invariant buf[..index] == GridIndices(w, y)
      invariant buf[index..] == old(buf[index..])
    {
      RowStep(w, y);
      FillRow(buf, index, w, y);
      index := index + 6 * w;
    }
  }

  /** The inner index loop: the cells of row y, left to right, from
      buf[start] on. */
  method FillRow(buf: array<int>, start: nat, w: nat, y: int)
    requires start + 6 * w <= buf.Length
    modifies buf
    ensures buf[..start + 6 * w] == old(buf[..start]) + RowIndices(w, y, w)
    ensures buf[start + 6 * w..] == old(buf[start + 6 * w..])
  {
    var index := start;
    for x := 0 to w
      invariant index == start + 6 * x
      invariant buf[..index] == old(buf[..start]) + RowIndices(w, y, x)
      invariant buf[index..] == old(buf[index..])
    {
      ghost var done := buf[..index];
      WriteCell(buf, index, w + 1, x, y);
      index := index + 6;
      assert buf[..index] == done + CellIndices(w + 1, x, y);
    }
  }

  /** Finishing row y of the index loop advances the running index by one
      row of cells and stays within the array. */
  lemma RowStep(w: nat, y: nat)
    requires y < w
    ensures 6 * (y * w) + 6 * w == 6 * ((y + 1) * w) <= 6 * (w * w)
  {
    MulMonotonic(y + 1, w, w);
  }

  /** One iteration of the index loop: the six indices of cell (x, y) go to
      buf[index .. index + 6], and nothing else changes. */
  method WriteCell(buf: array<int>, index: nat, vw: int, x: int, y: int)
    requires index + 6 <= buf.Length
    modifies buf
    ensures buf[..index + 6] == old(buf[..index]) + CellIndices(vw, x, y)
    ensures buf[index + 6..] == old(buf[index + 6..])
  {
    var c := y * vw + x;
    var a := c + 1;
    var b := c + vw;
    var d := a + vw;
    buf[index] := a;
    buf[index + 1] := b;
    buf[index + 2] := c;
    buf[index + 3] := a;
    buf[index + 4] := d;
    buf[index + 5] := b;
  }
}
