/** TerrainChunk: the earlier single-grid terrain. A square grid of width x
    width cells over (width + 1)^2 vertices, each vertex six floats in the
    vertex buffer (position 0-2, normal 3-5), the a, b, c, a, d, b triangle
    indices, one normal and one area per triangle face, and the passes that
    change the vertex heights and normals in place.

    Floats are modelled as reals. cos, rand and glm's normalize are
    parameters. The unsigned sizes are modelled as naturals, without their
    32-bit wrap-around. */
module Terrain {
  import Triangulation
  import ChunkMesh

  type Vec3 = ChunkMesh.Vec3

  // ---------------------------------------------------------------------------
  // Vertex layout
  // ---------------------------------------------------------------------------

  /** Row-major number of vertex (x, z) in a grid vw vertices wide. */
  function VertexOf(vw: int, x: int, z: int): int
  {
    z * vw + x
  }

  /** Position of component off of vertex v in the vertex buffer: the
      stride is 6 (TerrainChunk.Sizes states it with vertices_stride). */
  function Pos(v: int, off: int): int
  {
    6 * v + off
  }

  /** Vertices of rows before y come before row y. */
  lemma RowBelow(vw: int, x: int, z: int, y: int)
    requires 0 <= x < vw && z < y
    ensures VertexOf(vw, x, z) < y * vw
  {
    Triangulation.MulMonotonic(z + 1, y, vw);
  }

  /** Vertices of rows after y come after row y. */
  lemma RowAbove(vw: int, x: int, z: int, y: int)
    requires 0 <= x < vw && y < z
    ensures y * vw + vw <= VertexOf(vw, x, z)
  {
    Triangulation.MulMonotonic(y + 1, z, vw);
    NextRow(vw, y);
  }

  /** Row y + 1 starts one row width after row y. */
  lemma NextRow(vw: int, y: int)
    ensures (y + 1) * vw == y * vw + vw
  {
  }

  /** Row y of a vw x vw grid lies in the grid. */
  lemma RowFits(vw: int, y: int)
    requires 0 <= y < vw
    ensures 0 <= y * vw && y * vw + vw <= vw * vw
  {
    Triangulation.MulMonotonic(0, y, vw);
    Triangulation.MulMonotonic(y + 1, vw, vw);
    NextRow(vw, y);
  }

  /** Distinct grid coordinates are distinct vertices. */
  lemma VertexOfInjective(vw: int, x: int, z: int, x': int, z': int)
    requires 0 <= x < vw && 0 <= x' < vw
    requires VertexOf(vw, x, z) == VertexOf(vw, x', z')
    ensures x == x' && z == z'
  {
    if z < z' {
      RowAbove(vw, x', z', z);
    } else if z' < z {
      RowAbove(vw, x, z, z');
    }
  }

  /** A grid vertex lies in the vertex buffer of a vw x vw grid. */
  lemma VertexInGrid(vw: int, x: int, z: int)
    requires 0 <= x < vw && 0 <= z < vw
    ensures 0 <= VertexOf(vw, x, z) < vw * vw
  {
    RowBelow(vw, x, z, vw);
    Triangulation.MulMonotonic(0, z, vw);
  }

  // ---------------------------------------------------------------------------
  // The vertex grid the constructor builds
  // ---------------------------------------------------------------------------

  /** The x and z coordinate of the first vertex: 0 - width / 2. */
  function Corner0(w: nat): real
  {
    0.0 - w as real / 2.0
  }

  /** The six values of one vertex as the constructor writes them: its
      position and the default normal (0, 1, 0). */
  function GridVertex(px: real, py: real, pz: real): seq<real>
  {
    [px, py, pz, 0.0, 1.0, 0.0]
  }

  /** The first n vertices of row z of the initial grid. */
  function InitRow(w: nat, ylvl: real, z: int, n: nat): (r: seq<real>)
    ensures |r| == 6 * n
  {
    if n == 0 then []
    else InitRow(w, ylvl, z, n - 1)
         + GridVertex(Corner0(w) + (n - 1) as real, ylvl, Corner0(w) + z as real)
  }

  /** Rows 0 .. h-1 of the initial grid: the whole vertex buffer when
      h == w + 1. */
  function InitGrid(w: nat, ylvl: real, h: nat): (r: seq<real>)
    ensures |r| == 6 * (h * (w + 1))
  {
    if h == 0 then []
    else
      assert (h - 1) * (w + 1) + (w + 1) == h * (w + 1);
      InitGrid(w, ylvl, h - 1) + InitRow(w, ylvl, h - 1, w + 1)
  }

  lemma {:induction false} InitRowAt(w: nat, ylvl: real, z: int, n: nat, x: int, off: int)
    requires 0 <= x < n && 0 <= off < 6
    ensures InitRow(w, ylvl, z, n)[6 * x + off]
         == GridVertex(Corner0(w) + x as real, ylvl, Corner0(w) + z as real)[off]
  {
    var p := InitRow(w, ylvl, z, n - 1);
    assert InitRow(w, ylvl, z, n)
        == p + GridVertex(Corner0(w) + (n - 1) as real, ylvl, Corner0(w) + z as real);
    if x < n - 1 {
      InitRowAt(w, ylvl, z, n - 1, x, off);
    }
  }

  lemma {:induction false} InitGridAt(w: nat, ylvl: real, h: nat, z: int, i: int)
    requires 0 <= z < h && 0 <= i < 6 * (w + 1)
    ensures 0 <= 6 * (z * (w + 1)) + i < 6 * (h * (w + 1))
    ensures InitGrid(w, ylvl, h)[6 * (z * (w + 1)) + i] == InitRow(w, ylvl, z, w + 1)[i]
  {
    var p := InitGrid(w, ylvl, h - 1);
    NextRow(w + 1, h - 1);
    assert InitGrid(w, ylvl, h) == p + InitRow(w, ylvl, h - 1, w + 1);
    if z < h - 1 {
      InitGridAt(w, ylvl, h - 1, z, i);
    } else {
      Triangulation.MulMonotonic(0, z, w + 1);
    }
  }

  /** Component off of vertex (x, z) of the initial grid. */
  lemma InitVertexAt(w: nat, ylvl: real, x: int, z: int, off: int)
    requires 0 <= x <= w && 0 <= z <= w && 0 <= off < 6
    ensures 0 <= Pos(VertexOf(w + 1, x, z), off) < |InitGrid(w, ylvl, w + 1)|
    ensures InitGrid(w, ylvl, w + 1)[Pos(VertexOf(w + 1, x, z), off)]
         == GridVertex(Corner0(w) + x as real, ylvl, Corner0(w) + z as real)[off]
  {
    assert Pos(VertexOf(w + 1, x, z), off) == 6 * (z * (w + 1)) + (6 * x + off);
    InitGridAt(w, ylvl, w + 1, z, 6 * x + off);
    InitRowAt(w, ylvl, z, w + 1, x, off);
  }

  /** After construction vertex (x, z) sits at (-width/2 + x, ylvl,
      -width/2 + z) with normal (0, 1, 0), and the grid is centred on the
      origin: vertex (width - x, width - z) mirrors vertex (x, z). */
  lemma InitialVertex(w: nat, ylvl: real, x: int, z: int)
    requires 0 <= x <= w && 0 <= z <= w
    ensures var vs := InitGrid(w, ylvl, w + 1);
      var v := VertexOf(w + 1, x, z);
      0 <= Pos(v, 0) && Pos(v, 5) < |vs|
      && vs[Pos(v, 0)] == Corner0(w) + x as real && vs[Pos(v, 1)] == ylvl
      && vs[Pos(v, 2)] == Corner0(w) + z as real
      && vs[Pos(v, 3)] == 0.0 && vs[Pos(v, 4)] == 1.0 && vs[Pos(v, 5)] == 0.0
    ensures Corner0(w) + (w - x) as real == -(Corner0(w) + x as real)
    ensures Corner0(w) + (w - z) as real == -(Corner0(w) + z as real)
  {
    InitVertexAt(w, ylvl, x, z, 0);
    InitVertexAt(w, ylvl, x, z, 1);
    InitVertexAt(w, ylvl, x, z, 2);
    InitVertexAt(w, ylvl, x, z, 3);
    InitVertexAt(w, ylvl, x, z, 4);
    InitVertexAt(w, ylvl, x, z, 5);
  }


  // ---------------------------------------------------------------------------
  // The in-place passes over the vertex buffer
  // ---------------------------------------------------------------------------

  /** Height (y component) of vertex v. */
  function HeightOf(vs: seq<real>, v: int): real
    requires 0 <= Pos(v, 1) < |vs|
  {
    vs[Pos(v, 1)]
  }

  /** Normal of vertex v. */
  function NormalOf(vs: seq<real>, v: int): Vec3
    requires 0 <= Pos(v, 3) && Pos(v, 5) < |vs|
  {
    ChunkMesh.Vec3(vs[Pos(v, 3)], vs[Pos(v, 4)], vs[Pos(v, 5)])
  }

  /** Only the heights of vertices [lo, hi) differ between vs0 and vs1. */
  ghost predicate OnlyHeights(vs0: seq<real>, vs1: seq<real>, nv: int, lo: int, hi: int)
    requires |vs0| == |vs1| == 6 * nv
  {
    forall v, off :: 0 <= v < nv && 0 <= off < 6 && !(off == 1 && lo <= v < hi) ==>
      vs1[Pos(v, off)] == vs0[Pos(v, off)]
  }

  /** Only the normals of vertices [lo, hi) differ between vs0 and vs1. */
  ghost predicate OnlyNormals(vs0: seq<real>, vs1: seq<real>, nv: int, lo: int, hi: int)
    requires |vs0| == |vs1| == 6 * nv
  {
    forall v, off :: 0 <= v < nv && 0 <= off < 6 && !(3 <= off < 6 && lo <= v < hi) ==>
      vs1[Pos(v, off)] == vs0[Pos(v, off)]
  }

  /** Positions and heights are the same in vs0 and vs1. */
  ghost predicate SameGeometry(vs0: seq<real>, vs1: seq<real>, nv: int)
    requires |vs0| == |vs1| == 6 * nv
  {
    forall v, off :: 0 <= v < nv && 0 <= off < 3 ==> vs1[Pos(v, off)] == vs0[Pos(v, off)]
  }

  lemma OnlyHeightsCompose(vs0: seq<real>, vs1: seq<real>, vs2: seq<real>, nv: int, lo: int, mid: int, hi: int)
    requires |vs0| == |vs1| == |vs2| == 6 * nv && lo <= mid <= hi
    requires OnlyHeights(vs0, vs1, nv, lo, mid) && OnlyHeights(vs1, vs2, nv, mid, hi)
    ensures OnlyHeights(vs0, vs2, nv, lo, hi)
  {
  }

  /** Writing the height of vertex v changes only that height. */
  lemma HeightWritten(vs1: seq<real>, vs2: seq<real>, nv: int, v: int)
    requires |vs1| == |vs2| == 6 * nv && 0 <= v < nv
    requires vs2 == vs1[Pos(v, 1) := vs2[Pos(v, 1)]]
    ensures OnlyHeights(vs1, vs2, nv, v, v + 1)
  {
    forall v', off | 0 <= v' < nv && 0 <= off < 6 && !(off == 1 && v <= v' < v + 1)
      ensures vs2[Pos(v', off)] == vs1[Pos(v', off)]
    {
      assert Pos(v', off) != Pos(v, 1);
    }
  }

  /** The height rand() % 101 - 50, over 130, that the random height map
      gives a vertex for the draw r of rand(); rand() is never negative. It
      lies within 50/130 of the plane. */
  function RandomHeight(r: nat): (h: real)
    ensures -50.0 / 130.0 <= h <= 50.0 / 130.0
  {
    ((r % 101) - 50) as real / 130.0
  }

  /** The smoothed-normal approximation of vertex v in a grid vw vertices
      wide: from the heights of its left, right, down and up neighbours,
      normalize(l - r, 2, d - u). */
  function ApproxNormal(vs: seq<real>, vw: int, v: int, normalize: Vec3 -> Vec3): Vec3
    requires 1 <= vw <= v && Pos(v + vw, 1) < |vs|
  {
    var l := HeightOf(vs, v - 1);
    var r := HeightOf(vs, v + 1);
    var d := HeightOf(vs, v + vw);
    var u := HeightOf(vs, v - vw);
    normalize(ChunkMesh.Vec3(l - r, 2.0, d - u))
  }

  /** The approximation reads only heights, so computing it in place while
      writing normals gives the normals of the buffer before the pass. */
  lemma ApproxNormalReadsHeights(vs0: seq<real>, vs1: seq<real>, nv: int, vw: int, v: int,
                                 normalize: Vec3 -> Vec3)
    requires |vs0| == |vs1| == 6 * nv && SameGeometry(vs0, vs1, nv)
    requires 1 <= vw <= v && v + vw < nv
    ensures ApproxNormal(vs0, vw, v, normalize) == ApproxNormal(vs1, vw, v, normalize)
  {
    assert vs0[Pos(v - 1, 1)] == vs1[Pos(v - 1, 1)] && vs0[Pos(v + 1, 1)] == vs1[Pos(v + 1, 1)];
    assert vs0[Pos(v + vw, 1)] == vs1[Pos(v + vw, 1)] && vs0[Pos(v - vw, 1)] == vs1[Pos(v - vw, 1)];
  }

  /** Where the four neighbours stand level, the approximated normal is
      normalize(0, 2, 0): straight up. */
  lemma ApproxNormalLevel(vs: seq<real>, vw: int, v: int, c: real, normalize: Vec3 -> Vec3)
    requires 1 <= vw <= v && Pos(v + vw, 1) < |vs|
    requires HeightOf(vs, v - 1) == c && HeightOf(vs, v + 1) == c
    requires HeightOf(vs, v + vw) == c && HeightOf(vs, v - vw) == c
    ensures ApproxNormal(vs, vw, v, normalize) == normalize(ChunkMesh.Vec3(0.0, 2.0, 0.0))
  {
  }

  /** An inner vertex (x, z), 1 <= x, z < vw - 1, has its left, right, down
      and up neighbours (x - 1, z), (x + 1, z), (x, z + 1) and (x, z - 1) in
      the grid; their heights lie at index - 5, index + 7 and
      index +- 6 vw + 1 of the buffer, for index = 6 (z vw + x). */
  lemma InnerNeighbours(vw: int, x: int, z: int)
    requires 1 <= x < vw - 1 && 1 <= z < vw - 1
    ensures var v := VertexOf(vw, x, z);
      && v - 1 == VertexOf(vw, x - 1, z) && v + 1 == VertexOf(vw, x + 1, z)
      && v + vw == VertexOf(vw, x, z + 1) && v - vw == VertexOf(vw, x, z - 1)
      && 1 <= vw <= v && v + vw < vw * vw
      && Pos(v - 1, 1) == Pos(v, 0) - 5 && Pos(v + 1, 1) == Pos(v, 0) + 7
      && Pos(v + vw, 1) == Pos(v, 0) + 6 * vw + 1 && Pos(v - vw, 1) == Pos(v, 0) - 6 * vw + 1
  {
    VertexInGrid(vw, x, z + 1);
    NextRow(vw, z);
    Triangulation.MulMonotonic(1, z, vw);
  }

  /** Vertex (x, z) has risen by wave(x) from vs0 to vs. */
  ghost predicate RaisedAt(vs: seq<real>, vs0: seq<real>, vw: int, x: int, z: int, wave: int -> real)
    requires |vs| == |vs0| == 6 * (vw * vw) && 0 <= x < vw && 0 <= z < vw
  {
    VertexInGrid(vw, x, z);
    HeightOf(vs, VertexOf(vw, x, z)) == HeightOf(vs0, VertexOf(vw, x, z)) + wave(x)
  }

  /** Rows [0, y) have risen by wave(x) from vs0 to vs. */
  ghost predicate RaisedRows(vs: seq<real>, vs0: seq<real>, vw: int, y: int, wave: int -> real)
    requires |vs| == |vs0| == 6 * (vw * vw)
  {
    forall z, x :: 0 <= z < y && z < vw && 0 <= x < vw ==> RaisedAt(vs, vs0, vw, x, z, wave)
  }

  /** Raising row y, and only its heights, extends the raised rows. */
  lemma RaisedRowsExtend(vs1: seq<real>, vs2: seq<real>, vs0: seq<real>, vw: int, y: int, wave: int -> real)
    requires |vs1| == |vs2| == |vs0| == 6 * (vw * vw) && 0 <= y < vw
    requires RaisedRows(vs1, vs0, vw, y, wave) && OnlyHeights(vs0, vs1, vw * vw, 0, y * vw)
    requires OnlyHeights(vs1, vs2, vw * vw, y * vw, y * vw + vw)
    requires forall x :: 0 <= x < vw ==> RaisedAt(vs2, vs1, vw, x, y, wave)
    ensures RaisedRows(vs2, vs0, vw, y + 1, wave)
  {
    forall z, x | 0 <= z <= y && 0 <= x < vw
      ensures RaisedAt(vs2, vs0, vw, x, z, wave)
    {
      VertexInGrid(vw, x, z);
      var v := VertexOf(vw, x, z);
      if z < y {
        RowBelow(vw, x, z, y);
        assert RaisedAt(vs1, vs0, vw, x, z, wave);
        assert vs2[Pos(v, 1)] == vs1[Pos(v, 1)];
      } else {
        assert RaisedAt(vs2, vs1, vw, x, z, wave);
        assert vs1[Pos(v, 1)] == vs0[Pos(v, 1)];
      }
    }
  }

  /** Inner vertex (x, z) holds in vs the approximated normal of vs0. */
  ghost predicate SmoothedAt(vs: seq<real>, vs0: seq<real>, vw: int, x: int, z: int, normalize: Vec3 -> Vec3)
    requires |vs| == |vs0| == 6 * (vw * vw) && 1 <= x < vw - 1 && 1 <= z < vw - 1
  {
    InnerNeighbours(vw, x, z);
    NormalOf(vs, VertexOf(vw, x, z)) == ApproxNormal(vs0, vw, VertexOf(vw, x, z), normalize)
  }

  /** Vertex (x, z) has the same normal in vs as in vs0. */
  ghost predicate NormalKeptAt(vs: seq<real>, vs0: seq<real>, vw: int, x: int, z: int)
    requires |vs| == |vs0| == 6 * (vw * vw) && 0 <= x < vw && 0 <= z < vw
  {
    VertexInGrid(vw, x, z);
    NormalOf(vs, VertexOf(vw, x, z)) == NormalOf(vs0, VertexOf(vw, x, z))
  }

  /** The inner vertices of rows [1, z) are smoothed. */
  ghost predicate SmoothedRows(vs: seq<real>, vs0: seq<real>, vw: int, z: int, normalize: Vec3 -> Vec3)
    requires |vs| == |vs0| == 6 * (vw * vw)
  {
    forall z', x :: 1 <= z' < z && z' < vw - 1 && 1 <= x < vw - 1 ==> SmoothedAt(vs, vs0, vw, x, z', normalize)
  }

  /** Every other vertex, border or row z on, keeps its normal. */
  ghost predicate UnsmoothedKept(vs: seq<real>, vs0: seq<real>, vw: int, z: int)
    requires |vs| == |vs0| == 6 * (vw * vw)
  {
    forall z', x :: 0 <= z' < vw && 0 <= x < vw && !(1 <= z' < z && 1 <= x < vw - 1) ==>
      NormalKeptAt(vs, vs0, vw, x, z')
  }

  /** Changing only the normals of the inner vertices of row z keeps every
      other normal. */
  lemma NormalKeptOffRow(vs1: seq<real>, vs2: seq<real>, vw: int, z: int, x: int, z': int)
    requires |vs1| == |vs2| == 6 * (vw * vw) && 1 <= z < vw - 1
    requires 0 <= z' < vw && 0 <= x < vw && !(z' == z && 1 <= x < vw - 1)
    requires OnlyNormals(vs1, vs2, vw * vw, VertexOf(vw, 1, z), VertexOf(vw, vw - 1, z))
    ensures NormalKeptAt(vs2, vs1, vw, x, z')
  {
    VertexInGrid(vw, x, z');
    var v := VertexOf(vw, x, z');
    if z' < z {
      RowBelow(vw, x, z', z);
    } else if z < z' {
      RowAbove(vw, x, z', z);
    }
    assert vs2[Pos(v, 3)] == vs1[Pos(v, 3)] && vs2[Pos(v, 4)] == vs1[Pos(v, 4)] && vs2[Pos(v, 5)] == vs1[Pos(v, 5)];
  }

  /** Smoothing the inner vertices of row z, and changing only their
      normals, extends the smoothed rows. */
  lemma SmoothedRowsExtend(vs1: seq<real>, vs2: seq<real>, vs0: seq<real>, vw: int, z: int, normalize: Vec3 -> Vec3)
    requires |vs1| == |vs2| == |vs0| == 6 * (vw * vw) && 1 <= z < vw - 1
    requires SmoothedRows(vs1, vs0, vw, z, normalize) && UnsmoothedKept(vs1, vs0, vw, z)
    requires OnlyNormals(vs1, vs2, vw * vw, VertexOf(vw, 1, z), VertexOf(vw, vw - 1, z))
    requires forall x :: 1 <= x < vw - 1 ==> SmoothedAt(vs2, vs0, vw, x, z, normalize)
    ensures SmoothedRows(vs2, vs0, vw, z + 1, normalize) && UnsmoothedKept(vs2, vs0, vw, z + 1)
  {
    forall z', x | 1 <= z' < z && 1 <= x < vw - 1
      ensures SmoothedAt(vs2, vs0, vw, x, z', normalize)
    {
      NormalKeptOffRow(vs1, vs2, vw, z, x, z');
      assert SmoothedAt(vs1, vs0, vw, x, z', normalize);
    }
    forall z', x | 0 <= z' < vw && 0 <= x < vw && !(1 <= z' < z + 1 && 1 <= x < vw - 1)
      ensures NormalKeptAt(vs2, vs0, vw, x, z')
    {
      NormalKeptOffRow(vs1, vs2, vw, z, x, z');
      assert NormalKeptAt(vs1, vs0, vw, x, z');
    }
  }

  /** Only the normals of vertices [lo, mid) and then of [mid, hi) change. */
  lemma OnlyNormalsCompose(vs0: seq<real>, vs1: seq<real>, vs2: seq<real>, nv: int, lo: int, mid: int, hi: int)
    requires |vs0| == |vs1| == |vs2| == 6 * nv && lo <= mid <= hi
    requires OnlyNormals(vs0, vs1, nv, lo, mid) && OnlyNormals(vs1, vs2, nv, mid, hi)
    ensures OnlyNormals(vs0, vs2, nv, lo, hi)
  {
  }

  /** Writing the normal of inner vertex (x, z) of row z keeps the vertices
      smoothed before it in the row. */
  lemma RowSmoothedExtend(vs1: seq<real>, vs2: seq<real>, vs0: seq<real>, vw: int, x: int, z: int, normalize: Vec3 -> Vec3)
    requires |vs1| == |vs2| == |vs0| == 6 * (vw * vw) && 1 <= x < vw - 1 && 1 <= z < vw - 1
    requires forall x' :: 1 <= x' < x ==> SmoothedAt(vs1, vs0, vw, x', z, normalize)
    requires OnlyNormals(vs1, vs2, vw * vw, VertexOf(vw, x, z), VertexOf(vw, x, z) + 1)
    requires SmoothedAt(vs2, vs0, vw, x, z, normalize)
    ensures forall x' :: 1 <= x' < x + 1 ==> SmoothedAt(vs2, vs0, vw, x', z, normalize)
  {
    forall x' | 1 <= x' < x
      ensures SmoothedAt(vs2, vs0, vw, x', z, normalize)
    {
      assert SmoothedAt(vs1, vs0, vw, x', z, normalize);
      InnerNeighbours(vw, x', z);
      NormalUnchanged(vs1, vs2, vw * vw, VertexOf(vw, x, z), VertexOf(vw, x, z) + 1, VertexOf(vw, x', z));
    }
  }

  /** A vertex outside [lo, hi) keeps its normal. */
  lemma NormalUnchanged(vs1: seq<real>, vs2: seq<real>, nv: int, lo: int, hi: int, v: int)
    requires |vs1| == |vs2| == 6 * nv && OnlyNormals(vs1, vs2, nv, lo, hi)
    requires 0 <= v < nv && !(lo <= v < hi)
    ensures NormalOf(vs2, v) == NormalOf(vs1, v)
  {
    assert vs2[Pos(v, 3)] == vs1[Pos(v, 3)] && vs2[Pos(v, 4)] == vs1[Pos(v, 4)] && vs2[Pos(v, 5)] == vs1[Pos(v, 5)];
  }

  // ---------------------------------------------------------------------------
  // The index buffer size
  // ---------------------------------------------------------------------------

  /** num_indices as the constructor computes it: num_faces * vertices_stride. */
  function NumIndicesAsWritten(w: nat): nat
  {
    2 * (w * w) * 6
  }

  /** The index loop writes 6 w^2 entries, half of the buffer: for w > 0 the
      upper half is allocated, never written, and uploaded with the rest. */
  lemma AsWrittenIndexBufferHalfUnwritten(w: nat)
    requires w > 0
    ensures |Triangulation.GridIndices(w, w)| < NumIndicesAsWritten(w)
    ensures NumIndicesAsWritten(w) == 2 * |Triangulation.GridIndices(w, w)|
  {
  }

  /** The grid of main: 64 x 64 cells, 49152 entries allocated, 24576
      written. */
  lemma AsWrittenMainGrid()
    ensures NumIndicesAsWritten(64) == 49152 && |Triangulation.GridIndices(64, 64)| == 24576
  {
  }

  /** num_indices as intended: num_faces * 3, three indices per triangle
      (the size the later Chunk uses as indexElements). */
  function IntendedNumIndices(w: nat): nat
  {
    2 * (w * w) * 3
  }

  /** The index loop fills an index buffer of the intended size exactly,
      with every entry naming a vertex of the grid. */
  lemma IntendedIndexBufferFilled(w: nat)
    ensures |Triangulation.GridIndices(w, w)| == IntendedNumIndices(w)
    ensures Triangulation.AllBelow(Triangulation.GridIndices(w, w), (w + 1) * (w + 1))
    ensures ChunkMesh.INDEX_ELEMENTS == IntendedNumIndices(ChunkMesh.DIM)
  {
    Triangulation.GridIndicesBelow(w, w);
  }


  /** Component i of the initial face-normal buffer: every face's normal
      is (0, 1, 0). */
  function FaceNormalComponent(i: int): real
  {
    if i % 3 == 1 then 1.0 else 0.0
  }

  /** The three components of face f's normal are 0, 1 and 0. */
  lemma FaceNormalTriple(f: int)
    ensures FaceNormalComponent(3 * f) == 0.0 && FaceNormalComponent(3 * f + 1) == 1.0
    ensures FaceNormalComponent(3 * f + 2) == 0.0
  {
  }

  // ---------------------------------------------------------------------------
  // The terrain chunk object
  // ---------------------------------------------------------------------------

  class TerrainChunk {
    const width: nat
    const vWidth: nat
    const verticesStride: nat
    const numVertices: nat
    const numElements: nat
    const numFaces: nat
    const numFaceElements: nat
    const numIndices: nat
    /** Sizes of the vertex and index buffers in bytes (4-byte floats and ints). */
    const verticesSize: nat
    const indicesSize: nat
    /** y level of the initial plane. */
    const ylvl: real

    const vertices: array<real>
    const indices: array<int>
    const faceNormals: array<real>
    const faceAreas: array<real>

    /** The derived sizes and the buffers they size. */
    ghost predicate Valid()
    {
      && vWidth == width + 1 && verticesStride == 6
      && numVertices == vWidth * vWidth && numElements == 6 * numVertices
      && numFaces == 2 * (width * width) && numFaceElements == 3 * numFaces
      && numIndices == NumIndicesAsWritten(width)
      && verticesSize == 4 * numElements && indicesSize == 4 * numIndices
      && vertices.Length == numElements && indices.Length == numIndices
      && faceNormals.Length == numFaceElements && faceAreas.Length == numFaces
      && vertices != faceNormals && vertices != faceAreas && faceNormals != faceAreas
    }

    /** The sizes are the constructor's formulas over vertices_stride:
        num_indices is num_faces * vertices_stride, twice the three indices
        per face. */
    lemma Sizes()
      requires Valid()
      ensures numElements == numVertices * verticesStride
      ensures numIndices == numFaces * verticesStride && numIndices == 2 * (3 * numFaces)
      ensures verticesSize == 4 * (numVertices * verticesStride)
    {
    }

    /** indexOf(x, z): where the six values of vertex (x, z) begin. */
    function IndexOf(x: int, z: int): int
    {
      6 * (z * vWidth + x)
    }

    /** indexOf is the stride times the vertex number; it is a multiple of the
        stride, the six values it starts lie in the buffer, and distinct
        vertices start at distinct indices. */
    lemma IndexOfProperties(x: int, z: int, x': int, z': int)
      requires Valid() && 0 <= x <= width && 0 <= z <= width && 0 <= x' <= width && 0 <= z' <= width
      ensures IndexOf(x, z) == verticesStride * VertexOf(vWidth, x, z) == Pos(VertexOf(vWidth, x, z), 0)
      ensures IndexOf(x, z) % verticesStride == 0
      ensures 0 <= IndexOf(x, z) && IndexOf(x, z) + verticesStride <= numElements
      ensures IndexOf(x, z) == IndexOf(x', z') <==> x == x' && z == z'
    {
      VertexInGrid(vWidth, x, z);
      if IndexOf(x, z) == IndexOf(x', z') {
        VertexOfInjective(vWidth, x, z, x', z');
      }
    }

    /** The constructor: sizes from gridsize, then the vertex grid, the
        triangle indices (into the first 6 width^2 of the num_indices
        entries), the face normals (0, 1, 0) and the face areas 0.5. */
    constructor(gridsize: nat := 16, initialYLevel: real := 0.0)
      ensures width == gridsize && ylvl == initialYLevel && Valid()
      ensures fresh(vertices) && fresh(indices) && fresh(faceNormals) && fresh(faceAreas)
      ensures vertices[..] == InitGrid(width, ylvl, vWidth)
      ensures indices[..6 * (width * width)] == Triangulation.GridIndices(width, width)
      ensures forall i :: 0 <= i < numFaceElements ==> faceNormals[i] == FaceNormalComponent(i)
      ensures forall i :: 0 <= i < numFaces ==> faceAreas[i] == 0.5
    {
      width := gridsize;
      vWidth := gridsize + 1;
      verticesStride := 6;
      numVertices := (gridsize + 1) * (gridsize + 1);
      numElements := 6 * ((gridsize + 1) * (gridsize + 1));
      numFaces := 2 * (gridsize * gridsize);
      numFaceElements := 3 * (2 * (gridsize * gridsize));
      numIndices := NumIndicesAsWritten(gridsize);
      verticesSize := 4 * (6 * ((gridsize + 1) * (gridsize + 1)));
      indicesSize := 4 * NumIndicesAsWritten(gridsize);
      ylvl := initialYLevel;
      vertices := new real[6 * ((gridsize + 1) * (gridsize + 1))];
      indices := new int[NumIndicesAsWritten(gridsize)];
      faceNormals := new real[3 * (2 * (gridsize * gridsize))];
      faceAreas := new real[2 * (gridsize * gridsize)];
      new;
      FillVertexGrid();
      Triangulation.FillIndices(indices, width);
      FillFaceNormals();
      FillFaceAreas();
    }

    /** The vertex loop of the constructor: row by row from (vx0, vx0),
        vx0 = 0 - width / 2, vertex (x, z) gets position (vx0 + x, ylvl,
        vx0 + z) and normal (0, 1, 0). */
    method FillVertexGrid()
      requires Valid()
      modifies vertices
      ensures vertices[..] == InitGrid(width, ylvl, vWidth)
    {
      var vx0 := 0.0 - width as real / 2.0;
      var vz := vx0;
      var index := 0;
      for y := 0 to vWidth
        invariant index == 6 * (y * vWidth) && vz == vx0 + y as real
        invariant vertices[..index] == InitGrid(width, ylvl, y)
      {
        RowFits(vWidth, y);
        FillVertexRow(index, y, vx0, vz);
        NextRow(vWidth, y);
        index := index + 6 * vWidth;
        vz := vz + 1.0;
      }
      assert vertices[..] == vertices[..index];
    }

    /** The inner vertex loop: the vertices of row y from vertices[start] on,
        x running from vx0. */
    method FillVertexRow(start: nat, y: int, vx0: real, vz: real)
      requires Valid() && start + 6 * vWidth <= vertices.Length
      requires vx0 == Corner0(width) && vz == Corner0(width) + y as real
      modifies vertices
      ensures vertices[..start + 6 * vWidth] == old(vertices[..start]) + InitRow(width, ylvl, y, vWidth)
    {
      var vx := vx0;
      var index := start;
      for x := 0 to vWidth
        invariant index == start + 6 * x && vx == vx0 + x as real
        invariant vertices[..index] == old(vertices[..start]) + InitRow(width, ylvl, y, x)
      {
        WriteGridVertex(index, vx, vz);
        index := index + 6;
        vx := vx + 1.0;
      }
    }

    /** One iteration of the vertex loop: the six values of one vertex. */
    method WriteGridVertex(index: nat, vx: real, vz: real)
      requires Valid() && index + 6 <= vertices.Length
      modifies vertices
      ensures vertices[..index + 6] == old(vertices[..index]) + GridVertex(vx, ylvl, vz)
    {
      vertices[index] := vx;
      vertices[index + 1] := ylvl;
      vertices[index + 2] := vz;
      vertices[index + 3] := 0.0;
      vertices[index + 4] := 1.0;
      vertices[index + 5] := 0.0;
    }

    /** The face-normal loop: (0, 1, 0) per face. The loop tests index <
        num_face_elements only before each triple; it stays in bounds
        because num_face_elements is a multiple of 3. */
    method FillFaceNormals()
      requires Valid()
      modifies faceNormals
      ensures forall i :: 0 <= i < numFaceElements ==> faceNormals[i] == FaceNormalComponent(i)
    {
      var index := 0;
      ghost var f := 0;
      while index < numFaceElements
        invariant index == 3 * f && 0 <= f <= numFaces
        invariant forall i :: 0 <= i < index ==> faceNormals[i] == FaceNormalComponent(i)
      {
        FaceNormalTriple(f);
        faceNormals[index] := 0.0;
        faceNormals[index + 1] := 1.0;
        faceNormals[index + 2] := 0.0;
        index := index + 3;
        f := f + 1;
      }
    }

    /** The face-area loop: 0.5 per face. */
    method FillFaceAreas()
      requires Valid()
      modifies faceAreas
      ensures forall i :: 0 <= i < numFaces ==> faceAreas[i] == 0.5
    {
      var index := 0;
      while index < numFaces
        invariant 0 <= index <= numFaces
        invariant forall i :: 0 <= i < index ==> faceAreas[i] == 0.5
      {
        faceAreas[index] := 0.5;
        index := index + 1;
      }
    }

    /** applySinusoidalHeightmap: every vertex (x, z) rises by wave(x), the
        cos(0.7 x) of the source; nothing but heights changes. */
    method ApplySinusoidalHeightmap(wave: int -> real)
      requires Valid()
      modifies vertices
      ensures RaisedRows(vertices[..], old(vertices[..]), vWidth, vWidth, wave)
      ensures OnlyHeights(old(vertices[..]), vertices[..], numVertices, 0, numVertices)
    {
      var index := 1;
      for y := 0 to vWidth
        invariant index == Pos(y * vWidth, 1)
        invariant RaisedRows(vertices[..], old(vertices[..]), vWidth, y, wave)
        invariant OnlyHeights(old(vertices[..]), vertices[..], numVertices, 0, y * vWidth)
      {
        ghost var vs1 := vertices[..];
        RowFits(vWidth, y);
        index := SinusoidalRow(y, index, wave);
        OnlyHeightsCompose(old(vertices[..]), vs1, vertices[..], numVertices, 0, y * vWidth, y * vWidth + vWidth);
        RaisedRowsExtend(vs1, vertices[..], old(vertices[..]), vWidth, y, wave);
        NextRow(vWidth, y);
      }
    }

    /** The inner loop of applySinusoidalHeightmap over row y, from
        vertices[index] on; returns where the next row's heights begin. */
    method SinusoidalRow(y: int, index: int, wave: int -> real) returns (next: int)
      requires Valid() && 0 <= y < vWidth && index == Pos(y * vWidth, 1)
      requires 0 <= y * vWidth && y * vWidth + vWidth <= numVertices
      modifies vertices
      ensures next == index + 6 * vWidth
      ensures forall x :: 0 <= x < vWidth ==> RaisedAt(vertices[..], old(vertices[..]), vWidth, x, y, wave)
      ensures OnlyHeights(old(vertices[..]), vertices[..], numVertices, y * vWidth, y * vWidth + vWidth)
    {
      next := index;
      for x := 0 to vWidth
        invariant next == Pos(VertexOf(vWidth, x, y), 1)
        invariant forall x' :: 0 <= x' < x ==>
          HeightOf(vertices[..], VertexOf(vWidth, x', y)) == HeightOf(old(vertices[..]), VertexOf(vWidth, x', y)) + wave(x')
        invariant OnlyHeights(old(vertices[..]), vertices[..], numVertices, y * vWidth, VertexOf(vWidth, x, y))
      {
        vertices[next] := vertices[next] + wave(x);
        next := next + 6;
      }
    }

    /** applyRandomHeightmap: the height of the k-th vertex becomes
        RandomHeight(draw(k)), draw(k) being the k-th result of rand() after
        srand; nothing but heights changes. */
    method ApplyRandomHeightmap(draw: nat -> nat)
      requires Valid()
      modifies vertices
      ensures forall v :: 0 <= v < numVertices ==> HeightOf(vertices[..], v) == RandomHeight(draw(v))
      ensures OnlyHeights(old(vertices[..]), vertices[..], numVertices, 0, numVertices)
    {
      var i := 1;
      var k := 0;
      while i < numElements
        invariant i == Pos(k, 1) && 0 <= k <= numVertices
        invariant forall v :: 0 <= v < k ==> HeightOf(vertices[..], v) == RandomHeight(draw(v))
        invariant OnlyHeights(old(vertices[..]), vertices[..], numVertices, 0, k)
      {
        ghost var vs1 := vertices[..];
        vertices[i] := ((draw(k) % 101) - 50) as real / 130.0;
        HeightWritten(vs1, vertices[..], numVertices, k);
        OnlyHeightsCompose(old(vertices[..]), vs1, vertices[..], numVertices, 0, k, k + 1);
        i := i + 6;
        k := k + 1;
      }
    }

    /** computeSmoothNormalsApproximation: every inner vertex (x, z),
        1 <= x, z < width, gets the approximated normal of the heights
        before the pass; border normals, positions and heights are
        unchanged. */
    method ComputeSmoothNormalsApproximation(normalize: Vec3 -> Vec3)
      requires Valid()
      modifies vertices
      ensures SameGeometry(old(vertices[..]), vertices[..], numVertices)
      ensures SmoothedRows(vertices[..], old(vertices[..]), vWidth, width, normalize)
      ensures UnsmoothedKept(vertices[..], old(vertices[..]), vWidth, width)
    {
      var z := 1;
      while z < width
        invariant 1 <= z <= width || z == 1
        invariant SameGeometry(old(vertices[..]), vertices[..], numVertices)
        invariant SmoothedRows(vertices[..], old(vertices[..]), vWidth, z, normalize)
        invariant UnsmoothedKept(vertices[..], old(vertices[..]), vWidth, z)
      {
        ghost var vs1 := vertices[..];
        SmoothRow(z, old(vertices[..]), normalize);
        SmoothedRowsExtend(vs1, vertices[..], old(vertices[..]), vWidth, z, normalize);
        z := z + 1;
      }
    }

    /** The inner loop of computeSmoothNormalsApproximation over row z; vs0
        is the buffer before the pass, whose positions and heights are
        still in place. */
    method SmoothRow(z: int, ghost vs0: seq<real>, normalize: Vec3 -> Vec3)
      requires Valid() && 1 <= z < width && |vs0| == numElements
      requires SameGeometry(vs0, vertices[..], numVertices)
      modifies vertices
      ensures SameGeometry(vs0, vertices[..], numVertices)
      ensures OnlyNormals(old(vertices[..]), vertices[..], numVertices, VertexOf(vWidth, 1, z), VertexOf(vWidth, width, z))
      ensures forall x :: 1 <= x < width ==> SmoothedAt(vertices[..], vs0, vWidth, x, z, normalize)
    {
      for x := 1 to width
        invariant SameGeometry(vs0, vertices[..], numVertices)
        invariant OnlyNormals(old(vertices[..]), vertices[..], numVertices, VertexOf(vWidth, 1, z), VertexOf(vWidth, x, z))
        invariant forall x' :: 1 <= x' < x ==> SmoothedAt(vertices[..], vs0, vWidth, x', z, normalize)
      {
        ghost var vs1 := vertices[..];
        InnerNeighbours(vWidth, x, z);
        ghost var v := VertexOf(vWidth, x, z);
        ApproxNormalReadsHeights(vs0, vs1, numVertices, vWidth, v, normalize);
        var index := IndexOf(x, z);
        var l := vertices[index - 5];
        var r := vertices[index + 7];
        var d := vertices[index + (6 * (width + 1)) + 1];
        var u := vertices[index - (6 * (width + 1)) + 1];
        var norm := normalize(ChunkMesh.Vec3(l - r, 2.0, d - u));
        assert norm == ApproxNormal(vs1, vWidth, v, normalize);
        WriteNormal(v, index, norm);
        OnlyNormalsCompose(old(vertices[..]), vs1, vertices[..], numVertices, VertexOf(vWidth, 1, z), v, v + 1);
        RowSmoothedExtend(vs1, vertices[..], vs0, vWidth, x, z, normalize);
      }
    }

    /** The three writes of one normal, at vertices[index + 3 .. index + 5]. */
    method WriteNormal(ghost v: int, index: int, norm: Vec3)
      requires Valid() && 0 <= v < numVertices && index == Pos(v, 0)
      modifies vertices
      ensures NormalOf(vertices[..], v) == norm
      ensures OnlyNormals(old(vertices[..]), vertices[..], numVertices, v, v + 1)
    {
      vertices[index + 3] := norm.x;
      vertices[index + 4] := norm.y;
      vertices[index + 5] := norm.z;
    }
  }
}
