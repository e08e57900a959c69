/** The integer skeleton of Chunk: one square terrain chunk of DIM x DIM
    cells, its interleaved vertex buffer (8 values per vertex: position 0-2,
    normal 3-5, texture coordinates 6-7), the separate position buffer (3
    values per vertex), the shared triangle index array, and the passes that
    fill them.

    Floats are modelled as reals, so the accumulations px += SCALE and
    tu += texIncrement are exact here. The noise height function and glm's
    normalize are parameters: the model says where their results go, not
    what they are. */
module ChunkMesh {
  import Triangulation

  // ---------------------------------------------------------------------------
  // Compile-time sizes
  // ---------------------------------------------------------------------------

  /** Values per vertex in the interleaved mesh buffer. */
  const STRIDE: int := 8
  /** Chunk width in world units. */
  const CHUNK_WIDTH: int := 256
  /** Width of one cell in world units. */
  const SCALE: real := 2.0
  const DENSITY: real := 1.0 / SCALE
  /** Cells per side: (int)(DENSITY * CHUNK_WIDTH); see Sizes. */
  const DIM: int := 128
  /** Vertices per side. */
  const VDIM: int := DIM + 1
  /** Width of the texture in world units. */
  const TEX_SCALE: real := 2.0

  // numVertices(), vertexElements() and meshElements(), written with VDIM =
  // 129 and STRIDE = 8 as numerals; Sizes states the formulas.
  const NUM_VERTICES: int := 129 * 129
  const VERTEX_ELEMENTS: int := 3 * NUM_VERTICES
  const MESH_ELEMENTS: int := 8 * NUM_VERTICES
  const NUM_TRIANGLES: int := 2 * DIM * DIM
  const INDEX_ELEMENTS: int := 3 * NUM_TRIANGLES
  const BOUNDARY_OFFSET: real := SCALE * DIM as real / 2.0
  const TEX_INCREMENT: real := SCALE / TEX_SCALE

  /** The row split of the constructor's three mesh-generation calls. */
  const NUMTHREADS: int := 3
  const ZSPLIT1: int := VDIM / NUMTHREADS
  const ZSPLIT2: int := ZSPLIT1 + ZSPLIT1

  /** The derived sizes: DIM is the truncation of DENSITY * CHUNK_WIDTH, and
      the index array holds two triangles of three indices per cell. */
  lemma Sizes()
    ensures DIM == (DENSITY * CHUNK_WIDTH as real).Floor
    ensures VDIM == 129 && NUM_VERTICES == VDIM * VDIM == 16641
    ensures VERTEX_ELEMENTS == 3 * NUM_VERTICES && MESH_ELEMENTS == STRIDE * NUM_VERTICES == 133128
    ensures NUM_TRIANGLES == 32768 && INDEX_ELEMENTS == 6 * DIM * DIM == 98304
    ensures BOUNDARY_OFFSET == 128.0 && TEX_INCREMENT == 1.0
    ensures ZSPLIT1 == 43 && ZSPLIT2 == 86
  {
  }

  // ---------------------------------------------------------------------------
  // Buffer layout
  // ---------------------------------------------------------------------------

  // The layout functions write VDIM = 129 and STRIDE = 8 as numerals, which
  // keeps their arithmetic linear for the verifier; LayoutFormulas states
  // them with the named constants.

  /** Row-major index of vertex (x, z): z * VDIM + x. */
  function VertexIndex(x: int, z: int): int
  {
    z * 129 + x
  }

  /** Position of component off of vertex v in the interleaved buffer:
      STRIDE * v + off. */
  function At(v: int, off: int): int
  {
    8 * v + off
  }

  /** Position of component off of vertex v in the position buffer. */
  function PosAt(v: int, off: int): int
  {
    3 * v + off
  }

  /** n cells in world units: SCALE * n. */
  function Cells(n: int): real
  {
    2.0 * n as real
  }

  /** n texture-coordinate steps: texIncrement() * n. */
  function TexSteps(n: int): real
  {
    n as real
  }

  /** One more step adds SCALE, respectively texIncrement(). */
  lemma StepsSucc(n: int)
    ensures Cells(n + 1) == Cells(n) + SCALE
    ensures TexSteps(n + 1) == TexSteps(n) + TEX_INCREMENT
  {
  }

  /** The layout functions are the source's formulas. */
  lemma LayoutFormulas(x: int, z: int, v: int, off: int)
    ensures VertexIndex(x, z) == z * VDIM + x
    ensures At(v, off) == STRIDE * v + off
    ensures At(VertexIndex(x, z), off) == STRIDE * (z * VDIM + x) + off
    ensures Cells(v) == SCALE * v as real && TexSteps(v) == TEX_INCREMENT * v as real
  {
  }

  /** Index of the first vertex of row z. */
  function RowStart(z: int): int
  {
    VertexIndex(0, z)
  }

  /** Is component off of vertex v among those that generating vertices
      [lo, hi) writes? Positions and texture coordinates, never normals. */
  predicate MeshWritten(lo: int, hi: int, v: int, off: int)
  {
    lo <= v < hi && (off < 3 || 6 <= off)
  }

  /** Every position of the mesh buffer is one component of one vertex, and
      every position of the position buffer one coordinate of one vertex, so
      statements about all (vertex, component) pairs cover the buffers. */
  lemma LayoutCovers(i: int)
    ensures 0 <= i < MESH_ELEMENTS ==>
      0 <= i / STRIDE < NUM_VERTICES && 0 <= i % STRIDE < STRIDE && i == At(i / STRIDE, i % STRIDE)
    ensures 0 <= i < VERTEX_ELEMENTS ==>
      0 <= i / 3 < NUM_VERTICES && 0 <= i % 3 < 3 && i == PosAt(i / 3, i % 3)
  {
  }

  /** Every in-grid vertex component lies in the buffer. */
  lemma {:induction false} LayoutInBounds(x: int, z: int, off: int)
    requires 0 <= x < VDIM && 0 <= z < VDIM && 0 <= off < STRIDE
    ensures 0 <= VertexIndex(x, z) < NUM_VERTICES
    ensures 0 <= At(VertexIndex(x, z), off) < MESH_ELEMENTS
    ensures At(VertexIndex(x, z), off) % STRIDE == off
    ensures off < 3 ==> 0 <= PosAt(VertexIndex(x, z), off) < VERTEX_ELEMENTS
  {
  }

  /** Distinct (vertex, component) pairs occupy distinct buffer positions. */
  lemma LayoutInjective(v: int, off: int, v': int, off': int)
    requires 0 <= off < STRIDE && 0 <= off' < STRIDE
    requires At(v, off) == At(v', off')
    ensures v == v' && off == off'
  {
  }

  // ---------------------------------------------------------------------------
  // The data generateMeshData writes
  // ---------------------------------------------------------------------------

  /** Position and texture coordinates of one vertex. */
  datatype VertexData = VertexData(px: real, py: real, pz: real, tu: real, tv: real)

  /** The data generateMeshData(startz, ..., worldx, worldz, startTexV) gives
      vertex (x, y): x steps of SCALE east of worldx, y steps north of worldz,
      height from the height function there; tu counts the steps along the
      row, tv the rows since startz on top of startTexV. */
  function Generated(worldx: real, worldz: real, startz: int, startTexV: real,
                     computeHeight: (real, real) -> real, x: int, y: int): VertexData
  {
    var px := worldx + Cells(x);
    var pz := worldz + Cells(y);
    VertexData(px, computeHeight(px, pz), pz,
               TexSteps(x), startTexV + TexSteps(y - startz))
  }

  /** The constructor calls generateMeshData on three bands of rows whose
      starting texture row is the band's first row times texIncrement, so
      every vertex gets tu = x and tv = y whichever band wrote it. */
  lemma {:induction false} BandTexCoordsContinuous(worldx: real, worldz: real, startz: int,
                                                   computeHeight: (real, real) -> real, x: int, y: int)
    ensures var d := Generated(worldx, worldz, startz, TexSteps(startz), computeHeight, x, y);
      d == Generated(worldx, worldz, 0, 0.0, computeHeight, x, y)
      && d.tu == x as real && d.tv == y as real
  {
    assert TexSteps(startz) + TexSteps(y - startz) == y as real;
  }

  /** The three bands [0, ZSPLIT1), [ZSPLIT1, ZSPLIT2), [ZSPLIT2, VDIM)
      partition the rows: each row is in exactly one band, so the three
      generateMeshData calls write pairwise disjoint parts of both buffers
      and together write every position and texture coordinate. In the
      mesh buffer a band writes the components MeshWritten names; in the
      position buffer it writes the three coordinates of the vertices of
      its range [RowStart(lo), RowStart(hi)), the complement of what
      VertexKept keeps, and those ranges are ordered and cover every vertex. */
  lemma BandsPartition(v: int, off: int)
    requires 0 <= v < NUM_VERTICES && 0 <= off < STRIDE
    ensures 0 <= ZSPLIT1 <= ZSPLIT2 <= VDIM
    ensures !(3 <= off < 6) <==>
      MeshWritten(RowStart(0), RowStart(ZSPLIT1), v, off) || MeshWritten(RowStart(ZSPLIT1), RowStart(ZSPLIT2), v, off) || MeshWritten(RowStart(ZSPLIT2), RowStart(VDIM), v, off)
    ensures !(MeshWritten(RowStart(0), RowStart(ZSPLIT1), v, off) && MeshWritten(RowStart(ZSPLIT1), RowStart(ZSPLIT2), v, off))
    ensures !(MeshWritten(RowStart(ZSPLIT1), RowStart(ZSPLIT2), v, off) && MeshWritten(RowStart(ZSPLIT2), RowStart(VDIM), v, off))
    ensures !(MeshWritten(RowStart(0), RowStart(ZSPLIT1), v, off) && MeshWritten(RowStart(ZSPLIT2), RowStart(VDIM), v, off))
    ensures RowStart(0) == 0 && RowStart(VDIM) == NUM_VERTICES
    ensures RowStart(0) <= RowStart(ZSPLIT1) <= RowStart(ZSPLIT2) <= RowStart(VDIM)
    ensures || RowStart(0) <= v < RowStart(ZSPLIT1)
            || RowStart(ZSPLIT1) <= v < RowStart(ZSPLIT2)
            || RowStart(ZSPLIT2) <= v < RowStart(VDIM)
  {
  }

  /** The data of vertex v as stored in the mesh buffer. */
  function StoredVertex(mesh: seq<real>, v: int): VertexData
    requires |mesh| == MESH_ELEMENTS && 0 <= v < NUM_VERTICES
  {
    VertexData(mesh[At(v, 0)], mesh[At(v, 1)], mesh[At(v, 2)], mesh[At(v, 6)], mesh[At(v, 7)])
  }

  /** The position buffer repeats the position of vertex v. */
  ghost predicate Mirrored(mesh: seq<real>, vertex: seq<real>, v: int)
    requires |mesh| == MESH_ELEMENTS && |vertex| == VERTEX_ELEMENTS && 0 <= v < NUM_VERTICES
  {
    vertex[PosAt(v, 0)] == mesh[At(v, 0)]
    && vertex[PosAt(v, 1)] == mesh[At(v, 1)]
    && vertex[PosAt(v, 2)] == mesh[At(v, 2)]
  }

  /** The rows [startz, y) generated so far. */
  ghost predicate RowsGenerated(mesh: seq<real>, vertex: seq<real>, startz: int, y: int,
                                worldx: real, worldz: real, startTexV: real,
                                computeHeight: (real, real) -> real)
    requires |mesh| == MESH_ELEMENTS && |vertex| == VERTEX_ELEMENTS
  {
    forall y', x :: startz <= y' < y && 0 <= y' < VDIM && 0 <= x < VDIM ==>
      StoredVertex(mesh, VertexIndex(x, y')) == Generated(worldx, worldz, startz, startTexV, computeHeight, x, y')
      && Mirrored(mesh, vertex, VertexIndex(x, y'))
  }

  /** Only the positions and texture coordinates of vertices [lo, hi)
      differ between mesh buffers m0 and m1. */
  ghost predicate MeshKept(m0: seq<real>, m1: seq<real>, lo: int, hi: int)
    requires |m0| == |m1| == MESH_ELEMENTS
  {
    forall v, off :: 0 <= v < NUM_VERTICES && 0 <= off < STRIDE && !MeshWritten(lo, hi, v, off) ==>
      m1[At(v, off)] == m0[At(v, off)]
  }

  /** Only the positions of vertices [lo, hi) differ between position
      buffers vt0 and vt1. */
  ghost predicate VertexKept(vt0: seq<real>, vt1: seq<real>, lo: int, hi: int)
    requires |vt0| == |vt1| == VERTEX_ELEMENTS
  {
    forall v, off :: 0 <= v < NUM_VERTICES && 0 <= off < 3 && !(lo <= v < hi) ==>
      vt1[PosAt(v, off)] == vt0[PosAt(v, off)]
  }

  /** Writing vertices [lo, mid), then [mid, hi), writes vertices [lo, hi). */
  lemma KeptCompose(m0: seq<real>, m1: seq<real>, m2: seq<real>,
                    vt0: seq<real>, vt1: seq<real>, vt2: seq<real>, lo: int, mid: int, hi: int)
    requires |m0| == |m1| == |m2| == MESH_ELEMENTS && |vt0| == |vt1| == |vt2| == VERTEX_ELEMENTS
    requires lo <= mid <= hi
    requires MeshKept(m0, m1, lo, mid) && MeshKept(m1, m2, mid, hi)
    requires VertexKept(vt0, vt1, lo, mid) && VertexKept(vt1, vt2, mid, hi)
    ensures MeshKept(m0, m2, lo, hi) && VertexKept(vt0, vt2, lo, hi)
  {
  }

  /** The first n vertices of row y hold what the inner loop of
      generateMeshData writes there: x steps east of worldx, at world z
      coordinate pz, with texture coordinates (x * texIncrement, tv). */
  ghost predicate RowWritten(mesh: seq<real>, vertex: seq<real>, y: int, n: int,
                             worldx: real, pz: real, tv: real, computeHeight: (real, real) -> real)
    requires |mesh| == MESH_ELEMENTS && |vertex| == VERTEX_ELEMENTS && 0 <= y < VDIM
  {
    forall x :: 0 <= x < n && x < VDIM ==>
      StoredVertex(mesh, VertexIndex(x, y))
        == VertexData(worldx + Cells(x), computeHeight(worldx + Cells(x), pz), pz, TexSteps(x), tv)
      && Mirrored(mesh, vertex, VertexIndex(x, y))
  }

  /** Writing vertex x of row y keeps the first x vertices and adds it. */
  lemma RowWrittenExtend(m0: seq<real>, vt0: seq<real>, m1: seq<real>, vt1: seq<real>, y: int, x: int,
                         worldx: real, pz: real, tv: real, computeHeight: (real, real) -> real)
    requires |m0| == |m1| == MESH_ELEMENTS && |vt0| == |vt1| == VERTEX_ELEMENTS && 0 <= y < VDIM && 0 <= x < VDIM
    requires RowWritten(m0, vt0, y, x, worldx, pz, tv, computeHeight)
    requires MeshKept(m0, m1, VertexIndex(x, y), VertexIndex(x, y) + 1)
    requires VertexKept(vt0, vt1, VertexIndex(x, y), VertexIndex(x, y) + 1)
    requires StoredVertex(m1, VertexIndex(x, y))
      == VertexData(worldx + Cells(x), computeHeight(worldx + Cells(x), pz), pz, TexSteps(x), tv)
    requires Mirrored(m1, vt1, VertexIndex(x, y))
    ensures RowWritten(m1, vt1, y, x + 1, worldx, pz, tv, computeHeight)
  {
    forall x' | 0 <= x' < x
      ensures StoredVertex(m1, VertexIndex(x', y)) == StoredVertex(m0, VertexIndex(x', y))
      ensures Mirrored(m1, vt1, VertexIndex(x', y)) == Mirrored(m0, vt0, VertexIndex(x', y))
    {
      var v := VertexIndex(x', y);
      assert m1[At(v, 0)] == m0[At(v, 0)] && m1[At(v, 1)] == m0[At(v, 1)] && m1[At(v, 2)] == m0[At(v, 2)];
      assert m1[At(v, 6)] == m0[At(v, 6)] && m1[At(v, 7)] == m0[At(v, 7)];
      assert vt1[PosAt(v, 0)] == vt0[PosAt(v, 0)] && vt1[PosAt(v, 1)] == vt0[PosAt(v, 1)];
      assert vt1[PosAt(v, 2)] == vt0[PosAt(v, 2)];
    }
  }

  /** Row y as GenerateRow leaves it extends the generated rows by one. */
  lemma RowsExtend(mesh: seq<real>, vertex: seq<real>, startz: int, y: int,
                   worldx: real, worldz: real, startTexV: real, computeHeight: (real, real) -> real,
                   pz: real, tv: real)
    requires |mesh| == MESH_ELEMENTS && |vertex| == VERTEX_ELEMENTS && 0 <= y < VDIM
    requires RowsGenerated(mesh, vertex, startz, y, worldx, worldz, startTexV, computeHeight)
    requires pz == worldz + Cells(y) && tv == startTexV + TexSteps(y - startz)
    requires RowWritten(mesh, vertex, y, VDIM, worldx, pz, tv, computeHeight)
    ensures RowsGenerated(mesh, vertex, startz, y + 1, worldx, worldz, startTexV, computeHeight)
  {
    forall y', x | startz <= y' < y + 1 && 0 <= y' < VDIM && 0 <= x < VDIM
      ensures StoredVertex(mesh, VertexIndex(x, y')) == Generated(worldx, worldz, startz, startTexV, computeHeight, x, y')
      ensures Mirrored(mesh, vertex, VertexIndex(x, y'))
    {
      if y' == y {
        assert StoredVertex(mesh, VertexIndex(x, y)) == Generated(worldx, worldz, startz, startTexV, computeHeight, x, y);
      }
    }
  }

  /** Writing vertices [lo, hi), all at or after row y, keeps rows
      [startz, y) generated. */
  lemma RowsKept(m0: seq<real>, vt0: seq<real>, m1: seq<real>, vt1: seq<real>, startz: int, y: int,
                 worldx: real, worldz: real, startTexV: real, computeHeight: (real, real) -> real,
                 lo: int, hi: int)
    requires |m0| == |m1| == MESH_ELEMENTS && |vt0| == |vt1| == VERTEX_ELEMENTS
    requires RowsGenerated(m0, vt0, startz, y, worldx, worldz, startTexV, computeHeight)
    requires RowStart(y) <= lo && MeshKept(m0, m1, lo, hi) && VertexKept(vt0, vt1, lo, hi)
    ensures RowsGenerated(m1, vt1, startz, y, worldx, worldz, startTexV, computeHeight)
  {
    forall y', x | startz <= y' < y && 0 <= y' < VDIM && 0 <= x < VDIM
      ensures StoredVertex(m1, VertexIndex(x, y')) == StoredVertex(m0, VertexIndex(x, y'))
      ensures Mirrored(m1, vt1, VertexIndex(x, y')) == Mirrored(m0, vt0, VertexIndex(x, y'))
    {
      var v := VertexIndex(x, y');
      assert m1[At(v, 0)] == m0[At(v, 0)] && m1[At(v, 1)] == m0[At(v, 1)] && m1[At(v, 2)] == m0[At(v, 2)];
      assert m1[At(v, 6)] == m0[At(v, 6)] && m1[At(v, 7)] == m0[At(v, 7)];
      assert vt1[PosAt(v, 0)] == vt0[PosAt(v, 0)] && vt1[PosAt(v, 1)] == vt0[PosAt(v, 1)];
      assert vt1[PosAt(v, 2)] == vt0[PosAt(v, 2)];
    }
  }

  // ---------------------------------------------------------------------------
  // height and computeNormal
  // ---------------------------------------------------------------------------

  /** A direction vector (glm::vec3). */
  datatype Vec3 = Vec3(x: real, y: real, z: real)

  /** Height of vertex (x, z): read from the mesh buffer's y component when
      the vertex is in the chunk, recomputed at world position (wx, wz)
      otherwise. */
  function Height(mesh: seq<real>, x: int, z: int, wx: real, wz: real,
                  computeHeight: (real, real) -> real): real
    requires |mesh| == MESH_ELEMENTS
  {
    if x < 0 || x > DIM || z < 0 || z > DIM then computeHeight(wx, wz)
    else mesh[At(VertexIndex(x, z), 1)]
  }

  /** The finite-difference normal of vertex (x, z) at world position
      (wx, wz): from the heights of its four neighbours one cell away. */
  function ComputeNormal(mesh: seq<real>, x: int, z: int, wx: real, wz: real,
                         computeHeight: (real, real) -> real, normalize: Vec3 -> Vec3): Vec3
    requires |mesh| == MESH_ELEMENTS
  {
    var l := Height(mesh, x - 1, z, wx - SCALE, wz, computeHeight);
    var r := Height(mesh, x + 1, z, wx + SCALE, wz, computeHeight);
    var u := Height(mesh, x, z - 1, wx, wz - SCALE, computeHeight);
    var d := Height(mesh, x, z + 1, wx, wz + SCALE, computeHeight);
    normalize(Vec3(l - r, 2.0, d - u))
  }

  /** Heights of the mesh: the y component of every vertex. */
  ghost predicate SameHeights(m1: seq<real>, m2: seq<real>)
    requires |m1| == |m2| == MESH_ELEMENTS
  {
    forall v :: 0 <= v < NUM_VERTICES ==> m1[At(v, 1)] == m2[At(v, 1)]
  }

  /** The mesh heights lie on the surface: every in-chunk vertex's y
      component is the height function at that vertex's world position. */
  ghost predicate OnSurface(mesh: seq<real>, worldx: real, worldz: real,
                            computeHeight: (real, real) -> real)
    requires |mesh| == MESH_ELEMENTS
  {
    forall z, x :: 0 <= z < VDIM && 0 <= x < VDIM ==>
      mesh[At(VertexIndex(x, z), 1)] == computeHeight(worldx + Cells(x), worldz + Cells(z))
  }

  /** height() reads only the y components: meshes with the same heights give
      the same height everywhere. */
  lemma HeightReadsHeightsOnly(m1: seq<real>, m2: seq<real>, x: int, z: int, wx: real, wz: real,
                               computeHeight: (real, real) -> real)
    requires |m1| == |m2| == MESH_ELEMENTS && SameHeights(m1, m2)
    ensures Height(m1, x, z, wx, wz, computeHeight) == Height(m2, x, z, wx, wz, computeHeight)
  {
    if 0 <= x <= DIM && 0 <= z <= DIM {
      assert m1[At(VertexIndex(x, z), 1)] == m2[At(VertexIndex(x, z), 1)];
    }
  }

  /** Reading a stored height is the same as recomputing it, on either side
      of the chunk border: on a mesh whose heights lie on the surface,
      height() at any grid coordinate with its world position is the
      surface height there. */
  lemma HeightIsSurface(mesh: seq<real>, worldx: real, worldz: real,
                        computeHeight: (real, real) -> real, x: int, z: int)
    requires |mesh| == MESH_ELEMENTS && OnSurface(mesh, worldx, worldz, computeHeight)
    ensures var wx, wz := worldx + Cells(x), worldz + Cells(z);
      Height(mesh, x, z, wx, wz, computeHeight) == computeHeight(wx, wz)
  {
    if 0 <= x <= DIM && 0 <= z <= DIM {
      assert mesh[At(VertexIndex(x, z), 1)]
          == computeHeight(worldx + Cells(x), worldz + Cells(z));
    }
  }

  /** computeNormal reads only the heights. */
  lemma NormalReadsHeightsOnly(m1: seq<real>, m2: seq<real>, x: int, z: int, wx: real, wz: real,
                               computeHeight: (real, real) -> real, normalize: Vec3 -> Vec3)
    requires |m1| == |m2| == MESH_ELEMENTS && SameHeights(m1, m2)
    ensures ComputeNormal(m1, x, z, wx, wz, computeHeight, normalize)
         == ComputeNormal(m2, x, z, wx, wz, computeHeight, normalize)
  {
    HeightReadsHeightsOnly(m1, m2, x - 1, z, wx - SCALE, wz, computeHeight);
    HeightReadsHeightsOnly(m1, m2, x + 1, z, wx + SCALE, wz, computeHeight);
    HeightReadsHeightsOnly(m1, m2, x, z - 1, wx, wz - SCALE, computeHeight);
    HeightReadsHeightsOnly(m1, m2, x, z + 1, wx, wz + SCALE, computeHeight);
  }

  /** On flat ground (a constant height function, heights on the surface)
      every vertex normal, border vertices included, is normalize(0, 2, 0):
      straight up. */
  lemma FlatGroundNormalIsUp(mesh: seq<real>, worldx: real, worldz: real, c: real,
                             normalize: Vec3 -> Vec3, x: int, z: int)
    requires |mesh| == MESH_ELEMENTS
    requires OnSurface(mesh, worldx, worldz, (wx: real, wz: real) => c)
    ensures ComputeNormal(mesh, x, z, worldx + Cells(x), worldz + Cells(z),
                          (wx: real, wz: real) => c, normalize)
         == normalize(Vec3(0.0, 2.0, 0.0))
  {
    var h := (wx: real, wz: real) => c;
    var wx, wz := worldx + Cells(x), worldz + Cells(z);
    HeightIsSurface(mesh, worldx, worldz, h, x - 1, z);
    HeightIsSurface(mesh, worldx, worldz, h, x + 1, z);
    HeightIsSurface(mesh, worldx, worldz, h, x, z - 1);
    HeightIsSurface(mesh, worldx, worldz, h, x, z + 1);
    assert worldx + Cells(x - 1) == wx - SCALE;
    assert worldx + Cells(x + 1) == wx + SCALE;
    assert worldz + Cells(z - 1) == wz - SCALE;
    assert worldz + Cells(z + 1) == wz + SCALE;
  }

  /** Where the heights lie on the surface, a vertex normal depends only on
      the height function around the vertex's world position, not on the
      chunk that computes it: two chunks that share a border vertex give it
      the same normal. */
  lemma SurfaceNormal(mesh: seq<real>, worldx: real, worldz: real,
                      computeHeight: (real, real) -> real, normalize: Vec3 -> Vec3,
                      x: int, z: int, wx: real, wz: real)
    requires |mesh| == MESH_ELEMENTS && OnSurface(mesh, worldx, worldz, computeHeight)
    requires wx == worldx + Cells(x) && wz == worldz + Cells(z)
    ensures ComputeNormal(mesh, x, z, wx, wz, computeHeight, normalize)
         == normalize(Vec3(computeHeight(wx - SCALE, wz) - computeHeight(wx + SCALE, wz), 2.0,
                           computeHeight(wx, wz + SCALE) - computeHeight(wx, wz - SCALE)))
  {
    NeighbourHeights(mesh, worldx, worldz, computeHeight, x, z, wx, wz);
    NormalFromHeights(mesh, x, z, wx, wz, computeHeight, normalize,
                      computeHeight(wx - SCALE, wz), computeHeight(wx + SCALE, wz),
                      computeHeight(wx, wz - SCALE), computeHeight(wx, wz + SCALE));
  }

  /** The four neighbours of a vertex, read or recomputed, are on the
      surface. */
  lemma NeighbourHeights(mesh: seq<real>, worldx: real, worldz: real,
                         computeHeight: (real, real) -> real, x: int, z: int, wx: real, wz: real)
    requires |mesh| == MESH_ELEMENTS && OnSurface(mesh, worldx, worldz, computeHeight)
    requires wx == worldx + Cells(x) && wz == worldz + Cells(z)
    ensures Height(mesh, x - 1, z, wx - SCALE, wz, computeHeight) == computeHeight(wx - SCALE, wz)
    ensures Height(mesh, x + 1, z, wx + SCALE, wz, computeHeight) == computeHeight(wx + SCALE, wz)
    ensures Height(mesh, x, z - 1, wx, wz - SCALE, computeHeight) == computeHeight(wx, wz - SCALE)
    ensures Height(mesh, x, z + 1, wx, wz + SCALE, computeHeight) == computeHeight(wx, wz + SCALE)
  {
    NeighbourCells(worldx, x, wx);
    NeighbourCells(worldz, z, wz);
    NeighbourHeight(mesh, worldx, worldz, computeHeight, x - 1, z, wx - SCALE, wz);
    NeighbourHeight(mesh, worldx, worldz, computeHeight, x + 1, z, wx + SCALE, wz);
    NeighbourHeight(mesh, worldx, worldz, computeHeight, x, z - 1, wx, wz - SCALE);
    NeighbourHeight(mesh, worldx, worldz, computeHeight, x, z + 1, wx, wz + SCALE);
  }

  /** The world coordinates one cell either side of grid line x. */
  lemma NeighbourCells(world: real, x: int, w: real)
    requires w == world + Cells(x)
    ensures w - SCALE == world + Cells(x - 1) && w + SCALE == world + Cells(x + 1)
  {
  }

  /** HeightIsSurface at a given world position. */
  lemma NeighbourHeight(mesh: seq<real>, worldx: real, worldz: real,
                        computeHeight: (real, real) -> real, x: int, z: int, wx: real, wz: real)
    requires |mesh| == MESH_ELEMENTS && OnSurface(mesh, worldx, worldz, computeHeight)
    requires wx == worldx + Cells(x) && wz == worldz + Cells(z)
    ensures Height(mesh, x, z, wx, wz, computeHeight) == computeHeight(wx, wz)
  {
    HeightIsSurface(mesh, worldx, worldz, computeHeight, x, z);
  }

  /** computeNormal from the four neighbour heights l, r, u, d. */
  lemma NormalFromHeights(mesh: seq<real>, x: int, z: int, wx: real, wz: real,
                          computeHeight: (real, real) -> real, normalize: Vec3 -> Vec3,
                          l: real, r: real, u: real, d: real)
    requires |mesh| == MESH_ELEMENTS
    requires Height(mesh, x - 1, z, wx - SCALE, wz, computeHeight) == l
    requires Height(mesh, x + 1, z, wx + SCALE, wz, computeHeight) == r
    requires Height(mesh, x, z - 1, wx, wz - SCALE, computeHeight) == u
    requires Height(mesh, x, z + 1, wx, wz + SCALE, computeHeight) == d
    ensures ComputeNormal(mesh, x, z, wx, wz, computeHeight, normalize) == normalize(Vec3(l - r, 2.0, d - u))
  {
  }

  // ---------------------------------------------------------------------------
  // The normal pass of the constructor
  // ---------------------------------------------------------------------------

  /** The normal stored for vertex v. */
  function StoredNormal(mesh: seq<real>, v: int): Vec3
    requires |mesh| == MESH_ELEMENTS && 0 <= v < NUM_VERTICES
  {
    Vec3(mesh[At(v, 3)], mesh[At(v, 4)], mesh[At(v, 5)])
  }

  /** The normal the pass computes for grid vertex (x, z) of mesh: computeNormal
      at the world position stored in the vertex's x and z components. */
  function NormalOf(mesh: seq<real>, x: int, z: int,
                    computeHeight: (real, real) -> real, normalize: Vec3 -> Vec3): Vec3
    requires |mesh| == MESH_ELEMENTS && 0 <= x < VDIM && 0 <= z < VDIM
  {
    var v := VertexIndex(x, z);
    ComputeNormal(mesh, x, z, mesh[At(v, 0)], mesh[At(v, 2)], computeHeight, normalize)
  }

  /** Only the normals of vertices [lo, hi) differ between m0 and m1. */
  ghost predicate NormalKept(m0: seq<real>, m1: seq<real>, lo: int, hi: int)
    requires |m0| == |m1| == MESH_ELEMENTS
  {
    forall v, off :: 0 <= v < NUM_VERTICES && 0 <= off < STRIDE && !(lo <= v < hi && 3 <= off < 6) ==>
      m1[At(v, off)] == m0[At(v, off)]
  }

  /** Writing the normals of [lo, mid), then of [mid, hi), writes those of
      [lo, hi). */
  lemma NormalKeptCompose(m0: seq<real>, m1: seq<real>, m2: seq<real>, lo: int, mid: int, hi: int)
    requires |m0| == |m1| == |m2| == MESH_ELEMENTS && lo <= mid <= hi
    requires NormalKept(m0, m1, lo, mid) && NormalKept(m1, m2, mid, hi)
    ensures NormalKept(m0, m2, lo, hi)
  {
  }

  /** Writing normals changes no position, height or texture coordinate, so
      it changes no normal the pass computes: the pass may read the buffer it
      writes. */
  lemma NormalOfKept(m0: seq<real>, m1: seq<real>, lo: int, hi: int, x: int, z: int,
                     computeHeight: (real, real) -> real, normalize: Vec3 -> Vec3)
    requires |m0| == |m1| == MESH_ELEMENTS && NormalKept(m0, m1, lo, hi)
    requires 0 <= x < VDIM && 0 <= z < VDIM
    ensures SameHeights(m0, m1)
    ensures NormalOf(m0, x, z, computeHeight, normalize) == NormalOf(m1, x, z, computeHeight, normalize)
  {
    forall v | 0 <= v < NUM_VERTICES
      ensures m0[At(v, 1)] == m1[At(v, 1)]
    {
      assert !(lo <= v < hi && 3 <= 1 < 6);
    }
    var v := VertexIndex(x, z);
    LayoutInBounds(x, z, 0);
    assert m1[At(v, 0)] == m0[At(v, 0)] && m1[At(v, 2)] == m0[At(v, 2)];
    NormalReadsHeightsOnly(m0, m1, x, z, m0[At(v, 0)], m0[At(v, 2)], computeHeight, normalize);
  }

  /** The first n vertices of row y hold the normals computed from m0. */
  ghost predicate NormalRowDone(mesh: seq<real>, m0: seq<real>, y: int, n: int,
                                computeHeight: (real, real) -> real, normalize: Vec3 -> Vec3)
    requires |mesh| == |m0| == MESH_ELEMENTS && 0 <= y < VDIM
  {
    forall x {:trigger StoredNormal(mesh, VertexIndex(x, y))} :: 0 <= x < n && x < VDIM ==>
      StoredNormal(mesh, VertexIndex(x, y)) == NormalOf(m0, x, y, computeHeight, normalize)
  }

  /** Rows [0, y) hold the normals computed from m0. */
  ghost predicate NormalRowsDone(mesh: seq<real>, m0: seq<real>, y: int,
                                 computeHeight: (real, real) -> real, normalize: Vec3 -> Vec3)
    requires |mesh| == |m0| == MESH_ELEMENTS
  {
    forall y', x {:trigger StoredNormal(mesh, VertexIndex(x, y'))} :: 0 <= y' < y && y' < VDIM && 0 <= x < VDIM ==>
      StoredNormal(mesh, VertexIndex(x, y')) == NormalOf(m0, x, y', computeHeight, normalize)
  }

  /** Writing the normal of vertex x of row y keeps the first x and adds it. */
  lemma NormalRowExtend(m1: seq<real>, m2: seq<real>, m0: seq<real>, y: int, x: int,
                        computeHeight: (real, real) -> real, normalize: Vec3 -> Vec3)
    requires |m1| == |m2| == |m0| == MESH_ELEMENTS && 0 <= y < VDIM && 0 <= x < VDIM
    requires NormalRowDone(m1, m0, y, x, computeHeight, normalize)
    requires NormalKept(m1, m2, VertexIndex(x, y), VertexIndex(x, y) + 1)
    requires StoredNormal(m2, VertexIndex(x, y)) == NormalOf(m0, x, y, computeHeight, normalize)
    ensures NormalRowDone(m2, m0, y, x + 1, computeHeight, normalize)
  {
    forall x' | 0 <= x' < x
      ensures StoredNormal(m2, VertexIndex(x', y)) == StoredNormal(m1, VertexIndex(x', y))
    {
      var v := VertexIndex(x', y);
      assert m2[At(v, 3)] == m1[At(v, 3)] && m2[At(v, 4)] == m1[At(v, 4)] && m2[At(v, 5)] == m1[At(v, 5)];
    }
  }

  /** A finished row extends the finished rows by one. */
  lemma NormalRowsExtend(mesh: seq<real>, m0: seq<real>, y: int,
                         computeHeight: (real, real) -> real, normalize: Vec3 -> Vec3)
    requires |mesh| == |m0| == MESH_ELEMENTS && 0 <= y < VDIM
    requires NormalRowsDone(mesh, m0, y, computeHeight, normalize)
    requires NormalRowDone(mesh, m0, y, VDIM, computeHeight, normalize)
    ensures NormalRowsDone(mesh, m0, y + 1, computeHeight, normalize)
  {
  }

  /** Writing the normals of row y keeps those of rows [0, y). */
  lemma NormalRowsKept(m1: seq<real>, m2: seq<real>, m0: seq<real>, y: int,
                       computeHeight: (real, real) -> real, normalize: Vec3 -> Vec3)
    requires |m1| == |m2| == |m0| == MESH_ELEMENTS
    requires NormalRowsDone(m1, m0, y, computeHeight, normalize)
    requires NormalKept(m1, m2, RowStart(y), RowStart(y + 1))
    ensures NormalRowsDone(m2, m0, y, computeHeight, normalize)
  {
    forall y', x | 0 <= y' < y && y' < VDIM && 0 <= x < VDIM
      ensures StoredNormal(m2, VertexIndex(x, y')) == StoredNormal(m1, VertexIndex(x, y'))
    {
      var v := VertexIndex(x, y');
      assert m2[At(v, 3)] == m1[At(v, 3)] && m2[At(v, 4)] == m1[At(v, 4)] && m2[At(v, 5)] == m1[At(v, 5)];
    }
  }

  /** The normal pass changes no position or texture coordinate, so the
      generated rows stay generated. */
  lemma RowsGeneratedNormalKept(m0: seq<real>, m1: seq<real>, vertex: seq<real>, startz: int, y: int,
                                worldx: real, worldz: real, startTexV: real,
                                computeHeight: (real, real) -> real)
    requires |m0| == |m1| == MESH_ELEMENTS && |vertex| == VERTEX_ELEMENTS
    requires RowsGenerated(m0, vertex, startz, y, worldx, worldz, startTexV, computeHeight)
    requires NormalKept(m0, m1, 0, NUM_VERTICES)
    ensures RowsGenerated(m1, vertex, startz, y, worldx, worldz, startTexV, computeHeight)
  {
    forall y', x | startz <= y' < y && 0 <= y' < VDIM && 0 <= x < VDIM
      ensures StoredVertex(m1, VertexIndex(x, y')) == StoredVertex(m0, VertexIndex(x, y'))
      ensures Mirrored(m1, vertex, VertexIndex(x, y')) == Mirrored(m0, vertex, VertexIndex(x, y'))
    {
      var v := VertexIndex(x, y');
      assert m1[At(v, 0)] == m0[At(v, 0)] && m1[At(v, 1)] == m0[At(v, 1)] && m1[At(v, 2)] == m0[At(v, 2)];
      assert m1[At(v, 6)] == m0[At(v, 6)] && m1[At(v, 7)] == m0[At(v, 7)];
    }
  }

  /** The normals the pass computes from the mesh before it are those of
      the mesh after it: the stored normals are the finished mesh's own. */
  lemma NormalsSettled(m0: seq<real>, m1: seq<real>,
                       computeHeight: (real, real) -> real, normalize: Vec3 -> Vec3)
    requires |m0| == |m1| == MESH_ELEMENTS
    requires NormalRowsDone(m1, m0, VDIM, computeHeight, normalize)
    requires NormalKept(m0, m1, 0, NUM_VERTICES)
    ensures NormalRowsDone(m1, m1, VDIM, computeHeight, normalize)
  {
    forall y, x | 0 <= y < VDIM && 0 <= x < VDIM
      ensures StoredNormal(m1, VertexIndex(x, y)) == NormalOf(m1, x, y, computeHeight, normalize)
    {
      NormalOfKept(m0, m1, 0, NUM_VERTICES, x, y, computeHeight, normalize);
    }
  }

  // ---------------------------------------------------------------------------
  // Assembling a chunk from its bands
  // ---------------------------------------------------------------------------

  /** World coordinate of the lower-left vertex of chunk c along one axis:
      the chunk's centre CHUNK_WIDTH * c, less BOUNDARY_OFFSET (written with
      their values; ChunksTile states the formula). */
  function Origin(c: int): real
  {
    (256 * c) as real - 128.0
  }

  /** A chunk spans DIM cells from its origin, centred on CHUNK_WIDTH * c,
      so its last row and column lie where the next chunk's first do: the
      chunks tile the plane, sharing their border vertices. */
  lemma {:induction false} ChunksTile(c: int)
    ensures Origin(c) == (CHUNK_WIDTH * c) as real - BOUNDARY_OFFSET
    ensures Origin(c) + Cells(DIM) / 2.0 == (CHUNK_WIDTH * c) as real
    ensures Origin(c) + Cells(DIM) == Origin(c + 1)
  {
  }

  /** Rows [0, a) generated with tv = y, and rows [a, b) generated by a band
      call starting at row a with tv = a * texIncrement, are rows [0, b)
      generated with tv = y. */
  lemma BandJoin(mesh: seq<real>, vertex: seq<real>, a: int, b: int, startTexV: real,
                 worldx: real, worldz: real, computeHeight: (real, real) -> real)
    requires |mesh| == MESH_ELEMENTS && |vertex| == VERTEX_ELEMENTS && 0 <= a
    requires startTexV == TexSteps(a)
    requires RowsGenerated(mesh, vertex, 0, a, worldx, worldz, 0.0, computeHeight)
    requires RowsGenerated(mesh, vertex, a, b, worldx, worldz, startTexV, computeHeight)
    ensures RowsGenerated(mesh, vertex, 0, b, worldx, worldz, 0.0, computeHeight)
  {
    forall y, x | 0 <= y < b && 0 <= y < VDIM && 0 <= x < VDIM
      ensures StoredVertex(mesh, VertexIndex(x, y)) == Generated(worldx, worldz, 0, 0.0, computeHeight, x, y)
    {
      if a <= y {
        BandTexCoordsContinuous(worldx, worldz, a, computeHeight, x, y);
      }
    }
  }

  // ---------------------------------------------------------------------------
  // The shared index array
  // ---------------------------------------------------------------------------

  /** initIndexArray: a fresh array of indexElements() entries holding the
      a, b, c, a, d, b triangles of every cell in row-major order. */
  method InitIndexArray() returns (chunkIndex: array<int>)
    ensures fresh(chunkIndex) && chunkIndex.Length == INDEX_ELEMENTS
    ensures chunkIndex[..] == Triangulation.GridIndices(DIM, DIM)
  {
    chunkIndex := new int[INDEX_ELEMENTS];
    Triangulation.FillIndices(chunkIndex, DIM);
  }

  /** Every index in the chunk index array names one of the chunk's
      vertices, and the largest is the last vertex. */
  lemma ChunkIndicesInBounds()
    ensures |Triangulation.GridIndices(DIM, DIM)| == INDEX_ELEMENTS
    ensures Triangulation.AllBelow(Triangulation.GridIndices(DIM, DIM), NUM_VERTICES)
    ensures Triangulation.GridIndices(DIM, DIM)[INDEX_ELEMENTS - 2] == NUM_VERTICES - 1
  {
    Triangulation.IndexArrayInBounds(DIM);
  }

  // ---------------------------------------------------------------------------
  // The chunk object
  // ---------------------------------------------------------------------------

  class Chunk {
    /** Vertex positions, 3 values per vertex. */
    var vertex: array<real>
    /** Interleaved position, normal and texture data, STRIDE values per vertex. */
    var mesh: array<real>

    ghost predicate Valid()
      reads this
    {
      mesh.Length == MESH_ELEMENTS && vertex.Length == VERTEX_ELEMENTS
    }

    /** The dummy constructor: buffers of the right size, contents not yet
        computed (C++ leaves them uninitialised; here they start at 0). */
    constructor Dummy()
      ensures Valid() && fresh(mesh) && fresh(vertex)
    {
      mesh := new real[MESH_ELEMENTS];
      vertex := new real[VERTEX_ELEMENTS];
    }

    /** The constructor of chunk (chunkcoordx, chunkcoordz): the three bands
        of rows [0, ZSPLIT1), [ZSPLIT1, ZSPLIT2) and [ZSPLIT2, VDIM), each
        starting its texture rows at its first row times texIncrement, then
        the normal pass. Every vertex ends up at its grid position from the
        chunk's origin, on the surface, with texture coordinates (x, y), and
        with the normal computeNormal gives it on the finished mesh. */
    constructor(chunkcoordx: int := 0, chunkcoordz: int := 0,
                computeHeight: (real, real) -> real, normalize: Vec3 -> Vec3)
      ensures Valid() && fresh(mesh) && fresh(vertex) && mesh != vertex
      ensures RowsGenerated(mesh[..], vertex[..], 0, VDIM, Origin(chunkcoordx), Origin(chunkcoordz),
                            0.0, computeHeight)
      ensures NormalRowsDone(mesh[..], mesh[..], VDIM, computeHeight, normalize)
    {
      mesh := new real[MESH_ELEMENTS];
      vertex := new real[VERTEX_ELEMENTS];
      new;
      var worldx := Origin(chunkcoordx);
      var worldz := Origin(chunkcoordz);
      GenerateMeshData(0, ZSPLIT1, worldx, worldz, 0.0, computeHeight);
      ghost var m1, vt1 := mesh[..], vertex[..];
      GenerateMeshData(ZSPLIT1, ZSPLIT2, worldx, worldz, TexSteps(ZSPLIT1), computeHeight);
      RowsKept(m1, vt1, mesh[..], vertex[..], 0, ZSPLIT1, worldx, worldz, 0.0, computeHeight,
               RowStart(ZSPLIT1), RowStart(ZSPLIT2));
      BandJoin(mesh[..], vertex[..], ZSPLIT1, ZSPLIT2, TexSteps(ZSPLIT1), worldx, worldz, computeHeight);
      ghost var m2, vt2 := mesh[..], vertex[..];
      GenerateMeshData(ZSPLIT2, VDIM, worldx, worldz, TexSteps(ZSPLIT2), computeHeight);
      RowsKept(m2, vt2, mesh[..], vertex[..], 0, ZSPLIT2, worldx, worldz, 0.0, computeHeight,
               RowStart(ZSPLIT2), RowStart(VDIM));
      BandJoin(mesh[..], vertex[..], ZSPLIT2, VDIM, TexSteps(ZSPLIT2), worldx, worldz, computeHeight);
      ghost var m3 := mesh[..];
      GenerateNormals(computeHeight, normalize);
      RowsGeneratedNormalKept(m3, mesh[..], vertex[..], 0, VDIM, worldx, worldz, 0.0, computeHeight);
      NormalsSettled(m3, mesh[..], computeHeight, normalize);
    }

    /** generateMeshData(startz, endz, worldx, worldz, startTexV): fill in the
        positions and texture coordinates of rows [startz, endz) in both
        buffers, leaving normals and all other rows as they were. */
    method GenerateMeshData(startz: int, endz: int, worldx: real, worldz: real, startTexV: real,
                            computeHeight: (real, real) -> real)
      requires Valid() && mesh != vertex && 0 <= startz <= endz <= VDIM
      modifies mesh, vertex
      ensures RowsGenerated(mesh[..], vertex[..], startz, endz, worldx, worldz, startTexV, computeHeight)
      ensures MeshKept(old(mesh[..]), mesh[..], RowStart(startz), RowStart(endz))
      ensures VertexKept(old(vertex[..]), vertex[..], RowStart(startz), RowStart(endz))
    {
      var pz := worldz + Cells(startz);
      var tv := startTexV;
      var index := VertexIndex(0, startz);
      var vindex := 3 * index;
      index := STRIDE * index;
      for y := startz to endz
        invariant pz == worldz + Cells(y)
        invariant tv == startTexV + TexSteps(y - startz)
        invariant index == At(RowStart(y), 0) && vindex == PosAt(RowStart(y), 0)
        invariant RowsGenerated(mesh[..], vertex[..], startz, y, worldx, worldz, startTexV, computeHeight)
        invariant MeshKept(old(mesh[..]), mesh[..], RowStart(startz), RowStart(y))
        invariant VertexKept(old(vertex[..]), vertex[..], RowStart(startz), RowStart(y))
      {
        ghost var m0, vt0 := mesh[..], vertex[..];
        GenerateRow(y, index, vindex, worldx, pz, tv, computeHeight);
        KeptCompose(old(mesh[..]), m0, mesh[..], old(vertex[..]), vt0, vertex[..], RowStart(startz), RowStart(y), RowStart(y + 1));
        RowsKept(m0, vt0, mesh[..], vertex[..], startz, y, worldx, worldz, startTexV, computeHeight,
                 RowStart(y), RowStart(y + 1));
        RowsExtend(mesh[..], vertex[..], startz, y, worldx, worldz, startTexV, computeHeight, pz, tv);
        StepsSucc(y);
        StepsSucc(y - startz);
        index := index + 8 * 129;
        vindex := vindex + 3 * 129;
        pz := pz + SCALE;
        tv := tv + TEX_INCREMENT;
      }
    }

    /** One row of generateMeshData: the inner loop over x, starting at
        buffer positions index and vindex. */
    method GenerateRow(y: int, index: int, vindex: int, worldx: real, pz: real, tv: real,
                       computeHeight: (real, real) -> real)
      requires Valid() && mesh != vertex && 0 <= y < VDIM
      requires index == At(RowStart(y), 0) && vindex == PosAt(RowStart(y), 0)
      modifies mesh, vertex
      ensures RowWritten(mesh[..], vertex[..], y, VDIM, worldx, pz, tv, computeHeight)
      ensures MeshKept(old(mesh[..]), mesh[..], RowStart(y), RowStart(y + 1))
      ensures VertexKept(old(vertex[..]), vertex[..], RowStart(y), RowStart(y + 1))
    {
      var px := worldx;
      var tu := 0.0;
      var index := index;
      var vindex := vindex;
      for x := 0 to VDIM
        invariant px == worldx + Cells(x) && tu == TexSteps(x)
        invariant index == At(VertexIndex(x, y), 0) && vindex == PosAt(VertexIndex(x, y), 0)
        invariant RowWritten(mesh[..], vertex[..], y, x, worldx, pz, tv, computeHeight)
        invariant MeshKept(old(mesh[..]), mesh[..], RowStart(y), VertexIndex(x, y))
        invariant VertexKept(old(vertex[..]), vertex[..], RowStart(y), VertexIndex(x, y))
      {
        var py := computeHeight(px, pz);
        ghost var m0, vt0 := mesh[..], vertex[..];
        WriteVertex(VertexIndex(x, y), index, vindex, px, py, pz, tu, tv);
        KeptCompose(old(mesh[..]), m0, mesh[..], old(vertex[..]), vt0, vertex[..],
                    RowStart(y), VertexIndex(x, y), VertexIndex(x, y) + 1);
        RowWrittenExtend(m0, vt0, mesh[..], vertex[..], y, x, worldx, pz, tv, computeHeight);
        StepsSucc(x);
        index := index + STRIDE;
        vindex := vindex + 3;
        px := px + SCALE;
        tu := tu + TEX_INCREMENT;
      }
    }

    /** The body of the inner loop: five mesh values of vertex v (skipping
        its normal) and its three position values. */
    method WriteVertex(ghost v: int, index: int, vindex: int, px: real, py: real, pz: real, tu: real, tv: real)
      requires Valid() && mesh != vertex && 0 <= v < NUM_VERTICES
      requires index == At(v, 0) && vindex == PosAt(v, 0)
      modifies mesh, vertex
      ensures StoredVertex(mesh[..], v) == VertexData(px, py, pz, tu, tv) && Mirrored(mesh[..], vertex[..], v)
      ensures MeshKept(old(mesh[..]), mesh[..], v, v + 1)
      ensures VertexKept(old(vertex[..]), vertex[..], v, v + 1)
    {
      mesh[index] := px;
      mesh[index + 1] := py;
      mesh[index + 2] := pz;
      mesh[index + 6] := tu;
      mesh[index + 7] := tv;
      vertex[vindex] := px;
      vertex[vindex + 1] := py;
      vertex[vindex + 2] := pz;
    }

    /** The normal pass of the constructor: for every vertex in row-major
        order, computeNormal at the vertex's stored x and z, written to its
        normal components. Heights, positions and texture coordinates are
        left as they were, so the normals are those of the mesh before the
        pass, and equally those of the mesh after it (NormalsSettled). */
    method GenerateNormals(computeHeight: (real, real) -> real, normalize: Vec3 -> Vec3)
      requires Valid()
      modifies mesh
      ensures NormalRowsDone(mesh[..], old(mesh[..]), VDIM, computeHeight, normalize)
      ensures NormalKept(old(mesh[..]), mesh[..], 0, NUM_VERTICES)
    {
      var index := 0;
      for y := 0 to VDIM
        invariant index == 8 * RowStart(y)
        invariant NormalRowsDone(mesh[..], old(mesh[..]), y, computeHeight, normalize)
        invariant NormalKept(old(mesh[..]), mesh[..], 0, RowStart(y))
      {
        ghost var m1 := mesh[..];
        NormalRow(y, index, old(mesh[..]), computeHeight, normalize);
        NormalKeptCompose(old(mesh[..]), m1, mesh[..], 0, RowStart(y), RowStart(y + 1));
        NormalRowsKept(m1, mesh[..], old(mesh[..]), y, computeHeight, normalize);
        NormalRowsExtend(mesh[..], old(mesh[..]), y, computeHeight, normalize);
        index := index + 8 * 129;
      }
    }

    /** One row of the normal pass, from buffer position index on; m0 is the
        mesh before the pass, of which only normals of earlier rows differ. */
    method NormalRow(y: int, index: int, ghost m0: seq<real>,
                     computeHeight: (real, real) -> real, normalize: Vec3 -> Vec3)
      requires Valid() && 0 <= y < VDIM && index == At(RowStart(y), 0)
      requires |m0| == MESH_ELEMENTS && NormalKept(m0, mesh[..], 0, RowStart(y))
      modifies mesh
      ensures NormalRowDone(mesh[..], m0, y, VDIM, computeHeight, normalize)
      ensures NormalKept(old(mesh[..]), mesh[..], RowStart(y), RowStart(y + 1))
    {
      var index := index;
      for x := 0 to VDIM
        invariant index == At(VertexIndex(x, y), 0)
        invariant NormalRowDone(mesh[..], m0, y, x, computeHeight, normalize)
        invariant NormalKept(old(mesh[..]), mesh[..], RowStart(y), VertexIndex(x, y))
      {
        ghost var m1 := mesh[..];
        NormalKeptCompose(m0, old(mesh[..]), m1, 0, RowStart(y), VertexIndex(x, y));
        NormalOfKept(m0, m1, 0, VertexIndex(x, y), x, y, computeHeight, normalize);
        var vx := mesh[index];
        var vz := mesh[index + 2];
        var norm := ComputeNormal(mesh[..], x, y, vx, vz, computeHeight, normalize);
        WriteNormal(VertexIndex(x, y), index, norm);
        NormalKeptCompose(old(mesh[..]), m1, mesh[..], RowStart(y), VertexIndex(x, y), VertexIndex(x, y) + 1);
        NormalRowExtend(m1, mesh[..], m0, y, x, computeHeight, normalize);
        index := index + STRIDE;
      }
    }

    /** The body of the normal loop: the three normal components of vertex v. */
    method WriteNormal(ghost v: int, index: int, norm: Vec3)
      requires Valid() && 0 <= v < NUM_VERTICES && index == At(v, 0)
      modifies mesh
      ensures StoredNormal(mesh[..], v) == norm
      ensures NormalKept(old(mesh[..]), mesh[..], v, v + 1)
    {
      mesh[index + 3] := norm.x;
      mesh[index + 4] := norm.y;
      mesh[index + 5] := norm.z;
    }
  }
}
