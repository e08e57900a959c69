# Chunked terrain: cache, chunk mesh and terrain grid

This project models the core of a small OpenGL flight demo. The demo draws
procedurally generated terrain in square chunks. Three components are modelled.

- `cache.dfy` (module `ChunkCache`) models the sliding-window chunk cache of
  `Project3P98/cache.h`. The cache is a 10 x 10 ring of slots. Each slot
  holds a status (VALID, QUEUED or INVALID) and the chunk last built into it.
  The cache also keeps a reference chunk, a wraparound domain origin and a
  FIFO queue of load requests.
  - `DrawStep` and `PollStep` are pure functions over `CacheState`. They
    specify `draw` and `pollLoadRequests`.
  - The class `Cache` performs the same steps in place on an `array` of
    slots. Its methods are proved equal to those functions.
  - Lemmas prove the window check, the one-step shifts, the whole-column and
    whole-row invalidation, the slot status transitions, FIFO polling, and
    the invariant that every QUEUED slot has a request waiting.
  - Slot arithmetic follows the code exactly, including C++'s truncating
    `%`. This exposes two defects (see Findings).
- `triangulation.dfy` (module `Triangulation`) holds the triangle index
  scheme. `Chunk` and `TerrainChunk` share it. Each grid cell gets the
  counter-clockwise triangles (a, b, c) and (a, d, b).
- `chunk.dfy` (module `ChunkMesh`) models the integer skeleton of `Chunk`
  from `Project3P98/chunk.h`:
  - the compile-time sizes;
  - the shared index array;
  - the interleaved stride-8 mesh buffer (position, normal, texture
    coordinates) and the stride-3 position buffer that `generateMeshData`
    fills;
  - the three-band row split of the constructor;
  - `height`, which reads the buffer inside the chunk and recomputes outside
    it;
  - the normal pass.

  The noise function `computeHeight` and `glm::normalize` are parameters.
  The model proves where every write lands, that the bands are disjoint and
  cover the grid, and what every vertex ends up holding.
- `terrain.dfy` (module `Terrain`) models `TerrainChunk` from
  `Project3P98/terrain.h`, the earlier single-grid terrain with 6 values per
  vertex. It covers:
  - the derived sizes;
  - the constructor's vertex, index, face-normal and face-area loops;
  - the two height maps;
  - the smooth-normal approximation.

  The model proves each loop against a function of the old contents. It
  also proves the read and write footprints that make computing normals in
  place sound.

`float` values are Dafny `real`. The cosine wave, `rand()` and
`glm::normalize` are parameters.

The background loader thread is commented out in the code
(`Project3P98/cache.h:79`, `:98`, `:103-104`, `:117`, `:126`). There is a
single load queue, and `pollLoadRequests` is one synchronous step that
builds the front request's chunk and marks its slot VALID. The model
follows the code.

## Model

| member | source | states |
|---|---|---|
| ChunkCache.CRem | Project3P98/cache.h:166-167 | C++ `a % DIM`: the result lies strictly between -DIM and DIM, has the sign of `a`, and is `a` itself when \|a\| < DIM; explicit values for one and two wraps either way |
| ChunkCache.CRemIsTruncatedRemainder | Project3P98/cache.h:166-167 | the truncating remainder equals the Euclidean remainder for `a >= 0` and minus the remainder of `-a` otherwise |
| ChunkCache.Wrap | Project3P98/cache.h:63-65 | `wrap(a)` lies in [0, DIM) for `a >= -DIM`, is `a + DIM` for negative `a`, `a` inside the range and 0 at DIM |
| ChunkCache.WrapIsMod | Project3P98/cache.h:63-65 | for every `a >= -DIM`, `wrap(a) == a mod DIM` |
| ChunkCache.IndexBijective | Project3P98/cache.h:60-62 | `index(x, y)` lies in [0, DIM²) and its column and row give back x and y |
| ChunkCache.IndexInjective | Project3P98/cache.h:60-62 | on [0, DIM)², `index(x1, y1) == index(x2, y2)` iff the coordinates are equal |
| ChunkCache.IndexOfSlot | Project3P98/cache.h:60-62 | every flat slot is `index` of its own column and row, both in [0, DIM) |
| ChunkCache.Initial | Project3P98/cache.h:85-96 | the constructed state is well formed (DIM² slots, origin in range), has no QUEUED slot without a request, and every slot is INVALID |
| ChunkCache.InvalidateColumn | Project3P98/cache.h:66-68 | the slot sequence after the loop: exactly the slots of column x are made INVALID, the rest are unchanged |
| ChunkCache.InvalidateRow | Project3P98/cache.h:69-71 | the same for the slots of row z |
| ChunkCache.InvalidateColumnEffect | Project3P98/cache.h:66-68 | column x is exactly the DIM slots `index(x, row)`; they become INVALID and keep their chunk, and every slot outside them is unchanged |
| ChunkCache.InvalidateRowEffect | Project3P98/cache.h:69-71 | the same for row z and the slots `index(col, z)` |
| ChunkCache.DrawFatalIff | Project3P98/cache.h:133-138 | `draw` ends fatally, leaving the state unchanged, iff `distx < -1 \|\| distx > DIM \|\| distz < -1 \|\| distz > DIM` |
| ChunkCache.StepAxisShape | Project3P98/cache.h:140-165 | on one axis: a back miss only when `dist < dom`, moving the origin to `wrap(dom - 1)` and invalidating that new origin line; a forward miss only when `dist >= dom + DIM`, moving it to `wrap(dom + 1)` and invalidating the old origin line; with no shift the slot is `dist mod DIM` |
| ChunkCache.StepAxisSlot | Project3P98/cache.h:140-141 | the slot of one axis is the truncating remainder of the old relative index plus the new origin |
| ChunkCache.StepAxisDomain | Project3P98/cache.h:142-165 | a step keeps the domain origin inside [0, DIM) |
| ChunkCache.AxisTracksReference | Project3P98/cache.h:142-165 | each axis moves its origin by the same -1, 0 or +1 as its reference chunk, modulo DIM |
| ChunkCache.ForwardOnlyFromOrigin | Project3P98/cache.h:148-153 | an east or north miss happens iff the origin is 0 and the distance is DIM |
| ChunkCache.SlotInRangeIff | Project3P98/cache.h:140-141 | the computed slot lies in [0, DIM) iff not (`dist < dom`, `dom > 0` and `dist <= 0`); it is never below -2 |
| ChunkCache.DrawShiftsAtMostOne | Project3P98/cache.h:140-165 | a draw that passes the window check moves each reference coordinate by at most one, and each domain origin moves by the same step modulo DIM |
| ChunkCache.DrawStepFrame | Project3P98/cache.h:140-165 | the reference and origin after a draw are those of the two axis steps, whatever the slot lookup does |
| ChunkCache.DrawResolves | Project3P98/cache.h:166-169 | after the shifts, `draw` resolves `index(index_x, index_z)` from the two axis slots, or reports a slot outside the array |
| ChunkCache.SlotTransition | Project3P98/cache.h:169-182 | VALID is drawn and unchanged; INVALID becomes QUEUED and exactly one request (slot, chunkx, chunkz) is appended; QUEUED changes nothing |
| ChunkCache.ShiftedWellFormed | Project3P98/cache.h:142-165 | the shifts keep the state well formed and keep every QUEUED slot tracked by a request |
| ChunkCache.EnqueuePreserves | Project3P98/cache.h:175-181 | marking the slot QUEUED together with pushing its request keeps every QUEUED slot tracked |
| ChunkCache.ActOnSlotPreserves | Project3P98/cache.h:169-182 | the status step keeps the state well formed and every QUEUED slot tracked |
| ChunkCache.DrawPreserves | Project3P98/cache.h:132-183 | `draw` keeps the state well formed and never leaves a QUEUED slot without a request |
| ChunkCache.DrawCompletes | Project3P98/cache.h:132-183 | `draw` is the window check, then the two shifts, then the lookup at the two axis slots; the result keeps the invariants |
| ChunkCache.PollEffect | Project3P98/cache.h:119-125 | with an empty queue nothing changes; otherwise exactly the front request is removed and its slot becomes VALID, holding the chunk built for its coordinates, with every other slot, the reference and the origin unchanged |
| ChunkCache.PollPreserves | Project3P98/cache.h:119-125 | polling keeps the state well formed and every QUEUED slot tracked |
| ChunkCache.RepeatedDrawEnqueuesOnce | Project3P98/cache.h:169-182 | drawing the same coordinate twice with no shift enqueues at most one request in total |
| ChunkCache.NoShiftDraw | Project3P98/cache.h:140-169 | a draw with no shift on either axis acts on slot `index` of the two axis slots, which lies in the array |
| ChunkCache.FreshDraw | Project3P98/cache.h:132-182 | from a fresh cache, drawing a coordinate of the window [refx, refx+DIM) x [refz, refz+DIM) requests slot `index(x - refx, z - refz)` |
| ChunkCache.FreshWindowInjective | Project3P98/cache.h:140-169 | from a fresh cache, distinct coordinates of the window land in distinct slots |
| ChunkCache.IntendedAxisCorrect | Project3P98/cache.h:140-167 | with the intended arithmetic, the slot always lies in [0, DIM) and the new origin is the origin moved by the shift |
| ChunkCache.IntendedShiftKeepsSlots | Project3P98/cache.h:142-167 | with the intended arithmetic, a coordinate that stays in the window keeps its slot across a shift |
| ChunkCache.SlotOfInjective | Project3P98/cache.h:166-169 | with the intended arithmetic, distinct in-window coordinates map to distinct slots |
| ChunkCache.AsWrittenBackMissSlot | Project3P98/cache.h:140-147 | as written, a west miss from origin 0 resolves to slot 8 although the intended slot is the freshly invalidated slot 9 |
| ChunkCache.AsWrittenNegativeSlot | Project3P98/cache.h:140-141 | as written, a back miss from origin 1 at distance 0 yields slot -1 where the intended step yields slot 1 |
| ChunkCache.Cache.constructor | Project3P98/cache.h:85-96 | the reference defaults to (0, 0); the object's state is the initial state: DIM² INVALID slots, the given reference, origin (0, 0), an empty queue |
| ChunkCache.Cache.InvalidateColumnAt | Project3P98/cache.h:66-68 | the slot array becomes `InvalidateColumn` of its old contents; nothing else changes |
| ChunkCache.Cache.InvalidateRowAt | Project3P98/cache.h:69-71 | the slot array becomes `InvalidateRow` of its old contents; nothing else changes |
| ChunkCache.Cache.PollLoadRequests | Project3P98/cache.h:116-128 | the new state is `PollStep` of the old one, and the invariant is kept |
| ChunkCache.Cache.ShiftColumns | Project3P98/cache.h:140-153 | the west/east half of `draw` moves domx, refx and the slots as the x-axis step says; z and the queue are unchanged |
| ChunkCache.Cache.ShiftRows | Project3P98/cache.h:154-165 | the south/north half does the same on the z axis |
| ChunkCache.Cache.Recenter | Project3P98/cache.h:140-165 | the shifts of both axes, column then row, give the state `Shifted` from the two axis steps |
| ChunkCache.Cache.Draw | Project3P98/cache.h:132-183 | the outcome and the new state are `DrawStep` of the old state, and the invariant is kept |
| ChunkCache.Cache.ResolveAt | Project3P98/cache.h:166-182 | the lookup and status step give the outcome and the state of `Resolve` |
| ChunkCache.StaleDrawAfterBackMiss | Project3P98/cache.h:140-174 | Cache(0,0); draw(8,0); pollLoadRequests(); draw(-1,0): the west miss draws slot 8, still holding chunk (8, 0) |
| ChunkCache.NegativeIndexAfterForwardMiss | Project3P98/cache.h:148-169 | Cache(0,0); draw(10,0); draw(1,0): the second draw computes array column -1 |
| ChunkCache.DoubleRequestAfterShift | Project3P98/cache.h:119-181 | Cache(0,0); draw(9,0); draw(-1,0); draw(8,0): the queue holds two requests for slot 9, and after one pollLoadRequests(), draw(8,0) draws slot 9 holding the old chunk (9, 0) |
| ChunkCache.LiveRequests | Project3P98/cache.h:66-71 | the result keeps exactly the requests of the queue whose slot is still QUEUED: every kept request is from the queue and names a QUEUED slot, and every such request of the queue is kept |
| ChunkCache.LiveRequestsDistinct | Project3P98/cache.h:175-181 | dropping requests keeps the slots of a queue pairwise distinct |
| ChunkCache.InitialOneInFlight | Project3P98/cache.h:85-96 | a fresh cache has at most one build in flight per slot: no slot is QUEUED and the queue is empty |
| ChunkCache.CancelRestoresOneInFlight | Project3P98/cache.h:142-165 | after a shift that only clears QUEUED, cancelling the requests whose slot is no longer QUEUED gives back one request per QUEUED slot and none for any other slot |
| ChunkCache.ActOnSlotOneInFlight | Project3P98/cache.h:169-182 | marking an INVALID slot QUEUED and enqueueing its request, or drawing or skipping any other slot, keeps one request per QUEUED slot and none for any other slot |
| ChunkCache.ShiftedQueuedWasQueued | Project3P98/cache.h:142-165 | the shifts keep the number of slots, and a slot QUEUED after them was QUEUED before |
| ChunkCache.CancellingDrawOneInFlight | Project3P98/cache.h:132-183 | with the intended slot arithmetic and cancellation of the requests of invalidated slots, every draw, shifts included, keeps one request per QUEUED slot and none for any other slot |
| ChunkCache.PollOneInFlight | Project3P98/cache.h:116-128 | polling a well-formed cache that has one request per QUEUED slot keeps that property |
| Triangulation.CellIndicesBelow | Project3P98/chunk.h:66-69 | the six indices of a cell in row y name vertices of rows y and y + 1 |
| Triangulation.RowIndicesBelow | Project3P98/chunk.h:64-77 | every index of the cells of row y lies in [0, (y+2)(w+1)) |
| Triangulation.GridIndicesBelow | Project3P98/chunk.h:63-78 | every index of rows [0, h) lies in [0, (h+1)(w+1)) |
| Triangulation.IndexArrayInBounds | Project3P98/chunk.h:63-69 | every index of a w x w grid names one of its (w+1)² vertices; the largest, `d` of the last cell, is (w+1)² - 1 |
| Triangulation.RowIndicesAt | Project3P98/chunk.h:64-77 | cell x occupies entries 6x .. 6x+5 of its row |
| Triangulation.GridIndicesAt | Project3P98/chunk.h:61-78 | cell k = y·w + x occupies entries 6k .. 6k+5 of the index array, holding (a, b, c, a, d, b) |
| Triangulation.CellTriangles | Project3P98/chunk.h:66-76 | c = y·vw + x, a = c+1, b = c+vw, d = a+vw; the two triangles share the edge a-b and together use all four corners |
| Triangulation.FillIndices | Project3P98/terrain.h:102-119 | the index loop writes the first 6w² entries with the index array of a w x w grid and leaves the rest untouched |
| Triangulation.FillRow | Project3P98/terrain.h:105-118 | the inner loop appends the cells of row y and writes nothing else |
| Triangulation.WriteCell | Project3P98/terrain.h:107-117 | one iteration writes the six indices of cell (x, y) at the running index and nothing else |
| ChunkMesh.Sizes | Project3P98/chunk.h:28-49 | DIM is the truncation of DENSITY·CHUNK_WIDTH (128), VDIM = 129, numVertices = VDIM², meshElements = 8·VDIM², numTriangles = 2·DIM², indexElements = 6·DIM², boundaryOffset 128, texIncrement 1, band splits 43 and 86 |
| ChunkMesh.StepsSucc | Project3P98/chunk.h:170-176 | one more step of the mesh loop adds SCALE to the coordinate and texIncrement() to the texture coordinate |
| ChunkMesh.LayoutFormulas | Project3P98/chunk.h:154-169 | vertex (x, z) is number z·VDIM + x, and its component off sits at STRIDE·v + off |
| ChunkMesh.LayoutCovers | Project3P98/chunk.h:43-45 | every position of the mesh and position buffers is one component of exactly one in-range vertex |
| ChunkMesh.LayoutInBounds | Project3P98/chunk.h:179-182 | every in-grid vertex component, including the height read by `height`, lies in the buffer and has offset `off` within its vertex |
| ChunkMesh.LayoutInjective | Project3P98/chunk.h:154-169 | distinct (vertex, component) pairs occupy distinct buffer positions |
| ChunkMesh.BandTexCoordsContinuous | Project3P98/chunk.h:233-235 | a band started at row startz with startTexV = startz·texIncrement() generates each vertex exactly as a single call from row 0 would |
| ChunkMesh.BandsPartition | Project3P98/chunk.h:230-235 | the bands [0, ZSPLIT1), [ZSPLIT1, ZSPLIT2), [ZSPLIT2, VDIM) write pairwise disjoint parts of the mesh buffer, together every position and texture component of every vertex, and never a normal; their vertex ranges, which are what each band writes of the position buffer, are ordered and cover every vertex |
| ChunkMesh.KeptCompose | Project3P98/chunk.h:157-177 | writing vertices [lo, mid) and then [mid, hi) writes only vertices [lo, hi) |
| ChunkMesh.RowWrittenExtend | Project3P98/chunk.h:158-172 | writing vertex x of row y keeps the vertices before it and adds vertex x |
| ChunkMesh.RowsExtend | Project3P98/chunk.h:157-177 | a finished row extends the generated rows by one |
| ChunkMesh.RowsKept | Project3P98/chunk.h:157-177 | writing later vertices keeps the rows already generated |
| ChunkMesh.HeightReadsHeightsOnly | Project3P98/chunk.h:179-182 | `height` reads only the y components of the buffer |
| ChunkMesh.HeightIsSurface | Project3P98/chunk.h:179-182 | where the stored heights lie on the surface, reading a stored height equals recomputing it, inside or outside the chunk |
| ChunkMesh.NormalReadsHeightsOnly | Project3P98/chunk.h:183-190 | `computeNormal` reads only the y components of the buffer |
| ChunkMesh.NeighbourHeights | Project3P98/chunk.h:185-188 | the four neighbour heights are the surface heights one cell away, inside or outside the chunk |
| ChunkMesh.NeighbourHeight | Project3P98/chunk.h:179-182 | a stored height on the surface is the surface height at its world position |
| ChunkMesh.NormalFromHeights | Project3P98/chunk.h:183-190 | `computeNormal` is `normalize(l - r, 2, d - u)` of the four neighbour heights |
| ChunkMesh.SurfaceNormal | Project3P98/chunk.h:179-190 | where the heights lie on the surface, a vertex normal depends only on the surface and the vertex's world position |
| ChunkMesh.FlatGroundNormalIsUp | Project3P98/chunk.h:183-190 | on flat ground every normal is `normalize(0, 2, 0)` |
| ChunkMesh.NormalKeptCompose | Project3P98/chunk.h:244-259 | writing the normals of [lo, mid) and then [mid, hi) changes only the normals of [lo, hi) |
| ChunkMesh.NormalOfKept | Project3P98/chunk.h:244-259 | writing normals changes no height, so the normal computed for any vertex is the same before and after |
| ChunkMesh.NormalRowExtend | Project3P98/chunk.h:245-258 | writing the normal of vertex x of row y keeps the earlier normals of the row and adds vertex x |
| ChunkMesh.NormalRowsExtend | Project3P98/chunk.h:244-259 | a finished row extends the finished rows by one |
| ChunkMesh.NormalRowsKept | Project3P98/chunk.h:244-259 | writing the normals of row y keeps those of the earlier rows |
| ChunkMesh.RowsGeneratedNormalKept | Project3P98/chunk.h:241-259 | the normal pass keeps every position and texture coordinate the bands generated |
| ChunkMesh.NormalsSettled | Project3P98/chunk.h:241-259 | the normals computed in place from the buffer before the pass are the normals of the buffer after it |
| ChunkMesh.ChunksTile | Project3P98/chunk.h:224-227 | chunk c spans DIM cells from CHUNK_WIDTH·c - boundaryOffset(), is centred on CHUNK_WIDTH·c and ends where chunk c + 1 starts |
| ChunkMesh.BandJoin | Project3P98/chunk.h:233-235 | rows [0, a) followed by a band [a, b) started at texture row a are rows [0, b) of one call from row 0 |
| ChunkMesh.InitIndexArray | Project3P98/chunk.h:52-79 | a fresh array of indexElements() entries holding exactly the (a, b, c, a, d, b) index array of the DIM x DIM grid |
| ChunkMesh.ChunkIndicesInBounds | Project3P98/chunk.h:63-69 | the chunk index array has indexElements() entries, each in [0, numVertices()), the largest numVertices() - 1 |
| ChunkMesh.Chunk.Dummy | Project3P98/chunk.h:203-214 | two fresh buffers of meshElements() and vertexElements() values |
| ChunkMesh.Chunk.constructor | Project3P98/chunk.h:217-260 | the chunk coordinate defaults to (0, 0); every vertex holds the position and texture coordinates a single pass from row 0 would generate at the chunk's world origin, the position buffer mirrors them, and every normal is `computeNormal` of the final buffer |
| ChunkMesh.Chunk.GenerateMeshData | Project3P98/chunk.h:148-178 | rows [startz, endz) hold the generated positions, heights and texture coordinates; only those rows' position and texture components change, and no normal |
| ChunkMesh.Chunk.GenerateRow | Project3P98/chunk.h:158-172 | the inner loop writes the VDIM vertices of row y and nothing else |
| ChunkMesh.Chunk.WriteVertex | Project3P98/chunk.h:160-169 | the body writes five mesh values and three position values of one vertex, skipping its normal |
| ChunkMesh.Chunk.GenerateNormals | Project3P98/chunk.h:241-259 | the pass stores for every vertex, in row-major order, `computeNormal` of the buffer before it, and changes only normals |
| ChunkMesh.Chunk.NormalRow | Project3P98/chunk.h:245-258 | one row of the pass writes the normals of row y and nothing else |
| ChunkMesh.Chunk.WriteNormal | Project3P98/chunk.h:254-256 | the three writes store one normal at offsets 3-5 of its vertex and change nothing else |
| Terrain.RowBelow | Project3P98/terrain.h:31-33 | vertices of rows before y are numbered before row y |
| Terrain.RowAbove | Project3P98/terrain.h:31-33 | vertices of rows after y are numbered after row y |
| Terrain.VertexOfInjective | Project3P98/terrain.h:31-33 | distinct grid coordinates are distinct vertices |
| Terrain.VertexInGrid | Project3P98/terrain.h:31-33 | a grid vertex lies in the vertex buffer |
| Terrain.InitRowAt | Project3P98/terrain.h:83-90 | vertex x of row z is at 6x .. 6x+5 of the row and holds (-width/2 + x, ylvl, -width/2 + z, 0, 1, 0) |
| Terrain.InitGridAt | Project3P98/terrain.h:82-93 | row z of the grid starts at 6·z·(width+1) |
| Terrain.InitVertexAt | Project3P98/terrain.h:79-93 | component off of vertex (x, z) of the initial grid, in bounds |
| Terrain.InitialVertex | Project3P98/terrain.h:79-93 | after construction vertex (x, z) is at (-width/2 + x, ylvl, -width/2 + z) with normal (0, 1, 0); the grid is symmetric about the origin |
| Terrain.OnlyHeightsCompose | Project3P98/terrain.h:147-163 | changing only the heights of [lo, mid) and then of [mid, hi) changes only those of [lo, hi) |
| Terrain.HeightWritten | Project3P98/terrain.h:161 | writing offset 1 of vertex v changes only the height of v |
| Terrain.RandomHeight | Project3P98/terrain.h:161 | `(rand() % 101 - 50) / 130` lies in [-50/130, 50/130] |
| Terrain.ApproxNormalReadsHeights | Project3P98/terrain.h:249-253 | the approximated normal reads only heights, so it is the same on any buffer with the same heights |
| Terrain.ApproxNormalLevel | Project3P98/terrain.h:249-253 | where the four neighbours stand level the normal is `normalize(0, 2, 0)` |
| Terrain.InnerNeighbours | Project3P98/terrain.h:248-252 | for an inner vertex, `index - 5`, `index + 7` and `index ± 6·(width+1) + 1` are the heights of its left, right, upper and lower neighbours, all in the buffer |
| Terrain.RaisedRowsExtend | Project3P98/terrain.h:149-154 | raising the heights of row y, and only those, extends the raised rows by one |
| Terrain.NormalKeptOffRow | Project3P98/terrain.h:246-258 | changing only the normals of the inner vertices of row z keeps every normal outside them |
| Terrain.SmoothedRowsExtend | Project3P98/terrain.h:246-258 | smoothing the inner vertices of row z extends the smoothed rows and keeps every other normal |
| Terrain.OnlyNormalsCompose | Project3P98/terrain.h:246-258 | changing only the normals of [lo, mid) and then of [mid, hi) changes only those of [lo, hi) |
| Terrain.RowSmoothedExtend | Project3P98/terrain.h:247-257 | writing the normal of inner vertex x keeps the earlier vertices of the row smoothed and adds x |
| Terrain.NormalUnchanged | Project3P98/terrain.h:254-256 | a vertex outside the written range keeps its normal |
| Terrain.AsWrittenIndexBufferHalfUnwritten | Project3P98/terrain.h:59 | as written, `num_indices` is twice the 6·width² entries the index loop writes |
| Terrain.AsWrittenMainGrid | Project3P98/terrain.h:57-59 | for a 64-cell grid, 49152 entries are allocated and 24576 written |
| Terrain.IntendedIndexBufferFilled | Project3P98/terrain.h:102-119 | with `num_indices = 3·num_faces`, the index loop fills the buffer exactly, every index names a vertex, and this is the size `Chunk` uses |
| Terrain.FaceNormalTriple | Project3P98/terrain.h:124-129 | the three components of every initial face normal are 0, 1, 0 |
| Terrain.TerrainChunk.Sizes | Project3P98/terrain.h:51-62 | num_elements = 6·num_vertices, num_indices = 6·num_faces (twice 3·num_faces), byte sizes 4 per value |
| Terrain.TerrainChunk.IndexOfProperties | Project3P98/terrain.h:31-33 | `indexOf(x, z)` is 6 times the vertex number, a multiple of 6, leaves room for six values inside the buffer, and is injective |
| Terrain.TerrainChunk.constructor | Project3P98/terrain.h:51-136 | gridsize defaults to 16 and the y level to 0; sizes from gridsize; the vertex buffer is the initial grid; the first 6·width² indices are the grid's index array; every face normal is (0, 1, 0) and every face area 0.5 |
| Terrain.TerrainChunk.FillVertexGrid | Project3P98/terrain.h:79-93 | the vertex loop fills the whole buffer with the initial grid |
| Terrain.TerrainChunk.FillVertexRow | Project3P98/terrain.h:83-90 | the inner vertex loop appends row y and writes nothing else |
| Terrain.TerrainChunk.WriteGridVertex | Project3P98/terrain.h:84-89 | one iteration appends the six values of one vertex |
| Terrain.TerrainChunk.FillFaceNormals | Project3P98/terrain.h:124-129 | every face-normal component is 0, 1, 0 by position modulo 3 |
| Terrain.TerrainChunk.FillFaceAreas | Project3P98/terrain.h:134-135 | every face area is 0.5 |
| Terrain.TerrainChunk.ApplySinusoidalHeightmap | Project3P98/terrain.h:147-155 | every vertex (x, z) rises by wave(x), and nothing but heights changes |
| Terrain.TerrainChunk.SinusoidalRow | Project3P98/terrain.h:150-153 | one row rises by wave(x) and the running index advances by one row |
| Terrain.TerrainChunk.ApplyRandomHeightmap | Project3P98/terrain.h:158-163 | the height of vertex v becomes the v-th random height, and nothing but heights changes |
| Terrain.TerrainChunk.ComputeSmoothNormalsApproximation | Project3P98/terrain.h:241-259 | every inner vertex gets the approximated normal of the buffer before the pass; border normals, positions and heights are unchanged |
| Terrain.TerrainChunk.SmoothRow | Project3P98/terrain.h:247-257 | the inner loop smooths the inner vertices of row z and changes only their normals |
| Terrain.TerrainChunk.WriteNormal | Project3P98/terrain.h:254-256 | the three writes store one normal at offsets 3-5 and change nothing else |

## Left out

- Floating point: every `float` and `double` is an exact `real`. Rounding and the accumulation `px += SCALE`, `vx++` are not modelled. The model uses `worldx + SCALE·x` in their place.
- `computeHeight` (simplex noise, `pow`), `glm::normalize`, the `cos(0.7 x)` of `applySinusoidalHeightmap` and `rand()` are function parameters. Their bodies are out of scope as floating-point or library code.
- Terrain.TerrainChunk.ApplyRandomHeightmap: `srand(time(0))` and the `rand()` sequence are the parameter `draw`. The v-th call returns `draw(v)`.
- Threads: the constructor of `Chunk` runs its three `generateMeshData` bands on `std::thread`s. The model runs them one after another and proves that they write disjoint parts of the buffers, so their order does not matter.
- The commented-out worker thread of the cache, the `volatile` status and `POLL_DELAY` are not modelled. `pollLoadRequests` is one atomic step.
- ChunkCache.Cache.Draw: `exit(EXIT_FAILURE)` is the outcome `Fatal`, and the state is left unchanged. The `printf` diagnostics are not modelled. Drawing a chunk (`cc.chunk.draw()`) is the outcome `Drawn(slot, chunk)`. An index outside the array is the outcome `OutOfRange`; the C++ code reads outside the vector there.
- ChunkCache.Cache.PollLoadRequests: building `Chunk(chunkx, chunkz)` is recorded as `Built(chunkx, chunkz)` in the slot, not as the mesh itself. The mesh is modelled by `ChunkMesh.Chunk.constructor`. The `printf` of the chunk being generated (`cache.h:122`) is not modelled.
- ChunkCache.DrawStep: this is the draw as written, and the `Cache` class follows it. For it, at most one build in flight per slot is proved only for draws without an intervening shift (`RepeatedDrawEnqueuesOnce`); see Findings for the double request after a shift. The cancelling draw of `CancellingDrawOneInFlight` keeps it across shifts. That a VALID slot always holds the chunk of the coordinate that maps to it is not stated as an invariant of a whole draw.
- The reload order described in the header comment of `cache.h` (lines 26-29) is not implemented in the code, and it is not modelled.
- OpenGL: `glLoad`, `draw`, `computeSharedResources`, `freeSharedResources`, the VAO/VBO/EBO fields and the GL deletes of the destructors.
- Reference counting, copy, move and swap of `Chunk`, and the destructors of all three classes. Dafny's memory model replaces manual memory management.
- ChunkMesh.Chunk.Dummy: the C++ buffers are left uninitialised. The model states only their sizes.
- Terrain.TerrainChunk.constructor: the upper half of `indices` is never written in the C++ code (see Findings), and its contents are left unconstrained.
- ChunkMesh.Chunk.constructor: `DRAW_CHUNK_BORDERS` is off by default, so the border-normal inversion at `chunk.h:251-253` is not modelled.
- ChunkMesh.Chunk.constructor: `CHUNK_WIDTH * chunkcoordx` can overflow a 32-bit `int` for very distant chunks. The model uses unbounded integers.
- Terrain.TerrainChunk.Sizes: the sizes are unbounded naturals. The 32-bit unsigned wrap-around of `num_elements`, `num_indices` and the byte sizes for very large grids is not modelled. `pow(width + 1, 2)` is taken as the exact square.
- `computeAngleWeightedSmoothNormals` and `computeFaceNormals` in `terrain.h` are floating-point geometry (`acos`, cross products). Their index arithmetic is also inconsistent with the buffer layout, so they are not modelled. The same goes for the model matrix and colour fields.
- The comment that `gridsize` should be even is not enforced by the code, and the model does not require it.
- `camera.h`, `shader.h`, `texture.h`, `models.h`, `world.h`, `aliases.h` and `main.cpp` are not part of this model. They are input, GL and window code with no core logic.

## Findings

| source | as written | input that shows it | evidently intended | confidence | as-written member | corrected member |
|---|---|---|---|---|---|---|
| Project3P98/cache.h:140-147, 166-169 | the slot is `(distx - old_domx + new_domx) % DIM`. A west miss from origin 0 moves the origin to 9 and invalidates column 9. The miss itself then resolves to column 8, which still holds a chunk of the old window marked VALID. | Cache(0,0); draw(8,0); pollLoadRequests(); draw(-1,0): slot 8 is drawn, holding chunk (8, 0) | the newly exposed chunk goes to the freshly invalidated column, `wrap(domx + distx)` after the shift | not executed | ChunkCache.AsWrittenBackMissSlot, ChunkCache.StaleDrawAfterBackMiss | ChunkCache.IntendedAxisCorrect |
| Project3P98/cache.h:140-141, 166-167 | miss detection compares `distx` with `domx`, not with 0. For origin > 0 and distance <= 0, a "west miss" is taken for an in-window chunk, and the truncating `%` yields a negative array index. | Cache(0,0); draw(10,0); draw(1,0): the second draw computes column -1 and reads outside the vector | a miss is `distx < 0` or `distx >= DIM`, and the slot is `(domx + distx) mod DIM`, always in [0, DIM) | not executed | ChunkCache.AsWrittenNegativeSlot, ChunkCache.NegativeIndexAfterForwardMiss | ChunkCache.IntendedAxisCorrect |
| Project3P98/cache.h:119-124, 142-147, 175-181 | a shift invalidates a line of slots but leaves their requests in the queue. Drawing into such a slot again queues a second build for it, and the first poll builds the old coordinate and marks the slot VALID. | Cache(0,0); draw(9,0); draw(-1,0); draw(8,0); pollLoadRequests(); draw(8,0): slot 9 is drawn holding chunk (9, 0) | invalidating a slot cancels its pending request, so each slot has at most one build in flight | not executed | ChunkCache.DoubleRequestAfterShift | ChunkCache.CancellingDrawOneInFlight, ChunkCache.PollOneInFlight |
| Project3P98/terrain.h:59 | `num_indices = num_faces * vertices_stride`, 12·width². The index loop writes 6·width² entries. `indices_size` covers the whole buffer, so the unwritten half is uploaded too. | width 64: 49152 entries allocated, 24576 written | `num_faces * 3`, three indices per triangle as the comment says, and as `Chunk::indexElements()` computes | not executed | Terrain.AsWrittenIndexBufferHalfUnwritten, Terrain.AsWrittenMainGrid | Terrain.IntendedIndexBufferFilled |
