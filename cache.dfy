/** The sliding-window chunk cache: a DIM x DIM ring of cached chunk slots, a
    reference chunk, a wraparound domain origin and a FIFO of load requests.

    The pure part (CacheState, DrawStep, PollStep) is the specification; the
    class Cache is the in-place implementation, proved against it. The slot
    arithmetic is modelled exactly as the code does it, including the C++
    truncating remainder; IntendedAxis is the evidently intended arithmetic. */
module ChunkCache {

  /** Cache matrix dimension and volume. */
  const DIM: int := 10
  const CACHE_VOL: int := DIM * DIM

  datatype Status = Valid | Queued | Invalid

  /** The chunk mesh held by a slot, reduced to which chunk it was built for:
      a slot starts out with a placeholder ("dummy") chunk. */
  datatype Mesh = Placeholder | Built(chunkx: int, chunkz: int)

  datatype CachedChunk = CachedChunk(status: Status, chunk: Mesh)

  /** A load request names its slot by flat index instead of by pointer. */
  datatype LoadRequest = LoadRequest(slot: int, chunkx: int, chunkz: int)

  // ---------------------------------------------------------------------------
  // Index arithmetic
  // ---------------------------------------------------------------------------

  /** C++ `a % DIM`: the remainder truncated toward zero, which takes the
      sign of the dividend (unlike Dafny's Euclidean `%`). Defined by
      repeated subtraction; CRemIsTruncatedRemainder relates it to `%`. */
  function CRem(a: int): (r: int)
    ensures -DIM < r < DIM
    ensures a >= 0 ==> 0 <= r <= a
    ensures a <= 0 ==> a <= r <= 0
    ensures -DIM < a < DIM ==> r == a
    ensures DIM <= a < 3 * DIM ==> r == (if a < 2 * DIM then a - DIM else a - 2 * DIM)
    ensures -3 * DIM < a <= -DIM ==> r == (if a > -2 * DIM then a + DIM else a + 2 * DIM)
    decreases if a >= 0 then a else -a
  {
    if a >= DIM then CRem(a - DIM)
    else if a <= -DIM then CRem(a + DIM)
    else a
  }

  /** CRem is the truncating remainder: the Euclidean remainder of |a|,
      carrying the sign of a. */
  lemma {:induction false} CRemIsTruncatedRemainder(a: int)
    ensures CRem(a) == if a >= 0 then a % DIM else -((-a) % DIM)
    decreases if a >= 0 then a else -a
  {
    if a >= DIM {
      CRemIsTruncatedRemainder(a - DIM);
      ModShift(a - DIM);
    } else if a <= -DIM {
      CRemIsTruncatedRemainder(a + DIM);
      ModShift(-a - DIM);
    }
  }

  lemma ModShift(b: int)
    requires b >= 0
    ensures (b + DIM) % DIM == b % DIM
  {
    var q, r := b / DIM, b % DIM;
    assert b + DIM == (q + 1) * DIM + r;
  }

  /** Flat index of 2D cache position (x, y). */
  function Index(x: int, y: int): int
  {
    y * DIM + x
  }

  function Column(i: int): int { i % DIM }
  function Row(i: int): int { i / DIM }

  /** The wrapped array index: (a + DIM) % DIM in C++. */
  function Wrap(a: int): (r: int)
    ensures a >= -DIM ==> 0 <= r < DIM
    ensures -DIM <= a < 0 ==> r == a + DIM
    ensures 0 <= a < DIM ==> r == a
    ensures a == DIM ==> r == 0
    ensures a < -DIM ==> r <= 0
  {
    CRem(a + DIM)
  }

  /** For every argument the window arithmetic produces, Wrap is the
      mathematical remainder. */
  lemma WrapIsMod(a: int)
    requires a >= -DIM
    ensures Wrap(a) == a % DIM
  {
    CRemIsTruncatedRemainder(a + DIM);
    assert (a + DIM) % DIM == a % DIM;
  }

  /** Index is a bijection between [0,DIM)^2 and [0,CACHE_VOL). */
  lemma IndexBijective(x: int, y: int)
    requires 0 <= x < DIM && 0 <= y < DIM
    ensures 0 <= Index(x, y) < CACHE_VOL
    ensures Column(Index(x, y)) == x && Row(Index(x, y)) == y
  {
  }

  lemma IndexInjective(x1: int, y1: int, x2: int, y2: int)
    requires 0 <= x1 < DIM && 0 <= y1 < DIM && 0 <= x2 < DIM && 0 <= y2 < DIM
    ensures Index(x1, y1) == Index(x2, y2) <==> x1 == x2 && y1 == y2
  {
    IndexBijective(x1, y1);
    IndexBijective(x2, y2);
  }

  lemma IndexOfSlot(i: int)
    requires 0 <= i < CACHE_VOL
    ensures 0 <= Column(i) < DIM && 0 <= Row(i) < DIM && Index(Column(i), Row(i)) == i
  {
  }

  // ---------------------------------------------------------------------------
  // Abstract state
  // ---------------------------------------------------------------------------

  datatype CacheState = CacheState(
    slots: seq<CachedChunk>,
    refx: int, refz: int,
    domx: int, domz: int,
    queue: seq<LoadRequest>)

  /** The shape every reachable state has: DIM^2 slots, domain origin inside
      the array, every queued request names a slot of the array. */
  ghost predicate WellFormed(st: CacheState)
  {
    && |st.slots| == CACHE_VOL
    && 0 <= st.domx < DIM && 0 <= st.domz < DIM
    && forall k :: 0 <= k < |st.queue| ==> 0 <= st.queue[k].slot < CACHE_VOL
  }

  /** Every slot marked QUEUED has a request for it waiting in the queue. */
  ghost predicate QueuedTracked(st: CacheState)
  {
    forall i :: 0 <= i < |st.slots| && st.slots[i].status == Queued ==>
      exists k :: 0 <= k < |st.queue| && st.queue[k].slot == i
  }

  /** The state right after construction. */
  function Initial(referencex: int, referencez: int): (st: CacheState)
    ensures WellFormed(st) && QueuedTracked(st)
    ensures forall i :: 0 <= i < |st.slots| ==> st.slots[i].status == Invalid
  {
    CacheState(seq(CACHE_VOL, _ => CachedChunk(Invalid, Placeholder)),
               referencex, referencez, 0, 0, [])
  }

  function Invalidated(c: CachedChunk): CachedChunk
  {
    c.(status := Invalid)
  }

  /** Statuses after invalidating array column x. */
  function InvalidateColumn(s: seq<CachedChunk>, x: int): (r: seq<CachedChunk>)
    ensures |r| == |s|
    ensures forall i :: 0 <= i < |s| ==> r[i] == if Column(i) == x then Invalidated(s[i]) else s[i]
  {
    if |s| == 0 then []
    else
      var n := |s| - 1;
      InvalidateColumn(s[..n], x) + [if Column(n) == x then Invalidated(s[n]) else s[n]]
  }

  /** Statuses after invalidating array row z. */
  function InvalidateRow(s: seq<CachedChunk>, z: int): (r: seq<CachedChunk>)
    ensures |r| == |s|
    ensures forall i :: 0 <= i < |s| ==> r[i] == if Row(i) == z then Invalidated(s[i]) else s[i]
  {
    if |s| == 0 then []
    else
      var n := |s| - 1;
      InvalidateRow(s[..n], z) + [if Row(n) == z then Invalidated(s[n]) else s[n]]
  }

  /** Column x is exactly the DIM slots Index(x, row); invalidating it makes
      them INVALID, keeps their meshes and touches no other slot. */
  lemma InvalidateColumnEffect(s: seq<CachedChunk>, x: int)
    requires |s| == CACHE_VOL && 0 <= x < DIM
    ensures forall row :: 0 <= row < DIM ==>
      InvalidateColumn(s, x)[Index(x, row)] == CachedChunk(Invalid, s[Index(x, row)].chunk)
    ensures forall i :: 0 <= i < CACHE_VOL && (forall row :: 0 <= row < DIM ==> i != Index(x, row)) ==>
      InvalidateColumn(s, x)[i] == s[i]
  {
    forall row | 0 <= row < DIM
      ensures InvalidateColumn(s, x)[Index(x, row)] == CachedChunk(Invalid, s[Index(x, row)].chunk)
    {
      IndexBijective(x, row);
    }
    forall i | 0 <= i < CACHE_VOL && InvalidateColumn(s, x)[i] != s[i]
      ensures exists row :: 0 <= row < DIM && i == Index(x, row)
    {
      IndexOfSlot(i);
    }
  }

  lemma InvalidateRowEffect(s: seq<CachedChunk>, z: int)
    requires |s| == CACHE_VOL && 0 <= z < DIM
    ensures forall col :: 0 <= col < DIM ==>
      InvalidateRow(s, z)[Index(col, z)] == CachedChunk(Invalid, s[Index(col, z)].chunk)
    ensures forall i :: 0 <= i < CACHE_VOL && (forall col :: 0 <= col < DIM ==> i != Index(col, z)) ==>
      InvalidateRow(s, z)[i] == s[i]
  {
    forall col | 0 <= col < DIM
      ensures InvalidateRow(s, z)[Index(col, z)] == CachedChunk(Invalid, s[Index(col, z)].chunk)
    {
      IndexBijective(col, z);
    }
    forall i | 0 <= i < CACHE_VOL && InvalidateRow(s, z)[i] != s[i]
      ensures exists col :: 0 <= col < DIM && i == Index(col, z)
    {
      IndexOfSlot(i);
    }
  }

  // ---------------------------------------------------------------------------
  // draw(), one axis at a time, as written
  // ---------------------------------------------------------------------------

  /** What a draw does on one axis: no shift, a shift back (west/south) or a
      shift forward (east/north), naming the array line it invalidates. */
  datatype Shift = Stay | Back(line: int) | Forward(line: int)

  function Delta(sh: Shift): int
  {
    match sh
    case Stay => 0
    case Back(_) => -1
    case Forward(_) => 1
  }

  datatype AxisStep = AxisStep(shift: Shift, dom: int, slot: int)

  /** One axis of draw() exactly as written: the relative index is
      dist - dom, a miss moves dom by one, and the slot is the truncating
      remainder of (dist - old dom + new dom). */
  function StepAxis(dist: int, dom: int): AxisStep
  {
    var rel := dist - dom;
    if rel < 0 then
      var d := Wrap(dom - 1);
      AxisStep(Back(d), d, CRem(rel + d))
    else if rel >= DIM then
      var d := Wrap(dom + 1);
      AxisStep(Forward(Wrap(d - 1)), d, CRem(rel + d))
    else
      AxisStep(Stay, dom, CRem(rel + dom))
  }

  /** The window check of draw(): at most one chunk beyond either edge. */
  predicate InWindow(distx: int, distz: int)
  {
    !(distx < -1 || distx > DIM || distz < -1 || distz > DIM)
  }

  datatype DrawOutcome =
    | Fatal                               // exit(EXIT_FAILURE)
    | OutOfRange(indexx: int, indexz: int) // cache[index(...)] outside the vector
    | Drawn(slot: int, chunk: Mesh)       // VALID: the slot's chunk is drawn
    | Requested(slot: int)                // INVALID: now QUEUED, request pushed
    | Pending(slot: int)                  // QUEUED: nothing happens

  datatype DrawResult = DrawResult(outcome: DrawOutcome, state: CacheState)

  function ApplyColumn(s: seq<CachedChunk>, sh: Shift): (r: seq<CachedChunk>)
    ensures |r| == |s|
  {
    match sh
    case Stay => s
    case Back(x) => InvalidateColumn(s, x)
    case Forward(x) => InvalidateColumn(s, x)
  }

  function ApplyRow(s: seq<CachedChunk>, sh: Shift): (r: seq<CachedChunk>)
    ensures |r| == |s|
  {
    match sh
    case Stay => s
    case Back(z) => InvalidateRow(s, z)
    case Forward(z) => InvalidateRow(s, z)
  }

  /** The state after the shifts of a draw, before the slot is looked at. */
  function Shifted(st: CacheState, mx: AxisStep, mz: AxisStep): CacheState
  {
    st.(slots := ApplyRow(ApplyColumn(st.slots, mx.shift), mz.shift),
        refx := st.refx + Delta(mx.shift), refz := st.refz + Delta(mz.shift),
        domx := mx.dom, domz := mz.dom)
  }

  /** draw(chunkx, chunkz): validate, shift on a miss, resolve the slot and
      act on its status. */
  function DrawStep(st: CacheState, chunkx: int, chunkz: int): DrawResult
  {
    var distx := chunkx - st.refx;
    var distz := chunkz - st.refz;
    if !InWindow(distx, distz) then DrawResult(Fatal, st)
    else
      var mx := StepAxis(distx, st.domx);
      var mz := StepAxis(distz, st.domz);
      Resolve(Shifted(st, mx, mz), mx.slot, mz.slot, chunkx, chunkz)
  }

  /** The index lookup of draw(): the slot at array column ix, row iz; an
      index outside the cache vector is reported instead of read. */
  function Resolve(sh: CacheState, ix: int, iz: int, chunkx: int, chunkz: int): DrawResult
  {
    var flat := Index(ix, iz);
    if !(0 <= flat < |sh.slots|) then DrawResult(OutOfRange(ix, iz), sh)
    else ActOnSlot(sh, flat, chunkx, chunkz)
  }

  /** The last part of draw(): act on the status of the resolved slot. */
  function ActOnSlot(st: CacheState, flat: int, chunkx: int, chunkz: int): DrawResult
    requires 0 <= flat < |st.slots|
  {
    var cc := st.slots[flat];
    match cc.status
    case Valid => DrawResult(Drawn(flat, cc.chunk), st)
    case Queued => DrawResult(Pending(flat), st)
    case Invalid =>
      DrawResult(Requested(flat),
                 st.(slots := st.slots[flat := cc.(status := Queued)],
                     queue := st.queue + [LoadRequest(flat, chunkx, chunkz)]))
  }

  /** pollLoadRequests(): pop one request, build its chunk into the slot and
      mark the slot VALID. */
  function PollStep(st: CacheState): CacheState
    requires WellFormed(st)
  {
    if |st.queue| == 0 then st
    else
      var req := st.queue[0];
      st.(slots := st.slots[req.slot := CachedChunk(Valid, Built(req.chunkx, req.chunkz))],
          queue := st.queue[1..])
  }

  // ---------------------------------------------------------------------------
  // Properties of the as-written protocol
  // ---------------------------------------------------------------------------

  lemma StepAxisShape(dist: int, dom: int)
    requires -1 <= dist <= DIM && 0 <= dom < DIM
    ensures var m := StepAxis(dist, dom);
      && 0 <= m.dom < DIM
      && (m.shift.Back? ==> dist < dom && m.dom == Wrap(dom - 1) && m.shift.line == m.dom)
      && (m.shift.Forward? ==> dist >= dom + DIM && m.dom == Wrap(dom + 1) && m.shift.line == dom)
      && (m.shift.Stay? ==> dom <= dist < dom + DIM && m.dom == dom && m.slot == dist % DIM)
  {
  }

  /** The slot of one axis is the truncating remainder of the relative index
      (taken before the shift) plus the new domain origin. */
  lemma StepAxisSlot(dist: int, dom: int)
    ensures StepAxis(dist, dom).slot == CRem(dist - dom + StepAxis(dist, dom).dom)
  {
  }

  /** A forward (east/north) miss can only happen from domain origin 0, at the
      far edge of the check: once the origin has moved, the window cannot move
      forward again. */
  lemma ForwardOnlyFromOrigin(dist: int, dom: int)
    requires -1 <= dist <= DIM && 0 <= dom < DIM
    ensures StepAxis(dist, dom).shift.Forward? <==> dom == 0 && dist == DIM
  {
  }

  /** The computed slot index lies in [0, DIM) except in exactly one case: a
      back miss from a nonzero origin with dist <= 0, where the truncating
      remainder is negative. */
  lemma SlotInRangeIff(dist: int, dom: int)
    requires -1 <= dist <= DIM && 0 <= dom < DIM
    ensures 0 <= StepAxis(dist, dom).slot < DIM <==> !(dist < dom && dom > 0 && dist <= 0)
    ensures StepAxis(dist, dom).slot >= -2
  {
  }

  /** draw() terminates fatally iff the coordinate is more than one chunk
      outside the window, and then changes nothing. */
  lemma DrawFatalIff(st: CacheState, chunkx: int, chunkz: int)
    requires WellFormed(st)
    ensures var r := DrawStep(st, chunkx, chunkz);
      && (r.outcome == Fatal <==>
            (chunkx - st.refx < -1 || chunkx - st.refx > DIM ||
             chunkz - st.refz < -1 || chunkz - st.refz > DIM))
      && (r.outcome == Fatal ==> r.state == st)
  {
  }

  /** A step keeps the domain origin inside the array. */
  lemma StepAxisDomain(dist: int, dom: int)
    requires 0 <= dom < DIM
    ensures 0 <= StepAxis(dist, dom).dom < DIM
  {
  }

  /** One axis moves its domain origin by the same step as its reference
      chunk, and by at most one. */
  lemma AxisTracksReference(dist: int, dom: int)
    requires -1 <= dist <= DIM && 0 <= dom < DIM
    ensures -1 <= Delta(StepAxis(dist, dom).shift) <= 1
    ensures 0 <= StepAxis(dist, dom).dom < DIM
    ensures StepAxis(dist, dom).dom == Wrap(dom + Delta(StepAxis(dist, dom).shift))
  {
  }

  /** A draw that passes the window check moves the reference chunk by at
      most one per axis, and the domain origin moves with it: dom - ref stays
      the same modulo DIM. (A draw that fails the check ends the process.) */
  lemma DrawShiftsAtMostOne(st: CacheState, chunkx: int, chunkz: int)
    requires WellFormed(st) && InWindow(chunkx - st.refx, chunkz - st.refz)
    ensures var st' := DrawStep(st, chunkx, chunkz).state;
      && -1 <= st'.refx - st.refx <= 1 && -1 <= st'.refz - st.refz <= 1
      && st'.domx == Wrap(st.domx + (st'.refx - st.refx))
      && st'.domz == Wrap(st.domz + (st'.refz - st.refz))
  {
    AxisTracksReference(chunkx - st.refx, st.domx);
    AxisTracksReference(chunkz - st.refz, st.domz);
    DrawStepFrame(st, chunkx, chunkz);
  }

  /** The reference chunk and the domain origin after a draw that passes the
      window check. */
  lemma DrawStepFrame(st: CacheState, chunkx: int, chunkz: int)
    requires |st.slots| == CACHE_VOL
    requires InWindow(chunkx - st.refx, chunkz - st.refz)
    ensures var mx := StepAxis(chunkx - st.refx, st.domx);
      var mz := StepAxis(chunkz - st.refz, st.domz);
      var st' := DrawStep(st, chunkx, chunkz).state;
      && st'.refx == st.refx + Delta(mx.shift) && st'.refz == st.refz + Delta(mz.shift)
      && st'.domx == mx.dom && st'.domz == mz.dom
  {
    var mx := StepAxis(chunkx - st.refx, st.domx);
    var mz := StepAxis(chunkz - st.refz, st.domz);
    DrawResolves(st, chunkx, chunkz);
    var flat := Index(mx.slot, mz.slot);
    if 0 <= flat < CACHE_VOL {
      SlotTransition(Shifted(st, mx, mz), flat, chunkx, chunkz);
    }
  }

  /** Once the window check passes, draw() resolves the slot after the
      shifts; if that slot is inside the array, the rest is ActOnSlot. */
  lemma DrawResolves(st: CacheState, chunkx: int, chunkz: int)
    requires |st.slots| == CACHE_VOL && InWindow(chunkx - st.refx, chunkz - st.refz)
    ensures var mx := StepAxis(chunkx - st.refx, st.domx);
      var mz := StepAxis(chunkz - st.refz, st.domz);
      var flat := Index(mx.slot, mz.slot);
      && |Shifted(st, mx, mz).slots| == CACHE_VOL
      && (0 <= flat < CACHE_VOL ==>
            DrawStep(st, chunkx, chunkz) == ActOnSlot(Shifted(st, mx, mz), flat, chunkx, chunkz))
      && (!(0 <= flat < CACHE_VOL) ==>
            DrawStep(st, chunkx, chunkz) == DrawResult(OutOfRange(mx.slot, mz.slot), Shifted(st, mx, mz)))
  {
    var mx := StepAxis(chunkx - st.refx, st.domx);
    var mz := StepAxis(chunkz - st.refz, st.domz);
    var sh := Shifted(st, mx, mz);
    assert |sh.slots| == CACHE_VOL;
    var flat := Index(mx.slot, mz.slot);
    var r := DrawStep(st, chunkx, chunkz);
    if 0 <= flat < CACHE_VOL {
      assert r == ActOnSlot(sh, flat, chunkx, chunkz);
    } else {
      assert r == DrawResult(OutOfRange(mx.slot, mz.slot), sh);
    }
  }

  /** The slot transition of a draw that reaches the array: VALID is drawn
      and stays; INVALID becomes QUEUED and exactly one request is appended;
      QUEUED stays and nothing is drawn or queued. Nothing else changes. */
  lemma SlotTransition(sh: CacheState, flat: int, chunkx: int, chunkz: int)
    requires 0 <= flat < |sh.slots|
    ensures var r := ActOnSlot(sh, flat, chunkx, chunkz);
      && r.state.refx == sh.refx && r.state.refz == sh.refz
      && r.state.domx == sh.domx && r.state.domz == sh.domz
      && |r.state.slots| == |sh.slots|
      && (forall i :: 0 <= i < |sh.slots| && i != flat ==> r.state.slots[i] == sh.slots[i])
      && (sh.slots[flat].status == Valid ==>
            r.outcome == Drawn(flat, sh.slots[flat].chunk) && r.state == sh)
      && (sh.slots[flat].status == Queued ==>
            r.outcome == Pending(flat) && r.state == sh)
      && (sh.slots[flat].status == Invalid ==>
            && r.outcome == Requested(flat)
            && r.state.queue == sh.queue + [LoadRequest(flat, chunkx, chunkz)]
            && r.state.slots[flat] == CachedChunk(Queued, sh.slots[flat].chunk))
  {
  }

  lemma ShiftedWellFormed(st: CacheState, mx: AxisStep, mz: AxisStep)
    requires WellFormed(st) && 0 <= mx.dom < DIM && 0 <= mz.dom < DIM
    ensures WellFormed(Shifted(st, mx, mz))
    ensures QueuedTracked(st) ==> QueuedTracked(Shifted(st, mx, mz))
  {
    var s2 := Shifted(st, mx, mz).slots;
    assert forall i :: 0 <= i < |s2| && s2[i].status == Queued ==> st.slots[i].status == Queued;
  }

  /** Marking a slot QUEUED together with pushing its request keeps every
      QUEUED slot tracked. */
  lemma EnqueuePreserves(sh: CacheState, flat: int, chunkx: int, chunkz: int)
    requires WellFormed(sh) && QueuedTracked(sh) && 0 <= flat < CACHE_VOL
    ensures var st' := sh.(slots := sh.slots[flat := sh.slots[flat].(status := Queued)],
                           queue := sh.queue + [LoadRequest(flat, chunkx, chunkz)]);
      WellFormed(st') && QueuedTracked(st')
  {
    var st' := sh.(slots := sh.slots[flat := sh.slots[flat].(status := Queued)],
                   queue := sh.queue + [LoadRequest(flat, chunkx, chunkz)]);
    assert st'.queue[|sh.queue|].slot == flat;
    forall i | 0 <= i < |st'.slots| && st'.slots[i].status == Queued
      ensures exists k :: 0 <= k < |st'.queue| && st'.queue[k].slot == i
    {
      if i != flat {
        var k :| 0 <= k < |sh.queue| && sh.queue[k].slot == i;
        assert st'.queue[k] == sh.queue[k];
      }
    }
  }

  /** Acting on a slot keeps the state well formed and never orphans a
      QUEUED slot. */
  lemma ActOnSlotPreserves(sh: CacheState, flat: int, chunkx: int, chunkz: int)
    requires WellFormed(sh) && QueuedTracked(sh) && 0 <= flat < CACHE_VOL
    ensures WellFormed(ActOnSlot(sh, flat, chunkx, chunkz).state)
    ensures QueuedTracked(ActOnSlot(sh, flat, chunkx, chunkz).state)
  {
    if sh.slots[flat].status == Invalid {
      EnqueuePreserves(sh, flat, chunkx, chunkz);
    }
  }

  /** draw() keeps the state well formed and never orphans a QUEUED slot. */
  lemma DrawPreserves(st: CacheState, chunkx: int, chunkz: int)
    requires WellFormed(st) && QueuedTracked(st)
    ensures WellFormed(DrawStep(st, chunkx, chunkz).state)
    ensures QueuedTracked(DrawStep(st, chunkx, chunkz).state)
  {
    var distx := chunkx - st.refx;
    var distz := chunkz - st.refz;
    if InWindow(distx, distz) {
      var mx := StepAxis(distx, st.domx);
      var mz := StepAxis(distz, st.domz);
      AxisTracksReference(distx, st.domx);
      AxisTracksReference(distz, st.domz);
      ShiftedWellFormed(st, mx, mz);
      DrawResolves(st, chunkx, chunkz);
      var flat := Index(mx.slot, mz.slot);
      if 0 <= flat < CACHE_VOL {
        ActOnSlotPreserves(Shifted(st, mx, mz), flat, chunkx, chunkz);
      }
    }
  }

  /** draw() is the window check, the shifts, and the slot lookup at the
      per-axis slots; it keeps the state well formed. */
  lemma DrawCompletes(st: CacheState, chunkx: int, chunkz: int, sh: CacheState,
                      ix: int, iz: int, r: DrawResult)
    requires WellFormed(st) && QueuedTracked(st) && InWindow(chunkx - st.refx, chunkz - st.refz)
    requires sh == Shifted(st, StepAxis(chunkx - st.refx, st.domx), StepAxis(chunkz - st.refz, st.domz))
    requires ix == StepAxis(chunkx - st.refx, st.domx).slot
    requires iz == StepAxis(chunkz - st.refz, st.domz).slot
    requires r == Resolve(sh, ix, iz, chunkx, chunkz)
    ensures r == DrawStep(st, chunkx, chunkz)
    ensures WellFormed(r.state) && QueuedTracked(r.state)
  {
    DrawPreserves(st, chunkx, chunkz);
  }

  /** pollLoadRequests(): with an empty queue nothing changes; otherwise the
      front request (FIFO) is removed and its slot becomes VALID, holding the
      chunk built for the request's coordinates, whatever its status was. */
  lemma PollEffect(st: CacheState)
    requires WellFormed(st)
    ensures var st' := PollStep(st);
      && (|st.queue| == 0 ==> st' == st)
      && (|st.queue| > 0 ==>
            var req := st.queue[0];
            && st'.queue == st.queue[1..]
            && st'.slots[req.slot] == CachedChunk(Valid, Built(req.chunkx, req.chunkz))
            && (forall i :: 0 <= i < CACHE_VOL && i != req.slot ==> st'.slots[i] == st.slots[i])
            && st'.refx == st.refx && st'.refz == st.refz
            && st'.domx == st.domx && st'.domz == st.domz)
  {
  }

  /** pollLoadRequests() keeps the state well formed and never orphans a
      QUEUED slot. */
  lemma PollPreserves(st: CacheState)
    requires WellFormed(st) && QueuedTracked(st)
    ensures WellFormed(PollStep(st)) && QueuedTracked(PollStep(st))
  {
    if |st.queue| > 0 {
      var st' := PollStep(st);
      var popped := st.queue[0].slot;
      forall i | 0 <= i < |st'.slots| && st'.slots[i].status == Queued
        ensures exists k :: 0 <= k < |st'.queue| && st'.queue[k].slot == i
      {
        assert i != popped;
        var k :| 0 <= k < |st.queue| && st.queue[k].slot == i;
        assert k != 0;
        assert st'.queue[k - 1] == st.queue[k];
      }
    }
  }

  /** A draw that shifts nothing, repeated with no call in between, shifts
      nothing again, resolves to the same slot, and enqueues nothing: the
      QUEUED gate admits at most one request per coordinate. */
  lemma RepeatedDrawEnqueuesOnce(st: CacheState, chunkx: int, chunkz: int)
    requires WellFormed(st)
    requires InWindow(chunkx - st.refx, chunkz - st.refz)
    requires StepAxis(chunkx - st.refx, st.domx).shift == Stay
    requires StepAxis(chunkz - st.refz, st.domz).shift == Stay
    ensures var r1 := DrawStep(st, chunkx, chunkz);
      var r2 := DrawStep(r1.state, chunkx, chunkz);
      && |r1.state.queue| <= |st.queue| + 1
      && r2.state.queue == r1.state.queue
      && (r1.outcome.Requested? ==> r2.outcome == Pending(r1.outcome.slot))
  {
    var flat := NoShiftDraw(st, chunkx, chunkz);
    SlotTransition(st, flat, chunkx, chunkz);
    var st1 := DrawStep(st, chunkx, chunkz).state;
    assert st1.refx == st.refx && st1.domx == st.domx && st1.refz == st.refz && st1.domz == st.domz;
    var flat1 := NoShiftDraw(st1, chunkx, chunkz);
    SlotTransition(st1, flat, chunkx, chunkz);
  }

  /** A draw that shifts on neither axis looks up a slot inside the array,
      in the unchanged state. */
  lemma NoShiftDraw(st: CacheState, chunkx: int, chunkz: int) returns (flat: int)
    requires |st.slots| == CACHE_VOL && 0 <= st.domx < DIM && 0 <= st.domz < DIM
    requires InWindow(chunkx - st.refx, chunkz - st.refz)
    requires StepAxis(chunkx - st.refx, st.domx).shift == Stay
    requires StepAxis(chunkz - st.refz, st.domz).shift == Stay
    ensures flat == Index(StepAxis(chunkx - st.refx, st.domx).slot, StepAxis(chunkz - st.refz, st.domz).slot)
    ensures 0 <= flat < CACHE_VOL
    ensures DrawStep(st, chunkx, chunkz) == ActOnSlot(st, flat, chunkx, chunkz)
  {
    var mx := StepAxis(chunkx - st.refx, st.domx);
    var mz := StepAxis(chunkz - st.refz, st.domz);
    StepAxisShape(chunkx - st.refx, st.domx);
    StepAxisShape(chunkz - st.refz, st.domz);
    IndexBijective(mx.slot, mz.slot);
    flat := Index(mx.slot, mz.slot);
    assert Shifted(st, mx, mz) == st;
    DrawResolves(st, chunkx, chunkz);
  }

  /** From a fresh cache, a coordinate of the window [refx, refx+DIM) x
      [refz, refz+DIM) resolves without a shift to slot (distx, distz) and is
      requested. */
  lemma FreshDraw(rx: int, rz: int, x: int, z: int)
    requires rx <= x < rx + DIM && rz <= z < rz + DIM
    ensures DrawStep(Initial(rx, rz), x, z).outcome == Requested(Index(x - rx, z - rz))
  {
    var st := Initial(rx, rz);
    assert StepAxis(x - rx, 0) == AxisStep(Stay, 0, x - rx);
    assert StepAxis(z - rz, 0) == AxisStep(Stay, 0, z - rz);
    IndexBijective(x - rx, z - rz);
    assert Shifted(st, StepAxis(x - rx, 0), StepAxis(z - rz, 0)) == st;
  }

  /** From a fresh cache, distinct coordinates of the window land in
      distinct slots. */
  lemma FreshWindowInjective(rx: int, rz: int, x1: int, z1: int, x2: int, z2: int)
    requires rx <= x1 < rx + DIM && rz <= z1 < rz + DIM
    requires rx <= x2 < rx + DIM && rz <= z2 < rz + DIM
    requires x1 != x2 || z1 != z2
    ensures DrawStep(Initial(rx, rz), x1, z1).outcome.slot != DrawStep(Initial(rx, rz), x2, z2).outcome.slot
  {
    FreshDraw(rx, rz, x1, z1);
    FreshDraw(rx, rz, x2, z2);
    IndexInjective(x1 - rx, z1 - rz, x2 - rx, z2 - rz);
  }

  // ---------------------------------------------------------------------------
  // The intended slot arithmetic
  // ---------------------------------------------------------------------------

  /** One axis of the evidently intended protocol: a miss is dist < 0 or
      dist >= DIM, as intended; after the shift, the relative index is taken
      against the new reference chunk (dist + 1 after a back miss, dist - 1
      after a forward one) before the new origin is added. */
  function IntendedAxis(dist: int, dom: int): AxisStep
  {
    if dist < 0 then
      var d := Wrap(dom - 1);
      AxisStep(Back(d), d, CRem(dist + 1 + d))
    else if dist >= DIM then
      var d := Wrap(dom + 1);
      AxisStep(Forward(Wrap(d - 1)), d, CRem(dist - 1 + d))
    else
      AxisStep(Stay, dom, CRem(dist + dom))
  }

  /** The slot of a coordinate at distance dist from the reference chunk when
      the domain origin is dom (the ring-buffer invariant). */
  function SlotOf(dom: int, dist: int): int
  {
    (dom + dist) % DIM
  }

  /** The intended step always yields a slot in [0, DIM): the slot of the
      coordinate relative to the new reference chunk, under the new origin.
      On a miss, that slot is exactly the line the shift invalidates
      (invalidate before reuse). */
  lemma IntendedAxisCorrect(dist: int, dom: int)
    requires -1 <= dist <= DIM && 0 <= dom < DIM
    ensures var m := IntendedAxis(dist, dom);
      var moved := Delta(m.shift);
      && 0 <= m.dom < DIM && 0 <= m.slot < DIM
      && m.dom == SlotOf(dom, moved)
      && 0 <= dist - moved < DIM
      && m.slot == SlotOf(m.dom, dist - moved)
      && (m.shift != Stay ==> m.slot == m.shift.line)
  {
    if dist < 0 {
      assert IntendedAxis(dist, dom).dom == (if dom == 0 then DIM - 1 else dom - 1);
    } else if dist >= DIM {
      assert IntendedAxis(dist, dom).dom == (if dom == DIM - 1 then 0 else dom + 1);
    } else {
      assert IntendedAxis(dist, dom).dom == dom;
    }
  }

  /** Under the intended step, every coordinate that stays in the window
      keeps its slot: moving the origin with the reference chunk is a
      rotation of the ring. */
  lemma IntendedShiftKeepsSlots(dom: int, moved: int, c: int)
    requires 0 <= dom < DIM && -1 <= moved <= 1
    requires 0 <= c < DIM && 0 <= c + moved < DIM
    ensures SlotOf(SlotOf(dom, moved), c) == SlotOf(dom, c + moved)
  {
    var a := dom + moved;
    if a < 0 {
      assert a % DIM == DIM - 1;
      ModShift(c - 1);
    } else if a >= DIM {
      assert a % DIM == 0;
      ModShift(c);
    } else {
      assert a % DIM == a;
    }
  }

  /** Index bijection: under the intended mapping, distinct coordinates of
      the window never share a slot. */
  lemma SlotOfInjective(dom: int, c1: int, c2: int)
    requires 0 <= dom < DIM && 0 <= c1 < DIM && 0 <= c2 < DIM
    ensures SlotOf(dom, c1) == SlotOf(dom, c2) <==> c1 == c2
  {
    if SlotOf(dom, c1) == SlotOf(dom, c2) {
      var a, b := dom + c1, dom + c2;
      assert a % DIM == (if a >= DIM then a - DIM else a);
      assert b % DIM == (if b >= DIM then b - DIM else b);
    }
  }

  /** As written, a back miss from origin 0 resolves the coordinate to the
      slot next to the intended one, which the shift did not invalidate. */
  lemma AsWrittenBackMissSlot()
    ensures StepAxis(-1, 0) == AxisStep(Back(9), 9, 8)
    ensures IntendedAxis(-1, 0) == AxisStep(Back(9), 9, 9)
  {
  }

  /** As written, a back miss from origin 1 at distance 0 yields slot -1. */
  lemma AsWrittenNegativeSlot()
    ensures StepAxis(0, 1) == AxisStep(Back(0), 0, -1)
    ensures IntendedAxis(0, 1) == AxisStep(Stay, 1, 1)
  {
  }

  // ---------------------------------------------------------------------------
  // At most one build in flight per slot
  // ---------------------------------------------------------------------------

  /** No two requests of q name the same slot. */
  ghost predicate DistinctSlots(q: seq<LoadRequest>)
  {
    forall k, l :: 0 <= k < l < |q| ==> q[k].slot != q[l].slot
  }

  /** Slot i exists and is QUEUED. */
  predicate IsQueued(slots: seq<CachedChunk>, i: int)
  {
    0 <= i < |slots| && slots[i].status == Queued
  }

  /** Every request in the queue names a QUEUED slot, no two requests name
      the same slot, and every QUEUED slot has its request: at most one
      build is in flight for each slot. */
  ghost predicate OneInFlight(st: CacheState)
  {
    && QueuedTracked(st)
    && (forall k :: 0 <= k < |st.queue| ==> IsQueued(st.slots, st.queue[k].slot))
    && DistinctSlots(st.queue)
  }

  /** The requests of q whose slot is still QUEUED in slots, in queue order:
      the builds a shift has not made obsolete. */
  function LiveRequests(slots: seq<CachedChunk>, q: seq<LoadRequest>): (r: seq<LoadRequest>)
    ensures forall k :: 0 <= k < |r| ==> r[k] in q && IsQueued(slots, r[k].slot)
    ensures forall k :: 0 <= k < |q| && IsQueued(slots, q[k].slot) ==> q[k] in r
  {
    if |q| == 0 then []
    else
      var n := |q| - 1;
      assert q == q[..n] + [q[n]];
      var rest := LiveRequests(slots, q[..n]);
      if IsQueued(slots, q[n].slot) then rest + [q[n]] else rest
  }

  /** Dropping requests keeps distinct slots distinct. */
  lemma {:induction false} LiveRequestsDistinct(slots: seq<CachedChunk>, q: seq<LoadRequest>)
    requires DistinctSlots(q)
    ensures DistinctSlots(LiveRequests(slots, q))
  {
    if |q| > 0 {
      var n := |q| - 1;
      var p := q[..n];
      assert DistinctSlots(p) by {
        forall k, l | 0 <= k < l < |p|
          ensures p[k].slot != p[l].slot
        {
          assert p[k] == q[k] && p[l] == q[l];
        }
      }
      LiveRequestsDistinct(slots, p);
      var rest := LiveRequests(slots, p);
      if IsQueued(slots, q[n].slot) {
        var r := rest + [q[n]];
        forall k, l | 0 <= k < l < |r|
          ensures r[k].slot != r[l].slot
        {
          if l == |rest| {
            assert rest[k] in p;
            var j :| 0 <= j < n && p[j] == rest[k];
            assert q[j] == p[j];
          } else {
            assert r[k] == rest[k] && r[l] == rest[l];
          }
        }
        assert LiveRequests(slots, q) == r;
      } else {
        assert LiveRequests(slots, q) == rest;
      }
    }
  }

  /** The evidently intended draw: the intended slot arithmetic, and a shift
      that invalidates a line also cancels the requests for its slots. */
  function CancellingDrawStep(st: CacheState, chunkx: int, chunkz: int): DrawResult
  {
    var distx := chunkx - st.refx;
    var distz := chunkz - st.refz;
    if !InWindow(distx, distz) then DrawResult(Fatal, st)
    else
      var sh := Shifted(st, IntendedAxis(distx, st.domx), IntendedAxis(distz, st.domz));
      Resolve(sh.(queue := LiveRequests(sh.slots, sh.queue)),
              IntendedAxis(distx, st.domx).slot, IntendedAxis(distz, st.domz).slot, chunkx, chunkz)
  }

  /** A fresh cache has no build in flight. */
  lemma InitialOneInFlight(referencex: int, referencez: int)
    ensures OneInFlight(Initial(referencex, referencez))
  {
  }

  /** Dropping the obsolete requests after a shift restores one build in
      flight per slot. */
  lemma CancelRestoresOneInFlight(st: CacheState, sh: CacheState)
    requires OneInFlight(st) && |sh.slots| == |st.slots| && sh.queue == st.queue
    requires forall i :: 0 <= i < |sh.slots| && sh.slots[i].status == Queued ==> st.slots[i].status == Queued
    ensures OneInFlight(sh.(queue := LiveRequests(sh.slots, sh.queue)))
  {
    var c := sh.(queue := LiveRequests(sh.slots, sh.queue));
    LiveRequestsDistinct(sh.slots, sh.queue);
    forall i | 0 <= i < |c.slots| && c.slots[i].status == Queued
      ensures exists k :: 0 <= k < |c.queue| && c.queue[k].slot == i
    {
      var k :| 0 <= k < |st.queue| && st.queue[k].slot == i;
      assert sh.queue[k] in c.queue;
    }
  }

  /** An INVALID slot has no request, so queueing it keeps one build in
      flight per slot. */
  lemma ActOnSlotOneInFlight(sh: CacheState, flat: int, chunkx: int, chunkz: int)
    requires OneInFlight(sh) && 0 <= flat < |sh.slots|
    ensures OneInFlight(ActOnSlot(sh, flat, chunkx, chunkz).state)
  {
    if sh.slots[flat].status == Invalid {
      var st' := ActOnSlot(sh, flat, chunkx, chunkz).state;
      assert st'.queue[|sh.queue|].slot == flat;
      forall i | 0 <= i < |st'.slots| && st'.slots[i].status == Queued
        ensures exists k :: 0 <= k < |st'.queue| && st'.queue[k].slot == i
      {
        if i != flat {
          var k :| 0 <= k < |sh.queue| && sh.queue[k].slot == i;
          assert st'.queue[k] == sh.queue[k];
        }
      }
    }
  }

  /** The shifts only ever clear QUEUED; they never set it. */
  lemma ShiftedQueuedWasQueued(st: CacheState, mx: AxisStep, mz: AxisStep)
    ensures |Shifted(st, mx, mz).slots| == |st.slots|
    ensures forall i :: 0 <= i < |st.slots| && Shifted(st, mx, mz).slots[i].status == Queued ==>
      st.slots[i].status == Queued
  {
  }

  /** With cancellation, every draw keeps at most one build in flight per
      slot, across shifts as well. */
  lemma CancellingDrawOneInFlight(st: CacheState, chunkx: int, chunkz: int)
    requires OneInFlight(st)
    ensures OneInFlight(CancellingDrawStep(st, chunkx, chunkz).state)
  {
    var distx := chunkx - st.refx;
    var distz := chunkz - st.refz;
    if InWindow(distx, distz) {
      var mx, mz := IntendedAxis(distx, st.domx), IntendedAxis(distz, st.domz);
      var sh := Shifted(st, mx, mz);
      ShiftedQueuedWasQueued(st, mx, mz);
      CancelRestoresOneInFlight(st, sh);
      var c := sh.(queue := LiveRequests(sh.slots, sh.queue));
      var flat := Index(mx.slot, mz.slot);
      assert CancellingDrawStep(st, chunkx, chunkz) == Resolve(c, mx.slot, mz.slot, chunkx, chunkz);
      if 0 <= flat < |c.slots| {
        ActOnSlotOneInFlight(c, flat, chunkx, chunkz);
      }
    }
  }

  /** Polling builds the one request of the front slot, so it keeps one
      build in flight per slot. */
  lemma PollOneInFlight(st: CacheState)
    requires WellFormed(st) && OneInFlight(st)
    ensures OneInFlight(PollStep(st))
  {
    if |st.queue| > 0 {
      var st' := PollStep(st);
      var popped := st.queue[0].slot;
      assert forall k :: 0 <= k < |st'.queue| ==> st'.queue[k] == st.queue[k + 1];
      forall i | 0 <= i < |st'.slots| && st'.slots[i].status == Queued
        ensures exists k :: 0 <= k < |st'.queue| && st'.queue[k].slot == i
      {
        var k :| 0 <= k < |st.queue| && st.queue[k].slot == i;
        assert st'.queue[k - 1] == st.queue[k];
      }
    }
  }

  // ---------------------------------------------------------------------------
  // The cache object
  // ---------------------------------------------------------------------------

  class Cache {
    var cache: array<CachedChunk>
    var refx: int
    var refz: int
    var domx: int
    var domz: int
    var loadQueue: seq<LoadRequest>

    function State(): CacheState
      reads this, cache
    {
      CacheState(cache[..], refx, refz, domx, domz, loadQueue)
    }

    ghost predicate Consistent()
      reads this, cache
    {
      WellFormed(State()) && QueuedTracked(State())
    }

    /** Cache(referencex, referencez): DIM^2 INVALID slots with placeholder
        chunks, domain origin (0, 0), empty queue. */
    constructor (referencex: int := 0, referencez: int := 0)
      ensures Consistent() && fresh(cache)
      ensures State() == Initial(referencex, referencez)
    {
      refx, refz := referencex, referencez;
      domx, domz := 0, 0;
      loadQueue := [];
      var slots := new CachedChunk[CACHE_VOL](_ => CachedChunk(Invalid, Placeholder));
      assert slots[..] == Initial(referencex, referencez).slots;
      cache := slots;
    }

    /** invalidateColumn(x): x is an array index, not a chunk coordinate. */
    method InvalidateColumnAt(x: int)
      requires WellFormed(State()) && 0 <= x < DIM
      modifies cache
      ensures cache[..] == InvalidateColumn(old(cache[..]), x)
    {
      ghost var s := cache[..];
      for row := 0 to DIM
        invariant forall i :: 0 <= i < CACHE_VOL ==>
          cache[i] == if Column(i) == x && Row(i) < row then Invalidated(s[i]) else s[i]
      {
        IndexBijective(x, row);
        cache[Index(x, row)] := Invalidated(cache[Index(x, row)]);
      }
    }

    /** invalidateRow(z): z is an array index, not a chunk coordinate. */
    method InvalidateRowAt(z: int)
      requires WellFormed(State()) && 0 <= z < DIM
      modifies cache
      ensures cache[..] == InvalidateRow(old(cache[..]), z)
    {
      ghost var s := cache[..];
      for col := 0 to DIM
        invariant forall i :: 0 <= i < CACHE_VOL ==>
          cache[i] == if Row(i) == z && Column(i) < col then Invalidated(s[i]) else s[i]
      {
        IndexBijective(col, z);
        cache[Index(col, z)] := Invalidated(cache[Index(col, z)]);
      }
    }

    /** pollLoadRequests(): one synchronous step of the loader. */
    method PollLoadRequests()
      requires Consistent()
      modifies this, cache
      ensures Consistent() && cache == old(cache)
      ensures State() == PollStep(old(State()))
    {
      PollPreserves(State());
      if |loadQueue| > 0 {
        var clr := loadQueue[0];
        loadQueue := loadQueue[1..];
        cache[clr.slot] := CachedChunk(Valid, Built(clr.chunkx, clr.chunkz));
      }
    }

    /** The west/east half of draw(): on a miss, move the domain origin and
        the reference chunk by one and invalidate the exposed column. The
        returned relative index, plus the new origin, gives the slot column. */
    method ShiftColumns(distx: int) returns (relx: int)
      requires WellFormed(State()) && -1 <= distx <= DIM
      modifies this, cache
      ensures cache == old(cache) && relx == distx - old(domx)
      ensures var m := StepAxis(distx, old(domx));
        && domx == m.dom && refx == old(refx) + Delta(m.shift)
        && cache[..] == ApplyColumn(old(cache[..]), m.shift)
        && CRem(relx + domx) == m.slot
      ensures domz == old(domz) && refz == old(refz) && loadQueue == old(loadQueue)
    {
      relx := distx - domx;
      if relx < 0 {
        domx := Wrap(domx - 1);
        refx := refx - 1;
        InvalidateColumnAt(domx);
      } else if relx >= DIM {
        domx := Wrap(domx + 1);
        refx := refx + 1;
        InvalidateColumnAt(Wrap(domx - 1));
      }
    }

    /** The south/north half of draw(): on a miss, move the domain origin and
        the reference chunk by one and invalidate the exposed row. */
    method ShiftRows(distz: int) returns (relz: int)
      requires WellFormed(State()) && -1 <= distz <= DIM
      modifies this, cache
      ensures cache == old(cache) && relz == distz - old(domz)
      ensures var m := StepAxis(distz, old(domz));
        && domz == m.dom && refz == old(refz) + Delta(m.shift)
        && cache[..] == ApplyRow(old(cache[..]), m.shift)
        && CRem(relz + domz) == m.slot
      ensures domx == old(domx) && refx == old(refx) && loadQueue == old(loadQueue)
    {
      relz := distz - domz;
      if relz < 0 {
        domz := Wrap(domz - 1);
        refz := refz - 1;
        InvalidateRowAt(domz);
      } else if relz >= DIM {
        domz := Wrap(domz + 1);
        refz := refz + 1;
        InvalidateRowAt(Wrap(domz - 1));
      }
    }

    /** The shifts of draw(), column then row, for a coordinate that passed
        the window check. */
    method Recenter(distx: int, distz: int) returns (relx: int, relz: int)
      requires WellFormed(State()) && InWindow(distx, distz)
      modifies this, cache
      ensures cache == old(cache) && loadQueue == old(loadQueue)
      ensures var mx := StepAxis(distx, old(domx));
        var mz := StepAxis(distz, old(domz));
        && State() == Shifted(old(State()), mx, mz)
        && CRem(relx + domx) == mx.slot && CRem(relz + domz) == mz.slot
    {
      ghost var st := State();
      ghost var mx := StepAxis(distx, st.domx);
      ghost var mz := StepAxis(distz, st.domz);
      StepAxisDomain(distx, domx);
      relx := ShiftColumns(distx);
      ghost var s1 := cache[..];
      assert s1 == ApplyColumn(st.slots, mx.shift);
      relz := ShiftRows(distz);
      assert cache[..] == ApplyRow(s1, mz.shift);
      assert refx == st.refx + Delta(mx.shift) && refz == st.refz + Delta(mz.shift);
      assert domx == mx.dom && domz == mz.dom;
    }

    /** draw(chunkx, chunkz), with the drawing itself reported as the
        outcome. */
    method Draw(chunkx: int, chunkz: int) returns (outcome: DrawOutcome)
      requires Consistent()
      modifies this, cache
      ensures Consistent() && cache == old(cache)
      ensures DrawResult(outcome, State()) == DrawStep(old(State()), chunkx, chunkz)
    {
      ghost var st := State();
      var distx := chunkx - refx;
      var distz := chunkz - refz;
      if distx < -1 || distx > DIM || distz < -1 || distz > DIM {
        DrawFatalIff(st, chunkx, chunkz);
        return Fatal;
      }
      var relx, relz := Recenter(distx, distz);
      var ix := CRem(relx + domx);
      var iz := CRem(relz + domz);
      ghost var sh := State();
      outcome := ResolveAt(ix, iz, chunkx, chunkz);
      DrawCompletes(st, chunkx, chunkz, sh, ix, iz, DrawResult(outcome, State()));
    }

    /** The end of draw(): look up slot (ix, iz); draw a VALID slot, queue an
        INVALID one, leave a QUEUED one alone. */
    method ResolveAt(ix: int, iz: int, chunkx: int, chunkz: int) returns (outcome: DrawOutcome)
      modifies this`loadQueue, cache
      ensures DrawResult(outcome, State()) == Resolve(old(State()), ix, iz, chunkx, chunkz)
    {
      var flat := Index(ix, iz);
      if !(0 <= flat < cache.Length) {
        return OutOfRange(ix, iz);
      }
      var cc := cache[flat];
      if cc.status == Valid {
        outcome := Drawn(flat, cc.chunk);
      } else if cc.status == Invalid {
        cache[flat] := cc.(status := Queued);
        loadQueue := loadQueue + [LoadRequest(flat, chunkx, chunkz)];
        outcome := Requested(flat);
      } else {
        outcome := Pending(flat);
      }
    }
  }

  /** The draw of a coordinate one chunk west of a fresh window, after the
      chunk eight columns east has been built, draws that chunk instead:
      Cache(0,0); draw(8,0); pollLoadRequests(); draw(-1,0). */
  method StaleDrawAfterBackMiss() returns (drawn: DrawOutcome)
    ensures drawn == Drawn(8, Built(8, 0))
  {
    var c := new Cache(0, 0);
    var o1 := c.Draw(8, 0);
    assert o1 == Requested(8);
    c.PollLoadRequests();
    drawn := c.Draw(-1, 0);
  }

  /** Cache(0,0); draw(10,0); draw(1,0): the second draw computes array
      column -1, flat index -1, outside the cache vector. */
  method NegativeIndexAfterForwardMiss() returns (o: DrawOutcome)
    ensures o == OutOfRange(-1, 0)
  {
    var c := new Cache(0, 0);
    var o1 := c.Draw(10, 0);
    assert o1 == Requested(1);
    o := c.Draw(1, 0);
  }

  /** Cache(0,0); draw(9,0); draw(-1,0); draw(8,0): the west miss
      invalidates slot 9 while its build for (9,0) is still queued, and
      draw(8,0) requests slot 9 again, so two builds for slot 9 are in
      flight. After one poll, the old build for (9,0) is drawn for (8,0). */
  method DoubleRequestAfterShift() returns (queue: seq<LoadRequest>, drawn: DrawOutcome)
    ensures queue == [LoadRequest(9, 9, 0), LoadRequest(8, -1, 0), LoadRequest(9, 8, 0)]
    ensures drawn == Drawn(9, Built(9, 0))
  {
    var c := new Cache(0, 0);
    var o1 := c.Draw(9, 0);
    assert o1 == Requested(9);
    AsWrittenBackMissSlot();
    var o2 := c.Draw(-1, 0);
    assert o2 == Requested(8);
    assert c.refx == -1 && c.domx == 9 && c.cache[9].status == Invalid;
    assert StepAxis(9, 9) == AxisStep(Stay, 9, 9);
    var o3 := c.Draw(8, 0);
    assert o3 == Requested(9);
    queue := c.loadQueue;
    c.PollLoadRequests();
    drawn := c.Draw(8, 0);
  }
}
