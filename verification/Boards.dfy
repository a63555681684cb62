/** Tables of quads laid over the world: which cells the bounds of each quad reach. */
module Boards {
  import opened CellMath
  import opened Geometry
  import opened Cells

  predicate NonEmpty<Q>(g: Table<Q>) {
    |g| > 0 && |g[0]| > 0 && Rectangular(g, |g|, |g[0]|)
  }

  function WorldList<Q>(g: Table<Q>, min: Vector3f, resolution: int, x: real, z: real): seq<Q>
    requires NonEmpty(g) && resolution > 0
  {
    var cx, cz := CellIndex(x - min.x, resolution), CellIndex(z - min.z, resolution);
    if 0 <= cx < |g[0]| && 0 <= cz < |g| then g[cz][cx] else []
  }

  lemma SameWorldEverywhere<Q>(g0: Table<Q>, g1: Table<Q>, min0: Vector3f, min1: Vector3f, resolution: int, sx: int, sz: int)
    requires NonEmpty(g0) && NonEmpty(g1) && resolution > 0 && Grown(g0, g1, sx, sz)
    requires min1.x == min0.x - Edge(sx, resolution) && min1.z == min0.z - Edge(sz, resolution)
    ensures forall x, z :: WorldList(g1, min1, resolution, x, z) == WorldList(g0, min0, resolution, x, z)
  {
    forall x, z ensures WorldList(g1, min1, resolution, x, z) == WorldList(g0, min0, resolution, x, z) {
      SameWorld(g0, g1, min0, min1, resolution, sx, sz, x, z);
    }
  }

  /** A quad whose bounds are in [min, max) on both axes. */
  ghost predicate PlacedIn(min: Vector3f, max: Vector3f, s: Shape) {
    && s.NonNegative()
    && min.x <= s.MinPoint().x && s.MaxPoint().x < max.x
    && min.z <= s.MinPoint().z && s.MaxPoint().z < max.z
  }

  function RectIn(min: Vector3f, resolution: int, s: Shape): Rect
    requires resolution > 0
  {
    Rect(CellIndex(s.MinPoint().x - min.x, resolution), CellIndex(s.MaxPoint().x - min.x, resolution),
         CellIndex(s.MinPoint().z - min.z, resolution), CellIndex(s.MaxPoint().z - min.z, resolution))
  }

  /** A cell is in the range of a shape if and only if it begins at or before the shape's end and ends after the shape's
      beginning, on both axes. */
  lemma RectIff(min: Vector3f, resolution: int, s: Shape, x: int, y: int)
    requires resolution > 0
    ensures RectIn(min, resolution, s).Has(x, y) <==>
      && min.x + (x * resolution) as real <= s.center.x + s.extents.x
      && s.center.x - s.extents.x < min.x + ((x + 1) * resolution) as real
      && min.z + (y * resolution) as real <= s.center.z + s.extents.z
      && s.center.z - s.extents.z < min.z + ((y + 1) * resolution) as real
  {
    hide Scale, CellIndex;
    Bounds(s);
    CellIff(s.MinPoint().x - min.x, resolution, x);
    CellIff(s.MaxPoint().x - min.x, resolution, x);
    CellIff(s.MinPoint().z - min.z, resolution, y);
    CellIff(s.MaxPoint().z - min.z, resolution, y);
  }

  /** The cells list the given quads only, and every one of them in each cell its bounds reach. */
  ghost predicate IndexedBy<Q>(g: Table<Q>, min: Vector3f, max: Vector3f, resolution: int, shapes: map<Q, Shape>)
    requires resolution > 0
  {
    && (forall y, x, q :: 0 <= y < |g| && 0 <= x < |g[y]| && q in g[y][x] ==> q in shapes)
    && (forall q :: q in shapes ==> PlacedIn(min, max, shapes[q]) && Covers(g, q, RectIn(min, resolution, shapes[q])))
  }

  /** Every given quad is listed once in each cell its bounds reach and nowhere else. */
  ghost predicate ExactBy<Q>(g: Table<Q>, min: Vector3f, resolution: int, shapes: map<Q, Shape>)
    requires resolution > 0
  {
    forall q :: q in shapes ==> Exact(g, q, RectIn(min, resolution, shapes[q]))
  }

  lemma MergeKeepsExact<Q>(g0: Table<Q>, g1: Table<Q>, min: Vector3f, resolution: int, shapes: map<Q, Shape>, q: Q, s: Shape)
    requires resolution > 0 && NonEmpty(g0) && ExactBy(g0, min, resolution, shapes) && q in shapes
    requires var r0, r1 := RectIn(min, resolution, shapes[q]), RectIn(min, resolution, s);
      r0.Within(|g0|, |g0[0]|) && r1.Within(|g0|, |g0[0]|) && r0.Meets(r1) && Merged(g0, g1, q, r0, r1)
    ensures var r0, r1 := RectIn(min, resolution, shapes[q]), RectIn(min, resolution, s);
      ExactBy(g1, min, resolution, shapes[q := s]) <==> !(WidensX(r0, r1) && NarrowsZ(r0, r1))
  {
    var r0, r1 := RectIn(min, resolution, shapes[q]), RectIn(min, resolution, s);
    MergeExactIff(g0, g1, q, r0, r1, |g0|, |g0[0]|);
    forall p | p in shapes && p != q
      ensures Exact(g1, p, RectIn(min, resolution, shapes[p]))
    {
      forall y, x | 0 <= y < |g1| && 0 <= x < |g1[y]|
        ensures multiset(g1[y][x])[p] == if RectIn(min, resolution, shapes[p]).Has(x, y) then 1 else 0
      {
        MergeKeepsOthers(g0, g1, q, r0, r1, p, y, x);
      }
    }
    assert shapes[q := s][q] == s;
  }

  lemma AppendKeepsExact<Q>(g0: Table<Q>, g1: Table<Q>, min: Vector3f, max: Vector3f, resolution: int,
                            shapes: map<Q, Shape>, q: Q, s: Shape)
    requires resolution > 0 && IndexedBy(g0, min, max, resolution, shapes) && q !in shapes
    requires var r := RectIn(min, resolution, s); Swept(g0, g1, q, r.y0, r.y1 + 1, r.x0, r.x1 + 1, true)
    ensures ExactBy(g1, min, resolution, shapes[q := s]) <==> ExactBy(g0, min, resolution, shapes)
  {
    forall p, y, x | 0 <= y < |g1| && 0 <= x < |g1[y]|
      ensures p != q ==> multiset(g1[y][x])[p] == multiset(g0[y][x])[p]
      ensures multiset(g1[y][x])[q] == if RectIn(min, resolution, s).Has(x, y) then 1 else 0
    {
      UpdatedCounts(g0[y][x], q, true);
      assert q !in g0[y][x];
    }
    forall p | p in shapes
      ensures Exact(g1, p, RectIn(min, resolution, shapes[p])) <==> Exact(g0, p, RectIn(min, resolution, shapes[p]))
    {
      SameCounts(g0, g1, p, RectIn(min, resolution, shapes[p]));
    }
    assert shapes[q := s][q] == s && Exact(g1, q, RectIn(min, resolution, s));
    forall p | p in shapes ensures p in shapes[q := s] && shapes[q := s][p] == shapes[p] {
    }
  }

  lemma SameCounts<Q>(g0: Table<Q>, g1: Table<Q>, p: Q, r: Rect)
    requires |g1| == |g0| && (forall y :: 0 <= y < |g0| ==> |g1[y]| == |g0[y]|)
    requires forall y, x :: 0 <= y < |g1| && 0 <= x < |g1[y]| ==> multiset(g1[y][x])[p] == multiset(g0[y][x])[p]
    ensures Exact(g1, p, r) <==> Exact(g0, p, r)
  {
  }

  /** Updating the cells of one quad keeps it covered at its new place and every other quad where it was. */
  lemma MergeKeepsIndex<Q>(g0: Table<Q>, g1: Table<Q>, min: Vector3f, max: Vector3f, resolution: int,
                        shapes: map<Q, Shape>, q: Q, s: Shape)
    requires resolution > 0 && IndexedBy(g0, min, max, resolution, shapes) && q in shapes && PlacedIn(min, max, s)
    requires var r0, r1 := RectIn(min, resolution, shapes[q]), RectIn(min, resolution, s);
      r0.x0 <= r0.x1 && r0.y0 <= r0.y1 && r1.x0 <= r1.x1 && r1.y0 <= r1.y1 && r0.Meets(r1) && Merged(g0, g1, q, r0, r1)
    ensures IndexedBy(g1, min, max, resolution, shapes[q := s])
  {
    var r0, r1 := RectIn(min, resolution, shapes[q]), RectIn(min, resolution, s);
    MergeKeepsCover(g0, g1, q, r0, r1);
    forall y, x, p | 0 <= y < |g1| && 0 <= x < |g1[y]| && p in g1[y][x]
      ensures p in shapes
    {
      if p != q {
        MergeKeepsOthers(g0, g1, q, r0, r1, p, y, x);
      }
    }
    forall p | p in shapes && p != q
      ensures Covers(g1, p, RectIn(min, resolution, shapes[p]))
    {
      forall y, x | 0 <= y < |g1| && 0 <= x < |g1[y]| && RectIn(min, resolution, shapes[p]).Has(x, y)
        ensures p in g1[y][x]
      {
        MergeKeepsOthers(g0, g1, q, r0, r1, p, y, x);
      }
    }
  }

  /** Growing by whole cells leaves every world point with the list it had. */
  lemma SameWorld<Q>(g0: Table<Q>, g1: Table<Q>, min0: Vector3f, min1: Vector3f, resolution: int, sx: int, sz: int, x: real, z: real)
    requires NonEmpty(g0) && NonEmpty(g1) && resolution > 0 && Grown(g0, g1, sx, sz)
    requires min1.x == min0.x - Edge(sx, resolution) && min1.z == min0.z - Edge(sz, resolution)
    ensures WorldList(g1, min1, resolution, x, z) == WorldList(g0, min0, resolution, x, z)
  {
    hide Scale;
    CellIndexShift(x - min0.x, resolution, sx);
    CellIndexShift(z - min0.z, resolution, sz);
    var cx, cz := CellIndex(x - min0.x, resolution), CellIndex(z - min0.z, resolution);
    assert x - min1.x == x - min0.x + Edge(sx, resolution) && z - min1.z == z - min0.z + Edge(sz, resolution);
    assert |g1[sz]| == |g1[0]|;
    if 0 <= cz < |g0| && 0 <= cx < |g0[0]| {
      assert |g0[cz]| == |g0[0]|;
      assert g1[sz + cz][sx + cx] == g0[cz][cx];
    } else if 0 <= cz + sz < |g1| && 0 <= cx + sx < |g1[0]| {
      assert |g1[cz + sz]| == |g1[0]|;
      assert g1[cz + sz][cx + sx] == [];
    }
  }

  lemma GrowKeepsIndex<Q>(g0: Table<Q>, g1: Table<Q>, min0: Vector3f, max0: Vector3f, min1: Vector3f, max1: Vector3f,
                       resolution: int, sx: int, sz: int, shapes: map<Q, Shape>)
    requires NonEmpty(g0) && NonEmpty(g1) && resolution > 0 && Grown(g0, g1, sx, sz)
    requires min1.x == min0.x - Edge(sx, resolution) && min1.z == min0.z - Edge(sz, resolution)
    requires min1.x <= min0.x && min1.z <= min0.z && max0.x <= max1.x && max0.z <= max1.z
    requires IndexedBy(g0, min0, max0, resolution, shapes)
    requires forall q :: q in shapes ==> RectIn(min0, resolution, shapes[q]).Within(|g0|, |g0[0]|)
    ensures IndexedBy(g1, min1, max1, resolution, shapes)
    ensures ExactBy(g0, min0, resolution, shapes) <==> ExactBy(g1, min1, resolution, shapes)
  {
    hide Scale;
    forall q | q in shapes
      ensures Exact(g0, q, RectIn(min0, resolution, shapes[q])) <==> Exact(g1, q, RectIn(min1, resolution, shapes[q]))
    {
      RectShift(min0, min1, resolution, sx, sz, shapes[q]);
      GrownExact(g0, g1, q, RectIn(min0, resolution, shapes[q]), |g0|, |g0[0]|, sx, sz);
    }
    forall q | q in shapes
      ensures PlacedIn(min1, max1, shapes[q]) && Covers(g1, q, RectIn(min1, resolution, shapes[q]))
    {
      var r0, r1 := RectIn(min0, resolution, shapes[q]), RectIn(min1, resolution, shapes[q]);
      RectShift(min0, min1, resolution, sx, sz, shapes[q]);
      forall y, x | 0 <= y < |g1| && 0 <= x < |g1[y]| && r1.Has(x, y)
        ensures q in g1[y][x]
      {
        assert r0.Has(x - sx, y - sz) && |g0[y - sz]| == |g0[0]|;
        assert q in g0[y - sz][x - sx];
      }
    }
  }

  lemma RectShift(min0: Vector3f, min1: Vector3f, resolution: int, sx: int, sz: int, s: Shape)
    requires resolution > 0
    requires min1.x == min0.x - Edge(sx, resolution) && min1.z == min0.z - Edge(sz, resolution)
    ensures RectIn(min1, resolution, s) == RectIn(min0, resolution, s).Shift(sx, sz)
  {
    hide Scale;
    CellIndexShift(s.MinPoint().x - min0.x, resolution, sx);
    CellIndexShift(s.MaxPoint().x - min0.x, resolution, sx);
    CellIndexShift(s.MinPoint().z - min0.z, resolution, sz);
    CellIndexShift(s.MaxPoint().z - min0.z, resolution, sz);
    assert s.MinPoint().x - min1.x == s.MinPoint().x - min0.x + Edge(sx, resolution);
    assert s.MaxPoint().x - min1.x == s.MaxPoint().x - min0.x + Edge(sx, resolution);
    assert s.MinPoint().z - min1.z == s.MinPoint().z - min0.z + Edge(sz, resolution);
    assert s.MaxPoint().z - min1.z == s.MaxPoint().z - min0.z + Edge(sz, resolution);
  }

  lemma AppendKeepsIndex<Q>(g0: Table<Q>, g1: Table<Q>, min: Vector3f, max: Vector3f, resolution: int,
                         shapes: map<Q, Shape>, q: Q, s: Shape)
    requires resolution > 0 && IndexedBy(g0, min, max, resolution, shapes) && q !in shapes && PlacedIn(min, max, s)
    requires var r := RectIn(min, resolution, s); Swept(g0, g1, q, r.y0, r.y1 + 1, r.x0, r.x1 + 1, true)
    ensures IndexedBy(g1, min, max, resolution, shapes[q := s])
  {
    forall p, y, x | p in shapes && 0 <= y < |g1| && 0 <= x < |g1[y]| && RectIn(min, resolution, shapes[p]).Has(x, y)
      ensures p in g1[y][x]
    {
      assert p in g0[y][x];
    }
  }
}
