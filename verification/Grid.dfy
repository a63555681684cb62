/** The regular grid: an index of quads by the cells their bounds reach, that grows and merges in place. */
module Grid {
  import opened Options
  import opened CellMath
  import opened Geometry
  import opened Cells
  import opened Boards
  import opened Merging
  import opened Sequences

  /** A stored quad. The extents are half sizes; a merge never recomputes the normal. */
  class Quad {
    var center: Vector3f
    var extents: Vector3f
    const normal: Vector3f
    var mergeCount: nat

    constructor (center: Vector3f, extents: Vector3f, normal: Vector3f, mergeCount: nat)
      ensures View() == Shape(center, extents, normal) && this.mergeCount == mergeCount
    {
      this.center, this.extents, this.normal, this.mergeCount := center, extents, normal, mergeCount;
    }

    function View(): Shape
      reads this`center, this`extents
    {
      Shape(center, extents, normal)
    }
  }

  /** The first of the nearest quads a ray hits, in list order. */
  function Nearest(cell: seq<Quad>, r: Ray): (best: (Quad?, Distance))
    reads cell
    ensures best.0 == null || best.0 in cell
  {
    if cell == [] then (null, Infinite)
    else
      var n := |cell| - 1;
      var before := Nearest(cell[..n], r);
      var hit := cell[n].View().IntersectQuad(r);
      if hit.Some? && Finite(hit.value).Less(before.1) then (cell[n], Finite(hit.value)) else before
  }

  lemma {:induction false} NearestMeaning(cell: seq<Quad>, r: Ray)
    ensures var (hit, t) := Nearest(cell, r);
      && (hit == null <==> t == Infinite)
      && (hit == null <==> forall p :: p in cell ==> p.View().IntersectQuad(r) == None)
      && (hit != null ==>
            && hit in cell && t.Finite? && t.t >= 0.0
            && hit.View().IntersectQuad(r) == Some(t.t)
            && (forall p :: p in cell && p.View().IntersectQuad(r).Some? ==> t.t <= p.View().IntersectQuad(r).value))
  {
    if cell != [] {
      NearestMeaning(cell[..|cell| - 1], r);
      assert cell == cell[..|cell| - 1] + [cell[|cell| - 1]];
    }
  }

  /** Of the nearest quads it is the first listed one. */
  lemma {:induction false} FirstOfNearest(cell: seq<Quad>, r: Ray) returns (i: nat)
    requires Nearest(cell, r).0 != null
    ensures i < |cell| && cell[i] == Nearest(cell, r).0 && Nearest(cell, r).1.Finite?
    ensures cell[i].View().IntersectQuad(r) == Some(Nearest(cell, r).1.t)
    ensures forall j :: 0 <= j < |cell| && cell[j].View().IntersectQuad(r).Some? ==>
      && Nearest(cell, r).1.t <= cell[j].View().IntersectQuad(r).value
      && (j < i ==> Nearest(cell, r).1.t < cell[j].View().IntersectQuad(r).value)
  {
    hide Shape.IntersectQuad;
    var n := |cell| - 1;
    NearestMeaning(cell[..n], r);
    NearestMeaning(cell, r);
    if Nearest(cell, r) == Nearest(cell[..n], r) {
      i := FirstOfNearest(cell[..n], r);
    } else {
      i := n;
    }
  }

  /** The first quad a list gives is a stored one that the ray hits; it is never farther than a quad hit
      within its exact bounds and never nearer than the nearest within tolerance; and the two scans give one
      distance when no stored quad is hit in the tolerance margin only. */
  ghost predicate ScanAgrees(list: seq<Quad>, stored: seq<Quad>, r: Ray)
    reads list, stored
  {
    var (hit, t) := Nearest(list, r);
    && (hit != null ==> hit in stored && t.Finite? && hit.View().IntersectQuad(r) == Some(t.t))
    && (forall q :: q in stored && q.View().HitWithin(r, 0.0).Some? ==>
          hit != null && t.Finite? && t.t <= q.View().HitWithin(r, 0.0).value)
    && !t.Less(Nearest(stored, r).1)
    && ((forall q :: q in stored && q.View().IntersectQuad(r).Some? ==> q.View().HitWithin(r, 0.0).Some?) ==>
          t == Nearest(stored, r).1)
  }

  lemma ListAgreesWithScan(list: seq<Quad>, stored: seq<Quad>, r: Ray)
    requires r.Vertical()
    requires forall q :: q in list ==> q in stored
    requires forall q :: q in stored && q.View().HitWithin(r, 0.0).Some? ==> q in list
    ensures ScanAgrees(list, stored, r)
  {
    NearestMeaning(list, r);
    NearestMeaning(stored, r);
    forall q | q in stored && q.View().HitWithin(r, 0.0).Some?
      ensures q.View().IntersectQuad(r) == q.View().HitWithin(r, 0.0)
    {
      LooserHit(q.View(), r, 0.0, HIT_EPSILON);
    }
  }

  /** The quad that the merging loop picks for `cur` among the quads listed at its centre, if any. */
  function MergeTarget(list: seq<Quad>, cur: Quad): Quad?
    reads list, cur
  {
    var up, down := Nearest(list, UpRay(cur.center)), Nearest(list, DownRay(cur.center));
    var best := if down.1.Less(up.1) then down.0 else up.0;
    if best == null then null
    else if EqualWithEpsilon(best.center.y, cur.center.y, MERGE_EPSILON) && best.View().Overlaps(cur.View()) then best
    else null
  }

  /** A merge target is listed, has a vertical normal part, and overlaps the quad it takes in. */
  lemma MergeTargetMeaning(list: seq<Quad>, cur: Quad)
    ensures var target := MergeTarget(list, cur);
      target != null ==> target in list && target.normal.y != 0.0 && target.View().Overlaps(cur.View())
  {
    NearestMeaning(list, UpRay(cur.center));
    NearestMeaning(list, DownRay(cur.center));
    var target := MergeTarget(list, cur);
    if target != null {
      if target.View().IntersectQuad(UpRay(cur.center)).Some? {
        VerticalHit(target.View(), UpRay(cur.center), HIT_EPSILON);
      } else {
        VerticalHit(target.View(), DownRay(cur.center), HIT_EPSILON);
      }
    }
  }

  /** The ray from `c` up or down by 1.6 hits the quad at `t`. */
  ghost predicate HitAbove(p: Quad, c: Vector3f, t: real)
    reads p
  {
    p.View().IntersectQuad(Ray(c, Vector3f(c.x, c.y + 1.6, c.z))) == Some(t)
  }

  ghost predicate HitBelow(p: Quad, c: Vector3f, t: real)
    reads p
  {
    p.View().IntersectQuad(Ray(c, Vector3f(c.x, c.y - 1.6, c.z))) == Some(t)
  }

  /** One of the two rays meets the shape at `t`, within its exact bounds. */
  predicate MetNear(s: Shape, c: Vector3f, t: real) {
    Meets(s, Ray(c, Vector3f(c.x, c.y + 1.6, c.z)), t, 0.0) || Meets(s, Ray(c, Vector3f(c.x, c.y - 1.6, c.z)), t, 0.0)
  }

  /** No listed quad is hit nearer than the one at `i`, above or below; of equally near ones those above come first, and of
      these the one that is listed first. */
  ghost predicate Best(list: seq<Quad>, c: Vector3f, i: nat)
    requires i < |list|
    reads list
  {
    || (exists t :: HitAbove(list[i], c, t)
          && (forall j, u :: 0 <= j < |list| && HitAbove(list[j], c, u) ==> t <= u && (j < i ==> t < u))
          && (forall j, u :: 0 <= j < |list| && HitBelow(list[j], c, u) ==> t <= u))
    || (exists t :: HitBelow(list[i], c, t)
          && (forall j, u :: 0 <= j < |list| && HitBelow(list[j], c, u) ==> t <= u && (j < i ==> t < u))
          && (forall j, u :: 0 <= j < |list| && HitAbove(list[j], c, u) ==> t < u))
  }

  /** The guard of a merge: at most 0.6 apart in height, and overlapping. */
  ghost predicate Fits(p: Quad, cur: Quad)
    reads p, cur
  {
    -0.6 <= p.center.y - cur.center.y <= 0.6 && p.View().Overlaps(cur.View())
  }

  /** `h` is the best of the listed quads if that fits; there is no target if it does not, or nothing is hit. */
  ghost predicate Picked(list: seq<Quad>, cur: Quad, h: Quad?)
    reads list, cur
  {
    if exists j, t :: 0 <= j < |list| && (HitAbove(list[j], cur.center, t) || HitBelow(list[j], cur.center, t)) then
      exists i :: 0 <= i < |list| && Best(list, cur.center, i) && h == if Fits(list[i], cur) then list[i] else null
    else h == null
  }

  /** There is one best quad at most. */
  lemma BestUnique(list: seq<Quad>, c: Vector3f, i: nat, k: nat)
    requires i < |list| && k < |list| && Best(list, c, i) && Best(list, c, k)
    ensures i == k
  {
    hide Shape.IntersectQuad;
  }

  lemma TargetPicked(list: seq<Quad>, cur: Quad)
    ensures Picked(list, cur, MergeTarget(list, cur))
  {
    hide Shape.IntersectQuad, Shape.Overlaps;
    var c := cur.center;
    var up, down := Nearest(list, UpRay(c)), Nearest(list, DownRay(c));
    assert UpRay(c) == Ray(c, Vector3f(c.x, c.y + 1.6, c.z)) && DownRay(c) == Ray(c, Vector3f(c.x, c.y - 1.6, c.z));
    NearestMeaning(list, UpRay(c));
    NearestMeaning(list, DownRay(c));
    if down.1.Less(up.1) {
      var i := FirstOfNearest(list, DownRay(c));
      assert HitBelow(list[i], c, down.1.t);
      assert Best(list, c, i);
    } else if up.0 != null {
      var i := FirstOfNearest(list, UpRay(c));
      assert HitAbove(list[i], c, up.1.t);
      assert Best(list, c, i);
    }
  }

  /** What the merging loop picks is the best quad, or nothing: this and no other target. */
  lemma TargetIff(list: seq<Quad>, cur: Quad, h: Quad?)
    ensures MergeTarget(list, cur) == h <==> Picked(list, cur, h)
  {
    hide Best, MergeTarget, Fits;
    TargetPicked(list, cur);
    if Picked(list, cur, h) {
      forall i, k | 0 <= i < |list| && 0 <= k < |list| && Best(list, cur.center, i) && Best(list, cur.center, k) ensures i == k {
        BestUnique(list, cur.center, i, k);
      }
    }
  }

  /** Of the quads at distance zero, the ray takes the one listed first. */
  lemma {:induction false} NearestFirstTouch(list: seq<Quad>, r: Ray, i: nat)
    requires i < |list| && list[i].View().IntersectQuad(r) == Some(0.0)
    requires forall j :: 0 <= j < i ==> list[j].View().IntersectQuad(r) != Some(0.0)
    ensures Nearest(list, r) == (list[i], Finite(0.0))
    decreases |list|
  {
    var n := |list| - 1;
    NearestMeaning(list[..n], r);
    NearestMeaning(list, r);
    if i < n {
      NearestFirstTouch(list[..n], r, i);
    }
  }

  /** Where the first quad that touches the point is listed. */
  lemma {:induction false} FirstTouchIndex(list: seq<Quad>, shapes: map<Quad, Shape>, c: Vector3f) returns (i: nat)
    requires FirstTouch(list, shapes, c).Some?
    ensures i < |list| && list[i] == FirstTouch(list, shapes, c).value
    ensures forall j :: 0 <= j < i ==> list[j] !in shapes || !Touches(shapes[list[j]], c)
    decreases |list|
  {
    if list[0] in shapes && Touches(shapes[list[0]], c) {
      i := 0;
    } else {
      i := FirstTouchIndex(list[1..], shapes, c);
      i := i + 1;
    }
  }

  /** At a centre that some quad touches, the loop picks the first listed quad that does, or nothing. */
  lemma TargetTouches(list: seq<Quad>, shapes: map<Quad, Shape>, cur: Quad)
    requires forall q :: q in list ==> q in shapes && shapes[q] == q.View()
    requires FirstTouch(list, shapes, cur.center).Some?
    ensures var f := FirstTouch(list, shapes, cur.center).value;
      MergeTarget(list, cur) == if Takes(shapes[f], cur.View()) then f else null
  {
    hide Shape.IntersectQuad, Shape.Overlaps;
    var i := FirstTouchIndex(list, shapes, cur.center);
    NearestFirstTouch(list, UpRay(cur.center), i);
    NearestMeaning(list, DownRay(cur.center));
  }

  /** `run` is that of at most `rounds` passes, of which the first merges the shape `s` into `h`, or ends without a target. */
  ghost predicate IsRun(run: Run<Quad>, b: Board<Quad>, h: Quad?, s: Shape, rounds: nat) {
    && Usable(b) && (h != null ==> h in b.shapes)
    && run == if rounds == 0 || h == null then Run(b, rounds > 0, [], false) else MergeOn(b, h, s, rounds)
  }

  /** Bounds that grew for the span from `lo` to `hi` grew by no row or column of cells that it does not reach. */
  predicate Snug(min: Vector3f, max: Vector3f, newMin: Vector3f, newMax: Vector3f, lo: Vector3f, hi: Vector3f, unit: real) {
    && (newMin.x < min.x ==> lo.x < newMin.x + unit) && (max.x < newMax.x ==> newMax.x - unit <= hi.x)
    && (newMin.z < min.z ==> lo.z < newMin.z + unit) && (max.z < newMax.z ==> newMax.z - unit <= hi.z)
  }

  /** Growing for one end of a span and then for the other is growing for the span. */
  lemma SnugTwice(a: Vector3f, b: Vector3f, a1: Vector3f, b1: Vector3f, a2: Vector3f, b2: Vector3f, lo: Vector3f, hi: Vector3f,
      unit: real)
    requires Snug(a, b, a1, b1, lo, lo, unit) && Snug(a1, b1, a2, b2, hi, hi, unit)
    requires lo.x <= hi.x && lo.z <= hi.z && a2.x <= a1.x && b1.x <= b2.x && a2.z <= a1.z && b1.z <= b2.z
    ensures Snug(a, b, a2, b2, lo, hi, unit)
  {
  }

  class RegularGrid {
    const resolution: nat
    var planeCount: nat
    var mergeCount: nat
    var min: Vector3f
    var max: Vector3f
    var grid: Table<Quad>

    /** The quads of the grid in order of insertion, the merge count each came with, and the merges since. */
    ghost var stored: seq<Quad>
    ghost var initial: seq<nat>
    ghost var merges: seq<nat>

    ghost predicate Shaped()
      reads this`grid, this`min, this`max
    {
      && resolution > 0 && NonEmpty(grid)
      && max.x - min.x == Edge(|grid[0]|, resolution)
      && max.z - min.z == Edge(|grid|, resolution)
    }

    ghost predicate Placed(s: Shape)
      reads this`min, this`max
    {
      PlacedIn(min, max, s)
    }

    function RectOf(s: Shape): Rect
      requires resolution > 0
      reads this`min
    {
      RectIn(min, resolution, s)
    }

    ghost function Shapes(): map<Quad, Shape>
      reads this`stored, stored`center, stored`extents
    {
      map q | q in stored :: q.View()
    }

    /** The grid as a value. */
    ghost function AsBoard(): (b: Board<Quad>)
      reads this`grid, this`min, this`max, this`stored, stored`center, stored`extents
      ensures b.shapes == Shapes() && (Shaped() ==> Usable(b))
    {
      Board(grid, Shapes(), min, max, resolution)
    }

    ghost predicate AllExact()
      requires resolution > 0
      reads this`grid, this`min, this`stored, stored`center, stored`extents
    {
      ExactBy(grid, min, resolution, Shapes())
    }

    ghost predicate Counted()
      reads this`stored, this`initial, this`merges, this`planeCount, this`mergeCount, stored`mergeCount
    {
      && |initial| == |stored| && |merges| == |stored|
      && planeCount == |stored| && mergeCount == Sum(merges)
      && (forall i :: 0 <= i < |stored| ==> stored[i].mergeCount == initial[i] + merges[i])
    }

    ghost predicate Valid()
      reads this, stored
    {
      && Shaped()
      && Distinct(stored)
      && IndexedBy(grid, min, max, resolution, Shapes())
      && Counted()
    }

    /** The list of the cell at a world point; nothing is listed outside the grid. */
    ghost function ListAt(x: real, z: real): seq<Quad>
      requires Shaped()
      reads this`grid, this`min, this`max
    {
      WorldList(grid, min, resolution, x, z)
    }

    lemma Parts()
      requires Valid()
      ensures Sound(AsBoard()) && Shaped() && Distinct(stored) && Counted()
    {
    }

    lemma Assemble()
      requires Sound(AsBoard()) && Distinct(stored) && Counted()
      ensures Valid()
    {
    }

    constructor (resolution: nat)
      ensures Valid() && stored == [] && this.resolution == (if resolution == 0 then 1 else resolution)
      ensures min == Vector3f(0.0, 0.0, 0.0) && max == Vector3f(this.resolution as real, 0.0, this.resolution as real)
      ensures grid == [[[]]] && planeCount == 0 && mergeCount == 0
    {
      var r := if resolution == 0 then 1 else resolution;
      this.resolution := r;
      planeCount, mergeCount := 0, 0;
      min := Vector3f(0.0, 0.0, 0.0);
      max := Vector3f(r as real, 0.0, r as real);
      grid := [[[]]];
      stored, initial, merges := [], [], [];
      EdgeUnits(r);
    }

    lemma StoredQuad(q: Quad)
      requires Valid() && q in stored
      ensures Placed(q.View()) && Covers(grid, q, RectOf(q.View())) && RectOf(q.View()).Within(|grid|, |grid[0]|)
    {
      assert q in Shapes() && Shapes()[q] == q.View();
      RectWithin(AsBoard(), q.View());
    }

    /** A stored quad is listed at every world point within its bounds. */
    lemma ListedWithinBounds(q: Quad, x: real, z: real)
      requires Valid() && q in stored
      requires q.View().MinPoint().x <= x <= q.View().MaxPoint().x && q.View().MinPoint().z <= z <= q.View().MaxPoint().z
      ensures q in ListAt(x, z)
    {
      hide Scale;
      var s := q.View();
      StoredQuad(q);
      CellIndexMonotone(s.MinPoint().x - min.x, x - min.x, resolution);
      CellIndexMonotone(x - min.x, s.MaxPoint().x - min.x, resolution);
      CellIndexMonotone(s.MinPoint().z - min.z, z - min.z, resolution);
      CellIndexMonotone(z - min.z, s.MaxPoint().z - min.z, resolution);
      var cx, cz := CellIndex(x - min.x, resolution), CellIndex(z - min.z, resolution);
      assert RectOf(s).Has(cx, cz) && |grid[cz]| == |grid[0]|;
    }

    method AddColumns(count: nat, inFront: bool)
      requires Shaped()
      modifies this`min, this`max, this`grid
      ensures Shaped() && |grid| == |old(grid)| && |grid[0]| == |old(grid)[0]| + count
      ensures Grown(old(grid), grid, if inFront then count else 0, 0)
      ensures min == if inFront then old(min).(x := old(min.x) - Edge(count, resolution)) else old(min)
      ensures max == if inFront then old(max) else old(max).(x := old(max.x) + Edge(count, resolution))
    {
      hide Scale;
      var rows := |grid|;
      EdgeSum(|grid[0]|, count, resolution);
      for i := 0 to rows
        invariant |grid| == rows && min == old(min) && max == old(max)
        invariant forall y :: 0 <= y < rows ==>
          grid[y] == if y < i then (if inFront then Blank(count) + old(grid)[y] else old(grid)[y] + Blank(count)) else old(grid)[y]
      {
        grid := grid[i := if inFront then Blank(count) + grid[i] else grid[i] + Blank(count)];
      }
      if inFront {
        min := min.(x := min.x - Edge(count, resolution));
      } else {
        max := max.(x := max.x + Edge(count, resolution));
      }
    }

    method AddRows(count: nat, inFront: bool)
      requires Shaped()
      modifies this`min, this`max, this`grid
      ensures Shaped() && |grid| == |old(grid)| + count && |grid[0]| == |old(grid)[0]|
      ensures Grown(old(grid), grid, 0, if inFront then count else 0)
      ensures min == if inFront then old(min).(z := old(min.z) - Edge(count, resolution)) else old(min)
      ensures max == if inFront then old(max) else old(max).(z := old(max.z) + Edge(count, resolution))
    {
      hide Scale;
      EdgeSum(|grid|, count, resolution);
      RowsGrown(grid, BlankRows(count, |grid[0]|), count, |grid[0]|);
      if inFront {
        grid := BlankRows(count, |grid[0]|) + grid;
        min := min.(z := min.z - Edge(count, resolution));
      } else {
        grid := grid + BlankRows(count, |grid[0]|);
        max := max.(z := max.z + Edge(count, resolution));
      }
    }

    /** Adds the fewest rows and columns of empty cells that bring `p` into [min, max). */
    method ExpandToFitPoint(p: Vector3f) returns (ghost sx: int, ghost sz: int)
      requires Shaped()
      modifies this`min, this`max, this`grid
      ensures Shaped()
      ensures Grown(old(grid), grid, sx, sz)
      ensures min == Vector3f(old(min.x) - Edge(sx, resolution), old(min.y), old(min.z) - Edge(sz, resolution))
      ensures min.x <= old(min.x) && old(max.x) <= max.x && min.z <= old(min.z) && old(max.z) <= max.z
      ensures min.x <= p.x < max.x && min.z <= p.z < max.z
      ensures min.x < old(min.x) ==> p.x < min.x + resolution as real
      ensures old(max.x) < max.x ==> max.x - resolution as real <= p.x
      ensures min.z < old(min.z) ==> p.z < min.z + resolution as real
      ensures old(max.z) < max.z ==> max.z - resolution as real <= p.z
      ensures old(min.x <= p.x < max.x && min.z <= p.z < max.z) ==> unchanged(this)
      ensures forall x, z :: ListAt(x, z) == old(ListAt(x, z))
    {
      hide Scale, CellsToAdd, Grown, WorldList;
      EdgeUnits(resolution);
      sx, sz := 0, 0;
      if p.x >= min.x && p.z >= min.z && p.x < max.x && p.z < max.z {
        GrownNot(grid);
        return;
      }
      var xCount := CellsToAdd(p.x, min.x, max.x, resolution);
      var yCount := CellsToAdd(p.z, min.z, max.z, resolution);
      CountsReach(p, xCount, yCount);
      sx := if p.x < min.x then xCount else 0;
      sz := if p.z < min.z then yCount else 0;
      AddColumns(xCount, p.x < min.x);
      ghost var wide := grid;
      AddRows(yCount, p.z < min.z);
      GrownTwice(old(grid), wide, grid, sx, sz);
      SameWorldEverywhere(old(grid), grid, old(min), min, resolution, sx, sz);
    }

    lemma CountsReach(p: Vector3f, xCount: int, yCount: int)
      requires Shaped()
      requires xCount == CellsToAdd(p.x, min.x, max.x, resolution) && yCount == CellsToAdd(p.z, min.z, max.z, resolution)
      ensures 0.0 <= Edge(xCount, resolution) && 0.0 <= Edge(yCount, resolution)
      ensures min.x <= max.x && min.z <= max.z
      ensures var dx, r := Edge(xCount, resolution), resolution as real;
        && (p.x < min.x ==> min.x - dx <= p.x < min.x - dx + r)
        && (max.x <= p.x ==> max.x + dx - r <= p.x < max.x + dx)
        && (min.x <= p.x < max.x ==> dx == 0.0)
      ensures var dz, r := Edge(yCount, resolution), resolution as real;
        && (p.z < min.z ==> min.z - dz <= p.z < min.z - dz + r)
        && (max.z <= p.z ==> max.z + dz - r <= p.z < max.z + dz)
        && (min.z <= p.z < max.z ==> dz == 0.0)
    {
      hide Scale, CellsToAdd;
      EdgeUnits(resolution);
      EdgeMonotone(0, |grid|, resolution);
      EdgeMonotone(0, |grid[0]|, resolution);
      EdgeMonotone(0, xCount, resolution);
      EdgeMonotone(0, yCount, resolution);
      CellsToAddIsLeast(p.x, min.x, max.x, resolution);
      CellsToAddIsLeast(p.z, min.z, max.z, resolution);
      EdgeSum(xCount - 1, 1, resolution);
      EdgeSum(yCount - 1, 1, resolution);
    }

    method ArrayContains(cell: seq<Quad>, q: Quad) returns (found: bool, index: nat)
      ensures found <==> q in cell
      ensures index == if found then IndexOf(cell, q) else 0
    {
      for i := 0 to |cell|
        invariant q !in cell[..i]
      {
        if cell[i] == q {
          IndexOfFirst(cell, q, i);
          return true, i;
        }
      }
      return false, 0;
    }

    method RemoveQuadFromCell(q: Quad, x: int, y: int)
      requires 0 <= y < |grid| && 0 <= x < |grid[y]|
      modifies this`grid
      ensures grid == old(grid)[y := old(grid)[y][x := Removed(old(grid)[y][x], q)]]
    {
      var found, index := ArrayContains(grid[y][x], q);
      if found {
        var cell := grid[y][x];
        grid := grid[y := grid[y][x := cell[index := cell[|cell| - 1]]]];
        grid := grid[y := grid[y][x := grid[y][x][..|cell| - 1]]];
        assert grid[y] == old(grid)[y][x := Removed(old(grid)[y][x], q)];
      } else {
        assert grid[y][x := grid[y][x]] == grid[y];
      }
    }

    /** Lists a quad in, or drops it from, a block of cells; `y1` and `x1` are not included. */
    method UpdateCells(q: Quad, y0: int, y1: int, x0: int, x1: int, expand: bool)
      requires 0 <= y0 && y1 <= |grid| && 0 <= x0 && forall y :: 0 <= y < |grid| ==> x1 <= |grid[y]|
      modifies this`grid
      ensures Swept(old(grid), grid, q, y0, y1, x0, x1, expand)
    {
      ghost var g0 := grid;
      var y := y0;
      while y < y1
        invariant y0 <= y
        invariant Swept(g0, grid, q, y0, Low(y, y1), x0, x1, expand)
      {
        ghost var g1 := grid;
        var x := x0;
        while x < x1
          invariant x0 <= x
          invariant Swept(g1, grid, q, y, y + 1, x0, Low(x, x1), expand)
        {
          ghost var g2 := grid;
          if expand {
            grid := grid[y := grid[y][x := grid[y][x] + [q]]];
          } else {
            RemoveQuadFromCell(q, x, y);
          }
          SweptCell(g1, g2, grid, q, y, x0, x, expand);
          x := x + 1;
        }
        SweptRow(g0, g1, grid, q, y0, y, x0, x1, expand);
        y := y + 1;
      }
    }

    /** Updates the cells along the four edges between an old and a new range of `q`. */
    method UpdateEdges(q: Quad, r0: Rect, r1: Rect)
      requires NonEmpty(grid) && r0.Within(|grid|, |grid[0]|) && r1.Within(|grid|, |grid[0]|) && r0.Meets(r1)
      modifies this`grid
      ensures Merged(old(grid), grid, q, r0, r1)
    {
      hide Scale, Updated, Swept, Merged;
      ghost var g0 := grid;
      // left edge
      UpdateCells(q, Low(r0.y0, r1.y0), High(r0.y1, r1.y1) + 1, Low(r0.x0, r1.x0), High(r0.x0, r1.x0), r1.x0 < r0.x0);
      ghost var g1 := grid;
      SweptKeepsShape(g0, g1, q, Low(r0.y0, r1.y0), High(r0.y1, r1.y1) + 1, Low(r0.x0, r1.x0), High(r0.x0, r1.x0), r1.x0 < r0.x0);
      // right edge
      UpdateCells(q, Low(r0.y0, r1.y0), High(r0.y1, r1.y1) + 1, Low(r0.x1, r1.x1) + 1, High(r0.x1, r1.x1) + 1, r1.x1 >= r0.x1);
      ghost var g2 := grid;
      SweptKeepsShape(g1, g2, q, Low(r0.y0, r1.y0), High(r0.y1, r1.y1) + 1, Low(r0.x1, r1.x1) + 1, High(r0.x1, r1.x1) + 1, r1.x1 >= r0.x1);
      // top edge
      UpdateCells(q, Low(r0.y0, r1.y0), High(r0.y0, r1.y0), High(r0.x0, r1.x0), Low(r0.x1, r1.x1) + 1, r1.y0 < r0.y0);
      ghost var g3 := grid;
      SweptKeepsShape(g2, g3, q, Low(r0.y0, r1.y0), High(r0.y0, r1.y0), High(r0.x0, r1.x0), Low(r0.x1, r1.x1) + 1, r1.y0 < r0.y0);
      // bottom edge
      UpdateCells(q, Low(r0.y1, r1.y1) + 1, High(r0.y1, r1.y1) + 1, High(r0.x0, r1.x0), Low(r0.x1, r1.x1) + 1, r1.y1 >= r0.y1);
      FourEdges(g0, g1, g2, g3, grid, q, r0, r1);
    }

    /** Moves `existing` a fifth of the way to `other` and updates the cells along the edges that moved. */
    method MoveTowards(existing: Quad, other: Quad)
      requires Valid() && existing in stored && Placed(other.View()) && existing.View().Overlaps(other.View())
      modifies this`grid, existing`center, existing`extents
      ensures AsBoard() == old(Into(AsBoard(), existing, other.View()))
      ensures existing.View() == old(existing.View().Merge(other.View()))
    {
      hide Counted, Distinct, MergedTable;
      ghost var b := AsBoard();
      ghost var s := other.View();
      StoredQuad(existing);
      MergeRects(b, existing.View(), s);
      var r0 := RectOf(existing.View());
      var centerDiff := Sub(other.center, existing.center);
      var extentsDiff := Sub(other.extents, existing.extents);
      existing.center := Add(existing.center, Mul(centerDiff, MERGE_RATE));
      existing.extents := Add(existing.extents, Mul(extentsDiff, MERGE_RATE));
      var r1 := RectOf(existing.View());
      UpdateEdges(existing, r0, r1);
      MergedOnce(b.grid, grid, existing, r0, r1);
      assert Shapes() == b.shapes[existing := existing.View()];
    }

    method CountMerge(q: Quad)
      requires q in stored && Counted() && Distinct(stored)
      modifies this`mergeCount, this`merges, q`mergeCount
      ensures Counted()
      ensures mergeCount == old(mergeCount) + 1 && q.mergeCount == old(q.mergeCount) + 1
    {
      q.mergeCount := q.mergeCount + 1;
      mergeCount := mergeCount + 1;
      ghost var i :| 0 <= i < |stored| && stored[i] == q;
      SumIncrement(merges, i);
      merges := merges[i := merges[i] + 1];
    }

    /** `existing` takes `other` in: its bounds move, the cells along the moved edges follow, and the merge is counted twice. */
    method MergeQuads(existing: Quad, other: Quad)
      requires Valid() && existing in stored && Placed(other.View()) && existing.View().Overlaps(other.View())
      modifies this`grid, this`mergeCount, this`merges, existing`center, existing`extents, existing`mergeCount
      ensures Valid()
      ensures AsBoard() == old(Into(AsBoard(), existing, other.View()))
      ensures existing.View() == old(existing.View().Merge(other.View()))
      ensures existing.mergeCount == old(existing.mergeCount) + 1 && mergeCount == old(mergeCount) + 1
      ensures old(AllExact()) ==> (AllExact() <==> !old(SpillsInto(AsBoard(), existing, other.View())))
    {
      hide Sound, Into, SpillsInto, ExactBy, Counted, Distinct, IndexedBy, Shape.Merge, Shape.Overlaps, PlacedIn;
      ghost var b := AsBoard();
      ghost var s := other.View();
      Parts();
      MoveTowards(existing, other);
      CountMerge(existing);
      IntoSound(b, existing, s);
      Assemble();
      if ExactBy(b.grid, b.min, b.resolution, b.shapes) {
        IntoExactIff(b, existing, s);
      }
    }

    /** A vertical ray's answer against a plain scan of the stored quads. */
    lemma AgreesWithScan(r: Ray)
      requires Valid() && r.Vertical()
      ensures ScanAgrees(ListAt(r.from.x, r.from.z), stored, r)
    {
      var list := ListAt(r.from.x, r.from.z);
      forall q | q in list ensures q in stored {
        ListedIsStored(q, r.from.x, r.from.z);
      }
      forall q | q in stored && q.View().HitWithin(r, 0.0).Some? ensures q in list {
        VerticalHit(q.View(), r, 0.0);
        ListedWithinBounds(q, r.from.x, r.from.z);
      }
      ListAgreesWithScan(list, stored, r);
    }

    lemma ListedIsStored(q: Quad, x: real, z: real)
      requires Valid() && q in ListAt(x, z)
      ensures q in stored
    {
      assert |grid[CellIndex(z - min.z, resolution)]| == |grid[0]|;
      assert q in Shapes();
    }

    /** A hit is a stored quad that the ray meets at `t`, up to the tolerance; a stored quad that the ray meets within its exact
        bounds makes it a hit, and one that is no farther. */
    ghost predicate Answers(r: Ray, hit: Quad?, t: Distance)
      reads this`stored, stored`center, stored`extents
    {
      && (hit != null ==> hit in stored && t.Finite? && Meets(hit.View(), r, t.t, 0.0001))
      && (forall q, u :: q in stored && Meets(q.View(), r, u, 0.0) ==> hit != null && t.Finite? && t.t <= u)
    }

    lemma QueryAnswers(r: Ray)
      requires Valid() && r.Vertical()
      ensures Answers(r, Nearest(ListAt(r.from.x, r.from.z), r).0, Nearest(ListAt(r.from.x, r.from.z), r).1)
      ensures !(min.x <= r.from.x < max.x && min.z <= r.from.z < max.z) ==> Answers(r, null, Finite(-1.0))
    {
      hide IndexedBy, Counted, Distinct, NonEmpty, WorldList, Nearest, Meets, Shape.HitWithin, Shape.IntersectQuad;
      AgreesWithScan(r);
      var (hit, t) := Nearest(ListAt(r.from.x, r.from.z), r);
      if hit != null {
        IntersectIff(hit.View(), r, t.t);
      }
      forall q, u | q in stored && Meets(q.View(), r, u, 0.0) ensures hit != null && t.Finite? && t.t <= u {
        HitIff(q.View(), r, 0.0, u);
      }
      if !(min.x <= r.from.x < max.x && min.z <= r.from.z < max.z) {
        NothingOutside(r.from.x, r.from.z);
      }
    }

    lemma NothingOutside(x: real, z: real)
      requires Shaped() && !(min.x <= x < max.x && min.z <= z < max.z)
      ensures ListAt(x, z) == []
    {
      hide Scale;
      CellIndexInRange(x - min.x, resolution, |grid[0]|);
      CellIndexInRange(z - min.z, resolution, |grid|);
    }

    /** In particular a vertical ray across the height of a stored flat quad, within its bounds, gets a hit no farther than that. */
    lemma FlatQuery(q: Quad, r: Ray, t: real)
      requires Valid() && q in stored && q.normal.x == 0.0 && q.normal.z == 0.0 && q.normal.y != 0.0 && r.Vertical()
      requires q.center.x - q.extents.x <= r.from.x <= q.center.x + q.extents.x
      requires q.center.z - q.extents.z <= r.from.z <= q.center.z + q.extents.z
      requires r.from.y != r.to.y && 0.0 <= t <= 1.0 && r.from.y + t * (r.to.y - r.from.y) == q.center.y
      ensures var (hit, u) := Nearest(ListAt(r.from.x, r.from.z), r); hit != null && u.Finite? && u.t <= t
    {
      hide Shaped, Nearest, Meets, IndexedBy, Counted, Distinct, WorldList;
      StoredQuad(q);
      FlatHit(q.View(), r, t);
      QueryAnswers(r);
    }

    /** The vertical case of the ray query: only the cell that holds the origin is searched. */
    method IntersectQuad(r: Ray) returns (hit: Quad?, t: Distance)
      requires Shaped() && r.Vertical()
      ensures hit == Nearest(ListAt(r.from.x, r.from.z), r).0
      ensures min.x <= r.from.x < max.x && min.z <= r.from.z < max.z ==> t == Nearest(ListAt(r.from.x, r.from.z), r).1
      ensures !(min.x <= r.from.x < max.x && min.z <= r.from.z < max.z) ==> hit == null && t == Finite(-1.0)
      ensures Valid() ==> Answers(r, hit, t)
    {
      hide Scale, Answers;
      if Valid() {
        QueryAnswers(r);
      }
      CellIndexInRange(r.from.x - min.x, resolution, |grid[0]|);
      CellIndexInRange(r.from.z - min.z, resolution, |grid|);
      var cellX := CellIndex(r.from.x - min.x, resolution);
      var cellY := CellIndex(r.from.z - min.z, resolution);
      if cellX < 0 || cellX >= |grid[0]| || cellY < 0 || cellY >= |grid| {
        return null, Finite(-1.0);
      }
      assert |grid[cellY]| == |grid[0]|;
      var cell := grid[cellY][cellX];
      hit, t := null, Infinite;
      for i := 0 to |cell|
        invariant (hit, t) == Nearest(cell[..i], r)
      {
        assert cell[..i + 1][..i] == cell[..i];
        var tHit := cell[i].View().IntersectQuad(r);
        if tHit.Some? && Finite(tHit.value).Less(t) {
          hit, t := cell[i], Finite(tHit.value);
        }
      }
      assert cell[..|cell|] == cell;
    }

    /** The listed quad that `q` merges into first, if any. */
    ghost function Target(q: Quad): (t: Quad?)
      requires Valid()
      reads this, stored, q, ListAt(q.center.x, q.center.z)
      ensures t != null ==> t in stored
    {
      var t := MergeTarget(ListAt(q.center.x, q.center.z), q);
      if t == null then null
      else
        MergeTargetMeaning(ListAt(q.center.x, q.center.z), q);
        ListedIsStored(t, q.center.x, q.center.z);
        t
    }

    /** The nearest quad above or below `cur`, if it is close enough in height and overlaps. */
    method FindMergeTarget(cur: Quad) returns (target: Quad?)
      requires Valid() && Placed(cur.View())
      ensures target == old(Target(cur)) && Picked(ListAt(cur.center.x, cur.center.z), cur, target)
    {
      hide Scale, Picked;
      TargetPicked(ListAt(cur.center.x, cur.center.z), cur);
      ghost var list := ListAt(cur.center.x, cur.center.z);
      NearestMeaning(list, UpRay(cur.center));
      NearestMeaning(list, DownRay(cur.center));
      var hitUp, tUp := IntersectQuad(UpRay(cur.center));
      var hitDown, tDown := IntersectQuad(DownRay(cur.center));
      if hitDown == null && hitUp == null {
        return null;
      }
      var t, hit := tUp, hitUp;
      if tDown.Less(t) {
        t, hit := tDown, hitDown;
      }
      target := if EqualWithEpsilon(hit.center.y, cur.center.y, MERGE_EPSILON) && hit.View().Overlaps(cur.View()) then hit else null;
    }

    /** One pass of the merging loop: the target, if there is one, takes `cur` in. */
    method MergeRound(cur: Quad) returns (hit: Quad?)
      requires Valid() && Placed(cur.View())
      modifies this`grid, this`mergeCount, this`merges, stored
      ensures Valid()
      ensures hit == old(Target(cur))
      ensures hit == null ==> unchanged(this) && unchanged(stored)
      ensures hit != null ==> hit in stored && mergeCount == old(mergeCount) + 1 && hit.mergeCount == old(hit.mergeCount) + 1
      ensures hit != null ==> AsBoard() == old(Into(AsBoard(), hit, cur.View()))
      ensures forall p :: p in stored && p != hit ==> unchanged(p)
    {
      hide *;
      TargetStored(cur);
      hit := FindMergeTarget(cur);
      if hit != null {
        MergeQuads(hit, cur);
      }
    }

    lemma TargetStored(cur: Quad)
      requires Valid()
      ensures var target := Target(cur);
        target != null ==> target in stored && target.View().NonNegative() && target.normal.y != 0.0
                           && target.View().Overlaps(cur.View())
    {
      MergeTargetMeaning(ListAt(cur.center.x, cur.center.z), cur);
      var target := MergeTarget(ListAt(cur.center.x, cur.center.z), cur);
      if target != null {
        ListedIsStored(target, cur.center.x, cur.center.z);
        StoredQuad(target);
      }
    }

    method Expand(p: Vector3f)
      requires Valid()
      modifies this`min, this`max, this`grid
      ensures Valid()
      ensures min.x <= p.x < max.x && min.z <= p.z < max.z
      ensures min.x <= old(min.x) && old(max.x) <= max.x && min.z <= old(min.z) && old(max.z) <= max.z
      ensures Snug(old(min), old(max), min, max, p, p, resolution as real)
      ensures forall x, z :: ListAt(x, z) == old(ListAt(x, z))
      ensures AllExact() <==> old(AllExact())
      ensures old(min.x <= p.x < max.x && min.z <= p.z < max.z) ==> unchanged(this)
    {
      hide Scale;
      ghost var shapes := Shapes();
      forall q | q in shapes ensures RectOf(shapes[q]).Within(|grid|, |grid[0]|) {
        StoredQuad(q);
      }
      ghost var sx, sz := ExpandToFitPoint(p);
      GrowKeepsIndex(old(grid), grid, old(min), old(max), min, max, resolution, sx, sz, shapes);
      assert Shapes() == shapes;
    }

    /** What a new quad adds to the list at a world point. */
    ghost function Addition(q: Quad, x: real, z: real): seq<Quad>
      requires resolution > 0
      reads this`min, q
    {
      if RectOf(q.View()).Has(CellIndex(x - min.x, resolution), CellIndex(z - min.z, resolution)) then [q] else []
    }

    lemma SweptLists(g: Table<Quad>, q: Quad)
      requires Shaped() && NonEmpty(g) && RectOf(q.View()).Within(|grid|, |grid[0]|)
      requires var r := RectOf(q.View()); Swept(g, grid, q, r.y0, r.y1 + 1, r.x0, r.x1 + 1, true)
      ensures forall x, z :: ListAt(x, z) == WorldList(g, min, resolution, x, z) + Addition(q, x, z)
    {
      hide Scale, CellIndex, RectIn;
      forall x, z ensures ListAt(x, z) == WorldList(g, min, resolution, x, z) + Addition(q, x, z) {
        var cx, cz := CellIndex(x - min.x, resolution), CellIndex(z - min.z, resolution);
        if 0 <= cx < |grid[0]| && 0 <= cz < |grid| {
          assert |g[cz]| == |g[0]| == |grid[cz]| == |grid[0]|;
        }
      }
    }

    /** Lists a new quad in every cell its bounds reach, behind those that are listed there. */
    method ListNew(q: Quad)
      requires Valid() && q !in stored && Placed(q.View())
      modifies this`grid
      ensures Sound(AsBoard().(shapes := Shapes()[q := q.View()]))
      ensures ExactBy(grid, min, resolution, Shapes()[q := q.View()]) <==> old(AllExact())
      ensures forall x, z :: ListAt(x, z) == old(ListAt(x, z)) + Addition(q, x, z)
    {
      hide Scale, Swept, Counted, Distinct, ExactBy, CellIndex;
      ghost var shapes := Shapes();
      RectWithin(AsBoard(), q.View());
      var r := RectOf(q.View());
      UpdateCells(q, r.y0, r.y1 + 1, r.x0, r.x1 + 1, true);
      SweptKeepsShape(old(grid), grid, q, r.y0, r.y1 + 1, r.x0, r.x1 + 1, true);
      AppendKeepsIndex(old(grid), grid, min, max, resolution, shapes, q, q.View());
      AppendKeepsExact(old(grid), grid, min, max, resolution, shapes, q, q.View());
      SweptLists(old(grid), q);
    }

    method CountNew(q: Quad)
      requires Counted() && Distinct(stored) && q !in stored
      modifies this`planeCount, this`stored, this`initial, this`merges
      ensures Counted() && Distinct(stored) && Shapes() == old(Shapes())[q := q.View()]
      ensures stored == old(stored) + [q] && planeCount == old(planeCount) + 1
    {
      hide Sum;
      planeCount := planeCount + 1;
      stored := stored + [q];
      initial := initial + [q.mergeCount];
      SumOneMore(merges, 0);
      merges := merges + [0];
    }

    /** A new quad is stored once, and listed once in each cell its bounds reach. */
    method Append(q: Quad)
      requires Valid() && q !in stored && Placed(q.View())
      modifies this`grid, this`planeCount, this`stored, this`initial, this`merges
      ensures Valid()
      ensures stored == old(stored) + [q] && planeCount == old(planeCount) + 1
      ensures Shapes() == old(Shapes())[q := q.View()]
      ensures AllExact() <==> old(AllExact())
      ensures forall x, z :: ListAt(x, z) == old(ListAt(x, z)) + Addition(q, x, z)
    {
      hide Sound, Counted, Distinct, IndexedBy, ExactBy, Addition, WorldList;
      Parts();
      ListNew(q);
      CountNew(q);
      Assemble();
    }



    /** At a centre that some quad touches, the loop's target is the first listed quad that does, if it takes `cur` in. */
    lemma TargetIsFirst(cur: Quad)
      requires Valid() && FirstTouch(Merging.ListAt(AsBoard(), cur.center), Shapes(), cur.center).Some?
      ensures var f := FirstTouch(Merging.ListAt(AsBoard(), cur.center), Shapes(), cur.center).value;
        f in stored && Target(cur) == if Takes(f.View(), cur.View()) then f else null
    {
      hide IndexedBy, WorldList, Touches, FirstTouch, Takes, MergeTarget;
      var list := ListAt(cur.center.x, cur.center.z);
      assert Merging.ListAt(AsBoard(), cur.center) == list;
      forall q | q in list ensures q in Shapes() && Shapes()[q] == q.View() {
        ListedIsStored(q, cur.center.x, cur.center.z);
      }
      TargetTouches(list, Shapes(), cur);
    }

    lemma TargetIsTaker(cur: Quad)
      requires Valid() && cur in stored && cur.normal.y != 0.0
      ensures Target(cur) == match Taker(AsBoard(), cur) { case None => null case Some(f) => f }
    {
      hide IndexedBy, WorldList, Touches, FirstTouch, Takes, MergeTarget, Target;
      StoredPresent(AsBoard(), cur);
      TargetIsFirst(cur);
    }

    /** One pass with the loop's stopping test: it stops without a target, or when the two centres coincide. On a stored
        quad it stops exactly if the first quad to touch the centre is that quad, has that centre, or does not take it in. */
    method MergePass(cur: Quad) returns (hit: Quad?, stop: bool)
      requires Valid() && Placed(cur.View())
      modifies this`grid, this`mergeCount, this`merges, stored
      ensures Valid()
      ensures hit == old(Target(cur))
      ensures hit == null ==> stop && unchanged(this) && unchanged(stored)
      ensures hit != null ==> hit in stored && hit.normal.y != 0.0 && mergeCount == old(mergeCount) + 1
      ensures forall p :: p in stored ==> p.mergeCount == old(p.mergeCount) + if p == hit then 1 else 0
      ensures hit != null ==> AsBoard() == old(Into(AsBoard(), hit, cur.View()))
      ensures hit != null ==> (stop <==> hit.View().center == old(cur.View().center))
      ensures cur in stored && cur.normal.y != 0.0 ==>
        && (stop <==> old(PassEnds(AsBoard(), cur)))
        && hit == match old(Taker(AsBoard(), cur)) { case None => null case Some(f) => f }
    {
      hide Valid, Shaped, NonEmpty, IndexedBy, Placed, PlacedIn, Target, Taker, Into, PassEnds, Shape.Merge,
        SpillsInto, ExactBy;
      ghost var b := AsBoard();
      ghost var s := cur.View();
      Parts();
      if cur in stored && cur.normal.y != 0.0 {
        TargetIsTaker(cur);
        PassEndsIff(b, cur);
      }
      TargetStored(cur);
      hit := MergeRound(cur);
      stop := true;
      if hit != null {
        MergedShape(b, hit, s);
        SelfMerge(s);
        assert hit.View() == AsBoard().shapes[hit];
        stop := hit.center == cur.center;
      }
    }

    /** What at most `rounds` passes for `q` lead to. */
    ghost function RunOf(q: Quad, rounds: nat): (run: Run<Quad>)
      requires Valid()
      reads this, stored, q, ListAt(q.center.x, q.center.z)
      ensures IsRun(run, AsBoard(), Target(q), q.View(), rounds)
    {
      if rounds == 0 || Target(q) == null then Run(AsBoard(), rounds > 0, [], false)
      else MergeOn(AsBoard(), Target(q), q.View(), rounds)
    }

    /** A run with the merges into `taken` behind it and at most `left` passes for `cur` ahead, or none if `cur` is null. */
    ghost predicate Ahead(run: Run<Quad>, cur: Quad?, left: nat, taken: seq<Quad>, spilled: bool)
      requires Valid()
      reads this, stored, cur, if cur == null then [] else ListAt(cur.center.x, cur.center.z)
    {
      if cur == null then Underway(run, AsBoard(), None, left, taken, spilled)
      else if cur in stored then cur.normal.y != 0.0 && Underway(run, AsBoard(), Some(cur), left, taken, spilled)
      else taken == [] && !spilled && run == RunOf(cur, left)
    }

    lemma NothingAhead(run: Run<Quad>, cur: Quad?, left: nat, taken: seq<Quad>, spilled: bool)
      requires Valid() && Ahead(run, cur, left, taken, spilled) && (cur == null || left == 0)
      ensures run == Run(AsBoard(), cur == null, taken, spilled)
    {
      hide IndexedBy, NonEmpty, Target;
    }

    lemma AllAhead(q: Quad, rounds: nat)
      requires Valid() && q !in stored
      ensures Ahead(RunOf(q, rounds), q, rounds, [], false)
      ensures Target(q) == null ==> RunOf(q, rounds).Calls() == 0
      ensures Target(q) != null && rounds > 0 ==> RunOf(q, rounds).Calls() > 0
    {
      hide IndexedBy, NonEmpty, Target;
    }

    /** A pass as part of a run: it makes the run's next merge, or ends it. */
    method NextMerge(cur: Quad, ghost run: Run<Quad>, ghost left: nat, ghost taken: seq<Quad>, ghost spilled: bool)
      returns (hit: Quad?, stop: bool, ghost now: seq<Quad>, ghost spills: bool)
      requires Valid() && Placed(cur.View()) && left > 0 && Ahead(run, cur, left, taken, spilled)
      modifies this`grid, this`mergeCount, this`merges, stored
      ensures Valid()
      ensures hit == null ==> stop && unchanged(this) && unchanged(stored)
      ensures hit != null ==> hit in stored && Placed(hit.View()) && mergeCount == old(mergeCount) + 1
      ensures forall p :: p in stored ==> p.mergeCount == old(p.mergeCount) + if p == hit then 1 else 0
      ensures Ahead(run, if stop then null else hit, left - 1, now, spills)
      ensures now == if hit == null then taken else taken + [hit]
    {
      hide Valid, Shaped, Usable, Sound, Placed, Counted, Distinct, Target, Taker, Into, PassEnds, SpillsInto, Underway,
        MergeOn, Shape.Merge;
      ghost var b, s := AsBoard(), cur.View();
      Parts();
      hit, stop := MergePass(cur);
      now, spills := taken, spilled;
      Parts();
      if hit == null {
        if cur in stored {
          NextPass(run, b, cur, left, taken, spilled);
        } else {
          NoPass(run, b, left - 1);
        }
      } else {
        now, spills := taken + [hit], spilled || SpillsInto(b, hit, s);
        if cur in stored {
          NextPass(run, b, cur, left, taken, spilled);
        } else {
          FirstPass(b, hit, s, left);
          assert [] + [hit] == [hit];
        }
        StoredQuad(hit);
        assert Onward(AsBoard(), hit, s) == if stop then None else Some(hit);
      }
    }

    /** No quad that is listed before its target, and could take it in, touches the centre that the target would get. */
    ghost predicate EndsEarly(q: Quad)
      requires Valid()
      reads this, stored, q, ListAt(q.center.x, q.center.z)
    {
      Target(q) != null && EndsInTwo(AsBoard(), Target(q), q.View())
    }

    /** No quad at all that is listed before its target touches that centre. */
    ghost predicate Unrivalled(q: Quad)
      requires Valid()
      reads this, stored, q, ListAt(q.center.x, q.center.z)
    {
      Target(q) != null && NoRival(AsBoard(), Target(q), q.View())
    }

    lemma ExactParts()
      requires Shaped()
      ensures AllExact() <==> ListsExactly(AsBoard())
    {
    }

    /** What the grid says about a run before it starts: when two passes or two merges are enough, and when the first merge is
        the only one to change anything; and what the run does to exact membership. */
    lemma RunOutcome(q: Quad, rounds: nat)
      requires Valid() && Placed(q.View())
      ensures var run, h := RunOf(q, rounds), Target(q);
        && (|run.takers| > 0 && rounds == 2 ==> (run.done <==> EndsEarly(q)))
        && (|run.takers| > 0 && rounds >= 2 && EndsEarly(q) ==> run.done && |run.takers| <= 2)
        && (|run.takers| > 0 && rounds > 2 ==> (|run.takers| <= 2 <==> AtMostTwoMerges(AsBoard(), h, q.View())))
        && (|run.takers| > 0 && rounds >= 2 && Unrivalled(q) ==> OneMove(run, AsBoard(), h, q.View()))
        && (AllExact() && !run.spilled ==> ListsExactly(run.board))
        && (AllExact() && |run.takers| <= 2 ==> (ListsExactly(run.board) <==> !run.spilled))
    {
      hide IndexedBy, Counted, Distinct, NonEmpty, PlacedIn, Target, MergeOn, Into, EndsInTwo, AtMostTwoMerges, NoRival, OneMove,
        Shape.Merge, Shape.Overlaps, ExactBy;
      TargetStored(q);
      if Target(q) != null && rounds > 0 {
        Outcome(AsBoard(), Target(q), q.View(), rounds);
      }
    }

    /** At most `rounds` passes of the merging loop for a quad that is not stored. */
    method MergeLoop(q: Quad, rounds: nat) returns (done: bool, cur: Quad?, calls: nat)
      requires Valid() && q !in stored && Placed(q.View())
      modifies this`grid, this`mergeCount, this`merges, stored
      ensures Valid()
      ensures mergeCount == old(mergeCount) + calls
      ensures calls == 0 ==> cur == q && unchanged(this) && unchanged(stored)
      ensures calls > 0 ==> cur != q
      ensures done == old(RunOf(q, rounds)).done && calls == |old(RunOf(q, rounds)).takers|
      ensures AsBoard() == old(RunOf(q, rounds)).board
      ensures forall p :: p in stored ==> p.mergeCount == old(p.mergeCount) + multiset(old(RunOf(q, rounds)).takers)[p]
    {
      hide *;
      ghost var run := RunOf(q, rounds);
      ghost var taken: seq<Quad> := [];
      ghost var spilled := false;
      AllAhead(q, rounds);
      done, cur, calls := false, q, 0;
      var i := 0;
      while i < rounds && !done
        invariant i <= rounds && Valid() && stored == old(stored) && q !in stored
        invariant mergeCount == old(mergeCount) + calls
        invariant !done ==> cur != null && Placed(cur.View())
        invariant calls == 0 ==> cur == q && unchanged(this) && unchanged(stored)
        invariant calls > 0 ==> cur != q
        invariant |taken| == calls && forall p :: p in stored ==> p.mergeCount == old(p.mergeCount) + multiset(taken)[p]
        invariant Ahead(run, if done then null else cur, rounds - i, taken, spilled)
        decreases rounds - i
      {
        var hit, stop;
        hit, stop, taken, spilled := NextMerge(cur, run, rounds - i, taken, spilled);
        done := stop;
        if hit != null {
          calls := calls + 1;
          cur := if stop then null else hit;
        }
        i := i + 1;
      }
      NothingAhead(run, if done then null else cur, rounds - i, taken, spilled);
    }

    /** Grows the grid until both corners of `q` are in it; no world point changes its list. */
    method Fit(q: Quad)
      requires Valid() && q.View().NonNegative()
      modifies this`min, this`max, this`grid
      ensures Valid() && Placed(q.View())
      ensures min.x <= old(min.x) && old(max.x) <= max.x && min.z <= old(min.z) && old(max.z) <= max.z
      ensures Snug(old(min), old(max), min, max, old(q.View().MinPoint()), old(q.View().MaxPoint()), resolution as real)
      ensures forall x, z :: ListAt(x, z) == old(ListAt(x, z))
      ensures AllExact() <==> old(AllExact())
      ensures old(Placed(q.View())) ==> unchanged(this)
    {
      hide *;
      var minPoint, maxPoint := Sub(q.center, q.extents), Add(q.center, q.extents);
      Corners(q);
      CornersPlace(q.View());
      Expand(minPoint);
      ghost var halfMin, halfMax := min, max;
      Expand(maxPoint);
      SnugTwice(old(min), old(max), halfMin, halfMax, min, max, minPoint, maxPoint, resolution as real);
      CornersPlace(q.View());
    }

    lemma Corners(q: Quad)
      requires q.View().NonNegative()
      ensures var lo, hi := Sub(q.center, q.extents), Add(q.center, q.extents);
        lo == q.View().MinPoint() && hi == q.View().MaxPoint() && lo.x <= hi.x && lo.z <= hi.z
    {
      hide Valid;
    }

    lemma CornersPlace(s: Shape)
      requires s.NonNegative()
      ensures Placed(s) <==>
        min.x <= s.MinPoint().x && s.MaxPoint().x < max.x && min.z <= s.MinPoint().z && s.MaxPoint().z < max.z
    {
    }

    lemma SameConditions(b: Board<Quad>, q: Quad)
      requires Valid() && SameLists(b, AsBoard())
      ensures Target(q) != null ==>
        && EndsEarly(q) == EndsInTwo(b, Target(q), q.View())
        && Unrivalled(q) == NoRival(b, Target(q), q.View())
    {
      hide IndexedBy, Counted, Distinct, Target, EndsInTwo, Rival, WorldList, Shape.Merge;
      if Target(q) != null {
        EndsInTwoSame(b, AsBoard(), Target(q), q.View());
      }
    }

    /** Growing the grid changes no list, so the first target of `q` stays what it was. */
    method FitKeepingTarget(q: Quad)
      requires Valid() && q.View().NonNegative()
      modifies this`min, this`max, this`grid
      ensures Valid() && Placed(q.View())
      ensures min.x <= old(min.x) && old(max.x) <= max.x && min.z <= old(min.z) && old(max.z) <= max.z
      ensures Snug(old(min), old(max), min, max, old(q.View().MinPoint()), old(q.View().MaxPoint()), resolution as real)
      ensures forall x, z :: ListAt(x, z) == old(ListAt(x, z))
      ensures SameLists(old(AsBoard()), AsBoard()) && PlacedIn(AsBoard().min, AsBoard().max, q.View())
      ensures Target(q) == old(Target(q)) && EndsEarly(q) == old(EndsEarly(q)) && Unrivalled(q) == old(Unrivalled(q))
      ensures AllExact() <==> old(AllExact())
      ensures old(Placed(q.View())) ==> unchanged(this)
    {
      hide IndexedBy, Counted, Distinct, WorldList, ExactBy, PlacedIn, NonEmpty;
      ghost var b, list := AsBoard(), ListAt(q.center.x, q.center.z);
      Fit(q);
      assert ListAt(q.center.x, q.center.z) == list;
      assert MergeTarget(list, q) == old(MergeTarget(list, q));
      forall x, z ensures WorldList(grid, min, resolution, x, z) == WorldList(b.grid, b.min, b.resolution, x, z) {
        assert ListAt(x, z) == old(ListAt(x, z));
      }
      SameConditions(b, q);
    }

    /** The target is the best of the quads listed at the centre. These include every stored quad that the upward or the
        downward ray meets within its exact bounds. */
    lemma PicksBest(q: Quad)
      requires Valid()
      ensures Picked(ListAt(q.center.x, q.center.z), q, Target(q))
      ensures forall p, u :: p in stored && MetNear(p.View(), q.center, u) ==>
        p in ListAt(q.center.x, q.center.z) && (HitAbove(p, q.center, u) || HitBelow(p, q.center, u))
    {
      hide Picked, Best, Meets, Shape.HitWithin, Shape.IntersectQuad, MetNear, HitAbove, HitBelow;
      TargetPicked(ListAt(q.center.x, q.center.z), q);
      forall p, u | p in stored && MetNear(p.View(), q.center, u)
        ensures p in ListAt(q.center.x, q.center.z) && (HitAbove(p, q.center, u) || HitBelow(p, q.center, u))
      {
        MetIsHit(p, q.center, u);
      }
    }

    lemma MetIsHit(p: Quad, c: Vector3f, u: real)
      requires Valid() && p in stored && MetNear(p.View(), c, u)
      ensures p in ListAt(c.x, c.z) && (HitAbove(p, c, u) || HitBelow(p, c, u))
    {
      hide Valid, Meets, Shape.IntersectQuad;
      MetIsListed(p, Ray(c, Vector3f(c.x, c.y + 1.6, c.z)), u);
      MetIsListed(p, Ray(c, Vector3f(c.x, c.y - 1.6, c.z)), u);
    }

    lemma MetIsListed(p: Quad, r: Ray, u: real)
      requires Valid() && p in stored && r.Vertical()
      ensures Meets(p.View(), r, u, 0.0) ==> p in ListAt(r.from.x, r.from.z) && p.View().IntersectQuad(r) == Some(u)
    {
      hide Valid, Meets;
      HitIff(p.View(), r, 0.0, u);
      if Meets(p.View(), r, u, 0.0) {
        VerticalHit(p.View(), r, 0.0);
        LooserHit(p.View(), r, 0.0, HIT_EPSILON);
        ListedWithinBounds(p, r.from.x, r.from.z);
      }
    }

    /** Inserts a quad: at most `rounds` passes of the merging loop, then the append if no quad took it in. `fitted` is the
        grid grown for the quad, and `run` what the passes on values make of it. */
    method InsertQuad(q: Quad, rounds: nat) returns (done: bool, calls: nat, ghost fitted: Board<Quad>, ghost run: Run<Quad>)
      requires Valid() && q !in stored && q.View().NonNegative()
      modifies this, stored
      ensures Valid() && mergeCount == old(mergeCount) + calls
      ensures min.x <= old(min.x) && old(max.x) <= max.x && min.z <= old(min.z) && old(max.z) <= max.z
      ensures Snug(old(min), old(max), min, max, old(q.View().MinPoint()), old(q.View().MaxPoint()), resolution as real)
      ensures Sound(fitted) && PlacedIn(fitted.min, fitted.max, q.View()) && SameLists(old(AsBoard()), fitted)
      ensures old(Placed(q.View())) ==> fitted == old(AsBoard())
      ensures done == run.done && calls == |run.takers|
      ensures IsRun(run, fitted, old(Target(q)), q.View(), rounds) && old(Picked(ListAt(q.center.x, q.center.z), q, Target(q)))
      ensures forall p :: p in old(stored) ==> p.mergeCount == old(p.mergeCount) + multiset(run.takers)[p]
      ensures !done || calls > 0 ==> stored == old(stored) && planeCount == old(planeCount) && AsBoard() == run.board
      ensures done && calls == 0 ==>
        && stored == old(stored) + [q] && planeCount == old(planeCount) + 1
        && Shapes() == old(Shapes())[q := q.View()] && (forall p :: p in old(stored) ==> unchanged(p))
        && (forall x, z :: ListAt(x, z) == old(ListAt(x, z)) + Addition(q, x, z))
      ensures calls > 0 && rounds == 2 ==> (done <==> old(EndsEarly(q)))
      ensures calls > 0 && rounds >= 2 && old(EndsEarly(q)) ==> done && calls <= 2
      ensures calls > 0 && rounds > 2 ==> (calls <= 2 <==> AtMostTwoMerges(fitted, old(Target(q)), q.View()))
      ensures calls > 0 && rounds >= 2 && old(Unrivalled(q)) ==> OneMove(run, fitted, old(Target(q)), q.View())
      ensures old(AllExact()) && !run.spilled ==> AllExact()
      ensures old(AllExact()) && calls <= 2 ==> (AllExact() <==> !run.spilled)
    {
      hide *;
      PicksBest(q);
      FitKeepingTarget(q);
      Parts();
      fitted, run := AsBoard(), RunOf(q, rounds);
      RunOutcome(q, rounds);
      var cur: Quad?;
      done, cur, calls := MergeLoop(q, rounds);
      Parts();
      ExactParts();
      if done && cur == q {
        Append(q);
      }
    }

    /** The cells a region covers, upper ends not included. */
    ghost predicate InRegion(lo: Vector3f, hi: Vector3f, x: int, y: int)
      requires resolution > 0
      reads this
    {
      && CellIndex(Max(lo.x, min.x) - min.x, resolution) <= x < CellIndex(Min(hi.x, max.x) - min.x, resolution)
      && CellIndex(Max(lo.z, min.z) - min.z, resolution) <= y < CellIndex(Min(hi.z, max.z) - min.z, resolution)
    }

    /** A cell is in a region if and only if, on both axes, it ends after the region begins and not after the region ends, where
        what lies outside the grid does not count. */
    lemma RegionIff(lo: Vector3f, hi: Vector3f, x: int, y: int)
      requires resolution > 0
      ensures InRegion(lo, hi, x, y) <==>
        && (lo.x < min.x + ((x + 1) * resolution) as real && min.x < min.x + ((x + 1) * resolution) as real)
        && (min.x + ((x + 1) * resolution) as real <= hi.x && min.x + ((x + 1) * resolution) as real <= max.x)
        && (lo.z < min.z + ((y + 1) * resolution) as real && min.z < min.z + ((y + 1) * resolution) as real)
        && (min.z + ((y + 1) * resolution) as real <= hi.z && min.z + ((y + 1) * resolution) as real <= max.z)
    {
      hide Scale;
      CellIff(Max(lo.x, min.x) - min.x, resolution, x);
      CellIff(Min(hi.x, max.x) - min.x, resolution, x);
      CellIff(Max(lo.z, min.z) - min.z, resolution, y);
      CellIff(Min(hi.z, max.z) - min.z, resolution, y);
    }

    /** Every quad listed in a cell of the region, each once. */
    method GetRegion(lo: Vector3f, hi: Vector3f) returns (quads: seq<Quad>)
      requires Shaped() && min.x <= hi.x && min.z <= hi.z
      ensures Distinct(quads)
      ensures forall q :: q in quads <==>
        exists y, x :: 0 <= y < |grid| && 0 <= x < |grid[y]| && InRegion(lo, hi, x, y) && q in grid[y][x]
    {
      hide Scale;
      var x0 := CellIndex(Max(lo.x, min.x) - min.x, resolution);
      var y0 := CellIndex(Max(lo.z, min.z) - min.z, resolution);
      var x1 := CellIndex(Min(hi.x, max.x) - min.x, resolution);
      var y1 := CellIndex(Min(hi.z, max.z) - min.z, resolution);
      RegionWithin(lo, hi);
      var found: set<Quad> := {};
      var y := y0;
      while y < y1
        invariant y0 <= y
        invariant forall q :: q in found <==> exists j, i :: y0 <= j < Low(y, y1) && x0 <= i < x1 && q in grid[j][i]
      {
        var x := x0;
        while x < x1
          invariant x0 <= x
          invariant forall q :: q in found <==>
            (exists j, i :: y0 <= j < y && x0 <= i < x1 && q in grid[j][i]) || (exists i :: x0 <= i < Low(x, x1) && q in grid[y][i])
        {
          ghost var before := found;
          found := found + (set q | q in grid[y][x]);
          x := x + 1;
        }
        y := y + 1;
      }
      quads := [];
      ghost var all := found;
      while found != {}
        invariant forall q :: q in all <==> q in found || q in quads
        invariant forall q :: q in quads ==> q !in found
        invariant Distinct(quads)
        decreases found
      {
        var q :| q in found;
        quads := quads + [q];
        found := found - {q};
      }
    }

    lemma RegionWithin(lo: Vector3f, hi: Vector3f)
      requires Shaped() && min.x <= hi.x && min.z <= hi.z
      ensures 0 <= CellIndex(Max(lo.x, min.x) - min.x, resolution) && CellIndex(Min(hi.x, max.x) - min.x, resolution) <= |grid[0]|
      ensures 0 <= CellIndex(Max(lo.z, min.z) - min.z, resolution) && CellIndex(Min(hi.z, max.z) - min.z, resolution) <= |grid|
    {
      hide Scale;
      EdgeUnits(resolution);
      EdgeSum(|grid[0]|, 1, resolution);
      EdgeSum(|grid|, 1, resolution);
      CellIndexUnique(0.0, resolution, 0);
      CellIndexMonotone(0.0, Max(lo.x, min.x) - min.x, resolution);
      CellIndexMonotone(0.0, Max(lo.z, min.z) - min.z, resolution);
      CellIndexUnique(max.x - min.x, resolution, |grid[0]|);
      CellIndexUnique(max.z - min.z, resolution, |grid|);
      CellIndexMonotone(Min(hi.x, max.x) - min.x, max.x - min.x, resolution);
      CellIndexMonotone(Min(hi.z, max.z) - min.z, max.z - min.z, resolution);
    }

    /** A stored quad is listed in the region exactly when its range has a cell there, if its membership is exact. */
    lemma RegionComplete(q: Quad, lo: Vector3f, hi: Vector3f)
      requires Valid() && q in stored
      ensures (exists y, x :: InRegion(lo, hi, x, y) && RectOf(q.View()).Has(x, y)) ==>
        exists y, x :: 0 <= y < |grid| && 0 <= x < |grid[y]| && InRegion(lo, hi, x, y) && q in grid[y][x]
      ensures Exact(grid, q, RectOf(q.View())) ==>
        (exists y, x :: 0 <= y < |grid| && 0 <= x < |grid[y]| && InRegion(lo, hi, x, y) && q in grid[y][x]) ==>
          (exists y, x :: InRegion(lo, hi, x, y) && RectOf(q.View()).Has(x, y))
    {
      StoredQuad(q);
      var r := RectOf(q.View());
      if y, x :| InRegion(lo, hi, x, y) && r.Has(x, y) {
        assert |grid[y]| == |grid[0]| && q in grid[y][x];
      }
      if Exact(grid, q, r) {
        if y, x :| 0 <= y < |grid| && 0 <= x < |grid[y]| && InRegion(lo, hi, x, y) && q in grid[y][x] {
          assert multiset(grid[y][x])[q] > 0;
          assert r.Has(x, y);
        }
      }
    }
  }

  lemma SweptCell(g1: Table<Quad>, g2: Table<Quad>, g3: Table<Quad>, q: Quad, y: int, x0: int, x: int, expand: bool)
    requires 0 <= y < |g1| && 0 <= x0 <= x < |g1[y]|
    requires Swept(g1, g2, q, y, y + 1, x0, x, expand)
    requires g3 == g2[y := g2[y][x := Updated(g2[y][x], q, expand)]]
    ensures Swept(g1, g3, q, y, y + 1, x0, x + 1, expand)
  {
  }

  lemma SweptRow(g0: Table<Quad>, g1: Table<Quad>, g2: Table<Quad>, q: Quad, y0: int, y: int, x0: int, x1: int, expand: bool)
    requires y0 <= y
    requires Swept(g0, g1, q, y0, y, x0, x1, expand) && Swept(g1, g2, q, y, y + 1, x0, x1, expand)
    ensures Swept(g0, g2, q, y0, y + 1, x0, x1, expand)
  {
    forall j, i | 0 <= j < |g0| && 0 <= i < |g0[j]|
      ensures g2[j][i] == if y0 <= j < y + 1 && x0 <= i < x1 then Updated(g0[j][i], q, expand) else g0[j][i]
    {
      assert |g1[j]| == |g0[j]| && |g2[j]| == |g1[j]|;
      var c := g1[j][i];
    }
  }
}
