/** Inputs on which the merging loop does not do what one would wish: one that never ends, and one that spills. */
module MergingInputs {
  import opened Options
  import opened CellMath
  import opened Geometry
  import opened Cells
  import opened Boards
  import opened Merging
  import opened Grid

  const UP := Vector3f(0.0, 1.0, 0.0)
  const ORIGIN := Vector3f(0.0, 0.0, 0.0)

  /** A flat quad one wide and half as deep, in the first row of cells. */
  function Flat(x: real): Shape {
    Shape(Vector3f(x, 0.0, 0.5), Vector3f(0.5, 0.0, 0.25), UP)
  }

  /** Two cells of size one that list the same two quads in opposite orders. The quad `p` is centred in the first cell, by
      `left`, and `q` in the second, by `right`. */
  function Crossed<Q>(p: Q, q: Q, left: real, right: real): Board<Q> {
    Board([[[q, p], [p, q]]], map[p := Flat(1.0 - left), q := Flat(1.0 + right)], ORIGIN, Vector3f(2.0, 0.0, 1.0), 1)
  }

  lemma Cell(x: real, i: int)
    requires i as real <= x < (i + 1) as real
    ensures CellIndex(x - 0.0, 1) == i
  {
    ScaleUnits(1);
    ScaleInteger(i, 1);
    ScaleInteger(i + 1, 1);
    CellIndexUnique(x - 0.0, 1, i);
  }

  lemma FlatCells(x: real)
    requires 0.5 <= x < 1.5
    ensures RectIn(ORIGIN, 1, Flat(x)) == Rect(0, 1, 0, 0)
  {
    Cell(x - 0.5, 0);
    Cell(x + 0.5, 1);
    Cell(0.25, 0);
    Cell(0.75, 0);
  }

  lemma FlatBounds(x: real)
    ensures var s := Flat(x); s.NonNegative() && s.MinPoint() == Vector3f(x - 0.5, 0.0, 0.25) && s.MaxPoint() == Vector3f(x + 0.5, 0.0, 0.75)
  {
  }

  /** Two shapes of the same size and normal that differ in one coordinate: the merge moves along it. */
  lemma SlideMerge(a: Shape, b: Shape)
    requires b == a.(center := a.center.(x := b.center.x))
    ensures a.Merge(b) == a.(center := a.center.(x := 0.8 * a.center.x + 0.2 * b.center.x))
  {
    SelfMerge(a);
    var m := a.Merge(b);
    assert m.center.x == 0.8 * a.center.x + 0.2 * b.center.x;
  }

  lemma FlatMerge(x: real, y: real)
    ensures Flat(x).Merge(Flat(y)) == Flat(0.8 * x + 0.2 * y)
  {
    hide Shape.Merge;
    SlideMerge(Flat(x), Flat(y));
  }

  /** A flat quad is touched exactly within its bounds, up to the tolerance. */
  lemma FlatTouches(x: real, y: real)
    requires -0.5 <= x - y <= 0.5
    ensures Touches(Flat(x), Flat(y).center) && Takes(Flat(x), Flat(y)) && Flat(x).Overlaps(Flat(y))
    ensures Flat(y).center == Vector3f(y, 0.0, 0.5)
  {
  }

  /** Both quads are listed once in both cells, where their bounds reach. */
  lemma CrossedSound<Q>(p: Q, q: Q, left: real, right: real)
    requires p != q && 0.0 < left <= 0.5 && 0.0 <= right < 0.5
    ensures var b := Crossed(p, q, left, right); Sound(b) && ListsExactly(b)
  {
    hide Scale, CellIndex, Flat, RectIn, Shape.MinPoint, Shape.MaxPoint;
    FlatBounds(1.0 - left);
    FlatBounds(1.0 + right);
    FlatCells(1.0 - left);
    FlatCells(1.0 + right);
    ScaleInteger(2, 1);
    ScaleInteger(1, 1);
    var b := Crossed(p, q, left, right);
    assert multiset(b.grid[0][0]) == multiset{q, p} && multiset(b.grid[0][1]) == multiset{p, q};
  }

  /** At its centre in the first cell `p` meets `q` first. */
  lemma TakenByRight<Q>(p: Q, q: Q, left: real, right: real)
    requires p != q && 0.0 < left && 0.0 < right && left + right <= 0.5
    ensures Taker(Crossed(p, q, left, right), p) == Some(q)
  {
    hide Scale, CellIndex, Touches, Takes, Flat;
    FlatTouches(1.0 + right, 1.0 - left);
    Cell(1.0 - left, 0);
    Cell(0.5, 0);
  }

  /** At its centre in the second cell `q` meets `p` first. */
  lemma TakenByLeft<Q>(p: Q, q: Q, left: real, right: real)
    requires p != q && 0.0 < left && 0.0 < right && left + right <= 0.5
    ensures Taker(Crossed(p, q, left, right), q) == Some(p)
  {
    hide Scale, CellIndex, Touches, Takes, Flat;
    FlatTouches(1.0 - left, 1.0 + right);
    Cell(1.0 + right, 1);
    Cell(0.5, 0);
  }

  /** The right quad takes the left one in, and no cell changes. */
  lemma RightTakes<Q>(p: Q, q: Q, left: real, right: real)
    requires p != q && 0.0 < left <= 0.5 && 0.0 < right < 0.5 && 0.0 <= 0.8 * right - 0.2 * left
    ensures Into(Crossed(p, q, left, right), q, Flat(1.0 - left)) == Crossed(p, q, left, 0.8 * right - 0.2 * left)
  {
    hide Scale, CellIndex, RectIn, MergedTable, Flat, Shape.Merge;
    FlatMerge(1.0 + right, 1.0 - left);
    var b := Crossed(p, q, left, right);
    FlatCells(1.0 + right);
    FlatCells(1.0 + (0.8 * right - 0.2 * left));
    assert b.shapes[q].Merge(Flat(1.0 - left)) == Flat(1.0 + (0.8 * right - 0.2 * left));
    MergedInPlace(b.grid, q, Rect(0, 1, 0, 0));
  }

  /** The left quad takes the right one in, and no cell changes. */
  lemma LeftTakes<Q>(p: Q, q: Q, left: real, right: real, x: real)
    requires p != q && 0.0 < left <= 0.5 && 0.0 <= right < 0.5 && 0.0 < 0.8 * left - 0.2 * x <= 0.5
    ensures Into(Crossed(p, q, left, right), p, Flat(1.0 + x)) == Crossed(p, q, 0.8 * left - 0.2 * x, right)
  {
    hide Scale, CellIndex, RectIn, MergedTable, Flat, Shape.Merge;
    FlatMerge(1.0 - left, 1.0 + x);
    var b := Crossed(p, q, left, right);
    FlatCells(1.0 - left);
    FlatCells(1.0 - (0.8 * left - 0.2 * x));
    assert b.shapes[p].Merge(Flat(1.0 + x)) == Flat(1.0 - (0.8 * left - 0.2 * x));
    MergedInPlace(b.grid, p, Rect(0, 1, 0, 0));
  }

  /** The two quads take each other in forever: after each merge the picture is the mirror image at four fifths of the size. */
  lemma {:induction false} NeverSettles<Q>(p: Q, q: Q, near: real, far: real, rounds: nat)
    requires p != q && 0.0 < near && 0.8 * far == near && near + far <= 0.5
    ensures !Continue(Crossed(p, q, near, far), p, rounds).done
    ensures !Continue(Crossed(p, q, far, near), q, rounds).done
    decreases rounds
  {
    hide Into, Taker, SpillsInto, Flat;
    if rounds > 0 {
      TakenByRight(p, q, near, far);
      RightTakes(p, q, near, far);
      TakenByLeft(p, q, far, near);
      LeftTakes(p, q, far, near, near);
      var nearer := 0.8 * near;
      assert 0.8 * far - 0.2 * near == nearer;
      NeverSettles(p, q, nearer, near, rounds - 1);
      CentresApart(1.0 + nearer, 1.0 - near);
      CentresApart(1.0 - nearer, 1.0 + near);
    }
  }

  lemma CentresApart(x: real, y: real)
    requires x != y
    ensures Flat(x).center != Flat(y).center
  {
  }

  lemma FlatPlaced(x: real)
    requires 0.5 <= x < 1.5
    ensures PlacedIn(ORIGIN, Vector3f(2.0, 0.0, 1.0), Flat(x))
  {
    hide Flat;
    FlatBounds(x);
  }

  /** In the second cell the left quad is listed first. */
  lemma LeftFirst<Q>(p: Q, q: Q, left: real, right: real)
    requires 0.0 <= left <= 0.5 && p != q
    ensures FirstTouch(ListAt(Crossed(p, q, left, right), Flat(1.0).center), Crossed(p, q, left, right).shapes, Flat(1.0).center) == Some(p)
  {
    hide Scale, CellIndex, Touches, Flat;
    FlatTouches(1.0 - left, 1.0);
    Cell(1.0, 1);
    Cell(0.5, 0);
  }

  lemma CrossedShapes<Q>(p: Q, q: Q, left: real, right: real)
    requires p != q
    ensures var b := Crossed(p, q, left, right);
      && Usable(b) && p in b.shapes && q in b.shapes && b.shapes[p] == Flat(1.0 - left) && b.shapes[q] == Flat(1.0 + right)
      && b.min == ORIGIN && b.max == Vector3f(2.0, 0.0, 1.0)
  {
  }

  lemma OneMerge<Q>(b: Board<Q>, h: Q, s: Shape, rounds: nat)
    requires Usable(b) && h in b.shapes && rounds > 0
    ensures MergeOn(b, h, s, rounds).done
      == (Into(b, h, s).shapes[h].center == s.center || Continue(Into(b, h, s), h, rounds - 1).done)
  {
    hide Into, SpillsInto, Continue;
  }

  /** A quad inserted right between the two never finds an end, whatever the number of passes. */
  lemma NeverEnds<Q>(p: Q, q: Q, d: real, rounds: nat)
    requires p != q && 0.0 < d <= 0.25 && rounds > 0
    ensures var b := Crossed(p, q, d, d);
      && Sound(b) && p in b.shapes && b.shapes[p].Overlaps(Flat(1.0)) && PlacedIn(b.min, b.max, Flat(1.0))
      && FirstTouch(ListAt(b, Flat(1.0).center), b.shapes, Flat(1.0).center) == Some(p)
      && !MergeOn(b, p, Flat(1.0), rounds).done
  {
    hide *;
    var b, near := Crossed(p, q, d, d), 0.8 * d;
    CrossedShapes(p, q, d, d);
    FlatTouches(1.0 - d, 1.0);
    FlatPlaced(1.0);
    LeftFirst(p, q, d, d);
    CrossedSound(p, q, d, d);
    assert 1.0 + 0.0 == 1.0 && near == 0.8 * d - 0.2 * 0.0;
    LeftTakes(p, q, d, d, 0.0);
    NeverSettles(p, q, near, d, rounds - 1);
    CentresApart(1.0 - near, 1.0);
    CrossedShapes(p, q, near, d);
    OneMerge(b, p, Flat(1.0), rounds);
  }

  /** On a grid object in that state the first pass merges into the left quad. */
  lemma GridTakesLeft(g: RegularGrid, p: Quad, q: Quad, added: Quad, d: real)
    requires p != q && 0.0 < d <= 0.25
    requires g.Valid() && g.AsBoard() == Crossed(p, q, d, d) && added.View() == Flat(1.0)
    ensures g.Placed(added.View()) && g.Target(added) == p
  {
    hide RegularGrid.Valid, RegularGrid.Target, Flat, Crossed, NonEmpty, ListAt, FirstTouch, Touches, Takes, MergeOn, Continue, IndexedBy, PlacedIn,
      Shape.Overlaps, Shape.Merge, Shape.IntersectQuad;
    NeverEnds(p, q, d, 1);
    CrossedShapes(p, q, d, d);
    FlatTouches(1.0 - d, 1.0);
    assert added.center == Flat(1.0).center && g.Shapes()[p] == p.View();
    g.TargetIsFirst(added);
  }

  /** And the loop ends for no number of passes. */
  lemma GridNeverSettles(g: RegularGrid, p: Quad, q: Quad, added: Quad, d: real, rounds: nat)
    requires p != q && 0.0 < d <= 0.25
    requires g.Valid() && g.AsBoard() == Crossed(p, q, d, d) && added.View() == Flat(1.0)
    ensures !g.RunOf(added, rounds).done
  {
    hide RegularGrid.Valid, RegularGrid.Target, RegularGrid.AsBoard, Flat, Crossed, Usable, ListAt, FirstTouch,
      MergeOn, Sound;
    GridTakesLeft(g, p, q, added, d);
    if rounds > 0 {
      NeverEnds(p, q, d, rounds);
    }
  }

  /** A tall quad, and a wide one that lies across it. */
  const TALL := Shape(Vector3f(10.0, 0.0, 10.0), Vector3f(0.5, 0.0, 5.0), UP)
  const WIDE := Shape(Vector3f(10.0, 0.0, 10.0), Vector3f(5.5, 0.0, 0.0), UP)

  lemma SpillBounds()
    ensures TALL.MinPoint().x == 9.5 && TALL.MaxPoint().x == 10.5 && TALL.MinPoint().z == 5.0 && TALL.MaxPoint().z == 15.0
    ensures WIDE.MinPoint().x == 4.5 && WIDE.MaxPoint().x == 15.5 && WIDE.MinPoint().z == 10.0 && WIDE.MaxPoint().z == 10.0
    ensures TALL.Overlaps(WIDE)
  {
    hide Shape.MinPoint, Shape.MaxPoint;
    BoundsOf(TALL, 10.0, 0.5, 10.0, 5.0);
    BoundsOf(WIDE, 10.0, 5.5, 10.0, 0.0);
  }

  lemma BoundsOf(s: Shape, x: real, dx: real, z: real, dz: real)
    requires s.center.x == x && s.extents.x == dx && s.center.z == z && s.extents.z == dz
    ensures s.MinPoint().x == x - dx && s.MaxPoint().x == x + dx && s.MinPoint().z == z - dz && s.MaxPoint().z == z + dz
  {
  }

  /** A range is found from the cells of the four bounds. */
  lemma RectFrom(s: Shape, r: Rect)
    requires r.x0 as real <= s.MinPoint().x < (r.x0 + 1) as real && r.x1 as real <= s.MaxPoint().x < (r.x1 + 1) as real
    requires r.y0 as real <= s.MinPoint().z < (r.y0 + 1) as real && r.y1 as real <= s.MaxPoint().z < (r.y1 + 1) as real
    ensures RectIn(ORIGIN, 1, s) == r
  {
    hide Scale, CellIndex, Shape.MinPoint, Shape.MaxPoint;
    Cell(s.MinPoint().x, r.x0);
    Cell(s.MaxPoint().x, r.x1);
    Cell(s.MinPoint().z, r.y0);
    Cell(s.MaxPoint().z, r.y1);
  }

  /** The merge widens the columns from 9..10 to 8..11 while it narrows the rows from 5..15 to 6..14. */
  lemma Spill()
    ensures TALL.Overlaps(WIDE)
    ensures RectIn(ORIGIN, 1, TALL) == Rect(9, 10, 5, 15) && RectIn(ORIGIN, 1, TALL.Merge(WIDE)) == Rect(8, 11, 6, 14)
    ensures WidensX(RectIn(ORIGIN, 1, TALL), RectIn(ORIGIN, 1, TALL.Merge(WIDE)))
    ensures NarrowsZ(RectIn(ORIGIN, 1, TALL), RectIn(ORIGIN, 1, TALL.Merge(WIDE)))
  {
    hide RectIn, Shape.Merge, Shape.MinPoint, Shape.MaxPoint, Shape.Overlaps;
    SpillBounds();
    MergeBounds(TALL, WIDE);
    RectFrom(TALL, Rect(9, 10, 5, 15));
    RectFrom(TALL.Merge(WIDE), Rect(8, 11, 6, 14));
  }

  /** So in every grid of cell size one at the origin that holds the tall quad, taking in the wide one loses exact membership. */
  lemma SpillLosesExact<Q>(b: Board<Q>, h: Q)
    requires Sound(b) && b.min == ORIGIN && b.resolution == 1 && h in b.shapes && b.shapes[h] == TALL
    requires PlacedIn(b.min, b.max, WIDE) && ListsExactly(b)
    ensures SpillsInto(b, h, WIDE) && !ListsExactly(Into(b, h, WIDE))
  {
    Spill();
    IntoExactIff(b, h, WIDE);
  }

  /** A flat quad by its bounds. */
  function Box(x0: real, x1: real, z0: real, z1: real): Shape {
    Shape(Vector3f((x0 + x1) / 2.0, 0.0, (z0 + z1) / 2.0), Vector3f((x1 - x0) / 2.0, 0.0, (z1 - z0) / 2.0), UP)
  }

  lemma BoxBounds(x0: real, x1: real, z0: real, z1: real)
    ensures var s := Box(x0, x1, z0, z1);
      && s.MinPoint().x == x0 && s.MaxPoint().x == x1 && s.MinPoint().z == z0 && s.MaxPoint().z == z1
      && (x0 <= x1 && z0 <= z1 ==> s.NonNegative())
  {
  }

  lemma BoxRect(x0: real, x1: real, z0: real, z1: real, r: Rect)
    requires r.x0 as real <= x0 < (r.x0 + 1) as real && r.x1 as real <= x1 < (r.x1 + 1) as real
    requires r.y0 as real <= z0 < (r.y0 + 1) as real && r.y1 as real <= z1 < (r.y1 + 1) as real
    ensures RectIn(ORIGIN, 1, Box(x0, x1, z0, z1)) == r
  {
    hide Box, RectIn;
    BoxBounds(x0, x1, z0, z1);
    RectFrom(Box(x0, x1, z0, z1), r);
  }

  lemma BoxMerge(x0: real, x1: real, z0: real, z1: real, u0: real, u1: real, v0: real, v1: real)
    ensures Box(x0, x1, z0, z1).Merge(Box(u0, u1, v0, v1))
            == Box(0.8 * x0 + 0.2 * u0, 0.8 * x1 + 0.2 * u1, 0.8 * z0 + 0.2 * v0, 0.8 * z1 + 0.2 * v1)
  {
  }

  lemma BoxTouches(x0: real, x1: real, z0: real, z1: real, c: Vector3f)
    requires c.y == 0.0 && x0 <= c.x <= x1 && z0 <= c.z <= z1
    ensures Touches(Box(x0, x1, z0, z1), c)
  {
  }

  lemma BoxTakes(x0: real, x1: real, z0: real, z1: real, u0: real, u1: real, v0: real, v1: real)
    requires x0 < u1 && u0 < x1 && z0 < v1 && v0 < z1
    ensures Takes(Box(x0, x1, z0, z1), Box(u0, u1, v0, v1))
  {
    BoxBounds(x0, x1, z0, z1);
    BoxBounds(u0, u1, v0, v1);
  }

  /** Two overlapping quads, and a third that the first takes in: the first is listed before the second in the second column of
      cells, and after it in the third. */
  const HOST := Box(1.05, 3.6, 0.95, 2.05)
  const GUEST := Box(1.4, 2.4, 0.7, 2.3)
  const ADDED := Box(0.5, 3.1, 1.4, 1.6)

  /** What the host, the guest, and the host once more look like after taking in the added quad, the host and the guest. */
  const HOST1 := Box(0.94, 3.5, 1.04, 1.96)
  const GUEST1 := Box(1.308, 2.62, 0.768, 2.232)
  const HOST2 := Box(1.0136, 3.324, 0.9856, 2.0144)

  function Row<Q>(h: Q, p: Q): seq<seq<Q>> {
    [[], [h, p], [p, h], [h]]
  }

  function Hosting<Q>(h: Q, p: Q): Board<Q> {
    Board([Row(h, p), Row(h, p), Row(h, p)], map[h := HOST, p := GUEST], ORIGIN, Vector3f(4.0, 0.0, 3.0), 1)
  }

  lemma HostMerges()
    ensures HOST.Merge(ADDED) == HOST1 && GUEST.Merge(HOST1) == GUEST1 && HOST1.Merge(GUEST1) == HOST2
    ensures HOST1.center != ADDED.center && GUEST1.center != HOST1.center && HOST2.center != GUEST1.center
  {
    hide Shape.Merge;
    BoxMerge(1.05, 3.6, 0.95, 2.05, 0.5, 3.1, 1.4, 1.6);
    BoxMerge(1.4, 2.4, 0.7, 2.3, 0.94, 3.5, 1.04, 1.96);
    BoxMerge(0.94, 3.5, 1.04, 1.96, 1.308, 2.62, 0.768, 2.232);
  }

  /** The cells of a shape at the origin with cells of size one. */
  function UnitRect(s: Shape): Rect {
    RectIn(ORIGIN, 1, s)
  }

  lemma HostRects()
    ensures UnitRect(HOST) == Rect(1, 3, 0, 2) && UnitRect(HOST1) == Rect(0, 3, 1, 1) && UnitRect(HOST2) == Rect(1, 3, 0, 2)
    ensures UnitRect(GUEST) == Rect(1, 2, 0, 2) && UnitRect(GUEST1) == Rect(1, 2, 0, 2)
  {
    hide RectIn, Box;
    BoxRect(1.05, 3.6, 0.95, 2.05, Rect(1, 3, 0, 2));
    BoxRect(0.94, 3.5, 1.04, 1.96, Rect(0, 3, 1, 1));
    BoxRect(1.4, 2.4, 0.7, 2.3, Rect(1, 2, 0, 2));
    BoxRect(1.308, 2.62, 0.768, 2.232, Rect(1, 2, 0, 2));
    BoxRect(1.0136, 3.324, 0.9856, 2.0144, Rect(1, 3, 0, 2));
  }

  lemma HostTouches()
    ensures Touches(HOST, ADDED.center) && Takes(HOST, ADDED)
    ensures 1.0 <= ADDED.center.x < 2.0 && 1.0 <= ADDED.center.z < 2.0
    ensures Touches(GUEST, HOST1.center) && Takes(GUEST, HOST1)
    ensures Touches(HOST1, GUEST1.center) && Takes(HOST1, GUEST1)
    ensures 2.0 <= HOST1.center.x < 3.0 && 1.0 <= HOST1.center.z < 2.0 && 1.0 <= GUEST1.center.x < 2.0 && 1.0 <= GUEST1.center.z < 2.0
  {
    hide Touches, Takes;
    BoxTouches(1.05, 3.6, 0.95, 2.05, ADDED.center);
    BoxTakes(1.05, 3.6, 0.95, 2.05, 0.5, 3.1, 1.4, 1.6);
    BoxTouches(1.4, 2.4, 0.7, 2.3, HOST1.center);
    BoxTakes(1.4, 2.4, 0.7, 2.3, 0.94, 3.5, 1.04, 1.96);
    BoxTouches(0.94, 3.5, 1.04, 1.96, GUEST1.center);
    BoxTakes(0.94, 3.5, 1.04, 1.96, 1.308, 2.62, 0.768, 2.232);
  }

  lemma HostPlaced()
    ensures var max := Vector3f(4.0, 0.0, 3.0);
      && PlacedIn(ORIGIN, max, HOST) && PlacedIn(ORIGIN, max, GUEST) && PlacedIn(ORIGIN, max, ADDED)
      && PlacedIn(ORIGIN, max, HOST1) && PlacedIn(ORIGIN, max, GUEST1)
  {
    hide Box;
    BoxBounds(1.05, 3.6, 0.95, 2.05);
    BoxBounds(1.4, 2.4, 0.7, 2.3);
    BoxBounds(0.5, 3.1, 1.4, 1.6);
    BoxBounds(0.94, 3.5, 1.04, 1.96);
    BoxBounds(1.308, 2.62, 0.768, 2.232);
  }

  lemma HostingSound<Q>(h: Q, p: Q)
    requires h != p
    ensures Sound(Hosting(h, p)) && ListsExactly(Hosting(h, p))
  {
    hide Scale, CellIndex, Box, RectIn, Shape.Merge, PlacedIn, Touches, Takes;
    HostRects();
    HostPlaced();
    ScaleInteger(4, 1);
    ScaleInteger(3, 1);
    assert multiset([h, p]) == multiset{h, p} && multiset([p, h]) == multiset{h, p};
  }

  /** Three merges in a row. */
  lemma ThreeMerges<Q>(b: Board<Q>, h: Q, s: Shape, p: Q)
    requires Usable(b) && h in b.shapes
    requires var b1 := Into(b, h, s);
      && b1.shapes[h].center != s.center && Taker(b1, h) == Some(p)
      && var b2 := Into(b1, p, b1.shapes[h]);
      && b2.shapes[p].center != b1.shapes[h].center && Taker(b2, p) == Some(h)
      && Into(b2, h, b2.shapes[p]).shapes[h].center != b2.shapes[p].center
    ensures var b1 := Into(b, h, s);
      var b2 := Into(b1, p, b1.shapes[h]);
      var run := MergeOn(b, h, s, 3);
      && run.board == Into(b2, h, b2.shapes[p]) && run.takers == [h, p, h] && (SpillsInto(b, h, s) ==> run.spilled)
  {
    hide NonEmpty, Into, SpillsInto, Taker;
    var b1 := Into(b, h, s);
    var b2 := Into(b1, p, b1.shapes[h]);
    var b3 := Into(b2, h, b2.shapes[p]);
    assert Continue(b3, h, 0) == Run(b3, false, [], false);
    assert MergeOn(b2, h, b2.shapes[p], 1).board == b3 && MergeOn(b2, h, b2.shapes[p], 1).takers == [h];
    assert Continue(b2, p, 1) == MergeOn(b2, h, b2.shapes[p], 1);
    assert MergeOn(b1, p, b1.shapes[h], 2).board == b3 && MergeOn(b1, p, b1.shapes[h], 2).takers == [p, h];
    assert Continue(b1, h, 2) == MergeOn(b1, p, b1.shapes[h], 2);
  }

  /** A merge leaves the cells alone that are in the old and in the new range. */
  lemma KeptCell<Q>(g: Table<Q>, q: Q, a: Rect, b: Rect, x: int, y: int)
    requires 0 <= y < |g| && 0 <= x < |g[y]| && a.Has(x, y) && b.Has(x, y)
    ensures MergedTable(g, q, a, b)[y][x] == g[y][x]
  {
    hide Updated;
    EdgeActionMeaning(a, b, x, y);
  }

  /** After the first merge the host reaches one column more and two rows less; the lists at the two later centres are as before. */
  lemma HostWidens<Q>(h: Q, p: Q)
    requires h != p
    ensures var b, b1 := Hosting(h, p), Into(Hosting(h, p), h, ADDED);
      && b1 == Board(MergedTable(b.grid, h, Rect(1, 3, 0, 2), Rect(0, 3, 1, 1)), map[h := HOST1, p := GUEST], b.min, b.max, 1)
      && SpillsInto(b, h, ADDED)
  {
    hide RectIn, Box, Shape.Merge, MergedTable;
    HostMerges();
    HostRects();
    var b := Hosting(h, p);
    assert UnitRect(HOST) == RectOf(b, HOST) && UnitRect(HOST1) == RectOf(b, HOST1);
    assert b.shapes[h := HOST1] == map[h := HOST1, p := GUEST];
  }

  lemma HostLists<Q>(h: Q, p: Q, g: Table<Q>)
    requires g == MergedTable(Hosting(h, p).grid, h, Rect(1, 3, 0, 2), Rect(0, 3, 1, 1))
    ensures NonEmpty(g) && |g| == 3 && |g[0]| == 4 && |g[1]| == 4 && g[1][2] == [p, h] && g[1][1] == [h, p]
  {
    hide MergedTable, Box;
    var b := Hosting(h, p);
    KeptCell(b.grid, h, Rect(1, 3, 0, 2), Rect(0, 3, 1, 1), 2, 1);
    KeptCell(b.grid, h, Rect(1, 3, 0, 2), Rect(0, 3, 1, 1), 1, 1);
  }

  /** The second merge moves the guest within its cells. */
  lemma GuestStays<Q>(h: Q, p: Q, g: Table<Q>)
    requires h != p && NonEmpty(g)
    ensures var max := Vector3f(4.0, 0.0, 3.0);
      Into(Board(g, map[h := HOST1, p := GUEST], ORIGIN, max, 1), p, HOST1) == Board(g, map[h := HOST1, p := GUEST1], ORIGIN, max, 1)
  {
    hide RectIn, Box, Shape.Merge, MergedTable;
    HostMerges();
    HostRects();
    var b := Board(g, map[h := HOST1, p := GUEST], ORIGIN, Vector3f(4.0, 0.0, 3.0), 1);
    assert UnitRect(GUEST) == RectOf(b, GUEST) && UnitRect(GUEST1) == RectOf(b, GUEST1);
    MergedInPlace(g, p, Rect(1, 2, 0, 2));
    assert b.shapes[p := GUEST1] == map[h := HOST1, p := GUEST1];
  }

  /** The third merge takes the host back to the cells it had. */
  lemma HostNarrows<Q>(h: Q, p: Q, g: Table<Q>)
    requires h != p && NonEmpty(g)
    ensures var max := Vector3f(4.0, 0.0, 3.0);
      Into(Board(g, map[h := HOST1, p := GUEST1], ORIGIN, max, 1), h, GUEST1)
      == Board(MergedTable(g, h, Rect(0, 3, 1, 1), Rect(1, 3, 0, 2)), map[h := HOST2, p := GUEST1], ORIGIN, max, 1)
  {
    hide RectIn, Box, Shape.Merge, MergedTable;
    HostMerges();
    HostRects();
    var b := Board(g, map[h := HOST1, p := GUEST1], ORIGIN, Vector3f(4.0, 0.0, 3.0), 1);
    assert UnitRect(HOST1) == RectOf(b, HOST1) && UnitRect(HOST2) == RectOf(b, HOST2);
    assert b.shapes[h := HOST2] == map[h := HOST2, p := GUEST1];
  }

  /** Each of the two is the first to touch the new centre of the other. */
  lemma TakersInTurn<Q>(h: Q, p: Q, g: Table<Q>)
    requires h != p && NonEmpty(g) && |g| == 3 && |g[0]| == 4 && |g[1]| == 4 && g[1][2] == [p, h] && g[1][1] == [h, p]
    ensures var max := Vector3f(4.0, 0.0, 3.0);
      && Taker(Board(g, map[h := HOST1, p := GUEST], ORIGIN, max, 1), h) == Some(p)
      && Taker(Board(g, map[h := HOST1, p := GUEST1], ORIGIN, max, 1), p) == Some(h)
  {
    hide Box, Touches, Takes, CellIndex;
    HostTouches();
    Cell(HOST1.center.x, 2);
    Cell(HOST1.center.z, 1);
    Cell(GUEST1.center.x, 1);
    Cell(GUEST1.center.z, 1);
  }

  /** The host is listed before the guest in the middle cell of its left column. */
  lemma Hosted<Q>(h: Q, p: Q, c: Vector3f)
    requires h != p && 1.0 <= c.x < 2.0 && 1.0 <= c.z < 2.0
    ensures var b := Hosting(h, p); Usable(b) && ListAt(b, c) == [h, p] && h in b.shapes && b.shapes[h] == HOST
  {
    hide Box, CellIndex;
    Cell(c.x, 1);
    Cell(c.z, 1);
  }

  lemma FirstListed<Q>(list: seq<Q>, shapes: map<Q, Shape>, q: Q, c: Vector3f)
    requires list != [] && list[0] == q && q in shapes && Touches(shapes[q], c)
    ensures FirstTouch(list, shapes, c) == Some(q)
  {
    hide Touches;
  }

  /** The host is the first quad that the added one meets. */
  lemma HostFirst<Q>(h: Q, p: Q)
    requires h != p
    ensures var b := Hosting(h, p); FirstTouch(ListAt(b, ADDED.center), b.shapes, ADDED.center) == Some(h) && Takes(b.shapes[h], ADDED)
  {
    hide *;
    HostTouches();
    Hosted(h, p, ADDED.center);
    FirstListed(ListAt(Hosting(h, p), ADDED.center), Hosting(h, p).shapes, h, ADDED.center);
  }

  /** A run of three merges that spills and yet ends with exact membership: the third merge takes away what the first spilled. */
  lemma SpillRegained<Q>(h: Q, p: Q)
    requires h != p
    ensures var b := Hosting(h, p);
      && Sound(b) && ListsExactly(b) && h in b.shapes && PlacedIn(b.min, b.max, ADDED) && b.shapes[h].Overlaps(ADDED)
      && var run := MergeOn(b, h, ADDED, 3);
         run.takers == [h, p, h] && run.spilled && ListsExactly(run.board)
    ensures var b := Hosting(h, p); FirstTouch(ListAt(b, ADDED.center), b.shapes, ADDED.center) == Some(h)
  {
    hide Box, Into, Taker, FirstTouch, ListAt, MergeOn, Continue, SpillsInto, MergedTable, Shape.Merge, RectIn, Sound,
      Shape.Overlaps, PlacedIn, Exact;
    var b := Hosting(h, p);
    var b1 := Into(b, h, ADDED);
    HostFirst(h, p);
    HostingSound(h, p);
    HostPlaced();
    HostTouches();
    HostMerges();
    HostWidens(h, p);
    HostLists(h, p, b1.grid);
    GuestStays(h, p, b1.grid);
    HostNarrows(h, p, b1.grid);
    TakersInTurn(h, p, b1.grid);
    ThreeMerges(b, h, ADDED, p);
    ExactAgain(h, p);
  }

  lemma ExactAgain<Q>(h: Q, p: Q)
    requires h != p
    ensures var b, a, c := Hosting(h, p), Rect(1, 3, 0, 2), Rect(0, 3, 1, 1);
      ListsExactly(Board(MergedTable(MergedTable(b.grid, h, a, c), h, c, a), map[h := HOST2, p := GUEST1], b.min, b.max, 1))
  {
    hide Box, MergedTable, RectIn;
    var b, a, c := Hosting(h, p), Rect(1, 3, 0, 2), Rect(0, 3, 1, 1);
    var g1 := MergedTable(b.grid, h, a, c);
    var g2 := MergedTable(g1, h, c, a);
    HostingSound(h, p);
    HostRects();
    MergedOnce(b.grid, g1, h, a, c);
    MergedOnce(g1, g2, h, c, a);
    assert UnitRect(HOST) == a && UnitRect(HOST2) == a && UnitRect(GUEST) == UnitRect(GUEST1);
    assert b.shapes[h] == HOST && b.shapes[p] == GUEST;
    SpillUndone(b.grid, g1, g2, h, a, c, 3, 4);
    forall y, x | 0 <= y < |g2| && 0 <= x < |g2[y]| ensures multiset(g2[y][x])[p] == multiset(b.grid[y][x])[p] {
      MergeKeepsOthers(b.grid, g1, h, a, c, p, y, x);
      MergeKeepsOthers(g1, g2, h, c, a, p, y, x);
    }
    SameCounts(b.grid, g2, p, UnitRect(GUEST));
  }
}
