/** The merging loop on values: which quad takes which in, and when the loop stops. */
module Merging {
  import opened Options
  import opened CellMath
  import opened Geometry
  import opened Cells
  import opened Boards

  /** A grid at one moment: its table, what each stored quad looks like, and where the table lies. */
  datatype Board<Q> = Board(grid: Table<Q>, shapes: map<Q, Shape>, min: Vector3f, max: Vector3f, resolution: int)

  predicate Usable<Q>(b: Board<Q>) {
    b.resolution > 0 && NonEmpty(b.grid)
  }

  /** The table fits the bounds, and every quad is in it and listed in every cell it reaches. */
  ghost predicate Sound<Q>(b: Board<Q>) {
    && Usable(b)
    && b.max.x - b.min.x == Edge(|b.grid[0]|, b.resolution)
    && b.max.z - b.min.z == Edge(|b.grid|, b.resolution)
    && IndexedBy(b.grid, b.min, b.max, b.resolution, b.shapes)
  }

  /** Every quad is listed once in each cell its bounds reach and nowhere else. */
  ghost predicate ListsExactly<Q>(b: Board<Q>)
    requires b.resolution > 0
  {
    ExactBy(b.grid, b.min, b.resolution, b.shapes)
  }

  function ListAt<Q>(b: Board<Q>, c: Vector3f): seq<Q>
    requires Usable(b)
  {
    WorldList(b.grid, b.min, b.resolution, c.x, c.z)
  }

  /** The shape lies at distance zero from the point, within the tolerance of its bounds. */
  predicate Touches(s: Shape, c: Vector3f) {
    s.IntersectQuad(UpRay(c)) == Some(0.0)
  }

  /** The first listed quad that touches the point. */
  function FirstTouch<Q>(list: seq<Q>, shapes: map<Q, Shape>, c: Vector3f): (f: Option<Q>)
    ensures f.Some? ==> f.value in list && f.value in shapes && Touches(shapes[f.value], c)
    ensures f == None ==> forall q :: q in list && q in shapes ==> !Touches(shapes[q], c)
  {
    if list == [] then None
    else if list[0] in shapes && Touches(shapes[list[0]], c) then Some(list[0])
    else FirstTouch(list[1..], shapes, c)
  }

  /** The guard of a merge: close in height, and overlapping. */
  predicate Takes(p: Shape, s: Shape) {
    EqualWithEpsilon(p.center.y, s.center.y, MERGE_EPSILON) && p.Overlaps(s)
  }

  /** What takes a stored quad in next, if anything does. */
  function Taker<Q>(b: Board<Q>, cur: Q): (f: Option<Q>)
    requires Usable(b) && cur in b.shapes
    ensures f.Some? ==> f.value in b.shapes && Takes(b.shapes[f.value], b.shapes[cur])
  {
    var first := FirstTouch(ListAt(b, b.shapes[cur].center), b.shapes, b.shapes[cur].center);
    if first.Some? && Takes(b.shapes[first.value], b.shapes[cur]) then first else None
  }

  function RectOf<Q>(b: Board<Q>, s: Shape): Rect
    requires Usable(b)
  {
    RectIn(b.min, b.resolution, s)
  }

  /** The board after `h` has taken `s` in. */
  function Into<Q(==)>(b: Board<Q>, h: Q, s: Shape): (b': Board<Q>)
    requires Usable(b) && h in b.shapes
    ensures Usable(b') && b'.shapes.Keys == b.shapes.Keys
  {
    var m := b.shapes[h].Merge(s);
    b.(grid := MergedTable(b.grid, h, RectOf(b, b.shapes[h]), RectOf(b, m)), shapes := b.shapes[h := m])
  }

  /** A merge that widens the columns of its quad while it narrows the rows. */
  predicate SpillsInto<Q>(b: Board<Q>, h: Q, s: Shape)
    requires Usable(b) && h in b.shapes
  {
    var r0, r1 := RectOf(b, b.shapes[h]), RectOf(b, b.shapes[h].Merge(s));
    WidensX(r0, r1) && NarrowsZ(r0, r1)
  }

  /** What some passes of the loop lead to; `takers` are the quads that took another in, in order. */
  datatype Run<Q> = Run(board: Board<Q>, done: bool, takers: seq<Q>, spilled: bool) {
    function Calls(): nat {
      |takers|
    }
  }

  /** One merge, and the passes after it; the loop stops when the two centres coincide. */
  function MergeOn<Q(==)>(b: Board<Q>, h: Q, s: Shape, rounds: nat): (run: Run<Q>)
    requires Usable(b) && h in b.shapes && rounds > 0
    ensures Usable(run.board) && run.board.shapes.Keys == b.shapes.Keys
    ensures 0 < run.Calls() <= rounds && (!run.done ==> run.Calls() == rounds)
    decreases rounds, 0
  {
    var b1, spills := Into(b, h, s), SpillsInto(b, h, s);
    if b1.shapes[h].center == s.center then Run(b1, true, [h], spills)
    else
      var rest := Continue(b1, h, rounds - 1);
      Run(rest.board, rest.done, [h] + rest.takers, spills || rest.spilled)
  }

  /** At most `rounds` passes for a stored quad. */
  function Continue<Q(==)>(b: Board<Q>, cur: Q, rounds: nat): (run: Run<Q>)
    requires Usable(b) && cur in b.shapes
    ensures Usable(run.board) && run.board.shapes.Keys == b.shapes.Keys
    ensures run.Calls() <= rounds && (!run.done ==> run.Calls() == rounds)
    decreases rounds, 1
  {
    if rounds == 0 then Run(b, false, [], false)
    else
      match Taker(b, cur)
      case None => Run(b, true, [], false)
      case Some(f) => MergeOn(b, f, b.shapes[cur], rounds)
  }

  /** A quad that reaches its own centre: it is listed there and touches it. */
  predicate Present<Q>(b: Board<Q>, cur: Q)
    requires Usable(b)
  {
    cur in b.shapes && cur in ListAt(b, b.shapes[cur].center) && Touches(b.shapes[cur], b.shapes[cur].center)
  }

  /** A stored quad merged into itself leaves the board as it is. */
  lemma IntoSelf<Q>(b: Board<Q>, h: Q)
    requires Usable(b) && h in b.shapes
    ensures Into(b, h, b.shapes[h]) == b && !SpillsInto(b, h, b.shapes[h])
  {
    SelfMerge(b.shapes[h]);
    MergedInPlace(b.grid, h, RectOf(b, b.shapes[h]));
    assert b.shapes[h := b.shapes[h]] == b.shapes;
  }

  /** A run of which the merges into `taken` are done, up to the board `b`, and up to `left` passes for `cur` are to come. */
  predicate Underway<Q(==)>(run: Run<Q>, b: Board<Q>, cur: Option<Q>, left: nat, taken: seq<Q>, spilled: bool)
    requires Usable(b)
  {
    match cur
    case None => run == Run(b, true, taken, spilled)
    case Some(c) =>
      c in b.shapes && var rest := Continue(b, c, left); run == Run(rest.board, rest.done, taken + rest.takers, spilled || rest.spilled)
  }

  function Onward<Q>(b: Board<Q>, h: Q, s: Shape): Option<Q>
    requires h in b.shapes
  {
    if b.shapes[h].center == s.center then None else Some(h)
  }

  lemma NoPass<Q>(run: Run<Q>, b: Board<Q>, left: nat)
    requires Usable(b)
    ensures Underway(run, b, None, left, [], false) <==> run == Run(b, true, [], false)
  {
  }

  lemma FirstPass<Q>(b: Board<Q>, h: Q, s: Shape, rounds: nat)
    requires Usable(b) && h in b.shapes && rounds > 0
    ensures Underway(MergeOn(b, h, s, rounds), Into(b, h, s), Onward(Into(b, h, s), h, s), rounds - 1, [h], SpillsInto(b, h, s))
  {
    hide NonEmpty, Into, SpillsInto;
  }

  lemma NextPass<Q>(run: Run<Q>, b: Board<Q>, cur: Q, left: nat, taken: seq<Q>, spilled: bool)
    requires Usable(b) && cur in b.shapes && Underway(run, b, Some(cur), left, taken, spilled) && left > 0
    ensures match Taker(b, cur)
      case None => Underway(run, b, None, left - 1, taken, spilled)
      case Some(f) =>
        var b1, s := Into(b, f, b.shapes[cur]), b.shapes[cur];
        Underway(run, b1, Onward(b1, f, s), left - 1, taken + [f], spilled || SpillsInto(b, f, s))
  {
    hide NonEmpty, Into, SpillsInto, Taker;
    var f := Taker(b, cur);
    if f.Some? {
      FirstPass(b, f.value, b.shapes[cur], left);
      var rest := MergeOn(b, f.value, b.shapes[cur], left).takers[1..];
      assert taken + ([f.value] + rest) == taken + [f.value] + rest;
    }
  }

  /** The first listed quad that touches the centre of `cur` is `cur` itself, has the same centre, or does not take it in. */
  predicate PassEnds<Q(==)>(b: Board<Q>, cur: Q)
    requires Usable(b) && cur in b.shapes
  {
    match FirstTouch(ListAt(b, b.shapes[cur].center), b.shapes, b.shapes[cur].center)
    case None => true
    case Some(f) => f == cur || b.shapes[f].center == b.shapes[cur].center || !Takes(b.shapes[f], b.shapes[cur])
  }

  /** A pass on a stored quad ends the loop if and only if that is so. */
  lemma PassEndsIff<Q>(b: Board<Q>, cur: Q)
    requires Usable(b) && cur in b.shapes
    ensures Continue(b, cur, 1).done <==> PassEnds(b, cur)
  {
    var f := FirstTouch(ListAt(b, b.shapes[cur].center), b.shapes, b.shapes[cur].center);
    if f.Some? {
      MergeCentre(b.shapes[f.value], b.shapes[cur]);
    }
  }

  /** A quad that is the first to touch its own centre is merged into itself once, and nothing moves. */
  lemma SelfPass<Q>(b: Board<Q>, cur: Q, rounds: nat)
    requires Usable(b) && cur in b.shapes && rounds > 0 && Taker(b, cur) == Some(cur)
    ensures Continue(b, cur, rounds) == Run(b, true, [cur], false)
  {
    IntoSelf(b, cur);
  }

  /** A placed shape reaches cells of the table only. */
  lemma RectWithin<Q>(b: Board<Q>, s: Shape)
    requires Sound(b) && PlacedIn(b.min, b.max, s)
    ensures RectOf(b, s).Within(|b.grid|, |b.grid[0]|)
  {
    hide Scale;
    CellIndexInRange(s.MinPoint().x - b.min.x, b.resolution, |b.grid[0]|);
    CellIndexInRange(s.MaxPoint().x - b.min.x, b.resolution, |b.grid[0]|);
    CellIndexInRange(s.MinPoint().z - b.min.z, b.resolution, |b.grid|);
    CellIndexInRange(s.MaxPoint().z - b.min.z, b.resolution, |b.grid|);
    CellIndexMonotone(s.MinPoint().x - b.min.x, s.MaxPoint().x - b.min.x, b.resolution);
    CellIndexMonotone(s.MinPoint().z - b.min.z, s.MaxPoint().z - b.min.z, b.resolution);
  }

  /** The ranges of two overlapping shapes meet. */
  lemma RectsMeet<Q>(b: Board<Q>, s: Shape, m: Shape)
    requires Usable(b) && s.Overlaps(m)
    ensures RectOf(b, s).Meets(RectOf(b, m))
  {
    hide Scale;
    CellIndexMonotone(s.MinPoint().x - b.min.x, m.MaxPoint().x - b.min.x, b.resolution);
    CellIndexMonotone(m.MinPoint().x - b.min.x, s.MaxPoint().x - b.min.x, b.resolution);
    CellIndexMonotone(s.MinPoint().z - b.min.z, m.MaxPoint().z - b.min.z, b.resolution);
    CellIndexMonotone(m.MinPoint().z - b.min.z, s.MaxPoint().z - b.min.z, b.resolution);
  }

  /** The two ranges of a merge are in the table, and meet because the quads overlap. */
  lemma MergeRects<Q>(b: Board<Q>, a: Shape, s: Shape)
    requires Sound(b) && PlacedIn(b.min, b.max, a) && PlacedIn(b.min, b.max, s) && a.Overlaps(s)
    ensures PlacedIn(b.min, b.max, a.Merge(s))
    ensures RectOf(b, a).Within(|b.grid|, |b.grid[0]|) && RectOf(b, a.Merge(s)).Within(|b.grid|, |b.grid[0]|)
    ensures RectOf(b, a).Meets(RectOf(b, a.Merge(s)))
  {
    hide IndexedBy, RectOf;
    MergeBounds(a, s);
    MergeOverlap(a, s);
    RectWithin(b, a);
    RectWithin(b, a.Merge(s));
    RectsMeet(b, a, a.Merge(s));
  }

  /** A merge keeps the board sound. */
  lemma IntoSound<Q>(b: Board<Q>, h: Q, s: Shape)
    requires Sound(b) && h in b.shapes && PlacedIn(b.min, b.max, s) && b.shapes[h].Overlaps(s)
    ensures Sound(Into(b, h, s)) && PlacedIn(b.min, b.max, b.shapes[h].Merge(s))
  {
    hide Merged, MergedTable;
    var b1 := Into(b, h, s);
    MergeRects(b, b.shapes[h], s);
    MergedOnce(b.grid, b1.grid, h, RectOf(b, b.shapes[h]), RectOf(b, b.shapes[h].Merge(s)));
    MergeKeepsIndex(b.grid, b1.grid, b.min, b.max, b.resolution, b.shapes, h, b.shapes[h].Merge(s));
  }

  /** From exact membership, one merge leaves exact membership if and only if it does not spill. */
  lemma IntoExactIff<Q>(b: Board<Q>, h: Q, s: Shape)
    requires Sound(b) && h in b.shapes && PlacedIn(b.min, b.max, s) && b.shapes[h].Overlaps(s)
    requires ListsExactly(b)
    ensures var b1 := Into(b, h, s); ListsExactly(b1) <==> !SpillsInto(b, h, s)
  {
    hide Merged, MergedTable, IndexedBy;
    var b1 := Into(b, h, s);
    StoredPlaced(b, h);
    MergeRects(b, b.shapes[h], s);
    MergedOnce(b.grid, b1.grid, h, RectOf(b, b.shapes[h]), RectOf(b, b.shapes[h].Merge(s)));
    MergeKeepsExact(b.grid, b1.grid, b.min, b.resolution, b.shapes, h, b.shapes[h].Merge(s));
  }

  lemma StoredPlaced<Q>(b: Board<Q>, h: Q)
    requires Sound(b) && h in b.shapes
    ensures PlacedIn(b.min, b.max, b.shapes[h]) && Covers(b.grid, h, RectOf(b, b.shapes[h]))
  {
  }

  /** A stored quad with a vertical normal part is listed at its own centre and touches it. */
  lemma StoredPresent<Q>(b: Board<Q>, h: Q)
    requires Sound(b) && h in b.shapes && b.shapes[h].normal.y != 0.0
    ensures Present(b, h)
  {
    hide Scale;
    var s := b.shapes[h];
    var c := s.center;
    StoredPlaced(b, h);
    HitOwnCentre(s, UpRay(c));
    RectWithin(b, s);
    CentreInRect(b, s);
    var cx, cz := CellIndex(c.x - b.min.x, b.resolution), CellIndex(c.z - b.min.z, b.resolution);
    assert |b.grid[cz]| == |b.grid[0]|;
  }

  lemma CentreInRect<Q>(b: Board<Q>, s: Shape)
    requires Usable(b) && s.NonNegative()
    ensures RectOf(b, s).Has(CellIndex(s.center.x - b.min.x, b.resolution), CellIndex(s.center.z - b.min.z, b.resolution))
  {
    hide Scale;
    CellIndexMonotone(s.MinPoint().x - b.min.x, s.center.x - b.min.x, b.resolution);
    CellIndexMonotone(s.center.x - b.min.x, s.MaxPoint().x - b.min.x, b.resolution);
    CellIndexMonotone(s.MinPoint().z - b.min.z, s.center.z - b.min.z, b.resolution);
    CellIndexMonotone(s.center.z - b.min.z, s.MaxPoint().z - b.min.z, b.resolution);
  }

  /** What is listed before the first `h`. */
  function Before<Q(==)>(list: seq<Q>, h: Q): seq<Q> {
    list[..IndexOf(list, h)]
  }

  /** The first quad listed before `h` that touches the point. */
  function Rival<Q(==)>(b: Board<Q>, h: Q, c: Vector3f): Option<Q>
    requires Usable(b)
  {
    FirstTouch(Before(ListAt(b, c), h), b.shapes, c)
  }

  lemma {:induction false} FirstTouchSplit<Q>(list: seq<Q>, h: Q, shapes: map<Q, Shape>, c: Vector3f)
    requires h in list && h in shapes && Touches(shapes[h], c)
    ensures var rival := FirstTouch(Before(list, h), shapes, c);
      FirstTouch(list, shapes, c) == if rival == None then Some(h) else rival
    decreases |list|
  {
    if list[0] != h {
      assert list == [list[0]] + list[1..];
      FirstTouchSplit(list[1..], h, shapes, c);
      assert Before(list, h)[1..] == Before(list[1..], h);
    }
  }

  lemma {:induction false} FirstTouchSame<Q>(list: seq<Q>, shapes: map<Q, Shape>, shapes': map<Q, Shape>, c: Vector3f)
    requires forall q :: q in list ==> (q in shapes <==> q in shapes') && (q in shapes ==> shapes'[q] == shapes[q])
    ensures FirstTouch(list, shapes', c) == FirstTouch(list, shapes, c)
    decreases |list|
  {
    if list != [] {
      assert list[0] in list;
      FirstTouchSame(list[1..], shapes, shapes', c);
    }
  }

  /** Listing a quad once more does not change what is listed before it. */
  lemma BeforeAppended<Q>(list: seq<Q>, h: Q)
    ensures Before(list + [h], h) == Before(list, h)
  {
    var i := IndexOf(list, h);
    assert (list + [h])[..i] == list[..i];
    IndexOfFirst(list + [h], h, i);
  }

  /** After its merge, what is listed before `h` at its new centre is what was listed there before. */
  lemma BeforeMerged<Q>(b: Board<Q>, h: Q, s: Shape)
    requires Sound(b) && h in b.shapes && PlacedIn(b.min, b.max, s) && b.shapes[h].Overlaps(s)
    ensures var c := b.shapes[h].Merge(s).center;
      Before(ListAt(Into(b, h, s), c), h) == Before(ListAt(b, c), h)
  {
    hide Scale, IndexedBy;
    var m := b.shapes[h].Merge(s);
    var r0, r1 := RectOf(b, b.shapes[h]), RectOf(b, m);
    StoredPlaced(b, h);
    MergeRects(b, b.shapes[h], s);
    CentreInRect(b, m);
    var cx, cz := CellIndex(m.center.x - b.min.x, b.resolution), CellIndex(m.center.z - b.min.z, b.resolution);
    EdgeActionMeaning(r0, r1, cx, cz);
    assert |b.grid[cz]| == |b.grid[0]|;
    BeforeAppended(b.grid[cz][cx], h);
    assert ListAt(Into(b, h, s), m.center) == Acted(ListAt(b, m.center), h, EdgeAction(r0, r1, cx, cz));
  }

  /** The first quad that touches the new centre of a merge: the rival from before the merge, or else the merged quad. */
  lemma FirstAfterMerge<Q>(b: Board<Q>, h: Q, s: Shape)
    requires Sound(b) && h in b.shapes && PlacedIn(b.min, b.max, s) && b.shapes[h].Overlaps(s) && b.shapes[h].normal.y != 0.0
    ensures var b1, c := Into(b, h, s), b.shapes[h].Merge(s).center;
      && Present(b1, h)
      && FirstTouch(ListAt(b1, c), b1.shapes, c) == if Rival(b, h, c) == None then Some(h) else Rival(b, h, c)
  {
    hide IndexedBy, ListAt, Before, Touches;
    var b1, c := Into(b, h, s), b.shapes[h].Merge(s).center;
    IntoSound(b, h, s);
    StoredPresent(b1, h);
    BeforeMerged(b, h, s);
    FirstTouchSplit(ListAt(b1, c), h, b1.shapes, c);
    NotBefore(ListAt(b, c), h);
    FirstTouchSame(Before(ListAt(b, c), h), b.shapes, b1.shapes, c);
  }

  lemma NotBefore<Q>(list: seq<Q>, h: Q)
    ensures h !in Before(list, h)
  {
  }

  /** The condition under which two passes are enough: the centres coincide, or no quad listed before `h` touches the centre
      that the merge gives it, or the first that does has that centre or does not take `h` in. */
  predicate EndsInTwo<Q(==)>(b: Board<Q>, h: Q, s: Shape)
    requires Usable(b) && h in b.shapes
  {
    var m := b.shapes[h].Merge(s);
    || b.shapes[h].center == s.center
    || (match Rival(b, h, m.center)
        case None => true
        case Some(p) => p in b.shapes && (b.shapes[p].center == m.center || !Takes(b.shapes[p], m)))
  }

  /** The loop ends within two passes if and only if that condition holds of the board and the quad before the first. */
  lemma EndsInTwoIff<Q>(b: Board<Q>, h: Q, s: Shape)
    requires Sound(b) && h in b.shapes && PlacedIn(b.min, b.max, s) && b.shapes[h].Overlaps(s) && b.shapes[h].normal.y != 0.0
    ensures MergeOn(b, h, s, 2).done <==> EndsInTwo(b, h, s)
  {
    hide IndexedBy, ListAt, Before, Touches, IndexOf, Takes;
    var b1, m := Into(b, h, s), b.shapes[h].Merge(s);
    MergeCentre(b.shapes[h], s);
    FirstAfterMerge(b, h, s);
    PassEndsIff(b1, h);
    NotBefore(ListAt(b, m.center), h);
  }

  /** The same quads, listed in the same order at every point of the world. */
  ghost predicate SameLists<Q>(b: Board<Q>, b': Board<Q>) {
    && Usable(b) && Usable(b') && b'.shapes == b.shapes
    && forall x, z :: WorldList(b'.grid, b'.min, b'.resolution, x, z) == WorldList(b.grid, b.min, b.resolution, x, z)
  }

  lemma EndsInTwoSame<Q>(b: Board<Q>, b': Board<Q>, h: Q, s: Shape)
    requires SameLists(b, b') && h in b.shapes
    ensures EndsInTwo(b', h, s) <==> EndsInTwo(b, h, s)
    ensures forall c :: Rival(b', h, c) == Rival(b, h, c)
  {
    hide FirstTouch, Before, Shape.Merge, Shape.Overlaps, WorldList;
    forall c ensures Rival(b', h, c) == Rival(b, h, c) {
      assert ListAt(b', c) == ListAt(b, c);
    }
  }

  /** More passes than the loop needs make no difference. */
  lemma {:induction false} MorePasses<Q>(b: Board<Q>, h: Q, s: Shape, rounds: nat, more: nat)
    requires Usable(b) && h in b.shapes && 0 < rounds <= more && MergeOn(b, h, s, rounds).done
    ensures MergeOn(b, h, s, more) == MergeOn(b, h, s, rounds)
    decreases rounds
  {
    hide Into, SpillsInto, Taker;
    var b1 := Into(b, h, s);
    if b1.shapes[h].center != s.center {
      var f := Taker(b1, h);
      if f.Some? {
        MorePasses(b1, f.value, b1.shapes[h], rounds - 1, more - 1);
      }
    }
  }

  /** Two merges into `h`, of which only the first changes anything: the second leaves shapes and table alone. */
  predicate OneMove<Q(==)>(run: Run<Q>, b: Board<Q>, h: Q, s: Shape) {
    Usable(b) && h in b.shapes && run == Run(Into(b, h, s), true, [h, h], SpillsInto(b, h, s))
  }

  /** Without a rival, a quad that has taken another in is the next to take itself in. */
  lemma TakesItself<Q>(b: Board<Q>, h: Q, s: Shape)
    requires Sound(b) && h in b.shapes && PlacedIn(b.min, b.max, s) && b.shapes[h].Overlaps(s) && b.shapes[h].normal.y != 0.0
    requires Rival(b, h, b.shapes[h].Merge(s).center) == None
    ensures Taker(Into(b, h, s), h) == Some(h)
  {
    hide Into, FirstTouch, ListAt, Rival, Shape.Merge, Shape.Overlaps, IndexedBy;
    StoredPlaced(b, h);
    MergeOverlap(b.shapes[h], s);
    FirstAfterMerge(b, h, s);
    MergedShape(b, h, s);
  }

  /** Without a rival and with different centres, the second merge is that of the quad with itself: two calls, one move. */
  lemma NoRivalRun<Q>(b: Board<Q>, h: Q, s: Shape, rounds: nat)
    requires Sound(b) && h in b.shapes && PlacedIn(b.min, b.max, s) && b.shapes[h].Overlaps(s) && b.shapes[h].normal.y != 0.0
    requires b.shapes[h].center != s.center && Rival(b, h, b.shapes[h].Merge(s).center) == None && rounds >= 2
    ensures OneMove(MergeOn(b, h, s, rounds), b, h, s)
  {
    hide IndexedBy, NonEmpty, Into, Taker, SpillsInto, Shape.Merge, Shape.Overlaps, Rival, Continue;
    MergeCentre(b.shapes[h], s);
    MergedShape(b, h, s);
    TakesItself(b, h, s);
    SelfPass(Into(b, h, s), h, rounds - 1);
  }

  /** At most two merges: two passes are enough, or nothing takes in the rival that took `h` in. */
  predicate AtMostTwoMerges<Q(==)>(b: Board<Q>, h: Q, s: Shape) {
    && Usable(b) && h in b.shapes
    && var m := b.shapes[h].Merge(s);
    var rival := Rival(b, h, m.center);
    EndsInTwo(b, h, s) || (rival.Some? && rival.value in b.shapes && Taker(Into(Into(b, h, s), rival.value, m), rival.value) == None)
  }

  lemma AtMostTwoMergesIff<Q>(b: Board<Q>, h: Q, s: Shape, rounds: nat)
    requires Sound(b) && h in b.shapes && PlacedIn(b.min, b.max, s) && b.shapes[h].Overlaps(s) && b.shapes[h].normal.y != 0.0
    requires rounds >= 3
    ensures MergeOn(b, h, s, rounds).Calls() <= 2 <==> AtMostTwoMerges(b, h, s)
  {
    hide IndexedBy, ListAt, Before, Touches, IndexOf, SpillsInto, Takes, Into;
    EndsInTwoIff(b, h, s);
    if EndsInTwo(b, h, s) {
      MorePasses(b, h, s, 2, rounds);
    } else {
      FirstAfterMerge(b, h, s);
      MergedShape(b, h, s);
      var m := b.shapes[h].Merge(s);
      var p := Rival(b, h, m.center).value;
      RivalIsOther(b, h, m.center);
      MergeCentre(b.shapes[p], m);
      MergedShape(Into(b, h, s), p, m);
      ThirdPass(b, h, s, p, rounds);
    }
  }

  /** The first two of more passes, when the second merges `h` into another quad with another centre. */
  lemma ThirdPass<Q>(b: Board<Q>, h: Q, s: Shape, p: Q, rounds: nat)
    requires Usable(b) && h in b.shapes && b.shapes[h].Merge(s).center != s.center && rounds >= 3
    requires var b1, m := Into(b, h, s), b.shapes[h].Merge(s);
      && b1.shapes[h] == m && p in b1.shapes && Taker(b1, h) == Some(p)
      && Into(b1, p, m).shapes[p].center != m.center
    ensures var b1, m := Into(b, h, s), b.shapes[h].Merge(s);
      MergeOn(b, h, s, rounds).Calls() == 2 + Continue(Into(b1, p, m), p, rounds - 2).Calls()
  {
    hide Into, SpillsInto, Taker;
    var b1, m := Into(b, h, s), b.shapes[h].Merge(s);
    assert MergeOn(b, h, s, rounds).Calls() == 1 + Continue(b1, h, rounds - 1).Calls();
    assert Continue(b1, h, rounds - 1) == MergeOn(b1, p, m, rounds - 1);
    assert MergeOn(b1, p, m, rounds - 1).Calls() == 1 + Continue(Into(b1, p, m), p, rounds - 2).Calls();
  }

  lemma MergedShape<Q>(b: Board<Q>, h: Q, s: Shape)
    requires Usable(b) && h in b.shapes
    ensures Into(b, h, s).shapes == b.shapes[h := b.shapes[h].Merge(s)]
  {
  }

  lemma RivalIsOther<Q>(b: Board<Q>, h: Q, c: Vector3f)
    requires Usable(b)
    ensures Rival(b, h, c) != Some(h) && (Rival(b, h, c).Some? ==> Rival(b, h, c).value in b.shapes)
  {
    NotBefore(ListAt(b, c), h);
  }

  /** Membership that is exact stays so through all passes that do not spill. */
  lemma {:induction false} RunKeepsExact<Q>(b: Board<Q>, h: Q, s: Shape, rounds: nat)
    requires Sound(b) && h in b.shapes && PlacedIn(b.min, b.max, s) && b.shapes[h].Overlaps(s) && rounds > 0
    requires ListsExactly(b) && !MergeOn(b, h, s, rounds).spilled
    ensures Sound(MergeOn(b, h, s, rounds).board)
    ensures var b1 := MergeOn(b, h, s, rounds).board; ListsExactly(b1)
    decreases rounds
  {
    hide Into, SpillsInto, ExactBy, IndexedBy;
    var b1 := Into(b, h, s);
    IntoSound(b, h, s);
    IntoExactIff(b, h, s);
    if b1.shapes[h].center != s.center && rounds > 1 {
      var f := Taker(b1, h);
      if f.Some? {
        StoredPlaced(b1, h);
        RunKeepsExact(b1, f.value, b1.shapes[h], rounds - 1);
      }
    }
  }

  /** A merge does not change how exactly the other quads are listed. */
  lemma IntoKeepsOthers<Q>(b: Board<Q>, h: Q, s: Shape, p: Q)
    requires Sound(b) && h in b.shapes && PlacedIn(b.min, b.max, s) && b.shapes[h].Overlaps(s) && p in b.shapes && p != h
    ensures Exact(Into(b, h, s).grid, p, RectOf(b, b.shapes[p])) <==> Exact(b.grid, p, RectOf(b, b.shapes[p]))
  {
    hide MergedTable, IndexedBy, RectOf;
    var b1, r0, r1 := Into(b, h, s), RectOf(b, b.shapes[h]), RectOf(b, b.shapes[h].Merge(s));
    StoredPlaced(b, h);
    MergeRects(b, b.shapes[h], s);
    MergedOnce(b.grid, b1.grid, h, r0, r1);
    forall y, x | 0 <= y < |b1.grid| && 0 <= x < |b1.grid[y]|
      ensures multiset(b1.grid[y][x])[p] == multiset(b.grid[y][x])[p]
    {
      MergeKeepsOthers(b.grid, b1.grid, h, r0, r1, p, y, x);
    }
    SameCounts(b.grid, b1.grid, p, RectOf(b, b.shapes[p]));
  }

  /** From exact membership, a merge that spills leaves the merged quad listed too often. */
  lemma SpilledQuad<Q>(b: Board<Q>, h: Q, s: Shape)
    requires Sound(b) && h in b.shapes && PlacedIn(b.min, b.max, s) && b.shapes[h].Overlaps(s) && SpillsInto(b, h, s)
    requires ListsExactly(b)
    ensures !Exact(Into(b, h, s).grid, h, RectOf(b, b.shapes[h].Merge(s)))
  {
    hide IndexedBy, MergedTable, Merged, Shape.Merge, Shape.Overlaps, RectIn, WidensX, NarrowsZ;
    var m := b.shapes[h].Merge(s);
    StoredPlaced(b, h);
    MergeRects(b, b.shapes[h], s);
    MergedOnce(b.grid, Into(b, h, s).grid, h, RectOf(b, b.shapes[h]), RectOf(b, m));
    MergeExactIff(b.grid, Into(b, h, s).grid, h, RectOf(b, b.shapes[h]), RectOf(b, m), |b.grid|, |b.grid[0]|);
  }

  /** What a spill leaves listed too often the next merge does not repair. */
  lemma SpillStays<Q>(b: Board<Q>, h: Q, s: Shape, f: Q)
    requires Sound(b) && h in b.shapes && PlacedIn(b.min, b.max, s) && b.shapes[h].Overlaps(s) && SpillsInto(b, h, s)
    requires ListsExactly(b)
    requires var b1 := Into(b, h, s); f in b1.shapes && b1.shapes[f].Overlaps(b1.shapes[h])
    ensures var b1 := Into(b, h, s); var b2 := Into(b1, f, b1.shapes[h]); !ListsExactly(b2)
  {
    hide IndexedBy, NonEmpty, SpillsInto, MergedTable, Exact, Merged, PlacedIn, Shape.Merge, Shape.Overlaps, RectIn;
    var b1 := Into(b, h, s);
    IntoSound(b, h, s);
    SpilledQuad(b, h, s);
    if f == h {
      IntoSelf(b1, h);
    } else {
      IntoKeepsOthers(b1, f, b1.shapes[h], h);
    }
  }

  lemma NoCalls<Q>(b: Board<Q>, cur: Q, rounds: nat)
    requires Usable(b) && cur in b.shapes && Continue(b, cur, rounds).Calls() == 0
    ensures Continue(b, cur, rounds).board == b && !Continue(b, cur, rounds).spilled
  {
  }

  /** A run of at most two merges, written out. */
  lemma TwoMerges<Q>(b: Board<Q>, h: Q, s: Shape, rounds: nat)
    requires Usable(b) && h in b.shapes && rounds > 0 && MergeOn(b, h, s, rounds).Calls() <= 2
    ensures var run, b1 := MergeOn(b, h, s, rounds), Into(b, h, s);
      || (run.board == b1 && run.spilled == SpillsInto(b, h, s))
      || (var f := Taker(b1, h);
          f.Some? && run.board == Into(b1, f.value, b1.shapes[h])
          && run.spilled == (SpillsInto(b, h, s) || SpillsInto(b1, f.value, b1.shapes[h])))
  {
    hide NonEmpty, Into, SpillsInto, Taker;
    var b1 := Into(b, h, s);
    if Continue(b1, h, rounds - 1).Calls() == 0 {
      NoCalls(b1, h, rounds - 1);
    } else {
      var f := Taker(b1, h).value;
      var b2 := Into(b1, f, b1.shapes[h]);
      assert Continue(b1, h, rounds - 1) == MergeOn(b1, f, b1.shapes[h], rounds - 1);
      if b2.shapes[f].center != b1.shapes[h].center && MergeOn(b1, f, b1.shapes[h], rounds - 1).Calls() == 1 {
        NoCalls(b2, f, rounds - 2);
      }
    }
  }

  /** When a run makes at most two merges, exact membership is kept if and only if none of them spills. */
  lemma TwoMergesExactIff<Q>(b: Board<Q>, h: Q, s: Shape, rounds: nat)
    requires Sound(b) && h in b.shapes && PlacedIn(b.min, b.max, s) && b.shapes[h].Overlaps(s) && rounds > 0
    requires ListsExactly(b) && MergeOn(b, h, s, rounds).Calls() <= 2
    ensures var run := MergeOn(b, h, s, rounds);
      ListsExactly(run.board) <==> !run.spilled
  {
    hide NonEmpty, Into, SpillsInto, ExactBy, IndexedBy, MergeOn, Continue, Taker;
    var b1 := Into(b, h, s);
    IntoSound(b, h, s);
    IntoExactIff(b, h, s);
    TwoMerges(b, h, s, rounds);
    MergedShape(b, h, s);
    var f := Taker(b1, h);
    if f.Some? {
      StoredPlaced(b1, h);
      if SpillsInto(b, h, s) {
        SpillStays(b, h, s, f.value);
      } else {
        IntoExactIff(b1, f.value, b1.shapes[h]);
      }
    }
  }

  /** Different centres, and no quad before `h` touches the centre that the merge gives it. */
  predicate NoRival<Q(==)>(b: Board<Q>, h: Q, s: Shape)
    requires Usable(b) && h in b.shapes
  {
    b.shapes[h].center != s.center && Rival(b, h, b.shapes[h].Merge(s).center) == None
  }

  /** What the lists say about a run before it starts. */
  lemma Outcome<Q>(b: Board<Q>, h: Q, s: Shape, rounds: nat)
    requires Sound(b) && h in b.shapes && rounds > 0
    requires PlacedIn(b.min, b.max, s) && b.shapes[h].Overlaps(s) && b.shapes[h].normal.y != 0.0
    ensures var run := MergeOn(b, h, s, rounds);
      && (rounds == 2 ==> (run.done <==> EndsInTwo(b, h, s)))
      && (rounds >= 2 && EndsInTwo(b, h, s) ==> run.done && run.Calls() <= 2)
      && (rounds > 2 ==> (run.Calls() <= 2 <==> AtMostTwoMerges(b, h, s)))
      && (rounds >= 2 && NoRival(b, h, s) ==> OneMove(run, b, h, s))
      && (ListsExactly(b) && !run.spilled ==> ListsExactly(run.board))
      && (ListsExactly(b) && run.Calls() <= 2 ==> (ListsExactly(run.board) <==> !run.spilled))
  {
    hide IndexedBy, NonEmpty, MergeOn, Into, SpillsInto, EndsInTwo, AtMostTwoMerges, Rival, ExactBy, Shape.Merge,
      Shape.Overlaps, PlacedIn;
    EndsInTwoIff(b, h, s);
    if rounds > 2 {
      AtMostTwoMergesIff(b, h, s, rounds);
    }
    if rounds >= 2 && EndsInTwo(b, h, s) {
      MorePasses(b, h, s, 2, rounds);
    }
    if rounds >= 2 && NoRival(b, h, s) {
      NoRivalRun(b, h, s, rounds);
    }
    if ListsExactly(b) {
      if !MergeOn(b, h, s, rounds).spilled {
        RunKeepsExact(b, h, s, rounds);
      }
      if MergeOn(b, h, s, rounds).Calls() <= 2 {
        TwoMergesExactIff(b, h, s, rounds);
      }
    }
  }
}
