/** Tables of cell lists: how one merge changes which cells list a quad. */
module Cells {

  type Table<Q> = seq<seq<seq<Q>>>

  predicate Rectangular<Q>(g: Table<Q>, rows: int, cols: int) {
    |g| == rows && forall y :: 0 <= y < |g| ==> |g[y]| == cols
  }

  /** A range of cells, both ends included. */
  datatype Rect = Rect(x0: int, x1: int, y0: int, y1: int) {
    predicate Has(x: int, y: int) {
      x0 <= x <= x1 && y0 <= y <= y1
    }

    predicate Within(rows: int, cols: int) {
      0 <= x0 <= x1 < cols && 0 <= y0 <= y1 < rows
    }

    predicate Meets(other: Rect) {
      x0 <= other.x1 && other.x0 <= x1 && y0 <= other.y1 && other.y0 <= y1
    }

    function Shift(dx: int, dy: int): Rect {
      Rect(x0 + dx, x1 + dx, y0 + dy, y1 + dy)
    }
  }

  /** The first position of `q`, or the length of the list. */
  function IndexOf<Q(==)>(cell: seq<Q>, q: Q): (i: nat)
    ensures i <= |cell| && q !in cell[..i]
    ensures i < |cell| <==> q in cell
    ensures i < |cell| ==> cell[i] == q
  {
    if cell == [] then 0
    else if cell[0] == q then 0
    else
      assert cell == [cell[0]] + cell[1..];
      var i := 1 + IndexOf(cell[1..], q);
      assert cell[..i] == [cell[0]] + cell[1..][..i - 1];
      i
  }

  lemma IndexOfFirst<Q>(cell: seq<Q>, q: Q, i: nat)
    requires i < |cell| && cell[i] == q && q !in cell[..i]
    ensures IndexOf(cell, q) == i
  {
    var k := IndexOf(cell, q);
    assert forall j :: 0 <= j < i ==> cell[..i][j] == cell[j];
    assert forall j :: 0 <= j < k ==> cell[..k][j] == cell[j];
  }

  /** Takes one `q` out: the last entry fills its place. */
  function Removed<Q(==)>(cell: seq<Q>, q: Q): seq<Q> {
    var i := IndexOf(cell, q);
    if i == |cell| then cell else cell[i := cell[|cell| - 1]][..|cell| - 1]
  }

  /** The other entries keep their places, but for the last one, which moves to that of the first `q`. */
  lemma RemovedPlaces<Q>(cell: seq<Q>, q: Q, i: nat)
    requires i < |cell| && cell[i] == q && q !in cell[..i]
    ensures |Removed(cell, q)| == |cell| - 1
    ensures forall k :: 0 <= k < |cell| - 1 ==> Removed(cell, q)[k] == if k == i then cell[|cell| - 1] else cell[k]
  {
    IndexOfFirst(cell, q, i);
  }

  function Updated<Q(==)>(cell: seq<Q>, q: Q, expand: bool): seq<Q> {
    if expand then cell + [q] else Removed(cell, q)
  }

  lemma CancelOne<Q>(a: multiset<Q>, b: multiset<Q>, q: Q)
    requires a + multiset{q} == b + multiset{q}
    ensures a == b
  {
    forall p ensures a[p] == b[p] {
      assert (a + multiset{q})[p] == (b + multiset{q})[p];
    }
  }

  lemma RemovedCounts<Q>(cell: seq<Q>, q: Q)
    requires q in cell
    ensures multiset(Removed(cell, q)) == multiset(cell) - multiset{q}
  {
    var i, n := IndexOf(cell, q), |cell|;
    var last := cell[n - 1];
    var swapped := cell[i := last];
    assert swapped == Removed(cell, q) + [last];
    assert multiset(swapped) == multiset(Removed(cell, q)) + multiset{last};
    assert multiset(swapped) == multiset(cell) - multiset{q} + multiset{last};
    CancelOne(multiset(Removed(cell, q)), multiset(cell) - multiset{q}, last);
  }

  lemma UpdatedCounts<Q>(cell: seq<Q>, q: Q, expand: bool)
    ensures multiset(Updated(cell, q, expand)) ==
            if expand then multiset(cell) + multiset{q} else multiset(cell) - multiset{q}
  {
    if !expand && q in cell {
      RemovedCounts(cell, q);
    }
  }

  /** `after` is `before` with the cells of one edge strip updated; `y1` and `x1` are not included. */
  ghost predicate Swept<Q>(before: Table<Q>, after: Table<Q>, q: Q, y0: int, y1: int, x0: int, x1: int, expand: bool) {
    && |after| == |before|
    && (forall y :: 0 <= y < |before| ==> |after[y]| == |before[y]|)
    && (forall y, x :: 0 <= y < |before| && 0 <= x < |before[y]| ==>
          after[y][x] == if y0 <= y < y1 && x0 <= x < x1 then Updated(before[y][x], q, expand) else before[y][x])
  }

  lemma SweptKeepsShape<Q>(before: Table<Q>, after: Table<Q>, q: Q, y0: int, y1: int, x0: int, x1: int, expand: bool)
    requires Swept(before, after, q, y0, y1, x0, x1, expand)
    ensures |after| == |before| && forall y :: 0 <= y < |before| ==> |after[y]| == |before[y]|
  {
  }

  function Low(a: int, b: int): int {
    if b < a then b else a
  }

  function High(a: int, b: int): int {
    if b < a then a else b
  }

  datatype Action = Keep | List | Drop

  /** What the four edge strips between an old and a new range do to a cell. */
  function EdgeAction(a: Rect, b: Rect, x: int, y: int): Action {
    if !(Low(a.y0, b.y0) <= y <= High(a.y1, b.y1)) then Keep
    else if Low(a.x0, b.x0) <= x < High(a.x0, b.x0) then Strip(b.x0 < a.x0)
    else if Low(a.x1, b.x1) < x <= High(a.x1, b.x1) then Strip(b.x1 >= a.x1)
    else if !(High(a.x0, b.x0) <= x <= Low(a.x1, b.x1)) then Keep
    else if y < High(a.y0, b.y0) then Strip(b.y0 < a.y0)
    else if Low(a.y1, b.y1) < y then Strip(b.y1 >= a.y1)
    else Keep
  }

  function Strip(expand: bool): Action {
    if expand then List else Drop
  }

  function Acted<Q(==)>(cell: seq<Q>, q: Q, action: Action): seq<Q> {
    if action.Keep? then cell else Updated(cell, q, action.List?)
  }

  ghost predicate Merged<Q>(before: Table<Q>, after: Table<Q>, q: Q, a: Rect, b: Rect) {
    && |after| == |before|
    && (forall y :: 0 <= y < |before| ==> |after[y]| == |before[y]|)
    && (forall y, x :: 0 <= y < |before| && 0 <= x < |before[y]| ==>
          after[y][x] == Acted(before[y][x], q, EdgeAction(a, b, x, y)))
  }

  /** The one table that a merge over the four strips leads to. */
  function MergedTable<Q(==)>(before: Table<Q>, q: Q, a: Rect, b: Rect): (after: Table<Q>)
    ensures |after| == |before| && forall y :: 0 <= y < |before| ==> |after[y]| == |before[y]|
  {
    seq(|before|, y requires 0 <= y < |before| =>
      seq(|before[y]|, x requires 0 <= x < |before[y]| => Acted(before[y][x], q, EdgeAction(a, b, x, y))))
  }

  lemma MergedOnce<Q>(before: Table<Q>, after: Table<Q>, q: Q, a: Rect, b: Rect)
    ensures Merged(before, after, q, a, b) <==> after == MergedTable(before, q, a, b)
  {
    var t := MergedTable(before, q, a, b);
    if Merged(before, after, q, a, b) {
      forall y | 0 <= y < |before| ensures after[y] == t[y] {
        forall x | 0 <= x < |before[y]| ensures after[y][x] == t[y][x] {
        }
      }
    }
  }

  /** Merging over an unmoved range touches no cell. */
  lemma MergedInPlace<Q>(before: Table<Q>, q: Q, r: Rect)
    ensures MergedTable(before, q, r, r) == before
  {
    var t := MergedTable(before, q, r, r);
    forall y | 0 <= y < |before| ensures t[y] == before[y] {
      forall x | 0 <= x < |before[y]| ensures t[y][x] == before[y][x] {
      }
    }
  }

  /** The strips do not overlap, so updating them one after the other touches each cell at most once. */
  lemma FourEdges<Q>(g0: Table<Q>, g1: Table<Q>, g2: Table<Q>, g3: Table<Q>, g4: Table<Q>, q: Q, a: Rect, b: Rect)
    requires a.Meets(b)
    requires a.x0 <= a.x1 && b.x0 <= b.x1 && a.y0 <= a.y1 && b.y0 <= b.y1
    requires Swept(g0, g1, q, Low(a.y0, b.y0), High(a.y1, b.y1) + 1, Low(a.x0, b.x0), High(a.x0, b.x0), b.x0 < a.x0)
    requires Swept(g1, g2, q, Low(a.y0, b.y0), High(a.y1, b.y1) + 1, Low(a.x1, b.x1) + 1, High(a.x1, b.x1) + 1, b.x1 >= a.x1)
    requires Swept(g2, g3, q, Low(a.y0, b.y0), High(a.y0, b.y0), High(a.x0, b.x0), Low(a.x1, b.x1) + 1, b.y0 < a.y0)
    requires Swept(g3, g4, q, Low(a.y1, b.y1) + 1, High(a.y1, b.y1) + 1, High(a.x0, b.x0), Low(a.x1, b.x1) + 1, b.y1 >= a.y1)
    ensures Merged(g0, g4, q, a, b)
  {
    forall y, x | 0 <= y < |g0| && 0 <= x < |g0[y]|
      ensures g4[y][x] == Acted(g0[y][x], q, EdgeAction(a, b, x, y))
    {
      assert |g1[y]| == |g0[y]| && |g2[y]| == |g1[y]| && |g3[y]| == |g2[y]|;
      var c1, c2, c3 := g1[y][x], g2[y][x], g3[y][x];
    }
  }

  /** New columns times lost rows: the cells the left and right strips list by mistake. */
  predicate Spills(a: Rect, b: Rect, x: int, y: int) {
    b.x0 <= x <= b.x1 && !(a.x0 <= x <= a.x1) && a.y0 <= y <= a.y1 && !(b.y0 <= y <= b.y1)
  }

  predicate WidensX(a: Rect, b: Rect) {
    b.x0 < a.x0 || a.x1 < b.x1
  }

  predicate NarrowsZ(a: Rect, b: Rect) {
    a.y0 < b.y0 || b.y1 < a.y1
  }

  /** The strips list the cells gained, drop the cells lost, and list the spilled ones. */
  lemma EdgeActionMeaning(a: Rect, b: Rect, x: int, y: int)
    requires a.Meets(b) && a.x0 <= a.x1 && b.x0 <= b.x1 && a.y0 <= a.y1 && b.y0 <= b.y1
    ensures b.Has(x, y) && !a.Has(x, y) ==> EdgeAction(a, b, x, y) == List
    ensures b.Has(x, y) && a.Has(x, y) ==> EdgeAction(a, b, x, y) == Keep
    ensures a.Has(x, y) && !b.Has(x, y) ==> EdgeAction(a, b, x, y) == Drop
    ensures !a.Has(x, y) && !b.Has(x, y) ==> (EdgeAction(a, b, x, y) == List <==> Spills(a, b, x, y))
  {
  }

  lemma ActedCounts<Q>(cell: seq<Q>, q: Q, action: Action)
    ensures var before, after := multiset(cell), multiset(Acted(cell, q, action));
      && (forall p :: p != q ==> after[p] == before[p])
      && after[q] == match action {
        case Keep => before[q]
        case List => before[q] + 1
        case Drop => if before[q] > 0 then before[q] - 1 else 0
      }
  {
    UpdatedCounts(cell, q, true);
    UpdatedCounts(cell, q, false);
  }

  /** `q` is listed in every cell of its range. */
  ghost predicate Covers<Q>(g: Table<Q>, q: Q, r: Rect) {
    forall y, x :: 0 <= y < |g| && 0 <= x < |g[y]| && r.Has(x, y) ==> q in g[y][x]
  }

  /** `q` is listed once in every cell of its range and nowhere else. */
  ghost predicate Exact<Q>(g: Table<Q>, q: Q, r: Rect) {
    forall y, x :: 0 <= y < |g| && 0 <= x < |g[y]| ==> multiset(g[y][x])[q] == if r.Has(x, y) then 1 else 0
  }

  lemma MergeKeepsCover<Q>(before: Table<Q>, after: Table<Q>, q: Q, a: Rect, b: Rect)
    requires a.Meets(b) && a.x0 <= a.x1 && b.x0 <= b.x1 && a.y0 <= a.y1 && b.y0 <= b.y1
    requires Merged(before, after, q, a, b)
    requires Covers(before, q, a)
    ensures Covers(after, q, b)
  {
    forall y, x | 0 <= y < |after| && 0 <= x < |after[y]| && b.Has(x, y)
      ensures q in after[y][x]
    {
      EdgeActionMeaning(a, b, x, y);
      ActedCounts(before[y][x], q, EdgeAction(a, b, x, y));
      assert a.Has(x, y) ==> q in before[y][x];
      assert multiset(after[y][x])[q] > 0;
    }
  }

  /** Other quads stay listed exactly as often as they were in every cell. */
  lemma MergeKeepsOthers<Q>(before: Table<Q>, after: Table<Q>, q: Q, a: Rect, b: Rect, p: Q, y: int, x: int)
    requires a.Meets(b) && a.x0 <= a.x1 && b.x0 <= b.x1 && a.y0 <= a.y1 && b.y0 <= b.y1
    requires Merged(before, after, q, a, b) && p != q
    requires 0 <= y < |before| && 0 <= x < |before[y]|
    ensures multiset(after[y][x])[p] == multiset(before[y][x])[p]
    ensures p in after[y][x] <==> p in before[y][x]
  {
    ActedCounts(before[y][x], q, EdgeAction(a, b, x, y));
    assert p in after[y][x] <==> multiset(after[y][x])[p] > 0;
    assert p in before[y][x] <==> multiset(before[y][x])[p] > 0;
  }

  /** From exact membership, a merge ends exact unless it widens the columns while it narrows the rows. */
  lemma MergeExactIff<Q>(before: Table<Q>, after: Table<Q>, q: Q, a: Rect, b: Rect, rows: int, cols: int)
    requires Rectangular(before, rows, cols) && a.Within(rows, cols) && b.Within(rows, cols) && a.Meets(b)
    requires Merged(before, after, q, a, b)
    requires Exact(before, q, a)
    ensures Exact(after, q, b) <==> !(WidensX(a, b) && NarrowsZ(a, b))
  {
    forall y, x | 0 <= y < |after| && 0 <= x < |after[y]|
      ensures multiset(after[y][x])[q] == if b.Has(x, y) || Spills(a, b, x, y) then 1 else 0
    {
      EdgeActionMeaning(a, b, x, y);
      ActedCounts(before[y][x], q, EdgeAction(a, b, x, y));
      assert multiset(before[y][x])[q] == if a.Has(x, y) then 1 else 0;
    }
    if WidensX(a, b) && NarrowsZ(a, b) {
      var x := if b.x0 < a.x0 then b.x0 else b.x1;
      var y := if a.y0 < b.y0 then a.y0 else a.y1;
      assert Spills(a, b, x, y) && !b.Has(x, y);
      assert |after[y]| == cols && multiset(after[y][x])[q] == 1;
    }
  }

  /** What a merge to a wider and narrower range does to a cell, the merge back undoes. */
  lemma ThereAndBack(a: Rect, b: Rect, x: int, y: int)
    requires a.x0 <= a.x1 && b.y0 <= b.y1 && b.x0 <= a.x0 && a.x1 <= b.x1 && a.y0 <= b.y0 && b.y1 <= a.y1
    ensures var there, back := EdgeAction(a, b, x, y), EdgeAction(b, a, x, y);
      if a.Has(x, y) then (there.Keep? && back.Keep?) || (there.Drop? && back.List?)
      else (there.List? && back.Drop?) || (!there.List? && !back.List?)
  {
  }

  /** A later merge may take spilled entries away again: to a wider and narrower range and back, membership ends exact. */
  lemma SpillUndone<Q>(g0: Table<Q>, g1: Table<Q>, g2: Table<Q>, q: Q, a: Rect, b: Rect, rows: int, cols: int)
    requires Rectangular(g0, rows, cols) && a.Within(rows, cols) && b.Within(rows, cols) && Exact(g0, q, a)
    requires b.x0 <= a.x0 && a.x1 <= b.x1 && a.y0 <= b.y0 && b.y1 <= a.y1
    requires Merged(g0, g1, q, a, b) && Merged(g1, g2, q, b, a)
    ensures Exact(g1, q, b) <==> !(WidensX(a, b) && NarrowsZ(a, b))
    ensures Exact(g2, q, a)
  {
    hide Acted, EdgeAction, WidensX, NarrowsZ;
    MergeExactIff(g0, g1, q, a, b, rows, cols);
    forall y, x | 0 <= y < |g2| && 0 <= x < |g2[y]|
      ensures multiset(g2[y][x])[q] == if a.Has(x, y) then 1 else 0
    {
      ThereAndBack(a, b, x, y);
      assert |g1[y]| == |g0[y]|;
      ActedCounts(g0[y][x], q, EdgeAction(a, b, x, y));
      ActedCounts(g1[y][x], q, EdgeAction(b, a, x, y));
      assert multiset(g0[y][x])[q] == if a.Has(x, y) then 1 else 0;
    }
  }

  function Blank<Q>(cols: nat): seq<seq<Q>> {
    seq(cols, _ => [])
  }

  function BlankRows<Q>(rows: nat, cols: nat): Table<Q> {
    seq(rows, _ => Blank(cols))
  }

  /** `after` holds all of `before`, moved by (sx, sy), and lists nothing in the cells around it. */
  ghost predicate Grown<Q>(before: Table<Q>, after: Table<Q>, sx: int, sy: int) {
    && 0 <= sx && 0 <= sy && sy + |before| <= |after|
    && (forall y :: 0 <= y < |before| ==> sx + |before[y]| <= |after[sy + y]|)
    && (forall y, x :: 0 <= y < |after| && 0 <= x < |after[y]| ==>
          after[y][x] == if sy <= y < sy + |before| && sx <= x < sx + |before[y - sy]| then before[y - sy][x - sx] else [])
  }

  lemma GrownNot<Q>(g: Table<Q>)
    ensures Grown(g, g, 0, 0)
  {
  }

  lemma GrownTwice<Q>(g0: Table<Q>, g1: Table<Q>, g2: Table<Q>, sx: int, sy: int)
    requires |g0| == |g1| && Grown(g0, g1, sx, 0) && Grown(g1, g2, 0, sy)
    requires forall y :: sy <= y < sy + |g1| ==> |g2[y]| == |g1[y - sy]|
    ensures Grown(g0, g2, sx, sy)
  {
    forall y, x | 0 <= y < |g2| && 0 <= x < |g2[y]|
      ensures g2[y][x] == if sy <= y < sy + |g0| && sx <= x < sx + |g0[y - sy]| then g0[y - sy][x - sx] else []
    {
      if sy <= y < sy + |g0| {
        assert g2[y][x] == g1[y - sy][x];
      }
    }
    forall y | 0 <= y < |g0|
      ensures sx + |g0[y]| <= |g2[sy + y]|
    {
      assert |g2[sy + y]| == |g1[y]| && sx + |g0[y]| <= |g1[0 + y]|;
    }
  }

  lemma GrownExact<Q>(before: Table<Q>, after: Table<Q>, q: Q, r: Rect, rows: int, cols: int, sx: int, sy: int)
    requires Rectangular(before, rows, cols) && r.Within(rows, cols) && Grown(before, after, sx, sy)
    ensures Exact(before, q, r) <==> Exact(after, q, r.Shift(sx, sy))
  {
    forall y, x | 0 <= y < |after| && 0 <= x < |after[y]| && Exact(before, q, r)
      ensures multiset(after[y][x])[q] == if r.Shift(sx, sy).Has(x, y) then 1 else 0
    {
      if sy <= y < sy + |before| && sx <= x < sx + |before[y - sy]| {
        assert after[y][x] == before[y - sy][x - sx];
      }
    }
    forall y, x | 0 <= y < |before| && 0 <= x < |before[y]| && Exact(after, q, r.Shift(sx, sy))
      ensures multiset(before[y][x])[q] == if r.Has(x, y) then 1 else 0
    {
      assert after[y + sy][x + sx] == before[y][x];
    }
  }

  lemma RowsGrown<Q>(g: Table<Q>, blank: Table<Q>, rows: nat, cols: nat)
    requires |g| > 0 && Rectangular(g, |g|, cols) && blank == BlankRows(rows, cols)
    ensures Rectangular(blank + g, rows + |g|, cols) && Rectangular(g + blank, rows + |g|, cols)
    ensures Grown(g, blank + g, 0, rows) && Grown(g, g + blank, 0, 0)
  {
  }
}
