/** Floor and ceiling arithmetic behind the grid's cell coordinates. */
module CellMath {

  function Ceil(v: real): (c: int)
    ensures (c - 1) as real < v <= c as real
  {
    -((-v).Floor)
  }

  function Abs(v: real): real {
    if v < 0.0 then -v else v
  }

  function Min(a: real, b: real): real {
    if a < b then a else b
  }

  function Max(a: real, b: real): real {
    if a > b then a else b
  }

  function Scale(v: real, resolution: int): real {
    v * resolution as real
  }

  /** Distance from the grid's minimum to the near edge of cell `i`. */
  function Edge(i: int, resolution: int): real {
    Scale(i as real, resolution)
  }

  lemma ScaleOrdered(a: real, b: real, resolution: int)
    requires resolution >= 0 && a <= b
    ensures Scale(a, resolution) <= Scale(b, resolution)
  {
    var r := resolution as real;
    assert b * r - a * r == (b - a) * r;
  }

  lemma ScaleStrict(a: real, b: real, resolution: int)
    requires resolution > 0 && a < b
    ensures Scale(a, resolution) < Scale(b, resolution)
  {
    var r := resolution as real;
    assert b * r - a * r == (b - a) * r;
  }

  lemma ScaleSum(a: real, b: real, resolution: int)
    ensures Scale(a + b, resolution) == Scale(a, resolution) + Scale(b, resolution)
  {
  }

  lemma ScaleUnits(resolution: int)
    ensures Scale(0.0, resolution) == 0.0 && Scale(1.0, resolution) == resolution as real
  {
  }

  lemma ScaleQuotient(d: real, resolution: int)
    requires resolution > 0
    ensures Scale(d / resolution as real, resolution) == d
  {
  }

  lemma ScaleInteger(i: int, resolution: int)
    ensures Scale(i as real, resolution) == (i * resolution) as real
  {
  }

  lemma EdgeMonotone(a: int, b: int, resolution: int)
    requires a <= b && resolution >= 0
    ensures Edge(a, resolution) <= Edge(b, resolution)
  {
    hide Scale;
    ScaleOrdered(a as real, b as real, resolution);
  }

  lemma EdgeSum(a: int, b: int, resolution: int)
    ensures Edge(a + b, resolution) == Edge(a, resolution) + Edge(b, resolution)
  {
    hide Scale;
    assert (a + b) as real == a as real + b as real;
    ScaleSum(a as real, b as real, resolution);
  }

  lemma EdgeUnits(resolution: int)
    ensures Edge(0, resolution) == 0.0 && Edge(1, resolution) == resolution as real
  {
    hide Scale;
    ScaleUnits(resolution);
  }

  lemma ScaledBetween(low: int, v: real, high: int, resolution: int)
    requires resolution > 0
    ensures low as real < v ==> Edge(low, resolution) < Scale(v, resolution)
    ensures low as real <= v ==> Edge(low, resolution) <= Scale(v, resolution)
    ensures v < high as real ==> Scale(v, resolution) < Edge(high, resolution)
    ensures v <= high as real ==> Scale(v, resolution) <= Edge(high, resolution)
  {
    hide Scale;
    if low as real < v {
      ScaleStrict(low as real, v, resolution);
    }
    if v < high as real {
      ScaleStrict(v, high as real, resolution);
    }
  }

  lemma CellIndexEdges(d: real, resolution: int)
    requires resolution > 0
    ensures var i := (d / resolution as real).Floor; Edge(i, resolution) <= d < Edge(i + 1, resolution)
  {
    hide Scale;
    var v := d / resolution as real;
    ScaleQuotient(d, resolution);
    ScaledBetween(v.Floor, v, v.Floor + 1, resolution);
  }

  /** The coordinate of the cell that holds a point at signed distance `d` from the grid's minimum. */
  function CellIndex(d: real, resolution: int): (i: int)
    requires resolution > 0
    ensures Edge(i, resolution) <= d < Edge(i + 1, resolution)
  {
    CellIndexEdges(d, resolution);
    (d / resolution as real).Floor
  }

  lemma CellIndexUnique(d: real, resolution: int, i: int)
    requires resolution > 0
    requires Edge(i, resolution) <= d < Edge(i + 1, resolution)
    ensures CellIndex(d, resolution) == i
  {
    hide Scale;
    var k := CellIndex(d, resolution);
    if k < i {
      EdgeMonotone(k + 1, i, resolution);
    } else if k > i {
      EdgeMonotone(i + 1, k, resolution);
    }
  }

  /** Moving the origin by whole cells shifts every coordinate by that many cells. */
  lemma CellIndexShift(d: real, resolution: int, k: int)
    requires resolution > 0
    ensures CellIndex(d + Edge(k, resolution), resolution) == CellIndex(d, resolution) + k
  {
    hide Scale;
    var i := CellIndex(d, resolution);
    EdgeSum(i, k, resolution);
    EdgeSum(i + 1, k, resolution);
    CellIndexUnique(d + Edge(k, resolution), resolution, i + k);
  }

  lemma CellIndexMonotone(a: real, b: real, resolution: int)
    requires resolution > 0 && a <= b
    ensures CellIndex(a, resolution) <= CellIndex(b, resolution)
  {
    hide Scale;
    var i, j := CellIndex(a, resolution), CellIndex(b, resolution);
    if j < i {
      EdgeMonotone(j + 1, i, resolution);
    }
  }

  /** A point is within `n` cells of the origin exactly when its coordinate is one of theirs. */
  lemma CellIndexInRange(d: real, resolution: int, n: int)
    requires resolution > 0
    ensures 0.0 <= d < Edge(n, resolution) <==> 0 <= CellIndex(d, resolution) < n
  {
    hide Scale;
    var i := CellIndex(d, resolution);
    EdgeUnits(resolution);
    if i < 0 {
      EdgeMonotone(i + 1, 0, resolution);
    } else {
      EdgeMonotone(0, i, resolution);
    }
    if i < n {
      EdgeMonotone(i + 1, n, resolution);
    } else {
      EdgeMonotone(n, i, resolution);
    }
  }

  /** A cell is not before that of a point exactly if it ends after the point, and not behind it exactly if it begins at or
      before the point. */
  lemma CellIff(d: real, resolution: int, i: int)
    requires resolution > 0
    ensures CellIndex(d, resolution) <= i <==> d < ((i + 1) * resolution) as real
    ensures i <= CellIndex(d, resolution) <==> (i * resolution) as real <= d
  {
    hide Scale;
    var k := CellIndex(d, resolution);
    ScaleInteger(i, resolution);
    ScaleInteger(i + 1, resolution);
    if k <= i {
      EdgeMonotone(k + 1, i + 1, resolution);
    } else {
      EdgeMonotone(i + 1, k, resolution);
    }
    if i <= k {
      EdgeMonotone(i, k, resolution);
    } else {
      EdgeMonotone(k + 1, i, resolution);
    }
  }

  /** Cells to add on an axis so that [min, max) reaches down or up to `p`. */
  function CellsToAdd(p: real, min: real, max: real, resolution: int): (count: int)
    requires resolution > 0
    ensures count >= 0
  {
    var units :=
      if min <= p < max then 0
      else if p < min then
        var f := (p - min).Floor;
        if f < 0 then -f else f
      else Abs(p - max).Floor + 1;
    CeilDiv(units, resolution);
    Ceil(units as real / resolution as real)
  }

  lemma RealLess(k: int, n: int)
    requires k as real < n as real
    ensures k < n
  {
  }

  lemma RealAtMost(k: int, n: int)
    requires k <= n
    ensures k as real <= n as real
  {
  }

  lemma IntegerEdge(i: int, resolution: int, n: int)
    requires Edge(i, resolution) < n as real
    ensures Edge(i, resolution) <= (n - 1) as real
  {
    hide Scale;
    ScaleInteger(i, resolution);
    RealLess(i * resolution, n);
    RealAtMost(i * resolution, n - 1);
  }

  lemma CeilDiv(n: int, resolution: int)
    requires resolution > 0
    ensures var c := Ceil(n as real / resolution as real);
      Edge(c - 1, resolution) <= (n - 1) as real && n as real <= Edge(c, resolution) && (n >= 0 ==> c >= 0)
  {
    hide Scale;
    var v := n as real / resolution as real;
    var c := Ceil(v);
    ScaledBetween(c - 1, v, c, resolution);
    ScaleQuotient(n as real, resolution);
    IntegerEdge(c - 1, resolution, n);
    EdgeUnits(resolution);
    if c < 0 {
      EdgeMonotone(c + 1, 0, resolution);
      EdgeSum(c, 1, resolution);
    }
  }

  lemma CountPositive(n: int, resolution: int)
    requires resolution > 0 && n > 0
    ensures Ceil(n as real / resolution as real) > 0
  {
    hide Scale;
    var c := Ceil(n as real / resolution as real);
    CeilDiv(n, resolution);
    EdgeUnits(resolution);
    if c <= 0 {
      EdgeMonotone(c, 0, resolution);
    }
  }

  /** The nested rounding adds enough cells to reach the point, and one cell fewer would not do. */
  lemma CellsToAddIsLeast(p: real, min: real, max: real, resolution: int)
    requires resolution > 0 && min <= max
    ensures var c := CellsToAdd(p, min, max, resolution);
      && (p < min ==> c > 0 && min - Edge(c, resolution) <= p < min - Edge(c - 1, resolution))
      && (max <= p ==> c > 0 && max + Edge(c - 1, resolution) <= p < max + Edge(c, resolution))
      && (min <= p < max ==> c == 0)
  {
    hide Scale;
    if p < min {
      CellsBelow((p - min).Floor, resolution);
    } else if max <= p {
      CellsAbove((p - max).Floor, resolution);
    }
  }

  lemma CellsBelow(floor: int, resolution: int)
    requires resolution > 0 && floor < 0
    ensures var c := Ceil((-floor) as real / resolution as real);
      c > 0 && -Edge(c, resolution) <= floor as real && (floor + 1) as real <= -Edge(c - 1, resolution)
  {
    hide Scale;
    CeilDiv(-floor, resolution);
    CountPositive(-floor, resolution);
  }

  lemma CellsAbove(floor: int, resolution: int)
    requires resolution > 0 && floor >= 0
    ensures var c := Ceil((floor + 1) as real / resolution as real);
      c > 0 && Edge(c - 1, resolution) <= floor as real && (floor + 1) as real <= Edge(c, resolution)
  {
    hide Scale;
    CeilDiv(floor + 1, resolution);
    CountPositive(floor + 1, resolution);
  }
}
