/**
  The correlation-matrix builder of figure S3 (`generateCorrelationData`).

  It walks the 8 x 8 grid of feature pairs row by row and pushes one cell per pair.
  A diagonal cell is 1. Every other cell first takes a fresh draw scaled to
  `r * 0.8 - 0.2`. A cell below the diagonal then looks back, with `Array.find`,
  for the cell already pushed at the mirrored pair, and keeps that cell's value
  unless the value is falsy: the fallback is `?.value || corr`, so a stored value of
  exactly 0 counts as "not found" and the fresh draw is kept.
 */
module Correlation {
  import opened Draws

  datatype Option<T> = None | Some(value: T)

  /** The feature names that label the rows and columns of the matrix. */
  const Features: seq<string> :=
    ["Pop Density", "Bldg Area", "NDVI", "Night Light", "Temp", "Road Dist", "Settlement Type", "Height"]

  /** One off-diagonal cell per ordered pair, each with one draw: 8 * 8 - 8. */
  const CorrelationDraws: nat := 56

  /** One record of `data`. */
  datatype Cell = Cell(x: int, y: int, xLabel: string, yLabel: string, value: real)

  predicate IsFeature(i: int) {
    0 <= i < |Features|
  }

  /** Where the cell of pair (i, j) sits in `data`: the loops push row by row. */
  function Pos(i: int, j: int): int {
    i * |Features| + j
  }

  /**
    The number of draws consumed before the cell of pair (i, j) is pushed: one per
    off-diagonal cell pushed before it. For an off-diagonal cell this is the index of
    its own draw; diagonal cells take no draw.
   */
  function DrawIndex(i: int, j: int): (k: nat)
    requires IsFeature(i) && IsFeature(j)
    ensures k <= CorrelationDraws
    ensures i != j ==> k < CorrelationDraws
  {
    i * (|Features| - 1) + j - (if j > i then 1 else 0)
  }

  /** The cell of a pair is pushed at exactly one position. */
  lemma PosInjective(i: int, j: int, i': int, j': int)
    requires IsFeature(i) && IsFeature(j) && IsFeature(i') && IsFeature(j')
    requires Pos(i, j) == Pos(i', j')
    ensures i == i' && j == j'
  {
  }

  /** Distinct off-diagonal cells consume distinct draws. */
  lemma DrawIndexInjective(i: int, j: int, i': int, j': int)
    requires IsFeature(i) && IsFeature(j) && i != j
    requires IsFeature(i') && IsFeature(j') && i' != j'
    requires DrawIndex(i, j) == DrawIndex(i', j')
    ensures i == i' && j == j'
  {
  }

  /** The fresh correlation `Math.random() * 0.8 - 0.2` of the off-diagonal cell (i, j). */
  function FreshCorr(rs: seq<Draw>, i: int, j: int): (c: real)
    requires |rs| >= CorrelationDraws
    requires IsFeature(i) && IsFeature(j) && i != j
    ensures -0.2 <= c < 0.6
    ensures c == 0.0 <==> rs[DrawIndex(i, j)] == 0.25
  {
    var r: real := rs[DrawIndex(i, j)];
    r * 0.8 - 0.2
  }

  /** JavaScript's `a || b` on numbers: `a` unless `a` is falsy (0), else `b`. */
  function OrElse(a: real, b: real): (c: real)
    ensures a != 0.0 ==> c == a
    ensures a == 0.0 ==> c == b
  {
    if a != 0.0 then a else b
  }

  /**
    The value the source stores at (i, j), as written: the cell above the diagonal
    that mirrors (i, j) holds a fresh draw, and the `||` fallback replaces a mirrored
    value of 0 by the lower cell's own fresh draw.
   */
  function CorrValue(rs: seq<Draw>, i: int, j: int): (v: real)
    requires |rs| >= CorrelationDraws
    requires IsFeature(i) && IsFeature(j)
    ensures i == j ==> v == 1.0
    ensures i != j ==> -0.2 <= v < 0.6
  {
    if i == j then 1.0
    else if i < j then FreshCorr(rs, i, j)
    else OrElse(FreshCorr(rs, j, i), FreshCorr(rs, i, j))
  }

  /** The record the source pushes for the pair (i, j). */
  function CellAt(rs: seq<Draw>, i: int, j: int): Cell
    requires |rs| >= CorrelationDraws
    requires IsFeature(i) && IsFeature(j)
  {
    Cell(i, j, Features[i], Features[j], CorrValue(rs, i, j))
  }

  predicate Matches(c: Cell, x: int, y: int) {
    c.x == x && c.y == y
  }

  /** `data.find(d => d.x === x && d.y === y)`: the first matching cell, if any. */
  function FirstMatch(data: seq<Cell>, x: int, y: int): (found: Option<Cell>)
    ensures found.Some? ==> found.value in data && Matches(found.value, x, y)
    ensures found.None? <==> forall k :: 0 <= k < |data| ==> !Matches(data[k], x, y)
    ensures found.Some? ==>
      exists k :: (0 <= k < |data| && data[k] == found.value &&
                   forall l :: 0 <= l < k ==> !Matches(data[l], x, y))
    decreases |data|
  {
    if data == [] then None
    else if Matches(data[0], x, y) then Some(data[0])
    else
      var rest := FirstMatch(data[1..], x, y);
      assert forall k :: 1 <= k < |data| ==> data[k] == data[1..][k - 1];
      assert rest.Some? ==>
        exists k :: (1 <= k < |data| && data[k] == rest.value &&
                     forall l :: 0 <= l < k ==> !Matches(data[l], x, y));
      rest
  }

  /** The linear search behind `Array.find`. */
  method Find(data: seq<Cell>, x: int, y: int) returns (found: Option<Cell>)
    ensures found == FirstMatch(data, x, y)
  {
    var k := 0;
    while k < |data|
      invariant 0 <= k <= |data|
      invariant FirstMatch(data, x, y) == FirstMatch(data[k..], x, y)
    {
      if Matches(data[k], x, y) {
        return Some(data[k]);
      }
      assert data[k..][1..] == data[k + 1..];
      k := k + 1;
    }
    return None;
  }

  /** Every cell pushed so far sits at the position of its own pair and holds that pair's record. */
  ghost predicate Prefix(rs: seq<Draw>, data: seq<Cell>)
    requires |rs| >= CorrelationDraws
  {
    forall k :: 0 <= k < |data| ==>
      IsFeature(data[k].x) && IsFeature(data[k].y) && Pos(data[k].x, data[k].y) == k &&
      data[k] == CellAt(rs, data[k].x, data[k].y)
  }

  /**
    One step of the inner loop: the cell of pair (i, j), computed from the cells
    already pushed and the draws not yet consumed, and the new draw cursor.
   */
  method BuildCell(rs: seq<Draw>, data: seq<Cell>, i: int, j: int, next: nat) returns (cell: Cell, next': nat)
    requires |rs| >= CorrelationDraws
    requires IsFeature(i) && IsFeature(j)
    requires |data| == Pos(i, j) && Prefix(rs, data)
    requires next == DrawIndex(i, j)
    ensures cell == CellAt(rs, i, j)
    ensures next' == next + (if i == j then 0 else 1)
  {
    var corr: real;
    next' := next;
    if i == j {
      corr := 1.0;
    } else {
      var r: real := rs[next'];
      corr := r * 0.8 - 0.2;
      next' := next' + 1;
    }
    if i > j {
      ghost var mirrored := data[Pos(j, i)];
      PosInjective(mirrored.x, mirrored.y, j, i);
      var found := Find(data, j, i);
      // The mirrored cell was pushed earlier, so `find` always succeeds here.
      assert found.Some?;
      corr := if found.Some? && found.value.value != 0.0 then found.value.value else corr;
    }
    cell := Cell(i, j, Features[i], Features[j], corr);
  }

  /**
    `generateCorrelationData`: returns the 64 cells in row-major order, each with its
    coordinates, its two feature labels and the value `CorrValue` gives, together
    with the feature list.
   */
  method CorrelationData(rs: seq<Draw>) returns (data: seq<Cell>, features: seq<string>)
    requires |rs| >= CorrelationDraws
    ensures features == Features
    ensures |data| == |Features| * |Features|
    ensures forall i, j :: IsFeature(i) && IsFeature(j) ==> data[Pos(i, j)] == CellAt(rs, i, j)
  {
    features := Features;
    data := [];
    var next := 0;
    for i := 0 to |features|
      invariant |data| == Pos(i, 0)
      invariant next == i * (|Features| - 1)
      invariant Prefix(rs, data)
    {
      for j := 0 to |features|
        invariant |data| == Pos(i, j)
        invariant next == i * (|Features| - 1) + j - (if j > i then 1 else 0)
        invariant Prefix(rs, data)
      {
        var cell;
        cell, next := BuildCell(rs, data, i, j, next);
        data := data + [cell];
      }
    }
    forall i, j | IsFeature(i) && IsFeature(j)
      ensures data[Pos(i, j)] == CellAt(rs, i, j)
    {
      var c := data[Pos(i, j)];
      PosInjective(c.x, c.y, i, j);
    }
  }

  /** For i > j the stored value is the mirrored one unless that is 0, and then the fresh draw. */
  lemma LowerCellMirrorsUnlessZero(rs: seq<Draw>, i: int, j: int)
    requires |rs| >= CorrelationDraws
    requires IsFeature(i) && IsFeature(j) && i > j
    ensures CorrValue(rs, j, i) != 0.0 ==> CorrValue(rs, i, j) == CorrValue(rs, j, i)
    ensures CorrValue(rs, j, i) == 0.0 ==> CorrValue(rs, i, j) == FreshCorr(rs, i, j)
  {
  }

  /** No draw of an upper cell is exactly 0.25, the one draw that stores a 0. */
  ghost predicate NoZeroUpperCell(rs: seq<Draw>)
    requires |rs| >= CorrelationDraws
  {
    forall i, j :: IsFeature(i) && IsFeature(j) && i < j ==> rs[DrawIndex(i, j)] != 0.25
  }

  /** When no upper cell stores 0, the matrix as written is symmetric. */
  lemma {:induction false} SymmetricUnlessZeroUpperCell(rs: seq<Draw>)
    requires |rs| >= CorrelationDraws
    requires NoZeroUpperCell(rs)
    ensures forall i, j :: IsFeature(i) && IsFeature(j) ==> CorrValue(rs, i, j) == CorrValue(rs, j, i)
  {
    forall i, j | IsFeature(i) && IsFeature(j)
      ensures CorrValue(rs, i, j) == CorrValue(rs, j, i)
    {
      if i < j {
        assert FreshCorr(rs, i, j) != 0.0;
      } else if j < i {
        assert FreshCorr(rs, j, i) != 0.0;
      }
    }
  }

  /** A stream whose first draw is 0.25 and whose other draws are 0.5. */
  function QuarterFirstDraws(): (rs: seq<Draw>)
    ensures |rs| == CorrelationDraws
    ensures rs[DrawIndex(0, 1)] == 0.25
    ensures rs[DrawIndex(1, 0)] == 0.5
  {
    seq(CorrelationDraws, k => if k == 0 then 0.25 else 0.5)
  }

  /**
    The `||` fallback breaks symmetry: when the draw of cell (0, 1) is 0.25, that cell
    stores 0, and cell (1, 0) keeps its own fresh draw (here 0.2) instead of mirroring it.
   */
  lemma ZeroUpperCellBreaksSymmetry()
    ensures CorrValue(QuarterFirstDraws(), 0, 1) == 0.0
    ensures CorrValue(QuarterFirstDraws(), 1, 0) == 0.2
    ensures CorrValue(QuarterFirstDraws(), 1, 0) != CorrValue(QuarterFirstDraws(), 0, 1)
  {
    var rs := QuarterFirstDraws();
    assert FreshCorr(rs, 0, 1) == 0.0;
    assert FreshCorr(rs, 1, 0) == 0.2;
  }

  /**
    The evidently intended value: the mirrored cell is always found (it was pushed
    earlier), so with a nullish fallback (`??`) it would always be reused.
   */
  function IntendedCorrValue(rs: seq<Draw>, i: int, j: int): (v: real)
    requires |rs| >= CorrelationDraws
    requires IsFeature(i) && IsFeature(j)
    ensures i == j ==> v == 1.0
    ensures i != j ==> -0.2 <= v < 0.6
  {
    if i == j then 1.0
    else if i < j then FreshCorr(rs, i, j)
    else FreshCorr(rs, j, i)
  }

  /** The intended matrix is symmetric for every stream of draws. */
  lemma IntendedIsSymmetric(rs: seq<Draw>, i: int, j: int)
    requires |rs| >= CorrelationDraws
    requires IsFeature(i) && IsFeature(j)
    ensures IntendedCorrValue(rs, i, j) == IntendedCorrValue(rs, j, i)
  {
  }

  /**
    A lower cell (i > j) deviates from the intended value exactly when the draw of its
    mirrored upper cell is 0.25 and its own draw is not.
   */
  lemma AsWrittenMatchesIntended(rs: seq<Draw>, i: int, j: int)
    requires |rs| >= CorrelationDraws
    requires IsFeature(i) && IsFeature(j) && i > j
    ensures CorrValue(rs, i, j) == IntendedCorrValue(rs, i, j) <==>
      (rs[DrawIndex(j, i)] != 0.25 || rs[DrawIndex(i, j)] == 0.25)
  {
  }
}
