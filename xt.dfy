/** The expected-threat stage of the newer revision (the `xT` function): the rows
    with all four coordinates are kept, each coordinate column is scaled to
    metres and cut into as many equal-width bins as the threat grid has columns
    (x) or rows (y), and each kept row is valued as the threat of its end zone
    minus the threat of its start zone. The stage is generic in the row type, so
    that pass rows and set-piece rows go through the same code. */
module Threat {
  import opened Feed

  /** The four coordinate columns xT reads from a row. */
  datatype Span = Span(x: Option<real>, y: Option<real>, endX: Option<real>, endY: Option<real>) {
    /** `dropna(subset=[...])` keeps the row. */
    predicate Complete() {
      x.Some? && y.Some? && endX.Some? && endY.Some?
    }
  }

  /** `pd.cut(column, bins=n, labels=False)`: a bin label for every value of a
      column. How pandas places the bin edges is not modelled. */
  type Cut = (seq<real>, nat) -> seq<nat>

  /** What the stage relies on from pd.cut: one label per value, each naming
      one of the `n` bins. */
  ghost predicate LabelsInRange(cut: Cut) {
    forall col: seq<real>, n: nat {:trigger cut(col, n)} | 0 < n && 0 < |col| ::
      |cut(col, n)| == |col| && forall k | 0 <= k < |col| :: cut(col, n)[k] < n
  }

  /** The threat grid `xTGrid.json`: a non-empty rectangular table of values,
      indexed by row (y bin) and then column (x bin). */
  predicate Rectangular(grid: seq<seq<real>>) {
    |grid| > 0 && |grid[0]| > 0 && forall i | 0 <= i < |grid| :: |grid[i]| == |grid[0]|
  }

  /** The indices of the rows `dropna` keeps, in frame order. */
  function Kept<R>(rows: seq<R>, span: R -> Span): (kept: seq<nat>)
    ensures forall k | 0 <= k < |kept| :: kept[k] < |rows| && span(rows[kept[k]]).Complete()
    ensures forall i | 0 <= i < |rows| && span(rows[i]).Complete() :: i in kept
    ensures forall k, l | 0 <= k < l < |kept| :: kept[k] < kept[l]
  {
    if rows == [] then []
    else
      var n := |rows| - 1;
      var front := Kept(rows[..n], span);
      assert forall i | 0 <= i < n :: rows[..n][i] == rows[i];
      if span(rows[n]).Complete() then front + [n] else front
  }

  /** The four scaled columns: x and endX times 1.05, y and endY times 0.68,
      which takes [0, 100] onto a 105 m by 68 m pitch. */
  datatype Axis = StartX | StartY | EndX | EndY {
    function Scale(): real {
      if this == StartX || this == EndX then 1.05 else 0.68
    }

    /** How many bins pd.cut makes on this axis: the grid's columns for x,
        its rows for y. */
    function BinCount(grid: seq<seq<real>>): (n: nat)
      requires Rectangular(grid)
      ensures n > 0
    {
      if this == StartX || this == EndX then |grid[0]| else |grid|
    }

    function Of(s: Span): real
      requires s.Complete()
    {
      match this
      case StartX => s.x.value
      case StartY => s.y.value
      case EndX => s.endX.value
      case EndY => s.endY.value
    }
  }

  /** One scaled column over the kept rows. */
  function ScaledColumn<R>(rows: seq<R>, span: R -> Span, kept: seq<nat>, a: Axis): (col: seq<real>)
    requires forall k | 0 <= k < |kept| :: kept[k] < |rows| && span(rows[kept[k]]).Complete()
    ensures |col| == |kept|
    ensures forall k | 0 <= k < |kept| :: col[k] == a.Scale() * a.Of(span(rows[kept[k]]))
  {
    seq(|kept|, k requires 0 <= k < |kept| => a.Scale() * a.Of(span(rows[kept[k]])))
  }

  /** The bin pd.cut gives the k-th kept row's scaled coordinate on one axis. */
  function Label<R>(rows: seq<R>, span: R -> Span, kept: seq<nat>, grid: seq<seq<real>>, cut: Cut,
                    a: Axis, k: nat): (l: nat)
    requires Rectangular(grid) && LabelsInRange(cut) && k < |kept|
    requires forall k | 0 <= k < |kept| :: kept[k] < |rows| && span(rows[kept[k]]).Complete()
    ensures l < a.BinCount(grid)
  {
    var col := ScaledColumn(rows, span, kept, a);
    assert |cut(col, a.BinCount(grid))| == |col|;
    cut(col, a.BinCount(grid))[k]
  }

  /** The start and end bins of one row. */
  datatype Zones = Zones(x1: nat, y1: nat, x2: nat, y2: nat) {
    predicate InGrid(grid: seq<seq<real>>)
      requires Rectangular(grid)
    {
      x1 < |grid[0]| && x2 < |grid[0]| && y1 < |grid| && y2 < |grid|
    }

    /** `xT[y2][x2] - xT[y1][x1]`. */
    function Gain(grid: seq<seq<real>>): real
      requires Rectangular(grid) && InGrid(grid)
    {
      grid[y2][x2] - grid[y1][x1]
    }
  }

  /** The k-th kept row's zones: the cells its scaled start and end points
      fall in. */
  function ZoneOf<R>(rows: seq<R>, span: R -> Span, kept: seq<nat>, grid: seq<seq<real>>, cut: Cut,
                     k: nat): (z: Zones)
    requires Rectangular(grid) && LabelsInRange(cut) && k < |kept|
    requires forall k | 0 <= k < |kept| :: kept[k] < |rows| && span(rows[kept[k]]).Complete()
    ensures z.InGrid(grid)
  {
    Zones(Label(rows, span, kept, grid, cut, StartX, k), Label(rows, span, kept, grid, cut, StartY, k),
          Label(rows, span, kept, grid, cut, EndX, k), Label(rows, span, kept, grid, cut, EndY, k))
  }

  /** A kept row with its original frame index and its `xT` column. */
  datatype Valued<R> = Valued(index: nat, row: R, xT: real)

  /** What an operation returns: the projected rows, or with `with_xT` the
      kept rows with their xT values. */
  datatype Frame<R> = Plain(rows: seq<R>) | WithXT(valued: seq<Valued<R>>)

  /** The four bin columns `x1_bin`, `y1_bin`, `x2_bin`, `y2_bin`. */
  datatype Bins = Bins(x1: seq<nat>, y1: seq<nat>, x2: seq<nat>, y2: seq<nat>) {
    /** One label per kept row, each naming a cell of the grid. */
    predicate Fit(n: nat, grid: seq<seq<real>>)
      requires Rectangular(grid)
    {
      |x1| == n && |y1| == n && |x2| == n && |y2| == n &&
      forall k | 0 <= k < n :: Zones(x1[k], y1[k], x2[k], y2[k]).InGrid(grid)
    }

    function Zone(k: nat): Zones
      requires k < |x1| && k < |y1| && k < |x2| && k < |y2|
    {
      Zones(x1[k], y1[k], x2[k], y2[k])
    }
  }

  /** The kept rows' scaled columns cut into `xT_cols` bins (x) and `xT_rows`
      bins (y) of the grid. */
  function BinsOf<R>(rows: seq<R>, span: R -> Span, kept: seq<nat>, grid: seq<seq<real>>, cut: Cut): (b: Bins)
    requires Rectangular(grid) && LabelsInRange(cut) && |kept| > 0
    requires forall k | 0 <= k < |kept| :: kept[k] < |rows| && span(rows[kept[k]]).Complete()
    ensures b.Fit(|kept|, grid)
    ensures forall k | 0 <= k < |kept| :: b.Zone(k) == ZoneOf(rows, span, kept, grid, cut, k)
  {
    var w, h := |grid[0]|, |grid|;
    Bins(cut(ScaledColumn(rows, span, kept, StartX), w),
         cut(ScaledColumn(rows, span, kept, StartY), h),
         cut(ScaledColumn(rows, span, kept, EndX), w),
         cut(ScaledColumn(rows, span, kept, EndY), h))
  }

  /** The xT column: the zone gain, forced to 0 on a row whose receiver is
      null when the frame has a receiver column (`receiver` is None when it
      has none). */
  function Threat<R>(row: R, receiver: Option<R -> Option<int>>, grid: seq<seq<real>>, z: Zones): real
    requires Rectangular(grid) && z.InGrid(grid)
  {
    if receiver.Some? && receiver.value(row).None? then 0.0 else z.Gain(grid)
  }

  /** Each valued row's xT is the threat of its end cell minus that of its
      start cell, both read from `b`, or 0 under the receiver override. */
  ghost predicate ValuedBy<R>(valued: seq<Valued<R>>, receiver: Option<R -> Option<int>>,
                              grid: seq<seq<real>>, b: Bins)
    requires Rectangular(grid) && b.Fit(|valued|, grid)
  {
    forall k | 0 <= k < |valued| ::
      valued[k].xT == if receiver.Some? && receiver.value(valued[k].row).None? then 0.0
                      else grid[b.y2[k]][b.x2[k]] - grid[b.y1[k]][b.x1[k]]
  }

  /** The kept rows, each with its frame index and xT value. */
  function Valuation<R>(rows: seq<R>, kept: seq<nat>, receiver: Option<R -> Option<int>>,
                        grid: seq<seq<real>>, b: Bins): (valued: seq<Valued<R>>)
    requires Rectangular(grid) && b.Fit(|kept|, grid)
    requires forall k | 0 <= k < |kept| :: kept[k] < |rows|
    ensures |valued| == |kept|
    ensures forall k | 0 <= k < |kept| :: valued[k].index == kept[k] && valued[k].row == rows[kept[k]]
    ensures ValuedBy(valued, receiver, grid, b)
  {
    seq(|kept|, k requires 0 <= k < |kept| =>
      Valued(kept[k], rows[kept[k]], Threat(rows[kept[k]], receiver, grid, b.Zone(k))))
  }

  /** The valued rows are exactly the rows with all four coordinates, each
      with its own frame index, in frame order. */
  ghost predicate KeepsComplete<R>(valued: seq<Valued<R>>, rows: seq<R>, span: R -> Span) {
    (forall k | 0 <= k < |valued| ::
       valued[k].index < |rows| && valued[k].row == rows[valued[k].index] &&
       span(valued[k].row).Complete()) &&
    (forall i | 0 <= i < |rows| && span(rows[i]).Complete() ::
       exists k | 0 <= k < |valued| :: valued[k].index == i) &&
    (forall k, l | 0 <= k < l < |valued| :: valued[k].index < valued[l].index)
  }

  lemma ValuedKeepsComplete<R>(rows: seq<R>, span: R -> Span, kept: seq<nat>, valued: seq<Valued<R>>)
    requires kept == Kept(rows, span)
    requires |valued| == |kept|
    requires forall k | 0 <= k < |kept| :: valued[k].index == kept[k] && valued[k].row == rows[kept[k]]
    ensures KeepsComplete(valued, rows, span)
  {
  }

  /** The whole stage. pd.cut refuses an empty column, so a frame in which
      no row has all four coordinates fails. */
  function XTSpec<R>(rows: seq<R>, span: R -> Span, receiver: Option<R -> Option<int>>,
                     grid: seq<seq<real>>, cut: Cut): (r: Result<seq<Valued<R>>>)
    requires Rectangular(grid) && LabelsInRange(cut)
    ensures r.Failure? <==> forall i | 0 <= i < |rows| :: !span(rows[i]).Complete()
    ensures r.Failure? ==> r.error == EmptyBinning
    ensures r.Success? ==> KeepsComplete(r.value, rows, span)
    ensures r.Success? ==>
              |r.value| == |Kept(rows, span)| > 0 &&
              ValuedBy(r.value, receiver, grid, BinsOf(rows, span, Kept(rows, span), grid, cut))
  {
    var kept := Kept(rows, span);
    if |kept| == 0 then
      Failure(EmptyBinning)
    else
      assert span(rows[kept[0]]).Complete();
      var valued := Valuation(rows, kept, receiver, grid, BinsOf(rows, span, kept, grid, cut));
      ValuedKeepsComplete(rows, span, kept, valued);
      Success(valued)
  }

  /** `df.dropna(subset=['x_xT', 'y_xT', 'endX_xT', 'endY_xT'])`, as indices. */
  method DropIncomplete<R>(rows: seq<R>, span: R -> Span) returns (kept: seq<nat>)
    ensures kept == Kept(rows, span)
  {
    kept := [];
    for i := 0 to |rows|
      invariant kept == Kept(rows[..i], span)
    {
      assert rows[..i + 1][..i] == rows[..i];
      if span(rows[i]).Complete() {
        kept := kept + [i];
      }
    }
    assert rows[..|rows|] == rows;
  }

  /** The row-wise `apply` that looks up both zones, and the receiver override. */
  method ValueRows<R>(rows: seq<R>, kept: seq<nat>, receiver: Option<R -> Option<int>>,
                      grid: seq<seq<real>>, b: Bins) returns (valued: seq<Valued<R>>)
    requires Rectangular(grid) && b.Fit(|kept|, grid)
    requires forall k | 0 <= k < |kept| :: kept[k] < |rows|
    ensures valued == Valuation(rows, kept, receiver, grid, b)
  {
    ghost var spec := Valuation(rows, kept, receiver, grid, b);
    valued := [];
    for k := 0 to |kept|
      invariant valued == spec[..k]
    {
      var row := rows[kept[k]];
      var value := if receiver.Some? && receiver.value(row).None? then 0.0 else b.Zone(k).Gain(grid);
      valued := valued + [Valued(kept[k], row, value)];
    }
    assert spec[..|kept|] == spec;
  }

  /** The xT stage as the newer revision runs it: drop the incomplete rows,
      scale and cut the four columns, then value each kept row. */
  method XT<R>(rows: seq<R>, span: R -> Span, receiver: Option<R -> Option<int>>,
               grid: seq<seq<real>>, cut: Cut) returns (r: Result<seq<Valued<R>>>)
    requires Rectangular(grid) && LabelsInRange(cut)
    ensures r == XTSpec(rows, span, receiver, grid, cut)
  {
    var kept := DropIncomplete(rows, span);
    if |kept| == 0 {
      return Failure(EmptyBinning);
    }
    var b := BinsOf(rows, span, kept, grid, cut);
    var valued := ValueRows(rows, kept, receiver, grid, b);
    return Success(valued);
  }

  /** The frame an operation returns: with `with_xT` the result of the stage,
      otherwise the rows as they are. */
  function Framed<R>(rows: seq<R>, withXT: bool, span: R -> Span, receiver: Option<R -> Option<int>>,
                     grid: seq<seq<real>>, cut: Cut): Result<Frame<R>>
    requires Rectangular(grid) && LabelsInRange(cut)
  {
    if !withXT then Success(Plain(rows))
    else
      match XTSpec(rows, span, receiver, grid, cut)
      case Success(valued) => Success(WithXT(valued))
      case Failure(e) => Failure(e)
  }

  /** Row k of the result is the k-th kept row, valued as the threat of the
      cell pd.cut puts its scaled end point in minus that of the cell of its
      scaled start point, except that a row with a null receiver in a frame
      that has the column gets 0. */
  lemma XTValues<R>(rows: seq<R>, span: R -> Span, receiver: Option<R -> Option<int>>,
                    grid: seq<seq<real>>, cut: Cut)
    requires Rectangular(grid) && LabelsInRange(cut)
    requires XTSpec(rows, span, receiver, grid, cut).Success?
    ensures var valued := XTSpec(rows, span, receiver, grid, cut).value;
            var kept := Kept(rows, span);
            |valued| == |kept| &&
            forall k | 0 <= k < |valued| ::
              valued[k].row == rows[kept[k]] &&
              valued[k].xT == if receiver.Some? && receiver.value(valued[k].row).None? then 0.0
                              else ZoneOf(rows, span, kept, grid, cut, k).Gain(grid)
  {
    var kept := Kept(rows, span);
    var b := BinsOf(rows, span, kept, grid, cut);
    var valued := XTSpec(rows, span, receiver, grid, cut).value;
    assert valued == Valuation(rows, kept, receiver, grid, b);
  }

  /** With the grid's values in [0, top], every xT value lies in [-top, top]. */
  lemma XTBounded<R>(rows: seq<R>, span: R -> Span, receiver: Option<R -> Option<int>>,
                     grid: seq<seq<real>>, cut: Cut, top: real)
    requires Rectangular(grid) && LabelsInRange(cut)
    requires forall i, j | 0 <= i < |grid| && 0 <= j < |grid[i]| :: 0.0 <= grid[i][j] <= top
    requires XTSpec(rows, span, receiver, grid, cut).Success?
    ensures forall v | v in XTSpec(rows, span, receiver, grid, cut).value :: -top <= v.xT <= top
  {
    var b := BinsOf(rows, span, Kept(rows, span), grid, cut);
    var valued := XTSpec(rows, span, receiver, grid, cut).value;
    assert 0.0 <= top by {
      assert 0.0 <= grid[0][0] <= top;
    }
    forall k | 0 <= k < |valued|
      ensures -top <= valued[k].xT <= top
    {
      GainBounded(grid, b.Zone(k), top);
    }
  }

  lemma GainBounded(grid: seq<seq<real>>, z: Zones, top: real)
    requires Rectangular(grid) && z.InGrid(grid)
    requires forall i, j | 0 <= i < |grid| && 0 <= j < |grid[i]| :: 0.0 <= grid[i][j] <= top
    ensures -top <= z.Gain(grid) <= top
  {
  }
}
