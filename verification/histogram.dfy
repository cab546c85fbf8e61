/** The bar layout and severity colouring of `plot_histogram`: bin edges
    10, 20, ..., 400, every bar first green, then four overwrite passes.
    Python's list indexing is modelled exactly: a negative index counts
    from the end and one below -39 raises IndexError. */
module Histogram {
  import opened Results
  import Labels

  /** Face colour of one histogram bar. */
  datatype Colour = Green | Red | Orange

  /** The exception a colour pass can raise: `patches[index]` out of range. */
  datatype PlotError = IndexError(index: int)

  const FirstEdge: int := 10
  const LastEdge: int := 400
  const BinWidth: int := 10
  /** Number of bars `plt.hist` returns for the 40 edges. */
  const NumBins: nat := 39
  /** First bar of the high red zone; also the exclusive end of the border band. */
  const HighZone: nat := 19

  /** Lower edge of bin `k` (and upper edge of bin `k - 1`). */
  function Edge(k: int): int {
    FirstEdge + BinWidth * k
  }

  /** The edge list as a value. */
  function Edges(): seq<int> {
    seq(NumBins + 1, k => Edge(k))
  }

  /** The `while i <= 400` loop that collects the bin edges. */
  method BinEdges() returns (edges: seq<int>)
    ensures |edges| == NumBins + 1
    ensures edges[0] == FirstEdge && edges[NumBins] == LastEdge
    ensures forall k :: 0 <= k < NumBins ==> edges[k + 1] == edges[k] + BinWidth
    ensures forall k :: 0 <= k < |edges| ==> edges[k] == Edge(k)
  {
    edges := [];
    var i := 10;
    while i <= 400
      invariant i == Edge(|edges|) && i <= 410
      invariant forall k :: 0 <= k < |edges| ==> edges[k] == Edge(k)
      decreases 400 - i
    {
      edges := edges + [i];
      i := i + 10;
    }
  }

  /** Python's `int(b / 10)`: the quotient truncated toward zero. */
  function TruncDiv10(b: int): int {
    if b >= 0 then b / 10 else -((-b) / 10)
  }

  /** First index of the last pass, `range(int(border_value/10)-1, 19)`. */
  function BandStart(border: int): int {
    TruncDiv10(border) - 1
  }

  /** The bar a Python index `i` addresses in a list of `NumBins` bars, if any. */
  function PyIndex(i: int): Option<nat> {
    if 0 <= i < NumBins then Some(i)
    else if -(NumBins as int) <= i < 0 then Some(NumBins + i)
    else None
  }

  /** Colour of bar `k` after the first three passes (red 0..3, orange 4 and 5,
      red 19..38), before the border band is painted. */
  function StaticColour(k: int): Colour {
    if k < 4 then Red
    else if k < 6 then Orange
    else if k < HighZone then Green
    else Red
  }

  /** Whether the last pass, whose indices run from `start` up to 18, writes
      bar `k`: directly for a non-negative index, from the end for a negative one. */
  predicate InBand(k: int, start: int) {
    (start <= k < HighZone) || (start < 0 && NumBins + start <= k)
  }

  /** Closed form of the final colour of bar `k`: the band wins, otherwise
      the colour of the first three passes stays. */
  function FinalColour(k: int, border: int): Colour
    requires 0 <= k < NumBins
    requires BandStart(border) >= -(NumBins as int)
  {
    if InBand(k, BandStart(border)) then Orange else StaticColour(k)
  }

  /** All bar colours, or the IndexError the last pass raises when its first
      index is below -39. */
  function Paint(border: int): Result<seq<Colour>, PlotError> {
    if BandStart(border) < -(NumBins as int) then Err(IndexError(BandStart(border)))
    else Ok(seq(NumBins, k requires 0 <= k < NumBins => FinalColour(k, border)))
  }

  /** Bars written by the last pass once its index has advanced from `start` to `i`. */
  predicate Written(k: int, start: int, i: int) {
    (0 <= k && start <= k < i) || (start < 0 && NumBins + start <= k < NumBins + i)
  }

  /** The colouring as the source performs it: a 39-slot array, all green,
      updated in place by the four passes in order. */
  method PaintBins(border: int) returns (r: Result<seq<Colour>, PlotError>)
    ensures r == Paint(border)
  {
    var patches := new Colour[NumBins](_ => Green);
    var i := 0;
    while i < 4
      invariant 0 <= i <= 4
      invariant forall k :: 0 <= k < NumBins ==> patches[k] == (if k < i then Red else Green)
    {
      patches[i] := Red;
      i := i + 1;
    }
    patches[4] := Orange;
    patches[5] := Orange;
    i := HighZone;
    while i < NumBins
      invariant HighZone <= i <= NumBins
      invariant forall k :: 0 <= k < NumBins ==>
        patches[k] == (if HighZone <= k < i then Red
                       else if k < HighZone then StaticColour(k) else Green)
    {
      patches[i] := Red;
      i := i + 1;
    }
    var start := BandStart(border);
    i := start;
    while i < HighZone
      invariant start <= i
      invariant i <= if start <= HighZone then HighZone else start
      invariant i == start || start >= -(NumBins as int)
      invariant forall k :: 0 <= k < NumBins ==>
        patches[k] == (if Written(k, start, i) then Orange else StaticColour(k))
    {
      var slot := PyIndex(i);
      if slot.None? {
        assert i == start < -(NumBins as int);
        return Err(IndexError(i));
      }
      patches[slot.value] := Orange;
      i := i + 1;
    }
    assert start >= -(NumBins as int);
    assert forall k :: 0 <= k < NumBins ==> patches[k] == FinalColour(k, border);
    assert patches[..] == Paint(border).value;
    r := Ok(patches[..]);
  }

  /** The figure `plot_histogram` saves: the plotted values, edges, bar
      colours and title (bar heights are computed by the plotting library). */
  datatype Figure = Figure(values: seq<int>, edges: seq<int>, colours: seq<Colour>, title: string)

  /** `plot_histogram` without the drawing: the layout it sets up, or the
      exception it raises before saving. */
  function PlotHistogram(values: seq<int>, border: int, mode: int, startDate: string, endDate: string)
    : (r: Result<Figure, PlotError>)
    ensures r.Ok? <==> Paint(border).Ok?
    ensures r.Ok? ==> r.value.colours == Paint(border).value && r.value.edges == Edges()
  {
    match Paint(border)
    case Err(e) => Err(e)
    case Ok(cs) => Ok(Figure(values, Edges(), cs, Labels.Title(mode, startDate, endDate)))
  }
}
