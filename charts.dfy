/** The chart composer: `make_original_figure`, `make_accumulated_figure` and
    the older `make_figure`. Each figure is the list of traces added to an
    empty figure, one per expected series that the table has, in the order
    `지수`, `외국인`, `개인`, `기관종합`. Layout and line styling are not part
    of the model. */
module Charts {
  import opened Wrappers
  import opened Frames
  import opened Projection
  import opened Selection

  /** The left-axis series. */
  const INDEX_SERIES: string := "지수"
  /** The right-axis series, in the order the builders visit them. */
  const RIGHT_SERIES: seq<string> := ["외국인", "개인", "기관종합"]
  const EXPECTED_SERIES: seq<string> := [INDEX_SERIES] + RIGHT_SERIES

  /** `SERIES_COLORS` */
  const SERIES_COLORS: map<string, string> :=
    map["지수" := "#1f77b4", "외국인" := "#2ecc71", "개인" := "#e74c3c", "기관종합" := "#3498db"]

  /** Appended to a right-axis trace name in the accumulated views. */
  const ACCUMULATED_SUFFIX: string := " (누적)"

  datatype Axis = Y | Y2

  /** Which builder: `make_original_figure`, `make_accumulated_figure` or `make_figure`. */
  datatype View = RawView | AccumulatedView | CombinedView

  /** The y data of a trace: the column as read, or a numeric series. */
  datatype YData = Cells(cells: seq<Cell>) | Numbers(values: seq<Option<int>>)

  /** A `go.Scatter` trace: legend name, y axis, x data (`df.get("날짜")`),
      y data and explicit line colour (None: the charting library's default). */
  datatype Trace = Trace(name: string, axis: Axis, x: Option<seq<Cell>>, y: YData, color: Option<string>)

  type Figure = seq<Trace>

  /** The trace a builder adds for a series the table has. */
  function SeriesTrace(t: Table, name: string, view: View): (r: Trace)
    requires WellFormed(t) && HasColumn(t, name) && name in SERIES_COLORS
    ensures r.x == GetColumn(t, DATE_COLUMN)
    ensures r.axis == Y <==> name == INDEX_SERIES
    ensures r.name == name <==> name == INDEX_SERIES || view == RawView
    ensures r.color.None? <==> name == INDEX_SERIES || view == CombinedView
    ensures r.color.Some? ==> r.color.value == SERIES_COLORS[name]
  {
    var x := GetColumn(t, DATE_COLUMN);
    var col := Column(t, name);
    if name == INDEX_SERIES then
      Trace(name, Y, x, Cells(col), None)
    else
      match view
      case RawView => Trace(name, Y2, x, Numbers(ToNumeric(col)), Some(SERIES_COLORS[name]))
      case AccumulatedView =>
        Trace(name + ACCUMULATED_SUFFIX, Y2, x, Numbers(Accumulated(col)), Some(SERIES_COLORS[name]))
      case CombinedView => Trace(name + ACCUMULATED_SUFFIX, Y2, x, Numbers(Accumulated(col)), None)
  }

  /** Which of `names` are columns of `t`. */
  function PresenceMask(t: Table, names: seq<string>): (m: seq<bool>)
    ensures |m| == |names|
    ensures forall i :: 0 <= i < |names| ==> (m[i] <==> HasColumn(t, names[i]))
  {
    seq(|names|, i requires 0 <= i < |names| => HasColumn(t, names[i]))
  }

  /** The series of `names` that `t` has, in the order of `names`. */
  function Present(t: Table, names: seq<string>): seq<string> {
    Select(names, PresenceMask(t, names))
  }

  /** The traces for the present series among `names`, absent ones skipped. */
  function TracesFor(t: Table, names: seq<string>, view: View): (fig: Figure)
    requires WellFormed(t)
    requires forall n :: n in names ==> n in SERIES_COLORS
  {
    var p := Present(t, names);
    SelectMembersAll(names, PresenceMask(t, names));
    seq(|p|, i requires 0 <= i < |p| => SeriesTrace(t, p[i], view))
  }

  /** Every series selected from `names` is in `names` and is a column of `t`. */
  lemma SelectMembersAll(names: seq<string>, mask: seq<bool>)
    requires |mask| == |names|
    ensures forall i :: 0 <= i < |Select(names, mask)| ==>
      Select(names, mask)[i] in names && mask[KeptIndices(mask)[i]]
  {
  }

  /** The figure a builder returns. */
  function FigureFor(t: Table, view: View): (fig: Figure)
    requires WellFormed(t)
    ensures |fig| <= |EXPECTED_SERIES|
    ensures forall i :: 0 <= i < |fig| ==> fig[i].x == GetColumn(t, DATE_COLUMN)
  {
    KeptIndicesBound(PresenceMask(t, EXPECTED_SERIES));
    TracesFor(t, EXPECTED_SERIES, view)
  }

  lemma TracesForSnoc(t: Table, names: seq<string>, n: string, view: View)
    requires WellFormed(t)
    requires forall m :: m in names ==> m in SERIES_COLORS
    requires n in SERIES_COLORS
    ensures TracesFor(t, names + [n], view) ==
      TracesFor(t, names, view) + (if HasColumn(t, n) then [SeriesTrace(t, n, view)] else [])
  {
    assert PresenceMask(t, names + [n]) == PresenceMask(t, names) + [HasColumn(t, n)];
    SelectSnoc(names, PresenceMask(t, names), n, HasColumn(t, n));
  }

  /** The first `k + 2` expected series are the first `k + 1` and the
      right-axis series `k`; all of them have a colour entry. */
  lemma ExpectedPrefix(k: nat)
    requires k < |RIGHT_SERIES|
    ensures EXPECTED_SERIES[..k + 2] == EXPECTED_SERIES[..k + 1] + [RIGHT_SERIES[k]]
    ensures forall n :: n in EXPECTED_SERIES[..k + 1] ==> n in SERIES_COLORS
    ensures RIGHT_SERIES[k] in SERIES_COLORS && RIGHT_SERIES[k] != INDEX_SERIES
  {
  }

  /** One pass of the right-axis loop: `if name in df.columns:
      fig.add_trace(...)` for the right-axis series `k`, whose trace is the
      coerced series, accumulated with a running total outside the raw view. */
  method AddRightTrace(t: Table, view: View, fig: Figure, k: nat) returns (next: Figure)
    requires WellFormed(t) && k < |RIGHT_SERIES|
    requires fig == TracesFor(t, EXPECTED_SERIES[..k + 1], view)
    ensures next == TracesFor(t, EXPECTED_SERIES[..k + 2], view)
  {
    var name := RIGHT_SERIES[k];
    ExpectedPrefix(k);
    TracesForSnoc(t, EXPECTED_SERIES[..k + 1], name, view);
    next := fig;
    if HasColumn(t, name) {
      var col := Column(t, name);
      var series: seq<Option<int>>;
      if view == RawView {
        series := ToNumeric(col);
      } else {
        series := RunningSum(FillNa(ToNumeric(col), 0));
      }
      var legend := if view == RawView then name else name + ACCUMULATED_SUFFIX;
      var color := if view == CombinedView then None else Some(SERIES_COLORS[name]);
      next := fig + [Trace(legend, Y2, GetColumn(t, DATE_COLUMN), Numbers(series), color)];
    }
  }

  /** The left-axis step: `지수`, if present, is the first trace. */
  method IndexTrace(t: Table, view: View) returns (fig: Figure)
    requires WellFormed(t)
    ensures fig == TracesFor(t, EXPECTED_SERIES[..1], view)
  {
    fig := [];
    assert EXPECTED_SERIES[..1] == [] + [INDEX_SERIES];
    TracesForSnoc(t, [], INDEX_SERIES, view);
    if HasColumn(t, INDEX_SERIES) {
      fig := fig + [Trace(INDEX_SERIES, Y, GetColumn(t, DATE_COLUMN), Cells(Column(t, INDEX_SERIES)), None)];
    }
  }

  /** The loops shared by the three builders: start from an empty figure, add
      `지수` on the left axis if present, then each right-axis series that is
      present, in order. */
  method BuildFigure(t: Table, view: View) returns (fig: Figure)
    requires WellFormed(t)
    ensures fig == FigureFor(t, view)
  {
    fig := IndexTrace(t, view);
    for k := 0 to |RIGHT_SERIES|
      invariant fig == TracesFor(t, EXPECTED_SERIES[..k + 1], view)
    {
      fig := AddRightTrace(t, view, fig, k);
    }
    assert EXPECTED_SERIES[..|RIGHT_SERIES| + 1] == EXPECTED_SERIES;
  }

  /** `make_original_figure`: every series raw. */
  method MakeOriginalFigure(t: Table) returns (fig: Figure)
    requires WellFormed(t)
    ensures fig == FigureFor(t, RawView)
  {
    fig := BuildFigure(t, RawView);
  }

  /** `make_accumulated_figure`: `지수` raw, the right-axis series accumulated. */
  method MakeAccumulatedFigure(t: Table) returns (fig: Figure)
    requires WellFormed(t)
    ensures fig == FigureFor(t, AccumulatedView)
  {
    fig := BuildFigure(t, AccumulatedView);
  }

  /** `make_figure`: as the accumulated figure, without explicit colours. */
  method MakeFigure(t: Table) returns (fig: Figure)
    requires WellFormed(t)
    ensures fig == FigureFor(t, CombinedView)
  {
    fig := BuildFigure(t, CombinedView);
  }

  /** `Present` picks, in order, the entries of `names` that are columns. */
  lemma PresentPicks(t: Table, names: seq<string>)
    ensures var p := Present(t, names);
      var k := KeptIndices(PresenceMask(t, names));
      && |p| == |k|
      && (forall i :: 0 <= i < |p| ==> k[i] < |names| && p[i] == names[k[i]] && HasColumn(t, p[i]))
      && (forall n :: n in p <==> n in names && HasColumn(t, n))
  {
    var mask := PresenceMask(t, names);
    forall n
      ensures n in Present(t, names) <==> n in names && HasColumn(t, n)
    {
      SelectMembers(names, mask, n);
    }
  }

  /** Position of an expected series in `EXPECTED_SERIES`. */
  function SeriesRank(n: string): (r: nat)
    requires n in EXPECTED_SERIES
    ensures r < |EXPECTED_SERIES| && EXPECTED_SERIES[r] == n
  {
    if n == INDEX_SERIES then 0 else if n == "외국인" then 1 else if n == "개인" then 2 else 3
  }

  /** The expected series are distinct. */
  lemma RankOfExpected(j: nat)
    requires j < |EXPECTED_SERIES|
    ensures SeriesRank(EXPECTED_SERIES[j]) == j
  {
  }

  /** Each figure has exactly one trace per expected series that is a column
      of the table, none for an absent one, in the order `지수`, `외국인`,
      `개인`, `기관종합`. */
  lemma FigureShowsPresentSeries(t: Table, view: View)
    requires WellFormed(t)
    ensures var p := Present(t, EXPECTED_SERIES);
      && |FigureFor(t, view)| == |p|
      && (forall n :: n in p <==> n in EXPECTED_SERIES && HasColumn(t, n))
      && (forall i, j :: 0 <= i < j < |p| ==> SeriesRank(p[i]) < SeriesRank(p[j]))
  {
    var p := Present(t, EXPECTED_SERIES);
    var k := KeptIndices(PresenceMask(t, EXPECTED_SERIES));
    PresentPicks(t, EXPECTED_SERIES);
    forall i | 0 <= i < |p|
      ensures SeriesRank(p[i]) == k[i]
    {
      RankOfExpected(k[i]);
    }
  }

  /** What a present series' trace shows: `지수` on axis `y` with the column
      as read and no explicit colour; a right-axis series on `y2`, raw and
      under its own name in the raw view, accumulated and suffixed ` (누적)`
      otherwise, coloured from `SERIES_COLORS` except in `make_figure`. Every
      trace's x data is the date column. */
  lemma TraceOfSeries(t: Table, view: View, i: nat)
    requires WellFormed(t) && i < |FigureFor(t, view)|
    ensures var n := Present(t, EXPECTED_SERIES)[i];
      var tr := FigureFor(t, view)[i];
      && n in EXPECTED_SERIES && HasColumn(t, n)
      && tr.x == GetColumn(t, DATE_COLUMN)
      && (n == INDEX_SERIES ==>
            tr.name == n && tr.axis == Y && tr.y == Cells(Column(t, n)) && tr.color == None)
      && (n != INDEX_SERIES ==>
            && tr.axis == Y2
            && tr.name == (if view == RawView then n else n + ACCUMULATED_SUFFIX)
            && tr.y == Numbers(if view == RawView then ToNumeric(Column(t, n)) else Accumulated(Column(t, n)))
            && tr.color == (if view == CombinedView then None else Some(SERIES_COLORS[n])))
  {
    FigureShowsPresentSeries(t, view);
    assert Present(t, EXPECTED_SERIES)[i] in Present(t, EXPECTED_SERIES);
  }

  /** Only `지수` is on the left axis, and when present it is the first trace. */
  lemma IndexAloneOnLeftAxis(t: Table, view: View)
    requires WellFormed(t)
    ensures forall i :: 0 <= i < |FigureFor(t, view)| ==>
      (FigureFor(t, view)[i].axis == Y <==> i == 0 && HasColumn(t, INDEX_SERIES))
  {
    var p := Present(t, EXPECTED_SERIES);
    var mask := PresenceMask(t, EXPECTED_SERIES);
    var k := KeptIndices(mask);
    PresentPicks(t, EXPECTED_SERIES);
    forall i | 0 <= i < |p|
      ensures FigureFor(t, view)[i].axis == Y <==> i == 0 && HasColumn(t, INDEX_SERIES)
    {
      RankOfExpected(k[i]);
      assert FigureFor(t, view)[i] == SeriesTrace(t, p[i], view);
      assert FigureFor(t, view)[i].axis == Y <==> k[i] == 0;
      if i == 0 && HasColumn(t, INDEX_SERIES) {
        assert mask[0];
        assert 0 in k;
      }
      if i > 0 {
        assert k[0] < k[i];
      }
    }
  }

  /** The raw and the accumulated figure show the same series in the same
      order, on the same axes, with the same colours and the same x data; the
      accumulated trace of a right-axis series is the raw trace's values with
      missing ones filled with 0 and summed up, under the suffixed name, and
      the `지수` trace is the same in both. */
  lemma RawAndAccumulatedFiguresAgree(t: Table)
    requires WellFormed(t)
    ensures var raw := FigureFor(t, RawView);
      var acc := FigureFor(t, AccumulatedView);
      && |raw| == |acc|
      && forall i :: 0 <= i < |raw| ==>
        && acc[i].axis == raw[i].axis
        && acc[i].color == raw[i].color
        && acc[i].x == raw[i].x
        && (raw[i].axis == Y ==> acc[i] == raw[i])
        && (raw[i].axis == Y2 ==>
              && raw[i].y.Numbers?
              && acc[i].name == raw[i].name + ACCUMULATED_SUFFIX
              && acc[i].y == Numbers(CumSum(FillNa(raw[i].y.values, 0))))
  {
    FigureShowsPresentSeries(t, RawView);
    FigureShowsPresentSeries(t, AccumulatedView);
    forall i | 0 <= i < |FigureFor(t, RawView)|
      ensures Present(t, EXPECTED_SERIES)[i] in EXPECTED_SERIES
    {
      TraceOfSeries(t, RawView, i);
    }
  }

  /** Per series, the `make_figure` trace is the accumulated-view trace
      without its colour. */
  lemma CombinedTraceUncoloured(t: Table, n: string)
    requires WellFormed(t) && HasColumn(t, n) && n in SERIES_COLORS
    ensures SeriesTrace(t, n, CombinedView) == SeriesTrace(t, n, AccumulatedView).(color := None)
  {
  }

  /** `make_figure` is the accumulated figure without explicit colours. */
  lemma CombinedIsUncolouredAccumulated(t: Table)
    requires WellFormed(t)
    ensures var acc := FigureFor(t, AccumulatedView);
      FigureFor(t, CombinedView) == seq(|acc|, i requires 0 <= i < |acc| => acc[i].(color := None))
  {
    var p := Present(t, EXPECTED_SERIES);
    var acc := FigureFor(t, AccumulatedView);
    var comb := FigureFor(t, CombinedView);
    PresentPicks(t, EXPECTED_SERIES);
    forall i | 0 <= i < |p|
      ensures comb[i] == acc[i].(color := None)
    {
      assert comb[i] == SeriesTrace(t, p[i], CombinedView);
      assert acc[i] == SeriesTrace(t, p[i], AccumulatedView);
      CombinedTraceUncoloured(t, p[i]);
    }
  }
}
