/** The range filter of `update_figures` and the date span `create_app` reads
    off the loaded table. A row is in scope when its date part lies in
    [start, end]; time of day is ignored and a row without a valid date (NaT)
    is never in scope. */
module RangeFilter {
  import opened Wrappers
  import opened Frames
  import opened Selection
  import opened Charts

  /** The mask term of one row: `start <= d.date() <= end`, false for NaT. */
  predicate InRange(c: Cell, lo: Day, hi: Day) {
    c.Stamp? && lo <= c.t.day <= hi
  }

  function DateMask(dates: seq<Cell>, lo: Day, hi: Day): (m: seq<bool>)
    ensures |m| == |dates|
    ensures forall p :: 0 <= p < |dates| ==> (m[p] <==> InRange(dates[p], lo, hi))
  {
    seq(|dates|, p requires 0 <= p < |dates| => InRange(dates[p], lo, hi))
  }

  /** `df[mask]`: the rows whose mask entry is true, every column kept. */
  function FilterRows(t: Table, mask: seq<bool>): (r: Table)
    requires WellFormed(t) && |mask| == t.height
    ensures WellFormed(r) && r.labels == t.labels && |r.columns| == |t.columns|
    ensures r.height == |KeptIndices(mask)|
    ensures forall j, i :: 0 <= j < |t.columns| && 0 <= i < r.height ==>
      r.columns[j][i] == t.columns[j][KeptIndices(mask)[i]]
  {
    Table(t.labels,
          seq(|t.columns|, j requires 0 <= j < |t.columns| => Select(t.columns[j], mask)),
          |KeptIndices(mask)|)
  }

  /** What the filter needs from the table: the date column, whenever both
      bounds are given (`df["날짜"]` would raise otherwise). */
  predicate CanFilter(t: Table, start: Option<Timestamp>, end: Option<Timestamp>) {
    start.Some? && end.Some? ==> HasColumn(t, DATE_COLUMN)
  }

  /** The table `update_figures` builds both figures from. */
  function FilterByDate(t: Table, start: Option<Timestamp>, end: Option<Timestamp>): (r: Table)
    requires WellFormed(t) && CanFilter(t, start, end)
    ensures WellFormed(r) && r.labels == t.labels && |r.columns| == |t.columns|
    ensures r.height <= t.height
    ensures start.None? || end.None? ==> r == t
  {
    if start.Some? && end.Some? then
      var mask := DateMask(Column(t, DATE_COLUMN), start.value.day, end.value.day);
      KeptIndicesBound(mask);
      FilterRows(t, mask)
    else t
  }

  /** The rows in scope for the bounds `lo`, `hi` (date parts), in table order. */
  function RowsInScope(t: Table, lo: Day, hi: Day): seq<nat>
    requires WellFormed(t) && HasColumn(t, DATE_COLUMN)
  {
    KeptIndices(DateMask(Column(t, DATE_COLUMN), lo, hi))
  }

  /** With both bounds given, the filtered table keeps the labels and holds,
      in their original order, exactly the rows whose date part d satisfies
      start <= d <= end; a row with no valid date is dropped. */
  lemma FilterKeepsRowsInRange(t: Table, start: Timestamp, end: Timestamp)
    requires WellFormed(t) && HasColumn(t, DATE_COLUMN)
    ensures var f := FilterByDate(t, Some(start), Some(end));
      var rows := RowsInScope(t, start.day, end.day);
      var dates := Column(t, DATE_COLUMN);
      && WellFormed(f) && f.labels == t.labels && f.height == |rows|
      && (forall i, j :: 0 <= i < j < |rows| ==> rows[i] < rows[j])
      && (forall p :: 0 <= p < t.height ==>
            (p in rows <==> dates[p].Stamp? && start.day <= dates[p].t.day <= end.day))
      && (forall j, i :: 0 <= j < |t.columns| && 0 <= i < f.height ==>
            rows[i] < t.height && f.columns[j][i] == t.columns[j][rows[i]])
  {
  }

  /** Without both bounds the whole table is in scope. */
  lemma FilterWithoutBoundIsIdentity(t: Table, start: Option<Timestamp>, end: Option<Timestamp>)
    requires WellFormed(t)
    requires start.None? || end.None?
    ensures FilterByDate(t, start, end) == t
  {
  }

  /** The date mask of the selected rows is the selection of the date mask. */
  lemma DateMaskOfSelect(dates: seq<Cell>, m: seq<bool>, lo: Day, hi: Day)
    requires |m| == |dates|
    ensures DateMask(Select(dates, m), lo, hi) == Select(DateMask(dates, lo, hi), m)
  {
  }

  /** Filtering the filtered table again with a later `start` gives what
      filtering the original table with that `start` gives. */
  lemma FilterTwice(t: Table, s1: Timestamp, s2: Timestamp, end: Timestamp)
    requires WellFormed(t) && HasColumn(t, DATE_COLUMN)
    requires s1.day <= s2.day
    ensures var wide := FilterByDate(t, Some(s1), Some(end));
      && WellFormed(wide) && HasColumn(wide, DATE_COLUMN)
      && FilterByDate(wide, Some(s2), Some(end)) == FilterByDate(t, Some(s2), Some(end))
  {
    var dates := Column(t, DATE_COLUMN);
    var m1 := DateMask(dates, s1.day, end.day);
    var m2 := DateMask(dates, s2.day, end.day);
    var wide := FilterRows(t, m1);
    assert Column(wide, DATE_COLUMN) == Select(dates, m1);
    DateMaskOfSelect(dates, m1, s2.day, end.day);
    var m' := Select(m2, m1);
    var narrow := FilterRows(t, m2);
    var again := FilterRows(wide, m');
    forall j | 0 <= j < |t.columns|
      ensures again.columns[j] == narrow.columns[j]
    {
      SelectTwice(t.columns[j], m1, m2);
    }
    SelectTwice(dates, m1, m2);
    assert again.height == |Select(Select(dates, m1), m')|;
    assert again == narrow;
  }

  /** Monotonicity: with `end` fixed, raising `start` can only drop rows. */
  lemma FilterMonotoneInStart(t: Table, s1: Timestamp, s2: Timestamp, end: Timestamp)
    requires WellFormed(t) && HasColumn(t, DATE_COLUMN)
    requires s1.day <= s2.day
    ensures forall p :: p in RowsInScope(t, s2.day, end.day) ==> p in RowsInScope(t, s1.day, end.day)
    ensures FilterByDate(t, Some(s2), Some(end)).height <= FilterByDate(t, Some(s1), Some(end)).height
  {
    var dates := Column(t, DATE_COLUMN);
    var m1 := DateMask(dates, s1.day, end.day);
    var m2 := DateMask(dates, s2.day, end.day);
    FilterTwice(t, s1, s2, end);
    var wide := FilterByDate(t, Some(s1), Some(end));
    assert Column(wide, DATE_COLUMN) == Select(dates, m1);
    DateMaskOfSelect(dates, m1, s2.day, end.day);
    KeptIndicesBound(Select(m2, m1));
  }

  /** `df["날짜"].min()`: the earliest valid date part, None when there is none. */
  function MinDay(dates: seq<Cell>): (r: Option<Day>)
    ensures r.None? <==> forall p :: 0 <= p < |dates| ==> !dates[p].Stamp?
    ensures r.Some? ==> exists p :: 0 <= p < |dates| && dates[p].Stamp? && dates[p].t.day == r.value
    ensures r.Some? ==> forall p :: 0 <= p < |dates| && dates[p].Stamp? ==> r.value <= dates[p].t.day
  {
    if dates == [] then None
    else
      var n := |dates| - 1;
      var m := MinDay(dates[..n]);
      var c := dates[n];
      if !c.Stamp? then m
      else if m.Some? && m.value <= c.t.day then m
      else Some(c.t.day)
  }

  /** `df["날짜"].max()`: the latest valid date part, None when there is none. */
  function MaxDay(dates: seq<Cell>): (r: Option<Day>)
    ensures r.None? <==> forall p :: 0 <= p < |dates| ==> !dates[p].Stamp?
    ensures r.Some? ==> exists p :: 0 <= p < |dates| && dates[p].Stamp? && dates[p].t.day == r.value
    ensures r.Some? ==> forall p :: 0 <= p < |dates| && dates[p].Stamp? ==> dates[p].t.day <= r.value
  {
    if dates == [] then None
    else
      var n := |dates| - 1;
      var m := MaxDay(dates[..n]);
      var c := dates[n];
      if !c.Stamp? then m
      else if m.Some? && c.t.day <= m.value then m
      else Some(c.t.day)
  }

  datatype SpanError = MissingDateColumn | NoValidDate

  /** `min_date`, `max_date` of `create_app`. */
  function DateSpan(t: Table): (r: Result<(Day, Day), SpanError>)
    requires WellFormed(t)
    ensures r == Err(MissingDateColumn) <==> !HasColumn(t, DATE_COLUMN)
    ensures r == Err(NoValidDate) <==>
      HasColumn(t, DATE_COLUMN) && forall p :: 0 <= p < t.height ==> !Column(t, DATE_COLUMN)[p].Stamp?
    ensures r.Ok? ==> && HasColumn(t, DATE_COLUMN)
                      && MinDay(Column(t, DATE_COLUMN)) == Some(r.value.0)
                      && MaxDay(Column(t, DATE_COLUMN)) == Some(r.value.1)
    ensures r.Ok? ==> r.value.0 <= r.value.1
  {
    if !HasColumn(t, DATE_COLUMN) then Err(MissingDateColumn)
    else
      var dates := Column(t, DATE_COLUMN);
      match (MinDay(dates), MaxDay(dates))
      case (Some(lo), Some(hi)) => Ok((lo, hi))
      case _ => Err(NoValidDate)
  }

  /** Filtering with the table's own span keeps every row that has a valid date
      and drops only the NaT rows. */
  lemma FullSpanKeepsDatedRows(t: Table, start: Timestamp, end: Timestamp)
    requires WellFormed(t)
    requires DateSpan(t) == Ok((start.day, end.day))
    ensures HasColumn(t, DATE_COLUMN)
    ensures forall p :: 0 <= p < t.height ==>
      (p in RowsInScope(t, start.day, end.day) <==> Column(t, DATE_COLUMN)[p].Stamp?)
  {
  }

  /** `update_figures`: both figures rebuilt from the same filtered rows. */
  method UpdateFigures(t: Table, start: Option<Timestamp>, end: Option<Timestamp>)
    returns (raw: Figure, acc: Figure)
    requires WellFormed(t) && CanFilter(t, start, end)
    ensures var f := FilterByDate(t, start, end);
      WellFormed(f) && raw == FigureFor(f, RawView) && acc == FigureFor(f, AccumulatedView)
  {
    var filtered := FilterByDate(t, start, end);
    raw := MakeOriginalFigure(filtered);
    acc := MakeAccumulatedFigure(filtered);
  }

  /** Every trace of both figures `update_figures` returns has the dates of the
      same filtered rows as its x data, so the two views never disagree on the
      date range. */
  lemma FiguresShareFilteredDates(t: Table, start: Option<Timestamp>, end: Option<Timestamp>)
    requires WellFormed(t) && CanFilter(t, start, end)
    ensures var f := FilterByDate(t, start, end);
      WellFormed(f) &&
      forall tr :: tr in FigureFor(f, RawView) + FigureFor(f, AccumulatedView) ==>
        tr.x == GetColumn(f, DATE_COLUMN)
  {
    var f := FilterByDate(t, start, end);
    forall tr | tr in FigureFor(f, RawView) + FigureFor(f, AccumulatedView)
      ensures tr.x == GetColumn(f, DATE_COLUMN)
    {
      if tr in FigureFor(f, RawView) {
        var i :| 0 <= i < |FigureFor(f, RawView)| && FigureFor(f, RawView)[i] == tr;
        TraceOfSeries(f, RawView, i);
      } else {
        var i :| 0 <= i < |FigureFor(f, AccumulatedView)| && FigureFor(f, AccumulatedView)[i] == tr;
        TraceOfSeries(f, AccumulatedView, i);
      }
    }
  }
}
