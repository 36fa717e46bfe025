/** `load_data`: the sheet as read, with its column labels stripped of
    surrounding whitespace and its date column coerced to timestamps, both
    done in place on the data frame. Reading the file is not modelled: the
    sheet `pd.read_excel` returns is an input, and so is the per-cell result
    of `pd.to_datetime` (a timestamp, or None where it yields NaT). */
module Loader {
  import opened Wrappers
  import opened Frames
  import opened Labels

  /** `pd.to_datetime(col, errors="coerce")`: every cell becomes a timestamp
      or NaT, according to `toDatetime`. */
  function ToDatetime(col: seq<Cell>, toDatetime: Cell -> Option<Timestamp>): (r: seq<Cell>)
    ensures |r| == |col|
    ensures forall i :: 0 <= i < |col| ==> (r[i].Stamp? || r[i].Blank?)
    ensures forall i :: 0 <= i < |col| ==> (r[i].Stamp? <==> toDatetime(col[i]).Some?)
    ensures forall i :: 0 <= i < |col| && r[i].Stamp? ==> toDatetime(col[i]) == Some(r[i].t)
  {
    seq(|col|, i requires 0 <= i < |col| =>
      match toDatetime(col[i])
      case Some(ts) => Stamp(ts)
      case None => Blank)
  }

  /** A pandas data frame whose column labels and columns can be reassigned. */
  class DataFrame {
    var labels: seq<Label>
    var columns: seq<seq<Cell>>
    var height: nat

    function Snapshot(): Table
      reads this
    {
      Table(labels, columns, height)
    }

    ghost predicate Valid()
      reads this
    {
      WellFormed(Snapshot())
    }

    /** The frame `pd.read_excel` returns for `sheet`. */
    constructor (sheet: Table)
      requires WellFormed(sheet)
      ensures Valid() && Snapshot() == sheet
    {
      labels := sheet.labels;
      columns := sheet.columns;
      height := sheet.height;
    }

    /** Label normalisation: every string label is stripped of surrounding
        whitespace; any other label is kept. */
    method StripColumnLabels()
      requires Valid()
      modifies this
      ensures Valid()
      ensures labels == StripLabels(old(labels))
      ensures columns == old(columns) && height == old(height)
    {
      labels := StripLabels(labels);
    }

    /** When the frame has a `날짜` column, that column (the first one with
        the label) is replaced by its coerced form. */
    method CoerceDateColumn(toDatetime: Cell -> Option<Timestamp>)
      requires Valid()
      modifies this
      ensures Valid()
      ensures labels == old(labels) && height == old(height)
      ensures !HasColumn(Snapshot(), DATE_COLUMN) ==> columns == old(columns)
      ensures HasColumn(Snapshot(), DATE_COLUMN) ==>
        var j := IndexOf(labels, StrLabel(DATE_COLUMN));
        columns == old(columns)[j := ToDatetime(old(columns)[j], toDatetime)]
    {
      if StrLabel(DATE_COLUMN) in labels {
        var j := IndexOf(labels, StrLabel(DATE_COLUMN));
        columns := columns[j := ToDatetime(columns[j], toDatetime)];
      }
    }
  }

  /** `load_data`: labels stripped, then the date column (if any, found under
      its stripped label) coerced; every other column and the row count are
      as read. */
  method LoadData(sheet: Table, toDatetime: Cell -> Option<Timestamp>) returns (df: DataFrame)
    requires WellFormed(sheet)
    ensures fresh(df) && df.Valid()
    ensures df.labels == StripLabels(sheet.labels) && df.height == sheet.height
    ensures |df.columns| == |sheet.columns|
    ensures HasColumn(df.Snapshot(), DATE_COLUMN) ==>
      var j := IndexOf(df.labels, StrLabel(DATE_COLUMN));
      && df.columns[j] == ToDatetime(sheet.columns[j], toDatetime)
      && forall i :: 0 <= i < |sheet.columns| && i != j ==> df.columns[i] == sheet.columns[i]
    ensures !HasColumn(df.Snapshot(), DATE_COLUMN) ==> df.columns == sheet.columns
  {
    df := new DataFrame(sheet);
    df.StripColumnLabels();
    assert df.columns == sheet.columns;
    df.CoerceDateColumn(toDatetime);
    assert df.labels == StripLabels(sheet.labels);
  }
}
