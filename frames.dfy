/** The in-memory table that `load_data` produces: column labels, one
    sequence of cells per column, and the row count shared by every column. */
module Frames {
  import opened Wrappers

  /** A calendar day as a day number (as `datetime.date.toordinal` counts). */
  type Day = int

  /** Nanoseconds since midnight, the resolution of a pandas timestamp. */
  const NANOS_PER_DAY: int := 86_400_000_000_000
  type TimeOfDay = t: int | 0 <= t < NANOS_PER_DAY

  /** A pandas `Timestamp`: its date part and its time of day. */
  datatype Timestamp = Timestamp(day: Day, time: TimeOfDay)

  /** One spreadsheet cell. `Blank` is pandas' missing marker (NaN, NaT, None). */
  datatype Cell = Num(n: int) | Text(s: string) | Blank | Stamp(t: Timestamp)

  /** A column label: Excel headers are usually strings but may be numbers,
      dates or other objects; those are kept opaque as a key. */
  datatype Label = StrLabel(s: string) | OtherLabel(key: int)

  /** The date column's label. */
  const DATE_COLUMN: string := "날짜"

  datatype Table = Table(labels: seq<Label>, columns: seq<seq<Cell>>, height: nat)

  /** Every label has a column and every column has one cell per row. */
  ghost predicate WellFormed(t: Table) {
    && |t.labels| == |t.columns|
    && forall j :: 0 <= j < |t.columns| ==> |t.columns[j]| == t.height
  }

  /** `name in df.columns` */
  predicate HasColumn(t: Table, name: string) {
    StrLabel(name) in t.labels
  }

  /** Position of the first occurrence of `l` in `ls`. */
  function IndexOf(ls: seq<Label>, l: Label): (k: nat)
    requires l in ls
    ensures k < |ls| && ls[k] == l
    ensures forall i :: 0 <= i < k ==> ls[i] != l
  {
    if ls[0] == l then 0 else 1 + IndexOf(ls[1..], l)
  }

  /** `df[name]`: the column labelled `name` (the first one, if repeated). */
  function Column(t: Table, name: string): (c: seq<Cell>)
    requires WellFormed(t) && HasColumn(t, name)
    ensures |c| == t.height
    ensures exists j :: 0 <= j < |t.labels| && t.labels[j] == StrLabel(name) && c == t.columns[j]
  {
    t.columns[IndexOf(t.labels, StrLabel(name))]
  }

  /** `df.get(name)`: the column, or None when there is no such column. */
  function GetColumn(t: Table, name: string): (r: Option<seq<Cell>>)
    requires WellFormed(t)
    ensures r.None? <==> !HasColumn(t, name)
    ensures r.Some? ==> r.value == Column(t, name)
  {
    if HasColumn(t, name) then Some(Column(t, name)) else None
  }
}
