/** The two projections of a series: raw (`pd.to_numeric(..., errors="coerce")`,
    a failed cell becomes missing) and accumulated (the same coercion, missing
    cells filled with 0, then `cumsum`). Values are exact integers. */
module Projection {
  import opened Wrappers
  import opened Frames

  predicate IsDigit(c: char) {
    '0' <= c <= '9'
  }

  ghost predicate AllDigits(s: string) {
    forall k :: 0 <= k < |s| ==> IsDigit(s[k])
  }

  /** The value of a string of decimal digits, most significant first. */
  function DigitsValue(s: string): nat
    requires AllDigits(s)
  {
    if s == [] then 0
    else DigitsValue(s[..|s| - 1]) * 10 + (s[|s| - 1] as int - '0' as int)
  }

  /** The text a numeric cell may hold: an optional sign and one or more digits. */
  function ParseInteger(s: string): Option<int> {
    if |s| > 0 && (s[0] == '+' || s[0] == '-') then
      var ds := s[1..];
      if ds != [] && forall k :: 0 <= k < |ds| ==> IsDigit(ds[k]) then
        var v: int := DigitsValue(ds);
        Some(if s[0] == '-' then -v else v)
      else None
    else if s != [] && forall k :: 0 <= k < |s| ==> IsDigit(s[k]) then
      Some(DigitsValue(s))
    else None
  }

  /** Decimal notation of a natural number, used to state what ParseInteger reads. */
  function ShowNat(n: nat): (s: string)
    ensures s != [] && AllDigits(s)
  {
    if n < 10 then [('0' as int + n) as char]
    else ShowNat(n / 10) + [('0' as int + n % 10) as char]
  }

  function ShowInt(n: int): string {
    if n < 0 then "-" + ShowNat(-n) else ShowNat(n)
  }

  lemma {:induction false} DigitsOfShowNat(n: nat)
    ensures DigitsValue(ShowNat(n)) == n
  {
    if n >= 10 {
      var s := ShowNat(n);
      assert s[..|s| - 1] == ShowNat(n / 10);
      DigitsOfShowNat(n / 10);
    }
  }

  /** A non-empty digit string reads as its value, with or without a minus sign. */
  lemma ParseDigits(ds: string)
    requires ds != [] && AllDigits(ds)
    ensures ParseInteger(ds) == Some(DigitsValue(ds))
    ensures ParseInteger("-" + ds) == Some(-(DigitsValue(ds) as int))
  {
    assert IsDigit(ds[0]);
    assert ("-" + ds)[1..] == ds;
  }

  /** Every integer written in decimal is read back as itself. */
  lemma ParseShowInt(n: int)
    ensures ParseInteger(ShowInt(n)) == Some(n)
  {
    var m: nat := if n < 0 then -n else n;
    ParseDigits(ShowNat(m));
    DigitsOfShowNat(m);
  }

  /** Integer text, described character by character: a sign may stand only
      in front, every other character is a digit, and there is at least one
      digit. */
  ghost predicate IntegerText(s: string) {
    && (exists k :: 0 <= k < |s| && IsDigit(s[k]))
    && forall k :: 0 <= k < |s| ==> IsDigit(s[k]) || (k == 0 && (s[k] == '+' || s[k] == '-'))
  }

  /** ParseInteger reads exactly the integer texts and rejects all others. */
  lemma ParseIntegerDomain(s: string)
    ensures ParseInteger(s).Some? <==> IntegerText(s)
  {
    if |s| > 0 && (s[0] == '+' || s[0] == '-') {
      var ds := s[1..];
      assert !IsDigit(s[0]);
      assert forall k :: 1 <= k < |s| ==> s[k] == ds[k - 1];
      if IntegerText(s) {
        var k :| 0 <= k < |s| && IsDigit(s[k]);
        assert ds[k - 1] == s[k];
      }
      if ds != [] && forall k :: 0 <= k < |ds| ==> IsDigit(ds[k]) {
        assert IsDigit(s[1]);
      }
    } else if s != [] && forall k :: 0 <= k < |s| ==> IsDigit(s[k]) {
      assert IsDigit(s[0]);
    }
  }

  /** Numeric coercion of one cell: numbers pass through, integer text is read,
      everything else is missing. */
  function Coerce(c: Cell): (r: Option<int>)
    ensures c.Num? ==> r == Some(c.n)
    ensures r.Some? <==> c.Num? || (c.Text? && IntegerText(c.s))
  {
    match c
    case Num(n) => Some(n)
    case Text(s) => ParseIntegerDomain(s); ParseInteger(s)
    case Blank => None
    case Stamp(_) => None
  }

  /** `pd.to_numeric(col, errors="coerce")`: the raw right-axis series. */
  function ToNumeric(col: seq<Cell>): (r: seq<Option<int>>)
    ensures |r| == |col|
    ensures forall i :: 0 <= i < |col| && col[i].Num? ==> r[i] == Some(col[i].n)
    ensures forall i :: 0 <= i < |col| && col[i].Text? ==> r[i] == ParseInteger(col[i].s)
    ensures forall i :: 0 <= i < |col| && (col[i].Blank? || col[i].Stamp?) ==> r[i] == None
  {
    seq(|col|, i requires 0 <= i < |col| => Coerce(col[i]))
  }

  /** `fillna(v)`: every missing value becomes `v`, every present one is kept. */
  function FillNa(xs: seq<Option<int>>, v: int): (r: seq<Option<int>>)
    ensures |r| == |xs|
    ensures forall i :: 0 <= i < |xs| ==> r[i] == Some(xs[i].GetOr(v))
  {
    seq(|xs|, i requires 0 <= i < |xs| => Some(xs[i].GetOr(v)))
  }

  /** Sum of the present values (pandas' skipna: missing ones add nothing). */
  function SumPresent(xs: seq<Option<int>>): int {
    if xs == [] then 0 else SumPresent(xs[..|xs| - 1]) + xs[|xs| - 1].GetOr(0)
  }

  /** `cumsum()` with pandas' default skipna: a missing value stays missing and
      the running total goes on past it. */
  function CumSum(xs: seq<Option<int>>): (r: seq<Option<int>>)
    ensures |r| == |xs|
  {
    seq(|xs|, i requires 0 <= i < |xs| =>
      if xs[i].None? then None else Some(SumPresent(xs[..i + 1])))
  }

  /** `cumsum()` as a running total over the rows in order. */
  method RunningSum(xs: seq<Option<int>>) returns (r: seq<Option<int>>)
    ensures r == CumSum(xs)
  {
    r := [];
    var total := 0;
    for i := 0 to |xs|
      invariant |r| == i
      invariant total == SumPresent(xs[..i])
      invariant forall k :: 0 <= k < i ==> r[k] == CumSum(xs)[k]
    {
      assert xs[..i + 1][..i] == xs[..i];
      match xs[i]
      case Some(v) =>
        total := total + v;
        r := r + [Some(total)];
      case None =>
        r := r + [None];
    }
  }

  /** The coerced value of a cell with a failed coercion counted as 0. */
  function ValueOrZero(c: Cell): int {
    Coerce(c).GetOr(0)
  }

  /** Sum of the coerced values of `col`, non-numeric cells counting as 0. */
  function ColumnTotal(col: seq<Cell>): int {
    if col == [] then 0 else ColumnTotal(col[..|col| - 1]) + ValueOrZero(col[|col| - 1])
  }

  /** The accumulated right-axis series of a column. */
  function Accumulated(col: seq<Cell>): (r: seq<Option<int>>)
    ensures |r| == |col|
    ensures forall i :: 0 <= i < |r| ==> r[i].Some?
  {
    CumSum(FillNa(ToNumeric(col), 0))
  }

  lemma {:induction false} SumPresentOfFilled(col: seq<Cell>)
    ensures SumPresent(FillNa(ToNumeric(col), 0)) == ColumnTotal(col)
  {
    if col != [] {
      var init := col[..|col| - 1];
      assert FillNa(ToNumeric(col), 0)[..|col| - 1] == FillNa(ToNumeric(init), 0);
      SumPresentOfFilled(init);
    }
  }

  /** The accumulated series has one value per row, none missing, and its value
      at row i is the sum of the coerced values at rows 0..i, a non-numeric cell
      counting as 0. */
  lemma AccumulatedIsPrefixTotal(col: seq<Cell>)
    ensures |Accumulated(col)| == |col|
    ensures forall i :: 0 <= i < |col| ==> Accumulated(col)[i] == Some(ColumnTotal(col[..i + 1]))
  {
    var filled := FillNa(ToNumeric(col), 0);
    forall i | 0 <= i < |col|
      ensures Accumulated(col)[i] == Some(ColumnTotal(col[..i + 1]))
    {
      assert filled[..i + 1] == FillNa(ToNumeric(col[..i + 1]), 0);
      SumPresentOfFilled(col[..i + 1]);
    }
  }

  /** Step form of the same identity: the first value is the first coerced value,
      and each later value adds the row's coerced value to the previous one. */
  lemma AccumulatedSteps(col: seq<Cell>)
    ensures |col| > 0 ==> Accumulated(col)[0] == Some(ValueOrZero(col[0]))
    ensures forall i :: 0 < i < |col| ==>
      Accumulated(col)[i] == Some(Accumulated(col)[i - 1].value + ValueOrZero(col[i]))
  {
    AccumulatedIsPrefixTotal(col);
    if |col| > 0 {
      assert col[..1][..0] == [];
      assert ColumnTotal(col[..1]) == ColumnTotal(col[..1][..0]) + ValueOrZero(col[0]);
    }
    forall i | 0 < i < |col|
      ensures Accumulated(col)[i] == Some(Accumulated(col)[i - 1].value + ValueOrZero(col[i]))
    {
      assert col[..i + 1][..i] == col[..i];
    }
  }

  /** Where the raw series has a value the accumulated series counts it, and
      where the raw series is missing the accumulated one repeats the previous
      total: gaps count as 0. */
  lemma RawAndAccumulatedAgree(col: seq<Cell>, i: nat)
    requires i < |col|
    ensures Accumulated(col)[i].Some?
    ensures ToNumeric(col)[i].None? ==>
      Accumulated(col)[i] == (if i == 0 then Some(0) else Accumulated(col)[i - 1])
    ensures ToNumeric(col)[i].Some? ==>
      Accumulated(col)[i].value == ToNumeric(col)[i].value + (if i == 0 then 0 else Accumulated(col)[i - 1].value)
  {
    AccumulatedSteps(col);
  }

  /** The raw series of `[5, "x", 3]` is `[5, missing, 3]`; the accumulated
      series is `[5, 5, 8]`. */
  lemma ExampleRawVersusAccumulated()
    ensures ToNumeric([Num(5), Text("x"), Num(3)]) == [Some(5), None, Some(3)]
    ensures Accumulated([Num(5), Text("x"), Num(3)]) == [Some(5), Some(5), Some(8)]
  {
    var col := [Num(5), Text("x"), Num(3)];
    assert !IsDigit("x"[0]);
    assert ParseInteger("x") == None;
    AccumulatedIsPrefixTotal(col);
    AccumulatedSteps(col);
    var acc := Accumulated(col);
    assert ValueOrZero(col[1]) == 0;
    assert acc[0] == Some(5) && acc[1] == Some(5) && acc[2] == Some(8);
  }
}
