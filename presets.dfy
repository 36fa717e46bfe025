/** Preset resolution: `update_date_range` maps a preset key of the quick
    selector to a (start, end) pair of days, or to "no update". `today` is the
    day `create_app` read from the clock, and `minDate`, `maxDate` are the
    table's date span. */
module Presets {
  import opened Wrappers
  import opened Frames

  /** One entry of `date_presets`: its menu title (the `label` entry) and its length in days
      (None for the whole span). */
  datatype PresetInfo = PresetInfo(title: string, days: Option<nat>)

  const DATE_PRESETS: map<string, PresetInfo> := map[
    "all" := PresetInfo("전체 기간", None),
    "7d" := PresetInfo("최근 7일", Some(7)),
    "30d" := PresetInfo("최근 30일", Some(30)),
    "90d" := PresetInfo("최근 90일", Some(90)),
    "1y" := PresetInfo("최근 1년", Some(365)),
    "2y" := PresetInfo("최근 2년", Some(730)),
    "3y" := PresetInfo("최근 3년", Some(1095)),
    "4y" := PresetInfo("최근 4년", Some(1460)),
    "5y" := PresetInfo("최근 5년", Some(1825)),
    "10y" := PresetInfo("최근 10년", Some(3650))
  ]

  function Max(a: int, b: int): int {
    if a >= b then a else b
  }

  /** `update_date_range`: None is Dash's `no_update` for both bounds. */
  function UpdateDateRange(preset: string, minDate: Day, maxDate: Day, today: Day): (r: Option<(Day, Day)>)
    ensures r.None? <==> preset !in DATE_PRESETS
    ensures preset == "all" ==> r == Some((minDate, maxDate))
    ensures preset in DATE_PRESETS && DATE_PRESETS[preset].days.Some? ==>
      var n := DATE_PRESETS[preset].days.value;
      && r.Some? && r.value.1 == today
      && r.value.0 >= minDate && r.value.0 >= today - n
      && (r.value.0 == minDate || r.value.0 == today - n)
  {
    if preset !in DATE_PRESETS then None
    else
      match DATE_PRESETS[preset].days
      case None => Some((minDate, maxDate))
      case Some(days) => Some((Max(today - days, minDate), today))
  }

  /** "all" is the only preset without a day count. */
  lemma OnlyAllSpansEverything()
    ensures forall k :: k in DATE_PRESETS ==> (DATE_PRESETS[k].days.None? <==> k == "all")
  {
  }

  /** A durational preset gives a non-empty range exactly when the table's
      first date is not after today. */
  lemma DurationalRangeOrdered(preset: string, minDate: Day, maxDate: Day, today: Day)
    requires preset in DATE_PRESETS && DATE_PRESETS[preset].days.Some?
    ensures var r := UpdateDateRange(preset, minDate, maxDate, today);
      r.Some? && (r.value.0 <= r.value.1 <==> minDate <= today)
  {
  }

  /** With data going back further than a week, "7d" is the last seven days. */
  lemma LastWeek(minDate: Day, maxDate: Day, today: Day)
    requires minDate <= today - 7
    ensures UpdateDateRange("7d", minDate, maxDate, today) == Some((today - 7, today))
  {
  }

  /** With data younger than ten years, "10y" is clamped to the first date. */
  lemma TenYearsClamped(minDate: Day, maxDate: Day, today: Day)
    requires today - 3650 < minDate
    ensures UpdateDateRange("10y", minDate, maxDate, today) == Some((minDate, today))
  {
  }

  /** What the date pickers show after a preset is chosen: the resolved pair,
      or the current pair when the callback answers `no_update`. */
  function ChoosePreset(current: (Day, Day), preset: string, minDate: Day, maxDate: Day, today: Day): (Day, Day) {
    match UpdateDateRange(preset, minDate, maxDate, today)
    case None => current
    case Some(bounds) => bounds
  }

  /** An unknown preset leaves the selected bounds as they were. */
  lemma UnknownPresetKeepsBounds(current: (Day, Day), preset: string, minDate: Day, maxDate: Day, today: Day)
    requires preset !in DATE_PRESETS
    ensures ChoosePreset(current, preset, minDate, maxDate, today) == current
  {
  }
}
