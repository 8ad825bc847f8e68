/**
 * The monthly payload of the content calendar
 * (text-content-pipeline/src/payload/schema.py) with its field validators,
 * and the cross-field checks of text-content-pipeline/src/payload/validation.py.
 */
module Payload {
  import opened Wrappers
  import opened Strings
  import opened IsoDates

  datatype WeekRule = MondayDeterminesMonth
  datatype VideoWeek = LastWeek

  datatype MonthlyPayload = MonthlyPayload(
    year: int,
    month: int,
    monthlyTheme: string,
    weeklySubthemes: Option<seq<string>>,
    weekRule: WeekRule,
    videoWeek: VideoWeek,
    stylePreset: string,
    notes: Option<string>)

  /** The keys of `COLORFUL_PRESETS`, in definition order. */
  const PresetNames: seq<string> := ["default", "warm", "cool", "purple", "red"]

  /** Python's `repr` of `list(COLORFUL_PRESETS.keys())`. */
  const PresetNamesRepr: string := "['default', 'warm', 'cool', 'purple', 'red']"

  /** The payload's own default style preset. */
  const DefaultStylePreset: string := "default"

  lemma DefaultPresetAvailable()
    ensures DefaultStylePreset in PresetNames
  {
  }

  /** The index of the first entry of `v` at or after `i` that strips to nothing. */
  function FirstBlank(v: seq<string>, i: nat): (r: Option<nat>)
    requires i <= |v|
    ensures r.None? ==> forall k :: i <= k < |v| ==> PyStrip(v[k]) != ""
    ensures r.Some? ==> i <= r.value < |v| && PyStrip(v[r.value]) == "" && forall k :: i <= k < r.value ==> PyStrip(v[k]) != ""
    decreases |v| - i
  {
    if i == |v| then None
    else if PyStrip(v[i]) == "" then Some(i)
    else FirstBlank(v, i + 1)
  }

  function StripAll(v: seq<string>): (r: seq<string>)
    ensures |r| == |v| && forall k :: 0 <= k < |v| ==> r[k] == PyStrip(v[k])
  {
    if v == [] then [] else [PyStrip(v[0])] + StripAll(v[1..])
  }

  /** validate_weekly_subthemes (schema.py:54-73): `Err` carries the `ValueError` text. */
  function ValidateWeeklySubthemes(v: Option<seq<string>>): (r: Result<Option<seq<string>>, string>)
    ensures v.None? ==> r == Ok(None)
    ensures v == Some([]) ==> r == Err("weekly_subthemes cannot be an empty list")
    ensures v.Some? && v.value != [] && |v.value| != 4 && |v.value| != 5 ==>
      r == Err("weekly_subthemes must contain exactly 4 or 5 subthemes")
    ensures v.Some? && (|v.value| == 4 || |v.value| == 5) ==>
      (r.Err? <==> exists k :: 0 <= k < |v.value| && PyStrip(v.value[k]) == "")
    ensures v.Some? && r.Err? && (|v.value| == 4 || |v.value| == 5) ==>
      exists k :: 0 <= k < |v.value| && PyStrip(v.value[k]) == "" && (forall j :: 0 <= j < k ==> PyStrip(v.value[j]) != "") && r.error == "weekly_subthemes[" + NatToString(k) + "] cannot be empty"
    ensures v.Some? && r.Ok? ==>
      r.value.Some? && |r.value.value| == |v.value| && (|v.value| == 4 || |v.value| == 5)
      && forall k :: 0 <= k < |v.value| ==> r.value.value[k] == PyStrip(v.value[k]) && r.value.value[k] != ""
  {
    if v.None? then Ok(None)
    else if v.value == [] then Err("weekly_subthemes cannot be an empty list")
    else if |v.value| != 4 && |v.value| != 5 then Err("weekly_subthemes must contain exactly 4 or 5 subthemes")
    else
      match FirstBlank(v.value, 0)
      case Some(k) => Err("weekly_subthemes[" + NatToString(k) + "] cannot be empty")
      case None => Ok(Some(StripAll(v.value)))
  }

  /** validate_style_preset (schema.py:75-85). */
  function ValidateStylePreset(v: string): (r: Result<string, string>)
    ensures r.Ok? <==> v in PresetNames
    ensures r.Ok? ==> r.value == v
    ensures r.Err? ==> r.error == "Invalid style_preset '" + v + "'. Must be one of: " + PresetNamesRepr
  {
    if v !in PresetNames then Err("Invalid style_preset '" + v + "'. Must be one of: " + PresetNamesRepr)
    else Ok(v)
  }

  /** The field that failed validation when a payload is constructed. */
  datatype FieldError =
    | YearOutOfRange(year: int)
    | MonthOutOfRange(month: int)
    | ThemeLength(length: nat)
    | WeeklySubthemes(message: string)
    | StylePreset(message: string)

  /** What every constructed `MonthlyPayload` satisfies. */
  predicate PayloadInvariant(p: MonthlyPayload)
  {
    && 2020 <= p.year <= 2100
    && 1 <= p.month <= 12
    && 1 <= |p.monthlyTheme| <= 200
    && (p.weeklySubthemes.Some? ==>
          (|p.weeklySubthemes.value| == 4 || |p.weeklySubthemes.value| == 5)
          && forall k :: 0 <= k < |p.weeklySubthemes.value| ==> p.weeklySubthemes.value[k] != "")
    && p.stylePreset in PresetNames
  }

  /**
   * Constructing a `MonthlyPayload` (schema.py:22-85): every field is checked,
   * the failures are reported together in field order, and the subthemes are
   * stored stripped.
   */
  function MakePayload(year: int, month: int, monthlyTheme: string, weeklySubthemes: Option<seq<string>>,
                       weekRule: WeekRule, videoWeek: VideoWeek, stylePreset: string, notes: Option<string>)
    : (r: Result<MonthlyPayload, seq<FieldError>>)
    ensures r.Ok? <==>
      2020 <= year <= 2100 && 1 <= month <= 12 && 1 <= |monthlyTheme| <= 200
      && ValidateWeeklySubthemes(weeklySubthemes).Ok? && stylePreset in PresetNames
    ensures r.Ok? ==> PayloadInvariant(r.value)
    ensures r.Ok? ==>
      var p := r.value;
      p.year == year && p.month == month && p.monthlyTheme == monthlyTheme && p.stylePreset == stylePreset
      && p.weekRule == weekRule && p.videoWeek == videoWeek && p.notes == notes
      && p.weeklySubthemes == ValidateWeeklySubthemes(weeklySubthemes).value
    ensures r.Err? ==> r.error != [] && (YearOutOfRange(year) in r.error <==> !(2020 <= year <= 2100))
    ensures r.Err? ==> (MonthOutOfRange(month) in r.error <==> !(1 <= month <= 12))
    ensures r.Err? ==> (ThemeLength(|monthlyTheme|) in r.error <==> !(1 <= |monthlyTheme| <= 200))
    ensures r.Err? ==>
      (ValidateWeeklySubthemes(weeklySubthemes).Err? ==>
         WeeklySubthemes(ValidateWeeklySubthemes(weeklySubthemes).error) in r.error)
      && (ValidateWeeklySubthemes(weeklySubthemes).Ok? ==> forall e :: e in r.error ==> !e.WeeklySubthemes?)
    ensures r.Err? ==>
      (stylePreset !in PresetNames ==> StylePreset(ValidateStylePreset(stylePreset).error) in r.error)
      && (stylePreset in PresetNames ==> forall e :: e in r.error ==> !e.StylePreset?)
  {
    var subthemes := ValidateWeeklySubthemes(weeklySubthemes);
    var errors := FieldErrors(year, month, |monthlyTheme|, subthemes, ValidateStylePreset(stylePreset));
    if errors == [] then
      Ok(MonthlyPayload(year, month, monthlyTheme, subthemes.value, weekRule, videoWeek, stylePreset, notes))
    else
      Err(errors)
  }

  /** The failing fields of a payload, in field order, given the outcomes of the two field validators. */
  function FieldErrors(year: int, month: int, themeLength: nat,
                       subthemes: Result<Option<seq<string>>, string>, preset: Result<string, string>)
    : (r: seq<FieldError>)
    ensures r == [] <==>
      2020 <= year <= 2100 && 1 <= month <= 12 && 1 <= themeLength <= 200 && subthemes.Ok? && preset.Ok?
    ensures YearOutOfRange(year) in r <==> !(2020 <= year <= 2100)
    ensures MonthOutOfRange(month) in r <==> !(1 <= month <= 12)
    ensures ThemeLength(themeLength) in r <==> !(1 <= themeLength <= 200)
    ensures subthemes.Err? ==> WeeklySubthemes(subthemes.error) in r
    ensures subthemes.Ok? ==> forall e :: e in r ==> !e.WeeklySubthemes?
    ensures preset.Err? ==> StylePreset(preset.error) in r
    ensures preset.Ok? ==> forall e :: e in r ==> !e.StylePreset?
  {
    var y := if 2020 <= year <= 2100 then [] else [YearOutOfRange(year)];
    var m := if 1 <= month <= 12 then [] else [MonthOutOfRange(month)];
    var t := if 1 <= themeLength <= 200 then [] else [ThemeLength(themeLength)];
    var w := if subthemes.Ok? then [] else [WeeklySubthemes(subthemes.error)];
    var p := if preset.Ok? then [] else [StylePreset(preset.error)];
    assert forall e :: e in y + m + t + w + p <==> e in y || e in m || e in t || e in w || e in p;
    y + m + t + w + p
  }

  /** _count_mondays_in_month (validation.py:41-63). */
  method CountMondaysInMonth(year: int, month: int) returns (count: nat)
    ensures count == |MondaysIn(year, month)|
  {
    count := 0;
    var day := 1;
    while day < 32
      invariant 1 <= day <= 32
      invariant count == |DaysUpTo(year, month, MondayTest(year, month), day)|
    {
      // `datetime(year, month, day)` raises for a day the month lacks, and that day is skipped
      assert MondayTest(year, month)(day) == IsMonday(year, month, day);
      if IsMonday(year, month, day) {
        count := count + 1;
      }
      day := day + 1;
    }
  }

  /** The subtheme-count message of validate_payload (validation.py:26-29). */
  function CountMismatchMessage(p: MonthlyPayload, mondays: nat): string
    requires p.weeklySubthemes.Some?
  {
    "weekly_subthemes count (" + NatToString(|p.weeklySubthemes.value|) + ") does not match number of Mondays in "
    + IntToString(p.year) + "-" + PyFormatInt(p.month, 2) + " (" + NatToString(mondays) + ")"
  }

  /** validate_payload (validation.py:9-38): `Err` carries the `ValidationError` text. */
  method ValidatePayload(p: MonthlyPayload) returns (r: Result<(), string>)
    ensures p.weeklySubthemes.Some? && |p.weeklySubthemes.value| != |MondaysIn(p.year, p.month)| ==>
      r == Err(CountMismatchMessage(p, |MondaysIn(p.year, p.month)|))
    ensures (p.weeklySubthemes.None? || |p.weeklySubthemes.value| == |MondaysIn(p.year, p.month)|) && p.stylePreset !in PresetNames ==>
      r == Err("style_preset '" + p.stylePreset + "' is not available. Available presets: " + PresetNamesRepr)
    ensures r.Ok? <==>
      (p.weeklySubthemes.None? || |p.weeklySubthemes.value| == |MondaysIn(p.year, p.month)|) && p.stylePreset in PresetNames
  {
    if p.weeklySubthemes.Some? {
      var numMondays := CountMondaysInMonth(p.year, p.month);
      if |p.weeklySubthemes.value| != numMondays {
        return Err(CountMismatchMessage(p, numMondays));
      }
    }
    if p.stylePreset !in PresetNames {
      return Err("style_preset '" + p.stylePreset + "' is not available. Available presets: " + PresetNamesRepr);
    }
    return Ok(());
  }
}
