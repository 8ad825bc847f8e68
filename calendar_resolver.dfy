/**
 * Week resolution by the Monday ownership rule
 * (text-content-pipeline/src/weekly_calendar/resolver.py): every Monday of
 * the month owns the week running to the following Sunday, and the last of
 * those weeks is the video week.
 */
module CalendarResolver {
  import opened Wrappers
  import opened Strings
  import opened IsoDates
  import opened Payload
  import Seqs

  datatype WeekInfo = WeekInfo(weekNumber: int, mondayDate: string, sundayDate: string, subtheme: Option<string>, isVideoWeek: bool)

  datatype ResolvedCalendar = ResolvedCalendar(
    year: int,
    month: int,
    monthlyTheme: string,
    weeklySubthemes: Option<seq<string>>,
    weeks: seq<WeekInfo>,
    weekRule: WeekRule,
    videoWeek: VideoWeek)

  /** _find_mondays_in_month (resolver.py:110-132). */
  method FindMondaysInMonth(year: int, month: int) returns (mondays: seq<Date>)
    ensures mondays == MondaysIn(year, month)
  {
    mondays := [];
    var day := 1;
    while day < 32
      invariant 1 <= day <= 32
      invariant mondays == DaysUpTo(year, month, MondayTest(year, month), day)
    {
      // `datetime(year, month, day)` raises for a day the month lacks, and that day is skipped
      var isMonday := IsMonday(year, month, day);
      assert MondayTest(year, month)(day) == isMonday;
      if isMonday {
        mondays := mondays + [Date(year, month, day)];
      }
      day := day + 1;
    }
  }

  /** The week owned by the `i`-th Monday; the video week is the last one (`VideoWeek.LAST_WEEK`). */
  function WeekOf(mondays: seq<Date>, i: nat, subthemes: Option<seq<string>>): WeekInfo
    requires i < |mondays| && Proleptic(mondays[i])
    requires subthemes.Some? ==> |subthemes.value| == |mondays|
  {
    WeekInfo(i + 1, Iso(mondays[i]), Iso(AddDays(mondays[i], 6)),
             if subthemes.Some? then Some(subthemes.value[i]) else None,
             i == |mondays| - 1)
  }

  /** Every entry is a day of the calendar. */
  predicate CalendarDays(days: seq<Date>)
  {
    forall i :: 0 <= i < |days| ==> Proleptic(days[i])
  }

  /** The weeks of a month with the given Mondays. */
  function WeeksOf(mondays: seq<Date>, subthemes: Option<seq<string>>): (r: seq<WeekInfo>)
    requires CalendarDays(mondays)
    requires subthemes.Some? ==> |subthemes.value| == |mondays|
    ensures |r| == |mondays|
  {
    seq(|mondays|, i requires 0 <= i < |mondays| => WeekOf(mondays, i, subthemes))
  }

  function NoMondaysMessage(year: int, month: int): string
  {
    "No Mondays found in " + IntToString(year) + "-" + PyFormatInt(month, 2)
  }

  function SubthemeCountMessage(given: nat, mondays: nat): string
  {
    "weekly_subthemes count (" + NatToString(given) + ") does not match number of Mondays (" + NatToString(mondays) + ")"
  }

  /** The week-building loop of resolve_calendar (resolver.py:79-96). */
  method BuildWeeks(mondays: seq<Date>, weeklySubthemes: Option<seq<string>>) returns (weeks: seq<WeekInfo>)
    requires CalendarDays(mondays)
    requires weeklySubthemes.Some? ==> |weeklySubthemes.value| == |mondays|
    ensures weeks == WeeksOf(mondays, weeklySubthemes)
  {
    var videoWeekIndex := |mondays| - 1;
    weeks := [];
    var i := 0;
    while i < |mondays|
      invariant 0 <= i <= |mondays|
      invariant weeks == WeeksOf(mondays, weeklySubthemes)[..i]
    {
      var monday := mondays[i];
      var sunday := AddDays(monday, 6);
      var subtheme := None;
      if weeklySubthemes.Some? {
        subtheme := Some(weeklySubthemes.value[i]);
      }
      var isVideoWeek := i == videoWeekIndex;
      var week := WeekInfo(i + 1, Iso(monday), Iso(sunday), subtheme, isVideoWeek);
      assert week == WeeksOf(mondays, weeklySubthemes)[i];
      Seqs.PrefixSnoc(WeeksOf(mondays, weeklySubthemes), i);
      weeks := weeks + [week];
      i := i + 1;
    }
  }

  /** The Mondays of a month are calendar days, as the week builder needs. */
  lemma MondaysProleptic(year: int, month: int)
    ensures CalendarDays(MondaysIn(year, month))
  {
    MondaysInFacts(year, month);
  }

  /** resolve_calendar (resolver.py:36-107): `Err` carries the `CalendarResolutionError` text. */
  method ResolveCalendar(payload: MonthlyPayload) returns (r: Result<ResolvedCalendar, string>)
    requires PayloadInvariant(payload)
    ensures var mondays := MondaysIn(payload.year, payload.month);
      && (mondays == [] ==> r == Err(NoMondaysMessage(payload.year, payload.month)))
      && (mondays != [] && payload.weeklySubthemes.Some? && |payload.weeklySubthemes.value| != |mondays| ==>
            r == Err(SubthemeCountMessage(|payload.weeklySubthemes.value|, |mondays|)))
      && (r.Ok? <==> mondays != [] && (payload.weeklySubthemes.None? || |payload.weeklySubthemes.value| == |mondays|))
    ensures r.Ok? ==>
      var cal := r.value;
      && cal.year == payload.year && cal.month == payload.month && cal.monthlyTheme == payload.monthlyTheme
      && cal.weeklySubthemes == payload.weeklySubthemes && cal.weekRule == payload.weekRule && cal.videoWeek == payload.videoWeek
      && CalendarDays(MondaysIn(payload.year, payload.month))
      && cal.weeks == WeeksOf(MondaysIn(payload.year, payload.month), payload.weeklySubthemes)
  {
    var mondays := FindMondaysInMonth(payload.year, payload.month);
    if mondays == [] {
      return Err(NoMondaysMessage(payload.year, payload.month));
    }
    if payload.weeklySubthemes.Some? && |payload.weeklySubthemes.value| != |mondays| {
      return Err(SubthemeCountMessage(|payload.weeklySubthemes.value|, |mondays|));
    }
    MondaysProleptic(payload.year, payload.month);
    var weeks := BuildWeeks(mondays, payload.weeklySubthemes);
    return Ok(ResolvedCalendar(payload.year, payload.month, payload.monthlyTheme, payload.weeklySubthemes, weeks,
                               payload.weekRule, payload.videoWeek));
  }

  /** A constructed payload always has four or five Mondays, so resolution fails only on a subtheme count mismatch. */
  lemma ResolutionFailsOnlyOnCount(payload: MonthlyPayload)
    requires PayloadInvariant(payload)
    ensures MondaysIn(payload.year, payload.month) != []
    ensures payload.weeklySubthemes.Some? ==>
      (|payload.weeklySubthemes.value| == |MondaysIn(payload.year, payload.month)| <==>
       |payload.weeklySubthemes.value| == (if exists k :: 29 <= k <= 31 && IsMonday(payload.year, payload.month, k) then 5 else 4))
  {
    MondayCount(payload.year, payload.month);
  }

  /**
   * The resolved weeks are numbered 1..n; each Monday date is the text of a
   * Monday of the month and each Sunday date that of the day six later, a
   * Sunday; week i carries subtheme i; exactly the last week is the video week.
   */
  lemma {:induction false} WeeksOfFacts(year: int, month: int, subthemes: Option<seq<string>>, i: int)
    requires 2020 <= year <= 2100 && 1 <= month <= 12
    requires subthemes.Some? ==> |subthemes.value| == |MondaysIn(year, month)|
    requires 0 <= i < |MondaysIn(year, month)|
    ensures CalendarDays(MondaysIn(year, month))
    ensures var mondays := MondaysIn(year, month);
      var w := WeeksOf(mondays, subthemes)[i];
      && w.weekNumber == i + 1
      && ParseIso(w.mondayDate) == Some(mondays[i])
      && mondays[i].year == year && mondays[i].month == month && Weekday(mondays[i]) == 0
      && ParseIso(w.sundayDate) == Some(AddDays(mondays[i], 6))
      && Weekday(AddDays(mondays[i], 6)) == 6
      && w.subtheme == (if subthemes.Some? then Some(subthemes.value[i]) else None)
      && (w.isVideoWeek <==> i == |mondays| - 1)
  {
    var mondays := MondaysIn(year, month);
    MondaysProleptic(year, month);
    MondaysInFacts(year, month);
    assert MondayOf(year, month, mondays[i]);
    MondayWeek(mondays[i]);
    assert WeeksOf(mondays, subthemes)[i] == WeekOf(mondays, i, subthemes);
  }

  /** The text of a Monday and of the Sunday six days later read back as those dates. */
  lemma MondayWeek(m: Date)
    requires ValidDate(m) && Weekday(m) == 0 && 2020 <= m.year <= 2100
    ensures ParseIso(Iso(m)) == Some(m)
    ensures ParseIso(Iso(AddDays(m, 6))) == Some(AddDays(m, 6)) && Weekday(AddDays(m, 6)) == 6
  {
    IsoRoundTrip(m);
    var sunday := AddDays(m, 6);
    SixDaysLater(m);
    IsoRoundTrip(sunday);
  }

  /** Six days after a Monday of 2020..2100 is a Sunday with a four-digit year. */
  lemma SixDaysLater(m: Date)
    requires ValidDate(m) && Weekday(m) == 0 && 2020 <= m.year <= 2100
    ensures ValidDate(AddDays(m, 6)) && 1000 <= AddDays(m, 6).year && Weekday(AddDays(m, 6)) == 6
  {
    AddDaysWeekday(m, 6);
    SundayInRange(m);
  }

  /** Six days after a day of 2020..2100 is still a representable date with a four-digit year. */
  lemma SundayInRange(m: Date)
    requires ValidDate(m) && 2020 <= m.year <= 2100
    ensures ValidDate(AddDays(m, 6)) && 1000 <= AddDays(m, 6).year
  {
    AddDaysYears(m, 6);
  }

  /** No week is the video week except the last. */
  lemma {:induction false} ExactlyOneVideoWeek(mondays: seq<Date>, subthemes: Option<seq<string>>, i: int, j: int)
    requires CalendarDays(mondays)
    requires subthemes.Some? ==> |subthemes.value| == |mondays|
    requires 0 <= i < |mondays| && 0 <= j < |mondays|
    requires WeeksOf(mondays, subthemes)[i].isVideoWeek && WeeksOf(mondays, subthemes)[j].isVideoWeek
    ensures i == j == |mondays| - 1
  {
  }
}
