/**
 * Daily slot scheduling and validation
 * (text-content-pipeline/src/slots/scheduler.py). A slot plan maps every
 * Monday-to-Saturday date of the resolved weeks to a slot function value.
 * Each Sunday is always the human slot, and no slot function may appear
 * more than twice in one week.
 */
module SlotScheduler {
  import opened Wrappers
  import opened Strings
  import opened Sorting
  import opened IsoDates
  import opened SlotEnum
  import opened CalendarResolver

  datatype DailySlot = DailySlot(
    date: string,
    weekday: string,
    slotType: SlotFunction,
    subtheme: Option<string>,
    weekNumber: int,
    isAutomated: bool)

  datatype SubthemeSource = Human | Ai

  datatype DailySlotSchedule = DailySlotSchedule(
    monthlyTheme: string,
    year: int,
    month: int,
    slots: seq<DailySlot>,
    weeklySubthemesSource: SubthemeSource)

  /**
   * What can go wrong: a `SlotAssignmentError` with its text, the
   * `ValueError` of `strptime` on a week's Monday text, or the `ValueError`
   * of `SlotFunction(value)` on a plan value.
   */
  datatype SlotError = SlotAssignment(message: string) | BadDate(text: string) | NotASlot(value: string)

  /** A slot plan `dict[str, str]` (date text to slot value) as its items in insertion order. */
  type SlotPlan = seq<(string, string)>

  /** `set(slot_plan.keys())`. */
  function PlanDates(plan: SlotPlan): set<string>
  {
    set i | 0 <= i < |plan| :: plan[i].0
  }

  /** `slot_plan.get(date)`: the value of the first item with that date. */
  function Get(plan: SlotPlan, date: string): (r: Option<string>)
    ensures r.None? <==> date !in PlanDates(plan)
    ensures r.Some? ==> (date, r.value) in plan
  {
    if plan == [] then None
    else if plan[0].0 == date then Some(plan[0].1)
    else
      assert forall i :: 1 <= i < |plan| ==> plan[i] == plan[1..][i - 1];
      Get(plan[1..], date)
  }

  /** Extends an error-or-list result by a prefix; an error stays as it is. */
  function Prepend<T>(s: seq<T>, r: Result<seq<T>, SlotError>): Result<seq<T>, SlotError>
  {
    if r.Err? then r else Ok(s + r.value)
  }

  lemma PrependNothing<T>(r: Result<seq<T>, SlotError>)
    ensures Prepend([], r) == r
  {
    if r.Ok? {
      assert [] + r.value == r.value;
    }
  }

  lemma PrependTwice<T>(a: seq<T>, b: seq<T>, r: Result<seq<T>, SlotError>)
    ensures Prepend(a, Prepend(b, r)) == Prepend(a + b, r)
  {
    if r.Ok? {
      assert a + (b + r.value) == (a + b) + r.value;
    }
  }

  // ---------------------------------------------------------------- the dates a plan must cover

  /** The texts of the days of the week starting on `monday`: day `k` is `monday + timedelta(days=k)`. */
  function WeekDays(monday: Date): nat -> string
    requires Proleptic(monday)
  {
    (k: nat) => if Proleptic(monday) then Iso(AddDays(monday, k)) else ""
  }

  /** The texts of days `0..n-1` of a week. */
  function DaysBelow(days: nat -> string, n: nat): set<string>
  {
    set k | 0 <= k < n :: days(k)
  }

  lemma DaysBelowStep(days: nat -> string, n: nat)
    ensures DaysBelow(days, n + 1) == DaysBelow(days, n) + {days(n)}
  {
  }

  /** Adds a set to an error-or-set result; an error stays as it is. */
  function UnionWith(s: set<string>, r: Result<set<string>, SlotError>): Result<set<string>, SlotError>
  {
    if r.Err? then r else Ok(s + r.value)
  }

  lemma UnionWithTwice(a: set<string>, b: set<string>, r: Result<set<string>, SlotError>)
    ensures UnionWith(a, UnionWith(b, r)) == UnionWith(a + b, r)
  {
    if r.Ok? {
      assert a + (b + r.value) == (a + b) + r.value;
    }
  }

  /**
   * The Monday-to-Saturday texts of every week, or the error for the first
   * Monday text that `strptime` rejects.
   */
  function AutomatedDates(weeks: seq<WeekInfo>): Result<set<string>, SlotError>
  {
    if weeks == [] then Ok({})
    else
      match ParseIso(weeks[0].mondayDate)
      case None => Err(BadDate(weeks[0].mondayDate))
      case Some(monday) => UnionWith(DaysBelow(WeekDays(monday), 6), AutomatedDates(weeks[1..]))
  }

  /** _get_expected_automated_dates (scheduler.py:115-134). */
  method ExpectedAutomatedDates(calendar: ResolvedCalendar) returns (r: Result<set<string>, SlotError>)
    ensures r == AutomatedDates(calendar.weeks)
  {
    var weeks := calendar.weeks;
    var dates: set<string> := {};
    var i := 0;
    assert weeks[0..] == weeks;
    assert AutomatedDates(weeks).Ok? ==> {} + AutomatedDates(weeks).value == AutomatedDates(weeks).value;
    while i < |weeks|
      invariant 0 <= i <= |weeks|
      invariant AutomatedDates(weeks) == UnionWith(dates, AutomatedDates(weeks[i..]))
    {
      assert weeks[i..][1..] == weeks[i + 1..];
      var parsed := ParseIso(weeks[i].mondayDate);
      if parsed.None? {
        return Err(BadDate(weeks[i].mondayDate));
      }
      var monday := parsed.value;
      ghost var days := WeekDays(monday);
      ghost var before := dates;
      var dayOffset := 0;
      while dayOffset < 6
        invariant 0 <= dayOffset <= 6
        invariant dates == before + DaysBelow(days, dayOffset)
      {
        var date := AddDays(monday, dayOffset);
        assert Iso(date) == days(dayOffset);
        DaysBelowStep(days, dayOffset);
        dates := dates + {Iso(date)};
        dayOffset := dayOffset + 1;
      }
      UnionWithTwice(before, DaysBelow(days, 6), AutomatedDates(weeks[i + 1..]));
      i := i + 1;
    }
    assert weeks[i..] == [];
    return Ok(dates);
  }

  // ---------------------------------------------------------------- the slots of a week

  const WeekdayNames: seq<string> := ["Monday", "Tuesday", "Wednesday", "Thursday", "Friday", "Saturday"]

  function NotFoundMessage(date: string, week: WeekInfo, k: nat): string
    requires k < 6
  {
    "Date " + date + " (Week " + IntToString(week.weekNumber) + ", " + WeekdayNames[k] + ") not found in slot plan"
  }

  /** The Sunday of a week: always the human slot, never automated. */
  function SundaySlot(week: WeekInfo, days: nat -> string): DailySlot
  {
    DailySlot(days(6), "Sunday", HumanIntentional, week.subtheme, week.weekNumber, false)
  }

  /** The slot day `k` (Monday = 0) gets from the plan value `slotType`. */
  function PlannedSlot(week: WeekInfo, days: nat -> string, k: nat, slotType: SlotFunction): DailySlot
    requires k < 6
  {
    DailySlot(days(k), WeekdayNames[k], slotType, week.subtheme, week.weekNumber, IsAutomated(slotType))
  }

  /** The slots of days `k..6` of a week, or the first error. */
  function DaySlots(week: WeekInfo, days: nat -> string, plan: SlotPlan, k: nat): Result<seq<DailySlot>, SlotError>
    requires k <= 6
    decreases 6 - k
  {
    if k == 6 then Ok([SundaySlot(week, days)])
    else
      var date := days(k);
      match Get(plan, date)
      case None => Err(SlotAssignment(NotFoundMessage(date, week, k)))
      case Some(value) =>
        match FromValue(value)
        case None => Err(NotASlot(value))
        case Some(slotType) => Prepend([PlannedSlot(week, days, k, slotType)], DaySlots(week, days, plan, k + 1))
  }

  /** The seven slots of a week, or the first error. */
  function WeekSlots(week: WeekInfo, plan: SlotPlan): Result<seq<DailySlot>, SlotError>
  {
    match ParseIso(week.mondayDate)
    case None => Err(BadDate(week.mondayDate))
    case Some(monday) => DaySlots(week, WeekDays(monday), plan, 0)
  }

  /** _build_week_slots (scheduler.py:137-195); the subtheme source is not used by it. */
  method BuildWeekSlots(week: WeekInfo, plan: SlotPlan, subthemeSource: SubthemeSource) returns (r: Result<seq<DailySlot>, SlotError>)
    ensures r == WeekSlots(week, plan)
  {
    var parsed := ParseIso(week.mondayDate);
    if parsed.None? {
      return Err(BadDate(week.mondayDate));
    }
    var monday := parsed.value;
    ghost var days := WeekDays(monday);
    ghost var whole := DaySlots(week, days, plan, 0);
    assert WeekSlots(week, plan) == whole;
    PrependNothing(whole);
    var slots: seq<DailySlot> := [];
    var dayOffset := 0;
    while dayOffset < 6
      invariant 0 <= dayOffset <= 6
      invariant whole == Prepend(slots, DaySlots(week, days, plan, dayOffset))
    {
      var weekdayName := WeekdayNames[dayOffset];
      var date := AddDays(monday, dayOffset);
      var dateStr := Iso(date);
      assert dateStr == days(dayOffset);
      var found := Get(plan, dateStr);
      if found.None? {
        return Err(SlotAssignment("Date " + dateStr + " (Week " + IntToString(week.weekNumber) + ", " + weekdayName + ") not found in slot plan"));
      }
      var slotType := FromValue(found.value);
      if slotType.None? {
        return Err(NotASlot(found.value));
      }
      var slot := DailySlot(dateStr, weekdayName, slotType.value, week.subtheme, week.weekNumber, IsAutomated(slotType.value));
      PrependTwice(slots, [slot], DaySlots(week, days, plan, dayOffset + 1));
      slots := slots + [slot];
      dayOffset := dayOffset + 1;
    }
    var sunday := AddDays(monday, 6);
    assert Iso(sunday) == days(6);
    var humanSlot := DailySlot(Iso(sunday), "Sunday", HumanIntentional, week.subtheme, week.weekNumber, false);
    slots := slots + [humanSlot];
    return Ok(slots);
  }

  /** The slot function the plan gives a date, if it holds the date with a valid value. */
  function PlanType(plan: SlotPlan, date: string): Option<SlotFunction>
  {
    match Get(plan, date)
    case None => None
    case Some(value) => FromValue(value)
  }

  /** The plan holds day `k` of the week with a valid slot value. */
  predicate DayPlanned(days: nat -> string, plan: SlotPlan, k: nat)
  {
    PlanType(plan, days(k)).Some?
  }

  /** `slots` are the planned slots of days `k..5` followed by the human Sunday. */
  predicate SlotsFrom(week: WeekInfo, days: nat -> string, plan: SlotPlan, k: nat, slots: seq<DailySlot>)
    requires k <= 6
  {
    && |slots| == 7 - k
    && slots[6 - k] == SundaySlot(week, days)
    && forall j :: k <= j < 6 ==> DayPlanned(days, plan, j) && slots[j - k] == PlannedSlot(week, days, j, PlanType(plan, days(j)).value)
  }

  /**
   * Days `k..6` build exactly when the plan holds each of days `k..5` with a
   * valid value, and then they are the planned slots and the human Sunday.
   */
  lemma {:induction false} DaySlotsFacts(week: WeekInfo, days: nat -> string, plan: SlotPlan, k: nat)
    requires k <= 6
    ensures DaySlots(week, days, plan, k).Ok? <==> forall j :: k <= j < 6 ==> DayPlanned(days, plan, j)
    ensures DaySlots(week, days, plan, k).Ok? ==> SlotsFrom(week, days, plan, k, DaySlots(week, days, plan, k).value)
    decreases 6 - k
  {
    if k < 6 {
      DaySlotsFacts(week, days, plan, k + 1);
      var r := DaySlots(week, days, plan, k);
      if DayPlanned(days, plan, k) {
        var t := PlanType(plan, days(k)).value;
        assert r == Prepend([PlannedSlot(week, days, k, t)], DaySlots(week, days, plan, k + 1));
        if r.Ok? {
          var rest := DaySlots(week, days, plan, k + 1).value;
          assert r.value == [PlannedSlot(week, days, k, t)] + rest;
          assert SlotsFrom(week, days, plan, k + 1, rest);
          forall j | k < j < 6
            ensures DayPlanned(days, plan, j) && r.value[j - k] == PlannedSlot(week, days, j, PlanType(plan, days(j)).value)
          {
            assert r.value[j - k] == rest[j - (k + 1)];
          }
        }
      } else {
        assert r.Err?;
      }
    }
  }

  // ---------------------------------------------------------------- applying a plan

  /** Builds each week of a calendar with the given plan. */
  function WeekBuilder(plan: SlotPlan): WeekInfo -> Result<seq<DailySlot>, SlotError>
  {
    w => WeekSlots(w, plan)
  }

  /** The slots of every week in order, or the first error. */
  function AllSlots(weeks: seq<WeekInfo>, build: WeekInfo -> Result<seq<DailySlot>, SlotError>): Result<seq<DailySlot>, SlotError>
  {
    if weeks == [] then Ok([])
    else
      var first := build(weeks[0]);
      if first.Err? then first else Prepend(first.value, AllSlots(weeks[1..], build))
  }

  /** `"human" if calendar.weekly_subthemes else "ai"`: a missing or empty list counts as AI. */
  function SourceOf(calendar: ResolvedCalendar): SubthemeSource
  {
    if calendar.weeklySubthemes.Some? && calendar.weeklySubthemes.value != [] then Human else Ai
  }

  /** The quote `repr` puts around a string: `"` when it holds a `'` and no `"`, else `'`. */
  function ReprQuote(s: string): char
  {
    if '\'' in s && '"' !in s then '"' else '\''
  }

  /** How `repr` writes one character inside quotes `q`; characters from U+0080 on are kept as they are. */
  function ReprChar(c: char, q: char): string
  {
    if c == q || c == '\\' then ['\\', c]
    else if c == '\t' then "\\t"
    else if c == '\n' then "\\n"
    else if c == '\r' then "\\r"
    else if c as int < 32 || c as int == 127 then HexEscape(c)
    else [c]
  }

  /** `\xhh`, the two lower-case hex digits of a character below U+0100. */
  function HexEscape(c: char): string
    requires c as int < 256
  {
    "\\x" + ["0123456789abcdef"[c as int / 16], "0123456789abcdef"[c as int % 16]]
  }

  function ReprBody(s: string, q: char): string
  {
    if s == [] then [] else ReprBody(s[..|s| - 1], q) + ReprChar(s[|s| - 1], q)
  }

  /** Python's `repr` of a string, escaping the quote, backslashes and ASCII control characters. */
  function StrRepr(s: string): string
  {
    var q := ReprQuote(s);
    [q] + ReprBody(s, q) + [q]
  }

  /** A character `repr` writes as itself. */
  predicate Plain(c: char)
  {
    32 <= c as int != 127 && c != '\'' && c != '"' && c != '\\'
  }

  /** A string of plain characters, such as an ISO date, is shown as itself in single quotes. */
  lemma {:induction false} PlainRepr(s: string)
    requires forall i :: 0 <= i < |s| ==> Plain(s[i])
    ensures StrRepr(s) == "'" + s + "'"
  {
    QuotedBody(s, '\'');
    EscapedWithout(s, '\'');
  }

  /** A character `repr` writes as itself once the quote is chosen: a plain character or either quote. */
  predicate PlainOrQuote(c: char)
  {
    Plain(c) || c == '\'' || c == '"'
  }

  /** `s` with a backslash put before every `q`, read from the front. */
  function Escaped(s: string, q: char): string
  {
    if s == [] then [] else (if s[0] == q then ['\\', q] else [s[0]]) + Escaped(s[1..], q)
  }

  lemma {:induction false} EscapedSnoc(s: string, c: char, q: char)
    ensures Escaped(s + [c], q) == Escaped(s, q) + (if c == q then ['\\', q] else [c])
  {
    if s != [] {
      assert (s + [c])[1..] == s[1..] + [c];
      EscapedSnoc(s[1..], c, q);
    }
  }

  /** Text without `q` is not changed by escaping `q`. */
  lemma {:induction false} EscapedWithout(s: string, q: char)
    requires q !in s
    ensures Escaped(s, q) == s
  {
    if s != [] {
      EscapedWithout(s[1..], q);
    }
  }

  /** Inside quotes `q`, plain characters and quotes are written with only `q` escaped. */
  lemma {:induction false} QuotedBody(s: string, q: char)
    requires forall i :: 0 <= i < |s| ==> PlainOrQuote(s[i])
    requires q == '\'' || q == '"'
    ensures ReprBody(s, q) == Escaped(s, q)
  {
    if s != [] {
      var init, last := s[..|s| - 1], s[|s| - 1];
      assert forall i :: 0 <= i < |init| ==> init[i] == s[i];
      QuotedBody(init, q);
      assert PlainOrQuote(last);
      assert ReprChar(last, q) == if last == q then ['\\', q] else [last];
      EscapedSnoc(init, last, q);
      assert s == init + [last];
    }
  }

  /** A key holding `'` and no `"` is shown in double quotes, the `'` left as it is. */
  lemma ApostropheRepr(s: string)
    requires forall i :: 0 <= i < |s| ==> PlainOrQuote(s[i])
    requires '\'' in s && '"' !in s
    ensures StrRepr(s) == "\"" + s + "\""
  {
    QuotedBody(s, '"');
    EscapedWithout(s, '"');
  }

  /** A key holding both quotes is shown in single quotes, each `'` escaped and each `"` kept. */
  lemma BothQuotesRepr(s: string)
    requires forall i :: 0 <= i < |s| ==> PlainOrQuote(s[i])
    requires '\'' in s && '"' in s
    ensures StrRepr(s) == "'" + Escaped(s, '\'') + "'"
  {
    QuotedBody(s, '\'');
  }

  /** A plan value such as `it's` appears in the message once in single quotes, from the f-string, and once in
      double quotes, from `repr`. */
  lemma ApostropheValueMessage(date: string, value: string)
    requires forall i :: 0 <= i < |value| ==> PlainOrQuote(value[i])
    requires '\'' in value && '"' !in value
    ensures InvalidValueMessage(date, value)
      == "Invalid slot type '" + value + "' for date " + date + ": \"" + value + "\" is not a valid SlotFunction"
  {
    ApostropheRepr(value);
  }

  function Quoted(items: seq<string>): (r: seq<string>)
    ensures |r| == |items| && forall i :: 0 <= i < |items| ==> r[i] == StrRepr(items[i])
  {
    if items == [] then [] else [StrRepr(items[0])] + Quoted(items[1..])
  }

  /** Python's `repr` of a list of such strings. */
  function ListRepr(items: seq<string>): string
  {
    "[" + Join(Quoted(items), ", ") + "]"
  }

  /** The `SlotAssignmentError` text for a plan whose dates differ from the expected ones. */
  function CoverageMessage(missing: seq<string>, extra: seq<string>): string
  {
    Join((if missing != [] then ["Missing slot assignments for: " + ListRepr(missing)] else [])
         + (if extra != [] then ["Extra slot assignments for: " + ListRepr(extra)] else []), "; ")
  }

  /** apply_slot_plan (scheduler.py:35-86). */
  method ApplySlotPlan(calendar: ResolvedCalendar, plan: SlotPlan) returns (r: Result<DailySlotSchedule, SlotError>)
    ensures AutomatedDates(calendar.weeks).Err? ==> r == Err(AutomatedDates(calendar.weeks).error)
    ensures AutomatedDates(calendar.weeks).Ok? && PlanDates(plan) != AutomatedDates(calendar.weeks).value ==>
      var expected := AutomatedDates(calendar.weeks).value;
      r == Err(SlotAssignment(CoverageMessage(SortedList(expected - PlanDates(plan)), SortedList(PlanDates(plan) - expected))))
    ensures AutomatedDates(calendar.weeks).Ok? && PlanDates(plan) == AutomatedDates(calendar.weeks).value ==>
      (AllSlots(calendar.weeks, WeekBuilder(plan)).Err? ==> r == Err(AllSlots(calendar.weeks, WeekBuilder(plan)).error))
      && (AllSlots(calendar.weeks, WeekBuilder(plan)).Ok? ==>
            r == Ok(DailySlotSchedule(calendar.monthlyTheme, calendar.year, calendar.month,
                                      AllSlots(calendar.weeks, WeekBuilder(plan)).value, SourceOf(calendar))))
  {
    var expected := ExpectedAutomatedDates(calendar);
    if expected.Err? {
      return Err(expected.error);
    }
    var planDates := PlanDates(plan);
    if planDates != expected.value {
      var message := CoverageError(expected.value, planDates);
      return Err(SlotAssignment(message));
    }
    var subthemeSource := if calendar.weeklySubthemes.Some? && calendar.weeklySubthemes.value != [] then Human else Ai;
    var slots := BuildAllSlots(calendar.weeks, plan, subthemeSource);
    if slots.Err? {
      return Err(slots.error);
    }
    return Ok(DailySlotSchedule(calendar.monthlyTheme, calendar.year, calendar.month, slots.value, subthemeSource));
  }

  /** The `SlotAssignmentError` text of apply_slot_plan (scheduler.py:55-63) for a plan whose dates differ from the expected ones. */
  method CoverageError(expected: set<string>, planDates: set<string>) returns (message: string)
    ensures message == CoverageMessage(SortedList(expected - planDates), SortedList(planDates - expected))
  {
    var missing := expected - planDates;
    var extra := planDates - expected;
    var errors: seq<string> := [];
    var sortedMissing := SortedElements(missing);
    var sortedExtra := SortedElements(extra);
    if missing != {} {
      errors := errors + ["Missing slot assignments for: " + ListRepr(sortedMissing)];
    }
    if extra != {} {
      errors := errors + ["Extra slot assignments for: " + ListRepr(sortedExtra)];
    }
    message := Join(errors, "; ");
  }

  /** The week loop of apply_slot_plan (scheduler.py:71-78): every week's slots in order, or the first error. */
  method BuildAllSlots(weeks: seq<WeekInfo>, plan: SlotPlan, subthemeSource: SubthemeSource) returns (r: Result<seq<DailySlot>, SlotError>)
    ensures r == AllSlots(weeks, WeekBuilder(plan))
  {
    var slots: seq<DailySlot> := [];
    ghost var build := WeekBuilder(plan);
    ghost var whole := AllSlots(weeks, build);
    assert weeks[0..] == weeks;
    PrependNothing(whole);
    var i := 0;
    while i < |weeks|
      invariant 0 <= i <= |weeks|
      invariant whole == Prepend(slots, AllSlots(weeks[i..], build))
    {
      assert weeks[i..][1..] == weeks[i + 1..];
      var weekSlots := BuildWeekSlots(weeks[i], plan, subthemeSource);
      assert weekSlots == build(weeks[i]);
      if weekSlots.Err? {
        assert AllSlots(weeks[i..], build) == weekSlots;
        return Err(weekSlots.error);
      }
      assert AllSlots(weeks[i..], build) == Prepend(weekSlots.value, AllSlots(weeks[i + 1..], build));
      PrependTwice(slots, weekSlots.value, AllSlots(weeks[i + 1..], build));
      slots := slots + weekSlots.value;
      i := i + 1;
    }
    assert weeks[i..] == [];
    assert slots + [] == slots;
    return Ok(slots);
  }

  /** `slot` is the human, non-automated Sunday slot of `week`. */
  predicate HumanSunday(slot: DailySlot, week: WeekInfo)
  {
    slot.slotType == HumanIntentional && !slot.isAutomated && slot.weekday == "Sunday" && slot.weekNumber == week.weekNumber
  }

  /** A week that builds has seven slots, the last being the human Sunday of that week. */
  lemma WeekSlotsShape(week: WeekInfo, plan: SlotPlan)
    requires WeekSlots(week, plan).Ok?
    ensures |WeekSlots(week, plan).value| == 7
    ensures HumanSunday(WeekSlots(week, plan).value[6], week)
  {
    var monday := ParseIso(week.mondayDate).value;
    DaySlotsFacts(week, WeekDays(monday), plan, 0);
  }

  /** A builder whose every week that builds has seven slots ending in the human Sunday of that week. */
  ghost predicate SevenDayWeeks(build: WeekInfo -> Result<seq<DailySlot>, SlotError>)
  {
    forall w :: build(w).Ok? ==> |build(w).value| == 7 && HumanSunday(build(w).value[6], w)
  }

  lemma WeekBuilderSevenDays(plan: SlotPlan)
    ensures SevenDayWeeks(WeekBuilder(plan))
  {
    forall w | WeekBuilder(plan)(w).Ok?
      ensures |WeekBuilder(plan)(w).value| == 7 && HumanSunday(WeekBuilder(plan)(w).value[6], w)
    {
      WeekSlotsShape(w, plan);
    }
  }

  /** Every week that builds contributes seven slots whose last is the human Sunday. */
  lemma {:induction false} AllSlotsShape(weeks: seq<WeekInfo>, build: WeekInfo -> Result<seq<DailySlot>, SlotError>, i: nat)
    requires SevenDayWeeks(build)
    requires AllSlots(weeks, build).Ok? && i < |weeks|
    ensures |AllSlots(weeks, build).value| == 7 * |weeks|
    ensures HumanSunday(AllSlots(weeks, build).value[7 * i + 6], weeks[i])
    decreases |weeks|
  {
    var first := build(weeks[0]).value;
    var rest := AllSlots(weeks[1..], build).value;
    var all := AllSlots(weeks, build).value;
    assert all == first + rest;
    if |weeks| == 1 {
      assert rest == [];
      assert all[6] == first[6];
    } else {
      AllSlotsShape(weeks[1..], build, if i == 0 then 0 else i - 1);
      if i == 0 {
        assert all[6] == first[6];
      } else {
        assert all[7 * i + 6] == rest[7 * (i - 1) + 6];
        assert weeks[1..][i - 1] == weeks[i];
      }
    }
  }

  /** A schedule built from a plan has seven slots per week, each week ending in its human Sunday. */
  lemma ScheduleShape(weeks: seq<WeekInfo>, plan: SlotPlan, i: nat)
    requires AllSlots(weeks, WeekBuilder(plan)).Ok? && i < |weeks|
    ensures |AllSlots(weeks, WeekBuilder(plan)).value| == 7 * |weeks|
    ensures HumanSunday(AllSlots(weeks, WeekBuilder(plan)).value[7 * i + 6], weeks[i])
  {
    WeekBuilderSevenDays(plan);
    AllSlotsShape(weeks, WeekBuilder(plan), i);
  }

  /** The dates of a week belong to the dates expected of its calendar. */
  lemma {:induction false} WeekDatesExpected(weeks: seq<WeekInfo>, i: nat, monday: Date, k: nat)
    requires AutomatedDates(weeks).Ok? && i < |weeks| && ParseIso(weeks[i].mondayDate) == Some(monday) && k < 6
    ensures WeekDays(monday)(k) in AutomatedDates(weeks).value
    decreases |weeks|
  {
    if i == 0 {
      assert WeekDays(monday)(k) in DaysBelow(WeekDays(monday), 6);
    } else {
      WeekDatesExpected(weeks[1..], i - 1, monday, k);
    }
  }

  /**
   * A plan that covers exactly the expected dates with valid slot values
   * always builds: no week reports a missing date.
   */
  lemma {:induction false} CoveringPlanBuilds(weeks: seq<WeekInfo>, plan: SlotPlan, whole: seq<WeekInfo>, offset: nat)
    requires AutomatedDates(whole).Ok? && PlanDates(plan) == AutomatedDates(whole).value
    requires forall i :: 0 <= i < |plan| ==> FromValue(plan[i].1).Some?
    requires offset + |weeks| == |whole| && weeks == whole[offset..]
    ensures AllSlots(weeks, WeekBuilder(plan)).Ok?
    decreases |weeks|
  {
    if weeks != [] {
      assert weeks[0] == whole[offset];
      assert AutomatedDates(whole[offset..]).Ok? by {
        SuffixDatesOk(whole, offset);
      }
      var monday := ParseIso(weeks[0].mondayDate).value;
      var days := WeekDays(monday);
      forall j | 0 <= j < 6 ensures DayPlanned(days, plan, j) {
        WeekDatesExpected(whole, offset, monday, j);
        var value := Get(plan, days(j)).value;
        var idx :| 0 <= idx < |plan| && plan[idx] == (days(j), value);
      }
      WeekBuilds(weeks[0], plan, monday);
      assert whole[offset + 1..] == weeks[1..];
      CoveringPlanBuilds(weeks[1..], plan, whole, offset + 1);
    }
  }

  /** A week whose every Monday-to-Saturday date the plan holds with a valid value builds. */
  lemma WeekBuilds(week: WeekInfo, plan: SlotPlan, monday: Date)
    requires ParseIso(week.mondayDate) == Some(monday)
    requires forall j :: 0 <= j < 6 ==> DayPlanned(WeekDays(monday), plan, j)
    ensures WeekBuilder(plan)(week).Ok?
  {
    DaySlotsFacts(week, WeekDays(monday), plan, 0);
  }

  /** Every suffix of weeks whose Mondays all parse has Mondays that all parse. */
  lemma {:induction false} SuffixDatesOk(weeks: seq<WeekInfo>, offset: nat)
    requires AutomatedDates(weeks).Ok? && offset <= |weeks|
    ensures AutomatedDates(weeks[offset..]).Ok?
    decreases offset
  {
    if offset > 0 {
      SuffixDatesOk(weeks[1..], offset - 1);
      assert weeks[1..][offset - 1..] == weeks[offset..];
    }
  }

  // ---------------------------------------------------------------- validating a plan

  /** `SlotAssignmentError` text for a plan value that is not a slot function: the f-string quotes the value
      itself, then appends the enum's `ValueError`, which shows the value through `repr`. */
  function InvalidValueMessage(date: string, value: string): string
  {
    "Invalid slot type '" + value + "' for date " + date + ": " + StrRepr(value) + " is not a valid SlotFunction"
  }

  /** The index of the first item at or after `i` whose value is not a slot function. */
  function FirstInvalid(plan: SlotPlan, i: nat): (r: Option<nat>)
    requires i <= |plan|
    ensures r.None? ==> forall k :: i <= k < |plan| ==> FromValue(plan[k].1).Some?
    ensures r.Some? ==> i <= r.value < |plan| && FromValue(plan[r.value].1).None? && forall k :: i <= k < r.value ==> FromValue(plan[k].1).Some?
    decreases |plan| - i
  {
    if i == |plan| then None
    else if FromValue(plan[i].1).None? then Some(i)
    else FirstInvalid(plan, i + 1)
  }

  /** The slot functions the plan gives days `k..5` of a week, skipping the days it lacks. */
  function WeekTypes(days: nat -> string, plan: SlotPlan, k: nat): Result<seq<SlotFunction>, SlotError>
    requires k <= 6
    decreases 6 - k
  {
    if k == 6 then Ok([])
    else
      match Get(plan, days(k))
      case None => WeekTypes(days, plan, k + 1)
      case Some(value) =>
        match FromValue(value)
        case None => Err(NotASlot(value))
        case Some(slotType) => Prepend([slotType], WeekTypes(days, plan, k + 1))
  }

  /** The distinct entries of `s` in order of first appearance: the key order of a dict counted from `s`. */
  function FirstAppearances(s: seq<SlotFunction>): (r: seq<SlotFunction>)
    ensures forall x :: x in r <==> x in s
    ensures forall i, j :: 0 <= i < j < |r| ==> r[i] != r[j]
  {
    if s == [] then []
    else
      var init := FirstAppearances(s[..|s| - 1]);
      assert s == s[..|s| - 1] + [s[|s| - 1]];
      if s[|s| - 1] in init then init else init + [s[|s| - 1]]
  }

  lemma FirstAppearancesSnoc(s: seq<SlotFunction>, t: SlotFunction)
    ensures FirstAppearances(s + [t]) == if t in s then FirstAppearances(s) else FirstAppearances(s) + [t]
  {
    assert (s + [t])[..|s|] == s;
  }

  lemma MultisetSnoc(s: seq<SlotFunction>, t: SlotFunction)
    ensures forall x :: multiset(s + [t])[x] == multiset(s)[x] + (if x == t then 1 else 0)
  {
  }

  /** The first entry of `order` that `s` holds more than twice. */
  function FirstOverLimit(order: seq<SlotFunction>, s: seq<SlotFunction>): (r: Option<SlotFunction>)
    ensures r.None? <==> forall i :: 0 <= i < |order| ==> multiset(s)[order[i]] <= 2
    ensures r.Some? ==> r.value in order && multiset(s)[r.value] > 2
  {
    if order == [] then None
    else if multiset(s)[order[0]] > 2 then Some(order[0])
    else FirstOverLimit(order[1..], s)
  }

  function OverLimitMessage(slotType: SlotFunction, count: nat, week: WeekInfo): string
  {
    "Slot type '" + Value(slotType) + "' appears " + NatToString(count) + " times in week "
    + IntToString(week.weekNumber) + " (maximum 2)"
  }

  /** The weekly frequency check of one week. */
  function WeekConstraint(week: WeekInfo, plan: SlotPlan): Result<(), SlotError>
  {
    match ParseIso(week.mondayDate)
    case None => Err(BadDate(week.mondayDate))
    case Some(monday) =>
      match WeekTypes(WeekDays(monday), plan, 0)
      case Err(e) => Err(e)
      case Ok(types) =>
        match FirstOverLimit(FirstAppearances(types), types)
        case Some(t) => Err(SlotAssignment(OverLimitMessage(t, multiset(types)[t], week)))
        case None => Ok(())
  }

  /** The weekly frequency check of every week in order, stopping at the first failure. */
  function WeeklyConstraints(weeks: seq<WeekInfo>, plan: SlotPlan): Result<(), SlotError>
  {
    if weeks == [] then Ok(())
    else
      var first := WeekConstraint(weeks[0], plan);
      if first.Err? then first else WeeklyConstraints(weeks[1..], plan)
  }

  /** `order` lists the distinct slot functions of `seen` by first appearance and `counts` counts each. */
  predicate Tallied(order: seq<SlotFunction>, counts: map<SlotFunction, nat>, seen: seq<SlotFunction>)
  {
    && order == FirstAppearances(seen)
    && (forall t :: t in counts <==> t in seen)
    && (forall t :: t in counts ==> counts[t] == multiset(seen)[t])
  }

  lemma TalliedSnoc(order: seq<SlotFunction>, counts: map<SlotFunction, nat>, seen: seq<SlotFunction>, t: SlotFunction)
    requires Tallied(order, counts, seen)
    ensures Tallied(if t in counts then order else order + [t],
                    counts[t := (if t in counts then counts[t] else 0) + 1], seen + [t])
  {
    FirstAppearancesSnoc(seen, t);
    MultisetSnoc(seen, t);
    var counts' := counts[t := (if t in counts then counts[t] else 0) + 1];
    forall x ensures x in counts' <==> x in seen + [t] {
      assert x in seen + [t] <==> x in seen || x == t;
    }
    forall x | x in counts' ensures counts'[x] == multiset(seen + [t])[x] {
      if x != t {
        assert counts'[x] == counts[x];
      }
    }
  }

  /**
   * The day loop of _validate_weekly_constraints (scheduler.py:213-229): the slot
   * functions the plan gives Monday to Saturday, counted, keys in insertion order.
   */
  method CountWeekTypes(monday: Date, plan: SlotPlan) returns (r: Result<(seq<SlotFunction>, map<SlotFunction, nat>), SlotError>)
    requires ValidDate(monday)
    ensures var whole := WeekTypes(WeekDays(monday), plan, 0);
      && (whole.Err? ==> r == Err(whole.error))
      && (whole.Ok? ==> r.Ok? && Tallied(r.value.0, r.value.1, whole.value))
  {
    ghost var days := WeekDays(monday);
    ghost var whole := WeekTypes(days, plan, 0);
    PrependNothing(whole);
    var order: seq<SlotFunction> := [];
    var counts: map<SlotFunction, nat> := map[];
    ghost var seen: seq<SlotFunction> := [];
    var dayOffset := 0;
    while dayOffset < 6
      invariant 0 <= dayOffset <= 6
      invariant whole == Prepend(seen, WeekTypes(days, plan, dayOffset))
      invariant Tallied(order, counts, seen)
    {
      var date := AddDays(monday, dayOffset);
      var dateStr := Iso(date);
      assert dateStr == days(dayOffset);
      var found := Get(plan, dateStr);
      if found.None? {
        assert WeekTypes(days, plan, dayOffset) == WeekTypes(days, plan, dayOffset + 1);
      } else {
        var slotType := FromValue(found.value);
        if slotType.None? {
          assert WeekTypes(days, plan, dayOffset) == Err(NotASlot(found.value));
          return Err(NotASlot(found.value));
        }
        var t := slotType.value;
        assert WeekTypes(days, plan, dayOffset) == Prepend([t], WeekTypes(days, plan, dayOffset + 1));
        PrependTwice(seen, [t], WeekTypes(days, plan, dayOffset + 1));
        TalliedSnoc(order, counts, seen, t);
        if t !in counts {
          order := order + [t];
        }
        counts := counts[t := (if t in counts then counts[t] else 0) + 1];
        seen := seen + [t];
      }
      dayOffset := dayOffset + 1;
    }
    assert whole == Ok(seen) by {
      assert seen + [] == seen;
    }
    return Ok((order, counts));
  }

  /** The loop over the counts of _validate_weekly_constraints (scheduler.py:232-237): the first key counted more than twice. */
  method FindOverLimit(order: seq<SlotFunction>, counts: map<SlotFunction, nat>, ghost seen: seq<SlotFunction>) returns (r: Option<SlotFunction>)
    requires Tallied(order, counts, seen)
    ensures r == FirstOverLimit(order, seen)
    ensures r.Some? ==> r.value in counts
  {
    var j := 0;
    while j < |order|
      invariant 0 <= j <= |order|
      invariant FirstOverLimit(order, seen) == FirstOverLimit(order[j..], seen)
    {
      assert order[j..][1..] == order[j + 1..];
      var t := order[j];
      assert t in seen;
      if counts[t] > 2 {
        return Some(t);
      }
      j := j + 1;
    }
    return None;
  }

  /** One iteration of the week loop of _validate_weekly_constraints (scheduler.py:211-237). */
  method CheckWeek(week: WeekInfo, plan: SlotPlan) returns (r: Result<(), SlotError>)
    ensures r == WeekConstraint(week, plan)
  {
    var parsed := ParseIso(week.mondayDate);
    if parsed.None? {
      return Err(BadDate(week.mondayDate));
    }
    var tally := CountWeekTypes(parsed.value, plan);
    if tally.Err? {
      return Err(tally.error);
    }
    var order, counts := tally.value.0, tally.value.1;
    ghost var types := WeekTypes(WeekDays(parsed.value), plan, 0).value;
    var over := FindOverLimit(order, counts, types);
    if over.Some? {
      var t := over.value;
      return Err(SlotAssignment("Slot type '" + Value(t) + "' appears " + NatToString(counts[t]) + " times in week "
                                + IntToString(week.weekNumber) + " (maximum 2)"));
    }
    return Ok(());
  }

  /** _validate_weekly_constraints (scheduler.py:198-237). */
  method ValidateWeeklyConstraints(calendar: ResolvedCalendar, plan: SlotPlan) returns (r: Result<(), SlotError>)
    ensures r == WeeklyConstraints(calendar.weeks, plan)
  {
    var weeks := calendar.weeks;
    var i := 0;
    while i < |weeks|
      invariant 0 <= i <= |weeks|
      invariant WeeklyConstraints(weeks, plan) == WeeklyConstraints(weeks[i..], plan)
    {
      assert weeks[i..][1..] == weeks[i + 1..];
      var week := CheckWeek(weeks[i], plan);
      if week.Err? {
        return week;
      }
      i := i + 1;
    }
    return Ok(());
  }

  /** validate_slot_plan (scheduler.py:89-112). */
  method ValidateSlotPlan(calendar: ResolvedCalendar, plan: SlotPlan) returns (r: Result<(), SlotError>)
    ensures FirstInvalid(plan, 0).Some? ==>
      var i := FirstInvalid(plan, 0).value;
      r == Err(SlotAssignment(InvalidValueMessage(plan[i].0, plan[i].1)))
    ensures FirstInvalid(plan, 0).None? ==> r == WeeklyConstraints(calendar.weeks, plan)
  {
    var i := 0;
    while i < |plan|
      invariant 0 <= i <= |plan|
      invariant FirstInvalid(plan, 0) == FirstInvalid(plan, i)
    {
      var (dateStr, slotTypeStr) := plan[i];
      if FromValue(slotTypeStr).None? {
        return Err(SlotAssignment("Invalid slot type '" + slotTypeStr + "' for date " + dateStr + ": " + StrRepr(slotTypeStr) + " is not a valid SlotFunction"));
      }
      i := i + 1;
    }
    r := ValidateWeeklyConstraints(calendar, plan);
  }

  /** A week passes the frequency check exactly when no slot function appears more than twice in it. */
  lemma WeekConstraintMeaning(week: WeekInfo, plan: SlotPlan)
    requires ParseIso(week.mondayDate).Some?
    requires WeekTypes(WeekDays(ParseIso(week.mondayDate).value), plan, 0).Ok?
    ensures var types := WeekTypes(WeekDays(ParseIso(week.mondayDate).value), plan, 0).value;
      WeekConstraint(week, plan).Ok? <==> forall t :: multiset(types)[t] <= 2
  {
    var types := WeekTypes(WeekDays(ParseIso(week.mondayDate).value), plan, 0).value;
    var order := FirstAppearances(types);
    if forall i :: 0 <= i < |order| ==> multiset(types)[order[i]] <= 2 {
      forall t ensures multiset(types)[t] <= 2 {
        if t in types {
          assert t in order;
        }
      }
    }
  }

  /** The slot functions of a list of slots. */
  function TypesOf(slots: seq<DailySlot>): (r: seq<SlotFunction>)
    ensures |r| == |slots| && forall j :: 0 <= j < |slots| ==> r[j] == slots[j].slotType
  {
    if slots == [] then [] else [slots[0].slotType] + TypesOf(slots[1..])
  }

  /**
   * On a week that builds, the slot functions checked for frequency are
   * exactly those of its Monday-to-Saturday slots, in order.
   */
  lemma {:induction false} WeekTypesOfSlots(week: WeekInfo, days: nat -> string, plan: SlotPlan, k: nat)
    requires k <= 6 && DaySlots(week, days, plan, k).Ok?
    ensures WeekTypes(days, plan, k).Ok?
    ensures |DaySlots(week, days, plan, k).value| == 7 - k
    ensures WeekTypes(days, plan, k).value == TypesOf(DaySlots(week, days, plan, k).value[..6 - k])
    decreases 6 - k
  {
    DaySlotsFacts(week, days, plan, k);
    if k < 6 {
      WeekTypesOfSlots(week, days, plan, k + 1);
      DaySlotsFacts(week, days, plan, k + 1);
      var slots := DaySlots(week, days, plan, k).value;
      var rest := DaySlots(week, days, plan, k + 1).value;
      assert slots == [slots[0]] + rest;
      assert slots[..6 - k] == [slots[0]] + rest[..6 - (k + 1)];
    }
  }

  /**
   * A plan that passes validation and applies gives a schedule in which no
   * slot function fills more than two of a week's Monday-to-Saturday slots.
   */
  lemma ValidatedWeekWithinLimit(week: WeekInfo, plan: SlotPlan, t: SlotFunction)
    requires WeekConstraint(week, plan).Ok? && WeekSlots(week, plan).Ok?
    ensures |WeekSlots(week, plan).value| == 7
    ensures multiset(TypesOf(WeekSlots(week, plan).value[..6]))[t] <= 2
  {
    var monday := ParseIso(week.mondayDate).value;
    WeekTypesOfSlots(week, WeekDays(monday), plan, 0);
    WeekConstraintMeaning(week, plan);
  }
}
