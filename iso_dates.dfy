/**
 * Proleptic Gregorian calendar dates as Python's `datetime` sees them:
 * day ordinals (`toordinal`, 0001-01-01 is day 1), `weekday()` with
 * Monday = 0, day arithmetic (`+ timedelta(days=n)`), and the ISO 8601
 * `YYYY-MM-DD` text written by `strftime("%Y-%m-%d")` and read back by
 * `strptime`.
 */
module IsoDates {
  import opened Wrappers
  import opened Strings

  datatype Date = Date(year: int, month: int, day: int)

  predicate IsLeap(y: int)
  {
    y % 4 == 0 && (y % 100 != 0 || y % 400 == 0)
  }

  function DaysInMonth(y: int, m: int): (r: int)
    requires 1 <= m <= 12
    ensures 28 <= r <= 31
    ensures m == 2 ==> (r == 29 <==> IsLeap(y))
  {
    if m == 2 then (if IsLeap(y) then 29 else 28)
    else if m == 4 || m == 6 || m == 9 || m == 11 then 30
    else 31
  }

  /** A day of the proleptic Gregorian calendar from year 1 on. */
  predicate Proleptic(d: Date)
  {
    1 <= d.year && 1 <= d.month <= 12 && 1 <= d.day <= DaysInMonth(d.year, d.month)
  }

  /** `datetime(year, month, day)` accepts exactly these (MINYEAR 1, MAXYEAR 9999). */
  predicate ValidDate(d: Date)
  {
    Proleptic(d) && d.year <= 9999
  }

  function DaysBeforeMonth(y: int, m: int): int
    requires 1 <= m <= 12
  {
    if m == 1 then 0 else DaysBeforeMonth(y, m - 1) + DaysInMonth(y, m - 1)
  }

  function DaysBeforeYear(y: int): int
  {
    var p := y - 1;
    p * 365 + p / 4 - p / 100 + p / 400
  }

  /** `date.toordinal()`. */
  function Ordinal(d: Date): int
    requires 1 <= d.month <= 12
  {
    DaysBeforeYear(d.year) + DaysBeforeMonth(d.year, d.month) + d.day
  }

  /** `date.weekday()`: 0 is Monday, 6 is Sunday. */
  function Weekday(d: Date): (w: int)
    requires 1 <= d.month <= 12
    ensures 0 <= w < 7
  {
    (Ordinal(d) + 6) % 7
  }

  /** The day after `d`. */
  function NextDay(d: Date): Date
    requires Proleptic(d)
  {
    if d.day < DaysInMonth(d.year, d.month) then Date(d.year, d.month, d.day + 1)
    else if d.month < 12 then Date(d.year, d.month + 1, 1)
    else Date(d.year + 1, 1, 1)
  }

  /** `d + timedelta(days=n)`. */
  function AddDays(d: Date, n: nat): Date
    requires Proleptic(d)
    decreases n
  {
    if n == 0 then d
    else
      NextDayFacts(d);
      AddDays(NextDay(d), n - 1)
  }

  lemma YearLength(y: int)
    requires y >= 1
    ensures DaysBeforeMonth(y, 12) + 31 == if IsLeap(y) then 366 else 365
    ensures DaysBeforeYear(y + 1) == DaysBeforeYear(y) + DaysBeforeMonth(y, 12) + 31
  {
    MonthTable(y);
    LeapDays(y);
  }

  /** The days before December: eleven months, February's length varying. */
  lemma MonthTable(y: int)
    ensures DaysBeforeMonth(y, 12) == 306 + DaysInMonth(y, 2)
  {
    assert DaysBeforeMonth(y, 2) == 31;
    assert DaysBeforeMonth(y, 3) == 31 + DaysInMonth(y, 2);
    assert DaysBeforeMonth(y, 4) == 62 + DaysInMonth(y, 2);
    assert DaysBeforeMonth(y, 5) == 92 + DaysInMonth(y, 2);
    assert DaysBeforeMonth(y, 6) == 123 + DaysInMonth(y, 2);
    assert DaysBeforeMonth(y, 7) == 153 + DaysInMonth(y, 2);
    assert DaysBeforeMonth(y, 8) == 184 + DaysInMonth(y, 2);
    assert DaysBeforeMonth(y, 9) == 215 + DaysInMonth(y, 2);
    assert DaysBeforeMonth(y, 10) == 245 + DaysInMonth(y, 2);
    assert DaysBeforeMonth(y, 11) == 276 + DaysInMonth(y, 2);
  }

  /** A year adds one day to the count of days before the next year exactly when it is a leap year. */
  lemma LeapDays(y: int)
    ensures DaysBeforeYear(y + 1) == DaysBeforeYear(y) + if IsLeap(y) then 366 else 365
  {
    StepOver4(y);
    StepOver100(y);
    StepOver400(y);
  }

  lemma StepOver4(y: int)
    ensures y / 4 - (y - 1) / 4 == if y % 4 == 0 then 1 else 0
  {
  }

  lemma StepOver100(y: int)
    ensures y / 100 - (y - 1) / 100 == if y % 100 == 0 then 1 else 0
  {
  }

  lemma StepOver400(y: int)
    ensures y / 400 - (y - 1) / 400 == if y % 400 == 0 then 1 else 0
  {
  }

  /** The next day is a calendar day one ordinal later. */
  lemma NextDayFacts(d: Date)
    requires Proleptic(d)
    ensures Proleptic(NextDay(d)) && Ordinal(NextDay(d)) == Ordinal(d) + 1
    ensures NextDay(d).year <= d.year + 1
  {
    if d.day == DaysInMonth(d.year, d.month) && d.month == 12 {
      YearLength(d.year);
    }
  }

  /** Adding `n` days never goes back a year and moves forward at most `n` years. */
  lemma {:induction false} AddDaysYears(d: Date, n: nat)
    requires Proleptic(d)
    ensures Proleptic(AddDays(d, n)) && d.year <= AddDays(d, n).year <= d.year + n
    decreases n
  {
    if n > 0 {
      NextDayFacts(d);
      AddDaysYears(NextDay(d), n - 1);
    }
  }

  /** Adding `n` days moves the ordinal by `n`. */
  lemma {:induction false} AddDaysOrdinal(d: Date, n: nat)
    requires Proleptic(d)
    ensures Proleptic(AddDays(d, n)) && Ordinal(AddDays(d, n)) == Ordinal(d) + n
    decreases n
  {
    if n > 0 {
      NextDayFacts(d);
      AddDaysOrdinal(NextDay(d), n - 1);
    }
  }

  /** Adding `n` days moves the weekday by `n` modulo 7. */
  lemma AddDaysWeekday(d: Date, n: nat)
    requires Proleptic(d)
    ensures Proleptic(AddDays(d, n)) && Weekday(AddDays(d, n)) == (Weekday(d) + n) % 7
  {
    AddDaysOrdinal(d, n);
    ShiftMod7(Ordinal(d) + 6, n);
  }

  /** Shifting by `n` commutes with reduction modulo 7. */
  lemma ShiftMod7(a: int, n: int)
    ensures (a + n) % 7 == (a % 7 + n) % 7
  {
    var q := a / 7;
    assert a == 7 * q + a % 7;
    assert a + n == 7 * q + (a % 7 + n);
  }

  /** Dates a different number of days away from the same date are different dates. */
  lemma AddDaysDistinct(d: Date, i: nat, j: nat)
    requires Proleptic(d) && i != j
    ensures AddDays(d, i) != AddDays(d, j)
  {
    AddDaysOrdinal(d, i);
    AddDaysOrdinal(d, j);
  }

  // ---------------------------------------------------------------- Mondays of a month

  /** `datetime(year, month, day)` exists and is a Monday. */
  predicate IsMonday(year: int, month: int, day: int)
  {
    ValidDate(Date(year, month, day)) && Weekday(Date(year, month, day)) == 0
  }

  function MondayTest(year: int, month: int): int -> bool
  {
    d => IsMonday(year, month, d)
  }

  /** The dates of the month whose day `d` lies in `1..n-1` and satisfies `keep(d)`, ascending. */
  function DaysUpTo(year: int, month: int, keep: int -> bool, n: int): seq<Date>
    decreases n
  {
    if n <= 1 then [] else DaysUpTo(year, month, keep, n - 1) + (if keep(n - 1) then [Date(year, month, n - 1)] else [])
  }

  /** The Mondays of a month in ascending order; empty when the month cannot be constructed. */
  function MondaysIn(year: int, month: int): seq<Date>
  {
    DaysUpTo(year, month, MondayTest(year, month), 32)
  }

  /** `x` is a date of the month whose day lies in `1..n-1` and satisfies `keep`. */
  predicate SelectedBelow(year: int, month: int, keep: int -> bool, n: int, x: Date)
  {
    x == Date(year, month, x.day) && 1 <= x.day < n && keep(x.day)
  }

  /** The selected dates are days of the month below `n` that satisfy `keep`, in ascending order. */
  lemma {:induction false} DaysUpToFacts(year: int, month: int, keep: int -> bool, n: int)
    ensures forall k :: 0 <= k < |DaysUpTo(year, month, keep, n)| ==> SelectedBelow(year, month, keep, n, DaysUpTo(year, month, keep, n)[k])
    ensures forall k, l :: 0 <= k < l < |DaysUpTo(year, month, keep, n)| ==> DaysUpTo(year, month, keep, n)[k].day < DaysUpTo(year, month, keep, n)[l].day
    decreases n
  {
    if n > 1 {
      DaysUpToFacts(year, month, keep, n - 1);
      var t := DaysUpTo(year, month, keep, n - 1);
      var r := DaysUpTo(year, month, keep, n);
      forall k | 0 <= k < |t| ensures SelectedBelow(year, month, keep, n, t[k]) {
        assert SelectedBelow(year, month, keep, n - 1, t[k]);
      }
      if keep(n - 1) {
        assert r == t + [Date(year, month, n - 1)];
      } else {
        assert r == t;
      }
    }
  }

  /** Every day below `n` that satisfies `keep` is selected. */
  lemma {:induction false} DaysUpToComplete(year: int, month: int, keep: int -> bool, n: int, d: int)
    requires 1 <= d < n && keep(d)
    ensures Date(year, month, d) in DaysUpTo(year, month, keep, n)
    decreases n
  {
    if d < n - 1 {
      DaysUpToComplete(year, month, keep, n - 1, d);
    }
  }

  /** A date is in `MondaysIn(year, month)` exactly when it is a Monday of that month. */
  lemma MondaysInExact(year: int, month: int, d: Date)
    ensures d in MondaysIn(year, month) <==> d.year == year && d.month == month && d.day >= 1 && IsMonday(year, month, d.day)
  {
    DaysUpToFacts(year, month, MondayTest(year, month), 32);
    if d.year == year && d.month == month && d.day >= 1 && IsMonday(year, month, d.day) {
      DaysUpToComplete(year, month, MondayTest(year, month), 32, d.day);
    }
  }

  /** `m` is a Monday of the given month. */
  predicate MondayOf(year: int, month: int, m: Date)
  {
    m.year == year && m.month == month && IsMonday(year, month, m.day)
  }

  /** Every entry of `MondaysIn(year, month)` is a Monday of that month, and they ascend. */
  lemma MondaysInFacts(year: int, month: int)
    ensures forall k :: 0 <= k < |MondaysIn(year, month)| ==> MondayOf(year, month, MondaysIn(year, month)[k])
    ensures forall k, l :: 0 <= k < l < |MondaysIn(year, month)| ==> MondaysIn(year, month)[k].day < MondaysIn(year, month)[l].day
  {
    var keep := MondayTest(year, month);
    DaysUpToFacts(year, month, keep, 32);
    forall k | 0 <= k < |MondaysIn(year, month)| ensures MondayOf(year, month, MondaysIn(year, month)[k]) {
      var m := MondaysIn(year, month)[k];
      assert SelectedBelow(year, month, keep, 32, m);
      assert keep(m.day) == IsMonday(year, month, m.day);
    }
  }

  lemma WeekdayInMonth(year: int, month: int, day: int)
    requires 1 <= month <= 12
    ensures Weekday(Date(year, month, day)) == (DaysBeforeYear(year) + DaysBeforeMonth(year, month) + day + 6) % 7
  {
  }

  function MondayAt(year: int, month: int, day: int): nat
  {
    if IsMonday(year, month, day) then 1 else 0
  }

  /** Day `day + k` of a month is a Monday when the weekday of `day` plus `k` wraps to 0. */
  lemma MondayShift(year: int, month: int, day: int, k: nat)
    requires 1 <= year <= 9999 && 1 <= month <= 12 && 1 <= day && day + k <= DaysInMonth(year, month)
    ensures MondayAt(year, month, day + k) == Hit(Weekday(Date(year, month, day)), k)
  {
    WeekdayInMonth(year, month, day);
    WeekdayInMonth(year, month, day + k);
    ShiftMod7(DaysBeforeYear(year) + DaysBeforeMonth(year, month) + day + 6, k);
  }

  function Hit(w: int, k: int): int
  {
    if (w + k) % 7 == 0 then 1 else 0
  }

  /** 1 when day `d` is kept, else 0. */
  function Kept(keep: int -> bool, d: int): nat
  {
    if keep(d) then 1 else 0
  }

  /** The number of kept days among days `day + i .. day + 6`. */
  function KeptAmong(keep: int -> bool, day: int, i: nat): nat
    requires i <= 7
    decreases 7 - i
  {
    if i == 7 then 0 else Kept(keep, day + i) + KeptAmong(keep, day, i + 1)
  }

  /** The number of `k` in `i..6` with `w + k` divisible by 7. */
  function HitsAmong(w: int, i: nat): int
    requires i <= 7
    decreases 7 - i
  {
    if i == 7 then 0 else Hit(w, i) + HitsAmong(w, i + 1)
  }

  lemma OneOfSeven(w: int)
    requires 0 <= w < 7
    ensures HitsAmong(w, 0) == 1
  {
    if w == 0 {
    } else if w == 1 {
    } else if w == 2 {
    } else if w == 3 {
    } else if w == 4 {
    } else if w == 5 {
    } else {
    }
  }

  lemma {:induction false} MondaysAmongHits(year: int, month: int, day: int, i: nat)
    requires 1 <= year <= 9999 && 1 <= month <= 12 && 1 <= day && day + 6 <= DaysInMonth(year, month) && i <= 7
    ensures KeptAmong(MondayTest(year, month), day, i) == HitsAmong(Weekday(Date(year, month, day)), i)
    decreases 7 - i
  {
    if i < 7 {
      MondayShift(year, month, day, i);
      MondaysAmongHits(year, month, day, i + 1);
      assert Kept(MondayTest(year, month), day + i) == MondayAt(year, month, day + i);
    }
  }

  /** The days kept below `n + 1` are those below `n`, and `n` when it is kept. */
  lemma CountOne(year: int, month: int, keep: int -> bool, n: int)
    requires n >= 1
    ensures |DaysUpTo(year, month, keep, n + 1)| == |DaysUpTo(year, month, keep, n)| + Kept(keep, n)
  {
  }

  lemma {:induction false} CountAmong(year: int, month: int, keep: int -> bool, day: int, i: nat)
    requires 1 <= day && i <= 7
    ensures |DaysUpTo(year, month, keep, day + 7)| == |DaysUpTo(year, month, keep, day + i)| + KeptAmong(keep, day, i)
    decreases 7 - i
  {
    if i < 7 {
      CountAmong(year, month, keep, day, i + 1);
      CountOne(year, month, keep, day + i);
    }
  }

  /** Seven consecutive days of one month hold exactly one Monday. */
  lemma SevenDays(year: int, month: int, day: int)
    requires 1 <= year <= 9999 && 1 <= month <= 12 && 1 <= day && day + 6 <= DaysInMonth(year, month)
    ensures |DaysUpTo(year, month, MondayTest(year, month), day + 7)| == 1 + |DaysUpTo(year, month, MondayTest(year, month), day)|
  {
    OneOfSeven(Weekday(Date(year, month, day)));
    MondaysAmongHits(year, month, day, 0);
    CountAmong(year, month, MondayTest(year, month), day, 0);
  }

  lemma AtMostOneOfThree(w: int)
    requires 0 <= w < 7
    ensures Hit(w, 0) + Hit(w, 1) + Hit(w, 2) <= 1
    ensures Hit(w, 0) + Hit(w, 1) <= 1
  {
    if w == 0 {
    } else if w == 1 {
    } else if w == 2 {
    } else if w == 3 {
    } else if w == 4 {
    } else if w == 5 {
    } else {
    }
  }

  /** Days 29..31 hold at most one Monday. */
  lemma LastDays(year: int, month: int)
    requires 1 <= year <= 9999 && 1 <= month <= 12
    ensures MondayAt(year, month, 29) + MondayAt(year, month, 30) + MondayAt(year, month, 31) <= 1
  {
    var dim := DaysInMonth(year, month);
    if dim >= 29 {
      var w := Weekday(Date(year, month, 29));
      AtMostOneOfThree(w);
      MondayShift(year, month, 29, 0);
      if dim >= 30 {
        MondayShift(year, month, 29, 1);
      }
      if dim >= 31 {
        MondayShift(year, month, 29, 2);
      }
    }
  }

  /** Every month of a representable year has four or five Mondays; five exactly when day 29, 30 or 31 is one. */
  lemma MondayCount(year: int, month: int)
    requires 1 <= year <= 9999 && 1 <= month <= 12
    ensures 4 <= |MondaysIn(year, month)| <= 5
    ensures |MondaysIn(year, month)| == 5 <==> IsMonday(year, month, 29) || IsMonday(year, month, 30) || IsMonday(year, month, 31)
  {
    var keep := MondayTest(year, month);
    SevenDays(year, month, 1);
    SevenDays(year, month, 8);
    SevenDays(year, month, 15);
    SevenDays(year, month, 22);
    LastDays(year, month);
    assert keep(29) == IsMonday(year, month, 29);
    assert keep(30) == IsMonday(year, month, 30);
    assert keep(31) == IsMonday(year, month, 31);
    assert |DaysUpTo(year, month, keep, 32)| == |DaysUpTo(year, month, keep, 29)|
      + MondayAt(year, month, 29) + MondayAt(year, month, 30) + MondayAt(year, month, 31);
  }

  /** February 2026 has four Mondays. */
  lemma MondaysFebruary2026()
    ensures |MondaysIn(2026, 2)| == 4
  {
    MondayCount(2026, 2);
    assert DaysInMonth(2026, 2) == 28;
  }

  /** March 2026 has five Mondays, the last on the 30th. */
  lemma MondaysMarch2026()
    ensures |MondaysIn(2026, 3)| == 5
  {
    MondayCount(2026, 3);
    March30();
  }

  lemma March30()
    ensures IsMonday(2026, 3, 30)
  {
    assert DaysBeforeYear(2026) == 739616;
    assert DaysBeforeMonth(2026, 3) == 59;
    assert Ordinal(Date(2026, 3, 30)) == 739705;
  }

  // ---------------------------------------------------------------- ISO 8601 text

  /** `strftime("%Y-%m-%d")` for a year of four digits. */
  function Iso(d: Date): string
  {
    PyFormatInt(d.year, 4) + "-" + PyFormatInt(d.month, 2) + "-" + PyFormatInt(d.day, 2)
  }

  /** A month for `%m`, or a day for `%d`: one or two ASCII digits. */
  function ShortNumber(t: string): Option<nat>
  {
    if 1 <= |t| <= 2 && AllDigits(t) then Some(DigitsValue(t)) else None
  }

  /** `%d` also reads a blank followed by a digit from 1 to 9. */
  function DayNumber(t: string): Option<nat>
  {
    if |t| == 2 && t[0] == ' ' && '1' <= t[1] <= '9' then Some(t[1] as int - '0' as int) else ShortNumber(t)
  }

  /**
   * `strptime(s, "%Y-%m-%d")`: four digits, `-`, a month of one or two digits, `-`, and a day of one or
   * two digits or a blank and a digit, with nothing after; `None` stands for the `ValueError`, raised
   * also for a date the calendar lacks.
   */
  function ParseIso(s: string): (r: Option<Date>)
    ensures r.Some? ==> ValidDate(r.value)
  {
    if |s| < 7 || s[4] != '-' || !AllDigits(s[..4]) then None
    else
      var rest := s[5..];
      var cut := if rest[1] == '-' then 1 else 2;
      if cut >= |rest| || rest[cut] != '-' then None
      else
        match (ShortNumber(rest[..cut]), DayNumber(rest[cut + 1..]))
        case (Some(month), Some(day)) =>
          var d := Date(DigitsValue(s[..4]), month, day);
          if ValidDate(d) then Some(d) else None
        case _ => None
  }

  /** Reading back the text of a date gives the date. */
  lemma IsoRoundTrip(d: Date)
    requires ValidDate(d) && d.year >= 1000
    ensures |Iso(d)| == 10
    ensures ParseIso(Iso(d)) == Some(d)
  {
    assert Pow10(2) == 100 && Pow10(4) == 10000;
    PadWidthExact(d.year, 4);
    PadWidthExact(d.month, 2);
    PadWidthExact(d.day, 2);
    PyFormatIntFacts(d.year, 4);
    PyFormatIntFacts(d.month, 2);
    PyFormatIntFacts(d.day, 2);
    var s := Iso(d);
    var rest := s[5..];
    assert s[..4] == PyFormatInt(d.year, 4);
    assert rest[..2] == PyFormatInt(d.month, 2);
    assert IsDigit(rest[1]) && rest[2] == '-';
    assert rest[3..] == PyFormatInt(d.day, 2);
  }

  /** The text with month and day left unpadded, as in `2025-1-5`, reads back as the date too. */
  lemma UnpaddedRoundTrip(d: Date)
    requires ValidDate(d) && d.year >= 1000
    ensures ParseIso(PyFormatInt(d.year, 4) + "-" + NatToString(d.month) + "-" + NatToString(d.day)) == Some(d)
  {
    assert Pow10(4) == 10000;
    PadWidthExact(d.year, 4);
    PyFormatIntFacts(d.year, 4);
    var y, m, t := PyFormatInt(d.year, 4), NatToString(d.month), NatToString(d.day);
    ShortDigits(d.month);
    ShortDigits(d.day);
    var s := y + "-" + m + "-" + t;
    var rest := s[5..];
    assert s[..4] == y;
    assert rest == m + "-" + t;
    assert rest[..|m|] == m && rest[|m| + 1..] == t;
  }

  /** A number below 100 is written with one or two digits and read back. */
  lemma ShortDigits(n: nat)
    requires n < 100
    ensures 1 <= |NatToString(n)| <= 2
    ensures ShortNumber(NatToString(n)) == Some(n)
  {
    DigitsValueOfNatToString(n);
    if n >= 10 {
      assert NatToString(n) == NatToString(n / 10) + [DigitChar(n % 10)];
    }
  }

  /** Different dates have different texts. */
  lemma IsoInjective(a: Date, b: Date)
    requires ValidDate(a) && a.year >= 1000 && ValidDate(b) && b.year >= 1000
    requires Iso(a) == Iso(b)
    ensures a == b
  {
    IsoRoundTrip(a);
    IsoRoundTrip(b);
  }

  /** `strftime("%A")`. */
  function WeekdayName(d: Date): (r: string)
    requires 1 <= d.month <= 12
    ensures Weekday(d) == 0 <==> r == "Monday"
  {
    ["Monday", "Tuesday", "Wednesday", "Thursday", "Friday", "Saturday", "Sunday"][Weekday(d)]
  }
}
