/**
 * The prompt fragments of the slot-planning request
 * (text-content-pipeline/src/ai_generator/prompts.py): the numbered list of
 * weekly subthemes and the calendar outline with its automated dates.
 */
module Prompts {
  import opened Wrappers
  import opened Strings
  import opened IsoDates

  // ---------------------------------------------------------------- weekly subthemes

  /** The line of subtheme `i` (0-based): `"  Week {i+1}: {subtheme}"`. */
  function SubthemeLine(i: nat, subtheme: string): string
  {
    "  Week " + NatToString(i + 1) + ": " + subtheme
  }

  function SubthemeLines(subthemes: seq<string>): (r: seq<string>)
    ensures |r| == |subthemes| && forall i :: 0 <= i < |r| ==> r[i] == SubthemeLine(i, subthemes[i])
  {
    seq(|subthemes|, i requires 0 <= i < |subthemes| => SubthemeLine(i, subthemes[i]))
  }

  /** format_weekly_subthemes (prompts.py:156-158). */
  function FormatWeeklySubthemes(subthemes: seq<string>): string
  {
    Join(SubthemeLines(subthemes), "\n")
  }

  /** A digit string holds no line break. */
  lemma DigitsExcludeNewline(s: string)
    requires AllDigits(s)
    ensures Excludes(s, '\n')
  {
  }

  /**
   * No subthemes give the empty text; otherwise, for subthemes without line
   * breaks, the lines of the text are exactly `"  Week {i+1}: {subtheme}"` in order.
   */
  lemma WeeklySubthemesLines(subthemes: seq<string>)
    requires forall i :: 0 <= i < |subthemes| ==> Excludes(subthemes[i], '\n')
    ensures subthemes == [] ==> FormatWeeklySubthemes(subthemes) == ""
    ensures subthemes != [] ==> SplitOn(FormatWeeklySubthemes(subthemes), '\n') == SubthemeLines(subthemes)
  {
    var lines := SubthemeLines(subthemes);
    forall i | 0 <= i < |lines|
      ensures Excludes(lines[i], '\n')
    {
      NatToStringFacts(i + 1);
      DigitsExcludeNewline(NatToString(i + 1));
    }
    if subthemes != [] {
      SplitOnJoin(lines, '\n');
    }
  }

  // ---------------------------------------------------------------- calendar structure

  /**
   * One entry of `calendar_info`: the keys the formatter reads. The two
   * dates are read with `.get(..., 'N/A')` and may be missing; the subtheme
   * may be `None`.
   */
  datatype WeekEntry = WeekEntry(
    weekNumber: int,
    mondayDate: Option<string>,
    sundayDate: Option<string>,
    subtheme: Option<string>,
    isVideoWeek: bool,
    month: int,
    year: int)

  /** Python's `str` of a bool. */
  function PyBool(b: bool): string
  {
    if b then "True" else "False"
  }

  /** Python's `str` of a string or `None`. */
  function PyOptStr(s: Option<string>): string
  {
    if s.Some? then s.value else "None"
  }

  function WeekHeader(w: WeekEntry): string
  {
    "  Week " + IntToString(w.weekNumber) + ": " + w.mondayDate.GetOr("N/A") + " - " + w.sundayDate.GetOr("N/A")
    + " (" + IntToString(w.month) + "-" + PyFormatInt(w.year, 2) + ")"
  }

  /** The three lines of a week: header, subtheme, video week. */
  function WeekBlock(w: WeekEntry): (string, string, string)
  {
    (WeekHeader(w), "    Subtheme: " + PyOptStr(w.subtheme), "    Video week: " + PyBool(w.isVideoWeek))
  }

  /** The lines of each entry's three-line block, in order. */
  function Blocks<T>(xs: seq<T>, block: T -> (string, string, string)): (r: seq<string>)
    ensures |r| == 3 * |xs|
    decreases |xs|
  {
    if xs == [] then []
    else
      var b := block(xs[|xs| - 1]);
      Blocks(xs[..|xs| - 1], block) + [b.0, b.1, b.2]
  }

  /** Entry `i` owns lines `3i`, `3i+1` and `3i+2`. */
  lemma {:induction false} BlocksAt<T>(xs: seq<T>, block: T -> (string, string, string), i: nat)
    requires i < |xs|
    ensures var b := block(xs[i]);
      Blocks(xs, block)[3 * i] == b.0 && Blocks(xs, block)[3 * i + 1] == b.1 && Blocks(xs, block)[3 * i + 2] == b.2
    decreases |xs|
  {
    var init := xs[..|xs| - 1];
    if i < |xs| - 1 {
      BlocksAt(init, block, i);
      assert xs[i] == init[i];
    }
  }

  /** The blocks of all weeks, in order. */
  function WeekLines(info: seq<WeekEntry>): (r: seq<string>)
    ensures |r| == 3 * |info|
  {
    Blocks(info, WeekBlock)
  }

  /** Week `i` is shown as its header, subtheme and video-week lines at `3i`, `3i+1`, `3i+2`. */
  lemma WeekLinesAt(info: seq<WeekEntry>, i: nat)
    requires i < |info|
    ensures WeekLines(info)[3 * i] == WeekHeader(info[i])
    ensures WeekLines(info)[3 * i + 1] == "    Subtheme: " + PyOptStr(info[i].subtheme)
    ensures WeekLines(info)[3 * i + 2] == "    Video week: " + PyBool(info[i].isVideoWeek)
  {
    BlocksAt(info, WeekBlock, i);
  }

  function AutomatedHeader(count: nat): string
  {
    "\nAutomated dates requiring slot assignments (" + NatToString(count) + " total):"
  }

  /** The line of an automated date with the full English name of its weekday (`%A`). */
  function DateLine(date: string, d: Date): string
    requires 1 <= d.month <= 12
  {
    "  - " + date + " (" + WeekdayName(d) + ")"
  }

  /** The lines of the automated dates, or the first date `strptime` rejects. */
  function DateLines(dates: seq<string>): Result<seq<string>, string>
    decreases |dates|
  {
    if dates == [] then Ok([])
    else
      var init := dates[..|dates| - 1];
      var last := dates[|dates| - 1];
      match DateLines(init)
      case Err(e) => Err(e)
      case Ok(lines) =>
        match ParseIso(last)
        case None => Err(last)
        case Some(d) => Ok(lines + [DateLine(last, d)])
  }

  /**
   * The date lines exist exactly when every date parses, and then line `k`
   * names date `k` and its weekday; otherwise the error is the first date
   * that does not parse.
   */
  lemma {:induction false} DateLinesFacts(dates: seq<string>)
    ensures DateLines(dates).Ok? <==> forall k :: 0 <= k < |dates| ==> ParseIso(dates[k]).Some?
    ensures DateLines(dates).Ok? ==> |DateLines(dates).value| == |dates| && forall k :: 0 <= k < |dates| ==>
      ParseIso(dates[k]).Some? && DateLines(dates).value[k] == DateLine(dates[k], ParseIso(dates[k]).value)
    ensures DateLines(dates).Err? ==>
      exists k :: 0 <= k < |dates| && ParseIso(dates[k]).None? && DateLines(dates).error == dates[k] && forall j :: 0 <= j < k ==> ParseIso(dates[j]).Some?
  {
    DateLinesOk(dates);
    DateLinesErr(dates);
  }

  lemma {:induction false} DateLinesOk(dates: seq<string>)
    ensures DateLines(dates).Ok? <==> forall k :: 0 <= k < |dates| ==> ParseIso(dates[k]).Some?
    ensures DateLines(dates).Ok? ==> |DateLines(dates).value| == |dates| && forall k :: 0 <= k < |dates| ==>
      ParseIso(dates[k]).Some? && DateLines(dates).value[k] == DateLine(dates[k], ParseIso(dates[k]).value)
  {
    DateLinesParse(dates);
    if DateLines(dates).Ok? {
      DateLinesContent(dates);
    }
  }

  lemma {:induction false} DateLinesParse(dates: seq<string>)
    ensures DateLines(dates).Ok? <==> forall k :: 0 <= k < |dates| ==> ParseIso(dates[k]).Some?
    decreases |dates|
  {
    if dates != [] {
      var n := |dates| - 1;
      var init := dates[..n];
      DateLinesParse(init);
      if DateLines(init).Err? {
        var k :| 0 <= k < n && ParseIso(init[k]).None?;
        assert dates[k] == init[k];
      } else if ParseIso(dates[n]).Some? {
        forall k | 0 <= k < n ensures ParseIso(dates[k]).Some? {
          assert dates[k] == init[k];
        }
      }
    }
  }

  lemma {:induction false} DateLinesContent(dates: seq<string>)
    requires DateLines(dates).Ok?
    ensures |DateLines(dates).value| == |dates| && forall k :: 0 <= k < |dates| ==>
      ParseIso(dates[k]).Some? && DateLines(dates).value[k] == DateLine(dates[k], ParseIso(dates[k]).value)
    decreases |dates|
  {
    if dates != [] {
      var n := |dates| - 1;
      var init := dates[..n];
      DateLinesContent(init);
      var lines := DateLines(init).value;
      assert DateLines(dates).value == lines + [DateLine(dates[n], ParseIso(dates[n]).value)];
      forall k | 0 <= k < n
        ensures ParseIso(dates[k]).Some? && DateLines(dates).value[k] == DateLine(dates[k], ParseIso(dates[k]).value)
      {
        assert dates[k] == init[k];
      }
    }
  }

  lemma {:induction false} DateLinesErr(dates: seq<string>)
    ensures DateLines(dates).Err? ==>
      exists k :: 0 <= k < |dates| && ParseIso(dates[k]).None? && DateLines(dates).error == dates[k] && forall j :: 0 <= j < k ==> ParseIso(dates[j]).Some?
    decreases |dates|
  {
    if dates != [] {
      var n := |dates| - 1;
      var init := dates[..n];
      DateLinesErr(init);
      DateLinesParse(init);
      if DateLines(init).Err? {
        var k :| 0 <= k < n && ParseIso(init[k]).None? && DateLines(init).error == init[k] && forall j :: 0 <= j < k ==> ParseIso(init[j]).Some?;
        assert dates[k] == init[k];
        assert forall j :: 0 <= j < k ==> dates[j] == init[j];
      } else if ParseIso(dates[n]).None? {
        assert forall j :: 0 <= j < n ==> dates[j] == init[j];
      }
    }
  }

  /** One more date that parses extends the lines by its line. */
  lemma DateLinesSnoc(dates: seq<string>, j: nat)
    requires j < |dates| && DateLines(dates[..j]).Ok? && ParseIso(dates[j]).Some?
    ensures DateLines(dates[..j + 1]) == Ok(DateLines(dates[..j]).value + [DateLine(dates[j], ParseIso(dates[j]).value)])
  {
    assert dates[..j + 1][..j] == dates[..j];
  }

  /** The lines of the calendar outline, or the first automated date `strptime` rejects. */
  function CalendarLines(info: seq<WeekEntry>, dates: Option<seq<string>>): Result<seq<string>, string>
  {
    if dates.None? || dates.value == [] then Ok(WeekLines(info))
    else
      match DateLines(dates.value)
      case Err(e) => Err(e)
      case Ok(lines) => Ok(WeekLines(info) + [AutomatedHeader(|dates.value|)] + lines)
  }

  /**
   * The outline has three lines per week in order; the automated-dates
   * section follows exactly when the list is given and non-empty: a header
   * with the count, then one line per date in list order.
   */
  lemma CalendarLinesFacts(info: seq<WeekEntry>, dates: Option<seq<string>>)
    ensures CalendarLines(info, dates).Ok? <==>
      dates.None? || forall k :: 0 <= k < |dates.value| ==> ParseIso(dates.value[k]).Some?
    ensures CalendarLines(info, dates).Ok? ==>
      var lines := CalendarLines(info, dates).value;
      && |lines| >= 3 * |info|
      && lines[..3 * |info|] == WeekLines(info)
      && (|lines| == 3 * |info| <==> dates.None? || dates.value == [])
    ensures CalendarLines(info, dates).Ok? && dates.Some? && dates.value != [] ==>
      var lines := CalendarLines(info, dates).value;
      var n := 3 * |info|;
      && |lines| == n + 1 + |dates.value|
      && lines[n] == AutomatedHeader(|dates.value|)
      && forall k :: 0 <= k < |dates.value| ==>
           ParseIso(dates.value[k]).Some? && lines[n + 1 + k] == DateLine(dates.value[k], ParseIso(dates.value[k]).value)
  {
    if dates.Some? {
      DateLinesFacts(dates.value);
    }
    if dates.Some? && dates.value != [] && DateLines(dates.value).Ok? {
      var lines := CalendarLines(info, dates).value;
      assert lines[..3 * |info|] == WeekLines(info);
    }
  }

  /** format_calendar_structure (prompts.py:161-177); `Err` carries the date `strptime` rejects. */
  method FormatCalendarStructure(info: seq<WeekEntry>, dates: Option<seq<string>>) returns (r: Result<string, string>)
    ensures r == JoinedLines(CalendarLines(info, dates))
  {
    var lines := WeekOutline(info);
    if dates.None? || dates.value == [] {
      return Ok(Join(lines, "\n"));
    }
    var section := DateSection(dates.value);
    if section.Err? {
      return Err(section.error);
    }
    assert lines + section.value == lines + [AutomatedHeader(|dates.value|)] + DateLines(dates.value).value;
    lines := lines + section.value;
    return Ok(Join(lines, "\n"));
  }

  /** The week loop of format_calendar_structure (prompts.py:163-167): three lines per week, in order. */
  method WeekOutline(info: seq<WeekEntry>) returns (lines: seq<string>)
    ensures lines == WeekLines(info)
  {
    lines := [];
    var i := 0;
    while i < |info|
      invariant 0 <= i <= |info|
      invariant lines == Blocks(info[..i], WeekBlock)
    {
      var w := info[i];
      ghost var before := lines;
      lines := lines + [WeekHeader(w)];
      lines := lines + ["    Subtheme: " + PyOptStr(w.subtheme)];
      lines := lines + ["    Video week: " + PyBool(w.isVideoWeek)];
      AppendThree(before, WeekBlock(w).0, WeekBlock(w).1, WeekBlock(w).2);
      BlocksSnoc(info, WeekBlock, i);
      i := i + 1;
    }
    assert info[..i] == info;
  }

  /** The lines joined with line breaks, or the error as it is. */
  function JoinedLines(lines: Result<seq<string>, string>): Result<string, string>
  {
    if lines.Err? then Err(lines.error) else Ok(Join(lines.value, "\n"))
  }

  /** The automated-dates section of format_calendar_structure (prompts.py:170-175): its header and one line per date. */
  method DateSection(all: seq<string>) returns (r: Result<seq<string>, string>)
    requires all != []
    ensures DateLines(all).Err? ==> r == Err(DateLines(all).error)
    ensures DateLines(all).Ok? ==> r == Ok([AutomatedHeader(|all|)] + DateLines(all).value)
  {
    var lines := [AutomatedHeader(|all|)];
    var j := 0;
    assert all[..0] == [];
    while j < |all|
      invariant 0 <= j <= |all|
      invariant DateLines(all[..j]).Ok? && lines == [AutomatedHeader(|all|)] + DateLines(all[..j]).value
    {
      var date := all[j];
      var dt := ParseIso(date);
      if dt.None? {
        assert DateLines(all[..j + 1]) == Err(date) by {
          assert all[..j + 1][..j] == all[..j];
        }
        DateLinesStop(all, j + 1);
        return Err(date);
      }
      DateLinesSnoc(all, j);
      lines := lines + ["  - " + date + " (" + WeekdayName(dt.value) + ")"];
      j := j + 1;
    }
    assert all[..j] == all;
    return Ok(lines);
  }

  /** Three single appends add the three lines in order. */
  lemma AppendThree(xs: seq<string>, a: string, b: string, c: string)
    ensures xs + [a] + [b] + [c] == xs + [a, b, c]
  {
  }

  lemma BlocksSnoc<T>(xs: seq<T>, block: T -> (string, string, string), i: nat)
    requires i < |xs|
    ensures Blocks(xs[..i + 1], block) == Blocks(xs[..i], block) + [block(xs[i]).0, block(xs[i]).1, block(xs[i]).2]
  {
    assert xs[..i + 1][..i] == xs[..i];
  }

  /** Once a prefix of the dates fails, the whole list fails with the same date. */
  lemma {:induction false} DateLinesStop(dates: seq<string>, j: nat)
    requires j <= |dates| && DateLines(dates[..j]).Err?
    ensures DateLines(dates) == DateLines(dates[..j])
    decreases |dates| - j
  {
    if j < |dates| {
      assert dates[..j + 1][..j] == dates[..j];
      DateLinesStop(dates, j + 1);
    } else {
      assert dates[..j] == dates;
    }
  }
}
