/**
 * Output file names of rendered post images
 * (text-content-pipeline/src/renderer/html_renderer.py, get_output_path and
 * its inner sanitize): a date prefix, the sanitised theme, the week, the
 * sanitised subtheme and slot type, and the image extension.
 */
module OutputPaths {
  import opened Strings

  /** The extension of rendered images (`IMAGE_FORMAT`). */
  const ImageFormat: string := "png"

  /** A character of the regular-expression class `\w`, restricted to ASCII. */
  predicate IsWordChar(c: char)
  {
    ('a' <= c <= 'z') || ('A' <= c <= 'Z') || ('0' <= c <= '9') || c == '_'
  }

  /** A character the first substitution keeps: `\w`, `\s` or `-`. */
  predicate Kept(c: char)
  {
    IsWordChar(c) || IsPySpace(c) || c == '-'
  }

  /** A character a sanitised name may hold: `\w` or `-`. */
  predicate NameChar(c: char)
  {
    IsWordChar(c) || c == '-'
  }

  predicate AllNameChars(s: string)
  {
    forall i :: 0 <= i < |s| ==> NameChar(s[i])
  }

  /** `re.sub(r'[^\w\s-]', '', s)`: drops every character that is not kept. */
  function DropUnsafe(s: string): (r: string)
    ensures |r| <= |s|
    ensures forall i :: 0 <= i < |r| ==> Kept(r[i])
  {
    if s == [] then [] else (if Kept(s[0]) then [s[0]] else []) + DropUnsafe(s[1..])
  }

  /** `re.sub(r'\s+', '-', s)` on the rest of `s`, where `inRun` says the previous character was whitespace. */
  function DashFrom(s: string, inRun: bool): string
  {
    if s == [] then []
    else if IsPySpace(s[0]) then (if inRun then [] else "-") + DashFrom(s[1..], true)
    else [s[0]] + DashFrom(s[1..], false)
  }

  /** `re.sub(r'\s+', '-', s)`: each maximal run of whitespace becomes one `-`. */
  function DashRuns(s: string): string
  {
    DashFrom(s, false)
  }

  /** The first `n` characters, or all of a shorter text (`s[:n] if len(s) > n else s`). */
  function Truncate(s: string, n: nat): (r: string)
  {
    if |s| > n then s[..n] else s
  }

  /** sanitize (html_renderer.py:153-156). */
  function Sanitize(s: string): string
  {
    Truncate(DashRuns(DropUnsafe(s)), 80)
  }

  /** Dashing keeps every non-whitespace character and adds only dashes, so no whitespace is left. */
  lemma {:induction false} DashFromFacts(s: string, inRun: bool)
    ensures forall i :: 0 <= i < |DashFrom(s, inRun)| ==> !IsPySpace(DashFrom(s, inRun)[i])
    ensures (forall i :: 0 <= i < |s| ==> Kept(s[i])) ==> AllNameChars(DashFrom(s, inRun))
    ensures NoSpace(s) ==> DashFrom(s, inRun) == s
    decreases |s|
  {
    if s != [] {
      DashFromFacts(s[1..], IsPySpace(s[0]));
      var rest := DashFrom(s[1..], IsPySpace(s[0]));
      var head: string := if IsPySpace(s[0]) then (if inRun then [] else "-") else [s[0]];
      assert DashFrom(s, inRun) == head + rest;
      if NoSpace(s) {
        assert NoSpace(s[1..]);
        assert s == [s[0]] + s[1..];
      }
    }
  }

  /** Text made of name characters is left alone by the first substitution. */
  lemma {:induction false} DropUnsafeKeepsNames(s: string)
    requires AllNameChars(s)
    ensures DropUnsafe(s) == s
    decreases |s|
  {
    if s != [] {
      DropUnsafeKeepsNames(s[1..]);
      assert s == [s[0]] + s[1..];
    }
  }

  /**
   * A sanitised name has at most 80 characters, all of them `\w` or `-`;
   * sanitising it again changes nothing, and a name already of that form is
   * its own sanitisation.
   */
  lemma SanitizeFacts(s: string)
    ensures |Sanitize(s)| <= 80
    ensures AllNameChars(Sanitize(s))
    ensures Sanitize(Sanitize(s)) == Sanitize(s)
    ensures AllNameChars(s) && |s| <= 80 ==> Sanitize(s) == s
  {
    var d := DashRuns(DropUnsafe(s));
    DashFromFacts(DropUnsafe(s), false);
    var r := Sanitize(s);
    assert AllNameChars(r);
    NameCharsFixed(r);
    if AllNameChars(s) && |s| <= 80 {
      NameCharsFixed(s);
    }
  }

  /** Name characters hold no whitespace, so sanitising a short name returns it. */
  lemma NameCharsFixed(s: string)
    requires AllNameChars(s) && |s| <= 80
    ensures Sanitize(s) == s
  {
    DropUnsafeKeepsNames(s);
    assert NoSpace(s);
    DashFromFacts(s, false);
  }

  /** The subtheme part: the sanitised subtheme, or `weekNN` for an empty one. */
  function SubthemePart(subtheme: string, weekNumber: int): string
  {
    if subtheme != "" then Sanitize(subtheme) else "week" + PyFormatInt(weekNumber, 2)
  }

  /** `{year:04d}{month:02d}{day:02d}`. */
  function DatePrefix(year: int, month: int, day: int): string
  {
    PyFormatInt(year, 4) + PyFormatInt(month, 2) + PyFormatInt(day, 2)
  }

  /** `_week{week:02d}_`. */
  function WeekTag(weekNumber: int): string
  {
    "_week" + PyFormatInt(weekNumber, 2) + "_"
  }

  /** `{subtheme}_{type}.png`. */
  function NameTail(subtheme: string, weekNumber: int, slotType: string): string
  {
    SubthemePart(subtheme, weekNumber) + "_" + Sanitize(slotType) + "." + ImageFormat
  }

  /** The file name `{year:04d}{month:02d}{day:02d}_{theme}_week{week:02d}_{subtheme}_{type}.png`. */
  function FileName(year: int, month: int, day: int, monthlyTheme: string, weekNumber: int,
                    subtheme: string, slotType: string): string
  {
    DatePrefix(year, month, day) + "_" + Sanitize(monthlyTheme) + WeekTag(weekNumber) + NameTail(subtheme, weekNumber, slotType)
  }

  /** get_output_path (html_renderer.py:129-163); `imagesDir` stands for `IMAGES_DIR`. */
  function OutputPath(imagesDir: string, year: int, month: int, day: int, monthlyTheme: string,
                      weekNumber: int, subtheme: string, slotType: string): string
  {
    imagesDir + "/" + FileName(year, month, day, monthlyTheme, weekNumber, subtheme, slotType)
  }

  /** `PyFormatInt` never writes a path separator. */
  lemma NoSlashInNumber(i: int, width: nat)
    ensures Excludes(PyFormatInt(i, width), '/')
  {
    PyFormatIntFacts(i, width);
  }

  /** A text of name characters holds no path separator. */
  lemma NameCharsNoSlash(s: string)
    requires AllNameChars(s)
    ensures Excludes(s, '/')
  {
  }

  /** The path is the images directory, a separator and a file name without separators that ends in `.png`. */
  lemma OutputPathUnderImages(imagesDir: string, year: int, month: int, day: int, monthlyTheme: string,
                              weekNumber: int, subtheme: string, slotType: string)
    ensures var name := FileName(year, month, day, monthlyTheme, weekNumber, subtheme, slotType);
      && OutputPath(imagesDir, year, month, day, monthlyTheme, weekNumber, subtheme, slotType) == imagesDir + "/" + name
      && Excludes(name, '/')
      && EndsWith(name, ".png")
  {
    var head := DatePrefix(year, month, day);
    var theme := Sanitize(monthlyTheme);
    var tag := WeekTag(weekNumber);
    var tail := NameTail(subtheme, weekNumber, slotType);
    HeadNoSlash(year, month, day, monthlyTheme, weekNumber);
    TailNoSlash(subtheme, weekNumber, slotType);
    ConcatExcludes(head + "_", theme, '/');
    ConcatExcludes(head + "_" + theme, tag, '/');
    ConcatExcludes(head + "_" + theme + tag, tail, '/');
    TailEndsPng(subtheme, weekNumber, slotType);
    EndsWithConcat(head + "_" + theme + tag, tail, ".png");
  }

  /** A suffix of the back part of a concatenation is a suffix of the whole. */
  lemma EndsWithConcat(a: string, b: string, suffix: string)
    requires EndsWith(b, suffix)
    ensures EndsWith(a + b, suffix)
  {
    assert (a + b)[|a + b| - |suffix|..] == b[|b| - |suffix|..];
  }

  lemma HeadNoSlash(year: int, month: int, day: int, monthlyTheme: string, weekNumber: int)
    ensures Excludes(DatePrefix(year, month, day) + "_", '/')
    ensures Excludes(Sanitize(monthlyTheme), '/')
    ensures Excludes(WeekTag(weekNumber), '/')
  {
    NoSlashInNumber(year, 4);
    NoSlashInNumber(month, 2);
    NoSlashInNumber(day, 2);
    ConcatExcludes(PyFormatInt(year, 4), PyFormatInt(month, 2), '/');
    ConcatExcludes(PyFormatInt(year, 4) + PyFormatInt(month, 2), PyFormatInt(day, 2), '/');
    ConcatExcludes(DatePrefix(year, month, day), "_", '/');
    SanitizeFacts(monthlyTheme);
    NameCharsNoSlash(Sanitize(monthlyTheme));
    NoSlashInNumber(weekNumber, 2);
    ConcatExcludes("_week", PyFormatInt(weekNumber, 2), '/');
    ConcatExcludes("_week" + PyFormatInt(weekNumber, 2), "_", '/');
  }

  lemma TailNoSlash(subtheme: string, weekNumber: int, slotType: string)
    ensures Excludes(NameTail(subtheme, weekNumber, slotType), '/')
  {
    var sub := SubthemePart(subtheme, weekNumber);
    if subtheme != "" {
      SanitizeFacts(subtheme);
      NameCharsNoSlash(sub);
    } else {
      NoSlashInNumber(weekNumber, 2);
      ConcatExcludes("week", PyFormatInt(weekNumber, 2), '/');
    }
    SanitizeFacts(slotType);
    NameCharsNoSlash(Sanitize(slotType));
    ConcatExcludes(sub, "_", '/');
    ConcatExcludes(sub + "_", Sanitize(slotType), '/');
    ConcatExcludes(sub + "_" + Sanitize(slotType), ".", '/');
    ConcatExcludes(sub + "_" + Sanitize(slotType) + ".", ImageFormat, '/');
  }

  lemma TailEndsPng(subtheme: string, weekNumber: int, slotType: string)
    ensures EndsWith(NameTail(subtheme, weekNumber, slotType), ".png")
  {
    var front := SubthemePart(subtheme, weekNumber) + "_" + Sanitize(slotType);
    assert NameTail(subtheme, weekNumber, slotType) == front + ".png";
  }

  lemma ConcatExcludes(a: string, b: string, c: char)
    requires Excludes(a, c) && Excludes(b, c)
    ensures Excludes(a + b, c)
  {
  }

  /** For a calendar date the file name starts with the eight digits of year, month and day. */
  lemma FileNameDatePrefix(year: int, month: int, day: int, monthlyTheme: string,
                           weekNumber: int, subtheme: string, slotType: string)
    requires 0 <= year <= 9999 && 1 <= month <= 12 && 1 <= day <= 31
    ensures var name := FileName(year, month, day, monthlyTheme, weekNumber, subtheme, slotType);
      && |name| >= 9 && name[..8] == DatePrefix(year, month, day) && name[8] == '_'
      && AllDigits(name[..4]) && AllDigits(name[4..6]) && AllDigits(name[6..8])
      && DigitsValue(name[..4]) == year && DigitsValue(name[4..6]) == month && DigitsValue(name[6..8]) == day
  {
    DatePrefixDigits(year, month, day);
    var head := DatePrefix(year, month, day);
    var name := FileName(year, month, day, monthlyTheme, weekNumber, subtheme, slotType);
    var a2 := head + "_" + Sanitize(monthlyTheme);
    var a3 := a2 + WeekTag(weekNumber);
    SliceOfFront(a3, NameTail(subtheme, weekNumber, slotType), 0, 9);
    SliceOfFront(a2, WeekTag(weekNumber), 0, 9);
    SliceOfFront(head + "_", Sanitize(monthlyTheme), 0, 9);
    assert name[..9] == head + "_";
    assert name == head + name[8..];
    DigitsBeforeUnderscore(head, name[8..], year, month, day);
  }

  /** Eight date digits followed by `_...` keep their fields at fixed offsets. */
  lemma DigitsBeforeUnderscore(head: string, rest: string, year: int, month: int, day: int)
    requires |head| == 8 && |rest| >= 1 && rest[0] == '_'
    requires AllDigits(head[..4]) && AllDigits(head[4..6]) && AllDigits(head[6..8])
    requires DigitsValue(head[..4]) == year && DigitsValue(head[4..6]) == month && DigitsValue(head[6..8]) == day
    ensures var name := head + rest;
      && |name| >= 9 && name[..8] == head && name[8] == '_'
      && AllDigits(name[..4]) && AllDigits(name[4..6]) && AllDigits(name[6..8])
      && DigitsValue(name[..4]) == year && DigitsValue(name[4..6]) == month && DigitsValue(name[6..8]) == day
  {
    SliceOfFront(head, rest, 0, 8);
    SliceOfFront(head, rest, 0, 4);
    SliceOfFront(head, rest, 4, 6);
    SliceOfFront(head, rest, 6, 8);
  }

  /** A slice inside the front part of a concatenation is a slice of that part. */
  lemma SliceOfFront(a: string, b: string, i: int, j: int)
    requires 0 <= i <= j <= |a|
    ensures (a + b)[i..j] == a[i..j]
  {
  }

  /** The date prefix of a calendar date is eight digits: four of the year, two of the month, two of the day. */
  lemma DatePrefixDigits(year: int, month: int, day: int)
    requires 0 <= year <= 9999 && 1 <= month <= 12 && 1 <= day <= 31
    ensures var p := DatePrefix(year, month, day);
      && |p| == 8 && AllDigits(p)
      && AllDigits(p[..4]) && AllDigits(p[4..6]) && AllDigits(p[6..8])
      && DigitsValue(p[..4]) == year && DigitsValue(p[4..6]) == month && DigitsValue(p[6..8]) == day
  {
    var y := PyFormatInt(year, 4);
    var m := PyFormatInt(month, 2);
    var d := PyFormatInt(day, 2);
    assert Pow10(2) == 100 && Pow10(4) == 10000;
    PadWidthExact(year, 4);
    PadWidthExact(month, 2);
    PadWidthExact(day, 2);
    PyFormatIntFacts(year, 4);
    PyFormatIntFacts(month, 2);
    PyFormatIntFacts(day, 2);
    var p := y + m + d;
    assert p[..4] == y;
    assert p[4..6] == m;
    assert p[6..8] == d;
  }

  /**
   * The week appears as `_weekNN_` right after the theme, and an empty
   * subtheme is replaced by `weekNN`.
   */
  lemma FileNameWeekTag(year: int, month: int, day: int, monthlyTheme: string,
                        weekNumber: int, subtheme: string, slotType: string)
    requires 0 <= weekNumber <= 99
    ensures var name := FileName(year, month, day, monthlyTheme, weekNumber, subtheme, slotType);
      var at := |DatePrefix(year, month, day)| + 1 + |Sanitize(monthlyTheme)|;
      at + 8 <= |name| && name[at..at + 8] == "_week" + PyFormatInt(weekNumber, 2) + "_"
    ensures subtheme == "" ==> SubthemePart(subtheme, weekNumber) == "week" + PyFormatInt(weekNumber, 2)
  {
    var head := DatePrefix(year, month, day) + "_" + Sanitize(monthlyTheme);
    var tag := WeekTag(weekNumber);
    var tail := NameTail(subtheme, weekNumber, slotType);
    assert Pow10(2) == 100;
    PadWidthExact(weekNumber, 2);
    assert |tag| == 8;
    var name := head + tag + tail;
    assert name[|head|..|head| + 8] == tag;
  }
}
