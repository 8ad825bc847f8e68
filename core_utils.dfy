/**
 * Time and text helpers of the shared core (core/utils.py): clock-style
 * formatting of a number of seconds, reading such text back, word counting
 * and truncation with a suffix.
 */
module CoreUtils {
  import opened Wrappers
  import opened Strings
  import opened Decimal

  /** A non-negative time split into whole hours, minutes, seconds and milliseconds. */
  datatype Clock = Clock(hours: int, minutes: int, secs: int, millis: int)

  /** `hours = int(t // 3600)`, `t %= 3600`, `minutes = int(t // 60)`, `secs = int(t % 60)`, `millis = int((t % 1) * 1000)`. */
  function ClockOf(seconds: real): Clock
    requires seconds >= 0.0
  {
    var rem := PyMod(seconds, 3600.0);
    Clock((seconds / 3600.0).Floor, (rem / 60.0).Floor, PyMod(rem, 60.0).Floor, (PyMod(rem, 1.0) * 1000.0).Floor)
  }

  /**
   * The parts are in range and add up to the whole seconds of the input;
   * the milliseconds are the first three fraction digits, truncated.
   */
  lemma ClockOfFacts(seconds: real)
    requires seconds >= 0.0
    ensures var c := ClockOf(seconds);
      && c.hours >= 0 && 0 <= c.minutes < 60 && 0 <= c.secs < 60 && 0 <= c.millis < 1000
      && c.hours * 3600 + c.minutes * 60 + c.secs == seconds.Floor
      && c.millis == ((seconds - seconds.Floor as real) * 1000.0).Floor
  {
    var h := (seconds / 3600.0).Floor;
    var rem := PyMod(seconds, 3600.0);
    assert seconds == 3600.0 * (h as real) + rem;
    var m := (rem / 60.0).Floor;
    var r60 := PyMod(rem, 60.0);
    assert rem == 60.0 * (m as real) + r60;
    assert 0 <= m < 60 by {
      assert rem / 60.0 < 60.0;
    }
    var s := r60.Floor;
    var whole := h * 3600 + m * 60 + s;
    assert seconds == (whole as real) + (r60 - s as real);
    assert seconds.Floor == whole;
    var frac := PyMod(rem, 1.0);
    assert rem == 1.0 * ((rem / 1.0).Floor as real) + frac;
    assert rem.Floor == m * 60 + s;
    assert frac == seconds - whole as real;
  }

  /** For whole seconds the parts are the quotient-and-remainder digits and there are no milliseconds. */
  lemma ClockOfWhole(n: nat)
    ensures ClockOf(n as real) == Clock(n / 3600, (n % 3600) / 60, n % 60, 0)
  {
    ClockOfFacts(n as real);
    var c := ClockOf(n as real);
    assert (n as real).Floor == n;
    assert c.hours * 3600 + c.minutes * 60 + c.secs == n;
    assert c.hours == n / 3600;
    assert c.minutes == (n % 3600) / 60;
  }

  /** `format_time` (core/utils.py:6-48); `formatType` other than "ms", "hms" and "short" is the standard format. */
  function FormatTime(seconds: real, formatType: string): (r: string)
    ensures seconds < 0.0 <==> r == ""
  {
    if seconds < 0.0 then ""
    else
      var c := ClockOf(seconds);
      ClockOfFacts(seconds);
      if formatType == "ms" then
        if c.hours > 0 then
          NatToString(c.hours) + ":" + PyFormatInt(c.minutes, 2) + ":" + PyFormatInt(c.secs, 2) + "." + PyFormatInt(c.millis, 3)
        else NatToString(c.minutes) + ":" + PyFormatInt(c.secs, 2) + "." + PyFormatInt(c.millis, 3)
      else if formatType == "hms" then
        NatToString(c.hours) + ":" + PyFormatInt(c.minutes, 2) + ":" + PyFormatInt(c.secs, 2)
      else if formatType == "short" then
        if c.minutes == 0 then NatToString(c.secs) + "s"
        else NatToString(c.minutes) + ":" + PyFormatInt(c.secs, 2)
      else if c.hours > 0 then
        NatToString(c.hours) + ":" + PyFormatInt(c.minutes, 2) + ":" + PyFormatInt(c.secs, 2)
      else NatToString(c.minutes) + ":" + PyFormatInt(c.secs, 2)
  }

  /** Why `parse_time` raises `ValueError`: a field `float()` rejects, or more than three fields. */
  datatype TimeError = BadNumber | BadFormat(text: string)

  function NumberOf(v: Option<real>): (r: Result<real, TimeError>)
    ensures r.Ok? <==> v.Some?
    ensures r.Ok? ==> r.value == v.value
  {
    if v.Some? then Ok(v.value) else Err(BadNumber)
  }

  /** `parse_time` (core/utils.py:51-81). */
  function ParseTime(timeStr: string): (r: Result<real, TimeError>)
  {
    var t := PyLower(PyStrip(timeStr));
    if EndsWith(t, "s") then NumberOf(ParseFloat(t[..|t| - 1]))
    else
      var parts := SplitOn(t, ':');
      if |parts| == 1 then NumberOf(ParseFloat(parts[0]))
      else if |parts| == 2 then
        var m := ParseFloat(parts[0]);
        var s := ParseFloat(parts[1]);
        if m.Some? && s.Some? then Ok(m.value * 60.0 + s.value) else Err(BadNumber)
      else if |parts| == 3 then
        var h := ParseFloat(parts[0]);
        var m := ParseFloat(parts[1]);
        var s := ParseFloat(parts[2]);
        if h.Some? && m.Some? && s.Some? then Ok(h.value * 3600.0 + m.value * 60.0 + s.value) else Err(BadNumber)
      else Err(BadFormat(t))
  }

  // ---------------------------------------------------------------- reading formatted text back

  /** Characters a formatted clock consists of. */
  predicate ClockChar(c: char)
  {
    IsDigit(c) || c == ':' || c == '.'
  }

  /** Digit text reads back as its value. */
  lemma ParseDigitText(s: string)
    requires s != [] && AllDigits(s)
    ensures ParseFloat(s) == Some(DigitsValue(s) as real)
  {
    StripUnchanged(s);
    assert Excludes(s, '.');
    SplitOnJoin([s], '.');
  }

  /** `whole.frac` digit text reads back as whole plus frac over its power of ten. */
  lemma ParseFractionText(whole: string, frac: string)
    requires whole != [] && AllDigits(whole) && AllDigits(frac)
    ensures ParseFloat(whole + "." + frac) == Some(DecimalValue(whole, frac))
  {
    var s := whole + "." + frac;
    if frac == [] {
      assert s[|s| - 1] == '.';
      assert Excludes(whole, '.') && Excludes(frac, '.');
      assert Join([whole, frac], ".") == s;
      SplitOnJoin([whole, frac], '.');
      assert s == whole + "." + frac;
      assert StripWith(s, IsPySpace) == s by {
        StripWithFacts(s, IsPySpace);
      }
    } else {
      assert s[0] == whole[0] && s[|s| - 1] == frac[|frac| - 1];
      StripUnchanged(s);
    }
    ParseTwoParts(whole, frac);
  }

  /** Clock text is its own stripped lower-case form and has no trailing `s`. */
  lemma ClockTextNormal(t: string)
    requires t != [] && IsDigit(t[0]) && IsDigit(t[|t| - 1])
    requires forall i :: 0 <= i < |t| ==> ClockChar(t[i])
    ensures PyLower(PyStrip(t)) == t && !EndsWith(t, "s")
  {
    StripUnchanged(t);
    assert PyLower(t) == t;
    assert t[|t| - 1..] != "s";
  }

  /** `a:b` for two fields without a colon splits back into the two fields. */
  lemma SplitTwo(a: string, b: string)
    requires Excludes(a, ':') && Excludes(b, ':')
    ensures SplitOn(a + ":" + b, ':') == [a, b]
  {
    assert Join([a, b], ":") == a + ":" + b;
    SplitOnJoin([a, b], ':');
  }

  /** `a:b:c` for three fields without a colon splits back into the three fields. */
  lemma SplitThree(a: string, b: string, c: string)
    requires Excludes(a, ':') && Excludes(b, ':') && Excludes(c, ':')
    ensures SplitOn(a + ":" + b + ":" + c, ':') == [a, b, c]
  {
    assert Join([b, c], ":") == b + ":" + c;
    assert Join([a, b, c], ":") == a + ":" + (b + ":" + c);
    assert a + ":" + (b + ":" + c) == a + ":" + b + ":" + c;
    SplitOnJoin([a, b, c], ':');
  }

  /** How `parse_time` reads normalised text of two colon-separated numbers. */
  lemma ParseTwoFields(t: string, a: string, b: string, x: real, y: real, v: real)
    requires PyLower(PyStrip(t)) == t && !EndsWith(t, "s") && SplitOn(t, ':') == [a, b]
    requires ParseFloat(a) == Some(x) && ParseFloat(b) == Some(y) && v == x * 60.0 + y
    ensures ParseTime(t) == Ok(v)
  {
  }

  /** How `parse_time` reads normalised text of three colon-separated numbers. */
  lemma ParseThreeFields(t: string, a: string, b: string, c: string, x: real, y: real, z: real, v: real)
    requires PyLower(PyStrip(t)) == t && !EndsWith(t, "s") && SplitOn(t, ':') == [a, b, c]
    requires ParseFloat(a) == Some(x) && ParseFloat(b) == Some(y) && ParseFloat(c) == Some(z)
    requires v == x * 3600.0 + y * 60.0 + z
    ensures ParseTime(t) == Ok(v)
  {
  }

  /** A clock field: non-empty digits of the value `k`, hence no colon and no dot. */
  lemma FieldText(k: nat, width: nat)
    ensures var f := PyFormatInt(k, width);
      && f != [] && AllDigits(f) && DigitsValue(f) == k
      && Excludes(f, ':') && Excludes(f, '.')
      && (forall i :: 0 <= i < |f| ==> ClockChar(f[i]))
  {
    PyFormatIntFacts(k, width);
    ZeroPadFacts(NatToString(k), width);
    NatToStringFacts(k);
  }

  /** `M:SS` for digit fields is normalised text that splits into the two fields. */
  lemma TwoFieldText(a: string, b: string)
    requires a != [] && AllDigits(a) && b != [] && (forall i :: 0 <= i < |b| ==> ClockChar(b[i])) && IsDigit(b[|b| - 1])
    requires Excludes(b, ':')
    ensures var t := a + ":" + b; PyLower(PyStrip(t)) == t && !EndsWith(t, "s") && SplitOn(t, ':') == [a, b]
  {
    var t := a + ":" + b;
    assert t[0] == a[0] && t[|t| - 1] == b[|b| - 1];
    assert Excludes(a, ':');
    ClockTextNormal(t);
    SplitTwo(a, b);
  }

  /** `H:MM:SS` for digit fields is normalised text that splits into the three fields. */
  lemma ThreeFieldText(a: string, b: string, c: string)
    requires a != [] && AllDigits(a) && b != [] && AllDigits(b)
    requires c != [] && (forall i :: 0 <= i < |c| ==> ClockChar(c[i])) && IsDigit(c[|c| - 1])
    requires Excludes(c, ':')
    ensures var t := a + ":" + b + ":" + c; PyLower(PyStrip(t)) == t && !EndsWith(t, "s") && SplitOn(t, ':') == [a, b, c]
  {
    var t := a + ":" + b + ":" + c;
    assert t[0] == a[0] && t[|t| - 1] == c[|c| - 1];
    assert Excludes(a, ':') && Excludes(b, ':');
    ClockTextNormal(t);
    SplitThree(a, b, c);
  }

  /** `M:SS` reads back as `M * 60 + SS`. */
  lemma ParseMinutesSeconds(m: nat, s: nat, total: nat)
    requires total == m * 60 + s
    ensures ParseTime(NatToString(m) + ":" + PyFormatInt(s, 2)) == Ok(total as real)
  {
    var a := NatToString(m);
    var b := PyFormatInt(s, 2);
    FieldText(m, 0);
    FieldText(s, 2);
    assert PyFormatInt(m, 0) == a;
    TwoFieldText(a, b);
    ParseDigitText(a);
    ParseDigitText(b);
    ParseTwoFields(a + ":" + b, a, b, m as real, s as real, total as real);
  }

  /** `H:MM:SS` reads back as `H * 3600 + MM * 60 + SS`. */
  lemma ParseHoursMinutesSeconds(h: nat, m: nat, s: nat, total: nat)
    requires total == h * 3600 + m * 60 + s
    ensures ParseTime(NatToString(h) + ":" + PyFormatInt(m, 2) + ":" + PyFormatInt(s, 2)) == Ok(total as real)
  {
    var a := NatToString(h);
    var b := PyFormatInt(m, 2);
    var c := PyFormatInt(s, 2);
    FieldText(h, 0);
    FieldText(m, 2);
    FieldText(s, 2);
    assert PyFormatInt(h, 0) == a;
    ThreeFieldText(a, b, c);
    ParseDigitText(a);
    ParseDigitText(b);
    ParseDigitText(c);
    ParseThreeFields(a + ":" + b + ":" + c, a, b, c, h as real, m as real, s as real, total as real);
  }

  /** The text of whole seconds in the standard and `hms` formats. */
  lemma FormatWhole(n: nat, formatType: string)
    requires formatType != "ms" && formatType != "short"
    ensures var h, m, s := n / 3600, (n % 3600) / 60, n % 60;
      FormatTime(n as real, formatType) ==
        if h > 0 || formatType == "hms" then NatToString(h) + ":" + PyFormatInt(m, 2) + ":" + PyFormatInt(s, 2)
        else NatToString(m) + ":" + PyFormatInt(s, 2)
  {
    ClockOfWhole(n);
  }

  /** Whole seconds survive the standard format and `parse_time`. */
  lemma StandardRoundTrip(n: nat, formatType: string)
    requires formatType != "ms" && formatType != "hms" && formatType != "short"
    ensures ParseTime(FormatTime(n as real, formatType)) == Ok(n as real)
  {
    FormatWhole(n, formatType);
    WholeParts(n);
    var h, m, s := n / 3600, (n % 3600) / 60, n % 60;
    if h > 0 {
      ParseHoursMinutesSeconds(h, m, s, n);
    } else {
      ParseMinutesSeconds(m, s, n);
    }
  }

  /** Whole seconds survive the `hms` format and `parse_time`. */
  lemma HmsRoundTrip(n: nat)
    ensures ParseTime(FormatTime(n as real, "hms")) == Ok(n as real)
  {
    FormatWhole(n, "hms");
    WholeParts(n);
    ParseHoursMinutesSeconds(n / 3600, (n % 3600) / 60, n % 60, n);
  }

  lemma WholeParts(n: nat)
    ensures (n / 3600) * 3600 + ((n % 3600) / 60) * 60 + n % 60 == n
  {
  }

  /** `<s>s` reads back as `s`. */
  lemma ParseSecondsSuffix(s: nat)
    ensures ParseTime(NatToString(s) + "s") == Ok(s as real)
  {
    var a := NatToString(s);
    FieldText(s, 0);
    assert PyFormatInt(s, 0) == a;
    var t := a + "s";
    assert t[0] == a[0];
    StripUnchanged(t);
    assert PyLower(t) == t;
    assert EndsWith(t, "s");
    assert t[..|t| - 1] == a;
    ParseDigitText(a);
  }

  /** The text of whole seconds under an hour in the `short` format. */
  lemma FormatShort(n: nat)
    requires n < 3600
    ensures FormatTime(n as real, "short") ==
      if n < 60 then NatToString(n) + "s" else NatToString(n / 60) + ":" + PyFormatInt(n % 60, 2)
  {
    FormatShortClock(n as real);
    ClockOfWhole(n);
    UnderAnHour(n);
  }

  /** The `short` format in terms of the clock parts. */
  lemma FormatShortClock(seconds: real)
    requires seconds >= 0.0
    ensures var c := ClockOf(seconds);
      c.minutes >= 0 && c.secs >= 0 &&
      FormatTime(seconds, "short") ==
        if c.minutes == 0 then NatToString(c.secs) + "s" else NatToString(c.minutes) + ":" + PyFormatInt(c.secs, 2)
  {
    ClockOfFacts(seconds);
    assert "short" != "ms" && "short" != "hms";
  }

  lemma UnderAnHour(n: nat)
    requires n < 3600
    ensures n / 3600 == 0 && (n % 3600) / 60 == n / 60 && (n / 60 == 0 <==> n < 60)
  {
  }

  /** Under an hour, whole seconds survive the `short` format (`<s>s` or `M:SS`) and `parse_time`. */
  lemma ShortRoundTrip(n: nat)
    requires n < 3600
    ensures ParseTime(FormatTime(n as real, "short")) == Ok(n as real)
  {
    FormatShort(n);
    if n < 60 {
      ParseSecondsSuffix(n);
    } else {
      ParseMinutesSeconds(n / 60, n % 60, n);
    }
  }

  /** The `short` format ignores the hours. */
  lemma ShortDropsHours(seconds: real)
    requires seconds >= 0.0
    ensures FormatTime(seconds + 3600.0, "short") == FormatTime(seconds, "short")
  {
    var x := seconds + 3600.0;
    ClockOfFacts(seconds);
    ClockOfFacts(x);
    assert x.Floor == seconds.Floor + 3600;
    assert x - x.Floor as real == seconds - seconds.Floor as real;
    var c, d := ClockOf(seconds), ClockOf(x);
    assert c.minutes * 60 + c.secs == d.minutes * 60 + d.secs - (d.hours - c.hours - 1) * 3600;
    assert d.hours == c.hours + 1;
  }

  /** What the `ms` format keeps: the time truncated to whole milliseconds. */
  function Millis(seconds: real): real
  {
    ((seconds * 1000.0).Floor as real) / 1000.0
  }

  /** `SS.mmm`: the seconds and milliseconds fields of the `ms` format. */
  function SecsMillis(c: Clock): string
  {
    PyFormatInt(c.secs, 2) + "." + PyFormatInt(c.millis, 3)
  }

  /** The text of a time in the `ms` format. */
  lemma FormatMs(seconds: real)
    requires seconds >= 0.0
    ensures var c := ClockOf(seconds);
      FormatTime(seconds, "ms") ==
        if c.hours > 0 then NatToString(c.hours) + ":" + PyFormatInt(c.minutes, 2) + ":" + SecsMillis(c)
        else NatToString(c.minutes) + ":" + SecsMillis(c)
  {
    var c := ClockOf(seconds);
    var b, f := PyFormatInt(c.secs, 2), PyFormatInt(c.millis, 3);
    if c.hours > 0 {
      var p := NatToString(c.hours) + ":" + PyFormatInt(c.minutes, 2) + ":";
      assert p + b + "." + f == p + (b + "." + f);
    } else {
      var p := NatToString(c.minutes) + ":";
      assert p + b + "." + f == p + (b + "." + f);
    }
  }

  /** `SS.mmm` is clock text without a colon that reads back as seconds plus milliseconds. */
  lemma SecsMillisText(c: Clock)
    requires 0 <= c.secs && 0 <= c.millis < 1000
    ensures var t := SecsMillis(c);
      && t != [] && IsDigit(t[|t| - 1]) && Excludes(t, ':')
      && (forall i :: 0 <= i < |t| ==> ClockChar(t[i]))
      && ParseFloat(t) == Some(c.secs as real + (c.millis as real) / 1000.0)
  {
    var b := PyFormatInt(c.secs, 2);
    var f := PyFormatInt(c.millis, 3);
    FieldText(c.secs, 2);
    FieldText(c.millis, 3);
    assert Pow10(3) == 1000;
    PadWidthExact(c.millis, 3);
    ParseFractionText(b, f);
    var t := b + "." + f;
    assert t[|t| - 1] == f[|f| - 1];
  }

  /** `M:tail` reads back as `M * 60` plus the value of the tail. */
  lemma ParseMinutesTail(m: nat, tail: string, y: real, v: real)
    requires tail != [] && IsDigit(tail[|tail| - 1]) && Excludes(tail, ':')
    requires forall i :: 0 <= i < |tail| ==> ClockChar(tail[i])
    requires ParseFloat(tail) == Some(y) && v == (m as real) * 60.0 + y
    ensures ParseTime(NatToString(m) + ":" + tail) == Ok(v)
  {
    var a := NatToString(m);
    FieldText(m, 0);
    assert PyFormatInt(m, 0) == a;
    TwoFieldText(a, tail);
    ParseDigitText(a);
    ParseTwoFields(a + ":" + tail, a, tail, m as real, y, v);
  }

  /** `H:MM:tail` reads back as `H * 3600 + MM * 60` plus the value of the tail. */
  lemma ParseHoursMinutesTail(h: nat, m: nat, tail: string, y: real, v: real)
    requires tail != [] && IsDigit(tail[|tail| - 1]) && Excludes(tail, ':')
    requires forall i :: 0 <= i < |tail| ==> ClockChar(tail[i])
    requires ParseFloat(tail) == Some(y) && v == (h as real) * 3600.0 + (m as real) * 60.0 + y
    ensures ParseTime(NatToString(h) + ":" + PyFormatInt(m, 2) + ":" + tail) == Ok(v)
  {
    var a := NatToString(h);
    var b := PyFormatInt(m, 2);
    FieldText(h, 0);
    FieldText(m, 2);
    assert PyFormatInt(h, 0) == a;
    ThreeFieldText(a, b, tail);
    ParseDigitText(a);
    ParseDigitText(b);
    ParseThreeFields(a + ":" + b + ":" + tail, a, b, tail, h as real, m as real, y, v);
  }

  /** The `ms` format reads back as the time truncated to the millisecond. */
  lemma MsRoundTrip(seconds: real)
    requires seconds >= 0.0
    ensures ParseTime(FormatTime(seconds, "ms")) == Ok(Millis(seconds))
  {
    var c := ClockOf(seconds);
    ClockOfFacts(seconds);
    FormatMs(seconds);
    SecsMillisText(c);
    MillisSplit(seconds, c);
    var y := c.secs as real + (c.millis as real) / 1000.0;
    if c.hours > 0 {
      ParseHoursMinutesTail(c.hours, c.minutes, SecsMillis(c), y, Millis(seconds));
    } else {
      ParseMinutesTail(c.minutes, SecsMillis(c), y, Millis(seconds));
    }
  }

  /** The clock fields add up to the millisecond truncation. */
  lemma MillisSplit(seconds: real, c: Clock)
    requires seconds >= 0.0 && c == ClockOf(seconds)
    ensures (c.hours * 3600 + c.minutes * 60 + c.secs) as real + (c.millis as real) / 1000.0 == Millis(seconds)
  {
    ClockOfFacts(seconds);
    var w := seconds.Floor;
    var frac := seconds - w as real;
    assert seconds * 1000.0 == (w * 1000) as real + frac * 1000.0;
    assert (seconds * 1000.0).Floor == w * 1000 + (frac * 1000.0).Floor;
  }

  // ---------------------------------------------------------------- words and truncation

  /** `word_count` (core/utils.py:84-86): the number of whitespace-separated tokens. */
  function WordCount(text: string): (r: nat)
    ensures r == 0 <==> PyStrip(text) == ""
  {
    SplitWsEmptyIffStripEmpty(text);
    |SplitWs(text)|
  }

  /** Words joined by single spaces are counted one by one. */
  lemma WordCountOfJoin(ws: seq<string>)
    requires forall i :: 0 <= i < |ws| ==> ws[i] != [] && NoSpace(ws[i])
    ensures WordCount(Join(ws, " ")) == |ws|
  {
    SplitWsJoin(ws);
  }

  /** Python `s[:k]`: a negative `k` counts from the end, and both ends are clamped. */
  function PyPrefix(s: string, k: int): (r: string)
    ensures |r| <= |s| && r == s[..|r|]
    ensures 0 <= k <= |s| ==> |r| == k
  {
    if k >= 0 then (if k <= |s| then s[..k] else s)
    else if |s| + k >= 0 then s[..|s| + k] else ""
  }

  /** `truncate_text` (core/utils.py:89-93). */
  function TruncateText(text: string, maxLength: int, suffix: string): (r: string)
    ensures |text| <= maxLength ==> r == text
    ensures |text| > maxLength ==> EndsWith(r, suffix) && r[..|r| - |suffix|] == PyPrefix(text, maxLength - |suffix|)
    ensures |text| > maxLength && maxLength >= |suffix| ==> |r| == maxLength && r == text[..maxLength - |suffix|] + suffix
  {
    if |text| <= maxLength then text
    else
      var r := PyPrefix(text, maxLength - |suffix|) + suffix;
      assert r[|r| - |suffix|..] == suffix;
      r
  }
}
