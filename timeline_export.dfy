/**
 * The text exports of the timeline editor's segment store
 * (_archived/reference/tools/timeline_integrated/core/DataManager.js:413-463): CSV rows,
 * numbered SubRip blocks and a WebVTT file, with their `HH:MM:SS,mmm` time stamps.
 */
module TimelineExport {
  import opened Wrappers
  import Seqs
  import opened Strings
  import opened Decimal
  import Srt
  import opened TimelineData

  // ---------------------------------------------------------------- time stamps

  /** The four fields both formatters compute with `Math.floor` and JavaScript's `%`. */
  function ClockFields(seconds: real): Srt.SrtFields
  {
    Srt.SrtFields(
      (seconds / 3600.0).Floor,
      (JsRem(seconds, 3600.0) / 60.0).Floor,
      JsRem(seconds, 60.0).Floor,
      (JsRem(seconds, 1.0) * 1000.0).Floor)
  }

  /** `n.toString().padStart(width, '0')`: the padding goes before the sign, as `padStart` does. */
  function Pad(n: int, width: nat): string
  {
    ZeroPad(IntToString(n), width)
  }

  function ClockText(f: Srt.SrtFields, sep: string): string
  {
    Pad(f.hours, 2) + ":" + Pad(f.minutes, 2) + ":" + Pad(f.secs, 2) + sep + Pad(f.millis, 3)
  }

  /** `formatSRTTime` (DataManager.js:448-454). */
  function FormatSRTTime(seconds: real): string
  {
    ClockText(ClockFields(seconds), ",")
  }

  /** `formatVTTTime` (DataManager.js:457-463). */
  function FormatVTTTime(seconds: real): string
  {
    ClockText(ClockFields(seconds), ".")
  }

  /** For a time that is not negative the JavaScript fields are the Python ones. */
  lemma ClockFieldsArePython(seconds: real)
    requires seconds >= 0.0
    ensures ClockFields(seconds) == Srt.SrtTimeFields(seconds)
  {
  }

  lemma PadIsPython(n: int, width: nat)
    requires n >= 0
    ensures Pad(n, width) == PyFormatInt(n, width)
  {
  }

  /**
   * For a time that is not negative, `formatSRTTime` prints exactly what the render
   * tool's `format_srt_time` prints: the whole milliseconds taken apart.
   */
  lemma SrtTimeAgrees(seconds: real)
    requires seconds >= 0.0
    ensures FormatSRTTime(seconds) == Srt.FormatSrtTime(seconds)
  {
    ClockFieldsArePython(seconds);
    Srt.SrtTimeFieldsAreMillis(seconds);
    var f := ClockFields(seconds);
    PadIsPython(f.hours, 2);
    PadIsPython(f.minutes, 2);
    PadIsPython(f.secs, 2);
    PadIsPython(f.millis, 3);
  }

  /** An SRT time stamp of a time that is not negative reads back as its whole milliseconds. */
  lemma SrtTimeReadsBack(seconds: real)
    requires seconds >= 0.0
    ensures Srt.ParseSrtTime(FormatSRTTime(seconds)).Some?
    ensures Srt.TotalMillis(Srt.ParseSrtTime(FormatSRTTime(seconds)).value) == (seconds * 1000.0).Floor
  {
    SrtTimeAgrees(seconds);
    Srt.SrtTimeRoundTrip(seconds);
  }

  lemma ExcludesAppend(a: string, b: string, c: char)
    requires Excludes(a, c) && Excludes(b, c)
    ensures Excludes(a + b, c)
  {
    forall i | 0 <= i < |a + b|
      ensures (a + b)[i] != c
    {
      if i >= |a| {
        assert (a + b)[i] == b[i - |a|];
      }
    }
  }

  /** A padded number is digits, maybe after a `-`. */
  lemma PadExcludes(n: int, width: nat, c: char)
    requires !IsDigit(c) && c != '-'
    ensures Excludes(Pad(n, width), c)
  {
    var m := if n < 0 then -n else n;
    NatToStringFacts(m);
    Srt.DigitsExclude(NatToString(m), c);
    if n < 0 {
      ExcludesAppend("-", NatToString(m), c);
    }
    ExcludesAppend(Repeat('0', if |IntToString(n)| < width then width - |IntToString(n)| else 0), IntToString(n), c);
  }

  /** A WebVTT time stamp is the SubRip one with its `,` turned into `.`. */
  lemma VttIsSrtWithDot(seconds: real)
    ensures FormatVTTTime(seconds) == ReplaceChar(FormatSRTTime(seconds), ',', ".")
  {
    var f := ClockFields(seconds);
    var head := Pad(f.hours, 2) + ":" + Pad(f.minutes, 2) + ":" + Pad(f.secs, 2);
    PadExcludes(f.hours, 2, ',');
    PadExcludes(f.minutes, 2, ',');
    PadExcludes(f.secs, 2, ',');
    PadExcludes(f.millis, 3, ',');
    ExcludesAppend(Pad(f.hours, 2), ":", ',');
    ExcludesAppend(Pad(f.hours, 2) + ":", Pad(f.minutes, 2), ',');
    ExcludesAppend(Pad(f.hours, 2) + ":" + Pad(f.minutes, 2), ":", ',');
    ExcludesAppend(Pad(f.hours, 2) + ":" + Pad(f.minutes, 2) + ":", Pad(f.secs, 2), ',');
    ReplaceCharAppend(head + ",", Pad(f.millis, 3), ',', ".");
    ReplaceCharAppend(head, ",", ',', ".");
    assert ReplaceChar(",", ',', ".") == ".";
  }

  // ---------------------------------------------------------------- CSV

  const Headers: seq<string> := ["ID", "Start Time", "End Time", "Duration", "Text", "Word Count"]

  /** The ID cell as written, `segment.id || segment.segment_id || ''`: an id of 0 falls through. */
  function CsvIdAsWritten(s: DmSegment): (r: string)
    ensures Truthy(s.id) ==> r == KeyText(s.id.value)
    ensures !Truthy(s.id) && !Truthy(s.segmentId) ==> r == ""
  {
    if Truthy(s.id) then KeyText(s.id.value)
    else if Truthy(s.segmentId) then KeyText(s.segmentId.value)
    else ""
  }

  /** The ID cell evidently intended: the `id` when present, else the `segment_id`, else empty. */
  function CsvId(s: DmSegment): (r: string)
    ensures s.id.Some? ==> r == KeyText(s.id.value)
    ensures s.id.None? && s.segmentId.None? ==> r == ""
  {
    if s.id.Some? then KeyText(s.id.value)
    else if s.segmentId.Some? then KeyText(s.segmentId.value)
    else ""
  }

  /** The first segment of a combined transcript has id 0; as written its ID cell is empty. */
  lemma CsvIdZeroAsWritten(s: DmSegment)
    requires s.id == Some(KNum(0)) && s.segmentId.None?
    ensures CsvIdAsWritten(s) == ""
    ensures CsvId(s) == "0"
  {
  }

  /** With the intended cell, segments with different numeric ids never share an ID cell. */
  lemma CsvIdsDistinct(a: DmSegment, b: DmSegment, m: int, n: int)
    requires a.id == Some(KNum(m)) && b.id == Some(KNum(n)) && m != n
    ensures CsvId(a) != CsvId(b)
  {
    ParseIntOfText(m);
    ParseIntOfText(n);
  }

  /** `"${text.replace(/"/g, '""')}"`: quoted, with each inner quote doubled. */
  function Quote(t: string): string
  {
    "\"" + ReplaceChar(t, '"', "\"\"") + "\""
  }

  /** Reading a quoted field's body back: each doubled quote is one quote. */
  function CollapseQuotes(s: string): string
    decreases |s|
  {
    if |s| >= 2 && s[0] == '"' && s[1] == '"' then "\"" + CollapseQuotes(s[2..])
    else if s == [] then ""
    else [s[0]] + CollapseQuotes(s[1..])
  }

  /** The quoting can be undone: the body collapses back to the text. */
  lemma {:induction false} QuoteRoundTrip(t: string)
    ensures var q := Quote(t); |q| >= 2 && q[0] == '"' && q[|q| - 1] == '"'
    ensures CollapseQuotes(Quote(t)[1..|Quote(t)| - 1]) == t
  {
    var body := ReplaceChar(t, '"', "\"\"");
    assert Quote(t)[1..|Quote(t)| - 1] == body;
    CollapseEscaped(t);
  }

  lemma {:induction false} CollapseEscaped(t: string)
    ensures CollapseQuotes(ReplaceChar(t, '"', "\"\"")) == t
  {
    if t != [] {
      CollapseEscaped(t[1..]);
      var rest := ReplaceChar(t[1..], '"', "\"\"");
      if t[0] == '"' {
        assert ReplaceChar(t, '"', "\"\"") == "\"\"" + rest;
        assert ("\"\"" + rest)[2..] == rest;
      } else {
        assert ReplaceChar(t, '"', "\"\"") == [t[0]] + rest;
        assert ([t[0]] + rest)[1..] == rest;
      }
    }
  }

  /** `segment.words ? segment.words.length : 0`. */
  function WordCount(s: DmSegment): string
  {
    if s.words.Some? then NatToString(|s.words.value|) else "0"
  }

  /** The cells of one segment's row, with the ID cell evidently intended. */
  function CsvCells(s: DmSegment): (r: seq<string>)
    ensures |r| == |Headers|
  {
    [CsvId(s), JsToFixed(s.start, 3), JsToFixed(s.end, 3), JsToFixed(s.end - s.start, 3), Quote(s.text), WordCount(s)]
  }

  function CsvRow(s: DmSegment): string
  {
    Join(CsvCells(s), ",")
  }

  /** `exportToCSV` (DataManager.js:413-425): the header line, then one line per segment. */
  function ExportToCSV(segments: seq<DmSegment>): string
  {
    Join([Join(Headers, ",")] + Seqs.Map(segments, CsvRow), "\n")
  }

  lemma {:induction false} JoinExcludes(parts: seq<string>, sep: string, c: char)
    requires forall i :: 0 <= i < |parts| ==> Excludes(parts[i], c)
    requires Excludes(sep, c)
    ensures Excludes(Join(parts, sep), c)
    decreases |parts|
  {
    if |parts| > 1 {
      JoinExcludes(parts[1..], sep, c);
      ExcludesAppend(parts[0], sep, c);
      ExcludesAppend(parts[0] + sep, Join(parts[1..], sep), c);
    }
  }

  lemma {:induction false} ReplaceExcludes(t: string, c: char, rep: string, d: char)
    requires Excludes(t, d) && Excludes(rep, d)
    ensures Excludes(ReplaceChar(t, c, rep), d)
  {
    if t != [] {
      ReplaceExcludes(t[1..], c, rep, d);
      ExcludesAppend(if t[0] == c then rep else [t[0]], ReplaceChar(t[1..], c, rep), d);
    }
  }

  /** Fixed-point text is digits, a point and maybe a sign. */
  lemma FixedExcludesNewline(x: real, places: nat)
    ensures Excludes(JsToFixed(x, places), '\n')
  {
    var n := RoundHalfUp(Scaled(x, places));
    var p := Pow10(places);
    DivModNat(n, p);
    NatToStringFacts(n);
    NatToStringFacts(n / p);
    NatToStringFacts(n % p);
    Srt.DigitsExclude(NatToString(n), '\n');
    Srt.DigitsExclude(NatToString(n / p), '\n');
    ZeroPadFacts(NatToString(n % p), places);
    Srt.DigitsExclude(ZeroPad(NatToString(n % p), places), '\n');
    ExcludesAppend(NatToString(n / p), ".", '\n');
    ExcludesAppend(NatToString(n / p) + ".", ZeroPad(NatToString(n % p), places), '\n');
    ExcludesAppend(Sign(x), FixedDigits(n, places), '\n');
  }

  /** A segment whose id and text have no line break. */
  predicate OneLine(s: DmSegment)
  {
    Excludes(CsvId(s), '\n') && Excludes(s.text, '\n')
  }

  lemma RowExcludesNewline(s: DmSegment)
    requires OneLine(s)
    ensures Excludes(CsvRow(s), '\n')
  {
    var cells := CsvCells(s);
    FixedExcludesNewline(s.start, 3);
    FixedExcludesNewline(s.end, 3);
    FixedExcludesNewline(s.end - s.start, 3);
    ReplaceExcludes(s.text, '"', "\"\"", '\n');
    ExcludesAppend("\"", ReplaceChar(s.text, '"', "\"\""), '\n');
    ExcludesAppend("\"" + ReplaceChar(s.text, '"', "\"\""), "\"", '\n');
    var m := if s.words.Some? then |s.words.value| else 0;
    NatToStringFacts(m);
    Srt.DigitsExclude(NatToString(m), '\n');
    assert forall i :: 0 <= i < |cells| ==> Excludes(cells[i], '\n');
    JoinExcludes(cells, ",", '\n');
  }

  lemma HeaderExcludesNewline()
    ensures Excludes(Join(Headers, ","), '\n')
  {
    JoinExcludes(Headers, ",", '\n');
  }

  lemma RowsExcludeNewline(segments: seq<DmSegment>)
    requires forall i :: 0 <= i < |segments| ==> OneLine(segments[i])
    ensures forall i :: 0 <= i < |segments| ==> Excludes(Seqs.Map(segments, CsvRow)[i], '\n')
  {
    forall i | 0 <= i < |segments|
      ensures Excludes(Seqs.Map(segments, CsvRow)[i], '\n')
    {
      Seqs.MapAt(segments, CsvRow, i);
      RowExcludesNewline(segments[i]);
    }
  }

  /** When no id or text breaks a line, the export splits into the header line and one row per segment, in order. */
  lemma CsvLines(segments: seq<DmSegment>)
    requires forall i :: 0 <= i < |segments| ==> OneLine(segments[i])
    ensures SplitOn(ExportToCSV(segments), '\n') == [Join(Headers, ",")] + Seqs.Map(segments, CsvRow)
    ensures |SplitOn(ExportToCSV(segments), '\n')| == |segments| + 1
  {
    var rows := Seqs.Map(segments, CsvRow);
    var lines := [Join(Headers, ",")] + rows;
    HeaderExcludesNewline();
    RowsExcludeNewline(segments);
    assert forall i :: 1 <= i < |lines| ==> lines[i] == rows[i - 1];
    SplitOnJoin(lines, '\n');
  }

  // ---------------------------------------------------------------- SubRip and WebVTT

  /** The timing line and the text of a SubRip block. */
  function SrtCue(s: DmSegment): string
  {
    FormatSRTTime(s.start) + " --> " + FormatSRTTime(s.end) + "\n" + s.text + "\n"
  }

  /** Block `i` of the SubRip export: its number from 1 on a line of its own, then the cue. */
  function SrtBlock(i: nat, s: DmSegment): string
  {
    NatToString(i + 1) + "\n" + SrtCue(s)
  }

  function SrtBlockAt(): (nat, DmSegment) -> string { (i: nat, s: DmSegment) => SrtBlock(i, s) }

  /** `exportToSRT` (DataManager.js:428-434). */
  function ExportToSRT(segments: seq<DmSegment>): string
  {
    Join(Seqs.MapIndexed(segments, SrtBlockAt()), "\n")
  }

  /** A WebVTT cue: the timing line and the text, with no number. */
  function VttCue(s: DmSegment): string
  {
    FormatVTTTime(s.start) + " --> " + FormatVTTTime(s.end) + "\n" + s.text + "\n"
  }

  /** `exportToVTT` (DataManager.js:437-445). */
  function ExportToVTT(segments: seq<DmSegment>): string
  {
    "WEBVTT\n\n" + Join(Seqs.Map(segments, VttCue), "\n")
  }

  lemma SrtBlockStarts(i: nat, s: DmSegment)
    ensures StartsWith(SrtBlock(i, s), NatToString(i + 1) + "\n")
  {
    var head := NatToString(i + 1) + "\n";
    assert (head + SrtCue(s))[..|head|] == head;
  }

  /** The SubRip blocks are numbered 1, 2, ... in segment order, each number on its own line. */
  lemma SrtBlocksNumbered(segments: seq<DmSegment>)
    ensures |Seqs.MapIndexed(segments, SrtBlockAt())| == |segments|
    ensures forall i :: 0 <= i < |segments| ==>
      StartsWith(Seqs.MapIndexed(segments, SrtBlockAt())[i], NatToString(i + 1) + "\n")
  {
    forall i | 0 <= i < |segments|
      ensures StartsWith(Seqs.MapIndexed(segments, SrtBlockAt())[i], NatToString(i + 1) + "\n")
    {
      Seqs.MapIndexedAt(segments, SrtBlockAt(), i);
      SrtBlockStarts(i, segments[i]);
    }
  }

  /**
   * Each WebVTT cue is the SubRip block of the same segment without its number line,
   * with the time stamps' `,` turned into `.`.
   */
  lemma VttCueIsSrtBlock(i: nat, s: DmSegment)
    ensures var head := NatToString(i + 1) + "\n";
      SrtBlock(i, s)[|head|..] == SrtCue(s)
      && VttCue(s) == ReplaceChar(FormatSRTTime(s.start), ',', ".") + " --> "
                      + ReplaceChar(FormatSRTTime(s.end), ',', ".") + "\n" + s.text + "\n"
  {
    VttIsSrtWithDot(s.start);
    VttIsSrtWithDot(s.end);
    var head := NatToString(i + 1) + "\n";
    assert (head + SrtCue(s))[|head|..] == SrtCue(s);
  }
}
