/**
 * The FFmpeg filtergraph of the renderer (tools/05b-render/ffmpeg_builder.py):
 * one trim chain per playable interval with a `drawtext` per caption word,
 * the chains interleaved video/audio and closed by a `concat` filter, and the
 * ffmpeg argument vector around it. Caption windows are local to the trimmed
 * interval (word time minus the interval's original start), unlike the
 * output-timeline times of the SubRip file.
 */
module FfmpegBuilder {
  import opened Wrappers
  import opened Strings
  import opened Decimal
  import opened Sorting
  import opened RenderSegments
  import opened Captions
  import opened Seqs
  import opened RealArith

  const MaxLineWidth: real := 800.0

  // ---------------------------------------------------------------- text, colours, sizes

  /** The four characters that stand for one `'` inside a single-quoted drawtext value. */
  const QuoteEscape: string := "'\\''"

  /** escape_ffmpeg_text: each `'` closed, escaped and reopened; nothing else changes. */
  function EscapeFfmpegText(text: string): string
  {
    ReplaceChar(text, '\'', QuoteEscape)
  }

  /** Reading an escaped text back: every `'\''` is one quote. */
  function UnescapeQuotes(s: string): string
    decreases |s|
  {
    if s == [] then ""
    else if |s| >= 4 && s[..4] == QuoteEscape then "'" + UnescapeQuotes(s[4..])
    else [s[0]] + UnescapeQuotes(s[1..])
  }

  /** Escaping loses nothing, adds three characters per quote, and leaves quote-free text alone (ffmpeg_builder.py:11-18). */
  lemma {:induction false} EscapeRoundTrip(text: string)
    ensures UnescapeQuotes(EscapeFfmpegText(text)) == text
    ensures |EscapeFfmpegText(text)| == |text| + 3 * Count(text, '\'')
    ensures Excludes(text, '\'') ==> EscapeFfmpegText(text) == text
    decreases |text|
  {
    if text != [] {
      var rest := EscapeFfmpegText(text[1..]);
      EscapeRoundTrip(text[1..]);
      var s := EscapeFfmpegText(text);
      if text[0] == '\'' {
        assert s == QuoteEscape + rest;
        assert s[..4] == QuoteEscape && s[4..] == rest;
      } else {
        assert s == [text[0]] + rest;
        assert s[0] != QuoteEscape[0];
        assert s[1..] == rest;
        assert Excludes(text, '\'') ==> Excludes(text[1..], '\'');
      }
    }
  }

  /** hex_to_ffmpeg: `lstrip('#')`. */
  function HexToFfmpeg(color: string): string
  {
    if color != [] && color[0] == '#' then HexToFfmpeg(color[1..]) else color
  }

  /** The result is the colour after its leading `#` characters, all of them (ffmpeg_builder.py:21-23). */
  lemma {:induction false} HexToFfmpegStrips(color: string)
    ensures var r := HexToFfmpeg(color);
      (r == [] || r[0] != '#') && EndsWith(color, r) && forall i :: 0 <= i < |color| - |r| ==> color[i] == '#'
    decreases |color|
  {
    if color != [] && color[0] == '#' {
      HexToFfmpegStrips(color[1..]);
    }
  }

  /** get_font_size: small, medium and large, and medium for any other name (ffmpeg_builder.py:26-33). */
  function GetFontSize(sizeName: string): (r: int)
    ensures r == 28 || r == 36 || r == 48
    ensures r == 28 <==> sizeName == "small"
    ensures r == 48 <==> sizeName == "large"
  {
    if sizeName == "small" then 28 else if sizeName == "large" then 48 else 36
  }

  /** The three placements get_y_position tells apart; any other name is centred. */
  datatype Position = Bottom | LowerThird | Centred

  function ParsePosition(name: string): (r: Position)
    ensures r == Bottom <==> name == "bottom"
    ensures r == LowerThird <==> name == "lower_third"
  {
    if name == "bottom" then Bottom else if name == "lower_third" then LowerThird else Centred
  }

  /** get_y_position: a pixel row above the bottom padding, 40 higher for the lower third, else centred. */
  function GetYPosition(position: Position, fontSize: int): string
  {
    var padding := 20;
    var boxHeight := fontSize + 20;
    match position
    case Bottom => IntToString(1920 - padding - boxHeight)
    case LowerThird => IntToString(1920 - padding - boxHeight - 40)
    case Centred => "(1920-text_h)/2"
  }

  /**
   * Read back as a number, the bottom row leaves the caption box and the padding
   * exactly above the 1920-pixel frame edge, and the lower third sits 40 pixels
   * higher; any other position is the centring expression (ffmpeg_builder.py:36-46).
   */
  lemma YPositionPlacement(fontSize: int)
    requires 0 <= fontSize <= 1840
    ensures AllDigits(GetYPosition(Bottom, fontSize))
    ensures AllDigits(GetYPosition(LowerThird, fontSize))
    ensures DigitsValue(GetYPosition(Bottom, fontSize)) + (fontSize + 20) + 20 == 1920
    ensures DigitsValue(GetYPosition(LowerThird, fontSize)) + 40 == DigitsValue(GetYPosition(Bottom, fontSize))
    ensures GetYPosition(Centred, fontSize) == "(1920-text_h)/2"
  {
    DigitsValueOfNatToString(1920 - 20 - (fontSize + 20));
    DigitsValueOfNatToString(1920 - 20 - (fontSize + 20) - 40);
  }

  // ---------------------------------------------------------------- style

  /** The caption_style keys the chain builder reads; `None` is a missing key. */
  datatype CaptionStyle = CaptionStyle(fontSize: Option<string>, position: Option<string>, background: Option<string>)

  /** The resolved look of every drawtext of a chain. */
  datatype Look = Look(fontPath: string, fontSize: int, position: Position, background: Background)

  /** A missing size is medium, a missing position the lower third and a missing background the dark box. */
  function StyleLook(style: CaptionStyle, fontPath: string): (r: Look)
    ensures style.fontSize.None? ==> r.fontSize == 36
    ensures style.position.None? ==> r.position == LowerThird
    ensures style.background.None? ==> r.background == DarkBox
  {
    Look(fontPath, GetFontSize(style.fontSize.GetOr("medium")), ParsePosition(style.position.GetOr("lower_third")),
      ParseBackground(style.background.GetOr("dark_box")))
  }

  /** Half the font size: the assumed width of one character. */
  function CharWidth(look: Look): real
  {
    (look.fontSize as real) * 0.5
  }

  // ---------------------------------------------------------------- word wrapping

  /** `len(word.text) * char_width + char_width`: a word's width with the space after it. */
  function WordWidth(w: CaptionWord, cw: real): real
  {
    Times(|w.text|, cw) + cw
  }

  /** The summed widths of a run of words. */
  function LineWidth(line: seq<CaptionWord>, cw: real): real
  {
    if line == [] then 0.0 else LineWidth(line[..|line| - 1], cw) + WordWidth(line[|line| - 1], cw)
  }

  /** The finished lines, the open line and its width. */
  datatype WrapState = WrapState(lines: seq<seq<CaptionWord>>, current: seq<CaptionWord>, width: real)

  /** One word: it opens a new line when it would overflow a non-empty line, else it joins the open one. */
  function WrapStep(st: WrapState, w: CaptionWord, cw: real): WrapState
  {
    var ww := WordWidth(w, cw);
    if st.width + ww > MaxLineWidth && st.current != [] then WrapState(st.lines + [st.current], [w], ww)
    else WrapState(st.lines, st.current + [w], st.width + ww)
  }

  function WrapPass(words: seq<CaptionWord>, cw: real): WrapState
  {
    if words == [] then WrapState([], [], 0.0) else WrapStep(WrapPass(words[..|words| - 1], cw), words[|words| - 1], cw)
  }

  function WrapLines(words: seq<CaptionWord>, cw: real): seq<seq<CaptionWord>>
  {
    var st := WrapPass(words, cw);
    if st.current != [] then st.lines + [st.current] else st.lines
  }

  /** The line-breaking loop of build_segment_filter_chain (ffmpeg_builder.py:75-91). */
  method WrapWords(words: seq<CaptionWord>, cw: real) returns (lines: seq<seq<CaptionWord>>)
    ensures lines == WrapLines(words, cw)
  {
    lines := [];
    var currentLine: seq<CaptionWord> := [];
    var lineWidth := 0.0;
    var i := 0;
    while i < |words|
      invariant 0 <= i <= |words|
      invariant WrapState(lines, currentLine, lineWidth) == WrapPass(words[..i], cw)
    {
      assert words[..i + 1][..i] == words[..i];
      var wordWidth := WordWidth(words[i], cw);
      if lineWidth + wordWidth > MaxLineWidth && currentLine != [] {
        lines := lines + [currentLine];
        currentLine := [];
        lineWidth := 0.0;
      }
      currentLine := currentLine + [words[i]];
      lineWidth := lineWidth + wordWidth;
      i := i + 1;
    }
    assert words[..i] == words;
    if currentLine != [] {
      lines := lines + [currentLine];
    }
  }

  function FlattenLines(lines: seq<seq<CaptionWord>>): seq<CaptionWord>
  {
    if lines == [] then [] else FlattenLines(lines[..|lines| - 1]) + lines[|lines| - 1]
  }

  lemma FlattenLinesAppend(lines: seq<seq<CaptionWord>>, line: seq<CaptionWord>)
    ensures FlattenLines(lines + [line]) == FlattenLines(lines) + line
  {
    assert (lines + [line])[..|lines|] == lines;
  }

  /** Every word after the first of a line fitted within the limit when it was placed. */
  predicate Fits(line: seq<CaptionWord>, cw: real)
  {
    forall j :: 0 < j < |line| ==> LineWidth(line[..j], cw) + WordWidth(line[j], cw) <= MaxLineWidth
  }

  /** The first word of each later line would have overflowed the line before it. */
  predicate Overflows(lines: seq<seq<CaptionWord>>, cw: real)
  {
    forall k :: 0 < k < |lines| ==> lines[k] != [] && LineWidth(lines[k - 1], cw) + WordWidth(lines[k][0], cw) > MaxLineWidth
  }

  predicate NonEmptyLines(lines: seq<seq<CaptionWord>>)
  {
    forall k :: 0 <= k < |lines| ==> lines[k] != []
  }

  lemma WrapPassLast(words: seq<CaptionWord>, cw: real)
    requires words != []
    ensures WrapPass(words, cw) == WrapStep(WrapPass(words[..|words| - 1], cw), words[|words| - 1], cw)
  {
  }

  lemma WrapStepWidth(st: WrapState, w: CaptionWord, cw: real)
    requires st.width == LineWidth(st.current, cw)
    ensures WrapStep(st, w, cw).width == LineWidth(WrapStep(st, w, cw).current, cw)
    ensures WrapStep(st, w, cw).current != []
  {
    if st.width + WordWidth(w, cw) > MaxLineWidth && st.current != [] {
      assert [w][..0] == [];
    } else {
      assert (st.current + [w])[..|st.current|] == st.current;
    }
  }

  /** The open line's width is the summed width of its words, and it is empty only before the first word. */
  lemma {:induction false} WrapPassWidth(words: seq<CaptionWord>, cw: real)
    ensures WrapPass(words, cw).width == LineWidth(WrapPass(words, cw).current, cw)
    ensures words != [] ==> WrapPass(words, cw).current != []
    decreases |words|
  {
    if words != [] {
      var init := words[..|words| - 1];
      WrapPassWidth(init, cw);
      WrapPassLast(words, cw);
      WrapStepWidth(WrapPass(init, cw), words[|words| - 1], cw);
    }
  }

  lemma WrapStepPartition(st: WrapState, w: CaptionWord, cw: real)
    ensures FlattenLines(WrapStep(st, w, cw).lines) + WrapStep(st, w, cw).current == FlattenLines(st.lines) + st.current + [w]
  {
    if st.width + WordWidth(w, cw) > MaxLineWidth && st.current != [] {
      FlattenLinesAppend(st.lines, st.current);
    } else {
      SeqAssoc(FlattenLines(st.lines), st.current, [w]);
    }
  }

  /** The finished lines and the open line hold the words in order. */
  lemma {:induction false} WrapPassPartition(words: seq<CaptionWord>, cw: real)
    ensures FlattenLines(WrapPass(words, cw).lines) + WrapPass(words, cw).current == words
    decreases |words|
  {
    if words != [] {
      var init := words[..|words| - 1];
      WrapPassPartition(init, cw);
      WrapPassLast(words, cw);
      WrapStepPartition(WrapPass(init, cw), words[|words| - 1], cw);
      InitLast(words);
    }
  }

  lemma SeqAssoc<T>(a: seq<T>, b: seq<T>, c: seq<T>)
    ensures a + (b + c) == a + b + c
  {
  }

  /** No finished line is empty. */
  lemma {:induction false} WrapPassNonEmpty(words: seq<CaptionWord>, cw: real)
    ensures NonEmptyLines(WrapPass(words, cw).lines)
    decreases |words|
  {
    if words != [] {
      var init := words[..|words| - 1];
      WrapPassNonEmpty(init, cw);
      WrapPassLast(words, cw);
    }
  }

  lemma {:induction false} WrapPassFits(words: seq<CaptionWord>, cw: real)
    ensures var st := WrapPass(words, cw);
      (forall k :: 0 <= k < |st.lines| ==> Fits(st.lines[k], cw)) && Fits(st.current, cw)
    decreases |words|
  {
    if words != [] {
      var init := words[..|words| - 1];
      WrapPassFits(init, cw);
      WrapPassWidth(init, cw);
      WrapPassLast(words, cw);
      WrapStepFits(WrapPass(init, cw), words[|words| - 1], cw);
    }
  }

  /** One step keeps every finished line and the open line fitted. */
  lemma WrapStepFits(st: WrapState, w: CaptionWord, cw: real)
    requires st.width == LineWidth(st.current, cw)
    requires (forall k :: 0 <= k < |st.lines| ==> Fits(st.lines[k], cw)) && Fits(st.current, cw)
    ensures var next := WrapStep(st, w, cw);
      (forall k :: 0 <= k < |next.lines| ==> Fits(next.lines[k], cw)) && Fits(next.current, cw)
  {
    if st.width + WordWidth(w, cw) > MaxLineWidth && st.current != [] {
      var lines := st.lines + [st.current];
      forall k | 0 <= k < |lines| ensures Fits(lines[k], cw) {
        if k < |st.lines| {
          assert lines[k] == st.lines[k];
        }
      }
    } else {
      FitsSnoc(st.current, w, cw);
    }
  }

  /** A word that fits after a fitted line leaves it fitted. */
  lemma FitsSnoc(current: seq<CaptionWord>, w: CaptionWord, cw: real)
    requires Fits(current, cw)
    requires current != [] ==> LineWidth(current, cw) + WordWidth(w, cw) <= MaxLineWidth
    ensures Fits(current + [w], cw)
  {
    var line := current + [w];
    forall j | 0 < j < |line| ensures LineWidth(line[..j], cw) + WordWidth(line[j], cw) <= MaxLineWidth {
      if j < |current| {
        assert line[..j] == current[..j];
      } else {
        assert line[..j] == current;
      }
    }
  }

  lemma {:induction false} WrapPassOverflows(words: seq<CaptionWord>, cw: real)
    ensures var st := WrapPass(words, cw);
      Overflows(st.lines, cw)
      && (st.lines != [] ==> st.current != [] && LineWidth(st.lines[|st.lines| - 1], cw) + WordWidth(st.current[0], cw) > MaxLineWidth)
    decreases |words|
  {
    if words != [] {
      var init := words[..|words| - 1];
      var w := words[|words| - 1];
      WrapPassOverflows(init, cw);
      WrapPassWidth(init, cw);
      var st := WrapPass(init, cw);
      if st.width + WordWidth(w, cw) > MaxLineWidth && st.current != [] {
        var lines := st.lines + [st.current];
        assert lines[|lines| - 1] == st.current;
        forall k | 0 < k < |lines|
          ensures lines[k] != [] && LineWidth(lines[k - 1], cw) + WordWidth(lines[k][0], cw) > MaxLineWidth
        {
          if k < |st.lines| {
            assert lines[k] == st.lines[k] && lines[k - 1] == st.lines[k - 1];
          }
        }
      } else if st.lines != [] {
        assert (st.current + [w])[0] == st.current[0];
      }
    }
  }

  /**
   * The lines partition the words in order, no line is empty, every word
   * after the first of a line fitted, and the first word of each later line
   * would have overflowed the line before it (ffmpeg_builder.py:72-91).
   */
  lemma WrapLinesFacts(words: seq<CaptionWord>, cw: real)
    ensures var lines := WrapLines(words, cw);
      FlattenLines(lines) == words && NonEmptyLines(lines) && Overflows(lines, cw)
      && forall k :: 0 <= k < |lines| ==> Fits(lines[k], cw)
  {
    WrapPassWidth(words, cw);
    var st := WrapPass(words, cw);
    if st.current != [] {
      WrapPassPartition(words, cw);
      WrapPassNonEmpty(words, cw);
      WrapPassFits(words, cw);
      WrapPassOverflows(words, cw);
      FlattenLinesAppend(st.lines, st.current);
      CloseLine(st.lines, st.current, cw);
    }
  }

  /** Closing the open line keeps every line non-empty and fitted, and each break an overflow. */
  lemma CloseLine(lines: seq<seq<CaptionWord>>, current: seq<CaptionWord>, cw: real)
    requires current != [] && NonEmptyLines(lines) && Overflows(lines, cw) && Fits(current, cw)
    requires forall k :: 0 <= k < |lines| ==> Fits(lines[k], cw)
    requires lines != [] ==> LineWidth(lines[|lines| - 1], cw) + WordWidth(current[0], cw) > MaxLineWidth
    ensures var all := lines + [current];
      NonEmptyLines(all) && Overflows(all, cw) && forall k :: 0 <= k < |all| ==> Fits(all[k], cw)
  {
    var all := lines + [current];
    forall k | 0 <= k < |all| ensures all[k] != [] && Fits(all[k], cw) {
      if k < |lines| {
        assert all[k] == lines[k];
      }
    }
    forall k | 0 < k < |all| ensures LineWidth(all[k - 1], cw) + WordWidth(all[k][0], cw) > MaxLineWidth {
      if k < |lines| {
        assert all[k] == lines[k] && all[k - 1] == lines[k - 1];
      }
    }
  }

  // ---------------------------------------------------------------- drawtext

  function WordTexts(line: seq<CaptionWord>): (r: seq<string>)
    ensures |r| == |line|
  {
    if line == [] then [] else WordTexts(line[..|line| - 1]) + [line[|line| - 1].text]
  }

  /** `len(' '.join(texts)) * char_width`, the width used to centre a line. */
  function TextWidth(line: seq<CaptionWord>, cw: real): real
  {
    Times(|Join(WordTexts(line), " ")|, cw)
  }

  /** `x=`: the centred start of the line, then the running offset when it is positive. */
  function XExpr(totalWidth: real, xOffset: real): string
  {
    var base := "(1080-" + PyFixed(totalWidth, 0) + ")/2";
    if xOffset > 0.0 then base + "+" + PyFixed(xOffset, 0) else base
  }

  /** The backgrounds the drawtext builder tells apart; any other name draws none. */
  datatype Background = DarkBox | Outline | Plain

  function ParseBackground(name: string): (r: Background)
    ensures r == DarkBox <==> name == "dark_box"
    ensures r == Outline <==> name == "outline"
  {
    if name == "dark_box" then DarkBox else if name == "outline" then Outline else Plain
  }

  function BackgroundOption(background: Background): string
  {
    match background
    case DarkBox => ":box=1:boxcolor=black@0.7:boxborderw=8"
    case Outline => ":borderw=2:bordercolor=black"
    case Plain => ""
  }

  /** The word's display window, local to the trimmed interval. */
  function EnableOption(w: CaptionWord, originalStart: real): string
  {
    ":enable='between(t\\," + PyFixed(w.start - originalStart, 3) + "\\," + PyFixed(w.end - originalStart, 3) + ")'"
  }

  /** `drawtext=text='...'`: the escaped word in single quotes. */
  function TextOption(w: CaptionWord): string
  {
    "drawtext=text='" + EscapeFfmpegText(w.text) + "'"
  }

  /** Font, colour and position options. */
  function PlacementOptions(w: CaptionWord, look: Look, totalWidth: real, xOffset: real, lineYOffset: int): string
  {
    ":fontfile=" + look.fontPath + ":fontsize=" + IntToString(look.fontSize) + ":fontcolor=" + HexToFfmpeg(w.color)
    + ":x=" + XExpr(totalWidth, xOffset) + ":y=" + GetYPosition(look.position, look.fontSize) + "-" + IntToString(lineYOffset)
  }

  function DrawText(w: CaptionWord, look: Look, totalWidth: real, xOffset: real, lineYOffset: int, originalStart: real): string
  {
    TextOption(w) + PlacementOptions(w, look, totalWidth, xOffset, lineYOffset) + (BackgroundOption(look.background) + EnableOption(w, originalStart))
  }

  /**
   * A drawtext starts with the escaped word in single quotes and ends with the
   * word's window; a dark box or an outline adds its option before the window
   * and any other background adds nothing (ffmpeg_builder.py:109-128).
   */
  lemma DrawTextShape(w: CaptionWord, look: Look, totalWidth: real, xOffset: real, lineYOffset: int, originalStart: real)
    ensures var d := DrawText(w, look, totalWidth, xOffset, lineYOffset, originalStart);
      StartsWith(d, TextOption(w)) && EndsWith(d, BackgroundOption(look.background) + EnableOption(w, originalStart))
      && EndsWith(d, EnableOption(w, originalStart))
  {
    var d := DrawText(w, look, totalWidth, xOffset, lineYOffset, originalStart);
    var head := TextOption(w);
    var mid := PlacementOptions(w, look, totalWidth, xOffset, lineYOffset);
    var bg := BackgroundOption(look.background);
    var en := EnableOption(w, originalStart);
    SuffixOfAppend(bg, en);
    SplitThree(head, mid, bg + en);
  }

  lemma SplitThree(a: string, b: string, c: string)
    ensures StartsWith(a + b + c, a) && EndsWith(a + b + c, c)
  {
    assert (a + b + c)[..|a|] == a;
    assert (a + b + c)[|a + b|..] == c;
  }

  lemma SuffixOfAppend(a: string, b: string)
    ensures EndsWith(a + b, b)
  {
    assert (a + b)[|a|..] == b;
  }

  lemma EndsWithTrans(s: string, t: string, u: string)
    requires EndsWith(s, t) && EndsWith(t, u)
    ensures EndsWith(s, u)
  {
    assert s[|s| - |u|..] == t[|t| - |u|..];
  }

  /** Reading back a window's bounds gives the word's local times rounded to milliseconds. */
  lemma EnableWindowValues(w: CaptionWord, originalStart: real)
    ensures ParseFloat(PyFixed(w.start - originalStart, 3)) == Some(RoundedTo(w.start - originalStart, 3))
    ensures ParseFloat(PyFixed(w.end - originalStart, 3)) == Some(RoundedTo(w.end - originalStart, 3))
  {
    PyFixedRoundTrip(w.start - originalStart, 3);
    PyFixedRoundTrip(w.end - originalStart, 3);
  }

  /** Where one word is drawn: the centring width of its line, its offset in the line and the line's lift. */
  datatype Placement = Placement(word: CaptionWord, totalWidth: real, xOffset: real, lineYOffset: int)

  /** The first words of a line, each at the summed width of the words before it. */
  function Placements(ws: seq<CaptionWord>, totalWidth: real, lineYOffset: int, cw: real): (r: seq<Placement>)
    ensures |r| == |ws|
  {
    if ws == [] then []
    else
      var init := ws[..|ws| - 1];
      Placements(init, totalWidth, lineYOffset, cw) + [Placement(ws[|ws| - 1], totalWidth, LineWidth(init, cw), lineYOffset)]
  }

  lemma PlacementsSnoc(ws: seq<CaptionWord>, j: nat, totalWidth: real, lineYOffset: int, cw: real)
    requires j < |ws|
    ensures Placements(ws[..j + 1], totalWidth, lineYOffset, cw)
         == Placements(ws[..j], totalWidth, lineYOffset, cw) + [Placement(ws[j], totalWidth, LineWidth(ws[..j], cw), lineYOffset)]
  {
    assert ws[..j + 1][..j] == ws[..j];
  }

  /** Word `j` of a line is drawn `LineWidth(line[..j])` to the right of the centred line start. */
  lemma {:induction false} PlacementsAt(ws: seq<CaptionWord>, totalWidth: real, lineYOffset: int, cw: real, j: nat)
    requires j < |ws|
    ensures Placements(ws, totalWidth, lineYOffset, cw)[j] == Placement(ws[j], totalWidth, LineWidth(ws[..j], cw), lineYOffset)
    decreases |ws|
  {
    var init := ws[..|ws| - 1];
    if j < |init| {
      PlacementsAt(init, totalWidth, lineYOffset, cw, j);
      assert init[..j] == ws[..j];
    }
  }

  /** Line `lineIdx`, centred on its text width and lifted `lineIdx * (font_size + 10)` pixels. */
  function LinePlacements(line: seq<CaptionWord>, lineIdx: nat, look: Look): (r: seq<Placement>)
    ensures |r| == |line|
  {
    Placements(line, TextWidth(line, CharWidth(look)), lineIdx * (look.fontSize + 10), CharWidth(look))
  }

  /** All lines, line after line. */
  function AllPlacements(lines: seq<seq<CaptionWord>>, look: Look): (r: seq<Placement>)
  {
    if lines == [] then []
    else AllPlacements(lines[..|lines| - 1], look) + LinePlacements(lines[|lines| - 1], |lines| - 1, look)
  }

  lemma AllPlacementsSnoc(lines: seq<seq<CaptionWord>>, i: nat, look: Look)
    requires i < |lines|
    ensures AllPlacements(lines[..i + 1], look) == AllPlacements(lines[..i], look) + LinePlacements(lines[i], i, look)
  {
    assert lines[..i + 1][..i] == lines[..i];
  }

  /** The placements of all lines follow the words of all lines one to one. */
  lemma {:induction false} AllPlacementsWords(lines: seq<seq<CaptionWord>>, look: Look)
    ensures |AllPlacements(lines, look)| == |FlattenLines(lines)|
    ensures forall k :: 0 <= k < |FlattenLines(lines)| ==> AllPlacements(lines, look)[k].word == FlattenLines(lines)[k]
    decreases |lines|
  {
    if lines != [] {
      var init := lines[..|lines| - 1];
      var last := lines[|lines| - 1];
      AllPlacementsWords(init, look);
      var ps := AllPlacements(lines, look);
      var flat := FlattenLines(lines);
      var n := |FlattenLines(init)|;
      forall k | 0 <= k < |flat| ensures ps[k].word == flat[k] {
        if k >= n {
          PlacementsAt(last, TextWidth(last, CharWidth(look)), (|lines| - 1) * (look.fontSize + 10), CharWidth(look), k - n);
        }
      }
    }
  }

  function Render(p: Placement, look: Look, originalStart: real): string
  {
    DrawText(p.word, look, p.totalWidth, p.xOffset, p.lineYOffset, originalStart)
  }

  function RenderWith(look: Look, originalStart: real): Placement -> string
  {
    p => Render(p, look, originalStart)
  }

  /** One drawtext per placement. */
  function RenderAll(ps: seq<Placement>, look: Look, originalStart: real): (r: seq<string>)
    ensures |r| == |ps|
  {
    Map(ps, RenderWith(look, originalStart))
  }

  lemma PlaceStep(line: seq<CaptionWord>, j: nat, totalWidth: real, lineYOffset: int, cw: real)
    requires j < |line|
    ensures Placements(line[..j + 1], totalWidth, lineYOffset, cw)
      == Placements(line[..j], totalWidth, lineYOffset, cw) + [Placement(line[j], totalWidth, LineWidth(line[..j], cw), lineYOffset)]
    ensures LineWidth(line[..j + 1], cw) == LineWidth(line[..j], cw) + WordWidth(line[j], cw)
  {
    PlacementsSnoc(line, j, totalWidth, lineYOffset, cw);
    assert line[..j + 1][..j] == line[..j];
  }

  /**
   * The inner loop over one line's words (ffmpeg_builder.py:95-131): each word
   * is drawn at the running `x_offset`, which then grows by the word's width.
   */
  method PlaceLine(line: seq<CaptionWord>, lineIdx: nat, look: Look) returns (ps: seq<Placement>)
    ensures ps == LinePlacements(line, lineIdx, look)
  {
    var charWidth := CharWidth(look);
    var lineYOffset := lineIdx * (look.fontSize + 10);
    var xOffset := 0.0;
    var totalWidth := TextWidth(line, charWidth);
    ps := [];
    var j := 0;
    while j < |line|
      invariant 0 <= j <= |line|
      invariant xOffset == LineWidth(line[..j], charWidth)
      invariant ps == Placements(line[..j], totalWidth, lineYOffset, charWidth)
    {
      PlaceStep(line, j, totalWidth, lineYOffset, charWidth);
      ps := ps + [Placement(line[j], totalWidth, xOffset, lineYOffset)];
      xOffset := xOffset + WordWidth(line[j], charWidth);
      j := j + 1;
    }
    assert line[..j] == line;
  }

  lemma {:induction false} JoinLength(parts: seq<string>)
    requires parts != []
    ensures |Join(parts, " ")| + 1 == SumLengths(parts) + |parts|
    decreases |parts|
  {
    if |parts| > 1 {
      JoinLength(parts[1..]);
      SumLengthsFirst(parts);
    }
  }

  function SumLengths(parts: seq<string>): nat
  {
    if parts == [] then 0 else SumLengths(parts[..|parts| - 1]) + |parts[|parts| - 1]|
  }

  lemma {:induction false} SumLengthsFirst(parts: seq<string>)
    requires parts != []
    ensures SumLengths(parts) == |parts[0]| + SumLengths(parts[1..])
    decreases |parts|
  {
    if |parts| > 1 {
      var init := parts[..|parts| - 1];
      SumLengthsFirst(init);
      assert init[1..] == parts[1..][..|parts[1..]| - 1];
    }
  }

  /** The characters a line takes: each word's text and the space after it. */
  function LineChars(line: seq<CaptionWord>): nat
  {
    if line == [] then 0 else LineChars(line[..|line| - 1]) + |line[|line| - 1].text| + 1
  }

  lemma {:induction false} LineCharsTexts(line: seq<CaptionWord>)
    ensures LineChars(line) == SumLengths(WordTexts(line)) + |line|
    decreases |line|
  {
    if line != [] {
      var init := line[..|line| - 1];
      LineCharsTexts(init);
      var texts := WordTexts(line);
      assert texts[..|texts| - 1] == WordTexts(init);
    }
  }

  lemma {:induction false} LineWidthChars(line: seq<CaptionWord>, cw: real)
    ensures LineWidth(line, cw) == Times(LineChars(line), cw)
    decreases |line|
  {
    if line != [] {
      var init := line[..|line| - 1];
      var t := |line[|line| - 1].text|;
      LineWidthChars(init, cw);
      TimesAdd(LineChars(init), t + 1, cw);
      assert Times(t + 1, cw) == Times(t, cw) + cw;
    }
  }

  /**
   * The centring width plus one character is the line's summed width
   * (ffmpeg_builder.py:84-85,99-100).
   */
  lemma LineCentring(line: seq<CaptionWord>, cw: real)
    requires line != []
    ensures TextWidth(line, cw) + cw == LineWidth(line, cw)
  {
    JoinLength(WordTexts(line));
    LineCharsTexts(line);
    LineWidthChars(line, cw);
  }

  /**
   * The last word's offset plus its text ends at the centred line's right
   * edge (ffmpeg_builder.py:99-100,131).
   */
  lemma LastWordEnds(line: seq<CaptionWord>, cw: real)
    requires line != []
    ensures LineWidth(line[..|line| - 1], cw) + Times(|line[|line| - 1].text|, cw) == TextWidth(line, cw)
  {
    LineCentring(line, cw);
  }

  // ---------------------------------------------------------------- one chain per interval

  /** A caption event as a chain reads it: its words and the source time its interval starts at. */
  datatype ChainCaption = ChainCaption(words: seq<CaptionWord>, originalStart: real)

  function TrimPart(span: Span): string
  {
    "[0:v]trim=start=" + PyFixed(span.start, 3) + ":end=" + PyFixed(span.end, 3) + ",setpts=PTS-STARTPTS"
  }

  /** Where every word of a chain is drawn: the words sorted by start, wrapped, line after line. */
  function ChainPlacements(caption: ChainCaption, look: Look): seq<Placement>
  {
    AllPlacements(WrapLines(SortBy(caption.words, CaptionStart), CharWidth(look)), look)
  }

  function ChainDraws(caption: ChainCaption, look: Look): seq<string>
  {
    RenderAll(ChainPlacements(caption, look), look, caption.originalStart)
  }

  function VideoLabel(idx: nat): string
  {
    "[v" + NatToString(idx) + "]"
  }

  function VideoChain(idx: nat, span: Span, caption: ChainCaption, look: Look): string
  {
    Join([TrimPart(span)] + ChainDraws(caption, look), ",") + VideoLabel(idx)
  }

  function AudioChain(idx: nat, span: Span): string
  {
    "[0:a]atrim=start=" + PyFixed(span.start, 3) + ":end=" + PyFixed(span.end, 3) + ",asetpts=PTS-STARTPTS[a" + NatToString(idx) + "]"
  }

  /** The outer loop over the wrapped lines of one chain, line `i` lifted by `i` line heights (ffmpeg_builder.py:95-131). */
  method PlaceLines(lines: seq<seq<CaptionWord>>, look: Look) returns (ps: seq<Placement>)
    ensures ps == AllPlacements(lines, look)
  {
    ps := [];
    var lineIdx := 0;
    while lineIdx < |lines|
      invariant 0 <= lineIdx <= |lines|
      invariant ps == AllPlacements(lines[..lineIdx], look)
    {
      var linePs := PlaceLine(lines[lineIdx], lineIdx, look);
      AllPlacementsSnoc(lines, lineIdx, look);
      ps := ps + linePs;
      lineIdx := lineIdx + 1;
    }
    assert lines[..lineIdx] == lines;
  }

  /** build_segment_filter_chain (ffmpeg_builder.py:49-137). */
  method BuildSegmentFilterChain(segmentIdx: nat, sourceStart: real, sourceEnd: real, caption: ChainCaption,
                                 fontPath: string, style: CaptionStyle)
    returns (videoChain: string, audioChain: string)
    ensures videoChain == VideoChain(segmentIdx, Span(sourceStart, sourceEnd), caption, StyleLook(style, fontPath))
    ensures audioChain == AudioChain(segmentIdx, Span(sourceStart, sourceEnd))
  {
    var look := StyleLook(style, fontPath);
    var span := Span(sourceStart, sourceEnd);
    var videoParts := [TrimPart(span)];
    if caption.words != [] {
      var wordsSorted := SortBy(caption.words, CaptionStart);
      var lines := WrapWords(wordsSorted, CharWidth(look));
      var placements := PlaceLines(lines, look);
      videoParts := videoParts + RenderAll(placements, look, caption.originalStart);
    } else {
      assert SortBy(caption.words, CaptionStart) == [];
      assert WrapPass([], CharWidth(look)) == WrapState([], [], 0.0);
      assert ChainDraws(caption, look) == [];
    }
    videoChain := Join(videoParts, ",") + VideoLabel(segmentIdx);
    audioChain := "[0:a]atrim=start=" + PyFixed(sourceStart, 3) + ":end=" + PyFixed(sourceEnd, 3)
      + ",asetpts=PTS-STARTPTS[a" + NatToString(segmentIdx) + "]";
  }

  /**
   * A chain draws every caption word exactly once: the `k`-th drawtext shows
   * the `k`-th word by start time, in its interval-local window
   * (ffmpeg_builder.py:72-131).
   */
  lemma ChainDrawsWords(caption: ChainCaption, look: Look)
    ensures var sorted := SortBy(caption.words, CaptionStart);
      var draws := ChainDraws(caption, look);
      |draws| == |caption.words|
      && forall k :: 0 <= k < |draws| ==> EndsWith(draws[k], EnableOption(sorted[k], caption.originalStart))
  {
    var sorted := SortBy(caption.words, CaptionStart);
    var lines := WrapLines(sorted, CharWidth(look));
    var ps := ChainPlacements(caption, look);
    WrapLinesFacts(sorted, CharWidth(look));
    AllPlacementsWords(lines, look);
    forall k | 0 <= k < |sorted|
      ensures EndsWith(ChainDraws(caption, look)[k], EnableOption(sorted[k], caption.originalStart))
    {
      MapAt(ps, RenderWith(look, caption.originalStart), k);
      var p := ps[k];
      DrawTextShape(p.word, look, p.totalWidth, p.xOffset, p.lineYOffset, caption.originalStart);
    }
  }

  // ---------------------------------------------------------------- the whole graph

  /** The caption given to chain `idx`: the event at the same index, or no words from the interval start. */
  function ChainCaptionAt(events: seq<CaptionEvent>, idx: nat, span: Span): ChainCaption
  {
    if idx < |events| then ChainCaption(events[idx].words, events[idx].originalStart) else ChainCaption([], span.start)
  }

  /** `[v0][a0][v1][a1]...` for `n` intervals. */
  function ConcatLabels(n: nat): string
  {
    if n == 0 then "" else ConcatLabels(n - 1) + "[v" + NatToString(n - 1) + "][a" + NatToString(n - 1) + "]"
  }

  function ConcatFilter(n: nat): string
  {
    ConcatLabels(n) + "concat=n=" + NatToString(n) + ":v=1:a=1[outv][outa]"
  }

  /** Chain `i` with the caption at index `i`. */
  function VideoChainWith(events: seq<CaptionEvent>, look: Look): (nat, Span) -> string
  {
    (i: nat, span: Span) => VideoChain(i, span, ChainCaptionAt(events, i, span), look)
  }

  /** The video chain of every interval. */
  function VideoChains(events: seq<CaptionEvent>, look: Look, spans: seq<Span>): (r: seq<string>)
    ensures |r| == |spans|
  {
    MapIndexed(spans, VideoChainWith(events, look))
  }

  function AudioChains(spans: seq<Span>): (r: seq<string>)
    ensures |r| == |spans|
  {
    MapIndexed(spans, AudioChain)
  }

  /** build_filter_graph's result: `copy` without intervals, else the chains and the concat filter joined by `;\n`. */
  function FilterGraph(events: seq<CaptionEvent>, look: Look, spans: seq<Span>): string
  {
    if spans == [] then "copy"
    else Join(Interleave(VideoChains(events, look, spans), AudioChains(spans)) + [ConcatFilter(|spans|)], ";\n")
  }

  /** The chain-building loop of build_filter_graph: one video and one audio chain per interval (ffmpeg_builder.py:155-172). */
  method BuildChains(captionEvents: seq<CaptionEvent>, style: CaptionStyle, fontPath: string, playableSegments: seq<Span>)
    returns (videoChains: seq<string>, audioChains: seq<string>)
    ensures videoChains == VideoChains(captionEvents, StyleLook(style, fontPath), playableSegments)
    ensures audioChains == AudioChains(playableSegments)
  {
    ghost var look := StyleLook(style, fontPath);
    videoChains := [];
    audioChains := [];
    var idx := 0;
    while idx < |playableSegments|
      invariant 0 <= idx <= |playableSegments|
      invariant videoChains == VideoChains(captionEvents, look, playableSegments[..idx])
      invariant audioChains == AudioChains(playableSegments[..idx])
    {
      var span := playableSegments[idx];
      var captionEvent := ChainCaptionAt(captionEvents, idx, span);
      var videoChain, audioChain := BuildSegmentFilterChain(idx, span.start, span.end, captionEvent, fontPath, style);
      MapIndexedSnoc(playableSegments, VideoChainWith(captionEvents, look), idx);
      MapIndexedSnoc(playableSegments, AudioChain, idx);
      videoChains := videoChains + [videoChain];
      audioChains := audioChains + [audioChain];
      idx := idx + 1;
    }
    assert playableSegments[..idx] == playableSegments;
  }

  /** Each video chain followed by its audio chain (ffmpeg_builder.py:174-178). */
  method InterleaveChains(videoChains: seq<string>, audioChains: seq<string>) returns (filterParts: seq<string>)
    requires |videoChains| == |audioChains|
    ensures filterParts == Interleave(videoChains, audioChains)
  {
    filterParts := [];
    var i := 0;
    while i < |videoChains|
      invariant 0 <= i <= |videoChains|
      invariant filterParts == Interleave(videoChains[..i], audioChains[..i])
    {
      InterleaveSnoc(videoChains, audioChains, i);
      filterParts := filterParts + [videoChains[i], audioChains[i]];
      i := i + 1;
    }
    assert videoChains[..i] == videoChains && audioChains[..i] == audioChains;
  }

  /** The concat filter over `[v0][a0]...` (ffmpeg_builder.py:180-187). */
  method BuildConcatFilter(numSegments: nat) returns (concatFilter: string)
    ensures concatFilter == ConcatFilter(numSegments)
  {
    var concatInputLabels := "";
    var j := 0;
    while j < numSegments
      invariant 0 <= j <= numSegments
      invariant concatInputLabels == ConcatLabels(j)
    {
      concatInputLabels := concatInputLabels + "[v" + NatToString(j) + "][a" + NatToString(j) + "]";
      j := j + 1;
    }
    concatFilter := concatInputLabels + "concat=n=" + NatToString(numSegments) + ":v=1:a=1[outv][outa]";
  }

  /** build_filter_graph (ffmpeg_builder.py:140-196). */
  method BuildFilterGraph(captionEvents: seq<CaptionEvent>, style: CaptionStyle, fontPath: string, playableSegments: seq<Span>)
    returns (graph: string)
    ensures graph == FilterGraph(captionEvents, StyleLook(style, fontPath), playableSegments)
  {
    if playableSegments == [] {
      return "copy";
    }
    var videoChains, audioChains := BuildChains(captionEvents, style, fontPath, playableSegments);
    var filterParts := InterleaveChains(videoChains, audioChains);
    var concatFilter := BuildConcatFilter(|playableSegments|);
    filterParts := filterParts + [concatFilter];
    graph := Join(filterParts, ";\n");
  }

  /** A video chain starts with the trim of its interval and ends with its label. */
  lemma VideoChainShape(idx: nat, span: Span, caption: ChainCaption, look: Look)
    ensures StartsWith(VideoChain(idx, span, caption, look), TrimPart(span))
    ensures EndsWith(VideoChain(idx, span, caption, look), VideoLabel(idx))
  {
    JoinedShape(TrimPart(span), ChainDraws(caption, look), VideoLabel(idx));
  }

  lemma JoinedShape(head: string, rest: seq<string>, suffix: string)
    ensures StartsWith(Join([head] + rest, ",") + suffix, head)
    ensures EndsWith(Join([head] + rest, ",") + suffix, suffix)
  {
    var inner := [head] + rest;
    var joined := Join(inner, ",");
    JoinStartsWithFirst(inner, ",");
    assert joined == head + joined[|head|..];
    SplitThree(head, joined[|head|..], suffix);
  }

  /** An interval with no caption event draws no words. */
  lemma UncaptionedChain(events: seq<CaptionEvent>, i: nat, span: Span, look: Look)
    requires i >= |events|
    ensures ChainDraws(ChainCaptionAt(events, i, span), look) == []
  {
    var caption := ChainCaptionAt(events, i, span);
    assert SortBy(caption.words, CaptionStart) == [];
    assert WrapPass([], CharWidth(look)) == WrapState([], [], 0.0);
  }

  /**
   * Without intervals the graph is `copy`; otherwise it has 2N chains, the
   * video then the audio chain of each interval in turn, each trimmed to the
   * interval's bounds and labelled with its index, then the concat filter.
   * Interval `i` is captioned by the event at index `i`, and past the end of
   * the events by nothing (ffmpeg_builder.py:155-196).
   */
  lemma GraphLayout(events: seq<CaptionEvent>, look: Look, spans: seq<Span>, i: nat)
    requires i < |spans|
    ensures var parts := Interleave(VideoChains(events, look, spans), AudioChains(spans)) + [ConcatFilter(|spans|)];
      FilterGraph(events, look, spans) == Join(parts, ";\n") && |parts| == 2 * |spans| + 1
      && parts[2 * i] == VideoChain(i, spans[i], ChainCaptionAt(events, i, spans[i]), look)
      && parts[2 * i + 1] == AudioChain(i, spans[i])
      && parts[2 * |spans|] == ConcatFilter(|spans|)
      && StartsWith(parts[2 * i], TrimPart(spans[i])) && EndsWith(parts[2 * i], VideoLabel(i))
    ensures i >= |events| ==> ChainDraws(ChainCaptionAt(events, i, spans[i]), look) == []
  {
    var vs := VideoChains(events, look, spans);
    var as_ := AudioChains(spans);
    InterleaveAt(vs, as_, i);
    MapIndexedAt(spans, VideoChainWith(events, look), i);
    MapIndexedAt(spans, AudioChain, i);
    VideoChainShape(i, spans[i], ChainCaptionAt(events, i, spans[i]), look);
    if i >= |events| {
      UncaptionedChain(events, i, spans[i], look);
    }
  }

  lemma JoinStartsWithFirst(parts: seq<string>, sep: string)
    requires parts != []
    ensures StartsWith(Join(parts, sep), parts[0])
  {
    var j := Join(parts, sep);
    if |parts| > 1 {
      assert j == parts[0] + (sep + Join(parts[1..], sep));
    }
    assert j[..|parts[0]|] == parts[0];
  }

  // ---------------------------------------------------------------- the command line

  /** build_ffmpeg_command with `use_filter_script=False`: the graph is passed inline (ffmpeg_builder.py:199-236). */
  method BuildFfmpegCommand(inputVideo: string, outputVideo: string, filterGraph: string)
    returns (cmd: seq<string>, filterFile: Option<string>)
    ensures cmd == ["ffmpeg", "-y", "-i", inputVideo, "-filter_complex", filterGraph,
                    "-map", "[outv]", "-map", "[outa]", "-c:v", "libx264", "-preset", "medium",
                    "-crf", "23", "-c:a", "aac", outputVideo]
    ensures filterFile.None?
  {
    cmd := ["ffmpeg", "-y", "-i", inputVideo];
    filterFile := None;
    cmd := cmd + ["-filter_complex", filterGraph];
    cmd := cmd + ["-map", "[outv]", "-map", "[outa]", "-c:v", "libx264", "-preset", "medium",
                  "-crf", "23", "-c:a", "aac", outputVideo];
  }
}
