/**
 * SubRip captions for the rendered video (tools/05b-render/srt.py): event
 * words mapped to output time, packed into blocks, and printed as numbered
 * `HH:MM:SS,mmm --> HH:MM:SS,mmm` entries.
 */
module Srt {
  import opened Wrappers
  import opened Strings
  import opened Decimal
  import opened Captions

  // ---------------------------------------------------------------- timestamps

  datatype SrtFields = SrtFields(hours: int, minutes: int, secs: int, millis: int)

  /** The four fields format_srt_time computes with Python's floor `//` and `%` on floats. */
  function SrtTimeFields(seconds: real): (f: SrtFields)
    ensures 0 <= f.minutes < 60 && 0 <= f.secs < 60 && 0 <= f.millis < 1000
    ensures seconds >= 0.0 ==> f.hours >= 0
  {
    var hours := (seconds / 3600.0).Floor;
    var inHour := PyMod(seconds, 3600.0);
    var minutes := (inHour / 60.0).Floor;
    var secs := Trunc(PyMod(seconds, 60.0));
    var frac := PyMod(seconds, 1.0);
    assert 0.0 <= frac * 1000.0 < 1000.0;
    var millis := Trunc(frac * 1000.0);
    SrtFields(hours, minutes, secs, millis)
  }

  lemma FloorShift(n: int, y: real)
    ensures (n as real + y).Floor == n + y.Floor
  {
  }

  /**
   * The fields are the whole milliseconds of the time, taken apart: hours, then
   * minutes and seconds below 60, then milliseconds truncated (srt.py:7-12).
   */
  lemma SrtTimeFieldsExact(seconds: real)
    ensures TotalMillis(SrtTimeFields(seconds)) == (seconds * 1000.0).Floor
  {
    var f := SrtTimeFields(seconds);
    var h := f.hours;
    var r1 := PyMod(seconds, 3600.0);
    assert r1 == seconds - 3600.0 * (h as real);
    var m := f.minutes;
    assert m == (r1 / 60.0).Floor;
    // seconds / 60 is 60 h + r1 / 60, whose floor is 60 h + m
    assert seconds / 60.0 == (60 * h) as real + r1 / 60.0;
    FloorShift(60 * h, r1 / 60.0);
    assert (seconds / 60.0).Floor == 60 * h + m;
    var r2 := PyMod(seconds, 60.0);
    assert r2 == seconds - 60.0 * ((60 * h + m) as real);
    assert f.secs == r2.Floor;
    var whole := seconds.Floor;
    assert seconds == (3600 * h + 60 * m) as real + r2;
    FloorShift(3600 * h + 60 * m, r2);
    assert whole == 3600 * h + 60 * m + f.secs;
    var r3 := PyMod(seconds, 1.0);
    assert r3 == seconds - whole as real;
    assert f.millis == (r3 * 1000.0).Floor;
    assert seconds * 1000.0 == (1000 * whole) as real + r3 * 1000.0;
    FloorShift(1000 * whole, r3 * 1000.0);
  }

  /** The same four fields taken from a whole number of milliseconds. */
  function MillisFields(t: int): SrtFields
  {
    SrtFields(t / 3600000, (t % 3600000) / 60000, (t % 60000) / 1000, t % 1000)
  }

  /** Python's float arithmetic in format_srt_time takes apart exactly the whole milliseconds (srt.py:9-12). */
  lemma SrtTimeFieldsAreMillis(seconds: real)
    ensures SrtTimeFields(seconds) == MillisFields((seconds * 1000.0).Floor)
  {
    var f := SrtTimeFields(seconds);
    SrtTimeFieldsExact(seconds);
    MixedRadix((seconds * 1000.0).Floor, f.hours, f.minutes, f.secs, f.millis);
  }

  lemma DivUnique(t: int, d: int, q: int, r: int)
    requires d > 0 && 0 <= r < d && t == q * d + r
    ensures t / d == q && t % d == r
  {
    var q0, r0 := t / d, t % d;
    assert t == q0 * d + r0;
    assert (q - q0) * d == r0 - r;
    if q > q0 {
      MulAtLeast(q - q0, d);
    } else if q < q0 {
      MulAtLeast(q0 - q, d);
    }
  }

  lemma MulAtLeast(k: int, d: int)
    requires k >= 1 && d > 0
    ensures k * d >= d
  {
    assert k * d == (k - 1) * d + d;
    assert (k - 1) * d >= 0;
  }

  /** Hours, minutes below 60, seconds below 60 and milliseconds below 1000 are determined by their total. */
  lemma MixedRadix(t: int, h: int, m: int, s: int, ms: int)
    requires 0 <= m < 60 && 0 <= s < 60 && 0 <= ms < 1000
    requires t == h * 3600000 + m * 60000 + s * 1000 + ms
    ensures MillisFields(t) == SrtFields(h, m, s, ms)
  {
    var inHour := m * 60000 + s * 1000 + ms;
    DivUnique(t, 3600000, h, inHour);
    DivUnique(inHour, 60000, m, s * 1000 + ms);
    DivUnique(t, 60000, h * 60 + m, s * 1000 + ms);
    DivUnique(s * 1000 + ms, 1000, s, ms);
    DivUnique(t, 1000, h * 3600 + m * 60 + s, ms);
  }

  function TimestampText(f: SrtFields): string
  {
    PyFormatInt(f.hours, 2) + ":" + PyFormatInt(f.minutes, 2) + ":" + PyFormatInt(f.secs, 2) + "," + PyFormatInt(f.millis, 3)
  }

  /**
   * format_srt_time (srt.py:7-13): `HH:MM:SS,mmm` with fields zero-padded to
   * 2, 2, 2 and 3 digits, of the fields SrtTimeFieldsAreMillis shows the code computes.
   */
  function FormatSrtTime(seconds: real): string
  {
    TimestampText(MillisFields((seconds * 1000.0).Floor))
  }

  /** Hours, minutes, seconds and milliseconds added up in milliseconds. */
  function TotalMillis(f: SrtFields): int
  {
    f.hours * 3600000 + f.minutes * 60000 + f.secs * 1000 + f.millis
  }

  /** Reads `H:M:S,ms` back into its four fields. */
  function ParseSrtTime(s: string): Option<SrtFields>
  {
    var parts := SplitOn(s, ':');
    if |parts| != 3 then None
    else
      var last := SplitOn(parts[2], ',');
      if |last| != 2 then None
      else if !(AllDigits(parts[0]) && AllDigits(parts[1]) && AllDigits(last[0]) && AllDigits(last[1])) then None
      else Some(SrtFields(DigitsValue(parts[0]), DigitsValue(parts[1]), DigitsValue(last[0]), DigitsValue(last[1])))
  }

  lemma DigitsExclude(s: string, c: char)
    requires AllDigits(s) && !IsDigit(c)
    ensures Excludes(s, c)
  {
  }

  /** Text whose `:` fields are `hh`, `mm` and `tail`, and whose `tail` splits on `,` into `ss` and `ms`. */
  lemma ParseSrtTimeOfFields(s: string, hh: string, mm: string, tail: string, ss: string, ms: string)
    requires SplitOn(s, ':') == [hh, mm, tail] && SplitOn(tail, ',') == [ss, ms]
    requires AllDigits(hh) && AllDigits(mm) && AllDigits(ss) && AllDigits(ms)
    ensures ParseSrtTime(s) == Some(SrtFields(DigitsValue(hh), DigitsValue(mm), DigitsValue(ss), DigitsValue(ms)))
  {
    var parts := SplitOn(s, ':');
    assert parts[0] == hh && parts[1] == mm && parts[2] == tail;
    var last := SplitOn(parts[2], ',');
    assert last[0] == ss && last[1] == ms;
  }

  lemma AppendAssoc(x: string, a: string, b: string, c: string)
    ensures x + a + b + c == x + (a + b + c)
  {
  }

  /** Four digit strings joined by `:`, `:` and `,` read back as their values. */
  lemma ParseJoinedFields(hh: string, mm: string, ss: string, ms: string)
    requires AllDigits(hh) && AllDigits(mm) && AllDigits(ss) && AllDigits(ms)
    ensures ParseSrtTime(hh + ":" + mm + ":" + ss + "," + ms)
      == Some(SrtFields(DigitsValue(hh), DigitsValue(mm), DigitsValue(ss), DigitsValue(ms)))
  {
    var tail := ss + "," + ms;
    SplitSecondsPart(ss, ms);
    DigitsExclude(hh, ':');
    DigitsExclude(mm, ':');
    SplitThree(hh, mm, tail, ':');
    AppendAssoc(hh + ":" + mm + ":", ss, ",", ms);
    ParseSrtTimeOfFields(hh + ":" + mm + ":" + ss + "," + ms, hh, mm, tail, ss, ms);
  }

  lemma SplitSecondsPart(ss: string, ms: string)
    requires AllDigits(ss) && AllDigits(ms)
    ensures SplitOn(ss + "," + ms, ',') == [ss, ms]
    ensures Excludes(ss + "," + ms, ':')
  {
    DigitsExclude(ss, ',');
    DigitsExclude(ms, ',');
    var tail := ss + "," + ms;
    forall i | 0 <= i < |tail| ensures tail[i] != ':' {
      if i < |ss| { assert tail[i] == ss[i]; }
      else if i > |ss| { assert tail[i] == ms[i - |ss| - 1]; }
    }
    assert Join([ss, ms], ",") == tail;
    SplitOnJoin([ss, ms], ',');
  }

  lemma SplitThree(a: string, b: string, c: string, sep: char)
    requires Excludes(a, sep) && Excludes(b, sep) && Excludes(c, sep)
    ensures SplitOn(a + [sep] + b + [sep] + c, sep) == [a, b, c]
  {
    assert Join([a, b, c], [sep]) == a + [sep] + b + [sep] + c;
    SplitOnJoin([a, b, c], sep);
  }

  /** Non-negative fields print as a timestamp that reads back as the same fields. */
  lemma FieldsRoundTrip(f: SrtFields)
    requires f.hours >= 0 && f.minutes >= 0 && f.secs >= 0 && f.millis >= 0
    ensures ParseSrtTime(TimestampText(f)) == Some(f)
  {
    PyFormatIntFacts(f.hours, 2);
    PyFormatIntFacts(f.minutes, 2);
    PyFormatIntFacts(f.secs, 2);
    PyFormatIntFacts(f.millis, 3);
    ParseJoinedFields(PyFormatInt(f.hours, 2), PyFormatInt(f.minutes, 2), PyFormatInt(f.secs, 2), PyFormatInt(f.millis, 3));
  }

  /** The fields of a whole number of milliseconds add back up to it. */
  lemma DivModParts(t: int)
    ensures TotalMillis(MillisFields(t)) == t
  {
    var h, r := t / 3600000, t % 3600000;
    assert t == h * 3600000 + r;
    var m, r2 := r / 60000, r % 60000;
    assert r == m * 60000 + r2;
    DivUnique(t, 60000, h * 60 + m, r2);
    var sec, ms := r2 / 1000, r2 % 1000;
    assert r2 == sec * 1000 + ms;
    DivUnique(t, 1000, (h * 60 + m) * 60 + sec, ms);
  }

  /**
   * A non-negative time prints as a timestamp whose fields read back and add
   * up to its whole milliseconds.
   */
  lemma SrtTimeRoundTrip(seconds: real)
    requires seconds >= 0.0
    ensures ParseSrtTime(FormatSrtTime(seconds)).Some?
    ensures TotalMillis(ParseSrtTime(FormatSrtTime(seconds)).value) == (seconds * 1000.0).Floor
  {
    var t := (seconds * 1000.0).Floor;
    FieldsRoundTrip(MillisFields(t));
    DivModParts(t);
  }

  /** Below 100 hours every field has exactly its width: `HH:MM:SS,mmm` is 12 characters (srt.py:13). */
  lemma SrtTimeWidth(seconds: real)
    requires 0.0 <= seconds < 360000.0
    ensures |FormatSrtTime(seconds)| == 12
  {
    var t := (seconds * 1000.0).Floor;
    var f := MillisFields(t);
    assert t < 360000000;
    assert f.hours < 100;
    PadWidthExact(f.hours, 2);
    PadWidthExact(f.minutes, 2);
    PadWidthExact(f.secs, 2);
    PadWidthExact(f.millis, 3);
  }

  // ---------------------------------------------------------------- words in output time

  datatype OutWord = OutWord(text: string, start: real, end: real)

  /** A caption word moved from source time to output time. */
  function ToOutput(w: CaptionWord, e: CaptionEvent): OutWord
  {
    OutWord(w.text, e.outputStart + (w.start - e.originalStart), e.outputStart + (w.end - e.originalStart))
  }

  function EventWords(e: CaptionEvent, ws: seq<CaptionWord>): (r: seq<OutWord>)
    ensures |r| == |ws|
  {
    if ws == [] then [] else EventWords(e, ws[..|ws| - 1]) + [ToOutput(ws[|ws| - 1], e)]
  }

  /** All words of all events in event order, then word order, without re-sorting (srt.py:29-43). */
  function AllWords(events: seq<CaptionEvent>): seq<OutWord>
  {
    if events == [] then [] else AllWords(events[..|events| - 1]) + EventWords(events[|events| - 1], events[|events| - 1].words)
  }

  method CollectWords(events: seq<CaptionEvent>) returns (allWords: seq<OutWord>)
    ensures allWords == AllWords(events)
  {
    allWords := [];
    var k := 0;
    while k < |events|
      invariant 0 <= k <= |events|
      invariant allWords == AllWords(events[..k])
    {
      var event := events[k];
      assert events[..k + 1][..k] == events[..k];
      var base := allWords;
      var i := 0;
      while i < |event.words|
        invariant 0 <= i <= |event.words|
        invariant allWords == base + EventWords(event, event.words[..i])
      {
        var word := event.words[i];
        assert event.words[..i + 1][..i] == event.words[..i];
        allWords := allWords + [OutWord(word.text, event.outputStart + (word.start - event.originalStart),
                                        event.outputStart + (word.end - event.originalStart))];
        i := i + 1;
      }
      assert event.words[..i] == event.words;
      k := k + 1;
    }
    assert events[..k] == events;
  }

  /** A word keeps its duration when moved to output time (srt.py:36-42). */
  lemma ToOutputShift(w: CaptionWord, e: CaptionEvent)
    ensures ToOutput(w, e).end - ToOutput(w, e).start == w.end - w.start
    ensures ToOutput(w, e).start - e.outputStart == w.start - e.originalStart
  {
  }

  // ---------------------------------------------------------------- blocks

  datatype SrtBlock = SrtBlock(text: string, start: real, end: real)

  datatype BlockSettings = BlockSettings(minDuration: real, maxDuration: real, gapThreshold: real)

  const DefaultBlockSettings := BlockSettings(1.0, 4.0, 0.5)

  /** An open block: its words so far, the first one's start and the last one's end. */
  datatype OpenBlock = OpenBlock(words: seq<OutWord>, start: real, end: real)

  datatype BlockState = BlockState(closed: seq<OpenBlock>, current: OpenBlock)

  predicate Extends(cur: OpenBlock, w: OutWord, cfg: BlockSettings)
  {
    w.start - cur.end < cfg.gapThreshold && w.end - cur.start < cfg.maxDuration
  }

  function BlockPass(words: seq<OutWord>, cfg: BlockSettings): BlockState
    requires words != []
  {
    if |words| == 1 then BlockState([], OpenBlock([words[0]], words[0].start, words[0].end))
    else
      BlockPass1(BlockPass(words[..|words| - 1], cfg), words[|words| - 1], cfg)
  }

  /** One word: it joins the open block, or the open block is closed and the word opens the next. */
  function BlockPass1(st: BlockState, w: OutWord, cfg: BlockSettings): BlockState
  {
    if Extends(st.current, w, cfg) then BlockState(st.closed, OpenBlock(st.current.words + [w], st.current.start, w.end))
    else BlockState(st.closed + [st.current], OpenBlock([w], w.start, w.end))
  }

  function Texts(ws: seq<OutWord>): (r: seq<string>)
    ensures |r| == |ws|
  {
    if ws == [] then [] else Texts(ws[..|ws| - 1]) + [ws[|ws| - 1].text]
  }

  /** A block as emitted: words joined by single spaces, short blocks padded to `min_duration`. */
  function Emit(b: OpenBlock, cfg: BlockSettings): SrtBlock
  {
    SrtBlock(Join(Texts(b.words), " "), b.start, if b.end - b.start < cfg.minDuration then b.start + cfg.minDuration else b.end)
  }

  function EmitAll(bs: seq<OpenBlock>, cfg: BlockSettings): (r: seq<SrtBlock>)
    ensures |r| == |bs|
  {
    if bs == [] then [] else EmitAll(bs[..|bs| - 1], cfg) + [Emit(bs[|bs| - 1], cfg)]
  }

  /** The blocks of a word sequence, before emission. */
  function OpenBlocks(words: seq<OutWord>, cfg: BlockSettings): seq<OpenBlock>
  {
    if words == [] then [] else BlockPass(words, cfg).closed + [BlockPass(words, cfg).current]
  }

  function CompressTimestamps(events: seq<CaptionEvent>, cfg: BlockSettings): seq<SrtBlock>
  {
    EmitAll(OpenBlocks(AllWords(events), cfg), cfg)
  }

  lemma BlockPassStep(words: seq<OutWord>, i: nat, cfg: BlockSettings)
    requires 1 <= i < |words|
    ensures BlockPass(words[..i + 1], cfg) == BlockPass1(BlockPass(words[..i], cfg), words[i], cfg)
  {
    assert words[..i + 1][..i] == words[..i];
  }

  /** The text of a block grows by a space and the new word. */
  lemma TextsAppend(ws: seq<OutWord>, w: OutWord)
    requires ws != []
    ensures Join(Texts(ws + [w]), " ") == Join(Texts(ws), " ") + " " + w.text
  {
    assert (ws + [w])[..|ws|] == ws;
    JoinAppend(Texts(ws), w.text, " ");
  }

  lemma EmitAllAppend(bs: seq<OpenBlock>, b: OpenBlock, cfg: BlockSettings)
    ensures EmitAll(bs + [b], cfg) == EmitAll(bs, cfg) + [Emit(b, cfg)]
  {
    assert (bs + [b])[..|bs|] == bs;
  }

  /** compress_timestamps (srt.py:16-77). */
  method Compress(events: seq<CaptionEvent>, cfg: BlockSettings) returns (blocks: seq<SrtBlock>)
    ensures blocks == CompressTimestamps(events, cfg)
  {
    var allWords := CollectWords(events);
    if allWords == [] {
      return [];
    }
    blocks := [];
    var text, start, end := allWords[0].text, allWords[0].start, allWords[0].end;
    ghost var open := OpenBlock([allWords[0]], start, end);
    ghost var closed: seq<OpenBlock> := [];
    assert Texts([allWords[0]]) == [text];
    assert allWords[..1] == [allWords[0]];
    var i := 1;
    while i < |allWords|
      invariant 1 <= i <= |allWords|
      invariant BlockState(closed, open) == BlockPass(allWords[..i], cfg)
      invariant blocks == EmitAll(closed, cfg)
      invariant open.words != []
      invariant text == Join(Texts(open.words), " ") && start == open.start && end == open.end
    {
      BlockPassStep(allWords, i, cfg);
      blocks, text, start, end, closed, open := CompressWord(allWords[i], cfg, blocks, text, start, end, closed, open);
      i := i + 1;
    }
    assert allWords[..i] == allWords;
    if end - start < cfg.minDuration {
      end := start + cfg.minDuration;
    }
    CloseLast(closed, open, cfg);
    blocks := blocks + [SrtBlock(text, start, end)];
  }

  /** Emitting the open block after the closed ones gives the last output block. */
  lemma CloseLast(closed: seq<OpenBlock>, open: OpenBlock, cfg: BlockSettings)
    ensures EmitAll(closed + [open], cfg) == EmitAll(closed, cfg) + [Emit(open, cfg)]
  {
    assert (closed + [open])[..|closed|] == closed;
  }

  /** The body of the word loop in compress_timestamps: extend the open block or close it (srt.py:50-68). */
  method CompressWord(word: OutWord, cfg: BlockSettings, blocks0: seq<SrtBlock>, text0: string, start0: real, end0: real,
                      ghost closed0: seq<OpenBlock>, ghost open0: OpenBlock)
    returns (blocks: seq<SrtBlock>, text: string, start: real, end: real, ghost closed: seq<OpenBlock>, ghost open: OpenBlock)
    requires blocks0 == EmitAll(closed0, cfg) && open0.words != []
    requires text0 == Join(Texts(open0.words), " ") && start0 == open0.start && end0 == open0.end
    ensures BlockState(closed, open) == BlockPass1(BlockState(closed0, open0), word, cfg)
    ensures blocks == EmitAll(closed, cfg) && open.words != []
    ensures text == Join(Texts(open.words), " ") && start == open.start && end == open.end
  {
    var gap := word.start - end0;
    var potentialDuration := word.end - start0;
    if gap < cfg.gapThreshold && potentialDuration < cfg.maxDuration {
      assert Extends(open0, word, cfg);
      TextsAppend(open0.words, word);
      blocks, text, start, end := blocks0, text0 + " " + word.text, start0, word.end;
      closed, open := closed0, OpenBlock(open0.words + [word], open0.start, word.end);
    } else {
      end := end0;
      if end0 - start0 < cfg.minDuration {
        end := start0 + cfg.minDuration;
      }
      assert !Extends(open0, word, cfg);
      assert SrtBlock(text0, start0, end) == Emit(open0, cfg);
      EmitAllAppend(closed0, open0, cfg);
      blocks := blocks0 + [SrtBlock(text0, start0, end)];
      closed := closed0 + [open0];
      text, start, end := word.text, word.start, word.end;
      open := OpenBlock([word], start, end);
      assert Texts([word]) == [text];
    }
  }

  function FlattenBlocks(bs: seq<OpenBlock>): seq<OutWord>
  {
    if bs == [] then [] else FlattenBlocks(bs[..|bs| - 1]) + bs[|bs| - 1].words
  }

  /** A block's words: a start at its first word, an end at its last, and each word admitted by the rule. */
  predicate GoodBlock(b: OpenBlock, cfg: BlockSettings)
  {
    b.words != [] && b.start == b.words[0].start && b.end == b.words[|b.words| - 1].end
    && forall j :: 0 < j < |b.words| ==>
         b.words[j].start - b.words[j - 1].end < cfg.gapThreshold && b.words[j].end - b.start < cfg.maxDuration
  }

  /** The first word of each later block was refused by the block before it. */
  predicate Refused(bs: seq<OpenBlock>, cfg: BlockSettings)
  {
    forall k :: 0 < k < |bs| ==> bs[k].words != [] && !Extends(bs[k - 1], bs[k].words[0], cfg)
  }

  lemma SeqAssoc<T>(a: seq<T>, b: seq<T>, c: seq<T>)
    ensures a + (b + c) == (a + b) + c
  {
  }

  lemma {:induction false} BlockPassPartition(words: seq<OutWord>, cfg: BlockSettings)
    requires words != []
    ensures FlattenBlocks(BlockPass(words, cfg).closed) + BlockPass(words, cfg).current.words == words
  {
    if |words| > 1 {
      var init, w := words[..|words| - 1], words[|words| - 1];
      BlockPassPartition(init, cfg);
      var st := BlockPass(init, cfg);
      var flat := FlattenBlocks(st.closed);
      assert flat + st.current.words + [w] == words;
      if Extends(st.current, w, cfg) {
        assert BlockPass(words, cfg).closed == st.closed;
        assert BlockPass(words, cfg).current.words == st.current.words + [w];
        SeqAssoc(flat, st.current.words, [w]);
      } else {
        assert BlockPass(words, cfg).closed == st.closed + [st.current];
        assert BlockPass(words, cfg).current.words == [w];
        FlattenBlocksAppend(st.closed, st.current);
      }
    }
  }

  lemma {:induction false} BlockPassGood(words: seq<OutWord>, cfg: BlockSettings)
    requires words != []
    ensures GoodBlock(BlockPass(words, cfg).current, cfg)
    ensures forall k :: 0 <= k < |BlockPass(words, cfg).closed| ==> GoodBlock(BlockPass(words, cfg).closed[k], cfg)
  {
    if |words| > 1 {
      var init, w := words[..|words| - 1], words[|words| - 1];
      BlockPassGood(init, cfg);
      var st := BlockPass(init, cfg);
      if Extends(st.current, w, cfg) {
        var nb := OpenBlock(st.current.words + [w], st.current.start, w.end);
        assert GoodBlock(nb, cfg);
      }
    }
  }

  lemma {:induction false} BlockPassRefused(words: seq<OutWord>, cfg: BlockSettings)
    requires words != []
    ensures Refused(BlockPass(words, cfg).closed + [BlockPass(words, cfg).current], cfg)
  {
    if |words| > 1 {
      var init, w := words[..|words| - 1], words[|words| - 1];
      BlockPassRefused(init, cfg);
      BlockPassGood(init, cfg);
      var st := BlockPass(init, cfg);
      var gs0 := st.closed + [st.current];
      if Extends(st.current, w, cfg) {
        var nb := OpenBlock(st.current.words + [w], st.current.start, w.end);
        var gs := st.closed + [nb];
        forall k | 0 < k < |gs| ensures gs[k].words != [] && !Extends(gs[k - 1], gs[k].words[0], cfg) {
          assert gs[k - 1] == gs0[k - 1];
          if k < |gs| - 1 {
            assert gs[k] == gs0[k];
          } else {
            assert gs[k].words[0] == gs0[k].words[0];
          }
        }
      } else {
        var nb := OpenBlock([w], w.start, w.end);
        var gs := gs0 + [nb];
        forall k | 0 < k < |gs| ensures gs[k].words != [] && !Extends(gs[k - 1], gs[k].words[0], cfg) {
          if k < |gs0| {
            assert gs[k] == gs0[k] && gs[k - 1] == gs0[k - 1];
          }
        }
      }
    }
  }

  lemma {:induction false} FlattenBlocksAppend(a: seq<OpenBlock>, b: OpenBlock)
    ensures FlattenBlocks(a + [b]) == FlattenBlocks(a) + b.words
  {
    assert (a + [b])[..|a|] == a;
  }

  /**
   * The blocks take the words in input order, each exactly once; a word extends
   * the open block exactly when its gap and the block's new length are both
   * below the thresholds; and every emitted block lasts at least
   * `min_duration`, its end raised to that only when it is shorter
   * (srt.py:45-77).
   */
  lemma CompressFacts(events: seq<CaptionEvent>, cfg: BlockSettings)
    ensures AllWords(events) == [] ==> CompressTimestamps(events, cfg) == []
    ensures FlattenBlocks(OpenBlocks(AllWords(events), cfg)) == AllWords(events)
    ensures forall k :: 0 <= k < |OpenBlocks(AllWords(events), cfg)| ==> GoodBlock(OpenBlocks(AllWords(events), cfg)[k], cfg)
    ensures Refused(OpenBlocks(AllWords(events), cfg), cfg)
    ensures forall k :: 0 <= k < |CompressTimestamps(events, cfg)| ==>
      CompressTimestamps(events, cfg)[k] == Emit(OpenBlocks(AllWords(events), cfg)[k], cfg)
  {
    var words := AllWords(events);
    if words != [] {
      BlockPassPartition(words, cfg);
      BlockPassGood(words, cfg);
      BlockPassRefused(words, cfg);
      var st := BlockPass(words, cfg);
      FlattenBlocksAppend(st.closed, st.current);
      var bs := st.closed + [st.current];
      forall k | 0 <= k < |bs| ensures GoodBlock(bs[k], cfg) {
        if k < |st.closed| {
          assert bs[k] == st.closed[k];
        }
      }
    }
    EmitAllIndex(OpenBlocks(words, cfg), cfg);
  }

  lemma {:induction false} EmitAllIndex(bs: seq<OpenBlock>, cfg: BlockSettings)
    ensures forall k :: 0 <= k < |bs| ==> EmitAll(bs, cfg)[k] == Emit(bs[k], cfg)
  {
    if bs != [] {
      EmitAllIndex(bs[..|bs| - 1], cfg);
    }
  }

  /** An emitted block starts at its first word, lasts at least `min_duration`, and ends at its last word or at the padded end. */
  lemma EmitFacts(b: OpenBlock, cfg: BlockSettings)
    requires GoodBlock(b, cfg)
    ensures Emit(b, cfg).end - Emit(b, cfg).start >= cfg.minDuration
    ensures Emit(b, cfg).start == b.words[0].start
    ensures Emit(b, cfg).end == b.words[|b.words| - 1].end || Emit(b, cfg).end == b.start + cfg.minDuration
    ensures Emit(b, cfg).end >= b.words[|b.words| - 1].end
    ensures Emit(b, cfg).text == Join(Texts(b.words), " ")
  {
  }

  // ---------------------------------------------------------------- the SRT text

  /** `start --> end` in SubRip timestamps. */
  function TimingLine(b: SrtBlock): string
  {
    FormatSrtTime(b.start) + " --> " + FormatSrtTime(b.end)
  }

  function BlockLines(i: nat, b: SrtBlock): seq<string>
  {
    [NatToString(i), TimingLine(b), b.text, ""]
  }

  /** The four-line entries of the blocks, numbered from 1. */
  function Entries(blocks: seq<SrtBlock>): (r: seq<seq<string>>)
    ensures |r| == |blocks|
    ensures forall k :: 0 <= k < |r| ==> |r[k]| == 4
  {
    if blocks == [] then [] else Entries(blocks[..|blocks| - 1]) + [BlockLines(|blocks|, blocks[|blocks| - 1])]
  }

  /** The lines of the entries, one after another. */
  function Concat(xss: seq<seq<string>>): seq<string>
  {
    if xss == [] then [] else Concat(xss[..|xss| - 1]) + xss[|xss| - 1]
  }

  function SrtLines(blocks: seq<SrtBlock>): (r: seq<string>)
    ensures |r| == 4 * |blocks|
  {
    ConcatLength(Entries(blocks));
    Concat(Entries(blocks))
  }

  lemma {:induction false} ConcatLength(xss: seq<seq<string>>)
    requires forall k :: 0 <= k < |xss| ==> |xss[k]| == 4
    ensures |Concat(xss)| == 4 * |xss|
  {
    if xss != [] {
      ConcatLength(xss[..|xss| - 1]);
    }
  }

  lemma {:induction false} EntriesAt(blocks: seq<SrtBlock>, i: nat)
    requires i < |blocks|
    ensures Entries(blocks)[i] == BlockLines(i + 1, blocks[i])
  {
    var init := blocks[..|blocks| - 1];
    if i < |init| {
      EntriesAt(init, i);
      assert blocks[i] == init[i];
    }
  }

  lemma ConcatAppend(xss: seq<seq<string>>, xs: seq<string>)
    ensures Concat(xss + [xs]) == Concat(xss) + xs
  {
    assert (xss + [xs])[..|xss|] == xss;
  }

  lemma {:induction false} ConcatAt(xss: seq<seq<string>>, i: nat, j: nat)
    requires forall k :: 0 <= k < |xss| ==> |xss[k]| == 4
    requires i < |xss| && j < 4
    ensures |Concat(xss)| == 4 * |xss|
    ensures Concat(xss)[4 * i + j] == xss[i][j]
  {
    var init := xss[..|xss| - 1];
    ConcatLength(xss);
    ConcatLength(init);
    if i < |init| {
      ConcatAt(init, i, j);
      assert xss[i] == init[i];
    }
  }

  /** generate_srt_content, and the text generate_srt writes (srt.py:80-109). */
  method GenerateSrtContent(events: seq<CaptionEvent>) returns (content: string)
    ensures content == Join(SrtLines(CompressTimestamps(events, DefaultBlockSettings)), "\n")
  {
    var blocks := Compress(events, DefaultBlockSettings);
    var lines := [];
    var i := 0;
    while i < |blocks|
      invariant 0 <= i <= |blocks|
      invariant lines == SrtLines(blocks[..i])
    {
      var block := blocks[i];
      SrtLinesSnoc(blocks, i);
      lines := lines + BlockLines(i + 1, block);
      i := i + 1;
    }
    assert blocks[..i] == blocks;
    content := Join(lines, "\n");
  }

  /** One more block appends its four numbered lines. */
  lemma SrtLinesSnoc(blocks: seq<SrtBlock>, i: nat)
    requires i < |blocks|
    ensures SrtLines(blocks[..i + 1]) == SrtLines(blocks[..i]) + BlockLines(i + 1, blocks[i])
  {
    assert blocks[..i + 1][..i] == blocks[..i];
    assert Entries(blocks[..i + 1]) == Entries(blocks[..i]) + [BlockLines(i + 1, blocks[i])];
    ConcatAppend(Entries(blocks[..i]), BlockLines(i + 1, blocks[i]));
  }

  /**
   * Block i (from 0) is the four lines: its number i + 1, its time range, its
   * text and a blank line (srt.py:103-107).
   */
  lemma SrtLinesAt(blocks: seq<SrtBlock>, i: nat, j: nat)
    requires i < |blocks| && j < 4
    ensures SrtLines(blocks)[4 * i + j] == BlockLines(i + 1, blocks[i])[j]
  {
    var es := Entries(blocks);
    ConcatAt(es, i, j);
    EntriesAt(blocks, i);
  }
}
