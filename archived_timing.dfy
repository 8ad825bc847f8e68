/**
 * The archived word-timing helpers (_archived/implementation/transcript_core/timing.py):
 * re-timing words after a text edit, shifting and rescaling a segment, and moving its
 * boundaries. The source mutates the segment in place; here each operation returns the
 * updated segment value.
 */
module ArchivedTiming {
  import opened Wrappers
  import Seqs
  import opened Strings
  import opened TranscriptCore
  import opened RealArith

  /** Why an operation raises `ValueError` or `ZeroDivisionError`. */
  datatype TimingError = NotPositive(message: string) | DivisionByZero

  /** `f"word_{i}"`. */
  function WordId(i: nat): string { "word_" + NatToString(i) }

  /** The words tile `[from, to]`: the first starts at `from`, the last ends at `to`, and each ends where the next starts. */
  predicate Tiles(words: seq<Word>, from: real, to: real)
  {
    |words| > 0 && words[0].startTime == from && words[|words| - 1].endTime == to &&
    forall i :: 0 <= i < |words| - 1 ==> words[i].endTime == words[i + 1].startTime
  }

  // ---------------------------------------------------------------- equal distribution

  /** Word i of an equal distribution: `[start + i*avg, start + (i+1)*avg]`. */
  function EqualSlice(start: real, avg: real): (nat, string) -> Word
  {
    (i: nat, text: string) => Word(WordId(i), text, start + Times(i, avg), start + Times(i + 1, avg))
  }

  /** The slice computed with the products the source writes. */
  lemma EqualSliceIsProduct(start: real, avg: real, i: nat, text: string)
    ensures EqualSlice(start, avg)(i, text)
         == Word(WordId(i), text, start + ((i as real) * avg), start + (((i + 1) as real) * avg))
  {
    assert EqualSlice(start, avg)(i, text) == Word(WordId(i), text, start + Times(i, avg), start + Times(i + 1, avg));
    TimesIsProduct(i, avg);
    TimesIsProduct(i + 1, avg);
  }

  /** `_equal_distribution` (timing.py:29-66) as a value. */
  function EqualWords(start: real, duration: real, texts: seq<string>): seq<Word>
  {
    if texts == [] then [] else Seqs.MapIndexed(texts, EqualSlice(start, duration / (|texts| as real)))
  }

  /** `_equal_distribution` (timing.py:29-66). */
  method EqualDistribution(start: real, duration: real, texts: seq<string>) returns (words: seq<Word>)
    ensures words == EqualWords(start, duration, texts)
  {
    if texts == [] {
      return [];
    }
    var count := |texts|;
    if count == 1 {
      EqualSingle(start, duration, texts);
      return [Word("word_0", texts[0], start, start + duration)];
    }
    words := [];
    var avg := duration / (count as real);
    var i := 0;
    while i < count
      invariant 0 <= i <= count
      invariant words == Seqs.MapIndexed(texts[..i], EqualSlice(start, avg))
    {
      Seqs.MapIndexedSnoc(texts, EqualSlice(start, avg), i);
      var wordStart := start + ((i as real) * avg);
      var wordEnd := start + (((i + 1) as real) * avg);
      EqualSliceIsProduct(start, avg, i, texts[i]);
      words := words + [Word(WordId(i), texts[i], wordStart, wordEnd)];
      i := i + 1;
    }
    assert texts[..i] == texts;
  }

  /** A single text gets the whole span as `word_0`. */
  lemma EqualSingle(start: real, duration: real, texts: seq<string>)
    requires |texts| == 1
    ensures EqualWords(start, duration, texts) == [Word("word_0", texts[0], start, start + duration)]
  {
    var avg := duration / (|texts| as real);
    assert avg == duration;
    assert WordId(0) == "word_0" by { assert NatToString(0) == "0"; }
    assert EqualSlice(start, avg)(0, texts[0]) == Word(WordId(0), texts[0], start + Times(0, avg), start + Times(1, avg));
    assert texts[..0] == [];
    assert Seqs.MapIndexed(texts, EqualSlice(start, avg))
        == Seqs.MapIndexed(texts[..0], EqualSlice(start, avg)) + [EqualSlice(start, avg)(0, texts[0])];
    assert Times(1, avg) == duration;
  }

  /** Slice i of an equal distribution, field by field. */
  lemma EqualSliceAt(start: real, avg: real, texts: seq<string>, i: nat)
    requires i < |texts|
    ensures var w := Seqs.MapIndexed(texts, EqualSlice(start, avg))[i];
      w.id == WordId(i) && w.text == texts[i] &&
      w.startTime == start + Times(i, avg) && w.endTime == start + Times(i + 1, avg)
  {
    Seqs.MapIndexedAt(texts, EqualSlice(start, avg), i);
  }

  /** Every equal slice keeps its text and lasts `avg`. */
  lemma EqualSlicesFields(start: real, avg: real, texts: seq<string>)
    ensures forall i :: 0 <= i < |texts| ==>
      var w := Seqs.MapIndexed(texts, EqualSlice(start, avg))[i];
      w.id == WordId(i) && w.text == texts[i] && WordDuration(w) == avg
  {
    var r := Seqs.MapIndexed(texts, EqualSlice(start, avg));
    forall i | 0 <= i < |texts|
      ensures r[i].id == WordId(i) && r[i].text == texts[i] && WordDuration(r[i]) == avg
    {
      EqualSliceAt(start, avg, texts, i);
    }
  }

  /** Slices of width `avg` from `start` tile `[start, start + n*avg]`. */
  lemma EqualSlicesTile(start: real, avg: real, texts: seq<string>)
    requires texts != []
    ensures Tiles(Seqs.MapIndexed(texts, EqualSlice(start, avg)), start, start + Times(|texts|, avg))
  {
    var r := Seqs.MapIndexed(texts, EqualSlice(start, avg));
    forall i | 0 <= i < |texts| - 1
      ensures r[i].endTime == r[i + 1].startTime
    {
      EqualSliceAt(start, avg, texts, i);
      EqualSliceAt(start, avg, texts, i + 1);
    }
    EqualSliceAt(start, avg, texts, 0);
    EqualSliceAt(start, avg, texts, |texts| - 1);
  }

  /** The equal slices tile `[start, start + duration]`, keep the texts and all last `duration / n`. */
  lemma EqualWordsTile(start: real, duration: real, texts: seq<string>)
    requires texts != []
    ensures Tiles(EqualWords(start, duration, texts), start, start + duration)
    ensures |EqualWords(start, duration, texts)| == |texts|
    ensures forall i :: 0 <= i < |texts| ==>
      var w := EqualWords(start, duration, texts)[i];
      w.id == WordId(i) && w.text == texts[i] && WordDuration(w) == duration / (|texts| as real)
  {
    EqualSlicesTile(start, duration / (|texts| as real), texts);
    EqualSlicesFields(start, duration / (|texts| as real), texts);
    SharesMakeWhole(duration, |texts|);
  }

  // ---------------------------------------------------------------- proportional distribution

  /** `sum(len(text) for text in texts)`. */
  function TotalChars(texts: seq<string>): nat
  {
    if texts == [] then 0 else TotalChars(texts[..|texts| - 1]) + |texts[|texts| - 1]|
  }

  predicate NonEmptyTexts(texts: seq<string>)
  {
    forall i :: 0 <= i < |texts| ==> texts[i] != []
  }

  lemma {:induction false} TotalCharsPositive(texts: seq<string>)
    requires texts != [] && NonEmptyTexts(texts)
    ensures TotalChars(texts) > 0
  {
  }

  /**
   * Each word's share of the duration, `duration * (len(text) / total_chars)`; the
   * character total is positive wherever this is used.
   */
  function ShareOf(duration: real, total: nat): string -> real
  {
    (text: string) => if total > 0 then duration * ((|text| as real) / (total as real)) else 0.0
  }

  function Shares(duration: real, texts: seq<string>): seq<real>
  {
    Seqs.Map(texts, ShareOf(duration, TotalChars(texts)))
  }

  /** `current_time - start` before word k: the sum of the earlier shares. */
  function Offset(shares: seq<real>, k: nat): real
    requires k <= |shares|
  {
    if k == 0 then 0.0 else Offset(shares, k - 1) + shares[k - 1]
  }

  /** Word i of `_proportional_distribution`; the last word ends at `start + duration`. */
  function ProportionalWord(start: real, duration: real, texts: seq<string>, shares: seq<real>, i: nat): Word
    requires i < |texts| == |shares|
  {
    var wordEnd := if i == |texts| - 1 then start + duration else start + Offset(shares, i + 1);
    Word(WordId(i), texts[i], start + Offset(shares, i), wordEnd)
  }

  /** The first k words of `_proportional_distribution`. */
  function ProportionalWords(start: real, duration: real, texts: seq<string>, shares: seq<real>, k: nat): (r: seq<Word>)
    requires k <= |texts| == |shares|
    ensures |r| == k
    ensures forall i :: 0 <= i < k ==> r[i] == ProportionalWord(start, duration, texts, shares, i)
  {
    if k == 0 then []
    else ProportionalWords(start, duration, texts, shares, k - 1) + [ProportionalWord(start, duration, texts, shares, k - 1)]
  }

  /**
   * `_proportional_distribution` (timing.py:68-111). The texts come from `str.split()`,
   * so none is empty and the character total is positive.
   */
  method ProportionalDistribution(start: real, duration: real, texts: seq<string>) returns (words: seq<Word>)
    requires NonEmptyTexts(texts)
    ensures words == ProportionalWords(start, duration, texts, Shares(duration, texts), |texts|)
  {
    if texts == [] {
      return [];
    }
    var count := |texts|;
    ghost var shares := Shares(duration, texts);
    if count == 1 {
      assert NatToString(0) == "0";
      assert ProportionalWord(start, duration, texts, shares, 0) == Word("word_0", texts[0], start, start + duration);
      return [Word("word_0", texts[0], start, start + duration)];
    }
    TotalCharsPositive(texts);
    var totalChars := TotalChars(texts);
    words := [];
    var currentTime := start;
    var i := 0;
    while i < count
      invariant 0 <= i <= count
      invariant words == ProportionalWords(start, duration, texts, shares, i)
      invariant i < count ==> currentTime == start + Offset(shares, i)
    {
      var wordEnd;
      if i == count - 1 {
        wordEnd := start + duration;
      } else {
        var charProportion := (|texts[i]| as real) / (totalChars as real);
        var wordDuration := duration * charProportion;
        ShareAt(duration, texts, i);
        wordEnd := currentTime + wordDuration;
      }
      ProportionalStep(start, duration, texts, shares, i, currentTime, wordEnd);
      words := words + [Word(WordId(i), texts[i], currentTime, wordEnd)];
      currentTime := wordEnd;
      i := i + 1;
    }
  }

  /** One turn of the proportional loop appends word i and moves the clock to its end. */
  lemma ProportionalStep(start: real, duration: real, texts: seq<string>, shares: seq<real>, i: nat, current: real, wordEnd: real)
    requires i < |texts| == |shares|
    requires current == start + Offset(shares, i)
    requires wordEnd == if i == |texts| - 1 then start + duration else current + shares[i]
    ensures ProportionalWords(start, duration, texts, shares, i + 1)
      == ProportionalWords(start, duration, texts, shares, i) + [Word(WordId(i), texts[i], current, wordEnd)]
    ensures i + 1 < |texts| ==> wordEnd == start + Offset(shares, i + 1)
  {
  }

  /** Words laid end to end with the given shares tile `[start, start + duration]`; word i lasts `shares[i]` except the last. */
  lemma SharedWordsTile(start: real, duration: real, texts: seq<string>, shares: seq<real>)
    requires texts != [] && |texts| == |shares|
    ensures Tiles(ProportionalWords(start, duration, texts, shares, |texts|), start, start + duration)
    ensures forall i :: 0 <= i < |texts| ==>
      var w := ProportionalWords(start, duration, texts, shares, |texts|)[i];
      w.id == WordId(i) && w.text == texts[i]
    ensures forall i :: 0 <= i < |texts| - 1 ==>
      WordDuration(ProportionalWords(start, duration, texts, shares, |texts|)[i]) == shares[i]
  {
  }

  /** Every proportional word but the last lasts `duration * len(text) / total_chars`. */
  lemma ProportionalDurations(start: real, duration: real, texts: seq<string>)
    requires texts != [] && NonEmptyTexts(texts)
    ensures forall i :: 0 <= i < |texts| - 1 ==>
      WordDuration(ProportionalWords(start, duration, texts, Shares(duration, texts), |texts|)[i])
        == duration * ((|texts[i]| as real) / (TotalChars(texts) as real))
  {
    TotalCharsPositive(texts);
    var shares := Shares(duration, texts);
    var r := ProportionalWords(start, duration, texts, shares, |texts|);
    forall i | 0 <= i < |texts| - 1
      ensures WordDuration(r[i]) == duration * ((|texts[i]| as real) / (TotalChars(texts) as real))
    {
      ShareAt(duration, texts, i);
      assert r[i] == ProportionalWord(start, duration, texts, shares, i);
    }
  }

  lemma ShareAt(duration: real, texts: seq<string>, i: nat)
    requires i < |texts| && TotalChars(texts) > 0
    ensures Shares(duration, texts)[i] == duration * ((|texts[i]| as real) / (TotalChars(texts) as real))
  {
    Seqs.MapAt(texts, ShareOf(duration, TotalChars(texts)), i);
  }

  // ---------------------------------------------------------------- redistribution

  /** `redistribute_word_timings` (timing.py:6-27) as a value. */
  function Redistributed(segment: Segment, newText: string): seq<Word>
  {
    var texts := SplitWs(newText);
    if segment.words == [] || texts == [] then []
    else if |segment.words| == |texts| then EqualWords(segment.startTime, SegmentDuration(segment), texts)
    else ProportionalWords(segment.startTime, SegmentDuration(segment), texts, Shares(SegmentDuration(segment), texts), |texts|)
  }

  /** `redistribute_word_timings` (timing.py:6-27). */
  method RedistributeWordTimings(segment: Segment, newText: string) returns (words: seq<Word>)
    ensures words == Redistributed(segment, newText)
  {
    if segment.words == [] {
      return [];
    }
    var texts := SplitWs(newText);
    if texts == [] {
      return [];
    }
    var totalDuration := SegmentDuration(segment);
    if |segment.words| == |texts| {
      words := EqualDistribution(segment.startTime, totalDuration, texts);
    } else {
      words := ProportionalDistribution(segment.startTime, totalDuration, texts);
    }
  }

  /**
   * Re-timing yields nothing when the segment has no words or the text no tokens;
   * otherwise one word per token, in order, tiling the segment exactly.
   */
  lemma RedistributedTilesSegment(segment: Segment, newText: string)
    ensures Redistributed(segment, newText) == [] <==> segment.words == [] || SplitWs(newText) == []
    ensures Redistributed(segment, newText) != [] ==>
      var r := Redistributed(segment, newText);
      Tiles(r, segment.startTime, segment.endTime) &&
      |r| == |SplitWs(newText)| && forall i :: 0 <= i < |r| ==> r[i].text == SplitWs(newText)[i]
  {
    var texts := SplitWs(newText);
    if segment.words != [] && texts != [] {
      if |segment.words| == |texts| {
        EqualWordsTile(segment.startTime, SegmentDuration(segment), texts);
      } else {
        SharedWordsTile(segment.startTime, SegmentDuration(segment), texts, Shares(SegmentDuration(segment), texts));
      }
    }
  }

  // ---------------------------------------------------------------- shifting

  function ShiftWord(delta: real): Word -> Word
  {
    (w: Word) => w.(startTime := w.startTime + delta, endTime := w.endTime + delta)
  }

  /** `shift_segment_timings` (timing.py:113-120) as a value. */
  function Shifted(s: Segment, delta: real): Segment
  {
    s.(startTime := s.startTime + delta, endTime := s.endTime + delta, words := Seqs.Map(s.words, ShiftWord(delta)))
  }

  /** `shift_segment_timings` (timing.py:113-120). */
  method ShiftSegmentTimings(s: Segment, delta: real) returns (r: Segment)
    ensures r == Shifted(s, delta)
  {
    r := s.(startTime := s.startTime + delta, endTime := s.endTime + delta, words := []);
    var i := 0;
    while i < |s.words|
      invariant 0 <= i <= |s.words|
      invariant r == s.(startTime := s.startTime + delta, endTime := s.endTime + delta,
                        words := Seqs.Map(s.words[..i], ShiftWord(delta)))
    {
      Seqs.MapSnoc(s.words, ShiftWord(delta), i);
      var w := s.words[i];
      r := r.(words := r.words + [w.(startTime := w.startTime + delta, endTime := w.endTime + delta)]);
      i := i + 1;
    }
    assert s.words[..i] == s.words;
  }

  /** Shifting moves every start and end by `delta` and keeps every duration. */
  lemma ShiftMovesEverything(s: Segment, delta: real)
    ensures SegmentDuration(Shifted(s, delta)) == SegmentDuration(s)
    ensures |Shifted(s, delta).words| == |s.words|
    ensures forall i :: 0 <= i < |s.words| ==>
      var w := Shifted(s, delta).words[i];
      w.startTime == s.words[i].startTime + delta && w.endTime == s.words[i].endTime + delta &&
      w.id == s.words[i].id && w.text == s.words[i].text && WordDuration(w) == WordDuration(s.words[i])
  {
    forall i | 0 <= i < |s.words| {
      Seqs.MapAt(s.words, ShiftWord(delta), i);
    }
  }

  /** Shifting back by the same amount restores the segment. */
  lemma ShiftInverse(s: Segment, delta: real)
    ensures Shifted(Shifted(s, delta), -delta) == s
  {
    var once := Shifted(s, delta);
    var twice := Shifted(once, -delta);
    ShiftMovesEverything(s, delta);
    ShiftMovesEverything(once, -delta);
    assert twice.words == s.words;
  }

  // ---------------------------------------------------------------- rescaling

  /**
   * One word of a rescale: the start is placed at `to + (start - from) * k` and the
   * duration multiplied by `k`.
   */
  function Rescale(from: real, to: real, k: real): Word -> Word
  {
    (w: Word) =>
      var newStart := to + (w.startTime - from) * k;
      w.(startTime := newStart, endTime := newStart + (w.endTime - w.startTime) * k)
  }

  lemma MulNonneg(a: real, k: real)
    requires a >= 0.0 && k >= 0.0
    ensures a * k >= 0.0
  {
  }

  lemma Distribute(a: real, b: real, c: real, k: real)
    ensures (a + b + c) * k == a * k + b * k + c * k
  {
  }

  /**
   * A word inside `[from, fromEnd]` lands inside `[to, toEnd]` when the scale `k` is
   * positive and maps the one length onto the other.
   */
  lemma RescaleInside(w: Word, from: real, fromEnd: real, to: real, toEnd: real, k: real)
    requires from <= w.startTime <= w.endTime <= fromEnd
    requires k > 0.0 && (fromEnd - from) * k == toEnd - to
    ensures var r := Rescale(from, to, k)(w);
      to <= r.startTime <= r.endTime <= toEnd
  {
    var a, b, c := w.startTime - from, w.endTime - w.startTime, fromEnd - w.endTime;
    MulNonneg(a, k);
    MulNonneg(b, k);
    MulNonneg(c, k);
    Distribute(a, b, c, k);
    assert a + b + c == fromEnd - from;
  }

  /** `set_segment_duration` (timing.py:122-135). */
  method SetSegmentDuration(s: Segment, newDuration: real) returns (r: Result<Segment, TimingError>)
    ensures newDuration <= 0.0 ==> r == Err(NotPositive("Duration must be positive"))
    ensures newDuration > 0.0 && SegmentDuration(s) == 0.0 ==> r == Err(DivisionByZero)
    ensures newDuration > 0.0 && SegmentDuration(s) != 0.0 ==>
      r == Ok(s.(endTime := s.startTime + newDuration,
                 words := Seqs.Map(s.words, Rescale(s.startTime, s.startTime, newDuration / SegmentDuration(s)))))
  {
    if newDuration <= 0.0 {
      return Err(NotPositive("Duration must be positive"));
    }
    if SegmentDuration(s) == 0.0 {
      return Err(DivisionByZero);
    }
    var scaleFactor := newDuration / SegmentDuration(s);
    var f := Rescale(s.startTime, s.startTime, scaleFactor);
    var words: seq<Word> := [];
    var i := 0;
    while i < |s.words|
      invariant 0 <= i <= |s.words|
      invariant words == Seqs.Map(s.words[..i], f)
    {
      Seqs.MapSnoc(s.words, f, i);
      var w := s.words[i];
      var wordDuration := WordDuration(w) * scaleFactor;
      var relativeStart := w.startTime - s.startTime;
      var wordStart := s.startTime + relativeStart * scaleFactor;
      assert f(w) == w.(startTime := wordStart, endTime := wordStart + wordDuration);
      words := words + [w.(startTime := wordStart, endTime := wordStart + wordDuration)];
      i := i + 1;
    }
    assert s.words[..i] == s.words;
    return Ok(s.(endTime := s.startTime + newDuration, words := words));
  }

  /** Every word inside `[from, fromEnd]` lands inside `[to, toEnd]` under the rescale. */
  lemma RescaleAllInside(words: seq<Word>, from: real, fromEnd: real, to: real, toEnd: real, k: real)
    requires k > 0.0 && (fromEnd - from) * k == toEnd - to
    ensures |Seqs.Map(words, Rescale(from, to, k))| == |words|
    ensures forall i :: 0 <= i < |words| && from <= words[i].startTime <= words[i].endTime <= fromEnd ==>
      to <= Seqs.Map(words, Rescale(from, to, k))[i].startTime <= Seqs.Map(words, Rescale(from, to, k))[i].endTime <= toEnd
  {
    forall i | 0 <= i < |words| && from <= words[i].startTime <= words[i].endTime <= fromEnd
      ensures to <= Seqs.Map(words, Rescale(from, to, k))[i].startTime <= Seqs.Map(words, Rescale(from, to, k))[i].endTime <= toEnd
    {
      Seqs.MapAt(words, Rescale(from, to, k), i);
      RescaleInside(words[i], from, fromEnd, to, toEnd, k);
    }
  }

  lemma RatioScales(oldLength: real, newLength: real)
    requires oldLength > 0.0 && newLength > 0.0
    ensures newLength / oldLength > 0.0
    ensures oldLength * (newLength / oldLength) == newLength
  {
  }

  /**
   * After `set_segment_duration` on a segment of positive length the segment lasts
   * `newDuration`, and the words that lay inside it still do.
   */
  lemma SetDurationKeepsWordsInside(s: Segment, newDuration: real)
    requires newDuration > 0.0 && SegmentDuration(s) > 0.0
    ensures var k := newDuration / SegmentDuration(s);
      var r := s.(endTime := s.startTime + newDuration, words := Seqs.Map(s.words, Rescale(s.startTime, s.startTime, k)));
      SegmentDuration(r) == newDuration &&
      forall i :: 0 <= i < |s.words| && s.startTime <= s.words[i].startTime <= s.words[i].endTime <= s.endTime ==>
        r.startTime <= r.words[i].startTime <= r.words[i].endTime <= r.endTime
  {
    RatioScales(SegmentDuration(s), newDuration);
    RescaleAllInside(s.words, s.startTime, s.endTime, s.startTime, s.startTime + newDuration, newDuration / SegmentDuration(s));
  }

  // ---------------------------------------------------------------- word lookup

  function CoversTime(t: real): Word -> bool
  {
    (w: Word) => w.startTime <= t <= w.endTime
  }

  /** `get_word_at_time` (timing.py:137-142): the first word with `start <= t <= end`. */
  method GetWordAtTime(s: Segment, t: real) returns (r: Option<Word>)
    ensures r == Seqs.FirstMatch(s.words, CoversTime(t))
  {
    var i := 0;
    while i < |s.words|
      invariant 0 <= i <= |s.words|
      invariant forall j :: 0 <= j < i ==> !CoversTime(t)(s.words[j])
    {
      if s.words[i].startTime <= t <= s.words[i].endTime {
        assert CoversTime(t)(s.words[i]);
        return Some(s.words[i]);
      }
      i := i + 1;
    }
    return None;
  }

  // ---------------------------------------------------------------- boundary adjustment

  /**
   * `adjust_segment_boundaries` as written (timing.py:144-167): the relative start of
   * each word is measured against the start that was just overwritten.
   */
  function AdjustedAsWritten(s: Segment, newStart: real, newEnd: real): Segment
    requires newEnd > newStart
  {
    var oldDuration := SegmentDuration(s);
    var moved := s.(startTime := newStart, endTime := newEnd);
    if s.words != [] && oldDuration > 0.0 then
      moved.(words := Seqs.Map(s.words, Rescale(newStart, newStart, (newEnd - newStart) / oldDuration)))
    else moved
  }

  /** The evident intent: rescale each word's offset from the old start onto the new range. */
  function Adjusted(s: Segment, newStart: real, newEnd: real): Segment
    requires newEnd > newStart
  {
    var oldDuration := SegmentDuration(s);
    var moved := s.(startTime := newStart, endTime := newEnd);
    if s.words != [] && oldDuration > 0.0 then
      moved.(words := Seqs.Map(s.words, Rescale(s.startTime, newStart, (newEnd - newStart) / oldDuration)))
    else moved
  }

  /** `adjust_segment_boundaries` (timing.py:144-167). */
  method AdjustSegmentBoundaries(s: Segment, newStart: real, newEnd: real) returns (r: Result<Segment, TimingError>)
    ensures newEnd - newStart <= 0.0 ==> r == Err(NotPositive("Segment duration must be positive"))
    ensures newEnd - newStart > 0.0 ==> r == Ok(AdjustedAsWritten(s, newStart, newEnd))
  {
    var oldDuration := SegmentDuration(s);
    var newDuration := newEnd - newStart;
    if newDuration <= 0.0 {
      return Err(NotPositive("Segment duration must be positive"));
    }
    var moved := s.(startTime := newStart, endTime := newEnd);
    if s.words != [] && oldDuration > 0.0 {
      var scaleFactor := newDuration / oldDuration;
      var f := Rescale(newStart, newStart, scaleFactor);
      var words: seq<Word> := [];
      var i := 0;
      while i < |s.words|
        invariant 0 <= i <= |s.words|
        invariant words == Seqs.Map(s.words[..i], f)
      {
        Seqs.MapSnoc(s.words, f, i);
        var w := s.words[i];
        var relativeStart := w.startTime - moved.startTime;
        var newWordStart := relativeStart * scaleFactor;
        var wordDuration := WordDuration(w) * scaleFactor;
        var wordStart := moved.startTime + newWordStart;
        assert f(w) == w.(startTime := wordStart, endTime := wordStart + wordDuration);
        words := words + [w.(startTime := wordStart, endTime := wordStart + wordDuration)];
        i := i + 1;
      }
      assert s.words[..i] == s.words;
      moved := moved.(words := words);
    }
    return Ok(moved);
  }

  /**
   * As written, moving the segment [10, 20] with the word [10, 12] to [0, 10] leaves
   * the word at [10, 12], outside the new segment.
   */
  lemma AdjustAsWrittenLeavesWordOutside(w: Word)
    requires w.startTime == 10.0 && w.endTime == 12.0
    ensures var r := AdjustedAsWritten(Segment("s", "t", 10.0, 20.0, [w]), 0.0, 10.0);
      r.words == [w] && r.words[0].endTime > r.endTime
  {
    var f := Rescale(0.0, 0.0, 1.0);
    assert Seqs.Map([w], f) == Seqs.Map([w][..0], f) + [f(w)];
    assert f(w) == w;
  }

  /** With the intended rescale, every word inside the old bounds ends up inside the new ones. */
  lemma AdjustedKeepsWordsInside(s: Segment, newStart: real, newEnd: real)
    requires newEnd > newStart && SegmentDuration(s) > 0.0
    ensures var r := Adjusted(s, newStart, newEnd);
      r.startTime == newStart && r.endTime == newEnd && |r.words| == |s.words| &&
      forall i :: 0 <= i < |s.words| && s.startTime <= s.words[i].startTime <= s.words[i].endTime <= s.endTime ==>
        newStart <= r.words[i].startTime <= r.words[i].endTime <= newEnd
  {
    RatioScales(SegmentDuration(s), newEnd - newStart);
    RescaleAllInside(s.words, s.startTime, s.endTime, newStart, newEnd, (newEnd - newStart) / SegmentDuration(s));
  }
}
