/**
 * The word re-timing helpers of the timeline editor's segment store
 * (_archived/reference/tools/timeline_integrated/core/DataManager.js:235-258): uniform
 * slices of a segment, and the affine stretch of existing word timings onto it.
 */
module TimelineRedistribute {
  import opened Wrappers
  import Seqs
  import opened RealArith
  import opened TimelineData

  /** The words tile `[from, to]`: the first starts at `from`, the last ends at `to`, and each ends where the next starts. */
  predicate Tiles(words: seq<DmWord>, from: real, to: real)
  {
    |words| > 0 && words[0].start == from && words[|words| - 1].end == to &&
    forall i :: 0 <= i < |words| - 1 ==> words[i].end == words[i + 1].start
  }

  /** Word `i` of a uniform split: `{...word, start: s + i*d, end: s + (i+1)*d}`. */
  function UniformWord(startTime: real, d: real): (nat, DmWord) -> DmWord
  {
    (i: nat, w: DmWord) => w.(start := startTime + Times(i, d), end := startTime + Times(i + 1, d))
  }

  /** The slice computed with the products the source writes. */
  lemma UniformWordIsProduct(startTime: real, d: real, i: nat, w: DmWord)
    ensures UniformWord(startTime, d)(i, w) == w.(start := startTime + (i as real) * d, end := startTime + ((i + 1) as real) * d)
  {
    TimesIsProduct(i, d);
    TimesIsProduct(i + 1, d);
  }

  /** `redistributeUniform` (DataManager.js:235-244); an empty list maps to itself. */
  function RedistributeUniform(words: seq<DmWord>, startTime: real, endTime: real): (r: seq<DmWord>)
    ensures |r| == |words|
  {
    var d := if words == [] then 0.0 else (endTime - startTime) / (|words| as real);
    Seqs.MapIndexed(words, UniformWord(startTime, d))
  }

  lemma UniformAt(words: seq<DmWord>, startTime: real, d: real, i: nat)
    requires i < |words|
    ensures var w := Seqs.MapIndexed(words, UniformWord(startTime, d))[i];
      w.text == words[i].text && w.rest == words[i].rest &&
      w.start == startTime + Times(i, d) && w.end == startTime + Times(i + 1, d)
  {
    Seqs.MapIndexedAt(words, UniformWord(startTime, d), i);
  }

  /** Each uniform slice ends where the next begins. */
  lemma UniformSlicesMeet(words: seq<DmWord>, startTime: real, d: real)
    ensures var r := Seqs.MapIndexed(words, UniformWord(startTime, d));
      forall i :: 0 <= i < |r| - 1 ==> r[i].end == r[i + 1].start
  {
    var r := Seqs.MapIndexed(words, UniformWord(startTime, d));
    forall i | 0 <= i < |r| - 1
      ensures r[i].end == r[i + 1].start
    {
      UniformAt(words, startTime, d, i);
      UniformAt(words, startTime, d, i + 1);
    }
  }

  /** Uniform slices of width `d` tile `[s, s + n*d]`. */
  lemma UniformSlicesTile(words: seq<DmWord>, startTime: real, d: real)
    requires words != []
    ensures Tiles(Seqs.MapIndexed(words, UniformWord(startTime, d)), startTime, startTime + Times(|words|, d))
  {
    UniformSlicesMeet(words, startTime, d);
    UniformAt(words, startTime, d, 0);
    UniformAt(words, startTime, d, |words| - 1);
  }

  /** Every uniform slice keeps the word's other properties and lasts `d`. */
  lemma UniformSlicesFields(words: seq<DmWord>, startTime: real, d: real)
    ensures forall i :: 0 <= i < |words| ==>
      var w := Seqs.MapIndexed(words, UniformWord(startTime, d))[i];
      w.text == words[i].text && w.rest == words[i].rest && w.end - w.start == d
  {
    var r := Seqs.MapIndexed(words, UniformWord(startTime, d));
    forall i | 0 <= i < |words|
      ensures r[i].text == words[i].text && r[i].rest == words[i].rest && r[i].end - r[i].start == d
    {
      UniformAt(words, startTime, d, i);
    }
  }

  /**
   * The uniform split tiles `[startTime, endTime]` with `n` words of `(endTime - startTime) / n`
   * each, in the input order, every other property kept.
   */
  lemma UniformTilesSegment(words: seq<DmWord>, startTime: real, endTime: real)
    requires words != []
    ensures Tiles(RedistributeUniform(words, startTime, endTime), startTime, endTime)
    ensures forall i :: 0 <= i < |words| ==>
      var w := RedistributeUniform(words, startTime, endTime)[i];
      w.text == words[i].text && w.rest == words[i].rest && w.end - w.start == (endTime - startTime) / (|words| as real)
  {
    var d := (endTime - startTime) / (|words| as real);
    UniformSlicesTile(words, startTime, d);
    UniformSlicesFields(words, startTime, d);
    SharesMakeWhole(endTime - startTime, |words|);
  }

  // ---------------------------------------------------------------- proportional

  datatype StretchFailure =
    | NoWords    // `words[0].start` of an empty list: a TypeError
    | ZeroSpan   // the words span no time: the scale factor is not a finite number

  /** `startTime + (x - originalStart) * scaleFactor`. */
  function Affine(startTime: real, originalStart: real, k: real, x: real): real
  {
    startTime + (x - originalStart) * k
  }

  function StretchWord(startTime: real, originalStart: real, k: real): DmWord -> DmWord
  {
    (w: DmWord) => w.(start := Affine(startTime, originalStart, k, w.start), end := Affine(startTime, originalStart, k, w.end))
  }

  function Span(words: seq<DmWord>): real
    requires words != []
  {
    words[|words| - 1].end - words[0].start
  }

  /** `scaleFactor`: the new span over the old one. */
  function Scale(words: seq<DmWord>, startTime: real, endTime: real): real
    requires words != [] && Span(words) != 0.0
  {
    (endTime - startTime) / Span(words)
  }

  /** `redistributeProportional` (DataManager.js:247-258). */
  function RedistributeProportional(words: seq<DmWord>, startTime: real, endTime: real): (r: Result<seq<DmWord>, StretchFailure>)
    ensures r == Err(NoWords) <==> words == []
    ensures r == Err(ZeroSpan) <==> words != [] && Span(words) == 0.0
    ensures r.Ok? ==> |r.value| == |words|
  {
    if words == [] then Err(NoWords)
    else if Span(words) == 0.0 then Err(ZeroSpan)
    else Ok(Seqs.Map(words, StretchWord(startTime, words[0].start, Scale(words, startTime, endTime))))
  }

  /** The affine map moves differences by the scale factor. */
  lemma AffineDifference(s: real, o: real, k: real, x: real, y: real)
    ensures Affine(s, o, k, x) - Affine(s, o, k, y) == (x - y) * k
  {
    assert (x - o) * k - (y - o) * k == (x - y) * k;
  }

  /** The affine map with scale `(t - s) / (e - o)` sends `o` to `s` and `e` to `t`. */
  lemma AffineEnds(s: real, o: real, e: real, t: real)
    requires e - o != 0.0
    ensures Affine(s, o, (t - s) / (e - o), o) == s
    ensures Affine(s, o, (t - s) / (e - o), e) == t
  {
    var k := (t - s) / (e - o);
    assert (e - o) * k == t - s;
  }

  /** Word i of the stretch: its times moved by the affine map, its other properties kept. */
  lemma StretchAt(words: seq<DmWord>, s: real, o: real, k: real, i: nat)
    requires i < |words|
    ensures var w := Seqs.Map(words, StretchWord(s, o, k))[i];
      && w.text == words[i].text && w.rest == words[i].rest
      && w.start == Affine(s, o, k, words[i].start) && w.end == Affine(s, o, k, words[i].end)
  {
    Seqs.MapAt(words, StretchWord(s, o, k), i);
  }

  /** The stretch keeps each word's other properties and scales its duration by `k`. */
  lemma StretchDurations(words: seq<DmWord>, s: real, o: real, k: real)
    ensures var r := Seqs.Map(words, StretchWord(s, o, k));
      forall i :: 0 <= i < |r| ==>
        r[i].text == words[i].text && r[i].rest == words[i].rest
        && r[i].end - r[i].start == (words[i].end - words[i].start) * k
  {
    var r := Seqs.Map(words, StretchWord(s, o, k));
    forall i | 0 <= i < |r|
      ensures r[i].text == words[i].text && r[i].rest == words[i].rest
      ensures r[i].end - r[i].start == (words[i].end - words[i].start) * k
    {
      StretchAt(words, s, o, k, i);
      AffineDifference(s, o, k, words[i].end, words[i].start);
    }
  }

  /** The stretch scales the gap between neighbours by `k`. */
  lemma StretchGaps(words: seq<DmWord>, s: real, o: real, k: real)
    ensures var r := Seqs.Map(words, StretchWord(s, o, k));
      forall i :: 0 <= i < |r| - 1 ==> r[i + 1].start - r[i].end == (words[i + 1].start - words[i].end) * k
  {
    var r := Seqs.Map(words, StretchWord(s, o, k));
    forall i | 0 <= i < |r| - 1
      ensures r[i + 1].start - r[i].end == (words[i + 1].start - words[i].end) * k
    {
      StretchAt(words, s, o, k, i);
      StretchAt(words, s, o, k, i + 1);
      AffineDifference(s, o, k, words[i + 1].start, words[i].end);
    }
  }

  /**
   * The stretch sends the first word's start to `startTime` and the last word's end to
   * `endTime`, scales every duration and every gap between neighbours by
   * `(endTime - startTime) / span`, and keeps each word's other properties.
   */
  lemma ProportionalStretches(words: seq<DmWord>, startTime: real, endTime: real)
    requires words != [] && Span(words) != 0.0
    ensures var r := RedistributeProportional(words, startTime, endTime).value;
      var k := Scale(words, startTime, endTime);
      && r[0].start == startTime && r[|r| - 1].end == endTime
      && (forall i :: 0 <= i < |r| ==>
            r[i].text == words[i].text && r[i].rest == words[i].rest
            && r[i].end - r[i].start == (words[i].end - words[i].start) * k)
      && (forall i :: 0 <= i < |r| - 1 ==> r[i + 1].start - r[i].end == (words[i + 1].start - words[i].end) * k)
  {
    var o := words[0].start;
    var k := Scale(words, startTime, endTime);
    var n := |words|;
    assert RedistributeProportional(words, startTime, endTime).value == Seqs.Map(words, StretchWord(startTime, o, k));
    StretchAt(words, startTime, o, k, 0);
    StretchAt(words, startTime, o, k, n - 1);
    AffineEnds(startTime, o, words[n - 1].end, endTime);
    StretchDurations(words, startTime, o, k);
    StretchGaps(words, startTime, o, k);
  }

  /** Contiguous words stay contiguous, so a stretched tiling of the old span tiles the new one. */
  lemma ProportionalKeepsTiling(words: seq<DmWord>, startTime: real, endTime: real)
    requires words != [] && Tiles(words, words[0].start, words[|words| - 1].end) && Span(words) != 0.0
    ensures Tiles(RedistributeProportional(words, startTime, endTime).value, startTime, endTime)
  {
    var o := words[0].start;
    var k := Scale(words, startTime, endTime);
    var r := RedistributeProportional(words, startTime, endTime).value;
    assert r == Seqs.Map(words, StretchWord(startTime, o, k));
    ProportionalStretches(words, startTime, endTime);
    forall i | 0 <= i < |r| - 1
      ensures r[i].end == r[i + 1].start
    {
      StretchAt(words, startTime, o, k, i);
      StretchAt(words, startTime, o, k, i + 1);
    }
  }
}
