/**
 * Re-timing of a segment's words after its boundaries move
 * (_archived/reference/tools/timeline_integrated/WordRedistribution/WordRedistribution.js):
 * a clamped base duration adjusted per word, laid out from the segment start without
 * running past its end, then any time left over spread so the last word ends on the
 * segment end; and the consistency check of a segment's word timings.
 */
module WordRedistribution {
  import opened Wrappers
  import Seqs
  import opened RealArith

  /** The component's `config`. */
  datatype Config = Config(minWordDuration: real, maxWordDuration: real, preserveNaturalPauses: bool, pauseThreshold: real)

  /** The defaults of the constructor (WordRedistribution.js:14-21). */
  const DefaultConfig := Config(0.1, 2.0, true, 0.3)

  /** A word object: the `word` property read by the adjustment, the timing, and everything else spread along. */
  datatype RWord = RWord(word: Option<string>, start: real, end: real, duration: Option<real>, rest: seq<(string, string)>)

  // ---------------------------------------------------------------- adjustWordDuration

  /** The text checked by `word.word && ...`: absent and empty text are falsy. */
  function Spelled(w: RWord): string
  {
    if w.word.Some? then w.word.value else ""
  }

  /** JavaScript's `length`: UTF-16 code units, two for a character outside the Basic Multilingual Plane. */
  function Utf16Length(t: string): (n: nat)
    ensures |t| <= n <= 2 * |t|
    ensures n == |t| <==> forall i :: 0 <= i < |t| ==> t[i] as int < 0x1_0000
  {
    if t == [] then 0 else (if t[0] as int < 0x1_0000 then 1 else 2) + Utf16Length(t[1..])
  }

  /** Five emoji are ten code units, so such a word counts as long although it has five characters. */
  lemma EmojiWordIsLong()
    ensures LengthFactor("\U{1F600}\U{1F600}\U{1F600}\U{1F600}\U{1F600}") == 1.2
  {
    var t := "\U{1F600}\U{1F600}\U{1F600}\U{1F600}\U{1F600}";
    assert t[1..][1..][1..][1..][1..] == [];
  }

  /** `x1.2` for more than 8 code units, `x0.8` for fewer than 4, else 1. */
  function LengthFactor(t: string): real
  {
    if t != [] && Utf16Length(t) > 8 then 1.2 else if t != [] && Utf16Length(t) < 4 then 0.8 else 1.0
  }

  /** The pause added after `.`, `!` or `?` (`/[.!?]$/`), or half of it after `,` (`/,$/`). */
  function PauseBonus(t: string, pause: real): real
  {
    if t != [] && t[|t| - 1] in {'.', '!', '?'} then pause
    else if t != [] && t[|t| - 1] == ',' then pause * 0.5
    else 0.0
  }

  /** `x0.9` for the first word, `x1.1` for the last of several. */
  function PositionFactor(index: nat, total: nat): real
  {
    if index == 0 then 0.9 else if index == total - 1 then 1.1 else 1.0
  }

  /**
   * `adjustWordDuration` (WordRedistribution.js:212-240): the length factor, then the
   * punctuation pause, then the position factor.
   */
  function AdjustWordDuration(w: RWord, base: real, index: nat, total: nat, pause: real): (r: real)
    ensures base >= 0.0 && pause >= 0.0 ==> 0.72 * base <= r <= 1.32 * base + 1.1 * pause
  {
    var t := Spelled(w);
    var d1 := if t != [] && Utf16Length(t) > 8 then base * 1.2 else if t != [] && Utf16Length(t) < 4 then base * 0.8 else base;
    var d2 := if t != [] && t[|t| - 1] in {'.', '!', '?'} then d1 + pause else d1;
    var d3 := if t != [] && t[|t| - 1] == ',' then d2 + pause * 0.5 else d2;
    if index == 0 then d3 * 0.9 else if index == total - 1 then d3 * 1.1 else d3
  }

  /** The adjustment is the base scaled for length, plus the pause, scaled for position. */
  lemma AdjustFactors(w: RWord, base: real, index: nat, total: nat, pause: real)
    ensures AdjustWordDuration(w, base, index, total, pause)
         == (base * LengthFactor(Spelled(w)) + PauseBonus(Spelled(w), pause)) * PositionFactor(index, total)
  {
  }

  // ---------------------------------------------------------------- redistributeWords, specified

  /** `Math.min(max, Math.max(min, segmentDuration / wordCount))`. */
  function BaseDuration(cfg: Config, segmentDuration: real, count: nat): (r: real)
    requires count > 0
    ensures r <= cfg.maxWordDuration
    ensures cfg.minWordDuration <= cfg.maxWordDuration ==> cfg.minWordDuration <= r
  {
    var x := segmentDuration / (count as real);
    var lo := if cfg.minWordDuration > x then cfg.minWordDuration else x;
    if cfg.maxWordDuration < lo then cfg.maxWordDuration else lo
  }

  /** The duration word `i` asks for. */
  function Wanted(cfg: Config, w: RWord, base: real, i: nat, total: nat): real
  {
    if cfg.preserveNaturalPauses then AdjustWordDuration(w, base, i, total, cfg.pauseThreshold) else base
  }

  /** The duration granted from `current`: cut to what is left when the word would run past the end. */
  function Clip(current: real, want: real, segmentEnd: real): (d: real)
    ensures current + d <= segmentEnd
  {
    if current + want > segmentEnd then segmentEnd - current else want
  }

  /** The first pass over the first `k` words: the words placed and the time reached. */
  function FirstPass(words: seq<RWord>, k: nat, cfg: Config, base: real, segmentStart: real, segmentEnd: real): (r: (seq<RWord>, real))
    requires k <= |words|
    ensures |r.0| == k
  {
    if k == 0 then ([], segmentStart)
    else
      var prev := FirstPass(words, k - 1, cfg, base, segmentStart, segmentEnd);
      var cur := prev.1;
      var d := Clip(cur, Wanted(cfg, words[k - 1], base, k - 1, |words|), segmentEnd);
      (prev.0 + [words[k - 1].(start := cur, end := cur + d, duration := Some(d))], cur + d)
  }

  /** The forEach of the second pass on word `i`: moved by `i` shares, stretched by one. */
  function SpreadWord(adjustment: real): (nat, RWord) -> RWord
  {
    (i: nat, w: RWord) =>
      w.(start := w.start + Times(i, adjustment), end := w.end + Times(i + 1, adjustment),
         duration := Some(w.duration.GetOr(0.0) + adjustment))
  }

  /** What `redistributeWords` returns (WordRedistribution.js:154-207). */
  function Redistributed(words: seq<RWord>, segmentStart: real, segmentEnd: real, cfg: Config): (r: seq<RWord>)
    ensures |r| == |words|
  {
    if words == [] then []
    else
      var base := BaseDuration(cfg, segmentEnd - segmentStart, |words|);
      Finish(FirstPass(words, |words|, cfg, base, segmentStart, segmentEnd), segmentEnd)
  }

  /** The second pass: the time left before `segmentEnd`, if any, spread in equal shares over the placed words. */
  function Finish(pass: (seq<RWord>, real), segmentEnd: real): seq<RWord>
  {
    if pass.1 < segmentEnd && pass.0 != [] then Seqs.MapIndexed(pass.0, SpreadWord((segmentEnd - pass.1) / (|pass.0| as real)))
    else pass.0
  }

  // ---------------------------------------------------------------- redistributeWords, the loops

  /** `redistributeWords` (WordRedistribution.js:154-207). */
  method RedistributeWords(words: seq<RWord>, segmentStart: real, segmentEnd: real, cfg: Config) returns (r: seq<RWord>)
    ensures r == Redistributed(words, segmentStart, segmentEnd, cfg)
  {
    var segmentDuration := segmentEnd - segmentStart;
    var wordCount := |words|;
    if wordCount == 0 {
      return [];
    }
    var baseDuration := segmentDuration / (wordCount as real);
    baseDuration := if cfg.minWordDuration > baseDuration then cfg.minWordDuration else baseDuration;
    baseDuration := if cfg.maxWordDuration < baseDuration then cfg.maxWordDuration else baseDuration;
    assert baseDuration == BaseDuration(cfg, segmentDuration, wordCount);
    var currentTime;
    r, currentTime := LayOut(words, cfg, baseDuration, segmentStart, segmentEnd);
    if currentTime < segmentEnd {
      var remainingTime := segmentEnd - currentTime;
      var adjustment := remainingTime / (wordCount as real);
      r := SpreadRemaining(r, adjustment);
    }
  }

  /** The `for` loop of the first pass (WordRedistribution.js:167-192), pushing each word with a running `currentTime`. */
  method LayOut(words: seq<RWord>, cfg: Config, baseDuration: real, segmentStart: real, segmentEnd: real)
    returns (r: seq<RWord>, currentTime: real)
    ensures (r, currentTime) == FirstPass(words, |words|, cfg, baseDuration, segmentStart, segmentEnd)
  {
    r := [];
    currentTime := segmentStart;
    var i := 0;
    while i < |words|
      invariant 0 <= i <= |words|
      invariant (r, currentTime) == FirstPass(words, i, cfg, baseDuration, segmentStart, segmentEnd)
    {
      var word := words[i];
      var wordDuration := baseDuration;
      if cfg.preserveNaturalPauses {
        wordDuration := AdjustWordDuration(word, baseDuration, i, |words|, cfg.pauseThreshold);
      }
      if currentTime + wordDuration > segmentEnd {
        wordDuration := segmentEnd - currentTime;
      }
      assert wordDuration == Clip(currentTime, Wanted(cfg, word, baseDuration, i, |words|), segmentEnd);
      FirstPassStep(words, i, cfg, baseDuration, segmentStart, segmentEnd);
      r := r + [word.(start := currentTime, end := currentTime + wordDuration, duration := Some(wordDuration))];
      currentTime := currentTime + wordDuration;
      i := i + 1;
    }
  }

  /** Word `i` is placed at the time the first `i` words reach, for the clipped duration it asks for. */
  lemma FirstPassStep(words: seq<RWord>, i: nat, cfg: Config, base: real, segmentStart: real, segmentEnd: real)
    requires i < |words|
    ensures var prev := FirstPass(words, i, cfg, base, segmentStart, segmentEnd);
      var d := Clip(prev.1, Wanted(cfg, words[i], base, i, |words|), segmentEnd);
      FirstPass(words, i + 1, cfg, base, segmentStart, segmentEnd)
        == (prev.0 + [words[i].(start := prev.1, end := prev.1 + d, duration := Some(d))], prev.1 + d)
  {
  }

  /** The `forEach` that spreads the time left over (WordRedistribution.js:195-204), updating each word in place. */
  method SpreadRemaining(placed: seq<RWord>, adjustment: real) returns (r: seq<RWord>)
    ensures r == Seqs.MapIndexed(placed, SpreadWord(adjustment))
  {
    r := placed;
    var j := 0;
    while j < |r|
      invariant 0 <= j <= |r| && |r| == |placed|
      invariant forall m :: 0 <= m < j ==> r[m] == SpreadWord(adjustment)(m, placed[m])
      invariant forall m :: j <= m < |r| ==> r[m] == placed[m]
    {
      var w := r[j];
      TimesIsProduct(j, adjustment);
      TimesIsProduct(j + 1, adjustment);
      var moved := w.(start := w.start + adjustment * (j as real), end := w.end + adjustment * ((j + 1) as real),
                      duration := Some(w.duration.GetOr(0.0) + adjustment));
      assert moved == SpreadWord(adjustment)(j, placed[j]);
      r := r[j := moved];
      j := j + 1;
    }
    forall m | 0 <= m < |r|
      ensures r[m] == Seqs.MapIndexed(placed, SpreadWord(adjustment))[m]
    {
      Seqs.MapIndexedAt(placed, SpreadWord(adjustment), m);
    }
  }

  // ---------------------------------------------------------------- what the layout guarantees

  /** The words tile `[from, to]`: the first starts at `from`, the last ends at `to`, and each ends where the next starts. */
  predicate Tiles(words: seq<RWord>, from: real, to: real)
  {
    |words| > 0 && words[0].start == from && words[|words| - 1].end == to &&
    forall i :: 0 <= i < |words| - 1 ==> words[i].end == words[i + 1].start
  }

  /** Each word's `duration` is its span, and its own `word` and other properties are kept. */
  predicate KeepsWords(r: seq<RWord>, words: seq<RWord>)
  {
    |r| == |words| &&
    forall i :: 0 <= i < |r| ==> r[i].word == words[i].word && r[i].rest == words[i].rest && r[i].duration == Some(r[i].end - r[i].start)
  }

  /**
   * The first pass lays the words end to end from the segment start, never past the
   * segment end, and reaches the end of its last word.
   */
  lemma FirstPassFacts(words: seq<RWord>, k: nat, cfg: Config, base: real, segmentStart: real, segmentEnd: real)
    requires k <= |words|
    ensures var p := FirstPass(words, k, cfg, base, segmentStart, segmentEnd);
      && KeepsWords(p.0, words[..k])
      && (k == 0 ==> p.1 == segmentStart)
      && (k > 0 ==> Tiles(p.0, segmentStart, p.1) && p.1 <= segmentEnd)
      && (forall i :: 0 <= i < k ==> p.0[i].end <= segmentEnd)
  {
    FirstPassKeeps(words, k, cfg, base, segmentStart, segmentEnd);
    FirstPassTiles(words, k, cfg, base, segmentStart, segmentEnd);
    FirstPassBounded(words, k, cfg, base, segmentStart, segmentEnd);
  }

  lemma {:induction false} FirstPassKeeps(words: seq<RWord>, k: nat, cfg: Config, base: real, segmentStart: real, segmentEnd: real)
    requires k <= |words|
    ensures KeepsWords(FirstPass(words, k, cfg, base, segmentStart, segmentEnd).0, words[..k])
  {
    if k > 0 {
      FirstPassKeeps(words, k - 1, cfg, base, segmentStart, segmentEnd);
      assert words[..k] == words[..k - 1] + [words[k - 1]];
    }
  }

  lemma {:induction false} FirstPassTiles(words: seq<RWord>, k: nat, cfg: Config, base: real, segmentStart: real, segmentEnd: real)
    requires k <= |words|
    ensures var p := FirstPass(words, k, cfg, base, segmentStart, segmentEnd);
      && (k == 0 ==> p.1 == segmentStart)
      && (k > 0 ==> Tiles(p.0, segmentStart, p.1))
  {
    if k > 0 {
      FirstPassTiles(words, k - 1, cfg, base, segmentStart, segmentEnd);
    }
  }

  lemma {:induction false} FirstPassBounded(words: seq<RWord>, k: nat, cfg: Config, base: real, segmentStart: real, segmentEnd: real)
    requires k <= |words|
    ensures var p := FirstPass(words, k, cfg, base, segmentStart, segmentEnd);
      && (k > 0 ==> p.1 <= segmentEnd)
      && (forall i :: 0 <= i < k ==> p.0[i].end <= segmentEnd)
  {
    if k > 0 {
      FirstPassBounded(words, k - 1, cfg, base, segmentStart, segmentEnd);
    }
  }

  /** Word `i` after the spread: moved by `i` shares and stretched by one. */
  lemma SpreadIndex(ws: seq<RWord>, adjustment: real, i: nat)
    requires i < |ws|
    ensures var w := Seqs.MapIndexed(ws, SpreadWord(adjustment))[i];
      && w.word == ws[i].word && w.rest == ws[i].rest
      && w.start == ws[i].start + Times(i, adjustment)
      && w.end == ws[i].end + Times(i, adjustment) + adjustment
      && w.duration == Some(ws[i].duration.GetOr(0.0) + adjustment)
  {
    Seqs.MapIndexedAt(ws, SpreadWord(adjustment), i);
  }

  /** Moving word `i` by `i` shares and stretching it by one keeps neighbours touching. */
  lemma SpreadMeets(ws: seq<RWord>, adjustment: real)
    requires forall i :: 0 <= i < |ws| - 1 ==> ws[i].end == ws[i + 1].start
    ensures var r := Seqs.MapIndexed(ws, SpreadWord(adjustment));
      forall i :: 0 <= i < |r| - 1 ==> r[i].end == r[i + 1].start
  {
    var r := Seqs.MapIndexed(ws, SpreadWord(adjustment));
    forall i | 0 <= i < |r| - 1
      ensures r[i].end == r[i + 1].start
    {
      SpreadIndex(ws, adjustment, i);
      SpreadIndex(ws, adjustment, i + 1);
    }
  }

  lemma SpreadKeeps(ws: seq<RWord>, words: seq<RWord>, adjustment: real)
    requires KeepsWords(ws, words)
    ensures KeepsWords(Seqs.MapIndexed(ws, SpreadWord(adjustment)), words)
  {
    var r := Seqs.MapIndexed(ws, SpreadWord(adjustment));
    forall i | 0 <= i < |r|
      ensures r[i].word == words[i].word && r[i].rest == words[i].rest && r[i].duration == Some(r[i].end - r[i].start)
    {
      SpreadIndex(ws, adjustment, i);
    }
  }

  /** After the spread the first word still starts where it did and the last gains all `n` shares. */
  lemma SpreadEnds(ws: seq<RWord>, adjustment: real)
    requires ws != []
    ensures var r := Seqs.MapIndexed(ws, SpreadWord(adjustment));
      r[0].start == ws[0].start && r[|r| - 1].end == ws[|ws| - 1].end + Times(|ws|, adjustment)
  {
    SpreadIndex(ws, adjustment, 0);
    SpreadIndex(ws, adjustment, |ws| - 1);
  }

  /**
   * Whatever the configuration, the redistributed words tile the segment exactly: the
   * first starts at `segmentStart`, each ends where the next starts, the last ends at
   * `segmentEnd`; every word keeps its text and other properties, in order, and carries
   * its span as `duration`.
   */
  lemma RedistributedTilesSegment(words: seq<RWord>, segmentStart: real, segmentEnd: real, cfg: Config)
    requires words != []
    ensures Tiles(Redistributed(words, segmentStart, segmentEnd, cfg), segmentStart, segmentEnd)
    ensures KeepsWords(Redistributed(words, segmentStart, segmentEnd, cfg), words)
  {
    var n := |words|;
    var base := BaseDuration(cfg, segmentEnd - segmentStart, n);
    FirstPassFacts(words, n, cfg, base, segmentStart, segmentEnd);
    assert words[..n] == words;
    FinishTiles(FirstPass(words, n, cfg, base, segmentStart, segmentEnd), words, segmentStart, segmentEnd);
  }

  /** A first pass that tiles `[from, reached]` with `reached <= end` tiles `[from, end]` once finished. */
  lemma FinishTiles(pass: (seq<RWord>, real), words: seq<RWord>, from: real, end: real)
    requires Tiles(pass.0, from, pass.1) && pass.1 <= end && KeepsWords(pass.0, words)
    ensures Tiles(Finish(pass, end), from, end) && KeepsWords(Finish(pass, end), words)
  {
    if pass.1 < end {
      var adjustment := (end - pass.1) / (|pass.0| as real);
      SpreadKeeps(pass.0, words, adjustment);
      SpreadTiles(pass.0, from, pass.1, end);
    }
  }

  /** Spreading what is left of `[from, end]` over words tiling `[from, to]` makes them tile `[from, end]`. */
  lemma SpreadTiles(ws: seq<RWord>, from: real, to: real, end: real)
    requires Tiles(ws, from, to) && to < end
    ensures Tiles(Seqs.MapIndexed(ws, SpreadWord((end - to) / (|ws| as real))), from, end)
  {
    var adjustment := (end - to) / (|ws| as real);
    SpreadMeets(ws, adjustment);
    SpreadEnds(ws, adjustment);
    SharesMakeWhole(end - to, |ws|);
    assert ws[|ws| - 1].end + Times(|ws|, adjustment) == end;
    assert ws[0].start == from;
  }

  /** Every word starts no earlier than `from`, ends no later than `to`, and does not end before it starts. */
  predicate Inside(ws: seq<RWord>, from: real, to: real)
  {
    forall i :: 0 <= i < |ws| ==> from <= ws[i].start <= ws[i].end <= to
  }

  /** With non-negative settings every word asks for a non-negative duration. */
  lemma WantedNonnegative(cfg: Config, w: RWord, base: real, i: nat, total: nat)
    requires base >= 0.0 && cfg.pauseThreshold >= 0.0
    ensures Wanted(cfg, w, base, i, total) >= 0.0
  {
  }

  lemma {:induction false} TimesNonnegative(n: nat, x: real)
    requires x >= 0.0
    ensures Times(n, x) >= 0.0
  {
    if n > 0 {
      TimesNonnegative(n - 1, x);
    }
  }

  /** On a segment that does not end before it starts, the first pass keeps every word inside it, in order. */
  lemma {:induction false} FirstPassInside(words: seq<RWord>, k: nat, cfg: Config, base: real, segmentStart: real, segmentEnd: real)
    requires k <= |words|
    requires segmentStart <= segmentEnd && base >= 0.0 && cfg.pauseThreshold >= 0.0
    ensures var p := FirstPass(words, k, cfg, base, segmentStart, segmentEnd);
      segmentStart <= p.1 <= segmentEnd && Inside(p.0, segmentStart, p.1)
  {
    if k > 0 {
      FirstPassInside(words, k - 1, cfg, base, segmentStart, segmentEnd);
      FirstPassInsideStep(words, k - 1, cfg, base, segmentStart, segmentEnd);
    }
  }

  lemma FirstPassInsideStep(words: seq<RWord>, i: nat, cfg: Config, base: real, segmentStart: real, segmentEnd: real)
    requires i < |words|
    requires segmentStart <= segmentEnd && base >= 0.0 && cfg.pauseThreshold >= 0.0
    requires var p := FirstPass(words, i, cfg, base, segmentStart, segmentEnd);
      segmentStart <= p.1 <= segmentEnd && Inside(p.0, segmentStart, p.1)
    ensures var q := FirstPass(words, i + 1, cfg, base, segmentStart, segmentEnd);
      segmentStart <= q.1 <= segmentEnd && Inside(q.0, segmentStart, q.1)
  {
    var prev := FirstPass(words, i, cfg, base, segmentStart, segmentEnd);
    var cur := prev.1;
    var d := Clip(cur, Wanted(cfg, words[i], base, i, |words|), segmentEnd);
    FirstPassStep(words, i, cfg, base, segmentStart, segmentEnd);
    WantedNonnegative(cfg, words[i], base, i, |words|);
    assert d >= 0.0;
    InsideSnoc(prev.0, words[i].(start := cur, end := cur + d, duration := Some(d)), segmentStart, cur, cur + d);
  }

  lemma InsideSnoc(ws: seq<RWord>, x: RWord, from: real, to: real, to': real)
    requires Inside(ws, from, to) && to <= to'
    requires from <= x.start <= x.end <= to'
    ensures Inside(ws + [x], from, to')
  {
    var r := ws + [x];
    forall i | 0 <= i < |r| ensures from <= r[i].start <= r[i].end <= to' {
      if i < |ws| {
        assert r[i] == ws[i];
      }
    }
  }

  /** Spreading non-negative shares keeps words that lay inside `[from, to]` inside `[from, to + n shares]`. */
  lemma SpreadInside(ws: seq<RWord>, adjustment: real, from: real, to: real)
    requires adjustment >= 0.0
    requires Inside(ws, from, to)
    ensures Inside(Seqs.MapIndexed(ws, SpreadWord(adjustment)), from, to + Times(|ws|, adjustment))
  {
    var r := Seqs.MapIndexed(ws, SpreadWord(adjustment));
    forall i | 0 <= i < |r|
      ensures from <= r[i].start <= r[i].end <= to + Times(|ws|, adjustment)
    {
      SpreadAt(ws, adjustment, from, to, i);
    }
  }

  lemma SpreadAt(ws: seq<RWord>, adjustment: real, from: real, to: real, i: nat)
    requires adjustment >= 0.0 && i < |ws|
    requires from <= ws[i].start <= ws[i].end <= to
    ensures var r := Seqs.MapIndexed(ws, SpreadWord(adjustment));
      from <= r[i].start <= r[i].end <= to + Times(|ws|, adjustment)
  {
    SpreadIndex(ws, adjustment, i);
    SharesBounded(adjustment, i, |ws|);
  }

  /** With non-negative shares, `i` shares are at least none, and `i + 1` at most `n` when `i < n`. */
  lemma SharesBounded(adjustment: real, i: nat, n: nat)
    requires adjustment >= 0.0 && i < n
    ensures 0.0 <= Times(i, adjustment)
    ensures Times(i, adjustment) + adjustment <= Times(n, adjustment)
  {
    TimesNonnegative(i, adjustment);
    TimesAdd(i + 1, n - (i + 1), adjustment);
    TimesNonnegative(n - (i + 1), adjustment);
  }

  /**
   * With non-negative settings and a segment that does not end before it starts, every
   * redistributed word lies inside the segment and lasts a non-negative time.
   */
  lemma RedistributedInsideSegment(words: seq<RWord>, segmentStart: real, segmentEnd: real, cfg: Config)
    requires segmentStart <= segmentEnd
    requires cfg.minWordDuration >= 0.0 && cfg.maxWordDuration >= 0.0 && cfg.pauseThreshold >= 0.0
    ensures Inside(Redistributed(words, segmentStart, segmentEnd, cfg), segmentStart, segmentEnd)
  {
    if words != [] {
      var n := |words|;
      var base := BaseDuration(cfg, segmentEnd - segmentStart, n);
      BaseNonnegative(cfg, segmentEnd - segmentStart, n);
      FirstPassInside(words, n, cfg, base, segmentStart, segmentEnd);
      FinishInside(FirstPass(words, n, cfg, base, segmentStart, segmentEnd), segmentStart, segmentEnd);
    }
  }

  /** A first pass inside `[from, reached]` with `reached <= end` lies inside `[from, end]` once finished. */
  lemma FinishInside(pass: (seq<RWord>, real), from: real, end: real)
    requires pass.1 <= end && Inside(pass.0, from, pass.1)
    ensures Inside(Finish(pass, end), from, end)
  {
    if pass.1 < end && pass.0 != [] {
      SpreadFills(pass.0, from, pass.1, end);
    }
  }

  /** Spreading what is left of `[from, end]` over words inside `[from, to]` keeps them inside `[from, end]`. */
  lemma SpreadFills(ws: seq<RWord>, from: real, to: real, end: real)
    requires ws != [] && Inside(ws, from, to) && to < end
    ensures Inside(Seqs.MapIndexed(ws, SpreadWord((end - to) / (|ws| as real))), from, end)
  {
    var adjustment := (end - to) / (|ws| as real);
    ShareNonnegative(end - to, |ws|);
    SharesMakeWhole(end - to, |ws|);
    assert to + Times(|ws|, adjustment) == end;
    SpreadInside(ws, adjustment, from, to);
  }

  /** With non-negative bounds the clamped base duration is non-negative. */
  lemma BaseNonnegative(cfg: Config, segmentDuration: real, count: nat)
    requires count > 0 && cfg.minWordDuration >= 0.0 && cfg.maxWordDuration >= 0.0
    ensures BaseDuration(cfg, segmentDuration, count) >= 0.0
  {
  }

  lemma ShareNonnegative(d: real, n: nat)
    requires d >= 0.0 && n > 0
    ensures d / (n as real) >= 0.0
  {
  }

  // ---------------------------------------------------------------- validateWordTimings

  /** An entry of the `errors` list; the numbers the messages print are kept as values. */
  datatype Issue =
    | NoSegmentOrWords
    | BadDuration(index: nat, duration: real)
    | Gap(before: nat, after: nat, gap: real)
    | OutOfBounds(index: nat)

  /** The segment `getSegment` returns: its bounds and its `words`, if it has any. */
  datatype RSegment = RSegment(start: real, end: real, words: Option<seq<RWord>>)

  datatype TimingReport = TimingReport(valid: bool, errors: seq<Issue>, wordCount: Option<nat>, totalDuration: Option<real>)

  /**
   * Word `i` passes: no non-positive `duration` (an absent one compares false), no gap of
   * more than 0.1 s after the previous word, and inside the segment.
   */
  predicate WordSound(words: seq<RWord>, i: nat, segmentStart: real, segmentEnd: real)
    requires i < |words|
  {
    && !(words[i].duration.Some? && words[i].duration.value <= 0.0)
    && !(i > 0 && words[i].start - words[i - 1].end > 0.1)
    && !(words[i].start < segmentStart || words[i].end > segmentEnd)
  }

  /** The errors pushed for word `i`, in the order the checks run. */
  function WordIssues(words: seq<RWord>, i: nat, segmentStart: real, segmentEnd: real): (r: seq<Issue>)
    requires i < |words|
    ensures r == [] <==> WordSound(words, i, segmentStart, segmentEnd)
  {
    (if words[i].duration.Some? && words[i].duration.value <= 0.0 then [BadDuration(i, words[i].duration.value)] else [])
    + (if i > 0 && words[i].start - words[i - 1].end > 0.1 then [Gap(i - 1, i, words[i].start - words[i - 1].end)] else [])
    + (if words[i].start < segmentStart || words[i].end > segmentEnd then [OutOfBounds(i)] else [])
  }

  /** The errors for the first `k` words. */
  function Issues(words: seq<RWord>, k: nat, segmentStart: real, segmentEnd: real): seq<Issue>
    requires k <= |words|
  {
    if k == 0 then [] else Issues(words, k - 1, segmentStart, segmentEnd) + WordIssues(words, k - 1, segmentStart, segmentEnd)
  }

  lemma {:induction false} IssuesEmpty(words: seq<RWord>, k: nat, segmentStart: real, segmentEnd: real)
    requires k <= |words|
    ensures Issues(words, k, segmentStart, segmentEnd) == [] <==> forall i :: 0 <= i < k ==> WordSound(words, i, segmentStart, segmentEnd)
  {
    if k > 0 {
      IssuesEmpty(words, k - 1, segmentStart, segmentEnd);
      var a, b := Issues(words, k - 1, segmentStart, segmentEnd), WordIssues(words, k - 1, segmentStart, segmentEnd);
      assert |a + b| == |a| + |b|;
    }
  }

  /**
   * `validateWordTimings` (WordRedistribution.js:267-304) on the segment looked up: valid
   * exactly when the segment has words and every word passes.
   */
  method ValidateWordTimings(segment: Option<RSegment>) returns (r: TimingReport)
    ensures segment.None? || segment.value.words.None? ==> r == TimingReport(false, [NoSegmentOrWords], None, None)
    ensures segment.Some? && segment.value.words.Some? ==>
      var ws := segment.value.words.value;
      r.errors == Issues(ws, |ws|, segment.value.start, segment.value.end)
      && r.wordCount == Some(|ws|) && r.totalDuration == Some(segment.value.end - segment.value.start)
    ensures r.valid <==> (segment.Some? && segment.value.words.Some? &&
                          forall i :: 0 <= i < |segment.value.words.value| ==>
                            WordSound(segment.value.words.value, i, segment.value.start, segment.value.end))
  {
    if segment.None? || segment.value.words.None? {
      return TimingReport(false, [NoSegmentOrWords], None, None);
    }
    var seg := segment.value;
    var words := seg.words.value;
    var errors: seq<Issue> := [];
    var i := 0;
    while i < |words|
      invariant 0 <= i <= |words|
      invariant errors == Issues(words, i, seg.start, seg.end)
    {
      var word := words[i];
      if word.duration.Some? && word.duration.value <= 0.0 {
        errors := errors + [BadDuration(i, word.duration.value)];
      }
      if i > 0 {
        var prevWord := words[i - 1];
        if word.start - prevWord.end > 0.1 {
          errors := errors + [Gap(i - 1, i, word.start - prevWord.end)];
        }
      }
      if word.start < seg.start || word.end > seg.end {
        errors := errors + [OutOfBounds(i)];
      }
      i := i + 1;
    }
    IssuesEmpty(words, |words|, seg.start, seg.end);
    return TimingReport(errors == [], errors, Some(|words|), Some(seg.end - seg.start));
  }

  /**
   * A redistributed segment (non-negative settings, not ending before it starts) never
   * shows a gap or a word out of bounds; a word fails the check only for lasting no time.
   */
  lemma RedistributedOnlyFailsOnEmptyWords(words: seq<RWord>, segmentStart: real, segmentEnd: real, cfg: Config)
    requires words != [] && segmentStart <= segmentEnd
    requires cfg.minWordDuration >= 0.0 && cfg.maxWordDuration >= 0.0 && cfg.pauseThreshold >= 0.0
    ensures var r := Redistributed(words, segmentStart, segmentEnd, cfg);
      forall i :: 0 <= i < |r| ==> (WordSound(r, i, segmentStart, segmentEnd) <==> r[i].start < r[i].end)
  {
    RedistributedTilesSegment(words, segmentStart, segmentEnd, cfg);
    RedistributedInsideSegment(words, segmentStart, segmentEnd, cfg);
  }
}
