/**
 * Caption events for the renderer (tools/05b-render/captions.py): every
 * playable interval is matched to a transcript segment, the words overlapping
 * it are coloured, and a running cursor lays the events end to end in output
 * time.
 */
module Captions {
  import opened Wrappers
  import opened Strings
  import opened Sorting
  import opened RenderSegments

  /** A transcript word dict; `None` is a missing key. */
  datatype TranscriptWord = TranscriptWord(start: Option<real>, end: Option<real>, text: Option<string>)

  /** A transcript segment dict. */
  datatype TranscriptSegment = TranscriptSegment(
    originalVideoId: Option<string>,
    start: real,
    end: real,
    text: Option<string>,
    words: seq<TranscriptWord>)

  /** A word of a caption event; `wordIndex` is its index inside its segment. */
  datatype CaptionWord = CaptionWord(text: string, start: real, end: real, wordIndex: nat, color: string)

  datatype CaptionEvent = CaptionEvent(
    segmentIndex: nat,
    clipId: string,
    originalStart: real,
    originalEnd: real,
    outputStart: real,
    outputEnd: real,
    words: seq<CaptionWord>,
    text: string)

  // ---------------------------------------------------------------- colours

  /** The `word_colors` key `"<segment>_<word>"`. */
  function ColorKey(segmentIndex: int, wordIndex: int): string
  {
    IntToString(segmentIndex) + "_" + IntToString(wordIndex)
  }

  /** get_word_color (captions.py:7-15). */
  function GetWordColor(segmentIndex: int, wordIndex: int, wordColors: map<string, string>, defaultColor: string): (r: string)
    ensures ColorKey(segmentIndex, wordIndex) in wordColors ==> r == wordColors[ColorKey(segmentIndex, wordIndex)]
    ensures ColorKey(segmentIndex, wordIndex) !in wordColors ==> r == defaultColor
  {
    var key := ColorKey(segmentIndex, wordIndex);
    if key in wordColors then wordColors[key] else defaultColor
  }

  lemma DigitsExcludeUnderscore(s: string)
    requires AllDigits(s)
    ensures Excludes(s, '_')
  {
  }

  /** Distinct (segment, word) positions never share a colour key. */
  lemma ColorKeyInjective(s1: nat, w1: nat, s2: nat, w2: nat)
    requires ColorKey(s1, w1) == ColorKey(s2, w2)
    ensures s1 == s2 && w1 == w2
  {
    var a1, b1 := NatToString(s1), NatToString(w1);
    var a2, b2 := NatToString(s2), NatToString(w2);
    DigitsValueOfNatToString(s1);
    DigitsValueOfNatToString(s2);
    DigitsValueOfNatToString(w1);
    DigitsValueOfNatToString(w2);
    DigitsExcludeUnderscore(a1);
    DigitsExcludeUnderscore(b1);
    DigitsExcludeUnderscore(a2);
    DigitsExcludeUnderscore(b2);
    assert Join([a1, b1], "_") == a1 + "_" + b1;
    assert Join([a2, b2], "_") == a2 + "_" + b2;
    SplitOnJoin([a1, b1], '_');
    SplitOnJoin([a2, b2], '_');
    assert [a1, b1] == [a2, b2];
  }

  // ---------------------------------------------------------------- words in a range

  datatype RangeWord = RangeWord(text: string, start: real, end: real, wordIndex: nat)

  function WordStart(w: TranscriptWord): real { w.start.GetOr(0.0) }
  function WordEnd(w: TranscriptWord): real { w.end.GetOr(0.0) }

  predicate Overlaps(w: TranscriptWord, startTime: real, endTime: real)
  {
    WordEnd(w) > startTime && WordStart(w) < endTime
  }

  function Tag(w: TranscriptWord, idx: nat): RangeWord
  {
    RangeWord(w.text.GetOr(""), WordStart(w), WordEnd(w), idx)
  }

  /** The words among the first ones of a segment that overlap the range, tagged with their index. */
  function WordsInRange(words: seq<TranscriptWord>, startTime: real, endTime: real): seq<RangeWord>
  {
    if words == [] then []
    else
      var init := WordsInRange(words[..|words| - 1], startTime, endTime);
      var w := words[|words| - 1];
      if Overlaps(w, startTime, endTime) then init + [Tag(w, |words| - 1)] else init
  }

  /** get_words_in_range (captions.py:18-46). */
  method GetWordsInRange(segment: TranscriptSegment, startTime: real, endTime: real) returns (result: seq<RangeWord>)
    ensures result == WordsInRange(segment.words, startTime, endTime)
  {
    var words := segment.words;
    result := [];
    var idx := 0;
    while idx < |words|
      invariant 0 <= idx <= |words|
      invariant result == WordsInRange(words[..idx], startTime, endTime)
    {
      var word := words[idx];
      assert words[..idx + 1][..idx] == words[..idx];
      var wordStart := word.start.GetOr(0.0);
      var wordEnd := word.end.GetOr(0.0);
      if wordEnd > startTime && wordStart < endTime {
        result := result + [RangeWord(word.text.GetOr(""), wordStart, wordEnd, idx)];
      }
      idx := idx + 1;
    }
    assert words[..idx] == words;
  }

  /**
   * Exactly the overlapping words are returned (`end > start_time` and
   * `start < end_time`), in segment order, each tagged with its index
   * (captions.py:31-46).
   */
  lemma {:induction false} WordsInRangeExact(words: seq<TranscriptWord>, startTime: real, endTime: real)
    ensures forall k :: 0 <= k < |WordsInRange(words, startTime, endTime)| ==>
      var rw := WordsInRange(words, startTime, endTime)[k];
      rw.wordIndex < |words| && Overlaps(words[rw.wordIndex], startTime, endTime) && rw == Tag(words[rw.wordIndex], rw.wordIndex)
    ensures forall k, l :: 0 <= k < l < |WordsInRange(words, startTime, endTime)| ==>
      WordsInRange(words, startTime, endTime)[k].wordIndex < WordsInRange(words, startTime, endTime)[l].wordIndex
    ensures forall i :: 0 <= i < |words| && Overlaps(words[i], startTime, endTime) ==>
      exists k :: 0 <= k < |WordsInRange(words, startTime, endTime)| && WordsInRange(words, startTime, endTime)[k].wordIndex == i
  {
    if words != [] {
      var init := words[..|words| - 1];
      WordsInRangeExact(init, startTime, endTime);
      var r0 := WordsInRange(init, startTime, endTime);
      var r := WordsInRange(words, startTime, endTime);
      forall k | 0 <= k < |r0| ensures r0[k].wordIndex < |init| && words[r0[k].wordIndex] == init[r0[k].wordIndex] {
      }
      forall i | 0 <= i < |words| && Overlaps(words[i], startTime, endTime)
        ensures exists k :: 0 <= k < |r| && r[k].wordIndex == i
      {
        if i < |init| {
          assert init[i] == words[i];
          var k :| 0 <= k < |r0| && r0[k].wordIndex == i;
          assert r[k] == r0[k];
        } else {
          assert r[|r| - 1].wordIndex == i;
        }
      }
    }
  }

  // ---------------------------------------------------------------- matching a segment

  predicate SegmentMatches(seg: TranscriptSegment, videoId: string, t: real)
  {
    seg.originalVideoId == Some(videoId) && seg.start <= t < seg.end
  }

  /** The index of the first segment from `from` on that belongs to the video and holds `t`. */
  function FindSegmentFrom(segs: seq<TranscriptSegment>, videoId: string, t: real, from: nat): (r: Option<nat>)
    requires from <= |segs|
    ensures r.Some? ==> from <= r.value < |segs| && SegmentMatches(segs[r.value], videoId, t)
    ensures r.Some? ==> forall j :: from <= j < r.value ==> !SegmentMatches(segs[j], videoId, t)
    ensures r.None? ==> forall j :: from <= j < |segs| ==> !SegmentMatches(segs[j], videoId, t)
    decreases |segs| - from
  {
    if from == |segs| then None
    else if SegmentMatches(segs[from], videoId, t) then Some(from)
    else FindSegmentFrom(segs, videoId, t, from + 1)
  }

  function FindSegment(segs: seq<TranscriptSegment>, videoId: string, t: real): Option<nat>
  {
    FindSegmentFrom(segs, videoId, t, 0)
  }

  // ---------------------------------------------------------------- events

  function Colored(rw: RangeWord, segmentIndex: nat, wordColors: map<string, string>, defaultColor: string): CaptionWord
  {
    CaptionWord(rw.text, rw.start, rw.end, rw.wordIndex, GetWordColor(segmentIndex, rw.wordIndex, wordColors, defaultColor))
  }

  function ColorAll(ws: seq<RangeWord>, segmentIndex: nat, wordColors: map<string, string>, defaultColor: string): (r: seq<CaptionWord>)
    ensures |r| == |ws|
  {
    if ws == [] then []
    else ColorAll(ws[..|ws| - 1], segmentIndex, wordColors, defaultColor) + [Colored(ws[|ws| - 1], segmentIndex, wordColors, defaultColor)]
  }

  /** The keys of the project dict that caption building reads. */
  datatype CaptionProject = CaptionProject(
    segments: seq<TranscriptSegment>,          // transcript.segments, [] when missing
    wordColors: map<string, string>,           // word_colors, {} when missing
    defaultColor: Option<string>)              // caption_style.default_color

  function DefaultColor(p: CaptionProject): string
  {
    p.defaultColor.GetOr("#ffffff")
  }

  /** A playable interval together with the clip it belongs to. */
  datatype ClipInterval = ClipInterval(clip: RenderClip, span: Span)

  function Tagged(c: RenderClip, spans: seq<Span>): (r: seq<ClipInterval>)
    ensures |r| == |spans|
  {
    if spans == [] then [] else Tagged(c, spans[..|spans| - 1]) + [ClipInterval(c, spans[|spans| - 1])]
  }

  /** Every playable interval of the timeline, clip after clip. */
  function IntervalsOf(timeline: seq<TimelineClip>): seq<ClipInterval>
  {
    if timeline == [] then []
    else IntervalsOf(timeline[..|timeline| - 1]) + Tagged(timeline[|timeline| - 1].clip, timeline[|timeline| - 1].playable)
  }

  datatype CaptionState = CaptionState(events: seq<CaptionEvent>, cursor: real)

  function MakeEvent(p: CaptionProject, idx: nat, ci: ClipInterval, cursor: real): CaptionEvent
    requires idx < |p.segments|
  {
    var seg := p.segments[idx];
    CaptionEvent(idx, ci.clip.clipId, ci.span.start, ci.span.end, cursor, cursor + (ci.span.end - ci.span.start),
      ColorAll(WordsInRange(seg.words, ci.span.start, ci.span.end), idx, p.wordColors, DefaultColor(p)),
      seg.text.GetOr(""))
  }

  /**
   * The events for a run of intervals and the output time after them. Events
   * are laid end to end from 0, and each lasts as long as its interval.
   */
  function CaptionPass(p: CaptionProject, intervals: seq<ClipInterval>): CaptionState
  {
    if intervals == [] then CaptionState([], 0.0)
    else CaptionStep(p, CaptionPass(p, intervals[..|intervals| - 1]), intervals[|intervals| - 1])
  }

  /** One interval: an event at the cursor and the cursor moved on, or nothing when no segment matches. */
  function CaptionStep(p: CaptionProject, st: CaptionState, ci: ClipInterval): CaptionState
  {
    var found := FindSegment(p.segments, ci.clip.videoId, ci.span.start);
    if found.None? then st
    else CaptionState(st.events + [MakeEvent(p, found.value, ci, st.cursor)], st.cursor + (ci.span.end - ci.span.start))
  }

  /** Events lie end to end from output time 0, and each lasts exactly as long as its interval (captions.py:70,103-114). */
  predicate Contiguous(st: CaptionState)
  {
    (st.events == [] ==> st.cursor == 0.0)
    && (st.events != [] ==> st.events[0].outputStart == 0.0 && st.events[|st.events| - 1].outputEnd == st.cursor)
    && (forall k :: 0 < k < |st.events| ==> st.events[k].outputStart == st.events[k - 1].outputEnd)
    && (forall k :: 0 <= k < |st.events| ==>
         st.events[k].outputEnd - st.events[k].outputStart == st.events[k].originalEnd - st.events[k].originalStart)
  }

  lemma {:induction false} CaptionPassContiguous(p: CaptionProject, intervals: seq<ClipInterval>)
    ensures Contiguous(CaptionPass(p, intervals))
    ensures |CaptionPass(p, intervals).events| <= |intervals|
  {
    if intervals != [] {
      var init := intervals[..|intervals| - 1];
      CaptionPassContiguous(p, init);
    }
  }

  function CaptionEvents(p: CaptionProject, timeline: seq<TimelineClip>): seq<CaptionEvent>
  {
    CaptionPass(p, IntervalsOf(timeline)).events
  }

  /** build_caption_events (captions.py:49-116). */
  method BuildCaptionEvents(p: CaptionProject, timeline: seq<TimelineClip>) returns (events: seq<CaptionEvent>)
    ensures events == CaptionEvents(p, timeline)
  {
    events := [];
    var outputTime := 0.0;
    var k := 0;
    while k < |timeline|
      invariant 0 <= k <= |timeline|
      invariant CaptionState(events, outputTime) == CaptionPass(p, IntervalsOf(timeline[..k]))
    {
      var item := timeline[k];
      var done := IntervalsOf(timeline[..k]);
      assert timeline[..k + 1][..k] == timeline[..k];
      assert IntervalsOf(timeline[..k + 1]) == done + Tagged(item.clip, item.playable);
      events, outputTime := CaptionClip(p, item.clip, item.playable, done, events, outputTime);
      k := k + 1;
    }
    assert timeline[..k] == timeline;
  }

  /** The loop over one clip's playable intervals in build_caption_events (captions.py:78-114). */
  method CaptionClip(p: CaptionProject, clip: RenderClip, playable: seq<Span>, done: seq<ClipInterval>,
                     events0: seq<CaptionEvent>, time0: real)
    returns (events: seq<CaptionEvent>, outputTime: real)
    requires CaptionState(events0, time0) == CaptionPass(p, done)
    ensures CaptionState(events, outputTime) == CaptionPass(p, done + Tagged(clip, playable))
  {
    events, outputTime := events0, time0;
    assert done + Tagged(clip, playable[..0]) == done;
    var i := 0;
    while i < |playable|
      invariant 0 <= i <= |playable|
      invariant CaptionState(events, outputTime) == CaptionPass(p, done + Tagged(clip, playable[..i]))
    {
      CaptionPassStep(p, done, clip, playable, i);
      events, outputTime := CaptionInterval(p, ClipInterval(clip, playable[i]), events, outputTime);
      i := i + 1;
    }
    assert playable[..i] == playable;
  }

  lemma CaptionPassStep(p: CaptionProject, done: seq<ClipInterval>, clip: RenderClip, playable: seq<Span>, i: nat)
    requires i < |playable|
    ensures CaptionPass(p, done + Tagged(clip, playable[..i + 1]))
         == CaptionStep(p, CaptionPass(p, done + Tagged(clip, playable[..i])), ClipInterval(clip, playable[i]))
  {
    assert playable[..i + 1][..i] == playable[..i];
    var before := done + Tagged(clip, playable[..i]);
    assert done + Tagged(clip, playable[..i + 1]) == before + [ClipInterval(clip, playable[i])];
    assert (before + [ClipInterval(clip, playable[i])])[..|before|] == before;
  }

  /** The body of the interval loop in build_caption_events: match, collect, colour, emit (captions.py:79-114). */
  method CaptionInterval(p: CaptionProject, ci: ClipInterval, events0: seq<CaptionEvent>, time0: real)
    returns (events: seq<CaptionEvent>, outputTime: real)
    ensures CaptionState(events, outputTime) == CaptionStep(p, CaptionState(events0, time0), ci)
  {
    events, outputTime := events0, time0;
    var span := ci.span;
    var segDuration := span.end - span.start;
    var matching := FindMatchingSegment(p.segments, ci.clip.videoId, span.start);
    if matching.Some? {
      var segmentIndex := matching.value;
      var matchingSegment := p.segments[segmentIndex];
      var words := GetWordsInRange(matchingSegment, span.start, span.end);
      var colored := ColorWords(words, segmentIndex, p.wordColors, p.defaultColor.GetOr("#ffffff"));
      var event := CaptionEvent(segmentIndex, ci.clip.clipId, span.start, span.end,
        outputTime, outputTime + segDuration, colored, matchingSegment.text.GetOr(""));
      events := events + [event];
      outputTime := outputTime + segDuration;
    }
  }

  /** The search loop of build_caption_events (captions.py:81-88). */
  method FindMatchingSegment(segments: seq<TranscriptSegment>, videoId: string, t: real) returns (matching: Option<nat>)
    ensures matching == FindSegment(segments, videoId, t)
  {
    matching := None;
    var idx := 0;
    while idx < |segments|
      invariant 0 <= idx <= |segments|
      invariant FindSegment(segments, videoId, t) == FindSegmentFrom(segments, videoId, t, idx)
    {
      var seg := segments[idx];
      if seg.originalVideoId == Some(videoId) && seg.start <= t < seg.end {
        matching := Some(idx);
        return;
      }
      idx := idx + 1;
    }
  }

  /** The colouring loop of build_caption_events (captions.py:95-101). */
  method ColorWords(words: seq<RangeWord>, segmentIndex: nat, wordColors: map<string, string>, defaultColor: string)
    returns (colored: seq<CaptionWord>)
    ensures colored == ColorAll(words, segmentIndex, wordColors, defaultColor)
  {
    colored := [];
    var w := 0;
    while w < |words|
      invariant 0 <= w <= |words|
      invariant colored == ColorAll(words[..w], segmentIndex, wordColors, defaultColor)
    {
      assert words[..w + 1][..w] == words[..w];
      colored := colored + [Colored(words[w], segmentIndex, wordColors, defaultColor)];
      w := w + 1;
    }
    assert words[..w] == words;
  }

  /**
   * Each event comes from the first transcript segment of the clip's video
   * that holds the interval start; an interval without one yields no event
   * and does not move the cursor (captions.py:81-91).
   */
  lemma {:induction false} CaptionPassSkips(p: CaptionProject, intervals: seq<ClipInterval>, ci: ClipInterval)
    requires FindSegment(p.segments, ci.clip.videoId, ci.span.start).None?
    ensures CaptionPass(p, intervals + [ci]) == CaptionPass(p, intervals)
  {
    assert (intervals + [ci])[..|intervals|] == intervals;
  }

  lemma {:induction false} CaptionPassMatches(p: CaptionProject, intervals: seq<ClipInterval>, ci: ClipInterval, idx: nat)
    requires idx < |p.segments| && SegmentMatches(p.segments[idx], ci.clip.videoId, ci.span.start)
    requires forall j :: 0 <= j < idx ==> !SegmentMatches(p.segments[j], ci.clip.videoId, ci.span.start)
    ensures CaptionPass(p, intervals + [ci]).events
         == CaptionPass(p, intervals).events + [MakeEvent(p, idx, ci, CaptionPass(p, intervals).cursor)]
  {
    assert (intervals + [ci])[..|intervals|] == intervals;
    var found := FindSegment(p.segments, ci.clip.videoId, ci.span.start);
    assert found.Some?;
    assert found.value == idx;
  }

  // ---------------------------------------------------------------- grouping words on screen

  datatype WordGroup = WordGroup(words: seq<CaptionWord>, start: real, end: real)

  function CaptionStart(w: CaptionWord): real { w.start }

  function Max(a: real, b: real): real { if a >= b then a else b }

  /** The greatest end among non-empty words. */
  function MaxEnd(ws: seq<CaptionWord>): real
    requires ws != []
  {
    if |ws| == 1 then ws[0].end else Max(MaxEnd(ws[..|ws| - 1]), ws[|ws| - 1].end)
  }

  /** The groups so far and the open group, after the words of a start-sorted prefix. */
  datatype GroupState = GroupState(groups: seq<WordGroup>, current: WordGroup)

  function GroupPass(words: seq<CaptionWord>, minGap: real): GroupState
    requires words != []
  {
    if |words| == 1 then GroupState([], WordGroup([words[0]], words[0].start, words[0].end))
    else
      var st := GroupPass(words[..|words| - 1], minGap);
      var w := words[|words| - 1];
      if w.start - st.current.end < minGap then
        GroupState(st.groups, WordGroup(st.current.words + [w], st.current.start, Max(st.current.end, w.end)))
      else
        GroupState(st.groups + [st.current], WordGroup([w], w.start, w.end))
  }

  function GroupWords(words: seq<CaptionWord>, minGap: real): seq<WordGroup>
  {
    if words == [] then []
    else
      var st := GroupPass(SortBy(words, CaptionStart), minGap);
      st.groups + [st.current]
  }

  /** group_words_by_time (captions.py:119-154). */
  method GroupWordsByTime(words: seq<CaptionWord>, minGap: real) returns (groups: seq<WordGroup>)
    ensures groups == GroupWords(words, minGap)
  {
    if words == [] {
      return [];
    }
    var sorted := SortBy(words, CaptionStart);
    groups := [];
    var current := WordGroup([sorted[0]], sorted[0].start, sorted[0].end);
    var i := 1;
    while i < |sorted|
      invariant 1 <= i <= |sorted|
      invariant GroupState(groups, current) == GroupPass(sorted[..i], minGap)
    {
      var word := sorted[i];
      assert sorted[..i + 1][..i] == sorted[..i];
      if word.start - current.end < minGap {
        current := current.(words := current.words + [word], end := Max(current.end, word.end));
      } else {
        groups := groups + [current];
        current := WordGroup([word], word.start, word.end);
      }
      i := i + 1;
    }
    assert sorted[..i] == sorted;
    groups := groups + [current];
  }

  function Flatten(groups: seq<WordGroup>): seq<CaptionWord>
  {
    if groups == [] then [] else Flatten(groups[..|groups| - 1]) + groups[|groups| - 1].words
  }

  lemma {:induction false} FlattenAppend(a: seq<WordGroup>, g: WordGroup)
    ensures Flatten(a + [g]) == Flatten(a) + g.words
  {
    assert (a + [g])[..|a|] == a;
  }

  /** Every group holds a run of words: its start is its first word's, its end the greatest end so far. */
  predicate GoodGroup(g: WordGroup, minGap: real)
  {
    g.words != [] && g.start == g.words[0].start && g.end == MaxEnd(g.words)
    && forall j :: 0 < j < |g.words| ==> g.words[j].start - MaxEnd(g.words[..j]) < minGap
  }

  /** Each group after the first starts at least `min_gap` after the previous group's end. */
  predicate Separated(gs: seq<WordGroup>, minGap: real)
  {
    forall k :: 0 < k < |gs| ==> gs[k].words != [] && gs[k].words[0].start - gs[k - 1].end >= minGap
  }

  lemma {:induction false} GroupPassPartition(words: seq<CaptionWord>, minGap: real)
    requires words != []
    ensures Flatten(GroupPass(words, minGap).groups) + GroupPass(words, minGap).current.words == words
  {
    if |words| > 1 {
      var init, w := words[..|words| - 1], words[|words| - 1];
      GroupPassPartition(init, minGap);
      var st := GroupPass(init, minGap);
      assert words == init + [w];
      if w.start - st.current.end < minGap {
        assert Flatten(st.groups) + (st.current.words + [w]) == (Flatten(st.groups) + st.current.words) + [w];
      } else {
        FlattenAppend(st.groups, st.current);
      }
    }
  }

  /** A word that starts within `min_gap` of a good group's end extends it to a good group. */
  lemma GoodExtend(cur: WordGroup, w: CaptionWord, minGap: real)
    requires GoodGroup(cur, minGap) && w.start - cur.end < minGap
    ensures GoodGroup(WordGroup(cur.words + [w], cur.start, Max(cur.end, w.end)), minGap)
  {
    var ws := cur.words + [w];
    assert ws[..|cur.words|] == cur.words;
    forall j | 0 < j < |ws| ensures ws[j].start - MaxEnd(ws[..j]) < minGap {
      if j < |cur.words| {
        assert ws[..j] == cur.words[..j];
      }
    }
  }

  lemma {:induction false} GroupPassGood(words: seq<CaptionWord>, minGap: real)
    requires words != []
    ensures GoodGroup(GroupPass(words, minGap).current, minGap)
    ensures forall k :: 0 <= k < |GroupPass(words, minGap).groups| ==> GoodGroup(GroupPass(words, minGap).groups[k], minGap)
  {
    if |words| > 1 {
      var init, w := words[..|words| - 1], words[|words| - 1];
      GroupPassGood(init, minGap);
      var st := GroupPass(init, minGap);
      if w.start - st.current.end < minGap {
        GoodExtend(st.current, w, minGap);
      } else {
        assert GoodGroup(WordGroup([w], w.start, w.end), minGap);
      }
    }
  }

  lemma {:induction false} GroupPassSeparated(words: seq<CaptionWord>, minGap: real)
    requires words != []
    ensures Separated(GroupPass(words, minGap).groups + [GroupPass(words, minGap).current], minGap)
  {
    if |words| == 1 {
      assert GroupPass(words, minGap).groups == [];
    } else {
      var init, w := words[..|words| - 1], words[|words| - 1];
      GroupPassSeparated(init, minGap);
      var st := GroupPass(init, minGap);
      var gs0 := st.groups + [st.current];
      if w.start - st.current.end < minGap {
        var gs := st.groups + [WordGroup(st.current.words + [w], st.current.start, Max(st.current.end, w.end))];
        GroupPassGood(init, minGap);
        forall k | 0 < k < |gs| ensures gs[k].words != [] && gs[k].words[0].start - gs[k - 1].end >= minGap {
          if k < |gs| - 1 {
            assert gs[k] == gs0[k] && gs[k - 1] == gs0[k - 1];
          } else {
            assert gs[k - 1] == gs0[k - 1];
            assert gs[k].words[0] == gs0[k].words[0];
          }
        }
      } else {
        var gs := gs0 + [WordGroup([w], w.start, w.end)];
        forall k | 0 < k < |gs| ensures gs[k].words != [] && gs[k].words[0].start - gs[k - 1].end >= minGap {
          if k < |gs0| {
            assert gs[k] == gs0[k] && gs[k - 1] == gs0[k - 1];
          }
        }
      }
    }
  }

  /**
   * The groups partition the start-sorted words in order; a word joins the
   * open group exactly when it starts less than `min_gap` after the group's
   * end so far, and a group's end is the greatest end of its words
   * (captions.py:130-154).
   */
  lemma GroupWordsFacts(words: seq<CaptionWord>, minGap: real)
    ensures words == [] ==> GroupWords(words, minGap) == []
    ensures Flatten(GroupWords(words, minGap)) == SortBy(words, CaptionStart)
    ensures forall k :: 0 <= k < |GroupWords(words, minGap)| ==> GoodGroup(GroupWords(words, minGap)[k], minGap)
    ensures Separated(GroupWords(words, minGap), minGap)
  {
    if words != [] {
      var sorted := SortBy(words, CaptionStart);
      GroupPassPartition(sorted, minGap);
      GroupPassGood(sorted, minGap);
      GroupPassSeparated(sorted, minGap);
      var st := GroupPass(sorted, minGap);
      FlattenAppend(st.groups, st.current);
      var gs := st.groups + [st.current];
      forall k | 0 <= k < |gs| ensures GoodGroup(gs[k], minGap) {
        if k < |st.groups| {
          assert gs[k] == st.groups[k];
        }
      }
    }
  }
}
