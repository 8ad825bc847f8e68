/**
 * `combine_transcripts` (tools/01-transcribe/transcribe.py:178-239): several
 * per-video transcripts become one, laid end to end.  Transcript k starts at
 * the sum of the durations before it; every segment and word time is shifted
 * by that offset and the segments are renumbered 0, 1, 2, ... across all
 * transcripts.  Writing the JSON file is not modelled; the method returns the
 * document it would write.
 */
module Transcribe {
  import opened Wrappers
  import Seqs

  datatype InWord = InWord(text: string, start: real, end: real)

  /** One segment of a per-video transcript; `words` is absent in some transcripts. */
  datatype InSegment = InSegment(id: int, text: string, start: real, end: real, words: Option<seq<InWord>>)

  datatype InTranscript = InTranscript(videoId: string, duration: real, segments: seq<InSegment>, language: Option<string>)

  datatype OutWord = OutWord(text: string, start: real, end: real)

  datatype OutSegment = OutSegment(id: nat, originalId: int, originalVideoId: string, text: string,
                                   start: real, end: real, words: seq<OutWord>)

  /** Where one video's transcript sits in the combined timeline. */
  datatype Source = Source(videoId: string, start: real, end: real, duration: real)

  datatype Combined = Combined(videoId: string, language: string, duration: real, sources: seq<Source>, segments: seq<OutSegment>)

  /** `zip` pairs transcripts with video paths and stops at the shorter list. */
  function Paired(transcripts: seq<InTranscript>, videoPaths: seq<string>): (n: nat)
    ensures n <= |transcripts| && n <= |videoPaths|
    ensures n == |transcripts| || n == |videoPaths|
  {
    if |transcripts| <= |videoPaths| then |transcripts| else |videoPaths|
  }

  /** The start of transcript k: the durations of transcripts 0..k-1 added up. */
  function Offset(ts: seq<InTranscript>, k: nat): real
    requires k <= |ts|
  {
    if k == 0 then 0.0 else Offset(ts, k - 1) + ts[k - 1].duration
  }

  /** The number of segments in transcripts 0..k-1. */
  function Count(ts: seq<InTranscript>, k: nat): nat
    requires k <= |ts|
  {
    if k == 0 then 0 else Count(ts, k - 1) + |ts[k - 1].segments|
  }

  /** `[{"text", "start" + offset, "end" + offset} for w in words]`. */
  function ShiftWords(words: seq<InWord>, offset: real): (r: seq<OutWord>)
    ensures |r| == |words|
    ensures forall i :: 0 <= i < |words| ==>
      r[i] == OutWord(words[i].text, words[i].start + offset, words[i].end + offset)
  {
    if words == [] then []
    else
      var w := words[|words| - 1];
      ShiftWords(words[..|words| - 1], offset) + [OutWord(w.text, w.start + offset, w.end + offset)]
  }

  /** One adjusted segment: numbered `id`, tagged with its video, times shifted by `offset`. */
  function ShiftSegment(seg: InSegment, id: nat, videoId: string, offset: real): OutSegment
  {
    OutSegment(id, seg.id, videoId, seg.text, seg.start + offset, seg.end + offset,
               ShiftWords(seg.words.GetOr([]), offset))
  }

  /** A transcript's segments adjusted, numbered from `first`. */
  function Shifted(segs: seq<InSegment>, videoId: string, offset: real, first: nat): (r: seq<OutSegment>)
    ensures |r| == |segs|
    ensures forall i :: 0 <= i < |segs| ==> r[i] == ShiftSegment(segs[i], first + i, videoId, offset)
  {
    if segs == [] then []
    else
      var n := |segs| - 1;
      Shifted(segs[..n], videoId, offset, first) + [ShiftSegment(segs[n], first + n, videoId, offset)]
  }

  /** The combined segments of transcripts 0..k-1. */
  function Segments(ts: seq<InTranscript>, k: nat): seq<OutSegment>
    requires k <= |ts|
  {
    if k == 0 then []
    else Segments(ts, k - 1) + Shifted(ts[k - 1].segments, ts[k - 1].videoId, Offset(ts, k - 1), Count(ts, k - 1))
  }

  function SourceOf(ts: seq<InTranscript>, k: nat): Source
    requires k < |ts|
  {
    Source(ts[k].videoId, Offset(ts, k), Offset(ts, k) + ts[k].duration, ts[k].duration)
  }

  /** The sources of transcripts 0..k-1. */
  function Sources(ts: seq<InTranscript>, k: nat): seq<Source>
    requires k <= |ts|
  {
    if k == 0 then [] else Sources(ts, k - 1) + [SourceOf(ts, k - 1)]
  }

  /** The language of the first transcript, "en" when it has none or there are no transcripts. */
  function Language(ts: seq<InTranscript>): (r: string)
    ensures |ts| == 0 ==> r == "en"
    ensures |ts| > 0 && ts[0].language.Some? ==> r == ts[0].language.value
    ensures |ts| > 0 && ts[0].language.None? ==> r == "en"
  {
    if |ts| > 0 then ts[0].language.GetOr("en") else "en"
  }

  /** The document `combine_transcripts` writes. */
  function Combine(ts: seq<InTranscript>, videoPaths: seq<string>): Combined
  {
    var n := Paired(ts, videoPaths);
    Combined("combined", Language(ts), Offset(ts, n), Sources(ts, n), Segments(ts, n))
  }

  /** The inner loop over one transcript's segments (transcribe.py:202-220). */
  method AppendShifted(combined: seq<OutSegment>, t: InTranscript, offset: real, counter: nat)
    returns (r: seq<OutSegment>, next: nat)
    ensures r == combined + Shifted(t.segments, t.videoId, offset, counter)
    ensures next == counter + |t.segments|
  {
    r := combined;
    next := counter;
    for j := 0 to |t.segments|
      invariant r == combined + Shifted(t.segments[..j], t.videoId, offset, counter)
      invariant next == counter + j
    {
      var seg := t.segments[j];
      var words := ShiftWords(seg.words.GetOr([]), offset);
      var adjusted := OutSegment(next, seg.id, t.videoId, seg.text, seg.start + offset, seg.end + offset, words);
      assert adjusted == ShiftSegment(seg, counter + j, t.videoId, offset);
      ShiftedSnoc(combined, t.segments, j, t.videoId, offset, counter);
      r := r + [adjusted];
      next := next + 1;
    }
    assert t.segments[..|t.segments|] == t.segments;
  }

  lemma ShiftedSnoc(combined: seq<OutSegment>, segs: seq<InSegment>, j: nat, videoId: string, offset: real, first: nat)
    requires j < |segs|
    ensures combined + Shifted(segs[..j + 1], videoId, offset, first)
         == (combined + Shifted(segs[..j], videoId, offset, first)) + [ShiftSegment(segs[j], first + j, videoId, offset)]
  {
    assert segs[..j + 1][..j] == segs[..j];
  }

  /** `combine_transcripts` without the file write (transcribe.py:178-230). */
  method CombineTranscripts(transcripts: seq<InTranscript>, videoPaths: seq<string>) returns (c: Combined)
    ensures c == Combine(transcripts, videoPaths)
  {
    var n := Paired(transcripts, videoPaths);
    var combinedSegments: seq<OutSegment> := [];
    var sources: seq<Source> := [];
    var currentOffset := 0.0;
    var segmentCounter := 0;
    for k := 0 to n
      invariant combinedSegments == Segments(transcripts, k)
      invariant sources == Sources(transcripts, k)
      invariant currentOffset == Offset(transcripts, k)
      invariant segmentCounter == Count(transcripts, k)
    {
      var t := transcripts[k];
      sources := sources + [Source(t.videoId, currentOffset, currentOffset + t.duration, t.duration)];
      combinedSegments, segmentCounter := AppendShifted(combinedSegments, t, currentOffset, segmentCounter);
      currentOffset := currentOffset + t.duration;
    }
    var language := if |transcripts| > 0 then transcripts[0].language.GetOr("en") else "en";
    c := Combined("combined", language, currentOffset, sources, combinedSegments);
  }

  // ---------------------------------------------------------------- properties

  lemma {:induction false} SourcesShape(ts: seq<InTranscript>, k: nat)
    requires k <= |ts|
    ensures |Sources(ts, k)| == k
    ensures forall i :: 0 <= i < k ==> Sources(ts, k)[i] == SourceOf(ts, i)
  {
    if k > 0 {
      SourcesShape(ts, k - 1);
    }
  }

  /**
   * One source per paired transcript; the first starts at 0, each starts where the
   * previous ended and lasts its transcript's duration, and the total duration is
   * where the last one ends.
   */
  lemma SourcesContiguous(ts: seq<InTranscript>, videoPaths: seq<string>)
    ensures var c := Combine(ts, videoPaths);
      && |c.sources| == Paired(ts, videoPaths)
      && (|c.sources| > 0 ==> c.sources[0].start == 0.0)
      && (forall i :: 0 <= i < |c.sources| ==>
            c.sources[i].videoId == ts[i].videoId && c.sources[i].duration == ts[i].duration
            && c.sources[i].end == c.sources[i].start + ts[i].duration)
      && (forall i :: 0 < i < |c.sources| ==> c.sources[i].start == c.sources[i - 1].end)
      && (|c.sources| > 0 ==> c.duration == c.sources[|c.sources| - 1].end)
      && (|c.sources| == 0 ==> c.duration == 0.0)
  {
    var n := Paired(ts, videoPaths);
    SourcesShape(ts, n);
  }

  /** The combined duration is the sum of the paired transcripts' durations. */
  lemma {:induction false} DurationIsSum(ts: seq<InTranscript>, k: nat, total: real)
    requires k <= |ts|
    requires total == SumDurations(ts[..k])
    ensures Offset(ts, k) == total
  {
    if k > 0 {
      assert ts[..k][..k - 1] == ts[..k - 1];
      DurationIsSum(ts, k - 1, SumDurations(ts[..k - 1]));
    }
  }

  /** `sum(t["duration"] for t in ts)`, added from the front as Python's `sum` does. */
  function SumDurations(ts: seq<InTranscript>): real
  {
    if ts == [] then 0.0 else SumDurations(ts[..|ts| - 1]) + ts[|ts| - 1].duration
  }

  lemma {:induction false} CountMonotone(ts: seq<InTranscript>, i: nat, k: nat)
    requires i < k <= |ts|
    ensures Count(ts, i) + |ts[i].segments| <= Count(ts, k)
  {
    if i < k - 1 {
      CountMonotone(ts, i, k - 1);
    }
  }

  lemma {:induction false} SegmentsLength(ts: seq<InTranscript>, k: nat)
    requires k <= |ts|
    ensures |Segments(ts, k)| == Count(ts, k)
  {
    if k > 0 {
      SegmentsLength(ts, k - 1);
    }
  }

  /**
   * Transcript i's segment j sits at position Count(ts, i) + j of `segs`, is numbered
   * by that position, keeps its original id, text and video, and has its segment and
   * word times shifted by Offset(ts, i).
   */
  predicate Placed(ts: seq<InTranscript>, i: nat, j: nat, segs: seq<OutSegment>)
    requires i < |ts| && j < |ts[i].segments|
  {
    Count(ts, i) + j < |segs| &&
    segs[Count(ts, i) + j] == ShiftSegment(ts[i].segments[j], Count(ts, i) + j, ts[i].videoId, Offset(ts, i))
  }

  lemma {:induction false} SegmentAt(ts: seq<InTranscript>, k: nat, i: nat, j: nat)
    requires i < k <= |ts| && j < |ts[i].segments|
    ensures Placed(ts, i, j, Segments(ts, k))
  {
    if i + 1 < k {
      SegmentAt(ts, k - 1, i, j);
      PlacedExtends(ts, k, i, j);
    } else {
      PlacedLast(ts, k, j);
      assert i + 1 == k;
    }
  }

  /** A segment placed among transcripts 0..k-2 stays placed once transcript k-1 is appended. */
  lemma PlacedExtends(ts: seq<InTranscript>, k: nat, i: nat, j: nat)
    requires i < k - 1 && k <= |ts| && j < |ts[i].segments|
    requires Placed(ts, i, j, Segments(ts, k - 1))
    ensures Placed(ts, i, j, Segments(ts, k))
  {
    var prev := Segments(ts, k - 1);
    var tail := Shifted(ts[k - 1].segments, ts[k - 1].videoId, Offset(ts, k - 1), Count(ts, k - 1));
    assert Segments(ts, k) == prev + tail;
    assert (prev + tail)[Count(ts, i) + j] == prev[Count(ts, i) + j];
  }

  /** Transcript k-1's segments are the last ones placed among transcripts 0..k-1. */
  lemma PlacedLast(ts: seq<InTranscript>, k: nat, j: nat)
    requires 0 < k <= |ts| && j < |ts[k - 1].segments|
    ensures Placed(ts, k - 1, j, Segments(ts, k))
  {
    var i := k - 1;
    SegmentsLength(ts, i);
    var tail := Shifted(ts[i].segments, ts[i].videoId, Offset(ts, i), Count(ts, i));
    assert Segments(ts, k) == Segments(ts, i) + tail;
    assert tail[j] == ShiftSegment(ts[i].segments[j], Count(ts, i) + j, ts[i].videoId, Offset(ts, i));
  }

  /** Every segment id equals its position. */
  lemma {:induction false} IdAt(ts: seq<InTranscript>, k: nat, p: nat)
    requires k <= |ts| && p < |Segments(ts, k)|
    ensures Segments(ts, k)[p].id == p
  {
    var prev := Segments(ts, k - 1);
    if p < |prev| {
      IdAt(ts, k - 1, p);
    } else {
      SegmentsLength(ts, k - 1);
      assert Segments(ts, k) == prev + Shifted(ts[k - 1].segments, ts[k - 1].videoId, Offset(ts, k - 1), Count(ts, k - 1));
    }
  }

  /** Transcript i's segment j, for each of the first n transcripts, sits shifted at position Count(ts, i) + j. */
  predicate LaidOut(ts: seq<InTranscript>, n: nat, segs: seq<OutSegment>)
    requires n <= |ts|
  {
    forall i, j :: 0 <= i < n && 0 <= j < |ts[i].segments| ==> Placed(ts, i, j, segs)
  }

  /**
   * The combined segments are numbered 0..N-1, N being the paired transcripts'
   * segment count, and each is its transcript's segment shifted by its offset.
   */
  lemma CombinedSegments(ts: seq<InTranscript>, videoPaths: seq<string>)
    ensures var c := Combine(ts, videoPaths);
      && |c.segments| == Count(ts, Paired(ts, videoPaths))
      && (forall p :: 0 <= p < |c.segments| ==> c.segments[p].id == p)
      && LaidOut(ts, Paired(ts, videoPaths), c.segments)
  {
    var n := Paired(ts, videoPaths);
    assert Combine(ts, videoPaths).segments == Segments(ts, n);
    SegmentsLength(ts, n);
    SegmentsNumbered(ts, n);
    SegmentsLaidOut(ts, n);
  }

  lemma SegmentsNumbered(ts: seq<InTranscript>, k: nat)
    requires k <= |ts|
    ensures forall p :: 0 <= p < |Segments(ts, k)| ==> Segments(ts, k)[p].id == p
  {
    forall p | 0 <= p < |Segments(ts, k)| ensures Segments(ts, k)[p].id == p {
      IdAt(ts, k, p);
    }
  }

  lemma SegmentsLaidOut(ts: seq<InTranscript>, k: nat)
    requires k <= |ts|
    ensures LaidOut(ts, k, Segments(ts, k))
  {
    forall i, j | 0 <= i < k && 0 <= j < |ts[i].segments| ensures Placed(ts, i, j, Segments(ts, k)) {
      SegmentAt(ts, k, i, j);
    }
  }

  lemma {:induction false} OffsetMonotone(ts: seq<InTranscript>, i: nat, k: nat)
    requires i <= k <= |ts|
    requires forall t :: 0 <= t < |ts| ==> ts[t].duration >= 0.0
    ensures Offset(ts, i) <= Offset(ts, k)
    decreases k - i
  {
    if i < k {
      OffsetMonotone(ts, i, k - 1);
    }
  }

  /** A segment lying within [0, duration] of its own video. */
  predicate WithinVideo(seg: InSegment, duration: real)
  {
    0.0 <= seg.start <= seg.end <= duration
  }

  predicate Ordered(ts: seq<InTranscript>)
  {
    && (forall t :: 0 <= t < |ts| ==> ts[t].duration >= 0.0)
    && (forall t, j :: 0 <= t < |ts| && 0 <= j < |ts[t].segments| ==> WithinVideo(ts[t].segments[j], ts[t].duration))
  }

  /**
   * When durations are non-negative and every segment lies within its own video,
   * each combined segment lies within its source's [start, end], and a segment of
   * an earlier transcript ends no later than one of a later transcript starts.
   */
  lemma {:induction false} SegmentsWithinSources(ts: seq<InTranscript>, k: nat, i: nat, j: nat)
    requires Ordered(ts)
    requires i < k <= |ts| && j < |ts[i].segments|
    ensures Count(ts, i) + j < |Segments(ts, k)|
    ensures var seg := Segments(ts, k)[Count(ts, i) + j];
      SourceOf(ts, i).start <= seg.start <= seg.end <= SourceOf(ts, i).end
  {
    SegmentAt(ts, k, i, j);
    assert Placed(ts, i, j, Segments(ts, k));
    assert WithinVideo(ts[i].segments[j], ts[i].duration);
  }

  /** Segments of an earlier transcript end no later than those of a later one start. */
  lemma SegmentsInOrder(ts: seq<InTranscript>, k: nat, i: nat, j: nat, i': nat, j': nat)
    requires Ordered(ts)
    requires i < i' < k <= |ts| && j < |ts[i].segments| && j' < |ts[i'].segments|
    ensures Count(ts, i) + j < Count(ts, i') + j' < |Segments(ts, k)|
    ensures Segments(ts, k)[Count(ts, i) + j].end <= Segments(ts, k)[Count(ts, i') + j'].start
  {
    SegmentsWithinSources(ts, k, i, j);
    SegmentsWithinSources(ts, k, i', j');
    CountMonotone(ts, i, i');
    OffsetMonotone(ts, i + 1, i');
  }
}
