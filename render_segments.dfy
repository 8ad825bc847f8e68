/**
 * Playable intervals of a clip and the timeline built from them
 * (tools/05b-render/segments.py). An interval `(start, end)` stands for the
 * half-open set of source times `start <= t < end`; a deleted region is cut
 * out of every interval it meets.
 */
module RenderSegments {
  import opened Wrappers
  import opened Sorting

  datatype Span = Span(start: real, end: real)

  /** The keys of a clip dict that the renderer reads; `None` is a missing key. */
  datatype RenderClip = RenderClip(
    clipId: string,                // id, '' when missing
    videoId: string,               // selected_segment.original_video_id, '' when missing
    trimStart: Option<real>,
    trimEnd: Option<real>,
    selectedStart: Option<real>,   // selected_segment.start
    selectedEnd: Option<real>,     // selected_segment.end
    deletedRegions: seq<Span>,     // a missing list reads as []
    enabled: Option<bool>,
    inTimeline: Option<bool>,
    timelinePosition: Option<real>)

  datatype TimelineClip = TimelineClip(clip: RenderClip, playable: seq<Span>, position: real)

  predicate InSpan(s: Span, t: real)
  {
    s.start <= t < s.end
  }

  /** Some interval of `segs` holds time `t`. */
  predicate Covered(segs: seq<Span>, t: real)
  {
    exists i :: 0 <= i < |segs| && InSpan(segs[i], t)
  }

  /** `trim_start`, else `selected_segment.start`, else 0. */
  function TrimStart(c: RenderClip): real
  {
    c.trimStart.GetOr(c.selectedStart.GetOr(0.0))
  }

  function TrimEnd(c: RenderClip): real
  {
    c.trimEnd.GetOr(c.selectedEnd.GetOr(0.0))
  }

  function SpanStart(s: Span): real { s.start }

  // ---------------------------------------------------------------- specification

  /** What one deleted region leaves of one interval (segments.py:24-32). */
  function SubtractPiece(seg: Span, d: Span): (r: seq<Span>)
    ensures forall i :: 0 <= i < |r| ==> seg.start <= r[i].start && r[i].end <= seg.end
  {
    if d.end <= seg.start || d.start >= seg.end then [seg]
    else if d.start <= seg.start && d.end >= seg.end then []
    else
      (if d.start > seg.start then [Span(seg.start, d.start)] else [])
      + (if d.end < seg.end then [Span(d.end, seg.end)] else [])
  }

  /** The pieces hold exactly the times of `seg` outside `d`. */
  lemma SubtractPieceCovers(seg: Span, d: Span, t: real)
    ensures Covered(SubtractPiece(seg, d), t) <==> InSpan(seg, t) && !InSpan(d, t)
  {
    var r := SubtractPiece(seg, d);
    if InSpan(seg, t) && !InSpan(d, t) {
      if d.end <= seg.start || d.start >= seg.end {
        assert InSpan(r[0], t);
      } else if t < d.start {
        assert InSpan(r[0], t);
      } else {
        assert InSpan(r[|r| - 1], t);
      }
    }
  }

  /** One pass of the outer loop: every interval in order, each replaced by what `d` leaves of it. */
  function SubtractOne(segs: seq<Span>, d: Span): seq<Span>
  {
    if segs == [] then []
    else SubtractOne(segs[..|segs| - 1], d) + SubtractPiece(segs[|segs| - 1], d)
  }

  /** The deleted regions applied one after another, in the order given. */
  function SubtractAll(segs: seq<Span>, dels: seq<Span>): seq<Span>
  {
    if dels == [] then segs
    else SubtractOne(SubtractAll(segs, dels[..|dels| - 1]), dels[|dels| - 1])
  }

  /** The playable intervals of a clip: the trim range minus its deleted regions taken by start. */
  function Playable(c: RenderClip): seq<Span>
  {
    SubtractAll([Span(TrimStart(c), TrimEnd(c))], SortBy(c.deletedRegions, SpanStart))
  }

  // ---------------------------------------------------------------- the loops

  /** get_playable_segments (segments.py:7-36). */
  method GetPlayableSegments(c: RenderClip) returns (segments: seq<Span>)
    ensures segments == Playable(c)
  {
    var deleted := SortBy(c.deletedRegions, SpanStart);
    var init := [Span(TrimStart(c), TrimEnd(c))];
    segments := init;
    var j := 0;
    while j < |deleted|
      invariant 0 <= j <= |deleted|
      invariant segments == SubtractAll(init, deleted[..j])
    {
      assert deleted[..j + 1][..j] == deleted[..j];
      segments := SubtractRegion(segments, deleted[j]);
      j := j + 1;
    }
    assert deleted[..j] == deleted;
  }

  /** The inner loop of get_playable_segments: one deleted region cut out of every interval (segments.py:19-34). */
  method SubtractRegion(segments: seq<Span>, d: Span) returns (newSegments: seq<Span>)
    ensures newSegments == SubtractOne(segments, d)
  {
    newSegments := [];
    var i := 0;
    while i < |segments|
      invariant 0 <= i <= |segments|
      invariant newSegments == SubtractOne(segments[..i], d)
    {
      var seg := segments[i];
      assert segments[..i + 1][..i] == segments[..i];
      assert SubtractOne(segments[..i + 1], d) == newSegments + SubtractPiece(seg, d);
      if d.end <= seg.start || d.start >= seg.end {
        newSegments := newSegments + [seg];
      } else if d.start <= seg.start && d.end >= seg.end {
      } else {
        if d.start > seg.start {
          newSegments := newSegments + [Span(seg.start, d.start)];
        }
        if d.end < seg.end {
          newSegments := newSegments + [Span(d.end, seg.end)];
        }
      }
      i := i + 1;
    }
    assert segments[..i] == segments;
  }

  // ---------------------------------------------------------------- what the intervals cover

  lemma CoveredAppend(a: seq<Span>, b: seq<Span>, t: real)
    ensures Covered(a + b, t) <==> Covered(a, t) || Covered(b, t)
  {
    if Covered(a + b, t) {
      var i :| 0 <= i < |a + b| && InSpan((a + b)[i], t);
      if i >= |a| {
        assert InSpan(b[i - |a|], t);
      }
    }
    if Covered(a, t) {
      var i :| 0 <= i < |a| && InSpan(a[i], t);
      assert (a + b)[i] == a[i];
    }
    if Covered(b, t) {
      var i :| 0 <= i < |b| && InSpan(b[i], t);
      assert (a + b)[|a| + i] == b[i];
    }
  }

  lemma {:induction false} SubtractOneCovers(segs: seq<Span>, d: Span, t: real)
    ensures Covered(SubtractOne(segs, d), t) <==> Covered(segs, t) && !InSpan(d, t)
  {
    if segs != [] {
      var init, last := segs[..|segs| - 1], segs[|segs| - 1];
      SubtractOneCovers(init, d, t);
      CoveredAppend(SubtractOne(init, d), SubtractPiece(last, d), t);
      SubtractPieceCovers(last, d, t);
      assert segs == init + [last];
      CoveredAppend(init, [last], t);
      assert Covered([last], t) <==> InSpan(last, t) by {
        if InSpan(last, t) { assert [last][0] == last; }
      }
    }
  }

  /** Some deleted region holds time `t`. */
  predicate Deleted(dels: seq<Span>, t: real)
  {
    exists i :: 0 <= i < |dels| && InSpan(dels[i], t)
  }

  lemma {:induction false} SubtractAllCovers(segs: seq<Span>, dels: seq<Span>, t: real)
    ensures Covered(SubtractAll(segs, dels), t) <==> Covered(segs, t) && !Deleted(dels, t)
  {
    if dels != [] {
      var init, last := dels[..|dels| - 1], dels[|dels| - 1];
      SubtractAllCovers(segs, init, t);
      SubtractOneCovers(SubtractAll(segs, init), last, t);
      if Deleted(dels, t) {
        var i :| 0 <= i < |dels| && InSpan(dels[i], t);
        if i < |init| {
          assert init[i] == dels[i];
        }
      }
      if Deleted(init, t) {
        var i :| 0 <= i < |init| && InSpan(init[i], t);
        assert dels[i] == init[i];
      }
    }
  }

  lemma SameElementsDeleted(a: seq<Span>, b: seq<Span>, t: real)
    requires multiset(a) == multiset(b)
    ensures Deleted(a, t) ==> Deleted(b, t)
  {
    if Deleted(a, t) {
      var i :| 0 <= i < |a| && InSpan(a[i], t);
      assert a[i] in multiset(b);
      var j :| 0 <= j < |b| && b[j] == a[i];
    }
  }

  /**
   * For every clip, well formed or not: a time is playable exactly when it lies
   * in the trim range and in no deleted region (segments.py:16-34).
   */
  lemma PlayableIsTrimMinusDeleted(c: RenderClip, t: real)
    ensures Covered(Playable(c), t)
        <==> TrimStart(c) <= t < TrimEnd(c) && !Deleted(c.deletedRegions, t)
  {
    var sorted := SortBy(c.deletedRegions, SpanStart);
    var init := [Span(TrimStart(c), TrimEnd(c))];
    SubtractAllCovers(init, sorted, t);
    SameElementsDeleted(sorted, c.deletedRegions, t);
    SameElementsDeleted(c.deletedRegions, sorted, t);
    assert Covered(init, t) <==> InSpan(init[0], t);
  }

  /** Without deleted regions the trim range is returned as it is, even a malformed one (segments.py:12-16). */
  lemma PlayableNoDeletions(c: RenderClip)
    requires c.deletedRegions == []
    ensures Playable(c) == [Span(TrimStart(c), TrimEnd(c))]
  {
  }

  // ---------------------------------------------------------------- well-formed results

  /** Every interval has positive length, lies in `[lo, hi]`, and each ends before the next begins. */
  predicate Chain(segs: seq<Span>, lo: real, hi: real)
  {
    (forall i :: 0 <= i < |segs| ==> lo <= segs[i].start < segs[i].end <= hi)
    && (forall i, j :: 0 <= i < j < |segs| ==> segs[i].end <= segs[j].start)
  }

  predicate WellFormedRegions(dels: seq<Span>)
  {
    forall i :: 0 <= i < |dels| ==> dels[i].start <= dels[i].end
  }

  lemma PieceChain(seg: Span, d: Span)
    requires seg.start < seg.end && d.start <= d.end
    ensures Chain(SubtractPiece(seg, d), seg.start, seg.end)
  {
  }

  lemma {:induction false} SubtractOneChain(segs: seq<Span>, d: Span, lo: real, hi: real)
    requires Chain(segs, lo, hi) && d.start <= d.end
    ensures Chain(SubtractOne(segs, d), lo, hi)
    ensures forall i :: 0 <= i < |SubtractOne(segs, d)| && segs != []
              ==> SubtractOne(segs, d)[i].end <= segs[|segs| - 1].end
  {
    if segs != [] {
      var init, last := segs[..|segs| - 1], segs[|segs| - 1];
      assert Chain(init, lo, hi);
      SubtractOneChain(init, d, lo, hi);
      PieceChain(last, d);
      var a, b := SubtractOne(init, d), SubtractPiece(last, d);
      forall i, j | 0 <= i < |a| && 0 <= j < |b| ensures a[i].end <= b[j].start {
        assert a[i].end <= init[|init| - 1].end;
        assert init[|init| - 1] == segs[|segs| - 2];
      }
      assert SubtractOne(segs, d) == a + b;
      forall i | 0 <= i < |a + b| ensures (a + b)[i].end <= last.end {
        if i < |a| {
          assert a[i].end <= init[|init| - 1].end;
          assert init[|init| - 1] == segs[|segs| - 2];
        }
      }
    }
  }

  lemma {:induction false} SubtractAllChain(segs: seq<Span>, dels: seq<Span>, lo: real, hi: real)
    requires Chain(segs, lo, hi) && WellFormedRegions(dels)
    ensures Chain(SubtractAll(segs, dels), lo, hi)
  {
    if dels != [] {
      var init := dels[..|dels| - 1];
      assert WellFormedRegions(init);
      SubtractAllChain(segs, init, lo, hi);
      SubtractOneChain(SubtractAll(segs, init), dels[|dels| - 1], lo, hi);
    }
  }

  /**
   * A proper trim range with proper deleted regions resolves to ascending,
   * pairwise disjoint intervals of positive length inside the trim range
   * (segments.py:16-36).
   */
  lemma PlayableIsChain(c: RenderClip)
    requires TrimStart(c) < TrimEnd(c)
    requires WellFormedRegions(c.deletedRegions)
    ensures Chain(Playable(c), TrimStart(c), TrimEnd(c))
  {
    var sorted := SortBy(c.deletedRegions, SpanStart);
    forall i | 0 <= i < |sorted| ensures sorted[i].start <= sorted[i].end {
      assert sorted[i] in multiset(c.deletedRegions);
      var k :| 0 <= k < |c.deletedRegions| && c.deletedRegions[k] == sorted[i];
    }
    SubtractAllChain([Span(TrimStart(c), TrimEnd(c))], sorted, TrimStart(c), TrimEnd(c));
  }

  /** A reversed deleted region is not guarded against: (7, 3) over (0, 10) leaves two overlapping intervals. */
  lemma ReversedRegionOverlaps()
    ensures SubtractPiece(Span(0.0, 10.0), Span(7.0, 3.0)) == [Span(0.0, 7.0), Span(3.0, 10.0)]
    ensures !Chain(SubtractPiece(Span(0.0, 10.0), Span(7.0, 3.0)), 0.0, 10.0)
  {
    var r := SubtractPiece(Span(0.0, 10.0), Span(7.0, 3.0));
    assert r[0].end > r[1].start;
  }

  // ---------------------------------------------------------------- the timeline

  /** `cond` read with a missing key counting as true (`clip.get(key, True)`). */
  function IsOn(o: Option<bool>): bool
  {
    o.GetOr(true)
  }

  predicate Kept(c: RenderClip)
  {
    IsOn(c.enabled) && IsOn(c.inTimeline) && Playable(c) != []
  }

  function Entry(c: RenderClip): TimelineClip
  {
    TimelineClip(c, Playable(c), c.timelinePosition.GetOr(0.0))
  }

  /** The survivors of the filter, as entries, in input order. */
  function KeptEntries(clips: seq<RenderClip>): (r: seq<TimelineClip>)
    ensures |r| <= |clips|
  {
    if clips == [] then []
    else
      var init := KeptEntries(clips[..|clips| - 1]);
      var c := clips[|clips| - 1];
      if Kept(c) then init + [Entry(c)] else init
  }

  function Position(e: TimelineClip): real { e.position }

  /** compute_timeline_clips (segments.py:39-62). */
  method ComputeTimelineClips(clips: seq<RenderClip>) returns (timeline: seq<TimelineClip>)
    ensures timeline == SortBy(KeptEntries(clips), Position)
  {
    var acc := [];
    var i := 0;
    while i < |clips|
      invariant 0 <= i <= |clips|
      invariant acc == KeptEntries(clips[..i])
    {
      var c := clips[i];
      assert clips[..i + 1][..i] == clips[..i];
      if IsOn(c.enabled) && IsOn(c.inTimeline) {
        var playable := GetPlayableSegments(c);
        if playable != [] {
          acc := acc + [TimelineClip(c, playable, c.timelinePosition.GetOr(0.0))];
        }
      }
      i := i + 1;
    }
    assert clips[..i] == clips;
    timeline := SortBy(acc, Position);
  }

  /** An entry is kept exactly for an enabled clip on the timeline with something to play (segments.py:50-59). */
  lemma {:induction false} KeptEntriesMembers(clips: seq<RenderClip>, e: TimelineClip)
    ensures e in KeptEntries(clips) <==> exists c :: c in clips && Kept(c) && e == Entry(c)
  {
    if clips != [] {
      var init, c := clips[..|clips| - 1], clips[|clips| - 1];
      KeptEntriesMembers(init, e);
      assert clips == init + [c];
      if e in KeptEntries(clips) && !(e in KeptEntries(init)) {
        assert e == Entry(c) && Kept(c) && c in clips;
      }
      if exists c' :: c' in clips && Kept(c') && e == Entry(c') {
        var c' :| c' in clips && Kept(c') && e == Entry(c');
        if c' != c {
          assert c' in init;
        }
      }
    }
  }

  /**
   * The timeline holds the kept clips ordered by position (a missing one is 0);
   * clips at the same position keep their input order (segments.py:58-62).
   */
  lemma TimelineOrder(clips: seq<RenderClip>, p: real)
    ensures SortedBy(SortBy(KeptEntries(clips), Position), Position)
    ensures multiset(SortBy(KeptEntries(clips), Position)) == multiset(KeptEntries(clips))
    ensures WithKey(SortBy(KeptEntries(clips), Position), Position, p) == WithKey(KeptEntries(clips), Position, p)
  {
    SortByStable(KeptEntries(clips), Position, p);
  }

  // ---------------------------------------------------------------- total duration

  function SpansLength(segs: seq<Span>): real
  {
    if segs == [] then 0.0 else SpansLength(segs[..|segs| - 1]) + (segs[|segs| - 1].end - segs[|segs| - 1].start)
  }

  function TotalDuration(items: seq<TimelineClip>): real
  {
    if items == [] then 0.0 else TotalDuration(items[..|items| - 1]) + SpansLength(items[|items| - 1].playable)
  }

  /** get_total_duration (segments.py:65-71). */
  method GetTotalDuration(items: seq<TimelineClip>) returns (total: real)
    ensures total == TotalDuration(items)
  {
    total := 0.0;
    var k := 0;
    while k < |items|
      invariant 0 <= k <= |items|
      invariant total == TotalDuration(items[..k])
    {
      var segs := items[k].playable;
      var base := total;
      var i := 0;
      while i < |segs|
        invariant 0 <= i <= |segs|
        invariant total == base + SpansLength(segs[..i])
      {
        assert segs[..i + 1][..i] == segs[..i];
        total := total + (segs[i].end - segs[i].start);
        i := i + 1;
      }
      assert segs[..i] == segs;
      assert items[..k + 1][..k] == items[..k];
      k := k + 1;
    }
    assert items[..k] == items;
  }

  lemma {:induction false} TotalDurationAppend(a: seq<TimelineClip>, b: seq<TimelineClip>)
    ensures TotalDuration(a + b) == TotalDuration(a) + TotalDuration(b)
    decreases |b|
  {
    if b == [] {
      assert a + b == a;
    } else {
      var init := b[..|b| - 1];
      assert (a + b)[..|a + b| - 1] == a + init;
      TotalDurationAppend(a, init);
    }
  }

  /** Well-formed intervals inside a range never add up to more than the range. */
  lemma {:induction false} ChainLengthBound(segs: seq<Span>, lo: real, hi: real)
    requires Chain(segs, lo, hi) && segs != []
    ensures 0.0 < SpansLength(segs) <= segs[|segs| - 1].end - lo
    ensures segs[|segs| - 1].end - lo <= hi - lo
  {
    var init, last := segs[..|segs| - 1], segs[|segs| - 1];
    if init != [] {
      assert Chain(init, lo, hi);
      ChainLengthBound(init, lo, hi);
      assert init[|init| - 1].end <= last.start;
    }
  }
}
