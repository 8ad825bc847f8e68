/**
 * The drag handles of the timeline editor
 * (tools/timeline_integrated/InteractiveBoundaries/InteractiveBoundaries.js): a dragged
 * boundary is snapped to the nearest word, kept clear of the neighbouring segments and
 * kept at least a minimum duration from the segment's other end, and only that one edge
 * is written back to the segment store.
 */
module Boundaries {
  import opened Wrappers
  import Seqs
  import opened TimelineData

  /** The `direction` of a handle; any value other than `'left'` is treated as the right edge. */
  datatype Direction = Left | Right

  /** `this.config`; `pixelsPerSecond` and `zoomLevel` are absent until the zoom changes. */
  datatype BoundaryConfig = BoundaryConfig(
    minSegmentDuration: real, snapToWords: bool, snapThreshold: real,
    collisionDetection: bool, boundaryGap: real,
    pixelsPerSecond: Option<real>, zoomLevel: Option<real>)

  /** The defaults (InteractiveBoundaries.js:9-17); `handleWidth` only sizes the DOM handles. */
  const DefaultBoundaryConfig := BoundaryConfig(0.5, true, 0.5, true, 0.1, None, None)

  /** The dataset of the handle being dragged: the segment id as text and the edge. */
  datatype Handle = Handle(segmentId: string, direction: Direction)

  function Side(d: Option<Direction>): Direction
  {
    if d == Some(Left) then Left else Right
  }

  /** `value || fallback` on a number: absent and zero fall back. */
  function OrDefault(value: Option<real>, fallback: real): (r: real)
    requires fallback != 0.0
    ensures r != 0.0
    ensures value.Some? && value.value != 0.0 ==> r == value.value
  {
    if value.Some? && value.value != 0.0 then value.value else fallback
  }

  /** The seconds a mouse movement of `deltaX` pixels stands for. */
  function DeltaTime(cfg: BoundaryConfig, deltaX: real): real
  {
    var scale := OrDefault(cfg.pixelsPerSecond, 50.0) * OrDefault(cfg.zoomLevel, 1.0);
    assert scale != 0.0;
    deltaX / scale
  }

  function Abs(x: real): real
  {
    if x < 0.0 then -x else x
  }

  function Min(a: real, b: real): real
  {
    if a <= b then a else b
  }

  function Max(a: real, b: real): real
  {
    if a >= b then a else b
  }

  // ---------------------------------------------------------------- snapToNearestWord

  /** The word boundary a handle can snap to: starts for the left edge, ends for the right. */
  function Boundary(w: DmWord, side: Direction): real
  {
    if side == Left then w.start else w.end
  }

  function Distance(time: real, w: DmWord, side: Direction): real
  {
    Abs(time - Boundary(w, side))
  }

  /**
   * The word the forEach of `snapToNearestWord` settles on among the first `k`: none when
   * no boundary lies strictly within the threshold; otherwise a nearest one, the first of
   * equally near ones.
   */
  function SnapChoice(words: seq<DmWord>, k: nat, time: real, side: Direction, threshold: real): (r: Option<nat>)
    requires k <= |words|
    ensures r.Some? ==> r.value < k
  {
    if k == 0 then None
    else
      var c := SnapChoice(words, k - 1, time, side, threshold);
      var d := Distance(time, words[k - 1], side);
      if d < threshold && (c.None? || d < Distance(time, words[c.value], side)) then Some(k - 1) else c
  }

  /** The choice among the first `k` words: the first strictly nearest boundary inside the threshold, if any. */
  lemma {:induction false} SnapChoiceFacts(words: seq<DmWord>, k: nat, time: real, side: Direction, threshold: real)
    requires k <= |words|
    ensures var r := SnapChoice(words, k, time, side, threshold);
      && (r.None? <==> forall j :: 0 <= j < k ==> Distance(time, words[j], side) >= threshold)
      && (r.Some? ==> Distance(time, words[r.value], side) < threshold)
      && (r.Some? ==> forall j :: 0 <= j < k ==> Distance(time, words[r.value], side) <= Distance(time, words[j], side))
      && (r.Some? ==> forall j :: 0 <= j < r.value ==> Distance(time, words[r.value], side) < Distance(time, words[j], side))
  {
    if k > 0 {
      SnapChoiceFacts(words, k - 1, time, side, threshold);
    }
  }

  /** The snapped time: the chosen boundary, or the time itself. */
  function Snapped(words: seq<DmWord>, time: real, side: Direction, threshold: real): real
  {
    var c := SnapChoice(words, |words|, time, side, threshold);
    if c.Some? then Boundary(words[c.value], side) else time
  }

  /** Snapping a snapped time again changes nothing, for any positive threshold. */
  lemma SnapIdempotent(words: seq<DmWord>, time: real, side: Direction, threshold: real)
    requires threshold > 0.0
    ensures Snapped(words, Snapped(words, time, side, threshold), side, threshold) == Snapped(words, time, side, threshold)
  {
    SnapChoiceFacts(words, |words|, time, side, threshold);
    var c := SnapChoice(words, |words|, time, side, threshold);
    if c.Some? {
      var b := Boundary(words[c.value], side);
      assert Distance(b, words[c.value], side) == 0.0;
      SnapChoiceFacts(words, |words|, b, side, threshold);
      var c2 := SnapChoice(words, |words|, b, side, threshold);
      assert c2.Some? && Distance(b, words[c2.value], side) <= 0.0;
    }
  }

  // ---------------------------------------------------------------- applyCollisionDetection / applyMinimumDuration

  /** The `findIndex` test of `applyCollisionDetection`: strict equality with the segment's `id`. */
  function SameId(seg: DmSegment): DmSegment -> bool
  {
    (s: DmSegment) => s.id == seg.id || s.segmentId == seg.id
  }

  /**
   * `applyCollisionDetection` (InteractiveBoundaries.js:347-382): a time before the previous
   * segment's end plus the gap is pushed to it; otherwise it is held at least `minDur` before
   * the segment's end. The right edge is the mirror image against the next segment's start.
   */
  function Collided(segments: seq<DmSegment>, seg: DmSegment, t: real, side: Direction, gap: real, minDur: real): (r: real)
    ensures Seqs.FirstIndex(segments, SameId(seg)).None? ==> r == t
    ensures var i := Seqs.FirstIndex(segments, SameId(seg));
      i.Some? && side == Left ==>
        if i.value > 0 && t < segments[i.value - 1].end + gap then r == segments[i.value - 1].end + gap
        else r == Min(t, seg.end - minDur)
    ensures var i := Seqs.FirstIndex(segments, SameId(seg));
      i.Some? && side == Right ==>
        if i.value < |segments| - 1 && t > segments[i.value + 1].start - gap then r == segments[i.value + 1].start - gap
        else r == Max(t, seg.start + minDur)
  {
    var i := Seqs.FirstIndex(segments, SameId(seg));
    if i.None? then t
    else if side == Left then
      if i.value > 0 && t < segments[i.value - 1].end + gap then segments[i.value - 1].end + gap
      else if t >= seg.end - minDur then seg.end - minDur
      else t
    else
      if i.value < |segments| - 1 && t > segments[i.value + 1].start - gap then segments[i.value + 1].start - gap
      else if t <= seg.start + minDur then seg.start + minDur
      else t
  }

  /**
   * When there is room between the neighbour and the segment's far end, the collided time
   * lies in it: after the previous segment's end plus the gap and at least `minDur` before
   * the end (left), or mirrored (right).
   */
  lemma CollisionStaysBetween(segments: seq<DmSegment>, seg: DmSegment, t: real, side: Direction, gap: real, minDur: real)
    requires Seqs.FirstIndex(segments, SameId(seg)).Some?
    ensures var i := Seqs.FirstIndex(segments, SameId(seg)).value;
      var r := Collided(segments, seg, t, side, gap, minDur);
      && (side == Left && i > 0 && segments[i - 1].end + gap <= seg.end - minDur ==>
            segments[i - 1].end + gap <= r <= seg.end - minDur)
      && (side == Left && i == 0 ==> r <= seg.end - minDur)
      && (side == Right && i < |segments| - 1 && seg.start + minDur <= segments[i + 1].start - gap ==>
            seg.start + minDur <= r <= segments[i + 1].start - gap)
      && (side == Right && i == |segments| - 1 ==> r >= seg.start + minDur)
  {
    var i := Seqs.FirstIndex(segments, SameId(seg)).value;
    var r := Collided(segments, seg, t, side, gap, minDur);
    if side == Left {
      if i > 0 && t < segments[i - 1].end + gap {
        assert r == segments[i - 1].end + gap;
      } else {
        assert r == Min(t, seg.end - minDur);
      }
    } else {
      if i < |segments| - 1 && t > segments[i + 1].start - gap {
        assert r == segments[i + 1].start - gap;
      } else {
        assert r == Max(t, seg.start + minDur);
      }
    }
  }

  /**
   * `applyMinimumDuration` (InteractiveBoundaries.js:384-398): the latest start at most `t`
   * leaving `minDur` before the end, or the earliest end at least `t` leaving `minDur` after
   * the start.
   */
  function MinimumDuration(seg: DmSegment, t: real, side: Direction, minDur: real): (r: real)
    ensures side == Left ==> seg.end - r >= minDur && (seg.end - t >= minDur ==> r == t) && r == Min(t, seg.end - minDur)
    ensures side == Right ==> r - seg.start >= minDur && (t - seg.start >= minDur ==> r == t) && r == Max(t, seg.start + minDur)
  {
    if side == Left then
      if seg.end - t < minDur then seg.end - minDur else t
    else
      if t - seg.start < minDur then seg.start + minDur else t
  }

  // ---------------------------------------------------------------- the drag pipeline

  /** The time `handleMouseMove` writes: snap (when enabled and the segment has words), collision (when enabled), minimum duration. */
  function DragTime(segments: seq<DmSegment>, seg: DmSegment, t: real, side: Direction, cfg: BoundaryConfig): (r: real)
    ensures side == Left ==> seg.end - r >= cfg.minSegmentDuration
    ensures side == Right ==> r - seg.start >= cfg.minSegmentDuration
  {
    var snapped :=
      if cfg.snapToWords && seg.words.Some? && |seg.words.value| > 0 then Snapped(seg.words.value, t, side, cfg.snapThreshold)
      else t;
    var collided :=
      if cfg.collisionDetection then Collided(segments, seg, snapped, side, cfg.boundaryGap, cfg.minSegmentDuration)
      else snapped;
    MinimumDuration(seg, collided, side, cfg.minSegmentDuration)
  }

  /** With collision detection on and room beside the neighbour, the written time lies between the neighbour and the far end. */
  lemma DragStaysBetween(segments: seq<DmSegment>, seg: DmSegment, t: real, side: Direction, cfg: BoundaryConfig)
    requires cfg.collisionDetection && Seqs.FirstIndex(segments, SameId(seg)).Some?
    ensures var i := Seqs.FirstIndex(segments, SameId(seg)).value;
      var r := DragTime(segments, seg, t, side, cfg);
      && (side == Left && i > 0 && segments[i - 1].end + cfg.boundaryGap <= seg.end - cfg.minSegmentDuration ==>
            segments[i - 1].end + cfg.boundaryGap <= r <= seg.end - cfg.minSegmentDuration)
      && (side == Right && i < |segments| - 1 && seg.start + cfg.minSegmentDuration <= segments[i + 1].start - cfg.boundaryGap ==>
            seg.start + cfg.minSegmentDuration <= r <= segments[i + 1].start - cfg.boundaryGap)
  {
    var snapped :=
      if cfg.snapToWords && seg.words.Some? && |seg.words.value| > 0 then Snapped(seg.words.value, t, side, cfg.snapThreshold)
      else t;
    CollisionStaysBetween(segments, seg, snapped, side, cfg.boundaryGap, cfg.minSegmentDuration);
  }

  /** The `updates` object of a drag: only the dragged edge. */
  function DragPatch(side: Direction, t: real): Patch
  {
    if side == Left then Patch(None, None, None, Some(t), None, None)
    else Patch(None, None, None, None, Some(t), None)
  }

  /** The segment list after a drag of the segment with id text `id` to time `t`. */
  function Dragged(segments: seq<DmSegment>, id: string, t: real, side: Direction, cfg: BoundaryConfig): seq<DmSegment>
  {
    var i := Seqs.FirstIndex(segments, MatchesKey(KStr(id)));
    if i.None? then segments
    else AfterUpdate(segments, KStr(id), DragPatch(side, DragTime(segments, segments[i.value], t, side, cfg)))
  }

  lemma DraggedAt(segments: seq<DmSegment>, id: string, t: real, side: Direction, cfg: BoundaryConfig, i: nat)
    requires Seqs.FirstIndex(segments, MatchesKey(KStr(id))) == Some(i)
    ensures Dragged(segments, id, t, side, cfg) == AfterUpdate(segments, KStr(id), DragPatch(side, DragTime(segments, segments[i], t, side, cfg)))
  {
  }

  /**
   * With a positive minimum duration a drag never fails validation: it moves exactly the
   * dragged edge of the matching segment, leaves every other segment alone, and the segment
   * keeps at least the minimum duration.
   */
  lemma DragMovesOneEdge(segments: seq<DmSegment>, id: string, t: real, side: Direction, cfg: BoundaryConfig)
    requires cfg.minSegmentDuration > 0.0
    requires Seqs.FirstIndex(segments, MatchesKey(KStr(id))).Some?
    ensures var i := Seqs.FirstIndex(segments, MatchesKey(KStr(id))).value;
      var seg := segments[i];
      var time := DragTime(segments, seg, t, side, cfg);
      var r := Dragged(segments, id, t, side, cfg);
      && |r| == |segments|
      && (forall j :: 0 <= j < |r| && j != i ==> r[j] == segments[j])
      && r[i] == (if side == Left then seg.(start := time) else seg.(end := time))
      && r[i].end - r[i].start >= cfg.minSegmentDuration
  {
  }

  // ---------------------------------------------------------------- handleKeyDown

  /** The `updates` of a key press, or none when the key is not handled. */
  function KeyPatch(seg: DmSegment, key: string, shiftKey: bool): Option<Patch>
  {
    if key == "ArrowLeft" && shiftKey then Some(Patch(None, None, None, Some(Max(0.0, seg.start - 0.1)), None, None))
    else if key == "ArrowRight" && shiftKey then Some(Patch(None, None, None, None, Some(seg.end + 0.1), None))
    else None
  }

  /** The segment list after a key press with segment `k` selected. */
  function KeyEdited(segments: seq<DmSegment>, k: Key, key: string, shiftKey: bool): seq<DmSegment>
  {
    var i := Seqs.FirstIndex(segments, MatchesKey(k));
    if i.None? || KeyPatch(segments[i.value], key, shiftKey).None? then segments
    else AfterUpdate(segments, k, KeyPatch(segments[i.value], key, shiftKey).value)
  }

  /**
   * On a segment starting at or after 0 and before its end, Shift+ArrowLeft moves the start
   * 0.1 s earlier but not below 0, Shift+ArrowRight moves the end 0.1 s later, and any other
   * key changes nothing.
   */
  lemma KeyNudgesOneEdge(segments: seq<DmSegment>, k: Key, key: string, shiftKey: bool)
    requires Seqs.FirstIndex(segments, MatchesKey(k)).Some?
    requires var s := segments[Seqs.FirstIndex(segments, MatchesKey(k)).value]; 0.0 <= s.start < s.end
    ensures var i := Seqs.FirstIndex(segments, MatchesKey(k)).value;
      var s := segments[i];
      KeyEdited(segments, k, key, shiftKey) ==
        if key == "ArrowLeft" && shiftKey then segments[i := s.(start := Max(0.0, s.start - 0.1))]
        else if key == "ArrowRight" && shiftKey then segments[i := s.(end := s.end + 0.1)]
        else segments
  {
    if key == "ArrowLeft" && shiftKey {
      LeftNudge(segments, k, key, shiftKey);
    } else if key == "ArrowRight" && shiftKey {
      RightNudge(segments, k, key, shiftKey);
    }
  }

  /** Shift+ArrowLeft moves the start 0.1 s earlier, not below 0. */
  lemma LeftNudge(segments: seq<DmSegment>, k: Key, key: string, shiftKey: bool)
    requires Seqs.FirstIndex(segments, MatchesKey(k)).Some?
    requires var s := segments[Seqs.FirstIndex(segments, MatchesKey(k)).value]; 0.0 <= s.start < s.end
    requires key == "ArrowLeft" && shiftKey
    ensures var i := Seqs.FirstIndex(segments, MatchesKey(k)).value;
      var s := segments[i];
      KeyEdited(segments, k, key, shiftKey) == segments[i := s.(start := Max(0.0, s.start - 0.1))]
  {
  }

  /** Shift+ArrowRight moves the end 0.1 s later. */
  lemma RightNudge(segments: seq<DmSegment>, k: Key, key: string, shiftKey: bool)
    requires Seqs.FirstIndex(segments, MatchesKey(k)).Some?
    requires var s := segments[Seqs.FirstIndex(segments, MatchesKey(k)).value]; 0.0 <= s.start < s.end
    requires key == "ArrowRight" && shiftKey
    ensures var i := Seqs.FirstIndex(segments, MatchesKey(k)).value;
      var s := segments[i];
      KeyEdited(segments, k, key, shiftKey) == segments[i := s.(end := s.end + 0.1)]
  {
  }

  // ---------------------------------------------------------------- the component

  /** The `InteractiveBoundaries` component: its configuration and drag state over a segment store. */
  class InteractiveBoundaries {
    const data: DataManager
    var config: BoundaryConfig
    var isResizing: bool
    var dragTarget: Option<Handle>
    var resizeDirection: Option<Direction>
    var dragStartX: real
    var dragStartValue: real
    var selectedSegmentId: Option<Key>

    /** The constructor (InteractiveBoundaries.js:5-34) with the configuration already merged over the defaults. */
    constructor(dataManager: DataManager, cfg: BoundaryConfig)
      ensures data == dataManager && config == cfg
      ensures !isResizing && dragTarget.None? && resizeDirection.None? && dragStartX == 0.0 && dragStartValue == 0.0
      ensures selectedSegmentId.None?
    {
      data := dataManager;
      config := cfg;
      isResizing := false;
      dragTarget := None;
      resizeDirection := None;
      dragStartX := 0.0;
      dragStartValue := 0.0;
      selectedSegmentId := None;
    }

    /** The zoom listener (InteractiveBoundaries.js:54-58): a zero or absent value falls back to 50 and 1.0. */
    method OnZoomChanged(pixelsPerSecond: Option<real>, zoomLevel: Option<real>)
      modifies this
      ensures config == old(config).(pixelsPerSecond := Some(OrDefault(pixelsPerSecond, 50.0)),
                                      zoomLevel := Some(OrDefault(zoomLevel, 1.0)))
      ensures isResizing == old(isResizing) && dragTarget == old(dragTarget) && resizeDirection == old(resizeDirection)
      ensures dragStartX == old(dragStartX) && dragStartValue == old(dragStartValue) && selectedSegmentId == old(selectedSegmentId)
    {
      config := config.(pixelsPerSecond := Some(OrDefault(pixelsPerSecond, 50.0)));
      config := config.(zoomLevel := Some(OrDefault(zoomLevel, 1.0)));
    }

    /** `selectSegment` (InteractiveBoundaries.js:166-183) without the DOM: records the selection and looks the segment up. */
    method SelectSegment(k: Key)
      modifies this, data
      ensures selectedSegmentId == Some(k)
      ensures config == old(config) && isResizing == old(isResizing) && dragTarget == old(dragTarget)
      ensures resizeDirection == old(resizeDirection) && dragStartX == old(dragStartX) && dragStartValue == old(dragStartValue)
      ensures data.segments == old(data.segments)
      ensures old(data.CacheCoherent()) ==> data.CacheCoherent()
    {
      selectedSegmentId := Some(k);
      var _ := data.GetSegment(k);
    }

    /**
     * `handleResizeMouseDown` (InteractiveBoundaries.js:186-207): starts a drag of `handle`
     * at `clientX`; the start value is the segment's start or end, if the segment is found.
     */
    method HandleResizeMouseDown(handle: Handle, clientX: real)
      modifies this, data
      ensures isResizing && dragTarget == Some(handle) && resizeDirection == Some(handle.direction) && dragStartX == clientX
      ensures config == old(config) && selectedSegmentId == old(selectedSegmentId)
      ensures data.segments == old(data.segments)
      ensures old(data.CacheCoherent()) ==>
        && data.CacheCoherent()
        && var found := Seqs.FirstMatch(data.segments, MatchesKey(KStr(handle.segmentId)));
           dragStartValue == (if found.None? then old(dragStartValue)
                              else if handle.direction == Left then found.value.start
                              else found.value.end)
    {
      isResizing := true;
      dragTarget := Some(handle);
      resizeDirection := Some(handle.direction);
      dragStartX := clientX;
      var value := DragStartOf(handle);
      if value.Some? {
        dragStartValue := value.value;
      }
    }

    /** The edge a drag starts from (InteractiveBoundaries.js:195-199): the segment's start or end, looked up through the store's cache. */
    method DragStartOf(handle: Handle) returns (value: Option<real>)
      modifies data
      ensures data.segments == old(data.segments)
      ensures old(data.CacheCoherent()) ==>
        && data.CacheCoherent()
        && var found := Seqs.FirstMatch(data.segments, MatchesKey(KStr(handle.segmentId)));
           value == (if found.None? then None else if handle.direction == Left then Some(found.value.start) else Some(found.value.end))
    {
      var segment := data.GetSegment(KStr(handle.segmentId));
      if segment.None? {
        return None;
      }
      value := if handle.direction == Left then Some(segment.value.start) else Some(segment.value.end);
    }

    /** The loop of `snapToNearestWord` (InteractiveBoundaries.js:326-345); `None` stands for `Infinity`. */
    method SnapToNearestWord(time: real, segment: DmSegment, direction: Option<Direction>) returns (r: real)
      ensures r == Snapped(segment.words.GetOr([]), time, Side(direction), config.snapThreshold)
    {
      if segment.words.None? || |segment.words.value| == 0 {
        return time;
      }
      var words := segment.words.value;
      var side := Side(direction);
      var nearestTime := time;
      var minDistance: Option<real> := None;
      ghost var choice: Option<nat> := None;
      var i := 0;
      while i < |words|
        invariant 0 <= i <= |words|
        invariant choice == SnapChoice(words, i, time, side, config.snapThreshold)
        invariant choice.Some? ==> choice.value < i
        invariant minDistance == (if choice.Some? then Some(Distance(time, words[choice.value], side)) else None)
        invariant nearestTime == (if choice.Some? then Boundary(words[choice.value], side) else time)
      {
        var wordTime := if side == Left then words[i].start else words[i].end;
        var distance := Abs(time - wordTime);
        if (minDistance.None? || distance < minDistance.value) && distance < config.snapThreshold {
          minDistance := Some(distance);
          nearestTime := wordTime;
          choice := Some(i);
        }
        i := i + 1;
      }
      return nearestTime;
    }

    /** The constraints `handleMouseMove` applies to a dragged time, in order (InteractiveBoundaries.js:223-236). */
    method ConstrainedTime(segment: DmSegment, t: real) returns (r: real)
      ensures r == DragTime(data.segments, segment, t, Side(resizeDirection), config)
    {
      var side := Side(resizeDirection);
      r := t;
      if config.snapToWords && segment.words.Some? && |segment.words.value| > 0 {
        r := SnapToNearestWord(r, segment, resizeDirection);
      }
      if config.collisionDetection {
        r := Collided(data.segments, segment, r, side, config.boundaryGap, config.minSegmentDuration);
      }
      r := MinimumDuration(segment, r, side, config.minSegmentDuration);
    }

    /**
     * `handleMouseMove` (InteractiveBoundaries.js:209-264): during a drag, the dragged edge of
     * the segment is set to the pipeline's time; a failed update is swallowed. The result is
     * stated for a store whose cache agrees with its list.
     */
    method HandleMouseMove(clientX: real)
      modifies data
      ensures !(isResizing && dragTarget.Some?) ==> data.segments == old(data.segments) && data.segmentCache == old(data.segmentCache)
      ensures isResizing && dragTarget.Some? && old(data.CacheCoherent()) ==>
        && data.CacheCoherent()
        && data.segments == Dragged(old(data.segments), dragTarget.value.segmentId,
                                    dragStartValue + DeltaTime(config, clientX - dragStartX), Side(resizeDirection), config)
      ensures old(data.WellTimed()) ==> data.WellTimed()
    {
      if !isResizing || dragTarget.None? {
        return;
      }
      var deltaTime := DeltaTime(config, clientX - dragStartX);
      var segmentId, target := dragTarget.value.segmentId, dragStartValue + deltaTime;
      ghost var side, cfg := Side(resizeDirection), config;
      DragTo(segmentId, target);
      assert side == Side(resizeDirection) && cfg == config;
    }

    /** The body of `handleMouseMove` once a drag is under way: look the segment up, constrain the time, update. */
    method DragTo(segmentId: string, target: real)
      modifies data
      ensures old(data.CacheCoherent()) ==>
        data.CacheCoherent() && data.segments == Dragged(old(data.segments), segmentId, target, Side(resizeDirection), config)
      ensures old(data.WellTimed()) ==> data.WellTimed()
    {
      ghost var i := Seqs.FirstIndex(data.segments, MatchesKey(KStr(segmentId)));
      var segment := data.GetSegment(KStr(segmentId));
      if segment.None? {
        return;
      }
      var side := Side(resizeDirection);
      var newTime := ConstrainedTime(segment.value, target);
      ghost var before := data.segments;
      var _ := data.UpdateSegment(KStr(segmentId), DragPatch(side, newTime));
      if old(data.CacheCoherent()) {
        DraggedAt(before, segmentId, target, side, config, i.value);
      }
    }

    /** `handleMouseUp` (InteractiveBoundaries.js:266-291): ends a drag and resets all drag state. */
    method HandleMouseUp()
      modifies this
      ensures old(isResizing) && old(dragTarget).Some? ==>
        !isResizing && dragTarget.None? && resizeDirection.None? && dragStartX == 0.0 && dragStartValue == 0.0
      ensures !(old(isResizing) && old(dragTarget).Some?) ==>
        && isResizing == old(isResizing) && dragTarget == old(dragTarget) && resizeDirection == old(resizeDirection)
        && dragStartX == old(dragStartX) && dragStartValue == old(dragStartValue)
      ensures config == old(config) && selectedSegmentId == old(selectedSegmentId)
    {
      if !isResizing || dragTarget.None? {
        return;
      }
      isResizing := false;
      dragTarget := None;
      resizeDirection := None;
      dragStartX := 0.0;
      dragStartValue := 0.0;
    }

    /**
     * `handleKeyDown` (InteractiveBoundaries.js:293-323): with a truthy selection, Shift+Arrow
     * keys nudge one edge of the selected segment. The result is stated for a store whose
     * cache agrees with its list.
     */
    method HandleKeyDown(key: string, shiftKey: bool)
      modifies data
      ensures !Truthy(selectedSegmentId) ==> data.segments == old(data.segments) && data.segmentCache == old(data.segmentCache)
      ensures Truthy(selectedSegmentId) && old(data.CacheCoherent()) ==>
        data.CacheCoherent() && data.segments == KeyEdited(old(data.segments), selectedSegmentId.value, key, shiftKey)
      ensures old(data.WellTimed()) ==> data.WellTimed()
    {
      if !Truthy(selectedSegmentId) {
        return;
      }
      var segment := data.GetSegment(selectedSegmentId.value);
      if segment.None? {
        return;
      }
      var updates := KeyPatch(segment.value, key, shiftKey);
      if updates.Some? {
        var _ := data.UpdateSegment(selectedSegmentId.value, updates.value);
      }
    }
  }
}
