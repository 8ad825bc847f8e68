/**
 * The segment list manager of implementation/transcript_core/segments.py: an ordered
 * list of segments edited in place, with lookups by id and by time.
 */
module TranscriptSegments {
  import opened Wrappers
  import Seqs
  import opened Strings
  import opened TranscriptCore

  function SegmentHasId(id: string): Segment -> bool { (s: Segment) => s.id == id }

  /** Position of the first segment with this id. */
  function SegmentIndex(segments: seq<Segment>, id: string): Option<nat>
  {
    Seqs.FirstIndex(segments, SegmentHasId(id))
  }

  /** `start_time <= t <= end_time`, both ends included. */
  function ContainsTime(t: real): Segment -> bool { (s: Segment) => s.startTime <= t <= s.endTime }

  /** `not (seg.end_time < start or seg.start_time > end)`: the closed intervals meet. */
  function MeetsRange(start: real, end: real): Segment -> bool
  {
    (s: Segment) => !(s.endTime < start || s.startTime > end)
  }

  /** `del xs[i]`. */
  function RemoveAt<T>(xs: seq<T>, i: nat): (r: seq<T>)
    requires i < |xs|
    ensures |r| == |xs| - 1
  {
    xs[..i] + xs[i + 1..]
  }

  /** The earliest word start; `min(w.start_time for w in words)`. */
  function MinStart(words: seq<Word>): (r: real)
    requires words != []
    ensures forall i :: 0 <= i < |words| ==> r <= words[i].startTime
    ensures exists i :: 0 <= i < |words| && words[i].startTime == r
  {
    var n := |words| - 1;
    if n == 0 then words[0].startTime
    else
      var m := MinStart(words[..n]);
      assert forall i :: 0 <= i < n ==> words[..n][i] == words[i];
      if words[n].startTime < m then words[n].startTime else m
  }

  /** The latest word end; `max(w.end_time for w in words)`. */
  function MaxEnd(words: seq<Word>): (r: real)
    requires words != []
    ensures forall i :: 0 <= i < |words| ==> words[i].endTime <= r
    ensures exists i :: 0 <= i < |words| && words[i].endTime == r
  {
    var n := |words| - 1;
    if n == 0 then words[0].endTime
    else
      var m := MaxEnd(words[..n]);
      assert forall i :: 0 <= i < n ==> words[..n][i] == words[i];
      if words[n].endTime > m then words[n].endTime else m
  }

  function WordText(w: Word): string { w.text }

  /**
   * `create_segment_from_words` (segments.py:61-76): spans from the earliest word start
   * to the latest word end; without a text the words' texts are joined by spaces.
   */
  function CreateSegmentFromWords(id: string, words: seq<Word>, text: Option<string>): (r: Result<Segment, string>)
    ensures r.Err? <==> words == []
    ensures r.Err? ==> r.error == "Cannot create segment from empty word list"
    ensures r.Ok? ==>
      r.value.id == id && r.value.words == words &&
      (forall i :: 0 <= i < |words| ==> r.value.startTime <= words[i].startTime && words[i].endTime <= r.value.endTime) &&
      (exists i :: 0 <= i < |words| && words[i].startTime == r.value.startTime) &&
      (exists i :: 0 <= i < |words| && words[i].endTime == r.value.endTime) &&
      r.value.text == (if text.Some? then text.value else Join(Seqs.Map(words, WordText), " "))
  {
    if words == [] then Err("Cannot create segment from empty word list")
    else
      var t := if text.Some? then text.value else Join(Seqs.Map(words, WordText), " ");
      Ok(Segment(id, t, MinStart(words), MaxEnd(words), words))
  }

  /** A well-formed word list gives a well-formed segment: `start <= end`. */
  lemma CreatedSegmentOrdered(id: string, words: seq<Word>, text: Option<string>)
    requires words != []
    requires forall i :: 0 <= i < |words| ==> words[i].startTime <= words[i].endTime
    ensures CreateSegmentFromWords(id, words, text).Ok?
    ensures CreateSegmentFromWords(id, words, text).value.startTime <= CreateSegmentFromWords(id, words, text).value.endTime
  {
    assert MinStart(words) <= words[0].startTime <= words[0].endTime <= MaxEnd(words);
  }

  class SegmentManager {
    var segments: seq<Segment>

    constructor()
      ensures segments == []
    {
      segments := [];
    }

    /** `add_segment` (segments.py:9-10). */
    method AddSegment(segment: Segment)
      modifies this
      ensures segments == old(segments) + [segment]
    {
      segments := segments + [segment];
    }

    /** The `for seg in self._segments: if seg.id == id` loop, reporting the position. */
    method FindIndex(segmentId: string) returns (r: Option<nat>)
      ensures r == SegmentIndex(segments, segmentId)
    {
      var i := 0;
      while i < |segments|
        invariant 0 <= i <= |segments|
        invariant forall j :: 0 <= j < i ==> segments[j].id != segmentId
      {
        if segments[i].id == segmentId {
          return Some(i);
        }
        i := i + 1;
      }
      return None;
    }

    /** `remove_segment` (segments.py:12-17): deletes the first segment with the id. */
    method RemoveSegment(segmentId: string) returns (found: bool)
      modifies this
      ensures found == SegmentIndex(old(segments), segmentId).Some?
      ensures found ==> segments == RemoveAt(old(segments), SegmentIndex(old(segments), segmentId).value)
      ensures !found ==> segments == old(segments)
    {
      var i := FindIndex(segmentId);
      if i.None? {
        return false;
      }
      segments := RemoveAt(segments, i.value);
      return true;
    }

    /** `get_segment` (segments.py:19-23). */
    method GetSegment(segmentId: string) returns (r: Option<Segment>)
      ensures r == Seqs.FirstMatch(segments, SegmentHasId(segmentId))
    {
      var i := FindIndex(segmentId);
      r := if i.Some? then Some(segments[i.value]) else None;
    }

    /** `update_text` (segments.py:28-33): only the text of the first segment with the id changes. */
    method UpdateText(segmentId: string, newText: string) returns (ok: bool)
      modifies this
      ensures ok == SegmentIndex(old(segments), segmentId).Some?
      ensures ok ==>
        var i := SegmentIndex(old(segments), segmentId).value;
        segments == old(segments)[i := old(segments)[i].(text := newText)]
      ensures !ok ==> segments == old(segments)
    {
      var i := FindIndex(segmentId);
      if i.None? {
        return false;
      }
      segments := segments[i.value := segments[i.value].(text := newText)];
      return true;
    }

    /** `get_segment_at_time` (segments.py:35-39): the first segment with `start <= t <= end`. */
    method GetSegmentAtTime(timestamp: real) returns (r: Option<Segment>)
      ensures r == Seqs.FirstMatch(segments, ContainsTime(timestamp))
    {
      var i := 0;
      while i < |segments|
        invariant 0 <= i <= |segments|
        invariant forall j :: 0 <= j < i ==> !ContainsTime(timestamp)(segments[j])
      {
        if segments[i].startTime <= timestamp <= segments[i].endTime {
          assert ContainsTime(timestamp)(segments[i]);
          return Some(segments[i]);
        }
        i := i + 1;
      }
      return None;
    }

    /**
     * `get_segments_in_range` (segments.py:41-45): in list order, the segments whose
     * closed interval meets `[start, end]`.
     */
    function SegmentsInRange(start: real, end: real): (r: seq<Segment>)
      reads this
      ensures |r| <= |segments|
      ensures forall s :: s in r <==> s in segments && !(s.endTime < start || s.startTime > end)
    {
      Seqs.FilterFacts(segments, MeetsRange(start, end));
      Seqs.Filter(segments, MeetsRange(start, end))
    }

    /**
     * `reorder_segments` (segments.py:47-59): succeeds, replacing the list, when every id
     * resolves and there are as many ids as segments; otherwise nothing changes.
     */
    method ReorderSegments(segmentIds: seq<string>) returns (ok: bool)
      modifies this
      ensures ok == (Seqs.Resolve(old(segments), segmentIds, SegmentHasId).Some? && |segmentIds| == |old(segments)|)
      ensures ok ==> segments == Seqs.Resolve(old(segments), segmentIds, SegmentHasId).value
      ensures !ok ==> segments == old(segments)
    {
      var newOrder: seq<Segment> := [];
      var k := 0;
      while k < |segmentIds|
        invariant 0 <= k <= |segmentIds|
        invariant Seqs.Resolve(segments, segmentIds[..k], SegmentHasId) == Some(newOrder)
        invariant |newOrder| == k
        invariant segments == old(segments)
      {
        assert segmentIds[..k + 1][..k] == segmentIds[..k];
        var seg := GetSegment(segmentIds[k]);
        if seg.None? {
          Seqs.ResolveFacts(segments, segmentIds, SegmentHasId);
          return false;
        }
        newOrder := newOrder + [seg.value];
        k := k + 1;
      }
      assert segmentIds[..k] == segmentIds;
      if |newOrder| != |segments| {
        return false;
      }
      segments := newOrder;
      return true;
    }
  }

  /** After a successful reorder, position k holds a segment of the old list carrying ids[k]. */
  lemma ReorderedSegmentsMatchIds(segments: seq<Segment>, ids: seq<string>)
    requires Seqs.Resolve(segments, ids, SegmentHasId).Some?
    ensures var r := Seqs.Resolve(segments, ids, SegmentHasId).value;
      |r| == |ids| && forall k :: 0 <= k < |r| ==> r[k].id == ids[k] && r[k] in segments
  {
    Seqs.ResolveFacts(segments, ids, SegmentHasId);
  }
}
