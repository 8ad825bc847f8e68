/**
 * The segment store of the timeline editor
 * (_archived/reference/tools/timeline_integrated/core/DataManager.js): a list of
 * transcript segments edited in place, looked up by a loosely typed id, with a
 * per-id cache of copies.
 */
module TimelineData {
  import opened Wrappers
  import Seqs
  import opened Strings

  /** A JavaScript id value: a string or an integral number. */
  datatype Key = KStr(s: string) | KNum(n: int)

  /** A word; `rest` stands for the other properties the object spreads copy. */
  datatype DmWord = DmWord(text: string, start: real, end: real, rest: seq<(string, string)>)

  /** A segment object; an absent property is `None`. */
  datatype DmSegment = DmSegment(
    id: Option<Key>, segmentId: Option<Key>, text: string, start: real, end: real, words: Option<seq<DmWord>>)

  /** The properties of a `changes` object; an absent one is `None`. */
  datatype Patch = Patch(
    id: Option<Key>, segmentId: Option<Key>, text: Option<string>, start: Option<real>, end: Option<real>,
    words: Option<seq<DmWord>>)

  /** JavaScript truthiness of an id property: absent, `""` and `0` are false. */
  predicate Truthy(k: Option<Key>)
  {
    k.Some? && match k.value
      case KStr(s) => s != ""
      case KNum(n) => n != 0
  }

  /** `${id}` in a message. */
  function KeyText(k: Key): string
  {
    match k
    case KStr(s) => s
    case KNum(n) => IntToString(n)
  }

  // ---------------------------------------------------------------- parseInt

  /** The longest run of decimal digits at the head of `s`. */
  function DigitRun(s: string): (r: string)
    ensures AllDigits(r) && |r| <= |s| && r == s[..|r|]
    ensures |r| < |s| ==> !IsDigit(s[|r|])
  {
    if s == [] || !IsDigit(s[0]) then []
    else
      var t := DigitRun(s[1..]);
      [s[0]] + t
  }

  /**
   * `parseInt(text)`: leading white space skipped, an optional sign, then the decimal
   * digits up to the first other character; `None` stands for NaN (no digit at all).
   */
  function ParseIntText(s: string): Option<int>
  {
    var t := TrimStartWith(s, IsJsSpace);
    var body := if t != [] && (t[0] == '-' || t[0] == '+') then t[1..] else t;
    var d := DigitRun(body);
    var v: int := if d == [] then 0 else DigitsValue(d);
    if d == [] then None
    else if t != [] && t[0] == '-' then Some(-v)
    else Some(v)
  }

  /** `parseInt(id)`: a number is its own integer, a string is parsed. */
  function ParseInt(k: Key): Option<int>
  {
    match k
    case KNum(n) => Some(n)
    case KStr(s) => ParseIntText(s)
  }

  lemma {:induction false} DigitRunAll(s: string)
    requires AllDigits(s)
    ensures DigitRun(s) == s
  {
    if s != [] {
      DigitRunAll(s[1..]);
    }
  }

  /** Text that starts with a digit or a sign has no leading white space to skip. */
  lemma NoLeadingSpace(s: string)
    requires s != [] && (IsDigit(s[0]) || s[0] == '-')
    ensures TrimStartWith(s, IsJsSpace) == s
  {
    assert !IsJsSpace(s[0]);
  }

  /** The digits of a natural number parse back to it. */
  lemma ParseIntOfDigits(m: nat)
    ensures DigitRun(NatToString(m)) == NatToString(m)
    ensures DigitsValue(NatToString(m)) == m
  {
    DigitsValueOfNatToString(m);
    DigitRunAll(NatToString(m));
  }

  /** `parseInt` reads back the decimal text of any integer. */
  lemma ParseIntOfText(n: int)
    ensures ParseIntText(IntToString(n)) == Some(n)
  {
    var m := if n < 0 then -n else n;
    var digits := NatToString(m);
    NatToStringFacts(m);
    ParseIntOfDigits(m);
    var s := IntToString(n);
    if n < 0 {
      assert s == "-" + digits;
      NoLeadingSpace(s);
      assert s[1..] == digits;
    } else {
      assert s == digits;
      assert IsDigit(s[0]);
      NoLeadingSpace(s);
    }
  }

  /**
   * The lookup predicate of `getSegment` and `updateSegment`:
   * `s.id === id || s.segment_id === id || s.id === parseInt(id)`.
   */
  predicate Matches(s: DmSegment, k: Key)
  {
    s.id == Some(k) || s.segmentId == Some(k) || (ParseInt(k).Some? && s.id == Some(KNum(ParseInt(k).value)))
  }

  function MatchesKey(k: Key): DmSegment -> bool { (s: DmSegment) => Matches(s, k) }

  /** A numeric id is found under its decimal text too: `getSegment("7")` finds the segment with id 7. */
  lemma TextKeyFindsNumericId(s: DmSegment, n: int)
    requires s.id == Some(KNum(n))
    ensures Matches(s, KStr(IntToString(n)))
  {
    ParseIntOfText(n);
  }

  // ---------------------------------------------------------------- changes

  /** `{ ...s, ...p }`: each property present in the patch replaces the segment's. */
  function Merge(s: DmSegment, p: Patch): (r: DmSegment)
    ensures p.id.None? ==> r.id == s.id
    ensures p.segmentId.None? ==> r.segmentId == s.segmentId
    ensures p.text.None? ==> r.text == s.text
    ensures p.start.None? ==> r.start == s.start
    ensures p.end.None? ==> r.end == s.end
    ensures p.words.None? ==> r.words == s.words
  {
    DmSegment(
      if p.id.Some? then p.id else s.id,
      if p.segmentId.Some? then p.segmentId else s.segmentId,
      if p.text.Some? then p.text.value else s.text,
      if p.start.Some? then p.start.value else s.start,
      if p.end.Some? then p.end.value else s.end,
      if p.words.Some? then Some(p.words.value) else s.words)
  }

  /** Merging nothing leaves a segment as it was; merging is idempotent. */
  lemma MergeLaws(s: DmSegment, p: Patch)
    ensures Merge(s, Patch(None, None, None, None, None, None)) == s
    ensures Merge(Merge(s, p), p) == Merge(s, p)
  {
  }

  /**
   * `validateSegmentChanges`: when the changes touch the timing, the merged segment
   * must start before it ends. The overlap check only logs a warning.
   */
  function ValidateSegmentChanges(s: DmSegment, changes: Patch): (r: Result<(), string>)
    ensures r.Err? <==> (changes.start.Some? || changes.end.Some?) && s.start >= s.end
    ensures r.Err? ==> r.error == "Invalid timing: start must be less than end"
  {
    if (changes.start.Some? || changes.end.Some?) && s.start >= s.end then
      Err("Invalid timing: start must be less than end")
    else Ok(())
  }

  /** Changes that leave the timing alone never fail validation and keep a well-timed segment well timed. */
  lemma ValidChangesKeepTiming(s: DmSegment, changes: Patch)
    requires s.start < s.end
    requires ValidateSegmentChanges(Merge(s, changes), changes).Ok?
    ensures Merge(s, changes).start < Merge(s, changes).end
  {
  }

  // ---------------------------------------------------------------- queries

  /** `segment.start < endTime && segment.end > startTime`: the open intervals meet. */
  function InTimeRange(startTime: real, endTime: real): DmSegment -> bool
  {
    (s: DmSegment) => s.start < endTime && s.end > startTime
  }

  function CoversTime(t: real): DmSegment -> bool
  {
    (s: DmSegment) => t >= s.start && t <= s.end
  }

  function RemoveAt<T>(xs: seq<T>, i: nat): (r: seq<T>)
    requires i < |xs|
    ensures |r| == |xs| - 1
    ensures forall j :: 0 <= j < i ==> r[j] == xs[j]
    ensures forall j :: i <= j < |r| ==> r[j] == xs[j + 1]
  {
    xs[..i] + xs[i + 1..]
  }

  // ---------------------------------------------------------------- deleteSegment as written

  datatype DeleteFailure = NotFound | ReferenceError

  /**
   * The index `deleteSegment` finds as written: its predicate reads an undeclared `id`
   * in the third disjunct, so the search throws a ReferenceError at the first segment
   * that does not match by `id` or `segment_id`; only an empty list reaches "not found".
   */
  function DeleteIndexAsWritten(segments: seq<DmSegment>, k: Key): (r: Result<nat, DeleteFailure>)
    ensures r.Ok? ==> segments != [] && r.value == 0 && Matches(segments[0], k)
    ensures r == Err(NotFound) <==> segments == []
  {
    if segments == [] then Err(NotFound)
    else if segments[0].id == Some(k) || segments[0].segmentId == Some(k) then Ok(0)
    else Err(ReferenceError)
  }

  /**
   * Deleting the second of two segments fails as written, while the lookup the method
   * evidently intends (the same one `updateSegment` uses) finds it.
   */
  lemma DeleteAsWrittenMissesSecond()
    ensures var a := DmSegment(Some(KNum(0)), None, "a", 0.0, 1.0, None);
      var b := DmSegment(Some(KNum(1)), None, "b", 1.0, 2.0, None);
      DeleteIndexAsWritten([a, b], KNum(1)) == Err(ReferenceError)
      && Seqs.FirstIndex([a, b], MatchesKey(KNum(1))) == Some(1)
  {
    var a := DmSegment(Some(KNum(0)), None, "a", 0.0, 1.0, None);
    var b := DmSegment(Some(KNum(1)), None, "b", 1.0, 2.0, None);
    assert !MatchesKey(KNum(1))(a);
    assert MatchesKey(KNum(1))(b);
  }

  // ---------------------------------------------------------------- cache after updateSegment as written

  /** `this.segmentCache.delete(id)`: `updateSegment` drops only the entry stored under the id it was given. */
  function CacheAfterUpdateAsWritten(cache: map<Key, DmSegment>, k: Key): (r: map<Key, DmSegment>)
    ensures k !in r
    ensures forall j :: j in r <==> j in cache && j != k
  {
    cache - {k}
  }

  /** Every cached copy is what a fresh lookup of its key would return. */
  predicate Coherent(segments: seq<DmSegment>, cache: map<Key, DmSegment>)
  {
    forall j :: j in cache ==> Seqs.FirstMatch(segments, MatchesKey(j)) == Some(cache[j])
  }

  /** The segment list `updateSegment` leaves behind: unchanged when it fails. */
  function AfterUpdate(segments: seq<DmSegment>, k: Key, changes: Patch): seq<DmSegment>
  {
    var i := Seqs.FirstIndex(segments, MatchesKey(k));
    if i.None? then segments
    else
      var merged := Merge(segments[i.value], changes);
      if ValidateSegmentChanges(merged, changes).Err? then segments else segments[i.value := merged]
  }

  /**
   * A segment with id 1, cached under the number 1 and then updated through the text
   * "1", stays cached with its old text: the next `getSegment(1)` returns a stale copy.
   */
  lemma UpdateAsWrittenLeavesStaleCopy()
    ensures var old1 := DmSegment(Some(KNum(1)), None, "old", 0.0, 1.0, None);
      var new1 := old1.(text := "new");
      Coherent([old1], map[KNum(1) := old1])
      && Seqs.FirstIndex([old1], MatchesKey(KStr("1"))) == Some(0)
      && !Coherent([new1], CacheAfterUpdateAsWritten(map[KNum(1) := old1], KStr("1")))
  {
    var old1 := DmSegment(Some(KNum(1)), None, "old", 0.0, 1.0, None);
    var new1 := old1.(text := "new");
    ParseIntOfText(1);
    assert IntToString(1) == "1";
    assert MatchesKey(KStr("1"))(old1);
    assert MatchesKey(KNum(1))(old1);
    assert MatchesKey(KNum(1))(new1);
    var stale := CacheAfterUpdateAsWritten(map[KNum(1) := old1], KStr("1"));
    assert KNum(1) in stale && stale[KNum(1)] == old1;
    assert Seqs.FirstMatch([new1], MatchesKey(KNum(1))) == Some(new1);
  }

  // ---------------------------------------------------------------- the manager

  class DataManager {
    var segments: seq<DmSegment>
    var segmentCache: map<Key, DmSegment>

    /** Every cached copy agrees with the list. */
    predicate CacheCoherent()
      reads this
    {
      Coherent(segments, segmentCache)
    }

    /** Every segment starts before it ends. */
    predicate WellTimed()
      reads this
    {
      forall i :: 0 <= i < |segments| ==> segments[i].start < segments[i].end
    }

    constructor()
      ensures segments == [] && segmentCache == map[]
      ensures CacheCoherent() && WellTimed()
    {
      segments := [];
      segmentCache := map[];
    }

    /** `clearCaches`. */
    method ClearCaches()
      modifies this
      ensures segments == old(segments) && segmentCache == map[]
      ensures CacheCoherent()
    {
      segmentCache := map[];
    }

    /** `this.segments.findIndex(...)` with the lookup predicate. */
    method FindIndex(k: Key) returns (r: Option<nat>)
      ensures r == Seqs.FirstIndex(segments, MatchesKey(k))
    {
      var i := 0;
      while i < |segments|
        invariant 0 <= i <= |segments|
        invariant forall j :: 0 <= j < i ==> !MatchesKey(k)(segments[j])
      {
        if Matches(segments[i], k) {
          return Some(i);
        }
        i := i + 1;
      }
      return None;
    }

    /**
     * `getSegment` (DataManager.js:109-123): a cached copy when there is one, otherwise
     * the first matching segment, which is then cached. With a coherent cache the
     * answer is always the first matching segment.
     */
    method GetSegment(k: Key) returns (r: Option<DmSegment>)
      modifies this
      ensures segments == old(segments)
      ensures k in old(segmentCache) ==> r == Some(old(segmentCache)[k]) && segmentCache == old(segmentCache)
      ensures k !in old(segmentCache) ==> r == Seqs.FirstMatch(segments, MatchesKey(k))
      ensures k !in old(segmentCache) ==>
        segmentCache == if r.Some? then old(segmentCache)[k := r.value] else old(segmentCache)
      ensures old(CacheCoherent()) ==> CacheCoherent() && r == Seqs.FirstMatch(segments, MatchesKey(k))
    {
      if k in segmentCache {
        return Some(segmentCache[k]);
      }
      var i := FindIndex(k);
      if i.None? {
        return None;
      }
      r := Some(segments[i.value]);
      segmentCache := segmentCache[k := segments[i.value]];
    }

    /** `getSegmentsInTimeRange` (DataManager.js:126-130). */
    function SegmentsInTimeRange(startTime: real, endTime: real): (r: seq<DmSegment>)
      reads this
      ensures |r| <= |segments|
      ensures forall s :: s in r <==> s in segments && s.start < endTime && s.end > startTime
    {
      Seqs.FilterFacts(segments, InTimeRange(startTime, endTime));
      Seqs.Filter(segments, InTimeRange(startTime, endTime))
    }

    /** `getSegmentAtTime` (DataManager.js:133-137): the first segment with `start <= t <= end`. */
    function SegmentAtTime(t: real): (r: Option<DmSegment>)
      reads this
      ensures r.Some? ==> r.value in segments && r.value.start <= t <= r.value.end
      ensures r.None? <==> forall i :: 0 <= i < |segments| ==> !(segments[i].start <= t <= segments[i].end)
      ensures r.Some? ==> exists i :: 0 <= i < |segments| && segments[i] == r.value
                                      && forall j :: 0 <= j < i ==> !(segments[j].start <= t <= segments[j].end)
    {
      var i := Seqs.FirstIndex(segments, CoversTime(t));
      if i.Some? then
        assert forall j :: 0 <= j < i.value ==> !CoversTime(t)(segments[j]);
        Some(segments[i.value])
      else None
    }

    /**
     * `updateSegment` (DataManager.js:140-170) with `validateSegmentChanges`
     * (DataManager.js:173-191): fails when no segment matches or when changed timing
     * leaves start at or after end, in both cases before anything changes; otherwise
     * replaces only the matching entry with the merge and clears the cache.
     */
    method UpdateSegment(k: Key, changes: Patch) returns (r: Result<DmSegment, string>)
      modifies this
      ensures var i := Seqs.FirstIndex(old(segments), MatchesKey(k));
        if i.None? then
          r == Err("Segment " + KeyText(k) + " not found") && segments == old(segments) && segmentCache == old(segmentCache)
        else
          var merged := Merge(old(segments)[i.value], changes);
          if ValidateSegmentChanges(merged, changes).Err? then
            r == Err(ValidateSegmentChanges(merged, changes).error)
            && segments == old(segments) && segmentCache == old(segmentCache)
          else
            r == Ok(merged) && segments == old(segments)[i.value := merged] && segmentCache == map[]
      ensures segments == AfterUpdate(old(segments), k, changes)
      ensures old(CacheCoherent()) ==> CacheCoherent()
      ensures old(WellTimed()) ==> WellTimed()
    {
      var i := FindIndex(k);
      if i.None? {
        return Err("Segment " + KeyText(k) + " not found");
      }
      var merged := Merge(segments[i.value], changes);
      var valid := ValidateSegmentChanges(merged, changes);
      if valid.Err? {
        return Err(valid.error);
      }
      segments := segments[i.value := merged];
      segmentCache := map[];
      return Ok(merged);
    }

    /**
     * `createSegment` (DataManager.js:336-361): defaults (id `segment_<now>`, empty text,
     * 0 to 1, no words) overridden by the data, validated, appended; caches cleared.
     */
    method CreateSegment(now: nat, data: Patch) returns (r: Result<DmSegment, string>)
      modifies this
      ensures var s := Merge(DmSegment(Some(KStr("segment_" + NatToString(now))), None, "", 0.0, 1.0, Some([])), data);
        if ValidateSegmentChanges(s, data).Err? then
          r == Err(ValidateSegmentChanges(s, data).error) && segments == old(segments) && segmentCache == old(segmentCache)
        else
          r == Ok(s) && segments == old(segments) + [s] && segmentCache == map[]
      ensures old(CacheCoherent()) ==> CacheCoherent()
      ensures old(WellTimed()) ==> WellTimed()
    {
      var s := Merge(DmSegment(Some(KStr("segment_" + NatToString(now))), None, "", 0.0, 1.0, Some([])), data);
      var valid := ValidateSegmentChanges(s, data);
      if valid.Err? {
        return Err(valid.error);
      }
      segments := segments + [s];
      segmentCache := map[];
      return Ok(s);
    }

    /**
     * `deleteSegment` (DataManager.js:364-385) with the lookup evidently intended: removes
     * the first matching segment and returns it, keeping the others in order, and clears
     * the caches; fails with "not found" when nothing matches.
     */
    method DeleteSegment(k: Key) returns (r: Result<DmSegment, string>)
      modifies this
      ensures var i := Seqs.FirstIndex(old(segments), MatchesKey(k));
        if i.None? then
          r == Err("Segment " + KeyText(k) + " not found") && segments == old(segments) && segmentCache == old(segmentCache)
        else
          r == Ok(old(segments)[i.value]) && segments == RemoveAt(old(segments), i.value) && segmentCache == map[]
      ensures old(CacheCoherent()) ==> CacheCoherent()
      ensures old(WellTimed()) ==> WellTimed()
    {
      var i := FindIndex(k);
      if i.None? {
        return Err("Segment " + KeyText(k) + " not found");
      }
      r := Ok(segments[i.value]);
      segments := RemoveAt(segments, i.value);
      segmentCache := map[];
    }
  }
}
