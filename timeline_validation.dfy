/**
 * `validateDataStructure` of the timeline editor's segment store
 * (_archived/reference/tools/timeline_integrated/core/DataManager.js:59-95): the checks
 * a decoded transcript must pass before it is loaded, reporting the first failure.
 */
module TimelineValidation {
  import opened Wrappers
  import Seqs
  import opened Strings
  import opened JsonValues

  /** A thrown error: one of the method's own messages, or the TypeError of reading a property of `null`. */
  datatype Failure = Invalid(message: string) | NullAccess

  /** `value.key` on a value that is not `null`: an object's property, `undefined` (`None`) on anything else. */
  function Prop(j: Json, key: string): (r: Option<Json>)
    ensures r.Some? <==> j.JObj? && key in j.fields
  {
    if j.JObj? && key in j.fields then Some(j.fields[key]) else None
  }

  /** `v && typeof v === 'string'`: a non-empty string. */
  predicate IsText(v: Option<Json>)
  {
    v.Some? && v.value.JStr? && v.value.s != ""
  }

  /** `typeof v === 'number'`. */
  predicate IsNumber(v: Option<Json>)
  {
    v.Some? && (v.value.JInt? || v.value.JReal?)
  }

  function NumberOf(v: Option<Json>): real
    requires IsNumber(v)
  {
    AsNumber(v.value).value
  }

  /** The `words` checked: only an array property is looked at. */
  function WordsOf(seg: Json): seq<Json>
  {
    var w := Prop(seg, "words");
    if w.Some? && w.value.JArr? then w.value.items else []
  }

  // ---------------------------------------------------------------- what a valid transcript is

  predicate WordOk(w: Json)
  {
    !w.JNull? && IsText(Prop(w, "text")) && IsNumber(Prop(w, "start")) && IsNumber(Prop(w, "end"))
  }

  function WordBad(w: Json): bool { !WordOk(w) }

  predicate SegmentOk(seg: Json)
  {
    && !seg.JNull?
    && IsText(Prop(seg, "text"))
    && IsNumber(Prop(seg, "start")) && IsNumber(Prop(seg, "end"))
    && NumberOf(Prop(seg, "start")) < NumberOf(Prop(seg, "end"))
    && forall i :: 0 <= i < |WordsOf(seg)| ==> WordOk(WordsOf(seg)[i])
  }

  function SegmentBad(seg: Json): bool { !SegmentOk(seg) }

  /** An object (or array) whose `segments` is an array of valid segments. */
  predicate ValidData(data: Json)
  {
    var segs := Prop(data, "segments");
    segs.Some? && segs.value.JArr? && forall i :: 0 <= i < |segs.value.items| ==> SegmentOk(segs.value.items[i])
  }

  // ---------------------------------------------------------------- the first failure

  /** The error thrown for a bad word `wi` of segment `si`. */
  function WordFailure(w: Json, wi: nat, si: nat): (r: Option<Failure>)
    ensures r.None? <==> WordOk(w)
  {
    if w.JNull? then Some(NullAccess)
    else if !IsText(Prop(w, "text")) then
      Some(Invalid("Invalid word " + NatToString(wi) + " in segment " + NatToString(si) + ": missing text"))
    else if !IsNumber(Prop(w, "start")) || !IsNumber(Prop(w, "end")) then
      Some(Invalid("Invalid word " + NatToString(wi) + " in segment " + NatToString(si) + ": missing timing"))
    else None
  }

  /** The error thrown for segment `si`: its own checks in order, then its first bad word. */
  function SegmentFailure(seg: Json, si: nat): (r: Option<Failure>)
    ensures r.None? <==> SegmentOk(seg)
  {
    if seg.JNull? then Some(NullAccess)
    else if !IsText(Prop(seg, "text")) then
      Some(Invalid("Invalid segment " + NatToString(si) + ": missing or invalid text"))
    else if !IsNumber(Prop(seg, "start")) || !IsNumber(Prop(seg, "end")) then
      Some(Invalid("Invalid segment " + NatToString(si) + ": missing or invalid start/end times"))
    else if NumberOf(Prop(seg, "start")) >= NumberOf(Prop(seg, "end")) then
      Some(Invalid("Invalid segment " + NatToString(si) + ": start time must be less than end time"))
    else
      var bad := Seqs.FirstIndex(WordsOf(seg), WordBad);
      if bad.Some? then WordFailure(WordsOf(seg)[bad.value], bad.value, si)
      else
        assert forall i :: 0 <= i < |WordsOf(seg)| ==> !WordBad(WordsOf(seg)[i]);
        None
  }

  /**
   * What `validateDataStructure` throws, if anything: anything but an object or an
   * array is refused, then a `segments` that is not an array, then the first bad segment.
   */
  function DataFailure(data: Json): (r: Option<Failure>)
    ensures r.None? <==> ValidData(data)
  {
    if !(data.JObj? || data.JArr?) then Some(Invalid("Invalid data: must be an object"))
    else
      var segs := Prop(data, "segments");
      if !(segs.Some? && segs.value.JArr?) then Some(Invalid("Invalid data: segments must be an array"))
      else
        var ss := segs.value.items;
        var bad := Seqs.FirstIndex(ss, SegmentBad);
        if bad.Some? then SegmentFailure(ss[bad.value], bad.value)
        else
          assert forall i :: 0 <= i < |ss| ==> !SegmentBad(ss[i]);
          None
  }

  /** A failure names the first offending segment; the ones before it passed every check. */
  lemma FailureNamesFirstBadSegment(data: Json, k: nat)
    requires data.JObj? && Prop(data, "segments").Some? && Prop(data, "segments").value.JArr?
    requires var ss := Prop(data, "segments").value.items;
      k < |ss| && !SegmentOk(ss[k]) && forall j :: 0 <= j < k ==> SegmentOk(ss[j])
    ensures DataFailure(data) == SegmentFailure(Prop(data, "segments").value.items[k], k)
  {
    var ss := Prop(data, "segments").value.items;
    var bad := Seqs.FirstIndex(ss, SegmentBad);
    assert SegmentBad(ss[k]);
    assert bad.Some?;
  }

  /** The words loop of one segment. */
  method CheckSegment(seg: Json, si: nat) returns (r: Option<Failure>)
    ensures r == SegmentFailure(seg, si)
  {
    if seg.JNull? {
      return Some(NullAccess);
    }
    if !IsText(Prop(seg, "text")) {
      return Some(Invalid("Invalid segment " + NatToString(si) + ": missing or invalid text"));
    }
    if !IsNumber(Prop(seg, "start")) || !IsNumber(Prop(seg, "end")) {
      return Some(Invalid("Invalid segment " + NatToString(si) + ": missing or invalid start/end times"));
    }
    if NumberOf(Prop(seg, "start")) >= NumberOf(Prop(seg, "end")) {
      return Some(Invalid("Invalid segment " + NatToString(si) + ": start time must be less than end time"));
    }
    var words := WordsOf(seg);
    var wi := 0;
    while wi < |words|
      invariant 0 <= wi <= |words|
      invariant forall j :: 0 <= j < wi ==> !WordBad(words[j])
    {
      var f := WordFailure(words[wi], wi, si);
      if f.Some? {
        assert WordBad(words[wi]);
        return f;
      }
      wi := wi + 1;
    }
    return None;
  }

  /** `validateDataStructure` (DataManager.js:59-95): `None` when nothing is thrown. */
  method ValidateDataStructure(data: Json) returns (r: Option<Failure>)
    ensures r == DataFailure(data)
    ensures r.None? <==> ValidData(data)
  {
    if !(data.JObj? || data.JArr?) {
      return Some(Invalid("Invalid data: must be an object"));
    }
    var segs := Prop(data, "segments");
    if !(segs.Some? && segs.value.JArr?) {
      return Some(Invalid("Invalid data: segments must be an array"));
    }
    var ss := segs.value.items;
    var i := 0;
    while i < |ss|
      invariant 0 <= i <= |ss|
      invariant forall j :: 0 <= j < i ==> !SegmentBad(ss[j])
    {
      var f := CheckSegment(ss[i], i);
      if f.Some? {
        assert SegmentBad(ss[i]);
        return f;
      }
      i := i + 1;
    }
    return None;
  }
}
