/**
 * The shared data model (core/models.py): words, segments, transcripts,
 * segment references, clips, videos and projects, their dictionary forms
 * (`to_dict` / `from_dict`) and the first-match lookups.
 */
module CoreModels {
  import opened Wrappers
  import opened JsonValues
  import Seqs

  datatype Word = Word(text: string, start: real, end: real)

  datatype Segment = Segment(id: string, text: string, start: real, end: real, words: seq<Word>, speaker: Option<string>)

  datatype Transcript = Transcript(videoId: string, duration: real, segments: seq<Segment>, language: string)

  datatype SegmentRef = SegmentRef(videoId: string, segmentId: string)

  datatype Clip = Clip(id: string, name: string, segments: seq<SegmentRef>, selectedSegment: Option<SegmentRef>, included: bool)

  datatype Video = Video(id: string, path: string, transcriptPath: Option<string>)

  datatype Project = Project(version: int, videos: seq<Video>, clips: seq<Clip>, timelineOrder: seq<string>)

  /** Why `from_dict` fails: a `KeyError`, a value that is not a dict, or a value of the wrong kind. */
  datatype DecodeError = MissingKey(key: string) | NotAnObject | WrongType(key: string)

  // ---------------------------------------------------------------- derived values

  /** `Word.duration` and `Segment.duration` (core/models.py:34-36, 69-71). */
  function WordDuration(w: Word): (d: real)
    ensures w.start + d == w.end
  {
    w.end - w.start
  }

  function SegmentDuration(s: Segment): (d: real)
    ensures s.start + d == s.end
  {
    s.end - s.start
  }

  /** `Segment.word_count` (core/models.py:73-75). */
  function WordCount(s: Segment): (n: nat)
    ensures n == |s.words|
  {
    |s.words|
  }

  // ---------------------------------------------------------------- reading dict fields

  /** `data[key]`. */
  function Field(data: map<string, Json>, key: string): (r: Result<Json, DecodeError>)
    ensures r.Ok? <==> key in data
    ensures r.Ok? ==> r.value == data[key]
    ensures r.Err? ==> r.error == MissingKey(key)
  {
    if key in data then Ok(data[key]) else Err(MissingKey(key))
  }

  function StrOf(j: Json, key: string): (r: Result<string, DecodeError>)
    ensures r.Ok? <==> j.JStr?
    ensures r.Ok? ==> r.value == j.s
  {
    if j.JStr? then Ok(j.s) else Err(WrongType(key))
  }

  function NumOf(j: Json, key: string): (r: Result<real, DecodeError>)
    ensures r.Ok? <==> j.JInt? || j.JReal?
  {
    match j
    case JInt(i) => Ok(i as real)
    case JReal(x) => Ok(x)
    case _ => Err(WrongType(key))
  }

  /** `data[key]` holding a string. */
  function StrField(data: map<string, Json>, key: string): (r: Result<string, DecodeError>)
    ensures r.Ok? <==> key in data && data[key].JStr?
    ensures r.Ok? ==> r.value == data[key].s
  {
    if key in data then StrOf(data[key], key) else Err(MissingKey(key))
  }

  /** `data[key]` holding a number. */
  function NumField(data: map<string, Json>, key: string): (r: Result<real, DecodeError>)
    ensures key in data && data[key].JReal? ==> r == Ok(data[key].r)
    ensures key !in data ==> r == Err(MissingKey(key))
  {
    if key in data then NumOf(data[key], key) else Err(MissingKey(key))
  }

  /** `data.get(key)` for an optional string: a missing key and `None` both give `None`. */
  function OptStrField(data: map<string, Json>, key: string): (r: Result<Option<string>, DecodeError>)
    ensures key !in data || data[key] == JNull ==> r == Ok(None)
    ensures key in data && data[key].JStr? ==> r == Ok(Some(data[key].s))
  {
    if key !in data || data[key] == JNull then Ok(None)
    else if data[key].JStr? then Ok(Some(data[key].s))
    else Err(WrongType(key))
  }

  /** `data.get(key, [])` for a list. */
  function ListField(data: map<string, Json>, key: string): (r: Result<seq<Json>, DecodeError>)
    ensures key !in data ==> r == Ok([])
    ensures key in data && data[key].JArr? ==> r == Ok(data[key].items)
  {
    if key !in data then Ok([])
    else if data[key].JArr? then Ok(data[key].items)
    else Err(WrongType(key))
  }

  /** `[T.from_dict(x) for x in items]`: the first failure wins. */
  function DecodeList<T>(items: seq<Json>, decode: Json -> Result<T, DecodeError>): (r: Result<seq<T>, DecodeError>)
    ensures r.Ok? ==> |r.value| == |items|
  {
    if items == [] then Ok([])
    else
      var init := DecodeList(items[..|items| - 1], decode);
      if init.Err? then Err(init.error)
      else
        var last := decode(items[|items| - 1]);
        if last.Err? then Err(last.error) else Ok(init.value + [last.value])
  }

  /** Decoding what `encode` wrote gives back every element. */
  lemma {:induction false} DecodeListRoundTrip<T>(xs: seq<T>, encode: T -> Json, decode: Json -> Result<T, DecodeError>)
    requires forall i :: 0 <= i < |xs| ==> decode(encode(xs[i])) == Ok(xs[i])
    ensures DecodeList(Seqs.Map(xs, encode), decode) == Ok(xs)
    decreases |xs|
  {
    if xs != [] {
      var init := xs[..|xs| - 1];
      DecodeListRoundTrip(init, encode, decode);
      var m := Seqs.Map(xs, encode);
      assert m[..|m| - 1] == Seqs.Map(init, encode);
      assert init + [xs[|xs| - 1]] == xs;
    }
  }

  // ---------------------------------------------------------------- Word

  /** `Word.to_dict` (core/models.py:23-24). */
  function WordToDict(w: Word): Json
  {
    JObj(map["text" := JStr(w.text), "start" := JReal(w.start), "end" := JReal(w.end)])
  }

  /** `Word.from_dict` (core/models.py:26-32). */
  function WordFromDict(j: Json): (r: Result<Word, DecodeError>)
    ensures !j.JObj? ==> r == Err(NotAnObject)
  {
    if !j.JObj? then Err(NotAnObject)
    else
      var text := StrField(j.fields, "text");
      var start := NumField(j.fields, "start");
      var end := NumField(j.fields, "end");
      if text.Err? then Err(text.error)
      else if start.Err? then Err(start.error)
      else if end.Err? then Err(end.error)
      else Ok(Word(text.value, start.value, end.value))
  }

  lemma WordRoundTrip(w: Word)
    ensures WordFromDict(WordToDict(w)) == Ok(w)
  {
  }

  // ---------------------------------------------------------------- Segment

  function OptStrJson(o: Option<string>): Json
  {
    if o.Some? then JStr(o.value) else JNull
  }

  /** `Segment.to_dict` (core/models.py:48-56): the id is written under `segment_id`. */
  function SegmentToDict(s: Segment): Json
  {
    JObj(map["segment_id" := JStr(s.id), "text" := JStr(s.text), "start" := JReal(s.start), "end" := JReal(s.end),
             "words" := JArr(Seqs.Map(s.words, WordToDict)), "speaker" := OptStrJson(s.speaker)])
  }

  /** The id `Segment.from_dict` reads: `segment_id`, else `id`, else the empty string. */
  function SegmentIdField(data: map<string, Json>): (r: Result<string, DecodeError>)
    ensures "segment_id" in data && data["segment_id"].JStr? ==> r == Ok(data["segment_id"].s)
    ensures "segment_id" !in data && "id" in data && data["id"].JStr? ==> r == Ok(data["id"].s)
    ensures "segment_id" !in data && "id" !in data ==> r == Ok("")
  {
    if "segment_id" in data then StrOf(data["segment_id"], "segment_id")
    else if "id" in data then StrOf(data["id"], "id")
    else Ok("")
  }

  /** `Segment.from_dict` (core/models.py:58-67). */
  function SegmentFromDict(j: Json): (r: Result<Segment, DecodeError>)
    ensures !j.JObj? ==> r == Err(NotAnObject)
  {
    if !j.JObj? then Err(NotAnObject)
    else
      var d := j.fields;
      var id := SegmentIdField(d);
      var text := StrField(d, "text");
      var start := NumField(d, "start");
      var end := NumField(d, "end");
      var wordItems := ListField(d, "words");
      var speaker := OptStrField(d, "speaker");
      if id.Err? then Err(id.error)
      else if text.Err? then Err(text.error)
      else if start.Err? then Err(start.error)
      else if end.Err? then Err(end.error)
      else if wordItems.Err? then Err(wordItems.error)
      else
        var words := DecodeList(wordItems.value, WordFromDict);
        if words.Err? then Err(words.error)
        else if speaker.Err? then Err(speaker.error)
        else Ok(Segment(id.value, text.value, start.value, end.value, words.value, speaker.value))
  }

  lemma SegmentRoundTrip(s: Segment)
    ensures SegmentFromDict(SegmentToDict(s)) == Ok(s)
  {
    forall i | 0 <= i < |s.words|
      ensures WordFromDict(WordToDict(s.words[i])) == Ok(s.words[i])
    {
      WordRoundTrip(s.words[i]);
    }
    DecodeListRoundTrip(s.words, WordToDict, WordFromDict);
  }

  // ---------------------------------------------------------------- Transcript

  /** `Transcript.to_dict` (core/models.py:85-91). */
  function TranscriptToDict(t: Transcript): Json
  {
    JObj(map["video_id" := JStr(t.videoId), "duration" := JReal(t.duration), "language" := JStr(t.language),
             "segments" := JArr(Seqs.Map(t.segments, SegmentToDict))])
  }

  /**
   * `Transcript.from_dict(data, video_id)` (core/models.py:93-101). The
   * override is used when truthy, so `None` and `""` both mean none.
   */
  function TranscriptFromDict(j: Json, overrideId: string): (r: Result<Transcript, DecodeError>)
    ensures !j.JObj? ==> r == Err(NotAnObject)
    ensures r.Ok? && overrideId != "" ==> r.value.videoId == overrideId
  {
    if !j.JObj? then Err(NotAnObject)
    else
      var d := j.fields;
      var segItems := ListField(d, "segments");
      if segItems.Err? then Err(segItems.error)
      else
        var segments := DecodeList(segItems.value, SegmentFromDict);
        if segments.Err? then Err(segments.error)
        else
          var videoId := if overrideId != "" then Ok(overrideId) else if "video_id" in d then StrOf(d["video_id"], "video_id") else Ok("");
          var duration := if "duration" in d then NumOf(d["duration"], "duration") else Ok(0.0);
          var language := if "language" in d then StrOf(d["language"], "language") else Ok("en");
          if videoId.Err? then Err(videoId.error)
          else if duration.Err? then Err(duration.error)
          else if language.Err? then Err(language.error)
          else Ok(Transcript(videoId.value, duration.value, segments.value, language.value))
  }

  lemma SegmentsRoundTrip(segs: seq<Segment>)
    ensures DecodeList(Seqs.Map(segs, SegmentToDict), SegmentFromDict) == Ok(segs)
  {
    forall i | 0 <= i < |segs|
      ensures SegmentFromDict(SegmentToDict(segs[i])) == Ok(segs[i])
    {
      SegmentRoundTrip(segs[i]);
    }
    DecodeListRoundTrip(segs, SegmentToDict, SegmentFromDict);
  }

  lemma TranscriptRoundTrip(t: Transcript)
    ensures TranscriptFromDict(TranscriptToDict(t), "") == Ok(t)
  {
    SegmentsRoundTrip(t.segments);
  }

  /** A dict with no keys reads as an empty English transcript of duration 0. */
  lemma TranscriptDefaults(overrideId: string)
    ensures TranscriptFromDict(JObj(map[]), overrideId) == Ok(Transcript(overrideId, 0.0, [], "en"))
  {
  }

  // ---------------------------------------------------------------- SegmentRef, Clip, Video

  /** `SegmentRef.to_dict` / `from_dict` (core/models.py:116-121). */
  function SegmentRefToDict(r: SegmentRef): Json
  {
    JObj(map["video_id" := JStr(r.videoId), "segment_id" := JStr(r.segmentId)])
  }

  function SegmentRefFromDict(j: Json): (r: Result<SegmentRef, DecodeError>)
    ensures !j.JObj? ==> r == Err(NotAnObject)
  {
    if !j.JObj? then Err(NotAnObject)
    else
      var v := StrField(j.fields, "video_id");
      var s := StrField(j.fields, "segment_id");
      if v.Err? then Err(v.error)
      else if s.Err? then Err(s.error)
      else Ok(SegmentRef(v.value, s.value))
  }

  lemma SegmentRefRoundTrip(r: SegmentRef)
    ensures SegmentRefFromDict(SegmentRefToDict(r)) == Ok(r)
  {
  }

  /** `Clip.to_dict` (core/models.py:133-140). */
  function ClipToDict(c: Clip): Json
  {
    JObj(map["id" := JStr(c.id), "name" := JStr(c.name), "segments" := JArr(Seqs.Map(c.segments, SegmentRefToDict)),
             "selected_segment" := if c.selectedSegment.Some? then SegmentRefToDict(c.selectedSegment.value) else JNull,
             "include" := JBool(c.included)])
  }

  /** `Clip.from_dict` (core/models.py:142-154): a falsy `selected_segment` means none, a missing `include` means true. */
  function ClipFromDict(j: Json): (r: Result<Clip, DecodeError>)
    ensures !j.JObj? ==> r == Err(NotAnObject)
  {
    if !j.JObj? then Err(NotAnObject)
    else
      var d := j.fields;
      var refItems := ListField(d, "segments");
      if refItems.Err? then Err(refItems.error)
      else
        var refs := DecodeList(refItems.value, SegmentRefFromDict);
        if refs.Err? then Err(refs.error)
        else
          var selected :=
            if "selected_segment" in d && PyTruthy(d["selected_segment"]) then
              var s := SegmentRefFromDict(d["selected_segment"]);
              if s.Err? then Err(s.error) else Ok(Some(s.value))
            else Ok(None);
          var id := StrField(d, "id");
          var name := StrField(d, "name");
          var included := if "include" !in d then Ok(true) else if d["include"].JBool? then Ok(d["include"].b) else Err(WrongType("include"));
          if selected.Err? then Err(selected.error)
          else if id.Err? then Err(id.error)
          else if name.Err? then Err(name.error)
          else if included.Err? then Err(included.error)
          else Ok(Clip(id.value, name.value, refs.value, selected.value, included.value))
  }

  lemma ClipRoundTrip(c: Clip)
    ensures ClipFromDict(ClipToDict(c)) == Ok(c)
  {
    forall i | 0 <= i < |c.segments|
      ensures SegmentRefFromDict(SegmentRefToDict(c.segments[i])) == Ok(c.segments[i])
    {
      SegmentRefRoundTrip(c.segments[i]);
    }
    DecodeListRoundTrip(c.segments, SegmentRefToDict, SegmentRefFromDict);
    if c.selectedSegment.Some? {
      SegmentRefRoundTrip(c.selectedSegment.value);
    }
  }

  /** A clip dict without `include` or `selected_segment` reads as included and unselected. */
  lemma ClipDefaults(id: string, name: string)
    ensures ClipFromDict(JObj(map["id" := JStr(id), "name" := JStr(name)])) == Ok(Clip(id, name, [], None, true))
  {
  }

  /** `Video.to_dict` / `from_dict` (core/models.py:164-177). */
  function VideoToDict(v: Video): Json
  {
    JObj(map["id" := JStr(v.id), "path" := JStr(v.path), "transcript_path" := OptStrJson(v.transcriptPath)])
  }

  function VideoFromDict(j: Json): (r: Result<Video, DecodeError>)
    ensures !j.JObj? ==> r == Err(NotAnObject)
  {
    if !j.JObj? then Err(NotAnObject)
    else
      var id := StrField(j.fields, "id");
      var path := StrField(j.fields, "path");
      var tp := OptStrField(j.fields, "transcript_path");
      if id.Err? then Err(id.error)
      else if path.Err? then Err(path.error)
      else if tp.Err? then Err(tp.error)
      else Ok(Video(id.value, path.value, tp.value))
  }

  lemma VideoRoundTrip(v: Video)
    ensures VideoFromDict(VideoToDict(v)) == Ok(v)
  {
  }

  // ---------------------------------------------------------------- Project

  /** `Project.to_dict` (core/models.py:188-194). */
  function ProjectToDict(p: Project): Json
  {
    JObj(map["version" := JInt(p.version), "videos" := JArr(Seqs.Map(p.videos, VideoToDict)),
             "clips" := JArr(Seqs.Map(p.clips, ClipToDict)), "timeline_order" := JArr(Seqs.Map(p.timelineOrder, StrJson))])
  }

  function StrJson(s: string): Json
  {
    JStr(s)
  }

  function StrFromJson(j: Json): (r: Result<string, DecodeError>)
    ensures r.Ok? <==> j.JStr?
  {
    StrOf(j, "timeline_order")
  }

  /** `Project.from_dict` (core/models.py:196-203). */
  function ProjectFromDict(j: Json): (r: Result<Project, DecodeError>)
    ensures !j.JObj? ==> r == Err(NotAnObject)
  {
    if !j.JObj? then Err(NotAnObject)
    else
      var d := j.fields;
      var version := if "version" !in d then Ok(1) else if d["version"].JInt? then Ok(d["version"].i) else Err(WrongType("version"));
      var videoItems := ListField(d, "videos");
      var clipItems := ListField(d, "clips");
      var orderItems := ListField(d, "timeline_order");
      if version.Err? then Err(version.error)
      else if videoItems.Err? then Err(videoItems.error)
      else
        var videos := DecodeList(videoItems.value, VideoFromDict);
        if videos.Err? then Err(videos.error)
        else if clipItems.Err? then Err(clipItems.error)
        else
          var clips := DecodeList(clipItems.value, ClipFromDict);
          if clips.Err? then Err(clips.error)
          else if orderItems.Err? then Err(orderItems.error)
          else
            var order := DecodeList(orderItems.value, StrFromJson);
            if order.Err? then Err(order.error)
            else Ok(Project(version.value, videos.value, clips.value, order.value))
  }

  lemma ProjectRoundTrip(p: Project)
    ensures ProjectFromDict(ProjectToDict(p)) == Ok(p)
  {
    VideosRoundTrip(p.videos);
    ClipsRoundTrip(p.clips);
    DecodeListRoundTrip(p.timelineOrder, StrJson, StrFromJson);
  }

  lemma VideosRoundTrip(videos: seq<Video>)
    ensures DecodeList(Seqs.Map(videos, VideoToDict), VideoFromDict) == Ok(videos)
  {
    forall i | 0 <= i < |videos|
      ensures VideoFromDict(VideoToDict(videos[i])) == Ok(videos[i])
    {
      VideoRoundTrip(videos[i]);
    }
    DecodeListRoundTrip(videos, VideoToDict, VideoFromDict);
  }

  lemma ClipsRoundTrip(clips: seq<Clip>)
    ensures DecodeList(Seqs.Map(clips, ClipToDict), ClipFromDict) == Ok(clips)
  {
    forall i | 0 <= i < |clips|
      ensures ClipFromDict(ClipToDict(clips[i])) == Ok(clips[i])
    {
      ClipRoundTrip(clips[i]);
    }
    DecodeListRoundTrip(clips, ClipToDict, ClipFromDict);
  }

  /** An empty dict reads as a version-1 project with nothing in it. */
  lemma ProjectDefaults()
    ensures ProjectFromDict(JObj(map[])) == Ok(Project(1, [], [], []))
  {
  }

  // ---------------------------------------------------------------- lookups

  predicate SegmentHasId(id: string, s: Segment) { s.id == id }
  predicate ClipHasId(id: string, c: Clip) { c.id == id }
  predicate VideoHasId(id: string, v: Video) { v.id == id }

  /** `Transcript.get_segment` (core/models.py:103-107): the first segment with the id. */
  method GetSegment(t: Transcript, segmentId: string) returns (r: Option<Segment>)
    ensures r == Seqs.FirstMatch(t.segments, s => SegmentHasId(segmentId, s))
  {
    var p := (s: Segment) => SegmentHasId(segmentId, s);
    var i := 0;
    while i < |t.segments|
      invariant 0 <= i <= |t.segments|
      invariant Seqs.FirstMatch(t.segments, p) == Seqs.FirstMatch(t.segments[i..], p)
    {
      if t.segments[i].id == segmentId {
        return Some(t.segments[i]);
      }
      Seqs.FirstMatchSkip(t.segments, p, i);
      i := i + 1;
    }
    return None;
  }

  /** `Project.get_clip` (core/models.py:205-209). */
  method GetClip(p: Project, clipId: string) returns (r: Option<Clip>)
    ensures r == Seqs.FirstMatch(p.clips, c => ClipHasId(clipId, c))
  {
    var q := (c: Clip) => ClipHasId(clipId, c);
    var i := 0;
    while i < |p.clips|
      invariant 0 <= i <= |p.clips|
      invariant Seqs.FirstMatch(p.clips, q) == Seqs.FirstMatch(p.clips[i..], q)
    {
      if p.clips[i].id == clipId {
        return Some(p.clips[i]);
      }
      Seqs.FirstMatchSkip(p.clips, q, i);
      i := i + 1;
    }
    return None;
  }

  /** `Project.get_video` (core/models.py:211-215). */
  method GetVideo(p: Project, videoId: string) returns (r: Option<Video>)
    ensures r == Seqs.FirstMatch(p.videos, v => VideoHasId(videoId, v))
  {
    var q := (v: Video) => VideoHasId(videoId, v);
    var i := 0;
    while i < |p.videos|
      invariant 0 <= i <= |p.videos|
      invariant Seqs.FirstMatch(p.videos, q) == Seqs.FirstMatch(p.videos[i..], q)
    {
      if p.videos[i].id == videoId {
        return Some(p.videos[i]);
      }
      Seqs.FirstMatchSkip(p.videos, q, i);
      i := i + 1;
    }
    return None;
  }
}
