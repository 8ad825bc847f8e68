/**
 * The row normalisation of the content database
 * (content-database/js/data-normalization.js): raw CSV rows become entries with fixed
 * fields, media records are attached by content id, and the filter menus list each field's
 * distinct values in order.
 */
module ContentNormalization {
  import opened Wrappers
  import Seqs
  import opened Strings
  import opened Sorting

  /** A raw row, header to cell, as the CSV reader builds it. */
  type RawRow = map<string, string>

  /** A record of `media.json`: its `content_id` as an object key, and its other properties. */
  datatype MediaRecord = MediaRecord(contentId: string, rest: seq<(string, string)>)

  /** A normalised entry. */
  datatype Entry = Entry(
    contentId: string, month: string, weekOf: string, releaseDate: string, showType: string,
    season: string, episode: string, mediaSource: string, attachedMedia: seq<MediaRecord>)

  /** `rawRow[key] || fallback`: a missing or empty cell gives the fallback. */
  function Cell(row: RawRow, key: string, fallback: string): (r: string)
    ensures key in row && row[key] != "" ==> r == row[key]
    ensures !(key in row && row[key] != "") ==> r == fallback
  {
    if key in row && row[key] != "" then row[key] else fallback
  }

  /**
   * `normalizeDate` (data-normalization.js:38-45). The `Date` parser is a parameter:
   * `isoOf(s)` is the `toISOString()` of `new Date(s)`, or none for an invalid date.
   */
  function NormalizeDate(s: string, isoOf: string -> Option<string>): (r: string)
    ensures s == "" ==> r == ""
    ensures s != "" && isoOf(s).None? ==> r == s
    ensures s != "" && isoOf(s).Some? ==> Excludes(r, 'T') && StartsWith(isoOf(s).value, r)
  {
    if s == "" then ""
    else match isoOf(s)
      case None => s
      case Some(iso) =>
        SplitOnFacts(iso, 'T');
        SplitOnPrefix(iso, 'T');
        SplitOn(iso, 'T')[0]
  }

  /** The first field of a split is a prefix of the text. */
  lemma SplitOnPrefix(s: string, sep: char)
    ensures StartsWith(s, SplitOn(s, sep)[0])
  {
    SplitOnFacts(s, sep);
    var parts := SplitOn(s, sep);
    if |parts| > 1 {
      assert Join(parts, [sep]) == parts[0] + [sep] + Join(parts[1..], [sep]);
    }
  }

  /** `normalizeRow` (data-normalization.js:6-18). */
  function NormalizeRow(raw: RawRow, isoOf: string -> Option<string>): (r: Entry)
    ensures r.attachedMedia == []
    ensures r.contentId == Cell(raw, "content_id", "")
    ensures r.weekOf == NormalizeDate(Cell(raw, "Week of x", Cell(raw, "Week Of", "")), isoOf)
    ensures r.showType == Cell(raw, "Show/Content Type", Cell(raw, "Show or Content Type", ""))
  {
    Entry(
      Cell(raw, "content_id", ""),
      Cell(raw, "Month", ""),
      NormalizeDate(Cell(raw, "Week of x", Cell(raw, "Week Of", "")), isoOf),
      NormalizeDate(Cell(raw, "Release Date", ""), isoOf),
      Cell(raw, "Show/Content Type", Cell(raw, "Show or Content Type", "")),
      Cell(raw, "Season", ""),
      Cell(raw, "Episode", ""),
      Cell(raw, "Media Source", ""),
      [])
  }

  /**
   * The column fallbacks: "Week of x" wins over "Week Of" and "Show/Content Type" over
   * "Show or Content Type" when non-empty; a row with none of the columns gives an entry
   * of empty fields.
   */
  lemma NormalizeRowFallbacks(raw: RawRow, isoOf: string -> Option<string>)
    ensures var e := NormalizeRow(raw, isoOf);
      && (!("Week of x" in raw && raw["Week of x"] != "") ==> e.weekOf == NormalizeDate(Cell(raw, "Week Of", ""), isoOf))
      && (!("Show/Content Type" in raw && raw["Show/Content Type"] != "") ==> e.showType == Cell(raw, "Show or Content Type", ""))
    ensures NormalizeRow(map[], isoOf) == Entry("", "", "", "", "", "", "", "", [])
  {
  }

  function Normalizer(isoOf: string -> Option<string>): RawRow -> Entry
  {
    (raw: RawRow) => NormalizeRow(raw, isoOf)
  }

  /** `normalizeRows` (data-normalization.js:2-4): one entry per row, in order. */
  function NormalizeRows(rows: seq<RawRow>, isoOf: string -> Option<string>): (r: seq<Entry>)
    ensures |r| == |rows|
    ensures forall i :: 0 <= i < |rows| ==> r[i] == NormalizeRow(rows[i], isoOf)
  {
    var r := Seqs.Map(rows, Normalizer(isoOf));
    forall i | 0 <= i < |rows| ensures r[i] == NormalizeRow(rows[i], isoOf) {
      Seqs.MapAt(rows, Normalizer(isoOf), i);
    }
    r
  }

  // ---------------------------------------------------------------- attachMedia

  function HasContentId(id: string): MediaRecord -> bool
  {
    (m: MediaRecord) => m.contentId == id
  }

  /** `mediaMap` after the records' forEach: each id to its records, in input order. */
  function Grouped(records: seq<MediaRecord>): map<string, seq<MediaRecord>>
  {
    if records == [] then map[]
    else
      var n := |records| - 1;
      var prev := Grouped(records[..n]);
      var id := records[n].contentId;
      prev[id := (if id in prev then prev[id] else []) + [records[n]]]
  }

  /** The map holds exactly the ids that occur, each with the records carrying it, in order. */
  lemma {:induction false} GroupedIsFilter(records: seq<MediaRecord>)
    ensures forall id :: id in Grouped(records) <==> Seqs.Filter(records, HasContentId(id)) != []
    ensures forall id :: id in Grouped(records) ==> Grouped(records)[id] == Seqs.Filter(records, HasContentId(id))
  {
    if records != [] {
      var n := |records| - 1;
      GroupedIsFilter(records[..n]);
      forall id
        ensures id in Grouped(records) <==> Seqs.Filter(records, HasContentId(id)) != []
        ensures id in Grouped(records) ==> Grouped(records)[id] == Seqs.Filter(records, HasContentId(id))
      {
        var prev := Seqs.Filter(records[..n], HasContentId(id));
        assert Seqs.Filter(records, HasContentId(id))
          == prev + (if records[n].contentId == id then [records[n]] else []);
      }
    }
  }

  /** An entry after `attachMedia`: the records with its content id, when there are any. */
  function AttachTo(records: seq<MediaRecord>): Entry -> Entry
  {
    (e: Entry) =>
      var found := Seqs.Filter(records, HasContentId(e.contentId));
      if found != [] then e.(attachedMedia := found) else e
  }

  /** The records' forEach of `attachMedia` (data-normalization.js:23-29). */
  method GroupMedia(records: seq<MediaRecord>) returns (mediaMap: map<string, seq<MediaRecord>>)
    ensures mediaMap == Grouped(records)
  {
    mediaMap := map[];
    for i := 0 to |records|
      invariant mediaMap == Grouped(records[..i])
    {
      assert records[..i + 1][..i] == records[..i];
      var contentId := records[i].contentId;
      if contentId !in mediaMap {
        mediaMap := mediaMap[contentId := []];
      }
      mediaMap := mediaMap[contentId := mediaMap[contentId] + [records[i]]];
    }
    assert records[..|records|] == records;
  }

  /**
   * `attachMedia` (data-normalization.js:20-36): groups the records by content id, then sets
   * each entry's `attachedMedia` to its group; entries are updated in place.
   */
  method AttachMedia(entries: array<Entry>, records: seq<MediaRecord>)
    modifies entries
    ensures entries[..] == Seqs.Map(old(entries[..]), AttachTo(records))
  {
    var mediaMap := GroupMedia(records);
    ghost var before := entries[..];
    for i := 0 to entries.Length
      invariant forall k :: 0 <= k < i ==> entries[k] == AttachTo(records)(before[k])
      invariant forall k :: i <= k < entries.Length ==> entries[k] == before[k]
    {
      AttachLookup(records, entries[i]);
      if entries[i].contentId in mediaMap {
        entries[i] := entries[i].(attachedMedia := mediaMap[entries[i].contentId]);
      }
    }
    forall k | 0 <= k < entries.Length ensures entries[..][k] == Seqs.Map(before, AttachTo(records))[k] {
      Seqs.MapAt(before, AttachTo(records), k);
    }
  }

  /** Looking the entry's id up in the grouped records gives what `AttachTo` attaches. */
  lemma AttachLookup(records: seq<MediaRecord>, e: Entry)
    ensures var g := Grouped(records);
      AttachTo(records)(e) == if e.contentId in g then e.(attachedMedia := g[e.contentId]) else e
  {
    GroupedIsFilter(records);
  }

  /** One entry after `attachMedia`. */
  lemma AttachedEntry(e: Entry, records: seq<MediaRecord>)
    ensures var r := AttachTo(records)(e);
      && r.(attachedMedia := []) == e.(attachedMedia := [])
      && (forall m :: m in r.attachedMedia && m !in e.attachedMedia ==> m in records && m.contentId == e.contentId)
      && (Seqs.Filter(records, HasContentId(e.contentId)) == [] ==> r == e)
  {
    Seqs.FilterFacts(records, HasContentId(e.contentId));
  }

  /**
   * After `attachMedia` every entry keeps its other fields; an entry whose id some record
   * carries gets exactly those records in input order, and the others keep their media.
   */
  lemma AttachedEntries(entries: seq<Entry>, records: seq<MediaRecord>)
    ensures var r := Seqs.Map(entries, AttachTo(records));
      && |r| == |entries|
      && forall i :: 0 <= i < |r| ==>
           && r[i].(attachedMedia := []) == entries[i].(attachedMedia := [])
           && (forall m :: m in r[i].attachedMedia && m !in entries[i].attachedMedia ==> m in records && m.contentId == entries[i].contentId)
           && (Seqs.Filter(records, HasContentId(entries[i].contentId)) == [] ==> r[i] == entries[i])
  {
    var r := Seqs.Map(entries, AttachTo(records));
    forall i | 0 <= i < |r|
      ensures r[i].(attachedMedia := []) == entries[i].(attachedMedia := [])
      ensures forall m :: m in r[i].attachedMedia && m !in entries[i].attachedMedia ==> m in records && m.contentId == entries[i].contentId
      ensures Seqs.Filter(records, HasContentId(entries[i].contentId)) == [] ==> r[i] == entries[i]
    {
      Seqs.MapAt(entries, AttachTo(records), i);
      AttachedEntry(entries[i], records);
    }
  }

  // ---------------------------------------------------------------- extractFilterOptions

  /** The keys of an entry that the filters list: all but `contentId` and `attachedMedia`. */
  const FilterKeys: seq<string> := ["month", "weekOf", "releaseDate", "showType", "season", "episode", "mediaSource"]

  function FieldOf(e: Entry, key: string): string
  {
    match key
    case "month" => e.month
    case "weekOf" => e.weekOf
    case "releaseDate" => e.releaseDate
    case "showType" => e.showType
    case "season" => e.season
    case "episode" => e.episode
    case "mediaSource" => e.mediaSource
    case _ => ""
  }

  /** The non-empty values of `key` over the entries. */
  function ValuesOf(entries: seq<Entry>, key: string): set<string>
  {
    if entries == [] then {}
    else
      var n := |entries| - 1;
      ValuesOf(entries[..n], key) + (if FieldOf(entries[n], key) != "" then {FieldOf(entries[n], key)} else {})
  }

  lemma {:induction false} ValuesOfMeans(entries: seq<Entry>, key: string)
    ensures forall v :: v in ValuesOf(entries, key) <==> v != "" && exists i :: 0 <= i < |entries| && FieldOf(entries[i], key) == v
  {
    if entries != [] {
      var n := |entries| - 1;
      ValuesOfMeans(entries[..n], key);
      forall v | v != "" && (exists i :: 0 <= i < |entries| && FieldOf(entries[i], key) == v)
        ensures v in ValuesOf(entries, key)
      {
        var i :| 0 <= i < |entries| && FieldOf(entries[i], key) == v;
        if i < n {
          assert entries[..n][i] == entries[i];
        }
      }
    }
  }

  /** One entry's keys visited in order, as the inner forEach does. */
  function AddValues(options: map<string, set<string>>, e: Entry, keys: seq<string>): map<string, set<string>>
  {
    if keys == [] then options
    else
      var n := |keys| - 1;
      var prev := AddValues(options, e, keys[..n]);
      var v := FieldOf(e, keys[n]);
      if v != "" then prev[keys[n] := (if keys[n] in prev then prev[keys[n]] else {}) + {v}] else prev
  }

  /** The sets of values before sorting: one per key that has a non-empty value. */
  predicate Collected(options: map<string, set<string>>, entries: seq<Entry>)
  {
    && (forall k :: k in options ==> k in FilterKeys)
    && (forall k :: k in FilterKeys ==> (k in options <==> ValuesOf(entries, k) != {}))
    && (forall k :: k in options ==> options[k] == ValuesOf(entries, k))
  }

  lemma {:induction false} AddValuesFacts(options: map<string, set<string>>, e: Entry, keys: seq<string>)
    requires forall i, j :: 0 <= i < j < |keys| ==> keys[i] != keys[j]
    ensures var r := AddValues(options, e, keys);
      && (forall k :: k in r <==> k in options || (k in keys && FieldOf(e, k) != ""))
      && (forall k :: k in r && k !in keys ==> r[k] == options[k])
      && (forall k :: k in r && k in keys ==>
            r[k] == (if k in options then options[k] else {}) + (if FieldOf(e, k) != "" then {FieldOf(e, k)} else {}))
  {
    if keys != [] {
      var n := |keys| - 1;
      AddValuesFacts(options, e, keys[..n]);
      assert forall k :: k in keys <==> k in keys[..n] || k == keys[n];
    }
  }

  /** Visiting one more entry keeps the collected sets exact. */
  lemma CollectedStep(options: map<string, set<string>>, entries: seq<Entry>, e: Entry)
    requires Collected(options, entries)
    ensures Collected(AddValues(options, e, FilterKeys), entries + [e])
  {
    AddValuesFacts(options, e, FilterKeys);
    assert (entries + [e])[..|entries|] == entries;
    forall k ensures ValuesOf(entries + [e], k) == ValuesOf(entries, k) + (if FieldOf(e, k) != "" then {FieldOf(e, k)} else {}) {
    }
  }

  /** The result: each key with a non-empty value, to those values sorted ascending without repeats. */
  ghost function FilterOptions(entries: seq<Entry>): map<string, seq<string>>
  {
    map k | k in FilterKeys && ValuesOf(entries, k) != {} :: SortedList(ValuesOf(entries, k))
  }

  /** The inner forEach of `extractFilterOptions` over one entry's keys (data-normalization.js:51-61). */
  method AddEntryValues(options: map<string, set<string>>, entry: Entry) returns (r: map<string, set<string>>)
    ensures r == AddValues(options, entry, FilterKeys)
  {
    r := options;
    for j := 0 to |FilterKeys|
      invariant r == AddValues(options, entry, FilterKeys[..j])
    {
      assert FilterKeys[..j + 1][..j] == FilterKeys[..j];
      var key := FilterKeys[j];
      var value := FieldOf(entry, key);
      if value != "" {
        if key !in r {
          r := r[key := {}];
        }
        r := r[key := r[key] + {value}];
      }
    }
    assert FilterKeys[..|FilterKeys|] == FilterKeys;
  }

  /** The entries' forEach of `extractFilterOptions` (data-normalization.js:50-62). */
  method CollectValues(entries: seq<Entry>) returns (options: map<string, set<string>>)
    ensures Collected(options, entries)
  {
    options := map[];
    for i := 0 to |entries|
      invariant Collected(options, entries[..i])
    {
      ghost var start := options;
      options := AddEntryValues(options, entries[i]);
      CollectedStep(start, entries[..i], entries[i]);
      assert entries[..i + 1] == entries[..i] + [entries[i]];
    }
    assert entries[..|entries|] == entries;
  }

  /** `extractFilterOptions` (data-normalization.js:47-69). */
  method ExtractFilterOptions(entries: seq<Entry>) returns (r: map<string, seq<string>>)
    ensures r == FilterOptions(entries)
  {
    var options := CollectValues(entries);
    r := map[];
    for j := 0 to |FilterKeys|
      invariant SortedFor(r, options, FilterKeys[..j])
    {
      var key := FilterKeys[j];
      SortedForStep(r, options, FilterKeys[..j], key);
      if key in options {
        var sorted := SortedElements(options[key]);
        r := r[key := sorted];
      }
      assert FilterKeys[..j + 1] == FilterKeys[..j] + [key];
    }
    assert FilterKeys[..|FilterKeys|] == FilterKeys;
    SameOptions(r, options, entries);
  }

  /** `r` holds, for each of `keys` that `options` has, its values sorted, and nothing else. */
  ghost predicate SortedFor(r: map<string, seq<string>>, options: map<string, set<string>>, keys: seq<string>)
  {
    && (forall k :: k in r <==> k in keys && k in options)
    && (forall k :: k in r ==> k in options && r[k] == SortedList(options[k]))
  }

  lemma SortedForStep(r: map<string, seq<string>>, options: map<string, set<string>>, keys: seq<string>, key: string)
    requires SortedFor(r, options, keys)
    ensures SortedFor(if key in options then r[key := SortedList(options[key])] else r, options, keys + [key])
  {
    assert forall k :: k in keys + [key] <==> k in keys || k == key;
  }

  lemma SameOptions(r: map<string, seq<string>>, options: map<string, set<string>>, entries: seq<Entry>)
    requires Collected(options, entries)
    requires SortedFor(r, options, FilterKeys)
    ensures r == FilterOptions(entries)
  {
    var f := FilterOptions(entries);
    forall k ensures k in r <==> k in f {
      if k in FilterKeys {
        assert k in options <==> ValuesOf(entries, k) != {};
      }
    }
    forall k | k in r ensures r[k] == f[k] {
      assert options[k] == ValuesOf(entries, k);
    }
    MapsEqual(r, f);
  }

  lemma MapsEqual<K, V>(a: map<K, V>, b: map<K, V>)
    requires forall k :: k in a <==> k in b
    requires forall k :: k in a ==> a[k] == b[k]
    ensures a == b
  {
  }

  /** Some entry holds the non-empty value `v` under `key`. */
  predicate HasValue(entries: seq<Entry>, key: string, v: string)
  {
    v != "" && exists i :: 0 <= i < |entries| && FieldOf(entries[i], key) == v
  }

  /** Each listed value is a non-empty value some entry has, each list is strictly ascending, and every such value is listed. */
  lemma FilterOptionsMeaning(entries: seq<Entry>)
    ensures forall k :: k in FilterOptions(entries) ==> k in FilterKeys && StrictlySorted(FilterOptions(entries)[k])
    ensures forall k, v :: k in FilterKeys ==>
      ((k in FilterOptions(entries) && v in FilterOptions(entries)[k]) <==> HasValue(entries, k, v))
  {
    forall k, v | k in FilterKeys
      ensures (k in FilterOptions(entries) && v in FilterOptions(entries)[k]) <==> HasValue(entries, k, v)
    {
      ValuesOfMeans(entries, k);
      var f := FilterOptions(entries);
      var vs := ValuesOf(entries, k);
      assert k in f <==> vs != {};
      if k in f {
        assert f[k] == SortedList(vs);
        assert v in f[k] <==> v in vs;
      } else if v in vs {
        assert false;
      }
    }
  }
}
