/**
 * The CSV reader of the content database (content-database/js/data-ingestion.js): a line
 * scanner that toggles a quoted state on every `"` and splits on the commas outside
 * quotes, and the table reader built on it.
 */
module ContentIngestion {
  import Seqs
  import opened Strings

  // ---------------------------------------------------------------- parseCSVLine

  /** The scanner's variables after a prefix of the line: the fields pushed, `current` and `inQuotes`. */
  datatype Scan = Scan(fields: seq<string>, current: string, inQuotes: bool)

  /** One turn of the loop of `parseCSVLine` (data-ingestion.js:75-83). */
  function ScanStep(st: Scan, c: char): Scan
  {
    if c == '"' then st.(inQuotes := !st.inQuotes)
    else if c == ',' && !st.inQuotes then Scan(st.fields + [st.current], "", st.inQuotes)
    else st.(current := st.current + [c])
  }

  /** The scanner after the first `k` characters. */
  function ScanPrefix(line: string, k: nat): Scan
    requires k <= |line|
  {
    if k == 0 then Scan([], "", false) else ScanStep(ScanPrefix(line, k - 1), line[k - 1])
  }

  /** The fields `parseCSVLine` returns: those pushed, then the last one. */
  function ParseLine(line: string): seq<string>
  {
    var st := ScanPrefix(line, |line|);
    st.fields + [st.current]
  }

  /** `parseCSVLine` (data-ingestion.js:69-87). */
  method ParseCSVLine(line: string) returns (result: seq<string>)
    ensures result == ParseLine(line)
  {
    result := [];
    var current := "";
    var inQuotes := false;
    for i := 0 to |line|
      invariant ScanPrefix(line, i) == Scan(result, current, inQuotes)
    {
      var c := line[i];
      if c == '"' {
        inQuotes := !inQuotes;
      } else if c == ',' && !inQuotes {
        result := result + [current];
        current := "";
      } else {
        current := current + [c];
      }
    }
    result := result + [current];
  }

  /** The number of `"` among the first `k` characters. */
  function QuotesIn(line: string, k: nat): nat
    requires k <= |line|
  {
    if k == 0 then 0 else QuotesIn(line, k - 1) + (if line[k - 1] == '"' then 1 else 0)
  }

  /** The character at `i` is a comma after an even number of quotes: a field separator. */
  predicate Separator(line: string, i: nat)
    requires i < |line|
  {
    line[i] == ',' && QuotesIn(line, i) % 2 == 0
  }

  /** The number of separators among the first `k` characters. */
  function SeparatorsIn(line: string, k: nat): nat
    requires k <= |line|
  {
    if k == 0 then 0 else SeparatorsIn(line, k - 1) + (if Separator(line, k - 1) then 1 else 0)
  }

  /** The scanner is inside quotes after an odd number of `"`, has pushed one field per separator, and never keeps a `"`. */
  lemma {:induction false} ScanFacts(line: string, k: nat)
    requires k <= |line|
    ensures var st := ScanPrefix(line, k);
      && st.inQuotes == (QuotesIn(line, k) % 2 == 1)
      && |st.fields| == SeparatorsIn(line, k)
      && Excludes(st.current, '"')
      && forall i :: 0 <= i < |st.fields| ==> Excludes(st.fields[i], '"')
  {
    if k > 0 {
      ScanFacts(line, k - 1);
    }
  }

  /** `parseCSVLine` yields one more field than there are commas outside quotes, none holding a `"`. */
  lemma FieldsOfLine(line: string)
    ensures |ParseLine(line)| == SeparatorsIn(line, |line|) + 1
    ensures forall i :: 0 <= i < |ParseLine(line)| ==> Excludes(ParseLine(line)[i], '"')
  {
    ScanFacts(line, |line|);
  }

  /** Joining fields whose last one grows by a character grows the join by that character. */
  lemma JoinGrowLast(fields: seq<string>, current: string, c: char, sep: string)
    ensures Join(fields + [current + [c]], sep) == Join(fields + [current], sep) + [c]
  {
    if fields == [] {
      assert fields + [current + [c]] == [current + [c]];
      assert fields + [current] == [current];
    } else {
      JoinAppend(fields, current + [c], sep);
      JoinAppend(fields, current, sep);
    }
  }

  /** The scanned prefix joins back, with commas, to the prefix with its quotes removed. */
  lemma {:induction false} ScanJoin(line: string, k: nat)
    requires k <= |line|
    ensures var st := ScanPrefix(line, k);
      Join(st.fields + [st.current], ",") == ReplaceChar(line[..k], '"', "")
  {
    if k > 0 {
      ScanJoin(line, k - 1);
      var st := ScanPrefix(line, k - 1);
      var c := line[k - 1];
      assert line[..k] == line[..k - 1] + [c];
      ReplaceCharAppend(line[..k - 1], [c], '"', "");
      assert ReplaceChar([c], '"', "") == (if c == '"' then "" else [c]);
      if c == '"' {
      } else if c == ',' && !st.inQuotes {
        JoinAppend(st.fields + [st.current], "", ",");
        assert st.fields + [st.current] + [""] == (st.fields + [st.current]) + [""];
      } else {
        JoinGrowLast(st.fields, st.current, c, ",");
      }
    }
  }

  /** The fields joined with `,` give back the line without its `"` characters. */
  lemma ParseLineRoundTrip(line: string)
    ensures Join(ParseLine(line), ",") == ReplaceChar(line, '"', "")
  {
    ScanJoin(line, |line|);
    assert line[..|line|] == line;
  }

  /**
   * A doubled quote is not an escaped quote, unlike section 2, rule 7 of RFC 4180: the line
   * `"a""b"` reads as the single field `ab`, where RFC 4180 reads `a"b`.
   */
  lemma DoubledQuoteIsNotAnEscape()
    ensures ParseLine("\"a\"\"b\"") == ["ab"]
  {
    var line := "\"a\"\"b\"";
    FieldsOfLine(line);
    ParseLineRoundTrip(line);
    NoCommaNoSeparator(line, |line|);
    assert ReplaceChar(line, '"', "") == "ab";
  }

  lemma {:induction false} NoCommaNoSeparator(line: string, k: nat)
    requires k <= |line| && Excludes(line, ',')
    ensures SeparatorsIn(line, k) == 0
  {
    if k > 0 {
      NoCommaNoSeparator(line, k - 1);
    }
  }

  /** A comma inside quotes stays in its field. */
  lemma QuotedCommaStays()
    ensures ParseLine("\"x,y\",z") == ["x,y", "z"]
  {
    var line := "\"x,y\",z";
    assert ScanPrefix(line, 1) == Scan([], "", true);
    assert ScanPrefix(line, 4) == Scan([], "x,y", true);
    assert ScanPrefix(line, 5) == Scan([], "x,y", false);
    assert ScanPrefix(line, 7) == Scan(["x,y"], "z", false);
  }

  // ---------------------------------------------------------------- parseCSV

  /** A row object: header to cell. */
  type Row = map<string, string>

  /** `values[index] ? values[index].trim() : ''`: a missing or empty value gives `''`. */
  function CellAt(values: seq<string>, j: nat): (r: string)
    ensures j < |values| && values[j] != "" ==> r == JsTrim(values[j])
    ensures j >= |values| || values[j] == "" ==> r == ""
  {
    if j < |values| && values[j] != "" then JsTrim(values[j]) else ""
  }

  /** No later header repeats the one at `j`. */
  predicate LastOccurrence(headers: seq<string>, j: nat)
    requires j < |headers|
  {
    forall l :: j < l < |headers| ==> headers[l] != headers[j]
  }

  /**
   * The row the headers' forEach builds (data-ingestion.js:58-61): every header is a key, and
   * a repeated header holds the cell of its last occurrence.
   */
  function RowOf(headers: seq<string>, values: seq<string>): (r: Row)
    ensures forall h :: h in r <==> h in headers
  {
    if headers == [] then map[]
    else
      var n := |headers| - 1;
      RowOf(headers[..n], values)[headers[n] := CellAt(values, n)]
  }

  /** A header's last occurrence decides its cell. */
  lemma RowOfCells(headers: seq<string>, values: seq<string>)
    ensures forall j :: 0 <= j < |headers| && LastOccurrence(headers, j) ==> RowOf(headers, values)[headers[j]] == CellAt(values, j)
  {
    forall j | 0 <= j < |headers| && LastOccurrence(headers, j)
      ensures RowOf(headers, values)[headers[j]] == CellAt(values, j)
    {
      RowOfCell(headers, values, j);
    }
  }

  lemma {:induction false} RowOfCell(headers: seq<string>, values: seq<string>, j: nat)
    requires j < |headers| && LastOccurrence(headers, j)
    ensures RowOf(headers, values)[headers[j]] == CellAt(values, j)
  {
    var n := |headers| - 1;
    if j < n {
      var front := headers[..n];
      var key := headers[j];
      assert front[j] == key;
      assert headers[n] != key;
      assert LastOccurrence(front, j) by {
        forall l | j < l < n ensures front[l] != front[j] {
          assert front[l] == headers[l];
        }
      }
      RowOfCell(front, values, j);
      var prev := RowOf(front, values);
      assert RowOf(headers, values) == prev[headers[n] := CellAt(values, n)];
      assert prev[key] == CellAt(values, j);
    }
  }

  /** The header line split on every comma, quotes or not, and trimmed (data-ingestion.js:52). */
  function Headers(line: string): seq<string>
  {
    Seqs.Map(SplitOn(line, ','), JsTrim)
  }

  /** A line whose field count equals the header count. */
  function Fits(headers: seq<string>): string -> bool
  {
    (line: string) => |ParseLine(line)| == |headers|
  }

  function LineRow(headers: seq<string>): string -> Row
  {
    (line: string) => RowOf(headers, ParseLine(line))
  }

  /** The rows of the data lines, in order, keeping those with as many fields as headers. */
  function BodyRows(headers: seq<string>, body: seq<string>): seq<Row>
  {
    if body == [] then []
    else
      var n := |body| - 1;
      BodyRows(headers, body[..n]) + (if Fits(headers)(body[n]) then [LineRow(headers)(body[n])] else [])
  }

  lemma BodyRowsStep(headers: seq<string>, lines: seq<string>, i: nat)
    requires 1 <= i < |lines|
    ensures BodyRows(headers, lines[1..i + 1])
      == BodyRows(headers, lines[1..i]) + (if Fits(headers)(lines[i]) then [LineRow(headers)(lines[i])] else [])
  {
    var body := lines[1..i + 1];
    assert body[..|body| - 1] == lines[1..i] && body[|body| - 1] == lines[i];
  }

  /** The rows are exactly the fitting lines, each read with the headers. */
  lemma {:induction false} BodyRowsAreFittingLines(headers: seq<string>, body: seq<string>)
    ensures BodyRows(headers, body) == Seqs.Map(Seqs.Filter(body, Fits(headers)), LineRow(headers))
  {
    if body != [] {
      var n := |body| - 1;
      BodyRowsAreFittingLines(headers, body[..n]);
      var last := if Fits(headers)(body[n]) then [body[n]] else [];
      Seqs.MapAppend(Seqs.Filter(body[..n], Fits(headers)), last, LineRow(headers));
      if last != [] {
        assert Seqs.Map(last, LineRow(headers)) == [LineRow(headers)(body[n])] by {
          Seqs.MapAt(last, LineRow(headers), 0);
        }
      }
    }
  }

  /** The lines of the trimmed text. */
  function Lines(csvText: string): (r: seq<string>)
    ensures |r| >= 1
  {
    SplitOn(JsTrim(csvText), '\n')
  }

  /** What `parseCSV` returns: nothing below two lines, else the fitting rows. */
  function CsvRows(csvText: string): seq<Row>
  {
    var lines := Lines(csvText);
    if |lines| < 2 then [] else BodyRows(Headers(lines[0]), lines[1..])
  }

  /** The headers' forEach in `parseCSV` (data-ingestion.js:58-61). */
  method BuildRow(headers: seq<string>, values: seq<string>) returns (row: Row)
    requires |values| == |headers|
    ensures row == RowOf(headers, values)
  {
    row := map[];
    for j := 0 to |headers|
      invariant row == RowOf(headers[..j], values)
    {
      assert headers[..j + 1][..j] == headers[..j];
      row := row[headers[j] := if values[j] != "" then JsTrim(values[j]) else ""];
    }
    assert headers[..|headers|] == headers;
  }

  /** `parseCSV` (data-ingestion.js:46-67). */
  method ParseCSV(csvText: string) returns (rows: seq<Row>)
    ensures rows == CsvRows(csvText)
  {
    var lines := Lines(csvText);
    if |lines| < 2 {
      return [];
    }
    var headers := Headers(lines[0]);
    rows := [];
    for i := 1 to |lines|
      invariant rows == BodyRows(headers, lines[1..i])
    {
      BodyRowsStep(headers, lines, i);
      var values := ParseCSVLine(lines[i]);
      if |values| == |headers| {
        var row := BuildRow(headers, values);
        assert row == LineRow(headers)(lines[i]);
        rows := rows + [row];
      } else {
        assert !Fits(headers)(lines[i]);
      }
    }
    assert lines[1..|lines|] == lines[1..];
  }

  /** Text of fewer than two lines after trimming gives no rows; otherwise every kept row has exactly the header keys. */
  lemma CsvRowsShape(csvText: string)
    ensures |Lines(csvText)| < 2 ==> CsvRows(csvText) == []
    ensures |Lines(csvText)| >= 2 ==>
      var lines := Lines(csvText);
      var headers := Headers(lines[0]);
      && |CsvRows(csvText)| == |Seqs.Filter(lines[1..], Fits(headers))|
      && forall i :: 0 <= i < |CsvRows(csvText)| ==>
           (forall h :: h in CsvRows(csvText)[i] <==> h in headers)
  {
    var lines := Lines(csvText);
    if |lines| >= 2 {
      var headers := Headers(lines[0]);
      BodyRowsAreFittingLines(headers, lines[1..]);
      var kept := Seqs.Filter(lines[1..], Fits(headers));
      forall i | 0 <= i < |CsvRows(csvText)|
        ensures forall h :: h in CsvRows(csvText)[i] <==> h in headers
      {
        Seqs.MapAt(kept, LineRow(headers), i);
      }
    }
  }
}
