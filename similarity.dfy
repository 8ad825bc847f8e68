/**
 * Jaccard similarity of transcript segments and the duplicate-candidate scan
 * of the take selector (implementation/take_selector_v2/backend/take_selector/similarity.py).
 */
module Similarity {
  import opened Wrappers
  import opened Strings
  import opened Sorting
  import Seqs

  /** A loaded transcript segment (data_loader.py `Segment`). */
  datatype Segment = Segment(segmentId: string, startTime: real, endTime: real, text: string)

  /** The segment's `duration` property. */
  function Duration(s: Segment): real
  {
    s.endTime - s.startTime
  }

  /** `set(words)`. */
  function Elements(ws: seq<string>): set<string>
  {
    set i | 0 <= i < |ws| :: ws[i]
  }

  /** `set(text.strip().lower().split())`: the lower-cased words of a text. */
  function WordSet(text: string): set<string>
  {
    Elements(SplitWs(PyLower(PyStrip(text))))
  }

  /** Lower-casing maps whitespace to whitespace and nothing else to whitespace. */
  lemma LowerKeepsSpace(s: string)
    ensures AllSpace(PyLower(s)) <==> AllSpace(s)
  {
    var l := PyLower(s);
    if AllSpace(l) {
      forall i | 0 <= i < |s| ensures IsPySpace(s[i]) {
        assert IsPySpace(l[i]);
      }
    }
  }

  /** A text that strips to something non-empty has at least one word. */
  lemma WordSetNonEmpty(text: string)
    requires PyStrip(text) != []
    ensures WordSet(text) != {}
  {
    var t := PyStrip(text);
    StripWithFacts(text, IsPySpace);
    LowerKeepsSpace(t);
    assert !AllSpace(t);
    SplitWsFromEmpty(PyLower(t), []);
    var ws := SplitWs(PyLower(t));
    assert ws[0] in Elements(ws);
  }

  lemma SubsetCard(a: set<string>, b: set<string>)
    requires a <= b
    ensures |a| <= |b|
    ensures |a| == |b| ==> a == b
  {
    assert b == a + (b - a);
    assert |b| == |a| + |b - a|;
    if |a| == |b| {
      assert |b - a| == 0;
      assert b - a == {};
    }
  }

  /** |A ∩ B| / |A ∪ B|. */
  function Jaccard(a: set<string>, b: set<string>): (r: real)
    requires a != {}
    ensures 0.0 < r <= 1.0 || (r == 0.0 && a * b == {})
    ensures r == 1.0 <==> a == b
  {
    JaccardFacts(a, b);
    (|a * b| as real) / (|a + b| as real)
  }

  lemma JaccardFacts(a: set<string>, b: set<string>)
    requires a != {}
    ensures 0 < |a + b| && |a * b| <= |a + b|
    ensures |a * b| == |a + b| <==> a == b
    ensures |a * b| == 0 <==> a * b == {}
  {
    SubsetCard(a * b, a + b);
    assert a <= a + b;
    SubsetCard(a, a + b);
    if a * b == a + b {
      assert a <= a * b && b <= a * b;
    }
    if a * b != {} {
      var x :| x in a * b;
      assert x in a * b;
    }
  }

  /** compute_segment_similarity (similarity.py:8-46). */
  function ComputeSegmentSimilarity(a: Segment, b: Segment): (r: real)
    ensures 0.0 <= r <= 1.0
    ensures PyStrip(a.text) == [] && PyStrip(b.text) == [] ==> r == 1.0
    ensures (PyStrip(a.text) == []) != (PyStrip(b.text) == []) ==> r == 0.0
  {
    var textA := PyStrip(a.text);
    var textB := PyStrip(b.text);
    if textA == [] && textB == [] then 1.0
    else if textA == [] || textB == [] then 0.0
    else
      WordSetNonEmpty(a.text);
      Jaccard(WordSet(a.text), WordSet(b.text))
  }

  /** The score is symmetric. */
  lemma SimilaritySymmetric(a: Segment, b: Segment)
    ensures ComputeSegmentSimilarity(a, b) == ComputeSegmentSimilarity(b, a)
  {
    if PyStrip(a.text) != [] && PyStrip(b.text) != [] {
      WordSetNonEmpty(a.text);
      WordSetNonEmpty(b.text);
      var wa, wb := WordSet(a.text), WordSet(b.text);
      assert wa * wb == wb * wa;
      assert wa + wb == wb + wa;
    }
  }

  /**
   * For two texts with words, the score is 1 exactly when they use the same set
   * of lower-cased words (so repeats and order do not matter) and 0 exactly
   * when they share none.
   */
  lemma SimilarityExtremes(a: Segment, b: Segment)
    requires PyStrip(a.text) != [] && PyStrip(b.text) != []
    ensures ComputeSegmentSimilarity(a, b) == 1.0 <==> WordSet(a.text) == WordSet(b.text)
    ensures ComputeSegmentSimilarity(a, b) == 0.0 <==> WordSet(a.text) * WordSet(b.text) == {}
  {
    WordSetNonEmpty(a.text);
    WordSetNonEmpty(b.text);
    var wa, wb := WordSet(a.text), WordSet(b.text);
    if wa * wb == {} {
      assert |wa * wb| == 0;
    }
    assert wa <= wa + wb;
    SubsetCard(wa, wa + wb);
  }

  // ---------------------------------------------------------------- candidate pairs

  datatype Candidate = Candidate(idA: string, idB: string, score: real)

  datatype SimilarityError = ThresholdOutOfRange(threshold: real)

  /** A similarity score; the scan is stated for any, and used with ComputeSegmentSimilarity. */
  type Scorer = (Segment, Segment) -> real

  function PairAt(segs: seq<Segment>, i: int, j: int, sim: Scorer): Candidate
    requires 0 <= i < |segs| && 0 <= j < |segs|
  {
    Candidate(segs[i].segmentId, segs[j].segmentId, sim(segs[i], segs[j]))
  }

  /** The candidates the inner loop finds for row `i`, columns `i+1 .. hi-1`, in order. */
  function Row(segs: seq<Segment>, i: nat, hi: nat, threshold: real, sim: Scorer): seq<Candidate>
    requires i < |segs| && hi <= |segs|
    decreases hi
  {
    if hi <= i + 1 then []
    else
      Row(segs, i, hi - 1, threshold, sim)
      + (if sim(segs[i], segs[hi - 1]) >= threshold then [PairAt(segs, i, hi - 1, sim)] else [])
  }

  /** The candidates of rows `0 .. k-1`, in loop order. */
  function Rows(segs: seq<Segment>, k: nat, threshold: real, sim: Scorer): seq<Candidate>
    requires k <= |segs|
  {
    if k == 0 then [] else Rows(segs, k - 1, threshold, sim) + Row(segs, k - 1, |segs|, threshold, sim)
  }

  function NegScore(c: Candidate): real { -c.score }

  /** find_candidate_duplicates (similarity.py:49-95). */
  method FindCandidateDuplicates(segments: seq<Segment>, threshold: real)
    returns (r: Result<seq<Candidate>, SimilarityError>)
    ensures !(0.0 <= threshold <= 1.0) <==> r.Err?
    ensures r.Err? ==> r.error == ThresholdOutOfRange(threshold)
    ensures r.Ok? ==> r.value == SortBy(Rows(segments, |segments|, threshold, ComputeSegmentSimilarity), NegScore)
  {
    if !(0.0 <= threshold <= 1.0) {
      return Err(ThresholdOutOfRange(threshold));
    }
    var candidates := ScanPairs(segments, threshold, ComputeSegmentSimilarity);
    return Ok(SortBy(candidates, NegScore));
  }

  /** The nested loops of find_candidate_duplicates (similarity.py:83-93), for the scorer they call. */
  method ScanPairs(segments: seq<Segment>, threshold: real, sim: Scorer) returns (candidates: seq<Candidate>)
    ensures candidates == Rows(segments, |segments|, threshold, sim)
  {
    candidates := [];
    var n := |segments|;
    var i := 0;
    while i < n
      invariant 0 <= i <= n
      invariant candidates == Rows(segments, i, threshold, sim)
    {
      candidates := ScanRow(segments, i, threshold, sim, candidates);
      i := i + 1;
    }
  }

  /** The inner loop of find_candidate_duplicates (similarity.py:87-93): row `i` appended to the candidates. */
  method ScanRow(segments: seq<Segment>, i: nat, threshold: real, sim: Scorer, start: seq<Candidate>) returns (candidates: seq<Candidate>)
    requires i < |segments|
    requires start == Rows(segments, i, threshold, sim)
    ensures candidates == Rows(segments, i + 1, threshold, sim)
  {
    candidates := start;
    var n := |segments|;
    var j := i + 1;
    assert Row(segments, i, j, threshold, sim) == [];
    assert start + [] == start;
    while j < n
      invariant i + 1 <= j <= n
      invariant candidates == start + Row(segments, i, j, threshold, sim)
    {
      ghost var before := candidates;
      var similarity := sim(segments[i], segments[j]);
      if similarity >= threshold {
        candidates := candidates + [Candidate(segments[i].segmentId, segments[j].segmentId, similarity)];
        assert candidates == before + [PairAt(segments, i, j, sim)];
      }
      RowStep(segments, i, j, threshold, sim, start, before, candidates);
      j := j + 1;
    }
    assert Rows(segments, i + 1, threshold, sim) == start + Row(segments, i, n, threshold, sim);
  }

  lemma RowStep(segs: seq<Segment>, i: nat, j: nat, threshold: real, sim: Scorer, start: seq<Candidate>, before: seq<Candidate>, after: seq<Candidate>)
    requires i < j < |segs|
    requires before == start + Row(segs, i, j, threshold, sim)
    requires after == before + (if sim(segs[i], segs[j]) >= threshold then [PairAt(segs, i, j, sim)] else [])
    ensures after == start + Row(segs, i, j + 1, threshold, sim)
  {
    var extra := if sim(segs[i], segs[j]) >= threshold then [PairAt(segs, i, j, sim)] else [];
    assert Row(segs, i, j + 1, threshold, sim) == Row(segs, i, j, threshold, sim) + extra;
    assert start + (Row(segs, i, j, threshold, sim) + extra) == start + Row(segs, i, j, threshold, sim) + extra;
  }

  /** `c` is what the scan records for the pair `i < j`, and its score reaches the threshold. */
  predicate IsPair(segs: seq<Segment>, threshold: real, sim: Scorer, c: Candidate, i: int, j: int)
  {
    0 <= i < j < |segs| && c == PairAt(segs, i, j, sim) && c.score >= threshold
  }

  /** Row `i` up to column `hi` holds exactly the qualifying pairs `(i, j)` with `j < hi`. */
  lemma {:induction false} RowMembers(segs: seq<Segment>, i: nat, hi: nat, threshold: real, sim: Scorer, c: Candidate)
    requires i < |segs| && hi <= |segs|
    ensures c in Row(segs, i, hi, threshold, sim) <==> exists j :: j < hi && IsPair(segs, threshold, sim, c, i, j)
    decreases hi
  {
    if hi > i + 1 {
      RowMembers(segs, i, hi - 1, threshold, sim, c);
      if IsPair(segs, threshold, sim, c, i, hi - 1) {
        assert c in Row(segs, i, hi, threshold, sim);
      }
    }
  }

  /** Rows `0 .. k-1` hold exactly the qualifying pairs `(i, j)` with `i < k`. */
  lemma RowsMembers(segs: seq<Segment>, k: nat, threshold: real, sim: Scorer, c: Candidate)
    requires k <= |segs|
    ensures c in Rows(segs, k, threshold, sim) <==> exists i, j :: i < k && IsPair(segs, threshold, sim, c, i, j)
  {
    var f := RowOf(segs, threshold, sim);
    RowsConcat(segs, k, threshold, sim);
    Seqs.ConcatMembers(k, f, c);
    if c in Rows(segs, k, threshold, sim) {
      var i :| 0 <= i < k && c in f(i);
      RowMembers(segs, i, |segs|, threshold, sim, c);
      var j :| j < |segs| && IsPair(segs, threshold, sim, c, i, j);
      assert i < k && IsPair(segs, threshold, sim, c, i, j);
    }
    if exists i, j :: i < k && IsPair(segs, threshold, sim, c, i, j) {
      var i, j :| i < k && IsPair(segs, threshold, sim, c, i, j);
      RowMembers(segs, i, |segs|, threshold, sim, c);
      assert j < |segs| && IsPair(segs, threshold, sim, c, i, j);
      assert 0 <= i < k && c in f(i);
    }
  }

  /** Row `i` of the scan, as a function of `i`. */
  function RowOf(segs: seq<Segment>, threshold: real, sim: Scorer): nat -> seq<Candidate>
  {
    (i: nat) => if i < |segs| then Row(segs, i, |segs|, threshold, sim) else []
  }

  /** The scan's candidates are its rows concatenated. */
  lemma {:induction false} RowsConcat(segs: seq<Segment>, k: nat, threshold: real, sim: Scorer)
    requires k <= |segs|
    ensures Rows(segs, k, threshold, sim) == Seqs.Concat(k, RowOf(segs, threshold, sim))
  {
    if k > 0 {
      var f := RowOf(segs, threshold, sim);
      RowsConcat(segs, k - 1, threshold, sim);
      RowOfAt(segs, threshold, sim, k - 1);
      var prev, row := Rows(segs, k - 1, threshold, sim), Row(segs, k - 1, |segs|, threshold, sim);
      assert Rows(segs, k, threshold, sim) == prev + row;
      assert Seqs.Concat(k, f) == Seqs.Concat(k - 1, f) + f(k - 1);
      assert prev == Seqs.Concat(k - 1, f) && row == f(k - 1);
    }
  }

  lemma RowOfAt(segs: seq<Segment>, threshold: real, sim: Scorer, i: nat)
    requires i < |segs|
    ensures RowOf(segs, threshold, sim)(i) == Row(segs, i, |segs|, threshold, sim)
  {
  }

  /** `c` is the candidate of some pair `i < j` scoring at least the threshold. */
  ghost predicate Paired(segs: seq<Segment>, threshold: real, sim: Scorer, c: Candidate)
  {
    exists i, j :: IsPair(segs, threshold, sim, c, i, j)
  }

  /**
   * The result holds exactly the pairs `(id_i, id_j, score)` with `i < j`
   * whose score is at least the threshold, ordered by non-increasing score,
   * pairs of equal score kept in scan order.
   */
  lemma CandidatesFacts(segs: seq<Segment>, threshold: real, sim: Scorer, c: Candidate)
    ensures var r := SortBy(Rows(segs, |segs|, threshold, sim), NegScore);
      (c in r <==> Paired(segs, threshold, sim, c))
      && (forall p, q :: 0 <= p < q < |r| ==> r[p].score >= r[q].score)
      && forall k :: WithKey(r, NegScore, k) == WithKey(Rows(segs, |segs|, threshold, sim), NegScore, k)
  {
    var rows := Rows(segs, |segs|, threshold, sim);
    CandidatesMembers(segs, threshold, sim, c);
    CandidatesOrdered(rows);
    forall k ensures WithKey(SortBy(rows, NegScore), NegScore, k) == WithKey(rows, NegScore, k) {
      SortByStable(rows, NegScore, k);
    }
  }

  lemma CandidatesMembers(segs: seq<Segment>, threshold: real, sim: Scorer, c: Candidate)
    ensures c in SortBy(Rows(segs, |segs|, threshold, sim), NegScore) <==> Paired(segs, threshold, sim, c)
  {
    var rows := Rows(segs, |segs|, threshold, sim);
    var r := SortBy(rows, NegScore);
    RowsMembers(segs, |segs|, threshold, sim, c);
    assert c in r <==> c in multiset(r);
    assert c in rows <==> c in multiset(rows);
  }

  lemma CandidatesOrdered(rows: seq<Candidate>)
    ensures var r := SortBy(rows, NegScore);
      forall p, q :: 0 <= p < q < |r| ==> r[p].score >= r[q].score
  {
    var r := SortBy(rows, NegScore);
    forall p, q | 0 <= p < q < |r| ensures r[p].score >= r[q].score {
      assert NegScore(r[p]) <= NegScore(r[q]);
    }
  }

  /** With threshold 0 every row is complete. */
  lemma {:induction false} RowAllPairs(segs: seq<Segment>, i: nat, hi: nat, sim: Scorer)
    requires i < |segs| && hi <= |segs|
    requires forall a, b :: sim(a, b) >= 0.0
    ensures |Row(segs, i, hi, 0.0, sim)| == if hi <= i + 1 then 0 else hi - i - 1
    decreases hi
  {
    if hi > i + 1 {
      RowAllPairs(segs, i, hi - 1, sim);
    }
  }

  lemma {:induction false} RowsAllPairs(segs: seq<Segment>, k: nat, sim: Scorer)
    requires k <= |segs|
    requires forall a, b :: sim(a, b) >= 0.0
    ensures 2 * |Rows(segs, k, 0.0, sim)| == k * (2 * |segs| - k - 1)
  {
    if k > 0 {
      var n := |segs|;
      RowsAllPairs(segs, k - 1, sim);
      RowAllPairs(segs, k - 1, n, sim);
      assert |Row(segs, k - 1, n, 0.0, sim)| == n - k;
      assert (k - 1) * (2 * n - k) + 2 * (n - k) == k * (2 * n - k - 1);
    }
  }

  /** Threshold 0 yields all n(n-1)/2 pairs. */
  lemma ZeroThresholdAllPairs(segs: seq<Segment>)
    ensures 2 * |SortBy(Rows(segs, |segs|, 0.0, ComputeSegmentSimilarity), NegScore)| == |segs| * (|segs| - 1)
  {
    RowsAllPairs(segs, |segs|, ComputeSegmentSimilarity);
  }
}
