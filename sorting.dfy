/**
 * Sorting as the hosts do it: Python's `sorted`/`list.sort(key=...)` (stable,
 * ascending by a numeric key) and sorting distinct strings by code point
 * (Python `sorted` of a set of strings, JavaScript `Array.prototype.sort()`).
 */
module Sorting {

  predicate SortedBy<T>(s: seq<T>, key: T -> real)
  {
    forall i, j :: 0 <= i < j < |s| ==> key(s[i]) <= key(s[j])
  }

  /** `x` placed after every element whose key is at most its own. */
  function InsertBy<T>(t: seq<T>, x: T, key: T -> real): (r: seq<T>)
    ensures |r| == |t| + 1
    ensures r[0] == x || (t != [] && r[0] == t[0])
  {
    if t == [] then [x]
    else if key(t[0]) <= key(x) then [t[0]] + InsertBy(t[1..], x, key)
    else [x] + t
  }

  /** Inserting adds `x` and loses nothing. */
  lemma {:induction false} InsertByPerm<T>(t: seq<T>, x: T, key: T -> real)
    ensures multiset(InsertBy(t, x, key)) == multiset(t) + multiset{x}
  {
    if t != [] && key(t[0]) <= key(x) {
      InsertByPerm(t[1..], x, key);
      assert t == [t[0]] + t[1..];
    }
  }

  /** Inserting a key no smaller than a bound keeps every key at or above it. */
  lemma {:induction false} InsertByBounded<T>(t: seq<T>, x: T, key: T -> real, b: real)
    requires forall i :: 0 <= i < |t| ==> b <= key(t[i])
    requires b <= key(x)
    ensures forall i :: 0 <= i < |InsertBy(t, x, key)| ==> b <= key(InsertBy(t, x, key)[i])
  {
    if t != [] && key(t[0]) <= key(x) {
      InsertByBounded(t[1..], x, key, b);
    }
  }

  lemma {:induction false} InsertBySorted<T>(t: seq<T>, x: T, key: T -> real)
    requires SortedBy(t, key)
    ensures SortedBy(InsertBy(t, x, key), key)
  {
    if t != [] && key(t[0]) <= key(x) {
      var rest := InsertBy(t[1..], x, key);
      InsertBySorted(t[1..], x, key);
      InsertByBounded(t[1..], x, key, key(t[0]));
      var r := [t[0]] + rest;
      assert InsertBy(t, x, key) == r;
      forall i, j | 0 <= i < j < |r| ensures key(r[i]) <= key(r[j]) {
        assert r[j] == rest[j - 1];
        if i > 0 {
          assert r[i] == rest[i - 1];
        }
      }
    }
  }

  /** A stable ascending sort by `key` (insertion sort). */
  function SortBy<T>(s: seq<T>, key: T -> real): (r: seq<T>)
    ensures |r| == |s|
    ensures multiset(r) == multiset(s)
    ensures SortedBy(r, key)
  {
    if s == [] then []
    else
      var init := s[..|s| - 1];
      assert s == init + [s[|s| - 1]];
      InsertBySorted(SortBy(init, key), s[|s| - 1], key);
      InsertByPerm(SortBy(init, key), s[|s| - 1], key);
      InsertBy(SortBy(init, key), s[|s| - 1], key)
  }

  /** The elements of `s` whose key is exactly `k`, in order. */
  function WithKey<T>(s: seq<T>, key: T -> real, k: real): seq<T>
  {
    if s == [] then [] else (if key(s[0]) == k then [s[0]] else []) + WithKey(s[1..], key, k)
  }

  lemma {:induction false} WithKeyAppend<T>(a: seq<T>, b: seq<T>, key: T -> real, k: real)
    ensures WithKey(a + b, key, k) == WithKey(a, key, k) + WithKey(b, key, k)
  {
    if a != [] {
      assert (a + b)[0] == a[0];
      assert (a + b)[1..] == a[1..] + b;
      WithKeyAppend(a[1..], b, key, k);
    } else {
      assert a + b == b;
    }
  }

  lemma {:induction false} WithKeyAbove<T>(t: seq<T>, key: T -> real, k: real)
    requires forall i :: 0 <= i < |t| ==> key(t[i]) > k
    ensures WithKey(t, key, k) == []
  {
    if t != [] {
      WithKeyAbove(t[1..], key, k);
    }
  }

  lemma {:induction false} WithKeyInsert<T>(t: seq<T>, x: T, key: T -> real, k: real)
    requires SortedBy(t, key)
    ensures WithKey(InsertBy(t, x, key), key, k) == WithKey(t, key, k) + (if key(x) == k then [x] else [])
  {
    if t == [] {
    } else if key(t[0]) <= key(x) {
      var rest := InsertBy(t[1..], x, key);
      SortedTail(t, key);
      WithKeyInsert(t[1..], x, key, k);
      assert InsertBy(t, x, key) == [t[0]] + rest;
      WithKeyCons(t[0], rest, key, k);
      WithKeyCons(t[0], t[1..], key, k);
      assert t == [t[0]] + t[1..];
    } else {
      if key(x) == k {
        WithKeyAbove(t, key, k);
      }
      WithKeyCons(x, t, key, k);
    }
  }

  lemma SortedTail<T>(t: seq<T>, key: T -> real)
    requires t != [] && SortedBy(t, key)
    ensures SortedBy(t[1..], key)
  {
    forall i, j | 0 <= i < j < |t| - 1 ensures key(t[1..][i]) <= key(t[1..][j]) {
      assert t[1..][i] == t[i + 1] && t[1..][j] == t[j + 1];
    }
  }

  lemma WithKeyCons<T>(x: T, t: seq<T>, key: T -> real, k: real)
    ensures WithKey([x] + t, key, k) == (if key(x) == k then [x] else []) + WithKey(t, key, k)
  {
    assert ([x] + t)[0] == x;
    assert ([x] + t)[1..] == t;
  }

  /** Stability: among elements with equal keys, the sort keeps the input order. */
  lemma {:induction false} SortByStable<T>(s: seq<T>, key: T -> real, k: real)
    ensures WithKey(SortBy(s, key), key, k) == WithKey(s, key, k)
  {
    if s != [] {
      var init, last := s[..|s| - 1], s[|s| - 1];
      SortByStable(init, key, k);
      assert SortBy(s, key) == InsertBy(SortBy(init, key), last, key);
      WithKeyInsert(SortBy(init, key), last, key, k);
      assert s == init + [last];
      WithKeyAppend(init, [last], key, k);
      assert WithKey([last], key, k) == (if key(last) == k then [last] else []);
    }
  }

  // ---------------------------------------------------------------- strings by code point

  /** Lexicographic order by code point. */
  predicate StrLt(a: string, b: string)
  {
    if a == [] then b != []
    else if b == [] then false
    else if a[0] != b[0] then a[0] < b[0]
    else StrLt(a[1..], b[1..])
  }

  lemma {:induction false} StrLtIrreflexive(a: string)
    ensures !StrLt(a, a)
  {
    if a != [] {
      StrLtIrreflexive(a[1..]);
    }
  }

  lemma {:induction false} StrLtTransitive(a: string, b: string, c: string)
    requires StrLt(a, b) && StrLt(b, c)
    ensures StrLt(a, c)
  {
    if a != [] && b != [] && c != [] && a[0] == b[0] && b[0] == c[0] {
      StrLtTransitive(a[1..], b[1..], c[1..]);
    }
  }

  lemma {:induction false} StrLtTotal(a: string, b: string)
    requires a != b
    ensures StrLt(a, b) || StrLt(b, a)
  {
    if a != [] && b != [] && a[0] == b[0] {
      assert a == [a[0]] + a[1..] && b == [b[0]] + b[1..];
      StrLtTotal(a[1..], b[1..]);
    }
  }

  predicate StrictlySorted(s: seq<string>)
  {
    forall i, j :: 0 <= i < j < |s| ==> StrLt(s[i], s[j])
  }

  /** Every non-empty set of strings has a least element. */
  lemma {:induction false} MinimumExists(s: set<string>) returns (m: string)
    requires s != {}
    ensures m in s && forall y :: y in s && y != m ==> StrLt(m, y)
    decreases |s|
  {
    var x :| x in s;
    if s == {x} {
      m := x;
    } else {
      var least := MinimumExists(s - {x});
      StrLtTotal(least, x);
      if StrLt(least, x) {
        m := least;
      } else {
        m := x;
        forall y | y in s && y != x ensures StrLt(x, y) {
          if y != least {
            StrLtTransitive(x, least, y);
          }
        }
      }
    }
  }

  /** `m` is the least element of `s`. */
  predicate IsLeast(m: string, s: set<string>)
  {
    m in s && forall y :: y in s && y != m ==> StrLt(m, y)
  }

  lemma LeastExists(s: set<string>)
    requires s != {}
    ensures exists m :: IsLeast(m, s)
  {
    var m := MinimumExists(s);
    assert IsLeast(m, s);
  }

  /** The elements of a set of strings in ascending code-point order, as a specification. */
  ghost function SortedList(s: set<string>): (r: seq<string>)
    ensures StrictlySorted(r)
    ensures forall x :: x in r <==> x in s
    ensures |r| == |s|
    decreases |s|
  {
    if s == {} then []
    else
      LeastExists(s);
      var m :| IsLeast(m, s);
      var rest := SortedList(s - {m});
      forall j | 0 <= j < |rest| ensures StrLt(m, rest[j]) {
        assert rest[j] in s - {m};
      }
      [m] + rest
  }

  lemma HeadIn<T>(s: seq<T>)
    ensures s == [] || s[0] in s
  {
  }

  /** A set has one strictly ascending listing. */
  lemma {:induction false} SortedUnique(a: seq<string>, b: seq<string>)
    requires StrictlySorted(a) && StrictlySorted(b)
    requires forall x :: x in a <==> x in b
    ensures a == b
    decreases |a|
  {
    if a == [] {
      HeadIn(b);
    } else {
      assert a[0] in b;
      assert b != [];
      if a[0] != b[0] {
        assert b[0] in a;
        var i :| 0 <= i < |a| && a[i] == b[0];
        var j :| 0 <= j < |b| && b[j] == a[0];
        StrLtTransitive(a[0], b[0], a[0]);
        StrLtIrreflexive(a[0]);
        assert false;
      }
      forall x ensures x in a[1..] <==> x in b[1..] {
        if x in a[1..] {
          var i :| 1 <= i < |a| && a[i] == x;
          StrLtIrreflexive(x);
          assert x in b;
        }
        if x in b[1..] {
          var j :| 1 <= j < |b| && b[j] == x;
          StrLtIrreflexive(x);
          assert x in a;
        }
      }
      SortedUnique(a[1..], b[1..]);
      assert a == [a[0]] + a[1..] && b == [b[0]] + b[1..];
    }
  }

  /** The elements of a set of strings in ascending code-point order (Python `sorted(set)`, JavaScript `[...set].sort()`). */
  method SortedElements(s: set<string>) returns (r: seq<string>)
    ensures r == SortedList(s)
  {
    r := [];
    var rest := s;
    while rest != {}
      invariant StrictlySorted(r)
      invariant forall x :: x in s <==> x in r || x in rest
      invariant forall x :: x in r ==> x !in rest
      invariant forall i, y :: 0 <= i < |r| && y in rest ==> StrLt(r[i], y)
      decreases |rest|
    {
      LeastExists(rest);
      var m :| IsLeast(m, rest);
      r := r + [m];
      rest := rest - {m};
    }
    SortedUnique(r, SortedList(s));
  }
}
