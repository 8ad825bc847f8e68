/**
 * Element-wise maps over sequences, stated for an arbitrary function so that
 * facts about them never look inside the function.
 */
module Seqs {
  import opened Wrappers

  /** The index of the first element satisfying `p`, if any. */
  function FirstIndex<T>(xs: seq<T>, p: T -> bool): (r: Option<nat>)
    ensures r.None? <==> forall i :: 0 <= i < |xs| ==> !p(xs[i])
    ensures r.Some? ==> r.value < |xs| && p(xs[r.value]) && forall j :: 0 <= j < r.value ==> !p(xs[j])
  {
    if xs == [] then None
    else if p(xs[0]) then Some(0)
    else
      var r := FirstIndex(xs[1..], p);
      assert forall i :: 1 <= i < |xs| ==> xs[i] == xs[1..][i - 1];
      if r.Some? then Some(r.value + 1) else None
  }

  /** The first element satisfying `p`, if any (a `for` loop that returns on the first hit). */
  function FirstMatch<T>(xs: seq<T>, p: T -> bool): Option<T>
  {
    var i := FirstIndex(xs, p);
    if i.Some? then Some(xs[i.value]) else None
  }

  /** Skipping an element that fails `p` does not change the first match. */
  lemma FirstMatchSkip<T>(xs: seq<T>, p: T -> bool, i: nat)
    requires i < |xs| && !p(xs[i])
    ensures FirstMatch(xs[i..], p) == FirstMatch(xs[i + 1..], p)
  {
    assert xs[i..][1..] == xs[i + 1..];
  }

  /** Two searches whose tests agree position by position find the same index. */
  lemma FirstIndexAgree<T, U>(xs: seq<T>, p: T -> bool, ys: seq<U>, q: U -> bool)
    requires |xs| == |ys|
    requires forall i :: 0 <= i < |xs| ==> p(xs[i]) == q(ys[i])
    ensures FirstIndex(xs, p) == FirstIndex(ys, q)
  {
  }

  /** `[x for x in xs if p(x)]`. */
  function Filter<T>(xs: seq<T>, p: T -> bool): seq<T>
  {
    if xs == [] then []
    else Filter(xs[..|xs| - 1], p) + (if p(xs[|xs| - 1]) then [xs[|xs| - 1]] else [])
  }

  /** The filter keeps exactly the elements that pass, and no more of them than there are. */
  lemma {:induction false} FilterFacts<T>(xs: seq<T>, p: T -> bool)
    ensures |Filter(xs, p)| <= |xs|
    ensures forall x :: x in Filter(xs, p) <==> x in xs && p(x)
    decreases |xs|
  {
    if xs != [] {
      var n := |xs| - 1;
      FilterFacts(xs[..n], p);
      assert xs == xs[..n] + [xs[n]];
    }
  }

  /**
   * Each key resolved to the first element it matches; none as soon as one key
   * matches nothing.
   */
  function Resolve<T, K>(xs: seq<T>, keys: seq<K>, has: K -> T -> bool): Option<seq<T>>
  {
    if keys == [] then Some([])
    else
      var n := |keys| - 1;
      var init := Resolve(xs, keys[..n], has);
      var last := FirstMatch(xs, has(keys[n]));
      if init.None? || last.None? then None else Some(init.value + [last.value])
  }

  /** Every key resolves exactly when the list is produced; entry k is then an element matching key k. */
  lemma {:induction false} ResolveFacts<T, K>(xs: seq<T>, keys: seq<K>, has: K -> T -> bool)
    ensures Resolve(xs, keys, has).Some? <==> forall k :: 0 <= k < |keys| ==> FirstIndex(xs, has(keys[k])).Some?
    ensures Resolve(xs, keys, has).Some? ==>
      var r := Resolve(xs, keys, has).value;
      |r| == |keys| && forall k :: 0 <= k < |r| ==> has(keys[k])(r[k]) && r[k] in xs
    decreases |keys|
  {
    if keys != [] {
      var n := |keys| - 1;
      ResolveFacts(xs, keys[..n], has);
      assert forall k :: 0 <= k < n ==> keys[..n][k] == keys[k];
    }
  }

  /** `f(0) + f(1) + ... + f(k - 1)`. */
  function Concat<T>(k: nat, f: nat -> seq<T>): seq<T>
  {
    if k == 0 then [] else Concat(k - 1, f) + f(k - 1)
  }

  /** An element of the concatenation is in one of its parts, and every part's elements are in it. */
  lemma {:induction false} ConcatMembers<T>(k: nat, f: nat -> seq<T>, x: T)
    ensures x in Concat(k, f) <==> exists i :: 0 <= i < k && x in f(i)
  {
    if k > 0 {
      ConcatMembers(k - 1, f, x);
      assert Concat(k, f) == Concat(k - 1, f) + f(k - 1);
      if x in f(k - 1) {
        assert 0 <= k - 1 < k && x in f(k - 1);
      }
      if exists i :: 0 <= i < k && x in f(i) {
        var i :| 0 <= i < k && x in f(i);
        if i < k - 1 {
          assert 0 <= i < k - 1 && x in f(i);
        }
      }
    }
  }

  /** A non-empty sequence is its initial part followed by its last element. */
  lemma InitLast<T>(s: seq<T>)
    requires s != []
    ensures s[..|s| - 1] + [s[|s| - 1]] == s
  {
  }

  /** Extending a prefix by one element. */
  lemma PrefixSnoc<T>(s: seq<T>, i: nat)
    requires i < |s|
    ensures s[..i + 1] == s[..i] + [s[i]]
  {
  }

  /** `[f(x) for x in xs]`. */
  function Map<T, U>(xs: seq<T>, f: T -> U): (r: seq<U>)
    ensures |r| == |xs|
  {
    if xs == [] then [] else Map(xs[..|xs| - 1], f) + [f(xs[|xs| - 1])]
  }

  lemma {:induction false} MapAt<T, U>(xs: seq<T>, f: T -> U, i: nat)
    requires i < |xs|
    ensures Map(xs, f)[i] == f(xs[i])
    decreases |xs|
  {
    if i < |xs| - 1 {
      MapAt(xs[..|xs| - 1], f, i);
    }
  }

  lemma {:induction false} MapAppend<T, U>(a: seq<T>, b: seq<T>, f: T -> U)
    ensures Map(a + b, f) == Map(a, f) + Map(b, f)
    decreases |b|
  {
    if b == [] {
      assert a + b == a;
    } else {
      var init := b[..|b| - 1];
      MapAppend(a, init, f);
      assert (a + b)[..|a + b| - 1] == a + init;
    }
  }

  lemma MapSnoc<T, U>(xs: seq<T>, f: T -> U, i: nat)
    requires i < |xs|
    ensures Map(xs[..i + 1], f) == Map(xs[..i], f) + [f(xs[i])]
  {
    assert xs[..i + 1][..i] == xs[..i];
  }

  /** `[f(i, x) for i, x in enumerate(xs)]`. */
  function MapIndexed<T, U>(xs: seq<T>, f: (nat, T) -> U): (r: seq<U>)
    ensures |r| == |xs|
  {
    if xs == [] then [] else MapIndexed(xs[..|xs| - 1], f) + [f(|xs| - 1, xs[|xs| - 1])]
  }

  lemma {:induction false} MapIndexedAt<T, U>(xs: seq<T>, f: (nat, T) -> U, i: nat)
    requires i < |xs|
    ensures MapIndexed(xs, f)[i] == f(i, xs[i])
    decreases |xs|
  {
    if i < |xs| - 1 {
      MapIndexedAt(xs[..|xs| - 1], f, i);
    }
  }

  lemma MapIndexedSnoc<T, U>(xs: seq<T>, f: (nat, T) -> U, i: nat)
    requires i < |xs|
    ensures MapIndexed(xs[..i + 1], f) == MapIndexed(xs[..i], f) + [f(i, xs[i])]
  {
    assert xs[..i + 1][..i] == xs[..i];
  }

  /** `a[0], b[0], a[1], b[1], ...` */
  function Interleave<T>(a: seq<T>, b: seq<T>): (r: seq<T>)
    requires |a| == |b|
    ensures |r| == 2 * |a|
  {
    if a == [] then [] else var n := |a| - 1; Interleave(a[..n], b[..n]) + [a[n], b[n]]
  }

  lemma InterleaveSnoc<T>(a: seq<T>, b: seq<T>, i: nat)
    requires |a| == |b| && i < |a|
    ensures Interleave(a[..i + 1], b[..i + 1]) == Interleave(a[..i], b[..i]) + [a[i], b[i]]
  {
    assert a[..i + 1][..i] == a[..i];
    assert b[..i + 1][..i] == b[..i];
  }

  lemma {:induction false} InterleaveAt<T>(a: seq<T>, b: seq<T>, i: nat)
    requires |a| == |b| && i < |a|
    ensures Interleave(a, b)[2 * i] == a[i] && Interleave(a, b)[2 * i + 1] == b[i]
    decreases |a|
  {
    var n := |a| - 1;
    if i < n {
      InterleaveAt(a[..n], b[..n], i);
    }
  }
}
