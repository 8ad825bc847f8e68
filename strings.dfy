/**
 * Text helpers shared by the Python and JavaScript modules: the two hosts'
 * whitespace sets, stripping, splitting and joining, and decimal digits.
 */
module Strings {

  /** The characters Python's `str.isspace()` (and so `str.split()`, `strip()` and `\s`) treats as whitespace. */
  predicate IsPySpace(c: char)
  {
    c == ' ' || ('\t' <= c <= '\r') || ('\U{1c}' <= c <= '\U{1f}') || c == '\U{85}' || c == '\U{a0}'
    || c == '\U{1680}' || ('\U{2000}' <= c <= '\U{200a}') || c == '\U{2028}' || c == '\U{2029}'
    || c == '\U{202f}' || c == '\U{205f}' || c == '\U{3000}'
  }

  /** The characters JavaScript's `String.prototype.trim()` removes (WhiteSpace and LineTerminator). */
  predicate IsJsSpace(c: char)
  {
    c == ' ' || ('\t' <= c <= '\r') || c == '\U{a0}' || c == '\U{1680}' || ('\U{2000}' <= c <= '\U{200a}')
    || c == '\U{2028}' || c == '\U{2029}' || c == '\U{202f}' || c == '\U{205f}' || c == '\U{3000}'
    || c == '\U{feff}'
  }

  predicate AllSpace(s: string)
  {
    forall i :: 0 <= i < |s| ==> IsPySpace(s[i])
  }

  predicate NoSpace(s: string)
  {
    forall i :: 0 <= i < |s| ==> !IsPySpace(s[i])
  }

  // ---------------------------------------------------------------- stripping

  function TrimStartWith(s: string, ws: char -> bool): string
  {
    if s == [] || !ws(s[0]) then s else TrimStartWith(s[1..], ws)
  }

  function TrimEndWith(s: string, ws: char -> bool): string
  {
    if s == [] || !ws(s[|s| - 1]) then s else TrimEndWith(s[..|s| - 1], ws)
  }

  lemma {:induction false} TrimStartFacts(s: string, ws: char -> bool)
    ensures var r := TrimStartWith(s, ws);
      |r| <= |s| && r == s[|s| - |r|..] && (r == [] || !ws(r[0]))
      && forall i :: 0 <= i < |s| - |r| ==> ws(s[i])
  {
    if s != [] && ws(s[0]) {
      TrimStartFacts(s[1..], ws);
    }
  }

  lemma {:induction false} TrimEndFacts(s: string, ws: char -> bool)
    ensures var r := TrimEndWith(s, ws);
      |r| <= |s| && r == s[..|r|] && (r == [] || !ws(r[|r| - 1]))
      && forall i :: |r| <= i < |s| ==> ws(s[i])
  {
    if s != [] && ws(s[|s| - 1]) {
      TrimEndFacts(s[..|s| - 1], ws);
    }
  }

  /** Removes leading and trailing characters satisfying `ws`. */
  function StripWith(s: string, ws: char -> bool): string
  {
    TrimEndWith(TrimStartWith(s, ws), ws)
  }

  /** The stripped text begins and ends with a kept character, and is empty exactly when every character is stripped. */
  lemma StripWithFacts(s: string, ws: char -> bool)
    ensures var r := StripWith(s, ws);
      (r == [] || (!ws(r[0]) && !ws(r[|r| - 1])))
      && (r == [] <==> forall i :: 0 <= i < |s| ==> ws(s[i]))
  {
    var a := TrimStartWith(s, ws);
    TrimStartFacts(s, ws);
    TrimEndFacts(a, ws);
    var b := TrimEndWith(a, ws);
    assert b != [] ==> b[0] == a[0];
  }

  /** Stripping leaves text that already begins and ends with kept characters unchanged. */
  lemma StripWithUnchanged(s: string, ws: char -> bool)
    requires s != [] && !ws(s[0]) && !ws(s[|s| - 1])
    ensures StripWith(s, ws) == s
  {
  }

  /** Python `str.strip()`. */
  function PyStrip(s: string): string
  {
    StripWith(s, IsPySpace)
  }

  /** JavaScript `String.prototype.trim()`. */
  function JsTrim(s: string): string
  {
    StripWith(s, IsJsSpace)
  }

  // ---------------------------------------------------------------- splitting on whitespace

  /** The fields of `s` after the partial field `cur`, split on runs of Python whitespace. */
  function SplitWsFrom(s: string, cur: string): (r: seq<string>)
    requires NoSpace(cur)
    ensures forall i :: 0 <= i < |r| ==> r[i] != [] && NoSpace(r[i])
    decreases |s|
  {
    if s == [] then
      (if cur == [] then [] else [cur])
    else if IsPySpace(s[0]) then
      (if cur == [] then SplitWsFrom(s[1..], []) else [cur] + SplitWsFrom(s[1..], []))
    else
      SplitWsFrom(s[1..], cur + [s[0]])
  }

  /** Python `str.split()` with no argument: the maximal runs of non-whitespace characters. */
  function SplitWs(s: string): (r: seq<string>)
    ensures forall i :: 0 <= i < |r| ==> r[i] != [] && NoSpace(r[i])
  {
    SplitWsFrom(s, [])
  }

  lemma {:induction false} SplitWsFromEmpty(s: string, cur: string)
    requires NoSpace(cur)
    ensures SplitWsFrom(s, cur) == [] <==> cur == [] && AllSpace(s)
    decreases |s|
  {
    if s != [] {
      if IsPySpace(s[0]) {
        SplitWsFromEmpty(s[1..], []);
        assert AllSpace(s) <==> AllSpace(s[1..]) by {
          if AllSpace(s[1..]) {
            forall i | 0 <= i < |s| ensures IsPySpace(s[i]) {
              if i > 0 { assert s[i] == s[1..][i - 1]; }
            }
          }
        }
      } else {
        SplitWsFromEmpty(s[1..], cur + [s[0]]);
      }
    }
  }

  /** A string has no words exactly when it strips to the empty string. */
  lemma SplitWsEmptyIffStripEmpty(s: string)
    ensures SplitWs(s) == [] <==> PyStrip(s) == []
  {
    SplitWsFromEmpty(s, []);
    StripWithFacts(s, IsPySpace);
  }

  /** Joining non-empty, space-free words with single spaces and splitting gives the words back. */
  lemma {:induction false} SplitWsJoin(ws: seq<string>)
    requires forall i :: 0 <= i < |ws| ==> ws[i] != [] && NoSpace(ws[i])
    ensures SplitWs(Join(ws, " ")) == ws
  {
    if ws == [] {
    } else {
      SplitWsJoinFrom(ws, []);
    }
  }

  lemma {:induction false} SplitWsWordFrom(w: string, rest: string, cur: string)
    requires NoSpace(cur) && NoSpace(w)
    ensures SplitWsFrom(w + rest, cur) == SplitWsFrom(rest, cur + w)
    decreases |w|
  {
    if w == [] {
      assert w + rest == rest && cur + w == cur;
    } else {
      assert (w + rest)[0] == w[0];
      assert (w + rest)[1..] == w[1..] + rest;
      assert NoSpace(cur + [w[0]]);
      assert SplitWsFrom(w + rest, cur) == SplitWsFrom(w[1..] + rest, cur + [w[0]]);
      SplitWsWordFrom(w[1..], rest, cur + [w[0]]);
      assert cur + [w[0]] + w[1..] == cur + w;
    }
  }

  lemma {:induction false} SplitWsJoinFrom(ws: seq<string>, cur: string)
    requires |ws| > 0
    requires forall i :: 0 <= i < |ws| ==> ws[i] != [] && NoSpace(ws[i])
    requires cur == []
    ensures SplitWsFrom(Join(ws, " "), cur) == ws
    decreases |ws|
  {
    if |ws| == 1 {
      SplitWsWordFrom(ws[0], [], []);
      assert ws[0] + [] == ws[0] && [] + ws[0] == ws[0];
      assert SplitWsFrom([], ws[0]) == [ws[0]];
    } else {
      var tail := Join(ws[1..], " ");
      assert Join(ws, " ") == ws[0] + (" " + tail);
      SplitWsWordFrom(ws[0], " " + tail, []);
      assert [] + ws[0] == ws[0];
      assert (" " + tail)[0] == ' ' && (" " + tail)[1..] == tail;
      assert SplitWsFrom(" " + tail, ws[0]) == [ws[0]] + SplitWsFrom(tail, []);
      SplitWsJoinFrom(ws[1..], []);
      assert [ws[0]] + ws[1..] == ws;
    }
  }

  // ---------------------------------------------------------------- splitting on a character

  /** The fields of `s` after the partial field `cur`, split on every occurrence of `sep`. */
  function SplitOnFrom(s: string, sep: char, cur: string): (r: seq<string>)
    ensures |r| >= 1
    decreases |s|
  {
    if s == [] then [cur]
    else if s[0] == sep then [cur] + SplitOnFrom(s[1..], sep, [])
    else SplitOnFrom(s[1..], sep, cur + [s[0]])
  }

  /** JavaScript `s.split(sep)` and Python `s.split(sep)` for a one-character separator. */
  function SplitOn(s: string, sep: char): (r: seq<string>)
    ensures |r| >= 1
  {
    SplitOnFrom(s, sep, [])
  }

  predicate Excludes(s: string, c: char)
  {
    forall i :: 0 <= i < |s| ==> s[i] != c
  }

  lemma {:induction false} SplitOnFromFacts(s: string, sep: char, cur: string)
    requires Excludes(cur, sep)
    ensures forall i :: 0 <= i < |SplitOnFrom(s, sep, cur)| ==> Excludes(SplitOnFrom(s, sep, cur)[i], sep)
    ensures cur + s == Join(SplitOnFrom(s, sep, cur), [sep])
    ensures |SplitOnFrom(s, sep, cur)| == Count(s, sep) + 1
    decreases |s|
  {
    if s == [] {
    } else if s[0] == sep {
      SplitOnFromFacts(s[1..], sep, []);
      var rest := SplitOnFrom(s[1..], sep, []);
      assert Join([cur] + rest, [sep]) == cur + [sep] + Join(rest, [sep]);
      assert s == [sep] + s[1..];
    } else {
      SplitOnFromFacts(s[1..], sep, cur + [s[0]]);
      assert cur + s == (cur + [s[0]]) + s[1..];
    }
  }

  /** Splitting on `sep` gives fields free of `sep` that join back to the input, one more than its `sep` count. */
  lemma SplitOnFacts(s: string, sep: char)
    ensures forall i :: 0 <= i < |SplitOn(s, sep)| ==> Excludes(SplitOn(s, sep)[i], sep)
    ensures Join(SplitOn(s, sep), [sep]) == s
    ensures |SplitOn(s, sep)| == Count(s, sep) + 1
  {
    SplitOnFromFacts(s, sep, []);
  }

  lemma {:induction false} SplitOnFromJoin(parts: seq<string>, sep: char, cur: string)
    requires |parts| >= 1
    requires forall i :: 0 <= i < |parts| ==> Excludes(parts[i], sep)
    requires Excludes(cur, sep)
    ensures SplitOnFrom(Join(parts, [sep]), sep, cur) == [cur + parts[0]] + parts[1..]
    decreases |parts|, |parts[0]|
  {
    if parts[0] != [] {
      var p0 := parts[0];
      var parts' := [p0[1..]] + parts[1..];
      assert Join(parts, [sep]) == [p0[0]] + Join(parts', [sep]) by {
        if |parts| == 1 {
        } else {
          assert Join(parts', [sep]) == p0[1..] + [sep] + Join(parts[1..], [sep]);
        }
      }
      SplitOnFromJoin(parts', sep, cur + [p0[0]]);
      assert cur + [p0[0]] + p0[1..] == cur + p0;
      assert parts'[1..] == parts[1..];
    } else if |parts| == 1 {
      assert Join(parts, [sep]) == [];
      assert cur + parts[0] == cur && parts[1..] == [];
    } else {
      assert Join(parts, [sep]) == [sep] + Join(parts[1..], [sep]);
      SplitOnFromJoin(parts[1..], sep, []);
      var t := parts[1..];
      assert [] + t[0] == t[0];
      assert [t[0]] + t[1..] == t;
      assert cur + parts[0] == cur;
    }
  }

  /** Joining fields that never contain `sep` with `sep` and splitting on it gives the fields back. */
  lemma {:induction false} SplitOnJoin(parts: seq<string>, sep: char)
    requires |parts| >= 1
    requires forall i :: 0 <= i < |parts| ==> Excludes(parts[i], sep)
    ensures SplitOn(Join(parts, [sep]), sep) == parts
  {
    SplitOnFromJoin(parts, sep, []);
    assert [] + parts[0] == parts[0];
    assert [parts[0]] + parts[1..] == parts;
  }

  function Count(s: string, c: char): nat
  {
    if s == [] then 0 else (if s[0] == c then 1 else 0) + Count(s[1..], c)
  }

  // ---------------------------------------------------------------- joining and replacing

  /** Python `sep.join(parts)` and JavaScript `parts.join(sep)`. */
  function Join(parts: seq<string>, sep: string): (r: string)
    ensures |parts| == 1 ==> r == parts[0]
  {
    if |parts| == 0 then ""
    else if |parts| == 1 then parts[0]
    else parts[0] + sep + Join(parts[1..], sep)
  }

  lemma {:induction false} JoinAppend(parts: seq<string>, last: string, sep: string)
    requires |parts| >= 1
    ensures Join(parts + [last], sep) == Join(parts, sep) + sep + last
    decreases |parts|
  {
    if |parts| == 1 {
      assert parts + [last] == [parts[0], last];
      assert [parts[0], last][1..] == [last];
    } else {
      assert (parts + [last])[1..] == parts[1..] + [last];
      JoinAppend(parts[1..], last, sep);
    }
  }

  /** Every occurrence of `c` in `s` replaced by `rep` (JavaScript `replace(/c/g, rep)`, Python `replace`). */
  function ReplaceChar(s: string, c: char, rep: string): (r: string)
    ensures Excludes(s, c) ==> r == s
  {
    if s == [] then "" else (if s[0] == c then rep else [s[0]]) + ReplaceChar(s[1..], c, rep)
  }

  lemma {:induction false} ReplaceCharAppend(a: string, b: string, c: char, rep: string)
    ensures ReplaceChar(a + b, c, rep) == ReplaceChar(a, c, rep) + ReplaceChar(b, c, rep)
    decreases |a|
  {
    if a == [] {
      assert a + b == b;
    } else {
      assert (a + b)[0] == a[0];
      assert (a + b)[1..] == a[1..] + b;
      ReplaceCharAppend(a[1..], b, c, rep);
      var h := if a[0] == c then rep else [a[0]];
      assert ReplaceChar(a + b, c, rep) == h + (ReplaceChar(a[1..], c, rep) + ReplaceChar(b, c, rep));
    }
  }

  function Repeat(c: char, n: nat): (r: string)
    ensures |r| == n && forall i :: 0 <= i < n ==> r[i] == c
  {
    if n == 0 then "" else [c] + Repeat(c, n - 1)
  }

  predicate StartsWith(s: string, prefix: string)
  {
    |prefix| <= |s| && s[..|prefix|] == prefix
  }

  predicate EndsWith(s: string, suffix: string)
  {
    |suffix| <= |s| && s[|s| - |suffix|..] == suffix
  }

  /** ASCII letters mapped to lower case (Python `str.lower()` on ASCII text). */
  function PyLower(s: string): (r: string)
    ensures |r| == |s|
    ensures forall i :: 0 <= i < |s| ==> r[i] == LowerChar(s[i])
  {
    if s == [] then "" else [LowerChar(s[0])] + PyLower(s[1..])
  }

  function LowerChar(c: char): char
  {
    if 'A' <= c <= 'Z' then (c as int + 32) as char else c
  }

  // ---------------------------------------------------------------- decimal digits

  predicate IsDigit(c: char)
  {
    '0' <= c <= '9'
  }

  predicate AllDigits(s: string)
  {
    forall i :: 0 <= i < |s| ==> IsDigit(s[i])
  }

  function DigitChar(d: nat): (c: char)
    requires d < 10
    ensures IsDigit(c) && (c as int) - ('0' as int) == d
  {
    ('0' as int + d) as char
  }

  function Pow10(n: nat): (r: nat)
    ensures r >= 1
  {
    if n == 0 then 1 else 10 * Pow10(n - 1)
  }

  /** Decimal digits of `n` with no leading zero (Python `str(n)`, JavaScript `n.toString()`). */
  function NatToString(n: nat): (r: string)
    ensures |r| >= 1
  {
    if n < 10 then [DigitChar(n)] else NatToString(n / 10) + [DigitChar(n % 10)]
  }

  /** The rendering is all digits, has no leading zero, and has enough digits for `n`. */
  lemma {:induction false} NatToStringFacts(n: nat)
    ensures AllDigits(NatToString(n))
    ensures |NatToString(n)| > 1 ==> NatToString(n)[0] != '0'
    ensures n < Pow10(|NatToString(n)|)
  {
    if n >= 10 {
      NatToStringFacts(n / 10);
      var t := NatToString(n / 10);
      assert NatToString(n) == t + [DigitChar(n % 10)];
      assert NatToString(n)[0] == t[0];
    }
  }

  /** Decimal rendering of an integer with a leading `-` when negative. */
  function IntToString(i: int): (r: string)
    ensures |r| >= 1
    ensures i >= 0 ==> r == NatToString(i)
    ensures i < 0 ==> r == "-" + NatToString(-i)
  {
    if i < 0 then "-" + NatToString(-i) else NatToString(i)
  }

  /** The value of a string of decimal digits. */
  function DigitsValue(s: string): nat
    requires AllDigits(s)
  {
    if s == [] then 0 else 10 * DigitsValue(s[..|s| - 1]) + ((s[|s| - 1] as int) - ('0' as int))
  }

  lemma {:induction false} DigitsValueOfNatToString(n: nat)
    ensures AllDigits(NatToString(n))
    ensures DigitsValue(NatToString(n)) == n
  {
    NatToStringFacts(n);
    if n >= 10 {
      var s := NatToString(n);
      assert s[..|s| - 1] == NatToString(n / 10);
      DigitsValueOfNatToString(n / 10);
    }
  }

  lemma {:induction false} DigitsValueAppend(a: string, b: string)
    requires AllDigits(a) && AllDigits(b)
    ensures AllDigits(a + b)
    ensures DigitsValue(a + b) == DigitsValue(a) * Pow10(|b|) + DigitsValue(b)
    decreases |b|
  {
    if b == [] {
      assert a + b == a;
    } else {
      var ab := a + b;
      var b' := b[..|b| - 1];
      var last := b[|b| - 1];
      assert ab[..|ab| - 1] == a + b';
      assert ab[|ab| - 1] == last;
      DigitsValueAppend(a, b');
      var x, p, y, d := DigitsValue(a), Pow10(|b'|), DigitsValue(b'), (last as int) - ('0' as int);
      assert DigitsValue(b) == 10 * y + d;
      assert Pow10(|b|) == 10 * p;
      assert DigitsValue(ab) == 10 * DigitsValue(a + b') + d;
      ShiftDigit(x, p, y, d);
    }
  }

  lemma ShiftDigit(x: int, p: int, y: int, d: int)
    ensures 10 * (x * p + y) + d == x * (10 * p) + (10 * y + d)
  {
    assert 10 * (x * p) == x * (10 * p);
  }

  lemma {:induction false} DigitsValueZeros(n: nat)
    ensures AllDigits(Repeat('0', n)) && DigitsValue(Repeat('0', n)) == 0
  {
    if n > 0 {
      var z := Repeat('0', n);
      assert z[..n - 1] == Repeat('0', n - 1);
      DigitsValueZeros(n - 1);
    }
  }

  /** `s` left-padded with `0` to at least `width` characters (JavaScript `padStart(width, '0')`). */
  function ZeroPad(s: string, width: nat): (r: string)
    ensures |r| == if |s| < width then width else |s|
  {
    Repeat('0', if |s| < width then width - |s| else 0) + s
  }

  /** Padding keeps the text at the end, and a digit string keeps its value. */
  lemma ZeroPadFacts(s: string, width: nat)
    ensures EndsWith(ZeroPad(s, width), s)
    ensures AllDigits(s) ==> AllDigits(ZeroPad(s, width)) && DigitsValue(ZeroPad(s, width)) == DigitsValue(s)
  {
    var r := ZeroPad(s, width);
    assert r[|r| - |s|..] == s;
    if AllDigits(s) {
      DigitsValueZeros(|r| - |s|);
      DigitsValueAppend(Repeat('0', |r| - |s|), s);
    }
  }

  /** Python `f"{n:0{width}d}"`: zero padding after the sign to a total of `width` characters. */
  function PyFormatInt(i: int, width: nat): (r: string)
  {
    if i < 0 then "-" + ZeroPad(NatToString(-i), if width == 0 then 0 else width - 1)
    else ZeroPad(NatToString(i), width)
  }

  /** A non-negative value prints as at least `width` digits of that value; a negative one as `-` and the digits of its magnitude. */
  lemma PyFormatIntFacts(i: int, width: nat)
    ensures i >= 0 ==> AllDigits(PyFormatInt(i, width)) && DigitsValue(PyFormatInt(i, width)) == i && |PyFormatInt(i, width)| >= width
    ensures i < 0 ==> var r := PyFormatInt(i, width);
      |r| >= 2 && r[0] == '-' && AllDigits(r[1..]) && DigitsValue(r[1..]) == -i
  {
    if i < 0 {
      var body := ZeroPad(NatToString(-i), if width == 0 then 0 else width - 1);
      DigitsValueOfNatToString(-i);
      ZeroPadFacts(NatToString(-i), if width == 0 then 0 else width - 1);
      assert ("-" + body)[1..] == body;
    } else {
      DigitsValueOfNatToString(i);
      ZeroPadFacts(NatToString(i), width);
    }
  }

  /** For `0 <= n < 10^width` the padded rendering has exactly `width` digits. */
  lemma PadWidthExact(n: nat, width: nat)
    requires n < Pow10(width)
    ensures |PyFormatInt(n, width)| == if width == 0 then 1 else width
  {
    var s := NatToString(n);
    if |s| > width && width > 0 {
      NatPow10Bound(n, s);
      Pow10Monotone(width, |s| - 1);
    }
  }

  lemma {:induction false} NatPow10Bound(n: nat, s: string)
    requires s == NatToString(n) && |s| > 1
    ensures n >= Pow10(|s| - 1)
  {
    if n >= 10 {
      var t := NatToString(n / 10);
      if |t| > 1 {
        NatPow10Bound(n / 10, t);
      }
    }
  }

  lemma {:induction false} Pow10Monotone(a: nat, b: nat)
    requires a <= b
    ensures Pow10(a) <= Pow10(b)
    decreases b
  {
    if a < b {
      Pow10Monotone(a, b - 1);
    }
  }
}
