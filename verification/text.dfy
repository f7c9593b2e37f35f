/** The Python string operations the bot relies on (`strip`, `upper`, `lower`, `split`,
    `replace`, `startswith`, `in`, `capitalize`, `str(int)` and `<` on strings), written
    for the characters they treat specially. Case mapping is ASCII only. */
module Text {

  /** `str.isspace()`: the characters Python's `strip()` and `split()` treat as whitespace. */
  predicate IsSpace(c: char)
  {
    c == ' ' || ('\t' <= c <= '\r') || ('\U{1C}' <= c <= '\U{1F}') || c == '\U{85}'
    || c == '\U{A0}' || c == '\U{1680}' || ('\U{2000}' <= c <= '\U{200A}')
    || c == '\U{2028}' || c == '\U{2029}' || c == '\U{202F}' || c == '\U{205F}' || c == '\U{3000}'
  }

  predicate IsDigit(c: char)
  {
    '0' <= c <= '9'
  }

  function UpperChar(c: char): char
  {
    if 'a' <= c <= 'z' then (c as int - 32) as char else c
  }

  function LowerChar(c: char): char
  {
    if 'A' <= c <= 'Z' then (c as int + 32) as char else c
  }

  /** `s.upper()`: every lower-case ASCII letter is replaced by its capital, nothing else moves. */
  function Upper(s: string): (r: string)
    ensures |r| == |s|
    ensures forall i :: 0 <= i < |s| ==> r[i] == UpperChar(s[i])
  {
    seq(|s|, i requires 0 <= i < |s| => UpperChar(s[i]))
  }

  /** `s.lower()`. */
  function Lower(s: string): (r: string)
    ensures |r| == |s|
    ensures forall i :: 0 <= i < |s| ==> r[i] == LowerChar(s[i])
  {
    seq(|s|, i requires 0 <= i < |s| => LowerChar(s[i]))
  }

  /** `s.lstrip()`: the result is the suffix left after dropping the leading whitespace. */
  function LStrip(s: string): (r: string)
    ensures |r| <= |s| && r == s[|s| - |r|..]
    ensures |r| > 0 ==> !IsSpace(r[0])
    ensures forall i :: 0 <= i < |s| - |r| ==> IsSpace(s[i])
  {
    if |s| > 0 && IsSpace(s[0]) then LStrip(s[1..]) else s
  }

  /** `s.rstrip()`: the result is the prefix left after dropping the trailing whitespace. */
  function RStrip(s: string): (r: string)
    ensures |r| <= |s| && r == s[..|r|]
    ensures |r| > 0 ==> !IsSpace(r[|r| - 1])
    ensures forall i :: |r| <= i < |s| ==> IsSpace(s[i])
  {
    if |s| > 0 && IsSpace(s[|s| - 1]) then RStrip(s[..|s| - 1]) else s
  }

  /** `s.strip()`. */
  function Strip(s: string): (r: string)
    ensures |r| <= |s|
    ensures |r| > 0 ==> !IsSpace(r[0]) && !IsSpace(r[|r| - 1])
  {
    RStrip(LStrip(s))
  }

  /** A string that `strip()` leaves alone. */
  predicate Stripped(s: string)
  {
    |s| > 0 ==> !IsSpace(s[0]) && !IsSpace(s[|s| - 1])
  }

  lemma StripOfStripped(s: string)
    requires Stripped(s)
    ensures Strip(s) == s
  {
  }

  lemma StripIdempotent(s: string)
    ensures Strip(Strip(s)) == Strip(s)
  {
    StripOfStripped(Strip(s));
  }

  /** No letter is whitespace, so case mapping never turns a blank into a non-blank or back. */
  lemma UpperCharSpace(c: char)
    ensures IsSpace(UpperChar(c)) == IsSpace(c)
  {
  }

  lemma UpperKeepsStripped(t: string)
    requires Stripped(t)
    ensures Stripped(Upper(t))
  {
    if |t| > 0 {
      UpperCharSpace(t[0]);
      UpperCharSpace(t[|t| - 1]);
    }
  }

  lemma {:induction false} LStripUpper(s: string)
    ensures LStrip(Upper(s)) == Upper(LStrip(s))
    decreases |s|
  {
    if |s| > 0 {
      UpperCharSpace(s[0]);
      if IsSpace(s[0]) {
        assert Upper(s)[1..] == Upper(s[1..]);
        LStripUpper(s[1..]);
      }
    }
  }

  lemma {:induction false} RStripUpper(s: string)
    ensures RStrip(Upper(s)) == Upper(RStrip(s))
    decreases |s|
  {
    if |s| > 0 {
      var n := |s| - 1;
      UpperCharSpace(s[n]);
      assert Upper(s)[n] == UpperChar(s[n]);
      if IsSpace(s[n]) {
        assert Upper(s)[..n] == Upper(s[..n]);
        RStripUpper(s[..n]);
        assert RStrip(Upper(s)) == RStrip(Upper(s[..n]));
      } else {
        assert RStrip(s) == s;
        assert RStrip(Upper(s)) == Upper(s);
      }
    }
  }

  /** Upper-casing and stripping commute, because no letter is whitespace. */
  lemma StripUpperCommute(s: string)
    ensures Strip(Upper(s)) == Upper(Strip(s))
  {
    LStripUpper(s);
    RStripUpper(LStrip(s));
  }

  lemma UpperIdempotent(s: string)
    ensures Upper(Upper(s)) == Upper(s)
  {
  }

  /** `s.strip().upper()`: the normal form the router puts every message body into. */
  function Canon(s: string): (r: string)
    ensures |r| <= |s|
    ensures Stripped(r)
  {
    UpperKeepsStripped(Strip(s));
    Upper(Strip(s))
  }

  /** Normalising twice is normalising once, so the later `strip().upper()` calls on an
      already normalised body change nothing. */
  lemma CanonIdempotent(s: string)
    ensures Canon(Canon(s)) == Canon(s)
  {
    StripUpperCommute(Strip(s));
    StripIdempotent(s);
    UpperIdempotent(Strip(s));
  }

  /** A stripped string without lower-case letters is its own normal form. */
  lemma CanonOfCanonical(t: string)
    requires Stripped(t)
    requires forall i :: 0 <= i < |t| ==> UpperChar(t[i]) == t[i]
    ensures Canon(t) == t
  {
    StripOfStripped(t);
  }

  /** `s.startswith(p)`. */
  predicate StartsWith(s: string, p: string)
  {
    |p| <= |s| && s[..|p|] == p
  }

  /** `p in s`, as a substring test. */
  predicate Contains(s: string, p: string)
    decreases |s|
  {
    StartsWith(s, p) || (|s| > 0 && Contains(s[1..], p))
  }

  /** `any(p in s for p in ps)`. */
  function ContainsAny(s: string, ps: seq<string>): (b: bool)
    ensures b <==> exists i :: 0 <= i < |ps| && Contains(s, ps[i])
    decreases |ps|
  {
    if |ps| == 0 then false
    else if Contains(s, ps[0]) then true
    else
      var rest := ContainsAny(s, ps[1..]);
      assert (exists i :: 0 <= i < |ps| - 1 && Contains(s, ps[1..][i])) <==>
             (exists i :: 1 <= i < |ps| && Contains(s, ps[i])) by {
        forall i | 0 <= i < |ps| - 1 ensures ps[1..][i] == ps[i + 1] { }
        if exists i :: 1 <= i < |ps| && Contains(s, ps[i]) {
          var i :| 1 <= i < |ps| && Contains(s, ps[i]);
          assert ps[1..][i - 1] == ps[i];
        }
      }
      rest
  }

  /** A pattern whose first character is absent from `s` does not occur in it. */
  lemma {:induction false} NotContainsByFirstChar(s: string, p: string)
    requires |p| > 0 && p[0] !in s
    ensures !Contains(s, p)
    decreases |s|
  {
    if |s| > 0 {
      NotContainsByFirstChar(s[1..], p);
    }
  }

  /** A pattern longer than `s` does not occur in it. */
  lemma {:induction false} NotContainsLonger(s: string, p: string)
    requires |p| > |s|
    ensures !Contains(s, p)
    decreases |s|
  {
    if |s| > 0 {
      NotContainsLonger(s[1..], p);
    }
  }

  /** A pattern one of whose slices does not occur in `s` does not occur in it either. */
  lemma {:induction false} NotContainsBySlice(s: string, p: string, a: nat, b: nat)
    requires a < b <= |p| && !Contains(s, p[a..b])
    ensures !Contains(s, p)
    decreases |s|
  {
    if StartsWith(s, p) {
      assert s[a..][..b - a] == p[a..b];
      ContainsAt(s, p[a..b], a);
    }
    if |s| > 0 {
      NotContainsBySlice(s[1..], p, a, b);
    }
  }

  /** A pattern with a character absent from `s` does not occur in it. */
  lemma NotContainsByChar(s: string, p: string, k: nat)
    requires k < |p| && p[k] !in s
    ensures !Contains(s, p)
  {
    NotContainsByFirstChar(s, p[k..k + 1]);
    NotContainsBySlice(s, p, k, k + 1);
  }

  /** A pattern with two adjacent characters that are never adjacent in `s`, in that order,
      does not occur in it. */
  lemma NotContainsByPair(s: string, p: string, a: nat)
    requires a + 1 < |p|
    requires forall k :: 0 <= k < |s| - 1 ==> !(s[k] == p[a] && s[k + 1] == p[a + 1])
    ensures !Contains(s, p)
  {
    NotContainsPair(s, p[a..a + 2]);
    NotContainsBySlice(s, p, a, a + 2);
  }

  lemma {:induction false} NotContainsPair(s: string, p: string)
    requires |p| == 2
    requires forall k :: 0 <= k < |s| - 1 ==> !(s[k] == p[0] && s[k + 1] == p[1])
    ensures !Contains(s, p)
    decreases |s|
  {
    if |s| > 0 {
      if |s| >= 2 {
        assert !(s[0] == p[0] && s[1] == p[1]);
        assert s[..2][0] == s[0] && s[..2][1] == s[1];
      }
      var t := s[1..];
      forall k | 0 <= k < |t| - 1 ensures !(t[k] == p[0] && t[k + 1] == p[1]) {
        assert t[k] == s[k + 1] && t[k + 1] == s[k + 2];
      }
      NotContainsPair(s[1..], p);
    }
  }

  /** `s.replace(pat, rep)`: leftmost, non-overlapping occurrences, scanned once. */
  function Replace(s: string, pat: string, rep: string): string
    requires |pat| > 0
    decreases |s|
  {
    if |s| < |pat| then s
    else if s[..|pat|] == pat then rep + Replace(s[|pat|..], pat, rep)
    else [s[0]] + Replace(s[1..], pat, rep)
  }

  /** Without an occurrence of `pat`, `replace` returns its input. */
  lemma {:induction false} ReplaceAbsent(s: string, pat: string, rep: string)
    requires |pat| > 0
    requires !Contains(s, pat)
    ensures Replace(s, pat, rep) == s
    decreases |s|
  {
    if |s| >= |pat| {
      ReplaceAbsent(s[1..], pat, rep);
      assert [s[0]] + s[1..] == s;
    }
  }

  /** A pattern whose first character is absent from `s` and which is longer than `t` does
      not occur in `s + t`. */
  lemma {:induction false} NotContainsBeforeShortTail(s: string, t: string, p: string)
    requires |p| > |t| && p[0] !in s
    ensures !Contains(s + t, p)
    decreases |s|
  {
    if |s| == 0 {
      assert s + t == t;
      NotContainsLonger(t, p);
    } else {
      assert (s + t)[0] == s[0] && (s + t)[1..] == s[1..] + t;
      NotContainsBeforeShortTail(s[1..], t, p);
    }
  }

  /** Deleting a pattern that occurs only as the tail of `s + p` leaves `s`. */
  lemma {:induction false} ReplaceTrailing(s: string, p: string)
    requires |p| > 0 && p[0] !in s
    ensures Replace(s + p, p, "") == s
    decreases |s|
  {
    if |s| == 0 {
      assert s + p == p && p[|p|..] == "";
    } else {
      var x := s + p;
      assert x[0] == s[0] && x[1..] == s[1..] + p;
      assert x[..|p|] != p;
      ReplaceTrailing(s[1..], p);
      assert [s[0]] + s[1..] == s;
    }
  }

  /** An occurrence of `p` at position `i` is an occurrence in `s`. */
  lemma {:induction false} ContainsAt(s: string, p: string, i: nat)
    requires i <= |s| && StartsWith(s[i..], p)
    ensures Contains(s, p)
    decreases i
  {
    if i > 0 {
      assert s[1..][i - 1..] == s[i..];
      ContainsAt(s[1..], p, i - 1);
    }
  }

  /** Removing a single character with `replace(c, "")` keeps every other character, in order. */
  lemma {:induction false} ReplaceCharRemoves(s: string, c: char)
    ensures c !in Replace(s, [c], "")
    ensures forall x :: x in s && x != c ==> x in Replace(s, [c], "")
    ensures forall x :: x in Replace(s, [c], "") ==> x in s
    decreases |s|
  {
    if |s| > 0 {
      ReplaceCharRemoves(s[1..], c);
      assert forall x :: x in s ==> x == s[0] || x in s[1..];
    }
  }

  /** `s.split()`: maximal runs of non-whitespace, in order. */
  function Split(s: string): (parts: seq<string>)
    ensures forall k :: 0 <= k < |parts| ==> |parts[k]| > 0
    ensures forall k, i :: 0 <= k < |parts| && 0 <= i < |parts[k]| ==> !IsSpace(parts[k][i])
    decreases |s|
  {
    if |s| == 0 then []
    else if IsSpace(s[0]) then Split(s[1..])
    else
      var n := TokenLength(s);
      [s[..n]] + Split(s[n..])
  }

  /** Length of the leading run of non-whitespace. */
  function TokenLength(s: string): (n: nat)
    ensures n <= |s|
    ensures forall i :: 0 <= i < n ==> !IsSpace(s[i])
    ensures n < |s| ==> IsSpace(s[n])
    decreases |s|
  {
    if |s| == 0 || IsSpace(s[0]) then 0 else 1 + TokenLength(s[1..])
  }

  /** A body that begins with a non-blank character yields at least one part, and the first
      part begins with that body's leading word. */
  lemma SplitFirst(s: string, w: string)
    requires |w| > 0 && StartsWith(s, w)
    requires forall i :: 0 <= i < |w| ==> !IsSpace(w[i])
    ensures |Split(s)| >= 1 && StartsWith(Split(s)[0], w)
  {
  }

  /** `s.capitalize()` on ASCII: first character upper-cased, the rest lower-cased. */
  function Capitalize(s: string): (r: string)
    ensures |r| == |s|
    ensures |s| > 0 ==> r[0] == UpperChar(s[0])
    ensures forall i :: 1 <= i < |s| ==> r[i] == LowerChar(s[i])
  {
    if |s| == 0 then "" else [UpperChar(s[0])] + Lower(s[1..])
  }

  function DigitChar(d: nat): char
    requires d < 10
  {
    ('0' as int + d) as char
  }

  /** `str(n)` for a natural number: decimal digits, no leading zero. */
  function NatToString(n: nat): (r: string)
    ensures |r| > 0
    ensures forall i :: 0 <= i < |r| ==> IsDigit(r[i])
    ensures n > 0 ==> r[0] != '0'
    decreases n
  {
    if n < 10 then [DigitChar(n)] else NatToString(n / 10) + [DigitChar(n % 10)]
  }

  /** `str(n)` for any integer. */
  function IntToString(n: int): (r: string)
    ensures |r| > 0
    ensures n < 0 <==> r[0] == '-'
  {
    if n < 0 then "-" + NatToString(-n) else NatToString(n)
  }

  /** `a < b` on Python strings: lexicographic by code point, a proper prefix first. */
  predicate Less(a: string, b: string)
    decreases |a|
  {
    |b| > 0 && (|a| == 0 || a[0] < b[0] || (a[0] == b[0] && Less(a[1..], b[1..])))
  }

  lemma {:induction false} LessIrreflexive(a: string)
    ensures !Less(a, a)
    decreases |a|
  {
    if |a| > 0 {
      LessIrreflexive(a[1..]);
    }
  }

  lemma {:induction false} LessTransitive(a: string, b: string, c: string)
    requires Less(a, b) && Less(b, c)
    ensures Less(a, c)
    decreases |a|
  {
    if |a| > 0 && a[0] == b[0] && b[0] == c[0] {
      LessTransitive(a[1..], b[1..], c[1..]);
    }
  }

  lemma {:induction false} LessTotal(a: string, b: string)
    ensures a == b || Less(a, b) || Less(b, a)
    decreases |a|
  {
    if |a| > 0 && |b| > 0 && a[0] == b[0] {
      LessTotal(a[1..], b[1..]);
      if a[1..] == b[1..] {
        assert a == [a[0]] + a[1..] && b == [b[0]] + b[1..];
      }
    }
  }

  lemma LessAsymmetric(a: string, b: string)
    requires Less(a, b)
    ensures !Less(b, a)
  {
    if Less(b, a) {
      LessTransitive(a, b, a);
      LessIrreflexive(a);
    }
  }

  /** `x` is a least element of `s` under `Less`. */
  predicate IsLeast(x: string, s: set<string>)
  {
    x in s && forall y :: y in s ==> !Less(y, x)
  }

  lemma {:induction false} LeastExists(s: set<string>)
    requires s != {}
    ensures exists x :: IsLeast(x, s)
    decreases |s|
  {
    var y :| y in s;
    if s == {y} {
      LessIrreflexive(y);
      assert IsLeast(y, s);
    } else {
      LeastExists(s - {y});
      var x :| IsLeast(x, s - {y});
      LessTotal(x, y);
      if Less(y, x) {
        forall z | z in s
          ensures !Less(z, y)
        {
          if z == y {
            LessIrreflexive(y);
          } else if Less(z, y) {
            LessTransitive(z, y, x);
          }
        }
        assert IsLeast(y, s);
      } else {
        if x != y {
          LessAsymmetric(x, y);
        }
        assert IsLeast(x, s);
      }
    }
  }

  lemma LeastUnique(x: string, y: string, s: set<string>)
    requires IsLeast(x, s) && IsLeast(y, s)
    ensures x == y
  {
    LessTotal(x, y);
  }

  /** The least string of a non-empty set. */
  function Least(s: set<string>): (x: string)
    requires s != {}
    ensures IsLeast(x, s)
  {
    LeastExists(s);
    assert forall x, y :: IsLeast(x, s) && IsLeast(y, s) ==> x == y by {
      forall x, y | IsLeast(x, s) && IsLeast(y, s)
        ensures x == y
      {
        LeastUnique(x, y, s);
      }
    }
    var x :| IsLeast(x, s);
    x
  }

  /** Strictly increasing under `Less`, hence without repeats. */
  predicate StrictlySorted(xs: seq<string>)
  {
    forall i, j :: 0 <= i < j < |xs| ==> Less(xs[i], xs[j])
  }

  /** `sorted(s)` for a set of strings: the elements of `s`, each once, in increasing order. */
  function SortedList(s: set<string>): (xs: seq<string>)
    ensures StrictlySorted(xs)
    ensures forall x :: x in xs <==> x in s
    ensures |xs| == |s|
    decreases |s|
  {
    if s == {} then []
    else
      var m := Least(s);
      var rest := SortedList(s - {m});
      assert forall y :: y in rest ==> Less(m, y) by {
        forall y | y in rest
          ensures Less(m, y)
        {
          LessTotal(m, y);
        }
      }
      [m] + rest
  }
}
