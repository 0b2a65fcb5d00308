/**
 * The Python string operations the agent and the analyzer rely on, with Python's meaning:
 * substring test `w in s`, `startswith`, `sep.join(parts)`, `split(c)`, `count(c)`,
 * `lower()`/`upper()` (ASCII letters only), `strip()` and `str(n)` for integers.
 */
module Strings {

  /** `w` occurs in `s` starting at index `i`. */
  ghost predicate OccursAt(s: string, w: string, i: int)
  {
    0 <= i && i + |w| <= |s| && s[i..i + |w|] == w
  }

  /** Python's `s.startswith(p)`. */
  predicate StartsWith(s: string, p: string)
  {
    |p| <= |s| && s[..|p|] == p
  }

  /** Python's `s.endswith(t)`. */
  predicate EndsWith(s: string, t: string)
  {
    |t| <= |s| && s[|s| - |t|..] == t
  }

  lemma ConcatEnds(a: string, b: string)
    ensures StartsWith(a + b, a) && EndsWith(a + b, b)
  {
    assert (a + b)[..|a|] == a;
    assert (a + b)[|a + b| - |b|..] == b;
  }

  lemma StartsWithExtend(s: string, p: string, t: string)
    requires StartsWith(s, p)
    ensures StartsWith(s + t, p)
  {
    assert (s + t)[..|p|] == s[..|p|];
  }

  /** Python's substring test `w in s`. */
  predicate Contains(s: string, w: string)
    decreases |s|
  {
    StartsWith(s, w) || (|s| > 0 && Contains(s[1..], w))
  }

  /** `Contains` holds exactly when `w` occurs somewhere in `s`. */
  lemma {:induction false} ContainsIff(s: string, w: string)
    ensures Contains(s, w) <==> exists i :: OccursAt(s, w, i)
    decreases |s|
  {
    if Contains(s, w) {
      if StartsWith(s, w) {
        assert OccursAt(s, w, 0);
      } else {
        ContainsIff(s[1..], w);
        var i :| OccursAt(s[1..], w, i);
        assert s[1..][i..i + |w|] == s[i + 1..i + 1 + |w|];
        assert OccursAt(s, w, i + 1);
      }
    }
    if exists i :: OccursAt(s, w, i) {
      var i :| OccursAt(s, w, i);
      if i == 0 {
        assert StartsWith(s, w);
      } else {
        assert s[1..][i - 1..i - 1 + |w|] == s[i..i + |w|];
        assert OccursAt(s[1..], w, i - 1);
        ContainsIff(s[1..], w);
      }
    }
  }

  lemma ContainsAt(s: string, w: string, i: int)
    requires OccursAt(s, w, i)
    ensures Contains(s, w)
  {
    ContainsIff(s, w);
  }

  /** Every character of an occurring word is a character of the text. */
  lemma ContainsChars(s: string, w: string)
    requires Contains(s, w)
    ensures forall k :: 0 <= k < |w| ==> w[k] in s
  {
    ContainsIff(s, w);
    var i :| OccursAt(s, w, i);
    forall k | 0 <= k < |w|
      ensures w[k] in s
    {
      assert w[k] == s[i..i + |w|][k] == s[i + k];
    }
  }

  /** A word holding a character absent from the text does not occur in it. */
  lemma NotContains(s: string, w: string, k: int)
    requires 0 <= k < |w| && w[k] !in s
    ensures !Contains(s, w)
  {
    if Contains(s, w) {
      ContainsChars(s, w);
    }
  }

  /** Occurrence is transitive: a word of a word of `s` is a word of `s`. */
  lemma ContainsTrans(s: string, w: string, v: string)
    requires Contains(s, w) && Contains(w, v)
    ensures Contains(s, v)
  {
    ContainsIff(s, w);
    ContainsIff(w, v);
    var i :| OccursAt(s, w, i);
    var j :| OccursAt(w, v, j);
    forall k | 0 <= k < |v|
      ensures s[i + j + k] == v[k]
    {
      assert v[k] == w[j..j + |v|][k] == w[j + k];
      assert w[j + k] == s[i..i + |w|][j + k] == s[i + j + k];
    }
    assert s[i + j..i + j + |v|] == v;
    ContainsAt(s, v, i + j);
  }

  /** Python's `sep.join(parts)`. */
  function Join(sep: string, parts: seq<string>): string
    decreases |parts|
  {
    if |parts| == 0 then ""
    else if |parts| == 1 then parts[0]
    else parts[0] + sep + Join(sep, parts[1..])
  }

  /** Python's slice `s[:n]` for a non-negative `n`. */
  function Take<T>(s: seq<T>, n: nat): (r: seq<T>)
    ensures |r| == (if |s| <= n then |s| else n)
    ensures r == s[..|r|]
  {
    if |s| <= n then s else s[..n]
  }

  /** Python's `s.count(c)` for a single character. */
  function CountChar(s: string, c: char): nat
  {
    if |s| == 0 then 0 else (if s[0] == c then 1 else 0) + CountChar(s[1..], c)
  }

  /** Python's `s.split(c)` for a single-character separator: empty pieces are kept. */
  function Split(s: string, c: char): (r: seq<string>)
    ensures |r| >= 1
    decreases |s|
  {
    if |s| == 0 then [""]
    else
      var rest := Split(s[1..], c);
      if s[0] == c then [""] + rest else [[s[0]] + rest[0]] + rest[1..]
  }

  /** Splitting yields one more piece than there are separators. */
  lemma {:induction false} SplitCount(s: string, c: char)
    ensures |Split(s, c)| == CountChar(s, c) + 1
    decreases |s|
  {
    if |s| > 0 {
      SplitCount(s[1..], c);
    }
  }

  lemma {:induction false} SplitWithoutSeparator(a: string, c: char)
    requires c !in a
    ensures Split(a, c) == [a]
    decreases |a|
  {
    if |a| > 0 {
      assert a[1..] + [] == a[1..];
      SplitWithoutSeparator(a[1..], c);
      assert [a[0]] + a[1..] == a;
    }
  }

  lemma {:induction false} SplitAtFirstSeparator(a: string, b: string, c: char)
    requires c !in a
    ensures Split(a + [c] + b, c) == [a] + Split(b, c)
    decreases |a|
  {
    var s := a + [c] + b;
    if |a| == 0 {
      assert s[0] == c && s[1..] == b;
    } else {
      assert s[0] == a[0];
      assert s[1..] == a[1..] + [c] + b;
      SplitAtFirstSeparator(a[1..], b, c);
      assert [a[0]] + a[1..] == a;
    }
  }

  /** Splitting a join on a separator the parts do not contain gives the parts back. */
  lemma {:induction false} SplitJoin(parts: seq<string>, c: char)
    requires |parts| >= 1
    requires forall k :: 0 <= k < |parts| ==> c !in parts[k]
    ensures Split(Join([c], parts), c) == parts
    decreases |parts|
  {
    if |parts| == 1 {
      SplitWithoutSeparator(parts[0], c);
    } else {
      SplitJoin(parts[1..], c);
      SplitAtFirstSeparator(parts[0], Join([c], parts[1..]), c);
      assert [parts[0]] + parts[1..] == parts;
    }
  }

  /** Python's `c.lower()` restricted to ASCII letters. */
  function LowerChar(c: char): char
  {
    if 'A' <= c <= 'Z' then (c as int + 32) as char else c
  }

  /** Python's `c.upper()` restricted to ASCII letters. */
  function UpperChar(c: char): char
  {
    if 'a' <= c <= 'z' then (c as int - 32) as char else c
  }

  function Lower(s: string): (r: string)
    ensures |r| == |s|
    ensures forall i :: 0 <= i < |s| ==> r[i] == LowerChar(s[i])
  {
    seq(|s|, i requires 0 <= i < |s| => LowerChar(s[i]))
  }

  function Upper(s: string): (r: string)
    ensures |r| == |s|
    ensures forall i :: 0 <= i < |s| ==> r[i] == UpperChar(s[i])
  {
    seq(|s|, i requires 0 <= i < |s| => UpperChar(s[i]))
  }

  /** Python's `str.isspace` for one character. */
  predicate IsSpace(c: char)
  {
    || c == ' ' || c == '\t' || c == '\n' || c == '\r' || c == '\U{0B}' || c == '\U{0C}'
    || ('\U{1C}' <= c <= '\U{1F}')
    || c == '\U{85}' || c == '\U{A0}' || c == '\U{1680}'
    || ('\U{2000}' <= c <= '\U{200A}')
    || c == '\U{2028}' || c == '\U{2029}' || c == '\U{202F}' || c == '\U{205F}' || c == '\U{3000}'
  }

  function StripLeft(s: string): (r: string)
    ensures |r| <= |s| && r == s[|s| - |r|..]
    ensures |r| > 0 ==> !IsSpace(r[0])
  {
    if |s| > 0 && IsSpace(s[0]) then StripLeft(s[1..]) else s
  }

  function StripRight(s: string): (r: string)
    ensures |r| <= |s| && r == s[..|r|]
    ensures |r| > 0 ==> !IsSpace(r[|r| - 1])
  {
    if |s| > 0 && IsSpace(s[|s| - 1]) then StripRight(s[..|s| - 1]) else s
  }

  /** Python's `s.strip()`: removes leading and trailing whitespace. */
  function Strip(s: string): string
  {
    StripRight(StripLeft(s))
  }

  function DigitChar(d: nat): (c: char)
    requires d < 10
    ensures '0' <= c <= '9'
  {
    (48 + d) as char
  }

  predicate AllDigits(s: string)
  {
    forall k :: 0 <= k < |s| ==> '0' <= s[k] <= '9'
  }

  /** Python's `str(n)` for a natural number: its decimal digits, no leading zeros. */
  function NatToString(n: nat): (r: string)
    ensures |r| >= 1 && AllDigits(r)
    decreases n
  {
    if n < 10 then [DigitChar(n)] else NatToString(n / 10) + [DigitChar(n % 10)]
  }

  /** The number a string of decimal digits denotes. */
  function DigitsValue(s: string): nat
    requires AllDigits(s)
    decreases |s|
  {
    if |s| == 0 then 0 else DigitsValue(s[..|s| - 1]) * 10 + (s[|s| - 1] as int - 48)
  }

  /** Reading back the decimal rendering of `n` gives `n`. */
  lemma {:induction false} NatToStringRoundTrip(n: nat)
    ensures DigitsValue(NatToString(n)) == n
    decreases n
  {
    var r := NatToString(n);
    if n >= 10 {
      NatToStringRoundTrip(n / 10);
      assert r[..|r| - 1] == NatToString(n / 10);
    }
  }

  /** Distinct numbers have distinct decimal renderings. */
  lemma NatToStringInjective(m: nat, n: nat)
    requires NatToString(m) == NatToString(n)
    ensures m == n
  {
    NatToStringRoundTrip(m);
    NatToStringRoundTrip(n);
  }

  /** Python's `str(i)` for an integer. */
  function IntToString(i: int): string
  {
    if i < 0 then "-" + NatToString(-i) else NatToString(i)
  }
}
