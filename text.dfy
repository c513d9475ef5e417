/**
 * The string operations the schemas and pages rely on: JavaScript's
 * `String.prototype.trim`, an ASCII `toLowerCase`, a lexicographic order on
 * names, and decimal rendering of counts.
 */
module Text {

  /** The characters `trim` strips: ECMAScript WhiteSpace and LineTerminator. */
  const WhiteChars: set<char> := {
    ' ', '\t', '\n', '\r', '\U{000B}', '\U{000C}', '\U{00A0}', '\U{1680}',
    '\U{2000}', '\U{2001}', '\U{2002}', '\U{2003}', '\U{2004}', '\U{2005}',
    '\U{2006}', '\U{2007}', '\U{2008}', '\U{2009}', '\U{200A}',
    '\U{2028}', '\U{2029}', '\U{202F}', '\U{205F}', '\U{3000}', '\U{FEFF}'}

  predicate IsWhite(c: char) {
    c in WhiteChars
  }

  predicate AllWhite(s: string) {
    forall i :: 0 <= i < |s| ==> IsWhite(s[i])
  }

  /** The first index at or after `k` whose character is not white, or `|s|`: where `trim` starts. */
  function SkipWhite(s: string, k: nat): (n: nat)
    requires k <= |s|
    ensures k <= n <= |s|
    ensures forall i :: k <= i < n ==> IsWhite(s[i])
    ensures n == |s| || !IsWhite(s[n])
    decreases |s| - k
  {
    if k < |s| && IsWhite(s[k]) then SkipWhite(s, k + 1) else k
  }

  /** The end of `s[lo..hi]` once its trailing white space is dropped: where `trim` ends. */
  function SkipWhiteBack(s: string, lo: nat, hi: nat): (m: nat)
    requires lo <= hi <= |s|
    ensures lo <= m <= hi
    ensures forall i :: m <= i < hi ==> IsWhite(s[i])
    ensures m == lo || !IsWhite(s[m - 1])
    decreases hi - lo
  {
    if lo < hi && IsWhite(s[hi - 1]) then SkipWhiteBack(s, lo, hi - 1) else hi
  }

  /** `SkipWhite` is the only index with its postcondition. */
  lemma SkipWhiteUnique(s: string, k: nat, n: nat)
    requires k <= n <= |s|
    requires forall i :: k <= i < n ==> IsWhite(s[i])
    requires n == |s| || !IsWhite(s[n])
    ensures SkipWhite(s, k) == n
  {
  }

  /** `SkipWhiteBack` is the only index with its postcondition. */
  lemma SkipWhiteBackUnique(s: string, lo: nat, hi: nat, m: nat)
    requires lo <= m <= hi <= |s|
    requires forall i :: m <= i < hi ==> IsWhite(s[i])
    requires m == lo || !IsWhite(s[m - 1])
    ensures SkipWhiteBack(s, lo, hi) == m
  {
  }

  /**
   * `s.trim()`: `s` without its leading and trailing white space. Neither end
   * of the result is white, and the result is empty iff `s` is all white.
   */
  function Trim(s: string): (r: string)
    ensures |r| <= |s|
    ensures r == [] || (!IsWhite(r[0]) && !IsWhite(r[|r| - 1]))
    ensures r == [] <==> AllWhite(s)
  {
    var n := SkipWhite(s, 0);
    var m := SkipWhiteBack(s, n, |s|);
    assert n < |s| ==> m > n;
    s[n..m]
  }

  /** A string with no white space at either end is its own trim. */
  lemma TrimNoop(s: string)
    requires s == [] || (!IsWhite(s[0]) && !IsWhite(s[|s| - 1]))
    ensures Trim(s) == s
  {
    if s != [] {
      SkipWhiteUnique(s, 0, 0);
      SkipWhiteBackUnique(s, 0, |s|, |s|);
      assert s[0..|s|] == s;
    }
  }

  /** Trimming twice is trimming once. */
  lemma TrimIdempotent(s: string)
    ensures Trim(Trim(s)) == Trim(s)
  {
    TrimNoop(Trim(s));
  }

  /** `Trim` is the slice between the two skips. */
  lemma TrimIsSlice(s: string, n: nat, m: nat)
    requires n == SkipWhite(s, 0) && m == SkipWhiteBack(s, n, |s|)
    ensures Trim(s) == s[n..m]
  {
  }

  /** A slice of `s` is the same slice of `w + s`, shifted by `|w|`, and of `s + w`. */
  lemma ConcatSlices(w: string, s: string, a: nat, b: nat)
    requires a <= b <= |s|
    ensures (w + s)[|w| + a..|w| + b] == s[a..b]
    ensures (s + w)[a..b] == s[a..b]
  {
    var x := w + s;
    var y := s + w;
    forall i | 0 <= i < b - a ensures x[|w| + a..|w| + b][i] == s[a..b][i] {
      assert x[|w| + a + i] == s[a + i];
    }
    forall i | 0 <= i < b - a ensures y[a..b][i] == s[a..b][i] {
      assert y[a + i] == s[a + i];
    }
  }

  /** Leading white space moves where the trim starts by its length. */
  lemma SkipWhiteShift(w: string, s: string)
    requires AllWhite(w)
    ensures SkipWhite(w + s, 0) == |w| + SkipWhite(s, 0)
  {
    var x := w + s;
    var a := SkipWhite(s, 0);
    forall i | 0 <= i < |w| + a ensures IsWhite(x[i]) {
      if i < |w| { assert x[i] == w[i]; } else { assert x[i] == s[i - |w|]; }
    }
    assert a == |s| || x[|w| + a] == s[a];
    SkipWhiteUnique(x, 0, |w| + a);
  }

  /** ... and where it ends, by the same length. */
  lemma SkipWhiteBackShift(w: string, s: string, a: nat)
    requires a <= |s|
    ensures SkipWhiteBack(w + s, |w| + a, |w + s|) == |w| + SkipWhiteBack(s, a, |s|)
  {
    var x := w + s;
    var b := SkipWhiteBack(s, a, |s|);
    forall i | |w| + b <= i < |x| ensures IsWhite(x[i]) {
      assert x[i] == s[i - |w|];
    }
    assert b == a || x[|w| + b - 1] == s[b - 1];
    SkipWhiteBackUnique(x, |w| + a, |x|, |w| + b);
  }

  /** Trailing white space leaves where the trim starts, when `s` has a non-white character. */
  lemma SkipWhiteExtend(s: string, w: string)
    requires !AllWhite(s)
    ensures SkipWhite(s + w, 0) == SkipWhite(s, 0) < |s|
  {
    var x := s + w;
    var a := SkipWhite(s, 0);
    assert a < |s|;
    forall i | 0 <= i < a ensures IsWhite(x[i]) {
      assert x[i] == s[i];
    }
    assert x[a] == s[a];
    SkipWhiteUnique(x, 0, a);
  }

  /** ... and where it ends, from a non-white start. */
  lemma SkipWhiteBackExtend(s: string, w: string, a: nat)
    requires AllWhite(w) && a < |s| && !IsWhite(s[a])
    ensures SkipWhiteBack(s + w, a, |s + w|) == SkipWhiteBack(s, a, |s|)
  {
    var x := s + w;
    var b := SkipWhiteBack(s, a, |s|);
    assert b > a;
    forall i | b <= i < |x| ensures IsWhite(x[i]) {
      if i < |s| { assert x[i] == s[i]; } else { assert x[i] == w[i - |s|]; }
    }
    assert x[b - 1] == s[b - 1];
    SkipWhiteBackUnique(x, a, |x|, b);
  }

  /** Leading white space does not change the trim. */
  lemma TrimPadLeft(w: string, s: string)
    requires AllWhite(w)
    ensures Trim(w + s) == Trim(s)
  {
    var a := SkipWhite(s, 0);
    var b := SkipWhiteBack(s, a, |s|);
    SkipWhiteShift(w, s);
    SkipWhiteBackShift(w, s, a);
    calc {
      Trim(w + s);
      { TrimIsSlice(w + s, |w| + a, |w| + b); }
      (w + s)[|w| + a..|w| + b];
      { ConcatSlices(w, s, a, b); }
      s[a..b];
      { TrimIsSlice(s, a, b); }
      Trim(s);
    }
  }

  /** Trailing white space does not change the trim. */
  lemma TrimPadRight(s: string, w: string)
    requires AllWhite(w)
    ensures Trim(s + w) == Trim(s)
  {
    var x := s + w;
    if AllWhite(s) {
      forall i | 0 <= i < |x| ensures IsWhite(x[i]) {
        if i < |s| { assert x[i] == s[i]; } else { assert x[i] == w[i - |s|]; }
      }
      assert AllWhite(x);
    } else {
      var a := SkipWhite(s, 0);
      SkipWhiteExtend(s, w);
      var b := SkipWhiteBack(s, a, |s|);
      SkipWhiteBackExtend(s, w, a);
      ConcatSlices(w, s, a, b);
      TrimIsSlice(x, a, b);
      TrimIsSlice(s, a, b);
    }
  }

  /**
   * Surrounding white space does not matter: padding a string on both sides
   * with white space leaves its trim unchanged.
   */
  lemma TrimPadded(w1: string, s: string, w2: string)
    requires AllWhite(w1) && AllWhite(w2)
    ensures Trim(w1 + s + w2) == Trim(s)
  {
    TrimPadRight(w1 + s, w2);
    TrimPadLeft(w1, s);
  }

  /** ASCII letters only: `toLowerCase` beyond ASCII is not modelled. */
  function LowerChar(c: char): (d: char)
    ensures !('A' <= d <= 'Z')
    ensures !('A' <= c <= 'Z') ==> d == c
  {
    if 'A' <= c <= 'Z' then (c as int + 32) as char else c
  }

  /** Lower-casing neither creates nor removes white space. */
  lemma LowerCharKeepsWhite(c: char)
    ensures IsWhite(LowerChar(c)) <==> IsWhite(c)
  {
    if 'A' <= c <= 'Z' {
      assert !IsWhite(c) && 'a' <= LowerChar(c) <= 'z';
    }
  }

  /** `s.toLowerCase()` on ASCII: upper-case letters become lower-case, every other character stays. */
  function Lower(s: string): (r: string)
    ensures |r| == |s|
    ensures forall i :: 0 <= i < |s| ==> r[i] == LowerChar(s[i])
  {
    seq(|s|, i requires 0 <= i < |s| => LowerChar(s[i]))
  }

  lemma LowerIdempotent(s: string)
    ensures Lower(Lower(s)) == Lower(s)
  {
  }

  /** Lexicographic order on character codes, the order both the database and the pages sort names by. */
  predicate NameLe(a: string, b: string) {
    if a == [] then true
    else if b == [] then false
    else if a[0] != b[0] then a[0] < b[0]
    else NameLe(a[1..], b[1..])
  }

  lemma {:induction false} NameLeTotal(a: string, b: string)
    ensures NameLe(a, b) || NameLe(b, a)
  {
    if a != [] && b != [] && a[0] == b[0] {
      NameLeTotal(a[1..], b[1..]);
    }
  }

  lemma {:induction false} NameLeTransitive(a: string, b: string, c: string)
    requires NameLe(a, b) && NameLe(b, c)
    ensures NameLe(a, c)
  {
    if a != [] && b != [] && c != [] && a[0] == b[0] && b[0] == c[0] {
      NameLeTransitive(a[1..], b[1..], c[1..]);
    }
  }

  function DigitChar(d: nat): (c: char)
    requires d < 10
    ensures '0' <= c <= '9' && c as int - '0' as int == d
  {
    ('0' as int + d) as char
  }

  /** Value of a string of decimal digits. */
  function DecimalValue(s: string): nat
    requires forall i :: 0 <= i < |s| ==> '0' <= s[i] <= '9'
  {
    if s == [] then 0 else DecimalValue(s[..|s| - 1]) * 10 + (s[|s| - 1] as int - '0' as int)
  }

  /** `${n}` for a count: non-empty decimal digits whose value is `n`. */
  function NatToString(n: nat): (r: string)
    ensures |r| >= 1
    ensures forall i :: 0 <= i < |r| ==> '0' <= r[i] <= '9'
    ensures DecimalValue(r) == n
  {
    if n < 10 then [DigitChar(n)]
    else
      var r := NatToString(n / 10) + [DigitChar(n % 10)];
      assert r[..|r| - 1] == NatToString(n / 10);
      r
  }
}
