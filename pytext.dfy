// The pieces of Python's `str` behaviour that the backend relies on: decimal digits,
// `str(int)`, zero padding, `lower()`, `strip()`, `in` and `split(sep)`.
module PyText {
  import opened Base

  // ---------------------------------------------------------------- digits

  predicate IsDigit(c: char) { '0' <= c <= '9' }

  predicate AllDigits(s: string) { forall i :: 0 <= i < |s| ==> IsDigit(s[i]) }

  function DigitValue(c: char): nat
    requires IsDigit(c)
  {
    (c as int) - ('0' as int)
  }

  function DigitChar(n: nat): (c: char)
    requires n < 10
    ensures IsDigit(c) && DigitValue(c) == n
  {
    (('0' as int) + n) as char
  }

  /** The number a run of decimal digits denotes (Python's `int(s)` on such a run). */
  function DigitsValue(s: string): nat
    requires AllDigits(s)
  {
    if s == [] then 0 else DigitsValue(s[..|s| - 1]) * 10 + DigitValue(s[|s| - 1])
  }

  function Pow10(w: nat): nat { if w == 0 then 1 else 10 * Pow10(w - 1) }

  /** `n` written with exactly `w` digits, zero-padded on the left (`"%0{w}d" % n`). */
  function ZeroPad(n: nat, w: nat): string
  {
    if w == 0 then "" else ZeroPad(n / 10, w - 1) + [DigitChar(n % 10)]
  }

  lemma {:induction false} ZeroPadDigits(n: nat, w: nat)
    requires n < Pow10(w)
    ensures |ZeroPad(n, w)| == w && AllDigits(ZeroPad(n, w))
    ensures DigitsValue(ZeroPad(n, w)) == n
  {
    if w > 0 {
      ZeroPadDigits(n / 10, w - 1);
      var s := ZeroPad(n, w);
      assert s[..|s| - 1] == ZeroPad(n / 10, w - 1);
    }
  }

  /** `str(n)` for a natural number: shortest decimal form. */
  function NatToString(n: nat): string
  {
    if n < 10 then [DigitChar(n)] else NatToString(n / 10) + [DigitChar(n % 10)]
  }

  lemma {:induction false} NatToStringDigits(n: nat)
    ensures |NatToString(n)| > 0 && AllDigits(NatToString(n))
    ensures DigitsValue(NatToString(n)) == n
    ensures |NatToString(n)| > 1 ==> NatToString(n)[0] != '0'
  {
    if n >= 10 {
      NatToStringDigits(n / 10);
      var s := NatToString(n);
      assert s[..|s| - 1] == NatToString(n / 10);
    } else {
      assert NatToString(n)[..0] == [];
    }
  }

  /** `str(i)` for a Python int. */
  function IntToString(i: int): string
  {
    if i < 0 then "-" + NatToString(-i) else NatToString(i)
  }

  // ---------------------------------------------------------------- case and blanks

  /** `str.lower()` on one character, for the ASCII and Latin-1 upper-case letters only; every
      other character is left as it is. */
  function LowerChar(c: char): char
  {
    if 'A' <= c <= 'Z' || ('\U{C0}' <= c <= '\U{DE}' && c != '\U{D7}') then
      ((c as int) + 32) as char
    else c
  }

  function Lower(s: string): (r: string)
    ensures |r| == |s| && forall i :: 0 <= i < |s| ==> r[i] == LowerChar(s[i])
  {
    seq(|s|, i requires 0 <= i < |s| => LowerChar(s[i]))
  }

  /** `str.isspace()` on one character (the Unicode White_Space characters Python uses). */
  predicate IsSpace(c: char)
  {
    '\t' <= c <= '\r' || '\U{1C}' <= c <= ' ' || c == '\U{85}' || c == '\U{A0}' || c == '\U{1680}'
    || '\U{2000}' <= c <= '\U{200A}' || c == '\U{2028}' || c == '\U{2029}' || c == '\U{202F}'
    || c == '\U{205F}' || c == '\U{3000}'
  }

  function StripLeft(s: string): (r: string)
    ensures |r| <= |s| && r == s[|s| - |r|..]
    ensures r != [] ==> !IsSpace(r[0])
    ensures forall i :: 0 <= i < |s| - |r| ==> IsSpace(s[i])
  {
    if s != [] && IsSpace(s[0]) then StripLeft(s[1..]) else s
  }

  function StripRight(s: string): (r: string)
    ensures |r| <= |s| && r == s[..|r|]
    ensures r != [] ==> !IsSpace(r[|r| - 1])
    ensures forall i :: |r| <= i < |s| ==> IsSpace(s[i])
  {
    if s != [] && IsSpace(s[|s| - 1]) then StripRight(s[..|s| - 1]) else s
  }

  /** `str.strip()`: drops leading and trailing whitespace. */
  function Strip(s: string): string
  {
    StripRight(StripLeft(s))
  }

  // ---------------------------------------------------------------- search and split

  predicate OccursAt(s: string, p: string, i: nat)
  {
    i + |p| <= |s| && s[i..i + |p|] == p
  }

  /** The first index from `k` on at which `p` occurs in `s`. */
  function FindFrom(s: string, p: string, k: nat): (r: Option<nat>)
    requires k <= |s|
    ensures r.Some? ==> k <= r.value && OccursAt(s, p, r.value) && forall j :: k <= j < r.value ==> !OccursAt(s, p, j)
    ensures r.None? ==> forall j :: k <= j <= |s| ==> !OccursAt(s, p, j)
    decreases |s| - k
  {
    if |s| - k < |p| then None
    else if s[k..k + |p|] == p then Some(k)
    else FindFrom(s, p, k + 1)
  }

  /** The first index at which `p` occurs in `s` (`s.find(p)` when it is not -1). */
  function FindFirst(s: string, p: string): (r: Option<nat>)
    ensures r.Some? ==> OccursAt(s, p, r.value) && forall j :: 0 <= j < r.value ==> !OccursAt(s, p, j)
    ensures r.None? ==> forall j :: 0 <= j <= |s| ==> !OccursAt(s, p, j)
  {
    FindFrom(s, p, 0)
  }

  lemma FindFirstAt(s: string, p: string, i: nat)
    requires OccursAt(s, p, i) && forall j :: 0 <= j < i ==> !OccursAt(s, p, j)
    ensures FindFirst(s, p) == Some(i)
  {
  }

  /** Python's `p in s`. */
  predicate Contains(s: string, p: string) { FindFirst(s, p).Some? }

  /** Python's `s.split(sep)` for a non-empty separator. */
  function Split(s: string, sep: string): (parts: seq<string>)
    requires |sep| > 0
    ensures |parts| >= 1
  {
    SplitFrom(s, sep, 0)
  }

  /** The parts of `s[k..]` between the occurrences of `sep`. */
  function SplitFrom(s: string, sep: string, k: nat): (parts: seq<string>)
    requires |sep| > 0 && k <= |s|
    ensures |parts| >= 1
    decreases |s| - k
  {
    match FindFrom(s, sep, k)
    case None => [s[k..]]
    case Some(i) => [s[k..i]] + SplitFrom(s, sep, i + |sep|)
  }

  /** No proper suffix of `p` is also a prefix of it, so two occurrences of `p` never
      overlap ("to" and "-W" are such separators). */
  predicate SelfDisjoint(p: string)
  {
    forall k {:trigger p[k..]} :: 0 < k < |p| ==> p[k..] != p[..|p| - k]
  }

  lemma OverlapAgrees(s: string, p: string, i: nat, j: nat)
    requires OccursAt(s, p, i) && OccursAt(s, p, j) && i < j
    ensures j < i + |p| ==> p[j - i..] == p[..|p| - (j - i)]
  {
    if j < i + |p| {
      assert p[j - i..] == s[j..i + |p|];
      assert s[j..i + |p|] == p[..|p| - (j - i)];
    }
  }

  /** A self-disjoint separator's occurrences are at least its length apart. */
  lemma NoOverlap(s: string, p: string, i: nat, j: nat)
    requires SelfDisjoint(p) && OccursAt(s, p, i) && i < j
    ensures OccursAt(s, p, j) ==> i + |p| <= j
  {
    if OccursAt(s, p, j) {
      OverlapAgrees(s, p, i, j);
    }
  }

  /** For a separator whose occurrences cannot overlap, `s.split(sep)` has exactly two parts
      precisely when `sep` occurs in `s` at a first index and at no later one. */
  lemma SplitInTwo(s: string, sep: string)
    requires |sep| > 0 && SelfDisjoint(sep)
    ensures |Split(s, sep)| == 2 <==>
      FindFirst(s, sep).Some? &&
      forall j :: FindFirst(s, sep).value < j <= |s| ==> !OccursAt(s, sep, j)
  {
    SplitShape(s, sep);
    var f := FindFirst(s, sep);
    if f.Some? && FindFrom(s, sep, f.value + |sep|).None? {
      LaterOccurrences(s, sep, f.value);
    }
  }

  /** The two parts are what precedes the first occurrence and what follows it. */
  lemma SplitInTwoParts(s: string, sep: string)
    requires |sep| > 0 && |Split(s, sep)| == 2
    ensures FindFirst(s, sep).Some?
    ensures var i := FindFirst(s, sep).value;
      Split(s, sep) == [s[..i], s[i + |sep|..]]
  {
    SplitShape(s, sep);
  }

  /** The first two steps of a split: no occurrence leaves the text whole; one occurrence
      with none after it gives the parts around it; a second occurrence gives three or more. */
  lemma SplitShape(s: string, sep: string)
    requires |sep| > 0
    ensures FindFirst(s, sep).None? ==> Split(s, sep) == [s]
    ensures FindFirst(s, sep).Some? ==>
      var i := FindFirst(s, sep).value;
      && i + |sep| <= |s|
      && (FindFrom(s, sep, i + |sep|).None? ==> Split(s, sep) == [s[..i], s[i + |sep|..]])
      && (FindFrom(s, sep, i + |sep|).Some? ==>
            |Split(s, sep)| > 2 && OccursAt(s, sep, FindFrom(s, sep, i + |sep|).value)
            && i < FindFrom(s, sep, i + |sep|).value)
  {
    var f := FindFrom(s, sep, 0);
    if f.None? {
      assert Split(s, sep) == [s[0..]];
    } else {
      var i := f.value;
      var rest := SplitFrom(s, sep, i + |sep|);
      assert Split(s, sep) == [s[0..i]] + rest;
      var g := FindFrom(s, sep, i + |sep|);
      if g.None? {
        assert rest == [s[i + |sep|..]];
      } else {
        assert rest == [s[i + |sep|..g.value]] + SplitFrom(s, sep, g.value + |sep|);
      }
    }
  }

  /** With no occurrence from the end of the first one on, none occurs after it at all. */
  lemma LaterOccurrences(s: string, sep: string, i: nat)
    requires SelfDisjoint(sep) && OccursAt(s, sep, i)
    requires FindFrom(s, sep, i + |sep|).None?
    ensures forall j :: i < j <= |s| ==> !OccursAt(s, sep, j)
  {
    forall j | i < j <= |s| ensures !OccursAt(s, sep, j) {
      NoOverlap(s, sep, i, j);
    }
  }

  // ---------------------------------------------------------------- ordering

  /** Python's `a < b` on strings: the first differing character decides, by code point, and
      a proper prefix comes first. */
  predicate StrLess(a: string, b: string)
  {
    if a == [] then b != []
    else if b == [] then false
    else if a[0] != b[0] then a[0] < b[0]
    else StrLess(a[1..], b[1..])
  }

  lemma {:induction false} StrLessIrreflexive(a: string)
    ensures !StrLess(a, a)
  {
    if a != [] {
      StrLessIrreflexive(a[1..]);
    }
  }

  lemma {:induction false} StrLessTransitive(a: string, b: string, c: string)
    requires StrLess(a, b) && StrLess(b, c)
    ensures StrLess(a, c)
  {
    if a != [] && a[0] == b[0] && b[0] == c[0] {
      StrLessTransitive(a[1..], b[1..], c[1..]);
    }
  }

  /** Any two different strings are ordered one way or the other. */
  lemma {:induction false} StrLessTotal(a: string, b: string)
    requires a != b
    ensures StrLess(a, b) || StrLess(b, a)
  {
    if a != [] && b != [] && a[0] == b[0] {
      assert a == [a[0]] + a[1..] && b == [b[0]] + b[1..];
      StrLessTotal(a[1..], b[1..]);
    }
  }

  lemma {:induction false} StrLessAsymmetric(a: string, b: string)
    requires StrLess(a, b)
    ensures !StrLess(b, a)
  {
    if a != [] && a[0] == b[0] {
      StrLessAsymmetric(a[1..], b[1..]);
    }
  }
}
