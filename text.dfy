/** The JavaScript string operations the application relies on, written out
    character by character: `trim`, the `\s` class of regular expressions,
    `toLowerCase`, `includes`, `startsWith`, `split(c)[0]`, `split(c).pop()`
    and the decimal rendering of a non-negative integer in a template string. */
module Text {

  /** The characters JavaScript treats as white space, both in `String.prototype.trim`
      and in the `\s` class of a regular expression (WhiteSpace and LineTerminator). */
  predicate IsSpace(c: char) {
    || ('\t' <= c <= '\r')
    || c == ' '
    || c == '\U{00A0}'
    || c == '\U{1680}'
    || ('\U{2000}' <= c <= '\U{200A}')
    || c == '\U{2028}' || c == '\U{2029}'
    || c == '\U{202F}' || c == '\U{205F}'
    || c == '\U{3000}' || c == '\U{FEFF}'
  }

  predicate AllSpace(s: string) {
    forall k :: 0 <= k < |s| ==> IsSpace(s[k])
  }

  /** Drops the leading white space. */
  function TrimStart(s: string): (r: string)
    ensures |r| <= |s|
    ensures r != [] ==> !IsSpace(r[0]) && r[0] == s[|s| - |r|]
  {
    if s != [] && IsSpace(s[0]) then TrimStart(s[1..]) else s
  }

  /** What TrimStart keeps is the tail of its input, character by character. */
  lemma {:induction false} TrimStartAt(s: string, k: int)
    requires 0 <= k < |TrimStart(s)|
    ensures TrimStart(s)[k] == s[|s| - |TrimStart(s)| + k]
  {
    if s != [] && IsSpace(s[0]) {
      TrimStartAt(s[1..], k);
    }
  }

  /** What TrimStart drops is white space. */
  lemma {:induction false} TrimStartDropsSpace(s: string)
    ensures forall k :: 0 <= k < |s| - |TrimStart(s)| ==> IsSpace(s[k])
  {
    if s != [] && IsSpace(s[0]) {
      TrimStartDropsSpace(s[1..]);
      forall k | 0 < k < |s| - |TrimStart(s)| ensures IsSpace(s[k]) {
        assert s[k] == s[1..][k - 1];
      }
    }
  }

  /** Drops the trailing white space. */
  function TrimEnd(s: string): (r: string)
    ensures |r| <= |s| && r == s[..|r|]
    ensures r != [] ==> !IsSpace(r[|r| - 1])
  {
    if s != [] && IsSpace(s[|s| - 1]) then TrimEnd(s[..|s| - 1]) else s
  }

  /** What TrimEnd drops is white space. */
  lemma {:induction false} TrimEndDropsSpace(s: string)
    ensures forall k :: |TrimEnd(s)| <= k < |s| ==> IsSpace(s[k])
  {
    if s != [] && IsSpace(s[|s| - 1]) {
      TrimEndDropsSpace(s[..|s| - 1]);
      forall k | |TrimEnd(s)| <= k < |s| - 1 ensures IsSpace(s[k]) {
        assert s[k] == s[..|s| - 1][k];
      }
    }
  }

  /** `s.trim()`: what is left after removing white space at both ends. */
  function Trim(s: string): (r: string)
    ensures |r| <= |s|
    ensures r != [] ==> !IsSpace(r[0]) && !IsSpace(r[|r| - 1])
    ensures r == [] <==> AllSpace(s)
  {
    var t := TrimStart(s);
    var r := TrimEnd(t);
    TrimStartDropsSpace(s);
    TrimEndDropsSpace(t);
    r
  }

  /** The trim is a contiguous piece of the input, with only whitespace cut on either side. */
  lemma TrimKeepsMiddle(s: string)
    ensures var r := Trim(s);
      exists i :: 0 <= i <= |s| - |r| && r == s[i..i + |r|] && AllSpace(s[..i]) && AllSpace(s[i + |r|..])
  {
    var i := |s| - |TrimStart(s)|;
    TrimIsSlice(s);
    TrimCutsSpace(s);
    assert 0 <= i <= |s| - |Trim(s)|;
  }

  /** Trim(s) starts where TrimStart(s) starts. */
  lemma TrimIsSlice(s: string)
    ensures var i := |s| - |TrimStart(s)|;
      i + |Trim(s)| <= |s| && Trim(s) == s[i..i + |Trim(s)|]
  {
    var t := TrimStart(s);
    var r := TrimEnd(t);
    var i := |s| - |t|;
    assert Trim(s) == r;
    forall k | 0 <= k < |r| ensures r[k] == s[i..i + |r|][k] {
      TrimStartAt(s, k);
    }
  }

  /** Only white space lies before and after Trim(s) in s. */
  lemma TrimCutsSpace(s: string)
    ensures var i := |s| - |TrimStart(s)|;
      i + |Trim(s)| <= |s| && AllSpace(s[..i]) && AllSpace(s[i + |Trim(s)|..])
  {
    var t := TrimStart(s);
    var r := TrimEnd(t);
    var i := |s| - |t|;
    assert Trim(s) == r;
    TrimStartDropsSpace(s);
    TrimEndDropsSpace(t);
    forall j | i + |r| <= j < |s| ensures IsSpace(s[j]) {
      TrimStartAt(s, j - i);
    }
  }

  /** A string that is empty or already starts and ends with a non-space is its own trim. */
  lemma TrimOfTrimmed(s: string)
    requires s != [] ==> !IsSpace(s[0]) && !IsSpace(s[|s| - 1])
    ensures Trim(s) == s
  {
  }

  /** Trimming is idempotent. */
  lemma TrimTwice(s: string)
    ensures Trim(Trim(s)) == Trim(s)
  {
    TrimOfTrimmed(Trim(s));
  }

  /** Joining two non-blank trimmed strings gives a string that trimming keeps whole. */
  lemma TrimmedJoined(a: string, sep: string, b: string)
    requires Trim(a) != [] && Trim(b) != []
    ensures Trim(Trim(a) + sep + Trim(b)) == Trim(a) + sep + Trim(b)
  {
    var x, y := Trim(a), Trim(b);
    var s := x + sep + y;
    assert s[0] == x[0] && s[|s| - 1] == y[|y| - 1];
    TrimOfTrimmed(s);
  }

  function LowerChar(c: char): char {
    if 'A' <= c <= 'Z' then (c as int + 32) as char else c
  }

  /** A character's length in UTF-16: two code units beyond the Basic Multilingual Plane. */
  function Utf16Units(c: char): nat {
    if c as int >= 0x10000 then 2 else 1
  }

  /** `s.length`: the number of UTF-16 code units, which is at least the number of
      characters and at most twice it, and zero only for the empty string. */
  function Utf16Length(s: string): (n: nat)
    ensures |s| <= n <= 2 * |s|
    ensures n == 0 <==> s == []
  {
    if s == [] then 0 else Utf16Length(s[..|s| - 1]) + Utf16Units(s[|s| - 1])
  }

  /** Within the Basic Multilingual Plane the length is the number of characters. */
  lemma {:induction false} Utf16LengthBmp(s: string)
    requires forall i :: 0 <= i < |s| ==> s[i] as int < 0x10000
    ensures Utf16Length(s) == |s|
  {
    if s != [] {
      Utf16LengthBmp(s[..|s| - 1]);
    }
  }

  /** A single character counts two units exactly when it lies beyond the Basic
      Multilingual Plane; with `Utf16LengthAppend` this fixes the length of every string. */
  lemma Utf16LengthSingle(c: char)
    ensures Utf16Length([c]) == if c as int >= 0x10000 then 2 else 1
  {
    assert [c][..0] == [];
  }

  /** The length of a concatenation is the sum of the lengths. */
  lemma {:induction false} Utf16LengthAppend(a: string, b: string)
    ensures Utf16Length(a + b) == Utf16Length(a) + Utf16Length(b)
  {
    if b != [] {
      assert (a + b)[..|a + b| - 1] == a + b[..|b| - 1];
      Utf16LengthAppend(a, b[..|b| - 1]);
    } else {
      assert a + b == a;
    }
  }

  /** `s.toLowerCase()` on the ASCII letters; every other character is kept. */
  function Lower(s: string): (r: string)
    ensures |r| == |s|
    ensures forall k :: 0 <= k < |s| ==> r[k] == LowerChar(s[k])
  {
    seq(|s|, k requires 0 <= k < |s| => LowerChar(s[k]))
  }

  /** Lower-casing never produces a character that is not a lower-case letter unless it was there. */
  lemma LowerKeepsAbsent(s: string, c: char)
    requires c !in s && !('a' <= c <= 'z')
    ensures c !in Lower(s)
  {
    var r := Lower(s);
    forall k | 0 <= k < |r| ensures r[k] != c {
      assert r[k] == LowerChar(s[k]);
    }
  }

  /** Cutting at a `c` that the front part does not contain: the cut is the first `c`. */
  lemma {:induction false} SplitAtFirst(s: string, c: char, front: string, back: string)
    requires c !in front && s == front + [c] + back
    ensures BeforeFirst(s, c) == front && s[|front| + 1..] == back
  {
    assert s[..|front|] == front;
    BeforeFirstUnique(s, c, front);
  }

  /** Two ways of writing a string as front `c` back, with no `c` in the front, agree. */
  lemma SplitUnique(c: char, f1: string, b1: string, f2: string, b2: string)
    requires c !in f1 && c !in f2 && f1 + [c] + b1 == f2 + [c] + b2
    ensures f1 == f2 && b1 == b2
  {
    SplitAtFirst(f1 + [c] + b1, c, f1, b1);
    SplitAtFirst(f2 + [c] + b2, c, f2, b2);
  }

  /** `s.includes(sub)`. */
  predicate Contains(s: string, sub: string) {
    exists i | 0 <= i <= |s| - |sub| :: OccursAt(s, sub, i)
  }

  predicate OccursAt(s: string, sub: string, i: nat)
    requires i + |sub| <= |s|
  {
    s[i..i + |sub|] == sub
  }

  /** `s.startsWith(prefix)`. */
  predicate StartsWith(s: string, prefix: string) {
    |prefix| <= |s| && s[..|prefix|] == prefix
  }

  /** `s.split(c)[0]`: the text before the first `c`, or all of `s` when there is none. */
  function BeforeFirst(s: string, c: char): (r: string)
    ensures |r| <= |s| && r == s[..|r|]
    ensures c !in r
    ensures |r| < |s| ==> s[|r|] == c
  {
    if s == [] || s[0] == c then [] else [s[0]] + BeforeFirst(s[1..], c)
  }

  /** `s.split(c).pop()`: the text after the last `c`, or all of `s` when there is none. */
  function AfterLast(s: string, c: char): (r: string)
    ensures |r| <= |s| && r == s[|s| - |r|..]
    ensures c !in r
    ensures |r| < |s| ==> s[|s| - |r| - 1] == c
  {
    if s == [] || s[|s| - 1] == c then [] else AfterLast(s[..|s| - 1], c) + [s[|s| - 1]]
  }

  /** The contracts of BeforeFirst pin its result down: a prefix free of `c`
      that is followed by `c` or by nothing is the one it returns. */
  lemma {:induction false} BeforeFirstUnique(s: string, c: char, p: string)
    requires |p| <= |s| && p == s[..|p|] && c !in p
    requires |p| < |s| ==> s[|p|] == c
    ensures BeforeFirst(s, c) == p
  {
    if s != [] && s[0] != c {
      assert p != [] && p[0] == s[0];
      BeforeFirstUnique(s[1..], c, p[1..]);
    }
  }

  /** Likewise for AfterLast: a suffix free of `c` preceded by `c` or by nothing. */
  lemma {:induction false} AfterLastUnique(s: string, c: char, q: string)
    requires |q| <= |s| && q == s[|s| - |q|..] && c !in q
    requires |q| < |s| ==> s[|s| - |q| - 1] == c
    ensures AfterLast(s, c) == q
  {
    if s != [] && s[|s| - 1] != c {
      assert q != [] && q[|q| - 1] == s[|s| - 1];
      var s', q' := s[..|s| - 1], q[..|q| - 1];
      assert q' == s'[|s'| - |q'|..];
      AfterLastUnique(s', c, q');
    }
  }

  predicate IsDigit(c: char) {
    '0' <= c <= '9'
  }

  function DigitChar(d: nat): (c: char)
    requires d < 10
    ensures IsDigit(c)
  {
    ('0' as int + d) as char
  }

  /** The decimal rendering of `n`, as `${n}` gives for a non-negative integer. */
  function Decimal(n: nat): (r: string)
    ensures r != []
    ensures forall k :: 0 <= k < |r| ==> IsDigit(r[k])
    ensures r[0] == '0' <==> n == 0
  {
    if n < 10 then [DigitChar(n)] else Decimal(n / 10) + [DigitChar(n % 10)]
  }

  /** The value a string of decimal digits denotes. */
  function DigitsValue(s: string): nat
    requires forall k :: 0 <= k < |s| ==> IsDigit(s[k])
  {
    if s == [] then 0 else 10 * DigitsValue(s[..|s| - 1]) + DigitValue(s[|s| - 1])
  }

  function DigitValue(c: char): nat
    requires IsDigit(c)
  {
    c as int - '0' as int
  }

  /** Reading back the rendering gives the number: so distinct numbers render differently. */
  lemma {:induction false} DecimalRoundTrip(n: nat)
    ensures DigitsValue(Decimal(n)) == n
  {
    if n >= 10 {
      var r := Decimal(n);
      assert r[..|r| - 1] == Decimal(n / 10);
      DecimalRoundTrip(n / 10);
    }
  }
}
