/**
 * The string operations the source relies on: decimal rendering of integers
 * (`str(n)`, `f"{n:05d}"`), ASCII case mapping, `str.strip`, `str.split`,
 * prefix and substring tests, and Python slices of a string.
 */
module Text {

  type String = seq<char>

  predicate IsDigit(c: char) {
    '0' <= c <= '9'
  }

  predicate AllDigits(s: String) {
    forall i :: 0 <= i < |s| ==> IsDigit(s[i])
  }

  /** The length of the run of digits `s` starts with (the `\d+` at its head). */
  function DigitRun(s: String): (n: nat)
    ensures n <= |s|
    ensures AllDigits(s[..n])
    ensures n < |s| ==> !IsDigit(s[n])
  {
    if s == [] || !IsDigit(s[0]) then 0
    else
      var n := 1 + DigitRun(s[1..]);
      assert s[..n] == [s[0]] + s[1..][..n - 1];
      n
  }

  /** A string of digits is one run of digits. */
  lemma {:induction false} DigitRunOfDigits(s: String)
    requires AllDigits(s)
    ensures DigitRun(s) == |s|
    decreases |s|
  {
    if s != [] {
      DigitRunOfDigits(s[1..]);
    }
  }

  function DigitChar(d: nat): (c: char)
    requires d < 10
    ensures IsDigit(c)
  {
    "0123456789"[d]
  }

  function DigitValue(c: char): (d: nat)
    requires IsDigit(c)
    ensures d < 10
  {
    (c as int - '0' as int) as nat
  }

  /** The value of a string of decimal digits (leading zeros allowed). */
  function DigitsValue(s: String): nat
    requires AllDigits(s)
  {
    if s == [] then 0 else DigitsValue(s[..|s| - 1]) * 10 + DigitValue(s[|s| - 1])
  }

  /** `str(n)` for a non-negative integer: no leading zero except for 0 itself. */
  function NatToString(n: nat): (s: String)
    ensures |s| >= 1 && AllDigits(s)
    ensures n > 0 ==> s[0] != '0'
  {
    if n < 10 then [DigitChar(n)] else NatToString(n / 10) + [DigitChar(n % 10)]
  }

  /** `str(i)` for any integer. */
  function IntToString(i: int): (s: String)
    ensures |s| >= 1
    ensures i < 0 <==> s[0] == '-'
  {
    if i < 0 then "-" + NatToString(-i) else NatToString(i)
  }

  function Zeros(k: nat): (s: String)
    ensures |s| == k && AllDigits(s)
  {
    if k == 0 then [] else Zeros(k - 1) + ['0']
  }

  /** `f"{n:0wd}"` for a non-negative integer: at least `w` digits, padded with zeros. */
  function ZeroPad(n: nat, w: nat): (s: String)
    ensures AllDigits(s)
    ensures |s| == if |NatToString(n)| < w then w else |NatToString(n)|
  {
    var d := NatToString(n);
    if |d| < w then Zeros(w - |d|) + d else d
  }

  lemma {:induction false} DigitCharValue(d: nat)
    requires d < 10
    ensures DigitValue(DigitChar(d)) == d
  {
  }

  /** Reading back the digits of `str(n)` gives `n`. */
  lemma {:induction false} NatToStringValue(n: nat)
    ensures DigitsValue(NatToString(n)) == n
  {
    if n >= 10 {
      NatToStringValue(n / 10);
      var s := NatToString(n);
      assert s[..|s| - 1] == NatToString(n / 10);
      DigitCharValue(n % 10);
    } else {
      DigitCharValue(n);
    }
  }

  lemma {:induction false} LeadingZerosValue(k: nat, s: String)
    requires AllDigits(s)
    ensures AllDigits(Zeros(k) + s) && DigitsValue(Zeros(k) + s) == DigitsValue(s)
  {
    if s == [] {
      assert Zeros(k) + s == Zeros(k);
      ZerosValue(k);
    } else {
      var init := s[..|s| - 1];
      LeadingZerosValue(k, init);
      assert (Zeros(k) + s)[..|Zeros(k) + s| - 1] == Zeros(k) + init;
    }
  }

  lemma {:induction false} ZerosValue(k: nat)
    ensures DigitsValue(Zeros(k)) == 0
  {
    if k > 0 {
      ZerosValue(k - 1);
      assert Zeros(k)[..k - 1] == Zeros(k - 1);
    }
  }

  /** Zero padding never changes the number the digits denote. */
  lemma ZeroPadValue(n: nat, w: nat)
    ensures DigitsValue(ZeroPad(n, w)) == n
  {
    var d := NatToString(n);
    NatToStringValue(n);
    if |d| < w {
      var padded := Zeros(w - |d|) + d;
      LeadingZerosValue(w - |d|, d);
      assert DigitsValue(padded) == n;
      assert ZeroPad(n, w) == padded;
    }
  }

  lemma ZeroPadInjective(m: nat, n: nat, w: nat)
    requires ZeroPad(m, w) == ZeroPad(n, w)
    ensures m == n
  {
    ZeroPadValue(m, w);
    ZeroPadValue(n, w);
  }

  /** The text after the last '-' of `s` (all of `s` when it has none). */
  function LastField(s: String): (f: String)
    ensures |f| <= |s| && f == s[|s| - |f|..]
    ensures '-' !in f
  {
    if s == [] then []
    else if s[|s| - 1] == '-' then []
    else LastField(s[..|s| - 1]) + [s[|s| - 1]]
  }

  lemma {:induction false} LastFieldOfDigits(x: String, d: String)
    requires AllDigits(d)
    ensures LastField(x + "-" + d) == d
  {
    if d != [] {
      var init := d[..|d| - 1];
      LastFieldOfDigits(x, init);
      assert (x + "-" + d)[..|x + "-" + d| - 1] == x + "-" + init;
    } else {
      assert x + "-" + d == x + "-";
    }
  }

  /** Identifiers `x-NNNNN` and `y-MMMMM` built from different numbers differ, whatever `x` and `y`. */
  lemma PaddedIdInjective(x: String, y: String, m: nat, n: nat, w: nat)
    requires x + "-" + ZeroPad(m, w) == y + "-" + ZeroPad(n, w)
    ensures m == n
  {
    LastFieldOfDigits(x, ZeroPad(m, w));
    LastFieldOfDigits(y, ZeroPad(n, w));
    ZeroPadInjective(m, n, w);
  }

  /** The number after the last '-' of `x-NNNNN` reads back as the number padded. */
  lemma PaddedIdNumber(x: String, m: nat, w: nat)
    ensures AllDigits(LastField(x + "-" + ZeroPad(m, w)))
    ensures DigitsValue(LastField(x + "-" + ZeroPad(m, w))) == m
  {
    LastFieldOfDigits(x, ZeroPad(m, w));
    ZeroPadValue(m, w);
  }

  /** Python `s[-n:]`: the last `n` characters, or all of `s` when it is shorter. */
  function LastN<T>(s: seq<T>, n: nat): (r: seq<T>)
    ensures |r| == if |s| < n then |s| else n
    ensures r == s[|s| - |r|..]
  {
    if |s| <= n then s else s[|s| - n..]
  }

  /** Python `s[:n]`: the first `n` characters, or all of `s` when it is shorter. */
  function FirstN<T>(s: seq<T>, n: nat): (r: seq<T>)
    ensures |r| == if |s| < n then |s| else n
    ensures r == s[..|r|]
  {
    if |s| <= n then s else s[..n]
  }

  function LowerChar(c: char): (r: char)
  {
    if 'A' <= c <= 'Z' then (c as int + 32) as char else c
  }

  function UpperChar(c: char): (r: char)
  {
    if 'a' <= c <= 'z' then (c as int - 32) as char else c
  }

  /** `str.lower()` on ASCII letters. */
  function Lower(s: String): (r: String)
    ensures |r| == |s|
    ensures forall i :: 0 <= i < |s| ==> r[i] == LowerChar(s[i])
  {
    seq(|s|, i requires 0 <= i < |s| => LowerChar(s[i]))
  }

  /** `str.upper()` on ASCII letters. */
  function Upper(s: String): (r: String)
    ensures |r| == |s|
    ensures forall i :: 0 <= i < |s| ==> r[i] == UpperChar(s[i])
  {
    seq(|s|, i requires 0 <= i < |s| => UpperChar(s[i]))
  }

  /** Python's `str.isspace()` for one character. */
  predicate IsSpace(c: char) {
    var k := c as int;
    k == 32 || 9 <= k <= 13 || 28 <= k <= 31 || k == 0x85 || k == 0xA0 || k == 0x1680
    || 0x2000 <= k <= 0x200A || k == 0x2028 || k == 0x2029 || k == 0x202F || k == 0x205F
    || k == 0x3000
  }

  function StripLeft(s: String): (r: String)
    decreases |s|
  {
    if s != [] && IsSpace(s[0]) then StripLeft(s[1..]) else s
  }

  function StripRight(s: String): (r: String)
    decreases |s|
  {
    if s != [] && IsSpace(s[|s| - 1]) then StripRight(s[..|s| - 1]) else s
  }

  /** `str.lstrip()` drops exactly the leading whitespace. */
  lemma {:induction false} StripLeftFacts(s: String)
    ensures |StripLeft(s)| <= |s| && StripLeft(s) == s[|s| - |StripLeft(s)|..]
    ensures StripLeft(s) == [] || !IsSpace(StripLeft(s)[0])
    ensures forall i :: 0 <= i < |s| - |StripLeft(s)| ==> IsSpace(s[i])
    decreases |s|
  {
    if s != [] && IsSpace(s[0]) {
      StripLeftFacts(s[1..]);
      var r := StripLeft(s[1..]);
      assert s[|s| - |r|..] == s[1..][|s| - 1 - |r|..];
      assert forall i :: 1 <= i < |s| - |r| ==> s[i] == s[1..][i - 1];
    }
  }

  /** `str.rstrip()` drops exactly the trailing whitespace. */
  lemma {:induction false} StripRightFacts(s: String)
    ensures |StripRight(s)| <= |s| && StripRight(s) == s[..|StripRight(s)|]
    ensures StripRight(s) == [] || !IsSpace(StripRight(s)[|StripRight(s)| - 1])
    ensures forall i :: |StripRight(s)| <= i < |s| ==> IsSpace(s[i])
    decreases |s|
  {
    if s != [] && IsSpace(s[|s| - 1]) {
      StripRightFacts(s[..|s| - 1]);
      var r := StripRight(s[..|s| - 1]);
      assert s[..|r|] == s[..|s| - 1][..|r|];
      assert forall i :: |r| <= i < |s| - 1 ==> s[i] == s[..|s| - 1][i];
    }
  }

  /** `str.strip()`: drop leading and trailing whitespace. */
  function Strip(s: String): String {
    StripRight(StripLeft(s))
  }

  /** What is left has no whitespace at either end and is a slice of the text. */
  lemma StripEnds(s: String)
    ensures Strip(s) == [] || (!IsSpace(Strip(s)[0]) && !IsSpace(Strip(s)[|Strip(s)| - 1]))
    ensures |Strip(s)| <= |s|
  {
    StripLeftFacts(s);
    StripRightFacts(StripLeft(s));
  }

  /** A line strips to nothing exactly when every character in it is whitespace. */
  lemma StripEmptyIff(s: String)
    ensures Strip(s) == [] <==> forall i :: 0 <= i < |s| ==> IsSpace(s[i])
  {
    StripLeftFacts(s);
    StripRightFacts(StripLeft(s));
  }

  /** Text with no surrounding whitespace is its own strip. */
  lemma StripUnchanged(s: String)
    requires s == [] || (!IsSpace(s[0]) && !IsSpace(s[|s| - 1]))
    ensures Strip(s) == s
  {
  }

  /** `s.startswith(p)`. */
  predicate StartsWith(s: String, p: String) {
    |p| <= |s| && s[..|p|] == p
  }

  /** `sub in s`. */
  predicate Contains(s: String, sub: String)
    decreases |s|
  {
    StartsWith(s, sub) || (s != [] && Contains(s[1..], sub))
  }

  lemma {:induction false} ContainsAt(s: String, sub: String, k: nat)
    requires k + |sub| <= |s| && s[k..k + |sub|] == sub
    ensures Contains(s, sub)
    decreases k
  {
    if k > 0 {
      assert s[1..][k - 1..k - 1 + |sub|] == sub;
      ContainsAt(s[1..], sub, k - 1);
    }
  }

  /** `sub in s` is false when one of the characters of `sub` does not occur in `s` at all. */
  lemma {:induction false} NotContains(s: String, sub: String, j: nat)
    requires j < |sub| && sub[j] !in s
    ensures !Contains(s, sub)
    decreases |s|
  {
    if |sub| <= |s| {
      assert s[..|sub|][j] == s[j] && s[j] in s;
    }
    if s != [] {
      assert forall c :: c in s[1..] ==> c in s;
      NotContains(s[1..], sub, j);
    }
  }

  /** The items of `s.split(sep)` for one separator character, in order. */
  function Split(s: String, sep: char): (parts: seq<String>)
    ensures |parts| >= 1
    decreases |s|
  {
    if s == [] then [[]]
    else
      var rest := Split(s[1..], sep);
      if s[0] == sep then [[]] + rest else [[s[0]] + rest[0]] + rest[1..]
  }

  /** No item of the split holds the separator. */
  lemma {:induction false} SplitNoSeparator(s: String, sep: char)
    ensures forall i :: 0 <= i < |Split(s, sep)| ==> sep !in Split(s, sep)[i]
    decreases |s|
  {
    if s != [] {
      SplitNoSeparator(s[1..], sep);
      var rest := Split(s[1..], sep);
      if s[0] != sep {
        assert sep !in rest[0];
        assert sep !in [s[0]] + rest[0];
      }
    }
  }

  /** The inverse of `Split`: `sep.join(parts)`. */
  function Join(parts: seq<String>, sep: char): String
    requires |parts| >= 1
  {
    if |parts| == 1 then parts[0] else parts[0] + [sep] + Join(parts[1..], sep)
  }

  /** Splitting and joining with the same separator gives back the text. */
  lemma {:induction false} JoinSplit(s: String, sep: char)
    ensures Join(Split(s, sep), sep) == s
    decreases |s|
  {
    if s != [] {
      var rest := Split(s[1..], sep);
      JoinSplit(s[1..], sep);
      if s[0] == sep {
        assert Split(s, sep)[1..] == rest;
      } else {
        var parts := Split(s, sep);
        assert parts[1..] == rest[1..];
        if |rest| > 1 {
          assert Join(rest, sep) == rest[0] + [sep] + Join(rest[1..], sep);
        }
      }
    }
  }
}
