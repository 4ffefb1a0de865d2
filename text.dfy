/** String helpers the application relies on: Python's `str.strip()`,
    substring search (`in`), `str.endswith`, and zero-padded decimal
    formatting as done by `{n:02d}` and `strftime`. */
module Text {
  import opened Wrappers

  /** The characters Python's `str.isspace()` accepts, which is the set
      that `str.strip()` with no argument removes. */
  predicate IsSpace(c: char) {
    || ('\t' <= c <= '\r')
    || ('\U{1C}' <= c <= ' ')
    || c == '\U{85}' || c == '\U{A0}' || c == '\U{1680}'
    || ('\U{2000}' <= c <= '\U{200A}')
    || c == '\U{2028}' || c == '\U{2029}' || c == '\U{202F}'
    || c == '\U{205F}' || c == '\U{3000}'
  }

  predicate AllSpace(s: string) {
    forall i :: 0 <= i < |s| ==> IsSpace(s[i])
  }

  /** `s.lstrip()` */
  function TrimStart(s: string): (r: string)
    ensures |r| <= |s| && r == s[|s| - |r|..]
    ensures forall i :: 0 <= i < |s| - |r| ==> IsSpace(s[i])
    ensures r != [] ==> !IsSpace(r[0])
  {
    if s != [] && IsSpace(s[0]) then TrimStart(s[1..]) else s
  }

  /** `s.rstrip()` */
  function TrimEnd(s: string): (r: string)
    ensures |r| <= |s| && r == s[..|r|]
    ensures forall i :: |r| <= i < |s| ==> IsSpace(s[i])
    ensures r != [] ==> !IsSpace(r[|r| - 1])
  {
    if s != [] && IsSpace(s[|s| - 1]) then TrimEnd(s[..|s| - 1]) else s
  }

  /** `s.strip()` */
  function Strip(s: string): (r: string)
    ensures |r| <= |s|
    ensures r == [] <==> AllSpace(s)
    ensures r != [] ==> !IsSpace(r[0]) && !IsSpace(r[|r| - 1])
  {
    var t := TrimStart(s);
    var r := TrimEnd(t);
    if r == [] then
      // a stripped-empty string has no non-whitespace to start `t` with
      assert t == [];
      r
    else
      assert r[0] == t[0];
      r
  }

  /** Stripping whitespace off a string with no outer whitespace changes nothing. */
  lemma StripFixed(s: string)
    requires s != [] ==> !IsSpace(s[0]) && !IsSpace(s[|s| - 1])
    ensures Strip(s) == s
  {
    assert TrimStart(s) == s;
    assert TrimEnd(s) == s;
  }

  lemma StripIdempotent(s: string)
    ensures Strip(Strip(s)) == Strip(s)
  {
    var r := Strip(s);
    StripFixed(r);
  }

  /** Appending whitespace does not change what `strip()` gives: this is why
      the trailing newline a Tk text widget adds to `get("1.0", END)` never
      shows up in a stripped transcript. */
  lemma {:induction false} StripAppendSpace(s: string, c: char)
    requires IsSpace(c)
    ensures Strip(s + [c]) == Strip(s)
  {
    var w := s + [c];
    if TrimStart(s) == [] {
      TrimStartAllSpace(w);
    } else {
      TrimStartAppend(s, c);
      assert TrimEnd(TrimStart(s) + [c]) == TrimEnd(TrimStart(s));
    }
  }

  lemma {:induction false} TrimStartAllSpace(s: string)
    requires AllSpace(s)
    ensures TrimStart(s) == []
  {
    if s != [] {
      TrimStartAllSpace(s[1..]);
    }
  }

  lemma {:induction false} TrimStartAppend(s: string, c: char)
    requires TrimStart(s) != []
    ensures TrimStart(s + [c]) == TrimStart(s) + [c]
  {
    var w := s + [c];
    assert w[0] == s[0];
    if IsSpace(s[0]) {
      assert w[1..] == s[1..] + [c];
      TrimStartAppend(s[1..], c);
      assert TrimStart(w) == TrimStart(w[1..]);
    } else {
      assert TrimStart(w) == w;
    }
  }

  /** `sub in s` for strings. */
  predicate Contains(s: string, sub: string)
    decreases |s|
  {
    (|sub| <= |s| && s[..|sub|] == sub) || (s != [] && Contains(s[1..], sub))
  }

  /** `sub` occurs in `s` starting at index `i`. */
  predicate OccursAt(s: string, sub: string, i: int) {
    0 <= i <= |s| - |sub| && s[i..i + |sub|] == sub
  }

  /** `Contains` finds exactly the positions where `sub` occurs. */
  lemma ContainsAt(s: string, sub: string)
    ensures Contains(s, sub) <==> exists i :: OccursAt(s, sub, i)
  {
    if Contains(s, sub) {
      var i := ContainsFind(s, sub);
    }
    if exists i :: OccursAt(s, sub, i) {
      var i :| OccursAt(s, sub, i);
      OccursContains(s, sub, i);
    }
  }

  /** A position where `sub` occurs, whenever `Contains` says it does. */
  lemma {:induction false} ContainsFind(s: string, sub: string) returns (i: int)
    requires Contains(s, sub)
    ensures OccursAt(s, sub, i)
    decreases |s|
  {
    if |sub| <= |s| && s[..|sub|] == sub {
      i := 0;
    } else {
      var j := ContainsFind(s[1..], sub);
      i := j + 1;
      assert s[i..i + |sub|] == s[1..][j..j + |sub|];
    }
  }

  /** An occurrence at any position is found by `Contains`. */
  lemma {:induction false} OccursContains(s: string, sub: string, i: int)
    requires OccursAt(s, sub, i)
    ensures Contains(s, sub)
    decreases |s|
  {
    if i > 0 {
      assert s[1..][i - 1..i - 1 + |sub|] == s[i..i + |sub|];
      OccursContains(s[1..], sub, i - 1);
    } else {
      assert s[..|sub|] == sub;
    }
  }

  /** Text placed before a string keeps every substring of it. */
  lemma ContainsAfterPrefix(p: string, s: string, sub: string)
    requires Contains(s, sub)
    ensures Contains(p + s, sub)
  {
    var i := ContainsFind(s, sub);
    assert (p + s)[|p| + i..|p| + i + |sub|] == s[i..i + |sub|];
    OccursContains(p + s, sub, |p| + i);
  }

  /** Stripping cannot cut into a substring that starts and ends with
      non-whitespace characters. */
  lemma ContainsStrip(s: string, sub: string)
    requires sub != [] && !IsSpace(sub[0]) && !IsSpace(sub[|sub| - 1])
    requires Contains(s, sub)
    ensures Contains(Strip(s), sub)
  {
    var i := ContainsFind(s, sub);
    var t := TrimStart(s);
    var j := OccursAfterTrimStart(s, sub, i);
    OccursBeforeTrimEnd(t, sub, j);
    OccursContains(Strip(s), sub, j);
  }

  lemma OccursAfterTrimStart(s: string, sub: string, i: int) returns (j: int)
    requires sub != [] && !IsSpace(sub[0]) && OccursAt(s, sub, i)
    ensures OccursAt(TrimStart(s), sub, j)
  {
    var t := TrimStart(s);
    var k := |s| - |t|;
    assert s[i] == sub[0];
    assert i >= k;
    j := i - k;
    assert t[j..j + |sub|] == s[i..i + |sub|];
  }

  lemma OccursBeforeTrimEnd(t: string, sub: string, j: int)
    requires sub != [] && !IsSpace(sub[|sub| - 1]) && OccursAt(t, sub, j)
    ensures OccursAt(TrimEnd(t), sub, j)
  {
    var r := TrimEnd(t);
    var last := j + |sub| - 1;
    assert t[last] == t[j..j + |sub|][|sub| - 1];
    assert r[j..j + |sub|] == t[j..j + |sub|];
  }

  /** `s.endswith(suffix)` */
  predicate EndsWith(s: string, suffix: string) {
    |suffix| <= |s| && s[|s| - |suffix|..] == suffix
  }

  // ---------------------------------------------------------------------
  // Decimal formatting

  predicate IsDigit(c: char) {
    '0' <= c <= '9'
  }

  predicate AllDigits(s: string) {
    forall i :: 0 <= i < |s| ==> IsDigit(s[i])
  }

  function DigitChar(d: nat): (c: char)
    requires d < 10
    ensures IsDigit(c)
  {
    ('0' as int + d) as char
  }

  function DigitValue(c: char): (d: nat)
    requires IsDigit(c)
    ensures d < 10 && DigitChar(d) == c
  {
    c as int - '0' as int
  }

  /** `str(n)` for a natural number: no leading zeros, "0" for zero. */
  function Digits(n: nat): (r: string)
    ensures r != [] && AllDigits(r)
    ensures |r| == 1 <==> n < 10
    decreases n
  {
    if n < 10 then [DigitChar(n)] else Digits(n / 10) + [DigitChar(n % 10)]
  }

  function Zeros(k: nat): (r: string)
    ensures |r| == k && AllDigits(r)
    ensures forall i :: 0 <= i < k ==> r[i] == '0'
  {
    seq(k, _ => '0')
  }

  /** `{n:0Wd}` for a natural number: zero-padded to at least `width` digits. */
  function ZeroPad(n: nat, width: nat): (r: string)
    ensures AllDigits(r)
    ensures |r| == if |Digits(n)| < width then width else |Digits(n)|
  {
    Zeros(if |Digits(n)| < width then width - |Digits(n)| else 0) + Digits(n)
  }

  /** `{n:0Wd}` for any integer: Python places the sign first and counts it
      in the width. The result is as wide as the width asks, or as the sign
      and the digits need if that is more, and it reads back as `n`. */
  function FormatInt(n: int, width: nat): (r: string)
    ensures var needed := |Digits(if n < 0 then -n else n)| + (if n < 0 then 1 else 0);
      |r| == if needed < width then width else needed
    ensures n >= 0 ==> AllDigits(r)
    ensures n < 0 ==> r[0] == '-' && AllDigits(r[1..])
    ensures ParseInt(r) == Some(n)
  {
    if n >= 0 then
      var p := ZeroPad(n, width);
      ParseZeroPad(n, width);
      assert IsDigit(p[0]);
      assert ParseInt(p) == Some(n);
      p
    else
      var w := if width > 0 then width - 1 else 0;
      var p := ZeroPad(-n, w);
      ParseZeroPad(-n, w);
      assert ("-" + p)[1..] == p;
      assert ParseInt("-" + p) == Some(n);
      "-" + p
  }

  /** `int(s)` for an optional '-' followed by one or more decimal digits; `None`
      for anything else, the empty string and a lone '-' included. */
  function ParseInt(s: string): Option<int> {
    if s != [] && s[0] == '-' then
      if |s| >= 2 && AllDigits(s[1..]) then Some(-(ParseNat(s[1..]) as int)) else None
    else if s != [] && AllDigits(s) then Some(ParseNat(s))
    else None
  }

  /** The value of a string of decimal digits; the inverse of `Digits` and `ZeroPad`. */
  function ParseNat(s: string): nat
    requires AllDigits(s)
  {
    if s == [] then 0 else ParseNat(s[..|s| - 1]) * 10 + DigitValue(s[|s| - 1])
  }

  lemma {:induction false} ParseDigits(n: nat)
    ensures ParseNat(Digits(n)) == n
    decreases n
  {
    if n >= 10 {
      var s := Digits(n);
      assert s[..|s| - 1] == Digits(n / 10);
      ParseDigits(n / 10);
    }
  }

  lemma {:induction false} ParseLeadingZeros(k: nat, t: string)
    requires AllDigits(t)
    ensures AllDigits(Zeros(k) + t) && ParseNat(Zeros(k) + t) == ParseNat(t)
    decreases |t|
  {
    var s := Zeros(k) + t;
    if t == [] {
      assert s == Zeros(k);
      AllZerosParse(k);
    } else {
      assert s[..|s| - 1] == Zeros(k) + t[..|t| - 1];
      ParseLeadingZeros(k, t[..|t| - 1]);
    }
  }

  lemma {:induction false} AllZerosParse(k: nat)
    ensures ParseNat(Zeros(k)) == 0
  {
    if k > 0 {
      assert Zeros(k)[..k - 1] == Zeros(k - 1);
      AllZerosParse(k - 1);
    }
  }

  /** Zero-padding never changes the value the digits denote. */
  lemma ParseZeroPad(n: nat, width: nat)
    ensures ParseNat(ZeroPad(n, width)) == n
  {
    ParseLeadingZeros(if |Digits(n)| < width then width - |Digits(n)| else 0, Digits(n));
    ParseDigits(n);
  }

  /** Numbers below 10^k need at most k digits, so padding to k gives exactly k. */
  lemma {:induction false} DigitsBound(n: nat, k: nat)
    requires k >= 1 && n < Pow10(k)
    ensures |Digits(n)| <= k
    decreases k
  {
    if n >= 10 {
      assert k >= 2;
      DigitsBound(n / 10, k - 1);
    }
  }

  function Pow10(k: nat): (p: nat)
    ensures p >= 1
  {
    if k == 0 then 1 else 10 * Pow10(k - 1)
  }

  lemma PadWidth(n: nat, width: nat)
    requires width >= 1 && n < Pow10(width)
    ensures |ZeroPad(n, width)| == width
  {
    DigitsBound(n, width);
  }
}
