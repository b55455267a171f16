/** The string operations the scraper applies to page text: Python's
    `str.strip()`, `str.replace(c, "")` and `str.startswith`, the image-URL
    fix-up, and the decimal rendering of integers inside f-strings. */
module Text {

  /** Python's `str.isspace` for a single character. */
  predicate IsSpace(c: char)
  {
    || ('\t' <= c <= '\r')
    || ('\U{1C}' <= c <= '\U{20}')
    || c == '\U{85}' || c == '\U{A0}' || c == '\U{1680}'
    || ('\U{2000}' <= c <= '\U{200A}')
    || c == '\U{2028}' || c == '\U{2029}' || c == '\U{202F}' || c == '\U{205F}'
    || c == '\U{3000}'
  }

  predicate AllSpace(s: string)
  {
    forall k :: 0 <= k < |s| ==> IsSpace(s[k])
  }

  /** `s.lstrip()`: the longest suffix of `s` that does not start with whitespace. */
  function StripLeft(s: string): (r: string)
    ensures |r| <= |s| && r == s[|s| - |r|..]
    ensures AllSpace(s[..|s| - |r|])
    ensures r == [] || !IsSpace(r[0])
  {
    if |s| > 0 && IsSpace(s[0]) then
      var r := StripLeft(s[1..]);
      assert AllSpace(s[..|s| - |r|]) by {
        forall k | 0 <= k < |s| - |r|
          ensures IsSpace(s[k])
        {
          if k > 0 {
            assert s[k] == s[1..][..|s| - 1 - |r|][k - 1];
          }
        }
      }
      r
    else
      s
  }

  /** `s.rstrip()`: the longest prefix of `s` that does not end with whitespace. */
  function StripRight(s: string): (r: string)
    ensures |r| <= |s| && r == s[..|r|]
    ensures AllSpace(s[|r|..])
    ensures r == [] || !IsSpace(r[|r| - 1])
  {
    if |s| > 0 && IsSpace(s[|s| - 1]) then
      var r := StripRight(s[..|s| - 1]);
      assert AllSpace(s[|r|..]) by {
        forall k | |r| <= k < |s|
          ensures IsSpace(s[k])
        {
          if k < |s| - 1 {
            assert s[k] == s[..|s| - 1][|r|..][k - |r|];
          }
        }
      }
      r
    else
      s
  }

  /** `s.strip()`. */
  function Strip(s: string): (r: string)
    ensures |r| <= |s|
    ensures r == [] || (!IsSpace(r[0]) && !IsSpace(r[|r| - 1]))
  {
    StripRight(StripLeft(s))
  }

  lemma {:induction false} StripLeftOfSpaces(a: string, m: string)
    requires AllSpace(a)
    requires m == [] || !IsSpace(m[0])
    ensures StripLeft(a + m) == m
  {
    if a != [] {
      assert (a + m)[1..] == a[1..] + m;
      StripLeftOfSpaces(a[1..], m);
    } else {
      assert a + m == m;
    }
  }

  lemma {:induction false} StripRightOfSpaces(m: string, b: string)
    requires AllSpace(b)
    requires m == [] || !IsSpace(m[|m| - 1])
    ensures StripRight(m + b) == m
  {
    if b != [] {
      assert (m + b)[..|m + b| - 1] == m + b[..|b| - 1];
      StripRightOfSpaces(m, b[..|b| - 1]);
    } else {
      assert m + b == m;
    }
  }

  /** `strip` removes exactly the leading and trailing whitespace: whatever
      core lies between two runs of whitespace is what it returns. */
  lemma StripExact(a: string, m: string, b: string)
    requires AllSpace(a) && AllSpace(b)
    requires m == [] || (!IsSpace(m[0]) && !IsSpace(m[|m| - 1]))
    ensures Strip(a + m + b) == m
  {
    if m == [] {
      assert a + m + b == a + b;
      assert AllSpace(a + b);
      StripLeftOfSpaces(a + b, []);
      assert a + b + [] == a + b;
      assert StripLeft(a + b) == [];
    } else {
      assert a + m + b == a + (m + b);
      StripLeftOfSpaces(a, m + b);
      StripRightOfSpaces(m, b);
    }
  }

  lemma StripIdempotent(s: string)
    ensures Strip(Strip(s)) == Strip(s)
  {
    var m := Strip(s);
    assert StripLeft(m) == m;
    assert StripRight(m) == m;
  }

  /** `s.replace(c, "")` for a one-character `c`. */
  function RemoveChar(s: string, c: char): (r: string)
    ensures c !in r
    ensures |r| <= |s|
    ensures c !in s ==> r == s
  {
    if s == [] then [] else (if s[0] == c then [] else [s[0]]) + RemoveChar(s[1..], c)
  }

  lemma {:induction false} RemoveCharAppend(a: string, b: string, c: char)
    ensures RemoveChar(a + b, c) == RemoveChar(a, c) + RemoveChar(b, c)
  {
    if a != [] {
      assert (a + b)[1..] == a[1..] + b;
      RemoveCharAppend(a[1..], b, c);
    } else {
      assert a + b == b;
    }
  }

  /** Removing `c` keeps every other character, in its order. */
  lemma RemoveCharKeeps(a: string, x: char, b: string, c: char)
    requires x != c
    ensures RemoveChar(a + [x] + b, c) == RemoveChar(a, c) + [x] + RemoveChar(b, c)
  {
    RemoveCharAppend(a + [x], b, c);
    RemoveCharAppend(a, [x], c);
  }

  /** Every occurrence of `c` is dropped. */
  lemma RemoveCharDrops(a: string, b: string, c: char)
    ensures RemoveChar(a + [c] + b, c) == RemoveChar(a, c) + RemoveChar(b, c)
  {
    RemoveCharAppend(a + [c], b, c);
    RemoveCharAppend(a, [c], c);
  }

  /** Python's `str.startswith`. */
  predicate StartsWith(s: string, prefix: string)
  {
    |prefix| <= |s| && s[..|prefix|] == prefix
  }

  /** A protocol-relative image URL (`//host/...`) gets the `https:` scheme;
      anything else is kept as it is. */
  function NormalizeImageUrl(url: string): (r: string)
    ensures !StartsWith(r, "//")
    ensures r == url || r == "https:" + url
    ensures r == url <==> !StartsWith(url, "//")
  {
    if StartsWith(url, "//") then
      var r := "https:" + url;
      assert r[..2] != "//" by { assert r[1] == 't'; }
      r
    else
      url
  }

  lemma NormalizeImageUrlIdempotent(url: string)
    ensures NormalizeImageUrl(NormalizeImageUrl(url)) == NormalizeImageUrl(url)
  {
  }

  predicate IsDigit(c: char)
  {
    '0' <= c <= '9'
  }

  predicate AllDigits(s: string)
  {
    forall k :: 0 <= k < |s| ==> IsDigit(s[k])
  }

  function DigitChar(d: nat): (c: char)
    requires d < 10
    ensures IsDigit(c)
  {
    "0123456789"[d]
  }

  function DigitValue(c: char): nat
    requires IsDigit(c)
  {
    (c as int) - ('0' as int)
  }

  /** The decimal text of a natural number, as Python's `str` renders it. */
  function NatToDecimal(n: nat): (r: string)
    ensures |r| >= 1 && AllDigits(r)
    ensures r[0] == '0' ==> n == 0
  {
    if n < 10 then [DigitChar(n)] else NatToDecimal(n / 10) + [DigitChar(n % 10)]
  }

  /** The value of a string of decimal digits (the reading side of `NatToDecimal`). */
  function DecimalValue(s: string): nat
    requires AllDigits(s)
  {
    if s == [] then 0 else 10 * DecimalValue(s[..|s| - 1]) + DigitValue(s[|s| - 1])
  }

  lemma {:induction false} DecimalRoundTrip(n: nat)
    ensures DecimalValue(NatToDecimal(n)) == n
  {
    var r := NatToDecimal(n);
    if n >= 10 {
      DecimalRoundTrip(n / 10);
      assert r[..|r| - 1] == NatToDecimal(n / 10);
    }
  }

  /** The text of an `int` in a Python f-string: a minus sign, then digits. */
  function IntToDecimal(n: int): (r: string)
    ensures |r| >= 1
    ensures r[0] == '-' <==> n < 0
    ensures AllDigits(if n < 0 then r[1..] else r)
  {
    if n < 0 then ['-'] + NatToDecimal(-n) else NatToDecimal(n)
  }

  lemma {:induction false} NatToDecimalInjective(m: nat, n: nat)
    requires NatToDecimal(m) == NatToDecimal(n)
    ensures m == n
  {
    DecimalRoundTrip(m);
    DecimalRoundTrip(n);
  }
}
