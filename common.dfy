/**
 * Shared vocabulary: an Option type, the ASCII character classes the bot's
 * regular expression and string calls rely on, and the two Python string
 * conversions the user lookup uses, `str(int)` and `int(str)`.
 */
module Common {

  datatype Option<+T> = None | Some(value: T)

  predicate IsAsciiDigit(c: char) { '0' <= c <= '9' }

  predicate IsAsciiLetter(c: char) { 'a' <= c <= 'z' || 'A' <= c <= 'Z' }

  /** The characters `\w` matches, restricted to ASCII. */
  predicate IsWordChar(c: char) { IsAsciiDigit(c) || IsAsciiLetter(c) || c == '_' }

  /** The ASCII characters Python's `str.strip()` and `int()` treat as whitespace. */
  predicate IsSpace(c: char) { c == ' ' || '\t' <= c <= '\r' || '\U{1C}' <= c <= '\U{1F}' }

  predicate NoSpace(s: string) { forall k :: 0 <= k < |s| ==> !IsSpace(s[k]) }

  /** Length of the longest prefix of `s` whose characters all satisfy `p`. */
  function PrefixLen(s: string, p: char -> bool): (k: nat)
    ensures k <= |s|
    ensures forall m :: 0 <= m < k ==> p(s[m])
    ensures k < |s| ==> !p(s[k])
  {
    if |s| == 0 || !p(s[0]) then 0 else 1 + PrefixLen(s[1..], p)
  }

  /** Length of the longest suffix of `s` whose characters all satisfy `p`. */
  function SuffixLen(s: string, p: char -> bool): (k: nat)
    ensures k <= |s|
    ensures forall m :: |s| - k <= m < |s| ==> p(s[m])
    ensures k < |s| ==> !p(s[|s| - 1 - k])
  {
    if |s| == 0 || !p(s[|s| - 1]) then 0 else 1 + SuffixLen(s[..|s| - 1], p)
  }

  /**
   * Python's `s.strip()`: drop leading and trailing whitespace.  The result
   * is a slice of `s` with nothing but whitespace cut off on either side.
   */
  function Strip(s: string): (r: string)
    ensures |r| == 0 || (!IsSpace(r[0]) && !IsSpace(r[|r| - 1]))
    ensures exists i, j :: && 0 <= i <= j <= |s| && r == s[i..j]
                           && (forall k :: 0 <= k < i ==> IsSpace(s[k]))
                           && (forall k :: j <= k < |s| ==> IsSpace(s[k]))
  {
    var a := PrefixLen(s, IsSpace);
    var rest := s[a..];
    var r := rest[..|rest| - SuffixLen(rest, IsSpace)];
    assert r == s[a..a + |r|];
    assert forall k :: a + |r| <= k < |s| ==> s[k] == rest[k - a];
    r
  }

  /** A string with no whitespace at either end is its own strip. */
  lemma StripUnpadded(s: string)
    requires |s| == 0 || (!IsSpace(s[0]) && !IsSpace(s[|s| - 1]))
    ensures Strip(s) == s
  {
    assert PrefixLen(s, IsSpace) == 0;
    assert SuffixLen(s, IsSpace) == 0;
  }

  function LowerChar(c: char): char
  {
    if 'A' <= c <= 'Z' then (c as int - 'A' as int + 'a' as int) as char else c
  }

  /** Python's `s.lower()`, restricted to ASCII letters. */
  function Lower(s: string): (r: string)
    ensures |r| == |s|
  {
    seq(|s|, k requires 0 <= k < |s| => LowerChar(s[k]))
  }

  /** `Lower` turns each ASCII capital into its small letter and leaves every other character alone. */
  lemma LowerChars(s: string)
    ensures forall k :: 0 <= k < |s| ==> !('A' <= Lower(s)[k] <= 'Z')
    ensures forall k :: 0 <= k < |s| && !('A' <= s[k] <= 'Z') ==> Lower(s)[k] == s[k]
    ensures forall k :: 0 <= k < |s| && 'A' <= s[k] <= 'Z' ==> Lower(s)[k] as int == s[k] as int + ('a' as int - 'A' as int)
  {
  }

  /** Lowering twice is lowering once, so the search's case-blind test is stable. */
  lemma LowerIdempotent(s: string)
    ensures Lower(Lower(s)) == Lower(s)
  {
  }

  function DigitChar(d: nat): char
    requires d < 10
  {
    ('0' as int + d) as char
  }

  function DigitValue(c: char): nat
    requires IsAsciiDigit(c)
  {
    c as int - '0' as int
  }

  predicate AllDigits(s: string) { forall k :: 0 <= k < |s| ==> IsAsciiDigit(s[k]) }

  /** Python's `str(n)` for `n >= 0`: canonical decimal, no leading zeros. */
  function NatDigits(n: nat): (r: string)
    ensures |r| > 0 && AllDigits(r)
    ensures |r| > 1 ==> r[0] != '0'
  {
    if n < 10 then [DigitChar(n)] else NatDigits(n / 10) + [DigitChar(n % 10)]
  }

  /** Value of a string of decimal digits, most significant first. */
  function DigitsValue(s: string): nat
    requires AllDigits(s)
  {
    if |s| == 0 then 0 else DigitsValue(s[..|s| - 1]) * 10 + DigitValue(s[|s| - 1])
  }

  /** Python's `str(n)`: digits, preceded by `-` for a negative number. */
  function DecimalString(n: int): (r: string)
    ensures |r| > 0 && NoSpace(r)
    ensures n >= 0 ==> AllDigits(r)
    ensures n < 0 ==> |r| > 1 && r[0] == '-' && AllDigits(r[1..])
  {
    if n < 0 then "-" + NatDigits(-n) else NatDigits(n)
  }

  /** What `int()` accepts once whitespace is stripped: an optional sign, then one or more digits. */
  predicate IsIntLiteral(t: string)
  {
    || (|t| > 0 && AllDigits(t))
    || (|t| > 1 && (t[0] == '+' || t[0] == '-') && AllDigits(t[1..]))
  }

  /**
   * Python's `int(s)` on a string: surrounding whitespace is ignored, one
   * optional sign, then at least one decimal digit; anything else is the
   * `ValueError` case, here `None`.
   */
  function ParseInt(s: string): (r: Option<int>)
    ensures r.Some? <==> IsIntLiteral(Strip(s))
    ensures r.Some? && r.value < 0 ==> Strip(s)[0] == '-'
    ensures |Strip(s)| > 0 && AllDigits(Strip(s)) ==> r == Some(DigitsValue(Strip(s)))
    ensures |Strip(s)| > 1 && (Strip(s)[0] == '+' || Strip(s)[0] == '-') && AllDigits(Strip(s)[1..]) ==>
              var v: int := DigitsValue(Strip(s)[1..]);
              r == Some(if Strip(s)[0] == '-' then -v else v)
  {
    var t := Strip(s);
    var negative := |t| > 0 && t[0] == '-';
    var digits := if |t| > 0 && (t[0] == '-' || t[0] == '+') then t[1..] else t;
    if |digits| > 0 && AllDigits(digits) then
      var v: int := DigitsValue(digits);
      Some(if negative then -v else v)
    else
      None
  }

  lemma {:induction false} NatDigitsValue(n: nat)
    ensures DigitsValue(NatDigits(n)) == n
  {
    if n >= 10 {
      var front := NatDigits(n / 10);
      var s := front + [DigitChar(n % 10)];
      assert s[..|s| - 1] == front;
      NatDigitsValue(n / 10);
    }
  }

  /** `int(str(n)) == n`: the decimal key of a user id parses back to the id. */
  lemma ParseDecimalString(n: int)
    ensures ParseInt(DecimalString(n)) == Some(n)
  {
    var s := DecimalString(n);
    var m: nat := if n < 0 then -n else n;
    var ds := NatDigits(m);
    NatDigitsValue(m);
    assert NoSpace(s) by {
      if n < 0 {
        assert s == "-" + ds;
        forall k | 0 <= k < |s| ensures !IsSpace(s[k]) {
          if k > 0 { assert s[k] == ds[k - 1]; }
        }
      } else {
        assert s == ds;
      }
    }
    StripUnpadded(s);
    if n < 0 {
      assert s[0] == '-' && s[1..] == ds;
    } else {
      assert s == ds && IsAsciiDigit(s[0]);
    }
  }

  /** Distinct ids have distinct decimal keys. */
  lemma DecimalStringInjective(a: int, b: int)
    requires DecimalString(a) == DecimalString(b)
    ensures a == b
  {
    ParseDecimalString(a);
    ParseDecimalString(b);
  }
}
