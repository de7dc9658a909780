/**
 * One-time-passcode extraction (`extract_otp`): the first match of the
 * regular expression `\b(\d{4,8})\b` in the message text, over ASCII text.
 *
 * `MatchesAt` is the regular expression's own meaning; `ExtractOtp` finds
 * the match by scanning left to right and measuring each digit run.  The
 * lemmas show the scan returns exactly the leftmost match.
 */
module Otp {
  import opened Common

  const MinDigits: int := 4
  const MaxDigits: int := 8

  /** `\b` at position k: word-ness differs on its two sides (edges are non-word). */
  predicate Boundary(s: string, k: int)
    requires 0 <= k <= |s|
  {
    (0 < k && IsWordChar(s[k - 1])) != (k < |s| && IsWordChar(s[k]))
  }

  predicate DigitsBetween(s: string, i: int, j: int)
    requires 0 <= i <= j <= |s|
  {
    forall m :: i <= m < j ==> IsAsciiDigit(s[m])
  }

  /** `\b\d{4,8}\b` matches exactly `s[i..j]`. */
  predicate MatchesAt(s: string, i: int, j: int)
  {
    && 0 <= i <= j <= |s|
    && MinDigits <= j - i <= MaxDigits
    && DigitsBetween(s, i, j)
    && Boundary(s, i)
    && Boundary(s, j)
  }

  /** End of the run of digits starting at `i`. */
  function DigitRunEnd(s: string, i: int): (k: int)
    requires 0 <= i <= |s|
    ensures i <= k <= |s| && DigitsBetween(s, i, k)
    ensures k < |s| ==> !IsAsciiDigit(s[k])
    decreases |s| - i
  {
    if i < |s| && IsAsciiDigit(s[i]) then DigitRunEnd(s, i + 1) else i
  }

  /** A match starting at `i` can only end where the digit run ends. */
  lemma MatchEndsAtRunEnd(s: string, i: int, j: int)
    requires MatchesAt(s, i, j)
    ensures j == DigitRunEnd(s, i)
  {
  }

  /** Leftmost position at or after `i` where a match starts. */
  function FindFrom(s: string, i: int): (r: Option<int>)
    requires 0 <= i <= |s|
    ensures r.Some? ==> i <= r.value <= |s| && MatchesAt(s, r.value, DigitRunEnd(s, r.value))
    ensures r.Some? ==> forall p, j :: i <= p < r.value ==> !MatchesAt(s, p, j)
    ensures r.None? ==> forall p, j :: i <= p ==> !MatchesAt(s, p, j)
    decreases |s| - i
  {
    if i == |s| then None
    else if MatchesAt(s, i, DigitRunEnd(s, i)) then Some(i)
    else
      assert forall j :: !MatchesAt(s, i, j) by {
        forall j | MatchesAt(s, i, j) ensures false {
          MatchEndsAtRunEnd(s, i, j);
        }
      }
      FindFrom(s, i + 1)
  }

  /** `extract_otp`: `None` for empty text, else the first match's digits. */
  function ExtractOtp(text: string): (r: Option<string>)
    ensures |text| == 0 ==> r.None?
    ensures r.Some? ==> MinDigits <= |r.value| <= MaxDigits && AllDigits(r.value)
  {
    if |text| == 0 then None
    else
      match FindFrom(text, 0)
      case None => None
      case Some(i) => Some(text[i..DigitRunEnd(text, i)])
  }

  /** The leftmost match of the pattern is what `extract_otp` returns. */
  lemma LeftmostMatchExtracted(text: string, i: int, j: int)
    requires MatchesAt(text, i, j)
    requires forall p, q :: 0 <= p < i ==> !MatchesAt(text, p, q)
    ensures ExtractOtp(text) == Some(text[i..j])
  {
    MatchEndsAtRunEnd(text, i, j);
  }

  /** `extract_otp` returns nothing exactly when the pattern matches nowhere. */
  lemma NoMatchIffNone(text: string)
    ensures ExtractOtp(text).None? <==> forall i, j :: !MatchesAt(text, i, j)
  {
  }

  /** Whatever `extract_otp` returns is a match of the pattern, and the leftmost. */
  lemma ExtractedIsLeftmostMatch(text: string)
    requires ExtractOtp(text).Some?
    ensures exists i, j :: && MatchesAt(text, i, j)
                           && text[i..j] == ExtractOtp(text).value
                           && forall p, q :: 0 <= p < i ==> !MatchesAt(text, p, q)
  {
    var i := FindFrom(text, 0).value;
    assert MatchesAt(text, i, DigitRunEnd(text, i));
  }

  /** A run of nine or more digits contains no match: it is never cut into a code. */
  lemma LongRunNeverMatches(s: string, a: int, b: int, i: int, j: int)
    requires 0 <= a <= b <= |s| && b - a > MaxDigits && DigitsBetween(s, a, b)
    requires a <= i < b
    ensures !MatchesAt(s, i, j)
  {
  }

  /** A code at the very start of the text is found. */
  lemma ExampleCodeFirst()
    ensures ExtractOtp("4821 is your code") == Some("4821")
  {
    var s := "4821 is your code";
    assert MatchesAt(s, 0, 4);
    LeftmostMatchExtracted(s, 0, 4);
    assert s[0..4] == "4821";
  }

  /** A lone nine-digit number yields no code. */
  lemma ExampleNineDigits()
    ensures ExtractOtp("123456789") == None
  {
    var s := "123456789";
    assert DigitsBetween(s, 0, 9);
    forall p, q ensures !MatchesAt(s, p, q) {
      if 0 <= p < 9 {
        LongRunNeverMatches(s, 0, 9, p, q);
      }
    }
    NoMatchIffNone(s);
  }
}
