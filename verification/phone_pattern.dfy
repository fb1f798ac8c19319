/**
 * The phone-number pattern of the card-creation form, `^\+?[1-9]\d{1,14}$`,
 * written as a matcher over characters that follows the pattern piece by piece,
 * together with the shape it stands for: an optional plus sign, then 2 to 15
 * decimal digits of which the first is not zero. Fifteen digits is the maximum
 * number length of ITU-T Recommendation E.164, section 6.1.
 */
module PhonePattern {

  /** `\d` in a JavaScript regular expression without the `u` flag: ASCII digits only. */
  predicate IsDigit(c: char) {
    '0' <= c <= '9'
  }

  /** `[1-9]` */
  predicate IsLeadingDigit(c: char) {
    '1' <= c <= '9'
  }

  /** `\d{lo,hi}$`: the rest of the input is at least `lo` and at most `hi` digits. */
  predicate MatchDigits(s: string, lo: nat, hi: nat)
    decreases |s|
  {
    if s == [] then lo == 0
    else hi > 0 && IsDigit(s[0]) && MatchDigits(s[1..], if lo == 0 then 0 else lo - 1, hi - 1)
  }

  /** `[1-9]\d{1,14}$` */
  predicate MatchNumber(s: string) {
    s != [] && IsLeadingDigit(s[0]) && MatchDigits(s[1..], 1, 14)
  }

  /** `^\+?[1-9]\d{1,14}$`: the plus sign is tried first, then its absence. */
  predicate MatchesPhonePattern(s: string)
    ensures MatchesPhonePattern(s) ==> |s| >= 2 && (s[0] == '+' || IsLeadingDigit(s[0]))
  {
    (s != [] && s[0] == '+' && MatchNumber(s[1..])) || MatchNumber(s)
  }

  predicate AllDigits(s: string) {
    forall k | 0 <= k < |s| :: IsDigit(s[k])
  }

  /** The digits after an optional leading plus sign. */
  function Unsigned(s: string): (d: string)
    ensures d == s || (s != [] && s[0] == '+' && d == s[1..])
    ensures |d| == |s| - (if s != [] && s[0] == '+' then 1 else 0)
  {
    if s != [] && s[0] == '+' then s[1..] else s
  }

  /** E.164 maximum length */
  const MaxDigits: nat := 15

  /** What the pattern is meant to accept, stated without the matcher. */
  predicate PhoneShape(s: string) {
    var d := Unsigned(s);
    2 <= |d| <= MaxDigits && AllDigits(d) && d[0] != '0'
  }

  /** A bounded repetition of digits matches exactly the all-digit strings whose length is in range. */
  lemma {:induction false} MatchDigitsCount(s: string, lo: nat, hi: nat)
    ensures MatchDigits(s, lo, hi) <==> lo <= |s| <= hi && AllDigits(s)
    decreases |s|
  {
    if s != [] && hi > 0 {
      MatchDigitsCount(s[1..], if lo == 0 then 0 else lo - 1, hi - 1);
      if AllDigits(s) {
        assert AllDigits(s[1..]) by {
          forall k | 0 <= k < |s| - 1 ensures IsDigit(s[1..][k]) {
            assert s[1..][k] == s[k + 1];
          }
        }
      }
      if IsDigit(s[0]) && AllDigits(s[1..]) {
        forall k | 0 <= k < |s| ensures IsDigit(s[k]) {
          if k > 0 {
            assert s[k] == s[1..][k - 1];
          }
        }
      }
    }
  }

  /** `[1-9]\d{1,14}` accepts exactly 2 to 15 digits that do not start with zero. */
  lemma MatchNumberShape(s: string)
    ensures MatchNumber(s) <==> 2 <= |s| <= MaxDigits && AllDigits(s) && s[0] != '0'
  {
    if s != [] {
      MatchDigitsCount(s[1..], 1, 14);
      if AllDigits(s) {
        assert AllDigits(s[1..]) by {
          forall k | 0 <= k < |s| - 1 ensures IsDigit(s[1..][k]) {
            assert s[1..][k] == s[k + 1];
          }
        }
      }
      if IsLeadingDigit(s[0]) && AllDigits(s[1..]) {
        forall k | 0 <= k < |s| ensures IsDigit(s[k]) {
          if k > 0 {
            assert s[k] == s[1..][k - 1];
          }
        }
      }
    }
  }

  /** The matcher accepts exactly the strings of the intended shape. */
  lemma PatternMeansShape(s: string)
    ensures MatchesPhonePattern(s) <==> PhoneShape(s)
  {
    MatchNumberShape(s);
    if s != [] && s[0] == '+' {
      MatchNumberShape(s[1..]);
    }
  }

  /** A string the pattern accepts holds between 2 and 15 digits, a plus sign
      at most at its start, and nothing else. */
  lemma AcceptedCharacters(s: string)
    requires MatchesPhonePattern(s)
    ensures 2 <= |s| <= MaxDigits + 1
    ensures forall k | 0 <= k < |s| :: IsDigit(s[k]) || (k == 0 && s[k] == '+')
    ensures s[0] == '+' ==> |s| >= 3
  {
    PatternMeansShape(s);
    var d := Unsigned(s);
    forall k | 0 <= k < |s| ensures IsDigit(s[k]) || (k == 0 && s[k] == '+') {
      if d != s {
        if k > 0 {
          assert s[k] == d[k - 1];
        }
      } else {
        assert s[k] == d[k];
      }
    }
  }

  /** The placeholder the form shows is accepted. */
  lemma PlaceholderAccepted()
    ensures MatchesPhonePattern("+1234567890")
  {
    var digits := "1234567890";
    assert "+1234567890" == ['+'] + digits;
    assert AllDigits(digits);
    MatchNumberShape(digits);
  }

  /** A number whose first digit is 0 is rejected, signed or not. */
  lemma LeadingZeroRejected(s: string)
    requires Unsigned(s) != [] && Unsigned(s)[0] == '0'
    ensures !MatchesPhonePattern(s)
  {
    PatternMeansShape(s);
  }

  /** More than fifteen digits, the E.164 maximum, are rejected. */
  lemma TooManyDigitsRejected(s: string)
    requires |Unsigned(s)| > MaxDigits
    ensures !MatchesPhonePattern(s)
  {
    PatternMeansShape(s);
  }
}
