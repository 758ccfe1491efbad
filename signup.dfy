/** The phone-number check of the sign-up form that opens the ten-puzzle
    challenge (script.js): the trimmed input must be exactly ten ASCII
    digits (the pattern `^\d{10}$`). */
module Signup {
  import opened Text

  predicate PhoneAccepted(input: string) {
    var phone := Trim(input);
    |phone| == 10 && AllDigits(phone)
  }

  /** White space around a digit string is ignored, and the digits pass
      exactly when there are ten of them. */
  lemma PaddedDigitsAccepted(w1: string, digits: string, w2: string)
    requires AllSpace(w1) && AllSpace(w2) && AllDigits(digits)
    ensures PhoneAccepted(w1 + digits + w2) <==> |digits| == 10
  {
    TrimIgnoresPadding(w1, digits, w2);
    TrimKeepsDigits(digits);
  }

  /** A string that starts and ends with a character other than white space
      and holds a non-digit anywhere is refused, whatever white space
      surrounds it. */
  lemma NonDigitRefused(w1: string, core: string, w2: string, i: nat)
    requires AllSpace(w1) && AllSpace(w2)
    requires |core| > 0 && !IsJsSpace(core[0]) && !IsJsSpace(core[|core| - 1])
    requires i < |core| && !IsDigit(core[i])
    ensures !PhoneAccepted(w1 + core + w2)
  {
    TrimIgnoresPadding(w1, core, w2);
    assert TrimStart(core) == core;
    assert TrimEnd(core) == core;
  }
}
