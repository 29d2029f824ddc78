/** The one regular-expression construct the validators share, `\d{min,max}`, given its
    matching semantics (one digit consumed per step), with its closed form. */
module Patterns {
  import opened Strings

  /** `\d{min,max}` matches the whole of `s`. */
  predicate DigitsRepeat(s: string, min: nat, max: nat)
    decreases |s|
  {
    if |s| == 0 then min == 0
    else max > 0 && IsDigit(s[0]) && DigitsRepeat(s[1..], if min > 0 then min - 1 else 0, max - 1)
  }

  /** `\d{min,max}` matches exactly the digit strings whose length lies in [min, max]. */
  lemma {:induction false} DigitsRepeatIsDigitRun(s: string, min: nat, max: nat)
    ensures DigitsRepeat(s, min, max) <==> min <= |s| <= max && AllDigits(s)
    decreases |s|
  {
    if |s| > 0 {
      var min' := if min > 0 then min - 1 else 0;
      if max > 0 {
        DigitsRepeatIsDigitRun(s[1..], min', max - 1);
      }
      assert AllDigits(s) <==> IsDigit(s[0]) && AllDigits(s[1..]) by {
        assert forall i :: 1 <= i < |s| ==> s[i] == s[1..][i - 1];
      }
    }
  }
}
