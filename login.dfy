/** The login form: a phone number checked against `^\+?[1-9]\d{1,14}$` before an OTP is
    requested, and the navigation that follows the backend's reply. */
module Login {
  import opened Common
  import opened Strings
  import opened Patterns
  import opened Auth

  /** `[1-9]\d{1,14}` matches the whole of `s`. */
  predicate MatchesPhoneBody(s: string) {
    |s| > 0 && '1' <= s[0] <= '9' && DigitsRepeat(s[1..], 1, 14)
  }

  /** `^\+?[1-9]\d{1,14}$`: the optional '+' is either matched or skipped. */
  predicate MatchesPhonePattern(s: string) {
    MatchesPhoneBody(s) || (|s| > 0 && s[0] == '+' && MatchesPhoneBody(s[1..]))
  }

  /** `[1-9]\d{1,14}` matches exactly the strings of 2 to 15 ASCII digits whose first digit
      is not 0. */
  lemma PhoneBodyShape(b: string)
    ensures MatchesPhoneBody(b) <==> 2 <= |b| <= 15 && AllDigits(b) && b[0] != '0'
  {
    if |b| > 0 {
      DigitsRepeatIsDigitRun(b[1..], 1, 14);
      assert AllDigits(b) <==> IsDigit(b[0]) && AllDigits(b[1..]) by {
        assert forall i :: 1 <= i < |b| ==> b[i] == b[1..][i - 1];
      }
    }
  }

  /** The number without its optional leading '+'. */
  function PhoneDigits(s: string): (d: string)
    ensures |s| > 0 && s[0] == '+' ==> s == "+" + d
    ensures !(|s| > 0 && s[0] == '+') ==> d == s
  {
    if |s| > 0 && s[0] == '+' then s[1..] else s
  }

  /** The form is valid (`required`, then the pattern) exactly when, after an optional '+',
      the number is 2 to 15 ASCII digits of which the first is not 0. */
  predicate ValidPhone(s: string): (r: bool)
    ensures r <==> var d := PhoneDigits(s); 2 <= |d| <= 15 && AllDigits(d) && d[0] != '0'
  {
    PhoneBodyShape(s);
    PhoneBodyShape(PhoneDigits(s));
    s != "" && MatchesPhonePattern(s)
  }

  /** Consequences of the pattern: a leading 0 is refused, "+1" is too short, and a valid
      number has 2 to 16 characters. */
  lemma PhonePatternConsequences(s: string, rest: string)
    ensures !ValidPhone("0" + rest) && !ValidPhone("+0" + rest)
    ensures !ValidPhone("+1")
    ensures ValidPhone(s) ==> 2 <= |s| <= 16
  {
    assert PhoneDigits("+0" + rest) == "0" + rest;
    assert PhoneDigits("+1") == "1";
  }

  class LoginComponent {
    var isLoading: bool

    constructor ()
      ensures !isLoading
    {
      isLoading := false;
    }

    /** `onSubmit`: an invalid number returns before the service is called; otherwise the
        OTP is requested, and only a reply with `success` leads on to the verification
        page, carrying the number and the reply's OTP. The store is not modified. */
    method OnSubmit(phoneNumber: string, auth: AuthService, reply: Outcome<OtpResponse>)
      returns (requested: Option<string>, navigation: Option<Route>)
      modifies this`isLoading
      ensures requested == (if ValidPhone(phoneNumber) then Some(phoneNumber) else None)
      ensures navigation.Some? <==> ValidPhone(phoneNumber) && reply.Ok? && reply.value.success
      ensures navigation.Some? ==> navigation.value == VerifyOtpRoute(phoneNumber, reply.value.otp)
      ensures isLoading == (if ValidPhone(phoneNumber) then false else old(isLoading))
    {
      requested := None;
      navigation := None;
      if !ValidPhone(phoneNumber) {
        return;
      }
      isLoading := true;
      var sent, result := auth.RequestOTP(phoneNumber, reply);
      requested := Some(sent);
      match result
      case Ok(response) =>
        isLoading := false;
        if response.success {
          navigation := Some(VerifyOtpRoute(phoneNumber, response.otp));
        }
      case Err =>
        isLoading := false;
    }
  }
}
