/** The OTP verification page: it takes the phone number handed over by the login page,
    checks the code against `^\d{6}$`, verifies it and lets the user ask for a new code. */
module VerifyOtp {
  import opened Common
  import opened Strings
  import opened Patterns
  import opened Auth
  import Login

  /** The form is valid (`required`, then `^\d{6}$`) exactly when the code is six ASCII
      digits. */
  predicate ValidOtp(s: string): (r: bool)
    ensures r <==> |s| == 6 && AllDigits(s)
  {
    DigitsRepeatIsDigitRun(s, 6, 6);
    s != "" && DigitsRepeat(s, 6, 6)
  }

  /** The state the router carries with a navigation, as far as this page reads it. */
  datatype NavigationState = NavigationState(phoneNumber: Option<string>, otp: Option<string>)

  /** The state attached to a route, if the route carries any. */
  function RouteState(r: Route): (s: Option<NavigationState>)
    ensures s.Some? <==> r.VerifyOtpRoute?
  {
    match r
    case VerifyOtpRoute(phone, otp) => Some(NavigationState(Some(phone), otp))
    case _ => None
  }

  /** The phone number the page starts with: `state['phoneNumber'] || ''`, and '' when the
      navigation carries no state. */
  function InitialPhone(state: Option<NavigationState>): (r: string)
    ensures state.Some? && state.value.phoneNumber.Some? ==> r == state.value.phoneNumber.value
    ensures state.None? || state.value.phoneNumber.None? ==> r == ""
  {
    match state
    case Some(s) => s.phoneNumber.GetOr("")
    case None => ""
  }

  /** The development OTP the page starts with: `state['otp'] || ''`. */
  function InitialOtp(state: Option<NavigationState>): (r: string)
    ensures state.Some? && state.value.otp.Some? ==> r == state.value.otp.value
    ensures state.None? || state.value.otp.None? ==> r == ""
  {
    match state
    case Some(s) => s.otp.GetOr("")
    case None => ""
  }

  /** The hand-over from the login page: when login navigates here it passes the number
      the user typed, which is never empty, so this page does not send the user back. */
  lemma LoginHandOver(phoneNumber: string, reply: OtpResponse)
    requires Login.ValidPhone(phoneNumber) && reply.success
    ensures InitialPhone(RouteState(VerifyOtpRoute(phoneNumber, reply.otp))) == phoneNumber
    ensures InitialPhone(RouteState(VerifyOtpRoute(phoneNumber, reply.otp))) != ""
    ensures InitialOtp(RouteState(VerifyOtpRoute(phoneNumber, reply.otp))) == reply.otp.GetOr("")
  {
  }

  class VerifyOtpComponent {
    var isLoading: bool
    var phoneNumber: string
    var otpForTesting: string

    /** Reads the phone number and development OTP from the current navigation's state. */
    constructor (state: Option<NavigationState>)
      ensures !isLoading
      ensures phoneNumber == InitialPhone(state) && otpForTesting == InitialOtp(state)
    {
      isLoading := false;
      phoneNumber := "";
      otpForTesting := "";
      if state.Some? {
        phoneNumber := state.value.phoneNumber.GetOr("");
        otpForTesting := state.value.otp.GetOr("");
      }
    }

    /** `ngOnInit`: without a phone number the user is sent back to the login page. */
    method NgOnInit() returns (redirect: Option<Route>)
      ensures redirect == (if phoneNumber == "" then Some(LoginRoute) else None)
    {
      redirect := None;
      if phoneNumber == "" {
        redirect := Some(LoginRoute);
      }
    }

    /** `onSubmit`: an invalid code returns before the service is called; otherwise the
        code is verified, and only a successful verification opens the dashboard (the
        session is stored by the service). */
    method OnSubmit(otp: string, auth: AuthService, reply: Outcome<AuthResponse>)
      returns (sent: Option<VerificationRequest>, navigation: Option<Route>)
      modifies this`isLoading, auth
      ensures sent == (if ValidOtp(otp) then Some(VerificationRequest(phoneNumber, otp)) else None)
      ensures navigation == (if ValidOtp(otp) && reply.Ok? then Some(DashboardRoute) else None)
      ensures isLoading == (if ValidOtp(otp) then false else old(isLoading))
      ensures !ValidOtp(otp) ==> unchanged(auth)
      ensures ValidOtp(otp) && reply.Ok? ==>
                auth.storage == SaveSession(old(auth.storage), reply.value) && auth.authenticated
      ensures reply.Err? ==> auth.storage == old(auth.storage) && auth.authenticated == old(auth.authenticated)
    {
      sent := None;
      navigation := None;
      if !ValidOtp(otp) {
        return;
      }
      isLoading := true;
      var request, result := auth.VerifyOTP(phoneNumber, otp, reply);
      sent := Some(request);
      isLoading := false;
      if result.Ok? {
        navigation := Some(DashboardRoute);
      }
    }

    /** `resendOTP`: a new code is requested for the same number; only a reply with
        `success` replaces the development OTP, with '' when the reply carries none. */
    method ResendOTP(auth: AuthService, reply: Outcome<OtpResponse>) returns (requested: string)
      modifies this`otpForTesting
      ensures requested == phoneNumber
      ensures reply.Ok? && reply.value.success ==> otpForTesting == reply.value.otp.GetOr("")
      ensures !(reply.Ok? && reply.value.success) ==> otpForTesting == old(otpForTesting)
    {
      var sent, result := auth.RequestOTP(phoneNumber, reply);
      requested := sent;
      if result.Ok? && result.value.success {
        otpForTesting := result.value.otp.GetOr("");
      }
    }
  }
}
