/** The credential store: the session token and phone number kept in the browser's
    `localStorage`, and the authenticated flag published to the rest of the application. */
module Auth {
  import opened Common

  const TokenKey: string := "jwt_token"
  const PhoneKey: string := "phone_number"

  /** `localStorage`: string keys to string values, shared with whatever else the page stores. */
  type Storage = map<string, string>

  /** `localStorage.getItem(key)` */
  function GetItem(m: Storage, key: string): (r: Option<string>)
    ensures r.Some? <==> key in m
    ensures r.Some? ==> r.value == m[key]
  {
    if key in m then Some(m[key]) else None
  }

  /** `!!getToken()`: a token is stored and it is not the empty string. */
  predicate TokenPresent(m: Storage): (r: bool)
    ensures r <==> TokenKey in m && m[TokenKey] != ""
  {
    GetItem(m, TokenKey).Some? && GetItem(m, TokenKey).value != ""
  }

  /** The effect of a successful verification: both keys written from the response. */
  function SaveSession(m: Storage, response: AuthResponse): (r: Storage)
    ensures r.Keys == m.Keys + {TokenKey, PhoneKey}
    ensures r[TokenKey] == response.token && r[PhoneKey] == response.phoneNumber
  {
    m[TokenKey := response.token][PhoneKey := response.phoneNumber]
  }

  /** The effect of logging out: both keys removed. */
  function ClearSession(m: Storage): (r: Storage)
    ensures r.Keys == m.Keys - {TokenKey, PhoneKey}
    ensures forall k :: k in r ==> r[k] == m[k]
  {
    m - {TokenKey, PhoneKey}
  }

  /** After a successful verification the store holds the response's token and phone
      number, and every other key is as it was. */
  lemma SaveSessionStores(m: Storage, response: AuthResponse)
    ensures GetItem(SaveSession(m, response), TokenKey) == Some(response.token)
    ensures GetItem(SaveSession(m, response), PhoneKey) == Some(response.phoneNumber)
    ensures forall k :: k != TokenKey && k != PhoneKey ==> GetItem(SaveSession(m, response), k) == GetItem(m, k)
    ensures TokenPresent(SaveSession(m, response)) <==> response.token != ""
  {
    assert TokenKey != PhoneKey;
  }

  /** A second verification replaces the first session entirely: one session at a time. */
  lemma SaveSessionOverwrites(m: Storage, first: AuthResponse, second: AuthResponse)
    ensures SaveSession(SaveSession(m, first), second) == SaveSession(m, second)
  {
    var a := SaveSession(SaveSession(m, first), second);
    var b := SaveSession(m, second);
    assert a.Keys == b.Keys;
    forall k | k in a ensures a[k] == b[k] {
      assert TokenKey != PhoneKey;
    }
  }

  /** After logout neither key is stored, nothing else changed, and there is no token. */
  lemma ClearSessionRemoves(m: Storage)
    ensures GetItem(ClearSession(m), TokenKey) == None && GetItem(ClearSession(m), PhoneKey) == None
    ensures forall k :: k != TokenKey && k != PhoneKey ==> GetItem(ClearSession(m), k) == GetItem(m, k)
    ensures !TokenPresent(ClearSession(m))
  {
  }

  /** Logging out twice is logging out once. */
  lemma ClearSessionIdempotent(m: Storage)
    ensures ClearSession(ClearSession(m)) == ClearSession(m)
  {
  }

  /** Verifying and then logging out leaves the store as logging out alone would. */
  lemma ClearUndoesSave(m: Storage, response: AuthResponse)
    ensures ClearSession(SaveSession(m, response)) == ClearSession(m)
  {
    var a := ClearSession(SaveSession(m, response));
    var b := ClearSession(m);
    assert a.Keys == b.Keys;
  }

  /** The body of the verification request. */
  datatype VerificationRequest = VerificationRequest(phoneNumber: string, otp: string)

  class AuthService {
    var storage: Storage
    /** The current value of the authenticated-state subject. */
    var authenticated: bool

    /** The subject starts from whatever token the page already holds. */
    constructor (storage: Storage)
      ensures this.storage == storage
      ensures authenticated == TokenPresent(storage)
    {
      this.storage := storage;
      authenticated := TokenPresent(storage);
    }

    /** The published flag agrees with what `isAuthenticated()` computes. */
    predicate FlagAgrees()
      reads this
    {
      authenticated == TokenPresent(storage)
    }

    /** `getToken()`: the stored token, or None. */
    function GetToken(): (r: Option<string>)
      reads this
      ensures r.Some? <==> TokenKey in storage
      ensures r.Some? ==> r.value == storage[TokenKey]
    {
      GetItem(storage, TokenKey)
    }

    /** `getPhoneNumber()`: the stored phone number, or None. */
    function GetPhoneNumber(): (r: Option<string>)
      reads this
      ensures r.Some? <==> PhoneKey in storage
      ensures r.Some? ==> r.value == storage[PhoneKey]
    {
      GetItem(storage, PhoneKey)
    }

    /** `hasToken()`, which is also `isAuthenticated()`. */
    function HasToken(): (r: bool)
      reads this
      ensures r <==> GetToken().Some? && GetToken().value != ""
    {
      TokenPresent(storage)
    }

    /** `requestOTP`: posts the phone number and hands back the backend's reply; the store
        is not touched (nothing is modified). */
    method RequestOTP(phoneNumber: string, reply: Outcome<OtpResponse>)
      returns (sent: string, result: Outcome<OtpResponse>)
      ensures sent == phoneNumber && result == reply
    {
      sent := phoneNumber;
      result := reply;
    }

    /** `verifyOTP`: on success the response's token and phone number are stored (not the
        phone number passed in) and the flag is raised; on failure nothing changes. */
    method VerifyOTP(phoneNumber: string, otp: string, reply: Outcome<AuthResponse>)
      returns (sent: VerificationRequest, result: Outcome<AuthResponse>)
      modifies this
      ensures sent == VerificationRequest(phoneNumber, otp) && result == reply
      ensures reply.Ok? ==> storage == SaveSession(old(storage), reply.value) && authenticated
      ensures reply.Ok? ==> (FlagAgrees() <==> reply.value.token != "")
      ensures reply.Err? ==> storage == old(storage) && authenticated == old(authenticated)
    {
      sent := VerificationRequest(phoneNumber, otp);
      result := reply;
      match reply
      case Ok(response) =>
        storage := storage[TokenKey := response.token];
        storage := storage[PhoneKey := response.phoneNumber];
        authenticated := true;
        SaveSessionStores(old(storage), response);
      case Err =>
    }

    method Logout()
      modifies this
      ensures storage == ClearSession(old(storage)) && !authenticated
      ensures FlagAgrees()
    {
      storage := storage - {TokenKey};
      storage := storage - {PhoneKey};
      authenticated := false;
      assert storage == ClearSession(old(storage));
    }
  }
}
