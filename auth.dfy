/** The phone-number sign-in hook: it normalises the number to the `+91`
    form, maps the identity provider's error codes to messages, and keeps the
    flags `loading`, `error`, `verificationId` and `isOtpSent` beside the
    signed-in user. The provider's answers (a code was sent, the code was
    confirmed, an error code) are parameters. */
module Auth {
  import opened Util
  import opened Text

  /** The signed-in user; a user without a phone number carries `""`. */
  datatype AuthUser = AuthUser(phoneNumber: string)

  // ---------------------------------------------------------------------------
  // Phone normalisation

  /** `s.replace(/^0+/, '')`: the run of leading zeros removed. */
  function StripLeadingZeros(s: string): (r: string)
    ensures |r| <= |s| && r == s[|s| - |r|..]
    ensures forall i :: 0 <= i < |s| - |r| ==> s[i] == '0'
    ensures r == [] || r[0] != '0'
  {
    if s != [] && s[0] == '0' then StripLeadingZeros(s[1..]) else s
  }

  /** The number handed to the provider: kept when it starts with `+`,
      otherwise the country code `+91` and the number without leading zeros. */
  function FormatPhone(phoneNumber: string): (r: string)
    ensures StartsWith(r, "+")
    ensures StartsWith(phoneNumber, "+") ==> r == phoneNumber
    ensures !StartsWith(phoneNumber, "+") ==> |r| >= 3 && r[..3] == "+91" && r[3..] == StripLeadingZeros(phoneNumber)
  {
    if StartsWith(phoneNumber, "+") then phoneNumber
    else
      var r := "+91" + StripLeadingZeros(phoneNumber);
      assert r[..3] == "+91" && r[..1] == "+";
      r
  }

  /** Normalising a normalised number changes nothing. */
  lemma FormatPhoneIdempotent(phoneNumber: string)
    ensures FormatPhone(FormatPhone(phoneNumber)) == FormatPhone(phoneNumber)
  {
  }

  /** A national number without a leading zero gets only the country code in
      front; a leading zero (a trunk prefix) is dropped, so `"0987654321"` is
      sent as the nine-digit national number `+91987654321`. */
  lemma FormatLocalNumber(phoneNumber: string)
    requires AllDigits(phoneNumber) && phoneNumber != [] && phoneNumber[0] != '0'
    ensures FormatPhone(phoneNumber) == "+91" + phoneNumber
    ensures |FormatPhone(phoneNumber)| == |phoneNumber| + 3
  {
    assert !StartsWith(phoneNumber, "+") by {
      assert IsDigit(phoneNumber[0]);
    }
  }

  lemma FormatTrunkPrefix()
    ensures FormatPhone("0987654321") == "+91987654321"
  {
    assert !StartsWith("0987654321", "+") by {
      assert "0987654321"[0] == '0';
    }
    assert "0987654321"[1..] == "987654321";
    assert StripLeadingZeros("987654321") == "987654321";
  }

  // ---------------------------------------------------------------------------
  // Error messages

  const SendDefault := "Failed to send OTP. Please try again."

  /** The fixed message for each send-OTP error code the hook recognises. */
  const SendErrorTexts: map<string, string> := map[
    "auth/invalid-phone-number" := "Invalid phone number. Please enter a valid number.",
    "auth/too-many-requests" := "Too many attempts. Please try again later.",
    "auth/quota-exceeded" := "SMS quota exceeded. Please try again later.",
    "auth/operation-not-allowed" := "Phone authentication is not enabled. Please contact support.",
    "auth/invalid-api-key" := "Configuration error. Please contact support.",
    "auth/unauthorized-domain" := "This domain is not authorized. Please contact support."
  ]

  /** The `sendOTP` catch block: the error's `code` (absent for a plain
      error) and `message` become the message shown. */
  function SendErrorMessage(code: Option<string>, message: string): (r: string)
    ensures r != ""
    ensures code.Some? && code.value in SendErrorTexts ==> r == SendErrorTexts[code.value]
    ensures (code.None? || code.value !in SendErrorTexts) && message != "" ==> r == message
    ensures (code.None? || code.value !in SendErrorTexts) && message == "" ==> r == SendDefault
  {
    if code == Some("auth/invalid-phone-number") then "Invalid phone number. Please enter a valid number."
    else if code == Some("auth/too-many-requests") then "Too many attempts. Please try again later."
    else if code == Some("auth/quota-exceeded") then "SMS quota exceeded. Please try again later."
    else if code == Some("auth/operation-not-allowed") then "Phone authentication is not enabled. Please contact support."
    else if code == Some("auth/invalid-api-key") then "Configuration error. Please contact support."
    else if code == Some("auth/unauthorized-domain") then "This domain is not authorized. Please contact support."
    else if message != "" then message
    else SendDefault
  }

  const VerifyDefault := "Invalid OTP. Please try again."

  const VerifyErrorTexts: map<string, string> := map[
    "auth/invalid-verification-code" := "Invalid OTP. Please check and try again.",
    "auth/code-expired" := "OTP expired. Please request a new one."
  ]

  /** The `verifyOTP` catch block: only two codes change the default message;
      the error's own message is never shown. */
  function VerifyErrorMessage(code: Option<string>): (r: string)
    ensures code.Some? && code.value in VerifyErrorTexts ==> r == VerifyErrorTexts[code.value]
    ensures code.None? || code.value !in VerifyErrorTexts ==> r == VerifyDefault
  {
    if code == Some("auth/invalid-verification-code") then "Invalid OTP. Please check and try again."
    else if code == Some("auth/code-expired") then "OTP expired. Please request a new one."
    else VerifyDefault
  }

  // ---------------------------------------------------------------------------
  // The hook's state and its transitions

  /** What the provider did with a send request: sent a code under a
      verification id, or failed with an error. `NoRecaptcha` is the
      challenge widget that could not be set up, which the hook turns into a
      plain error with the message "Failed to setup reCAPTCHA". */
  datatype SendOutcome =
    | Sent(verificationId: string)
    | SendRejected(code: Option<string>, message: string)
    | NoRecaptcha

  /** What the provider did with a code: confirmed it for a user, or
      rejected it with an error code. */
  datatype VerifyOutcome = Confirmed(user: AuthUser) | VerifyRejected(code: Option<string>)

  datatype Reply = Reply(success: bool, message: string)

  datatype VerifyReply = Verified(user: AuthUser) | NotVerified(message: string)

  /** The hook's fields, with `hasConfirmation` for the pending confirmation
      that `sendOTP` keeps on the window. */
  datatype AuthState = AuthState(
    user: Option<AuthUser>, loading: bool, error: Option<string>,
    verificationId: Option<string>, isOtpSent: bool, hasConfirmation: bool)

  const Initial := AuthState(None, false, None, None, false, false)

  /** A code is only ever marked as sent together with its verification id
      and a pending confirmation. */
  predicate Consistent(s: AuthState) {
    s.isOtpSent ==> s.verificationId.Some? && s.hasConfirmation
  }

  /** The message of a failed send. */
  function SendFailure(outcome: SendOutcome): (r: string)
    requires !outcome.Sent?
    ensures r != ""
  {
    match outcome
    case NoRecaptcha => SendErrorMessage(None, "Failed to setup reCAPTCHA")
    case SendRejected(code, message) => SendErrorMessage(code, message)
  }

  lemma NoRecaptchaMessage()
    ensures SendFailure(NoRecaptcha) == "Failed to setup reCAPTCHA"
  {
  }

  /** The state after `sendOTP`. */
  function AfterSend(s: AuthState, outcome: SendOutcome): AuthState {
    if outcome.Sent? then
      s.(loading := false, error := None, verificationId := Some(outcome.verificationId),
         isOtpSent := true, hasConfirmation := true)
    else s.(loading := false, error := Some(SendFailure(outcome)))
  }

  function SendReply(outcome: SendOutcome): Reply {
    if outcome.Sent? then Reply(true, "OTP sent successfully") else Reply(false, SendFailure(outcome))
  }

  /** The state after `verifyOTP`: with no pending confirmation the provider
      is not asked. */
  function AfterVerify(s: AuthState, outcome: VerifyOutcome): AuthState {
    if s.hasConfirmation && outcome.Confirmed? then
      s.(user := Some(outcome.user), loading := false, error := None, isOtpSent := false, hasConfirmation := false)
    else s.(loading := false, error := Some(VerifyFailure(s, outcome)))
  }

  function VerifyFailure(s: AuthState, outcome: VerifyOutcome): string {
    if s.hasConfirmation && outcome.VerifyRejected? then VerifyErrorMessage(outcome.code)
    else VerifyErrorMessage(None)
  }

  function VerifyReplyOf(s: AuthState, outcome: VerifyOutcome): VerifyReply {
    if s.hasConfirmation && outcome.Confirmed? then Verified(outcome.user)
    else NotVerified(VerifyFailure(s, outcome))
  }

  /** The state after `logout`; `signedOut` is whether the provider signed out. */
  function AfterLogout(s: AuthState, signedOut: bool): AuthState {
    if signedOut then s.(user := None, isOtpSent := false, verificationId := None) else s
  }

  /** The state after `resetAuth`. */
  function AfterReset(s: AuthState): AuthState {
    s.(error := None, isOtpSent := false, verificationId := None, hasConfirmation := false)
  }

  /** `isAuthenticated: !!user`. */
  predicate IsAuthenticated(s: AuthState) {
    s.user.Some?
  }

  /** `phoneNumber: user?.phoneNumber || null`. */
  function PhoneNumber(s: AuthState): (r: Option<string>)
    ensures r.Some? <==> IsAuthenticated(s) && s.user.value.phoneNumber != ""
    ensures r.Some? ==> r.value == s.user.value.phoneNumber
  {
    if s.user.Some? && s.user.value.phoneNumber != "" then Some(s.user.value.phoneNumber) else None
  }

  /** Every transition keeps the state consistent, and the initial state is. */
  lemma TransitionsKeepConsistent(s: AuthState, send: SendOutcome, verify: VerifyOutcome, signedOut: bool)
    requires Consistent(s)
    ensures Consistent(Initial)
    ensures Consistent(AfterSend(s, send)) && Consistent(AfterVerify(s, verify))
    ensures Consistent(AfterLogout(s, signedOut)) && Consistent(AfterReset(s))
  {
  }

  /** A sent code marks the OTP as sent and stops loading; a failed send
      leaves the verification untouched and records a non-empty error. */
  lemma SendFlags(s: AuthState, outcome: SendOutcome)
    ensures var t := AfterSend(s, outcome);
      !t.loading && t.user == s.user
      && (outcome.Sent? <==> t.error.None?)
      && (outcome.Sent? ==> t.isOtpSent && t.verificationId == Some(outcome.verificationId))
      && (!outcome.Sent? ==> t.isOtpSent == s.isOtpSent && t.verificationId == s.verificationId
                             && t.error == Some(SendReply(outcome).message) && t.error.value != "")
  {
  }

  /** A code sent and then confirmed signs the user in and clears the OTP
      flag, whatever the state before. */
  lemma SendThenVerify(s: AuthState, id: string, u: AuthUser)
    ensures var t := AfterVerify(AfterSend(s, Sent(id)), Confirmed(u));
      IsAuthenticated(t) && t.user == Some(u) && !t.isOtpSent && !t.loading && t.error.None?
    ensures VerifyReplyOf(AfterSend(s, Sent(id)), Confirmed(u)) == Verified(u)
  {
  }

  /** After `resetAuth` no code can be verified: the reply is the default
      message and the user is as before. */
  lemma VerifyAfterReset(s: AuthState, outcome: VerifyOutcome)
    ensures var t := AfterReset(s);
      VerifyReplyOf(t, outcome) == NotVerified(VerifyDefault)
      && AfterVerify(t, outcome).user == s.user
  {
  }

  /** A rejected code keeps the user and the sent flag and reports the
      mapped message. */
  lemma VerifyRejectedKeepsSession(s: AuthState, code: Option<string>)
    requires s.hasConfirmation
    ensures var t := AfterVerify(s, VerifyRejected(code));
      t.user == s.user && t.isOtpSent == s.isOtpSent && t.verificationId == s.verificationId
      && t.error == Some(VerifyErrorMessage(code))
    ensures VerifyReplyOf(s, VerifyRejected(code)) == NotVerified(VerifyErrorMessage(code))
  {
  }

  /** `resetAuth` does not sign the user out; a successful `logout` does. */
  lemma ResetKeepsUserLogoutDrops(s: AuthState)
    ensures AfterReset(s).user == s.user
    ensures !IsAuthenticated(AfterLogout(s, true)) && PhoneNumber(AfterLogout(s, true)).None?
    ensures AfterLogout(s, false) == s
  {
  }

  class AuthSession {
    var user: Option<AuthUser>
    var loading: bool
    var error: Option<string>
    var verificationId: Option<string>
    var isOtpSent: bool
    var hasConfirmation: bool

    function State(): AuthState
      reads this
    {
      AuthState(user, loading, error, verificationId, isOtpSent, hasConfirmation)
    }

    ghost predicate Valid()
      reads this
    {
      Consistent(State())
    }

    constructor()
      ensures State() == Initial && Valid()
    {
      user := None;
      loading := false;
      error := None;
      verificationId := None;
      isOtpSent := false;
      hasConfirmation := false;
    }

    /** The auth-state listener: the provider reports the current user. */
    method OnAuthStateChanged(current: Option<AuthUser>)
      modifies this
      ensures State() == old(State()).(user := current)
      ensures old(Valid()) ==> Valid()
    {
      user := current;
    }

    /** `sendOTP(phoneNumber)`; `dialled` is the number handed to the provider. */
    method SendOTP(phoneNumber: string, outcome: SendOutcome) returns (r: Reply, dialled: string)
      modifies this
      ensures dialled == FormatPhone(phoneNumber)
      ensures State() == AfterSend(old(State()), outcome)
      ensures r == SendReply(outcome)
      ensures old(Valid()) ==> Valid()
    {
      error := None;
      loading := true;
      dialled := if StartsWith(phoneNumber, "+") then phoneNumber else "+91" + StripLeadingZeros(phoneNumber);
      match outcome
      case Sent(id) =>
        verificationId := Some(id);
        isOtpSent := true;
        loading := false;
        hasConfirmation := true;
        r := Reply(true, "OTP sent successfully");
      case NoRecaptcha =>
        loading := false;
        var message := SendErrorMessage(None, "Failed to setup reCAPTCHA");
        error := Some(message);
        r := Reply(false, message);
      case SendRejected(code, text) =>
        loading := false;
        var message := SendErrorMessage(code, text);
        error := Some(message);
        r := Reply(false, message);
    }

    /** `verifyOTP(otp)`; `outcome` is the provider's verdict on `otp`. */
    method VerifyOTP(otp: string, outcome: VerifyOutcome) returns (r: VerifyReply)
      modifies this
      ensures State() == AfterVerify(old(State()), outcome)
      ensures r == VerifyReplyOf(old(State()), outcome)
      ensures old(Valid()) ==> Valid()
    {
      error := None;
      loading := true;
      if !hasConfirmation {
        loading := false;
        error := Some(VerifyErrorMessage(None));
        return NotVerified(VerifyErrorMessage(None));
      }
      match outcome
      case Confirmed(u) =>
        user := Some(u);
        isOtpSent := false;
        loading := false;
        hasConfirmation := false;
        r := Verified(u);
      case VerifyRejected(code) =>
        loading := false;
        error := Some(VerifyErrorMessage(code));
        r := NotVerified(VerifyErrorMessage(code));
    }

    method Logout(signedOut: bool) returns (r: Reply)
      modifies this
      ensures State() == AfterLogout(old(State()), signedOut)
      ensures r == if signedOut then Reply(true, "") else Reply(false, "Failed to logout")
      ensures old(Valid()) ==> Valid()
    {
      if !signedOut {
        return Reply(false, "Failed to logout");
      }
      user := None;
      isOtpSent := false;
      verificationId := None;
      r := Reply(true, "");
    }

    method ResetAuth()
      modifies this
      ensures State() == AfterReset(old(State()))
      ensures old(Valid()) ==> Valid()
    {
      error := None;
      isOtpSent := false;
      verificationId := None;
      hasConfirmation := false;
    }
  }
}
