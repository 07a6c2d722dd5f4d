/** The sign-in sheet: a phone field that keeps at most ten digits, six
    one-digit code boxes that also accept a pasted code, a 30-second resend
    countdown, and the handlers that call the sign-in hook and raise toasts.
    Focus moves and animations are not modelled. */
module AuthModal {
  import opened Util
  import opened Text
  import opened Auth
  import opened ToastStore
  import opened UIStore
  import opened UserStore

  const BoxCount := 6
  const ResendSeconds := 30

  /** Six empty boxes. */
  const EmptyBoxes: seq<string> := ["", "", "", "", "", ""]

  /** The phone field's filter: the digits of what was typed, at most ten. */
  function SanitizePhone(value: string): (r: string)
    ensures AllDigits(r) && |r| <= 10
    ensures |r| <= |DigitsOf(value)| && r == DigitsOf(value)[..|r|]
    ensures |r| == 10 <==> |DigitsOf(value)| >= 10
  {
    Prefix(DigitsOf(value), 10)
  }

  /** Filtering a filtered phone changes nothing. */
  lemma SanitizeIdempotent(value: string)
    ensures SanitizePhone(SanitizePhone(value)) == SanitizePhone(value)
  {
    DigitsOfDigits(SanitizePhone(value));
  }

  /** The code the boxes spell: `otp.join('')`. */
  function Join(boxes: seq<string>): string {
    if boxes == [] then "" else boxes[0] + Join(boxes[1..])
  }

  /** Boxes that hold at most one character each join to one character per
      box exactly when every box is filled. */
  lemma {:induction false} JoinFull(boxes: seq<string>)
    requires forall i :: 0 <= i < |boxes| ==> |boxes[i]| <= 1
    ensures |Join(boxes)| <= |boxes|
    ensures |Join(boxes)| == |boxes| <==> forall i :: 0 <= i < |boxes| ==> |boxes[i]| == 1
  {
    if boxes != [] {
      var tail := boxes[1..];
      assert forall i :: 0 <= i < |tail| ==> tail[i] == boxes[i + 1];
      JoinFull(tail);
      if |Join(boxes)| == |boxes| {
        forall i | 0 <= i < |boxes| ensures |boxes[i]| == 1 {
          if i > 0 { assert boxes[i] == tail[i - 1]; }
        }
      }
    }
  }

  /** Boxes holding one character each spell those characters. */
  lemma {:induction false} JoinSingles(boxes: seq<string>, s: string)
    requires |boxes| == |s|
    requires forall i :: 0 <= i < |s| ==> boxes[i] == [s[i]]
    ensures Join(boxes) == s
  {
    if s != [] {
      var tail := boxes[1..];
      assert forall i :: 0 <= i < |s[1..]| ==> tail[i] == boxes[i + 1];
      JoinSingles(tail, s[1..]);
      assert s == [s[0]] + s[1..];
    }
  }

  /** The boxes after a paste of `digits` (at most six): box i takes digit i,
      the boxes past the digits keep their contents. */
  function Pasted(boxes: seq<string>, digits: string): (r: seq<string>)
    requires |boxes| == BoxCount && |digits| <= BoxCount
    ensures |r| == BoxCount
  {
    seq(BoxCount, (i: int) requires 0 <= i < BoxCount => if i < |digits| then [digits[i]] else boxes[i])
  }

  /** What a paste does with the sanitised code: pasting six or more digits
      fills every box, and the boxes then spell the first six. */
  lemma PasteOfSix(boxes: seq<string>, value: string)
    requires |boxes| == BoxCount && |DigitsOf(value)| >= BoxCount
    ensures var digits := Prefix(DigitsOf(value), BoxCount);
      Join(Pasted(boxes, digits)) == DigitsOf(value)[..BoxCount]
  {
    var digits := Prefix(DigitsOf(value), BoxCount);
    JoinSingles(Pasted(boxes, digits), digits);
  }

  /** Every box holds at most one digit. */
  predicate BoxesOk(boxes: seq<string>) {
    |boxes| == BoxCount && forall i :: 0 <= i < |boxes| ==> |boxes[i]| <= 1 && AllDigits(boxes[i])
  }

  lemma EmptyBoxesOk()
    ensures BoxesOk(EmptyBoxes) && Join(EmptyBoxes) == ""
  {
    assert forall i :: 0 <= i < |EmptyBoxes| ==> EmptyBoxes[i] == "";
  }

  /** A paste of at most six digits keeps every box to one digit at most. */
  lemma PastedOk(boxes: seq<string>, digits: string)
    requires BoxesOk(boxes) && |digits| <= BoxCount && AllDigits(digits)
    ensures BoxesOk(Pasted(boxes, digits))
  {
    var r := Pasted(boxes, digits);
    forall i | 0 <= i < BoxCount ensures |r[i]| <= 1 && AllDigits(r[i]) {
      if i < |digits| {
        assert r[i] == [digits[i]];
      }
    }
  }

  /** A typed character, without its non-digits, keeps every box to one digit at most. */
  lemma TypedOk(boxes: seq<string>, index: nat, value: string)
    requires BoxesOk(boxes) && index < BoxCount && |value| <= 1
    ensures BoxesOk(boxes[index := DigitsOf(value)])
  {
    assert |DigitsOf(value)| <= |value|;
  }

  /** A single character outside the Basic Multilingual Plane, typed over a
      box, is two code units long: it takes the paste branch, which finds no
      digit and leaves every box as it was. */
  lemma AstralCharacterKeepsBoxes(boxes: seq<string>)
    requires |boxes| == BoxCount
    ensures JsLength("\U{1F600}") == 2
    ensures Pasted(boxes, Prefix(DigitsOf("\U{1F600}"), BoxCount)) == boxes
  {
    assert !IsDigit('\U{1F600}');
    assert DigitsOf("\U{1F600}") == [];
  }

  /** The verify guard passes on well-formed boxes exactly when all six are filled. */
  lemma GuardMeansAllFilled(boxes: seq<string>)
    requires BoxesOk(boxes)
    ensures |Join(boxes)| == BoxCount <==> forall i :: 0 <= i < BoxCount ==> |boxes[i]| == 1
  {
    JoinFull(boxes);
  }

  /** `n` ticks of the countdown from `t`. */
  function Ticks(t: int, n: nat): int {
    if n == 0 then t else Ticks(if t > 0 then t - 1 else t, n - 1)
  }

  /** The countdown falls by one per tick and stops at zero, so resending is
      possible again thirty ticks after a send. */
  lemma {:induction false} TicksSpec(t: int, n: nat)
    requires t >= 0
    ensures Ticks(t, n) == if t > n then t - n else 0
  {
    if n > 0 {
      TicksSpec(if t > 0 then t - 1 else t, n - 1);
    }
  }

  lemma ResendAfterThirty()
    ensures Ticks(ResendSeconds, ResendSeconds) == 0
    ensures forall n: nat :: n < ResendSeconds ==> Ticks(ResendSeconds, n) > 0
  {
    forall n: nat | n < ResendSeconds ensures Ticks(ResendSeconds, n) > 0 {
      TicksSpec(ResendSeconds, n);
    }
    TicksSpec(ResendSeconds, ResendSeconds);
  }

  class AuthSheet {
    var phoneNumber: string
    var otp: seq<string>
    var resendTimer: int

    ghost predicate Valid()
      reads this
    {
      AllDigits(phoneNumber) && |phoneNumber| <= 10 && BoxesOk(otp) && resendTimer >= 0
    }

    constructor()
      ensures phoneNumber == "" && otp == EmptyBoxes && resendTimer == 0
      ensures Valid()
    {
      phoneNumber := "";
      otp := EmptyBoxes;
      resendTimer := 0;
    }

    /** The phone field's change handler. */
    method SetPhoneNumber(value: string)
      modifies this
      ensures phoneNumber == SanitizePhone(value)
      ensures otp == old(otp) && resendTimer == old(resendTimer)
      ensures old(Valid()) ==> Valid()
    {
      phoneNumber := Prefix(DigitsOf(value), 10);
    }

    /** The countdown effect, one second later. */
    method Tick()
      modifies this
      ensures resendTimer == Ticks(old(resendTimer), 1)
      ensures phoneNumber == old(phoneNumber) && otp == old(otp)
      ensures old(Valid()) ==> Valid()
    {
      if resendTimer > 0 {
        resendTimer := resendTimer - 1;
      }
    }

    /** `handleOtpChange(index, value)` for the box `index`. A value longer
        than one UTF-16 code unit is a paste: its first six digits go into the boxes
        from the first one on, whichever box received it. Otherwise the box
        takes the value without its non-digits. */
    method HandleOtpChange(index: nat, value: string)
      requires index < BoxCount && |otp| == BoxCount
      modifies this
      ensures JsLength(value) > 1 ==> otp == Pasted(old(otp), Prefix(DigitsOf(value), BoxCount))
      ensures JsLength(value) <= 1 ==> otp == old(otp)[index := DigitsOf(value)]
      ensures phoneNumber == old(phoneNumber) && resendTimer == old(resendTimer)
      ensures old(Valid()) ==> Valid()
    {
      if JsLength(value) > 1 {
        var digits := Prefix(DigitsOf(value), BoxCount);
        var boxes := otp;
        var i := 0;
        while i < |digits|
          invariant 0 <= i <= |digits|
          invariant |boxes| == BoxCount
          invariant forall j :: 0 <= j < BoxCount ==> boxes[j] == if j < i then [digits[j]] else old(otp)[j]
        {
          boxes := boxes[i := [digits[i]]];
          i := i + 1;
        }
        assert boxes == Pasted(old(otp), digits);
        if BoxesOk(old(otp)) {
          PastedOk(old(otp), digits);
        }
        otp := boxes;
        return;
      }
      if BoxesOk(otp) {
        TypedOk(otp, index, value);
      }
      otp := otp[index := DigitsOf(value)];
    }

    /** `handleSendOTP`: a phone of other than ten digits is refused with a
        toast and the hook is not called; otherwise a sent code starts the
        countdown, and either way a toast reports the outcome. */
    method HandleSendOTP(auth: AuthSession, toasts: Toasts, outcome: SendOutcome, now: int)
      modifies this, auth, toasts
      ensures phoneNumber == old(phoneNumber) && otp == old(otp)
      ensures |phoneNumber| != 10 ==>
        auth.State() == old(auth.State()) && resendTimer == old(resendTimer)
        && toasts.toasts == Raised(old(toasts.toasts), now, "Please enter a valid 10-digit phone number", Some(Error))
      ensures |phoneNumber| == 10 ==>
        auth.State() == AfterSend(old(auth.State()), outcome)
        && resendTimer == (if outcome.Sent? then ResendSeconds else old(resendTimer))
        && toasts.toasts == Raised(old(toasts.toasts), now,
             if outcome.Sent? then "OTP sent to your phone" else SendReply(outcome).message,
             Some(if outcome.Sent? then Success else Error))
      ensures old(Valid()) ==> Valid()
      ensures old(auth.Valid()) ==> auth.Valid()
    {
      if |phoneNumber| != 10 {
        toasts.AddToast("Please enter a valid 10-digit phone number", Some(Error), now);
        return;
      }
      var r, _ := auth.SendOTP(phoneNumber, outcome);
      assert r.success <==> outcome.Sent?;
      if r.success {
        resendTimer := ResendSeconds;
        toasts.AddToast("OTP sent to your phone", Some(Success), now);
      } else {
        toasts.AddToast(r.message, Some(Error), now);
      }
    }

    /** `handleVerifyOTP`: boxes that do not spell six characters are refused
        with a toast; otherwise a rejected code is reported and every box is
        cleared. */
    method HandleVerifyOTP(auth: AuthSession, toasts: Toasts, outcome: VerifyOutcome, now: int)
      modifies this, auth, toasts
      ensures phoneNumber == old(phoneNumber) && resendTimer == old(resendTimer)
      ensures |Join(old(otp))| != BoxCount ==>
        auth.State() == old(auth.State()) && otp == old(otp)
        && toasts.toasts == Raised(old(toasts.toasts), now, "Please enter the complete OTP", Some(Error))
      ensures |Join(old(otp))| == BoxCount ==>
        var reply := VerifyReplyOf(old(auth.State()), outcome);
        auth.State() == AfterVerify(old(auth.State()), outcome)
        && (reply.Verified? ==> otp == old(otp) && toasts.toasts == old(toasts.toasts))
        && (reply.NotVerified? ==>
              otp == EmptyBoxes && toasts.toasts == Raised(old(toasts.toasts), now, reply.message, Some(Error)))
      ensures old(Valid()) ==> Valid()
      ensures old(auth.Valid()) ==> auth.Valid()
    {
      var code := Join(otp);
      if |code| != BoxCount {
        toasts.AddToast("Please enter the complete OTP", Some(Error), now);
        return;
      }
      var r := auth.VerifyOTP(code, outcome);
      if r.NotVerified? {
        EmptyBoxesOk();
        toasts.AddToast(r.message, Some(Error), now);
        otp := EmptyBoxes;
      }
    }

    /** `handleResendOTP`: nothing while the countdown runs; otherwise the
        code is sent again without the length check, and a sent code restarts
        the countdown, clears the boxes and raises a toast. A failed resend
        raises no toast. */
    method HandleResendOTP(auth: AuthSession, toasts: Toasts, outcome: SendOutcome, now: int)
      modifies this, auth, toasts
      ensures phoneNumber == old(phoneNumber)
      ensures old(resendTimer) > 0 ==>
        auth.State() == old(auth.State()) && otp == old(otp) && resendTimer == old(resendTimer)
        && toasts.toasts == old(toasts.toasts)
      ensures old(resendTimer) <= 0 ==>
        auth.State() == AfterSend(old(auth.State()), outcome)
        && (outcome.Sent? ==>
              resendTimer == ResendSeconds && otp == EmptyBoxes
              && toasts.toasts == Raised(old(toasts.toasts), now, "New OTP sent", Some(Success)))
        && (!outcome.Sent? ==>
              resendTimer == old(resendTimer) && otp == old(otp) && toasts.toasts == old(toasts.toasts))
      ensures old(Valid()) ==> Valid()
      ensures old(auth.Valid()) ==> auth.Valid()
    {
      if resendTimer > 0 {
        return;
      }
      var r, _ := auth.SendOTP(phoneNumber, outcome);
      assert r.success <==> outcome.Sent?;
      if r.success {
        EmptyBoxesOk();
        resendTimer := ResendSeconds;
        otp := EmptyBoxes;
        toasts.AddToast("New OTP sent", Some(Success), now);
      }
    }

    /** `handleClose`: the sheet closes, the hook is reset, and the phone and
        all six boxes are emptied. */
    method HandleClose(ui: UI, auth: AuthSession)
      modifies this, auth, ui`isAuthModalOpen
      ensures !ui.isAuthModalOpen
      ensures auth.State() == AfterReset(old(auth.State()))
      ensures phoneNumber == "" && otp == EmptyBoxes && resendTimer == old(resendTimer)
      ensures old(Valid()) ==> Valid()
      ensures old(auth.Valid()) ==> auth.Valid()
    {
      ui.CloseAuthModal();
      auth.ResetAuth();
      EmptyBoxesOk();
      phoneNumber := "";
      otp := EmptyBoxes;
    }

    /** The "Change phone number" button on the code step: the hook is reset,
        which returns the sheet to the phone step, and the six boxes are
        emptied. The phone and the countdown are kept. */
    method HandleChangeNumber(auth: AuthSession)
      modifies this, auth
      ensures auth.State() == AfterReset(old(auth.State()))
      ensures otp == EmptyBoxes && phoneNumber == old(phoneNumber) && resendTimer == old(resendTimer)
      ensures old(Valid()) ==> Valid()
      ensures old(auth.Valid()) ==> auth.Valid()
    {
      auth.ResetAuth();
      EmptyBoxesOk();
      otp := EmptyBoxes;
    }
  }

  /** The sign-in effect: once a user is present while the sheet is open, a
      toast greets them, their phone number is merged into the preferences,
      the sheet closes and the hook is reset. */
  method OnAuthenticated(ui: UI, user: User, auth: AuthSession, toasts: Toasts, now: int)
    modifies ui`isAuthModalOpen, user, auth, toasts
    ensures !(IsAuthenticated(old(auth.State())) && old(ui.isAuthModalOpen)) ==>
      ui.isAuthModalOpen == old(ui.isAuthModalOpen) && user.preferences == old(user.preferences)
      && auth.State() == old(auth.State()) && toasts.toasts == old(toasts.toasts)
    ensures IsAuthenticated(old(auth.State())) && old(ui.isAuthModalOpen) ==>
      !ui.isAuthModalOpen
      && user.preferences == Merge(old(user.preferences), ProfilePatch(None, Some(old(auth.user).value.phoneNumber), None))
      && auth.State() == AfterReset(old(auth.State()))
      && toasts.toasts == Raised(old(toasts.toasts), now, "Successfully logged in!", Some(Success))
    ensures user.user == old(user.user) && user.isLoggedIn == old(user.isLoggedIn)
    ensures user.hasSeenWelcome == old(user.hasSeenWelcome) && user.orderHistory == old(user.orderHistory)
    ensures old(user.Valid()) ==> user.Valid()
    ensures old(auth.Valid()) ==> auth.Valid()
  {
    if auth.user.Some? && ui.isAuthModalOpen {
      toasts.AddToast("Successfully logged in!", Some(Success), now);
      user.UpdatePreferences(ProfilePatch(None, Some(auth.user.value.phoneNumber), None));
      ui.CloseAuthModal();
      auth.ResetAuth();
    }
  }
}
