/**
 * The email verification screen: the OTP resend cooldown, the resend button, the resend
 * handler and the verify submission.
 */
module VerifyEmail {
  import opened Js
  import opened Api
  import opened Ui

  /** Seconds the resend button stays disabled after a successful resend. */
  const ResendCooldown: nat := 30

  const LoginRoute := "/account/login"
  const RedirectDelayMs: nat := 2000

  const InvalidEmailMessage := "Please enter a valid email address"
  const ResendSentMessage := "New OTP sent successfully"
  const ResendFailedMessage := "Failed to resend OTP"
  const VerifyFailedMessage := "Verification failed"

  /** The cooldown after `ticks` one-second interval callbacks, each decrementing while above 0. */
  function Countdown(cooldown: nat, ticks: nat): (c: nat)
    ensures c <= cooldown
    ensures ticks >= cooldown ==> c == 0
  {
    if ticks == 0 then cooldown
    else Countdown(if cooldown > 0 then cooldown - 1 else 0, ticks - 1)
  }

  /** The cooldown falls by one per tick and stops at 0. */
  lemma {:induction false} CountdownValue(cooldown: nat, ticks: nat)
    ensures Countdown(cooldown, ticks) == if ticks < cooldown then cooldown - ticks else 0
  {
    if ticks > 0 {
      CountdownValue(if cooldown > 0 then cooldown - 1 else 0, ticks - 1);
    }
  }

  /** `disabled={cooldown > 0 || isResending}` */
  predicate ResendDisabled(cooldown: nat, isResending: bool)
  {
    cooldown > 0 || isResending
  }

  /**
   * The resend button's label: plain "Resend OTP" exactly when the button can be pressed,
   * "Sending..." while resending, and otherwise "Resend OTP (Ns)" where the digits N read back
   * as the cooldown.
   */
  function ResendLabel(cooldown: nat, isResending: bool): (text: string)
    ensures text == "Resend OTP" <==> !ResendDisabled(cooldown, isResending)
    ensures isResending ==> text == "Sending..."
    ensures !isResending && cooldown > 0 ==>
              && |text| > 14 && text[..12] == "Resend OTP (" && text[|text| - 2..] == "s)"
              && AllDigits(text[12..|text| - 2]) && ValueOf(text[12..|text| - 2]) == cooldown
              && (|text| > 15 ==> text[12] != '0')
  {
    var sending := "Sending...";
    assert sending[0] != "Resend OTP"[0];
    if isResending then sending
    else if cooldown > 0 then
      var counting := "Resend OTP (" + Decimal(cooldown) + "s)";
      assert counting[12..|counting| - 2] == Decimal(cooldown);
      ValueOfDecimal(cooldown);
      counting
    else "Resend OTP"
  }

  /** The counting label shows the remaining seconds: different counts read differently. */
  lemma ResendLabelShowsCooldown(a: nat, b: nat)
    requires a > 0 && b > 0
    requires ResendLabel(a, false) == ResendLabel(b, false)
    ensures a == b
  {
    var la, lb := ResendLabel(a, false), ResendLabel(b, false);
    assert la[12..|la| - 2] == Decimal(a);
    assert lb[12..|lb| - 2] == Decimal(b);
    DecimalInjective(a, b);
  }

  /** After a successful resend, the button is disabled until the 30th tick. */
  lemma CooldownBlocksResend(ticks: nat)
    ensures ResendDisabled(Countdown(ResendCooldown, ticks), false) <==> ticks < ResendCooldown
  {
    CountdownValue(ResendCooldown, ticks);
  }

  /** `!formik.values.email || formik.errors.email` */
  predicate EmailRejected(email: string, emailError: Option<string>)
  {
    email == "" || (emailError.Some? && emailError.value != "")
  }

  /** The effect of the resend request's outcome on the message. */
  function ResendMessage(result: MutationResult): (m: Message)
    ensures m.kind == Success <==> result.Fulfilled?
    ensures result.Rejected? ==> m.kind == Error
    ensures result.Fulfilled? ==> m.content == ResendSentMessage
    ensures result.Rejected? && result.error.data.Some? && result.error.data.value.message.Some?
            && result.error.data.value.message.value != "" ==>
              m.content == result.error.data.value.message.value
    ensures result.Rejected? && (result.error.data.None? || result.error.data.value.message.None?
                                 || result.error.data.value.message.value == "") ==>
              m.content == ResendFailedMessage
    ensures m.content != ""
  {
    match Unwrap(result)
    case None => Message(Success, ResendSentMessage)
    case Some(t) => Message(Error, Or(DataMessageOf(t), ResendFailedMessage))
  }

  /** The verify submission as intended: the server's message on success or failure. */
  function VerifyReaction(result: MutationResult): (r: Reaction)
    ensures r.navigation.Some? <==> result.Fulfilled?
    ensures r.navigation.Some? ==> r.navigation.value == Navigation(LoginRoute, RedirectDelayMs)
    ensures result.Fulfilled? ==> r.message == Message(Success, MessageText(result.data))
    ensures result.Rejected? ==> r.message.kind == Error && r.message.content != ""
    ensures result.Rejected? && result.error.data.Some? && result.error.data.value.message.Some?
            && result.error.data.value.message.value != "" ==>
              r.message.content == result.error.data.value.message.value
    ensures result.Rejected? && (result.error.data.None? || result.error.data.value.message.None?
                                 || result.error.data.value.message.value == "") ==>
              r.message.content == VerifyFailedMessage
  {
    VerifyReactionOn(result, Unwrap(result))
  }

  /**
   * The verify submission as written: `const { data } = await verifyEmail(values)` is not
   * unwrapped, so on an error result the read of `data.message` throws a TypeError and the
   * server's message is lost.
   */
  function VerifyReactionAsWritten(result: MutationResult): (r: Reaction)
    ensures result.Rejected? ==> r == Reaction(Message(Error, VerifyFailedMessage), None)
    ensures result.Fulfilled? ==> r == VerifyReaction(result)
  {
    VerifyReactionOn(result, DestructureAndReadMessage(result))
  }

  /** The body of `onSubmit`, given what its `try` block throws. */
  function VerifyReactionOn(result: MutationResult, thrown: Option<Thrown>): (r: Reaction)
    requires thrown.None? ==> result.Fulfilled?
    ensures r.navigation.Some? <==> thrown.None?
    ensures thrown.None? ==>
              r == Reaction(Message(Success, MessageText(result.data)), Some(Navigation(LoginRoute, RedirectDelayMs)))
    ensures thrown.Some? ==> r.message.kind == Error && r.message.content != ""
    ensures thrown.Some? && DataMessageOf(thrown.value).Some? && DataMessageOf(thrown.value).value != "" ==>
              r.message.content == DataMessageOf(thrown.value).value
    ensures thrown.Some? && (DataMessageOf(thrown.value).None? || DataMessageOf(thrown.value).value == "") ==>
              r.message.content == VerifyFailedMessage
  {
    match thrown
    case None => Reaction(Message(Success, MessageText(result.data)), Some(Navigation(LoginRoute, RedirectDelayMs)))
    case Some(t) => Reaction(Message(Error, Or(DataMessageOf(t), VerifyFailedMessage)), None)
  }

  /** A rejected OTP with the server's explanation: the screen shows only the generic fallback. */
  lemma VerifyHidesServerMessage()
    ensures var result := Rejected(ErrorPayload(Some(400), Some(ErrorBody(Some("Invalid OTP")))));
            VerifyReactionAsWritten(result).message.content == VerifyFailedMessage
            && VerifyReaction(result).message.content == "Invalid OTP"
  {
  }

  class VerifyEmailPage {
    var cooldown: nat
    var message: Message
    /** The navigation a `setTimeout` has scheduled, if any. */
    var navigation: Option<Navigation>

    constructor ()
      ensures cooldown == 0 && message == NoMessage && navigation.None?
    {
      cooldown := 0;
      message := NoMessage;
      navigation := None;
    }

    /** One callback of the interval the effect runs while `cooldown > 0`. */
    method Tick()
      modifies this`cooldown
      ensures cooldown == Countdown(old(cooldown), 1)
      ensures old(cooldown) == 0 ==> cooldown == 0
    {
      if cooldown > 0 {
        cooldown := cooldown - 1;
      }
    }

    /**
     * `handleResendOTP`: refuse without a valid email; otherwise send the request, and start the
     * cooldown only when it succeeds. Returns the email the request was sent for, if one was.
     */
    method HandleResendOtp(email: string, emailError: Option<string>, result: MutationResult)
      returns (request: Option<string>)
      modifies this`cooldown, this`message
      ensures EmailRejected(email, emailError) ==>
                request.None? && cooldown == old(cooldown) && message == Message(Error, InvalidEmailMessage)
      ensures !EmailRejected(email, emailError) ==> request == Some(email) && message == ResendMessage(result)
      ensures !EmailRejected(email, emailError) ==>
                cooldown == if result.Fulfilled? then ResendCooldown else old(cooldown)
    {
      if EmailRejected(email, emailError) {
        message := Message(Error, InvalidEmailMessage);
        return None;
      }
      request := Some(email);
      message := ResendMessage(result);
      if Unwrap(result).None? {
        cooldown := ResendCooldown;
      }
    }

    /**
     * The verify form's `onSubmit`, settling as `result`, with the result unwrapped as intended
     * (`VerifyReactionAsWritten` is the handler as written).
     */
    method OnSubmit(result: MutationResult)
      modifies this`message, this`navigation
      ensures message == VerifyReaction(result).message
      ensures navigation == if result.Fulfilled? then VerifyReaction(result).navigation else old(navigation)
    {
      var reaction := VerifyReaction(result);
      message := reaction.message;
      if reaction.navigation.Some? {
        navigation := reaction.navigation;
      }
    }
  }
}
