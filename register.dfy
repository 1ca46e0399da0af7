/** The registration screen: its initial form values and what a submission shows. */
module Register {
  import opened Js
  import opened Api
  import opened Ui

  datatype RegisterValues = RegisterValues(name: string, email: string, password: string, passwordConfirmation: string)

  const InitialValues := RegisterValues("", "", "", "")

  const VerifyEmailRoute := "/account/verify-email"

  const RegistrationFailedMessage := "Registration failed"
  const ValidationErrorMessage := "Validation error"
  const EmailTakenMessage := "Email already registered"
  const ServerErrorMessage := "Server error. Please try again later."

  /**
   * The `catch` block's decision table from the caught error's status (and, for 400, the
   * server's message) to the message shown; it never shows an empty message.
   */
  function RegistrationErrorMessage(status: Option<int>, dataMessage: Option<string>): (r: string)
    ensures r != ""
    ensures status == Some(400) ==> r == Or(dataMessage, ValidationErrorMessage)
    ensures status == Some(409) ==> r == EmailTakenMessage
    ensures status == Some(500) ==> r == ServerErrorMessage
    ensures status !in {Some(400), Some(409), Some(500)} ==> r == RegistrationFailedMessage
  {
    if status == Some(400) then Or(dataMessage, ValidationErrorMessage)
    else if status == Some(409) then EmailTakenMessage
    else if status == Some(500) then ServerErrorMessage
    else RegistrationFailedMessage
  }

  /** The body of `onSubmit`, given what its `try` block throws. */
  function RegisterReactionOn(result: MutationResult, thrown: Option<Thrown>): (r: Reaction)
    requires thrown.None? ==> result.Fulfilled?
    ensures r.navigation.Some? <==> thrown.None?
    ensures thrown.None? ==>
              r == Reaction(Message(Success, MessageText(result.data)), Some(Navigation(VerifyEmailRoute, 0)))
    ensures thrown.Some? ==>
              r == Reaction(Message(Error, RegistrationErrorMessage(StatusOf(thrown.value), DataMessageOf(thrown.value))), None)
  {
    match thrown
    case None => Reaction(Message(Success, MessageText(result.data)), Some(Navigation(VerifyEmailRoute, 0)))
    case Some(t) => Reaction(Message(Error, RegistrationErrorMessage(StatusOf(t), DataMessageOf(t))), None)
  }

  /**
   * A submission as intended, with the error result thrown as it is: success shows the server's
   * message and goes straight to the verify screen; an error is classified by its status.
   */
  function RegisterReaction(result: MutationResult): (r: Reaction)
    ensures r.message.kind == Success <==> result.Fulfilled?
    ensures r.navigation.Some? <==> result.Fulfilled?
    ensures result.Fulfilled? ==>
              r == Reaction(Message(Success, MessageText(result.data)), Some(Navigation(VerifyEmailRoute, 0)))
    ensures result.Rejected? ==>
              r.message == Message(Error, RegistrationErrorMessage(result.error.status,
                                     if result.error.data.Some? then result.error.data.value.message else None))
  {
    RegisterReactionOn(result, Unwrap(result))
  }

  /**
   * A submission as written: `const { data } = await createUser(values)` is not unwrapped, so on
   * an error result reading `data.message` throws a TypeError that has no status.
   */
  function RegisterReactionAsWritten(result: MutationResult): (r: Reaction)
    ensures result.Rejected? ==> r == Reaction(Message(Error, RegistrationFailedMessage), None)
    ensures result.Fulfilled? ==> r == RegisterReaction(result)
  {
    RegisterReactionOn(result, DestructureAndReadMessage(result))
  }

  /** A taken email (409) is reported as written only by the generic fallback. */
  lemma ConflictReportedGenerically()
    ensures var result := Rejected(ErrorPayload(Some(409), None));
            RegisterReactionAsWritten(result).message.content == RegistrationFailedMessage
            && RegisterReaction(result).message.content == EmailTakenMessage
  {
  }

  class RegisterPage {
    var values: RegisterValues
    var message: Message
    var navigation: Option<Navigation>

    constructor ()
      ensures values == InitialValues && message == NoMessage && navigation.None?
    {
      values := InitialValues;
      message := NoMessage;
      navigation := None;
    }

    /**
     * `onSubmit`, settling as `result`, with the result unwrapped as intended
     * (`RegisterReactionAsWritten` is the handler as written); the form values are left as they are.
     */
    method OnSubmit(result: MutationResult)
      modifies this`message, this`navigation
      ensures message == RegisterReaction(result).message
      ensures navigation == if result.Fulfilled? then RegisterReaction(result).navigation else old(navigation)
    {
      var reaction := RegisterReaction(result);
      message := reaction.message;
      if reaction.navigation.Some? {
        navigation := reaction.navigation;
      }
    }
  }
}
