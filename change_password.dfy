/** The change-password screen: the loading flag, the result classification and the form reset. */
module ChangePassword {
  import opened Js
  import opened Api
  import opened Ui

  datatype PasswordValues = PasswordValues(password: string, passwordConfirmation: string)

  const InitialValues := PasswordValues("", "")

  const UnexpectedErrorMessage := "An unexpected error occurred"

  /** How `await changePassword(values)` ends: with a result, or by throwing. */
  datatype Outcome = Returned(result: MutationResult) | Threw

  /** What the `try`/`catch` does to the screen. */
  datatype PasswordReaction = ShowAndReset(message: Message) | Show(message: Message) | Nothing

  /**
   * The classification: `response.data?.status === "success"` shows the server's message and
   * resets the form; otherwise a present `response.error` shows `response.error.data.message`
   * (reading it throws when the error has no body); anything thrown shows the generic message;
   * a result that is neither leaves the screen as it is.
   */
  function React(outcome: Outcome): (r: PasswordReaction)
    ensures r.ShowAndReset? <==>
              outcome.Returned? && outcome.result.Fulfilled? && outcome.result.data.status == Some("success")
    ensures r.ShowAndReset? ==> r.message == Message(Success, MessageText(outcome.result.data))
    ensures r.Nothing? <==>
              outcome.Returned? && outcome.result.Fulfilled? && outcome.result.data.status != Some("success")
    ensures r.Show? ==> r.message.kind == Error
    ensures outcome.Threw? ==> r == Show(Message(Error, UnexpectedErrorMessage))
    ensures outcome.Returned? && outcome.result.Rejected? ==>
              r == Show(Message(Error, if outcome.result.error.data.Some?
                                       then (var m := outcome.result.error.data.value.message;
                                             if m.Some? then m.value else "")
                                       else UnexpectedErrorMessage))
  {
    match outcome
    case Threw => Show(Message(Error, UnexpectedErrorMessage))
    case Returned(Fulfilled(body)) =>
      if body.status == Some("success") then ShowAndReset(Message(Success, MessageText(body))) else Nothing
    case Returned(Rejected(error)) =>
      match error.data
      case None => Show(Message(Error, UnexpectedErrorMessage))
      case Some(ErrorBody(m)) => Show(Message(Error, if m.Some? then m.value else ""))
  }

  class ChangePasswordPage {
    var values: PasswordValues
    var serverMessage: Message
    var loading: bool

    constructor ()
      ensures values == InitialValues && serverMessage == NoMessage && !loading
    {
      values := InitialValues;
      serverMessage := NoMessage;
      loading := false;
    }

    /** `disabled={loading}` on the submit button. */
    predicate SubmitDisabled()
      reads this
    {
      loading
    }

    /** `onSubmit` up to its `await`. */
    method StartSubmit()
      modifies this`loading
      ensures loading && SubmitDisabled()
    {
      loading := true;
    }

    /** `onSubmit` after its `await`: react to the outcome, then clear `loading` in `finally`. */
    method FinishSubmit(outcome: Outcome)
      modifies this
      ensures !loading
      ensures React(outcome).Nothing? ==> serverMessage == old(serverMessage) && values == old(values)
      ensures React(outcome).Show? ==> serverMessage == React(outcome).message && values == old(values)
      ensures React(outcome).ShowAndReset? ==> serverMessage == React(outcome).message && values == InitialValues
    {
      match React(outcome) {
        case ShowAndReset(m) =>
          serverMessage := m;
          values := InitialValues;
        case Show(m) =>
          serverMessage := m;
        case Nothing =>
      }
      loading := false;
    }

    /** The whole of `onSubmit`: the button is disabled while it runs and enabled after it. */
    method OnSubmit(outcome: Outcome)
      modifies this
      ensures !loading
      ensures values == if React(outcome).ShowAndReset? then InitialValues else old(values)
      ensures serverMessage == if React(outcome).Nothing? then old(serverMessage) else React(outcome).message
    {
      StartSubmit();
      FinishSubmit(outcome);
    }
  }
}
