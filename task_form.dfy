/**
 * The task form: the field rules registered with the form library, and the submit handler
 * that updates the task being edited or creates a new one.
 */
module TaskForm {
  import opened Js
  import opened Api
  import TaskService

  const TitleMaxLength := 100
  const DescriptionMaxLength := 500

  const TitleRequiredMessage := "Title is required"
  const TitleTooLongMessage := "Title cannot exceed 100 characters"
  const DescriptionTooLongMessage := "Description cannot exceed 500 characters"
  const InvalidTaskIdMessage := "Invalid task ID"
  const SaveFailedMessage := "Failed to save task"

  /** The title rules: `required` is checked first, then `maxLength` (which skips an empty value). */
  function TitleError(title: string): (r: Option<string>)
    ensures r.None? <==> 0 < |title| <= TitleMaxLength
    ensures title == "" ==> r == Some(TitleRequiredMessage)
    ensures |title| > TitleMaxLength ==> r == Some(TitleTooLongMessage)
  {
    if title == "" then Some(TitleRequiredMessage)
    else if |title| > TitleMaxLength then Some(TitleTooLongMessage)
    else None
  }

  /** The description is optional and at most 500 characters long. */
  function DescriptionError(description: string): (r: Option<string>)
    ensures r.None? <==> |description| <= DescriptionMaxLength
    ensures r.Some? ==> r.value == DescriptionTooLongMessage
  {
    if |description| > DescriptionMaxLength then Some(DescriptionTooLongMessage) else None
  }

  /** The boundary cases of the rules. */
  lemma TitleBoundaries(title: string, description: string)
    ensures |title| == TitleMaxLength ==> TitleError(title).None?
    ensures |title| == TitleMaxLength + 1 ==> TitleError(title) == Some(TitleTooLongMessage)
    ensures description == "" ==> DescriptionError(description).None?
  {
  }

  /** The values the form submits. */
  datatype FormData = FormData(title: string, description: string)

  datatype FieldErrors = FieldErrors(title: Option<string>, description: Option<string>)

  /** `handleSubmit` validates every field; `onSubmit` runs only when no field has an error. */
  function Validate(data: FormData): (e: FieldErrors)
    ensures e == FieldErrors(None, None) <==>
              0 < |data.title| <= TitleMaxLength && |data.description| <= DescriptionMaxLength
  {
    FieldErrors(TitleError(data.title), DescriptionError(data.description))
  }

  /** The `initialData` prop (the task being edited); only its `_id` is read on submit. */
  datatype InitialData = InitialData(id: Option<string>)

  /** The callback invoked with its argument object. */
  datatype SaveCall = Update(arg: TaskService.Object) | Create(arg: TaskService.Object)

  function Draft(data: FormData): (o: TaskService.Object)
    ensures o.Keys == {"title", "description"}
    ensures o["title"] == TaskService.JString(data.title)
    ensures o["description"] == TaskService.JString(data.description)
  {
    map["title" := TaskService.JString(data.title), "description" := TaskService.JString(data.description)]
  }

  /**
   * `setError(err.data?.message || err.message || "Failed to save task")`: the error shown is
   * never empty, and the server's message wins over the error's own.
   */
  function SaveErrorMessage(t: Thrown): (r: string)
    ensures r != ""
    ensures DataMessageOf(t).Some? && DataMessageOf(t).value != "" ==> r == DataMessageOf(t).value
    ensures ((DataMessageOf(t).None? || DataMessageOf(t).value == "") &&
             MessageOf(t).Some? && MessageOf(t).value != "") ==> r == MessageOf(t).value
    ensures r in {SaveFailedMessage} + (if DataMessageOf(t).Some? then {DataMessageOf(t).value} else {})
                                     + (if MessageOf(t).Some? then {MessageOf(t).value} else {})
  {
    Or(DataMessageOf(t), Or(MessageOf(t), SaveFailedMessage))
  }

  /** The form's state: the submit error banner. */
  class TaskFormComponent {
    var error: string

    constructor ()
      ensures error == ""
    {
      error := "";
    }

    /**
     * `onSubmit`: clear the error; with `initialData`, refuse a missing id and otherwise call
     * `onUpdate`; without it call `onCreate`; call `onSuccess` only when the save resolves.
     */
    method OnSubmit(data: FormData, initialData: Option<InitialData>, result: MutationResult)
      returns (call: Option<SaveCall>, successCalled: bool)
      modifies this
      ensures initialData.None? ==> call == Some(Create(Draft(data)))
      ensures initialData.Some? && initialData.value.id.Some? && initialData.value.id.value != "" ==>
                call == Some(Update(Draft(data)["taskId" := TaskService.JString(initialData.value.id.value)]))
      ensures initialData.Some? && (initialData.value.id.None? || initialData.value.id.value == "") ==>
                call.None? && !successCalled && error == InvalidTaskIdMessage
      ensures call.Some? ==> (successCalled <==> result.Fulfilled?)
      ensures call.Some? && result.Fulfilled? ==> error == ""
      ensures call.Some? && result.Rejected? ==> error == SaveErrorMessage(Payload(result.error))
    {
      error := "";
      call, successCalled := None, false;
      var thrown: Option<Thrown>;
      if initialData.Some? {
        var id := initialData.value.id;
        if id.None? || id.value == "" {
          thrown := Some(ErrorObject(InvalidTaskIdMessage));
        } else {
          call := Some(Update(Draft(data)["taskId" := TaskService.JString(id.value)]));
          thrown := Unwrap(result);
        }
      } else {
        call := Some(Create(Draft(data)));
        thrown := Unwrap(result);
      }
      if thrown.None? {
        successCalled := true;
      } else {
        error := SaveErrorMessage(thrown.value);
      }
    }

    /** `handleSubmit(onSubmit)`: a form with a field error submits nothing and calls nothing. */
    method HandleSubmit(data: FormData, initialData: Option<InitialData>, result: MutationResult)
      returns (errors: FieldErrors, call: Option<SaveCall>, successCalled: bool)
      modifies this
      ensures errors == Validate(data)
      ensures errors != FieldErrors(None, None) ==> call.None? && !successCalled && error == old(error)
      ensures errors == FieldErrors(None, None) && initialData.None? ==> call == Some(Create(Draft(data)))
      ensures errors == FieldErrors(None, None) && initialData.Some? && initialData.value.id.Some?
              && initialData.value.id.value != "" ==>
                call == Some(Update(Draft(data)["taskId" := TaskService.JString(initialData.value.id.value)]))
      ensures errors == FieldErrors(None, None) && initialData.Some?
              && (initialData.value.id.None? || initialData.value.id.value == "") ==>
                call.None? && !successCalled && error == InvalidTaskIdMessage
      ensures errors == FieldErrors(None, None) && call.Some? ==> (successCalled <==> result.Fulfilled?)
      ensures errors == FieldErrors(None, None) && call.Some? && result.Fulfilled? ==> error == ""
      ensures errors == FieldErrors(None, None) && call.Some? && result.Rejected? ==>
                error == SaveErrorMessage(Payload(result.error))
    {
      errors := Validate(data);
      if errors != FieldErrors(None, None) {
        return errors, None, false;
      }
      call, successCalled := OnSubmit(data, initialData, result);
    }
  }

  /** Editing sends a PUT of just the title and description to the edited task's own URL. */
  lemma UpdateSendsDraftToTask(data: FormData, id: string)
    ensures TaskService.UpdateTaskQuery(Draft(data)["taskId" := TaskService.JString(id)])
            == TaskService.Request(TaskService.PUT, id, Some(Draft(data)))
  {
    TaskService.UpdateTaskSplitsIdFromDraft(id, Draft(data));
  }

  /** Creating posts exactly the title and description to the task list. */
  lemma CreateSendsDraft(data: FormData)
    ensures TaskService.CreateTaskQuery(Draft(data)).body.value.Keys == {"title", "description"}
    ensures TaskService.CreateTaskQuery(Draft(data)).body.value["title"] == TaskService.JString(data.title)
    ensures TaskService.CreateTaskQuery(Draft(data)).body.value["description"] == TaskService.JString(data.description)
    ensures TaskService.CreateTaskQuery(Draft(data)).verb == TaskService.POST
    ensures TaskService.FullUrl(TaskService.CreateTaskQuery(Draft(data))) == TaskService.BaseUrl
  {
  }
}
