/** The task creation form (app/tasks/new/page.tsx). */
module NewTaskPage {
  import opened Wrappers
  import opened Types
  import opened Messages
  import opened FormViews
  import RegisterPage

  const ValidationPrefix: string := "Error de validación: "
  const CreateDefault: string := "Error al crear la tarea. Inténtalo de nuevo."

  /** The error line for a rejected creation: the validation messages behind
      the validation prefix, else the body's message, else the default. */
  function NewTaskErrorMessage(failure: ApiFailure): (m: string)
    ensures failure.response.None? ==> m == CreateDefault
    ensures (failure.response.Some? && failure.response.value.data.Some? &&
             failure.response.value.data.value.errors.Some?) ==> ValidationPrefix <= m
  {
    ValidationMessage(failure, ValidationPrefix, CreateDefault)
  }

  /** With validation errors the line is the registration form's line behind
      the prefix; with a truthy message both forms show it verbatim. */
  lemma NewTaskMessageExtendsRegister(status: int, message: Option<string>,
                                      errors: Option<seq<(string, seq<string>)>>)
    ensures errors.Some? ==>
              NewTaskErrorMessage(WithBody(status, message, errors))
                == ValidationPrefix + RegisterPage.RegisterErrorMessage(WithBody(status, message, errors))
    ensures errors.None? && message.Some? && message.value != "" ==>
              NewTaskErrorMessage(WithBody(status, message, errors))
                == RegisterPage.RegisterErrorMessage(WithBody(status, message, errors)) == message.value
  {
  }

  /** The state of the creation form. */
  class NewTaskForm {
    var formData: map<string, string>
    var error: string
    var loading: bool

    constructor ()
      ensures formData == map["title" := "", "description" := ""] && error == "" && !loading
    {
      formData := map["title" := "", "description" := ""];
      error := "";
      loading := false;
    }

    /** `handleChange`: overwrite the named field, keep every other one. */
    method HandleChange(name: string, value: string)
      modifies this`formData
      ensures formData == old(formData)[name := value]
    {
      formData := formData[name := value];
    }

    /** `handleSubmit` up to its await: the button spins, the error line is
        cleared, and `createTask` receives the form data as it stands. */
    method Submit() returns (payload: map<string, string>)
      modifies this`error, this`loading
      ensures loading && error == ""
      ensures payload == formData
    {
      loading := true;
      error := "";
      payload := formData;
    }

    /** `handleSubmit` after its await: go to the task list on success, set
        the validation message on failure; loading ends on both paths. */
    method Settle(response: Result<Task, ApiFailure>) returns (redirect: Option<string>)
      modifies this`error, this`loading
      ensures !loading
      ensures response.Success? ==> redirect == Some(TasksPath) && error == old(error)
      ensures response.Failure? ==> redirect == None && error == NewTaskErrorMessage(response.error)
    {
      if response.Success? {
        redirect := Some(TasksPath);
      } else {
        error := NewTaskErrorMessage(response.error);
        redirect := None;
      }
      loading := false;
    }
  }
}
