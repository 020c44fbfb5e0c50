/** The registration form (app/register/page.tsx). */
module RegisterPage {
  import opened Wrappers
  import opened Browser
  import opened Types
  import opened AuthContext
  import opened FormViews
  import opened Messages

  const RegisterDefault: string := "Error al registrar. Inténtalo de nuevo."

  /** The error line for a rejected registration: the validation messages
      joined by spaces, else the body's message, else the default. */
  function RegisterErrorMessage(failure: ApiFailure): (m: string)
    ensures failure.response.None? ==> m == RegisterDefault
  {
    ValidationMessage(failure, "", RegisterDefault)
  }

  /** The joined line gives back every field message, in order, when none of
      them holds a space. */
  lemma RegisterMessageRoundTrip(status: int, message: Option<string>, fields: seq<(string, seq<string>)>)
    requires |Flatten(fields)| > 0
    requires forall i :: 0 <= i < |Flatten(fields)| ==> ' ' !in Flatten(fields)[i]
    ensures SplitOnSpace(RegisterErrorMessage(WithBody(status, message, Some(fields)))) == Flatten(fields)
  {
    assert "" + Join(Flatten(fields)) == Join(Flatten(fields));
    SplitJoin(Flatten(fields));
  }

  /** An `errors` object with no messages yields the empty string, so no error
      line is shown. */
  lemma EmptyErrorsShowNothing(status: int, message: Option<string>, fields: seq<(string, seq<string>)>)
    requires forall i :: 0 <= i < |fields| ==> fields[i].1 == []
    ensures RegisterErrorMessage(WithBody(status, message, Some(fields))) == ""
    ensures !Truthy(Some(RegisterErrorMessage(WithBody(status, message, Some(fields)))))
  {
    EmptyErrorsYieldPrefix(status, message, fields, "", RegisterDefault);
  }

  /** The state of the registration form. */
  class RegisterForm {
    var formData: map<string, string>
    var error: string
    var loading: bool

    ghost predicate Valid()
      reads this
    {
      "name" in formData && "email" in formData && "password" in formData && "password_confirmation" in formData
    }

    constructor ()
      ensures Valid()
      ensures formData == map["name" := "", "email" := "", "password" := "", "password_confirmation" := ""]
      ensures error == "" && !loading
    {
      formData := map["name" := "", "email" := "", "password" := "", "password_confirmation" := ""];
      error := "";
      loading := false;
    }

    /** `handleChange`: overwrite the named field, keep every other one. */
    method HandleChange(name: string, value: string)
      requires Valid()
      modifies this`formData
      ensures Valid()
      ensures formData == old(formData)[name := value]
    {
      formData := formData[name := value];
    }

    /** `handleSubmit` up to its await: the button spins, the error line is
        cleared, and the form data is posted as it stands. */
    method Submit() returns (body: map<string, string>)
      modifies this`error, this`loading
      ensures loading && error == ""
      ensures body == formData
    {
      loading := true;
      error := "";
      body := formData;
    }

    /** `handleSubmit` after its await: on success hand the token and a user
        with the typed name and email to the session store and go to the task
        list; on failure set the validation message. Loading ends on both
        paths. */
    method Settle(response: Result<AuthResponse, ApiFailure>, session: SessionStore)
      returns (call: Option<AuthCall>, redirect: Option<string>)
      requires Valid() && session.Valid()
      modifies this`error, this`loading, session
      ensures !loading
      ensures session.Valid()
      ensures response.Success? ==>
                && call == Some(AuthCall(response.value.accessToken, User(0, formData["name"], formData["email"])))
                && redirect == Some(TasksPath)
                && error == old(error)
                && session.state == ResolvedState(response.value.accessToken)
                && session.storage == PersistToken(old(session.storage), response.value.accessToken)
      ensures response.Failure? ==>
                && call == None && redirect == None
                && error == RegisterErrorMessage(response.error)
                && unchanged(session)
    {
      match response {
        case Success(data) =>
          var user := User(0, formData["name"], formData["email"]);
          session.Register(data.accessToken, user);
          call := Some(AuthCall(data.accessToken, user));
          redirect := Some(TasksPath);
        case Failure(failure) =>
          error := RegisterErrorMessage(failure);
          call, redirect := None, None;
      }
      loading := false;
    }
  }
}
