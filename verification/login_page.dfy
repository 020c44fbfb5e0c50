/** The login form (app/login/page.tsx). */
module LoginPage {
  import opened Wrappers
  import opened Types
  import opened AuthContext
  import opened FormViews

  const InvalidCredentials: string := "Credenciales incorrectas."
  const ConnectionError: string := "Error de conexión o servidor."

  /** The error line for a rejected login: only a 401 response means bad
      credentials; any other status, or no response, is a connection error. */
  function LoginErrorMessage(failure: ApiFailure): (m: string)
    ensures m == InvalidCredentials <==> failure.response.Some? && failure.response.value.status == 401
    ensures m == InvalidCredentials || m == ConnectionError
  {
    if failure.response.Some? && failure.response.value.status == 401 then InvalidCredentials
    else ConnectionError
  }

  /** The state of the login form. */
  class LoginForm {
    var formData: map<string, string>
    var error: string
    var loading: bool

    ghost predicate Valid()
      reads this
    {
      "email" in formData && "password" in formData
    }

    constructor ()
      ensures Valid()
      ensures formData == map["email" := "", "password" := ""] && error == "" && !loading
    {
      formData := map["email" := "", "password" := ""];
      error := "";
      loading := false;
    }

    /** `handleChange`: overwrite the named field, keep every other one. */
    method HandleChange(name: string, value: string)
      requires Valid()
      modifies this`formData
      ensures Valid()
      ensures formData == old(formData)[name := value]
    {
      formData := formData[name := value];
    }

    /** `handleSubmit` up to its await: the button spins, the error line is
        cleared, and the form data is posted as it stands. */
    method Submit() returns (body: map<string, string>)
      modifies this`error, this`loading
      ensures loading && error == ""
      ensures body == formData
    {
      loading := true;
      error := "";
      body := formData;
    }

    /** `handleSubmit` after its await: on success hand the token and a
        placeholder user with the typed email to the session store and go to
        the task list; on failure set the status message. Loading ends on
        both paths. */
    method Settle(response: Result<AuthResponse, ApiFailure>, session: SessionStore)
      returns (call: Option<AuthCall>, redirect: Option<string>)
      requires Valid() && session.Valid()
      modifies this`error, this`loading, session
      ensures !loading
      ensures session.Valid()
      ensures response.Success? ==>
                && call == Some(AuthCall(response.value.accessToken, User(0, "Usuario", formData["email"])))
                && redirect == Some(TasksPath)
                && error == old(error)
                && session.state == ResolvedState(response.value.accessToken)
                && session.storage == PersistToken(old(session.storage), response.value.accessToken)
      ensures response.Failure? ==>
                && call == None && redirect == None
                && error == LoginErrorMessage(response.error)
                && unchanged(session)
    {
      match response {
        case Success(data) =>
          var user := User(0, "Usuario", formData["email"]);
          session.Login(data.accessToken, user);
          call := Some(AuthCall(data.accessToken, user));
          redirect := Some(TasksPath);
        case Failure(failure) =>
          error := LoginErrorMessage(failure);
          call, redirect := None, None;
      }
      loading := false;
    }
  }
}
