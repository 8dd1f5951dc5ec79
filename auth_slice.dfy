/**
 * The frontend's authentication state: the login and registration requests'
 * outcomes and the reducers that record them.
 */
module AuthSlice {
  import opened Wrappers

  datatype User = User(id: string, name: string, email: string, username: string)

  /** The body of a login answer; `message` is absent when the server sent none. */
  datatype LoginResponse = LoginResponse(success: bool, message: Option<string>, token: Option<string>, user: Option<User>)

  /** How a request ended: an answer, an HTTP error carrying a message, or no answer at all. */
  datatype Reply<T> = Answered(body: T) | HttpError(serverMessage: Option<string>) | NoAnswer(errorMessage: Option<string>)

  /** `s || fallback`: a missing or empty message falls back. */
  function OrElse(s: Option<string>, fallback: string): (r: string)
    ensures s.Some? && s.value != "" ==> r == s.value
    ensures s.None? || s.value == "" ==> r == fallback
  {
    if s.Some? && s.value != "" then s.value else fallback
  }

  /** The `loginUser` thunk: an answer with `success` false is a rejection carrying its message. */
  function LoginResult(reply: Reply<LoginResponse>): (r: Result<LoginResponse, string>)
    ensures r.Ok? <==> reply.Answered? && reply.body.success
    ensures r.Ok? ==> r.value == reply.body
    ensures reply.Answered? && !reply.body.success ==> r == Err(OrElse(reply.body.message, "Login failed."))
    ensures reply.HttpError? ==> r == Err(OrElse(reply.serverMessage, "An error occurred during login."))
    ensures reply.NoAnswer? ==> r == Err(OrElse(reply.errorMessage, "Network error or unexpected issue during login."))
  {
    match reply
    case Answered(body) =>
      if !body.success then Err(OrElse(body.message, "Login failed.")) else Ok(body)
    case HttpError(m) => Err(OrElse(m, "An error occurred during login."))
    case NoAnswer(m) => Err(OrElse(m, "Network error or unexpected issue during login."))
  }

  /** The `registerUser` thunk's answer body. */
  datatype RegisterResponse = RegisterResponse(success: bool, message: Option<string>)

  /** The `registerUser` thunk, with its own fallback messages. */
  function RegisterResult(reply: Reply<RegisterResponse>): (r: Result<RegisterResponse, string>)
    ensures r.Ok? <==> reply.Answered? && reply.body.success
    ensures r.Ok? ==> r.value == reply.body
    ensures reply.Answered? && !reply.body.success ==> r == Err(OrElse(reply.body.message, "Registration failed."))
    ensures reply.HttpError? ==> r == Err(OrElse(reply.serverMessage, "An error occurred during registration."))
    ensures reply.NoAnswer? ==> r == Err(OrElse(reply.errorMessage, "Network error or unexpected issue during registration."))
  {
    match reply
    case Answered(body) =>
      if !body.success then Err(OrElse(body.message, "Registration failed.")) else Ok(body)
    case HttpError(m) => Err(OrElse(m, "An error occurred during registration."))
    case NoAnswer(m) => Err(OrElse(m, "Network error or unexpected issue during registration."))
  }

  /** `x || null` for a token: an empty token is stored as none. */
  function NonEmpty(s: Option<string>): (r: Option<string>)
    ensures r.Some? <==> s.Some? && s.value != ""
    ensures r.Some? ==> r == s
  {
    if s.Some? && s.value != "" then s else None
  }

  /** The slice's state. */
  class AuthState {
    var loading: bool
    var isAuthenticated: bool
    var user: Option<User>
    var token: Option<string>
    var error: Option<string>
    var successMessage: Option<string>

    constructor ()
      ensures !loading && !isAuthenticated
      ensures user == None && token == None && error == None && successMessage == None
    {
      loading := false;
      isAuthenticated := false;
      user := None;
      token := None;
      error := None;
      successMessage := None;
    }

    /** `clearAuthMessages`. */
    method ClearAuthMessages()
      modifies this`error, this`successMessage
      ensures error == None && successMessage == None
    {
      error := None;
      successMessage := None;
    }

    /** `logout`: signed out and messages cleared; `loading` is left as it is. */
    method Logout()
      modifies this`isAuthenticated, this`user, this`token, this`error, this`successMessage
      ensures !isAuthenticated && user == None && token == None && error == None && successMessage == None
    {
      isAuthenticated := false;
      user := None;
      token := None;
      error := None;
      successMessage := None;
    }

    /** The pending case of both requests. */
    method Pending()
      modifies this`loading, this`error, this`successMessage
      ensures loading && error == None && successMessage == None
    {
      loading := true;
      error := None;
      successMessage := None;
    }

    /** `loginUser.fulfilled`. A missing message is recorded as none. */
    method LoginFulfilled(payload: LoginResponse)
      modifies this
      ensures !loading && isAuthenticated
      ensures user == payload.user && token == NonEmpty(payload.token)
      ensures error == None && successMessage == payload.message
    {
      loading := false;
      isAuthenticated := true;
      user := payload.user;
      token := NonEmpty(payload.token);
      error := None;
      successMessage := payload.message;
    }

    /** `loginUser.rejected`. */
    method LoginRejected(message: string)
      modifies this
      ensures !loading && !isAuthenticated && user == None && token == None
      ensures error == Some(message) && successMessage == None
    {
      loading := false;
      isAuthenticated := false;
      user := None;
      token := None;
      error := Some(message);
      successMessage := None;
    }

    /** `registerUser.fulfilled`: the sign-in state is not touched. */
    method RegisterFulfilled(payload: RegisterResponse)
      modifies this`loading, this`error, this`successMessage
      ensures !loading && error == None && successMessage == payload.message
    {
      loading := false;
      error := None;
      successMessage := payload.message;
    }

    /** `registerUser.rejected`: the sign-in state is not touched. */
    method RegisterRejected(message: string)
      modifies this`loading, this`error, this`successMessage
      ensures !loading && error == Some(message) && successMessage == None
    {
      loading := false;
      error := Some(message);
      successMessage := None;
    }

    /**
     * A whole `loginUser` dispatch: pending, then fulfilled or rejected by
     * the thunk's result. The user is signed in exactly when the server
     * answered with `success` true.
     */
    method Login(reply: Reply<LoginResponse>)
      modifies this
      ensures !loading
      ensures isAuthenticated <==> reply.Answered? && reply.body.success
      ensures isAuthenticated ==> user == reply.body.user && token == NonEmpty(reply.body.token) && error == None
      ensures !isAuthenticated ==> user == None && token == None && error == Some(LoginResult(reply).error)
      ensures isAuthenticated ==> successMessage == reply.body.message
      ensures !isAuthenticated ==> successMessage == None
    {
      Pending();
      match LoginResult(reply)
      case Ok(payload) => LoginFulfilled(payload);
      case Err(message) => LoginRejected(message);
    }

    /** A whole `registerUser` dispatch: whatever the answer, the sign-in state stays as it was. */
    method Register(reply: Reply<RegisterResponse>)
      modifies this
      ensures !loading
      ensures isAuthenticated == old(isAuthenticated) && user == old(user) && token == old(token)
      ensures RegisterResult(reply).Err? ==> error == Some(RegisterResult(reply).error) && successMessage == None
      ensures RegisterResult(reply).Ok? ==> error == None && successMessage == RegisterResult(reply).value.message
    {
      Pending();
      match RegisterResult(reply)
      case Ok(payload) => RegisterFulfilled(payload);
      case Err(message) => RegisterRejected(message);
    }
  }

  /** A rejected login always carries a message: every fallback is non-empty. */
  lemma RejectionHasMessage(reply: Reply<LoginResponse>)
    ensures LoginResult(reply).Err? ==> LoginResult(reply).error != ""
  {
  }
}
