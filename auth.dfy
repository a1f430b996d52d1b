/** AuthService: the session (current user and authenticated flag) kept in
    memory and mirrored into the key-value store, plus the readiness flag the
    route guards wait for. HTTP calls become response parameters. */
module Auth {
  import opened Common
  import opened Entities
  import opened Storage

  const UserKey := "current_user"
  const AuthStatusKey := "is_authenticated"
  /** A third key that `logout` also removes. */
  const LoginKey := "login"

  /** The user stored under `current_user`: the app only ever writes a user record there. */
  function StoredUser(v: Option<Value>): Option<User> {
    if v.Some? && v.value.UserRecord? then Some(v.value.user) else None
  }

  /** The credentials a login form submits. */
  datatype Credentials = Credentials(email: string, password: string)

  /** The body of `POST /login`: `{ user: { email, password } }`. */
  datatype LoginRequest = LoginRequest(user: Credentials)

  /** `login`'s payload, built field by field from the credentials. */
  function LoginPayload(c: Credentials): (p: LoginRequest)
    ensures p.user.email == c.email && p.user.password == c.password
  {
    LoginRequest(Credentials(c.email, c.password))
  }

  datatype Status = OK | ERROR

  /** The backend's answer: a message, a status and, on success, the user. */
  datatype AuthResponse = AuthResponse(msg: string, status: Status, user: Option<User>)

  /** A failed request: a client-side `ErrorEvent`, or a server answer with its
      HTTP status, the body's `msg` ("" when absent) and the response's own message. */
  datatype HttpError =
    | ClientError(message: string)
    | ServerError(status: int, msg: string, message: string)

  const Msg401 := "Credenciales inválidas. Por favor verifica tu correo y contraseña."
  const Msg422 := "Datos inválidos. El usuario ya existe o el formato es incorrecto."
  const Msg500 := "Error en el servidor. Inténtalo más tarde."

  /** `handleError`: the message of the error the call fails with. */
  function HandleError(e: HttpError): (m: string)
    ensures e.ClientError? ==> m == "Error: " + e.message
    ensures e.ServerError? && e.status == 401 ==> m == Msg401
    ensures e.ServerError? && e.status == 422 ==> m == if e.msg != "" then e.msg else Msg422
    ensures e.ServerError? && e.status == 500 ==> m == Msg500
    ensures e.ServerError? && e.status !in {401, 422, 500} ==>
      m == "Error " + IntToString(e.status) + ": " + (if e.msg != "" then e.msg else e.message)
  {
    match e
    case ClientError(message) => "Error: " + message
    case ServerError(status, msg, message) =>
      if status == 401 then Msg401
      else if status == 422 then (if msg != "" then msg else Msg422)
      else if status == 500 then Msg500
      else "Error " + IntToString(status) + ": " + (if msg != "" then msg else message)
  }

  /** A status without a fixed message is named in the message, so two such
      errors with different statuses never read the same, whatever their bodies. */
  lemma DefaultMessageNamesStatus(e1: HttpError, e2: HttpError)
    requires e1.ServerError? && e1.status !in {401, 422, 500}
    requires e2.ServerError? && e2.status !in {401, 422, 500}
    requires e1.status != e2.status
    ensures HandleError(e1) != HandleError(e2)
  {
    var a, b := IntToString(e1.status), IntToString(e2.status);
    IntToStringShape(e1.status);
    IntToStringShape(e2.status);
    var t1 := if e1.msg != "" then e1.msg else e1.message;
    var t2 := if e2.msg != "" then e2.msg else e2.message;
    var m1, m2 := "Error " + a + ": " + t1, "Error " + b + ": " + t2;
    assert HandleError(e1) == m1 && HandleError(e2) == m2;
    if |a| == |b| {
      IntToStringInjective(e1.status, e2.status);
      assert m1[6..6 + |a|] == a by { assert m1 == "Error " + a + (": " + t1); }
      assert m2[6..6 + |b|] == b by { assert m2 == "Error " + b + (": " + t2); }
    } else if |a| < |b| {
      assert m1[6 + |a|] == ':';
      assert m2[6 + |a|] == b[|a|];
    } else {
      assert m2[6 + |b|] == ':';
      assert m1[6 + |b|] == a[|b|];
    }
  }

  /** A client-side error never reads like a server error without a fixed message. */
  lemma ClientAndServerMessagesDiffer(e1: HttpError, e2: HttpError)
    requires e1.ClientError?
    requires e2.ServerError? && e2.status !in {401, 422, 500}
    ensures HandleError(e1) != HandleError(e2)
  {
    assert HandleError(e1)[5] == ':' && HandleError(e2)[5] == ' ';
  }

  class AuthService {
    /** The values of `currentUserSubject`, `isAuthenticatedSubject` and `isReadySubject`. */
    var currentUser: Option<User>
    var isAuthenticated: bool
    var isReady: bool
    /** The route of the last navigation the service asked for ("" for none). */
    var navigatedTo: string
    const storage: Store

    /** The flag and the user agree. */
    ghost predicate Valid()
      reads this, storage
    {
      storage.Valid() && (isAuthenticated <==> currentUser.Some?)
    }

    /** A session exists in storage exactly when both keys hold truthy values. */
    ghost predicate StoredSession(data: map<string, Value>) {
      Truthy(Find(data, UserKey)) && Truthy(Find(data, AuthStatusKey)) && StoredUser(Find(data, UserKey)).Some?
    }

    /** The constructor runs `loadStoredAuth`. */
    constructor (storage: Store)
      requires storage.Valid()
      modifies storage
      ensures this.storage == storage && Valid() && isReady && navigatedTo == ""
      ensures storage.data == old(storage.data)
      ensures StoredSession(storage.data) ==>
        isAuthenticated && currentUser == StoredUser(Find(storage.data, UserKey))
      ensures !StoredSession(storage.data) ==> !isAuthenticated && currentUser == None
    {
      this.storage := storage;
      currentUser, isAuthenticated, isReady, navigatedTo := None, false, false, "";
      new;
      LoadStoredAuth();
    }

    /** `loadStoredAuth`: restores the stored session when both keys are truthy,
        and marks the service ready in every case. */
    method LoadStoredAuth()
      requires Valid()
      modifies this, storage
      ensures Valid() && isReady
      ensures storage.data == old(storage.data) && navigatedTo == old(navigatedTo)
      ensures StoredSession(storage.data) ==>
        isAuthenticated && currentUser == StoredUser(Find(storage.data, UserKey))
      ensures !StoredSession(storage.data) ==>
        isAuthenticated == old(isAuthenticated) && currentUser == old(currentUser)
    {
      var user := storage.Get(UserKey);
      var authenticated := storage.Get(AuthStatusKey);
      if Truthy(user) && Truthy(authenticated) && StoredUser(user).Some? {
        currentUser := StoredUser(user);
        isAuthenticated := true;
      }
      isReady := true;
    }

    /** `login`: sends the payload; an `OK` answer carrying a user starts the
        session, any other answer leaves it alone, and a failed request yields
        the message of `handleError`. */
    method Login(c: Credentials, response: Result<AuthResponse, HttpError>)
      returns (payload: LoginRequest, outcome: Result<AuthResponse, string>)
      requires Valid()
      modifies this, storage
      ensures Valid() && isReady == old(isReady) && navigatedTo == old(navigatedTo)
      ensures payload == LoginPayload(c)
      ensures response.Err? ==> outcome == Err(HandleError(response.error))
      ensures response.Ok? ==> outcome == Ok(response.value)
      ensures response.Ok? && response.value.status == OK && response.value.user.Some? ==>
        currentUser == response.value.user && isAuthenticated &&
        storage.data == old(storage.data)[UserKey := UserRecord(response.value.user.value)][AuthStatusKey := Bool(true)]
      ensures !(response.Ok? && response.value.status == OK && response.value.user.Some?) ==>
        currentUser == old(currentUser) && isAuthenticated == old(isAuthenticated) && storage.data == old(storage.data)
    {
      payload := LoginPayload(c);
      if response.Err? {
        return payload, Err(HandleError(response.error));
      }
      if response.value.status == OK && response.value.user.Some? {
        HandleAuthSuccess(response.value.user.value);
      }
      outcome := Ok(response.value);
    }

    /** `signup`: forwards the answer or the error message and never touches the session. */
    method Signup(response: Result<AuthResponse, HttpError>) returns (outcome: Result<AuthResponse, string>)
      ensures response.Err? ==> outcome == Err(HandleError(response.error))
      ensures response.Ok? ==> outcome == Ok(response.value)
    {
      if response.Err? {
        return Err(HandleError(response.error));
      }
      return Ok(response.value);
    }

    /** `handleAuthSuccess`: stores the user and `true`, then publishes the session. */
    method HandleAuthSuccess(user: User)
      requires Valid()
      modifies this, storage
      ensures Valid() && isReady == old(isReady) && navigatedTo == old(navigatedTo)
      ensures currentUser == Some(user) && isAuthenticated
      ensures storage.data == old(storage.data)[UserKey := UserRecord(user)][AuthStatusKey := Bool(true)]
    {
      storage.Set(UserKey, UserRecord(user));
      storage.Set(AuthStatusKey, Bool(true));
      currentUser := Some(user);
      isAuthenticated := true;
    }

    /** `logout(redirect)`: removes the three session keys, clears the session,
        and goes to `/login` only when asked to. */
    method Logout(redirect: bool)
      requires Valid()
      modifies this, storage
      ensures Valid() && isReady == old(isReady)
      ensures currentUser == None && !isAuthenticated
      ensures storage.data == old(storage.data) - {UserKey, AuthStatusKey, LoginKey}
      ensures navigatedTo == if redirect then "/login" else old(navigatedTo)
    {
      storage.Remove(UserKey);
      storage.Remove(AuthStatusKey);
      storage.Remove(LoginKey);
      assert storage.data == old(storage.data) - {UserKey, AuthStatusKey, LoginKey};
      currentUser := None;
      isAuthenticated := false;
      if redirect {
        navigatedTo := "/login";
      }
    }
  }

  /** A session started by a successful login is restored by the next start of the app. */
  method SessionSurvivesRestart(a: AuthService, u: User) returns (b: AuthService)
    requires a.Valid()
    modifies a, a.storage
    ensures b.isAuthenticated && b.currentUser == Some(u) && b.isReady
  {
    a.HandleAuthSuccess(u);
    assert Find(a.storage.data, UserKey) == Some(UserRecord(u));
    assert Find(a.storage.data, AuthStatusKey) == Some(Bool(true));
    b := new AuthService(a.storage);
  }

  /** After a logout the next start of the app finds no session. */
  method LogoutEndsSession(a: AuthService, redirect: bool) returns (b: AuthService)
    requires a.Valid()
    modifies a, a.storage
    ensures !b.isAuthenticated && b.currentUser == None && b.isReady
  {
    a.Logout(redirect);
    assert Find(a.storage.data, UserKey) == None;
    b := new AuthService(a.storage);
  }
}
