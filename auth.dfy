/**
 * The session held by the authentication context: the signed-in user, the
 * start-up loading flag and the stored `access_token`, with the login,
 * logout and start-up transitions, the role check and the error messages
 * the context's actions throw.
 */
module Auth {
  import opened Wrappers
  import opened Text
  import opened Api
  import opened Accounts

  const LoginDefault: String := "Identifiants incorrects"
  const BadCredentials: String := "Nom d'utilisateur ou mot de passe incorrect"
  const AccountDisabled: String := "Votre compte est désactivé"
  const ServerErrorPrefix: String := "Erreur serveur: "
  const ChangePasswordDefault: String := "Échec du changement de mot de passe"
  const WrongCurrentPassword: String := "Mot de passe actuel incorrect"
  const PasswordRequirements: String := "Le nouveau mot de passe ne respecte pas les exigences"
  const CreateUserDefault: String := "Ошибка при создании пользователя"
  const DeleteUserFailed: String := "Ошибка при удалении пользователя"

  const LoginPath: String := "/login"
  const HomePath: String := "/"

  /** The body of a successful `/auth/login`. */
  datatype LoginData = LoginData(accessToken: String, user: User)

  /** How an async action of the context settles: a returned value or a thrown `Error`. */
  datatype Outcome<T> = Returned(value: T) | Thrown(message: String)

  // ------------------------------------------------------------ permissions

  /** `hasPermission`: someone is signed in and their role is one of the required roles. */
  predicate HasPermission(user: Option<User>, requiredRoles: seq<String>): (b: bool)
    ensures b ==> user.Some? && requiredRoles != []
  {
    user.Some? && user.value.role in requiredRoles
  }

  /** Allowing more roles never takes a permission away. */
  lemma PermissionMonotone(user: Option<User>, fewer: seq<String>, more: seq<String>)
    requires forall r :: r in fewer ==> r in more
    ensures HasPermission(user, fewer) ==> HasPermission(user, more)
  {
  }

  // ---------------------------------------------------------- error messages

  /** The message `login` throws for a failed request. */
  function LoginFailureMessage(response: Option<ErrorResponse>): (msg: String)
    ensures msg != []
    ensures response.None? ==> msg == LoginDefault
    ensures response.Some? && response.value.status == 401 ==> msg == BadCredentials
    ensures response.Some? && response.value.status == 403 ==> msg == AccountDisabled
    ensures response.Some? && response.value.status != 401 && response.value.status != 403 ==>
      && |ServerErrorPrefix| < |msg|
      && msg[..|ServerErrorPrefix|] == ServerErrorPrefix
      && AllDigits(msg[|ServerErrorPrefix|..])
      && DecimalValue(msg[|ServerErrorPrefix|..]) == response.value.status
  {
    if response.None? then LoginDefault
    else if response.value.status == 401 then BadCredentials
    else if response.value.status == 403 then AccountDisabled
    else
      var digits := NatToDecimal(response.value.status);
      DecimalRoundTrip(response.value.status);
      assert (ServerErrorPrefix + digits)[|ServerErrorPrefix|..] == digits;
      ServerErrorPrefix + digits
  }

  /** A server-error message names its status: distinct statuses give distinct messages. */
  lemma ServerErrorNamesStatus(m: nat, n: nat)
    requires ServerErrorPrefix + NatToDecimal(m) == ServerErrorPrefix + NatToDecimal(n)
    ensures m == n
  {
    var x := ServerErrorPrefix + NatToDecimal(m);
    var y := ServerErrorPrefix + NatToDecimal(n);
    assert x[|ServerErrorPrefix|..] == NatToDecimal(m);
    assert y[|ServerErrorPrefix|..] == NatToDecimal(n);
    DecimalInjective(m, n);
  }

  /**
   * The login message tells the failures apart: whether the server answered
   * and, when it did, its status.
   */
  lemma LoginFailureMessageInjective(a: Option<ErrorResponse>, b: Option<ErrorResponse>)
    requires LoginFailureMessage(a) == LoginFailureMessage(b)
    ensures a.None? <==> b.None?
    ensures a.Some? && b.Some? ==> a.value.status == b.value.status
  {
    var ma, mb := LoginFailureMessage(a), LoginFailureMessage(b);
    assert LoginDefault[0] == 'I' && BadCredentials[0] == 'N' && AccountDisabled[0] == 'V';
    assert (ServerErrorPrefix + NatToDecimal(0))[0] == 'E';
    if a.Some? && a.value.status != 401 && a.value.status != 403 {
      assert ma[0] == 'E';
    }
    if b.Some? && b.value.status != 401 && b.value.status != 403 {
      assert mb[0] == 'E';
    }
    if a.Some? && b.Some? && a.value.status != 401 && a.value.status != 403
       && b.value.status != 401 && b.value.status != 403 {
      ServerErrorNamesStatus(a.value.status, b.value.status);
    }
  }

  /** The message `changePassword` throws for a failed request. */
  function ChangePasswordFailureMessage(response: Option<ErrorResponse>): (msg: String)
    ensures response.Some? && response.value.status == 401 ==> msg == WrongCurrentPassword
    ensures response.Some? && response.value.status == 400 ==> msg == PasswordRequirements
    ensures msg == ChangePasswordDefault <==>
      response.None? || (response.value.status != 401 && response.value.status != 400)
  {
    if response.Some? && response.value.status == 401 then WrongCurrentPassword
    else if response.Some? && response.value.status == 400 then PasswordRequirements
    else ChangePasswordDefault
  }

  // ------------------------------------------------------------ the context

  /** The authentication context's state and actions. */
  class AuthSession {
    var user: Option<User>
    var loading: bool
    /** `localStorage['access_token']`. */
    var token: Option<String>
    /** The route last navigated to. */
    var location: String

    /** A signed-in user always has a stored token. */
    ghost predicate Valid()
      reads this
    {
      user.Some? ==> token.Some?
    }

    /** Mounting the provider: nobody signed in yet, start-up check pending. */
    constructor (storedToken: Option<String>, path: String)
      ensures Valid()
      ensures user.None? && loading && token == storedToken && location == path
    {
      user, loading, token, location := None, true, storedToken, path;
    }

    /** `logout`: forget the token and the user, go to the login page. */
    method Logout()
      modifies this`user, this`token, this`location
      ensures Valid()
      ensures token.None? && user.None? && location == LoginPath
    {
      token := None;
      user := None;
      location := LoginPath;
    }

    /**
     * `checkAuth` on start-up: with a stored (non-empty) token, `/auth/me` is
     * asked for the user and a failure logs out; loading ends in every case.
     */
    method CheckAuth(me: ApiResult<User>) returns (requested: bool)
      requires Valid()
      modifies this`user, this`token, this`location, this`loading
      ensures Valid() && !loading
      ensures requested <==> Truthy(old(token))
      ensures !requested ==> user == old(user) && token == old(token) && location == old(location)
      ensures requested && me.Ok? ==> user == Some(me.data) && token == old(token) && location == old(location)
      ensures requested && me.Err? ==> user.None? && token.None? && location == LoginPath
    {
      requested := Truthy(token);
      if requested {
        match me {
          case Ok(data) => user := Some(data);
          case Err(_) => Logout();
        }
      }
      loading := false;
    }

    /**
     * `login`: on success stores the token, signs the user in and goes home;
     * on failure the session is untouched and an error naming the failure is thrown.
     */
    method Login(reply: ApiResult<LoginData>) returns (outcome: Outcome<bool>)
      requires Valid()
      modifies this`user, this`token, this`location
      ensures Valid()
      ensures reply.Ok? ==>
                && outcome == Returned(true)
                && token == Some(reply.data.accessToken) && user == Some(reply.data.user)
                && location == HomePath
      ensures reply.Err? ==>
                && outcome == Thrown(LoginFailureMessage(reply.response))
                && user == old(user) && token == old(token) && location == old(location)
    {
      match reply {
        case Ok(data) =>
          token := Some(data.accessToken);
          user := Some(data.user);
          location := HomePath;
          outcome := Returned(true);
        case Err(response) =>
          var errorMessage := LoginDefault;
          if response.Some? {
            if response.value.status == 401 {
              errorMessage := BadCredentials;
            } else if response.value.status == 403 {
              errorMessage := AccountDisabled;
            } else {
              errorMessage := ServerErrorPrefix + NatToDecimal(response.value.status);
            }
          }
          outcome := Thrown(errorMessage);
      }
    }

    /** `changePassword`: the response body, or an error naming a 401 or a 400. */
    method ChangePassword<T>(reply: ApiResult<T>) returns (outcome: Outcome<T>)
      ensures reply.Ok? ==> outcome == Returned(reply.data)
      ensures reply.Err? ==> outcome == Thrown(ChangePasswordFailureMessage(reply.response))
    {
      match reply {
        case Ok(data) =>
          outcome := Returned(data);
        case Err(response) =>
          var errorMessage := ChangePasswordDefault;
          if response.Some? {
            if response.value.status == 401 {
              errorMessage := WrongCurrentPassword;
            } else if response.value.status == 400 {
              errorMessage := PasswordRequirements;
            }
          }
          outcome := Thrown(errorMessage);
      }
    }

    /** `createUser`: the response body, or the server's `message` when it sent one. */
    method CreateUser<T>(reply: ApiResult<T>) returns (outcome: Outcome<T>)
      ensures reply.Ok? ==> outcome == Returned(reply.data)
      ensures reply.Err? && reply.response.Some? && Truthy(reply.response.value.message) ==>
                outcome == Thrown(reply.response.value.message.value)
      ensures reply.Err? && !(reply.response.Some? && Truthy(reply.response.value.message)) ==>
                outcome == Thrown(CreateUserDefault)
    {
      match reply {
        case Ok(data) =>
          outcome := Returned(data);
        case Err(response) =>
          var errorMessage := CreateUserDefault;
          if response.Some? && Truthy(response.value.message) {
            errorMessage := response.value.message.value;
          }
          outcome := Thrown(errorMessage);
      }
    }

    /** `deleteUser`: true, or one fixed error whatever the failure. */
    method DeleteUser(reply: ApiResult<()>) returns (outcome: Outcome<bool>)
      ensures outcome == if reply.Ok? then Returned(true) else Thrown(DeleteUserFailed)
    {
      if reply.Ok? {
        outcome := Returned(true);
      } else {
        outcome := Thrown(DeleteUserFailed);
      }
    }
  }
}
