/** The credential check of `POST /api/login`. */
module LoginRoute {
  import opened Common
  import opened UserTable

  datatype Credentials = Credentials(email: string, password: string)

  /** The signed-in user as the route returns it: no password. */
  datatype UserView = UserView(id: int, name: string, email: string)

  datatype LoginReply = LoggedIn(user: UserView) | LoginError(status: int, error: string)

  const Unauthorized: int := 401
  const BadCredentials: string := "อีเมลหรือรหัสผ่านไม่ถูกต้อง"
  const ServerError: int := 500
  const LoginFailed: string := "Login Failed"

  function ViewOf(u: User): (v: UserView)
    ensures v.id == u.id && v.name == u.name && v.email == u.email
  {
    UserView(u.id, u.name, u.email)
  }

  /** `body` is None when the request body does not parse. The route only
      reads the table. */
  function Login(users: seq<User>, body: Option<Credentials>): (r: LoginReply)
    ensures body.None? ==> r == LoginError(ServerError, LoginFailed)
    ensures body.Some? && FindByEmail(users, body.value.email).None? ==> r == LoginError(Unauthorized, BadCredentials)
    ensures body.Some? && FindByEmail(users, body.value.email).Some? ==>
      var u := FindByEmail(users, body.value.email).value;
      && (u.password != body.value.password ==> r == LoginError(Unauthorized, BadCredentials))
      && (u.password == body.value.password ==> r == LoggedIn(ViewOf(u)))
  {
    match body
    case None => LoginError(ServerError, LoginFailed)
    case Some(c) =>
      match FindByEmail(users, c.email)
      case None => LoginError(Unauthorized, BadCredentials)
      case Some(u) =>
        if u.password != c.password then LoginError(Unauthorized, BadCredentials)
        else LoggedIn(ViewOf(u))
  }

  /** With unique emails, login succeeds exactly when some user has both the
      email and the password, and then it returns that user's id, name and
      email. */
  lemma LoginIff(users: seq<User>, c: Credentials)
    requires EmailsUnique(users)
    ensures Login(users, Some(c)).LoggedIn? <==> exists u :: u in users && u.email == c.email && u.password == c.password
    ensures forall u :: u in users && u.email == c.email && u.password == c.password ==> Login(users, Some(c)) == LoggedIn(ViewOf(u))
  {
    forall u | u in users && u.email == c.email
      ensures FindByEmail(users, c.email) == Some(u)
    {
      FindByEmailUnique(users, u);
    }
  }

  /** Every failure for a parsed body is the same 401: the reply does not tell
      an unknown email from a wrong password. */
  lemma LoginFailureIsUniform(users: seq<User>, c: Credentials)
    requires !Login(users, Some(c)).LoggedIn?
    ensures Login(users, Some(c)) == LoginError(Unauthorized, BadCredentials)
  {
  }
}
