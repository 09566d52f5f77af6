/** `POST /api/register`: refuse an email that is taken, else insert the user. */
module RegisterRoute {
  import opened Common
  import opened UserTable
  import LoginRoute

  datatype RegisterRequest = RegisterRequest(name: string, email: string, password: string)

  /** The reply: the created row (the route returns it whole), or an error. */
  datatype RegisterReply = Registered(user: User) | RegisterError(status: int, error: string)

  const BadRequest: int := 400
  const EmailTaken: string := "อีเมลนี้มีผู้ใช้แล้ว"
  const ServerError: int := 500
  const RegisterFailed: string := "Register Failed"

  /** The outcome of one registration: the reply and the table afterwards.
      `nextId` is the id the table assigns to the next row. */
  datatype Outcome = Outcome(reply: RegisterReply, users: seq<User>)

  /** One request against the table. `body` is None when it does not parse. */
  function Register(users: seq<User>, nextId: int, body: Option<RegisterRequest>): (o: Outcome)
    ensures body.None? ==> o == Outcome(RegisterError(ServerError, RegisterFailed), users)
    ensures body.Some? && FindByEmail(users, body.value.email).Some? ==>
      o == Outcome(RegisterError(BadRequest, EmailTaken), users)
    ensures body.Some? && FindByEmail(users, body.value.email).None? ==>
      && o.reply == Registered(User(nextId, body.value.name, body.value.email, body.value.password))
      && o.users == users + [o.reply.user]
    ensures |o.users| >= |users| && o.users[..|users|] == users
    ensures EmailsUnique(users) ==> EmailsUnique(o.users)
  {
    match body
    case None => Outcome(RegisterError(ServerError, RegisterFailed), users)
    case Some(req) =>
      match FindByEmail(users, req.email)
      case Some(_) => Outcome(RegisterError(BadRequest, EmailTaken), users)
      case None =>
        var u := User(nextId, req.name, req.email, req.password);
        assert (users + [u])[..|users|] == users;
        Outcome(Registered(u), users + [u])
  }

  /** The table after a run of requests, ids assigned from `nextId` on. */
  function RegisterAll(users: seq<User>, nextId: int, bodies: seq<Option<RegisterRequest>>): seq<User>
    decreases |bodies|
  {
    if bodies == [] then users
    else
      var o := Register(users, nextId, bodies[0]);
      RegisterAll(o.users, if o.reply.Registered? then nextId + 1 else nextId, bodies[1..])
  }

  /** Emails stay unique after any sequence of registrations, and the users
      already there stay in place. */
  lemma {:induction false} RegisterAllKeepsUnique(users: seq<User>, nextId: int, bodies: seq<Option<RegisterRequest>>)
    requires EmailsUnique(users)
    ensures EmailsUnique(RegisterAll(users, nextId, bodies))
    ensures |RegisterAll(users, nextId, bodies)| >= |users|
    ensures RegisterAll(users, nextId, bodies)[..|users|] == users
    decreases |bodies|
  {
    if bodies != [] {
      var o := Register(users, nextId, bodies[0]);
      var next := if o.reply.Registered? then nextId + 1 else nextId;
      RegisterAllKeepsUnique(o.users, next, bodies[1..]);
      var all := RegisterAll(o.users, next, bodies[1..]);
      assert all[..|users|] == all[..|o.users|][..|users|];
    }
  }

  /** Once registered, the same email and password log in and give back the
      new user's id, name and email. */
  lemma RegisteredCanLogIn(users: seq<User>, nextId: int, req: RegisterRequest)
    requires EmailsUnique(users)
    requires Register(users, nextId, Some(req)).reply.Registered?
    ensures LoginRoute.Login(Register(users, nextId, Some(req)).users, Some(LoginRoute.Credentials(req.email, req.password)))
      == LoginRoute.LoggedIn(LoginRoute.UserView(nextId, req.name, req.email))
  {
    var o := Register(users, nextId, Some(req));
    var u := User(nextId, req.name, req.email, req.password);
    assert o.users[|users|] == u;
    FindByEmailUnique(o.users, u);
  }

  /** The table as the route mutates it. */
  class UserStore {
    var users: seq<User>
    var nextId: int

    ghost predicate Valid()
      reads this
    {
      EmailsUnique(users)
    }

    constructor (initial: seq<User>, firstId: int)
      requires EmailsUnique(initial)
      ensures Valid()
      ensures users == initial && nextId == firstId
    {
      users := initial;
      nextId := firstId;
    }

    /** `POST`: the reply and the new table are those of `Register`; only a
      successful insert uses up an id. */
    method HandleRegister(body: Option<RegisterRequest>) returns (reply: RegisterReply)
      requires Valid()
      modifies this
      ensures Valid()
      ensures reply == Register(old(users), old(nextId), body).reply
      ensures users == Register(old(users), old(nextId), body).users
      ensures nextId == if reply.Registered? then old(nextId) + 1 else old(nextId)
    {
      if body.None? {
        return RegisterError(ServerError, RegisterFailed);
      }
      var req := body.value;
      var existing := FindByEmail(users, req.email);
      if existing.Some? {
        return RegisterError(BadRequest, EmailTaken);
      }
      var u := User(nextId, req.name, req.email, req.password);
      users := users + [u];
      nextId := nextId + 1;
      reply := Registered(u);
    }
  }
}
