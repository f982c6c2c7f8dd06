/**
 * The user-facing session handlers: POST /auth/register, /auth/login,
 * /auth/refresh and /auth/logout. Registration writes the store; the other
 * three only read it.
 */
module AuthController {
  import opened Base
  import opened Accounts
  import Validation

  const RefreshCookieName := "refreshToken"

  const UserExists := "User already exists"
  const InvalidCredentials := "Invalid credentials"
  const LoginDeleted := "Your account has been deleted"
  const LoginBlocked := "Your account has been blocked by admin"
  const NoRefreshToken := "No refresh token"
  const InvalidRefreshToken := "Invalid refresh token"
  const UserNotFound := "User not found"
  const RefreshBlocked := "Your account has been blocked"
  const RefreshDeleted := "Your account has been deleted"
  const LoggedOut := "Logged out successfully"

  /** The session a successful login or registration hands out: the body and the refresh cookie. */
  function Issued(env: Env, u: User, status: nat): Response {
    Response(status, SessionBody(env, u), SetCookie(RefreshCookieName, MintRefreshToken(env, u)))
  }

  /** POST /auth/register behind `registerValidation`. */
  method RegisterUser(db: Database, env: Env, isEmail: string -> bool,
                      name: string, email: string, password: string, salt: nat, now: nat)
    returns (resp: Response)
    requires db.Valid()
    modifies db
    ensures db.Valid()
    ensures var errs := Validation.RegisterErrors(name, email, password, isEmail);
      errs != [] ==>
        resp == Response(400, ValidationErrors(errs), NoCookie)
        && db.users == old(db.users) && db.nextId == old(db.nextId)
    ensures Validation.RegisterErrors(name, email, password, isEmail) == []
            && FindByEmail(old(db.users), email).Some? ==>
        resp == Response(400, Message(UserExists), NoCookie)
        && db.users == old(db.users) && db.nextId == old(db.nextId)
    ensures Validation.RegisterErrors(name, email, password, isEmail) == []
            && FindByEmail(old(db.users), email).None? ==>
        var u := NewUser(old(db.nextId), name, email, Hash(password, salt), RoleUser, "", now);
        db.users == old(db.users) + [u] && resp == Issued(env, u, 201)
  {
    var errs := Validation.RegisterErrors(name, email, password, isEmail);
    if errs != [] {
      return Response(400, ValidationErrors(errs), NoCookie);
    }
    if FindByEmail(db.users, email).Some? {
      return Response(400, Message(UserExists), NoCookie);
    }
    var hashed := Hash(password, salt);
    var u := db.Create(name, email, hashed, RoleUser, "", now);
    resp := Issued(env, u, 201);
  }

  /** Whether the account found for this e-mail may obtain a session with this password. */
  ghost predicate LoginEligible(users: seq<User>, email: string, password: string) {
    var found := FindByEmail(users, email);
    found.Some? && !users[found.value].isDeleted
    && Matches(password, users[found.value].password) && !users[found.value].isBlocked
  }

  /** POST /auth/login behind `loginValidation`. */
  function LoginUser(users: seq<User>, env: Env, isEmail: string -> bool, email: string, password: Option<string>)
    : (r: Response)
    // tokens and the cookie come together, and only for an eligible account
    ensures r.status == 200 <==>
            Validation.LoginErrors(email, password, isEmail) == [] && LoginEligible(users, email, password.value)
    ensures r.status == 200 ==> r == Issued(env, users[FindByEmail(users, email).value], 200)
    ensures r.status != 200 ==> r.cookie == NoCookie
    // an unknown e-mail and a wrong password are indistinguishable
    ensures Validation.LoginErrors(email, password, isEmail) == [] &&
            (FindByEmail(users, email).None? ||
             (!users[FindByEmail(users, email).value].isDeleted &&
              !Matches(password.value, users[FindByEmail(users, email).value].password))) ==>
            r == Response(400, Message(InvalidCredentials), NoCookie)
    // deleted is decided before the password is compared
    ensures Validation.LoginErrors(email, password, isEmail) == [] &&
            FindByEmail(users, email).Some? && users[FindByEmail(users, email).value].isDeleted ==>
            r == Response(403, Message(LoginDeleted), NoCookie)
    // blocked is decided after it: a blocked account with a wrong password sees 400
    ensures Validation.LoginErrors(email, password, isEmail) == [] &&
            FindByEmail(users, email).Some? && !users[FindByEmail(users, email).value].isDeleted &&
            users[FindByEmail(users, email).value].isBlocked ==>
            (r.status == 403 <==> Matches(password.value, users[FindByEmail(users, email).value].password))
    ensures Validation.LoginErrors(email, password, isEmail) == [] &&
            FindByEmail(users, email).Some? && !users[FindByEmail(users, email).value].isDeleted &&
            users[FindByEmail(users, email).value].isBlocked &&
            Matches(password.value, users[FindByEmail(users, email).value].password) ==>
            r == Response(403, Message(LoginBlocked), NoCookie)
    // a failed validation answers with the rule messages
    ensures Validation.LoginErrors(email, password, isEmail) != [] ==>
            r == Response(400, ValidationErrors(Validation.LoginErrors(email, password, isEmail)), NoCookie)
  {
    var errs := Validation.LoginErrors(email, password, isEmail);
    if errs != [] then Response(400, ValidationErrors(errs), NoCookie)
    else match FindByEmail(users, email)
      case None => Response(400, Message(InvalidCredentials), NoCookie)
      case Some(k) =>
        var u := users[k];
        if u.isDeleted then Response(403, Message(LoginDeleted), NoCookie)
        else if !Matches(password.value, u.password) then Response(400, Message(InvalidCredentials), NoCookie)
        else if u.isBlocked then Response(403, Message(LoginBlocked), NoCookie)
        else Issued(env, u, 200)
  }

  /** A deleted account's login answer does not depend on the password supplied. */
  lemma DeletedLoginIgnoresPassword(users: seq<User>, env: Env, isEmail: string -> bool,
                                    email: string, p1: string, p2: string)
    requires FindByEmail(users, email).Some? && users[FindByEmail(users, email).value].isDeleted
    ensures LoginUser(users, env, isEmail, email, Some(p1)) == LoginUser(users, env, isEmail, email, Some(p2))
  {
  }

  /** POST /auth/refresh: the `refreshToken` cookie (None when absent or empty). */
  function RefreshToken(users: seq<User>, env: Env, cookie: Option<TokenText>): (r: Response)
    ensures cookie.None? ==> r == Response(401, Message(NoRefreshToken), NoCookie)
    ensures cookie.Some? && Verify(cookie.value, env.refreshSecret).None? ==>
            r == Response(403, Message(InvalidRefreshToken), NoCookie)
    ensures cookie.Some? && Verify(cookie.value, env.refreshSecret).Some? ==>
            var found := FindById(users, Verify(cookie.value, env.refreshSecret).value);
            && (found.None? ==> r == Response(404, Message(UserNotFound), NoCookie))
            // blocked is checked before deleted
            && (found.Some? && users[found.value].isBlocked ==> r == Response(403, Message(RefreshBlocked), NoCookie))
            && (found.Some? && !users[found.value].isBlocked && users[found.value].isDeleted ==>
                  r == Response(403, Message(RefreshDeleted), NoCookie))
            && (found.Some? && !users[found.value].isBlocked && !users[found.value].isDeleted ==>
                  r == Response(200, SessionBody(env, users[found.value]), NoCookie))
    // a refresh mints an access token only: it never sets or rotates a cookie
    ensures r.cookie == NoCookie
    ensures r.status == 200 <==> r.body.Session?
  {
    match cookie
    case None => Response(401, Message(NoRefreshToken), NoCookie)
    case Some(t) =>
      match Verify(t, env.refreshSecret)
      case None => Response(403, Message(InvalidRefreshToken), NoCookie)
      case Some(id) =>
        match FindById(users, id)
        case None => Response(404, Message(UserNotFound), NoCookie)
        case Some(k) =>
          var u := users[k];
          if u.isBlocked then Response(403, Message(RefreshBlocked), NoCookie)
          else if u.isDeleted then Response(403, Message(RefreshDeleted), NoCookie)
          else Response(200, SessionBody(env, u), NoCookie)
  }

  /** POST /auth/logout: clears the cookie and does nothing else. */
  function LogoutUser(): (r: Response)
    ensures r.status == 200 && r.cookie == ClearCookie(RefreshCookieName)
  {
    Response(200, Message(LoggedOut), ClearCookie(RefreshCookieName))
  }
}
