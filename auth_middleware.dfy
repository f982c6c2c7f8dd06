/**
 * The per-request gate: `protect` checks the bearer header, the token and
 * the account; `admin` checks the role of the account `protect` loaded.
 */
module AuthMiddleware {
  import opened Base
  import opened Text
  import opened Accounts

  const NoTokenProvided := "No token provided"
  const InvalidOrExpired := "Invalid or expired token"
  const UserNotFound := "User not found"
  const AccountBlocked := "Your account has been blocked"
  const AccountDeleted := "Your account has been deleted"
  const NotAdmin := "Not authorized as admin"

  /**
   * An `Authorization` header: `scheme` is its text up to the first space and
   * `credential` the second space-separated word (`split(" ")[1]`), None when
   * there is none. As "Bearer" holds no space, the header starts with "Bearer"
   * exactly when its scheme does.
   */
  datatype Header = Header(scheme: string, credential: Option<TokenText>)

  /** Either the request goes on to the next handler with the loaded account, or it is answered here. */
  datatype Gate = Next(user: PublicUser) | Halt(status: nat, message: string)

  predicate WellFormed(header: Option<Header>) {
    header.Some? && StartsWith(header.value.scheme, "Bearer")
  }

  /** The subject of the header's token, when it verifies against the access secret. */
  function Subject(env: Env, header: Header): Option<Id> {
    match header.credential
    case None => None
    case Some(t) => Verify(t, env.accessSecret)
  }

  /** `protect` */
  function Protect(users: seq<User>, env: Env, header: Option<Header>): (g: Gate)
    // the header shape is checked before any verification
    ensures !WellFormed(header) ==> g == Halt(401, NoTokenProvided)
    // a missing second word and every verification failure look the same
    ensures WellFormed(header) && Subject(env, header.value).None? ==> g == Halt(401, InvalidOrExpired)
    ensures WellFormed(header) && Subject(env, header.value).Some? ==>
            var found := FindById(users, Subject(env, header.value).value);
            && (found.None? ==> g == Halt(401, UserNotFound))
            // blocked is checked before deleted
            && (found.Some? && users[found.value].isBlocked ==> g == Halt(403, AccountBlocked))
            && (found.Some? && !users[found.value].isBlocked && users[found.value].isDeleted ==>
                  g == Halt(403, AccountDeleted))
    // the handler runs only for a live account behind a valid token, which it receives without its hash
    ensures g.Next? <==>
            WellFormed(header) && Subject(env, header.value).Some?
            && var found := FindById(users, Subject(env, header.value).value);
               found.Some? && !users[found.value].isBlocked && !users[found.value].isDeleted
    ensures g.Next? ==> g.user == WithoutPassword(users[FindById(users, Subject(env, header.value).value).value])
    ensures g.Halt? ==> g.status == 401 || g.status == 403
  {
    if !WellFormed(header) then Halt(401, NoTokenProvided)
    else match Subject(env, header.value)
      case None => Halt(401, InvalidOrExpired)
      case Some(id) =>
        match FindById(users, id)
        case None => Halt(401, UserNotFound)
        case Some(k) =>
          var u := users[k];
          if u.isBlocked then Halt(403, AccountBlocked)
          else if u.isDeleted then Halt(403, AccountDeleted)
          else Next(WithoutPassword(u))
  }

  /** `admin` */
  function Admin(user: PublicUser): (g: Gate)
    ensures g.Next? <==> user.role == RoleAdmin
    ensures g.Next? ==> g.user == user
    ensures g.Halt? ==> g == Halt(403, NotAdmin)
  {
    if user.role == RoleAdmin then Next(user) else Halt(403, NotAdmin)
  }

  /** `protect` then `admin`, as every admin route is mounted. */
  function ProtectAdmin(users: seq<User>, env: Env, header: Option<Header>): (g: Gate)
    ensures g.Next? <==> Protect(users, env, header).Next? && Protect(users, env, header).user.role == RoleAdmin
    ensures Protect(users, env, header).Halt? ==> g == Protect(users, env, header)
    ensures Protect(users, env, header).Next? && !g.Next? ==> g == Halt(403, NotAdmin)
  {
    match Protect(users, env, header)
    case Next(u) => Admin(u)
    case Halt(s, m) => Halt(s, m)
  }
}
