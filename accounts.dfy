/**
 * The server's shared vocabulary: the user record of the document store, the
 * password hash, signed tokens and the secrets they are signed with, HTTP
 * responses, and the store itself with its two lookups (`findOne({ email })`
 * and `findById`).
 */
module Accounts {
  import opened Base

  type Id = nat

  const RoleUser := "user"
  const RoleAdmin := "admin"

  /**
   * A bcrypt hash kept symbolic: the salt it was made with and the secret it
   * commits to. Nothing but Matches looks inside, so the model treats bcrypt as
   * an ideal one-way commitment.
   */
  datatype PasswordHash = Bcrypt(salt: nat, secret: string)

  /** `bcrypt.compare(plain, hash)` */
  predicate Matches(plain: string, h: PasswordHash) {
    h.secret == plain
  }

  /** `bcrypt.hash(plain, salt)`: the hash accepts its own secret and no other. */
  function Hash(plain: string, salt: nat): (h: PasswordHash)
    ensures Matches(plain, h)
    ensures forall other :: Matches(other, h) ==> other == plain
  {
    Bcrypt(salt, plain)
  }

  /** A stored account. */
  datatype User = User(
    id: Id, name: string, email: string, password: PasswordHash, role: string,
    isBlocked: bool, isDeleted: bool, profileImage: string, bio: string, createdAt: nat)

  /** An account as read with `.select("-password")`: every field but the hash. */
  datatype PublicUser = PublicUser(
    id: Id, name: string, email: string, role: string,
    isBlocked: bool, isDeleted: bool, profileImage: string, bio: string, createdAt: nat)

  function WithoutPassword(u: User): PublicUser {
    PublicUser(u.id, u.name, u.email, u.role, u.isBlocked, u.isDeleted, u.profileImage, u.bio, u.createdAt)
  }

  /**
   * A token as it travels in a header or cookie: either a JWT signed with `key`
   * for subject `subject` (possibly past its expiry), or text that is no JWT at all.
   */
  datatype TokenText = Jwt(key: string, subject: Id, expired: bool) | Garbage

  /** `jwt.verify(token, key)`: the subject, or a failure for a bad signature, an expired token or malformed text. */
  function Verify(t: TokenText, key: string): (r: Option<Id>)
    ensures r.Some? <==> t.Jwt? && t.key == key && !t.expired
    ensures r.Some? ==> r.value == t.subject
  {
    if t.Jwt? && t.key == key && !t.expired then Some(t.subject) else None
  }

  /** The environment the server reads secrets and mode from; the secrets are opaque and need not differ or agree. */
  datatype Env = Env(accessSecret: string, refreshSecret: string, jwtSecret: string, nodeEnv: string)

  /** `generateAccessToken(user)` */
  function MintAccessToken(env: Env, u: User): TokenText {
    Jwt(env.accessSecret, u.id, false)
  }

  /** `generateRefreshToken(user)` */
  function MintRefreshToken(env: Env, u: User): TokenText {
    Jwt(env.refreshSecret, u.id, false)
  }

  /** What a handler does to the client's cookies. */
  datatype Cookie = NoCookie | SetCookie(name: string, value: TokenText) | ClearCookie(name: string)

  /** The JSON bodies the handlers send. */
  datatype Body =
    | Message(text: string)
    | ValidationErrors(messages: seq<string>)
      /** `{ _id, name, email, profileImage, role, accessToken }` */
    | Session(id: Id, name: string, email: string, profileImage: string, role: string, accessToken: TokenText)
      /** `{ _id, name, email, role, token }` of the admin login */
    | AdminSession(id: Id, name: string, email: string, role: string, token: TokenText)
      /** a whole stored document, hash included */
    | Record(user: User)
      /** a document read without its hash */
    | Account(account: PublicUser)
      /** JSON `null` */
    | NoDocument
    | Listing(users: seq<PublicUser>, page: int, pages: int, total: nat)
    | UserCount(totalUsers: nat)
    | BlockState(text: string, isBlocked: bool)
      /** `{ _id, name, email, profileImage, token }` of the profile update */
    | ProfileSaved(id: Id, name: string, email: string, profileImage: string, bearer: Option<TokenText>)

  datatype Response = Response(status: nat, body: Body, cookie: Cookie)

  /** The session body that login, registration and refresh send for u. */
  function SessionBody(env: Env, u: User): Body {
    Session(u.id, u.name, u.email, u.profileImage, u.role, MintAccessToken(env, u))
  }

  /** `User.findOne({ email })`: the first record, in store order, with that e-mail, deleted or not. */
  function FindByEmail(users: seq<User>, email: string): (r: Option<nat>)
    ensures r.Some? ==> r.value < |users| && users[r.value].email == email
    ensures r.Some? ==> forall k :: 0 <= k < r.value ==> users[k].email != email
    ensures r.None? <==> forall k :: 0 <= k < |users| ==> users[k].email != email
  {
    if |users| == 0 then None
    else if users[0].email == email then Some(0)
    else match FindByEmail(users[1..], email)
      case None => None
      case Some(k) => Some(k + 1)
  }

  /** `User.findById(id)` */
  function FindById(users: seq<User>, id: Id): (r: Option<nat>)
    ensures r.Some? ==> r.value < |users| && users[r.value].id == id
    ensures r.Some? ==> forall k :: 0 <= k < r.value ==> users[k].id != id
    ensures r.None? <==> forall k :: 0 <= k < |users| ==> users[k].id != id
  {
    if |users| == 0 then None
    else if users[0].id == id then Some(0)
    else match FindById(users[1..], id)
      case None => None
      case Some(k) => Some(k + 1)
  }

  /** Rewriting a record without changing its e-mail leaves every e-mail lookup where it was. */
  lemma {:induction false} FindByEmailAfterUpdate(users: seq<User>, k: nat, v: User, email: string)
    requires k < |users| && v.email == users[k].email
    ensures FindByEmail(users[k := v], email) == FindByEmail(users, email)
  {
    if k > 0 {
      assert users[k := v][1..] == users[1..][k - 1 := v];
      FindByEmailAfterUpdate(users[1..], k - 1, v, email);
    }
  }

  /** Rewriting a record without changing its id leaves every id lookup where it was. */
  lemma {:induction false} FindByIdAfterUpdate(users: seq<User>, k: nat, v: User, id: Id)
    requires k < |users| && v.id == users[k].id
    ensures FindById(users[k := v], id) == FindById(users, id)
  {
    if k > 0 {
      assert users[k := v][1..] == users[1..][k - 1 := v];
      FindByIdAfterUpdate(users[1..], k - 1, v, id);
    }
  }

  /** Ids are unique in a store that only this model's operations have written. */
  ghost predicate UniqueIds(users: seq<User>) {
    forall k, l :: 0 <= k < l < |users| ==> users[k].id != users[l].id
  }

  /** In a store with unique ids, the record with a given id is found at its own index. */
  lemma FindByIdAtIndex(users: seq<User>, k: nat)
    requires UniqueIds(users) && k < |users|
    ensures FindById(users, users[k].id) == Some(k)
  {
  }

  /** A record as `User.create` makes it, with the schema's defaults for the fields the caller leaves out. */
  function NewUser(id: Id, name: string, email: string, password: PasswordHash, role: string, bio: string, now: nat): User {
    User(id, name, email, password, role, false, false, "", bio, now)
  }

  /** The document store's user collection, in insertion order. */
  class Database {
    var users: seq<User>
    var nextId: Id

    ghost predicate Valid()
      reads this
    {
      UniqueIds(users) && forall k :: 0 <= k < |users| ==> users[k].id < nextId
    }

    constructor ()
      ensures Valid() && users == [] && nextId == 0
    {
      users := [];
      nextId := 0;
    }

    /** `User.create(...)`: appends one record under a fresh id. */
    method Create(name: string, email: string, password: PasswordHash, role: string, bio: string, now: nat)
      returns (u: User)
      requires Valid()
      modifies this
      ensures Valid()
      ensures u == NewUser(old(nextId), name, email, password, role, bio, now)
      ensures users == old(users) + [u]
      ensures forall k :: 0 <= k < |old(users)| ==> old(users)[k].id != u.id
    {
      u := NewUser(nextId, name, email, password, role, bio, now);
      users := users + [u];
      nextId := nextId + 1;
    }

    /** `record.save()` / `findByIdAndUpdate`: replaces the record at index k, whose id stays. */
    method Save(k: nat, u: User)
      requires Valid() && k < |users| && u.id == users[k].id
      modifies this
      ensures Valid()
      ensures users == old(users)[k := u] && nextId == old(nextId)
    {
      users := users[k := u];
    }
  }
}
