/**
 * The admin handlers: the dashboard count, the roster listing with search
 * and pagination, create, update, soft delete and block toggle, each mounted
 * behind `protect` and `admin` (see AuthMiddleware.ProtectAdmin); and the
 * admin login, logout and refresh handlers, which no route mounts.
 */
module AdminController {
  import opened Base
  import opened Text
  import opened Accounts

  const InvalidAdminCredentials := "Invalid admin credentials"
  const AdminLoggedOut := "Admin logged out successfully"
  const ListError := "Server error fetching users"
  const EmailTaken := "User with this email already exists"
  /** What bcryptjs throws for `hash(undefined, salt)`; createUser's catch sends it back with 400. */
  const IllegalArguments := "Illegal arguments: undefined, string"
  const UserNotFound := "User not found"
  const UserDeleted := "User deleted successfully"
  const UserBlocked := "User blocked successfully"
  const UserUnblocked := "User unblocked successfully"
  const NoAdminRefreshToken := "No admin refresh token"
  const InvalidAdminRefreshToken := "Invalid admin refresh token"
  const AdminNotFound := "Admin not found"

  // ---------------------------------------------------------------- login

  /** `loginAdmin`; no route in adminRoutes.js mounts it. */
  function LoginAdmin(users: seq<User>, env: Env, email: string, password: string): (r: Response)
    ensures r.status == 200 <==>
            FindByEmail(users, email).Some? && users[FindByEmail(users, email).value].role == RoleAdmin
            && Matches(password, users[FindByEmail(users, email).value].password)
    ensures r.status == 200 ==>
            var u := users[FindByEmail(users, email).value];
            r.body == AdminSession(u.id, u.name, u.email, u.role, Jwt(env.jwtSecret, u.id, false))
    // every failure looks the same
    ensures r.status != 200 ==> r == Response(401, Message(InvalidAdminCredentials), NoCookie)
    // no refresh cookie is set, so `refreshAdminToken` has nothing to read afterwards
    ensures r.cookie == NoCookie
  {
    match FindByEmail(users, email)
    case Some(k) =>
      var u := users[k];
      if u.role == RoleAdmin && Matches(password, u.password) then
        Response(200, AdminSession(u.id, u.name, u.email, u.role, Jwt(env.jwtSecret, u.id, false)), NoCookie)
      else Response(401, Message(InvalidAdminCredentials), NoCookie)
    case None => Response(401, Message(InvalidAdminCredentials), NoCookie)
  }

  /** The admin login never looks at the blocked and deleted flags. */
  lemma LoginAdminIgnoresFlags(users: seq<User>, env: Env, email: string, password: string,
                               k: nat, blocked: bool, deleted: bool)
    requires k < |users|
    ensures LoginAdmin(users[k := users[k].(isBlocked := blocked, isDeleted := deleted)], env, email, password)
            == LoginAdmin(users, env, email, password)
  {
    FindByEmailAfterUpdate(users, k, users[k].(isBlocked := blocked, isDeleted := deleted), email);
  }

  /** `logoutAdmin` (not mounted): a message, and no cookie is cleared. */
  function LogoutAdmin(): (r: Response)
    ensures r.status == 200 && r.cookie == NoCookie
  {
    Response(200, Message(AdminLoggedOut), NoCookie)
  }

  // ---------------------------------------------------------------- dashboard

  function CountNotDeleted(users: seq<User>): (n: nat)
    ensures n <= |users|
    ensures (forall k :: 0 <= k < |users| ==> !users[k].isDeleted) ==> n == |users|
  {
    if |users| == 0 then 0
    else (if users[0].isDeleted then 0 else 1) + CountNotDeleted(users[1..])
  }

  /** The positions of the records `{ isDeleted: { $ne: true } }` selects. */
  function LiveIndices(users: seq<User>): set<nat> {
    set k: nat | k < |users| && !users[k].isDeleted
  }

  lemma {:induction false} CountNotDeletedAppend(a: seq<User>, b: seq<User>)
    ensures CountNotDeleted(a + b) == CountNotDeleted(a) + CountNotDeleted(b)
  {
    if a != [] {
      assert (a + b)[0] == a[0] && (a + b)[1..] == a[1..] + b;
      CountNotDeletedAppend(a[1..], b);
    } else {
      assert a + b == b;
    }
  }

  /** The running count is `countDocuments`: the number of records not soft-deleted. */
  lemma {:induction false} CountNotDeletedIsLiveCount(users: seq<User>)
    ensures CountNotDeleted(users) == |LiveIndices(users)|
  {
    if users == [] {
      assert LiveIndices(users) == {};
    } else {
      var p := users[..|users| - 1];
      var x := users[|users| - 1];
      assert users == p + [x];
      CountNotDeletedIsLiveCount(p);
      CountNotDeletedAppend(p, [x]);
      assert CountNotDeleted([x]) == if x.isDeleted then 0 else 1;
      var last: set<nat> := if x.isDeleted then {} else {|p|};
      assert LiveIndices(users) == LiveIndices(p) + last;
      assert |p| !in LiveIndices(p);
    }
  }

  /** GET /admin/dashboard: every record not soft-deleted, admins included. */
  function GetDashboard(users: seq<User>): (r: Response)
    ensures r.status == 200 && r.body.UserCount? && r.body.totalUsers <= |users|
    ensures r.body.totalUsers == |LiveIndices(users)|
    ensures (forall k :: 0 <= k < |users| ==> !users[k].isDeleted) ==> r.body.totalUsers == |users|
  {
    CountNotDeletedIsLiveCount(users);
    Response(200, UserCount(CountNotDeleted(users)), NoCookie)
  }

  /** Soft-deleting a live record shows on the dashboard as one user fewer. */
  lemma DashboardAfterSoftDelete(users: seq<User>, k: nat)
    requires k < |users| && !users[k].isDeleted
    ensures GetDashboard(SoftDelete(users, k)).body.totalUsers == GetDashboard(users).body.totalUsers - 1
  {
    SoftDeleteLowersCount(users, k);
  }

  /** Soft-deleting a live record lowers the dashboard count by exactly one. */
  lemma {:induction false} SoftDeleteLowersCount(users: seq<User>, k: nat)
    requires k < |users| && !users[k].isDeleted
    ensures CountNotDeleted(SoftDelete(users, k)) == CountNotDeleted(users) - 1
  {
    if k > 0 {
      assert SoftDelete(users, k)[1..] == SoftDelete(users[1..], k - 1);
      SoftDeleteLowersCount(users[1..], k - 1);
    } else {
      assert SoftDelete(users, k)[1..] == users[1..];
    }
  }

  // ---------------------------------------------------------------- listing

  /**
   * The query string of GET /admin/users. `search` is "" when absent; `limit` and
   * `page` are the values of `Number(...)`, with 0 standing for every falsy
   * result (absent, empty, not a number, zero).
   */
  datatype ListQuery = ListQuery(search: string, limit: int, page: int)

  /** `Number(req.query.limit) || 5` */
  function PageSize(q: ListQuery): (n: int)
    ensures n != 0
    ensures q.limit == 0 ==> n == 5
  {
    if q.limit == 0 then 5 else q.limit
  }

  /** `Number(req.query.page) || 1` */
  function PageNumber(q: ListQuery): (n: int)
    ensures q.page == 0 ==> n == 1
  {
    if q.page == 0 then 1 else q.page
  }

  /** The query filter: never an admin, never soft-deleted, and with a search term a name or e-mail hit. */
  predicate Listed(u: User, search: string) {
    u.role != RoleAdmin && !u.isDeleted
    && (search != "" ==> ContainsIgnoringCase(u.name, search) || ContainsIgnoringCase(u.email, search))
  }

  /** The records the query filter keeps, each as often as it is stored, in store order. */
  function Matching(users: seq<User>, search: string): (r: seq<User>)
    ensures |r| <= |users|
    ensures forall u :: u in r <==> u in users && Listed(u, search)
    ensures forall u :: multiset(r)[u] == if Listed(u, search) then multiset(users)[u] else 0
  {
    if |users| == 0 then []
    else
      assert users == [users[0]] + users[1..];
      (if Listed(users[0], search) then [users[0]] else []) + Matching(users[1..], search)
  }

  /** The filter distributes over concatenation: store order is kept. */
  lemma {:induction false} MatchingAppend(a: seq<User>, b: seq<User>, search: string)
    ensures Matching(a + b, search) == Matching(a, search) + Matching(b, search)
  {
    if a != [] {
      assert (a + b)[0] == a[0] && (a + b)[1..] == a[1..] + b;
      MatchingAppend(a[1..], b, search);
    } else {
      assert a + b == b;
    }
  }

  predicate NewestFirst(s: seq<User>) {
    forall i, j :: 0 <= i < j < |s| ==> s[i].createdAt >= s[j].createdAt
  }

  /** A record at least as new as everything after it can go in front. */
  lemma ConsNewestFirst(x: User, t: seq<User>)
    requires NewestFirst(t)
    requires forall y :: y in t ==> x.createdAt >= y.createdAt
    ensures NewestFirst([x] + t)
  {
    var r := [x] + t;
    forall i, j | 0 <= i < j < |r| ensures r[i].createdAt >= r[j].createdAt {
      assert r[j] == t[j - 1];
      if i > 0 { assert r[i] == t[i - 1]; }
    }
  }

  /** What is inserted behind the head of a newest-first sequence is no newer than that head. */
  lemma HeadBoundsInsertion(s: seq<User>, u: User, rest: seq<User>)
    requires NewestFirst(s) && |s| > 0 && u.createdAt < s[0].createdAt
    requires multiset(rest) == multiset(s[1..]) + multiset{u}
    ensures forall y :: y in rest ==> s[0].createdAt >= y.createdAt
  {
    forall y | y in rest ensures s[0].createdAt >= y.createdAt {
      assert y in multiset(rest);
      if y != u {
        assert y in s[1..];
        var m :| 0 <= m < |s[1..]| && s[1..][m] == y;
        assert s[m + 1] == y;
      }
    }
  }

  function InsertNewest(u: User, s: seq<User>): (r: seq<User>)
    requires NewestFirst(s)
    ensures NewestFirst(r)
    ensures multiset(r) == multiset(s) + multiset{u}
  {
    if s == [] || u.createdAt >= s[0].createdAt then
      ConsNewestFirst(u, s);
      [u] + s
    else
      var rest := InsertNewest(u, s[1..]);
      HeadBoundsInsertion(s, u, rest);
      ConsNewestFirst(s[0], rest);
      assert s == [s[0]] + s[1..];
      [s[0]] + rest
  }

  /** `.sort({ createdAt: -1 })`; records created at the same instant keep their store order. */
  function SortNewestFirst(s: seq<User>): (r: seq<User>)
    ensures NewestFirst(r)
    ensures multiset(r) == multiset(s)
  {
    if s == [] then []
    else
      assert s == [s[0]] + s[1..];
      InsertNewest(s[0], SortNewestFirst(s[1..]))
  }

  /** `.skip(skip).limit(take)` */
  function Window(s: seq<User>, skip: nat, take: nat): (r: seq<User>)
    ensures |r| <= take
    ensures |r| == if skip >= |s| then 0 else if take < |s| - skip then take else |s| - skip
    ensures forall k :: 0 <= k < |r| ==> skip + k < |s| && r[k] == s[skip + k]
  {
    if skip >= |s| then []
    else if take < |s| - skip then s[skip..skip + take]
    else s[skip..]
  }

  function Profiles(s: seq<User>): (r: seq<PublicUser>)
    ensures |r| == |s| && forall k :: 0 <= k < |s| ==> r[k] == WithoutPassword(s[k])
  {
    seq(|s|, k requires 0 <= k < |s| => WithoutPassword(s[k]))
  }

  function Abs(n: int): nat {
    if n < 0 then -n else n
  }

  /** `Math.ceil(n / d)` for a non-zero divisor of either sign. */
  function CeilDiv(n: nat, d: int): (r: int)
    requires d != 0
    ensures d > 0 ==> r * d >= n && (r - 1) * d < n
    ensures d < 0 ==> r * d <= n && (r - 1) * d > n
  {
    if d > 0 then (n + d - 1) / d else -(n / -d)
  }

  /** The matches of a listing query, newest first, before the page is cut. */
  function Ordered(users: seq<User>, search: string): (r: seq<User>)
    ensures multiset(r) == multiset(Matching(users, search))
    ensures NewestFirst(r)
    ensures forall u :: u in r ==> Listed(u, search)
  {
    var m := Matching(users, search);
    var r := SortNewestFirst(m);
    assert forall u :: u in r ==> u in multiset(m);
    r
  }

  /** `.skip(skip).limit(take)` over the ordered matches, hashes removed. */
  function ListingPage(users: seq<User>, search: string, skip: nat, take: nat): (page: seq<PublicUser>)
    ensures |page| <= take
    ensures forall k :: 0 <= k < |page| ==>
              skip + k < |Ordered(users, search)| && page[k] == WithoutPassword(Ordered(users, search)[skip + k])
    ensures forall p :: p in page ==>
              p.role != RoleAdmin && !p.isDeleted
              && (search != "" ==> ContainsIgnoringCase(p.name, search) || ContainsIgnoringCase(p.email, search))
    ensures forall i, j :: 0 <= i < j < |page| ==> page[i].createdAt >= page[j].createdAt
  {
    var ordered := Ordered(users, search);
    var w := Window(ordered, skip, take);
    assert forall k :: 0 <= k < |w| ==> w[k] in ordered;
    Profiles(w)
  }

  /** GET /admin/users */
  function GetAllUsers(users: seq<User>, q: ListQuery): (r: Response)
    // a negative skip is refused by the store and lands in the handler's catch
    ensures PageSize(q) * (PageNumber(q) - 1) < 0 <==> r == Response(500, Message(ListError), NoCookie)
    ensures r.status == 200 || r.status == 500
    ensures r.status == 200 ==>
            var size := PageSize(q);
            var skip := size * (PageNumber(q) - 1);
            skip >= 0 && r.cookie == NoCookie
            && r == Response(200, Listing(ListingPage(users, q.search, skip, Abs(size)), PageNumber(q),
                                          CeilDiv(|Matching(users, q.search)|, size),
                                          |Matching(users, q.search)|), NoCookie)
    // the page holds as many records as remain after the offset, up to the page size
    ensures r.status == 200 ==>
            var size := PageSize(q);
            var skip := size * (PageNumber(q) - 1);
            var total := |Matching(users, q.search)|;
            |r.body.users| == (if skip >= total then 0 else if Abs(size) < total - skip then Abs(size) else total - skip)
  {
    var size := PageSize(q);
    var skip := size * (PageNumber(q) - 1);
    if skip < 0 then Response(500, Message(ListError), NoCookie)
    else
      var total := |Matching(users, q.search)|;
      assert |Ordered(users, q.search)| == total by {
        assert |multiset(Ordered(users, q.search))| == |multiset(Matching(users, q.search))|;
      }
      Response(200, Listing(ListingPage(users, q.search, skip, Abs(size)), PageNumber(q), CeilDiv(total, size), total), NoCookie)
  }

  // ---------------------------------------------------------------- roster changes

  /** `findByIdAndUpdate(id, { isDeleted: true })` on the record at k. */
  function SoftDelete(users: seq<User>, k: nat): (r: seq<User>)
    requires k < |users|
    ensures |r| == |users| && r[k].isDeleted
    ensures r[k] == users[k].(isDeleted := true)
    ensures forall j :: 0 <= j < |users| && j != k ==> r[j] == users[j]
  {
    users[k := users[k].(isDeleted := true)]
  }

  /** Deleting the same record twice leaves the store as deleting it once. */
  lemma SoftDeleteIdempotent(users: seq<User>, k: nat)
    requires k < |users|
    ensures SoftDelete(SoftDelete(users, k), k) == SoftDelete(users, k)
  {
  }

  /** A soft-deleted record disappears from every listing. */
  lemma SoftDeletedNeverListed(users: seq<User>, k: nat, search: string)
    requires k < |users|
    ensures SoftDelete(users, k)[k] !in Matching(SoftDelete(users, k), search)
  {
  }

  /** `user.isBlocked = !user.isBlocked` on the record at k. */
  function ToggleBlocked(users: seq<User>, k: nat): (r: seq<User>)
    requires k < |users|
    ensures |r| == |users| && r[k].isBlocked == !users[k].isBlocked
    ensures r[k] == users[k].(isBlocked := !users[k].isBlocked)
    ensures forall j :: 0 <= j < |users| && j != k ==> r[j] == users[j]
  {
    users[k := users[k].(isBlocked := !users[k].isBlocked)]
  }

  /** Two toggles restore the original store. */
  lemma ToggleTwiceRestores(users: seq<User>, k: nat)
    requires k < |users|
    ensures ToggleBlocked(ToggleBlocked(users, k), k) == users
  {
  }

  /** The fields of PUT /admin/users/:id; None for a field the body leaves out. */
  datatype UserUpdate = UserUpdate(
    name: Option<string>, email: Option<string>, password: Option<string>, role: Option<string>, bio: Option<string>)

  /** The record after `findByIdAndUpdate(id, updateData)`. */
  function ApplyUpdate(u: User, upd: UserUpdate, salt: nat): (v: User)
    ensures v.id == u.id && v.isBlocked == u.isBlocked && v.isDeleted == u.isDeleted
    ensures v.profileImage == u.profileImage && v.createdAt == u.createdAt
    // the hash is replaced only for a non-empty password, and then by a hash of it
    ensures upd.password.Some? && upd.password.value != "" ==> v.password == Hash(upd.password.value, salt)
    ensures !(upd.password.Some? && upd.password.value != "") ==> v.password == u.password
    // a field the body leaves out keeps its value
    ensures v.name == (if upd.name.Some? then upd.name.value else u.name)
    ensures v.email == (if upd.email.Some? then upd.email.value else u.email)
    ensures v.role == (if upd.role.Some? then upd.role.value else u.role)
    ensures v.bio == (if upd.bio.Some? then upd.bio.value else u.bio)
  {
    var v := u.(name := if upd.name.Some? then upd.name.value else u.name,
                email := if upd.email.Some? then upd.email.value else u.email,
                role := if upd.role.Some? then upd.role.value else u.role,
                bio := if upd.bio.Some? then upd.bio.value else u.bio);
    match upd.password
    case Some(p) => if p != "" then v.(password := Hash(p, salt)) else v
    case None => v
  }

  /** POST /admin/users. `role` and `bio` are "" when the body leaves them out. */
  method CreateUser(db: Database, name: string, email: string, password: Option<string>,
                    role: string, bio: string, salt: nat, now: nat)
    returns (resp: Response)
    requires db.Valid()
    modifies db
    ensures db.Valid()
    ensures FindByEmail(old(db.users), email).Some? ==>
            resp == Response(400, Message(EmailTaken), NoCookie)
            && db.users == old(db.users) && db.nextId == old(db.nextId)
    ensures FindByEmail(old(db.users), email).None? && password.None? ==>
            resp == Response(400, Message(IllegalArguments), NoCookie)
            && db.users == old(db.users) && db.nextId == old(db.nextId)
    ensures FindByEmail(old(db.users), email).None? && password.Some? ==>
            var u := NewUser(old(db.nextId), name, email, Hash(password.value, salt),
                             if role == "" then RoleUser else role, bio, now);
            db.users == old(db.users) + [u] && resp == Response(201, Record(u), NoCookie)
  {
    if FindByEmail(db.users, email).Some? {
      return Response(400, Message(EmailTaken), NoCookie);
    }
    if password.None? {
      return Response(400, Message(IllegalArguments), NoCookie);
    }
    var hashed := Hash(password.value, salt);
    var u := db.Create(name, email, hashed, if role == "" then RoleUser else role, bio, now);
    resp := Response(201, Record(u), NoCookie);
  }

  /** PUT /admin/users/:id */
  method UpdateUser(db: Database, id: Id, upd: UserUpdate, salt: nat) returns (resp: Response)
    requires db.Valid()
    modifies db
    ensures db.Valid() && db.nextId == old(db.nextId)
    // an unknown id is answered with 200 and a JSON null
    ensures FindById(old(db.users), id).None? ==>
            resp == Response(200, NoDocument, NoCookie) && db.users == old(db.users)
    ensures FindById(old(db.users), id).Some? ==>
            var k := FindById(old(db.users), id).value;
            var v := ApplyUpdate(old(db.users)[k], upd, salt);
            db.users == old(db.users)[k := v]
            && resp == Response(200, Account(WithoutPassword(v)), NoCookie)
  {
    var found := FindById(db.users, id);
    if found.None? {
      return Response(200, NoDocument, NoCookie);
    }
    var v := ApplyUpdate(db.users[found.value], upd, salt);
    db.Save(found.value, v);
    resp := Response(200, Account(WithoutPassword(v)), NoCookie);
  }

  /** DELETE /admin/users/:id */
  method DeleteUser(db: Database, id: Id) returns (resp: Response)
    requires db.Valid()
    modifies db
    ensures db.Valid() && db.nextId == old(db.nextId)
    ensures FindById(old(db.users), id).None? ==>
            resp == Response(404, Message(UserNotFound), NoCookie) && db.users == old(db.users)
    ensures FindById(old(db.users), id).Some? ==>
            db.users == SoftDelete(old(db.users), FindById(old(db.users), id).value)
            && resp == Response(200, Message(UserDeleted), NoCookie)
  {
    var found := FindById(db.users, id);
    if found.None? {
      return Response(404, Message(UserNotFound), NoCookie);
    }
    db.Save(found.value, db.users[found.value].(isDeleted := true));
    resp := Response(200, Message(UserDeleted), NoCookie);
  }

  /** PATCH /admin/users/:id/toggle-block */
  method ToggleBlockUser(db: Database, id: Id) returns (resp: Response)
    requires db.Valid()
    modifies db
    ensures db.Valid() && db.nextId == old(db.nextId)
    ensures FindById(old(db.users), id).None? ==>
            resp == Response(404, Message(UserNotFound), NoCookie) && db.users == old(db.users)
    ensures FindById(old(db.users), id).Some? ==>
            var k := FindById(old(db.users), id).value;
            var now := !old(db.users)[k].isBlocked;
            db.users == ToggleBlocked(old(db.users), k)
            && resp == Response(200, BlockState(if now then UserBlocked else UserUnblocked, now), NoCookie)
  {
    var found := FindById(db.users, id);
    if found.None? {
      return Response(404, Message(UserNotFound), NoCookie);
    }
    var user := db.users[found.value];
    user := user.(isBlocked := !user.isBlocked);
    db.Save(found.value, user);
    resp := Response(200, BlockState(if user.isBlocked then UserBlocked else UserUnblocked, user.isBlocked), NoCookie);
  }

  /** GET /admin/users/:id: the whole record, hash included, or a JSON null. */
  function GetSingleUser(users: seq<User>, id: Id): (r: Response)
    ensures r.status == 200
    ensures FindById(users, id).None? <==> r.body == NoDocument
    ensures FindById(users, id).Some? ==> r.body == Record(users[FindById(users, id).value])
    ensures r.body.Record? ==> r.body.user in users && r.body.user.id == id
  {
    match FindById(users, id)
    case Some(k) => Response(200, Record(users[k]), NoCookie)
    case None => Response(200, NoDocument, NoCookie)
  }

  // ---------------------------------------------------------------- refresh

  /** `refreshAdminToken` (not mounted): the `adminRefreshToken` cookie (None when absent or empty). */
  function RefreshAdminToken(users: seq<User>, env: Env, cookie: Option<TokenText>): (r: Response)
    ensures cookie.None? ==> r == Response(401, Message(NoAdminRefreshToken), NoCookie)
    ensures cookie.Some? && Verify(cookie.value, env.refreshSecret).None? ==>
            r == Response(403, Message(InvalidAdminRefreshToken), NoCookie)
    ensures cookie.Some? && Verify(cookie.value, env.refreshSecret).Some? ==>
            var found := FindById(users, Verify(cookie.value, env.refreshSecret).value);
            && (found.None? || users[found.value].role != RoleAdmin ==>
                  r == Response(404, Message(AdminNotFound), NoCookie))
            // no blocked or deleted check: a found admin always gets a token
            && (found.Some? && users[found.value].role == RoleAdmin ==>
                  r == Response(200, SessionBody(env, users[found.value]), NoCookie))
    ensures r.cookie == NoCookie
  {
    match cookie
    case None => Response(401, Message(NoAdminRefreshToken), NoCookie)
    case Some(t) =>
      match Verify(t, env.refreshSecret)
      case None => Response(403, Message(InvalidAdminRefreshToken), NoCookie)
      case Some(id) =>
        match FindById(users, id)
        case None => Response(404, Message(AdminNotFound), NoCookie)
        case Some(k) =>
          if users[k].role != RoleAdmin then Response(404, Message(AdminNotFound), NoCookie)
          else Response(200, SessionBody(env, users[k]), NoCookie)
  }
}
