/**
 * Properties that connect several components: what one handler writes,
 * another reads; what the client checks, the server checks again.
 */
module Scenarios {
  import opened Base
  import opened Text
  import opened Accounts
  import opened JsValues
  import Validation
  import AuthController
  import AdminController
  import AuthMiddleware
  import UserRoutes
  import AuthSlice
  import RouteGuards
  import RegisterPage
  import LoginPage
  import Forms
  import ProfilePage

  // ---------------------------------------------------------------- server

  /** A record appended under an id no other record has is found by that id at the end. */
  lemma {:induction false} FindAppended(users: seq<User>, u: User)
    requires forall k :: 0 <= k < |users| ==> users[k].id != u.id
    ensures FindById(users + [u], u.id) == Some(|users|)
  {
    if users != [] {
      assert (users + [u])[1..] == users[1..] + [u];
      FindAppended(users[1..], u);
    }
  }

  /** The refresh cookie that registration sets gets the new account a session at POST /auth/refresh. */
  lemma RegisteredUserCanRefresh(users: seq<User>, env: Env, u: User)
    requires forall k :: 0 <= k < |users| ==> users[k].id != u.id
    requires !u.isBlocked && !u.isDeleted
    ensures AuthController.Issued(env, u, 201).cookie == SetCookie(AuthController.RefreshCookieName, MintRefreshToken(env, u))
    ensures AuthController.RefreshToken(users + [u], env, Some(MintRefreshToken(env, u)))
            == Response(200, SessionBody(env, u), NoCookie)
  {
    FindAppended(users, u);
  }

  /** Blocking an account stops its very next request at `protect`, whatever valid access token it holds. */
  lemma BlockingTakesEffectAtTheGate(users: seq<User>, env: Env, k: nat, scheme: string)
    requires UniqueIds(users) && k < |users| && !users[k].isBlocked
    requires StartsWith(scheme, "Bearer")
    ensures var header := Some(AuthMiddleware.Header(scheme, Some(MintAccessToken(env, users[k]))));
            AuthMiddleware.Protect(AdminController.ToggleBlocked(users, k), env, header)
            == AuthMiddleware.Halt(403, AuthMiddleware.AccountBlocked)
  {
    var after := AdminController.ToggleBlocked(users, k);
    FindByIdAtIndex(users, k);
    FindByIdAfterUpdate(users, k, after[k], users[k].id);
  }

  /** A soft-deleted account can no longer sign in, whatever password it offers. */
  lemma DeletedAccountCannotLogIn(users: seq<User>, env: Env, isEmail: string -> bool,
                                  k: nat, password: string)
    requires k < |users| && FindByEmail(users, users[k].email) == Some(k)
    requires isEmail(users[k].email)
    ensures AuthController.LoginUser(AdminController.SoftDelete(users, k), env, isEmail, users[k].email, Some(password))
            == Response(403, Message(AuthController.LoginDeleted), NoCookie)
  {
    FindByEmailAfterUpdate(users, k, users[k].(isDeleted := true), users[k].email);
  }

  /**
   * The admin login signs with `JWT_SECRET` while `protect` verifies with
   * `ACCESS_SECRET`: unless the two are configured equal, its token opens no route.
   */
  lemma AdminLoginTokenFailsTheGate(users: seq<User>, env: Env, email: string, password: string, scheme: string)
    requires env.jwtSecret != env.accessSecret && StartsWith(scheme, "Bearer")
    requires AdminController.LoginAdmin(users, env, email, password).status == 200
    ensures var token := AdminController.LoginAdmin(users, env, email, password).body.token;
            AuthMiddleware.Protect(users, env, Some(AuthMiddleware.Header(scheme, Some(token))))
            == AuthMiddleware.Halt(401, AuthMiddleware.InvalidOrExpired)
  {
  }

  /** With the profile rules passed, the stored name and e-mail are always the submitted ones. */
  lemma ValidatedProfileTakesNameAndEmail(u: User, form: UserRoutes.ProfileForm, isEmail: string -> bool,
                                          uploaded: Option<string>)
    requires Validation.ProfileUpdateErrors(form.name, form.email, isEmail) == []
    requires isEmail(form.email) ==> form.email != ""
    ensures UserRoutes.MergeProfile(u, form, uploaded).name == form.name
    ensures UserRoutes.MergeProfile(u, form, uploaded).email == form.email
  {
  }

  // ---------------------------------------------------------------- client against server

  /**
   * A registration the page lets through passes the server's rules, given an
   * `isEmail` at least as lenient as the page's pattern and a password without
   * astral characters (the page counts UTF-16 units, `isLength` characters).
   */
  lemma RegisterPageImpliesServerRules(form: Forms.Credentials, isEmail: string -> bool)
    requires RegisterPage.ValidateField("name", form.name) == ""
    requires RegisterPage.ValidateField("email", form.email) == ""
    requires RegisterPage.ValidateField("password", form.password) == ""
    requires EmailRegex(form.email) ==> isEmail(form.email)
    requires forall i :: 0 <= i < |form.password| ==> !IsAstral(form.password[i])
    ensures Validation.RegisterErrors(form.name, form.email, form.password, isEmail) == []
  {
  }

  /**
   * Without that last hypothesis the implication fails: three emoji are six
   * UTF-16 units, enough for the page, but three characters for `isLength`.
   */
  lemma AstralPasswordPassesPageNotServer(isEmail: string -> bool)
    ensures var password := "\U{1F600}\U{1F600}\U{1F600}";
            RegisterPage.ValidateField("password", password) == ""
            && Validation.PasswordTooShort in Validation.RegisterErrors("Ann", "a@b.co", password, isEmail)
  {
    var password := "\U{1F600}\U{1F600}\U{1F600}";
    assert Utf16Length(password[2..]) == 2;
    assert Utf16Length(password[1..]) == 4;
  }

  /** The page demands six characters of a login password; the server only that one is present. */
  lemma LoginPageStricterThanServer(email: string, password: string, isEmail: string -> bool)
    requires email != "" && EmailRegex(email) && Utf16Length(password) >= 6
    requires EmailRegex(email) ==> isEmail(email)
    ensures Validation.LoginErrors(email, Some(password), isEmail) == []
  {
  }

  /** A five-character password passes the server's login rules yet is stopped on the page. */
  lemma ShortLoginPasswordOnlyStoppedOnThePage(isEmail: string -> bool)
    requires isEmail("a@b.co")
    ensures Validation.LoginErrors("a@b.co", Some("12345"), isEmail) == []
    ensures Forms.PasswordError("12345") != ""
  {
  }

  /**
   * What the server reads from `req.body` for this key: the text of the
   * first text entry with that key, "" when there is none. File entries go
   * to `req.file` instead and are skipped.
   */
  function TextField(entries: seq<(string, ProfilePage.Part)>, key: string): (v: string)
    ensures (forall i :: 0 <= i < |entries| ==> !IsTextEntry(entries[i], key)) ==> v == ""
    ensures forall i :: 0 <= i < |entries| && IsTextEntry(entries[i], key)
                        && (forall j :: 0 <= j < i ==> !IsTextEntry(entries[j], key)) ==>
                        v == entries[i].1.text
  {
    if entries == [] then ""
    else if IsTextEntry(entries[0], key) then entries[0].1.text
    else
      assert forall i :: 1 <= i < |entries| ==> entries[1..][i - 1] == entries[i];
      TextField(entries[1..], key)
  }

  predicate IsTextEntry(entry: (string, ProfilePage.Part), key: string) {
    entry.0 == key && entry.1.TextPart?
  }

  /** The multipart body of a profile request as the server's form sees it. */
  function ReceivedForm(entries: seq<(string, ProfilePage.Part)>): UserRoutes.ProfileForm {
    UserRoutes.ProfileForm(TextField(entries, "name"), TextField(entries, "email"),
                           TextField(entries, "bio"), TextField(entries, "removeImage"))
  }

  /**
   * The profile page never sends a bio, so the stored bio survives every
   * profile update; a removal without a new file clears the stored image.
   */
  lemma ProfilePageRequestEffect(u: User, name: string, email: string, isImageRemoved: bool)
    requires name != "" && email != ""
    ensures var entries := [("name", ProfilePage.TextPart(name)), ("email", ProfilePage.TextPart(email))]
                           + ProfilePage.ImageEntries(None, isImageRemoved);
            var v := UserRoutes.MergeProfile(u, ReceivedForm(entries), None);
            v.name == name && v.email == email && v.bio == u.bio
            && v.profileImage == (if isImageRemoved then "" else u.profileImage)
  {
    var entries := [("name", ProfilePage.TextPart(name)), ("email", ProfilePage.TextPart(email))]
                   + ProfilePage.ImageEntries(None, isImageRemoved);
    var rest := ProfilePage.ImageEntries(None, isImageRemoved);
    assert entries[1..] == [("email", ProfilePage.TextPart(email))] + rest;
    assert entries[1..][1..] == rest;
    if isImageRemoved {
      assert rest[1..] == [];
      assert TextField(rest, "removeImage") == "true";
      assert TextField(rest, "bio") == TextField(rest[1..], "bio") == "";
    }
    assert TextField(entries, "name") == name;
    assert TextField(entries, "email") == TextField(entries[1..], "email") == email;
    assert TextField(entries, "bio") == TextField(rest, "bio") == "";
    assert TextField(entries, "removeImage") == TextField(rest, "removeImage");
  }

  // ---------------------------------------------------------------- client state

  /** A successful start-up refresh for an admin opens the admin pages. */
  lemma RefreshedAdminPassesAdminGuard(s: AuthSlice.AuthView, payload: Obj)
    requires Truthy(Get(payload, "accessToken")) && Get(payload, "role") == JStr("admin")
    ensures RouteGuards.AdminProtectedRoute(AuthSlice.Reduce(s, AuthSlice.RefreshFulfilled(payload)))
            == RouteGuards.RenderChildren
  {
  }

  /** Logging out sends the protected pages to their login pages, but only once the check has finished. */
  lemma LogoutClosesProtectedPages(s: AuthSlice.AuthView)
    requires s.isAuthChecked
    ensures RouteGuards.UserProtectedRoute(AuthSlice.Reduce(s, AuthSlice.Logout)) == RouteGuards.Redirect(RouteGuards.LoginPath)
    ensures RouteGuards.PublicRoute(AuthSlice.Reduce(s, AuthSlice.Logout)) == RouteGuards.RenderChildren
  {
  }
}
