/** The login page's checks, its submit gate and where it sends a signed-in visitor. */
module LoginPage {
  import opened Base
  import opened Text
  import opened JsValues
  import opened AuthSlice
  import opened RouteGuards
  import opened Forms

  /**
   * `validate`: fills `newErrors` field by field and reports whether it stayed
   * empty. Unlike the server's login rule, it also demands six characters.
   */
  method Validate(email: string, password: string) returns (ok: bool, errors: map<string, string>)
    ensures errors.Keys <= {"email", "password"}
    ensures "email" in errors <==> EmailError(email) != ""
    ensures "email" in errors ==> errors["email"] == EmailError(email)
    ensures "password" in errors <==> PasswordError(password) != ""
    ensures "password" in errors ==> errors["password"] == PasswordError(password)
    ensures ok <==> errors == map[]
    ensures ok <==> email != "" && EmailRegex(email) && Utf16Length(password) >= 6
  {
    var newErrors: map<string, string> := map[];
    if email == "" {
      newErrors := newErrors["email" := EmailRequired];
    } else if !IsEmailFormat(email) {
      newErrors := newErrors["email" := EmailFormat];
    }
    if password == "" {
      newErrors := newErrors["password" := PasswordRequired];
    } else if Utf16Length(password) < 6 {
      newErrors := newErrors["password" := PasswordShort];
    }
    EmailFormatIsRegex(email);
    ok := |newErrors| == 0;
    if !ok {
      assert exists k :: k in newErrors;
    }
    errors := newErrors;
  }

  /** `submitHandler`: `loginUser({ email, password })` only when `validate` passes. */
  method SubmitHandler(email: string, password: string) returns (outcome: Submission)
    ensures outcome.Submitted? <==> email != "" && EmailRegex(email) && Utf16Length(password) >= 6
    ensures outcome.Submitted? ==> outcome.data == map["email" := email, "password" := password]
    ensures outcome.Blocked? ==> outcome.errors != map[]
    ensures outcome.Blocked? ==> outcome.errors.Keys <= {"email", "password"}
    ensures outcome.Blocked? ==> ("email" in outcome.errors <==> EmailError(email) != "")
    ensures outcome.Blocked? && "email" in outcome.errors ==> outcome.errors["email"] == EmailError(email)
    ensures outcome.Blocked? ==> ("password" in outcome.errors <==> PasswordError(password) != "")
    ensures outcome.Blocked? && "password" in outcome.errors ==> outcome.errors["password"] == PasswordError(password)
  {
    var ok, errors := Validate(email, password);
    if ok {
      outcome := Submitted(map["email" := email, "password" := password]);
    } else {
      outcome := Blocked(errors);
    }
  }

  /** The page's effect: once a token is present, go to the admin dashboard or the user home. */
  function AfterLogin(auth: AuthView): (to: Option<string>)
    ensures to.None? <==> !Truthy(auth.accessToken)
    ensures to.Some? ==> to.value == (if IsAdmin(auth.user) then AdminDashboardPath else HomePagePath)
  {
    if !Truthy(auth.accessToken) then None
    else if IsAdmin(auth.user) then Some(AdminDashboardPath)
    else Some(HomePagePath)
  }

  /** The login page and the 404 page's home link agree on a signed-in visitor's home. */
  lemma AfterLoginIsHomePath(auth: AuthView)
    requires Truthy(auth.accessToken)
    ensures AfterLogin(auth) == Some(HomePath(auth))
  {
  }
}
