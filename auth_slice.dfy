/**
 * The `auth` slice of the client store: who is signed in, the access token,
 * whether the start-up session check has finished, and the request status
 * flags. The reducers assign fields of the state in place; `Reduce` is the
 * specification every dispatch follows.
 */
module AuthSlice {
  import opened Base
  import opened JsValues

  /** The slice's fields; `user` is None for null. */
  datatype AuthView = AuthView(
    user: Option<Obj>, accessToken: Json,
    isError: bool, isSuccess: bool, isLoading: bool, isAuthChecked: bool,
    message: Json)

  const Initial := AuthView(None, JNull, false, false, false, false, JStr(""))

  /**
   * The actions the slice receives: its own three reducers and the lifecycle
   * actions of the five thunks. A rejected thunk carries the server's message,
   * or JNull when the response had none.
   */
  datatype AuthAction =
    | Reset
    | SetCredentials(payload: Obj)
    | Logout
    | LoginPending | LoginFulfilled(payload: Obj) | LoginRejected(error: Json)
    | RegisterPending | RegisterFulfilled(payload: Obj) | RegisterRejected(error: Json)
    | UpdateProfilePending | UpdateProfileFulfilled(payload: Obj) | UpdateProfileRejected(error: Json)
    | ChangePasswordPending | ChangePasswordFulfilled(payload: Obj) | ChangePasswordRejected(error: Json)
    | RefreshPending | RefreshFulfilled(payload: Obj) | RefreshRejected

  /** The actions that end the start-up session check. */
  predicate Settles(a: AuthAction) {
    a.LoginFulfilled? || a.RegisterFulfilled? || a.RefreshFulfilled? || a.RefreshRejected?
  }

  /** The actions the slice has no case for. */
  predicate Ignored(a: AuthAction) {
    a.RegisterPending? || a.RegisterRejected? || a.UpdateProfilePending? || a.UpdateProfileRejected?
    || a.ChangePasswordPending? || a.ChangePasswordFulfilled? || a.ChangePasswordRejected?
  }

  /** The state after one action. */
  function Reduce(s: AuthView, a: AuthAction): (r: AuthView)
    // no action clears the session check
    ensures r.isAuthChecked <==> s.isAuthChecked || Settles(a)
    ensures Ignored(a) ==> r == s
    // only these actions touch the session
    ensures a.Reset? || a.LoginPending? || a.LoginRejected? || a.RefreshPending? ==>
            r.user == s.user && r.accessToken == s.accessToken
    // login and register keep the token out of the stored user; refresh keeps the whole payload
    ensures a.LoginFulfilled? || a.RegisterFulfilled? ==>
            r.user.Some? && "accessToken" !in r.user.value
            && (forall k :: k != "accessToken" ==> Get(r.user.value, k) == Get(a.payload, k))
            && r.accessToken == Get(a.payload, "accessToken")
    ensures a.RefreshFulfilled? ==> r.user == Some(a.payload) && r.accessToken == Get(a.payload, "accessToken")
    ensures a.Logout? || a.RefreshRejected? ==> r.user.None? && r.accessToken == JNull
  {
    match a
    case Reset => s.(isLoading := false, isSuccess := false, isError := false, message := JStr(""))
    case SetCredentials(p) => s.(accessToken := Get(p, "accessToken"))
    case Logout => s.(user := None, accessToken := JNull)
    case LoginPending => s.(isLoading := true)
    case LoginFulfilled(p) =>
      s.(isLoading := false, user := Some(Omit(p, "accessToken")), accessToken := Get(p, "accessToken"),
         isAuthChecked := true)
    case LoginRejected(e) => s.(isLoading := false, isError := true, message := e)
    case RegisterFulfilled(p) =>
      s.(user := Some(Omit(p, "accessToken")), accessToken := Get(p, "accessToken"), isAuthChecked := true)
    case UpdateProfileFulfilled(p) => s.(user := Some(p))
    case RefreshPending => s.(isLoading := true)
    case RefreshFulfilled(p) =>
      s.(isLoading := false, user := Some(p), accessToken := Get(p, "accessToken"), isAuthChecked := true)
    case RefreshRejected => s.(isLoading := false, accessToken := JNull, user := None, isAuthChecked := true)
    case _ => s
  }

  /** The state after a run of actions, in order. */
  function ReduceAll(s: AuthView, actions: seq<AuthAction>): AuthView
    decreases |actions|
  {
    if actions == [] then s else ReduceAll(Reduce(s, actions[0]), actions[1..])
  }

  /** Once the session check has finished it stays finished, whatever follows. */
  lemma {:induction false} AuthCheckedIsSticky(s: AuthView, actions: seq<AuthAction>)
    requires s.isAuthChecked
    ensures ReduceAll(s, actions).isAuthChecked
    decreases |actions|
  {
    if actions != [] {
      AuthCheckedIsSticky(Reduce(s, actions[0]), actions[1..]);
    }
  }

  /** After any settling action the check is finished for good: the guards never wait again. */
  lemma {:induction false} SettledStaysSettled(s: AuthView, actions: seq<AuthAction>, i: nat)
    requires i < |actions| && Settles(actions[i])
    ensures ReduceAll(s, actions).isAuthChecked
    decreases |actions|
  {
    if i == 0 {
      AuthCheckedIsSticky(Reduce(s, actions[0]), actions[1..]);
    } else {
      SettledStaysSettled(Reduce(s, actions[0]), actions[1..], i - 1);
    }
  }

  /** The slice as the store holds it. */
  class AuthState {
    var user: Option<Obj>
    var accessToken: Json
    var isError: bool
    var isSuccess: bool
    var isLoading: bool
    var isAuthChecked: bool
    var message: Json

    function View(): AuthView
      reads this
    {
      AuthView(user, accessToken, isError, isSuccess, isLoading, isAuthChecked, message)
    }

    /** `initialState` */
    constructor ()
      ensures View() == Initial
    {
      user := None;
      accessToken := JNull;
      isError := false;
      isSuccess := false;
      isLoading := false;
      isAuthChecked := false;
      message := JStr("");
    }

    /** `reset`: the status flags and message only. */
    method Reset()
      modifies this
      ensures View() == old(View()).(isLoading := false, isSuccess := false, isError := false, message := JStr(""))
    {
      isLoading := false;
      isSuccess := false;
      isError := false;
      message := JStr("");
    }

    /** `setCredentials`: the token only. */
    method SetCredentials(payload: Obj)
      modifies this
      ensures View() == old(View()).(accessToken := Get(payload, "accessToken"))
    {
      accessToken := Get(payload, "accessToken");
    }

    /** `logout`: the session is dropped, the check stays finished. */
    method Logout()
      modifies this
      ensures View() == old(View()).(user := None, accessToken := JNull)
    {
      user := None;
      accessToken := JNull;
    }

    /** `loginUser.pending` and `refreshUser.pending` */
    method Pending()
      modifies this
      ensures View() == old(View()).(isLoading := true)
    {
      isLoading := true;
    }

    /** `loginUser.fulfilled` */
    method LoginFulfilled(payload: Obj)
      modifies this
      ensures View() == old(View()).(isLoading := false, user := Some(Omit(payload, "accessToken")),
                                     accessToken := Get(payload, "accessToken"), isAuthChecked := true)
    {
      isLoading := false;
      var userData := Omit(payload, "accessToken");
      user := Some(userData);
      accessToken := Get(payload, "accessToken");
      isAuthChecked := true;
    }

    /** `loginUser.rejected`: the session is left as it was. */
    method LoginRejected(error: Json)
      modifies this
      ensures View() == old(View()).(isLoading := false, isError := true, message := error)
    {
      isLoading := false;
      isError := true;
      message := error;
    }

    /** `registerUser.fulfilled`: as login, except that isLoading is not touched. */
    method RegisterFulfilled(payload: Obj)
      modifies this
      ensures View() == old(View()).(user := Some(Omit(payload, "accessToken")),
                                     accessToken := Get(payload, "accessToken"), isAuthChecked := true)
    {
      var userData := Omit(payload, "accessToken");
      user := Some(userData);
      accessToken := Get(payload, "accessToken");
      isAuthChecked := true;
    }

    /** `updateProfile.fulfilled`: the server's reply becomes the user. */
    method UpdateProfileFulfilled(payload: Obj)
      modifies this
      ensures View() == old(View()).(user := Some(payload))
    {
      user := Some(payload);
    }

    /** `refreshUser.fulfilled`: the whole payload, token included, becomes the user. */
    method RefreshFulfilled(payload: Obj)
      modifies this
      ensures View() == old(View()).(isLoading := false, user := Some(payload),
                                     accessToken := Get(payload, "accessToken"), isAuthChecked := true)
    {
      isLoading := false;
      user := Some(payload);
      accessToken := Get(payload, "accessToken");
      isAuthChecked := true;
    }

    /** `refreshUser.rejected`: signed out, check finished. */
    method RefreshRejected()
      modifies this
      ensures View() == old(View()).(isLoading := false, accessToken := JNull, user := None, isAuthChecked := true)
    {
      isLoading := false;
      accessToken := JNull;
      user := None;
      isAuthChecked := true;
    }

    /** The slice's reducer: routes an action to its case, and ignores the rest. */
    method Dispatch(a: AuthAction)
      modifies this
      ensures View() == Reduce(old(View()), a)
    {
      match a
      case Reset => Reset();
      case SetCredentials(p) => SetCredentials(p);
      case Logout => Logout();
      case LoginPending => Pending();
      case LoginFulfilled(p) => LoginFulfilled(p);
      case LoginRejected(e) => LoginRejected(e);
      case RegisterFulfilled(p) => RegisterFulfilled(p);
      case UpdateProfileFulfilled(p) => UpdateProfileFulfilled(p);
      case RefreshPending => Pending();
      case RefreshFulfilled(p) => RefreshFulfilled(p);
      case RefreshRejected => RefreshRejected();
      case _ =>
    }
  }
}
