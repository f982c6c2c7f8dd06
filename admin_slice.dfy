/**
 * The `admin` slice of the client store: the page of users the dashboard
 * shows, its paging numbers and the request status flags. The fulfilled
 * cases of delete, update and toggle rewrite the cached list with a filter
 * or a map keyed on `_id`.
 */
module AdminSlice {
  import opened JsValues

  const Deleted := "User deleted successfully"
  const Created := "User created successfully"
  const Updated := "User updated successfully"

  /** The payload of a fetched page. */
  datatype UserPage = UserPage(users: seq<Obj>, page: Json, pages: Json, total: Json)

  datatype AdminView = AdminView(
    users: seq<Obj>, page: Json, pages: Json, total: Json,
    isLoading: bool, isError: bool, isSuccess: bool, message: Json)

  const Initial := AdminView([], JNum(1), JNum(1), JNum(0), false, false, false, JStr(""))

  /**
   * `resetAdmin` and the lifecycle actions of the five thunks. `id` is the
   * thunk's argument (`action.meta.arg`); a rejection carries its message.
   */
  datatype AdminAction =
    | ResetAdmin
    | GetUsersPending | GetUsersFulfilled(list: UserPage) | GetUsersRejected(error: Json)
    | DeletePending | DeleteFulfilled(id: Json) | DeleteRejected(error: Json)
    | CreatePending | CreateFulfilled | CreateRejected(error: Json)
    | UpdatePending | UpdateFulfilled(payload: Obj) | UpdateRejected(error: Json)
    | TogglePending | ToggleFulfilled(id: Json, payload: Obj) | ToggleRejected(error: Json)

  predicate IsPending(a: AdminAction) {
    a.GetUsersPending? || a.DeletePending? || a.CreatePending? || a.UpdatePending? || a.TogglePending?
  }

  predicate IsRejected(a: AdminAction) {
    a.GetUsersRejected? || a.DeleteRejected? || a.CreateRejected? || a.UpdateRejected? || a.ToggleRejected?
  }

  /** `users.filter(user => user._id !== id)` */
  function WithoutId(users: seq<Obj>, id: Json): (r: seq<Obj>)
    ensures |r| <= |users|
    ensures forall u :: u in r <==> u in users && Get(u, "_id") != id
    ensures (forall i :: 0 <= i < |users| ==> Get(users[i], "_id") != id) ==> r == users
  {
    if users == [] then []
    else if Get(users[0], "_id") != id then [users[0]] + WithoutId(users[1..], id)
    else WithoutId(users[1..], id)
  }

  /** The filter distributes over concatenation, so the entries it keeps stay in their order. */
  lemma {:induction false} WithoutIdAppend(a: seq<Obj>, b: seq<Obj>, id: Json)
    ensures WithoutId(a + b, id) == WithoutId(a, id) + WithoutId(b, id)
  {
    if a != [] {
      assert (a + b)[0] == a[0] && (a + b)[1..] == a[1..] + b;
      WithoutIdAppend(a[1..], b, id);
    } else {
      assert a + b == b;
    }
  }

  /** `users.map(user => user._id === p._id ? p : user)` */
  function ReplaceById(users: seq<Obj>, p: Obj): (r: seq<Obj>)
    ensures |r| == |users|
    ensures forall i :: 0 <= i < |users| && Get(users[i], "_id") == Get(p, "_id") ==> r[i] == p
    ensures forall i :: 0 <= i < |users| && Get(users[i], "_id") != Get(p, "_id") ==> r[i] == users[i]
  {
    if users == [] then []
    else [if Get(users[0], "_id") == Get(p, "_id") then p else users[0]] + ReplaceById(users[1..], p)
  }

  /** `users.map(user => user._id === id ? { ...user, isBlocked } : user)` */
  function SetBlockedById(users: seq<Obj>, id: Json, blocked: Json): (r: seq<Obj>)
    ensures |r| == |users|
    ensures forall i :: 0 <= i < |users| && Get(users[i], "_id") == id ==> Get(r[i], "isBlocked") == blocked
    // every other field of every entry, and every field of the other entries, is kept
    ensures forall i, k :: 0 <= i < |users| && (k != "isBlocked" || Get(users[i], "_id") != id) ==>
                           Get(r[i], k) == Get(users[i], k)
  {
    if users == [] then []
    else [if Get(users[0], "_id") == id then users[0]["isBlocked" := blocked] else users[0]]
         + SetBlockedById(users[1..], id, blocked)
  }

  /** The state after one action. */
  function Reduce(s: AdminView, a: AdminAction): (r: AdminView)
    ensures !a.GetUsersFulfilled? ==> r.page == s.page && r.pages == s.pages && r.total == s.total
    ensures IsPending(a) ==> r == s.(isLoading := true)
    // a rejection records its message and leaves the cached list alone
    ensures IsRejected(a) ==> r == s.(isLoading := false, isError := true, message := a.error)
    // creating a user does not touch the cached page; the dashboard refetches it
    ensures a.CreateFulfilled? ==> r.users == s.users && r.isSuccess && r.message == JStr(Created)
    ensures a.DeleteFulfilled? ==>
            r.users == WithoutId(s.users, a.id) && r.isSuccess && r.message == JStr(Deleted)
    ensures a.UpdateFulfilled? ==>
            r.users == ReplaceById(s.users, a.payload) && r.isSuccess && r.message == JStr(Updated)
    ensures a.ToggleFulfilled? ==>
            r.users == SetBlockedById(s.users, a.id, Get(a.payload, "isBlocked"))
            && r.isSuccess && r.message == Get(a.payload, "message")
    ensures a.GetUsersFulfilled? ==>
            r.users == a.list.users && r.page == a.list.page && r.pages == a.list.pages && r.total == a.list.total
    ensures a.ResetAdmin? ==> r == s.(isLoading := false, isError := false, isSuccess := false, message := JStr(""))
  {
    match a
    case ResetAdmin => s.(isLoading := false, isError := false, isSuccess := false, message := JStr(""))
    case GetUsersFulfilled(l) =>
      s.(isLoading := false, isSuccess := true, users := l.users, page := l.page, pages := l.pages, total := l.total)
    case DeleteFulfilled(id) =>
      s.(isLoading := false, isSuccess := true, message := JStr(Deleted), users := WithoutId(s.users, id))
    case CreateFulfilled => s.(isLoading := false, isSuccess := true, message := JStr(Created))
    case UpdateFulfilled(p) =>
      s.(isLoading := false, isSuccess := true, message := JStr(Updated), users := ReplaceById(s.users, p))
    case ToggleFulfilled(id, p) =>
      s.(isLoading := false, isSuccess := true, message := Get(p, "message"),
         users := SetBlockedById(s.users, id, Get(p, "isBlocked")))
    case GetUsersPending => s.(isLoading := true)
    case DeletePending => s.(isLoading := true)
    case CreatePending => s.(isLoading := true)
    case UpdatePending => s.(isLoading := true)
    case TogglePending => s.(isLoading := true)
    case GetUsersRejected(e) => s.(isLoading := false, isError := true, message := e)
    case DeleteRejected(e) => s.(isLoading := false, isError := true, message := e)
    case CreateRejected(e) => s.(isLoading := false, isError := true, message := e)
    case UpdateRejected(e) => s.(isLoading := false, isError := true, message := e)
    case ToggleRejected(e) => s.(isLoading := false, isError := true, message := e)
  }

  /** The slice as the store holds it. */
  class AdminState {
    var users: seq<Obj>
    var page: Json
    var pages: Json
    var total: Json
    var isLoading: bool
    var isError: bool
    var isSuccess: bool
    var message: Json

    function View(): AdminView
      reads this
    {
      AdminView(users, page, pages, total, isLoading, isError, isSuccess, message)
    }

    /** `initialState` */
    constructor ()
      ensures View() == Initial
    {
      users := [];
      page := JNum(1);
      pages := JNum(1);
      total := JNum(0);
      isLoading := false;
      isError := false;
      isSuccess := false;
      message := JStr("");
    }

    /** `resetAdmin` */
    method ResetAdmin()
      modifies this
      ensures View() == old(View()).(isLoading := false, isError := false, isSuccess := false, message := JStr(""))
    {
      isLoading := false;
      isError := false;
      isSuccess := false;
      message := JStr("");
    }

    /** Every `pending` case. */
    method Pending()
      modifies this
      ensures View() == old(View()).(isLoading := true)
    {
      isLoading := true;
    }

    /** Every `rejected` case. */
    method Rejected(error: Json)
      modifies this
      ensures View() == old(View()).(isLoading := false, isError := true, message := error)
    {
      isLoading := false;
      isError := true;
      message := error;
    }

    /** `getUsers.fulfilled` */
    method GetUsersFulfilled(list: UserPage)
      modifies this
      ensures View() == old(View()).(isLoading := false, isSuccess := true, users := list.users,
                                     page := list.page, pages := list.pages, total := list.total)
    {
      isLoading := false;
      isSuccess := true;
      users := list.users;
      page := list.page;
      pages := list.pages;
      total := list.total;
    }

    /** `deleteUser.fulfilled` */
    method DeleteFulfilled(id: Json)
      modifies this
      ensures View() == old(View()).(isLoading := false, isSuccess := true, message := JStr(Deleted),
                                     users := WithoutId(old(users), id))
    {
      isLoading := false;
      isSuccess := true;
      message := JStr(Deleted);
      users := WithoutId(users, id);
    }

    /** `createUser.fulfilled` */
    method CreateFulfilled()
      modifies this
      ensures View() == old(View()).(isLoading := false, isSuccess := true, message := JStr(Created))
    {
      isLoading := false;
      isSuccess := true;
      message := JStr(Created);
    }

    /** `updateUser.fulfilled` */
    method UpdateFulfilled(payload: Obj)
      modifies this
      ensures View() == old(View()).(isLoading := false, isSuccess := true, message := JStr(Updated),
                                     users := ReplaceById(old(users), payload))
    {
      isLoading := false;
      isSuccess := true;
      message := JStr(Updated);
      users := ReplaceById(users, payload);
    }

    /** `toggleBlockUser.fulfilled` */
    method ToggleFulfilled(id: Json, payload: Obj)
      modifies this
      ensures View() == old(View()).(isLoading := false, isSuccess := true, message := Get(payload, "message"),
                                     users := SetBlockedById(old(users), id, Get(payload, "isBlocked")))
    {
      isLoading := false;
      isSuccess := true;
      message := Get(payload, "message");
      users := SetBlockedById(users, id, Get(payload, "isBlocked"));
    }

    /** The slice's reducer. */
    method Dispatch(a: AdminAction)
      modifies this
      ensures View() == Reduce(old(View()), a)
    {
      match a
      case ResetAdmin => ResetAdmin();
      case GetUsersFulfilled(l) => GetUsersFulfilled(l);
      case DeleteFulfilled(id) => DeleteFulfilled(id);
      case CreateFulfilled => CreateFulfilled();
      case UpdateFulfilled(p) => UpdateFulfilled(p);
      case ToggleFulfilled(id, p) => ToggleFulfilled(id, p);
      case GetUsersPending => Pending();
      case DeletePending => Pending();
      case CreatePending => Pending();
      case UpdatePending => Pending();
      case TogglePending => Pending();
      case GetUsersRejected(e) => Rejected(e);
      case DeleteRejected(e) => Rejected(e);
      case CreateRejected(e) => Rejected(e);
      case UpdateRejected(e) => Rejected(e);
      case ToggleRejected(e) => Rejected(e);
    }
  }
}
