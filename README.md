# User management: a Dafny model

This project models the decision logic of a MERN user-management application.
It has two sides.

- **Server side:**
  - registration, login, session refresh and logout;
  - the admin handlers: roster listing with search and pagination, create, update, soft delete and block toggle, plus the unmounted admin login, logout and refresh handlers;
  - the per-request gate `protect`/`admin`;
  - the signed-in user's profile update and password change;
  - the declarative input rules;
  - the error handler's status mapping.
- **Client side:**
  - the two Redux slices (`auth`, `admin`);
  - the route guards and the 404 page's home link;
  - the field validators and submit gates of the register, login, admin user-form and profile pages;
  - the image picker's file checks.

The server's document store is the class `Accounts.Database`, a sequence of user records in insertion order. Its handlers that write are methods proved against it; those that only read are total functions over `seq<User>`.

Passwords are hashed symbolically: a hash commits to its secret, and `Matches` is `bcrypt.compare`. A token is either a JWT, which names the key it was signed with, its subject and whether it has expired, or text that is not a JWT at all. The three secrets are kept apart, because the code signs with one and verifies with another.

The client's slices are classes whose methods update fields in place. Each `Dispatch` is proved equal to a pure `Reduce`, and the lemmas speak about `Reduce`. Client objects are flat maps from keys to JSON scalars.

In these places the code behaves in ways a reader may not expect; the model follows the code:

- **User login order.** Login checks *deleted*, then the password, then *blocked*. So a blocked account with a wrong password gets 400, not 403.
- **Refresh order.** Both refresh handlers check *blocked* before *deleted*.
- **Admin refresh flags.** The admin refresh checks neither flag.
- **Admin login token and cookie.** `loginAdmin` signs with `JWT_SECRET` and sets no `adminRefreshToken` cookie. Meanwhile `protect` verifies with `ACCESS_SECRET`. So an admin-login token opens no route unless the two secrets are configured equal (`Scenarios.AdminLoginTokenFailsTheGate`).
- **Unmounted admin handlers.** No route mounts `loginAdmin`, `logoutAdmin` or `refreshAdminToken`. They are modelled as written.
- **Create response includes the hash.** `createUser` and `getSingleUser` answer with the whole record, hash included.

## Model

| member | source | states |
|---|---|---|
| Text.TrimStart | user-management-master/client/src/pages/Register.jsx:39 | the result is a suffix of the input, every dropped character is JavaScript whitespace, and the result does not start with whitespace |
| Text.TrimEnd | user-management-master/client/src/pages/Register.jsx:41 | the result is a prefix of the input, every dropped character is whitespace, and the result does not end with whitespace |
| Text.TrimEmptyIffBlank | user-management-master/client/src/pages/Register.jsx:39 | `value.trim()` is empty exactly when the value is all whitespace |
| Text.Utf16Length | user-management-master/client/src/pages/Register.jsx:50 | JavaScript's `.length`: at least the number of characters and at most twice it, and equal to it exactly when no character lies beyond U+FFFF |
| Text.Lower | user-management-master/server/Controllers/adminController.js:46-47 | same length, each character ASCII-lower-cased: the `i` option of the search |
| Text.IndexOf | user-management-master/client/src/pages/Register.jsx:44 | the first position of the character, or the length when it is absent |
| Text.EmailFormatIsRegex | user-management-master/client/src/pages/Register.jsx:44 | the backtracking-free decision `IsEmailFormat` holds exactly when `/^[^\s@]+@[^\s@]+\.[^\s@]+$/` read literally (run, `@`, run, `.`, run) matches, in both directions |
| Accounts.Hash | user-management-master/server/Controllers/authController.js:22 | a hash matches its own plaintext and no other |
| Accounts.Verify | user-management-master/server/middlewares/authMiddleware.js:13 | verification succeeds exactly for an unexpired JWT signed with the given key, and yields its subject |
| Accounts.FindByEmail | user-management-master/server/Controllers/authController.js:18 | `findOne({ email })`: the first record in store order with that e-mail; None exactly when no record has it |
| Accounts.FindById | user-management-master/server/middlewares/authMiddleware.js:15 | `findById`: the first record with that id; None exactly when no record has it |
| Accounts.FindByEmailAfterUpdate | user-management-master/server/Controllers/adminController.js:148-149 | saving a record with its e-mail unchanged moves no e-mail lookup |
| Accounts.FindByIdAfterUpdate | user-management-master/server/Controllers/adminController.js:148-149 | saving a record with its id unchanged moves no id lookup |
| Accounts.FindByIdAtIndex | user-management-master/server/Controllers/adminController.js:143 | with unique ids, `findById` finds each record at its own index |
| Accounts.Database.Create | user-management-master/server/Controllers/authController.js:24-28 | `User.create` appends exactly one record under an id no record had, with the schema defaults, and keeps ids unique |
| Accounts.Database.Save | user-management-master/server/Controllers/adminController.js:149 | `save` replaces exactly the record at its index, keeping its id and the store invariant |
| Validation.NameErrors | user-management-master/server/middlewares/validationMiddleware.js:4-5 | no message exactly when the name matches `/^[a-zA-Z\s]+$/`; an empty name gets both messages |
| Validation.RegisterErrors | user-management-master/server/middlewares/validationMiddleware.js:3-8 | no message exactly when the name rule, `isEmail` and length ≥ 6 all hold; the password message appears exactly for a short password, and the e-mail message exactly for a rejected e-mail |
| Validation.LoginErrors | user-management-master/server/middlewares/validationMiddleware.js:10-13 | no message exactly when `isEmail` holds and a password is present, of any length |
| Validation.ProfileUpdateErrors | user-management-master/server/middlewares/validationMiddleware.js:15-19 | no message exactly when the name rule and `isEmail` hold; never a password message |
| Validation.RegisterIsProfileUpdatePlusPassword | user-management-master/server/middlewares/validationMiddleware.js:3-19 | registration passes exactly when the profile rules pass and the password has six characters |
| AuthController.RegisterUser | user-management-master/server/Controllers/authController.js:11-47 | validation errors give 400 with the store unchanged; an existing e-mail gives 400 "User already exists" with the store unchanged; otherwise exactly one new record is appended and the reply is 201 with the session body and the `refreshToken` cookie (no hash in the body) |
| AuthController.LoginUser | user-management-master/server/Controllers/authController.js:50-90 | 200 with tokens and cookie exactly when validation passes and the account exists, is not deleted, matches the password and is not blocked; otherwise no cookie; an unknown e-mail and a wrong password give the identical 400; a failed validation gives 400 with the rule messages; deleted gives 403 whatever the password; a blocked account gets 403 with the blocked message exactly when its password matches |
| AuthController.DeletedLoginIgnoresPassword | user-management-master/server/Controllers/authController.js:61-67 | for a deleted account, any two passwords get the same answer |
| AuthController.RefreshToken | user-management-master/server/Controllers/authController.js:93-126 | no cookie → 401; bad or expired token → 403; no account → 404; blocked → 403, checked before deleted → 403; otherwise 200 with a fresh access token; never a cookie; 200 exactly when a session is returned |
| AuthController.LogoutUser | user-management-master/server/Controllers/authController.js:129-132 | 200 and the `refreshToken` cookie is cleared |
| AdminController.LoginAdmin | user-management-master/server/Controllers/adminController.js:6-22 | 200 exactly when the account exists, is an admin and matches the password, with a token signed by `JWT_SECRET`; every failure is the same 401; no cookie |
| AdminController.LoginAdminIgnoresFlags | user-management-master/server/Controllers/adminController.js:9-11 | changing any record's blocked and deleted flags never changes the admin login answer |
| AdminController.LogoutAdmin | user-management-master/server/Controllers/adminController.js:25-27 | 200 and no cookie is touched |
| AdminController.CountNotDeleted | user-management-master/server/Controllers/adminController.js:31 | at most the store size, and equal to it when nothing is soft-deleted |
| AdminController.GetDashboard | user-management-master/server/Controllers/adminController.js:30-33 | 200 with `totalUsers` equal to the number of stored records not soft-deleted (positions counted, admins included); hence at most the store size, and equal to it when nothing is deleted |
| AdminController.SoftDeleteLowersCount | user-management-master/server/Controllers/adminController.js:130 | soft-deleting a live record lowers the dashboard count by exactly one |
| AdminController.CountNotDeletedAppend | user-management-master/server/Controllers/adminController.js:31 | the count of a concatenation is the sum of the counts |
| AdminController.CountNotDeletedIsLiveCount | user-management-master/server/Controllers/adminController.js:31 | the running count equals the number of positions holding a record not soft-deleted, as `countDocuments` counts them |
| AdminController.DashboardAfterSoftDelete | user-management-master/server/Controllers/adminController.js:31 | after soft-deleting a live record the dashboard reply shows exactly one user fewer |
| AdminController.PageSize | user-management-master/server/Controllers/adminController.js:38 | `Number(limit) \|\| 5`: never zero, 5 for every falsy value |
| AdminController.PageNumber | user-management-master/server/Controllers/adminController.js:39 | `Number(page) \|\| 1`: 1 for every falsy value |
| AdminController.Matching | user-management-master/server/Controllers/adminController.js:41-50 | a record is kept exactly when it is no admin, not deleted and, with a search term, its name or e-mail contains it case-insensitively; each kept record occurs exactly as often as it is stored, and no other record occurs |
| AdminController.MatchingAppend | user-management-master/server/Controllers/adminController.js:41-53 | the filter distributes over concatenation, so the matches keep store order |
| AdminController.InsertNewest | user-management-master/server/Controllers/adminController.js:57 | inserting into a newest-first sequence keeps it newest first and adds exactly that record |
| AdminController.SortNewestFirst | user-management-master/server/Controllers/adminController.js:57 | `sort({ createdAt: -1 })`: newest first and a permutation of the input |
| AdminController.Window | user-management-master/server/Controllers/adminController.js:55-56 | `skip`/`limit`: at most `take` records, exactly as many as remain after the offset, each the record at offset + k |
| AdminController.Profiles | user-management-master/server/Controllers/adminController.js:54 | `.select("-password")`: the same records without their hashes |
| AdminController.CeilDiv | user-management-master/server/Controllers/adminController.js:62 | `Math.ceil(n / d)` for either sign of d: for positive d the least r with r·d ≥ n, for negative d the least r with r·d ≤ n |
| AdminController.Ordered | user-management-master/server/Controllers/adminController.js:52-57 | the matches, newest first, as a permutation, all listed |
| AdminController.ListingPage | user-management-master/server/Controllers/adminController.js:53-57 | at most `take` entries, each the ordered match at offset + k without its hash; no admin, no deleted record, every entry a search hit; newest first |
| AdminController.GetAllUsers | user-management-master/server/Controllers/adminController.js:36-68 | 500 exactly for a negative offset; otherwise 200 with the page, the page number, `ceil(total / size)` and the total match count regardless of page; the page length is the remainder after the offset up to the page size |
| AdminController.SoftDelete | user-management-master/server/Controllers/adminController.js:130 | sets `isDeleted` of the target and changes no other record |
| AdminController.SoftDeleteIdempotent | user-management-master/server/Controllers/adminController.js:128-138 | deleting twice leaves the store as deleting once |
| AdminController.SoftDeletedNeverListed | user-management-master/server/Controllers/adminController.js:44 | a soft-deleted record is in no listing |
| AdminController.ToggleBlocked | user-management-master/server/Controllers/adminController.js:148 | flips `isBlocked` of the target only |
| AdminController.ToggleTwiceRestores | user-management-master/server/Controllers/adminController.js:148 | two toggles restore the store |
| AdminController.ApplyUpdate | user-management-master/server/Controllers/adminController.js:107-119 | the hash is replaced, by a hash of the new password, only for a non-empty password; fields left out keep their values; id, flags, image and creation time are kept |
| AdminController.CreateUser | user-management-master/server/Controllers/adminController.js:77-102 | an existing e-mail → 400 with the store unchanged; no password → 400 from bcrypt's error with the store unchanged; otherwise one record appended with role "user" when none was given, and 201 with the record |
| AdminController.UpdateUser | user-management-master/server/Controllers/adminController.js:105-125 | an unknown id → 200 with null and no change; otherwise exactly that record becomes `ApplyUpdate` of it and the reply carries it without the hash |
| AdminController.DeleteUser | user-management-master/server/Controllers/adminController.js:128-138 | unknown id → 404 with no change; otherwise the store becomes `SoftDelete` of it and 200 |
| AdminController.ToggleBlockUser | user-management-master/server/Controllers/adminController.js:141-158 | unknown id → 404 with no change; otherwise the store becomes `ToggleBlocked` of it and the reply carries the new value and its message |
| AdminController.GetSingleUser | user-management-master/server/Controllers/adminController.js:71-74 | 200 always; null exactly for an unknown id; otherwise the stored record `findById` finds, hash included |
| AdminController.RefreshAdminToken | user-management-master/server/Controllers/adminController.js:161-187 | no cookie → 401; bad token → 403; missing or non-admin account → 404; otherwise 200 with a new access token and no flag check; never a cookie |
| AuthMiddleware.Protect | user-management-master/server/middlewares/authMiddleware.js:4-32 | no header or no `Bearer` prefix → 401 before verification; missing second word or failed verification → the same 401; no account → 401; blocked → 403 before deleted → 403; the handler runs exactly when all checks pass, and gets the account without its hash |
| AuthMiddleware.Admin | user-management-master/server/middlewares/authMiddleware.js:34-37 | passes exactly an admin, unchanged; otherwise 403 |
| AuthMiddleware.ProtectAdmin | user-management-master/server/routes/adminRoutes.js:7-19 | an admin route runs exactly when `protect` passes and the account is an admin; `protect`'s refusals pass through unchanged |
| UserRoutes.MergeProfile | user-management-master/server/routes/userRoutes.js:30-44 | empty name, e-mail or bio keep the stored value; an upload wins over `removeImage`; `removeImage` alone clears the image; with neither it is kept; nothing else changes |
| UserRoutes.UpdateProfile | user-management-master/server/routes/userRoutes.js:12-60 | validation failure → 400 before any lookup; unknown user → 404; otherwise exactly that record becomes the merged one and the reply echoes it with the caller's bearer token |
| UserRoutes.ChangePassword | user-management-master/server/routes/userRoutes.js:65-89 | unknown user → 404; a missing old password → 500; a wrong one → 400, checked before the length rule; a missing new password → 500; one shorter than six UTF-16 units → 400 with the hash unchanged; otherwise only the hash changes, to a hash of the new password |
| ErrorMiddleware.ErrorHandler | user-management-master/server/middlewares/errorMiddleware.js:1-21 | 200 becomes 500; a Multer error gives 400; a 500 with an upload message becomes 400; any other status is kept; the message is passed through and the stack hidden in production |
| JsValues.TextOr | user-management-master/client/src/components/admin/UserModal.jsx:16-17 | `v \|\| fallback` for a text field |
| JsValues.Omit | user-management-master/client/src/features/auth/authSlice.js:98 | the rest of an object destructuring: that key gone, every other key unchanged |
| AuthSlice.Reduce | user-management-master/client/src/features/auth/authSlice.js:65-133 | `isAuthChecked` after an action holds exactly when it held before or the action settles the session; unhandled actions change nothing; login/register store the user without `accessToken`; refresh stores the whole payload; logout and failed refresh null user and token |
| AuthSlice.AuthCheckedIsSticky | user-management-master/client/src/features/auth/authSlice.js:65-133 | no run of actions sets `isAuthChecked` back to false |
| AuthSlice.SettledStaysSettled | user-management-master/client/src/features/auth/authSlice.js:91-133 | after any settling action anywhere in a run, the check is finished at its end |
| AuthSlice.AuthState.constructor | user-management-master/client/src/features/auth/authSlice.js:67-75 | the initial state |
| AuthSlice.AuthState.Reset | user-management-master/client/src/features/auth/authSlice.js:77-82 | clears the flags and the message; user, token and the check are kept |
| AuthSlice.AuthState.SetCredentials | user-management-master/client/src/features/auth/authSlice.js:83-85 | changes the token only |
| AuthSlice.AuthState.Logout | user-management-master/client/src/features/auth/authSlice.js:86-89 | nulls user and token and keeps `isAuthChecked` |
| AuthSlice.AuthState.Pending | user-management-master/client/src/features/auth/authSlice.js:93-95 | sets `isLoading` only |
| AuthSlice.AuthState.LoginFulfilled | user-management-master/client/src/features/auth/authSlice.js:96-102 | token from the payload, user the payload without it, check finished |
| AuthSlice.AuthState.LoginRejected | user-management-master/client/src/features/auth/authSlice.js:103-107 | error flag and message set, user and token unchanged |
| AuthSlice.AuthState.RegisterFulfilled | user-management-master/client/src/features/auth/authSlice.js:108-113 | as login, without touching `isLoading` |
| AuthSlice.AuthState.UpdateProfileFulfilled | user-management-master/client/src/features/auth/authSlice.js:114-116 | the reply becomes the user |
| AuthSlice.AuthState.RefreshFulfilled | user-management-master/client/src/features/auth/authSlice.js:121-126 | the whole payload, token included, becomes the user; check finished |
| AuthSlice.AuthState.RefreshRejected | user-management-master/client/src/features/auth/authSlice.js:127-132 | user and token nulled; check finished |
| AuthSlice.AuthState.Dispatch | user-management-master/client/src/features/auth/authSlice.js:91-133 | every dispatch leaves the state `Reduce` specifies |
| AdminSlice.WithoutId | user-management-master/client/src/features/admin/adminSlice.js:116 | keeps exactly the entries whose `_id` differs, never more entries; nothing removed when none matches |
| AdminSlice.WithoutIdAppend | user-management-master/client/src/features/admin/adminSlice.js:116 | the filter distributes over concatenation, so the kept entries stay in order |
| AdminSlice.ReplaceById | user-management-master/client/src/features/admin/adminSlice.js:143-145 | same length; matching entries become the payload, the others are unchanged |
| AdminSlice.SetBlockedById | user-management-master/client/src/features/admin/adminSlice.js:159-163 | same length; the matching entries get the new `isBlocked`; no other field of any entry changes |
| AdminSlice.Reduce | user-management-master/client/src/features/admin/adminSlice.js:80-171 | pending sets only `isLoading`; every rejection sets the error and message and keeps the list; create keeps the list; delete/update/toggle rewrite it as above; only a fetch changes the paging numbers; reset clears only flags and message |
| AdminSlice.AdminState.constructor | user-management-master/client/src/features/admin/adminSlice.js:4-13 | the initial state |
| AdminSlice.AdminState.ResetAdmin | user-management-master/client/src/features/admin/adminSlice.js:84-89 | clears flags and message; list and paging kept |
| AdminSlice.AdminState.Pending | user-management-master/client/src/features/admin/adminSlice.js:93-95 | sets `isLoading` only |
| AdminSlice.AdminState.Rejected | user-management-master/client/src/features/admin/adminSlice.js:104-108 | `isLoading` off, error on, message from the payload, list unchanged |
| AdminSlice.AdminState.GetUsersFulfilled | user-management-master/client/src/features/admin/adminSlice.js:96-103 | list, page, pages and total from the payload |
| AdminSlice.AdminState.DeleteFulfilled | user-management-master/client/src/features/admin/adminSlice.js:112-117 | the list loses exactly the entries with that `_id` |
| AdminSlice.AdminState.CreateFulfilled | user-management-master/client/src/features/admin/adminSlice.js:126-130 | the list is unchanged |
| AdminSlice.AdminState.UpdateFulfilled | user-management-master/client/src/features/admin/adminSlice.js:139-146 | the entries with the payload's `_id` are replaced |
| AdminSlice.AdminState.ToggleFulfilled | user-management-master/client/src/features/admin/adminSlice.js:155-164 | only `isBlocked` of the matching entries changes; message from the payload |
| AdminSlice.AdminState.Dispatch | user-management-master/client/src/features/admin/adminSlice.js:91-170 | every dispatch leaves the state `Reduce` specifies |
| RouteGuards.UserProtectedRoute | user-management-master/client/src/components/protectedRoute.jsx:4-17 | nothing until checked; children exactly with a token, whatever the role; otherwise to /login |
| RouteGuards.AdminProtectedRoute | user-management-master/client/src/components/protectedRoute.jsx:19-36 | nothing until checked; no token → /admin/login; token but not admin → /; children exactly for a checked admin with a token |
| RouteGuards.PublicRoute | user-management-master/client/src/components/PublicRoute.jsx:4-18 | nothing until checked; children exactly without a token; a token sends admins to /admin/dashboard and everyone else to /home |
| RouteGuards.HomePath | user-management-master/client/src/pages/NotFound.jsx:9-12 | always one of the three paths; /login exactly without a token; /admin/dashboard exactly for an admin with one |
| RouteGuards.PublicAndProtectedPartition | user-management-master/client/src/components/PublicRoute.jsx:8-17 | once checked, exactly one of the public and the user guard renders its page |
| RouteGuards.AdminGuardImpliesUserGuard | user-management-master/client/src/components/protectedRoute.jsx:19-36 | every visitor the admin guard admits, the user guard admits |
| RouteGuards.PublicRouteAgreesWithHomePath | user-management-master/client/src/components/PublicRoute.jsx:10-15 | a signed-in visitor is sent where the 404 link points |
| RouteGuards.FailedRefreshSignsOut | user-management-master/client/src/features/auth/authSlice.js:127-132 | after a failed refresh both protected guards redirect to their login pages and the public pages open |
| RouteGuards.InitialStateWaits | user-management-master/client/src/features/auth/authSlice.js:67-75 | in the initial state every guard renders nothing |
| Forms.EmailError | user-management-master/client/src/pages/Register.jsx:43-47 | empty → required; otherwise "" exactly when the e-mail pattern matches, else the format message |
| Forms.PasswordError | user-management-master/client/src/pages/Register.jsx:48-51 | "" exactly when the `.length` (UTF-16 units) is six or more; empty → required; non-empty and shorter → the length message |
| Forms.AsObject | user-management-master/client/src/pages/Register.jsx:9-13 | the form object has exactly the keys name, email and password, holding the fields |
| Forms.NonEmptyIffSomeKey | user-management-master/client/src/pages/Register.jsx:76 | `Object.keys(m).length > 0` exactly when a key is present |
| Forms.CollectErrors | user-management-master/client/src/pages/Register.jsx:70-74 | the `forEach` collects exactly the failing keys, each with its own message |
| RegisterPage.ValidateField | user-management-master/client/src/pages/Register.jsx:35-53 | a name passes exactly when it matches the letters-and-whitespace pattern and its trimmed `.length` is at least two; blank → required; the alphabet rule before the length rule; e-mail and password as the shared rules; other fields "" |
| RegisterPage.SubmitHandler | user-management-master/client/src/pages/Register.jsx:67-83 | dispatches `{ name, email, password }` exactly when all three fields pass; otherwise shows exactly the failing fields' messages |
| LoginPage.Validate | user-management-master/client/src/pages/Login.jsx:38-50 | one entry per failing field with its message; passes exactly for a present, well-formed e-mail and a password whose `.length` (UTF-16 units) is at least six |
| LoginPage.SubmitHandler | user-management-master/client/src/pages/Login.jsx:38-57 | dispatches exactly `{ email, password }` exactly when the e-mail is present and well-formed and the password's `.length` (UTF-16 units) is at least six; otherwise refuses with a non-empty map holding only `email` and `password`, each present exactly when its rule fails and carrying that rule's message |
| LoginPage.AfterLogin | user-management-master/client/src/pages/Login.jsx:28-35 | no redirect without a token; otherwise the admin dashboard for admins and /home for others |
| LoginPage.AfterLoginIsHomePath | user-management-master/client/src/pages/Login.jsx:28-35 | the login page's redirect is the 404 page's home link |
| UserModal.ValidateField | user-management-master/client/src/components/admin/UserModal.jsx:30-46 | a name passes exactly when its trimmed `.length` (UTF-16 units) is at least two, with no alphabet rule; blank → required; e-mail as the shared rule; the password is validated only in create mode |
| UserModal.FieldsToValidate | user-management-master/client/src/components/admin/UserModal.jsx:62 | name and e-mail always; the password exactly in create mode |
| UserModal.ResetForm | user-management-master/client/src/components/admin/UserModal.jsx:13-28 | errors cleared and password empty; edit mode pre-fills name and e-mail; create mode empties every field |
| UserModal.NoErrorsMeansValid | user-management-master/client/src/components/admin/UserModal.jsx:64-69 | the collected error map is empty exactly when the trimmed name has two UTF-16 units, the e-mail passes, and in create mode the password has six |
| UserModal.HandleSubmit | user-management-master/client/src/components/admin/UserModal.jsx:57-80 | submits exactly when the trimmed name has two UTF-16 units, the e-mail passes and, in create mode, the password has six; an edit submission has name and e-mail and no password; a create submission has all three; a refusal lists exactly the failing fields, each with its `validateField` message |
| UserModal.WithoutPasswordKey | user-management-master/client/src/components/admin/UserModal.jsx:76-78 | deleting the password key from the form data leaves exactly the name and the e-mail |
| ImageUpload.FileError | user-management-master/client/src/components/ImageUpload.jsx:23-31 | "" exactly for an `image/` type of at most 2 MiB; the type is checked before the size |
| ImageUpload.SizeCapIsInclusive | user-management-master/client/src/components/ImageUpload.jsx:28 | exactly 2 MiB is accepted and one byte more refused |
| ImageUpload.Uploader.constructor | user-management-master/client/src/components/ImageUpload.jsx:4-5 | no preview, no error, no callback yet |
| ImageUpload.Uploader.ShowExisting | user-management-master/client/src/components/ImageUpload.jsx:7-13 | the preview follows the parent's stored image |
| ImageUpload.Uploader.HandleFileChange | user-management-master/client/src/components/ImageUpload.jsx:15-35 | no file: error cleared, nothing else; a refused file: its error, no callback; an accepted file: previewed and exactly one `onImageSelect(file)` |
| ImageUpload.Uploader.HandleRemove | user-management-master/client/src/components/ImageUpload.jsx:37-43 | preview cleared, `onImageSelect(null)` and then `onImageRemove` when given |
| ProfilePage.ImageEntries | user-management-master/client/src/pages/Profile.jsx:65-69 | a new file is sent without `removeImage`; `removeImage="true"` only without a file and with the removed flag |
| ProfilePage.ProfileEditor.constructor | user-management-master/client/src/pages/Profile.jsx:15-21 | the initial form state |
| ProfilePage.ProfileEditor.LoadUser | user-management-master/client/src/pages/Profile.jsx:25-34 | signed out → /login; otherwise the fields come from the user and the removed flag is cleared |
| ProfilePage.ProfileEditor.RemoveImage | user-management-master/client/src/pages/Profile.jsx:36-40 | clears the file and the existing image and sets the removed flag |
| ProfilePage.ProfileEditor.SelectImage | user-management-master/client/src/pages/Profile.jsx:119-122 | stores the file and clears the removed flag |
| ProfilePage.ProfileEditor.OnEffect | user-management-master/client/src/pages/Profile.jsx:118-125 | a picker callback runs the matching handler |
| ProfilePage.ProfileEditor.ProfileUpdate | user-management-master/client/src/pages/Profile.jsx:42-71 | empty name or e-mail is refused first, then the name pattern, then the e-mail pattern; it sends exactly when all pass, name and e-mail first and then at most one image entry |
| ProfilePage.ProfileEditor.ProfileSaved | user-management-master/client/src/pages/Profile.jsx:73-76 | clears the removed flag only |
| ProfilePage.ProfileEditor.PasswordChange | user-management-master/client/src/pages/Profile.jsx:82-88 | sends both passwords exactly when the new one's `.length` (UTF-16 units) is at least six; otherwise the length message |
| ProfilePage.ProfileEditor.PasswordChanged | user-management-master/client/src/pages/Profile.jsx:90-94 | empties both password fields only |
| Scenarios.FindAppended | user-management-master/server/Controllers/authController.js:24-28 | a record appended under a fresh id is found by it at the end |
| Scenarios.RegisteredUserCanRefresh | user-management-master/server/Controllers/authController.js:30-37 | the cookie registration sets gets the new account a session at refresh |
| Scenarios.BlockingTakesEffectAtTheGate | user-management-master/server/middlewares/authMiddleware.js:20-22 | after a block, the account's next request with a valid access token is refused 403 |
| Scenarios.DeletedAccountCannotLogIn | user-management-master/server/Controllers/authController.js:61-63 | after a soft delete, login gives 403 whatever the password |
| Scenarios.AdminLoginTokenFailsTheGate | user-management-master/server/Controllers/adminController.js:17 | with distinct secrets, the admin login's token is refused 401 by `protect` |
| Scenarios.ValidatedProfileTakesNameAndEmail | user-management-master/server/routes/userRoutes.js:30-31 | once the profile rules pass, the stored name and e-mail are the submitted ones |
| Scenarios.RegisterPageImpliesServerRules | user-management-master/client/src/pages/Register.jsx:35-53 | a registration the page lets through passes the server's rules when `isEmail` accepts the page's pattern and the password has no character beyond U+FFFF |
| Scenarios.AstralPasswordPassesPageNotServer | user-management-master/client/src/pages/Register.jsx:50 | three emoji pass the page's password rule (six UTF-16 units) yet get the server's length message (three characters for `isLength`) |
| Scenarios.LoginPageStricterThanServer | user-management-master/client/src/pages/Login.jsx:44-46 | a login the page lets through passes the server's rules |
| Scenarios.ShortLoginPasswordOnlyStoppedOnThePage | user-management-master/server/middlewares/validationMiddleware.js:12 | a five-character password passes the server's login rules but not the page's |
| Scenarios.TextField | user-management-master/server/routes/userRoutes.js:30-32 | the text of the first text entry with that key, file entries skipped; "" when there is none |
| Scenarios.ProfilePageRequestEffect | user-management-master/client/src/pages/Profile.jsx:62-69 | the profile page never sends a bio, so the stored bio survives; a removal without a file clears the stored image |
| Scenarios.RefreshedAdminPassesAdminGuard | user-management-master/client/src/features/auth/authSlice.js:121-126 | a refresh payload with a token and the admin role opens the admin pages |
| Scenarios.LogoutClosesProtectedPages | user-management-master/client/src/features/auth/authSlice.js:86-89 | after logout the user guard redirects to /login and the public pages open |

## Left out

- bcrypt and JWT internals stay symbolic: an ideal hash, and an explicit `expired` flag in place of clock-based expiry. Salts and the clock (`createdAt`) are parameters.
- `utils/generateToken.js` and `models/User.js` are not part of this model. Three assumptions are made about them:
  - access tokens are signed with `ACCESS_SECRET` and refresh tokens with `REFRESH_SECRET`;
  - the schema gives role "user", both flags false, an empty profile image and an empty bio;
  - the schema has no unique index on `email` and no `required` validator, with the consequences the next line names.
- UserRoutes.UpdateProfile, AdminController.UpdateUser, AdminController.CreateUser: the model assumes `models/User.js` declares no unique index on `email` and no `required` validator on `name` or `email`. Under that assumption the code does not keep e-mails unique: both update routes store an e-mail another account already has and answer 200 (a unique index would make them throw into their `catch` and answer 400), and `FindByEmail` then takes the first holder. An admin create without a name or e-mail stores "" and answers 201, where `required` would give 400. Registration and admin create do refuse a taken e-mail before storing.
- AdminController.ApplyUpdate: fields the request leaves out keep their values, which assumes Mongoose drops the `undefined` keys of `updateData` (Mongoose 7 and later); older versions with the driver's defaults would write them as null.
- Mongoose persistence is an in-memory sequence, and `findOne` is the first match in insertion order.
  - The `$regex` search is case-insensitive substring matching over ASCII letters. Regex metacharacters in a search term are not interpreted.
  - Records created at the same instant keep their insertion order, which Mongo leaves unspecified.
  - A non-numeric or non-integer `limit` or `page` is not modelled: every falsy `Number(...)` is 0.
  - A negative offset is the store's error, and so the handler's 500. A negative limit is taken by absolute value, as Mongo does.
- Store, upload and network failures are not modelled. This covers those that land in the handlers' `catch` blocks and the unhandled rejections of `getDashboard` and `getSingleUser`, which have no `try`; a malformed `:id` there cannot arise because ids are natural numbers here. Two library exceptions are modelled:
  - bcrypt's exception on a missing password (change-password and admin create);
  - `newPassword.length` on a missing password (change-password).
- `isEmail` of express-validator stays an abstract predicate. Its `isLength` is approximated as counting characters (code points); validator.js also leaves the variation selectors U+FE0E and U+FE0F out of that count, which the model does not, while every JavaScript `.length` on the pages and in the change-password route counts UTF-16 units (`Text.Utf16Length`).
- Cloudinary and multer are left out: an upload is its resulting URL.
- The Express routing and cookie parsing are replaced by explicit parameters.
  - The header's first and second words stand in for the `Authorization` string.
  - `req.body` fields that are absent read as "" or None.
- The axios interceptor, the thin service wrappers, the UI components and toasts are left out: they are transport or rendering. Navigation appears only as the chosen path.
- JavaScript values are flat maps of scalars, and `undefined` is not told apart from `null`.
- JsValues.TextOr, UserModal.ResetForm, ProfilePage.ProfileEditor.LoadUser: a non-string truthy `name` or `email` in a user object is read as "" by `TextOr`. The pages only ever get strings there.
- `AdminController.LoginAdmin` takes the password as a string. A missing password, which makes bcrypt throw, is not modelled.
- `AdminSlice.Reduce` on `updateUser.fulfilled` with a null payload, which would throw in the reducer, is not modelled: the payload is always an object.
- The case-insensitive search and the case folding cover ASCII only. Unicode case mapping is not modelled.
- Toasts are not modelled. `UserModal.jsx` calls `toast.error` (line 71) without importing `toast`, so a refused submission throws after setting the errors. The model records only that nothing is submitted.
- Concurrency between overlapping requests is left out: nothing in the code coordinates it.
