/**
 * The signed-in user's own routes: PUT /users/profile (name, e-mail, bio and
 * profile image) and PUT /users/change-password. Both run behind `protect`,
 * so they receive the caller's account; each reloads the record, assigns its
 * fields and saves it.
 */
module UserRoutes {
  import opened Base
  import opened Text
  import opened Accounts
  import Validation

  const ProfileNotFound := "User not found"
  const PasswordUserNotFound := "user not found"
  const OldPasswordIncorrect := "old password incorrect"
  const NewPasswordTooShort := "password must be at least 6 characters"
  const PasswordUpdated := "password updates successfully"
  const ServerError := "server Error"

  /** The text fields of the multipart body; "" for a field that is absent. */
  datatype ProfileForm = ProfileForm(name: string, email: string, bio: string, removeImage: string)

  /** The record after the handler's assignments: `x || stored`, then the image rule. */
  function MergeProfile(u: User, form: ProfileForm, uploaded: Option<string>): (v: User)
    ensures v.id == u.id && v.password == u.password && v.role == u.role
    ensures v.isBlocked == u.isBlocked && v.isDeleted == u.isDeleted && v.createdAt == u.createdAt
    // an empty value keeps what is stored
    ensures v.name == (if form.name == "" then u.name else form.name)
    ensures v.email == (if form.email == "" then u.email else form.email)
    ensures v.bio == (if form.bio == "" then u.bio else form.bio)
    // an upload wins over removeImage; removeImage alone clears; neither keeps
    ensures uploaded.Some? ==> v.profileImage == uploaded.value
    ensures uploaded.None? && form.removeImage != "" ==> v.profileImage == ""
    ensures uploaded.None? && form.removeImage == "" ==> v.profileImage == u.profileImage
  {
    var named := u.(name := if form.name != "" then form.name else u.name,
                    email := if form.email != "" then form.email else u.email,
                    bio := if form.bio != "" then form.bio else u.bio);
    if uploaded.Some? then named.(profileImage := uploaded.value)
    else if form.removeImage != "" then named.(profileImage := "")
    else named
  }

  /**
   * PUT /users/profile. `caller` is the account `protect` loaded, `bearer` the
   * header's second word, `uploaded` the hosted URL of an uploaded file.
   */
  method UpdateProfile(db: Database, isEmail: string -> bool, caller: PublicUser, bearer: Option<TokenText>,
                       form: ProfileForm, uploaded: Option<string>)
    returns (resp: Response)
    requires db.Valid()
    modifies db
    ensures db.Valid() && db.nextId == old(db.nextId)
    // validation fails before the store is consulted
    ensures var errs := Validation.ProfileUpdateErrors(form.name, form.email, isEmail);
            errs != [] ==> resp == Response(400, ValidationErrors(errs), NoCookie) && db.users == old(db.users)
    ensures Validation.ProfileUpdateErrors(form.name, form.email, isEmail) == [] &&
            FindById(old(db.users), caller.id).None? ==>
            resp == Response(404, Message(ProfileNotFound), NoCookie) && db.users == old(db.users)
    ensures Validation.ProfileUpdateErrors(form.name, form.email, isEmail) == [] &&
            FindById(old(db.users), caller.id).Some? ==>
            var k := FindById(old(db.users), caller.id).value;
            var v := MergeProfile(old(db.users)[k], form, uploaded);
            db.users == old(db.users)[k := v]
            && resp == Response(200, ProfileSaved(v.id, v.name, v.email, v.profileImage, bearer), NoCookie)
  {
    var errs := Validation.ProfileUpdateErrors(form.name, form.email, isEmail);
    if errs != [] {
      return Response(400, ValidationErrors(errs), NoCookie);
    }
    var found := FindById(db.users, caller.id);
    if found.None? {
      return Response(404, Message(ProfileNotFound), NoCookie);
    }
    var user := db.users[found.value];
    user := user.(name := if form.name != "" then form.name else user.name);
    user := user.(email := if form.email != "" then form.email else user.email);
    user := user.(bio := if form.bio != "" then form.bio else user.bio);
    if uploaded.Some? {
      user := user.(profileImage := uploaded.value);
    } else if form.removeImage != "" {
      user := user.(profileImage := "");
    }
    db.Save(found.value, user);
    resp := Response(200, ProfileSaved(user.id, user.name, user.email, user.profileImage, bearer), NoCookie);
  }

  /**
   * PUT /users/change-password. A missing `oldPassword` makes bcrypt throw and a
   * missing `newPassword` makes `.length` throw; the catch answers both with 500.
   */
  method ChangePassword(db: Database, caller: PublicUser, oldPassword: Option<string>, newPassword: Option<string>,
                        salt: nat)
    returns (resp: Response)
    requires db.Valid()
    modifies db
    ensures db.Valid() && db.nextId == old(db.nextId)
    ensures FindById(old(db.users), caller.id).None? ==>
            resp == Response(404, Message(PasswordUserNotFound), NoCookie) && db.users == old(db.users)
    ensures FindById(old(db.users), caller.id).Some? ==>
            var k := FindById(old(db.users), caller.id).value;
            var u := old(db.users)[k];
            && (oldPassword.None? ==> resp == Response(500, Message(ServerError), NoCookie) && db.users == old(db.users))
            // the old password is checked before the length rule
            && (oldPassword.Some? && !Matches(oldPassword.value, u.password) ==>
                  resp == Response(400, Message(OldPasswordIncorrect), NoCookie) && db.users == old(db.users))
            && (oldPassword.Some? && Matches(oldPassword.value, u.password) && newPassword.None? ==>
                  resp == Response(500, Message(ServerError), NoCookie) && db.users == old(db.users))
            && (oldPassword.Some? && Matches(oldPassword.value, u.password) && newPassword.Some?
                && Utf16Length(newPassword.value) < 6 ==>
                  resp == Response(400, Message(NewPasswordTooShort), NoCookie) && db.users == old(db.users))
            // on success only the hash changes, to a hash of the new password
            && (oldPassword.Some? && Matches(oldPassword.value, u.password) && newPassword.Some?
                && Utf16Length(newPassword.value) >= 6 ==>
                  resp == Response(200, Message(PasswordUpdated), NoCookie)
                  && db.users == old(db.users)[k := u.(password := Hash(newPassword.value, salt))])
  {
    var found := FindById(db.users, caller.id);
    if found.None? {
      return Response(404, Message(PasswordUserNotFound), NoCookie);
    }
    var user := db.users[found.value];
    if oldPassword.None? {
      return Response(500, Message(ServerError), NoCookie);
    }
    if !Matches(oldPassword.value, user.password) {
      return Response(400, Message(OldPasswordIncorrect), NoCookie);
    }
    if newPassword.None? {
      return Response(500, Message(ServerError), NoCookie);
    }
    if Utf16Length(newPassword.value) < 6 {
      return Response(400, Message(NewPasswordTooShort), NoCookie);
    }
    user := user.(password := Hash(newPassword.value, salt));
    db.Save(found.value, user);
    resp := Response(200, Message(PasswordUpdated), NoCookie);
  }
}
