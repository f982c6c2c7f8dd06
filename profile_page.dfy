/**
 * The profile page: its form state, the checks it makes before sending a
 * profile update or a password change, and the multipart entries it sends.
 * The image picker's callbacks are `SelectImage` and `RemoveImage`.
 */
module ProfilePage {
  import opened Base
  import opened Text
  import opened JsValues
  import opened ImageUpload

  const NameEmailRequired := "Name and Email are required"
  const NameAlphabets := "Name must contain only alphabets"
  const EmailInvalid := "Please enter a valid email"
  const PasswordShort := "Password must be at least 6 characters"
  const LoginPath := "/login"

  /** A multipart form value: text or a file. */
  datatype Part = TextPart(text: string) | FilePart(file: File)

  /** What a submit does: show a toast and stop, or send these entries, in `append` order. */
  datatype ProfileRequest = Refused(message: string) | SendForm(entries: seq<(string, Part)>)

  datatype PasswordRequest = RefusedPassword(message: string) | SendPasswords(oldPassword: string, newPassword: string)

  /** The image entry of the sent form: a new file wins, a removal is sent only without one. */
  function ImageEntries(profileImage: Option<File>, isImageRemoved: bool): (es: seq<(string, Part)>)
    ensures profileImage.Some? ==> es == [("profileImage", FilePart(profileImage.value))]
    ensures profileImage.None? && isImageRemoved ==> es == [("removeImage", TextPart("true"))]
    ensures profileImage.None? && !isImageRemoved ==> es == []
  {
    if profileImage.Some? then [("profileImage", FilePart(profileImage.value))]
    else if isImageRemoved then [("removeImage", TextPart("true"))]
    else []
  }

  class ProfileEditor {
    var name: string
    var email: string
    var profileImage: Option<File>
    var existingImage: string
    var isImageRemoved: bool
    var oldPassword: string
    var newPassword: string

    constructor ()
      ensures name == "" && email == "" && profileImage.None? && existingImage == ""
      ensures !isImageRemoved && oldPassword == "" && newPassword == ""
    {
      name := "";
      email := "";
      profileImage := None;
      existingImage := "";
      isImageRemoved := false;
      oldPassword := "";
      newPassword := "";
    }

    /** The effect on `user`: signed out goes to the login page, otherwise the form is filled from the user. */
    method LoadUser(user: Option<Obj>) returns (redirect: Option<string>)
      modifies this
      ensures user.None? ==> redirect == Some(LoginPath) && name == old(name) && email == old(email)
                             && existingImage == old(existingImage) && isImageRemoved == old(isImageRemoved)
      ensures user.Some? ==> redirect.None?
                             && name == TextOr(Get(user.value, "name"), "")
                             && email == TextOr(Get(user.value, "email"), "")
                             && existingImage == TextOr(Get(user.value, "profileImage"), "")
                             && !isImageRemoved
      ensures profileImage == old(profileImage) && oldPassword == old(oldPassword) && newPassword == old(newPassword)
    {
      if user.None? {
        return Some(LoginPath);
      }
      name := TextOr(Get(user.value, "name"), "");
      email := TextOr(Get(user.value, "email"), "");
      existingImage := TextOr(Get(user.value, "profileImage"), "");
      isImageRemoved := false;
      redirect := None;
    }

    /** `handleRemoveImage`, the picker's `onImageRemove` */
    method RemoveImage()
      modifies this
      ensures profileImage.None? && existingImage == "" && isImageRemoved
      ensures name == old(name) && email == old(email)
      ensures oldPassword == old(oldPassword) && newPassword == old(newPassword)
    {
      profileImage := None;
      existingImage := "";
      isImageRemoved := true;
    }

    /** The picker's `onImageSelect`: choosing a file (or null) cancels a pending removal. */
    method SelectImage(file: Option<File>)
      modifies this
      ensures profileImage == file && !isImageRemoved
      ensures name == old(name) && email == old(email) && existingImage == old(existingImage)
      ensures oldPassword == old(oldPassword) && newPassword == old(newPassword)
    {
      profileImage := file;
      isImageRemoved := false;
    }

    /** Routes one recorded picker callback to its handler. */
    method OnEffect(e: Effect)
      modifies this
      ensures e.ImageSelected? ==> profileImage == e.file && !isImageRemoved && existingImage == old(existingImage)
      ensures e.ImageRemoved? ==> profileImage.None? && existingImage == "" && isImageRemoved
      ensures name == old(name) && email == old(email)
      ensures oldPassword == old(oldPassword) && newPassword == old(newPassword)
    {
      match e
      case ImageSelected(f) => SelectImage(f);
      case ImageRemoved => RemoveImage();
    }

    /** `handleProfileUpdate`: required, then the name rule, then the e-mail rule; then the form entries. */
    method ProfileUpdate() returns (request: ProfileRequest)
      ensures name == "" || email == "" ==> request == Refused(NameEmailRequired)
      ensures name != "" && email != "" && !MatchesNameRegex(name) ==> request == Refused(NameAlphabets)
      ensures name != "" && email != "" && MatchesNameRegex(name) && !EmailRegex(email) ==>
              request == Refused(EmailInvalid)
      ensures request.SendForm? <==> MatchesNameRegex(name) && email != "" && EmailRegex(email)
      // name and e-mail always go first, then at most one image entry
      ensures request.SendForm? ==>
              request.entries == [("name", TextPart(name)), ("email", TextPart(email))]
                                 + ImageEntries(profileImage, isImageRemoved)
    {
      if name == "" || email == "" {
        return Refused(NameEmailRequired);
      }
      if !MatchesNameRegex(name) {
        return Refused(NameAlphabets);
      }
      EmailFormatIsRegex(email);
      if !IsEmailFormat(email) {
        return Refused(EmailInvalid);
      }
      var formData: seq<(string, Part)> := [];
      formData := formData + [("name", TextPart(name))];
      formData := formData + [("email", TextPart(email))];
      if profileImage.Some? {
        formData := formData + [("profileImage", FilePart(profileImage.value))];
      } else if isImageRemoved {
        formData := formData + [("removeImage", TextPart("true"))];
      }
      request := SendForm(formData);
    }

    /** The `.then` of a successful profile update. */
    method ProfileSaved()
      modifies this
      ensures !isImageRemoved
      ensures name == old(name) && email == old(email) && profileImage == old(profileImage)
      ensures existingImage == old(existingImage)
      ensures oldPassword == old(oldPassword) && newPassword == old(newPassword)
    {
      isImageRemoved := false;
    }

    /** `handlePasswordChange`: only the new password's length is checked here. */
    method PasswordChange() returns (request: PasswordRequest)
      ensures request.SendPasswords? <==> Utf16Length(newPassword) >= 6
      ensures request.SendPasswords? ==> request == SendPasswords(oldPassword, newPassword)
      ensures request.RefusedPassword? ==> request.message == PasswordShort
    {
      if Utf16Length(newPassword) < 6 {
        return RefusedPassword(PasswordShort);
      }
      request := SendPasswords(oldPassword, newPassword);
    }

    /** The `.then` of a successful password change: both fields are emptied. */
    method PasswordChanged()
      modifies this
      ensures oldPassword == "" && newPassword == ""
      ensures name == old(name) && email == old(email) && profileImage == old(profileImage)
      ensures existingImage == old(existingImage) && isImageRemoved == old(isImageRemoved)
    {
      oldPassword := "";
      newPassword := "";
    }
  }
}
