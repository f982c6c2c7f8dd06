/**
 * What the client's forms share: the e-mail and password rules the
 * register, login and admin user forms apply with the same messages, the
 * `{ name, email, password }` form state, and the `forEach` loop that
 * collects one error per failing field before a submit.
 */
module Forms {
  import opened Text

  const NameRequired := "Name is required"
  const NameShort := "Name must be at least 2 characters"
  const EmailRequired := "Email is required"
  const EmailFormat := "Invalid email format"
  const PasswordRequired := "Password is required"
  const PasswordShort := "Password must be at least 6 characters"

  /** Required first, then `/^[^\s@]+@[^\s@]+\.[^\s@]+$/`; "" when the value passes. */
  function EmailError(value: string): (e: string)
    ensures value == "" ==> e == EmailRequired
    ensures value != "" ==> (e == "" <==> EmailRegex(value))
    ensures value != "" && !EmailRegex(value) ==> e == EmailFormat
  {
    EmailFormatIsRegex(value);
    if value == "" then EmailRequired
    else if !IsEmailFormat(value) then EmailFormat
    else ""
  }

  /** Required first, then `value.length >= 6`, a length in UTF-16 code units. */
  function PasswordError(value: string): (e: string)
    ensures e == "" <==> Utf16Length(value) >= 6
    ensures value == "" ==> e == PasswordRequired
    ensures value != "" && Utf16Length(value) < 6 ==> e == PasswordShort
  {
    if value == "" then PasswordRequired
    else if Utf16Length(value) < 6 then PasswordShort
    else ""
  }

  /** The form state of the register page and the admin's user form. */
  datatype Credentials = Credentials(name: string, email: string, password: string)

  const Empty := Credentials("", "", "")

  /** `Object.keys(formData)`, in the order the state object was written. */
  const FieldNames := ["name", "email", "password"]

  /** The state as a JavaScript object. */
  function AsObject(c: Credentials): (o: map<string, string>)
    ensures o.Keys == {"name", "email", "password"}
    ensures o["name"] == c.name && o["email"] == c.email && o["password"] == c.password
  {
    map["name" := c.name, "email" := c.email, "password" := c.password]
  }

  /** What a submit handler does: show the errors it found, or hand the fields on. */
  datatype Submission = Blocked(errors: map<string, string>) | Submitted(data: map<string, string>)

  /** `Object.keys(m).length > 0` holds exactly when some key is present. */
  lemma NonEmptyIffSomeKey(m: map<string, string>, k: string)
    ensures k in m ==> |m| > 0
    ensures |m| > 0 ==> exists j :: j in m
  {
    if k in m {
      assert k in m.Keys;
    }
    if |m| > 0 {
      var j :| j in m.Keys;
    }
  }

  /**
   * `keys.forEach(key => { const error = validate(key, form[key]); if (error) newErrors[key] = error })`:
   * the result holds exactly the failing keys, each with its own message.
   */
  method CollectErrors(keys: seq<string>, form: map<string, string>, validate: (string, string) -> string)
    returns (errors: map<string, string>)
    requires forall k :: k in keys ==> k in form
    ensures forall k :: k in errors <==> k in keys && validate(k, form[k]) != ""
    ensures forall k :: k in errors ==> errors[k] == validate(k, form[k])
  {
    errors := map[];
    var i := 0;
    while i < |keys|
      invariant 0 <= i <= |keys|
      invariant forall k :: k in errors <==> k in keys[..i] && validate(k, form[k]) != ""
      invariant forall k :: k in errors ==> errors[k] == validate(k, form[k])
    {
      var key := keys[i];
      var error := validate(key, form[key]);
      if error != "" {
        errors := errors[key := error];
      }
      assert keys[..i + 1] == keys[..i] + [key];
      i := i + 1;
    }
    assert keys[..i] == keys;
  }
}
