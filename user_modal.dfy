/**
 * The admin's create/edit user form. It is in edit mode when it was opened
 * for an existing user: then the password is neither validated nor sent.
 */
module UserModal {
  import opened Base
  import opened Text
  import opened JsValues
  import opened Forms

  /** `validateField(name, value)` with `editing` standing for `user` being set; no alphabet rule here. */
  function ValidateField(field: string, value: string, editing: bool): (e: string)
    ensures field == "name" ==> (e == "" <==> Utf16Length(Trim(value)) >= 2)
    ensures field == "name" && IsBlank(value) ==> e == NameRequired
    ensures field == "name" && !IsBlank(value) && Utf16Length(Trim(value)) < 2 ==> e == NameShort
    ensures field == "email" ==> e == EmailError(value)
    ensures field == "password" ==> e == (if editing then "" else PasswordError(value))
    ensures field != "name" && field != "email" && field != "password" ==> e == ""
  {
    TrimEmptyIffBlank(value);
    if field == "name" then
      if Trim(value) == "" then NameRequired
      else if Utf16Length(Trim(value)) < 2 then NameShort
      else ""
    else if field == "email" then EmailError(value)
    else if field == "password" && !editing then PasswordError(value)
    else ""
  }

  /** `fieldsToValidate` */
  function FieldsToValidate(editing: bool): (keys: seq<string>)
    ensures "name" in keys && "email" in keys
    ensures "password" in keys <==> !editing
    ensures forall k :: k in keys ==> k in FieldNames
  {
    if editing then ["name", "email"] else FieldNames
  }

  /** The form state and error map the modal shows. */
  datatype ModalState = ModalState(form: Credentials, errors: map<string, string>)

  /** The effect run when the modal opens or its user changes. */
  function ResetForm(user: Option<Obj>): (s: ModalState)
    ensures s.errors == map[] && s.form.password == ""
    ensures user.None? ==> s.form == Empty
    ensures user.Some? ==> s.form.name == TextOr(Get(user.value, "name"), "")
                           && s.form.email == TextOr(Get(user.value, "email"), "")
  {
    match user
    case None => ModalState(Empty, map[])
    case Some(u) => ModalState(Credentials(TextOr(Get(u, "name"), ""), TextOr(Get(u, "email"), ""), ""), map[])
  }

  /** An error map as `handleSubmit` collects it is empty exactly when the mode's fields all pass. */
  lemma NoErrorsMeansValid(form: Credentials, editing: bool, errors: map<string, string>)
    requires forall k :: k in errors <==>
                         k in FieldsToValidate(editing) && ValidateField(k, AsObject(form)[k], editing) != ""
    ensures |errors| == 0 <==>
            Utf16Length(Trim(form.name)) >= 2 && EmailError(form.email) == "" && (editing || Utf16Length(form.password) >= 6)
  {
    var o := AsObject(form);
    assert o["name"] == form.name && o["email"] == form.email && o["password"] == form.password;
    var keys := FieldsToValidate(editing);
    assert "name" in keys && "email" in keys && ("password" in keys <==> !editing);
    var nameFails := ValidateField("name", form.name, editing) != "";
    var emailFails := ValidateField("email", form.email, editing) != "";
    var passwordFails := !editing && ValidateField("password", form.password, editing) != "";
    assert ("name" in errors) == nameFails;
    assert ("email" in errors) == emailFails;
    assert ("password" in errors) == passwordFails;
    assert forall k :: k in errors ==> k == "name" || k == "email" || k == "password";
    NonEmptyIffSomeKey(errors, "name");
    NonEmptyIffSomeKey(errors, "email");
    NonEmptyIffSomeKey(errors, "password");
  }

  /** `delete submissionData.password` leaves the name and the e-mail. */
  lemma WithoutPasswordKey(form: Credentials)
    ensures AsObject(form) - {"password"} == map["name" := form.name, "email" := form.email]
  {
    var m := AsObject(form) - {"password"};
    assert m.Keys == {"name", "email"};
  }

  /**
   * `handleSubmit`: validates the mode's fields, then hands `onSubmit` a copy
   * of the form, without its password in edit mode.
   */
  method HandleSubmit(form: Credentials, editing: bool) returns (outcome: Submission)
    ensures outcome.Submitted? <==>
            Utf16Length(Trim(form.name)) >= 2 && EmailError(form.email) == "" && (editing || Utf16Length(form.password) >= 6)
    ensures outcome.Submitted? && editing ==>
            outcome.data == map["name" := form.name, "email" := form.email]
    ensures outcome.Submitted? && !editing ==> outcome.data == AsObject(form)
    ensures outcome.Blocked? ==>
            forall k :: k in outcome.errors <==>
                        k in FieldsToValidate(editing) && ValidateField(k, AsObject(form)[k], editing) != ""
    ensures outcome.Blocked? ==>
            forall k :: k in outcome.errors ==> outcome.errors[k] == ValidateField(k, AsObject(form)[k], editing)
  {
    var formData := AsObject(form);
    var newErrors := CollectErrors(FieldsToValidate(editing), formData, (k, v) => ValidateField(k, v, editing));
    NoErrorsMeansValid(form, editing, newErrors);
    if |newErrors| > 0 {
      return Blocked(newErrors);
    }
    var submissionData := formData;
    if editing {
      submissionData := submissionData - {"password"};
      WithoutPasswordKey(form);
    }
    outcome := Submitted(submissionData);
  }
}
