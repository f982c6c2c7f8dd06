/** The register page's field rules and its submit gate. */
module RegisterPage {
  import opened Text
  import opened Forms

  const NameAlphabets := "Name must contain only alphabets"

  /** `validateField(name, value)`: "" when the field passes, otherwise its first failing rule. */
  function ValidateField(field: string, value: string): (e: string)
    ensures field == "name" ==> (e == "" <==> MatchesNameRegex(value) && Utf16Length(Trim(value)) >= 2)
    ensures field == "name" && IsBlank(value) ==> e == NameRequired
    // the alphabet rule comes before the length rule
    ensures field == "name" && !IsBlank(value) && !MatchesNameRegex(value) ==> e == NameAlphabets
    ensures field == "name" && !IsBlank(value) && MatchesNameRegex(value) && Utf16Length(Trim(value)) < 2 ==> e == NameShort
    ensures field == "email" ==> e == EmailError(value)
    ensures field == "password" ==> e == PasswordError(value)
    ensures field != "name" && field != "email" && field != "password" ==> e == ""
  {
    TrimEmptyIffBlank(value);
    if field == "name" then
      if Trim(value) == "" then NameRequired
      else if !MatchesNameRegex(value) then NameAlphabets
      else if Utf16Length(Trim(value)) < 2 then NameShort
      else ""
    else if field == "email" then EmailError(value)
    else if field == "password" then PasswordError(value)
    else ""
  }

  /** `submitHandler`: `registerUser({ name, email, password })` is dispatched only when all three fields pass. */
  method SubmitHandler(form: Credentials) returns (outcome: Submission)
    ensures outcome.Submitted? <==>
            ValidateField("name", form.name) == "" && ValidateField("email", form.email) == ""
            && ValidateField("password", form.password) == ""
    ensures outcome.Submitted? ==> outcome.data == AsObject(form)
    ensures outcome.Blocked? ==>
            (forall k :: k in outcome.errors <==> k in FieldNames && ValidateField(k, AsObject(form)[k]) != "")
            && forall k :: k in outcome.errors ==> outcome.errors[k] == ValidateField(k, AsObject(form)[k])
  {
    var formData := AsObject(form);
    var newErrors := CollectErrors(FieldNames, formData, ValidateField);
    if |newErrors| > 0 {
      return Blocked(newErrors);
    }
    assert "name" !in newErrors && "email" !in newErrors && "password" !in newErrors;
    outcome := Submitted(formData);
  }
}
