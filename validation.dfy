/**
 * The server's declarative input rules (express-validator chains). Each chain
 * runs in order and every failing rule contributes its message, so one bad
 * field can produce two messages. `isEmail` is the validator library's own
 * check and stays a parameter.
 */
module Validation {
  import opened Base
  import opened Text

  const NameRequired := "Name is required"
  const NameAlphabets := "Name must contain only alphabets"
  const EmailInvalid := "Please include a valid email"
  const PasswordTooShort := "Please enter a password with 6 or more characters"
  const PasswordRequired := "Password is required"

  /** `body('name').not().isEmpty()` then `body('name').matches(/^[a-zA-Z\s]+$/)` */
  function NameErrors(name: string): (errs: seq<string>)
    ensures errs == [] <==> MatchesNameRegex(name)
    ensures name == "" ==> errs == [NameRequired, NameAlphabets]
    ensures name != "" ==> NameRequired !in errs
  {
    (if name == "" then [NameRequired] else [])
    + (if MatchesNameRegex(name) then [] else [NameAlphabets])
  }

  /** `registerValidation`; `isLength` counts characters, not the UTF-16 units of `.length`. */
  function RegisterErrors(name: string, email: string, password: string, isEmail: string -> bool): (errs: seq<string>)
    ensures errs == [] <==> MatchesNameRegex(name) && isEmail(email) && |password| >= 6
    ensures PasswordTooShort in errs <==> |password| < 6
    ensures EmailInvalid in errs <==> !isEmail(email)
  {
    NameErrors(name)
    + (if isEmail(email) then [] else [EmailInvalid])
    + (if |password| >= 6 then [] else [PasswordTooShort])
  }

  /** `loginValidation`: a valid e-mail and a password that is present, of any length. */
  function LoginErrors(email: string, password: Option<string>, isEmail: string -> bool): (errs: seq<string>)
    ensures errs == [] <==> isEmail(email) && password.Some?
    ensures password.None? ==> PasswordRequired in errs
  {
    (if isEmail(email) then [] else [EmailInvalid])
    + (if password.Some? then [] else [PasswordRequired])
  }

  /** `profileUpdateValidation`: the register rules for name and e-mail, and no password rule. */
  function ProfileUpdateErrors(name: string, email: string, isEmail: string -> bool): (errs: seq<string>)
    ensures errs == [] <==> MatchesNameRegex(name) && isEmail(email)
    ensures PasswordTooShort !in errs
  {
    NameErrors(name) + (if isEmail(email) then [] else [EmailInvalid])
  }

  /** Registration is the profile-update rules plus the password length rule. */
  lemma RegisterIsProfileUpdatePlusPassword(name: string, email: string, password: string, isEmail: string -> bool)
    ensures RegisterErrors(name, email, password, isEmail) == [] <==>
            ProfileUpdateErrors(name, email, isEmail) == [] && |password| >= 6
  {
  }
}
