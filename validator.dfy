/** Form-field validators: each returns an error message, or undefined (None)
    when the input is acceptable. */
module Validator {
  import opened Js

  const EmptyField: string := "this field can not be empty"
  const InvalidEmail: string := "invalid email addresss"
  const EmptyPassword: string := "password can not be empty"
  const ShortPassword: string := "password must contains at least 6 digits"

  /** `emailValidator(data)`. The e-mail regular expression is the predicate
      `emailPattern`; `None` is an undefined input. */
  function EmailValidator(data: Option<string>, emailPattern: string -> bool): (r: Option<string>)
    ensures r == Some(EmptyField) <==> data == None || data == Some("")
    ensures data.Some? && data.value != "" ==> (r == None <==> emailPattern(data.value))
    ensures data.Some? && data.value != "" ==> (r == Some(InvalidEmail) <==> !emailPattern(data.value))
  {
    if data == Some("") || data == None then Some(EmptyField)
    else if !emailPattern(data.value) then Some(InvalidEmail)
    else None
  }

  /** `passwordSecurityValidator(password)`; `None` is an undefined input. */
  function PasswordSecurityValidator(password: Option<string>): (r: Option<string>)
    ensures r == Some(EmptyPassword) <==> password == None || password == Some("")
    ensures r == Some(ShortPassword) <==> password.Some? && 0 < |password.value| < 6
    ensures r == None <==> password.Some? && |password.value| >= 6
  {
    if password == Some("") || password == None then Some(EmptyPassword)
    else if |password.value| < 6 then Some(ShortPassword)
    else None
  }

  /** The empty-input message wins over the other check: an empty input is
      reported as empty whatever the pattern says. */
  lemma EmptinessCheckedFirst(emailPattern: string -> bool)
    ensures EmailValidator(Some(""), emailPattern) == Some(EmptyField)
    ensures EmailValidator(None, emailPattern) == Some(EmptyField)
    ensures PasswordSecurityValidator(Some("")) == Some(EmptyPassword)
  {
  }
}
