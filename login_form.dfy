/** The login form: two field rules checked before submit, and an `onSubmit`
    that hands the entered pair to the provider's `login` unchanged. */
module LoginForm {
  import AuthContext

  const UsernameRequired := "Usuário é obrigatório"
  const PasswordRequired := "Senha é obrigatória"
  const PasswordTooShort := "Senha deve ter pelo menos 6 caracteres"
  const MinPasswordLength := 6

  datatype Fields = Fields(username: string, password: string)
  datatype FieldError = FieldError(field: string, message: string)

  /** What `handleSubmit(onSubmit)` does with the form: show the field
      errors, or call `login(username, password)`. */
  datatype Dispatch = Blocked(errors: seq<FieldError>) | CallLogin(username: string, password: string)

  /** The first failing rule of each field, in field order: `required`
      before `minLength`. */
  function Errors(f: Fields): seq<FieldError>
  {
    (if f.username == "" then [FieldError("username", UsernameRequired)] else [])
    + (if f.password == "" then [FieldError("password", PasswordRequired)]
       else if |f.password| < MinPasswordLength then [FieldError("password", PasswordTooShort)]
       else [])
  }

  function Submit(f: Fields): Dispatch
  {
    var errors := Errors(f);
    if errors == [] then CallLogin(f.username, f.password) else Blocked(errors)
  }

  /** The provider's state after the form is submitted. */
  function SubmitTo(st: AuthContext.AuthState, f: Fields): AuthContext.AuthState
  {
    match Submit(f)
    case Blocked(_) => st
    case CallLogin(u, p) => AuthContext.LoginStep(st, u, p)
  }

  // ---------------------------------------------------------------------
  // Properties

  /** Each rule's message appears exactly when its rule fails. */
  lemma FieldRules(f: Fields)
    ensures FieldError("username", UsernameRequired) in Errors(f) <==> f.username == ""
    ensures FieldError("password", PasswordRequired) in Errors(f) <==> f.password == ""
    ensures FieldError("password", PasswordTooShort) in Errors(f) <==> 0 < |f.password| < MinPasswordLength
    ensures Errors(f) == [] <==> f.username != "" && |f.password| >= MinPasswordLength
  {
  }

  /** A valid submit calls `login` once with the pair as entered; an invalid
      one never reaches it. */
  lemma SubmitDispatch(f: Fields)
    ensures Submit(f).CallLogin? <==> Errors(f) == []
    ensures Submit(f).CallLogin? ==> Submit(f) == CallLogin(f.username, f.password)
    ensures Submit(f).Blocked? ==> Submit(f).errors == Errors(f) && Submit(f).errors != []
  {
  }

  /** The one pair `login` accepts passes the form, so submitting the form
      authenticates exactly for that pair; a blocked form changes nothing. */
  lemma SubmitAuthenticatesIff(st: AuthContext.AuthState, f: Fields)
    ensures SubmitTo(st, f).navigations == st.navigations + [AuthContext.HomePath]
      <==> AuthContext.Accepted(f.username, f.password)
    ensures Errors(f) != [] ==> SubmitTo(st, f) == st
  {
    assert |"bolinhas"| >= MinPasswordLength;
  }
}
