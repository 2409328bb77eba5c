/** The sign-in / sign-up form's validation and its submit button. */
module Auth {

  datatype AuthForm = AuthForm(email: string, password: string, name: string, isSignUp: bool)

  /** The shortest password the form accepts. */
  const MinPasswordLength: nat := 6

  /** `isFormValid`: an email, a password of at least six characters and, when
      signing up, a name. */
  predicate IsFormValid(f: AuthForm) {
    f.email != [] && f.password != [] && |f.password| >= MinPasswordLength && (!f.isSignUp || f.name != [])
  }

  /** The submit button is disabled while the form is invalid or a request is
      in flight. */
  predicate SubmitDisabled(f: AuthForm, isLoading: bool) {
    !IsFormValid(f) || isLoading
  }

  /** Each requirement on its own: the empty email, the short password and
      (when signing up) the empty name each make the form invalid; signing in
      ignores the name; and meeting all of them makes it valid. */
  lemma FormRules(f: AuthForm, otherName: string)
    ensures f.email == [] ==> !IsFormValid(f)
    ensures |f.password| < MinPasswordLength ==> !IsFormValid(f)
    ensures f.isSignUp && f.name == [] ==> !IsFormValid(f)
    ensures !f.isSignUp ==> (IsFormValid(f) <==> IsFormValid(f.(name := otherName)))
    ensures f.email != [] && |f.password| >= MinPasswordLength && (f.isSignUp ==> f.name != []) ==> IsFormValid(f)
    ensures SubmitDisabled(f, true) && (SubmitDisabled(f, false) <==> !IsFormValid(f))
  {
  }
}
