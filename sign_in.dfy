/**
 * The sign-in form's submit handler: one check for empty fields, then a
 * call to the provider's `signIn`, closing the modal when it reports
 * success. The "remember me" box is part of the form but never passed on.
 */
module SignInModal {
  import opened Common
  import Auth

  datatype SignInForm = SignInForm(email: string, password: string, rememberMe: bool)

  const MissingMessage := "Please fill in all fields"

  /** The only check: both fields must be non-empty. */
  function SignInError(form: SignInForm): (err: Option<string>)
    ensures err.Some? <==> form.email == "" || form.password == ""
    ensures err.Some? ==> err.value == MissingMessage
  {
    if form.email == "" || form.password == "" then Some(MissingMessage) else None
  }

  /** `rememberMe` has no effect on the outcome of validation. */
  lemma RememberMeIgnored(form: SignInForm)
    ensures SignInError(form) == SignInError(form.(rememberMe := !form.rememberMe))
  {
  }

  /**
   * `handleSubmit`: the form error is cleared; a form with an empty field
   * sets the message and never reaches `signIn`; any other form signs in
   * (the password is not checked) and the modal closes.
   */
  method Submit(form: SignInForm, store: Auth.AuthStore) returns (formError: string, closed: bool)
    modifies store
    ensures SignInError(form).Some? ==> formError == MissingMessage && !closed
    ensures SignInError(form).Some? ==> unchanged(store)
    ensures SignInError(form).None? ==> formError == "" && closed
    ensures SignInError(form).None? ==> store.user == Some(Auth.SignedInUser(form.email)) && store.Valid()
    ensures SignInError(form).None? ==> !store.isSignInOpen
  {
    formError := "";
    closed := false;
    if SignInError(form).Some? {
      formError := MissingMessage;
      return;
    }
    var result := store.SignIn(form.email, form.password);
    if result.success {
      closed := true;
    }
  }
}
