/**
 * The sign-up form's submit handler: four checks in a fixed order, the
 * first failing one setting the form error, and otherwise a call to the
 * provider's `signUp`, closing the modal when it reports success.
 */
module SignUpModal {
  import opened Common
  import Auth

  datatype SignUpForm = SignUpForm(name: string, email: string, password: string,
                                   confirmPassword: string, agreeToTerms: bool)

  const RequiredMessage := "Please fill in all required fields"
  const MismatchMessage := "Passwords do not match"
  const LengthMessage := "Password must be at least 8 characters"
  const TermsMessage := "You must agree to the terms and conditions"
  const MinPasswordLength := 8

  /** The form as it starts: every field empty, the terms unticked. */
  const EmptyForm := SignUpForm("", "", "", "", false)

  predicate Filled(form: SignUpForm)
  {
    form.name != "" && form.email != "" && form.password != ""
  }

  /** The validation chain; the first failing check wins. */
  function SignUpError(form: SignUpForm): (err: Option<string>)
    ensures err == Some(RequiredMessage) <==> !Filled(form)
    ensures err == Some(MismatchMessage) <==> Filled(form) && form.password != form.confirmPassword
    ensures err == Some(LengthMessage) <==>
      Filled(form) && form.password == form.confirmPassword && |form.password| < MinPasswordLength
    ensures err == Some(TermsMessage) <==>
      Filled(form) && form.password == form.confirmPassword && |form.password| >= MinPasswordLength &&
      !form.agreeToTerms
    ensures err.Some? ==> err.value in {RequiredMessage, MismatchMessage, LengthMessage, TermsMessage}
  {
    if !Filled(form) then Some(RequiredMessage)
    else if form.password != form.confirmPassword then Some(MismatchMessage)
    else if |form.password| < MinPasswordLength then Some(LengthMessage)
    else if !form.agreeToTerms then Some(TermsMessage)
    else None
  }

  /** A form passes exactly when every field is filled, the passwords agree and are long enough, and the terms are accepted. */
  lemma AcceptedForms(form: SignUpForm)
    ensures SignUpError(form).None? <==>
      Filled(form) && form.password == form.confirmPassword &&
      |form.password| >= MinPasswordLength && form.agreeToTerms
  {
  }

  /** The mismatch is reported before the length: a short, mistyped password reports the mismatch. */
  lemma MismatchBeforeLength()
    ensures SignUpError(SignUpForm("Ann", "ann@example.com", "abc", "abd", true)) == Some(MismatchMessage)
    ensures SignUpError(SignUpForm("Ann", "ann@example.com", "abc", "abc", false)) == Some(LengthMessage)
    ensures SignUpError(EmptyForm) == Some(RequiredMessage)
  {
  }

  /**
   * `handleSubmit`: the form error is cleared, then set by the first
   * failing check; only a form that passes reaches `signUp`, and the
   * modal closes only when the result reports success.
   */
  method Submit(form: SignUpForm, store: Auth.AuthStore) returns (formError: string, closed: bool)
    modifies store
    ensures SignUpError(form).Some? ==> formError == SignUpError(form).value && !closed
    ensures SignUpError(form).Some? ==> unchanged(store)
    ensures SignUpError(form).None? ==> formError == "" && closed
    ensures SignUpError(form).None? ==> store.user == Some(Auth.SignedUpUser(form.name, form.email)) && store.Valid()
    ensures SignUpError(form).None? ==> !store.isSignUpOpen
  {
    formError := "";
    closed := false;
    var err := SignUpError(form);
    if err.Some? {
      formError := err.value;
      return;
    }
    var result := store.SignUp(form.name, form.email, form.password);
    if result.success {
      closed := true;
    }
  }
}
