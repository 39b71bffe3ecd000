/**
 * The decisions of the sign-in screen (`SignInScreen`): when the buttons
 * call the view-model, when they are enabled, when the resend button shows,
 * when a message is styled as a success, and when the screen leaves.
 */
module SignInScreen {
  import opened Wrappers
  import opened Text
  import Repo = AuthRepository
  import VM = AuthViewModel

  /** The phrases the screen looks for in the view-model's `error`. */
  const UnverifiedPhrase := "Votre compte n'est " + "pas encore vérifié"
  const UnconfirmedPhrase := "Email not confirmed"
  const ResendPhrase := "Email de confirmation" + " renvoyé"

  /** The sign-in button's click: the credentials it passes on, if any. */
  function SubmitSignIn(email: string, password: string): (r: Option<(string, string)>)
    ensures r.Some? <==> IsNotBlank(email) && IsNotBlank(password)
    ensures r.Some? ==> r.value == (email, password)
  {
    if IsNotBlank(email) && IsNotBlank(password) then Some((email, password)) else None
  }

  /** The sign-in button is enabled exactly when idle and a click would submit. */
  function SignInEnabled(isLoading: bool, email: string, password: string): (r: bool)
    ensures r <==> !isLoading && SubmitSignIn(email, password).Some?
  {
    !isLoading && IsNotBlank(email) && IsNotBlank(password)
  }

  /** The resend button appears for either phrase of an unverified account, in any case. */
  predicate ShowResendButton(error: string) {
    Contains(error, UnverifiedPhrase, true) || Contains(error, UnconfirmedPhrase, true)
  }

  /** The resend button's click: the address it passes on, if any. */
  function SubmitResend(email: string): (r: Option<string>)
    ensures r.Some? <==> IsNotBlank(email)
    ensures r.Some? ==> r.value == email
  {
    if IsNotBlank(email) then Some(email) else None
  }

  /** The resend button is enabled exactly when idle and a click would submit. */
  function ResendEnabled(isLoading: bool, email: string): (r: bool)
    ensures r <==> !isLoading && SubmitResend(email).Some?
  {
    !isLoading && IsNotBlank(email)
  }

  /** A message is styled as a success when it contains the resend phrase, case included. */
  predicate IsResendNotice(error: string) {
    Contains(error, ResendPhrase, false)
  }

  /** The screen hands over to the next one whenever the state is logged in. */
  predicate RedirectsAfterSignIn(state: VM.AuthUiState) {
    state.isLoggedIn
  }

  /** The repository's unverified-account text brings up the resend button. */
  lemma UnverifiedTextShowsResend()
    ensures ShowResendButton(Repo.AccountNotVerified)
  {
    var rest := ". Veuillez consulter " + "votre boîte email et " + "cliquer sur le lien "
      + "de confirmation pour " + "activer votre compte.";
    ContainsInfix([], UnverifiedPhrase, rest, true);
    assert Repo.AccountNotVerified == [] + UnverifiedPhrase + rest;
  }

  /**
   * A password sign-in the provider refuses as unconfirmed, in any case and
   * with any surrounding text, ends with the resend button on screen.
   */
  lemma UnconfirmedSignInOffersResend(s: VM.AuthUiState, email: string, password: string,
                                      message: string, current: Option<Repo.UserInfo>)
    requires Contains(message, Repo.EmailNotConfirmed, true)
    ensures var r := VM.Perform(s, VM.SignInWithEmail(email, password, Repo.Threw(Some(message)), current));
      r.error.Some? && ShowResendButton(r.error.value) && RedirectsAfterSignIn(r) == s.isLoggedIn
  {
    Repo.SignInFailureOrder(message, current);
    UnverifiedTextShowsResend();
  }

  /** The view-model's resend-success text is styled as a success. */
  lemma ResendSuccessIsNotice()
    ensures IsResendNotice(VM.ResendSucceeded)
  {
    var rest := " ! Vérifiez votre " + "boîte de réception.";
    ContainsInfix([], ResendPhrase, rest, false);
    assert VM.ResendSucceeded == [] + ResendPhrase + rest;
  }

  /**
   * Resending always ends on the repository's "not available" text, which is
   * not styled as a success: the success styling is never reached.
   */
  lemma ResendNeverShowsNotice(s: VM.AuthUiState, address: string)
    ensures var r := VM.Perform(s, VM.ResendConfirmationEmail(address));
      r.error == Some(Repo.NotAvailable) && !IsResendNotice(r.error.value)
  {
    assert ResendPhrase[1] == 'm';
    NotContainsWithoutLetter(Repo.NotAvailable, ResendPhrase, 1, 'm', 'M');
  }

  /** A password sign-in the provider accepts always leaves the screen, even with no user. */
  lemma AcceptedSignInRedirects(s: VM.AuthUiState, email: string, password: string,
                                current: Option<Repo.UserInfo>)
    ensures RedirectsAfterSignIn(VM.Perform(s, VM.SignInWithEmail(email, password, Repo.Returned, current)))
  {
  }
}
