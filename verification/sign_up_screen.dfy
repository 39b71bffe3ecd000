/**
 * The decisions of the sign-up screen (`SignUpScreen`): form validity, the
 * two hints under the password fields, the submit guard, the recognition of
 * the "check your inbox" notice, and when the screen leaves.
 */
module SignUpScreen {
  import opened Wrappers
  import opened Text
  import Repo = AuthRepository
  import VM = AuthViewModel

  /** The phrase that marks a sign-up notice as a success. */
  const SuccessPhrase := "Inscription réussie"

  /** The shortest password the form accepts. */
  const MinPasswordLength := 6

  /** The arguments the screen passes to `signUpWithEmail`. */
  datatype SignUpCall = SignUpCall(email: string, password: string, username: Option<string>)

  predicate PasswordsMatch(password: string, confirmPassword: string) {
    password == confirmPassword
  }

  /** `isFormValid`: every field filled, the two passwords equal and long enough. */
  predicate IsFormValid(username: string, email: string, password: string, confirmPassword: string) {
    IsNotBlank(username) && IsNotBlank(email) && IsNotBlank(password) && IsNotBlank(confirmPassword)
    && PasswordsMatch(password, confirmPassword) && |password| >= MinPasswordLength
  }

  /** The hint under the password: something typed, but too short. */
  predicate ShowsLengthHint(password: string) {
    |password| > 0 && |password| < MinPasswordLength
  }

  /** The hint under the confirmation: something typed that differs from the password. */
  predicate ShowsMismatchHint(password: string, confirmPassword: string) {
    |confirmPassword| > 0 && !PasswordsMatch(password, confirmPassword)
  }

  /** The sign-up button's click: the call it makes, if any; the username always goes along. */
  function SubmitSignUp(username: string, email: string, password: string, confirmPassword: string): (r: Option<SignUpCall>)
    ensures r.Some? <==> IsFormValid(username, email, password, confirmPassword)
    ensures r.Some? ==> r.value == SignUpCall(email, password, Some(username)) && |r.value.password| >= MinPasswordLength
  {
    if IsFormValid(username, email, password, confirmPassword) then Some(SignUpCall(email, password, Some(username))) else None
  }

  /** The sign-up button is enabled exactly when idle and a click would submit. */
  function SignUpEnabled(isLoading: bool, username: string, email: string, password: string, confirmPassword: string): (r: bool)
    ensures r <==> !isLoading && SubmitSignUp(username, email, password, confirmPassword).Some?
  {
    !isLoading && IsFormValid(username, email, password, confirmPassword)
  }

  /** Both the success colour and the go-to-sign-in button depend on this test. */
  predicate IsSignUpSuccessMessage(error: string) {
    Contains(error, SuccessPhrase, true)
  }

  /** The screen hands over to the next one whenever the state is logged in. */
  predicate RedirectsAfterSignUp(state: VM.AuthUiState) {
    state.isLoggedIn
  }

  /** A form that can be submitted shows neither hint. */
  lemma ValidFormShowsNoHint(username: string, email: string, password: string, confirmPassword: string)
    requires IsFormValid(username, email, password, confirmPassword)
    ensures !ShowsLengthHint(password) && !ShowsMismatchHint(password, confirmPassword)
  {
  }

  /**
   * A hint-free form is not always valid: a blank-but-long password pair shows
   * no hint, yet the form stays invalid.
   */
  lemma BlankPasswordsShowNoHintButAreInvalid()
    ensures !ShowsLengthHint("      ") && !ShowsMismatchHint("      ", "      ")
    ensures !IsFormValid("ada", "ada@example.org", "      ", "      ")
  {
    assert IsWhitespace(' ');
  }

  /** The view-model's pending-confirmation text is recognised as a success. */
  lemma PendingConfirmationIsSuccess()
    ensures IsSignUpSuccessMessage(VM.PendingConfirmation)
  {
    var rest := " ! Un email de " + "vérification a été " + "envoyé à votre " + "adresse. Veuillez "
      + "cliquer sur le lien " + "dans l'email pour " + "activer votre compte, " + "puis revenez vous "
      + "connecter.";
    ContainsInfix([], SuccessPhrase, rest, true);
    assert VM.PendingConfirmation == [] + SuccessPhrase + rest;
  }

  /**
   * A sign-up the provider accepts without then reporting a user shows the
   * success notice and stays on the screen.
   */
  lemma PendingSignUpShowsSuccess(s: VM.AuthUiState, call: SignUpCall)
    ensures var r := VM.Perform(s, VM.SignUpWithEmail(call.email, call.password, call.username, Repo.Returned, None));
      r.error.Some? && IsSignUpSuccessMessage(r.error.value) && !RedirectsAfterSignUp(r)
  {
    PendingConfirmationIsSuccess();
  }

  /** A sign-up the provider accepts with a user leaves the screen. */
  lemma CompletedSignUpRedirects(s: VM.AuthUiState, call: SignUpCall, user: Repo.UserInfo)
    ensures RedirectsAfterSignUp(VM.Perform(s, VM.SignUpWithEmail(call.email, call.password, call.username, Repo.Returned, Some(user))))
  {
  }
}
