/**
 * The decisions of the home screen (`HomeScreen`) that depend on the
 * authentication state: the greeting for the hour, the welcome line and where
 * the avatar leads. The hour comes from the device clock and is a parameter.
 */
module HomeScreen {
  import opened Wrappers
  import opened Text
  import Repo = AuthRepository
  import VM = AuthViewModel

  /** The greeting for an hour of the day; any other number falls in the night bucket. */
  function Greeting(hour: int): (r: string)
    ensures 5 <= hour <= 11 <==> r == "Bonjour"
    ensures 12 <= hour <= 17 <==> r == "Bon après-midi"
    ensures 18 <= hour <= 22 <==> r == "Bonsoir"
    ensures hour < 5 || 22 < hour <==> r == "Bonne nuit"
  {
    if 5 <= hour <= 11 then "Bonjour"
    else if 12 <= hour <= 17 then "Bon après-midi"
    else if 18 <= hour <= 22 then "Bonsoir"
    else "Bonne nuit"
  }

  /** The name in the welcome line: display name, else the email's local part, else a generic word. */
  function WelcomeName(user: Option<Repo.UserInfo>): (r: string)
    ensures user.Some? && VM.GetDisplayName(user.value).Some? ==> r == VM.GetDisplayName(user.value).value
    ensures user.Some? && VM.GetDisplayName(user.value).None? && user.value.email.Some? ==>
      '@' !in r && |r| <= |user.value.email.value| && user.value.email.value[..|r|] == r
      && (|r| < |user.value.email.value| ==> user.value.email.value[|r|] == '@')
    ensures user.None? || (VM.GetDisplayName(user.value).None? && user.value.email.None?) ==> r == "utilisateur"
  {
    match user
    case None => "utilisateur"
    case Some(u) =>
      match VM.GetDisplayName(u)
      case Some(name) => name
      case None =>
        match u.email
        case Some(address) => SubstringBefore(address, '@')
        case None => "utilisateur"
  }

  /** The line under the greeting. */
  function Subtitle(state: VM.AuthUiState): (r: string)
    ensures state.isLoggedIn ==> r == "Bienvenue " + WelcomeName(state.user) + " !"
    ensures !state.isLoggedIn ==> r == "Votre organisation du jour"
  {
    if state.isLoggedIn then "Bienvenue " + WelcomeName(state.user) + " !" else "Votre organisation du jour"
  }

  datatype Destination = Profile | SignIn

  /** Where a tap on the avatar leads. */
  function AvatarTarget(state: VM.AuthUiState): (r: Destination)
    ensures r == Profile <==> state.isLoggedIn
  {
    if state.isLoggedIn then Profile else SignIn
  }

  /** A user known only by an address is welcomed by the part before the first `@`. */
  lemma WelcomeByLocalPart(id: string, local: string, domain: string, confirmedAt: Option<int>)
    requires '@' !in local
    ensures WelcomeName(Some(Repo.UserInfo(id, Some(local + "@" + domain), confirmedAt, None))) == local
  {
    SubstringBeforeFirst(local, '@', domain);
  }

  /**
   * A password sign-in the provider accepts without reporting a user puts the
   * home screen in the logged-in layout with the generic name.
   */
  lemma SignInWithoutUserWelcomesGenericName(s: VM.AuthUiState, email: string, password: string)
    ensures var r := VM.Perform(s, VM.SignInWithEmail(email, password, Repo.Returned, None));
      Subtitle(r) == "Bienvenue utilisateur !" && AvatarTarget(r) == Profile
  {
  }
}
