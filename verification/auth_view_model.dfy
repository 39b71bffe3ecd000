/**
 * The authentication view-model (`AuthViewModel`): one `AuthUiState` record
 * that every operation rewrites twice, first a "begin" write and then one
 * terminal write chosen by the repository's result, plus a session observer
 * that copies the provider's current user into the record.
 *
 * The pure functions `Begin`, `Complete`, `Perform`, `Resync` and `Run`
 * specify the transitions; the class `AuthViewModel` performs them on its
 * `uiState` field and is proved against them.
 */
module AuthViewModel {
  import opened Wrappers
  import opened Text
  import Repo = AuthRepository

  /** What the screens observe. */
  datatype AuthUiState = AuthUiState(
    isLoading: bool,
    user: Option<Repo.UserInfo>,
    isLoggedIn: bool,
    error: Option<string>)

  /** `AuthUiState()` with its default field values. */
  const InitialState := AuthUiState(false, None, false, None)

  /**
   * A call of one of the eight operations, with what the provider did during
   * it and the user it reports afterwards.
   */
  datatype Operation =
    | SignInWithEmail(email: string, password: string, login: Repo.ProviderCall, current: Option<Repo.UserInfo>)
    | SignUpWithEmail(email: string, password: string, username: Option<string>,
                      signUp: Repo.ProviderCall, current: Option<Repo.UserInfo>)
    | SignInWithGoogle(login: Repo.ProviderCall, current: Option<Repo.UserInfo>)
    | SignOut(logout: Repo.ProviderCall)
    | ResendConfirmationEmail(address: string)
    | UpdateUsername(newUsername: string)
    | UpdateEmail(newEmail: string)
    | UpdatePassword(newPassword: string)

  // Texts written by the view-model itself.
  const SignInFallback := "Erreur de connexion"
  const SignUpFallback := "Erreur d'inscription"
  const GoogleFallback := "Erreur de connexion" + " Google"
  const SignOutFallback := "Erreur de déconnexion"
  const ResendFallback := "Erreur lors de " + "l'envoi de l'email"
  const UsernameFallback := "Erreur lors de " + "la mise à jour " + "du pseudo"
  const EmailFallback := "Erreur lors de " + "la mise à jour " + "de l'email"
  const PasswordFallback := "Erreur lors de " + "la mise à jour " + "du mot de passe"
  const PendingConfirmation := "Inscription réussie" + " ! Un email de " + "vérification a été "
    + "envoyé à votre " + "adresse. Veuillez " + "cliquer sur le lien " + "dans l'email pour "
    + "activer votre compte, " + "puis revenez vous " + "connecter."
  const ResendSucceeded := "Email de confirmation" + " renvoyé" + " ! Vérifiez votre " + "boîte de réception."
  const UsernameUpdated := "Pseudo mis à jour avec " + "succès" + " !"
  const EmailUpdated := "Email mis à jour avec " + "succès" + " ! Un email de " + "confirmation a été "
    + "envoyé à votre " + "nouvelle adresse."
  const PasswordUpdated := "Mot de passe mis à " + "jour avec " + "succès" + " !"

  /** The repository's answer to an operation, reduced to success or its failure message. */
  function RepositoryOutcome(op: Operation): (r: Repo.Result<()>)
    ensures op.SignInWithEmail? ==> r.Success? == Repo.SignInWithEmail(op.login, op.current).Success?
    ensures op.SignInWithGoogle? ==> (r.Success? <==> op.login.Returned? && op.current.Some?)
  {
    match op
    case SignInWithEmail(_, _, login, current) => Forget(Repo.SignInWithEmail(login, current))
    case SignUpWithEmail(_, _, _, signUp, current) => Forget(Repo.SignUpWithEmail(signUp, current))
    case SignInWithGoogle(login, current) => Forget(Repo.SignInWithGoogle(login, current))
    case SignOut(logout) => Repo.SignOut(logout)
    case ResendConfirmationEmail(address) => Repo.ResendConfirmationEmail(address)
    case UpdateUsername(name) => Forget(Repo.UpdateUsername(name))
    case UpdateEmail(address) => Forget(Repo.UpdateEmail(address))
    case UpdatePassword(password) => Repo.UpdatePassword(password)
  }

  function Forget<T>(r: Repo.Result<T>): Repo.Result<()> {
    match r
    case Success(_) => Repo.Success(())
    case Failure(m) => Repo.Failure(m)
  }

  /** The text an operation shows when the repository's failure carries no message. */
  function Fallback(op: Operation): string {
    match op
    case SignInWithEmail(_, _, _, _) => SignInFallback
    case SignUpWithEmail(_, _, _, _, _) => SignUpFallback
    case SignInWithGoogle(_, _) => GoogleFallback
    case SignOut(_) => SignOutFallback
    case ResendConfirmationEmail(_) => ResendFallback
    case UpdateUsername(_) => UsernameFallback
    case UpdateEmail(_) => EmailFallback
    case UpdatePassword(_) => PasswordFallback
  }

  /** The operations the repository answers with its fixed "not available" failure. */
  predicate IsUnavailable(op: Operation) {
    op.ResendConfirmationEmail? || op.UpdateUsername? || op.UpdateEmail? || op.UpdatePassword?
  }

  /** The first write of every operation: loading, with the error cleared except by sign-out. */
  function Begin(s: AuthUiState, op: Operation): (r: AuthUiState)
    ensures r.isLoading && r.user == s.user && r.isLoggedIn == s.isLoggedIn
    ensures op.SignOut? ==> r.error == s.error
    ensures !op.SignOut? ==> r.error.None?
  {
    if op.SignOut? then s.(isLoading := true) else s.(isLoading := true, error := None)
  }

  /** The terminal write, from the state after `Begin`, chosen by the repository's result. */
  function Complete(b: AuthUiState, op: Operation): (r: AuthUiState)
    ensures !r.isLoading
    ensures RepositoryOutcome(op).Failure? ==> r.error.Some? && r == b.(isLoading := false, error := r.error)
    ensures RepositoryOutcome(op).Success? && !op.SignOut? ==> r.error.Some? || r.isLoggedIn
  {
    match op
    case SignInWithEmail(_, _, login, current) =>
      (match Repo.SignInWithEmail(login, current)
      case Success(user) => b.(isLoading := false, user := user, isLoggedIn := true, error := None)
      case Failure(message) => b.(isLoading := false, error := Some(message.GetOr(SignInFallback))))
    case SignUpWithEmail(_, _, _, signUp, current) =>
      (match Repo.SignUpWithEmail(signUp, current)
      case Success(user) =>
        if user.Some? && Repo.IsLoggedIn(current) then
          b.(isLoading := false, user := user, isLoggedIn := true, error := None)
        else
          b.(isLoading := false, user := None, isLoggedIn := false, error := Some(PendingConfirmation))
      case Failure(message) => b.(isLoading := false, error := Some(message.GetOr(SignUpFallback))))
    case SignInWithGoogle(login, current) =>
      (match Repo.SignInWithGoogle(login, current)
      case Success(user) => b.(isLoading := false, user := user, isLoggedIn := true, error := None)
      case Failure(message) => b.(isLoading := false, error := Some(message.GetOr(GoogleFallback))))
    case SignOut(logout) =>
      (match Repo.SignOut(logout)
      case Success(_) => b.(isLoading := false, user := None, isLoggedIn := false, error := None)
      case Failure(message) => b.(isLoading := false, error := Some(message.GetOr(SignOutFallback))))
    case ResendConfirmationEmail(address) =>
      (match Repo.ResendConfirmationEmail(address)
      case Success(_) => b.(isLoading := false, error := Some(ResendSucceeded))
      case Failure(message) => b.(isLoading := false, error := Some(message.GetOr(ResendFallback))))
    case UpdateUsername(name) =>
      (match Repo.UpdateUsername(name)
      case Success(updated) => b.(isLoading := false, user := updated, error := Some(UsernameUpdated))
      case Failure(message) => b.(isLoading := false, error := Some(message.GetOr(UsernameFallback))))
    case UpdateEmail(address) =>
      (match Repo.UpdateEmail(address)
      case Success(updated) => b.(isLoading := false, user := updated, error := Some(EmailUpdated))
      case Failure(message) => b.(isLoading := false, error := Some(message.GetOr(EmailFallback))))
    case UpdatePassword(password) =>
      (match Repo.UpdatePassword(password)
      case Success(_) => b.(isLoading := false, error := Some(PasswordUpdated))
      case Failure(message) => b.(isLoading := false, error := Some(message.GetOr(PasswordFallback))))
  }

  /** `isLoggedIn` agrees with the presence of a user. */
  predicate SessionConsistent(s: AuthUiState) {
    s.isLoggedIn <==> s.user.Some?
  }

  /** A password sign-in that succeeds while the provider reports no user. */
  predicate LogsInWithoutUser(op: Operation) {
    op.SignInWithEmail? && op.login.Returned? && op.current.None?
  }

  /** Both writes of one operation. */
  function Perform(s: AuthUiState, op: Operation): (r: AuthUiState)
    ensures !r.isLoading
    ensures RepositoryOutcome(op).Failure? ==>
      r.user == s.user && r.isLoggedIn == s.isLoggedIn
      && r.error == Some(RepositoryOutcome(op).message.GetOr(Fallback(op)))
    ensures op.SignInWithEmail? && op.login.Returned? ==>
      r.isLoggedIn && r.user == op.current && r.error.None?
    ensures op.SignInWithGoogle? && RepositoryOutcome(op).Success? ==>
      r.isLoggedIn && r.user == op.current && r.user.Some? && r.error.None?
    ensures op.SignUpWithEmail? && op.signUp.Returned? && op.current.Some? ==>
      r.isLoggedIn && r.user == op.current && r.error.None?
    ensures op.SignUpWithEmail? && op.signUp.Returned? && op.current.None? ==>
      !r.isLoggedIn && r.user.None? && r.error == Some(PendingConfirmation)
    ensures op.SignOut? && op.logout.Returned? ==> r == InitialState
    ensures IsUnavailable(op) ==> r == s.(isLoading := false, error := Some(Repo.NotAvailable))
    ensures SessionConsistent(s) && !LogsInWithoutUser(op) ==> SessionConsistent(r)
  {
    Complete(Begin(s, op), op)
  }

  /**
   * `checkAuthState` and the session observer: copy the provider's user and
   * logged-in flag, leaving `isLoading` and `error` as they are.
   */
  function Resync(s: AuthUiState, current: Option<Repo.UserInfo>): (r: AuthUiState)
    ensures r.isLoading == s.isLoading && r.error == s.error
    ensures r.user == current && SessionConsistent(r)
  {
    s.(user := Repo.GetCurrentUser(current), isLoggedIn := Repo.IsLoggedIn(current))
  }

  /** `clearError`: only the error changes. */
  function WithoutError(s: AuthUiState): (r: AuthUiState)
    ensures r.error.None? && r.(error := s.error) == s
  {
    s.(error := None)
  }

  /** Anything that rewrites the state. */
  datatype Event =
    | Performed(op: Operation)
    | SessionStatusChanged(current: Option<Repo.UserInfo>)
    | ErrorCleared

  function Step(s: AuthUiState, e: Event): AuthUiState {
    match e
    case Performed(op) => Perform(s, op)
    case SessionStatusChanged(current) => Resync(s, current)
    case ErrorCleared => WithoutError(s)
  }

  /** A sequence of events applied in order. */
  function Run(s: AuthUiState, events: seq<Event>): (r: AuthUiState)
    ensures !s.isLoading ==> !r.isLoading
    ensures (exists i | 0 <= i < |events| :: events[i].Performed?) ==> !r.isLoading
    decreases |events|
  {
    if events == [] then s
    else
      var r := Run(Step(s, events[0]), events[1..]);
      assert forall i | 1 <= i < |events| :: events[i] == events[1..][i - 1];
      r
  }

  /** Every run without a user-less password sign-in keeps `isLoggedIn` and `user` in agreement. */
  lemma {:induction false} RunKeepsSessionConsistent(s: AuthUiState, events: seq<Event>)
    requires SessionConsistent(s)
    requires forall i | 0 <= i < |events| :: !(events[i].Performed? && LogsInWithoutUser(events[i].op))
    ensures SessionConsistent(Run(s, events))
    decreases |events|
  {
    if events != [] {
      var next := Step(s, events[0]);
      assert SessionConsistent(next);
      assert forall i | 0 <= i < |events| - 1 :: events[1..][i] == events[i + 1];
      RunKeepsSessionConsistent(next, events[1..]);
    }
  }

  /** The excluded case does happen: a password sign-in can log in with no user. */
  lemma SignInWithoutUserIsInconsistent()
    ensures var r := Perform(InitialState, SignInWithEmail("ada@example.org", "secret", Repo.Returned, None));
      r.isLoggedIn && r.user.None? && !SessionConsistent(r)
  {
  }

  /** Replaying a session event with the same provider state changes nothing. */
  lemma ResyncIdempotent(s: AuthUiState, current: Option<Repo.UserInfo>)
    ensures Resync(Resync(s, current), current) == Resync(s, current)
  {
  }

  // ---------------------------------------------------------------------------
  // The view-model object

  class AuthViewModel {
    var uiState: AuthUiState
    /** Every value written to the state flow, oldest first. */
    ghost var emitted: seq<AuthUiState>

    ghost predicate Valid()
      reads this
    {
      emitted != [] && emitted[|emitted| - 1] == uiState
    }

    /** Starts from the default state and runs `checkAuthState`. */
    constructor (current: Option<Repo.UserInfo>)
      ensures Valid()
      ensures uiState == Resync(InitialState, current)
      ensures emitted == [InitialState, uiState]
    {
      uiState := InitialState;
      emitted := [InitialState];
      new;
      CheckAuthState(current);
    }

    method CheckAuthState(current: Option<Repo.UserInfo>)
      requires Valid()
      modifies this
      ensures Valid()
      ensures uiState == Resync(old(uiState), current)
      ensures emitted == old(emitted) + [uiState]
    {
      uiState := uiState.(user := Repo.GetCurrentUser(current), isLoggedIn := Repo.IsLoggedIn(current));
      emitted := emitted + [uiState];
    }

    /** The observer's `collect`: one resync per session status, in order. */
    method CollectSessionStatus(statuses: seq<Option<Repo.UserInfo>>)
      requires Valid()
      modifies this
      ensures Valid()
      ensures uiState == Run(old(uiState), SessionEvents(statuses))
      ensures statuses != [] ==> uiState == Resync(old(uiState), statuses[|statuses| - 1])
      ensures |emitted| == |old(emitted)| + |statuses| && emitted[..|old(emitted)|] == old(emitted)
    {
      var i := 0;
      while i < |statuses|
        invariant 0 <= i <= |statuses|
        invariant Valid()
        invariant uiState == Run(old(uiState), SessionEvents(statuses[..i]))
        invariant i > 0 ==> uiState == Resync(old(uiState), statuses[i - 1])
        invariant i == 0 ==> uiState == old(uiState)
        invariant |emitted| == |old(emitted)| + i && emitted[..|old(emitted)|] == old(emitted)
      {
        RunResyncs(old(uiState), statuses[..i], statuses[i]);
        assert statuses[..i + 1] == statuses[..i] + [statuses[i]];
        uiState := uiState.(user := Repo.GetCurrentUser(statuses[i]), isLoggedIn := Repo.IsLoggedIn(statuses[i]));
        emitted := emitted + [uiState];
        i := i + 1;
      }
      assert statuses[..i] == statuses;
    }

    method SignInWithEmail(email: string, password: string,
                           login: Repo.ProviderCall, current: Option<Repo.UserInfo>)
      requires Valid()
      modifies this
      ensures Valid()
      ensures var op := Operation.SignInWithEmail(email, password, login, current);
        uiState == Perform(old(uiState), op) && emitted == old(emitted) + [Begin(old(uiState), op), uiState]
    {
      uiState := uiState.(isLoading := true, error := None);
      emitted := emitted + [uiState];
      uiState := match Repo.SignInWithEmail(login, current)
        case Success(user) => uiState.(isLoading := false, user := user, isLoggedIn := true, error := None)
        case Failure(message) => uiState.(isLoading := false, error := Some(message.GetOr(SignInFallback)));
      emitted := emitted + [uiState];
    }

    method SignUpWithEmail(email: string, password: string, username: Option<string>,
                           signUp: Repo.ProviderCall, current: Option<Repo.UserInfo>)
      requires Valid()
      modifies this
      ensures Valid()
      ensures var op := Operation.SignUpWithEmail(email, password, username, signUp, current);
        uiState == Perform(old(uiState), op) && emitted == old(emitted) + [Begin(old(uiState), op), uiState]
    {
      uiState := uiState.(isLoading := true, error := None);
      emitted := emitted + [uiState];
      uiState := match Repo.SignUpWithEmail(signUp, current)
        case Success(user) =>
          if user.Some? && Repo.IsLoggedIn(current) then
            uiState.(isLoading := false, user := user, isLoggedIn := true, error := None)
          else
            uiState.(isLoading := false, user := None, isLoggedIn := false, error := Some(PendingConfirmation))
        case Failure(message) => uiState.(isLoading := false, error := Some(message.GetOr(SignUpFallback)));
      emitted := emitted + [uiState];
    }

    method SignInWithGoogle(login: Repo.ProviderCall, current: Option<Repo.UserInfo>)
      requires Valid()
      modifies this
      ensures Valid()
      ensures var op := Operation.SignInWithGoogle(login, current);
        uiState == Perform(old(uiState), op) && emitted == old(emitted) + [Begin(old(uiState), op), uiState]
    {
      uiState := uiState.(isLoading := true, error := None);
      emitted := emitted + [uiState];
      uiState := match Repo.SignInWithGoogle(login, current)
        case Success(user) => uiState.(isLoading := false, user := user, isLoggedIn := true, error := None)
        case Failure(message) => uiState.(isLoading := false, error := Some(message.GetOr(GoogleFallback)));
      emitted := emitted + [uiState];
    }

    method SignOut(logout: Repo.ProviderCall)
      requires Valid()
      modifies this
      ensures Valid()
      ensures var op := Operation.SignOut(logout);
        uiState == Perform(old(uiState), op) && emitted == old(emitted) + [Begin(old(uiState), op), uiState]
    {
      uiState := uiState.(isLoading := true);
      emitted := emitted + [uiState];
      uiState := match Repo.SignOut(logout)
        case Success(_) => uiState.(isLoading := false, user := None, isLoggedIn := false, error := None)
        case Failure(message) => uiState.(isLoading := false, error := Some(message.GetOr(SignOutFallback)));
      emitted := emitted + [uiState];
    }

    method ClearError()
      requires Valid()
      modifies this
      ensures Valid()
      ensures uiState == WithoutError(old(uiState)) && emitted == old(emitted) + [uiState]
    {
      uiState := uiState.(error := None);
      emitted := emitted + [uiState];
    }

    method ResendConfirmationEmail(address: string)
      requires Valid()
      modifies this
      ensures Valid()
      ensures var op := Operation.ResendConfirmationEmail(address);
        uiState == Perform(old(uiState), op) && emitted == old(emitted) + [Begin(old(uiState), op), uiState]
    {
      uiState := uiState.(isLoading := true, error := None);
      emitted := emitted + [uiState];
      uiState := match Repo.ResendConfirmationEmail(address)
        case Success(_) => uiState.(isLoading := false, error := Some(ResendSucceeded))
        case Failure(message) => uiState.(isLoading := false, error := Some(message.GetOr(ResendFallback)));
      emitted := emitted + [uiState];
    }

    method UpdateUsername(newUsername: string)
      requires Valid()
      modifies this
      ensures Valid()
      ensures var op := Operation.UpdateUsername(newUsername);
        uiState == Perform(old(uiState), op) && emitted == old(emitted) + [Begin(old(uiState), op), uiState]
    {
      uiState := uiState.(isLoading := true, error := None);
      emitted := emitted + [uiState];
      uiState := match Repo.UpdateUsername(newUsername)
        case Success(updated) => uiState.(isLoading := false, user := updated, error := Some(UsernameUpdated))
        case Failure(message) => uiState.(isLoading := false, error := Some(message.GetOr(UsernameFallback)));
      emitted := emitted + [uiState];
    }

    method UpdateEmail(newEmail: string)
      requires Valid()
      modifies this
      ensures Valid()
      ensures var op := Operation.UpdateEmail(newEmail);
        uiState == Perform(old(uiState), op) && emitted == old(emitted) + [Begin(old(uiState), op), uiState]
    {
      uiState := uiState.(isLoading := true, error := None);
      emitted := emitted + [uiState];
      uiState := match Repo.UpdateEmail(newEmail)
        case Success(updated) => uiState.(isLoading := false, user := updated, error := Some(EmailUpdated))
        case Failure(message) => uiState.(isLoading := false, error := Some(message.GetOr(EmailFallback)));
      emitted := emitted + [uiState];
    }

    method UpdatePassword(newPassword: string)
      requires Valid()
      modifies this
      ensures Valid()
      ensures var op := Operation.UpdatePassword(newPassword);
        uiState == Perform(old(uiState), op) && emitted == old(emitted) + [Begin(old(uiState), op), uiState]
    {
      uiState := uiState.(isLoading := true, error := None);
      emitted := emitted + [uiState];
      uiState := match Repo.UpdatePassword(newPassword)
        case Success(_) => uiState.(isLoading := false, error := Some(PasswordUpdated))
        case Failure(message) => uiState.(isLoading := false, error := Some(message.GetOr(PasswordFallback)));
      emitted := emitted + [uiState];
    }
  }

  /** The session events of a sequence of provider states. */
  function SessionEvents(statuses: seq<Option<Repo.UserInfo>>): (r: seq<Event>)
    ensures |r| == |statuses|
    ensures forall i | 0 <= i < |statuses| :: r[i] == SessionStatusChanged(statuses[i])
  {
    seq(|statuses|, i requires 0 <= i < |statuses| => SessionStatusChanged(statuses[i]))
  }

  /** Running one more session event after a prefix is one more resync. */
  lemma {:induction false} RunResyncs(s: AuthUiState, statuses: seq<Option<Repo.UserInfo>>,
                                      last: Option<Repo.UserInfo>)
    ensures Run(s, SessionEvents(statuses + [last])) == Resync(Run(s, SessionEvents(statuses)), last)
    decreases |statuses|
  {
    if statuses == [] {
      assert SessionEvents([last]) == [SessionStatusChanged(last)];
    } else {
      var tail := statuses[1..];
      assert SessionEvents(statuses + [last])[1..] == SessionEvents(tail + [last]);
      assert SessionEvents(statuses)[1..] == SessionEvents(tail);
      assert (statuses + [last])[1..] == tail + [last];
      RunResyncs(Resync(s, statuses[0]), tail, last);
    }
  }

  // ---------------------------------------------------------------------------
  // Display name

  /** The metadata keys tried for a display name, in priority order. */
  const DisplayNameKeys := ["display_name", "username", "full_name", "name"]

  /** Key `k` is the first of `keys` present in `metadata`. */
  predicate IsFirstPresent(metadata: map<string, Repo.JsonValue>, keys: seq<string>, k: int) {
    0 <= k < |keys| && keys[k] in metadata && forall j | 0 <= j < k :: keys[j] !in metadata
  }

  /** The value under the first present key: the `?:` chain of lookups. */
  function FirstPresent(metadata: map<string, Repo.JsonValue>, keys: seq<string>): (r: Option<Repo.JsonValue>)
    ensures r.None? <==> forall k | 0 <= k < |keys| :: keys[k] !in metadata
    ensures forall k | IsFirstPresent(metadata, keys, k) :: r == Some(metadata[keys[k]])
  {
    if keys == [] then None
    else if keys[0] in metadata then Some(metadata[keys[0]])
    else
      var rest := FirstPresent(metadata, keys[1..]);
      assert forall k | 1 <= k < |keys| :: keys[k] == keys[1..][k - 1];
      assert forall k | IsFirstPresent(metadata, keys, k) :: k >= 1 && IsFirstPresent(metadata, keys[1..], k - 1);
      rest
  }

  /** The clean-up applied to the printed value: trim, then drop one pair of quotes. */
  function CleanName(raw: string): string {
    RemoveSurrounding(Trim(raw), '"')
  }

  /** `UserInfo.getDisplayName()`. */
  function GetDisplayName(user: Repo.UserInfo): (r: Option<string>)
    ensures user.userMetadata.None? ==> r.None?
    ensures user.userMetadata.Some? ==>
      (r.None? <==> forall k | 0 <= k < |DisplayNameKeys| :: DisplayNameKeys[k] !in user.userMetadata.value)
    ensures user.userMetadata.Some? ==>
      forall k | IsFirstPresent(user.userMetadata.value, DisplayNameKeys, k) ::
        r == Some(CleanName(user.userMetadata.value[DisplayNameKeys[k]].ToString()))
  {
    match user.userMetadata
    case None => None
    case Some(metadata) =>
      match FirstPresent(metadata, DisplayNameKeys)
      case None => None
      case Some(value) => Some(CleanName(value.ToString()))
  }

  /**
   * A user whose metadata is what sign-up attached gets the chosen username
   * back, in its escaped printed form.
   */
  lemma DisplayNameOfSignUp(username: string, user: Repo.UserInfo)
    requires user.userMetadata == Repo.SignUpMetadata(Some(username))
    ensures GetDisplayName(user) == Some(Repo.Escape(username))
  {
    var metadata := user.userMetadata.value;
    assert IsFirstPresent(metadata, DisplayNameKeys, 0);
    DisplayNameFromKey(user, 0);
    QuotedIsCleaned(Repo.Escape(username));
  }

  /** A username with no character that JSON escapes comes back unchanged. */
  lemma DisplayNameOfPlainSignUp(username: string, user: Repo.UserInfo)
    requires user.userMetadata == Repo.SignUpMetadata(Some(username))
    requires forall i | 0 <= i < |username| :: !Repo.IsEscaped(username[i])
    ensures GetDisplayName(user) == Some(username)
  {
    DisplayNameOfSignUp(username, user);
  }

  /** The display name comes from the first key present. */
  lemma DisplayNameFromKey(user: Repo.UserInfo, k: int)
    requires user.userMetadata.Some? && IsFirstPresent(user.userMetadata.value, DisplayNameKeys, k)
    ensures GetDisplayName(user) == Some(CleanName(user.userMetadata.value[DisplayNameKeys[k]].ToString()))
  {
  }

  /** A printed JSON string loses exactly its quotes in the clean-up. */
  lemma QuotedIsCleaned(body: string)
    ensures CleanName(['"'] + body + ['"']) == body
  {
    var printed := ['"'] + body + ['"'];
    assert !IsWhitespace(printed[0]) && !IsWhitespace(printed[|printed| - 1]);
    assert Trim(printed) == printed;
    RemoveSurroundingOfWrapped(body, '"');
  }

  /** The first present key wins even when its value is empty. */
  lemma EmptyDisplayNameWins()
    ensures GetDisplayName(Repo.UserInfo("u1", None, None,
      Some(map["display_name" := Repo.JsonString(""), "username" := Repo.JsonString("bob")]))) == Some("")
  {
    var user := Repo.UserInfo("u1", None, None,
      Some(map["display_name" := Repo.JsonString(""), "username" := Repo.JsonString("bob")]));
    assert IsFirstPresent(user.userMetadata.value, DisplayNameKeys, 0);
    DisplayNameFromKey(user, 0);
    QuotedIsCleaned("");
  }

  /** The lowest-priority key is read when the others are absent. */
  lemma NameKeyIsLastResort(name: string)
    ensures GetDisplayName(Repo.UserInfo("u2", None, None, Some(map["name" := Repo.JsonString(name)])))
      == Some(Repo.Escape(name))
  {
    var user := Repo.UserInfo("u2", None, None, Some(map["name" := Repo.JsonString(name)]));
    assert IsFirstPresent(user.userMetadata.value, DisplayNameKeys, 3);
    DisplayNameFromKey(user, 3);
    QuotedIsCleaned(Repo.Escape(name));
  }
}
