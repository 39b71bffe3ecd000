/**
 * The profile screen (`ProfileScreen`): the editing state it keeps for the
 * username, email and password fields, with the handlers that change it, and
 * the pure decisions it takes from the view-model's state (heading, banner,
 * enabled buttons, success colour, redirect).
 */
module ProfileScreen {
  import opened Wrappers
  import opened Text
  import Repo = AuthRepository
  import VM = AuthViewModel

  /** The shortest new password the save handler accepts. */
  const MinPasswordLength := 6

  /** The words that make a message a success notice. */
  const SuccessWord := "succès"
  const ResentWord := "renvoyé"

  /** A snapshot of the editor's fields. */
  datatype EditorState = EditorState(
    isEditingUsername: bool,
    isEditingEmail: bool,
    isEditingPassword: bool,
    editedUsername: string,
    editedEmail: string,
    newPassword: string,
    confirmPassword: string,
    passwordVisible: bool,
    confirmPasswordVisible: bool)

  /** The save handler's own test on the two password fields. */
  predicate PasswordAccepted(newPassword: string, confirmPassword: string) {
    newPassword == confirmPassword && |newPassword| >= MinPasswordLength
  }

  /** The screen's remembered editing state and the handlers that rewrite it. */
  class ProfileEditor {
    var isEditingUsername: bool
    var isEditingEmail: bool
    var isEditingPassword: bool
    var editedUsername: string
    var editedEmail: string
    var newPassword: string
    var confirmPassword: string
    var passwordVisible: bool
    var confirmPasswordVisible: bool

    function State(): EditorState
      reads this
    {
      EditorState(isEditingUsername, isEditingEmail, isEditingPassword, editedUsername, editedEmail,
                  newPassword, confirmPassword, passwordVisible, confirmPasswordVisible)
    }

    constructor ()
      ensures State() == EditorState(false, false, false, "", "", "", "", false, false)
    {
      isEditingUsername, isEditingEmail, isEditingPassword := false, false, false;
      editedUsername, editedEmail, newPassword, confirmPassword := "", "", "", "";
      passwordVisible, confirmPasswordVisible := false, false;
    }

    /** The effect keyed on the user: a new user refills the two text fields. */
    method OnUserChanged(user: Option<Repo.UserInfo>)
      modifies this
      ensures user.Some? ==> State() == old(State()).(
        editedUsername := VM.GetDisplayName(user.value).GetOr(""),
        editedEmail := user.value.email.GetOr(""))
      ensures user.None? ==> State() == old(State())
    {
      if user.Some? {
        editedUsername := VM.GetDisplayName(user.value).GetOr("");
        editedEmail := user.value.email.GetOr("");
      }
    }

    method StartEditingUsername()
      modifies this
      ensures State() == old(State()).(isEditingUsername := true)
    {
      isEditingUsername := true;
    }

    method SetEditedUsername(value: string)
      modifies this
      ensures State() == old(State()).(editedUsername := value)
    {
      editedUsername := value;
    }

    /** Saving the username: the text goes to `updateUsername` as it is, and editing ends. */
    method SaveUsername() returns (request: string)
      modifies this
      ensures request == old(editedUsername)
      ensures State() == old(State()).(isEditingUsername := false)
    {
      request := editedUsername;
      isEditingUsername := false;
    }

    /** Cancelling the username: the field goes back to the display name, or empty. */
    method CancelUsername(user: Repo.UserInfo)
      modifies this
      ensures State() == old(State()).(editedUsername := VM.GetDisplayName(user).GetOr(""), isEditingUsername := false)
    {
      editedUsername := VM.GetDisplayName(user).GetOr("");
      isEditingUsername := false;
    }

    method StartEditingEmail()
      modifies this
      ensures State() == old(State()).(isEditingEmail := true)
    {
      isEditingEmail := true;
    }

    method SetEditedEmail(value: string)
      modifies this
      ensures State() == old(State()).(editedEmail := value)
    {
      editedEmail := value;
    }

    /** Saving the email: the text goes to `updateEmail` as it is, and editing ends. */
    method SaveEmail() returns (request: string)
      modifies this
      ensures request == old(editedEmail)
      ensures State() == old(State()).(isEditingEmail := false)
    {
      request := editedEmail;
      isEditingEmail := false;
    }

    /** Cancelling the email: the field goes back to the user's email, or empty. */
    method CancelEmail(user: Repo.UserInfo)
      modifies this
      ensures State() == old(State()).(editedEmail := user.email.GetOr(""), isEditingEmail := false)
    {
      editedEmail := user.email.GetOr("");
      isEditingEmail := false;
    }

    method StartEditingPassword()
      modifies this
      ensures State() == old(State()).(isEditingPassword := true)
    {
      isEditingPassword := true;
    }

    method SetNewPassword(value: string)
      modifies this
      ensures State() == old(State()).(newPassword := value)
    {
      newPassword := value;
    }

    method SetConfirmPassword(value: string)
      modifies this
      ensures State() == old(State()).(confirmPassword := value)
    {
      confirmPassword := value;
    }

    /**
     * Saving the password: only an accepted pair is sent to `updatePassword`;
     * then both fields are emptied and editing ends. Otherwise nothing changes.
     */
    method SavePassword() returns (request: Option<string>)
      modifies this
      ensures request.Some? <==> PasswordAccepted(old(newPassword), old(confirmPassword))
      ensures request.Some? ==> (request.value == old(newPassword) && |request.value| >= MinPasswordLength
        && State() == old(State()).(isEditingPassword := false, newPassword := "", confirmPassword := ""))
      ensures request.None? ==> State() == old(State())
    {
      if newPassword == confirmPassword && |newPassword| >= MinPasswordLength {
        request := Some(newPassword);
        isEditingPassword := false;
        newPassword := "";
        confirmPassword := "";
      } else {
        request := None;
      }
    }

    /** Cancelling the password: editing ends, both fields and both visibility flags reset. */
    method CancelPassword()
      modifies this
      ensures State() == old(State()).(isEditingPassword := false, newPassword := "", confirmPassword := "",
                                       passwordVisible := false, confirmPasswordVisible := false)
    {
      isEditingPassword := false;
      newPassword := "";
      confirmPassword := "";
      passwordVisible := false;
      confirmPasswordVisible := false;
    }

    method TogglePasswordVisibility()
      modifies this
      ensures State() == old(State()).(passwordVisible := !old(passwordVisible))
    {
      passwordVisible := !passwordVisible;
    }

    method ToggleConfirmPasswordVisibility()
      modifies this
      ensures State() == old(State()).(confirmPasswordVisible := !old(confirmPasswordVisible))
    {
      confirmPasswordVisible := !confirmPasswordVisible;
    }
  }

  /** The password save button: enabled only for a pair the handler accepts. */
  function SavePasswordEnabled(newPassword: string, confirmPassword: string): (r: bool)
    ensures r ==> PasswordAccepted(newPassword, confirmPassword)
    ensures r <==> IsNotBlank(newPassword) && PasswordAccepted(newPassword, confirmPassword)
  {
    IsNotBlank(newPassword) && newPassword == confirmPassword && |newPassword| >= MinPasswordLength
  }

  /** The handler accepts six spaces, which the button never lets through. */
  lemma BlankPasswordOnlyStoppedByButton()
    ensures PasswordAccepted("      ", "      ") && !SavePasswordEnabled("      ", "      ")
  {
    assert IsWhitespace(' ');
  }

  /** The username and email save buttons. */
  predicate FieldSaveEnabled(editValue: string) {
    IsNotBlank(editValue)
  }

  /** The message card is coloured as a success when either word occurs, in any case. */
  predicate IsSuccessMessage(message: string) {
    Contains(message, SuccessWord, true) || Contains(message, ResentWord, true)
  }

  /** The heading: display name, else email, else a generic word. */
  function Heading(user: Repo.UserInfo): (r: string)
    ensures VM.GetDisplayName(user).Some? ==> r == VM.GetDisplayName(user).value
    ensures VM.GetDisplayName(user).None? && user.email.Some? ==> r == user.email.value
    ensures VM.GetDisplayName(user).None? && user.email.None? ==> r == "Utilisateur"
  {
    match VM.GetDisplayName(user)
    case Some(name) => name
    case None => user.email.GetOr("Utilisateur")
  }

  /** The email appears under the heading only when the heading is the display name. */
  predicate ShowsEmailSubtitle(user: Repo.UserInfo) {
    VM.GetDisplayName(user).Some? && user.email.Some?
  }

  /** The subtitle never repeats a heading taken from the email. */
  lemma SubtitleOnlyUnderDisplayName(user: Repo.UserInfo)
    requires ShowsEmailSubtitle(user)
    ensures Heading(user) == VM.GetDisplayName(user).value
  {
  }

  /** The unverified banner shows exactly when no confirmation date is known. */
  predicate ShowsUnverifiedBanner(user: Repo.UserInfo) {
    user.emailConfirmedAt.None?
  }

  /** The banner's resend button: the address it passes on, if the user has one. */
  function BannerResendRequest(user: Repo.UserInfo): (r: Option<string>)
    ensures r.Some? <==> user.email.Some?
    ensures r.Some? ==> r.value == user.email.value
  {
    if user.email.Some? then Some(user.email.value) else None
  }

  /** The screen sends the user to sign-in whenever the state is logged out. */
  predicate RedirectsToSignIn(state: VM.AuthUiState) {
    !state.isLoggedIn
  }

  /** A completed sign-out always sends the user to sign-in. */
  lemma SignOutRedirects(s: VM.AuthUiState)
    ensures RedirectsToSignIn(VM.Perform(s, VM.SignOut(Repo.Returned)))
  {
  }

  // ---------------------------------------------------------------------------
  // The success colour against the texts the app produces

  // ---------------------------------------------------------------------------
  // No failure text the app produces is coloured as a success. For each text
  // and each word, the text lacks a letter of the word in both cases; a long
  // text is cut after spaces into parts that are handled one by one.

  /** The sign-in and Google failure texts are not success notices. */
  lemma SignInFailuresAreNotSuccess()
    ensures !IsSuccessMessage(Repo.AccountNotVerified)
    ensures !IsSuccessMessage(Repo.WrongCredentials)
    ensures !IsSuccessMessage(Repo.TooManyAttempts)
    ensures !IsSuccessMessage(Repo.SignInUnknown)
    ensures !IsSuccessMessage(Repo.GoogleFailed)
  {
    AccountNotVerifiedLacksSuccessWord();
    AccountNotVerifiedLacksResentWord();
    WrongCredentialsLacksSuccessWord();
    WrongCredentialsLacksResentWord();
    TooManyAttemptsLacksSuccessWord();
    TooManyAttemptsLacksResentWord();
    SignInUnknownLacksSuccessWord();
    SignInUnknownLacksResentWord();
    GoogleFailedLacksSuccessWord();
    GoogleFailedLacksResentWord();
  }

  /** The sign-up failure texts are not success notices. */
  lemma SignUpFailuresAreNotSuccess()
    ensures !IsSuccessMessage(Repo.AccountExists)
    ensures !IsSuccessMessage(Repo.PasswordTooShort)
    ensures !IsSuccessMessage(Repo.InvalidEmailAddress)
    ensures !IsSuccessMessage(Repo.SignUpUnknown)
  {
    AccountExistsLacksSuccessWord();
    AccountExistsLacksResentWord();
    PasswordTooShortLacksSuccessWord();
    PasswordTooShortLacksResentWord();
    InvalidEmailAddressLacksSuccessWord();
    InvalidEmailAddressLacksResentWord();
    SignUpUnknownLacksSuccessWord();
    SignUpUnknownLacksResentWord();
  }

  /** The "not available" text and the unreachable resend and update tables are not success notices. */
  lemma UnavailableTextsAreNotSuccess()
    ensures !IsSuccessMessage(Repo.NotAvailable)
    ensures !IsSuccessMessage(Repo.InvalidEmailShort)
    ensures !IsSuccessMessage(Repo.TooManyResends)
    ensures !IsSuccessMessage(Repo.ResendUnknown)
    ensures !IsSuccessMessage(Repo.UserMissing)
    ensures !IsSuccessMessage(Repo.SessionExpired)
    ensures !IsSuccessMessage(Repo.UsernameUnknown)
    ensures !IsSuccessMessage(Repo.InvalidEmailFormat)
    ensures !IsSuccessMessage(Repo.EmailTaken)
    ensures !IsSuccessMessage(Repo.EmailUnknown)
    ensures !IsSuccessMessage(Repo.PasswordUnknown)
  {
    NotAvailableLacksSuccessWord();
    NotAvailableLacksResentWord();
    InvalidEmailShortLacksSuccessWord();
    InvalidEmailShortLacksResentWord();
    TooManyResendsLacksSuccessWord();
    TooManyResendsLacksResentWord();
    ResendUnknownLacksSuccessWord();
    ResendUnknownLacksResentWord();
    UserMissingLacksSuccessWord();
    UserMissingLacksResentWord();
    SessionExpiredLacksSuccessWord();
    SessionExpiredLacksResentWord();
    UsernameUnknownLacksSuccessWord();
    UsernameUnknownLacksResentWord();
    InvalidEmailFormatLacksSuccessWord();
    InvalidEmailFormatLacksResentWord();
    EmailTakenLacksSuccessWord();
    EmailTakenLacksResentWord();
    EmailUnknownLacksSuccessWord();
    EmailUnknownLacksResentWord();
    PasswordUnknownLacksSuccessWord();
    PasswordUnknownLacksResentWord();
  }

  /** The view-model's own failure texts are not success notices. */
  lemma FallbacksAreNotSuccess()
    ensures !IsSuccessMessage(VM.SignInFallback)
    ensures !IsSuccessMessage(VM.SignUpFallback)
    ensures !IsSuccessMessage(VM.GoogleFallback)
    ensures !IsSuccessMessage(VM.SignOutFallback)
    ensures !IsSuccessMessage(VM.ResendFallback)
    ensures !IsSuccessMessage(VM.UsernameFallback)
    ensures !IsSuccessMessage(VM.EmailFallback)
    ensures !IsSuccessMessage(VM.PasswordFallback)
  {
    SignInFallbackLacksSuccessWord();
    SignInFallbackLacksResentWord();
    SignUpFallbackLacksSuccessWord();
    SignUpFallbackLacksResentWord();
    GoogleFallbackLacksSuccessWord();
    GoogleFallbackLacksResentWord();
    SignOutFallbackLacksSuccessWord();
    SignOutFallbackLacksResentWord();
    ResendFallbackLacksSuccessWord();
    ResendFallbackLacksResentWord();
    UsernameFallbackLacksSuccessWord();
    UsernameFallbackLacksResentWord();
    EmailFallbackLacksSuccessWord();
    EmailFallbackLacksResentWord();
    PasswordFallbackLacksSuccessWord();
    PasswordFallbackLacksResentWord();
  }

  lemma AccountNotVerifiedPart1LacksSuccessWord()
    ensures !Contains("Votre compte n'est " + "pas encore vérifié" + ". Veuillez consulter ", SuccessWord, true)
  {
    assert SuccessWord[4] == 'è';
    NotContainsWithoutLetter("Votre compte n'est " + "pas encore vérifié" + ". Veuillez consulter ", SuccessWord, 4, 'è', 'È');
  }

  lemma AccountNotVerifiedPart2LacksSuccessWord()
    ensures !Contains("votre boîte email et " + "cliquer sur le lien ", SuccessWord, true)
  {
    assert SuccessWord[4] == 'è';
    NotContainsWithoutLetter("votre boîte email et " + "cliquer sur le lien ", SuccessWord, 4, 'è', 'È');
  }

  lemma AccountNotVerifiedPart3LacksSuccessWord()
    ensures !Contains("de confirmation pour " + "activer votre compte.", SuccessWord, true)
  {
    assert SuccessWord[4] == 'è';
    NotContainsWithoutLetter("de confirmation pour " + "activer votre compte.", SuccessWord, 4, 'è', 'È');
  }

  lemma AccountNotVerifiedLacksSuccessWord()
    ensures !Contains(Repo.AccountNotVerified, SuccessWord, true)
  {
    var p1 := "Votre compte n'est " + "pas encore vérifié" + ". Veuillez consulter ";
    AccountNotVerifiedPart1LacksSuccessWord();
    var p2 := "votre boîte email et " + "cliquer sur le lien ";
    AccountNotVerifiedPart2LacksSuccessWord();
    var p3 := "de confirmation pour " + "activer votre compte.";
    AccountNotVerifiedPart3LacksSuccessWord();
    assert Repo.AccountNotVerified == p1 + (p2 + p3);
    NotContainsAcross(p2, p3, SuccessWord);
    NotContainsAcross(p1, p2 + p3, SuccessWord);
  }

  lemma AccountNotVerifiedPart1LacksResentWord()
    ensures !Contains("Votre compte n'est " + "pas encore vérifié" + ". Veuillez consulter ", ResentWord, true)
  {
    assert ResentWord[5] == 'y';
    NotContainsWithoutLetter("Votre compte n'est " + "pas encore vérifié" + ". Veuillez consulter ", ResentWord, 5, 'y', 'Y');
  }

  lemma AccountNotVerifiedPart2LacksResentWord()
    ensures !Contains("votre boîte email et " + "cliquer sur le lien ", ResentWord, true)
  {
    assert ResentWord[5] == 'y';
    NotContainsWithoutLetter("votre boîte email et " + "cliquer sur le lien ", ResentWord, 5, 'y', 'Y');
  }

  lemma AccountNotVerifiedPart3LacksResentWord()
    ensures !Contains("de confirmation pour " + "activer votre compte.", ResentWord, true)
  {
    assert ResentWord[5] == 'y';
    NotContainsWithoutLetter("de confirmation pour " + "activer votre compte.", ResentWord, 5, 'y', 'Y');
  }

  lemma AccountNotVerifiedLacksResentWord()
    ensures !Contains(Repo.AccountNotVerified, ResentWord, true)
  {
    var p1 := "Votre compte n'est " + "pas encore vérifié" + ". Veuillez consulter ";
    AccountNotVerifiedPart1LacksResentWord();
    var p2 := "votre boîte email et " + "cliquer sur le lien ";
    AccountNotVerifiedPart2LacksResentWord();
    var p3 := "de confirmation pour " + "activer votre compte.";
    AccountNotVerifiedPart3LacksResentWord();
    assert Repo.AccountNotVerified == p1 + (p2 + p3);
    NotContainsAcross(p2, p3, ResentWord);
    NotContainsAcross(p1, p2 + p3, ResentWord);
  }

  lemma WrongCredentialsLacksSuccessWord()
    ensures !Contains(Repo.WrongCredentials, SuccessWord, true)
  {
    assert SuccessWord[4] == 'è';
    NotContainsWithoutLetter(Repo.WrongCredentials, SuccessWord, 4, 'è', 'È');
  }

  lemma WrongCredentialsLacksResentWord()
    ensures !Contains(Repo.WrongCredentials, ResentWord, true)
  {
    assert ResentWord[5] == 'y';
    NotContainsWithoutLetter(Repo.WrongCredentials, ResentWord, 5, 'y', 'Y');
  }

  lemma TooManyAttemptsPart1LacksSuccessWord()
    ensures !Contains("Trop de tentatives de " + "connexion. Veuillez ", SuccessWord, true)
  {
    assert SuccessWord[4] == 'è';
    NotContainsWithoutLetter("Trop de tentatives de " + "connexion. Veuillez ", SuccessWord, 4, 'è', 'È');
  }

  lemma TooManyAttemptsPart2LacksSuccessWord()
    ensures !Contains("attendre quelques " + "minutes avant de " + "réessayer.", SuccessWord, true)
  {
    assert SuccessWord[4] == 'è';
    NotContainsWithoutLetter("attendre quelques " + "minutes avant de " + "réessayer.", SuccessWord, 4, 'è', 'È');
  }

  lemma TooManyAttemptsLacksSuccessWord()
    ensures !Contains(Repo.TooManyAttempts, SuccessWord, true)
  {
    var p1 := "Trop de tentatives de " + "connexion. Veuillez ";
    TooManyAttemptsPart1LacksSuccessWord();
    var p2 := "attendre quelques " + "minutes avant de " + "réessayer.";
    TooManyAttemptsPart2LacksSuccessWord();
    assert Repo.TooManyAttempts == p1 + p2;
    NotContainsAcross(p1, p2, SuccessWord);
  }

  lemma TooManyAttemptsPart1LacksResentWord()
    ensures !Contains("Trop de tentatives de ", ResentWord, true)
  {
    assert ResentWord[5] == 'y';
    NotContainsWithoutLetter("Trop de tentatives de ", ResentWord, 5, 'y', 'Y');
  }

  lemma TooManyAttemptsPart2LacksResentWord()
    ensures !Contains("connexion. Veuillez " + "attendre quelques " + "minutes avant de ", ResentWord, true)
  {
    assert ResentWord[5] == 'y';
    NotContainsWithoutLetter("connexion. Veuillez " + "attendre quelques " + "minutes avant de ", ResentWord, 5, 'y', 'Y');
  }

  lemma TooManyAttemptsPart3LacksResentWord()
    ensures !Contains("réessayer.", ResentWord, true)
  {
    assert ResentWord[2] == 'n';
    NotContainsWithoutLetter("réessayer.", ResentWord, 2, 'n', 'N');
  }

  lemma TooManyAttemptsLacksResentWord()
    ensures !Contains(Repo.TooManyAttempts, ResentWord, true)
  {
    var p1 := "Trop de tentatives de ";
    TooManyAttemptsPart1LacksResentWord();
    var p2 := "connexion. Veuillez " + "attendre quelques " + "minutes avant de ";
    TooManyAttemptsPart2LacksResentWord();
    var p3 := "réessayer.";
    TooManyAttemptsPart3LacksResentWord();
    assert Repo.TooManyAttempts == p1 + (p2 + p3);
    NotContainsAcross(p2, p3, ResentWord);
    NotContainsAcross(p1, p2 + p3, ResentWord);
  }

  lemma SignInUnknownLacksSuccessWord()
    ensures !Contains(Repo.SignInUnknown, SuccessWord, true)
  {
    assert SuccessWord[4] == 'è';
    NotContainsWithoutLetter(Repo.SignInUnknown, SuccessWord, 4, 'è', 'È');
  }

  lemma SignInUnknownLacksResentWord()
    ensures !Contains(Repo.SignInUnknown, ResentWord, true)
  {
    assert ResentWord[5] == 'y';
    NotContainsWithoutLetter(Repo.SignInUnknown, ResentWord, 5, 'y', 'Y');
  }

  lemma GoogleFailedLacksSuccessWord()
    ensures !Contains(Repo.GoogleFailed, SuccessWord, true)
  {
    assert SuccessWord[4] == 'è';
    NotContainsWithoutLetter(Repo.GoogleFailed, SuccessWord, 4, 'è', 'È');
  }

  lemma GoogleFailedLacksResentWord()
    ensures !Contains(Repo.GoogleFailed, ResentWord, true)
  {
    assert ResentWord[5] == 'y';
    NotContainsWithoutLetter(Repo.GoogleFailed, ResentWord, 5, 'y', 'Y');
  }

  lemma AccountExistsPart1LacksSuccessWord()
    ensures !Contains("Un compte avec cet " + "email existe déjà. ", SuccessWord, true)
  {
    assert SuccessWord[4] == 'è';
    NotContainsWithoutLetter("Un compte avec cet " + "email existe déjà. ", SuccessWord, 4, 'è', 'È');
  }

  lemma AccountExistsPart2LacksSuccessWord()
    ensures !Contains("Essayez de vous " + "connecter ou utilisez " + "un autre email.", SuccessWord, true)
  {
    assert SuccessWord[4] == 'è';
    NotContainsWithoutLetter("Essayez de vous " + "connecter ou utilisez " + "un autre email.", SuccessWord, 4, 'è', 'È');
  }

  lemma AccountExistsLacksSuccessWord()
    ensures !Contains(Repo.AccountExists, SuccessWord, true)
  {
    var p1 := "Un compte avec cet " + "email existe déjà. ";
    AccountExistsPart1LacksSuccessWord();
    var p2 := "Essayez de vous " + "connecter ou utilisez " + "un autre email.";
    AccountExistsPart2LacksSuccessWord();
    assert Repo.AccountExists == p1 + p2;
    NotContainsAcross(p1, p2, SuccessWord);
  }

  lemma AccountExistsPart1LacksResentWord()
    ensures !Contains("Un compte avec cet " + "email existe déjà. ", ResentWord, true)
  {
    assert ResentWord[5] == 'y';
    NotContainsWithoutLetter("Un compte avec cet " + "email existe déjà. ", ResentWord, 5, 'y', 'Y');
  }

  lemma AccountExistsPart2LacksResentWord()
    ensures !Contains("Essayez de vous " + "connecter ou utilisez " + "un autre email.", ResentWord, true)
  {
    assert ResentWord[6] == 'é';
    NotContainsWithoutLetter("Essayez de vous " + "connecter ou utilisez " + "un autre email.", ResentWord, 6, 'é', 'É');
  }

  lemma AccountExistsLacksResentWord()
    ensures !Contains(Repo.AccountExists, ResentWord, true)
  {
    var p1 := "Un compte avec cet " + "email existe déjà. ";
    AccountExistsPart1LacksResentWord();
    var p2 := "Essayez de vous " + "connecter ou utilisez " + "un autre email.";
    AccountExistsPart2LacksResentWord();
    assert Repo.AccountExists == p1 + p2;
    NotContainsAcross(p1, p2, ResentWord);
  }

  lemma PasswordTooShortPart1LacksSuccessWord()
    ensures !Contains("Le mot de passe doit " + "contenir au moins 6 ", SuccessWord, true)
  {
    assert SuccessWord[4] == 'è';
    NotContainsWithoutLetter("Le mot de passe doit " + "contenir au moins 6 ", SuccessWord, 4, 'è', 'È');
  }

  lemma PasswordTooShortPart2LacksSuccessWord()
    ensures !Contains("caractères.", SuccessWord, true)
  {
    assert SuccessWord[1] == 'u';
    NotContainsWithoutLetter("caractères.", SuccessWord, 1, 'u', 'U');
  }

  lemma PasswordTooShortLacksSuccessWord()
    ensures !Contains(Repo.PasswordTooShort, SuccessWord, true)
  {
    var p1 := "Le mot de passe doit " + "contenir au moins 6 ";
    PasswordTooShortPart1LacksSuccessWord();
    var p2 := "caractères.";
    PasswordTooShortPart2LacksSuccessWord();
    assert Repo.PasswordTooShort == p1 + p2;
    NotContainsAcross(p1, p2, SuccessWord);
  }

  lemma PasswordTooShortLacksResentWord()
    ensures !Contains(Repo.PasswordTooShort, ResentWord, true)
  {
    assert ResentWord[5] == 'y';
    NotContainsWithoutLetter(Repo.PasswordTooShort, ResentWord, 5, 'y', 'Y');
  }

  lemma InvalidEmailAddressLacksSuccessWord()
    ensures !Contains(Repo.InvalidEmailAddress, SuccessWord, true)
  {
    assert SuccessWord[4] == 'è';
    NotContainsWithoutLetter(Repo.InvalidEmailAddress, SuccessWord, 4, 'è', 'È');
  }

  lemma InvalidEmailAddressLacksResentWord()
    ensures !Contains(Repo.InvalidEmailAddress, ResentWord, true)
  {
    assert ResentWord[5] == 'y';
    NotContainsWithoutLetter(Repo.InvalidEmailAddress, ResentWord, 5, 'y', 'Y');
  }

  lemma SignUpUnknownLacksSuccessWord()
    ensures !Contains(Repo.SignUpUnknown, SuccessWord, true)
  {
    assert SuccessWord[4] == 'è';
    NotContainsWithoutLetter(Repo.SignUpUnknown, SuccessWord, 4, 'è', 'È');
  }

  lemma SignUpUnknownLacksResentWord()
    ensures !Contains(Repo.SignUpUnknown, ResentWord, true)
  {
    assert ResentWord[5] == 'y';
    NotContainsWithoutLetter(Repo.SignUpUnknown, ResentWord, 5, 'y', 'Y');
  }

  lemma NotAvailableLacksSuccessWord()
    ensures !Contains(Repo.NotAvailable, SuccessWord, true)
  {
    assert SuccessWord[4] == 'è';
    NotContainsWithoutLetter(Repo.NotAvailable, SuccessWord, 4, 'è', 'È');
  }

  lemma NotAvailableLacksResentWord()
    ensures !Contains(Repo.NotAvailable, ResentWord, true)
  {
    assert ResentWord[5] == 'y';
    NotContainsWithoutLetter(Repo.NotAvailable, ResentWord, 5, 'y', 'Y');
  }

  lemma InvalidEmailShortLacksSuccessWord()
    ensures !Contains(Repo.InvalidEmailShort, SuccessWord, true)
  {
    assert SuccessWord[4] == 'è';
    NotContainsWithoutLetter(Repo.InvalidEmailShort, SuccessWord, 4, 'è', 'È');
  }

  lemma InvalidEmailShortLacksResentWord()
    ensures !Contains(Repo.InvalidEmailShort, ResentWord, true)
  {
    assert ResentWord[5] == 'y';
    NotContainsWithoutLetter(Repo.InvalidEmailShort, ResentWord, 5, 'y', 'Y');
  }

  lemma TooManyResendsLacksSuccessWord()
    ensures !Contains(Repo.TooManyResends, SuccessWord, true)
  {
    assert SuccessWord[4] == 'è';
    NotContainsWithoutLetter(Repo.TooManyResends, SuccessWord, 4, 'è', 'È');
  }

  lemma TooManyResendsLacksResentWord()
    ensures !Contains(Repo.TooManyResends, ResentWord, true)
  {
    assert ResentWord[6] == 'é';
    NotContainsWithoutLetter(Repo.TooManyResends, ResentWord, 6, 'é', 'É');
  }

  lemma ResendUnknownLacksSuccessWord()
    ensures !Contains(Repo.ResendUnknown, SuccessWord, true)
  {
    assert SuccessWord[4] == 'è';
    NotContainsWithoutLetter(Repo.ResendUnknown, SuccessWord, 4, 'è', 'È');
  }

  lemma ResendUnknownLacksResentWord()
    ensures !Contains(Repo.ResendUnknown, ResentWord, true)
  {
    assert ResentWord[5] == 'y';
    NotContainsWithoutLetter(Repo.ResendUnknown, ResentWord, 5, 'y', 'Y');
  }

  lemma UserMissingLacksSuccessWord()
    ensures !Contains(Repo.UserMissing, SuccessWord, true)
  {
    assert SuccessWord[4] == 'è';
    NotContainsWithoutLetter(Repo.UserMissing, SuccessWord, 4, 'è', 'È');
  }

  lemma UserMissingLacksResentWord()
    ensures !Contains(Repo.UserMissing, ResentWord, true)
  {
    assert ResentWord[5] == 'y';
    NotContainsWithoutLetter(Repo.UserMissing, ResentWord, 5, 'y', 'Y');
  }

  lemma SessionExpiredLacksSuccessWord()
    ensures !Contains(Repo.SessionExpired, SuccessWord, true)
  {
    assert SuccessWord[4] == 'è';
    NotContainsWithoutLetter(Repo.SessionExpired, SuccessWord, 4, 'è', 'È');
  }

  lemma SessionExpiredLacksResentWord()
    ensures !Contains(Repo.SessionExpired, ResentWord, true)
  {
    assert ResentWord[5] == 'y';
    NotContainsWithoutLetter(Repo.SessionExpired, ResentWord, 5, 'y', 'Y');
  }

  lemma UsernameUnknownLacksSuccessWord()
    ensures !Contains(Repo.UsernameUnknown, SuccessWord, true)
  {
    assert SuccessWord[4] == 'è';
    NotContainsWithoutLetter(Repo.UsernameUnknown, SuccessWord, 4, 'è', 'È');
  }

  lemma UsernameUnknownLacksResentWord()
    ensures !Contains(Repo.UsernameUnknown, ResentWord, true)
  {
    assert ResentWord[5] == 'y';
    NotContainsWithoutLetter(Repo.UsernameUnknown, ResentWord, 5, 'y', 'Y');
  }

  lemma InvalidEmailFormatLacksSuccessWord()
    ensures !Contains(Repo.InvalidEmailFormat, SuccessWord, true)
  {
    assert SuccessWord[4] == 'è';
    NotContainsWithoutLetter(Repo.InvalidEmailFormat, SuccessWord, 4, 'è', 'È');
  }

  lemma InvalidEmailFormatLacksResentWord()
    ensures !Contains(Repo.InvalidEmailFormat, ResentWord, true)
  {
    assert ResentWord[5] == 'y';
    NotContainsWithoutLetter(Repo.InvalidEmailFormat, ResentWord, 5, 'y', 'Y');
  }

  lemma EmailTakenLacksSuccessWord()
    ensures !Contains(Repo.EmailTaken, SuccessWord, true)
  {
    assert SuccessWord[4] == 'è';
    NotContainsWithoutLetter(Repo.EmailTaken, SuccessWord, 4, 'è', 'È');
  }

  lemma EmailTakenLacksResentWord()
    ensures !Contains(Repo.EmailTaken, ResentWord, true)
  {
    assert ResentWord[5] == 'y';
    NotContainsWithoutLetter(Repo.EmailTaken, ResentWord, 5, 'y', 'Y');
  }

  lemma EmailUnknownLacksSuccessWord()
    ensures !Contains(Repo.EmailUnknown, SuccessWord, true)
  {
    assert SuccessWord[4] == 'è';
    NotContainsWithoutLetter(Repo.EmailUnknown, SuccessWord, 4, 'è', 'È');
  }

  lemma EmailUnknownLacksResentWord()
    ensures !Contains(Repo.EmailUnknown, ResentWord, true)
  {
    assert ResentWord[5] == 'y';
    NotContainsWithoutLetter(Repo.EmailUnknown, ResentWord, 5, 'y', 'Y');
  }

  lemma PasswordUnknownLacksSuccessWord()
    ensures !Contains(Repo.PasswordUnknown, SuccessWord, true)
  {
    assert SuccessWord[4] == 'è';
    NotContainsWithoutLetter(Repo.PasswordUnknown, SuccessWord, 4, 'è', 'È');
  }

  lemma PasswordUnknownLacksResentWord()
    ensures !Contains(Repo.PasswordUnknown, ResentWord, true)
  {
    assert ResentWord[5] == 'y';
    NotContainsWithoutLetter(Repo.PasswordUnknown, ResentWord, 5, 'y', 'Y');
  }

  lemma SignInFallbackLacksSuccessWord()
    ensures !Contains(VM.SignInFallback, SuccessWord, true)
  {
    assert SuccessWord[4] == 'è';
    NotContainsWithoutLetter(VM.SignInFallback, SuccessWord, 4, 'è', 'È');
  }

  lemma SignInFallbackLacksResentWord()
    ensures !Contains(VM.SignInFallback, ResentWord, true)
  {
    assert ResentWord[5] == 'y';
    NotContainsWithoutLetter(VM.SignInFallback, ResentWord, 5, 'y', 'Y');
  }

  lemma SignUpFallbackLacksSuccessWord()
    ensures !Contains(VM.SignUpFallback, SuccessWord, true)
  {
    assert SuccessWord[4] == 'è';
    NotContainsWithoutLetter(VM.SignUpFallback, SuccessWord, 4, 'è', 'È');
  }

  lemma SignUpFallbackLacksResentWord()
    ensures !Contains(VM.SignUpFallback, ResentWord, true)
  {
    assert ResentWord[5] == 'y';
    NotContainsWithoutLetter(VM.SignUpFallback, ResentWord, 5, 'y', 'Y');
  }

  lemma GoogleFallbackLacksSuccessWord()
    ensures !Contains(VM.GoogleFallback, SuccessWord, true)
  {
    assert SuccessWord[4] == 'è';
    NotContainsWithoutLetter(VM.GoogleFallback, SuccessWord, 4, 'è', 'È');
  }

  lemma GoogleFallbackLacksResentWord()
    ensures !Contains(VM.GoogleFallback, ResentWord, true)
  {
    assert ResentWord[5] == 'y';
    NotContainsWithoutLetter(VM.GoogleFallback, ResentWord, 5, 'y', 'Y');
  }

  lemma SignOutFallbackLacksSuccessWord()
    ensures !Contains(VM.SignOutFallback, SuccessWord, true)
  {
    assert SuccessWord[4] == 'è';
    NotContainsWithoutLetter(VM.SignOutFallback, SuccessWord, 4, 'è', 'È');
  }

  lemma SignOutFallbackLacksResentWord()
    ensures !Contains(VM.SignOutFallback, ResentWord, true)
  {
    assert ResentWord[5] == 'y';
    NotContainsWithoutLetter(VM.SignOutFallback, ResentWord, 5, 'y', 'Y');
  }

  lemma ResendFallbackLacksSuccessWord()
    ensures !Contains(VM.ResendFallback, SuccessWord, true)
  {
    assert SuccessWord[4] == 'è';
    NotContainsWithoutLetter(VM.ResendFallback, SuccessWord, 4, 'è', 'È');
  }

  lemma ResendFallbackLacksResentWord()
    ensures !Contains(VM.ResendFallback, ResentWord, true)
  {
    assert ResentWord[5] == 'y';
    NotContainsWithoutLetter(VM.ResendFallback, ResentWord, 5, 'y', 'Y');
  }

  lemma UsernameFallbackLacksSuccessWord()
    ensures !Contains(VM.UsernameFallback, SuccessWord, true)
  {
    assert SuccessWord[4] == 'è';
    NotContainsWithoutLetter(VM.UsernameFallback, SuccessWord, 4, 'è', 'È');
  }

  lemma UsernameFallbackLacksResentWord()
    ensures !Contains(VM.UsernameFallback, ResentWord, true)
  {
    assert ResentWord[5] == 'y';
    NotContainsWithoutLetter(VM.UsernameFallback, ResentWord, 5, 'y', 'Y');
  }

  lemma EmailFallbackLacksSuccessWord()
    ensures !Contains(VM.EmailFallback, SuccessWord, true)
  {
    assert SuccessWord[4] == 'è';
    NotContainsWithoutLetter(VM.EmailFallback, SuccessWord, 4, 'è', 'È');
  }

  lemma EmailFallbackLacksResentWord()
    ensures !Contains(VM.EmailFallback, ResentWord, true)
  {
    assert ResentWord[5] == 'y';
    NotContainsWithoutLetter(VM.EmailFallback, ResentWord, 5, 'y', 'Y');
  }

  lemma PasswordFallbackLacksSuccessWord()
    ensures !Contains(VM.PasswordFallback, SuccessWord, true)
  {
    assert SuccessWord[4] == 'è';
    NotContainsWithoutLetter(VM.PasswordFallback, SuccessWord, 4, 'è', 'È');
  }

  lemma PasswordFallbackLacksResentWord()
    ensures !Contains(VM.PasswordFallback, ResentWord, true)
  {
    assert ResentWord[5] == 'y';
    NotContainsWithoutLetter(VM.PasswordFallback, ResentWord, 5, 'y', 'Y');
  }

  /** The view-model's success texts are coloured as successes. */
  lemma SuccessTextsAreSuccess()
    ensures IsSuccessMessage(VM.UsernameUpdated)
    ensures IsSuccessMessage(VM.EmailUpdated)
    ensures IsSuccessMessage(VM.PasswordUpdated)
    ensures IsSuccessMessage(VM.ResendSucceeded)
  {
    ContainsInfix("Pseudo mis à jour avec ", SuccessWord, " !", true);
    var emailTail := " ! Un email de " + "confirmation a été " + "envoyé à votre " + "nouvelle adresse.";
    ContainsInfix("Email mis à jour avec ", SuccessWord, emailTail, true);
    assert VM.EmailUpdated == "Email mis à jour avec " + SuccessWord + emailTail;
    ContainsInfix("Mot de passe mis à " + "jour avec ", SuccessWord, " !", true);
    var resendTail := " ! Vérifiez votre " + "boîte de réception.";
    ContainsInfix("Email de confirmation ", ResentWord, resendTail, true);
    assert VM.ResendSucceeded == "Email de confirmation " + ResentWord + resendTail;
  }

  /**
   * Every profile action ends on a message the card colours as an error:
   * the three updates and the resend all report "not available".
   */
  lemma ProfileActionsNeverShowSuccess(s: VM.AuthUiState, op: VM.Operation)
    requires VM.IsUnavailable(op)
    ensures VM.Perform(s, op).error == Some(Repo.NotAvailable)
    ensures !IsSuccessMessage(VM.Perform(s, op).error.value)
  {
    NotAvailableLacksSuccessWord();
    NotAvailableLacksResentWord();
  }

  /** A sign-out the provider refuses without a message leaves an error-coloured text and stays. */
  lemma SilentSignOutFailureIsNotSuccess(s: VM.AuthUiState)
    ensures VM.Perform(s, VM.SignOut(Repo.Threw(None))).error == Some(VM.SignOutFallback)
    ensures !IsSuccessMessage(VM.SignOutFallback)
    ensures RedirectsToSignIn(VM.Perform(s, VM.SignOut(Repo.Threw(None)))) == RedirectsToSignIn(s)
  {
    SignOutFallbackLacksSuccessWord();
    SignOutFallbackLacksResentWord();
  }
}
