# Authentication core of organisation-app, in Dafny

organisation-app is an Android application written in Kotlin. This project models its
authentication core and proves properties of that model. The core has three layers.

- **The repository** (`AuthRepository.kt`), module `AuthRepository` in
  `auth_repository.dfy`. It adapts the identity provider. Each operation turns a provider
  outcome into a `Result`. A provider failure message goes through a first-match,
  case-insensitive table of phrases that yields fixed French texts. An unmatched message is
  passed on verbatim, and a missing message becomes a fixed default. The resend and the
  three profile updates always fail with "not available". Provider answers are parameters:
  `ProviderCall` says whether the call returned or threw (and with which message), and
  `current` is the provider's current user.
- **The view-model** (`AuthViewModel.kt`), module `AuthViewModel` in
  `auth_view_model.dfy`. The state record `AuthUiState` is rewritten twice per operation:
  a begin write and a terminal write. The pure specification is `Begin`, `Complete` and
  `Perform`, plus `Resync` for the session observer and `Run` for event sequences. The
  class `AuthViewModel.AuthViewModel` holds the state in a field and appends every state
  it writes to the state flow to a ghost `emitted` sequence. Each of its methods is proved equal to the
  specification. `GetDisplayName` resolves a display name from the user metadata.
- **The screens**: modules `SignInScreen`, `SignUpScreen`, `ProfileScreen` and
  `HomeScreen`. They model the guards, hints, redirects and name fallbacks the screens
  compute from the view-model's state. They also model the "message sniffing": a screen
  decides whether `error` is really a success notice by looking for a phrase in it.
  Lemmas check these phrases against the texts the repository and the view-model
  produce. The profile screen's editing state is the class `ProfileScreen.ProfileEditor`.

Support modules:

- `Wrappers` holds `Option`.
- `Text` holds the Kotlin standard-library operations the code uses: `isBlank`, `trim`,
  `removeSurrounding`, `substringBefore` and `contains(…, ignoreCase)`.

## Model

Source cells give a path in the Kotlin repository and the lines the member models.

| member | source | states |
|---|---|---|
| Text.IsWhitespace | app/src/main/java/com/example/organisationapp/presentation/viewmodel/AuthViewModel.kt:247 | The whitespace test `trim()` and `isBlank()` apply: Java's `isWhitespace` or a Unicode space separator. |
| Text.IsBlank | app/src/main/java/com/example/organisationapp/presentation/screens/auth/SignInScreen.kt:182 | A text is blank when every character in it is whitespace, the empty text included. `isNotBlank()` is its negation. |
| Text.Trim | app/src/main/java/com/example/organisationapp/presentation/viewmodel/AuthViewModel.kt:247 | The result has no whitespace at either end. It is empty exactly when the input is blank. An input whose ends are already non-whitespace is returned unchanged. |
| Text.TrimIsInfix | app/src/main/java/com/example/organisationapp/presentation/viewmodel/AuthViewModel.kt:247 | The trimmed text is a slice of the input with only whitespace before and after it. |
| Text.TrimIdempotent | app/src/main/java/com/example/organisationapp/presentation/viewmodel/AuthViewModel.kt:247 | Trimming twice gives the same result as trimming once. |
| Text.RemoveSurrounding | app/src/main/java/com/example/organisationapp/presentation/viewmodel/AuthViewModel.kt:247 | If the text has at least two characters and both ends are the delimiter, the text equals delimiter + result + delimiter. Otherwise the text is returned unchanged. |
| Text.RemoveSurroundingOfWrapped | app/src/main/java/com/example/organisationapp/presentation/viewmodel/AuthViewModel.kt:247 | Wrapping a text in the delimiter and then removing it gives the text back. |
| Text.SubstringBefore | app/src/main/java/com/example/organisationapp/presentation/screens/home/HomeScreen.kt:121 | The result is a prefix of the input without the delimiter. When it is shorter than the input, the delimiter follows it. |
| Text.SubstringBeforeFirst | app/src/main/java/com/example/organisationapp/presentation/screens/home/HomeScreen.kt:121 | Cutting `a + [d] + b` at `d`, where `a` has no `d`, gives `a`. |
| Text.SubstringBeforeAbsent | app/src/main/java/com/example/organisationapp/presentation/screens/home/HomeScreen.kt:121 | A text without the delimiter is kept whole. |
| Text.Contains | app/src/main/java/com/example/organisationapp/data/repository/AuthRepository.kt:30 | `contains(sub, ignoreCase)`: some offset where `sub` matches character by character, with case folded when `ignoreCase` is set. |
| AuthRepository.JsonValue.ToString | app/src/main/java/com/example/organisationapp/presentation/viewmodel/AuthViewModel.kt:241-244 | A JSON string prints as its escaped content between double quotes, and reading the inside of those quotes back with `Unescape` gives exactly the original content. Any other value prints as given. |
| AuthRepository.Escape | app/src/main/java/com/example/organisationapp/presentation/viewmodel/AuthViewModel.kt:241-244 | Escaping never shortens a text. A text with no character to escape is unchanged. |
| AuthRepository.UnescapeEscape | app/src/main/java/com/example/organisationapp/presentation/viewmodel/AuthViewModel.kt:241-244 | Escaping loses nothing: for every text, reading back its printed body gives the text. So the printed form, escapes included, determines the original. |
| AuthRepository.FirstMatch | app/src/main/java/com/example/organisationapp/data/repository/AuthRepository.kt:29-37 | There is no answer exactly when no rule's phrase occurs in the message (ignoring case). Otherwise the answer is the replacement of the earliest rule whose phrase occurs. |
| AuthRepository.MapFailure | app/src/main/java/com/example/organisationapp/data/repository/AuthRepository.kt:29-37 | The table is total. A null message gives the fallback. A message matching no phrase is returned verbatim. Otherwise the result is the first matching rule's text. |
| AuthRepository.SignInWithEmail | app/src/main/java/com/example/organisationapp/data/repository/AuthRepository.kt:18-40 | Success holds exactly when the provider call returned. Its value is the current user, possibly null. A failure always carries a message. A throw without a message gives "Erreur de connexion inconnue". |
| AuthRepository.SignUpMetadata | app/src/main/java/com/example/organisationapp/data/repository/AuthRepository.kt:51-57 | There is no metadata exactly when there is no username. Otherwise the keys are exactly `username`, `display_name` and `full_name`, and each holds the username as a JSON string. |
| AuthRepository.SignUpWithEmail | app/src/main/java/com/example/organisationapp/data/repository/AuthRepository.kt:45-75 | Success holds exactly when the provider call returned. Its value is the current user, possibly null. A failure always carries a message. A throw without a message gives "Erreur d'inscription inconnue". |
| AuthRepository.SignInWithGoogle | app/src/main/java/com/example/organisationapp/data/repository/AuthRepository.kt:80-94 | Success holds exactly when the call returned and there is a current user, and its value is that user. A return with no user gives "Échec de l'authentification Google". A throw is passed on unmapped. |
| AuthRepository.SignOut | app/src/main/java/com/example/organisationapp/data/repository/AuthRepository.kt:99-106 | Success holds exactly when the call returned. A throw is passed on with its own message. |
| AuthRepository.IsLoggedIn | app/src/main/java/com/example/organisationapp/data/repository/AuthRepository.kt:111-116 | True exactly when the provider reports a current user, which is what `GetCurrentUser` returns. |
| AuthRepository.ResendConfirmationEmail | app/src/main/java/com/example/organisationapp/data/repository/AuthRepository.kt:126-141 | Always fails with "Fonctionnalité non disponible dans cette version". The table's default text is never reached. |
| AuthRepository.UpdateUsername | app/src/main/java/com/example/organisationapp/data/repository/AuthRepository.kt:146-161 | Always fails with the "not available" text. The table's default text is never reached. |
| AuthRepository.UpdateEmail | app/src/main/java/com/example/organisationapp/data/repository/AuthRepository.kt:166-185 | Always fails with the "not available" text. The table's default text is never reached. |
| AuthRepository.UpdatePassword | app/src/main/java/com/example/organisationapp/data/repository/AuthRepository.kt:190-207 | Always fails with the "not available" text. The table's default text is never reached. |
| AuthRepository.SignInFailureOrder | app/src/main/java/com/example/organisationapp/data/repository/AuthRepository.kt:29-37 | The phrases are tried in order: "Email not confirmed", then "Invalid login credentials", then "Too many requests". The earliest one present decides, whatever else the message contains. With none present, the message is shown verbatim. |
| AuthRepository.SignUpFailureOrder | app/src/main/java/com/example/organisationapp/data/repository/AuthRepository.kt:64-72 | The same first-match behaviour, in the order "User already registered", "Password should be at least", "Unable to validate email address". |
| AuthRepository.UnconfirmedEmailIsTranslated | app/src/main/java/com/example/organisationapp/data/repository/AuthRepository.kt:30-31 | A lower-case "email not confirmed" still maps to the "account not verified" text. |
| AuthViewModel.Begin | app/src/main/java/com/example/organisationapp/presentation/viewmodel/AuthViewModel.kt:50-215 | The begin write sets `isLoading` and keeps `user` and `isLoggedIn`. Sign-out keeps the previous error. Every other operation clears it. |
| AuthViewModel.Complete | app/src/main/java/com/example/organisationapp/presentation/viewmodel/AuthViewModel.kt:53-143 | The terminal write never leaves `isLoading` set. A failure sets an error and changes nothing but `isLoading` and `error`. A success other than sign-out either logs in or sets a notice. |
| AuthViewModel.Perform | app/src/main/java/com/example/organisationapp/presentation/viewmodel/AuthViewModel.kt:48-231 | See the note after this table. |
| AuthViewModel.Resync | app/src/main/java/com/example/organisationapp/presentation/viewmodel/AuthViewModel.kt:31-37 | A session event sets `user` to the provider's current user and makes `isLoggedIn` agree with it. It leaves `isLoading` and `error` unchanged. |
| AuthViewModel.ResyncIdempotent | app/src/main/java/com/example/organisationapp/presentation/viewmodel/AuthViewModel.kt:31-37 | Applying the same session event twice changes nothing more. |
| AuthViewModel.WithoutError | app/src/main/java/com/example/organisationapp/presentation/viewmodel/AuthViewModel.kt:147-149 | The result has no error and differs from the input in nothing else. |
| AuthViewModel.Run | app/src/main/java/com/example/organisationapp/presentation/viewmodel/AuthViewModel.kt:26-231 | A run of events never leaves `isLoading` set if it started clear. A run that includes an operation always ends with `isLoading` clear. |
| AuthViewModel.RunKeepsSessionConsistent | app/src/main/java/com/example/organisationapp/presentation/viewmodel/AuthViewModel.kt:48-231 | `isLoggedIn` agrees with `user != null` after any run of events, provided it did at the start and no password sign-in returned without a current user. |
| AuthViewModel.SignInWithoutUserIsInconsistent | app/src/main/java/com/example/organisationapp/presentation/viewmodel/AuthViewModel.kt:53-59 | A password sign-in that returns with no current user ends logged in with no user. |
| AuthViewModel.RunResyncs | app/src/main/java/com/example/organisationapp/presentation/viewmodel/AuthViewModel.kt:32-36 | Each further session event resyncs the state from the state before it. |
| AuthViewModel.AuthViewModel.constructor | app/src/main/java/com/example/organisationapp/presentation/viewmodel/AuthViewModel.kt:23-46 | Starts from the default record, then runs `checkAuthState`. The state is not loading, has no error, and has `user` and `isLoggedIn` taken from the provider. Both writes are recorded. |
| AuthViewModel.AuthViewModel.CheckAuthState | app/src/main/java/com/example/organisationapp/presentation/viewmodel/AuthViewModel.kt:41-46 | The new state is `Resync` of the old one, and the write is recorded. |
| AuthViewModel.AuthViewModel.CollectSessionStatus | app/src/main/java/com/example/organisationapp/presentation/viewmodel/AuthViewModel.kt:30-37 | After a series of session events, the state is `Run` of the old state over those events, which is `Resync` by the last provider state. One write is recorded per event. |
| AuthViewModel.AuthViewModel.SignInWithEmail | app/src/main/java/com/example/organisationapp/presentation/viewmodel/AuthViewModel.kt:48-68 | The new state is `Perform` of the old state. The writes are the begin state, then that final state. |
| AuthViewModel.AuthViewModel.SignUpWithEmail | app/src/main/java/com/example/organisationapp/presentation/viewmodel/AuthViewModel.kt:70-101 | Same, for sign-up. |
| AuthViewModel.AuthViewModel.SignInWithGoogle | app/src/main/java/com/example/organisationapp/presentation/viewmodel/AuthViewModel.kt:103-123 | Same, for Google sign-in. |
| AuthViewModel.AuthViewModel.SignOut | app/src/main/java/com/example/organisationapp/presentation/viewmodel/AuthViewModel.kt:125-145 | Same, for sign-out. |
| AuthViewModel.AuthViewModel.ClearError | app/src/main/java/com/example/organisationapp/presentation/viewmodel/AuthViewModel.kt:147-149 | The new state is the old one without its error, and the write is recorded. |
| AuthViewModel.AuthViewModel.ResendConfirmationEmail | app/src/main/java/com/example/organisationapp/presentation/viewmodel/AuthViewModel.kt:151-169 | Same as sign-in, for the resend. |
| AuthViewModel.AuthViewModel.UpdateUsername | app/src/main/java/com/example/organisationapp/presentation/viewmodel/AuthViewModel.kt:171-190 | Same, for the username update. |
| AuthViewModel.AuthViewModel.UpdateEmail | app/src/main/java/com/example/organisationapp/presentation/viewmodel/AuthViewModel.kt:192-211 | Same, for the email update. |
| AuthViewModel.AuthViewModel.UpdatePassword | app/src/main/java/com/example/organisationapp/presentation/viewmodel/AuthViewModel.kt:213-231 | Same, for the password update. |
| AuthViewModel.FirstPresent | app/src/main/java/com/example/organisationapp/presentation/viewmodel/AuthViewModel.kt:241-244 | There is no answer exactly when none of the keys is present. Otherwise the answer is the value under the first present key. |
| AuthViewModel.GetDisplayName | app/src/main/java/com/example/organisationapp/presentation/viewmodel/AuthViewModel.kt:237-249 | Null metadata gives null. Otherwise the result is null exactly when none of `display_name`, `username`, `full_name`, `name` is present. When one is, the result is the printed value of the first present key, trimmed, with one pair of surrounding `"` removed. |
| AuthViewModel.DisplayNameOfSignUp | app/src/main/java/com/example/organisationapp/presentation/viewmodel/AuthViewModel.kt:237-249 | For a user created by sign-up with a username, the display name is the username as JSON-escaped. |
| AuthViewModel.DisplayNameOfPlainSignUp | app/src/main/java/com/example/organisationapp/presentation/viewmodel/AuthViewModel.kt:237-249 | When the username has no character to escape, the display name is exactly the username. |
| AuthViewModel.QuotedIsCleaned | app/src/main/java/com/example/organisationapp/presentation/viewmodel/AuthViewModel.kt:247 | Cleaning a text wrapped in double quotes gives the text back. |
| AuthViewModel.EmptyDisplayNameWins | app/src/main/java/com/example/organisationapp/presentation/viewmodel/AuthViewModel.kt:241-244 | An empty `display_name` wins over a non-empty `username`: the first present key decides, even when its value is empty. |
| AuthViewModel.NameKeyIsLastResort | app/src/main/java/com/example/organisationapp/presentation/viewmodel/AuthViewModel.kt:244 | A user with only `name` gets its value as the display name. |
| SignInScreen.SubmitSignIn | app/src/main/java/com/example/organisationapp/presentation/screens/auth/SignInScreen.kt:182-185 | A click calls sign-in exactly when email and password are both non-blank, and passes them unchanged. |
| SignInScreen.SignInEnabled | app/src/main/java/com/example/organisationapp/presentation/screens/auth/SignInScreen.kt:189 | The button is enabled exactly when not loading and a click would call sign-in. |
| SignInScreen.ShowResendButton | app/src/main/java/com/example/organisationapp/presentation/screens/auth/SignInScreen.kt:151-152 | The resend button appears when the message contains either "Votre compte n'est pas encore vérifié" or "Email not confirmed", in any case. |
| SignInScreen.SubmitResend | app/src/main/java/com/example/organisationapp/presentation/screens/auth/SignInScreen.kt:156-160 | A click calls resend exactly when the email is non-blank, and passes it unchanged. |
| SignInScreen.ResendEnabled | app/src/main/java/com/example/organisationapp/presentation/screens/auth/SignInScreen.kt:162 | The resend button is enabled exactly when not loading and a click would call resend. |
| SignInScreen.IsResendNotice | app/src/main/java/com/example/organisationapp/presentation/screens/auth/SignInScreen.kt:142 | A message is coloured as a success when it contains "Email de confirmation renvoyé", case included. |
| SignInScreen.RedirectsAfterSignIn | app/src/main/java/com/example/organisationapp/presentation/screens/auth/SignInScreen.kt:38-42 | The screen leaves whenever the state is logged in. |
| SignInScreen.UnverifiedTextShowsResend | app/src/main/java/com/example/organisationapp/presentation/screens/auth/SignInScreen.kt:151-152 | The repository's "account not verified" text brings up the resend button. |
| SignInScreen.UnconfirmedSignInOffersResend | app/src/main/java/com/example/organisationapp/presentation/screens/auth/SignInScreen.kt:151-152 | Take a sign-in refused with a message containing "Email not confirmed", in any case. It always ends with the resend button on screen and the redirect unchanged. |
| SignInScreen.ResendSuccessIsNotice | app/src/main/java/com/example/organisationapp/presentation/screens/auth/SignInScreen.kt:142 | The view-model's resend-success text contains the case-sensitive success phrase. |
| SignInScreen.ResendNeverShowsNotice | app/src/main/java/com/example/organisationapp/presentation/screens/auth/SignInScreen.kt:142 | A resend always ends on the "not available" text, which is not styled as a success. |
| SignInScreen.AcceptedSignInRedirects | app/src/main/java/com/example/organisationapp/presentation/screens/auth/SignInScreen.kt:38-42 | A password sign-in the provider accepts always leaves the screen, even without a user. |
| SignUpScreen.PasswordsMatch | app/src/main/java/com/example/organisationapp/presentation/screens/auth/SignUpScreen.kt:47 | The two password fields are equal. |
| SignUpScreen.IsFormValid | app/src/main/java/com/example/organisationapp/presentation/screens/auth/SignUpScreen.kt:48-49 | All four fields are non-blank, the passwords match, and the password has at least 6 characters. |
| SignUpScreen.ShowsLengthHint | app/src/main/java/com/example/organisationapp/presentation/screens/auth/SignUpScreen.kt:154 | The length hint shows when a password is typed but has fewer than 6 characters. |
| SignUpScreen.ShowsMismatchHint | app/src/main/java/com/example/organisationapp/presentation/screens/auth/SignUpScreen.kt:186-188 | The mismatch hint shows when a confirmation is typed and differs from the password. |
| SignUpScreen.IsSignUpSuccessMessage | app/src/main/java/com/example/organisationapp/presentation/screens/auth/SignUpScreen.kt:203-212 | Both the success colour and the go-to-sign-in button depend on the message containing "Inscription réussie", in any case. |
| SignUpScreen.RedirectsAfterSignUp | app/src/main/java/com/example/organisationapp/presentation/screens/auth/SignUpScreen.kt:41-45 | The screen leaves whenever the state is logged in. |
| SignUpScreen.SubmitSignUp | app/src/main/java/com/example/organisationapp/presentation/screens/auth/SignUpScreen.kt:227-231 | A click calls sign-up exactly when the form is valid. It passes email, password and the username, and the password has at least 6 characters. |
| SignUpScreen.SignUpEnabled | app/src/main/java/com/example/organisationapp/presentation/screens/auth/SignUpScreen.kt:235 | The button is enabled exactly when not loading and a click would call sign-up. |
| SignUpScreen.ValidFormShowsNoHint | app/src/main/java/com/example/organisationapp/presentation/screens/auth/SignUpScreen.kt:47-49 | A valid form shows neither the length hint nor the mismatch hint. |
| SignUpScreen.BlankPasswordsShowNoHintButAreInvalid | app/src/main/java/com/example/organisationapp/presentation/screens/auth/SignUpScreen.kt:47-49 | The converse fails: six spaces in both password fields show no hint, yet the form is invalid. |
| SignUpScreen.PendingConfirmationIsSuccess | app/src/main/java/com/example/organisationapp/presentation/screens/auth/SignUpScreen.kt:203 | The view-model's pending-confirmation text contains "Inscription réussie". |
| SignUpScreen.PendingSignUpShowsSuccess | app/src/main/java/com/example/organisationapp/presentation/screens/auth/SignUpScreen.kt:212 | A sign-up accepted without a current user shows the success notice and stays on the screen. |
| SignUpScreen.CompletedSignUpRedirects | app/src/main/java/com/example/organisationapp/presentation/screens/auth/SignUpScreen.kt:41-45 | A sign-up accepted with a current user leaves the screen. |
| ProfileScreen.PasswordAccepted | app/src/main/java/com/example/organisationapp/presentation/screens/profile/ProfileScreen.kt:273 | The save handler's own test: the two password fields are equal and the new one has at least 6 characters. |
| ProfileScreen.ProfileEditor.constructor | app/src/main/java/com/example/organisationapp/presentation/screens/profile/ProfileScreen.kt:34-44 | Nothing is being edited, every text field is empty and both passwords are hidden. |
| ProfileScreen.ProfileEditor.OnUserChanged | app/src/main/java/com/example/organisationapp/presentation/screens/profile/ProfileScreen.kt:54-60 | A present user refills the username field with the display name (or empty) and the email field with the email (or empty). Nothing else changes. An absent user changes nothing. |
| ProfileScreen.ProfileEditor.StartEditingUsername | app/src/main/java/com/example/organisationapp/presentation/screens/profile/ProfileScreen.kt:224 | Only the username editing flag is set. |
| ProfileScreen.ProfileEditor.SetEditedUsername | app/src/main/java/com/example/organisationapp/presentation/screens/profile/ProfileScreen.kt:223 | Only the username field changes. |
| ProfileScreen.ProfileEditor.SaveUsername | app/src/main/java/com/example/organisationapp/presentation/screens/profile/ProfileScreen.kt:225-228 | The field's text is sent as it is, with no blank check in the handler. Only the username editing flag is cleared. |
| ProfileScreen.ProfileEditor.CancelUsername | app/src/main/java/com/example/organisationapp/presentation/screens/profile/ProfileScreen.kt:229-232 | The field goes back to the display name, or empty if there is none, and editing ends. Nothing else changes. |
| ProfileScreen.ProfileEditor.StartEditingEmail | app/src/main/java/com/example/organisationapp/presentation/screens/profile/ProfileScreen.kt:245 | Only the email editing flag is set. |
| ProfileScreen.ProfileEditor.SetEditedEmail | app/src/main/java/com/example/organisationapp/presentation/screens/profile/ProfileScreen.kt:244 | Only the email field changes. |
| ProfileScreen.ProfileEditor.SaveEmail | app/src/main/java/com/example/organisationapp/presentation/screens/profile/ProfileScreen.kt:246-249 | The field's text is sent as it is. Only the email editing flag is cleared. |
| ProfileScreen.ProfileEditor.CancelEmail | app/src/main/java/com/example/organisationapp/presentation/screens/profile/ProfileScreen.kt:250-253 | The field goes back to the user's email, or empty, and editing ends. Nothing else changes. |
| ProfileScreen.ProfileEditor.StartEditingPassword | app/src/main/java/com/example/organisationapp/presentation/screens/profile/ProfileScreen.kt:271 | Only the password editing flag is set. |
| ProfileScreen.ProfileEditor.SetNewPassword | app/src/main/java/com/example/organisationapp/presentation/screens/profile/ProfileScreen.kt:267 | Only the new-password field changes. |
| ProfileScreen.ProfileEditor.SetConfirmPassword | app/src/main/java/com/example/organisationapp/presentation/screens/profile/ProfileScreen.kt:268 | Only the confirmation field changes. |
| ProfileScreen.ProfileEditor.SavePassword | app/src/main/java/com/example/organisationapp/presentation/screens/profile/ProfileScreen.kt:272-279 | A request is sent exactly when the new password equals the confirmation and has at least 6 characters. In that case both fields are emptied and editing ends, with nothing else changed. Otherwise nothing changes at all. |
| ProfileScreen.ProfileEditor.CancelPassword | app/src/main/java/com/example/organisationapp/presentation/screens/profile/ProfileScreen.kt:280-286 | Editing ends, both password fields are emptied, both visibility flags are reset, and nothing else changes. |
| ProfileScreen.ProfileEditor.TogglePasswordVisibility | app/src/main/java/com/example/organisationapp/presentation/screens/profile/ProfileScreen.kt:269 | Only the password visibility flag flips. |
| ProfileScreen.ProfileEditor.ToggleConfirmPasswordVisibility | app/src/main/java/com/example/organisationapp/presentation/screens/profile/ProfileScreen.kt:270 | Only the confirmation visibility flag flips. |
| ProfileScreen.FieldSaveEnabled | app/src/main/java/com/example/organisationapp/presentation/screens/profile/ProfileScreen.kt:450 | The username and email save buttons are enabled exactly when the edited text is non-blank. |
| ProfileScreen.SavePasswordEnabled | app/src/main/java/com/example/organisationapp/presentation/screens/profile/ProfileScreen.kt:577-579 | The button is enabled exactly when the new password is non-blank and the save handler would accept the pair. So an enabled button always leads to a request. |
| ProfileScreen.BlankPasswordOnlyStoppedByButton | app/src/main/java/com/example/organisationapp/presentation/screens/profile/ProfileScreen.kt:273 | The handler alone would accept six spaces. Only the button's blank check keeps them out. |
| ProfileScreen.IsSuccessMessage | app/src/main/java/com/example/organisationapp/presentation/screens/profile/ProfileScreen.kt:299-300 | The message card is coloured as a success when the message contains "succès" or "renvoyé", in any case. |
| ProfileScreen.Heading | app/src/main/java/com/example/organisationapp/presentation/screens/profile/ProfileScreen.kt:118-121 | The heading is the display name, else the email, else "Utilisateur". |
| ProfileScreen.ShowsEmailSubtitle | app/src/main/java/com/example/organisationapp/presentation/screens/profile/ProfileScreen.kt:126 | The email is shown under the heading when the user has both a display name and an email. |
| ProfileScreen.SubtitleOnlyUnderDisplayName | app/src/main/java/com/example/organisationapp/presentation/screens/profile/ProfileScreen.kt:126 | When the email subtitle shows, the heading is the display name. |
| ProfileScreen.ShowsUnverifiedBanner | app/src/main/java/com/example/organisationapp/presentation/screens/profile/ProfileScreen.kt:137 | The unverified banner shows exactly when the user has no email confirmation date. |
| ProfileScreen.BannerResendRequest | app/src/main/java/com/example/organisationapp/presentation/screens/profile/ProfileScreen.kt:175-177 | The banner's button resends exactly when the user has an email, and uses that email. |
| ProfileScreen.RedirectsToSignIn | app/src/main/java/com/example/organisationapp/presentation/screens/profile/ProfileScreen.kt:47-50 | The screen sends the user to sign-in whenever the state is logged out. |
| ProfileScreen.SignOutRedirects | app/src/main/java/com/example/organisationapp/presentation/screens/profile/ProfileScreen.kt:47-50 | A completed sign-out always sends the screen to sign-in. |
| ProfileScreen.SignInFailuresAreNotSuccess | app/src/main/java/com/example/organisationapp/presentation/screens/profile/ProfileScreen.kt:299-300 | None of the repository's sign-in and Google failure texts contains "succès" or "renvoyé" in any case. |
| ProfileScreen.SignUpFailuresAreNotSuccess | app/src/main/java/com/example/organisationapp/presentation/screens/profile/ProfileScreen.kt:299-300 | None of the repository's sign-up failure texts contains either word. |
| ProfileScreen.UnavailableTextsAreNotSuccess | app/src/main/java/com/example/organisationapp/presentation/screens/profile/ProfileScreen.kt:299-300 | Neither the "not available" text nor any text of the resend and update tables contains either word. |
| ProfileScreen.FallbacksAreNotSuccess | app/src/main/java/com/example/organisationapp/presentation/screens/profile/ProfileScreen.kt:299-300 | None of the view-model's eight default failure texts contains either word. |
| ProfileScreen.SuccessTextsAreSuccess | app/src/main/java/com/example/organisationapp/presentation/screens/profile/ProfileScreen.kt:299-300 | The view-model's username, email, password and resend success texts are all coloured as successes. |
| ProfileScreen.ProfileActionsNeverShowSuccess | app/src/main/java/com/example/organisationapp/presentation/screens/profile/ProfileScreen.kt:299-300 | The three updates and the resend always end on the "not available" text, which is coloured as an error. |
| ProfileScreen.SilentSignOutFailureIsNotSuccess | app/src/main/java/com/example/organisationapp/presentation/screens/profile/ProfileScreen.kt:299-300 | A sign-out refused without a message shows the sign-out default text as an error, and the redirect does not change. |
| HomeScreen.Greeting | app/src/main/java/com/example/organisationapp/presentation/screens/home/HomeScreen.kt:43-48 | Each greeting is given exactly on its hours: "Bonjour" on 5–11, "Bon après-midi" on 12–17, "Bonsoir" on 18–22 and "Bonne nuit" on every other number. |
| HomeScreen.WelcomeName | app/src/main/java/com/example/organisationapp/presentation/screens/home/HomeScreen.kt:118-121 | The name is the display name, else the part of the email before its first `@`, else "utilisateur". |
| HomeScreen.Subtitle | app/src/main/java/com/example/organisationapp/presentation/screens/home/HomeScreen.kt:117-124 | When logged in, the subtitle is "Bienvenue <name> !". Otherwise it is "Votre organisation du jour". |
| HomeScreen.AvatarTarget | app/src/main/java/com/example/organisationapp/presentation/screens/home/HomeScreen.kt:140-146 | The avatar leads to the profile exactly when logged in, and to sign-in otherwise. |
| HomeScreen.WelcomeByLocalPart | app/src/main/java/com/example/organisationapp/presentation/screens/home/HomeScreen.kt:121 | A user known only by `local@domain` is welcomed as `local`. |
| HomeScreen.SignInWithoutUserWelcomesGenericName | app/src/main/java/com/example/organisationapp/presentation/screens/home/HomeScreen.kt:118-121 | After a password sign-in that returns no user, the home screen shows "Bienvenue utilisateur !" with the avatar leading to the profile. |

Note on `AuthViewModel.Perform`. Its contract states:

- the final state is never loading;
- a failure keeps `user` and `isLoggedIn`, and sets the error to the repository's message or else the operation's own default;
- an accepted password sign-in, or a successful Google sign-in, sets `user` to the current user, `isLoggedIn` to true and clears the error;
- an accepted sign-up logs in when there is a current user;
- an accepted sign-up with no current user logs out and shows the "Inscription réussie" notice;
- a completed sign-out returns to the initial state;
- each unavailable operation changes only `isLoading` and the error;
- `isLoggedIn == (user != null)` is preserved by every operation except a password sign-in that returns without a user.

## Left out

- The identity provider's SDK calls (`loginWith`, `signUpWith`, `logout`, `currentUserOrNull`, `sessionStatus`) are not modelled. Their outcomes are parameters: whether the call returned or threw, its message, and the current user.
- The client singleton in `SupabaseClient.kt` is not part of this model.
- Coroutines and `StateFlow` emission are not modelled. Each operation is a sequential begin/complete pair, so overlapping operations and the interleaving of the observer with them are not captured. The states written to the flow are recorded in a ghost sequence. A `StateFlow` drops a write equal to its current value, so a collector may see fewer states than were written.
- Sign-up reads `currentUserOrNull()` and then `isLoggedIn()`. Both are given the same provider state, so the model does not capture the provider changing between the two reads.
- The session status carried by the observer's events is ignored, as it is in the code. Each event is modelled as the provider's current user at that moment.
- `AuthRepository.JsonValue.ToString`: JSON printing follows kotlinx.serialization's quoting and escaping of strings. That library is not part of this model. Non-string JSON values are kept as their printed text.
- `Text.Fold`: case-insensitive comparison folds only Basic Latin and Latin-1 letters. Full Unicode case folding is not modelled.
- String lengths count characters. The JVM counts UTF-16 units, so a password of 6 characters outside the Basic Multilingual Plane is longer on the JVM.
- Compose layout and rendering are not modelled: colours, icons, spacing and the text-field widgets.
- The Google button is enabled whenever not loading. This is not modelled separately.
- The clock read in `HomeScreen` is a parameter: the hour of the day.
- The home screen's widgets, their float progress values and the navigation are not part of this model (`HomeWidgets.kt`, `OrganisationNavGraph.kt`, `Screen.kt`, `MainActivity.kt`, `ScreenTimeScreen.kt`).
- `isLoggedIn` can be true while `user` is null. A password sign-in that returns with no current user sets `isLoggedIn = true` and `user = null` (AuthViewModel.kt:53-59). The model keeps this behaviour, and `AuthViewModel.SignInWithoutUserIsInconsistent` exhibits the state.
- Errors are not typed. Each repository method maps provider messages to fixed French texts (AuthRepository.kt:29-37 and the other `when` tables), and the view-model keeps only the message string.
- Sign-out does not clear a previous error in its begin write (AuthViewModel.kt:127). The model keeps this, and `AuthViewModel.Begin` states it.
- `AuthRepository.GetCurrentUser` has no property of its own: the provider's user is a parameter, so it returns that parameter. Its use is stated through `AuthRepository.IsLoggedIn` and `AuthViewModel.Resync`.
- `AuthRepository.Catching` is the shared try/catch of the repository methods. Its behaviour is stated by `AuthRepository.MapFailure` and the operations that use it.
