/**
 * The adapter between the app and the authentication provider
 * (`AuthRepository`). Every operation is a try/catch expression that turns
 * what the provider did into a `Result`; failure messages of the provider go
 * through a first-match, case-insensitive table of French texts.
 *
 * The provider itself is outside the model: what a provider call did (it
 * returned, or threw an exception whose message may be null) and the user it
 * reports afterwards (`currentUserOrNull()`) are parameters.
 *
 * Long texts are written as concatenations of short pieces; the value is the
 * text the source writes in one literal.
 */
module AuthRepository {
  import opened Wrappers
  import opened Text

  /** A user-metadata value, as the provider's JSON object holds it. */
  datatype JsonValue =
    | JsonString(content: string)
      /** Any other JSON element (number, boolean, null, array, object), by its printed form. */
    | JsonOther(printed: string)
  {
    /** `JsonElement.toString()`: a string is printed quoted and escaped. */
    function ToString(): (r: string)
      ensures JsonString? ==> r == ['"'] + Escape(content) + ['"']
      ensures JsonString? ==> |r| >= 2 && r[0] == '"' && r[|r| - 1] == '"' && Unescape(r[1..|r| - 1]) == content
      ensures JsonOther? ==> r == printed
    {
      match this
      case JsonString(s) =>
        var r := ['"'] + Escape(s) + ['"'];
        assert r[1..|r| - 1] == Escape(s);
        UnescapeEscape(s);
        r
      case JsonOther(p) => p
    }
  }

  /** The characters kotlinx.serialization escapes when it prints a string. */
  predicate IsEscaped(c: char) {
    c == '"' || c == '\\' || c < ' '
  }

  function HexDigit(d: int): char
    requires 0 <= d < 16
  {
    if d < 10 then ('0' as int + d) as char else ('a' as int + d - 10) as char
  }

  /** The printed form of one character inside a JSON string. */
  function EscapeChar(c: char): (r: string)
    ensures !IsEscaped(c) ==> r == [c]
    ensures IsEscaped(c) ==> |r| >= 2 && r[0] == '\\'
  {
    if c == '"' then "\\\""
    else if c == '\\' then "\\\\"
    else if c == '\n' then "\\n"
    else if c == '\r' then "\\r"
    else if c == '\t' then "\\t"
    else if c == '\U{8}' then "\\b"
    else if c == '\U{C}' then "\\f"
    else if c < ' ' then "\\u00" + [HexDigit(c as int / 16), HexDigit(c as int % 16)]
    else [c]
  }

  /** The body of a printed JSON string: every character in its printed form. */
  function Escape(s: string): (r: string)
    ensures |r| >= |s|
    ensures (forall i | 0 <= i < |s| :: !IsEscaped(s[i])) ==> r == s
  {
    if s == [] then [] else EscapeChar(s[0]) + Escape(s[1..])
  }

  /** The value of a digit as `HexDigit` writes it, and -1 for any other character. */
  function HexValue(c: char): (r: int)
    ensures -1 <= r < 16
  {
    if '0' <= c <= '9' then c as int - '0' as int
    else if 'a' <= c <= 'f' then c as int - 'a' as int + 10
    else -1
  }

  lemma HexValueOfDigit(d: int)
    requires 0 <= d < 16
    ensures HexValue(HexDigit(d)) == d
  {
  }

  /** The character a two-character escape `\x` stands for. */
  function ShortEscaped(x: char): char {
    match x
    case 'n' => '\n'
    case 'r' => '\r'
    case 't' => '\t'
    case 'b' => '\U{8}'
    case 'f' => '\U{C}'
    case _ => x
  }

  /** Reads the body of a printed JSON string back into the string it stands for. */
  function Unescape(s: string): string
    decreases |s|
  {
    if s == [] then []
    else if |s| >= 2 && s[0] == '\\' && s[1] in "\"\\nrtbf" then [ShortEscaped(s[1])] + Unescape(s[2..])
    else if |s| >= 6 && s[0] == '\\' && s[1] == 'u' && s[2] == '0' && s[3] == '0'
            && HexValue(s[4]) >= 0 && HexValue(s[5]) >= 0 then
      [(HexValue(s[4]) * 16 + HexValue(s[5])) as char] + Unescape(s[6..])
    else [s[0]] + Unescape(s[1..])
  }

  /** One printed character is read back as itself, whatever follows it. */
  lemma UnescapeEscapeChar(c: char, rest: string)
    ensures Unescape(EscapeChar(c) + rest) == [c] + Unescape(rest)
  {
    var s := EscapeChar(c) + rest;
    if !IsEscaped(c) {
      assert s[1..] == rest;
    } else if c == '"' || c == '\\' || c == '\n' || c == '\r' || c == '\t' || c == '\U{8}' || c == '\U{C}' {
      assert s[2..] == rest;
    } else {
      var hi, lo := c as int / 16, c as int % 16;
      HexValueOfDigit(hi);
      HexValueOfDigit(lo);
      assert s[6..] == rest;
      assert s[4] == HexDigit(hi) && s[5] == HexDigit(lo);
    }
  }

  /** `Unescape` undoes `Escape`: a printed string gives back the exact text it holds. */
  lemma {:induction false} UnescapeEscape(s: string)
    ensures Unescape(Escape(s)) == s
  {
    if s != [] {
      UnescapeEscapeChar(s[0], Escape(s[1..]));
      UnescapeEscape(s[1..]);
    }
  }

  /** The provider's user record, reduced to the fields the app reads. */
  datatype UserInfo = UserInfo(
    id: string,
    email: Option<string>,
    emailConfirmedAt: Option<int>,
    userMetadata: Option<map<string, JsonValue>>)

  /** What a call into the provider did: returned, or threw with a possibly-null message. */
  datatype ProviderCall = Returned | Threw(message: Option<string>)

  /** Kotlin's `Result`: a value, or an exception reduced to its message. */
  datatype Result<T> = Success(value: T) | Failure(message: Option<string>)

  /** The body of a `try`: it either produced a `Result` or threw. */
  datatype Attempt<T> = Completed(result: Result<T>) | Thrown(message: Option<string>)

  /** One branch of an error `when`: a message containing `needle` becomes `replacement`. */
  datatype Rule = Rule(needle: string, replacement: string)

  // ---------------------------------------------------------------------------
  // Error tables

  /** Rule `k` is the first rule whose needle occurs in `message`, ignoring case. */
  predicate IsFirstMatch(rules: seq<Rule>, message: string, k: int) {
    0 <= k < |rules| && Contains(message, rules[k].needle, true)
    && forall j | 0 <= j < k :: !Contains(message, rules[j].needle, true)
  }

  /** Some rule's needle occurs in `message`, ignoring case. */
  predicate AnyMatches(rules: seq<Rule>, message: string) {
    exists k | 0 <= k < |rules| :: Contains(message, rules[k].needle, true)
  }

  /** The replacement of the first matching rule, if any. */
  function FirstMatch(rules: seq<Rule>, message: string): (r: Option<string>)
    ensures r.None? <==> !AnyMatches(rules, message)
    ensures forall k | IsFirstMatch(rules, message, k) :: r == Some(rules[k].replacement)
  {
    if rules == [] then None
    else if Contains(message, rules[0].needle, true) then Some(rules[0].replacement)
    else
      var rest := FirstMatch(rules[1..], message);
      assert forall k | 1 <= k < |rules| :: rules[k] == rules[1..][k - 1];
      assert forall k | IsFirstMatch(rules, message, k) :: k >= 1 && IsFirstMatch(rules[1..], message, k - 1);
      rest
  }

  /**
   * The `when` of a catch block: a null message gives `fallback`, a message
   * no rule matches is kept verbatim, otherwise the first match wins.
   */
  function MapFailure(rules: seq<Rule>, fallback: string, message: Option<string>): (r: string)
    ensures message.None? ==> r == fallback
    ensures message.Some? && !AnyMatches(rules, message.value) ==> r == message.value
    ensures message.Some? ==> forall k | IsFirstMatch(rules, message.value, k) :: r == rules[k].replacement
  {
    match message
    case None => fallback
    case Some(m) => FirstMatch(rules, m).GetOr(m)
  }

  /** `try { body } catch (e) { Result.failure(Exception(mapped e.message)) }`. */
  function Catching<T>(attempt: Attempt<T>, rules: seq<Rule>, fallback: string): (r: Result<T>)
    ensures attempt.Completed? ==> r == attempt.result
    ensures attempt.Thrown? ==> r.Failure? && r.message == Some(MapFailure(rules, fallback, attempt.message))
  {
    match attempt
    case Completed(result) => result
    case Thrown(message) => Failure(Some(MapFailure(rules, fallback, message)))
  }

  // Provider phrases the tables look for.
  const EmailNotConfirmed := "Email not confirmed"
  const InvalidLoginCredentials := "Invalid login credentials"
  const TooManyRequests := "Too many requests"
  const UserAlreadyRegistered := "User already registered"
  const PasswordShouldBeAtLeast := "Password should be at least"
  const UnableToValidateEmail := "Unable to validate email address"
  const UserNotFound := "User not found"
  const InvalidJwt := "Invalid JWT"
  const EmailAlreadyExists := "Email already exists"

  // Texts the app shows.
  const AccountNotVerified := "Votre compte n'est " + "pas encore vérifié" + ". Veuillez consulter "
    + "votre boîte email et " + "cliquer sur le lien " + "de confirmation pour " + "activer votre compte."
  const WrongCredentials := "Email ou mot de passe " + "incorrect. Veuillez " + "vérifier vos " + "informations."
  const TooManyAttempts := "Trop de tentatives de " + "connexion. Veuillez " + "attendre quelques "
    + "minutes avant de " + "réessayer."
  const SignInUnknown := "Erreur de connexion" + " inconnue"
  const AccountExists := "Un compte avec cet " + "email existe déjà. " + "Essayez de vous "
    + "connecter ou utilisez " + "un autre email."
  const PasswordTooShort := "Le mot de passe doit " + "contenir au moins 6 " + "caractères."
  const InvalidEmailAddress := "Adresse email invalide" + ". Veuillez vérifier " + "le format de votre " + "email."
  const SignUpUnknown := "Erreur d'inscription" + " inconnue"
  const GoogleFailed := "Échec de " + "l'authentification" + " Google"
  const NotAvailable := "Fonctionnalité non " + "disponible dans " + "cette version"
  const InvalidEmailShort := "Adresse email invalide."
  const TooManyResends := "Trop de demandes. " + "Veuillez attendre " + "avant de renvoyer " + "l'email."
  const ResendUnknown := "Erreur lors de " + "l'envoi de l'email " + "de confirmation"
  const UserMissing := "Utilisateur non " + "trouvé. Veuillez " + "vous reconnecter."
  const SessionExpired := "Session expirée. " + "Veuillez vous " + "reconnecter."
  const UsernameUnknown := "Erreur lors de " + "la mise à jour " + "du pseudo"
  const InvalidEmailFormat := "Adresse email invalide" + ". Veuillez vérifier " + "le format."
  const EmailTaken := "Cette adresse email " + "est déjà utilisée " + "par un autre compte."
  const EmailUnknown := "Erreur lors de " + "la mise à jour " + "de l'email"
  const PasswordUnknown := "Erreur lors de " + "la mise à jour " + "du mot de passe"

  const SignInRules := [
    Rule(EmailNotConfirmed, AccountNotVerified),
    Rule(InvalidLoginCredentials, WrongCredentials),
    Rule(TooManyRequests, TooManyAttempts)]
  const SignUpRules := [
    Rule(UserAlreadyRegistered, AccountExists),
    Rule(PasswordShouldBeAtLeast, PasswordTooShort),
    Rule(UnableToValidateEmail, InvalidEmailAddress)]
  const ResendRules := [
    Rule(UnableToValidateEmail, InvalidEmailShort),
    Rule(TooManyRequests, TooManyResends)]
  const UpdateUsernameRules := [
    Rule(UserNotFound, UserMissing),
    Rule(InvalidJwt, SessionExpired)]
  const UpdateEmailRules := [
    Rule(UnableToValidateEmail, InvalidEmailFormat),
    Rule(EmailAlreadyExists, EmailTaken),
    Rule(UserNotFound, UserMissing),
    Rule(InvalidJwt, SessionExpired)]
  const UpdatePasswordRules := [
    Rule(PasswordShouldBeAtLeast, PasswordTooShort),
    Rule(UserNotFound, UserMissing),
    Rule(InvalidJwt, SessionExpired)]

  // ---------------------------------------------------------------------------
  // Operations

  /** Password sign-in: success carries whatever user the provider reports, null included. */
  function SignInWithEmail(login: ProviderCall, current: Option<UserInfo>): (r: Result<Option<UserInfo>>)
    ensures login.Returned? <==> r.Success?
    ensures login.Returned? ==> r.value == current
    ensures r.Failure? ==> r.message.Some?
    ensures login == Threw(None) ==> r == Failure(Some(SignInUnknown))
  {
    var attempt := if login.Returned? then Completed(Success(current)) else Thrown(login.message);
    Catching(attempt, SignInRules, SignInUnknown)
  }

  /** The metadata attached to a sign-up: the username under three keys, or nothing. */
  function SignUpMetadata(username: Option<string>): (r: Option<map<string, JsonValue>>)
    ensures username.None? <==> r.None?
    ensures username.Some? ==> r.value.Keys == {"username", "display_name", "full_name"}
    ensures username.Some? ==> forall key | key in r.value :: r.value[key] == JsonString(username.value)
  {
    match username
    case None => None
    case Some(name) =>
      Some(map["username" := JsonString(name), "display_name" := JsonString(name), "full_name" := JsonString(name)])
  }

  /** Sign-up: success carries whatever user the provider reports, null included. */
  function SignUpWithEmail(signUp: ProviderCall, current: Option<UserInfo>): (r: Result<Option<UserInfo>>)
    ensures signUp.Returned? <==> r.Success?
    ensures signUp.Returned? ==> r.value == current
    ensures r.Failure? ==> r.message.Some?
    ensures signUp == Threw(None) ==> r == Failure(Some(SignUpUnknown))
  {
    var attempt := if signUp.Returned? then Completed(Success(current)) else Thrown(signUp.message);
    Catching(attempt, SignUpRules, SignUpUnknown)
  }

  /**
   * Google sign-in: succeeds only when the provider then reports a user;
   * a thrown exception is passed on with its message unmapped.
   */
  function SignInWithGoogle(login: ProviderCall, current: Option<UserInfo>): (r: Result<Option<UserInfo>>)
    ensures r.Success? <==> login.Returned? && current.Some?
    ensures r.Success? ==> r.value == current && r.value.Some?
    ensures login.Returned? && current.None? ==> r == Failure(Some(GoogleFailed))
    ensures login.Threw? ==> r == Failure(login.message)
  {
    match login
    case Returned => if current.Some? then Success(current) else Failure(Some(GoogleFailed))
    case Threw(message) => Failure(message)
  }

  /** Sign-out: success, or the provider's exception passed on. */
  function SignOut(logout: ProviderCall): (r: Result<()>)
    ensures r.Success? <==> logout.Returned?
    ensures logout.Threw? ==> r.message == logout.message
  {
    match logout
    case Returned => Success(())
    case Threw(message) => Failure(message)
  }

  /** The user the provider currently reports. */
  function GetCurrentUser(current: Option<UserInfo>): (r: Option<UserInfo>)
    ensures r == current
  {
    current
  }

  /** Logged in exactly when the provider reports a user. */
  function IsLoggedIn(current: Option<UserInfo>): (r: bool)
    ensures r <==> GetCurrentUser(current).Some?
  {
    current != None
  }

  /**
   * The four operations below fail with the same text before anything can
   * throw, so their catch tables are never consulted.
   */
  function ResendConfirmationEmail(email: string): (r: Result<()>)
    ensures r == Failure(Some(NotAvailable))
    ensures r.message != Some(ResendUnknown)
  {
    Catching(Completed(Failure(Some(NotAvailable))), ResendRules, ResendUnknown)
  }

  function UpdateUsername(newUsername: string): (r: Result<Option<UserInfo>>)
    ensures r == Failure(Some(NotAvailable))
    ensures r.message != Some(UsernameUnknown)
  {
    Catching(Completed(Failure(Some(NotAvailable))), UpdateUsernameRules, UsernameUnknown)
  }

  function UpdateEmail(newEmail: string): (r: Result<Option<UserInfo>>)
    ensures r == Failure(Some(NotAvailable))
    ensures r.message != Some(EmailUnknown)
  {
    Catching(Completed(Failure(Some(NotAvailable))), UpdateEmailRules, EmailUnknown)
  }

  function UpdatePassword(newPassword: string): (r: Result<()>)
    ensures r == Failure(Some(NotAvailable))
    ensures r.message != Some(PasswordUnknown)
  {
    Catching(Completed(Failure(Some(NotAvailable))), UpdatePasswordRules, PasswordUnknown)
  }

  // ---------------------------------------------------------------------------
  // Properties of the tables

  /**
   * Sign-in failures: the earliest phrase found decides, whatever else the
   * message contains; a message with none of them is shown as it is.
   */
  lemma SignInFailureOrder(message: string, current: Option<UserInfo>)
    ensures var r := SignInWithEmail(Threw(Some(message)), current);
      && (Contains(message, EmailNotConfirmed, true) ==> r == Failure(Some(AccountNotVerified)))
      && (!Contains(message, EmailNotConfirmed, true) && Contains(message, InvalidLoginCredentials, true)
          ==> r == Failure(Some(WrongCredentials)))
      && ((!Contains(message, EmailNotConfirmed, true) && !Contains(message, InvalidLoginCredentials, true)
           && Contains(message, TooManyRequests, true)) ==> r == Failure(Some(TooManyAttempts)))
      && ((!Contains(message, EmailNotConfirmed, true) && !Contains(message, InvalidLoginCredentials, true)
           && !Contains(message, TooManyRequests, true)) ==> r == Failure(Some(message)))
  {
    var c0, c1, c2 := Contains(message, EmailNotConfirmed, true),
      Contains(message, InvalidLoginCredentials, true), Contains(message, TooManyRequests, true);
    if c0 {
      assert IsFirstMatch(SignInRules, message, 0);
    } else if c1 {
      assert IsFirstMatch(SignInRules, message, 1);
    } else if c2 {
      assert IsFirstMatch(SignInRules, message, 2);
    } else {
      assert !AnyMatches(SignInRules, message);
    }
  }

  /** Sign-up failures, likewise in their own order. */
  lemma SignUpFailureOrder(message: string, current: Option<UserInfo>)
    ensures var r := SignUpWithEmail(Threw(Some(message)), current);
      && (Contains(message, UserAlreadyRegistered, true) ==> r == Failure(Some(AccountExists)))
      && (!Contains(message, UserAlreadyRegistered, true) && Contains(message, PasswordShouldBeAtLeast, true)
          ==> r == Failure(Some(PasswordTooShort)))
      && ((!Contains(message, UserAlreadyRegistered, true) && !Contains(message, PasswordShouldBeAtLeast, true)
           && Contains(message, UnableToValidateEmail, true)) ==> r == Failure(Some(InvalidEmailAddress)))
      && ((!Contains(message, UserAlreadyRegistered, true) && !Contains(message, PasswordShouldBeAtLeast, true)
           && !Contains(message, UnableToValidateEmail, true)) ==> r == Failure(Some(message)))
  {
    var c0, c1, c2 := Contains(message, UserAlreadyRegistered, true),
      Contains(message, PasswordShouldBeAtLeast, true), Contains(message, UnableToValidateEmail, true);
    if c0 {
      assert IsFirstMatch(SignUpRules, message, 0);
    } else if c1 {
      assert IsFirstMatch(SignUpRules, message, 1);
    } else if c2 {
      assert IsFirstMatch(SignUpRules, message, 2);
    } else {
      assert !AnyMatches(SignUpRules, message);
    }
  }

  /** The provider's own unconfirmed-email message, in any case, becomes the French notice. */
  lemma UnconfirmedEmailIsTranslated(current: Option<UserInfo>)
    ensures SignInWithEmail(Threw(Some("email not confirmed")), current) == Failure(Some(AccountNotVerified))
  {
    var m := "email not confirmed";
    assert RegionMatches(m, 0, EmailNotConfirmed, true);
    SignInFailureOrder(m, current);
  }
}
