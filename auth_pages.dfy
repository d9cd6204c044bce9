/** What the authentication pages under app/auth decide, with the rendering
    left out: which messages their form schemas report, and where a submit
    or an OAuth button leaves the page.  zod's e-mail format check is the
    parameter `isEmail`. */
module AuthPages {
  import opened Common

  /** Where a handler leaves the page: a navigation (after `delayMs`
      milliseconds) or an error shown on the form. */
  datatype Outcome = Navigate(path: string, delayMs: nat) | ShowError(message: string)

  datatype Provider = Google | GitHub

  /** The provider id the pages hand to `signIn`. */
  function ProviderId(p: Provider): string {
    match p
    case Google => "google"
    case GitHub => "github"
  }

  /** `s.charAt(0).toUpperCase() + s.slice(1)`, for the ASCII letters the
      provider ids are made of. */
  function Capitalized(s: string): (r: string)
    ensures |r| == |s|
    ensures s != [] ==> r[1..] == s[1..]
    ensures s != [] && 'a' <= s[0] <= 'z' ==> 'A' <= r[0] <= 'Z' && r[0] as int == s[0] as int - 32
    ensures s != [] && !('a' <= s[0] <= 'z') ==> r == s
  {
    if s == [] then []
    else if 'a' <= s[0] <= 'z' then [(s[0] as int - 32) as char] + s[1..]
    else s
  }

  /** Capitalising twice changes nothing more. */
  lemma CapitalizedIdempotent(s: string)
    ensures Capitalized(Capitalized(s)) == Capitalized(s)
  {
  }

  /** The message an OAuth button shows when signing in with `p` fails;
      `verb` is "sign-up" on the register page and "sign-in" on the
      sign-in page. */
  function OAuthFailure(p: Provider, verb: string): string {
    Capitalized(ProviderId(p)) + " " + verb + " failed"
  }

  /** The provider names come out as "Google" and "Github". */
  lemma {:induction false} GoogleSignUpMessage()
    ensures OAuthFailure(Google, "sign-up") == "Google sign-up failed"
  {
    var id := ProviderId(Google);
    assert id[0] == 'g' && id[1..] == "oogle";
    assert Capitalized(id) == "G" + "oogle";
  }

  lemma {:induction false} GitHubSignInMessage()
    ensures OAuthFailure(GitHub, "sign-in") == "Github sign-in failed"
  {
    var id := ProviderId(GitHub);
    assert id[0] == 'g' && id[1..] == "ithub";
    assert Capitalized(id) == "G" + "ithub";
  }

  /** An OAuth button: an error from `signIn`, or an answer without a
      redirect URL, shows the provider's failure message whatever the
      error said; otherwise the browser goes to the URL. */
  function OAuthOutcome(p: Provider, verb: string, error: Option<string>, url: Option<string>): (r: Outcome)
    ensures r.Navigate? <==> !Present(error) && Present(url)
    ensures r.Navigate? ==> r == Navigate(url.value, 0)
    ensures r.ShowError? ==> r.message == OAuthFailure(p, verb)
  {
    if Present(error) then ShowError(OAuthFailure(p, verb))
    else if Present(url) then Navigate(url.value, 0)
    else ShowError(OAuthFailure(p, verb))
  }

  /** The e-mail field shared by the sign-in and forgot-password schemas:
      required, then well formed; zod reports every failing check, and the
      form shows the first. */
  function RequiredEmailIssues(email: string, isEmail: string -> bool): (r: seq<string>)
    ensures r == [] <==> email != "" && isEmail(email)
    ensures email == "" ==> r[0] == "Email is required"
    ensures email != "" && !isEmail(email) ==> r == ["Invalid email address"]
  {
    (if email == "" then ["Email is required"] else []) +
    (if !isEmail(email) then ["Invalid email address"] else [])
  }
}

/** app/auth/register/page.tsx: the registration schema, the redirect to
    the verification page, and the submit's error handling. */
module RegisterPage {
  import opened Common
  import opened AuthPages

  predicate IsAsciiAlnum(c: char) {
    'A' <= c <= 'Z' || 'a' <= c <= 'z' || '0' <= c <= '9'
  }

  /** The four character classes the password rules search for. */
  predicate HasUpper(s: string) { exists i :: 0 <= i < |s| && 'A' <= s[i] <= 'Z' }
  predicate HasLower(s: string) { exists i :: 0 <= i < |s| && 'a' <= s[i] <= 'z' }
  predicate HasDigit(s: string) { exists i :: 0 <= i < |s| && '0' <= s[i] <= '9' }
  predicate HasSpecial(s: string) { exists i :: 0 <= i < |s| && !IsAsciiAlnum(s[i]) }

  const UpperMissing := "At least one uppercase letter (A-Z)"
  const LowerMissing := "At least one lowercase letter (a-z)"
  const DigitMissing := "At least one number (0-9)"
  const SpecialMissing := "At least one special character (!@#$%^&*)"
  const TooShort := "Password must be at least 8 characters"

  /** The name field: 3 to 25 characters. */
  function NameIssues(name: string): (r: seq<string>)
    ensures r == [] <==> 3 <= |name| <= 25
    ensures |r| <= 1
  {
    if |name| < 3 then ["Name must be at least 3 characters"]
    else if |name| > 25 then ["Name must be less than 25 characters"]
    else []
  }

  /** The password field: each rule that fails contributes its message, in
      the schema's order. */
  function PasswordIssues(p: string): (r: seq<string>)
    ensures r == [] <==> |p| >= 8 && HasUpper(p) && HasLower(p) && HasDigit(p) && HasSpecial(p)
    ensures TooShort in r <==> |p| < 8
    ensures UpperMissing in r <==> !HasUpper(p)
    ensures LowerMissing in r <==> !HasLower(p)
    ensures DigitMissing in r <==> !HasDigit(p)
    ensures SpecialMissing in r <==> !HasSpecial(p)
  {
    (if |p| < 8 then [TooShort] else []) +
    (if !HasUpper(p) then [UpperMissing] else []) +
    (if !HasLower(p) then [LowerMissing] else []) +
    (if !HasDigit(p) then [DigitMissing] else []) +
    (if !HasSpecial(p) then [SpecialMissing] else [])
  }

  /** `formSchema`: the submit handler runs only when this holds. */
  predicate RegisterValid(name: string, email: string, password: string, isEmail: string -> bool) {
    NameIssues(name) == [] && isEmail(email) && PasswordIssues(password) == []
  }

  /** A password meeting every rule; the rules are satisfiable. */
  lemma {:induction false} PolicyExample()
    ensures PasswordIssues("Passw0rd!") == []
  {
    var p := "Passw0rd!";
    assert 'A' <= p[0] <= 'Z' && 'a' <= p[1] <= 'z' && '0' <= p[5] <= '9' && !IsAsciiAlnum(p[8]);
  }

  /** The character classes alone are not enough: "Aa1!" is refused only
      for its length. */
  lemma {:induction false} ShortPasswordRefused()
    ensures PasswordIssues("Aa1!") == [TooShort]
  {
    var p := "Aa1!";
    assert 'A' <= p[0] <= 'Z' && 'a' <= p[1] <= 'z' && '0' <= p[2] <= '9' && !IsAsciiAlnum(p[3]);
  }

  const VerifyPrefix := "/auth/verify-email?email="

  /** Where a successful submit goes: the verification page with the
      e-mail URI-encoded into its query. */
  function VerifyEmailPath(email: string): (path: string)
    ensures StartsWith(path, VerifyPrefix)
    ensures path[|VerifyPrefix|..] == EncodeURIComponent(email)
  {
    VerifyPrefix + EncodeURIComponent(email)
  }

  /** The characters of a query value up to the next parameter or the
      fragment. */
  function UntilDelimiter(s: string): (r: string)
    ensures |r| <= |s| && r == s[..|r|]
    ensures forall i :: 0 <= i < |r| ==> r[i] != '&' && r[i] != '#'
    ensures |r| < |s| ==> s[|r|] == '&' || s[|r|] == '#'
  {
    if s == [] || s[0] == '&' || s[0] == '#' then []
    else [s[0]] + UntilDelimiter(s[1..])
  }

  /** The raw `email` value a page reads back from such a path. */
  function EmailParam(path: string): (r: Option<string>)
    ensures r.Some? <==> StartsWith(path, VerifyPrefix)
  {
    if StartsWith(path, VerifyPrefix) then Some(UntilDelimiter(path[|VerifyPrefix|..])) else None
  }

  lemma {:induction false} NoDelimiterKept(s: string)
    requires forall i :: 0 <= i < |s| ==> s[i] != '&' && s[i] != '#'
    ensures UntilDelimiter(s) == s
  {
    if s != [] {
      NoDelimiterKept(s[1..]);
    }
  }

  /** The verification page reads back the whole encoded e-mail: encoding
      leaves no `&` or `#` that would cut the value short. */
  lemma {:induction false} VerifyEmailParamRoundTrip(email: string)
    ensures EmailParam(VerifyEmailPath(email)) == Some(EncodeURIComponent(email))
  {
    var enc := EncodeURIComponent(email);
    var path := VerifyEmailPath(email);
    assert StartsWith(path, VerifyPrefix) && path[|VerifyPrefix|..] == enc;
    forall i | 0 <= i < |enc| ensures enc[i] != '&' && enc[i] != '#' {
      assert IsUnreserved(enc[i]) || enc[i] == '%' || IsHexDigit(enc[i]);
    }
    NoDelimiterKept(enc);
  }

  /** The submit handler after the POST to /api/auth/send-verification:
      `ok` is the answer's status, `errorField` its body's `error`. */
  function SubmitOutcome(email: string, ok: bool, errorField: Option<string>): (r: Outcome)
    ensures ok ==> r == Navigate(VerifyEmailPath(email), 0)
    ensures !ok ==> r.ShowError? && r.message != ""
    ensures !ok && Present(errorField) ==> r.message == errorField.value
    ensures !ok && !Present(errorField) ==> r.message == "Verification failed"
  {
    if !ok then ShowError(if Present(errorField) then errorField.value else "Verification failed")
    else Navigate(VerifyEmailPath(email), 0)
  }
}

/** app/auth/signin/page.tsx: the sign-in schema and the mapping of
    `signIn`'s error to the message shown. */
module SignInPage {
  import opened Common
  import opened AuthPages
  import RegisterPage

  /** The password field: required, then at least 6 characters. */
  function PasswordIssues(p: string): (r: seq<string>)
    ensures r == [] <==> |p| >= 6
    ensures p == "" ==> r == ["Password is required", "Password must be at least 6 characters"]
    ensures 0 < |p| < 6 ==> r == ["Password must be at least 6 characters"]
  {
    (if |p| < 1 then ["Password is required"] else []) +
    (if |p| < 6 then ["Password must be at least 6 characters"] else [])
  }

  /** `signInSchema`: the login handler runs only when this holds. */
  predicate SignInValid(email: string, password: string, isEmail: string -> bool) {
    RequiredEmailIssues(email, isEmail) == [] && PasswordIssues(password) == []
  }

  /** Credentials the register form accepts are accepted here too (given a
      format check that refuses the empty string). */
  lemma RegisteredCredentialsPass(name: string, email: string, password: string, isEmail: string -> bool)
    requires RegisterPage.RegisterValid(name, email, password, isEmail) && !isEmail("")
    ensures SignInValid(email, password, isEmail)
  {
  }

  /** `handleEmailLogin` after `signIn("credentials")`: NextAuth's generic
      "CredentialsSignin" becomes a readable message, any other error is
      shown as it is, and no error leads to the profile. */
  function LoginOutcome(error: Option<string>): (r: Outcome)
    ensures r.Navigate? <==> !Present(error)
    ensures r.Navigate? ==> r == Navigate("/profile", 0)
    ensures r.ShowError? ==> r.message != "" && r.message != "CredentialsSignin"
    ensures Present(error) && error.value != "CredentialsSignin" ==> r == ShowError(error.value)
    ensures error == Some("CredentialsSignin") ==> r == ShowError("Invalid email or password")
  {
    if Present(error) then
      ShowError(if error.value == "CredentialsSignin" then "Invalid email or password" else error.value)
    else Navigate("/profile", 0)
  }
}

/** app/auth/forgot-password/page.tsx: the schema, the extraction of a
    message from whatever was thrown, and the submit's outcome. */
module ForgotPasswordPage {
  import opened Common
  import opened AuthPages

  /** What a `catch` can receive, as far as `handleError` tells apart:
      a string, an `Error`, another object (with or without a `message`),
      or anything else. */
  datatype Thrown = ThrownString(text: string) | ThrownError(message: string)
                  | ThrownObject(messageField: Option<string>) | ThrownOther

  const DefaultMessage := "Something went wrong. Please try again."

  /** `forgotPasswordSchema`. */
  predicate ForgotValid(email: string, isEmail: string -> bool) {
    RequiredEmailIssues(email, isEmail) == []
  }

  /** `handleError`: the message carried by what was thrown, or the
      default text when it carries none. */
  function HandleError(err: Thrown): (m: string)
    ensures m == DefaultMessage <==>
              || err.ThrownOther? || err == ThrownObject(None)
              || err == ThrownString(DefaultMessage) || err == ThrownError(DefaultMessage)
              || err == ThrownObject(Some(DefaultMessage))
    ensures err.ThrownString? ==> m == err.text
    ensures err.ThrownError? ==> m == err.message
    ensures err.ThrownObject? && err.messageField.Some? ==> m == err.messageField.value
  {
    match err
    case ThrownString(text) => text
    case ThrownError(message) => message
    case ThrownObject(field) => if field.Some? then field.value else DefaultMessage
    case ThrownOther => DefaultMessage
  }

  /** The submit handler after the POST to /api/auth/reset-password: `ok`
      is the answer's status, `bodyMessage` its body's `message`.  A
      failure shows the server's message, or a fallback when it sent none;
      success goes to the sign-in page after three seconds. */
  function SubmitOutcome(ok: bool, bodyMessage: Option<string>): (r: Outcome)
    ensures ok ==> r == Navigate("/auth/signin", 3000)
    ensures !ok ==> r.ShowError? && r.message != ""
    ensures !ok && Present(bodyMessage) ==> r.message == bodyMessage.value
    ensures !ok && !Present(bodyMessage) ==> r.message == "Failed to send reset link"
  {
    if !ok then
      ShowError(HandleError(ThrownError(if Present(bodyMessage) then bodyMessage.value else "Failed to send reset link")))
    else Navigate("/auth/signin", 3000)
  }
}
