/** The sign-up and sign-in service: input validation, error-message mapping,
    and the order of backend calls with the result each outcome produces. */
module AuthService {
  import opened Common
  import opened Records
  import opened Text

  // ---------------------------------------------------------------- messages

  const Fallback: string := "An unexpected error occurred. Please try again."

  /** The friendly text for each backend error code the service knows. */
  const ErrorMessages: map<string, string> := map[
    "auth/email-already-in-use" := "An account with this email already exists.",
    "auth/weak-password" := "Password should be at least 6 characters long.",
    "auth/invalid-email" := "Please enter a valid email address.",
    "auth/user-not-found" := "No account found with this email address.",
    "auth/wrong-password" := "Incorrect password. Please try again.",
    "auth/too-many-requests" := "Too many failed attempts. Please try again later.",
    "auth/network-request-failed" := "Network error. Please check your connection.",
    "auth/invalid-credential" := "Invalid email or password. Please check your credentials."
  ]

  /** `getErrorMessage(code)`: the mapped text, or the generic fallback. */
  function GetErrorMessage(code: string): (r: string)
    ensures r != ""
  {
    if code in ErrorMessages then ErrorMessages[code] else Fallback
  }

  /** The mapping is total and never confuses codes: an unknown code, and only
      an unknown code, yields the fallback; distinct known codes yield
      distinct texts, and no text is empty. */
  lemma ErrorMessagesDistinguishCodes(a: string, b: string)
    ensures GetErrorMessage(a) != ""
    ensures GetErrorMessage(a) == Fallback <==> a !in ErrorMessages
    ensures a in ErrorMessages && b in ErrorMessages && a != b ==>
      GetErrorMessage(a) != GetErrorMessage(b)
  {
  }

  /** A thrown error: `code` is empty for the service's own validation
      errors, which carry only a message. */
  datatype Thrown = Thrown(code: string, message: string)

  /** The `error` field of a failed result: the mapped text when the error
      has a code, else its raw message. */
  function ErrorText(e: Thrown): (r: string)
    ensures e.code != "" ==> r == GetErrorMessage(e.code)
    ensures e.code == "" ==> r == e.message
  {
    if e.code != "" then GetErrorMessage(e.code) else e.message
  }

  // -------------------------------------------------------------- validation

  /** A character of the class `[^\s@]`. */
  predicate EmailChar(c: char) {
    !IsSpace(c) && c != '@'
  }

  predicate AllEmailChars(t: string) {
    forall k | 0 <= k < |t| :: EmailChar(t[k])
  }

  /** The regular expression `^[^\s@]+@[^\s@]+\.[^\s@]+$` matches `s` with the
      literal `@` at `at` and the literal `.` at `dot`. */
  ghost predicate RegexSplit(s: string, at: int, dot: int) {
    && 0 < at && at + 1 < dot && dot + 1 < |s|
    && s[at] == '@' && s[dot] == '.'
    && AllEmailChars(s[..at]) && AllEmailChars(s[at + 1..dot]) && AllEmailChars(s[dot + 1..])
  }

  /** The regular expression matches `s` under some choice of the split. */
  ghost predicate EmailRegex(s: string) {
    exists at, dot :: RegexSplit(s, at, dot)
  }

  /** The position of the first `c` in `s`, or `|s|` when there is none. */
  function IndexOf(s: string, c: char): (i: nat)
    ensures i <= |s|
    ensures i < |s| ==> s[i] == c
    ensures forall k | 0 <= k < i :: s[k] != c
  {
    if s == [] then 0
    else if s[0] == c then 0
    else 1 + IndexOf(s[1..], c)
  }

  /** `domain` has a `.` that is neither its first nor its last character. */
  predicate HasInnerDot(domain: string) {
    exists k | 0 < k < |domain| - 1 :: domain[k] == '.'
  }

  /** `validateEmail(email)`, computed by locating the `@`. */
  predicate ValidateEmail(email: string) {
    var at := IndexOf(email, '@');
    && 0 < at < |email|
    && AllEmailChars(email[..at])
    && AllEmailChars(email[at + 1..])
    && HasInnerDot(email[at + 1..])
  }

  /** `ValidateEmail` accepts exactly the strings the regular expression
      matches. */
  lemma ValidateEmailMatchesRegex(email: string)
    ensures ValidateEmail(email) <==> EmailRegex(email)
  {
    var at := IndexOf(email, '@');
    if ValidateEmail(email) {
      var domain := email[at + 1..];
      var k :| 0 < k < |domain| - 1 && domain[k] == '.';
      var dot := at + 1 + k;
      assert email[at + 1..dot] == domain[..k];
      assert email[dot + 1..] == domain[k + 1..];
      assert RegexSplit(email, at, dot);
    }
    if EmailRegex(email) {
      var a, d :| RegexSplit(email, a, d);
      assert a == at;
      var domain := email[at + 1..];
      assert domain[d - at - 1] == '.';
      forall k | 0 <= k < |domain| ensures EmailChar(domain[k]) {
        if k + at + 1 < d {
          assert domain[k] == email[at + 1..d][k];
        } else if k + at + 1 > d {
          assert domain[k] == email[d + 1..][k + at - d];
        }
      }
    }
  }

  /** A valid email has no white space, exactly one `@`, a non-empty part
      before it, and a `.` inside the part after it. */
  lemma ValidEmailShape(email: string)
    requires ValidateEmail(email)
    ensures var at := IndexOf(email, '@');
      && 0 < at < |email|
      && (forall k | 0 <= k < |email| :: !IsSpace(email[k]))
      && (forall k | 0 <= k < |email| :: email[k] == '@' <==> k == at)
      && HasInnerDot(email[at + 1..])
  {
    var at := IndexOf(email, '@');
    forall k | 0 <= k < |email|
      ensures !IsSpace(email[k]) && (email[k] == '@' <==> k == at)
    {
      if k < at {
        assert email[k] == email[..at][k];
      } else if k > at {
        assert email[k] == email[at + 1..][k - at - 1];
      }
    }
  }

  /** `validatePassword(password)`: non-empty and at least six UTF-16 code
      units long. */
  predicate ValidatePassword(password: string) {
    password != "" && Utf16Length(password) >= 6
  }

  /** The rule reduces to the length check, and any six characters pass it. */
  lemma PasswordRule(password: string)
    ensures ValidatePassword(password) <==> Utf16Length(password) >= 6
    ensures |password| >= 6 ==> ValidatePassword(password)
    ensures |password| < 3 ==> !ValidatePassword(password)
  {
  }

  /** The display name as stored: trimmed, or null when nothing remains. */
  function NormalizeDisplayName(displayName: string): (r: Option<string>)
    ensures r == None <==> AllSpace(displayName)
    ensures r.Some? ==> r.value == Trim(displayName) && Trim(r.value) == r.value
  {
    TrimEmptyIffAllSpace(displayName);
    if Trim(displayName) != "" then
      TrimIdempotent(displayName);
      Some(Trim(displayName))
    else None
  }

  // ----------------------------------------------------------- the services

  const InvalidEmailText: string := "Please enter a valid email address."
  const ShortPasswordText: string := "Password must be at least 6 characters long."
  const MissingPasswordText: string := "Password is required."

  /** A `users/{uid}` profile document (server timestamps left out). */
  datatype UserDoc = UserDoc(uid: string, email: string, displayName: Option<string>, isActive: bool)

  /** The backend calls the services make, in order. */
  datatype Call =
    | CreateAccount(email: string, password: string)
    | UpdateDisplayName(uid: string, name: string)
    | WriteUserDoc(doc: UserDoc)
    | SignIn(email: string, password: string)
    | ReadUserDoc(uid: string)
    | MergeLastLogin(uid: string)

  /** The `{success, user}` / `{success, error}` result. */
  datatype AuthResult = AuthOk(user: User) | AuthErr(error: string)

  /** A result together with the backend calls made to reach it. */
  datatype Outcome = Outcome(result: AuthResult, calls: seq<Call>)

  /** The steps of `signup` after the account exists: the display-name
      update when there is a name, then the profile write. */
  function ProfileSteps(account: User, name: Option<string>, nameUpdate: Option<Thrown>, docWrite: Option<Thrown>): (r: Outcome)
    ensures r.result.AuthOk? <==> (name.Some? ==> nameUpdate == None) && docWrite == None
    ensures (name.Some? <==> r.calls != [] && r.calls[0].UpdateDisplayName?)
    ensures name.Some? ==> r.calls[0] == UpdateDisplayName(account.uid, name.value)
    ensures name.Some? && nameUpdate.Some? ==>
      r == Outcome(AuthErr(ErrorText(nameUpdate.value)), [UpdateDisplayName(account.uid, name.value)])
    ensures (name.None? || nameUpdate.None?) && docWrite.Some? ==>
      && r.result == AuthErr(ErrorText(docWrite.value))
      && r.calls != [] && r.calls[|r.calls| - 1] == WriteUserDoc(UserDoc(account.uid, AsciiLower(account.email), name, true))
    ensures r.result.AuthOk? ==>
      && r.result.user == User(account.uid, account.email, name)
      && r.calls != []
      && r.calls[|r.calls| - 1] == WriteUserDoc(UserDoc(account.uid, AsciiLower(account.email), name, true))
  {
    var named := if name.Some? then [UpdateDisplayName(account.uid, name.value)] else [];
    if name.Some? && nameUpdate.Some? then Outcome(AuthErr(ErrorText(nameUpdate.value)), named)
    else
      var doc := UserDoc(account.uid, AsciiLower(account.email), name, true);
      var written := named + [WriteUserDoc(doc)];
      if docWrite.Some? then Outcome(AuthErr(ErrorText(docWrite.value)), written)
      else Outcome(AuthOk(User(account.uid, account.email, name)), written)
  }

  /** `signup(email, password, displayName)`. The backend's answers are
      parameters: the account creation, the display-name update (made only
      for a non-blank name) and the profile write; `None` means the call
      succeeded. */
  function Signup(
    email: string, password: string, displayName: string,
    create: Result<User, Thrown>, nameUpdate: Option<Thrown>, docWrite: Option<Thrown>): (r: Outcome)
    ensures !ValidateEmail(email) ==> r == Outcome(AuthErr(InvalidEmailText), [])
    ensures ValidateEmail(email) && !ValidatePassword(password) ==>
      r == Outcome(AuthErr(ShortPasswordText), [])
    ensures r.calls != [] ==>
      ValidateEmail(email) && ValidatePassword(password) && r.calls[0] == CreateAccount(email, password)
    ensures ValidateEmail(email) && ValidatePassword(password) && create.Err? ==>
      r == Outcome(AuthErr(ErrorText(create.error)), [CreateAccount(email, password)])
    ensures ValidateEmail(email) && ValidatePassword(password) && create.Ok? ==>
      (NormalizeDisplayName(displayName).Some? <==> |r.calls| > 1 && r.calls[1].UpdateDisplayName?)
    ensures r.result.AuthOk? <==>
      && ValidateEmail(email) && ValidatePassword(password) && create.Ok?
      && (NormalizeDisplayName(displayName).Some? ==> nameUpdate == None)
      && docWrite == None
    ensures r.result.AuthOk? ==>
      && r.result.user == User(create.value.uid, create.value.email, NormalizeDisplayName(displayName))
      && r.calls != []
      && r.calls[|r.calls| - 1] == WriteUserDoc(UserDoc(
           create.value.uid, AsciiLower(create.value.email), NormalizeDisplayName(displayName), true))
  {
    if !ValidateEmail(email) then Outcome(AuthErr(ErrorText(Thrown("", InvalidEmailText))), [])
    else if !ValidatePassword(password) then Outcome(AuthErr(ErrorText(Thrown("", ShortPasswordText))), [])
    else
      match create
      case Err(e) => Outcome(AuthErr(ErrorText(e)), [CreateAccount(email, password)])
      case Ok(account) =>
        var rest := ProfileSteps(account, NormalizeDisplayName(displayName), nameUpdate, docWrite);
        Outcome(rest.result, [CreateAccount(email, password)] + rest.calls)
  }

  /** When a later step fails, the account has still been created: the
      result is an error, yet the creation call was made. */
  lemma SignupFailureAfterCreation(
    email: string, password: string, displayName: string,
    account: User, nameUpdate: Option<Thrown>, docWrite: Option<Thrown>)
    requires ValidateEmail(email) && ValidatePassword(password)
    requires docWrite.Some?
    ensures var r := Signup(email, password, displayName, Ok(account), nameUpdate, docWrite);
      r.result.AuthErr? && r.calls[0] == CreateAccount(email, password)
  {
  }

  /** What the last-login bookkeeping found: no profile document, a profile
      updated, or a read or write that threw. */
  datatype LastLogin = ProfileMissing | ProfileUpdated | ReadFailed(e: Thrown) | WriteFailed(e: Thrown)

  /** `login(email, password)`: the email must be valid, then the password
      only non-empty. The backend's sign-in answer and the last-login
      bookkeeping are parameters. */
  function Login(email: string, password: string, signIn: Result<User, Thrown>, lastLogin: LastLogin): (r: Outcome)
    ensures !ValidateEmail(email) ==> r == Outcome(AuthErr(InvalidEmailText), [])
    ensures ValidateEmail(email) && password == "" ==> r == Outcome(AuthErr(MissingPasswordText), [])
    ensures r.calls != [] ==> ValidateEmail(email) && password != "" && r.calls[0] == SignIn(email, password)
    ensures r.result.AuthOk? <==> ValidateEmail(email) && password != "" && signIn.Ok?
    ensures r.result.AuthOk? ==> r.result.user == signIn.value
    ensures signIn.Err? && r.calls != [] ==> r.result == AuthErr(ErrorText(signIn.error))
  {
    if !ValidateEmail(email) then Outcome(AuthErr(ErrorText(Thrown("", InvalidEmailText))), [])
    else if password == "" then Outcome(AuthErr(ErrorText(Thrown("", MissingPasswordText))), [])
    else
      var signedIn := [SignIn(email, password)];
      match signIn
      case Err(e) => Outcome(AuthErr(ErrorText(e)), signedIn)
      case Ok(account) =>
        var bookkeeping :=
          match lastLogin
          case ReadFailed(_) => [ReadUserDoc(account.uid)]
          case ProfileMissing => [ReadUserDoc(account.uid)]
          case _ => [ReadUserDoc(account.uid), MergeLastLogin(account.uid)];
        Outcome(AuthOk(User(account.uid, account.email, account.displayName)), signedIn + bookkeeping)
  }

  /** The last-login bookkeeping never changes what `login` returns. */
  lemma LoginIgnoresLastLogin(email: string, password: string, signIn: Result<User, Thrown>, a: LastLogin, b: LastLogin)
    ensures Login(email, password, signIn, a).result == Login(email, password, signIn, b).result
  {
  }

  /** Sign-in checks no password length: a one-character password reaches the
      backend, where sign-up would have refused it. */
  lemma LoginHasNoLengthRule(email: string, signIn: Result<User, Thrown>, lastLogin: LastLogin)
    requires ValidateEmail(email)
    ensures Login(email, "x", signIn, lastLogin).calls[0] == SignIn(email, "x")
    ensures Signup(email, "x", "", Ok(User("u", email, None)), None, None).result == AuthErr(ShortPasswordText)
  {
    assert Utf16Length("x") == 1;
  }
}
