/** The sign-up and login endpoints of backend/src/route/auth.routes.ts: the
    required fields, the password rule the sign-up route checks with a
    regular expression, and how each route answers the outcome of the
    authentication store, which is an input here. */
module Auth {
  import opened Common

  // ---------------------------------------------------------------------
  // The password expression ^(?=.*[a-z])(?=.*[A-Z])(?=.*[^A-Za-z0-9]).{6,30}$

  /** The characters `.` does not match (no `s` flag): the line terminators
      of section 22.2.2.9 of ECMA-262. */
  predicate LineTerminator(c: char) {
    c == '\n' || c == '\r' || c == '\U{2028}' || c == '\U{2029}'
  }

  /** The character classes the expression uses. */
  datatype CharClass = Lower | Upper | NotAlphanumeric

  predicate InClass(c: char, k: CharClass) {
    match k
    case Lower => 'a' <= c <= 'z'
    case Upper => 'A' <= c <= 'Z'
    case NotAlphanumeric => !('a' <= c <= 'z' || 'A' <= c <= 'Z' || '0' <= c <= '9')
  }

  /** Whether the lookahead `(?=.*[k])` succeeds at position `i`: the class
      matches here, or `.` consumes this character and the search goes on. */
  predicate LookaheadAt(s: string, i: nat, k: CharClass)
    decreases |s| - i
  {
    i < |s| && (InClass(s[i], k) || (!LineTerminator(s[i]) && LookaheadAt(s, i + 1, k)))
  }

  /** Whether `.{lo,hi}$` matches from position `i`: stop at the end once at
      least `lo` dots are taken, or take one more dot while fewer than `hi` are. */
  predicate DotsToEnd(s: string, i: nat, lo: int, hi: int)
    decreases |s| - i
  {
    (lo <= 0 && i == |s|)
    || (i < |s| && hi > 0 && !LineTerminator(s[i]) && DotsToEnd(s, i + 1, lo - 1, hi - 1))
  }

  /** `regex.test(password)`, anchored at the start by `^`. */
  predicate PasswordRegexTest(s: string) {
    && LookaheadAt(s, 0, Lower)
    && LookaheadAt(s, 0, Upper)
    && LookaheadAt(s, 0, NotAlphanumeric)
    && DotsToEnd(s, 0, 6, 30)
  }

  /** A lookahead succeeds exactly when a character of the class follows
      with no line terminator before it. */
  lemma {:induction false} LookaheadMeaning(s: string, i: nat, k: CharClass)
    requires i <= |s|
    ensures LookaheadAt(s, i, k) <==>
              exists m :: i <= m < |s| && InClass(s[m], k) && forall j :: i <= j < m ==> !LineTerminator(s[j])
    decreases |s| - i
  {
    if i < |s| {
      LookaheadMeaning(s, i + 1, k);
      if LookaheadAt(s, i, k) && !InClass(s[i], k) {
        var m :| i + 1 <= m < |s| && InClass(s[m], k) && forall j :: i + 1 <= j < m ==> !LineTerminator(s[j]);
        assert forall j :: i <= j < m ==> !LineTerminator(s[j]);
      }
      if m :| i <= m < |s| && InClass(s[m], k) && forall j :: i <= j < m ==> !LineTerminator(s[j]) {
        if m > i {
          assert !LineTerminator(s[i]);
          assert i + 1 <= m < |s| && InClass(s[m], k) && forall j :: i + 1 <= j < m ==> !LineTerminator(s[j]);
        }
      }
    }
  }

  /** `.{lo,hi}$` matches exactly when between `lo` and `hi` characters
      remain and none of them is a line terminator. */
  lemma {:induction false} DotsToEndMeaning(s: string, i: nat, lo: int, hi: int)
    requires i <= |s| && hi >= 0
    ensures DotsToEnd(s, i, lo, hi) <==>
              lo <= |s| - i <= hi && forall j :: i <= j < |s| ==> !LineTerminator(s[j])
    decreases |s| - i
  {
    if i < |s| && hi > 0 {
      DotsToEndMeaning(s, i + 1, lo - 1, hi - 1);
      assert (forall j :: i <= j < |s| ==> !LineTerminator(s[j])) <==>
             !LineTerminator(s[i]) && forall j :: i + 1 <= j < |s| ==> !LineTerminator(s[j]);
    }
  }

  /** Some character of `s` is in class `k`. */
  predicate HasClass(s: string, k: CharClass) {
    exists m :: 0 <= m < |s| && InClass(s[m], k)
  }

  /** The rule in plain words: 6 to 30 characters, none a line terminator,
      with a lowercase letter, an uppercase letter, and a character that is
      neither a letter nor a digit. */
  predicate PasswordRule(s: string) {
    && 6 <= |s| <= 30
    && (forall j :: 0 <= j < |s| ==> !LineTerminator(s[j]))
    && HasClass(s, Lower) && HasClass(s, Upper) && HasClass(s, NotAlphanumeric)
  }

  /** The expression accepts a password exactly when it follows the rule. */
  lemma PasswordRegexMeaning(s: string)
    ensures PasswordRegexTest(s) <==> PasswordRule(s)
  {
    LookaheadMeaning(s, 0, Lower);
    LookaheadMeaning(s, 0, Upper);
    LookaheadMeaning(s, 0, NotAlphanumeric);
    DotsToEndMeaning(s, 0, 6, 30);
    if PasswordRule(s) {
      forall k | k in {Lower, Upper, NotAlphanumeric} ensures LookaheadAt(s, 0, k) {
        LookaheadMeaning(s, 0, k);
        var m :| 0 <= m < |s| && InClass(s[m], k);
        assert forall j :: 0 <= j < m ==> !LineTerminator(s[j]);
      }
    }
  }

  /** A password the expression lets through, and two it refuses. */
  lemma PasswordExamples()
    ensures PasswordRegexTest("Abc!12")
    ensures !PasswordRegexTest("Abc!1")
    ensures !PasswordRegexTest("abc!12")
  {
    PasswordRegexMeaning("Abc!12");
    PasswordRegexMeaning("Abc!1");
    PasswordRegexMeaning("abc!12");
    assert InClass("Abc!12"[0], Upper) && InClass("Abc!12"[1], Lower) && InClass("Abc!12"[3], NotAlphanumeric);
    assert !HasClass("abc!12", Upper) by {
      forall m | 0 <= m < 6 ensures !InClass("abc!12"[m], Upper) {
      }
    }
  }

  // ---------------------------------------------------------------------
  // Routes

  /** A refused request: the HTTP status and the `error` sent, or the 401
      answer to a failed login (sent as `message: "Login failed"`). */
  datatype AuthFailure = Refused(status: int, error: string) | LoginFailed

  const PasswordRuleMessage: string :=
    "Password must be 6-30 characters long, contain lowercase, uppercase and at least 1 special character"

  /** The guards of `POST /signup`: the three fields, then the password expression. */
  function SignupGuard(username: Option<string>, email: Option<string>, password: Option<string>): (r: Option<AuthFailure>)
    ensures !(Truthy(username) && Truthy(email) && Truthy(password)) ==>
              r == Some(Refused(STATUS_BAD_REQUEST, "Username, email and password are required"))
    ensures Truthy(username) && Truthy(email) && Truthy(password) && !PasswordRule(password.value) ==>
              r == Some(Refused(STATUS_BAD_REQUEST, PasswordRuleMessage))
    ensures r.None? <==> Truthy(username) && Truthy(email) && Truthy(password) && PasswordRule(password.value)
  {
    if !Truthy(username) || !Truthy(email) || !Truthy(password) then
      Some(Refused(STATUS_BAD_REQUEST, "Username, email and password are required"))
    else
      PasswordRegexMeaning(password.value);
      if !PasswordRegexTest(password.value) then Some(Refused(STATUS_BAD_REQUEST, PasswordRuleMessage))
      else None
  }

  /** Whether `sub` occurs in `s` (`String.prototype.includes`). */
  predicate Includes(s: string, sub: string) {
    sub <= s || (|s| > 0 && Includes(s[1..], sub))
  }

  /** `POST /signup`: with the guards passed, the outcome of `signUp` (the
      created user's id, or the message it threw) decides the answer; a
      message about an existing account is 400, any other 500. */
  function SignupRoute(username: Option<string>, email: Option<string>, password: Option<string>,
                       signUp: Result<int, string>): (r: Result<int, AuthFailure>)
    ensures SignupGuard(username, email, password).Some? ==> r == Err(SignupGuard(username, email, password).value)
    ensures r.Ok? <==> SignupGuard(username, email, password).None? && signUp.Ok?
    ensures r.Ok? ==> r.value == signUp.value
    ensures SignupGuard(username, email, password).None? && signUp.Err? ==>
              r == Err(Refused(if Includes(signUp.error, "already exists") then STATUS_BAD_REQUEST else STATUS_INTERNAL_ERROR,
                               if signUp.error == "" then "Internal server error" else signUp.error))
  {
    var guard := SignupGuard(username, email, password);
    if guard.Some? then Err(guard.value)
    else match signUp
      case Ok(id) => Ok(id)
      case Err(message) =>
        if Includes(message, "already exists") then Err(Refused(STATUS_BAD_REQUEST, message))
        else Err(Refused(STATUS_INTERNAL_ERROR, if message == "" then "Internal server error" else message))
  }

  /** The user `login` finds, as far as the route reads it. */
  datatype LoginUser = LoginUser(id: int, uid: Option<string>, loginId: Option<int>)

  /** The claims signed into both tokens. */
  datatype TokenPayload = TokenPayload(uid: Option<string>, id: int, loginId: Option<int>)

  /** `POST /login`: both fields are required; then the user `login` found
      with the encoded password (`None` when none matched) decides between
      401 and the token claims of that user. */
  function LoginRoute(username: Option<string>, password: Option<string>, found: Option<LoginUser>)
    : (r: Result<TokenPayload, AuthFailure>)
    ensures !(Truthy(username) && Truthy(password)) ==>
              r == Err(Refused(STATUS_BAD_REQUEST, "Username and password are required"))
    ensures Truthy(username) && Truthy(password) && found.None? ==> r == Err(LoginFailed)
    ensures r.Ok? <==> Truthy(username) && Truthy(password) && found.Some?
    ensures r.Ok? ==> r.value.id == found.value.id && r.value.uid == found.value.uid && r.value.loginId == found.value.loginId
  {
    if !Truthy(username) || !Truthy(password) then Err(Refused(STATUS_BAD_REQUEST, "Username and password are required"))
    else match found
      case None => Err(LoginFailed)
      case Some(u) => Ok(TokenPayload(u.uid, u.id, u.loginId))
  }
}
