/**
 * Account creation: the e-mail syntax check and the order of SignupHandler's checks
 * before it inserts the new user. The e-mail pattern is
 * local "@" domain "." tld, with local over [A-Za-z0-9._%+-], domain over
 * [A-Za-z0-9.-], both non-empty, and tld at least two ASCII letters, anchored at
 * both ends.
 */
module Auth {
  import opened Wrappers
  import opened Password

  // ---------------------------------------------------------------------------
  // Character classes of the pattern
  // ---------------------------------------------------------------------------

  predicate IsLetter(c: char) { 'a' <= c <= 'z' || 'A' <= c <= 'Z' }
  predicate IsAlnum(c: char) { IsLetter(c) || '0' <= c <= '9' }
  predicate IsLocalChar(c: char) { IsAlnum(c) || c == '.' || c == '_' || c == '%' || c == '+' || c == '-' }
  predicate IsDomainChar(c: char) { IsAlnum(c) || c == '.' || c == '-' }

  // ---------------------------------------------------------------------------
  // The pattern, declaratively
  // ---------------------------------------------------------------------------

  /** `s` is local + "@" + domain + "." + tld with the '@' at `at` and that '.' at `dot`. */
  predicate SplitsAt(s: string, at: int, dot: int) {
    && 0 < at && at + 1 < dot && dot < |s| - 2
    && s[at] == '@' && s[dot] == '.'
    && (forall k :: 0 <= k < at ==> IsLocalChar(s[k]))
    && (forall k :: at < k < dot ==> IsDomainChar(s[k]))
    && (forall k :: dot < k < |s| ==> IsLetter(s[k]))
  }

  /** What the regular expression accepts: some split of the whole string fits it. */
  ghost predicate MatchesEmailPattern(s: string) {
    exists at, dot :: SplitsAt(s, at, dot)
  }

  // ---------------------------------------------------------------------------
  // The recogniser
  // ---------------------------------------------------------------------------

  /** The first position of `c` in `s`, or -1. */
  function IndexOf(s: string, c: char): (r: int)
    ensures -1 <= r < |s|
    ensures r >= 0 ==> s[r] == c && forall k :: 0 <= k < r ==> s[k] != c
    ensures r == -1 ==> forall k :: 0 <= k < |s| ==> s[k] != c
  {
    if s == [] then -1
    else if s[0] == c then 0
    else
      var r := IndexOf(s[1..], c);
      if r == -1 then -1 else r + 1
  }

  /** The last position of `c` in `s`, or -1. */
  function LastIndexOf(s: string, c: char): (r: int)
    ensures -1 <= r < |s|
    ensures r >= 0 ==> s[r] == c && forall k :: r < k < |s| ==> s[k] != c
    ensures r == -1 ==> forall k :: 0 <= k < |s| ==> s[k] != c
  {
    if s == [] then -1
    else if s[|s| - 1] == c then |s| - 1
    else LastIndexOf(s[..|s| - 1], c)
  }

  /**
   * isValidEmail. Neither class admits '@', so the '@' is the first one; the tld
   * admits no '.', so the separating '.' is the last one.
   */
  function IsValidEmail(email: string): (ok: bool)
    ensures ok <==> MatchesEmailPattern(email)
  {
    var at := IndexOf(email, '@');
    var dot := LastIndexOf(email, '.');
    var ok := SplitsAt(email, at, dot);
    EmailRecogniser(email, at, dot);
    ok
  }

  /** The first '@' and the last '.' are the only candidates for a split. */
  lemma EmailRecogniser(email: string, at: int, dot: int)
    requires at == IndexOf(email, '@') && dot == LastIndexOf(email, '.')
    ensures SplitsAt(email, at, dot) <==> MatchesEmailPattern(email)
  {
    if a, d :| SplitsAt(email, a, d) {
      SplitIsUnique(email, a, d, at, dot);
    }
  }

  lemma SplitIsUnique(email: string, a: int, d: int, at: int, dot: int)
    requires SplitsAt(email, a, d)
    requires at == IndexOf(email, '@') && dot == LastIndexOf(email, '.')
    ensures a == at && d == dot
  {
  }

  /** A valid address has exactly one '@'. */
  lemma ExactlyOneAt(email: string)
    requires IsValidEmail(email)
    ensures exists i :: 0 <= i < |email| && email[i] == '@'
    ensures forall i, j :: 0 <= i < |email| && 0 <= j < |email| && email[i] == '@' && email[j] == '@' ==> i == j
  {
    var at, dot :| SplitsAt(email, at, dot);
    assert email[at] == '@';
  }

  /** With no '.' after the '@' the address is refused. */
  lemma NoDotAfterAtIsInvalid(email: string, at: int)
    requires 0 <= at < |email| && email[at] == '@'
    requires forall k :: at < k < |email| ==> email[k] != '.'
    ensures !IsValidEmail(email)
  {
  }

  /** A final segment of a single character is refused. */
  lemma OneLetterTldIsInvalid(email: string)
    requires |email| >= 2 && email[|email| - 2] == '.'
    ensures !IsValidEmail(email)
  {
  }

  lemma EmailExamples()
    ensures IsValidEmail("jane.doe@example.com")
    ensures !IsValidEmail("jane.doe@example")
    ensures !IsValidEmail("jane@example.c")
    ensures !IsValidEmail("@example.com")
  {
    assert SplitsAt("jane.doe@example.com", 8, 16);
    NoDotAfterAtIsInvalid("jane.doe@example", 8);
    OneLetterTldIsInvalid("jane@example.c");
  }

  // ---------------------------------------------------------------------------
  // SignupHandler
  // ---------------------------------------------------------------------------

  const StatusFound := 302
  const StatusBadRequest := 400
  const StatusInternalServerError := 500

  /** The row SignupHandler inserts into the users table. */
  datatype NewUser = NewUser(email: string, name: string, password: string, isPremium: bool)

  datatype Response = ErrorResponse(status: int, message: string) | Redirect(status: int, location: string)

  /** What a signup attempt answers, and the row it inserted if any. */
  datatype Signup = Signup(response: Response, inserted: Option<NewUser>)

  /** The form fields the handler reads; a missing one reads as "". */
  function Field(form: map<string, string>, name: string): string {
    if name in form then form[name] else ""
  }

  /**
   * SignupHandler. `session` is the session store's error, `connection` the connection
   * manager's, `insert` the INSERT's; each is consulted only if the handler gets that far.
   */
  function SignupHandler(session: Option<string>, form: map<string, string>,
                         connection: Option<string>, insert: Option<string>): (r: Signup)
    ensures r.inserted.Some? <==> r.response == Redirect(StatusFound, "/login")
    ensures r.inserted.Some? ==>
              && session.None? && connection.None? && insert.None?
              && r.inserted.value == NewUser(Field(form, "email"), Field(form, "name"), Field(form, "password"), false)
              && Field(form, "email") != "" && Field(form, "name") != ""
              && IsValidEmail(Field(form, "email"))
              && Utf8Len(Field(form, "password")) >= MinPasswordLength
    ensures && session.None? && connection.None? && insert.None?
            && Field(form, "email") != "" && Field(form, "name") != ""
            && IsValidEmail(Field(form, "email"))
            && Utf8Len(Field(form, "password")) >= MinPasswordLength
            ==> r.inserted == Some(NewUser(Field(form, "email"), Field(form, "name"), Field(form, "password"), false))
  {
    var email, name, password := Field(form, "email"), Field(form, "name"), Field(form, "password");
    if session.Some? then Signup(ErrorResponse(StatusInternalServerError, "Session error"), None)
    else if email == "" || name == "" then Signup(ErrorResponse(StatusBadRequest, "Email and name cannot be empty"), None)
    else if !IsValidEmail(email) then Signup(ErrorResponse(StatusBadRequest, "Invalid email format"), None)
    else if Utf8Len(password) < 8 then
      Signup(ErrorResponse(StatusBadRequest, "Password must be at least 8 characters long"), None)
    else if connection.Some? then Signup(ErrorResponse(StatusInternalServerError, connection.value), None)
    else if insert.Some? then Signup(ErrorResponse(StatusInternalServerError, insert.value), None)
    else Signup(Redirect(StatusFound, "/login"), Some(NewUser(email, name, password, false)))
  }

  /** The three input checks run in order, and each refusal names the first that failed. */
  lemma SignupCheckOrder(form: map<string, string>, connection: Option<string>, insert: Option<string>)
    ensures var r := SignupHandler(None, form, connection, insert);
            && (Field(form, "email") == "" || Field(form, "name") == "" ==>
                  r.response == ErrorResponse(StatusBadRequest, "Email and name cannot be empty"))
            && (Field(form, "email") != "" && Field(form, "name") != "" && !IsValidEmail(Field(form, "email")) ==>
                  r.response == ErrorResponse(StatusBadRequest, "Invalid email format"))
            && (Field(form, "email") != "" && Field(form, "name") != "" && IsValidEmail(Field(form, "email"))
                && Utf8Len(Field(form, "password")) < MinPasswordLength ==>
                  r.response == ErrorResponse(StatusBadRequest, "Password must be at least 8 characters long"))
  {
  }

  /**
   * Signup checks only the password's length: a password the strength check refuses
   * for its content is still stored as typed.
   */
  lemma WeakPasswordIsAccepted()
    ensures Strength("password") == Some(NoUppercase)
    ensures SignupHandler(None, map["email" := "jane.doe@example.com", "name" := "Jane", "password" := "password"],
                          None, None).inserted
            == Some(NewUser("jane.doe@example.com", "Jane", "password", false))
  {
    assert IsAscii("password");
    AsciiUtf8Len("password");
    assert !HasUpper("password");
    var form := map["email" := "jane.doe@example.com", "name" := "Jane", "password" := "password"];
    assert Field(form, "email") == "jane.doe@example.com";
    assert Field(form, "name") == "Jane";
    assert Field(form, "password") == "password";
    EmailExamples();
  }
}
