/**
 * The login page: the email pattern and password-length checks that guard the request, what a
 * successful login writes to browser storage (the token and the remembered email), and the
 * loading flag around the request.
 */
module Login {
  import opened Wrappers
  import opened Text

  /** The key the token is stored under. */
  const TOKEN_KEY := "token"

  /** The key a successful login writes the remembered email under. */
  const REMEMBER_KEY := "rememberEmail"

  /** The key the page reads the remembered email from when it opens. */
  const RESTORE_KEY_AS_WRITTEN := "crm:rememberEmail"

  /** A character the email pattern's runs allow: `[^\s@]`. */
  predicate RunChar(c: char) {
    c != '@' && !IsJsSpace(c)
  }

  /**
   * `/^[^\s@]+@[^\s@]+\.[^\s@]+$/` matches `s` with its '@' at `i` and the chosen '.' at `j`:
   * a non-empty run, '@', a non-empty run, '.', a non-empty run, every run free of
   * whitespace and '@'.
   */
  predicate MatchesAt(s: string, i: int, j: int) {
    0 < i && i + 1 < j && j + 1 < |s| && s[i] == '@' && s[j] == '.'
    && forall k :: 0 <= k < |s| && k != i ==> RunChar(s[k])
  }

  /** The email pattern, as a regular-expression match: some '@' and some '.' split `s` as it demands. */
  ghost predicate EmailPattern(s: string) {
    exists i, j :: MatchesAt(s, i, j)
  }

  /** The position of the first `c` in `s`, or `|s|` when there is none. */
  function FirstIndex(s: string, c: char): (i: nat)
    ensures i <= |s|
    ensures i < |s| ==> s[i] == c
    ensures forall k :: 0 <= k < i ==> s[k] != c
  {
    if s == [] then 0 else if s[0] == c then 0 else 1 + FirstIndex(s[1..], c)
  }

  /**
   * `emailRegex.test(email)`, decided in one pass: the first '@' has a non-empty run before
   * it, it is the only '@', nothing is whitespace, and a '.' follows it with at least one
   * character on each side.
   */
  function ValidEmail(s: string): bool {
    var i := FirstIndex(s, '@');
    1 <= i && i + 3 < |s|
    && (forall k :: 0 <= k < |s| && k != i ==> RunChar(s[k]))
    && '.' in s[i + 2..|s| - 1]
  }

  /** The one-pass check accepts exactly the strings the pattern matches. */
  lemma ValidEmailMatchesPattern(s: string)
    ensures ValidEmail(s) <==> EmailPattern(s)
  {
    var i := FirstIndex(s, '@');
    if ValidEmail(s) {
      var tail := s[i + 2..|s| - 1];
      var m :| 0 <= m < |tail| && tail[m] == '.';
      assert s[i + 2 + m] == tail[m];
      assert MatchesAt(s, i, i + 2 + m);
    }
    if EmailPattern(s) {
      var i', j :| MatchesAt(s, i', j);
      assert i == i';
      assert s[i + 2..|s| - 1][j - i - 2] == s[j];
    }
  }

  /**
   * `password.trim().length >= 6`: at least six UTF-16 code units between the first and last
   * non-space, an astral character counting twice.
   */
  function PasswordLongEnough(p: string): (ok: bool)
    ensures ok ==> Utf16Length(p) >= 6 && |p| >= 3 && !AllSpace(p)
  {
    TrimUtf16Shorter(p);
    Utf16Length(Trim(p)) >= 6
  }

  /** Three emoji pass the check: `length` counts each as two code units. */
  lemma AstralPasswordCountsTwice()
    ensures var p := "\U{1F600}\U{1F600}\U{1F600}";
      |p| == 3 && PasswordLongEnough(p)
  {
    var p := "\U{1F600}\U{1F600}\U{1F600}";
    TrimPadded("", p, "");
    assert "" + p + "" == p;
  }

  /** A password of whitespace only is too short, however long it is. */
  lemma PaddedPasswordRejected(p: string)
    requires |p| >= 6 && AllSpace(p)
    ensures !PasswordLongEnough(p)
  {
  }

  /**
   * Whitespace around the password does not count towards its length: padded on both sides,
   * a password is long enough exactly when its core is.
   */
  lemma PaddedPasswordJudgedByCore(a: string, c: string, b: string)
    requires AllSpace(a) && AllSpace(b)
    requires c != [] && !IsJsSpace(c[0]) && !IsJsSpace(c[|c| - 1])
    ensures PasswordLongEnough(a + c + b) <==> Utf16Length(c) >= 6
  {
    TrimPadded(a, c, b);
  }

  /** The body the page posts. */
  datatype Credentials = Credentials(email: string, password: string)

  /** The backend's answer to the post: a token, or a rejection with an optional message. */
  datatype LoginReply = Token(token: string) | Rejected(message: Option<string>)

  /** Which toast the page shows. */
  datatype Toast = ErrorToast(text: string) | SuccessToast(text: string)

  /** The error toast of a rejected login: the server's message when it has one. */
  function FailureText(message: Option<string>): (r: string)
    ensures Truthy(message) ==> r == message.value
    ensures !Truthy(message) ==> r == "Login failed. Try again."
  {
    if Truthy(message) then message.value else "Login failed. Try again."
  }

  /** Storage after a successful login: the token stored, the email remembered or forgotten. */
  function StorageAfterLogin(storage: map<string, string>, token: string, remember: bool, email: string): (r: map<string, string>)
    ensures TOKEN_KEY in r && r[TOKEN_KEY] == token
    ensures remember ==> REMEMBER_KEY in r && r[REMEMBER_KEY] == email
    ensures !remember ==> REMEMBER_KEY !in r
    ensures forall key :: key != TOKEN_KEY && key != REMEMBER_KEY ==>
      (key in r <==> key in storage) && (key in storage ==> r[key] == storage[key])
  {
    var withToken := storage[TOKEN_KEY := token];
    if remember then withToken[REMEMBER_KEY := email] else withToken - {REMEMBER_KEY}
  }

  /** The email the page starts with when it reads `key`: the stored value if it is non-empty. */
  function RestoredEmail(storage: map<string, string>, key: string): (r: Option<string>)
    ensures r.Some? <==> key in storage && storage[key] != ""
    ensures r.Some? ==> r.value == storage[key]
  {
    if key in storage && storage[key] != "" then Some(storage[key]) else None
  }

  /**
   * As written, the page reads a key no login ever writes: unless something else stored it,
   * a remembered email is never restored, however many logins remember it.
   */
  lemma RememberedEmailNeverRestored(storage: map<string, string>, token: string, remember: bool, email: string)
    requires RESTORE_KEY_AS_WRITTEN !in storage
    ensures RestoredEmail(StorageAfterLogin(storage, token, remember, email), RESTORE_KEY_AS_WRITTEN) == None
  {
    assert RESTORE_KEY_AS_WRITTEN != TOKEN_KEY && RESTORE_KEY_AS_WRITTEN != REMEMBER_KEY;
  }

  /** Reading the key that is written, a login that remembers a non-empty email restores it. */
  lemma RestoreEmailCorrected(storage: map<string, string>, token: string, email: string)
    requires email != ""
    ensures RestoredEmail(StorageAfterLogin(storage, token, true, email), REMEMBER_KEY) == Some(email)
  {
  }

  /** A login that does not remember the email leaves nothing to restore. */
  lemma ForgetEmailCorrected(storage: map<string, string>, token: string, email: string)
    ensures RestoredEmail(StorageAfterLogin(storage, token, false, email), REMEMBER_KEY) == None
  {
  }

  /** The login page's state, with browser storage as a map. */
  class LoginPage {
    var email: string
    var password: string
    var remember: bool
    var loading: bool
    var storage: map<string, string>

    /** A fresh page: empty fields, "remember me" on, not loading. */
    constructor (storage0: map<string, string>)
      ensures email == "" && password == "" && remember && !loading && storage == storage0
    {
      email := "";
      password := "";
      remember := true;
      loading := false;
      storage := storage0;
    }

    /**
     * The mount effect, as written: a non-empty value under the key the page reads fills the
     * field, and without that key the field keeps what it had, whatever a login remembered.
     */
    method RestoreEmail()
      modifies this`email
      ensures email == RestoredEmail(storage, RESTORE_KEY_AS_WRITTEN).GetOr(old(email))
      ensures RESTORE_KEY_AS_WRITTEN !in storage ==> email == old(email)
    {
      var saved := RestoredEmail(storage, RESTORE_KEY_AS_WRITTEN);
      if saved.Some? {
        email := saved.value;
      }
    }

    /** The storage writes of a successful login: the token, then the email remembered or forgotten. */
    method StoreLogin(token: string, remember: bool, email: string)
      modifies this`storage
      ensures storage == StorageAfterLogin(old(storage), token, remember, email)
    {
      storage := storage[TOKEN_KEY := token];
      if remember {
        storage := storage[REMEMBER_KEY := email];
      } else {
        storage := storage - {REMEMBER_KEY};
      }
    }

    /**
     * `handleSubmit`: an invalid email, then a short password, stops with an error toast and no
     * request; otherwise the credentials are posted, a token reply is stored with the remembered
     * email, and the loading flag, raised for the request, is down again on every path.
     */
    method HandleSubmit(reply: LoginReply) returns (request: Option<Credentials>, loadingDuringRequest: bool, toast: Toast)
      modifies this`loading, this`storage
      ensures !ValidEmail(old(email)) ==>
        (request == None && toast == ErrorToast("Enter a valid email address.") && storage == old(storage))
      ensures ValidEmail(old(email)) && !PasswordLongEnough(old(password)) ==>
        (request == None && toast == ErrorToast("Password must be at least 6 characters.") && storage == old(storage))
      ensures request.Some? <==> ValidEmail(old(email)) && PasswordLongEnough(old(password))
      ensures request.Some? ==> request.value == Credentials(old(email), old(password)) && loadingDuringRequest
      ensures request.Some? && reply.Token? ==>
        (storage == StorageAfterLogin(old(storage), reply.token, old(remember), old(email))
         && toast == SuccessToast("Login successful!"))
      ensures request.Some? && reply.Rejected? ==>
        (storage == old(storage) && toast == ErrorToast(FailureText(reply.message)))
      ensures request.None? ==> loading == old(loading)
      ensures request.Some? ==> !loading
    {
      loadingDuringRequest := loading;
      var e, pw, rem := email, password, remember;
      var emailOk := ValidEmail(e);
      var passwordOk := PasswordLongEnough(pw);
      if !emailOk {
        return None, loadingDuringRequest, ErrorToast("Enter a valid email address.");
      }
      if !passwordOk {
        return None, loadingDuringRequest, ErrorToast("Password must be at least 6 characters.");
      }
      loading := true;
      request := Some(Credentials(e, pw));
      loadingDuringRequest := loading;
      match reply {
        case Token(token) =>
          StoreLogin(token, rem, e);
          toast := SuccessToast("Login successful!");
        case Rejected(message) =>
          toast := ErrorToast(FailureText(message));
      }
      loading := false;
    }
  }
}
