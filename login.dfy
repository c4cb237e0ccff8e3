/**
 * The sign-in form: its two fields, the error messages it shows, the client-side checks that
 * run before a login request, and the guard of the reset-link request. The server's answer is a
 * parameter (`AuthReply`); the token cookie and navigation are reduced to the `token` field.
 */
module Login {
  import opened Wrappers
  import opened JsText

  /** The messages shown under the fields and above the form; `None` is an absent key. */
  datatype Errors = Errors(email: Option<string>, password: Option<string>, general: Option<string>)

  const NoErrors := Errors(None, None, None)

  /** The named inputs of the form. */
  datatype Field = Email | Password

  /** How a request to the auth server ended: OK, answered with an error body, or thrown. */
  datatype AuthReply =
    | Accepted(token: string)
    | Refused(message: Option<string>)
    | Unreachable

  /** A JavaScript string in a boolean position: present and not empty. */
  predicate Truthy(v: Option<string>) {
    v.Some? && v.value != ""
  }

  /** `data.message || fallback`. */
  function MessageOr(message: Option<string>, fallback: string): (r: string)
    ensures Truthy(message) ==> r == message.value
    ensures !Truthy(message) ==> r == fallback
  {
    if Truthy(message) then message.value else fallback
  }

  /**
   * `/\S+@\S+\.\S+/` finds a match with its `@` at `j` and its `.` at `k`: a non-space just before
   * the `@`, one or more non-spaces between the two, and a non-space just after the `.`.
   */
  ghost predicate MatchAt(s: string, j: int, k: int) {
    1 <= j < |s| && s[j] == '@' && !IsWhitespace(s[j - 1]) && DotAfter(s, j, k)
  }

  /** The part of a match after its `@` at `j`: non-spaces, then the `.` at `k`, then a non-space. */
  ghost predicate DotAfter(s: string, j: int, k: int) {
    && 0 <= j && j + 2 <= k && k + 1 < |s|
    && s[k] == '.' && !IsWhitespace(s[k + 1])
    && (forall m :: j < m < k ==> !IsWhitespace(s[m]))
  }

  /** `/\S+@\S+\.\S+/.test(s)`: the pattern matches somewhere in `s`. */
  ghost predicate EmailPattern(s: string) {
    exists j, k :: MatchAt(s, j, k)
  }

  /**
   * Scanning the run of non-spaces after the `@` at `j`, from position `k` on: is there a `.`
   * at least two places after the `@` with a non-space right after it?
   */
  function DotInRun(s: string, j: nat, k: nat): (found: bool)
    requires j + 1 <= k <= |s|
    requires forall m :: j < m < k ==> !IsWhitespace(s[m])
    ensures found <==> exists k' :: k <= k' && DotAfter(s, j, k')
    decreases |s| - k
  {
    if k == |s| || IsWhitespace(s[k]) then
      false
    else if j + 2 <= k && s[k] == '.' && k + 1 < |s| && !IsWhitespace(s[k + 1]) then
      assert DotAfter(s, j, k);
      true
    else
      var rest := DotInRun(s, j, k + 1);
      assert forall k' :: k <= k' && DotAfter(s, j, k') ==> k + 1 <= k';
      rest
  }

  /** Scanning for an `@` at position `j` or later that begins a match. */
  function AtFrom(s: string, j: nat): (found: bool)
    requires j <= |s|
    ensures found <==> exists j', k :: j <= j' && MatchAt(s, j', k)
    decreases |s| - j
  {
    if j == |s| then
      false
    else if 1 <= j && s[j] == '@' && !IsWhitespace(s[j - 1]) && DotInRun(s, j, j + 1) then
      assert exists k :: MatchAt(s, j, k) by {
        var k :| j + 1 <= k && DotAfter(s, j, k);
        assert MatchAt(s, j, k);
      }
      true
    else
      var rest := AtFrom(s, j + 1);
      assert forall j', k :: j <= j' && MatchAt(s, j', k) && j' == j ==> DotInRun(s, j, j + 1);
      rest
  }

  /** The regular-expression test of `validateForm`. */
  function HasEmailShape(s: string): (ok: bool)
    ensures ok <==> EmailPattern(s)
  {
    AtFrom(s, 0)
  }

  /** The email check of `validateForm`: required after trimming, then the pattern. */
  function EmailError(email: string): (e: Option<string>)
    ensures IsBlank(email) ==> e == Some("Email is required")
    ensures !IsBlank(email) && !EmailPattern(email) ==> e == Some("Please enter a valid email address")
    ensures e == None <==> EmailPattern(email)
  {
    TrimEmptyIffBlank(email);
    PatternIsNotBlank(email);
    if Trim(email) == [] then Some("Email is required")
    else if !HasEmailShape(email) then Some("Please enter a valid email address")
    else None
  }

  /** The password check of `validateForm`: required, then at least 6 characters. */
  function PasswordError(password: string): (e: Option<string>)
    ensures password == "" ==> e == Some("Password is required")
    ensures 0 < |password| < 6 ==> e == Some("Password must be at least 6 characters")
    ensures e == None <==> |password| >= 6
  {
    if password == "" then Some("Password is required")
    else if |password| < 6 then Some("Password must be at least 6 characters")
    else None
  }

  /** A string the pattern matches holds a non-space (its `@`), so it is not blank. */
  lemma PatternIsNotBlank(s: string)
    ensures EmailPattern(s) ==> !IsBlank(s)
  {
    if EmailPattern(s) {
      var j, k :| MatchAt(s, j, k);
      assert !IsWhitespace(s[j]);
    }
  }

  /** Concrete inputs: what the check accepts and rejects. */
  lemma EmailExamples()
    ensures EmailError("a@b.c") == None
    ensures EmailError("  ") == Some("Email is required")
    ensures EmailError("a@b") == Some("Please enter a valid email address")
    ensures EmailError("a@.c") == Some("Please enter a valid email address")
  {
    assert MatchAt("a@b.c", 1, 3);
    assert !IsWhitespace("a@b"[1]);
    assert !IsWhitespace("a@.c"[1]);
  }

  /** The sign-in page's state. */
  class LoginForm {
    var email: string
    var password: string
    var errors: Errors
    var loading: bool
    var showToast: bool
    /** The token stored after a successful login (the cookie and the auth context). */
    var token: Option<string>

    constructor ()
      ensures email == "" && password == "" && errors == NoErrors
      ensures !loading && !showToast && token == None
    {
      email := "";
      password := "";
      errors := NoErrors;
      loading := false;
      showToast := false;
      token := None;
    }

    /** `validateForm`: collect the two messages, show them, and pass iff there are none. */
    method ValidateForm() returns (valid: bool)
      modifies this
      ensures errors == Errors(EmailError(email), PasswordError(password), None)
      ensures valid <==> EmailPattern(email) && |password| >= 6
      ensures email == old(email) && password == old(password) && loading == old(loading)
      ensures showToast == old(showToast) && token == old(token)
    {
      var newErrors := NoErrors;
      var e := EmailError(email);
      if e.Some? {
        newErrors := newErrors.(email := e);
      }
      var p := PasswordError(password);
      if p.Some? {
        newErrors := newErrors.(password := p);
      }
      errors := newErrors;
      valid := newErrors.email.None? && newErrors.password.None?;
    }

    /** `handleInputChange`: set the field; blank its message only if one is showing. */
    method HandleInputChange(name: Field, value: string)
      modifies this
      ensures name == Email ==> email == value && password == old(password)
      ensures name == Password ==> password == value && email == old(email)
      ensures name == Email ==> errors == old(errors).(email := if Truthy(old(errors).email) then Some("") else old(errors).email)
      ensures name == Password ==> errors == old(errors).(password := if Truthy(old(errors).password) then Some("") else old(errors).password)
      ensures loading == old(loading) && showToast == old(showToast) && token == old(token)
    {
      match name
      case Email =>
        email := value;
        if Truthy(errors.email) {
          errors := errors.(email := Some(""));
        }
      case Password =>
        password := value;
        if Truthy(errors.password) {
          errors := errors.(password := Some(""));
        }
    }

    /**
     * `handleLogin`: no request unless the form validates; then the reply decides between
     * storing the token and showing a general message. `loading` is false again at the end.
     */
    method HandleLogin(reply: AuthReply) returns (requested: bool)
      modifies this
      ensures requested <==> EmailPattern(email) && |password| >= 6
      ensures !requested ==> errors == Errors(EmailError(email), PasswordError(password), None)
                             && token == old(token) && loading == old(loading)
      ensures requested ==> !loading && match reply
        case Accepted(t) => token == Some(t) && errors == NoErrors
        case Refused(m) => token == old(token) && errors == Errors(None, None, Some(MessageOr(m, "Login failed")))
        case Unreachable => token == old(token) && errors == Errors(None, None, Some("Something went wrong"))
      ensures email == old(email) && password == old(password) && showToast == old(showToast)
    {
      requested := ValidateForm();
      if !requested {
        return;
      }
      loading := true;
      match reply {
        case Accepted(t) =>
          token := Some(t);
        case Refused(m) =>
          errors := Errors(None, None, Some(MessageOr(m, "Login failed")));
        case Unreachable =>
          errors := Errors(None, None, Some("Something went wrong"));
      }
      loading := false;
    }

    /**
     * `handleForgetPassword`: an empty email (not trimmed) shows only the email message and
     * sends nothing; otherwise the messages are cleared and the reply decides.
     */
    method HandleForgetPassword(reply: AuthReply) returns (requested: bool)
      modifies this
      ensures requested <==> old(email) != ""
      ensures !requested ==> errors == Errors(Some("Please enter email"), None, None) && showToast == old(showToast)
      ensures requested ==> match reply
        case Accepted(_) => errors == NoErrors && showToast
        case Refused(m) => errors == Errors(None, None, Some(MessageOr(m, "Failed to send reset email")))
                           && showToast == old(showToast)
        case Unreachable => errors == Errors(None, None, Some("Something went wrong. Try again later."))
                            && showToast == old(showToast)
      ensures email == old(email) && password == old(password) && loading == old(loading) && token == old(token)
    {
      if email == "" {
        errors := Errors(Some("Please enter email"), None, None);
        return false;
      }
      errors := NoErrors;
      requested := true;
      match reply
      case Accepted(_) =>
        showToast := true;
      case Refused(m) =>
        errors := Errors(None, None, Some(MessageOr(m, "Failed to send reset email")));
      case Unreachable =>
        errors := Errors(None, None, Some("Something went wrong. Try again later."));
    }
  }
}
