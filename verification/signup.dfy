/** The sign-up form's client-side checks: the password strength meter, the
    e-mail pattern, the ordered validation run on submit, the strength label
    and the handling of the server's answer. */
module SignUp {
  import opened Wrappers

  predicate IsUpper(c: char) { 'A' <= c <= 'Z' }
  predicate IsLower(c: char) { 'a' <= c <= 'z' }
  predicate IsDigit(c: char) { '0' <= c <= '9' }
  predicate IsAlnum(c: char) { IsUpper(c) || IsLower(c) || IsDigit(c) }

  /** The characters JavaScript's `\s` matches. */
  predicate IsSpace(c: char)
  {
    c == ' ' || c == '\t' || c == '\n' || c == '\r' || c == '\U{000B}' || c == '\U{000C}' ||
    c == '\U{00A0}' || c == '\U{1680}' || ('\U{2000}' <= c <= '\U{200A}') ||
    c == '\U{2028}' || c == '\U{2029}' || c == '\U{202F}' || c == '\U{205F}' ||
    c == '\U{3000}' || c == '\U{FEFF}'
  }

  /** `/[A-Z]/`, `/[0-9]/` and `/[^A-Za-z0-9]/`: some character of the class. */
  predicate HasUpper(p: string) { exists i :: 0 <= i < |p| && IsUpper(p[i]) }
  predicate HasDigit(p: string) { exists i :: 0 <= i < |p| && IsDigit(p[i]) }
  predicate HasSymbol(p: string) { exists i :: 0 <= i < |p| && !IsAlnum(p[i]) }

  /** A password that meets all four criteria of the meter. */
  predicate Strong(p: string)
  {
    |p| >= 8 && HasUpper(p) && HasDigit(p) && HasSymbol(p)
  }

  /** How many of the four criteria a password meets. */
  function CriteriaMet(p: string): (n: nat)
    ensures n <= 4
    ensures n == 4 <==> Strong(p)
    ensures n == 0 <==> |p| < 8 && !HasUpper(p) && !HasDigit(p) && !HasSymbol(p)
  {
    (if |p| >= 8 then 1 else 0) + (if HasUpper(p) then 1 else 0) +
    (if HasDigit(p) then 1 else 0) + (if HasSymbol(p) then 1 else 0)
  }

  /** The strength meter: 25 points per criterion met. */
  method CheckPasswordStrength(password: string) returns (strength: int)
    ensures strength == 25 * CriteriaMet(password)
    ensures strength in {0, 25, 50, 75, 100}
    ensures strength == 100 <==> Strong(password)
  {
    strength := 0;
    if |password| >= 8 { strength := strength + 25; }
    if HasUpper(password) { strength := strength + 25; }
    if HasDigit(password) { strength := strength + 25; }
    if HasSymbol(password) { strength := strength + 25; }
  }

  /** The label under the strength bar. */
  function StrengthLabel(strength: int): string
  {
    if strength < 50 then "Weak" else if strength < 75 then "Medium" else "Strong"
  }

  /** On the meter's own scores the label reads the number of criteria met:
      at most one is Weak, two is Medium, three or four is Strong. */
  lemma LabelByCriteria(p: string)
    ensures StrengthLabel(25 * CriteriaMet(p)) ==
      if CriteriaMet(p) <= 1 then "Weak" else if CriteriaMet(p) == 2 then "Medium" else "Strong"
  {
  }

  // ---------------------------------------------------------------------------
  // The e-mail pattern

  /** No '@' and no white space: the class `[^\s@]`. */
  predicate Plain(s: string)
  {
    forall k :: 0 <= k < |s| ==> s[k] != '@' && !IsSpace(s[k])
  }

  /** `/^[^\s@]+@[^\s@]+\.[^\s@]+$/`: a non-empty plain run, '@', a non-empty
      plain run, '.', a non-empty plain run, and nothing else. */
  predicate ValidateEmail(s: string)
  {
    exists i, j :: 0 < i && i + 1 < j && j + 1 < |s| && s[i] == '@' && s[j] == '.' &&
      Plain(s[..i]) && Plain(s[i + 1..j]) && Plain(s[j + 1..])
  }

  predicate NoSpace(s: string)
  {
    forall k :: 0 <= k < |s| ==> !IsSpace(s[k])
  }

  /** The shape the pattern describes: no white space, exactly one '@', at
      least one character before it, and after it a domain holding a '.'
      that is neither the domain's first nor its last character. */
  predicate EmailShape(s: string)
  {
    NoSpace(s) &&
    exists i :: 0 < i < |s| && s[i] == '@' &&
      (forall k :: 0 <= k < |s| && k != i ==> s[k] != '@') &&
      (exists j :: i + 1 < j < |s| - 1 && s[j] == '.')
  }

  lemma EmailPatternIsShape(s: string)
    ensures ValidateEmail(s) <==> EmailShape(s)
  {
    if ValidateEmail(s) {
      var i, j :| 0 < i && i + 1 < j && j + 1 < |s| && s[i] == '@' && s[j] == '.' &&
        Plain(s[..i]) && Plain(s[i + 1..j]) && Plain(s[j + 1..]);
      forall k | 0 <= k < |s| && k != i ensures s[k] != '@' && !IsSpace(s[k]) {
        if k < i {
          assert s[..i][k] == s[k];
        } else if k < j {
          assert s[i + 1..j][k - i - 1] == s[k];
        } else if k > j {
          assert s[j + 1..][k - j - 1] == s[k];
        }
      }
      assert NoSpace(s);
    }
    if EmailShape(s) {
      var i :| 0 < i < |s| && s[i] == '@' &&
        (forall k :: 0 <= k < |s| && k != i ==> s[k] != '@') &&
        (exists j :: i + 1 < j < |s| - 1 && s[j] == '.');
      var j :| i + 1 < j < |s| - 1 && s[j] == '.';
      assert Plain(s[..i]) by {
        forall k | 0 <= k < i ensures s[..i][k] != '@' && !IsSpace(s[..i][k]) {
          assert s[..i][k] == s[k];
        }
      }
      var domain, top := s[i + 1..j], s[j + 1..];
      forall k | 0 <= k < |domain| ensures domain[k] != '@' && !IsSpace(domain[k]) {
        assert domain[k] == s[k + i + 1];
      }
      forall k | 0 <= k < |top| ensures top[k] != '@' && !IsSpace(top[k]) {
        assert top[k] == s[k + j + 1];
      }
    }
  }

  // ---------------------------------------------------------------------------
  // Submitting the form

  datatype SignupForm = SignupForm(email: string, username: string, password: string, confirmPassword: string)

  /** The outcome of pressing "Sign up": the first failing check's message, or
      the request that is sent to the server. */
  datatype SignupStep = Rejected(message: string) | SendSignup(email: string, username: string, password: string)

  const EmailMessage: string := "Enter a valid email."
  const UsernameMessage: string := "Username must be at least 4 characters."
  const WeakMessage: string := "Password is not strong enough."
  const MismatchMessage: string := "Passwords do not match."

  /** The submit handler's guard chain; `strength` is the meter's current
      reading. An empty e-mail fails the pattern, an empty user name the length
      test, so the source's separate emptiness tests add nothing. */
  function SubmitSignup(form: SignupForm, strength: int): (r: SignupStep)
    ensures r.SendSignup? <==>
      ValidateEmail(form.email) && |form.username| >= 4 && strength >= 100 &&
      form.password == form.confirmPassword
    ensures r.SendSignup? ==> r == SendSignup(form.email, form.username, form.password)
    ensures r == Rejected(EmailMessage) <==> !ValidateEmail(form.email)
    ensures r == Rejected(UsernameMessage) <==> ValidateEmail(form.email) && |form.username| < 4
    ensures r == Rejected(WeakMessage) <==>
      ValidateEmail(form.email) && |form.username| >= 4 && strength < 100
    ensures r == Rejected(MismatchMessage) <==>
      ValidateEmail(form.email) && |form.username| >= 4 && strength >= 100 &&
      form.password != form.confirmPassword
  {
    if form.email == [] || !ValidateEmail(form.email) then Rejected(EmailMessage)
    else if form.username == [] || |form.username| < 4 then Rejected(UsernameMessage)
    else if strength < 100 then Rejected(WeakMessage)
    else if form.password != form.confirmPassword then Rejected(MismatchMessage)
    else SendSignup(form.email, form.username, form.password)
  }

  /** With the meter tracking the password field, a request leaves the client
      only for a well-shaped e-mail and a password meeting all four criteria. */
  lemma SentSignupIsWellFormed(form: SignupForm)
    requires SubmitSignup(form, 25 * CriteriaMet(form.password)).SendSignup?
    ensures EmailShape(form.email) && |form.username| >= 4
    ensures Strong(form.password) && form.password == form.confirmPassword
  {
    EmailPatternIsShape(form.email);
  }

  // ---------------------------------------------------------------------------
  // The server's answer

  datatype SignupFeedback = Welcome | EmailTakenDialog | ErrorSnack(message: string)

  /** What the form does with the server's answer: `ok` is the HTTP success
      flag, `message` the answer's message field (None when absent). */
  function OnSignupResponse(ok: bool, message: Option<string>): (r: SignupFeedback)
    ensures r == EmailTakenDialog <==> !ok && message == Some("Email already in use")
    ensures r == Welcome <==> ok
    ensures r.ErrorSnack? ==> r.message != ""
    ensures !ok && message.Some? && message.value != "" && message.value != "Email already in use" ==>
      r == ErrorSnack(message.value)
    ensures !ok && (message.None? || message.value == "") ==> r == ErrorSnack("Signup failed")
  {
    if ok then Welcome
    else if message == Some("Email already in use") then EmailTakenDialog
    else if message.Some? && message.value != "" then ErrorSnack(message.value)
    else ErrorSnack("Signup failed")
  }
}
