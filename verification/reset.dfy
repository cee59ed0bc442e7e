/** The reset-password form: the five rules listed under the new password,
    the checks run before the request is sent, and the handling of the
    server's answer. */
module ResetPassword {
  import opened Wrappers
  import opened SignUp

  /** The characters `.` refuses to match in a JavaScript pattern. */
  predicate IsLineTerminator(c: char)
  {
    c == '\n' || c == '\r' || c == '\U{2028}' || c == '\U{2029}'
  }

  predicate NoLineBreak(s: string)
  {
    forall k :: 0 <= k < |s| ==> !IsLineTerminator(s[k])
  }

  /** `/.{8,}/`: somewhere in the password, eight characters in a row none of
      which ends a line. */
  predicate HasLongRun(p: string)
  {
    exists i :: 0 <= i <= |p| - 8 && RunAt(p, i)
  }

  /** Eight characters free of line breaks start at index `i`. */
  predicate RunAt(p: string, i: int)
  {
    0 <= i && i + 8 <= |p| && NoLineBreak(p[i..i + 8])
  }

  predicate IsSpecial(c: char)
  {
    c == '@' || c == '$' || c == '!' || c == '%' || c == '*' || c == '?' || c == '&'
  }

  /** `/[a-z]/` and `/[@$!%*?&]/`. */
  predicate HasLower(p: string) { exists i :: 0 <= i < |p| && IsLower(p[i]) }
  predicate HasSpecial(p: string) { exists i :: 0 <= i < |p| && IsSpecial(p[i]) }

  const RuleTexts: seq<string> := [
    "At least 8 characters long",
    "At least one uppercase letter",
    "At least one lowercase letter",
    "At least one number",
    "At least one special character (@$!%*?&)"
  ]

  /** Whether the `i`-th rule of the list holds for a password. */
  predicate Rule(i: nat, p: string)
    requires i < |RuleTexts|
  {
    match i
    case 0 => HasLongRun(p)
    case 1 => HasUpper(p)
    case 2 => HasLower(p)
    case 3 => HasDigit(p)
    case _ => HasSpecial(p)
  }

  predicate AllRules(p: string)
  {
    HasLongRun(p) && HasUpper(p) && HasLower(p) && HasDigit(p) && HasSpecial(p)
  }

  /** The list's check marks: one per rule, in the list's order; every rule is
      marked exactly when the password meets all five. */
  function RuleMarks(p: string): (marks: seq<bool>)
    ensures |marks| == |RuleTexts| == 5
    ensures forall i :: 0 <= i < |marks| ==> (marks[i] <==> Rule(i, p))
    ensures (forall i :: 0 <= i < |marks| ==> marks[i]) <==> AllRules(p)
  {
    var marks := [HasLongRun(p), HasUpper(p), HasLower(p), HasDigit(p), HasSpecial(p)];
    assert (forall i :: 0 <= i < |marks| ==> marks[i]) ==> AllRules(p) by {
      if forall i :: 0 <= i < |marks| ==> marks[i] {
        assert marks[0] && marks[1] && marks[2] && marks[3] && marks[4];
      }
    }
    marks
  }

  /** A run of eight characters needs a password of at least eight. */
  lemma LongRunIsLong(p: string)
    requires HasLongRun(p)
    ensures |p| >= 8
  {
    var i :| RunAt(p, i);
  }

  /** A password meeting all five reset rules scores 100 on the sign-up meter:
      each special character is outside `[A-Za-z0-9]`. */
  lemma AllRulesStrongForSignup(p: string)
    requires AllRules(p)
    ensures Strong(p) && CriteriaMet(p) == 4
  {
    LongRunIsLong(p);
    var i :| 0 <= i < |p| && IsSpecial(p[i]);
    assert !IsAlnum(p[i]);
  }

  /** The converse fails twice over: the meter accepts any symbol while the
      rules want one of seven, and the meter counts length while the first
      rule wants eight characters between line breaks. */
  lemma StrongDoesNotMeetRules()
    ensures Strong("Password1#") && !AllRules("Password1#")
    ensures Strong("Pass1@\nword") && !HasLongRun("Pass1@\nword")
  {
    var p := "Password1#";
    assert IsUpper(p[0]) && IsDigit(p[8]) && !IsAlnum(p[9]);
    assert forall k :: 0 <= k < |p| ==> !IsSpecial(p[k]);
    var q := "Pass1@\nword";
    assert IsUpper(q[0]) && IsDigit(q[4]) && !IsAlnum(q[5]);
    forall i | 0 <= i && i + 8 <= |q| ensures !RunAt(q, i) {
      assert q[i..i + 8][6 - i] == q[6];
    }
  }

  // ---------------------------------------------------------------------------
  // Submitting the form

  const ResetMismatchMessage: string := "❌ Passwords do not match."

  /** The outcome of pressing the submit button: the browser's own form
      validation blocks it, the mismatch error is shown, or the request
      carrying the e-mail and the new password is sent. */
  datatype ResetStep = Blocked | Refused(message: string) | SendReset(email: string, password: string)

  /** Pressing submit. The three fields are marked required and the e-mail
      field has the e-mail input type, so the browser submits the form only
      when all three are non-empty and the address passes its e-mail syntax
      check (`emailAccepted`); the form's own handler then checks only that
      the two passwords agree. */
  function SubmitReset(email: string, password: string, confirmPassword: string, emailAccepted: bool): (r: ResetStep)
    ensures r == Blocked <==> email == "" || password == "" || confirmPassword == "" || !emailAccepted
    ensures r.Refused? <==> r != Blocked && password != confirmPassword
    ensures r.SendReset? <==> r != Blocked && password == confirmPassword
    ensures r.SendReset? ==> r.email == email && r.password == password
    ensures r.Refused? ==> r.message == ResetMismatchMessage
  {
    if email == "" || password == "" || confirmPassword == "" || !emailAccepted then Blocked
    else if password != confirmPassword then Refused(ResetMismatchMessage)
    else SendReset(email, password)
  }

  /** None of the five rules gates the request: a one-letter password that
      meets one rule of five is still sent. */
  lemma RulesDoNotGate(email: string)
    requires email != ""
    ensures !Rule(0, "a") && !Rule(1, "a") && !Rule(3, "a") && !Rule(4, "a")
    ensures SubmitReset(email, "a", "a", true) == SendReset(email, "a")
  {
    assert !HasLongRun("a");
  }

  datatype ResetFeedback = BackToLogin | ErrorBox(message: string)

  /** What the form does with the server's answer: on success it goes back to
      the login screen, otherwise it shows the answer's message, or a generic
      one when the message is missing or empty. */
  function OnResetResponse(ok: bool, message: Option<string>): (r: ResetFeedback)
    ensures r == BackToLogin <==> ok
    ensures r.ErrorBox? ==> r.message != ""
    ensures !ok && message.Some? && message.value != "" ==> r == ErrorBox(message.value)
    ensures !ok && (message.None? || message.value == "") ==> r == ErrorBox("⚠️ Something went wrong.")
  {
    if ok then BackToLogin
    else if message.Some? && message.value != "" then ErrorBox(message.value)
    else ErrorBox("⚠️ Something went wrong.")
  }
}
