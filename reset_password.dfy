/**
 * The password rules of src/pages/ResetPassword.tsx: the five strength checks, the
 * score and its label, the width of the strength bar, the submit gate of
 * `handleSubmit` and the condition that enables the submit button.
 */
module ResetPassword {
  import opened Outcomes
  import opened JsText
  import opened Toasts

  /** The punctuation the special-character check accepts. */
  predicate IsSpecial(c: char) {
    c in "!@#$%^&*(),.?\":{}|<>"
  }

  predicate HasUpper(s: string) { exists i :: 0 <= i < |s| && IsUpper(s[i]) }

  predicate HasLower(s: string) { exists i :: 0 <= i < |s| && IsLower(s[i]) }

  predicate HasDigit(s: string) { exists i :: 0 <= i < |s| && IsDigit(s[i]) }

  predicate HasSpecial(s: string) { exists i :: 0 <= i < |s| && IsSpecial(s[i]) }

  datatype Checks = Checks(length: bool, uppercase: bool, lowercase: bool, number: bool, special: bool)

  function PasswordChecks(pwd: string): (c: Checks)
    ensures c.length <==> |pwd| >= 8
    ensures c.uppercase <==> HasUpper(pwd)
    ensures c.lowercase <==> HasLower(pwd)
    ensures c.number <==> HasDigit(pwd)
    ensures c.special <==> HasSpecial(pwd)
  {
    Checks(|pwd| >= 8, HasUpper(pwd), HasLower(pwd), HasDigit(pwd), HasSpecial(pwd))
  }

  /** `Object.values(checks)`, in declaration order. */
  function CheckValues(c: Checks): seq<bool> {
    [c.length, c.uppercase, c.lowercase, c.number, c.special]
  }

  predicate AllPass(c: Checks) {
    c.length && c.uppercase && c.lowercase && c.number && c.special
  }

  /** `values.filter(Boolean).length`. */
  function CountTrue(bs: seq<bool>): nat {
    if bs == [] then 0 else (if bs[0] then 1 else 0) + CountTrue(bs[1..])
  }

  lemma {:induction false} CountTrueBounds(bs: seq<bool>)
    ensures CountTrue(bs) <= |bs|
    ensures CountTrue(bs) == |bs| <==> forall i :: 0 <= i < |bs| ==> bs[i]
  {
    if bs != [] {
      CountTrueBounds(bs[1..]);
      if forall i :: 0 <= i < |bs| ==> bs[i] {
        assert forall i :: 0 <= i < |bs[1..]| ==> bs[1..][i] by {
          forall i | 0 <= i < |bs[1..]| ensures bs[1..][i] {
            assert bs[1..][i] == bs[i + 1];
          }
        }
      } else if bs[0] {
        var j :| 0 <= j < |bs| && !bs[j];
        assert !bs[1..][j - 1];
      }
    }
  }

  function PassedChecks(c: Checks): nat {
    CountTrue(CheckValues(c))
  }

  /** The number of passed checks is between 0 and 5, and 5 exactly when all pass. */
  lemma PassedChecksRange(c: Checks)
    ensures PassedChecks(c) <= 5
    ensures PassedChecks(c) == 5 <==> AllPass(c)
  {
    CountTrueBounds(CheckValues(c));
    if PassedChecks(c) == 5 {
      assert CheckValues(c)[0] && CheckValues(c)[1] && CheckValues(c)[2];
      assert CheckValues(c)[3] && CheckValues(c)[4];
    }
  }

  datatype Strength = Strength(score: int, caption: string, color: string, checks: Checks)

  /** `calculatePasswordStrength(pwd)`. */
  function CalculatePasswordStrength(pwd: string): Strength {
    var checks := PasswordChecks(pwd);
    var passed := PassedChecks(checks);
    if passed >= 5 && |pwd| >= 12 then Strength(3, "Fuerte", "text-green-600", checks)
    else if passed >= 4 && |pwd| >= 8 then Strength(2, "Media", "text-yellow-600", checks)
    else if passed >= 2 then Strength(1, "Débil", "text-orange-600", checks)
    else Strength(0, "Muy débil", "text-destructive", checks)
  }

  /** The score: 3 exactly for twelve or more characters passing every check, then 2
      for four passed checks with at least eight characters, then 1 for two passed
      checks, else 0. */
  lemma StrengthScore(pwd: string)
    ensures var s := CalculatePasswordStrength(pwd);
      var passed := PassedChecks(PasswordChecks(pwd));
      0 <= s.score <= 3 &&
      (s.score == 3 <==> AllPass(PasswordChecks(pwd)) && |pwd| >= 12) &&
      (s.score == 2 <==> s.score != 3 && passed >= 4 && |pwd| >= 8) &&
      (s.score == 1 <==> s.score < 2 && passed >= 2) &&
      s.checks == PasswordChecks(pwd)
  {
    PassedChecksRange(PasswordChecks(pwd));
  }

  /** A strong password passes every check, and any score of 2 or more needs the length. */
  lemma StrongPassesEverything(pwd: string)
    ensures CalculatePasswordStrength(pwd).score == 3 ==>
      |pwd| >= 12 && HasUpper(pwd) && HasLower(pwd) && HasDigit(pwd) && HasSpecial(pwd)
    ensures CalculatePasswordStrength(pwd).score >= 2 ==> |pwd| >= 8
  {
    StrengthScore(pwd);
  }

  /** Label and colour depend on the score alone. */
  lemma LabelFollowsScore(a: string, b: string)
    ensures CalculatePasswordStrength(a).score == CalculatePasswordStrength(b).score ==>
      CalculatePasswordStrength(a).caption == CalculatePasswordStrength(b).caption &&
      CalculatePasswordStrength(a).color == CalculatePasswordStrength(b).color
    ensures var s := CalculatePasswordStrength(a);
      (s.score == 0 <==> s.caption == "Muy débil") && (s.score == 1 <==> s.caption == "Débil") &&
      (s.score == 2 <==> s.caption == "Media") && (s.score == 3 <==> s.caption == "Fuerte")
  {
  }

  /** Typing more characters never undoes a passed check. */
  lemma ChecksGrow(p: string, q: string)
    ensures var a := PasswordChecks(p);
      var b := PasswordChecks(p + q);
      (a.length ==> b.length) && (a.uppercase ==> b.uppercase) && (a.lowercase ==> b.lowercase) &&
      (a.number ==> b.number) && (a.special ==> b.special)
  {
    if HasUpper(p) {
      var i :| 0 <= i < |p| && IsUpper(p[i]);
      assert (p + q)[i] == p[i];
    }
    if HasLower(p) {
      var i :| 0 <= i < |p| && IsLower(p[i]);
      assert (p + q)[i] == p[i];
    }
    if HasDigit(p) {
      var i :| 0 <= i < |p| && IsDigit(p[i]);
      assert (p + q)[i] == p[i];
    }
    if HasSpecial(p) {
      var i :| 0 <= i < |p| && IsSpecial(p[i]);
      assert (p + q)[i] == p[i];
    }
  }

  /** Turning values on never lowers the count of true values. */
  lemma {:induction false} CountTrueGrows(a: seq<bool>, b: seq<bool>)
    requires |a| == |b| && forall i :: 0 <= i < |a| ==> (a[i] ==> b[i])
    ensures CountTrue(a) <= CountTrue(b)
  {
    if a != [] {
      assert forall i :: 0 <= i < |a[1..]| ==> (a[1..][i] ==> b[1..][i]) by {
        forall i | 0 <= i < |a[1..]| ensures a[1..][i] ==> b[1..][i] {
          assert a[1..][i] == a[i + 1] && b[1..][i] == b[i + 1];
        }
      }
      CountTrueGrows(a[1..], b[1..]);
    }
  }

  /** The meter never drops while the password is extended at its end: every score
      reached stays reached. */
  lemma StrengthGrows(p: string, q: string)
    ensures CalculatePasswordStrength(p + q).score >= CalculatePasswordStrength(p).score
  {
    ChecksGrow(p, q);
    CountTrueGrows(CheckValues(PasswordChecks(p)), CheckValues(PasswordChecks(p + q)));
    PassedChecksRange(PasswordChecks(p));
    PassedChecksRange(PasswordChecks(p + q));
  }

  /** The width of the strength bar, in percent. */
  function BarWidth(score: int): (w: int)
    requires 0 <= score <= 3
    ensures w in {25, 50, 75, 100}
    ensures w / 25 - 1 == score
  {
    (score + 1) * 25
  }

  const MismatchToast := Toast("Error", "Las contraseñas no coinciden", true)
  const TooShortToast := Toast("Contraseña muy débil", "La contraseña debe tener al menos 8 caracteres", true)
  const ResetDoneToast := Toast("Contraseña restablecida", "Tu contraseña ha sido actualizada exitosamente", false)

  /** The two guards of `handleSubmit`, in order: `None` lets the request through. */
  function SubmitGate(password: string, confirm: string): Option<Toast> {
    if password != confirm then Some(MismatchToast)
    else if !PasswordChecks(password).length then Some(TooShortToast)
    else None
  }

  /** The gate lets a submission through exactly for matching passwords of at least
      eight characters, and reports a mismatch before a short password. */
  lemma SubmitGateCases(password: string, confirm: string)
    ensures SubmitGate(password, confirm).None? <==> password == confirm && |password| >= 8
    ensures password != confirm ==> SubmitGate(password, confirm) == Some(MismatchToast)
    ensures password == confirm && |password| < 8 ==> SubmitGate(password, confirm) == Some(TooShortToast)
  {
  }

  /** The submit button is disabled while loading, when the two passwords differ, or
      when the password fails the length check. */
  predicate SubmitDisabled(isLoading: bool, password: string, confirm: string) {
    isLoading || password != confirm || !CalculatePasswordStrength(password).checks.length
  }

  /** An enabled button always passes the gate, and a disabled one while idle never does. */
  lemma EnabledSubmitPassesGate(password: string, confirm: string)
    ensures !SubmitDisabled(false, password, confirm) <==> SubmitGate(password, confirm).None?
  {
  }

  /** The message of a failed reset: the error's message, or the fallback when empty. */
  function FailureToast(message: string): Toast {
    MessageOr("Error", message, "No se pudo restablecer la contraseña")
  }

  /** The form state `handleSubmit` reads and updates. */
  class ResetForm {
    const token: string
    var password: string
    var confirmPassword: string
    var isLoading: bool

    constructor(token: string)
      ensures this.token == token && password == "" && confirmPassword == "" && !isLoading
    {
      this.token := token;
      password := "";
      confirmPassword := "";
      isLoading := false;
    }

    /** `handleSubmit`: the guards, then `resetPassword(token, password)`, whose outcome
        is `reply`, with `isLoading` set around it. */
    method HandleSubmit(reply: Result<(), string>) returns (request: Option<(string, string)>, toast: Toast)
      modifies this
      ensures password == old(password) && confirmPassword == old(confirmPassword)
      ensures request.Some? <==> SubmitGate(password, confirmPassword).None?
      ensures request.Some? ==> request.value == (token, password) && !isLoading
      ensures request.None? ==> Some(toast) == SubmitGate(password, confirmPassword) && isLoading == old(isLoading)
      ensures request.Some? && reply.Success? ==> toast == ResetDoneToast
      ensures request.Some? && reply.Failure? ==> toast == FailureToast(reply.error)
    {
      if password != confirmPassword {
        return None, MismatchToast;
      }
      if !CalculatePasswordStrength(password).checks.length {
        return None, TooShortToast;
      }
      isLoading := true;
      request := Some((token, password));
      if reply.Success? {
        toast := ResetDoneToast;
      } else {
        toast := FailureToast(reply.error);
      }
      isLoading := false;
    }
  }
}
