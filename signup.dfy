/** The signup page's two client-side checks (frontend/src/pages/Signup.jsx):
    the form validator, whose `setError` side effect becomes a returned message,
    and the password-strength meter. */
module Signup {

  /** The controlled form fields. */
  datatype SignupForm = SignupForm(name: string, email: string, password: string, confirmPassword: string)

  /** What `validateForm` decides: the form may be submitted, or the error shown to the user. */
  datatype Validation = Accepted | Rejected(message: string)

  const MinPasswordLength: nat := 6
  const StrongPasswordLength: nat := 10

  const TooShortMessage := "Password must be at least 6 characters long"
  const MismatchMessage := "Passwords do not match"

  /** The first failing rule wins: length, then confirmation. */
  function ValidateForm(form: SignupForm): (r: Validation)
    ensures r == Accepted <==> |form.password| >= MinPasswordLength && form.password == form.confirmPassword
    ensures |form.password| < MinPasswordLength ==> r == Rejected(TooShortMessage)
    ensures |form.password| >= MinPasswordLength && form.password != form.confirmPassword ==> r == Rejected(MismatchMessage)
  {
    if |form.password| < MinPasswordLength then Rejected(TooShortMessage)
    else if form.password != form.confirmPassword then Rejected(MismatchMessage)
    else Accepted
  }

  /** The meter under the password field: a level label, a bar width in percent and a colour. */
  datatype Strength = Strength(level: string, percentage: nat, color: string)

  function PasswordStrength(password: string): (s: Strength)
    ensures |password| == 0 ==> s == Strength("", 0, "")
    ensures 0 < |password| < MinPasswordLength ==> s == Strength("Weak", 33, "#dc3545")
    ensures MinPasswordLength <= |password| < StrongPasswordLength ==> s == Strength("Medium", 66, "#ffc107")
    ensures StrongPasswordLength <= |password| ==> s == Strength("Strong", 100, "#28a745")
  {
    if |password| == 0 then Strength("", 0, "")
    else if |password| < MinPasswordLength then Strength("Weak", 33, "#dc3545")
    else if |password| < StrongPasswordLength then Strength("Medium", 66, "#ffc107")
    else Strength("Strong", 100, "#28a745")
  }

  /** A short password reports the length error even when the confirmation also differs. */
  lemma LengthCheckedBeforeMatch(form: SignupForm)
    requires |form.password| < MinPasswordLength && form.password != form.confirmPassword
    ensures ValidateForm(form) == Rejected(TooShortMessage)
    ensures ValidateForm(form) != Rejected(MismatchMessage)
  {
  }

  /** The meter never goes down as the password grows. */
  lemma StrengthMonotone(shorter: string, longer: string)
    requires |shorter| <= |longer|
    ensures PasswordStrength(shorter).percentage <= PasswordStrength(longer).percentage
  {
  }

  /** Any password the validator accepts shows as Medium or Strong, never Weak or blank. */
  lemma AcceptedPasswordIsNotWeak(form: SignupForm)
    requires ValidateForm(form) == Accepted
    ensures PasswordStrength(form.password).level in {"Medium", "Strong"}
    ensures PasswordStrength(form.password).percentage >= 66
  {
  }
}
