/** The sign-in page script (auth.js): the password strength meter and the checks the login
    and registration forms make before any request. Lengths count characters. */
module AuthForms {
  import opened Common

  const FillIn := "Please fill in all fields"
  const NoMatch := "Passwords do not match"
  const AgreeTerms := "You must agree to the Terms of Service and Privacy Policy"

  predicate IsUpper(c: char) { 'A' <= c <= 'Z' }
  predicate IsDigit(c: char) { '0' <= c <= '9' }
  predicate IsAlnum(c: char) { IsUpper(c) || IsDigit(c) || 'a' <= c <= 'z' }

  /** `/[A-Z]/.test(p)` */
  predicate HasUpper(p: string) { exists i :: 0 <= i < |p| && IsUpper(p[i]) }
  /** `/[0-9]/.test(p)` */
  predicate HasDigit(p: string) { exists i :: 0 <= i < |p| && IsDigit(p[i]) }
  /** `/[^A-Za-z0-9]/.test(p)` */
  predicate HasOther(p: string) { exists i :: 0 <= i < |p| && !IsAlnum(p[i]) }

  /** How many of the four criteria the password meets: eight characters or more, an
      upper-case letter, a digit, a character that is neither letter nor digit. */
  function Criteria(p: string): (c: nat)
    ensures c <= 4
  {
    (if |p| >= 8 then 1 else 0)
    + (if HasUpper(p) then 1 else 0)
    + (if HasDigit(p) then 1 else 0)
    + (if HasOther(p) then 1 else 0)
  }

  /** `calculatePasswordStrength`: `Math.min(3, Math.floor(c * 0.75))`, with the floor of a
      non-negative `c * 0.75` written as `(3 * c) / 4`. */
  function Strength(p: string): nat
  {
    var c := Criteria(p);
    if (3 * c) / 4 < 3 then (3 * c) / 4 else 3
  }

  /** The meter's text for a strength; the `switch` has no other case. */
  function Label(strength: int): Option<string>
  {
    if strength == 0 then Some("Weak")
    else if strength == 1 then Some("Fair")
    else if strength == 2 then Some("Good")
    else if strength == 3 then Some("Strong")
    else None
  }

  /** The strength lies in 0..3 and follows the table 0, 1 criteria: 0; 2: 1; 3: 2; 4: 3. */
  lemma StrengthTable(p: string)
    ensures 0 <= Strength(p) <= 3
    ensures Criteria(p) <= 1 ==> Strength(p) == 0
    ensures Criteria(p) == 2 ==> Strength(p) == 1
    ensures Criteria(p) == 3 ==> Strength(p) == 2
    ensures Criteria(p) == 4 ==> Strength(p) == 3
  {
  }

  /** Meeting more criteria never gives a lower strength. */
  lemma StrengthMonotone(p: string, q: string)
    requires Criteria(p) <= Criteria(q)
    ensures Strength(p) <= Strength(q)
  {
    StrengthTable(p);
    StrengthTable(q);
  }

  /** Every strength the meter can compute has a text: the meter is never left blank. */
  lemma EveryStrengthLabelled(p: string)
    ensures Label(Strength(p)).Some?
  {
    StrengthTable(p);
  }

  /** Typing more characters at the end never weakens the password: every criterion met
      stays met. */
  lemma ExtendingNeverWeakens(p: string, q: string)
    ensures Criteria(p + q) >= Criteria(p)
    ensures Strength(p + q) >= Strength(p)
  {
    var pq := p + q;
    if HasUpper(p) {
      var i :| 0 <= i < |p| && IsUpper(p[i]);
      assert pq[i] == p[i];
    }
    if HasDigit(p) {
      var i :| 0 <= i < |p| && IsDigit(p[i]);
      assert pq[i] == p[i];
    }
    if HasOther(p) {
      var i :| 0 <= i < |p| && !IsAlnum(p[i]);
      assert pq[i] == p[i];
    }
    StrengthMonotone(p, pq);
  }

  /** The login form's check: `None` lets the request go, `Some(m)` shows `m`. */
  function LoginCheck(email: string, password: string): Option<string>
  {
    if email == "" || password == "" then Some(FillIn) else None
  }

  /** The login form sends a request exactly when both fields are filled in. */
  lemma LoginNeedsBoth(email: string, password: string)
    ensures LoginCheck(email, password).None? <==> email != "" && password != ""
    ensures LoginCheck(email, password).Some? ==> LoginCheck(email, password).value == FillIn
  {
  }

  datatype Registration = Registration(
    firstName: string,
    lastName: string,
    email: string,
    password: string,
    passwordConfirm: string,
    role: string,
    termsAgreed: bool)

  predicate AllFilled(r: Registration)
  {
    r.firstName != "" && r.lastName != "" && r.email != "" && r.password != "" && r.passwordConfirm != ""
  }

  /** The registration form's checks, in order: all fields, then matching passwords, then the
      terms box. The role is not checked. */
  function RegisterCheck(r: Registration): Option<string>
  {
    if !AllFilled(r) then Some(FillIn)
    else if r.password != r.passwordConfirm then Some(NoMatch)
    else if !r.termsAgreed then Some(AgreeTerms)
    else None
  }

  /** A registration request is made exactly when every field is filled in, the passwords
      agree and the terms are accepted; otherwise the message of the first failing check, in
      the order fields, match, terms, is shown. */
  lemma RegisterOrder(r: Registration)
    ensures RegisterCheck(r).None? <==> AllFilled(r) && r.password == r.passwordConfirm && r.termsAgreed
    ensures !AllFilled(r) ==> RegisterCheck(r) == Some(FillIn)
    ensures AllFilled(r) && r.password != r.passwordConfirm ==> RegisterCheck(r) == Some(NoMatch)
    ensures AllFilled(r) && r.password == r.passwordConfirm && !r.termsAgreed ==> RegisterCheck(r) == Some(AgreeTerms)
  {
  }

  /** The registration checks say nothing about the password's strength: a one-character
      password is let through. */
  lemma WeakPasswordRegisters()
    ensures var r := Registration("A", "B", "c", "x", "x", "player", true);
      RegisterCheck(r).None? && Strength(r.password) == 0
  {
    var p := "x";
    assert !IsUpper(p[0]) && !IsDigit(p[0]) && IsAlnum(p[0]);
    assert !HasUpper(p) && !HasDigit(p) && !HasOther(p);
  }
}
