/** The web client's reset-password page (packages/web/src/pages/ResetPassword.js): the
    checks made before the reset request is sent, the messages shown, and the in-field
    error flags and the state of the submit button. The token comes from the link; an empty
    string stands for a link without one. */
module ResetForm {
  import opened Common

  const InvalidLink := "Invalid password reset link."
  const Mismatch := "Passwords do not match."
  const TooShort := "Password must be at least 6 characters long."
  const ResetDone := "Password reset successfully! Redirecting to login..."
  const ResetFailed := "Failed to reset password. The link may be invalid or expired."

  /** The shortest password the page lets through. */
  const MinLength: nat := 6

  /** The page's state. `error` and `success` are empty when nothing is shown. */
  datatype Form = Form(
    token: string,
    password: string,
    confirm: string,
    error: string,
    success: string,
    loading: bool)

  /** `PUT /auth/resetpassword/<token>` with the new password. */
  datatype ResetRequest = ResetRequest(token: string, password: string)

  /** How the request ended: accepted, or refused with the server's message if it sent one. */
  datatype Reply = Accepted | Refused(message: string)

  /** The page as first shown for a link. */
  function Opened(token: string): (f: Form)
    ensures f.error == "" <==> token != ""
    ensures f.password == "" && f.confirm == "" && f.success == "" && !f.loading
  {
    Form(token, "", "", if token == "" then InvalidLink else "", "", false)
  }

  /** Which check `handleSubmit` stops at, in its order: the token, the match, the length. */
  function Refusal(token: string, password: string, confirm: string): string
  {
    if token == "" then InvalidLink
    else if password != confirm then Mismatch
    else if |password| < MinLength then TooShort
    else ""
  }

  /** `handleSubmit` up to the request: clears both messages, then either shows the first
      failed check's message and sends nothing, or starts loading and sends the request. */
  function Submit(f: Form): (Form, Option<ResetRequest>)
  {
    var e := Refusal(f.token, f.password, f.confirm);
    if e != "" then (f.(error := e, success := ""), None)
    else (f.(error := "", success := "", loading := true), Some(ResetRequest(f.token, f.password)))
  }

  /** The end of `handleSubmit`: success shows the redirect message; a refusal shows the
      server's message, or a default one when it sent none. Loading stops either way. */
  function Resolve(f: Form, r: Reply): (g: Form)
    ensures !g.loading && g.token == f.token && g.password == f.password && g.confirm == f.confirm
    ensures r.Accepted? ==> g.success == ResetDone && g.error == f.error
    ensures r.Refused? ==> g.success == f.success && g.error != ""
    ensures r.Refused? && r.message != "" ==> g.error == r.message
  {
    match r
    case Accepted => f.(success := ResetDone, loading := false)
    case Refused(m) => f.(error := if m != "" then m else ResetFailed, loading := false)
  }

  /** The password field's error flag. */
  predicate PasswordFlag(password: string)
  {
    0 < |password| < MinLength
  }

  /** The confirmation field's error flag. */
  predicate ConfirmFlag(password: string, confirm: string)
  {
    |confirm| > 0 && password != confirm
  }

  /** The submit button's `disabled`. */
  predicate SubmitDisabled(f: Form)
  {
    f.loading || f.success != "" || f.token == ""
  }

  /** A request goes out exactly when the link has a token, the two passwords agree and the
      password has at least six characters; otherwise the first failed check's message, in
      the order token, match, length, is shown. */
  lemma SubmitOrder(f: Form)
    ensures Submit(f).1.Some? <==> f.token != "" && f.password == f.confirm && |f.password| >= MinLength
    ensures Submit(f).1.Some? ==> Submit(f).1.value == ResetRequest(f.token, f.password) && Submit(f).0.loading
    ensures f.token == "" ==> Submit(f).0.error == InvalidLink
    ensures f.token != "" && f.password != f.confirm ==> Submit(f).0.error == Mismatch
    ensures f.token != "" && f.password == f.confirm && |f.password| < MinLength ==> Submit(f).0.error == TooShort
    ensures Submit(f).0.success == ""
  {
  }

  /** With a token and a filled-in confirmation, the fields show no error flag exactly when
      submitting sends the request. */
  lemma FlagsAgreeWithSubmit(f: Form)
    requires f.token != "" && f.confirm != ""
    ensures !PasswordFlag(f.password) && !ConfirmFlag(f.password, f.confirm) <==> Submit(f).1.Some?
  {
    if f.password == f.confirm {
      assert |f.password| > 0;
    }
  }

  /** Both fields empty show no flag, yet submitting is refused as too short. */
  lemma EmptyFieldsRefusedWithoutFlags(token: string)
    requires token != ""
    ensures var f := Opened(token);
      !PasswordFlag(f.password) && !ConfirmFlag(f.password, f.confirm)
      && Submit(f).1.None? && Submit(f).0.error == TooShort
  {
  }

  /** After a successful reset the button stays disabled; after a refusal it can be pressed
      again. A link without a token never enables it. */
  lemma ButtonAfterReply(f: Form, r: Reply)
    requires Submit(f).1.Some?
    ensures r.Accepted? ==> SubmitDisabled(Resolve(Submit(f).0, r))
    ensures r.Refused? ==> !SubmitDisabled(Resolve(Submit(f).0, r))
    ensures SubmitDisabled(Submit(f).0)
  {
  }

  /** A link without a token shows the invalid-link message from the start, keeps the button
      disabled, and never sends a request. */
  lemma NoTokenNoRequest(password: string, confirm: string)
    ensures Opened("").error == InvalidLink && SubmitDisabled(Opened(""))
    ensures Submit(Opened("").(password := password, confirm := confirm)).1.None?
  {
  }
}
