/** The account routes of the academy portal (routes/auth.js): registration awaiting
    approval, login behind the approval and account-status checks, and the forgot/reset
    password token lifecycle. `emailWellFormed` is the verdict of the request validator's
    email check; `token` is what the JWT signing call produces; `resetToken` is the random
    token drawn for a reset. Absent body strings are empty strings. */
module PortalAuth {
  import opened Common
  import opened PortalStore

  const MinPasswordLength: nat := 6

  /** The shirt sizes the user schema accepts. */
  predicate SchemaShirtSize(size: Option<string>)
  {
    size.None? || size.value in {"XS", "S", "M", "L", "XL", "XXL"}
  }

  /** The register validators, in their declaration order; the request is refused with the
      whole list when it is not empty. */
  function RegisterErrors(name: string, emailWellFormed: bool, password: string, phoneNumber: string): (errs: seq<string>)
    ensures errs == [] <==> name != "" && emailWellFormed && |password| >= MinPasswordLength && phoneNumber != ""
    ensures name == "" ==> errs[0] == "Name is required"
    ensures |errs| <= 4
  {
    (if name == "" then ["Name is required"] else [])
    + (if !emailWellFormed then ["Please include a valid email"] else [])
    + (if |password| < MinPasswordLength then ["Password must be at least 6 characters"] else [])
    + (if phoneNumber == "" then ["Phone number is required"] else [])
  }

  /** A newly registered user: the email setter lower-cases and trims the address, the
      schema fills in the defaults for role, statuses, image and settings, and the pre-save
      hook stores the password hash. */
  function NewPortalUser(id: Id, name: string, email: string, password: string, phoneNumber: string,
                         childName: Option<string>, address: Option<string>, shirtSize: Option<string>): (u: PortalUser)
    ensures u.approvalStatus == "pending" && u.accountStatus == "inactive" && u.role == "parent"
    ensures u.password == HashOf(password) && u.email == NormalEmail(email) && u.id == id
  {
    PortalUser(id, name, NormalEmail(email), HashOf(password), phoneNumber, childName, address, shirtSize, "parent", "inactive", "pending",
      "/images/default-avatar.png", NotificationSettings(true, true, false))
  }

  const PendingMessage: string := "Registration successful. Your account is pending approval."

  /** `POST /register` */
  method Register(db: PortalDb, name: string, email: string, emailWellFormed: bool, password: string, phoneNumber: string,
                  childName: Option<string>, address: Option<string>, shirtSize: Option<string>) returns (a: Answer<string>)
    requires db.Valid()
    modifies db`nextId, db`users
    ensures db.Valid()
    ensures a.Failure? ==> db.users == old(db.users)
    ensures var errs := RegisterErrors(name, emailWellFormed, password, phoneNumber);
      if errs != [] then a == Failure(400, errs[0])
      else if EmailIndex(old(db.users), email) != -1 then a == Failure(400, "User already exists")
      else if !SchemaShirtSize(shirtSize) then a == Failure(500, "Server error")
      else (a == Success(201, PendingMessage)
        && db.users == old(db.users) + [NewPortalUser(old(db.nextId), name, email, password, phoneNumber, childName, address, shirtSize)])
  {
    var errs := RegisterErrors(name, emailWellFormed, password, phoneNumber);
    if errs != [] {
      return Failure(400, errs[0]);
    }
    if EmailIndex(db.users, email) != -1 {
      return Failure(400, "User already exists");
    }
    var id := db.FreshId();
    if !SchemaShirtSize(shirtSize) {
      return Failure(500, "Server error");
    }
    db.InsertUser(NewPortalUser(id, name, email, password, phoneNumber, childName, address, shirtSize));
    a := Success(201, PendingMessage);
  }

  /** The user data a login answers with: no password and no reset fields. */
  datatype LoginUser = LoginUser(id: Id, name: string, email: string, phoneNumber: string, role: string,
                                 profileImage: string, childName: Option<string>, notificationSettings: NotificationSettings)

  datatype LoginResult = LoginResult(token: string, user: LoginUser)

  function LoginData(u: PortalUser): (d: LoginUser)
    ensures d.id == u.id && d.email == u.email && d.role == u.role
  {
    LoginUser(u.id, u.name, u.email, u.phoneNumber, u.role, u.profileImage, u.childName, u.notificationSettings)
  }

  /** `POST /login`: the answer for credentials `email`/`password` against the stored users.
      The checks run in this order: validation, unknown email, approval, account status,
      password. */
  function Login(users: seq<PortalUser>, email: string, emailWellFormed: bool, password: Option<string>, token: string): (a: Answer<LoginResult>)
    ensures a.Success? ==> a.status == 200 && EmailIndex(users, email) >= 0
    ensures a.Success? ==>
      var u := users[EmailIndex(users, email)];
      u.approvalStatus == "approved" && u.accountStatus == "active" && password == Some(u.password.input)
      && a.value == LoginResult(token, LoginData(u))
    ensures a.Failure? ==> a.status in {400, 403}
  {
    if !emailWellFormed then Failure(400, "Please include a valid email")
    else if password.None? then Failure(400, "Password is required")
    else
      var k := EmailIndex(users, email);
      if k == -1 then Failure(400, "Invalid credentials")
      else if users[k].approvalStatus != "approved" then Failure(403, "Your account is pending approval")
      else if users[k].accountStatus != "active" then Failure(403, "Your account is not active")
      else if HashOf(password.value) != users[k].password then Failure(400, "Invalid credentials")
      else Success(200, LoginResult(token, LoginData(users[k])))
  }

  /** The account-status checks come before the password check: for an account awaiting
      approval or not active, the answer is the same whatever password is offered, and it
      says why; a wrong password and an unknown email give the same answer. */
  lemma LoginGuardOrder(users: seq<PortalUser>, email: string, p: string, q: string, token: string)
    requires EmailIndex(users, email) >= 0
    ensures var u := users[EmailIndex(users, email)];
      u.approvalStatus != "approved" ==>
        Login(users, email, true, Some(p), token) == Login(users, email, true, Some(q), token) == Failure(403, "Your account is pending approval")
    ensures var u := users[EmailIndex(users, email)];
      u.approvalStatus == "approved" && u.accountStatus != "active" ==>
        Login(users, email, true, Some(p), token) == Login(users, email, true, Some(q), token) == Failure(403, "Your account is not active")
    ensures var u := users[EmailIndex(users, email)];
      u.approvalStatus == "approved" && u.accountStatus == "active" && HashOf(p) != u.password ==>
        Login(users, email, true, Some(p), token) == Login([], email, true, Some(p), token)
  {
  }

  /** A newly registered account cannot log in until an administrator approves it, under
      any spelling of its address that differs only in case or surrounding spaces. */
  lemma RegisteredCannotLogin(users: seq<PortalUser>, id: Id, name: string, email: string, password: string,
                              phoneNumber: string, childName: Option<string>, address: Option<string>,
                              shirtSize: Option<string>, typed: string, offered: Option<string>, token: string)
    requires EmailIndex(users, email) == -1
    requires NormalEmail(typed) == NormalEmail(email)
    ensures Login(users + [NewPortalUser(id, name, email, password, phoneNumber, childName, address, shirtSize)],
                  typed, true, offered, token).Failure?
  {
    var u := NewPortalUser(id, name, email, password, phoneNumber, childName, address, shirtSize);
    EmailIndexAppend(users, u, typed);
  }

  /** A registered address refuses every later registration of the same address in
      another case or with surrounding spaces. */
  lemma {:induction false} CaseVariantTaken(users: seq<PortalUser>, u: PortalUser, typed: string, other: string)
    requires u.email == NormalEmail(typed) && NormalEmail(other) == NormalEmail(typed)
    ensures EmailIndex(users + [u], other) != -1
    ensures EmailIndex(users + [u], u.email) != -1
  {
    var us := users + [u];
    assert us[|users|].email == NormalEmail(other);
    NormalEmailIdempotent(typed);
    assert us[|users|].email == NormalEmail(u.email);
  }

  // ---------------------------------------------------------------------
  // Password reset
  //
  // The portal's user schema (User.js) declares no `resetPasswordToken` and no
  // `resetPasswordExpires`. Mongoose's strict mode drops writes to undeclared paths, so the
  // token drawn by `/forgot-password` is never stored, and the reset route's filter on those
  // paths matches no stored user, unless the query's undeclared paths are stripped
  // (`strictQuery`), when the filter is empty and matches the first user.

  const ResetSentMessage: string := "If your email is registered, you will receive a password reset link"

  /** `POST /forgot-password`: the same answer whether or not the email is registered; the
      token and expiry written to a found user are dropped on save, so the store is unchanged. */
  method ForgotPassword(db: PortalDb, email: string, emailWellFormed: bool, resetToken: string, now: int) returns (a: Answer<string>)
    requires db.Valid()
    ensures !emailWellFormed ==> a == Failure(400, "Please include a valid email")
    ensures emailWellFormed ==> a == Success(200, ResetSentMessage)
  {
    if !emailWellFormed {
      return Failure(400, "Please include a valid email");
    }
    var k := EmailIndex(db.users, email);
    // Setting `resetPasswordToken` and `resetPasswordExpires` on users[k] and saving writes
    // nothing: neither path is in the schema.
    a := Success(200, ResetSentMessage);
  }

  /** Position of the user `findOne({resetPasswordToken: token, resetPasswordExpires: {$gt: now}})`
      finds, or -1. No stored user has either path, so with the filter kept nobody matches;
      with undeclared filter paths stripped the filter is `{}`, and the first user matches. */
  function ResetTarget(us: seq<PortalUser>, token: string, now: int, strictQuery: bool): (k: int)
    ensures -1 <= k < |us|
    ensures !strictQuery ==> k == -1
    ensures strictQuery ==> (k == -1 <==> us == [])
    ensures k != -1 ==> k == 0
  {
    if strictQuery && us != [] then 0 else -1
  }

  /** The user after a successful reset: the new password's hash. Unsetting the two token
      fields writes nothing, since the schema has neither. */
  function Reset(u: PortalUser, password: string): (r: PortalUser)
    ensures r.password == HashOf(password)
    ensures r.(password := u.password) == u
  {
    u.(password := HashOf(password))
  }

  /** `POST /reset-password/:token`. Whether Mongoose strips undeclared filter paths
      (`strictQuery`) depends on its version and settings, which the repository does not fix;
      it is a parameter. */
  method ResetPassword(db: PortalDb, token: string, password: string, now: int, strictQuery: bool) returns (a: Answer<string>)
    requires db.Valid()
    modifies db`users
    ensures db.Valid()
    ensures a.Failure? ==> db.users == old(db.users)
    ensures |password| < MinPasswordLength ==> a == Failure(400, "Password must be at least 6 characters")
    ensures |password| >= MinPasswordLength ==>
      var k := ResetTarget(old(db.users), token, now, strictQuery);
      if k == -1 then a == Failure(400, "Password reset token is invalid or has expired")
      else a == Success(200, "Password has been updated") && db.users == old(db.users)[k := Reset(old(db.users)[k], password)]
  {
    if |password| < MinPasswordLength {
      return Failure(400, "Password must be at least 6 characters");
    }
    var k := ResetTarget(db.users, token, now, strictQuery);
    if k == -1 {
      return Failure(400, "Password reset token is invalid or has expired");
    }
    db.SaveUser(k, Reset(db.users[k], password));
    a := Success(200, "Password has been updated");
  }

  /** As written, the token a user was sent never selects that user: without `strictQuery`
      every reset is refused, and with it the first stored user's password is reset, whoever
      asked and whatever token is given. */
  lemma ResetIgnoresToken(us: seq<PortalUser>, token: string, other: string, now: int, later: int, k: nat)
    requires 0 < k < |us|
    ensures ResetTarget(us, token, now, false) == -1
    ensures ResetTarget(us, token, now, true) == ResetTarget(us, other, later, true) == 0 != k
  {
  }

  // The reset the route evidently intends: the token and expiry stored with the user.

  /** A reset token is valid for one hour. */
  const ResetLifetime: int := 3600000

  datatype ResetFields = ResetFields(token: Option<string>, expires: Option<int>)

  /** The fields after a token is issued at `now`, as the route sets them. */
  function Issue(resetToken: string, now: int): (f: ResetFields)
    ensures f.token == Some(resetToken) && f.expires == Some(now + ResetLifetime)
  {
    ResetFields(Some(resetToken), Some(now + ResetLifetime))
  }

  /** The fields after a reset, as the route clears them. */
  const Cleared: ResetFields := ResetFields(None, None)

  /** The route's filter on stored fields. */
  predicate Accepts(f: ResetFields, token: string, now: int)
  {
    f.token == Some(token) && f.expires.Some? && f.expires.value > now
  }

  /** Had the fields been stored, an issued token would be accepted strictly before one hour
      has passed and refused from then on, any other token refused, and a used one refused
      at any time. */
  lemma TokenLifecycle(resetToken: string, issuedAt: int, later: int, other: string)
    requires other != resetToken
    ensures Accepts(Issue(resetToken, issuedAt), resetToken, later) <==> later < issuedAt + ResetLifetime
    ensures !Accepts(Issue(resetToken, issuedAt), other, later)
    ensures !Accepts(Cleared, resetToken, later)
  {
  }

  /** After a reset the new password logs in an approved, active account and the old one does not. */
  lemma ResetThenLogin(users: seq<PortalUser>, k: nat, password: string, old_password: string, token: string)
    requires k < |users| && EmailIndex(users, users[k].email) == k
    requires users[k].approvalStatus == "approved" && users[k].accountStatus == "active"
    requires old_password != password
    ensures var us := users[k := Reset(users[k], password)];
      Login(us, users[k].email, true, Some(password), token).Success?
      && Login(us, users[k].email, true, Some(old_password), token) == Failure(400, "Invalid credentials")
  {
    EmailIndexAfterUpdate(users, k, Reset(users[k], password), users[k].email);
  }
}
