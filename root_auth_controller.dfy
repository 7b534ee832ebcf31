/** The second account controller of the academy site (authController.js) over its user
    schema (User (1).js): the `protect` middleware with its token-error mapping, login,
    the password-reset pair, and Google or Facebook sign-in that links a provider id to an
    account with the same address. Errors it does not answer itself go on to the next
    error handler. */
module RootAuthController {
  import opened Common
  import AuthController

  datatype Account = Account(
    id: Id,
    firstName: string,
    lastName: string,
    email: string,
    password: Option<Digest>,
    role: string,
    profilePicture: string,
    isEmailVerified: bool,
    resetPasswordToken: Option<Digest>,
    resetPasswordExpires: Option<int>,
    googleId: Option<string>,
    facebookId: Option<string>,
    lastLogin: Option<int>)

  const DefaultPicture: string := "/images/default-profile.png"
  const MinPasswordLength: nat := 8
  /** A reset token is good for 10 minutes. */
  const ResetLifetime: int := 10 * 60 * 1000

  /** What a handler does: answer, or pass an error on with `next(error)`. */
  datatype Outcome<T> = Reply(answer: Answer<T>) | Forward(error: string)

  class Accounts {
    var users: seq<Account>
    var nextId: Id

    /** Ids in use are below `nextId` and no two accounts share one. */
    ghost predicate Valid()
      reads this
    {
      (forall i :: 0 <= i < |users| ==> users[i].id < nextId)
      && (forall i, j :: 0 <= i < j < |users| ==> users[i].id != users[j].id)
    }

    constructor Empty()
      ensures Valid() && users == [] && nextId == 0
    {
      users, nextId := [], 0;
    }

    /** `User.create` of an account whose id is fresh: returns its id. */
    method Insert(u: Account) returns (id: Id)
      requires Valid()
      modifies this
      ensures Valid()
      ensures id == old(nextId) && nextId == id + 1
      ensures users == old(users) + [u.(id := id)]
    {
      id := nextId;
      users := users + [u.(id := id)];
      nextId := nextId + 1;
    }

    /** `user.save()` of the account at position `k`. */
    method Save(k: nat, u: Account)
      requires Valid() && k < |users| && u.id == users[k].id
      modifies this`users
      ensures Valid()
      ensures users == old(users)[k := u]
    {
      users := users[k := u];
    }
  }

  /** Position of the first account with this address, or -1 (`User.findOne({email})`; the
      filter value goes through the path's `lowercase` and `trim` setters). */
  function EmailOwner(us: seq<Account>, email: string): (k: int)
    ensures -1 <= k < |us|
    ensures k >= 0 ==> us[k].email == NormalEmail(email)
    ensures k >= 0 ==> forall j :: 0 <= j < k ==> us[j].email != NormalEmail(email)
    ensures k == -1 <==> forall j :: 0 <= j < |us| ==> us[j].email != NormalEmail(email)
  {
    var e := NormalEmail(email);
    FirstMatch(us, (u: Account) => u.email == e)
  }

  // ---------------------------------------------------------------------
  // `protect`

  /** What `jwt.verify` makes of a token: the id it carries, or the name of its error. */
  datatype Decoded = Decoded(id: Id) | JwtError(name: string)

  datatype Access = Granted(user: Account) | Denied(status: nat, message: string) | Passed(error: string)

  const NotLoggedIn: string := "You are not logged in. Please log in to get access."
  const InvalidToken: string := "Invalid token. Please log in again."
  const ExpiredToken: string := "Your token has expired. Please log in again."
  const UserGone: string := "The user belonging to this token no longer exists."

  /** `protect`: the token is taken as in the other controller; a malformed or badly signed
      token and an expired one get their own 401, any other verification error goes on. */
  function Protect(us: seq<Account>, verify: string -> Decoded, authorization: Option<string>, cookie: Option<string>): (r: Access)
    ensures AuthController.BearerToken(authorization, cookie).None? ==> r == Denied(401, NotLoggedIn)
    ensures AuthController.BearerToken(authorization, cookie).Some? ==>
      var d := verify(AuthController.BearerToken(authorization, cookie).value);
      (d == JwtError("JsonWebTokenError") ==> r == Denied(401, InvalidToken))
      && (d == JwtError("TokenExpiredError") ==> r == Denied(401, ExpiredToken))
      && (d.JwtError? && d.name != "JsonWebTokenError" && d.name != "TokenExpiredError" ==> r == Passed(d.name))
      && (r.Granted? <==> d.Decoded? && exists j :: 0 <= j < |us| && us[j].id == d.id)
      && (d.Decoded? && (forall j :: 0 <= j < |us| ==> us[j].id != d.id) ==> r == Denied(401, UserGone))
      && (r.Granted? ==> r.user in us && r.user.id == d.id)
    ensures r.Denied? ==> r.status == 401
  {
    var t := AuthController.BearerToken(authorization, cookie);
    if t.None? then Denied(401, NotLoggedIn)
    else
      var d := verify(t.value);
      if d.JwtError? then
        if d.name == "JsonWebTokenError" then Denied(401, InvalidToken)
        else if d.name == "TokenExpiredError" then Denied(401, ExpiredToken)
        else Passed(d.name)
      else
        var k := FirstMatch(us, (u: Account) => u.id == d.id);
        if k == -1 then Denied(401, UserGone) else Granted(us[k])
  }

  // ---------------------------------------------------------------------
  // Login

  const MissingCredentials: string := "Please provide email and password"
  const WrongCredentials: string := "Incorrect email or password"
  /** What `bcrypt.compare` throws for an account without a password. */
  const NoHash: string := "Illegal arguments: string, undefined"

  /** The guards of `login`, in order: the account's position when they pass. A social
      account without a password makes the comparison throw. Unlike the other controller,
      an unverified address does not stop the login. */
  function LoginVerdict(us: seq<Account>, email: string, password: string): (r: Outcome<nat>)
    ensures email == "" || password == "" ==> r == Reply(Failure(400, MissingCredentials))
    ensures email != "" && password != "" && EmailOwner(us, email) == -1 ==> r == Reply(Failure(401, WrongCredentials))
    ensures email != "" && password != "" && EmailOwner(us, email) != -1 && us[EmailOwner(us, email)].password.None? ==>
      r == Forward(NoHash)
    ensures email != "" && password != "" && EmailOwner(us, email) != -1 && us[EmailOwner(us, email)].password.Some?
              && us[EmailOwner(us, email)].password.value != HashOf(password) ==>
      r == Reply(Failure(401, WrongCredentials))
    ensures r.Reply? && r.answer.Failure? ==> r.answer.status in {400, 401}
    ensures (r.Reply? && r.answer.Success?) <==>
      email != "" && password != "" && EmailOwner(us, email) != -1
      && us[EmailOwner(us, email)].password == Some(HashOf(password))
    ensures r.Reply? && r.answer.Success? ==> r.answer == Success(200, EmailOwner(us, email) as nat)
  {
    if email == "" || password == "" then Reply(Failure(400, MissingCredentials))
    else
      var k := EmailOwner(us, email);
      if k == -1 then Reply(Failure(401, WrongCredentials))
      else if us[k].password.None? then Forward(NoHash)
      else if us[k].password.value != HashOf(password) then Reply(Failure(401, WrongCredentials))
      else Reply(Success(200, k as nat))
  }

  /** `login`: records the login time on success. */
  method Login(db: Accounts, email: string, password: string, token: string, now: int)
    returns (o: Outcome<AuthController.Session>)
    requires db.Valid()
    modifies db`users
    ensures db.Valid()
    ensures LoginVerdict(old(db.users), email, password).Forward? ==>
      o == Forward(LoginVerdict(old(db.users), email, password).error) && db.users == old(db.users)
    ensures LoginVerdict(old(db.users), email, password).Reply? && LoginVerdict(old(db.users), email, password).answer.Failure? ==>
      var v := LoginVerdict(old(db.users), email, password).answer;
      o == Reply(Failure(v.status, v.message)) && db.users == old(db.users)
    ensures LoginVerdict(old(db.users), email, password).Reply? && LoginVerdict(old(db.users), email, password).answer.Success? ==>
      var k := LoginVerdict(old(db.users), email, password).answer.value;
      o == Reply(Success(200, AuthController.Session(token, old(db.users)[k].id)))
      && db.users == old(db.users)[k := old(db.users)[k].(lastLogin := Some(now))]
  {
    var v := LoginVerdict(db.users, email, password);
    if v.Forward? {
      return Forward(v.error);
    }
    if v.answer.Failure? {
      return Reply(Failure(v.answer.status, v.answer.message));
    }
    var k := v.answer.value;
    db.Save(k, db.users[k].(lastLogin := Some(now)));
    o := Reply(Success(200, AuthController.Session(token, db.users[k].id)));
  }

  // ---------------------------------------------------------------------
  // Password reset

  const NoSuchUser: string := "There is no user with that email address."
  const TokenSent: string := "Token sent to email!"
  const ResetMailFailed: string := "Error sending email. Please try again later."
  const BadToken: string := "Token is invalid or has expired"
  const ShortPassword: string := "Password must be at least 8 characters long"

  /** `createPasswordResetToken`: the hash of the mailed token, good for 10 minutes. */
  function IssueReset(u: Account, token: string, now: int): (v: Account)
    ensures v.resetPasswordToken == Some(HashOf(token)) && v.resetPasswordExpires == Some(now + ResetLifetime)
    ensures v == u.(resetPasswordToken := v.resetPasswordToken, resetPasswordExpires := v.resetPasswordExpires)
  {
    u.(resetPasswordToken := Some(HashOf(token)), resetPasswordExpires := Some(now + ResetLifetime))
  }

  /** A second save at the same position replaces the first. */
  lemma SaveTwice(us: seq<Account>, k: nat, first: Account, second: Account)
    requires k < |us|
    ensures us[k := first][k := second] == us[k := second]
  {
  }

  /** `forgotPassword`: `resetToken` is the random token, `mailed` whether the mail went out;
      when it did not, the token is withdrawn. */
  method ForgotPassword(db: Accounts, email: string, resetToken: string, mailed: bool, now: int) returns (a: Answer<string>)
    requires db.Valid()
    modifies db`users
    ensures db.Valid()
    ensures var k := EmailOwner(old(db.users), email);
      k == -1 ==> a == Failure(404, NoSuchUser) && db.users == old(db.users)
    ensures var k := EmailOwner(old(db.users), email);
      k != -1 && mailed ==>
      a == Success(200, TokenSent) && db.users == old(db.users)[k := IssueReset(old(db.users)[k], resetToken, now)]
    ensures var k := EmailOwner(old(db.users), email);
      k != -1 && !mailed ==>
      a == Failure(500, ResetMailFailed)
      && db.users == old(db.users)[k := old(db.users)[k].(resetPasswordToken := None, resetPasswordExpires := None)]
  {
    var k := EmailOwner(db.users, email);
    if k == -1 {
      return Failure(404, NoSuchUser);
    }
    var u := db.users[k];
    ghost var before := db.users;
    db.Save(k, IssueReset(u, resetToken, now));
    if mailed {
      return Success(200, TokenSent);
    }
    var withdrawn := u.(resetPasswordToken := None, resetPasswordExpires := None);
    db.Save(k, withdrawn);
    SaveTwice(before, k, IssueReset(u, resetToken, now), withdrawn);
    a := Failure(500, ResetMailFailed);
  }

  /** The error `createPasswordResetToken` throws: User (1).js calls `crypto` but requires
      only mongoose and bcryptjs. The text depends on the Node version: before Node 19 there
      is no `crypto` global at all, as here; from Node 19 on the global Web Crypto object
      exists and the error is "crypto.randomBytes is not a function" instead. */
  const NoCrypto: string := "crypto is not defined"

  /** `forgotPassword` as written: an unknown address is the 404; for a known one the token
      call throws before the save, so the error goes on to the error handler and no token
      is stored or mailed. It changes no account, so it is stated over the accounts alone. */
  function ForgotPasswordAsWritten(us: seq<Account>, email: string): (o: Outcome<string>)
    ensures EmailOwner(us, email) == -1 <==> o == Reply(Failure(404, NoSuchUser))
    ensures EmailOwner(us, email) != -1 <==> o == Forward(NoCrypto)
    ensures o != Reply(Success(200, TokenSent))
  {
    if EmailOwner(us, email) == -1 then Reply(Failure(404, NoSuchUser)) else Forward(NoCrypto)
  }

  /** The account a reset link is for: the first holding the token's hash with an expiry
      still ahead, or -1. */
  function ResetTarget(us: seq<Account>, token: string, now: int): (k: int)
    ensures -1 <= k < |us|
    ensures k >= 0 ==> (us[k].resetPasswordToken == Some(HashOf(token))
      && us[k].resetPasswordExpires.Some? && us[k].resetPasswordExpires.value > now)
    ensures k == -1 <==> forall j :: 0 <= j < |us| ==>
      !(us[j].resetPasswordToken == Some(HashOf(token)) && us[j].resetPasswordExpires.Some? && us[j].resetPasswordExpires.value > now)
  {
    FirstMatch(us, (u: Account) => u.resetPasswordToken == Some(HashOf(token))
      && u.resetPasswordExpires.Some? && u.resetPasswordExpires.value > now)
  }

  /** The schema's check of the password path on `save()`: the first failing validator of
      the path, `required` (switched off when a provider id is set) before `minlength`. The
      empty string fails `required` when it is on, and `minlength` otherwise. */
  function PasswordError(u: Account, password: string): (e: Option<string>)
    ensures e.None? <==> |password| >= MinPasswordLength
    ensures password == "" && !AuthController.Truthy(u.googleId) && !AuthController.Truthy(u.facebookId) ==>
      e == Some("Password is required")
    ensures (password != "" || AuthController.Truthy(u.googleId) || AuthController.Truthy(u.facebookId))
              && |password| < MinPasswordLength ==>
      e == Some(ShortPassword)
  {
    if password == "" && !(AuthController.Truthy(u.googleId) || AuthController.Truthy(u.facebookId)) then
      Some("Password is required")
    else if |password| < MinPasswordLength then Some(ShortPassword)
    else None
  }

  /** The account after a reset: the new password's hash, both reset fields cleared. */
  function WithNewPassword(u: Account, password: string): (v: Account)
    ensures v.resetPasswordToken.None? && v.resetPasswordExpires.None?
    ensures v.password == Some(HashOf(password))
    ensures v == u.(password := v.password, resetPasswordToken := None, resetPasswordExpires := None)
  {
    u.(password := Some(HashOf(password)), resetPasswordToken := None, resetPasswordExpires := None)
  }

  /** `resetPassword`: a password the schema refuses makes `save()` fail with a validation
      error naming the password path, which goes on to the error handler and leaves the
      account as it was. */
  method ResetPassword(db: Accounts, token: string, password: string, session: string, now: int)
    returns (o: Outcome<AuthController.Session>)
    requires db.Valid()
    modifies db`users
    ensures db.Valid()
    ensures ResetTarget(old(db.users), token, now) == -1 ==> o == Reply(Failure(400, BadToken)) && db.users == old(db.users)
    ensures ResetTarget(old(db.users), token, now) != -1 ==>
      var k := ResetTarget(old(db.users), token, now);
      var e := PasswordError(old(db.users)[k], password);
      (e.Some? ==> o == Forward(AuthController.ValidationMessage(["password: " + e.value])) && db.users == old(db.users))
      && (e.None? ==>
            o == Reply(Success(200, AuthController.Session(session, old(db.users)[k].id)))
            && db.users == old(db.users)[k := WithNewPassword(old(db.users)[k], password)])
  {
    var k := ResetTarget(db.users, token, now);
    if k == -1 {
      return Reply(Failure(400, BadToken));
    }
    var e := PasswordError(db.users[k], password);
    if e.Some? {
      return Forward(AuthController.ValidationMessage(["password: " + e.value]));
    }
    db.Save(k, WithNewPassword(db.users[k], password));
    o := Reply(Success(200, AuthController.Session(session, db.users[k].id)));
  }

  /** The reset cycle: a token issued at `now` opens the reset until ten minutes later and
      no longer, a reset with it clears it for good, and the new password then logs in. */
  lemma ResetLifecycle(us: seq<Account>, k: nat, t: string, password: string, now: int, later: int)
    requires k < |us| && now <= later
    requires forall j :: 0 <= j < |us| && j != k ==> us[j].resetPasswordToken != Some(HashOf(t))
    requires |password| >= MinPasswordLength && us[k].email != "" && EmailOwner(us, us[k].email) == k
    ensures var issued := us[k := IssueReset(us[k], t, now)];
      (later < now + ResetLifetime ==> ResetTarget(issued, t, later) == k)
      && (later >= now + ResetLifetime ==> ResetTarget(issued, t, later) == -1)
      && PasswordError(issued[k], password).None?
    ensures var done := us[k := WithNewPassword(IssueReset(us[k], t, now), password)];
      ResetTarget(done, t, later) == -1
      && LoginVerdict(done, us[k].email, password) == Reply(Success(200, k))
  {
    var issued := us[k := IssueReset(us[k], t, now)];
    var done := us[k := WithNewPassword(IssueReset(us[k], t, now), password)];
    var e := us[k].email;
    if later < now + ResetLifetime {
      var m := ResetTarget(issued, t, later);
      assert m != -1 by {
        assert issued[k].resetPasswordToken == Some(HashOf(t));
      }
    }
    assert EmailOwner(done, e) == k by {
      assert done[k].email == e;
      assert forall j :: 0 <= j < k ==> done[j].email != e;
      var m := EmailOwner(done, e);
      assert m != -1 && m <= k;
    }
  }

  // ---------------------------------------------------------------------
  // Sign-in through a provider

  /** The account's id with the given provider. */
  function ProviderId(u: Account, p: AuthController.Provider): Option<string>
  {
    match p
    case Google => u.googleId
    case Facebook => u.facebookId
  }

  /** The account linked to a provider id: an id already set is kept. */
  function Linked(u: Account, p: AuthController.Provider, pid: string): (v: Account)
    ensures AuthController.Truthy(ProviderId(u, p)) ==> v == u
    ensures !AuthController.Truthy(ProviderId(u, p)) ==> ProviderId(v, p) == Some(pid)
    ensures v.id == u.id && v.email == u.email && v.password == u.password
    ensures p.Google? ==> v.facebookId == u.facebookId
    ensures p.Facebook? ==> v.googleId == u.googleId
  {
    if AuthController.Truthy(ProviderId(u, p)) then u
    else match p
      case Google => u.(googleId := Some(pid))
      case Facebook => u.(facebookId := Some(pid))
  }

  /** Linking twice keeps the first provider id. */
  lemma LinkKeepsFirstId(u: Account, p: AuthController.Provider, a: string, b: string)
    requires a != ""
    ensures Linked(Linked(u, p, a), p, b) == Linked(u, p, a)
    ensures !AuthController.Truthy(ProviderId(u, p)) ==> ProviderId(Linked(Linked(u, p, a), p, b), p) == Some(a)
  {
  }

  /** The schema's complaints about a new provider account, in schema order; no password is
      given, so the provider id must stand in for it. */
  function NewSocialErrors(firstName: string, lastName: string, email: string, emailMatches: bool, pid: string): (errs: seq<string>)
    ensures errs == [] <==> Trim(firstName) != "" && Trim(lastName) != "" && Trim(email) != "" && emailMatches && pid != ""
  {
    (if Trim(firstName) == "" then ["firstName: First name is required"] else [])
    + (if Trim(lastName) == "" then ["lastName: Last name is required"] else [])
    + (if Trim(email) == "" then ["email: Email is required"]
       else if !emailMatches then ["email: Please provide a valid email address"] else [])
    + (if pid == "" then ["password: Password is required"] else [])
  }

  /** The account a provider sign-in creates: verified, no password, the default role. */
  function SocialAccount(p: AuthController.Provider, pid: string, email: string, firstName: string, lastName: string,
                         picture: Option<string>): (u: Account)
    ensures u.isEmailVerified && u.password.None? && u.role == AuthController.DefaultRole
    ensures ProviderId(u, p) == Some(pid) && u.email == NormalEmail(email)
  {
    var base := Account(0, Trim(firstName), Trim(lastName), NormalEmail(email), None, AuthController.DefaultRole,
      if picture.Some? then picture.value else DefaultPicture, true, None, None, None, None, None);
    match p
    case Google => base.(googleId := Some(pid))
    case Facebook => base.(facebookId := Some(pid))
  }

  /** `googleLogin` / `facebookLogin`: the account with the address gets the provider id if it
      has none; otherwise a new verified account is made. A refused new account goes on to
      the error handler. */
  method SocialLogin(db: Accounts, p: AuthController.Provider, pid: string, email: string, emailMatches: bool,
                     firstName: string, lastName: string, picture: Option<string>, token: string, now: int)
    returns (o: Outcome<AuthController.Session>)
    requires db.Valid()
    modifies db
    ensures db.Valid()
    ensures EmailOwner(old(db.users), email) != -1 ==>
      var k := EmailOwner(old(db.users), email);
      o == Reply(Success(200, AuthController.Session(token, old(db.users)[k].id)))
      && db.users == old(db.users)[k := Linked(old(db.users)[k], p, pid).(lastLogin := Some(now))]
    ensures EmailOwner(old(db.users), email) == -1 ==>
      var errs := NewSocialErrors(firstName, lastName, email, emailMatches, pid);
      (errs != [] ==> o == Forward(AuthController.ValidationMessage(errs)) && db.users == old(db.users))
      && (errs == [] ==>
            o == Reply(Success(200, AuthController.Session(token, old(db.nextId))))
            && db.users == old(db.users) + [SocialAccount(p, pid, email, firstName, lastName, picture).(id := old(db.nextId), lastLogin := Some(now))])
  {
    var k := EmailOwner(db.users, email);
    if k != -1 {
      db.Save(k, Linked(db.users[k], p, pid).(lastLogin := Some(now)));
      return Reply(Success(200, AuthController.Session(token, db.users[k].id)));
    }
    var errs := NewSocialErrors(firstName, lastName, email, emailMatches, pid);
    if errs != [] {
      return Forward(AuthController.ValidationMessage(errs));
    }
    var id := db.Insert(SocialAccount(p, pid, email, firstName, lastName, picture).(lastLogin := Some(now)));
    o := Reply(Success(200, AuthController.Session(token, id)));
  }

  /** A provider account has no password, so a password login with its address goes on to
      the error handler instead of answering. */
  lemma SocialAccountCannotUsePassword(us: seq<Account>, k: nat, password: string)
    requires k < |us| && us[k].password.None? && us[k].email != "" && password != ""
    requires EmailOwner(us, us[k].email) == k
    ensures LoginVerdict(us, us[k].email, password) == Forward(NoHash)
  {
  }
}
