/** The account controller of the academy site (controllers/authcontroller.js) over its user
    schema (models/user.js): sign-up with e-mail verification, login, the `protect` and
    `restrictTo` middleware, and sign-in through a Google or Facebook profile. Lookups skip
    deactivated accounts, as the schema's find hook does. */
module AuthController {
  import opened Common
  import RoleGate

  datatype SocialProfile = SocialProfile(id: string, email: string, name: string, token: string)

  datatype Provider = Google | Facebook

  datatype Account = Account(
    id: Id,
    firstName: string,
    lastName: string,
    email: string,
    password: Digest,
    role: string,
    isEmailVerified: bool,
    emailVerificationToken: Option<Digest>,
    emailVerificationExpires: Option<int>,
    google: Option<SocialProfile>,
    facebook: Option<SocialProfile>,
    lastLogin: Option<int>,
    active: bool)

  /** The roles the schema admits. */
  const Roles: set<string> := {"admin", "coach", "parent", "player"}
  const DefaultRole: string := "parent"
  const MinPasswordLength: nat := 8
  /** A verification token is good for 24 hours. */
  const VerificationLifetime: int := 24 * 60 * 60 * 1000

  /** What a successful sign-up or login answers: the signed token and the account (sent
      without its password). */
  datatype Session = Session(token: string, user: Id)

  // ---------------------------------------------------------------------
  // Token extraction, `protect` and `restrictTo`

  /** JavaScript truthiness of an optional string: present and non-empty. */
  predicate Truthy(v: Option<string>)
  {
    v.Some? && v.value != ""
  }

  /** The token `protect` reads: the second space-separated field of an Authorization header
      that starts with "Bearer", otherwise the `jwt` cookie; none when the chosen place holds
      nothing. A Bearer header hides the cookie even when it carries no token. */
  function BearerToken(authorization: Option<string>, cookie: Option<string>): (t: Option<string>)
    ensures t.Some? ==> t.value != ""
    ensures Truthy(authorization) && StartsWith(authorization.value, "Bearer") ==>
      (t.Some? <==> |SplitSpace(authorization.value)| >= 2 && SplitSpace(authorization.value)[1] != "")
    ensures Truthy(authorization) && StartsWith(authorization.value, "Bearer") && t.Some? ==>
      t.value == SplitSpace(authorization.value)[1] && ' ' !in t.value
    ensures !(Truthy(authorization) && StartsWith(authorization.value, "Bearer")) ==>
      t == (if Truthy(cookie) then cookie else None)
  {
    if Truthy(authorization) && StartsWith(authorization.value, "Bearer") then
      var parts := SplitSpace(authorization.value);
      if |parts| >= 2 && parts[1] != "" then Some(parts[1]) else None
    else if Truthy(cookie) then cookie
    else None
  }

  /** A header written as "Bearer <token>" yields the token, whatever the cookie holds; a bare
      "Bearer" yields none, and the cookie is then not consulted. */
  lemma BearerRoundTrip(t: string, cookie: Option<string>)
    requires t != "" && ' ' !in t
    ensures BearerToken(Some("Bearer " + t), cookie) == Some(t)
    ensures BearerToken(Some("Bearer"), cookie) == None
  {
    var h := "Bearer " + t;
    assert h[..6] == "Bearer";
    assert h[6] == ' ';
    assert ' ' in h;
    var i := FirstSpace(h);
    assert i == 6 by {
      assert ' ' !in h[..6];
    }
    assert h[i + 1..] == t;
    assert SplitSpace(h) == [h[..6]] + SplitSpace(t);
    assert "Bearer"[..6] == "Bearer";
    assert ' ' !in "Bearer";
  }

  /** Without a Bearer header the cookie decides. */
  lemma CookieFallback(authorization: Option<string>, c: string)
    requires c != ""
    requires authorization.None? || authorization.value == "" || !StartsWith(authorization.value, "Bearer")
    ensures BearerToken(authorization, Some(c)) == Some(c)
    ensures BearerToken(authorization, None) == None
  {
  }

  datatype Access = Granted(user: Account) | Denied(status: nat, message: string)

  const NotLoggedIn: string := "You are not logged in! Please log in to get access."
  const NotAuthorized: string := "Not authorized to access this route"
  const UserGone: string := "The user belonging to this token no longer exists."

  /** Position of the active account with the given id, or -1. */
  function AccountIndex(us: seq<Account>, id: Id): (k: int)
    ensures -1 <= k < |us|
    ensures k >= 0 ==> us[k].active && us[k].id == id
    ensures k == -1 <==> forall j :: 0 <= j < |us| ==> !(us[j].active && us[j].id == id)
  {
    FirstMatch(us, (u: Account) => u.active && u.id == id)
  }

  /** `protect`: `verify` is `jwt.verify` under the server secret (the tokens it accepts and
      the id each decodes to); any failure of it is answered 401 "Not authorized". */
  function Protect(us: seq<Account>, verify: map<string, Id>, authorization: Option<string>, cookie: Option<string>): (r: Access)
    ensures BearerToken(authorization, cookie).None? ==> r == Denied(401, NotLoggedIn)
    ensures BearerToken(authorization, cookie).Some? && BearerToken(authorization, cookie).value !in verify ==>
      r == Denied(401, NotAuthorized)
    ensures r.Granted? <==>
      var t := BearerToken(authorization, cookie);
      t.Some? && t.value in verify && exists j :: 0 <= j < |us| && us[j].active && us[j].id == verify[t.value]
    ensures r.Granted? ==> r.user in us && r.user.active && r.user.id == verify[BearerToken(authorization, cookie).value]
    ensures r.Denied? ==> r.status == 401
  {
    var t := BearerToken(authorization, cookie);
    if t.None? then Denied(401, NotLoggedIn)
    else if t.value !in verify then Denied(401, NotAuthorized)
    else
      var k := AccountIndex(us, verify[t.value]);
      if k == -1 then Denied(401, UserGone) else Granted(us[k])
  }

  const NoPermission: string := "You do not have permission to perform this action"

  /** `restrictTo(...roles)` (the same gate in authController.js): it passes exactly when
      the role-list middleware would, with its own refusal text. */
  function RestrictTo(roles: seq<string>, role: string): (g: RoleGate.Gate)
    ensures g.Next? <==> role in roles
    ensures g.Next? == RoleGate.Check(roles, role).Next?
    ensures !g.Next? ==> g == RoleGate.Refuse(403, NoPermission)
  {
    if role in roles then RoleGate.Next else RoleGate.Refuse(403, NoPermission)
  }

  // ---------------------------------------------------------------------
  // Schema validation

  /** `errs.join(', ')` */
  function JoinComma(errs: seq<string>): string
  {
    if errs == [] then "" else if |errs| == 1 then errs[0] else errs[0] + ", " + JoinComma(errs[1..])
  }

  /** The text of Mongoose's validation error for the failing paths. */
  function ValidationMessage(errs: seq<string>): string
  {
    "User validation failed: " + JoinComma(errs)
  }

  /** The schema's complaints about a new account, one `path: message` per failing path in
      schema order: names are trimmed before the required check, `emailMatches` says whether
      the trimmed, lower-cased address matches the schema's pattern. */
  function SchemaErrors(firstName: string, lastName: string, email: string, emailMatches: bool, password: string, role: string): (errs: seq<string>)
    ensures errs == [] <==>
      Trim(firstName) != "" && Trim(lastName) != "" && Trim(email) != "" && emailMatches
      && |password| >= MinPasswordLength && role in Roles
    ensures Trim(lastName) == "" ==> "lastName: Please provide your last name" in errs
  {
    (if Trim(firstName) == "" then ["firstName: Please provide your first name"] else [])
    + (if Trim(lastName) == "" then ["lastName: Please provide your last name"] else [])
    + (if Trim(email) == "" then ["email: Please provide your email"]
       else if !emailMatches then ["email: Please provide a valid email"] else [])
    + (if password == "" then ["password: Please provide a password"]
       else if |password| < MinPasswordLength
       then ["password: Path `password` (`" + password + "`) is shorter than the minimum allowed length (8)."]
       else [])
    + (if role !in Roles then ["role: `" + role + "` is not a valid enum value for path `role`."] else [])
  }

  /** The text of the unique-index violation on `email` (the collection's exact wording is
      not modelled). */
  const DuplicateEmail: string := "E11000 duplicate key error: email"

  // ---------------------------------------------------------------------
  // The account store

  class Accounts {
    var users: seq<Account>
    var nextId: Id

    /** Ids in use are below `nextId` and no two accounts share one. */
    ghost predicate Valid()
      reads this
    {
      (forall i :: 0 <= i < |users| ==> users[i].id < nextId)
      && (forall i, j :: 0 <= i < j < |users| ==> users[i].id != users[j].id)
    }

    constructor Empty()
      ensures Valid() && users == [] && nextId == 0
    {
      users, nextId := [], 0;
    }

    /** `User.create` of an account whose id is fresh: returns its id. */
    method Insert(u: Account) returns (id: Id)
      requires Valid()
      modifies this
      ensures Valid()
      ensures id == old(nextId) && nextId == id + 1
      ensures users == old(users) + [u.(id := id)]
    {
      id := nextId;
      users := users + [u.(id := id)];
      nextId := nextId + 1;
    }

    /** `user.save()` of the account at position `k`. */
    method Save(k: nat, u: Account)
      requires Valid() && k < |users| && u.id == users[k].id
      modifies this`users
      ensures Valid()
      ensures users == old(users)[k := u]
    {
      users := users[k := u];
    }
  }

  /** Position of the first active account with this address, or -1 (`User.findOne({email})`;
      the filter value goes through the path's `lowercase` and `trim` setters). */
  function EmailOwner(us: seq<Account>, email: string): (k: int)
    ensures -1 <= k < |us|
    ensures k >= 0 ==> us[k].active && us[k].email == NormalEmail(email)
    ensures k >= 0 ==> forall j :: 0 <= j < k ==> !(us[j].active && us[j].email == NormalEmail(email))
    ensures k == -1 <==> forall j :: 0 <= j < |us| ==> !(us[j].active && us[j].email == NormalEmail(email))
  {
    ActiveHolder(us, NormalEmail(email))
  }

  /** Position of the first active account holding the stored address `e`, or -1. */
  function ActiveHolder(us: seq<Account>, e: string): (k: int)
    ensures -1 <= k < |us|
    ensures k >= 0 ==> us[k].active && us[k].email == e
    ensures k >= 0 ==> forall j :: 0 <= j < k ==> !(us[j].active && us[j].email == e)
    ensures k == -1 <==> forall j :: 0 <= j < |us| ==> !(us[j].active && us[j].email == e)
  {
    FirstMatch(us, (u: Account) => u.active && u.email == e)
  }

  /** Saving an account with the same address and the same active flag moves no lookup. */
  lemma ActiveHolderAfterSave(us: seq<Account>, k: nat, v: Account, e: string)
    requires k < |us| && v.active == us[k].active && v.email == us[k].email
    ensures ActiveHolder(us[k := v], e) == ActiveHolder(us, e)
  {
    var vs := us[k := v];
    assert forall j :: 0 <= j < |us| ==> (vs[j].active && vs[j].email == e <==> us[j].active && us[j].email == e);
    var a := ActiveHolder(us, e);
    if a == -1 {
      assert forall j :: 0 <= j < |vs| ==> !(vs[j].active && vs[j].email == e);
    } else {
      assert vs[a].active && vs[a].email == e;
      assert forall j :: 0 <= j < a ==> !(vs[j].active && vs[j].email == e);
    }
  }

  lemma EmailOwnerAfterSave(us: seq<Account>, k: nat, v: Account, email: string)
    requires k < |us| && v.active == us[k].active && v.email == us[k].email
    ensures EmailOwner(us[k := v], email) == EmailOwner(us, email)
  {
    ActiveHolderAfterSave(us, k, v, NormalEmail(email));
  }

  /** Whether any account, deactivated ones included, holds the normalised address (the unique index). */
  predicate EmailTaken(us: seq<Account>, email: string)
  {
    exists j :: 0 <= j < |us| && us[j].email == NormalEmail(email)
  }

  // ---------------------------------------------------------------------
  // Sign-up and e-mail verification

  const PasswordMismatch: string := "Passwords do not match"
  const EmailInUse: string := "Email already in use"
  const VerificationMailFailed: string := "Error sending verification email. Please try again later."

  /** `register`: `verificationToken` is the random token mailed to the user, `mailed` whether
      the mail went out, `token` the signed session token. An account is created whenever
      validation passes, even when the mail fails; it then holds no verification token. */
  method Register(db: Accounts, firstName: string, lastName: string, email: string, emailMatches: bool,
                  password: string, passwordConfirm: string, role: Option<string>,
                  verificationToken: string, mailed: bool, token: string, now: int)
    returns (a: Answer<Session>)
    requires db.Valid()
    modifies db
    ensures db.Valid()
    ensures password != passwordConfirm ==> a == Failure(400, PasswordMismatch) && db.users == old(db.users)
    ensures password == passwordConfirm && EmailOwner(old(db.users), email) != -1 ==>
      a == Failure(400, EmailInUse) && db.users == old(db.users)
    ensures a.Failure? && a.status == 400 ==> db.users == old(db.users)
    ensures a.Success? <==>
      password == passwordConfirm && EmailOwner(old(db.users), email) == -1
      && SchemaErrors(firstName, lastName, email, emailMatches, password, if Truthy(role) then role.value else DefaultRole) == []
      && !EmailTaken(old(db.users), email) && mailed
    ensures !(a.Failure? && a.status == 400) ==>
      var r := if Truthy(role) then role.value else DefaultRole;
      db.users == old(db.users) + [Account(old(db.nextId), Trim(firstName), Trim(lastName), NormalEmail(email), HashOf(password), r, false,
        if mailed then Some(HashOf(verificationToken)) else None,
        if mailed then Some(now + VerificationLifetime) else None,
        None, None, None, true)]
      && (a.Success? ==> a == Success(201, Session(token, old(db.nextId))))
      && (a.Failure? ==> a == Failure(500, VerificationMailFailed))
  {
    if password != passwordConfirm {
      return Failure(400, PasswordMismatch);
    }
    if EmailOwner(db.users, email) != -1 {
      return Failure(400, EmailInUse);
    }
    var r := if Truthy(role) then role.value else DefaultRole;
    var errs := SchemaErrors(firstName, lastName, email, emailMatches, password, r);
    if errs != [] {
      return Failure(400, ValidationMessage(errs));
    }
    if EmailTaken(db.users, email) {
      return Failure(400, DuplicateEmail);
    }
    var u := Account(0, Trim(firstName), Trim(lastName), NormalEmail(email), HashOf(password), r, false,
      if mailed then Some(HashOf(verificationToken)) else None,
      if mailed then Some(now + VerificationLifetime) else None,
      None, None, None, true);
    var id := db.Insert(u);
    if mailed {
      a := Success(201, Session(token, id));
    } else {
      a := Failure(500, VerificationMailFailed);
    }
  }

  /** The account a verification link is for: the first active one holding the token's hash
      with an expiry still ahead, or -1. */
  function VerifyTarget(us: seq<Account>, token: string, now: int): (k: int)
    ensures -1 <= k < |us|
    ensures k >= 0 ==> (us[k].active && us[k].emailVerificationToken == Some(HashOf(token))
      && us[k].emailVerificationExpires.Some? && us[k].emailVerificationExpires.value > now)
    ensures k == -1 <==> forall j :: 0 <= j < |us| ==>
      !(us[j].active && us[j].emailVerificationToken == Some(HashOf(token))
        && us[j].emailVerificationExpires.Some? && us[j].emailVerificationExpires.value > now)
  {
    FirstMatch(us, (u: Account) => u.active && u.emailVerificationToken == Some(HashOf(token))
      && u.emailVerificationExpires.Some? && u.emailVerificationExpires.value > now)
  }

  /** The account after its address is confirmed: verified, both token fields cleared. */
  function Verified(u: Account): (v: Account)
    ensures v.isEmailVerified && v.emailVerificationToken.None? && v.emailVerificationExpires.None?
    ensures v == u.(isEmailVerified := true, emailVerificationToken := None, emailVerificationExpires := None)
  {
    u.(isEmailVerified := true, emailVerificationToken := None, emailVerificationExpires := None)
  }

  const BadToken: string := "Token is invalid or has expired"
  const VerifiedRedirect: string := "/login?verified=true"

  /** `verifyEmail`: a redirect to the login page on success. */
  method VerifyEmail(db: Accounts, token: string, now: int) returns (a: Answer<string>)
    requires db.Valid()
    modifies db`users
    ensures db.Valid()
    ensures VerifyTarget(old(db.users), token, now) == -1 ==> a == Failure(400, BadToken) && db.users == old(db.users)
    ensures VerifyTarget(old(db.users), token, now) != -1 ==>
      var k := VerifyTarget(old(db.users), token, now);
      a == Success(302, VerifiedRedirect) && db.users == old(db.users)[k := Verified(old(db.users)[k])]
  {
    var k := VerifyTarget(db.users, token, now);
    if k == -1 {
      return Failure(400, BadToken);
    }
    db.Save(k, Verified(db.users[k]));
    a := Success(302, VerifiedRedirect);
  }

  // ---------------------------------------------------------------------
  // Login

  const MissingCredentials: string := "Please provide email and password"
  const WrongCredentials: string := "Incorrect email or password"
  const Unverified: string := "Please verify your email before logging in"

  /** The guards of `login`, in order: the account's position when they all pass. */
  function LoginVerdict(us: seq<Account>, email: string, password: string): (r: Answer<nat>)
    ensures email == "" || password == "" ==> r == Failure(400, MissingCredentials)
    ensures r.Success? <==>
      email != "" && password != "" && EmailOwner(us, email) != -1
      && us[EmailOwner(us, email)].password == HashOf(password) && us[EmailOwner(us, email)].isEmailVerified
    ensures r.Success? ==> r.status == 200 && r.value == EmailOwner(us, email) as nat
    ensures email != "" && password != "" && (EmailOwner(us, email) == -1 || us[EmailOwner(us, email)].password != HashOf(password)) ==>
      r == Failure(401, WrongCredentials)
    ensures (email != "" && password != "" && EmailOwner(us, email) != -1 && us[EmailOwner(us, email)].password == HashOf(password)
      && !us[EmailOwner(us, email)].isEmailVerified) ==>
      r == Failure(401, Unverified)
  {
    if email == "" || password == "" then Failure(400, MissingCredentials)
    else
      var k := EmailOwner(us, email);
      if k == -1 || us[k].password != HashOf(password) then Failure(401, WrongCredentials)
      else if !us[k].isEmailVerified then Failure(401, Unverified)
      else Success(200, k as nat)
  }

  /** `login`: records the login time on success. */
  method Login(db: Accounts, email: string, password: string, token: string, now: int) returns (a: Answer<Session>)
    requires db.Valid()
    modifies db`users
    ensures db.Valid()
    ensures LoginVerdict(old(db.users), email, password).Failure? ==>
      var v := LoginVerdict(old(db.users), email, password);
      a == Failure(v.status, v.message) && db.users == old(db.users)
    ensures LoginVerdict(old(db.users), email, password).Success? ==>
      var k := LoginVerdict(old(db.users), email, password).value;
      a == Success(200, Session(token, old(db.users)[k].id))
      && db.users == old(db.users)[k := old(db.users)[k].(lastLogin := Some(now))]
  {
    var v := LoginVerdict(db.users, email, password);
    if v.Failure? {
      return Failure(v.status, v.message);
    }
    var k := v.value;
    db.Save(k, db.users[k].(lastLogin := Some(now)));
    a := Success(200, Session(token, db.users[k].id));
  }

  /** An account stored with a normalised address, where no active account had it, is the
      one every spelling of the address finds: the stored address itself and any text that
      differs from the typed one only in letter case and surrounding white space. */
  lemma SignUpAddressFindsAccount(us: seq<Account>, u: Account, typed: string, other: string)
    requires EmailOwner(us, typed) == -1 && u.active && u.email == NormalEmail(typed)
    requires NormalEmail(other) == NormalEmail(typed)
    ensures EmailOwner(us + [u], other) == |us|
    ensures EmailOwner(us + [u], u.email) == |us|
  {
    var vs := us + [u];
    var e := NormalEmail(typed);
    assert forall j :: 0 <= j < |us| ==> !(vs[j].active && vs[j].email == e);
    assert vs[|us|].active && vs[|us|].email == e;
    FirstOwner(vs, other, |us|);
    NormalEmailIdempotent(typed);
    FirstOwner(vs, u.email, |us|);
  }

  /** The first active account holding the normalised address is the one found. */
  lemma FirstOwner(us: seq<Account>, email: string, k: nat)
    requires k < |us| && us[k].active && us[k].email == NormalEmail(email)
    requires forall j :: 0 <= j < k ==> !(us[j].active && us[j].email == NormalEmail(email))
    ensures EmailOwner(us, email) == k
  {
    var m := EmailOwner(us, email);
    assert m != -1;
  }

  /** A sign-up whose mail went through can be verified with the mailed token until the
      token expires, and only once; after it the password logs in. */
  lemma VerificationLifecycle(us: seq<Account>, k: nat, t: string, password: string, now: int)
    requires k < |us| && us[k].active && us[k].emailVerificationToken == Some(HashOf(t))
    requires us[k].emailVerificationExpires.Some? && us[k].emailVerificationExpires.value > now
    requires forall j :: 0 <= j < |us| && j != k ==> us[j].emailVerificationToken != Some(HashOf(t))
    requires password != "" && us[k].password == HashOf(password) && EmailOwner(us, us[k].email) == k
    ensures VerifyTarget(us, t, now) == k
    ensures VerifyTarget(us[k := Verified(us[k])], t, now) == -1
    ensures us[k].email != "" ==> LoginVerdict(us[k := Verified(us[k])], us[k].email, password) == Success(200, k)
  {
    EmailOwnerAfterSave(us, k, Verified(us[k]), us[k].email);
  }

  /** When the verification mail fails, the account is kept without a token: no link can
      verify it and its password only ever meets "Please verify your email". */
  lemma MailFailureStrandsAccount(us: seq<Account>, k: nat, t: string, password: string, now: int)
    requires k < |us| && us[k].emailVerificationToken.None? && !us[k].isEmailVerified
    requires us[k].email != "" && password != "" && EmailOwner(us, us[k].email) == k && us[k].password == HashOf(password)
    ensures VerifyTarget(us, t, now) != k
    ensures LoginVerdict(us, us[k].email, password) == Failure(401, Unverified)
  {
  }

  // ---------------------------------------------------------------------
  // Sign-in through a social profile

  /** The name split of a new social account: the first space-separated word and, when
      there are at least two, the last one; otherwise an empty last name. */
  function NameParts(name: string): (r: (string, string))
    ensures ' ' !in r.0
    ensures ' ' !in r.1
    ensures StartsWith(name, r.0)
    ensures ' ' in name ==> |r.0| < |name| && name[|r.0|] == ' '
    ensures ' ' in name ==> |r.1| < |name| && name[|name| - |r.1| - 1] == ' ' && name[|name| - |r.1|..] == r.1
    ensures ' ' !in name ==> r.0 == name
    ensures ' ' !in name ==> r.1 == ""
  {
    var parts := SplitSpace(name);
    SplitPrefix(name);
    SplitLast(name);
    (parts[0], if |parts| > 1 then parts[|parts| - 1] else "")
  }

  /** The first field of a split is where the text starts, up to its first space. */
  lemma SplitPrefix(s: string)
    ensures StartsWith(s, SplitSpace(s)[0])
    ensures ' ' in s ==> |SplitSpace(s)| >= 2
    ensures ' ' in s ==> |SplitSpace(s)[0]| < |s| && s[|SplitSpace(s)[0]|] == ' '
  {
    if ' ' in s {
      var i := FirstSpace(s);
      assert SplitSpace(s)[0] == s[..i];
    }
  }

  /** The last field of a split with a space in it is where the text ends, after a space. */
  lemma SplitLast(s: string)
    ensures var p := SplitSpace(s); var l := p[|p| - 1];
      |p| > 1 ==> |l| < |s| && s[|s| - |l| - 1] == ' ' && s[|s| - |l|..] == l
  {
    var p := SplitSpace(s);
    if |p| > 1 {
      SplitJoin(s);
      JoinLast(p);
      var l := p[|p| - 1];
      var front := JoinSpace(p[..|p| - 1]);
      assert s == front + " " + l;
      assert s[|s| - |l|..] == l;
    }
  }

  /** Joining ends with a space and the last piece. */
  lemma {:induction false} JoinLast(parts: seq<string>)
    requires |parts| > 1
    ensures JoinSpace(parts) == JoinSpace(parts[..|parts| - 1]) + " " + parts[|parts| - 1]
    decreases |parts|
  {
    var n := |parts|;
    if n == 2 {
      assert parts[..1] == [parts[0]];
    } else {
      JoinLast(parts[1..]);
      assert parts[1..][..n - 2] == parts[..n - 1][1..];
      assert parts[1..][n - 2] == parts[n - 1];
    }
  }

  /** "First Last" splits into its two words, and a middle name is skipped. */
  lemma {:induction false} NamePartsOfFullName(first: string, middle: seq<string>, last: string)
    requires ' ' !in first && ' ' !in last
    requires forall i :: 0 <= i < |middle| ==> ' ' !in middle[i]
    ensures NameParts(JoinSpace([first] + middle + [last])) == (first, last)
  {
    var parts := [first] + middle + [last];
    SplitJoinParts(parts);
  }

  /** Splitting words joined by single spaces gives the words back. */
  lemma {:induction false} SplitJoinParts(parts: seq<string>)
    requires |parts| >= 1 && forall i :: 0 <= i < |parts| ==> ' ' !in parts[i]
    ensures SplitSpace(JoinSpace(parts)) == parts
    decreases |parts|
  {
    if |parts| > 1 {
      SplitAfterWord(parts[0], JoinSpace(parts[1..]));
      SplitJoinParts(parts[1..]);
      assert parts == [parts[0]] + parts[1..];
    }
  }

  /** A word followed by a space splits off as the first field. */
  lemma SplitAfterWord(p: string, rest: string)
    requires ' ' !in p
    ensures SplitSpace(p + " " + rest) == [p] + SplitSpace(rest)
  {
    var s := p + " " + rest;
    FirstSpaceAfterWord(p, rest);
    assert s[..|p|] == p;
    assert s[|p| + 1..] == rest;
  }

  /** In a word followed by a space, the first space is the one after the word. */
  lemma {:induction false} FirstSpaceAfterWord(p: string, rest: string)
    requires ' ' !in p
    ensures ' ' in p + " " + rest && FirstSpace(p + " " + rest) == |p|
    decreases |p|
  {
    var s := p + " " + rest;
    if p == [] {
      assert s[0] == ' ';
    } else {
      assert s[0] == p[0];
      assert s[1..] == p[1..] + " " + rest;
      FirstSpaceAfterWord(p[1..], rest);
    }
  }

  /** The stored profile of the given provider. */
  function ProfileOf(u: Account, p: Provider): Option<SocialProfile>
  {
    match p
    case Google => u.google
    case Facebook => u.facebook
  }

  /** The account with the provider's profile replaced. */
  function WithProfile(u: Account, p: Provider, s: SocialProfile): (v: Account)
    ensures ProfileOf(v, p) == Some(s)
    ensures p.Google? ==> v.facebook == u.facebook
    ensures p.Facebook? ==> v.google == u.google
    ensures v.id == u.id && v.email == u.email && v.password == u.password && v.isEmailVerified == u.isEmailVerified
    ensures v.firstName == u.firstName && v.lastName == u.lastName && v.role == u.role
  {
    match p
    case Google => u.(google := Some(s))
    case Facebook => u.(facebook := Some(s))
  }

  /** Position of the first active account linked to the provider id, or -1. */
  function ProfileOwner(us: seq<Account>, p: Provider, id: string): (k: int)
    ensures -1 <= k < |us|
    ensures k >= 0 ==> us[k].active && ProfileOf(us[k], p).Some? && ProfileOf(us[k], p).value.id == id
    ensures k == -1 <==> forall j :: 0 <= j < |us| ==>
      !(us[j].active && ProfileOf(us[j], p).Some? && ProfileOf(us[j], p).value.id == id)
  {
    FirstMatch(us, (u: Account) => u.active && ProfileOf(u, p).Some? && ProfileOf(u, p).value.id == id)
  }

  /** The account a social sign-in would create: named by the split, verified, with a random
      password and the profile. */
  function SocialAccount(p: Provider, profile: SocialProfile, randomPassword: string): (u: Account)
    ensures u.isEmailVerified && u.role == DefaultRole && u.email == NormalEmail(profile.email)
    ensures ProfileOf(u, p) == Some(profile)
    ensures (u.firstName, u.lastName) == (Trim(NameParts(profile.name).0), Trim(NameParts(profile.name).1))
  {
    var names := NameParts(profile.name);
    var first := Trim(names.0);
    var last := Trim(names.1);
    var base := Account(0, first, last, NormalEmail(profile.email), HashOf(randomPassword), DefaultRole, true,
      None, None, None, None, None, true);
    var u := WithProfile(base, p, profile);
    assert (u.firstName, u.lastName) == (first, last);
    u
  }

  /** `googleLogin` / `facebookLogin`: the account linked to the profile id, else the one
      with the address (the profile is linked to it, replacing any earlier one), else a new
      account. `randomPassword` is the 16 random bytes in hex. */
  method SocialLogin(db: Accounts, p: Provider, id: string, email: string, emailMatches: bool, name: string,
                     providerToken: string, randomPassword: string, token: string, now: int)
    returns (a: Answer<Session>)
    requires db.Valid() && |randomPassword| == 32
    modifies db
    ensures db.Valid()
    ensures ProfileOwner(old(db.users), p, id) != -1 ==>
      var k := ProfileOwner(old(db.users), p, id);
      a == Success(200, Session(token, old(db.users)[k].id))
      && db.users == old(db.users)[k := old(db.users)[k].(lastLogin := Some(now))]
    ensures ProfileOwner(old(db.users), p, id) == -1 && EmailOwner(old(db.users), email) != -1 ==>
      var k := EmailOwner(old(db.users), email);
      a == Success(200, Session(token, old(db.users)[k].id))
      && db.users == old(db.users)[k := WithProfile(old(db.users)[k], p, SocialProfile(id, email, name, providerToken)).(lastLogin := Some(now))]
    ensures ProfileOwner(old(db.users), p, id) == -1 && EmailOwner(old(db.users), email) == -1 ==>
      var u := SocialAccount(p, SocialProfile(id, email, name, providerToken), randomPassword);
      var errs := SchemaErrors(u.firstName, u.lastName, email, emailMatches, randomPassword, DefaultRole);
      (errs != [] ==> a == Failure(400, ValidationMessage(errs)) && db.users == old(db.users))
      && (errs == [] && EmailTaken(old(db.users), email) ==> a == Failure(400, DuplicateEmail) && db.users == old(db.users))
      && (errs == [] && !EmailTaken(old(db.users), email) ==>
            a == Success(200, Session(token, old(db.nextId)))
            && db.users == old(db.users) + [u.(id := old(db.nextId), lastLogin := Some(now))])
  {
    var k := ProfileOwner(db.users, p, id);
    if k != -1 {
      db.Save(k, db.users[k].(lastLogin := Some(now)));
      return Success(200, Session(token, db.users[k].id));
    }
    k := EmailOwner(db.users, email);
    if k != -1 {
      db.Save(k, WithProfile(db.users[k], p, SocialProfile(id, email, name, providerToken)).(lastLogin := Some(now)));
      return Success(200, Session(token, db.users[k].id));
    }
    var u := SocialAccount(p, SocialProfile(id, email, name, providerToken), randomPassword);
    var errs := SchemaErrors(u.firstName, u.lastName, email, emailMatches, randomPassword, DefaultRole);
    if errs != [] {
      return Failure(400, ValidationMessage(errs));
    }
    if EmailTaken(db.users, email) {
      return Failure(400, DuplicateEmail);
    }
    var nid := db.Insert(u.(lastLogin := Some(now)));
    a := Success(200, Session(token, nid));
  }

  /** As written, a new social account whose profile name is a single word gets the last
      name '' from the split, which the schema's required last name refuses: the sign-in
      answers 400 whatever else holds. */
  lemma SingleWordNameRefused(p: Provider, profile: SocialProfile, emailMatches: bool, randomPassword: string)
    requires ' ' !in profile.name
    ensures var u := SocialAccount(p, profile, randomPassword);
      var errs := SchemaErrors(u.firstName, u.lastName, profile.email, emailMatches, randomPassword, DefaultRole);
      errs != [] && "lastName: Please provide your last name" in errs
  {
    assert Trim("") == "";
  }

  /** The evidently intended validation of a social account: the split may leave the last
      name empty. */
  function SocialSchemaErrors(firstName: string, email: string, emailMatches: bool, password: string): (errs: seq<string>)
    ensures errs == [] <==> Trim(firstName) != "" && Trim(email) != "" && emailMatches && |password| >= MinPasswordLength
  {
    TrimKeeps("-");
    SchemaErrors(firstName, "-", email, emailMatches, password, DefaultRole)
  }

  /** Under the intended validation a single-word name signs up, whenever the word and the
      address are acceptable. */
  lemma SingleWordNameAcceptedAsIntended(p: Provider, profile: SocialProfile, randomPassword: string)
    requires ' ' !in profile.name && Trim(profile.name) != "" && Trim(profile.email) != "" && |randomPassword| == 32
    ensures var u := SocialAccount(p, profile, randomPassword);
      SocialSchemaErrors(u.firstName, profile.email, true, randomPassword) == []
      && u.firstName == Trim(profile.name) && u.lastName == ""
  {
    assert Trim("") == "";
  }
}
