/** The account routes of the messaging server (packages/server/routes/auth.js): register,
    login, forgot and reset password, profile update and password change, over the
    users of the document store. `sign` is the token the JWT signing call produces,
    `None` when that call fails; the route then answers a server error after its
    store update. Absent body fields are empty strings. */
module ServerAuth {
  import opened Common
  import opened ServerStore

  /** The user object the routes answer with: it has no password field. */
  datatype PublicUser = PublicUser(id: Id, email: string, firstName: string, lastName: string, role: string)

  datatype Session = Session(token: string, user: PublicUser)

  function Public(u: UserDoc): PublicUser
  {
    PublicUser(u.id, u.email, u.firstName, u.lastName, u.role)
  }

  /** Some stored user has this email once the filter is cast: the schema's email path is
      `lowercase` and `trim`, so the filter value is normalised before the query runs. */
  predicate HasEmail(users: map<Id, UserDoc>, email: string)
  {
    exists id :: id in users && users[id].email == NormalEmail(email)
  }

  /** `User.findOne({email})` */
  method FindByEmail(db: Database, email: string) returns (r: Option<Id>)
    ensures r.None? <==> !HasEmail(db.users, email)
    ensures r.Some? ==> r.value in db.users && db.users[r.value].email == NormalEmail(email)
  {
    var e := NormalEmail(email);
    if exists id :: id in db.users && db.users[id].email == e {
      var id :| id in db.users && db.users[id].email == e;
      r := Some(id);
    } else {
      r := None;
    }
  }

  // ---------------------------------------------------------------------
  // Schema validation of a user document

  const MinPasswordLength: nat := 6

  /** The roles the user schema accepts. */
  predicate SchemaUserRole(role: string)
  {
    role == "user" || role == "admin"
  }

  predicate SchemaTheme(p: Preferences)
  {
    p.theme.None? || p.theme.value in {"light", "dark", "system"}
  }

  /** The validators the schema runs on a new user, after its setters: the trimmed names
      and the normalised email are required, the email matches the schema's pattern
      (`emailMatches`, the pattern itself is not modelled), the password has at least six
      characters and the role is from the enumeration. */
  predicate Admissible(email: string, emailMatches: bool, password: string, firstName: string, lastName: string, role: string)
  {
    Trim(firstName) != "" && Trim(lastName) != "" && NormalEmail(email) != "" && emailMatches
    && |password| >= MinPasswordLength && SchemaUserRole(role)
  }

  /** `role || 'player'` */
  function RoleOrDefault(role: string): (r: string)
    ensures role != "" ==> r == role
  {
    if role != "" then role else "player"
  }

  /** The stored document of a new user: the setters have trimmed the names and lower-cased
      and trimmed the email, and the schema's defaults are filled in. */
  function NewUser(id: Id, email: string, password: string, firstName: string, lastName: string, role: string): (u: UserDoc)
    ensures u.id == id && u.email == NormalEmail(email) && u.password == HashOf(password) && u.role == RoleOrDefault(role)
    ensures u.firstName == Trim(firstName) && u.lastName == Trim(lastName)
    ensures u.resetPasswordToken.None? && u.resetPasswordExpire.None?
  {
    UserDoc(id, Trim(firstName), Trim(lastName), NormalEmail(email), HashOf(password), RoleOrDefault(role), "/default-avatar.svg",
      Some(Preferences(Some(true), Some(true), Some("system"))), None, None)
  }

  /** `POST /register` */
  method Register(db: Database, email: string, emailMatches: bool, password: string, firstName: string, lastName: string,
                  role: string, sign: Option<string>) returns (a: Answer<Session>)
    requires db.Valid()
    modifies db`nextId, db`users
    ensures db.Valid()
    ensures HasEmail(old(db.users), email) ==> a == Failure(400, "Email already registered") && db.users == old(db.users)
    ensures !HasEmail(old(db.users), email) ==>
      var u := NewUser(old(db.nextId), email, password, firstName, lastName, role);
      if !Admissible(email, emailMatches, password, firstName, lastName, RoleOrDefault(role)) then
        a == Failure(500, "Server error") && db.users == old(db.users)
      else
        db.users == old(db.users)[u.id := u]
        && (sign.None? ==> a == Failure(500, "Server error"))
        && (sign.Some? ==> a == Success(201, Session(sign.value, Public(u))))
  {
    var existing := FindByEmail(db, email);
    if existing.Some? {
      return Failure(400, "Email already registered");
    }
    var id := db.FreshId();
    var u := NewUser(id, email, password, firstName, lastName, role);
    if !Admissible(email, emailMatches, password, firstName, lastName, u.role) {
      return Failure(500, "Server error");
    }
    db.InsertUser(u);
    if sign.None? {
      return Failure(500, "Server error");
    }
    a := Success(201, Session(sign.value, Public(u)));
  }

  /** `POST /login`. The `lastLogin` it assigns is not a path of the user schema, so the
      save that follows writes nothing and the store is unchanged. */
  method Login(db: Database, email: string, password: string, sign: Option<string>) returns (a: Answer<Session>)
    ensures email == "" || password == "" ==> a == Failure(400, "Please provide an email and password")
    ensures email != "" && password != "" && !HasEmail(db.users, email) ==> a == Failure(401, "Invalid credentials")
    ensures email != "" && password != "" &&
      (forall id :: id in db.users && db.users[id].email == NormalEmail(email) ==> db.users[id].password != HashOf(password))
      ==> a == Failure(401, "Invalid credentials")
    ensures a.Success? ==> sign.Some?
    ensures a.Success? ==>
      exists id :: id in db.users && db.users[id].email == NormalEmail(email) && db.users[id].password == HashOf(password)
        && sign.Some? && a == Success(200, Session(sign.value, Public(db.users[id])))
    ensures email != "" && password != "" && sign.Some? && HasEmail(db.users, email) &&
      (forall id :: id in db.users && db.users[id].email == NormalEmail(email) ==> db.users[id].password == HashOf(password))
      ==> a.Success?
    ensures email != "" && password != "" && sign.None? && HasEmail(db.users, email) &&
      (forall id :: id in db.users && db.users[id].email == NormalEmail(email) ==> db.users[id].password == HashOf(password))
      ==> a == Failure(500, "Server error")
    ensures a.Failure? ==> a.status in {400, 401, 500}
  {
    if email == "" || password == "" {
      return Failure(400, "Please provide an email and password");
    }
    var found := FindByEmail(db, email);
    if found.None? {
      return Failure(401, "Invalid credentials");
    }
    var user := db.users[found.value];
    if user.password != HashOf(password) {
      return Failure(401, "Invalid credentials");
    }
    if sign.None? {
      return Failure(500, "Server error");
    }
    a := Success(200, Session(sign.value, Public(user)));
  }

  /** Registration as written: `getSignedJwtToken` is not a method of the server's user
      schema, so the call throws once the account is stored. No registration succeeds, and
      one the schema admits still leaves its account behind under the fresh id. */
  method RegisterAsWritten(db: Database, email: string, emailMatches: bool, password: string, firstName: string,
                           lastName: string, role: string) returns (a: Answer<Session>)
    requires db.Valid()
    modifies db`nextId, db`users
    ensures db.Valid()
    ensures a.Failure?
    ensures !HasEmail(old(db.users), email) && Admissible(email, emailMatches, password, firstName, lastName, RoleOrDefault(role)) ==>
      a == Failure(500, "Server error") && old(db.nextId) in db.users && db.users[old(db.nextId)].email == NormalEmail(email)
  {
    a := Register(db, email, emailMatches, password, firstName, lastName, role, None);
  }

  /** Login as written: for the same reason, correct credentials end in a server error and
      no login succeeds. */
  method LoginAsWritten(db: Database, email: string, password: string) returns (a: Answer<Session>)
    ensures a.Failure?
    ensures email != "" && password != "" && HasEmail(db.users, email) &&
      (forall id :: id in db.users && db.users[id].email == NormalEmail(email) ==> db.users[id].password == HashOf(password))
      ==> a == Failure(500, "Server error")
  {
    a := Login(db, email, password, None);
  }

  // ---------------------------------------------------------------------
  // Reset tokens

  /** A reset token lives ten minutes: `Date.now() + 10 * 60 * 1000`. */
  const ResetWindow: int := 10 * 60 * 1000

  /** `getResetPasswordToken()`: the digest of the random token and its expiry are stored. */
  function Issued(u: UserDoc, token: string, now: int): (r: UserDoc)
    ensures r.id == u.id && r.password == u.password && r.email == u.email
  {
    u.(resetPasswordToken := Some(HashOf(token)), resetPasswordExpire := Some(now + ResetWindow))
  }

  /** Both reset fields set to `undefined`. */
  function Cleared(u: UserDoc): (r: UserDoc)
    ensures r.id == u.id && r.password == u.password && r.email == u.email
  {
    u.(resetPasswordToken := None, resetPasswordExpire := None)
  }

  /** `{resetPasswordToken: sha256(token), resetPasswordExpire: {$gt: now}}` */
  predicate TokenAccepted(u: UserDoc, token: string, now: int)
  {
    u.resetPasswordToken == Some(HashOf(token)) && u.resetPasswordExpire.Some? && u.resetPasswordExpire.value > now
  }

  /** `POST /forgotpassword`. `resetToken` is the random token and `emailSent` says
      whether the mail went out; when it did not, the reset fields are cleared again. */
  method ForgotPassword(db: Database, email: string, resetToken: string, emailSent: bool, now: int) returns (a: Answer<()>)
    requires db.Valid()
    modifies db`users
    ensures db.Valid()
    ensures !HasEmail(old(db.users), email) ==> a == Failure(404, "User not found") && db.users == old(db.users)
    ensures HasEmail(old(db.users), email) ==>
      exists id :: id in old(db.users) && old(db.users)[id].email == NormalEmail(email) &&
        if emailSent then a == Success(200, ()) && db.users == old(db.users)[id := Issued(old(db.users)[id], resetToken, now)]
        else a == Failure(500, "Email could not be sent") && db.users == old(db.users)[id := Cleared(old(db.users)[id])]
  {
    var found := FindByEmail(db, email);
    if found.None? {
      return Failure(404, "User not found");
    }
    var id := found.value;
    var user := Issued(db.users[id], resetToken, now);
    db.SaveUser(user);
    if emailSent {
      a := Success(200, ());
    } else {
      db.SaveUser(Cleared(user));
      a := Failure(500, "Email could not be sent");
    }
  }

  /** Some stored user accepts the token at `now`. */
  predicate AnyAccepts(users: map<Id, UserDoc>, token: string, now: int)
  {
    exists id :: id in users && TokenAccepted(users[id], token, now)
  }

  /** `PUT /resetpassword/:resettoken`: the new password is stored and both reset fields
      are cleared; a new password the schema refuses leaves the user unchanged. */
  method ResetPassword(db: Database, token: string, password: string, sign: Option<string>, now: int) returns (a: Answer<string>)
    requires db.Valid()
    modifies db`users
    ensures db.Valid()
    ensures !AnyAccepts(old(db.users), token, now) ==> a == Failure(400, "Invalid or expired token") && db.users == old(db.users)
    ensures AnyAccepts(old(db.users), token, now) && |password| < MinPasswordLength ==>
      a == Failure(500, "Server error") && db.users == old(db.users)
    ensures AnyAccepts(old(db.users), token, now) && |password| >= MinPasswordLength ==>
      exists id :: id in old(db.users) && TokenAccepted(old(db.users)[id], token, now)
        && db.users == old(db.users)[id := Cleared(old(db.users)[id]).(password := HashOf(password))]
        && a == (if sign.Some? then Success(200, sign.value) else Failure(500, "Server error"))
  {
    if !exists id :: id in db.users && TokenAccepted(db.users[id], token, now) {
      return Failure(400, "Invalid or expired token");
    }
    var id :| id in db.users && TokenAccepted(db.users[id], token, now);
    if |password| < MinPasswordLength {
      return Failure(500, "Server error");
    }
    db.SaveUser(Cleared(db.users[id]).(password := HashOf(password)));
    if sign.None? {
      return Failure(500, "Server error");
    }
    a := Success(200, sign.value);
  }

  /** The reset as written: the route calls `getSignedJwtToken` after the save, as
      registration and login do, so no reset is answered 200, and an accepted one with a
      long enough password still stores it and clears the reset fields before the 500. */
  method ResetPasswordAsWritten(db: Database, token: string, password: string, now: int) returns (a: Answer<string>)
    requires db.Valid()
    modifies db`users
    ensures db.Valid()
    ensures a.Failure?
    ensures !AnyAccepts(old(db.users), token, now) ==> a == Failure(400, "Invalid or expired token") && db.users == old(db.users)
    ensures AnyAccepts(old(db.users), token, now) ==> a == Failure(500, "Server error")
    ensures AnyAccepts(old(db.users), token, now) && |password| >= MinPasswordLength ==>
      exists id :: id in old(db.users) && TokenAccepted(old(db.users)[id], token, now)
        && db.users == old(db.users)[id := Cleared(old(db.users)[id]).(password := HashOf(password))]
  {
    a := ResetPassword(db, token, password, None, now);
  }

  // ---------------------------------------------------------------------
  // Profile

  /** The body of `PUT /updateprofile`; `preferences` is an object when present. */
  datatype ProfileBody = ProfileBody(firstName: string, lastName: string, phoneNumber: string, preferences: Option<Preferences>)

  /** The `updateFields` object: only the truthy fields, each under its own name. */
  datatype UpdateFields = UpdateFields(firstName: Option<string>, lastName: Option<string>,
                                       phoneNumber: Option<string>, preferences: Option<Preferences>)

  function SelectFields(b: ProfileBody): (f: UpdateFields)
    ensures f.firstName.Some? <==> b.firstName != ""
    ensures f.lastName.Some? <==> b.lastName != ""
    ensures f.phoneNumber.Some? <==> b.phoneNumber != ""
    ensures f.preferences == b.preferences
    ensures f.firstName.Some? ==> f.firstName.value == b.firstName
    ensures f.lastName.Some? ==> f.lastName.value == b.lastName
    ensures f.phoneNumber.Some? ==> f.phoneNumber.value == b.phoneNumber
  {
    UpdateFields(if b.firstName != "" then Some(b.firstName) else None,
                 if b.lastName != "" then Some(b.lastName) else None,
                 if b.phoneNumber != "" then Some(b.phoneNumber) else None,
                 b.preferences)
  }

  /** The update validators `runValidators` runs on the cast fields: a name the `trim`
      setter leaves empty fails `required`, and a theme must be from the enumeration. */
  predicate UpdateValid(f: UpdateFields)
  {
    (f.firstName.Some? ==> Trim(f.firstName.value) != "")
    && (f.lastName.Some? ==> Trim(f.lastName.value) != "")
    && (f.preferences.Some? ==> SchemaTheme(f.preferences.value))
  }

  /** `findByIdAndUpdate(id, updateFields)`: the `trim` setter applies to the names, and the
      schema has no `phoneNumber` path, so the strict schema drops that field. */
  function ApplyFields(u: UserDoc, f: UpdateFields): (r: UserDoc)
    ensures r.id == u.id && r.email == u.email && r.password == u.password && r.role == u.role
    ensures r.resetPasswordToken == u.resetPasswordToken && r.resetPasswordExpire == u.resetPasswordExpire
    ensures r.profileImage == u.profileImage
    ensures r.firstName == (if f.firstName.Some? then Trim(f.firstName.value) else u.firstName)
    ensures r.lastName == (if f.lastName.Some? then Trim(f.lastName.value) else u.lastName)
    ensures r.preferences == (if f.preferences.Some? then f.preferences else u.preferences)
  {
    u.(firstName := if f.firstName.Some? then Trim(f.firstName.value) else u.firstName,
       lastName := if f.lastName.Some? then Trim(f.lastName.value) else u.lastName,
       preferences := if f.preferences.Some? then f.preferences else u.preferences)
  }

  /** The user object `PUT /updateprofile` answers with. `phoneNumber` reads a path the
      schema does not declare, so it is always absent. */
  datatype ProfileView = ProfileView(id: Id, email: string, firstName: string, lastName: string, role: string,
                                     profileImage: string, phoneNumber: Option<string>, preferences: Option<Preferences>)

  function ProfileOf(u: UserDoc): (v: ProfileView)
    ensures v.id == u.id && v.email == u.email && v.firstName == u.firstName && v.lastName == u.lastName
    ensures v.role == u.role && v.profileImage == u.profileImage && v.preferences == u.preferences
    ensures v.phoneNumber.None?
  {
    ProfileView(u.id, u.email, u.firstName, u.lastName, u.role, u.profileImage, None, u.preferences)
  }

  /** `PUT /updateprofile` for the authenticated `user`. The update validators run before
      the query, so a refused field is a server error even for a missing user. */
  method UpdateProfile(db: Database, user: Id, body: ProfileBody) returns (a: Answer<ProfileView>)
    requires db.Valid()
    modifies db`users
    ensures db.Valid()
    ensures !UpdateValid(SelectFields(body)) ==> a == Failure(500, "Server error") && db.users == old(db.users)
    ensures UpdateValid(SelectFields(body)) && user !in old(db.users) ==>
      a == Failure(404, "User not found") && db.users == old(db.users)
    ensures UpdateValid(SelectFields(body)) && user in old(db.users) ==>
      var u := ApplyFields(old(db.users)[user], SelectFields(body));
      a == Success(200, ProfileOf(u)) && db.users == old(db.users)[user := u]
  {
    var fields := SelectFields(body);
    if !UpdateValid(fields) {
      return Failure(500, "Server error");
    }
    if user !in db.users {
      return Failure(404, "User not found");
    }
    var u := ApplyFields(db.users[user], fields);
    db.SaveUser(u);
    a := Success(200, ProfileOf(u));
  }

  /** `PUT /changepassword` for the authenticated `user`. */
  method ChangePassword(db: Database, user: Id, currentPassword: string, newPassword: string) returns (a: Answer<()>)
    requires db.Valid()
    modifies db`users
    ensures db.Valid()
    ensures user !in old(db.users) ==> a == Failure(500, "Server error") && db.users == old(db.users)
    ensures user in old(db.users) && old(db.users)[user].password != HashOf(currentPassword) ==>
      a == Failure(401, "Current password is incorrect") && db.users == old(db.users)
    ensures user in old(db.users) && old(db.users)[user].password == HashOf(currentPassword) ==>
      if |newPassword| < MinPasswordLength then a == Failure(500, "Server error") && db.users == old(db.users)
      else a == Success(200, ()) && db.users == old(db.users)[user := old(db.users)[user].(password := HashOf(newPassword))]
  {
    if user !in db.users {
      return Failure(500, "Server error");
    }
    if db.users[user].password != HashOf(currentPassword) {
      return Failure(401, "Current password is incorrect");
    }
    if |newPassword| < MinPasswordLength {
      return Failure(500, "Server error");
    }
    db.SaveUser(db.users[user].(password := HashOf(newPassword)));
    a := Success(200, ());
  }

  // ---------------------------------------------------------------------
  // Properties

  /** A freshly issued token is accepted exactly while it has not expired, and no other
      token is accepted. */
  lemma IssuedTokenLifetime(u: UserDoc, token: string, issuedAt: int, other: string, now: int)
    ensures TokenAccepted(Issued(u, token, issuedAt), token, now) <==> now < issuedAt + ResetWindow
    ensures other != token ==> !TokenAccepted(Issued(u, other, issuedAt), token, now)
  {
  }

  /** Once the reset fields are cleared no token is accepted: a token is good for one reset. */
  lemma ClearedAcceptsNothing(u: UserDoc, token: string, now: int)
    ensures !TokenAccepted(Cleared(u), token, now)
  {
  }

  /** Profile updates never touch the credentials: email, password digest and role stay. */
  lemma UpdateKeepsCredentials(u: UserDoc, b: ProfileBody)
    ensures var r := ApplyFields(u, SelectFields(b));
      r.email == u.email && r.password == u.password && r.role == u.role && r.resetPasswordToken == u.resetPasswordToken
  {
  }

  /** The profile answer carries no credential: users that differ only in the password
      digest and the reset fields are answered alike. */
  lemma ProfileHidesCredentials(u: UserDoc, password: Digest, token: Option<Digest>, expire: Option<int>)
    ensures ProfileOf(u) == ProfileOf(u.(password := password, resetPasswordToken := token, resetPasswordExpire := expire))
  {
  }

  /** A name of spaces only is refused by the update, while an empty one is simply not sent. */
  lemma BlankNameRefused(b: ProfileBody)
    requires b.firstName != "" && Trim(b.firstName) == ""
    ensures !UpdateValid(SelectFields(b))
  {
  }

  /** Once stored, an account is found by every spelling of its address that differs only
      in case or surrounding spaces, and by the stored address itself. */
  lemma {:induction false} RegisteredAddressFound(users: map<Id, UserDoc>, u: UserDoc, typed: string, other: string)
    requires u.email == NormalEmail(typed) && NormalEmail(other) == NormalEmail(typed)
    ensures HasEmail(users[u.id := u], other)
    ensures HasEmail(users[u.id := u], u.email)
  {
    var m := users[u.id := u];
    assert m[u.id] == u;
    assert u.id in m && m[u.id].email == NormalEmail(other);
    NormalEmailIdempotent(typed);
    assert m[u.id].email == NormalEmail(u.email);
  }

  /** A body whose fields are all empty changes nothing. */
  lemma EmptyBodyChangesNothing(u: UserDoc)
    ensures ApplyFields(u, SelectFields(ProfileBody("", "", "", None))) == u
  {
  }

  /** As written, a registration without a role defaults to 'player', which the user schema
      refuses, so the registration ends in a server error and stores nothing. */
  lemma DefaultRoleRefused(email: string, emailMatches: bool, password: string, firstName: string, lastName: string)
    ensures !Admissible(email, emailMatches, password, firstName, lastName, RoleOrDefault(""))
  {
  }

  /** The default the schema itself declares. */
  function IntendedRoleOrDefault(role: string): (r: string)
    ensures role != "" ==> r == role
    ensures role == "" ==> SchemaUserRole(r)
  {
    if role != "" then role else "user"
  }

  /** With the schema's default, a registration without a role is admitted whenever its
      other fields are. */
  lemma IntendedDefaultAdmitted(email: string, password: string, firstName: string, lastName: string)
    requires Trim(firstName) != "" && Trim(lastName) != "" && NormalEmail(email) != "" && |password| >= MinPasswordLength
    ensures Admissible(email, true, password, firstName, lastName, IntendedRoleOrDefault(""))
  {
  }
}
