/** The profile routes of the academy portal (routes/profile.js): reading and updating the
    caller's profile, merging notification settings, changing the password and uploading a
    profile image. `me` is the id the authentication middleware put on the request. */
module PortalProfile {
  import opened Common
  import opened PortalStore
  import PortalAuth

  /** `GET /` */
  function Profile(us: seq<PortalUser>, me: Id): (a: Answer<PortalUserView>)
    ensures UserIndex(us, me) == -1 <==> a == Failure(404, "User not found")
    ensures a.Success? ==> a == Success(200, View(us[UserIndex(us, me)]))
  {
    var k := UserIndex(us, me);
    if k == -1 then Failure(404, "User not found") else Success(200, View(us[k]))
  }

  /** The update validators: a non-empty name and phone number. */
  function ProfileErrors(name: string, phoneNumber: string): (errs: seq<string>)
    ensures errs == [] <==> name != "" && phoneNumber != ""
  {
    (if name == "" then ["Name is required"] else []) + (if phoneNumber == "" then ["Phone number is required"] else [])
  }

  /** The user after a profile update: the five profile fields take the request's values (an
      absent optional field is unset) and nothing else changes. */
  function WithProfile(u: PortalUser, name: string, phoneNumber: string, childName: Option<string>,
                       address: Option<string>, shirtSize: Option<string>): (r: PortalUser)
    ensures r.name == name && r.phoneNumber == phoneNumber && r.childName == childName && r.address == address && r.shirtSize == shirtSize
    ensures r.(name := u.name, phoneNumber := u.phoneNumber, childName := u.childName, address := u.address, shirtSize := u.shirtSize) == u
  {
    u.(name := name, phoneNumber := phoneNumber, childName := childName, address := address, shirtSize := shirtSize)
  }

  /** `PUT /`: the answer is the saved document itself, loaded without `select('-password')`,
      so it carries the password hash. */
  method UpdateProfile(db: PortalDb, me: Id, name: string, phoneNumber: string, childName: Option<string>,
                       address: Option<string>, shirtSize: Option<string>) returns (a: Answer<PortalUser>)
    requires db.Valid()
    modifies db`users
    ensures db.Valid()
    ensures a.Failure? ==> db.users == old(db.users)
    ensures var errs := ProfileErrors(name, phoneNumber);
      if errs != [] then a == Failure(400, errs[0])
      else if UserIndex(old(db.users), me) == -1 then a == Failure(404, "User not found")
      else if !PortalAuth.SchemaShirtSize(shirtSize) then a == Failure(500, "Server error")
      else
        var k := UserIndex(old(db.users), me);
        var u := WithProfile(old(db.users)[k], name, phoneNumber, childName, address, shirtSize);
        a == Success(200, u) && db.users == old(db.users)[k := u] && u.password == old(db.users)[k].password
  {
    var errs := ProfileErrors(name, phoneNumber);
    if errs != [] {
      return Failure(400, errs[0]);
    }
    var k := UserIndex(db.users, me);
    if k == -1 {
      return Failure(404, "User not found");
    }
    if !PortalAuth.SchemaShirtSize(shirtSize) {
      return Failure(500, "Server error");
    }
    var u := WithProfile(db.users[k], name, phoneNumber, childName, address, shirtSize);
    db.SaveUser(k, u);
    a := Success(200, u);
  }

  /** The settings after `PUT /notification-settings`: each provided flag replaces the stored one. */
  function MergeSettings(s: NotificationSettings, email: Option<bool>, push: Option<bool>, sms: Option<bool>): (r: NotificationSettings)
    ensures r.email == (if email.Some? then email.value else s.email)
    ensures r.push == (if push.Some? then push.value else s.push)
    ensures r.sms == (if sms.Some? then sms.value else s.sms)
  {
    NotificationSettings(
      if email.Some? then email.value else s.email,
      if push.Some? then push.value else s.push,
      if sms.Some? then sms.value else s.sms)
  }

  /** An empty request keeps the settings, the same request twice is the same as once, and a
      full request decides the settings whatever they were. */
  lemma MergeSettingsLaws(s: NotificationSettings, t: NotificationSettings, email: Option<bool>, push: Option<bool>, sms: Option<bool>)
    ensures MergeSettings(s, None, None, None) == s
    ensures MergeSettings(MergeSettings(s, email, push, sms), email, push, sms) == MergeSettings(s, email, push, sms)
    ensures email.Some? && push.Some? && sms.Some? ==> MergeSettings(s, email, push, sms) == MergeSettings(t, email, push, sms)
  {
  }

  /** `PUT /notification-settings` */
  method UpdateSettings(db: PortalDb, me: Id, email: Option<bool>, push: Option<bool>, sms: Option<bool>) returns (a: Answer<NotificationSettings>)
    requires db.Valid()
    modifies db`users
    ensures db.Valid()
    ensures UserIndex(old(db.users), me) == -1 ==> a == Failure(404, "User not found") && db.users == old(db.users)
    ensures UserIndex(old(db.users), me) != -1 ==>
      var k := UserIndex(old(db.users), me);
      var r := MergeSettings(old(db.users)[k].notificationSettings, email, push, sms);
      a == Success(200, r) && db.users == old(db.users)[k := old(db.users)[k].(notificationSettings := r)]
  {
    var k := UserIndex(db.users, me);
    if k == -1 {
      return Failure(404, "User not found");
    }
    var r := MergeSettings(db.users[k].notificationSettings, email, push, sms);
    db.SaveUser(k, db.users[k].(notificationSettings := r));
    a := Success(200, r);
  }

  /** `PUT /password` */
  method ChangePassword(db: PortalDb, me: Id, currentPassword: Option<string>, newPassword: string) returns (a: Answer<string>)
    requires db.Valid()
    modifies db`users
    ensures db.Valid()
    ensures a.Failure? ==> db.users == old(db.users)
    ensures currentPassword.None? ==> a == Failure(400, "Current password is required")
    ensures currentPassword.Some? && |newPassword| < PortalAuth.MinPasswordLength ==> a == Failure(400, "Password must be at least 6 characters")
    ensures currentPassword.Some? && |newPassword| >= PortalAuth.MinPasswordLength ==>
      var k := UserIndex(old(db.users), me);
      if k == -1 then a == Failure(404, "User not found")
      else if HashOf(currentPassword.value) != old(db.users)[k].password then a == Failure(400, "Current password is incorrect")
      else (a == Success(200, "Password updated successfully")
        && db.users == old(db.users)[k := old(db.users)[k].(password := HashOf(newPassword))])
  {
    if currentPassword.None? {
      return Failure(400, "Current password is required");
    }
    if |newPassword| < PortalAuth.MinPasswordLength {
      return Failure(400, "Password must be at least 6 characters");
    }
    var k := UserIndex(db.users, me);
    if k == -1 {
      return Failure(404, "User not found");
    }
    if HashOf(currentPassword.value) != db.users[k].password {
      return Failure(400, "Current password is incorrect");
    }
    db.SaveUser(k, db.users[k].(password := HashOf(newPassword)));
    a := Success(200, "Password updated successfully");
  }

  /** The profile image filter: any `image/` MIME type. */
  predicate ProfileImageAccepted(mime: string)
  {
    StartsWith(mime, "image/")
  }

  /** The upload limit, 5 MB. */
  const MaxProfileImageSize: nat := 1024 * 1024 * 5

  const ProfileImagePrefix: string := "/uploads/profile-images/"

  /** `POST /upload-image`. The upload middleware refuses a non-image or a file over the limit
      before the handler runs; the error ends as a server error. */
  method UploadImage(db: PortalDb, me: Id, file: Option<Upload>) returns (a: Answer<string>)
    requires db.Valid()
    modifies db`users
    ensures db.Valid()
    ensures a.Failure? ==> db.users == old(db.users)
    ensures file.Some? && !ProfileImageAccepted(file.value.mimetype) ==> a == Failure(500, "Only image files are allowed")
    ensures file.Some? && ProfileImageAccepted(file.value.mimetype) && file.value.size > MaxProfileImageSize ==> a == Failure(500, "File too large")
    ensures file.None? ==> a == Failure(400, "No file uploaded")
    ensures a.Success? ==> file.Some? && ProfileImageAccepted(file.value.mimetype) && file.value.size <= MaxProfileImageSize
    ensures a.Success? ==> a.value == ProfileImagePrefix + file.value.filename && UserIndex(old(db.users), me) != -1
    ensures a.Success? ==>
      db.users == old(db.users)[UserIndex(old(db.users), me) := old(db.users)[UserIndex(old(db.users), me)].(profileImage := a.value)]
    ensures file.Some? && ProfileImageAccepted(file.value.mimetype) && file.value.size <= MaxProfileImageSize ==>
      (a.Success? <==> UserIndex(old(db.users), me) != -1)
  {
    if file.Some? && !ProfileImageAccepted(file.value.mimetype) {
      return Failure(500, "Only image files are allowed");
    }
    if file.Some? && file.value.size > MaxProfileImageSize {
      return Failure(500, "File too large");
    }
    if file.None? {
      return Failure(400, "No file uploaded");
    }
    var k := UserIndex(db.users, me);
    if k == -1 {
      return Failure(404, "User not found");
    }
    var path := ProfileImagePrefix + file.value.filename;
    db.SaveUser(k, db.users[k].(profileImage := path));
    a := Success(200, path);
  }

  /** After a password change the new password logs in and the previous one no longer does. */
  lemma ChangedPasswordLogsIn(us: seq<PortalUser>, k: nat, oldPassword: string, newPassword: string, token: string)
    requires k < |us| && EmailIndex(us, us[k].email) == k
    requires us[k].approvalStatus == "approved" && us[k].accountStatus == "active"
    requires us[k].password == HashOf(oldPassword) && oldPassword != newPassword
    ensures var vs := us[k := us[k].(password := HashOf(newPassword))];
      PortalAuth.Login(vs, us[k].email, true, Some(newPassword), token).Success?
      && PortalAuth.Login(vs, us[k].email, true, Some(oldPassword), token) == Failure(400, "Invalid credentials")
  {
    EmailIndexAfterUpdate(us, k, us[k].(password := HashOf(newPassword)), us[k].email);
  }
}
