/** The administrator routes of the academy portal (routes/admin.js): the user listings and
    the approval decisions, each behind the role gate for 'admin'. `role` is the role of
    the authenticated caller; a route id that is not a well-formed ObjectId is `None`, which
    the routes answer like a missing user. */
module PortalAdmin {
  import opened Common
  import opened PortalStore
  import RoleGate
  import PortalAuth

  const AdminOnly: seq<string> := ["admin"]

  /** The users with the given approval status, in store order. */
  function WithStatus(us: seq<PortalUser>, status: string): (r: seq<PortalUserView>)
    ensures |r| <= |us|
    ensures forall v :: v in r <==> exists u :: u in us && u.approvalStatus == status && v == View(u)
  {
    if us == [] then []
    else
      var rest := WithStatus(us[1..], status);
      assert forall u :: u in us <==> u == us[0] || u in us[1..];
      if us[0].approvalStatus == status then [View(us[0])] + rest else rest
  }

  /** `GET /users`: every user, without the password. */
  function AllUsers(us: seq<PortalUser>, role: string): (a: Answer<seq<PortalUserView>>)
    ensures role != "admin" ==> a == Failure(403, RoleGate.DeniedMessage)
    ensures role == "admin" ==> a.Success? && |a.value| == |us| && forall i :: 0 <= i < |us| ==> a.value[i] == View(us[i])
  {
    match RoleGate.Check(AdminOnly, role)
    case Refuse(status, message) => Failure(status, message)
    case Next => Success(200, seq(|us|, i requires 0 <= i < |us| => View(us[i])))
  }

  /** `GET /users/pending`: exactly the users awaiting approval. */
  function PendingUsers(us: seq<PortalUser>, role: string): (a: Answer<seq<PortalUserView>>)
    ensures role != "admin" ==> a == Failure(403, RoleGate.DeniedMessage)
    ensures role == "admin" ==> a == Success(200, WithStatus(us, "pending"))
  {
    match RoleGate.Check(AdminOnly, role)
    case Refuse(status, message) => Failure(status, message)
    case Next => Success(200, WithStatus(us, "pending"))
  }

  function Approved(u: PortalUser): (r: PortalUser)
    ensures r.approvalStatus == "approved" && r.accountStatus == "active"
    ensures r.(approvalStatus := u.approvalStatus, accountStatus := u.accountStatus) == u
  {
    u.(approvalStatus := "approved", accountStatus := "active")
  }

  function Rejected(u: PortalUser): (r: PortalUser)
    ensures r.approvalStatus == "rejected" && r.accountStatus == u.accountStatus
    ensures r.(approvalStatus := u.approvalStatus) == u
  {
    u.(approvalStatus := "rejected")
  }

  /** `PUT /users/:id/approve`: the answer is the saved document itself, loaded without
      `select('-password')`, so it carries the password hash. */
  method Approve(db: PortalDb, role: string, id: Option<Id>) returns (a: Answer<PortalUser>)
    requires db.Valid()
    modifies db`users
    ensures db.Valid()
    ensures a.Failure? ==> db.users == old(db.users)
    ensures role != "admin" ==> a == Failure(403, RoleGate.DeniedMessage)
    ensures role == "admin" && (id.None? || UserIndex(old(db.users), id.value) == -1) ==> a == Failure(404, "User not found")
    ensures role == "admin" && id.Some? && UserIndex(old(db.users), id.value) != -1 ==>
      var k := UserIndex(old(db.users), id.value);
      a == Success(200, Approved(old(db.users)[k])) && db.users == old(db.users)[k := Approved(old(db.users)[k])]
      && a.value.password == old(db.users)[k].password
  {
    var gate := RoleGate.Check(AdminOnly, role);
    if gate.Refuse? {
      return Failure(gate.status, gate.message);
    }
    if id.None? {
      return Failure(404, "User not found");
    }
    var k := UserIndex(db.users, id.value);
    if k == -1 {
      return Failure(404, "User not found");
    }
    var u := Approved(db.users[k]);
    db.SaveUser(k, u);
    a := Success(200, u);
  }

  /** `PUT /users/:id/reject` */
  method Reject(db: PortalDb, role: string, id: Option<Id>) returns (a: Answer<PortalUserView>)
    requires db.Valid()
    modifies db`users
    ensures db.Valid()
    ensures a.Failure? ==> db.users == old(db.users)
    ensures role != "admin" ==> a == Failure(403, RoleGate.DeniedMessage)
    ensures role == "admin" && (id.None? || UserIndex(old(db.users), id.value) == -1) ==> a == Failure(404, "User not found")
    ensures role == "admin" && id.Some? && UserIndex(old(db.users), id.value) != -1 ==>
      var k := UserIndex(old(db.users), id.value);
      a == Success(200, View(Rejected(old(db.users)[k]))) && db.users == old(db.users)[k := Rejected(old(db.users)[k])]
  {
    var gate := RoleGate.Check(AdminOnly, role);
    if gate.Refuse? {
      return Failure(gate.status, gate.message);
    }
    if id.None? {
      return Failure(404, "User not found");
    }
    var k := UserIndex(db.users, id.value);
    if k == -1 {
      return Failure(404, "User not found");
    }
    var u := Rejected(db.users[k]);
    db.SaveUser(k, u);
    a := Success(200, View(u));
  }

  /** An approved user leaves the pending list; a rejected one too; other users keep their place in it. */
  lemma {:induction false} DecisionLeavesPending(us: seq<PortalUser>, k: nat)
    requires k < |us|
    requires forall i, j :: 0 <= i < j < |us| ==> us[i].id != us[j].id
    ensures forall v :: v in WithStatus(us[k := Approved(us[k])], "pending") ==> v.id != us[k].id
    ensures forall v :: v in WithStatus(us[k := Rejected(us[k])], "pending") ==> v.id != us[k].id
  {
    var ua := us[k := Approved(us[k])];
    var ur := us[k := Rejected(us[k])];
    forall v | v in WithStatus(ua, "pending")
      ensures v.id != us[k].id
    {
      var u :| u in ua && u.approvalStatus == "pending" && v == View(u);
      var i :| 0 <= i < |ua| && ua[i] == u;
    }
    forall v | v in WithStatus(ur, "pending")
      ensures v.id != us[k].id
    {
      var u :| u in ur && u.approvalStatus == "pending" && v == View(u);
      var i :| 0 <= i < |ur| && ur[i] == u;
    }
  }

  /** Approval is what opens the login: once approved, the account's own password logs in;
      once rejected, every login attempt is refused as awaiting approval. */
  lemma DecisionThenLogin(us: seq<PortalUser>, k: nat, password: string, token: string)
    requires k < |us| && EmailIndex(us, us[k].email) == k
    requires us[k].password == HashOf(password)
    ensures PortalAuth.Login(us[k := Approved(us[k])], us[k].email, true, Some(password), token).Success?
    ensures PortalAuth.Login(us[k := Rejected(us[k])], us[k].email, true, Some(password), token) == Failure(403, "Your account is pending approval")
  {
    EmailIndexAfterUpdate(us, k, Approved(us[k]), us[k].email);
    EmailIndexAfterUpdate(us, k, Rejected(us[k]), us[k].email);
  }
}
