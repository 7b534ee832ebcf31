/** The group document of the messaging server and its member-list methods
    (packages/server/models/Group.js). A loaded group is a `Group` object whose
    methods change `members` in place; `Doc()` is the document that is saved. */
module GroupModel {
  import opened Common

  datatype Member = Member(user: Id, role: string, joinedAt: int)

  datatype GroupDoc = GroupDoc(
    id: Id,
    name: string,
    description: string,
    kind: string,
    image: string,
    owner: Id,
    members: seq<Member>,
    isPublic: bool,
    tags: seq<string>)

  /** The group types the schema's `type` enumeration accepts. */
  predicate SchemaKind(kind: string)
  {
    kind == "team" || kind == "class" || kind == "event" || kind == "organization"
  }

  /** The member roles the schema's `members.role` enumeration accepts. */
  predicate SchemaRole(role: string)
  {
    role == "admin" || role == "moderator" || role == "member"
  }

  /** The enumeration check `save()` runs over the member list. */
  predicate RolesValid(ms: seq<Member>)
  {
    forall i :: 0 <= i < |ms| ==> SchemaRole(ms[i].role)
  }

  /** `members.some(m => m.user == u)` */
  predicate Listed(ms: seq<Member>, u: Id)
  {
    exists i :: 0 <= i < |ms| && ms[i].user == u
  }

  /** Some entry for `u` carries the role admin or moderator. */
  predicate HasStaffEntry(ms: seq<Member>, u: Id)
  {
    exists i :: 0 <= i < |ms| && ms[i].user == u && (ms[i].role == "admin" || ms[i].role == "moderator")
  }

  /** `isAdminOrOwner(u)` on a group document. */
  predicate AdminOrOwner(doc: GroupDoc, u: Id)
  {
    doc.owner == u || HasStaffEntry(doc.members, u)
  }

  /** The member list after `addMember(u, role)` at time `now`. */
  function WithMember(ms: seq<Member>, u: Id, role: string, now: int): (r: seq<Member>)
    ensures Listed(r, u)
    ensures |r| == |ms| || |r| == |ms| + 1
  {
    if Listed(ms, u) then ms
    else
      var r := ms + [Member(u, role, now)];
      assert r[|ms|].user == u;
      r
  }

  /** The member list after `removeMember(u)`: `members.filter(m => m.user != u)`. */
  function Without(ms: seq<Member>, u: Id): (r: seq<Member>)
    ensures forall m {:trigger m in r} :: m in r <==> m in ms && m.user != u
    ensures !Listed(r, u)
    ensures |r| <= |ms|
  {
    if ms == [] then []
    else if ms[0].user == u then Without(ms[1..], u)
    else
      var rest := Without(ms[1..], u);
      assert forall m :: m in ms <==> m == ms[0] || m in ms[1..];
      [ms[0]] + rest
  }

  /** `members.findIndex(m => m.user == u)`: the first entry for `u`, or -1. */
  function FindIndex(ms: seq<Member>, u: Id): (k: int)
    ensures -1 <= k < |ms|
    ensures k == -1 <==> !Listed(ms, u)
    ensures k >= 0 ==> ms[k].user == u && forall j :: 0 <= j < k ==> ms[j].user != u
  {
    if ms == [] then -1
    else if ms[0].user == u then 0
    else
      var k := FindIndex(ms[1..], u);
      if k == -1 then
        assert forall i :: 0 < i < |ms| ==> ms[i] == ms[1..][i - 1];
        -1
      else k + 1
  }

  /** `Group.find({$or: [{owner: u}, {'members.user': u}]})` */
  function GroupsOf(groups: map<Id, GroupDoc>, u: Id): set<Id>
  {
    set g | g in groups && (groups[g].owner == u || Listed(groups[g].members, u))
  }

  class Group {
    var id: Id
    var name: string
    var description: string
    var kind: string
    var image: string
    var owner: Id
    var members: seq<Member>
    var isPublic: bool
    var tags: seq<string>

    /** The document as `save()` writes it. */
    function Doc(): GroupDoc
      reads this
    {
      GroupDoc(id, name, description, kind, image, owner, members, isPublic, tags)
    }

    /** Loading a stored document. */
    constructor Load(doc: GroupDoc)
      ensures Doc() == doc
    {
      id, name, description, kind, image := doc.id, doc.name, doc.description, doc.kind, doc.image;
      owner, members, isPublic, tags := doc.owner, doc.members, doc.isPublic, doc.tags;
    }

    predicate IsMember(u: Id)
      reads this
    {
      Listed(members, u)
    }

    predicate IsAdminOrOwner(u: Id)
      reads this
    {
      AdminOrOwner(Doc(), u)
    }

    /** `addMember(u, role)`: an entry is pushed only when `u` has none. */
    method AddMember(u: Id, role: string, now: int)
      modifies this
      ensures Listed(old(members), u) ==> members == old(members)
      ensures !Listed(old(members), u) ==> members == old(members) + [Member(u, role, now)]
      ensures Doc() == old(Doc()).(members := members)
      ensures IsMember(u)
    {
      members := WithMember(members, u, role, now);
    }

    /** `removeMember(u)`: every entry for `u` is filtered out. */
    method RemoveMember(u: Id)
      modifies this
      ensures members == Without(old(members), u)
      ensures Doc() == old(Doc()).(members := members)
      ensures !IsMember(u)
    {
      members := Without(members, u);
    }

    /** `updateMemberRole(u, role)`: the first entry for `u` takes the new role;
        without one the method reports `false` (the source returns null). */
    method UpdateMemberRole(u: Id, newRole: string) returns (updated: bool)
      modifies this
      ensures updated <==> Listed(old(members), u)
      ensures !updated ==> members == old(members)
      ensures updated ==>
        var k := FindIndex(old(members), u);
        members == old(members)[k := old(members)[k].(role := newRole)]
      ensures Doc() == old(Doc()).(members := members)
    {
      var k := FindIndex(members, u);
      if k == -1 {
        updated := false;
      } else {
        members := members[k := members[k].(role := newRole)];
        updated := true;
      }
    }
  }

  // ---------------------------------------------------------------------
  // Properties of the member-list operations

  /** Adding a member twice is the same as adding once. */
  lemma AddMemberIdempotent(ms: seq<Member>, u: Id, role: string, now: int, role2: string, later: int)
    ensures WithMember(WithMember(ms, u, role, now), u, role2, later) == WithMember(ms, u, role, now)
  {
  }

  /** Adding `u` lists exactly the users listed before plus `u`, and leaves every earlier entry in place. */
  lemma AddMemberKeepsOthers(ms: seq<Member>, u: Id, role: string, now: int, v: Id)
    ensures Listed(WithMember(ms, u, role, now), v) <==> Listed(ms, v) || v == u
    ensures WithMember(ms, u, role, now)[..|ms|] == ms
  {
    var r := WithMember(ms, u, role, now);
    if Listed(r, v) && v != u {
      var i :| 0 <= i < |r| && r[i].user == v;
      assert i < |ms| && ms[i] == r[i];
    }
    if Listed(ms, v) {
      var i :| 0 <= i < |ms| && ms[i].user == v;
      assert r[i] == ms[i];
    }
  }

  /** Adding a plain member grants nobody admin-or-owner rights. */
  lemma {:induction false} AddPlainMemberGrantsNoRights(doc: GroupDoc, u: Id, now: int, v: Id)
    ensures AdminOrOwner(doc.(members := WithMember(doc.members, u, "member", now)), v) <==> AdminOrOwner(doc, v)
  {
    var ms := doc.members;
    var r := WithMember(ms, u, "member", now);
    if HasStaffEntry(r, v) {
      var i :| 0 <= i < |r| && r[i].user == v && (r[i].role == "admin" || r[i].role == "moderator");
      assert i < |ms| && r[i] == ms[i];
    }
    if HasStaffEntry(ms, v) {
      var i :| 0 <= i < |ms| && ms[i].user == v && (ms[i].role == "admin" || ms[i].role == "moderator");
      assert r[i] == ms[i];
    }
  }

  /** Filtering distributes over concatenation: the kept entries stay in their original order. */
  lemma {:induction false} WithoutConcat(a: seq<Member>, b: seq<Member>, u: Id)
    ensures Without(a + b, u) == Without(a, u) + Without(b, u)
    decreases |a|
  {
    if a == [] {
      assert a + b == b;
    } else {
      var h, t := a[0], a[1..];
      WithoutConcat(t, b, u);
      WithoutConcatStep(h, t, b, u);
      assert a == [h] + t;
    }
  }

  lemma WithoutConcatStep(h: Member, t: seq<Member>, b: seq<Member>, u: Id)
    requires Without(t + b, u) == Without(t, u) + Without(b, u)
    ensures Without([h] + t + b, u) == Without([h] + t, u) + Without(b, u)
  {
    assert [h] + t + b == [h] + (t + b);
    WithoutCons(h, t + b, u);
    WithoutCons(h, t, u);
  }

  lemma WithoutCons(m: Member, rest: seq<Member>, u: Id)
    ensures Without([m] + rest, u) == if m.user == u then Without(rest, u) else [m] + Without(rest, u)
  {
    assert ([m] + rest)[1..] == rest;
  }

  /** Removing a user that has no entry changes nothing. */
  lemma {:induction false} WithoutNonMember(ms: seq<Member>, u: Id)
    requires !Listed(ms, u)
    ensures Without(ms, u) == ms
    decreases |ms|
  {
    if ms != [] {
      assert ms[0].user != u;
      WithoutNonMember(ms[1..], u);
    }
  }

  /** Removing a user leaves every other user's listing as it was. */
  lemma WithoutKeepsOthers(ms: seq<Member>, u: Id, v: Id)
    requires v != u
    ensures Listed(Without(ms, u), v) <==> Listed(ms, v)
  {
    var r := Without(ms, u);
    if Listed(ms, v) {
      var i :| 0 <= i < |ms| && ms[i].user == v;
      assert ms[i] in r;
    }
    if Listed(r, v) {
      var i :| 0 <= i < |r| && r[i].user == v;
      assert r[i] in r;
    }
  }

  /** After removal a user other than the owner holds no admin-or-owner rights. */
  lemma RemovedNonOwnerHasNoRights(doc: GroupDoc, u: Id)
    requires doc.owner != u
    ensures !AdminOrOwner(doc.(members := Without(doc.members, u)), u)
  {
  }

  /** A user who is not the owner and whose entries are all plain members is not admin-or-owner. */
  lemma PlainMemberIsNotAdmin(doc: GroupDoc, u: Id)
    requires doc.owner != u
    requires forall i :: 0 <= i < |doc.members| && doc.members[i].user == u ==> doc.members[i].role == "member"
    ensures !AdminOrOwner(doc, u)
  {
  }

  /** The owner passes the admin-or-owner test even with no member entry. */
  lemma OwnerIsAdminOrOwner(doc: GroupDoc)
    ensures AdminOrOwner(doc, doc.owner)
  {
  }
}
