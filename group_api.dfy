/** The second group API (packages/server/routes/api/groups.js): a group created from a
    name and a list of user ids, and the caller's group listing. The creator's entry
    carries the role 'owner', which the member-role enumeration of the group schema
    (admin, moderator, member) does not contain, so the schema refuses the document. */
module GroupApi {
  import opened Common
  import opened GroupModel
  import opened ServerStore

  /** `[{user: creator, role: 'owner'}, ...members.map(id => ({user: id, role: 'member'}))]`,
      every entry stamped with the creation time by the schema default. */
  function ApiMembers(creator: Id, requested: seq<Id>, now: int): (ms: seq<Member>)
    ensures |ms| == 1 + |requested|
    ensures ms[0] == Member(creator, "owner", now)
    ensures forall i :: 0 <= i < |requested| ==> ms[i + 1] == Member(requested[i], "member", now)
  {
    [Member(creator, "owner", now)] + seq(|requested|, i requires 0 <= i < |requested| => Member(requested[i], "member", now))
  }

  /** `name || 'New Group'` */
  function GroupName(name: Option<string>): (r: string)
    ensures r != ""
    ensures name.Some? && name.value != "" ==> r == name.value
  {
    if name.Some? && name.value != "" then name.value else "New Group"
  }

  /** The document built by `new Group({...})`, with the schema's defaults for the other
      fields; the name path's setter trims the name. */
  function ApiGroup(id: Id, creator: Id, name: Option<string>, requested: seq<Id>, now: int): (doc: GroupDoc)
    ensures doc.id == id && doc.owner == creator && doc.name == Trim(GroupName(name))
    ensures doc.members == ApiMembers(creator, requested, now)
  {
    GroupDoc(id, Trim(GroupName(name)), "", "team", "", creator, ApiMembers(creator, requested, now), false, [])
  }

  /** The group schema accepts the document: a name that is not blank once trimmed, and
      member roles from the enumeration. */
  predicate ApiGroupAccepted(doc: GroupDoc, name: Option<string>)
  {
    TrimmedRequired(GroupName(name)).Some? && RolesValid(doc.members)
  }

  /** `POST /`: a missing `members` list fails in `members.map`; a document the schema
      refuses fails in `save()`; both end as a server error and store nothing. */
  method Create(db: Database, user: Id, name: Option<string>, members: Option<seq<Id>>, now: int) returns (a: Answer<GroupDoc>)
    requires db.Valid()
    modifies db`nextId, db`groups
    ensures db.Valid()
    ensures members.None? ==> a == Failure(500, "Server error") && db.groups == old(db.groups)
    ensures members.Some? ==>
      var doc := ApiGroup(old(db.nextId), user, name, members.value, now);
      if ApiGroupAccepted(doc, name) then a == Success(200, doc) && db.groups == old(db.groups)[doc.id := doc]
      else a == Failure(500, "Server error") && db.groups == old(db.groups)
  {
    if members.None? {
      return Failure(500, "Server error");
    }
    var id := db.FreshId();
    var doc := ApiGroup(id, user, name, members.value, now);
    if !ApiGroupAccepted(doc, name) {
      return Failure(500, "Server error");
    }
    db.InsertGroup(doc);
    a := Success(200, doc);
  }

  /** `GET /`: `Group.find({'members.user': u})`, the groups that list the caller. */
  function ListedGroups(groups: map<Id, GroupDoc>, u: Id): set<Id>
  {
    set g | g in groups && Listed(groups[g].members, u)
  }

  // ---------------------------------------------------------------------
  // Properties

  /** The member list keeps the requested ids in order and does not merge repeats: a
      user requested twice, or the creator requested again, is listed twice. */
  lemma {:induction false} ApiMembersKeepRepeats(creator: Id, requested: seq<Id>, now: int)
    requires creator in requested
    ensures |set i | 0 <= i < |ApiMembers(creator, requested, now)| && ApiMembers(creator, requested, now)[i].user == creator| >= 2
  {
    var ms := ApiMembers(creator, requested, now);
    var j :| 0 <= j < |requested| && requested[j] == creator;
    assert ms[j + 1].user == creator;
    var both := {0, j + 1};
    assert both <= set i | 0 <= i < |ms| && ms[i].user == creator;
    assert |both| == 2;
    SubsetCard(both, set i | 0 <= i < |ms| && ms[i].user == creator);
  }

  lemma SubsetCard(a: set<int>, b: set<int>)
    requires a <= b
    ensures |a| <= |b|
  {
    assert b == a + (b - a);
  }

  /** As written, the schema refuses every group built by the create route, whatever the input. */
  lemma OwnerRoleRefused(id: Id, creator: Id, name: Option<string>, requested: seq<Id>, now: int)
    ensures !RolesValid(ApiGroup(id, creator, name, requested, now).members)
  {
    assert ApiGroup(id, creator, name, requested, now).members[0].role == "owner";
  }

  /** The creator entry the route evidently intends: the role the group routes give a
      creator (packages/server/routes/groups.js), which the schema accepts. */
  function IntendedApiMembers(creator: Id, requested: seq<Id>, now: int): (ms: seq<Member>)
    ensures |ms| == 1 + |requested|
    ensures ms[0] == Member(creator, "admin", now)
    ensures ms[1..] == ApiMembers(creator, requested, now)[1..]
  {
    [Member(creator, "admin", now)] + ApiMembers(creator, requested, now)[1..]
  }

  /** With the intended creator entry, the schema accepts every requested member list, the
      creator holds admin rights in the group, and the only request still refused is one
      whose name is given, non-empty and made of white space alone (it trims to ''). */
  lemma IntendedMembersAccepted(id: Id, creator: Id, name: Option<string>, requested: seq<Id>, now: int)
    ensures RolesValid(IntendedApiMembers(creator, requested, now))
    ensures var doc := ApiGroup(id, creator, name, requested, now).(members := IntendedApiMembers(creator, requested, now));
      !ApiGroupAccepted(doc, name) <==> name.Some? && name.value != "" && forall i :: 0 <= i < |name.value| ==> IsSpace(name.value[i])
    ensures AdminOrOwner(ApiGroup(id, creator, name, requested, now).(members := IntendedApiMembers(creator, requested, now)), creator)
  {
    var ms := IntendedApiMembers(creator, requested, now);
    forall i | 0 <= i < |ms|
      ensures SchemaRole(ms[i].role)
    {
      if i > 0 {
        assert ms[i] == Member(requested[i - 1], "member", now);
      }
    }
  }

  /** The listing finds the groups that list the caller, a subset of the groups the
      other routes treat as the caller's; an owner who is not listed does not see the group. */
  lemma ListedGroupsOfCaller(groups: map<Id, GroupDoc>, u: Id, g: Id)
    ensures ListedGroups(groups, u) <= GroupsOf(groups, u)
    ensures g in groups && groups[g].owner == u && !Listed(groups[g].members, u) ==>
      g !in ListedGroups(groups, u) && g in GroupsOf(groups, u)
    ensures g in ListedGroups(groups, u) <==> g in groups && Listed(groups[g].members, u)
  {
  }

  /** A group made by this route lists its creator, so it appears in the creator's listing. */
  lemma CreatedGroupListed(id: Id, creator: Id, name: Option<string>, requested: seq<Id>, now: int, groups: map<Id, GroupDoc>)
    ensures var doc := ApiGroup(id, creator, name, requested, now);
      id in ListedGroups(groups[id := doc], creator)
  {
    var doc := ApiGroup(id, creator, name, requested, now);
    assert doc.members[0].user == creator;
  }
}
