/** The REST handlers for groups (packages/server/routes/groups.js): create, the
    filtered and paginated list, read, update, delete, join, leave, and the
    admin-side member operations. `user` is the authenticated caller. */
module GroupRoutes {
  import opened Common
  import opened GroupModel
  import opened ServerStore

  // ---------------------------------------------------------------------
  // The query string of the list route

  /** A value of the parsed query string: a text, a list (a repeated key) or a nested object (`price[gte]=5`). */
  datatype QVal = QText(s: string) | QList(items: seq<QVal>) | QObject(entries: seq<QEntry>)

  datatype QEntry = QEntry(key: string, value: QVal)

  /** The pagination and projection parameters the list route removes before filtering. */
  const ControlFields: seq<string> := ["select", "sort", "page", "limit"]

  /** The entries whose key is not in `ks`, in their order. */
  function WithoutKeys(q: seq<QEntry>, ks: seq<string>): (r: seq<QEntry>)
    ensures |r| <= |q|
    ensures forall e :: e in r <==> e in q && e.key !in ks
  {
    if q == [] then []
    else
      var rest := WithoutKeys(q[1..], ks);
      assert forall e :: e in q <==> e == q[0] || e in q[1..];
      if q[0].key in ks then rest else [q[0]] + rest
  }

  /** `removeFields.forEach(param => delete reqQuery[param])` on the copy of the query. */
  method DropControlFields(query: seq<QEntry>) returns (reqQuery: seq<QEntry>)
    ensures reqQuery == WithoutKeys(query, ControlFields)
  {
    reqQuery := query;
    WithoutNoKeys(query);
    for k := 0 to |ControlFields|
      invariant reqQuery == WithoutKeys(query, ControlFields[..k])
    {
      WithoutPrefixStep(query, ControlFields, k);
      reqQuery := WithoutKeys(reqQuery, [ControlFields[k]]);
    }
    assert ControlFields[..|ControlFields|] == ControlFields;
  }

  /** One loop step of the deletion: removing the next key extends the removed prefix. */
  lemma WithoutPrefixStep(q: seq<QEntry>, ks: seq<string>, k: nat)
    requires k < |ks|
    ensures WithoutKeys(WithoutKeys(q, ks[..k]), [ks[k]]) == WithoutKeys(q, ks[..k + 1])
  {
    WithoutKeysStep(q, ks[..k], ks[k]);
    assert ks[..k + 1] == ks[..k] + [ks[k]];
  }

  lemma {:induction false} WithoutNoKeys(q: seq<QEntry>)
    ensures WithoutKeys(q, []) == q
    decreases |q|
  {
    if q != [] {
      WithoutNoKeys(q[1..]);
    }
  }

  /** Deleting one more key from the filtered entries is filtering by one more key. */
  lemma {:induction false} WithoutKeysStep(q: seq<QEntry>, ks: seq<string>, k: string)
    ensures WithoutKeys(WithoutKeys(q, ks), [k]) == WithoutKeys(q, ks + [k])
    decreases |q|
  {
    if q != [] {
      WithoutKeysStep(q[1..], ks, k);
      if q[0].key !in ks {
        assert WithoutKeys(q, ks) == [q[0]] + WithoutKeys(q[1..], ks);
        assert WithoutKeys(q, ks)[1..] == WithoutKeys(q[1..], ks);
      }
    }
  }

  function HexDigit(d: nat): char
    requires d < 16
  {
    "0123456789abcdef"[d]
  }

  /** The body of a JSON string literal, with `JSON.stringify`'s escapes. */
  function Escape(s: string): string
  {
    if s == [] then []
    else
      var c := s[0];
      var e :=
        if c == '"' then "\\\""
        else if c == '\\' then "\\\\"
        else if c == '\n' then "\\n"
        else if c == '\r' then "\\r"
        else if c == '\t' then "\\t"
        else if c == 8 as char then "\\b"
        else if c == 12 as char then "\\f"
        else if (c as int) < 32 then "\\u00" + [HexDigit(c as int / 16), HexDigit(c as int % 16)]
        else [c];
      e + Escape(s[1..])
  }

  function Quote(s: string): string
  {
    "\"" + Escape(s) + "\""
  }

  function JoinComma(parts: seq<string>): string
  {
    if parts == [] then "" else if |parts| == 1 then parts[0] else parts[0] + "," + JoinComma(parts[1..])
  }

  /** `JSON.stringify` of a query value. */
  function Json(v: QVal): string
    decreases v
  {
    match v
    case QText(s) => Quote(s)
    case QList(items) => "[" + JoinComma(seq(|items|, i requires 0 <= i < |items| => Json(items[i]))) + "]"
    case QObject(es) => "{" + JoinComma(seq(|es|, i requires 0 <= i < |es| => Quote(es[i].key) + ":" + Json(es[i].value))) + "}"
  }

  /** The characters `\b` treats as word characters. */
  predicate IsWordChar(c: char)
  {
    'a' <= c <= 'z' || 'A' <= c <= 'Z' || '0' <= c <= '9' || c == '_'
  }

  /** Length of the run of word characters that starts `s`. */
  function WordRun(s: string): (n: nat)
    ensures n <= |s|
    ensures forall i :: 0 <= i < n ==> IsWordChar(s[i])
    ensures n < |s| ==> !IsWordChar(s[n])
  {
    if s == [] || !IsWordChar(s[0]) then 0 else 1 + WordRun(s[1..])
  }

  /** The words `/\b(gt|gte|lt|lte|in)\b/g` matches. */
  predicate IsOperator(w: string)
  {
    w == "gt" || w == "gte" || w == "lt" || w == "lte" || w == "in"
  }

  /** `queryStr.replace(/\b(gt|gte|lt|lte|in)\b/g, m => '$' + m)`: a whole word equal to
      one of the operators gets a `$` in front; a longer word containing one does not. */
  function Rewrite(s: string): string
    decreases |s|
  {
    if s == [] then []
    else if !IsWordChar(s[0]) then [s[0]] + Rewrite(s[1..])
    else
      var n := WordRun(s);
      (if IsOperator(s[..n]) then "$" + s[..n] else s[..n]) + Rewrite(s[n..])
  }

  /** The number of whole words of `s` that are operators. */
  function OperatorWords(s: string): nat
    decreases |s|
  {
    if s == [] then 0
    else if !IsWordChar(s[0]) then OperatorWords(s[1..])
    else
      var n := WordRun(s);
      (if IsOperator(s[..n]) then 1 else 0) + OperatorWords(s[n..])
  }

  /** `s` with every `$` taken out. */
  function StripDollar(s: string): (r: string)
    ensures '$' !in r
  {
    if s == [] then [] else (if s[0] == '$' then [] else [s[0]]) + StripDollar(s[1..])
  }

  /** The filter text the list route hands to `JSON.parse`. */
  function FilterText(query: seq<QEntry>): string
  {
    Rewrite(Json(QObject(WithoutKeys(query, ControlFields))))
  }

  // ---------------------------------------------------------------------
  // Pagination of the list route

  datatype PageLink = PageLink(page: int, limit: int)

  datatype Pagination = Pagination(next: Option<PageLink>, prev: Option<PageLink>)

  datatype GroupList = GroupList(count: nat, pagination: Pagination, data: seq<GroupDoc>)

  /** `endIndex` */
  function PageEnd(page: int, limit: int): int
  {
    page * limit
  }

  /** The matches from `start` on, at most `n` of them. */
  function Window(matching: seq<GroupDoc>, start: nat, n: nat): (r: seq<GroupDoc>)
    ensures |r| <= n
    ensures start <= |matching| ==> start + |r| <= |matching| && r == matching[start..start + |r|]
    ensures start >= |matching| ==> r == []
    ensures start + n <= |matching| ==> |r| == n
    ensures start < |matching| < start + n ==> |r| == |matching| - start
  {
    if start >= |matching| then []
    else if start + n >= |matching| then matching[start..]
    else matching[start..start + n]
  }

  /** The list response for the groups that match the filter, in sort order. A negative
      skip is refused by the database and ends as a server error. */
  function ListPage(matching: seq<GroupDoc>, pageParam: Option<int>, limitParam: Option<int>): (a: Answer<GroupList>)
    ensures var page, limit := OrDefault(pageParam, 1), OrDefault(limitParam, 10);
      && (a.Failure? <==> PageStart(page, limit) < 0)
      && (a.Failure? ==> a == Failure(500, "Server error"))
      && (a.Success? ==>
        a.status == 200 && a.value.count == |a.value.data|
        && (a.value.pagination.next == if PageEnd(page, limit) < |matching| then Some(PageLink(page + 1, limit)) else None)
        && (a.value.pagination.prev == if PageStart(page, limit) > 0 then Some(PageLink(page - 1, limit)) else None)
        && a.value.data == Window(matching, PageStart(page, limit), LimitOf(limit)))
  {
    var page := OrDefault(pageParam, 1);
    var limit := OrDefault(limitParam, 10);
    var startIndex := PageStart(page, limit);
    var endIndex := PageEnd(page, limit);
    if startIndex < 0 then Failure(500, "Server error")
    else
      var data := Window(matching, startIndex, LimitOf(limit));
      Success(200, GroupList(|data|, Pagination(
        if endIndex < |matching| then Some(PageLink(page + 1, limit)) else None,
        if startIndex > 0 then Some(PageLink(page - 1, limit)) else None), data))
  }

  // ---------------------------------------------------------------------
  // Create and update

  /** The fields of `PUT /:id`; an absent field is `None`. */
  datatype GroupUpdate = GroupUpdate(
    name: Option<string>,
    description: Option<string>,
    kind: Option<string>,
    isPublic: Option<bool>,
    tags: Option<seq<string>>,
    image: Option<string>)

  /** The `updateFields` object: a text field is set only when it is provided and
      non-empty, `isPublic` whenever it is provided (even `false`), `tags` whenever provided. */
  function ApplyUpdate(doc: GroupDoc, f: GroupUpdate): (r: GroupDoc)
    ensures r.id == doc.id && r.owner == doc.owner && r.members == doc.members
    ensures r.name == (if f.name.Some? && f.name.value != "" then f.name.value else doc.name)
    ensures r.description == (if f.description.Some? && f.description.value != "" then f.description.value else doc.description)
    ensures r.kind == (if f.kind.Some? && f.kind.value != "" then f.kind.value else doc.kind)
    ensures r.isPublic == (if f.isPublic.Some? then f.isPublic.value else doc.isPublic)
    ensures r.tags == (if f.tags.Some? then f.tags.value else doc.tags)
    ensures r.image == (if f.image.Some? && f.image.value != "" then f.image.value else doc.image)
  {
    doc.(
      name := if f.name.Some? && f.name.value != "" then f.name.value else doc.name,
      description := if f.description.Some? && f.description.value != "" then f.description.value else doc.description,
      kind := if f.kind.Some? && f.kind.value != "" then f.kind.value else doc.kind,
      isPublic := if f.isPublic.Some? then f.isPublic.value else doc.isPublic,
      tags := if f.tags.Some? then f.tags.value else doc.tags,
      image := if f.image.Some? && f.image.value != "" then f.image.value else doc.image)
  }

  /** The fields of `POST /` the schema accepts: a name that is not blank once trimmed,
      and a type, when one is given, from the enumeration. */
  predicate CreateAccepted(name: string, kind: Option<string>)
  {
    TrimmedRequired(name).Some? && (kind.Some? ==> SchemaKind(kind.value))
  }

  /** The update `findByIdAndUpdate` applies once the schema's setters have run: a
      provided name is trimmed. */
  function CastUpdate(f: GroupUpdate): (r: GroupUpdate)
    ensures r.name.Some? <==> f.name.Some?
    ensures f.name.Some? && f.name.value != "" ==> r.name.value == Trim(f.name.value)
    ensures r.(name := f.name) == f
  {
    if f.name.Some? && f.name.value != "" then f.(name := Some(Trim(f.name.value))) else f
  }

  /** The update validators (`runValidators`) accept the fields the route sets: a name
      that is not blank once trimmed, a type from the enumeration. */
  predicate UpdateAccepted(f: GroupUpdate)
  {
    (f.name.Some? && f.name.value != "" ==> TrimmedRequired(f.name.value).Some?)
    && (f.kind.Some? && f.kind.value != "" ==> SchemaKind(f.kind.value))
  }

  /** The document `POST /` creates: the caller owns it and is its only member, as admin;
      absent fields take the schema defaults. */
  function NewGroup(id: Id, user: Id, name: string, description: Option<string>, kind: Option<string>,
                    isPublic: Option<bool>, tags: Option<seq<string>>, now: int): (g: GroupDoc)
    ensures g.id == id && g.owner == user && g.name == name
    ensures g.members == [Member(user, "admin", now)]
    ensures g.isPublic == (isPublic.Some? && isPublic.value)
  {
    GroupDoc(id, name,
      if description.Some? then description.value else "",
      if kind.Some? then kind.value else "team",
      "", user, [Member(user, "admin", now)],
      isPublic.Some? && isPublic.value,
      if tags.Some? then tags.value else [])
  }

  // ---------------------------------------------------------------------
  // Handlers

  /** `POST /`: a document the schema refuses is a server error and nothing is stored;
      the stored name is the trimmed one. */
  method Create(db: Database, user: Id, name: string, description: Option<string>, kind: Option<string>,
                isPublic: Option<bool>, tags: Option<seq<string>>, now: int) returns (a: Answer<GroupDoc>)
    requires db.Valid()
    modifies db`groups, db`nextId
    ensures db.Valid()
    ensures !CreateAccepted(name, kind) ==> a == Failure(500, "Server error") && db.groups == old(db.groups)
    ensures CreateAccepted(name, kind) ==>
      a.Success? && a.status == 201
      && a.value == NewGroup(a.value.id, user, Trim(name), description, kind, isPublic, tags, now)
      && a.value.id !in old(db.groups) && db.groups == old(db.groups)[a.value.id := a.value]
      && a.value.name != [] && SchemaKind(a.value.kind) && RolesValid(a.value.members)
  {
    var stored := TrimmedRequired(name);
    if stored.None? || (kind.Some? && !SchemaKind(kind.value)) {
      return Failure(500, "Server error");
    }
    var id := db.FreshId();
    var g := NewGroup(id, user, stored.value, description, kind, isPublic, tags, now);
    db.InsertGroup(g);
    a := Success(201, g);
  }

  /** `GET /`: the groups matching the rewritten filter, in the requested order, are a parameter. */
  method List(query: seq<QEntry>, matching: seq<GroupDoc>, pageParam: Option<int>, limitParam: Option<int>)
      returns (filter: string, a: Answer<GroupList>)
    ensures filter == FilterText(query)
    ensures a == ListPage(matching, pageParam, limitParam)
  {
    var reqQuery := DropControlFields(query);
    filter := Rewrite(Json(QObject(reqQuery)));
    a := ListPage(matching, pageParam, limitParam);
  }

  /** `GET /:id` */
  function Read(groups: map<Id, GroupDoc>, id: Id): (a: Answer<GroupDoc>)
    ensures id !in groups <==> a == Failure(404, "Group not found")
    ensures id in groups ==> a == Success(200, groups[id])
  {
    if id !in groups then Failure(404, "Group not found") else Success(200, groups[id])
  }

  /** `PUT /:id`: admins, moderators and the owner may update. */
  method Update(db: Database, user: Id, id: Id, f: GroupUpdate) returns (a: Answer<GroupDoc>)
    requires db.Valid()
    modifies db`groups
    ensures db.Valid()
    ensures id !in old(db.groups) ==> a == Failure(404, "Group not found") && db.groups == old(db.groups)
    ensures id in old(db.groups) && !AdminOrOwner(old(db.groups)[id], user) ==>
      a == Failure(403, "Not authorized to update this group") && db.groups == old(db.groups)
    ensures id in old(db.groups) && AdminOrOwner(old(db.groups)[id], user) && !UpdateAccepted(f) ==>
      a == Failure(500, "Server error") && db.groups == old(db.groups)
    ensures id in old(db.groups) && AdminOrOwner(old(db.groups)[id], user) && UpdateAccepted(f) ==>
      a == Success(200, ApplyUpdate(old(db.groups)[id], CastUpdate(f))) && db.groups == old(db.groups)[id := a.value]
      && (SchemaKind(old(db.groups)[id].kind) ==> SchemaKind(a.value.kind))
  {
    if id !in db.groups {
      return Failure(404, "Group not found");
    }
    var group := new Group.Load(db.groups[id]);
    if !group.IsAdminOrOwner(user) {
      return Failure(403, "Not authorized to update this group");
    }
    if !UpdateAccepted(f) {
      return Failure(500, "Server error");
    }
    var updated := ApplyUpdate(group.Doc(), CastUpdate(f));
    db.SaveGroup(updated);
    a := Success(200, updated);
  }

  /** `DELETE /:id`: the owner only. */
  method Delete(db: Database, user: Id, id: Id) returns (a: Answer<()>)
    requires db.Valid()
    modifies db`groups
    ensures db.Valid()
    ensures id !in old(db.groups) ==> a == Failure(404, "Group not found") && db.groups == old(db.groups)
    ensures id in old(db.groups) && old(db.groups)[id].owner != user ==>
      a == Failure(403, "Not authorized to delete this group") && db.groups == old(db.groups)
    ensures id in old(db.groups) && old(db.groups)[id].owner == user ==>
      a == Success(200, ()) && db.groups == old(db.groups) - {id}
  {
    if id !in db.groups {
      return Failure(404, "Group not found");
    }
    if db.groups[id].owner != user {
      return Failure(403, "Not authorized to delete this group");
    }
    db.DeleteGroup(id);
    a := Success(200, ());
  }

  /** `POST /:id/join`: a user already listed is refused. */
  method Join(db: Database, user: Id, id: Id, now: int) returns (a: Answer<()>)
    requires db.Valid()
    modifies db`groups
    ensures db.Valid()
    ensures id !in old(db.groups) ==> a == Failure(404, "Group not found") && db.groups == old(db.groups)
    ensures id in old(db.groups) && Listed(old(db.groups)[id].members, user) ==>
      a == Failure(400, "Already a member of this group") && db.groups == old(db.groups)
    ensures id in old(db.groups) && !Listed(old(db.groups)[id].members, user) ==>
      var g := old(db.groups)[id];
      a == Success(200, ()) && db.groups == old(db.groups)[id := g.(members := g.members + [Member(user, "member", now)])]
  {
    if id !in db.groups {
      return Failure(404, "Group not found");
    }
    var group := new Group.Load(db.groups[id]);
    if group.IsMember(user) {
      return Failure(400, "Already a member of this group");
    }
    group.AddMember(user, "member", now);
    db.SaveGroup(group.Doc());
    a := Success(200, ());
  }

  /** `POST /:id/leave`: non-members and the owner are refused. */
  method Leave(db: Database, user: Id, id: Id) returns (a: Answer<()>)
    requires db.Valid()
    modifies db`groups
    ensures db.Valid()
    ensures id !in old(db.groups) ==> a == Failure(404, "Group not found") && db.groups == old(db.groups)
    ensures id in old(db.groups) && !Listed(old(db.groups)[id].members, user) ==>
      a == Failure(400, "Not a member of this group") && db.groups == old(db.groups)
    ensures id in old(db.groups) && Listed(old(db.groups)[id].members, user) && old(db.groups)[id].owner == user ==>
      a == Failure(400, "Group owner cannot leave. Transfer ownership or delete group.") && db.groups == old(db.groups)
    ensures id in old(db.groups) && Listed(old(db.groups)[id].members, user) && old(db.groups)[id].owner != user ==>
      var g := old(db.groups)[id];
      a == Success(200, ()) && db.groups == old(db.groups)[id := g.(members := Without(g.members, user))]
  {
    if id !in db.groups {
      return Failure(404, "Group not found");
    }
    var group := new Group.Load(db.groups[id]);
    if !group.IsMember(user) {
      return Failure(400, "Not a member of this group");
    }
    if group.owner == user {
      return Failure(400, "Group owner cannot leave. Transfer ownership or delete group.");
    }
    group.RemoveMember(user);
    db.SaveGroup(group.Doc());
    a := Success(200, ());
  }

  /** `POST /:id/members` with `{userId, role = 'member'}`: admins, moderators and the owner only;
      a new entry whose role is outside the enumeration fails the save. */
  method AddMember(db: Database, user: Id, id: Id, target: Id, role: Option<string>, now: int) returns (a: Answer<()>)
    requires db.Valid()
    modifies db`groups
    ensures db.Valid()
    ensures id !in old(db.groups) ==> a == Failure(404, "Group not found") && db.groups == old(db.groups)
    ensures id in old(db.groups) && !AdminOrOwner(old(db.groups)[id], user) ==>
      a == Failure(403, "Not authorized to add members") && db.groups == old(db.groups)
    ensures id in old(db.groups) && AdminOrOwner(old(db.groups)[id], user) && target !in db.users ==>
      a == Failure(404, "User not found") && db.groups == old(db.groups)
    ensures id in old(db.groups) && AdminOrOwner(old(db.groups)[id], user) && target in db.users
            && !Listed(old(db.groups)[id].members, target) && role.Some? && !SchemaRole(role.value) ==>
      a == Failure(500, "Server error") && db.groups == old(db.groups)
    ensures id in old(db.groups) && AdminOrOwner(old(db.groups)[id], user) && target in db.users
            && (Listed(old(db.groups)[id].members, target) || role.None? || SchemaRole(role.value)) ==>
      var g := old(db.groups)[id];
      a == Success(200, ())
      && db.groups == old(db.groups)[id := g.(members := WithMember(g.members, target, if role.Some? then role.value else "member", now))]
      && (RolesValid(g.members) ==> RolesValid(db.groups[id].members))
  {
    if id !in db.groups {
      return Failure(404, "Group not found");
    }
    var group := new Group.Load(db.groups[id]);
    if !group.IsAdminOrOwner(user) {
      return Failure(403, "Not authorized to add members");
    }
    if target !in db.users {
      return Failure(404, "User not found");
    }
    var r := if role.Some? then role.value else "member";
    if !group.IsMember(target) && !SchemaRole(r) {
      return Failure(500, "Server error");
    }
    group.AddMember(target, r, now);
    db.SaveGroup(group.Doc());
    a := Success(200, ());
  }

  /** `DELETE /:id/members/:userId`: admins, moderators and the owner only, and never the owner. */
  method RemoveMember(db: Database, user: Id, id: Id, target: Id) returns (a: Answer<()>)
    requires db.Valid()
    modifies db`groups
    ensures db.Valid()
    ensures id !in old(db.groups) ==> a == Failure(404, "Group not found") && db.groups == old(db.groups)
    ensures id in old(db.groups) && !AdminOrOwner(old(db.groups)[id], user) ==>
      a == Failure(403, "Not authorized to remove members") && db.groups == old(db.groups)
    ensures id in old(db.groups) && AdminOrOwner(old(db.groups)[id], user) && old(db.groups)[id].owner == target ==>
      a == Failure(400, "Cannot remove group owner") && db.groups == old(db.groups)
    ensures id in old(db.groups) && AdminOrOwner(old(db.groups)[id], user) && old(db.groups)[id].owner != target ==>
      var g := old(db.groups)[id];
      a == Success(200, ()) && db.groups == old(db.groups)[id := g.(members := Without(g.members, target))]
  {
    if id !in db.groups {
      return Failure(404, "Group not found");
    }
    var group := new Group.Load(db.groups[id]);
    if !group.IsAdminOrOwner(user) {
      return Failure(403, "Not authorized to remove members");
    }
    if group.owner == target {
      return Failure(400, "Cannot remove group owner");
    }
    group.RemoveMember(target);
    db.SaveGroup(group.Doc());
    a := Success(200, ());
  }

  /** `PUT /:id/members/:userId` with `{role}`: the owner only; a user without an entry is a 404,
      and a role outside the enumeration fails the save. */
  method UpdateRole(db: Database, user: Id, id: Id, target: Id, role: string) returns (a: Answer<()>)
    requires db.Valid()
    modifies db`groups
    ensures db.Valid()
    ensures id !in old(db.groups) ==> a == Failure(404, "Group not found") && db.groups == old(db.groups)
    ensures id in old(db.groups) && old(db.groups)[id].owner != user ==>
      a == Failure(403, "Only group owner can update member roles") && db.groups == old(db.groups)
    ensures id in old(db.groups) && old(db.groups)[id].owner == user && !Listed(old(db.groups)[id].members, target) ==>
      a == Failure(404, "Member not found in group") && db.groups == old(db.groups)
    ensures id in old(db.groups) && old(db.groups)[id].owner == user && Listed(old(db.groups)[id].members, target)
            && !SchemaRole(role) ==>
      a == Failure(500, "Server error") && db.groups == old(db.groups)
    ensures id in old(db.groups) && old(db.groups)[id].owner == user && Listed(old(db.groups)[id].members, target)
            && SchemaRole(role) ==>
      var g := old(db.groups)[id];
      var k := FindIndex(g.members, target);
      a == Success(200, ()) && db.groups == old(db.groups)[id := g.(members := g.members[k := g.members[k].(role := role)])]
      && (RolesValid(g.members) ==> RolesValid(db.groups[id].members))
  {
    if id !in db.groups {
      return Failure(404, "Group not found");
    }
    var group := new Group.Load(db.groups[id]);
    if group.owner != user {
      return Failure(403, "Only group owner can update member roles");
    }
    var updated := group.UpdateMemberRole(target, role);
    if !updated {
      return Failure(404, "Member not found in group");
    }
    if !SchemaRole(role) {
      return Failure(500, "Server error");
    }
    db.SaveGroup(group.Doc());
    a := Success(200, ());
  }

  /** `GET /user/me`: the groups the caller owns or is listed in. */
  function Mine(groups: map<Id, GroupDoc>, user: Id): (r: set<Id>)
    ensures forall g :: g in r ==> g in groups && (groups[g].owner == user || Listed(groups[g].members, user))
    ensures forall g :: g in groups && groups[g].owner == user ==> g in r
    ensures forall g :: g in groups && Listed(groups[g].members, user) ==> g in r
  {
    GroupsOf(groups, user)
  }

  // ---------------------------------------------------------------------
  // Properties

  /** The creator of a group passes the admin-or-owner test and is listed as a member. */
  lemma CreatorIsAdminMember(id: Id, user: Id, name: string, description: Option<string>, kind: Option<string>,
                             isPublic: Option<bool>, tags: Option<seq<string>>, now: int)
    ensures var g := NewGroup(id, user, name, description, kind, isPublic, tags, now);
      AdminOrOwner(g, user) && Listed(g.members, user) && HasStaffEntry(g.members, user)
  {
    var g := NewGroup(id, user, name, description, kind, isPublic, tags, now);
    assert g.members[0].user == user;
  }

  /** The rewrite only inserts `$` signs: taking them out gives the text with its own `$` taken out. */
  lemma {:induction false} RewriteOnlyInsertsDollars(s: string)
    ensures StripDollar(Rewrite(s)) == StripDollar(s)
    decreases |s|
  {
    if s != [] {
      if !IsWordChar(s[0]) {
        RewriteOnlyInsertsDollars(s[1..]);
        DollarsAfterSeparator(s);
      } else {
        var n := WordRun(s);
        RewriteOnlyInsertsDollars(s[n..]);
        RewriteWordStep(s);
        WordHasNoDollar(s);
        assert s == s[..n] + s[n..];
        DollarsAfterWord(s[..n], s[n..], Rewrite(s[n..]), IsOperator(s[..n]));
      }
    }
  }

  lemma DollarsAfterSeparator(s: string)
    requires s != [] && !IsWordChar(s[0])
    requires StripDollar(Rewrite(s[1..])) == StripDollar(s[1..])
    ensures StripDollar(Rewrite(s)) == StripDollar(s)
  {
    assert Rewrite(s) == [s[0]] + Rewrite(s[1..]);
    StripDollarConcat([s[0]], Rewrite(s[1..]));
    StripDollarConcat([s[0]], s[1..]);
    assert s == [s[0]] + s[1..];
  }

  /** A word without `$`, marked or not, strips to itself in front of any rewritten tail. */
  lemma DollarsAfterWord(w: string, tail: string, rewritten: string, marked: bool)
    requires '$' !in w
    requires StripDollar(rewritten) == StripDollar(tail)
    ensures StripDollar((if marked then "$" + w else w) + rewritten) == StripDollar(w + tail)
  {
    StripDollarNone(w);
    StripDollarMarked(w, marked);
    StripDollarConcat(if marked then "$" + w else w, rewritten);
    StripDollarConcat(w, tail);
  }

  lemma RewriteWordStep(s: string)
    requires s != [] && IsWordChar(s[0])
    ensures var w := s[..WordRun(s)];
      Rewrite(s) == (if IsOperator(w) then "$" + w else w) + Rewrite(s[WordRun(s)..])
  {
  }

  lemma WordHasNoDollar(s: string)
    ensures '$' !in s[..WordRun(s)]
  {
    var n := WordRun(s);
    forall i | 0 <= i < n ensures s[..n][i] != '$' {
      assert IsWordChar(s[i]);
    }
  }

  lemma StripDollarMarked(w: string, marked: bool)
    requires '$' !in w
    ensures StripDollar(if marked then "$" + w else w) == w
  {
    StripDollarNone(w);
    if marked {
      StripDollarConcat("$", w);
      assert StripDollar("$") == [];
    }
  }

  /** The rewrite adds exactly one character per operator word. */
  lemma {:induction false} RewriteLength(s: string)
    ensures |Rewrite(s)| == |s| + OperatorWords(s)
    decreases |s|
  {
    if s != [] {
      if !IsWordChar(s[0]) {
        RewriteLength(s[1..]);
      } else {
        RewriteLength(s[WordRun(s)..]);
      }
    }
  }

  /** Text with no operator word passes through unchanged. */
  lemma {:induction false} RewriteWithoutOperators(s: string)
    requires OperatorWords(s) == 0
    ensures Rewrite(s) == s
    decreases |s|
  {
    if s != [] {
      if !IsWordChar(s[0]) {
        RewriteWithoutOperators(s[1..]);
      } else {
        var n := WordRun(s);
        RewriteWithoutOperators(s[n..]);
        assert s == s[..n] + s[n..];
      }
    }
  }

  lemma {:induction false} StripDollarConcat(a: string, b: string)
    ensures StripDollar(a + b) == StripDollar(a) + StripDollar(b)
    decreases |a|
  {
    if a != [] {
      StripDollarConcat(a[1..], b);
      assert (a + b)[0] == a[0];
      assert (a + b)[1..] == a[1..] + b;
      assert StripDollar(a + b) == (if a[0] == '$' then [] else [a[0]]) + StripDollar(a[1..] + b);
      assert StripDollar(a) == (if a[0] == '$' then [] else [a[0]]) + StripDollar(a[1..]);
    } else {
      assert a + b == b;
    }
  }

  lemma {:induction false} StripDollarNone(s: string)
    requires '$' !in s
    ensures StripDollar(s) == s
    decreases |s|
  {
    if s != [] {
      assert s[0] != '$';
      StripDollarNone(s[1..]);
    }
  }

  /** With a positive limit, pages tile the matches: the match at position
      `(page - 1) * limit + r`, for `r < limit`, is item `r` of that page. */
  lemma PageOfItem(matching: seq<GroupDoc>, page: int, limit: int, r: nat)
    requires limit > 0 && page >= 1 && r < limit
    requires PageStart(page, limit) + r < |matching|
    ensures var a := ListPage(matching, Some(page), Some(limit));
      a.Success? && r < |a.value.data| && a.value.data[r] == matching[PageStart(page, limit) + r]
  {
    PageStartNonNegative(page, limit);
    var a := ListPage(matching, Some(page), Some(limit));
    assert a.value.data == Window(matching, PageStart(page, limit), limit);
  }

  lemma {:induction false} PageStartNonNegative(page: int, limit: int)
    requires page >= 1 && limit >= 0
    ensures PageStart(page, limit) >= 0
    decreases page
  {
    if page > 1 {
      PageStartNonNegative(page - 1, limit);
      assert PageStart(page, limit) == PageStart(page - 1, limit) + limit;
    }
  }

  /** With a positive limit and a page from 1 on, `next` is present exactly when matches
      remain after the returned page, and `prev` exactly when the page is not the first. */
  lemma NextPrevMeaning(matching: seq<GroupDoc>, page: int, limit: int)
    requires limit > 0 && page >= 1
    ensures var a := ListPage(matching, Some(page), Some(limit));
      a.Success?
      && (a.value.pagination.next.Some? <==> PageStart(page, limit) + |a.value.data| < |matching|)
      && (a.value.pagination.prev.Some? <==> page > 1)
  {
    var start := PageStart(page, limit);
    assert PageEnd(page, limit) == start + limit;
    PageStartNonNegative(page, limit);
    if page > 1 {
      assert start >= limit;
    } else {
      assert start == 0;
    }
  }
}
