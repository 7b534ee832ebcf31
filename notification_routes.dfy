/** The REST handlers for notifications (packages/server/routes/notifications.js):
    the paginated list with its read filter, mark one read, read-all, delete one,
    delete the read ones and the unread count. `user` is the authenticated caller. */
module NotificationRoutes {
  import opened Common
  import opened NotificationModel
  import opened ServerStore

  /** The `read` query parameter: only the texts 'true' and 'false' filter. */
  predicate PassesReadFilter(n: NotificationDoc, read: Option<string>)
  {
    (read == Some("true") ==> n.read) && (read == Some("false") ==> !n.read)
  }

  predicate InQuery(n: NotificationDoc, u: Id, read: Option<string>)
  {
    n.recipient == u && PassesReadFilter(n, read)
  }

  /** `Notification.find(query).sort({createdAt: -1})`: the caller's matching notifications, newest first. */
  function NewestMatching(ns: seq<NotificationDoc>, u: Id, read: Option<string>): (r: seq<NotificationDoc>)
    ensures |r| <= |ns|
    ensures forall n :: n in r <==> n in ns && InQuery(n, u, read)
  {
    if ns == [] then []
    else
      var rest := NewestMatching(ns[1..], u, read);
      assert forall n :: n in ns <==> n == ns[0] || n in ns[1..];
      if InQuery(ns[0], u, read) then rest + [ns[0]] else rest
  }

  datatype PageInfo = PageInfo(total: nat, page: int, limit: int, pages: Option<int>)

  datatype NotificationList = NotificationList(count: nat, pagination: PageInfo, unreadCount: nat, data: seq<NotificationDoc>)

  /** `GET /` with `page = 1`, `limit = 20` and `read`. A negative skip is refused by the
      database and ends as a server error. */
  function List(ns: seq<NotificationDoc>, u: Id, pageParam: Option<int>, limitParam: Option<int>, read: Option<string>): (a: Answer<NotificationList>)
    ensures var page := if pageParam.Some? then pageParam.value else 1;
            var limit := if limitParam.Some? then limitParam.value else 20;
      && (a.Failure? <==> (page - 1) * limit < 0)
      && (a.Failure? ==> a == Failure(500, "Server error"))
      && (a.Success? ==>
        a.status == 200
        && a.value.count == |a.value.data|
        && a.value.data == Slice(NewestMatching(ns, u, read), (page - 1) * limit, limit)
        && (forall n :: n in a.value.data ==> n in ns && InQuery(n, u, read))
        && a.value.unreadCount == UnreadNotifications(ns, u)
        && a.value.pagination == PageInfo(|NewestMatching(ns, u, read)|, page, limit, PageCount(|NewestMatching(ns, u, read)|, limit)))
  {
    var page := if pageParam.Some? then pageParam.value else 1;
    var limit := if limitParam.Some? then limitParam.value else 20;
    var skip := (page - 1) * limit;
    if skip < 0 then Failure(500, "Server error")
    else
      var matching := NewestMatching(ns, u, read);
      var data := Slice(matching, skip, limit);
      assert forall n :: n in data ==> n in matching;
      Success(200, NotificationList(|data|, PageInfo(|matching|, page, limit, PageCount(|matching|, limit)),
        UnreadNotifications(ns, u), data))
  }

  /** The `updateMany` of read-all: every unread notification of `u` becomes read at `now`. */
  function ReadAll(ns: seq<NotificationDoc>, u: Id, now: int): (r: seq<NotificationDoc>)
    ensures |r| == |ns|
    ensures forall i :: 0 <= i < |ns| ==> r[i].id == ns[i].id && r[i].recipient == ns[i].recipient
    ensures forall i :: 0 <= i < |ns| && !UnreadFor(ns[i], u) ==> r[i] == ns[i]
    ensures forall i :: 0 <= i < |ns| && UnreadFor(ns[i], u) ==> r[i] == MarkedRead(ns[i], now)
  {
    seq(|ns|, i requires 0 <= i < |ns| => if UnreadFor(ns[i], u) then MarkedRead(ns[i], now) else ns[i])
  }

  /** The `deleteMany` of delete-read: the notifications of `u` that are read are removed. */
  function DeleteRead(ns: seq<NotificationDoc>, u: Id): (r: seq<NotificationDoc>)
    ensures |r| <= |ns|
    ensures forall n :: n in r <==> n in ns && !(n.recipient == u && n.read)
  {
    if ns == [] then []
    else
      var rest := DeleteRead(ns[1..], u);
      assert forall n :: n in ns <==> n == ns[0] || n in ns[1..];
      if ns[0].recipient == u && ns[0].read then rest else [ns[0]] + rest
  }

  /** How many notifications of `u` are read. */
  function ReadCount(ns: seq<NotificationDoc>, u: Id): (c: nat)
    ensures c <= |ns|
  {
    if ns == [] then 0 else (if ns[0].recipient == u && ns[0].read then 1 else 0) + ReadCount(ns[1..], u)
  }

  // ---------------------------------------------------------------------
  // Handlers that change the store

  /** `PUT /:id/read` */
  method MarkRead(db: Database, user: Id, id: Id, now: int) returns (a: Answer<NotificationDoc>)
    requires db.Valid()
    modifies db`notifications
    ensures db.Valid()
    ensures var k := NotificationIndex(old(db.notifications), id);
      if k == -1 then a == Failure(404, "Notification not found") && db.notifications == old(db.notifications)
      else if old(db.notifications)[k].recipient != user then
        a == Failure(403, "Not authorized to update this notification") && db.notifications == old(db.notifications)
      else
        a == Success(200, MarkedRead(old(db.notifications)[k], now))
        && db.notifications == old(db.notifications)[k := a.value]
  {
    var k := NotificationIndex(db.notifications, id);
    if k == -1 {
      return Failure(404, "Notification not found");
    }
    if db.notifications[k].recipient != user {
      return Failure(403, "Not authorized to update this notification");
    }
    var notification := new Notification.Load(db.notifications[k]);
    notification.MarkAsRead(now);
    db.SaveNotification(k, notification.doc);
    a := Success(200, notification.doc);
  }

  /** `PUT /read-all`: the answer carries the number of notifications changed. */
  method MarkAllRead(db: Database, user: Id, now: int) returns (a: Answer<nat>)
    requires db.Valid()
    modifies db`notifications
    ensures db.Valid()
    ensures a == Success(200, UnreadNotifications(old(db.notifications), user))
    ensures db.notifications == ReadAll(old(db.notifications), user, now)
  {
    var modified := UnreadNotifications(db.notifications, user);
    db.notifications := ReadAll(db.notifications, user, now);
    a := Success(200, modified);
  }

  /** `DELETE /:id` */
  method Delete(db: Database, user: Id, id: Id) returns (a: Answer<()>)
    requires db.Valid()
    modifies db`notifications
    ensures db.Valid()
    ensures var k := NotificationIndex(old(db.notifications), id);
      if k == -1 then a == Failure(404, "Notification not found") && db.notifications == old(db.notifications)
      else if old(db.notifications)[k].recipient != user then
        a == Failure(403, "Not authorized to delete this notification") && db.notifications == old(db.notifications)
      else
        a == Success(200, ()) && db.notifications == old(db.notifications)[..k] + old(db.notifications)[k + 1..]
  {
    var k := NotificationIndex(db.notifications, id);
    if k == -1 {
      return Failure(404, "Notification not found");
    }
    if db.notifications[k].recipient != user {
      return Failure(403, "Not authorized to delete this notification");
    }
    db.notifications := db.notifications[..k] + db.notifications[k + 1..];
    a := Success(200, ());
  }

  /** A path segment that names an id: the decimal rendering `IdText` gives. */
  predicate IsIdText(s: string)
  {
    s != [] && forall i :: 0 <= i < |s| ==> '0' <= s[i] <= '9'
  }

  /** `DELETE /:id` on the raw path segment: `findById` casts the segment first, and a
      segment that is not an id throws a CastError, answered as a server error. */
  method DeleteSegment(db: Database, user: Id, segment: string) returns (a: Answer<()>)
    requires db.Valid()
    modifies db`notifications
    ensures db.Valid()
    ensures !IsIdText(segment) ==> a == Failure(500, "Server error") && db.notifications == old(db.notifications)
    ensures IsIdText(segment) ==>
      var k := NotificationIndex(old(db.notifications), DigitsValue(segment));
      if k == -1 then a == Failure(404, "Notification not found") && db.notifications == old(db.notifications)
      else if old(db.notifications)[k].recipient != user then
        a == Failure(403, "Not authorized to delete this notification") && db.notifications == old(db.notifications)
      else
        a == Success(200, ()) && db.notifications == old(db.notifications)[..k] + old(db.notifications)[k + 1..]
  {
    if !IsIdText(segment) {
      return Failure(500, "Server error");
    }
    a := Delete(db, user, DigitsValue(segment));
  }

  /** `DELETE /read` as the router dispatches it: `/:id` is registered first and matches
      every single segment, so the request reaches the delete-one handler with the segment
      'read', which is not an id. Nothing is deleted and the answer is a server error. */
  method DeleteReadRequest(db: Database, user: Id) returns (a: Answer<()>)
    requires db.Valid()
    modifies db`notifications
    ensures db.Valid()
    ensures a == Failure(500, "Server error") && db.notifications == old(db.notifications)
  {
    assert !IsIdText("read") by { assert "read"[0] == 'r'; }
    a := DeleteSegment(db, user, "read");
  }

  /** `DELETE /read` as its handler is written (reachable once it is registered before
      `/:id`): the answer carries the number of notifications deleted. */
  method DeleteAllRead(db: Database, user: Id) returns (a: Answer<nat>)
    requires db.Valid()
    modifies db`notifications
    ensures db.Valid()
    ensures a == Success(200, ReadCount(old(db.notifications), user))
    ensures db.notifications == DeleteRead(old(db.notifications), user)
  {
    var deleted := ReadCount(db.notifications, user);
    db.notifications := DeleteRead(db.notifications, user);
    a := Success(200, deleted);
  }

  // ---------------------------------------------------------------------
  // Properties

  /** After read-all the caller has no unread notification, and every other user's count is unchanged. */
  lemma ReadAllClears(ns: seq<NotificationDoc>, u: Id, now: int, v: Id)
    ensures UnreadNotifications(ReadAll(ns, u, now), u) == 0
    ensures v != u ==> UnreadNotifications(ReadAll(ns, u, now), v) == UnreadNotifications(ns, v)
  {
    var r := ReadAll(ns, u, now);
    assert forall i :: 0 <= i < |r| ==> !UnreadFor(r[i], u);
    if v != u {
      ReadAllOthers(ns, u, now, v);
    }
  }

  lemma {:induction false} ReadAllOthers(ns: seq<NotificationDoc>, u: Id, now: int, v: Id)
    requires v != u
    ensures UnreadNotifications(ReadAll(ns, u, now), v) == UnreadNotifications(ns, v)
    decreases |ns|
  {
    if ns != [] {
      ReadAllOthers(ns[1..], u, now, v);
      assert ReadAll(ns, u, now)[1..] == ReadAll(ns[1..], u, now);
    }
  }

  /** Delete-read removes exactly the caller's read notifications: the unread count of
      every user is unchanged, and the list shrinks by the number deleted. */
  lemma {:induction false} DeleteReadKeepsUnread(ns: seq<NotificationDoc>, u: Id, v: Id)
    ensures UnreadNotifications(DeleteRead(ns, u), v) == UnreadNotifications(ns, v)
    ensures |DeleteRead(ns, u)| == |ns| - ReadCount(ns, u)
    decreases |ns|
  {
    if ns != [] {
      DeleteReadKeepsUnread(ns[1..], u, v);
      if !(ns[0].recipient == u && ns[0].read) {
        var r := DeleteRead(ns, u);
        assert r[0] == ns[0] && r[1..] == DeleteRead(ns[1..], u);
      }
    }
  }

  /** Whenever the caller has a read notification, the handler of `DELETE /read` would remove
      it, while the request as routed leaves the store as it was. */
  lemma DeleteReadRouteMissesReadNotifications(ns: seq<NotificationDoc>, u: Id, k: nat)
    requires k < |ns| && ns[k].recipient == u && ns[k].read
    ensures ns[k] !in DeleteRead(ns, u) && DeleteRead(ns, u) != ns
  {
    assert ns[k] in ns;
  }

  /** With a positive limit, pages tile the caller's matching notifications, newest first:
      the match at position `(page - 1) * limit + r`, for `r < limit`, is item `r` of that page. */
  lemma PageOfNotification(ns: seq<NotificationDoc>, u: Id, read: Option<string>, page: int, limit: int, r: nat)
    requires limit > 0 && page >= 1 && r < limit
    requires (page - 1) * limit + r < |NewestMatching(ns, u, read)|
    ensures var a := List(ns, u, Some(page), Some(limit), read);
      a.Success? && r < |a.value.data| && a.value.data[r] == NewestMatching(ns, u, read)[(page - 1) * limit + r]
  {
    var skip := ListData(ns, u, read, page, limit);
    SliceItem(NewestMatching(ns, u, read), skip, limit, r);
  }

  /** With page at least 1 and a positive limit, the list succeeds and its data is the page after `skip`. */
  lemma ListData(ns: seq<NotificationDoc>, u: Id, read: Option<string>, page: int, limit: int) returns (skip: nat)
    requires limit > 0 && page >= 1
    ensures skip == (page - 1) * limit
    ensures List(ns, u, Some(page), Some(limit), read).Success?
    ensures List(ns, u, Some(page), Some(limit), read).value.data == Slice(NewestMatching(ns, u, read), skip, limit)
  {
    var before: nat := page - 1;
    skip := before * limit;
  }

  /** Item `r` of a page of positive size is the match `r` places after the skipped ones. */
  lemma SliceItem<T>(m: seq<T>, skip: nat, limit: int, r: nat)
    requires r < limit && skip + r < |m|
    ensures r < |Slice(m, skip, limit)| && Slice(m, skip, limit)[r] == m[skip + r]
  {
    var d := Slice(m, skip, limit);
    if skip + limit <= |m| {
      assert |d| == limit;
    } else {
      assert |d| == |m| - skip;
    }
  }

  /** The unread count in the list answer does not depend on the read filter or the page. */
  lemma UnreadCountIgnoresFilter(ns: seq<NotificationDoc>, u: Id, p1: Option<int>, l1: Option<int>, r1: Option<string>,
                                 p2: Option<int>, l2: Option<int>, r2: Option<string>)
    requires List(ns, u, p1, l1, r1).Success? && List(ns, u, p2, l2, r2).Success?
    ensures List(ns, u, p1, l1, r1).value.unreadCount == List(ns, u, p2, l2, r2).value.unreadCount
  {
  }

  /** With `read` set to 'false', the list total is the caller's unread count. */
  lemma {:induction false} FilterFalseCountsUnread(ns: seq<NotificationDoc>, u: Id)
    ensures |NewestMatching(ns, u, Some("false"))| == UnreadNotifications(ns, u)
    decreases |ns|
  {
    if ns != [] {
      FilterFalseCountsUnread(ns[1..], u);
    }
  }
}
