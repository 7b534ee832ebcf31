/** The conversation message routes of the academy portal (routes/message.js): history
    with read marking, text and media sending behind the participation, mute and
    permission checks, editing, deletion with the `lastMessage` repair, and the
    one-reaction-per-user toggle. Route ids that are not well-formed ObjectIds are `None`. */
module PortalMessages {
  import opened Common
  import opened PortalStore

  // ---------------------------------------------------------------------
  // Mentions: `content.match(/@([a-fA-F0-9]{24})/g)` without the '@'

  predicate IsHex(c: char)
  {
    '0' <= c <= '9' || 'a' <= c <= 'f' || 'A' <= c <= 'F'
  }

  predicate HexRun(s: string)
  {
    forall i :: 0 <= i < |s| ==> IsHex(s[i])
  }

  const ObjectIdLength: nat := 24

  /** A global match scans left to right; after a match the scan resumes behind it. */
  function Mentions(s: string): (r: seq<string>)
    ensures forall i :: 0 <= i < |r| ==> |r[i]| == ObjectIdLength && HexRun(r[i])
    decreases |s|
  {
    if |s| < ObjectIdLength + 1 then []
    else if s[0] == '@' && HexRun(s[1..ObjectIdLength + 1]) then [s[1..ObjectIdLength + 1]] + Mentions(s[ObjectIdLength + 1..])
    else Mentions(s[1..])
  }

  /** Every mention is a run of 24 hex digits that follows an '@' in the content. */
  lemma {:induction false} MentionsOccur(s: string, j: nat)
    requires j < |Mentions(s)|
    ensures exists i :: 0 <= i && i + ObjectIdLength + 1 <= |s| && s[i] == '@' && s[i + 1..i + ObjectIdLength + 1] == Mentions(s)[j]
    decreases |s|
  {
    if s[0] == '@' && HexRun(s[1..ObjectIdLength + 1]) {
      if j == 0 {
        assert s[0 + 1..0 + ObjectIdLength + 1] == Mentions(s)[0];
      } else {
        var t := s[ObjectIdLength + 1..];
        MentionsOccur(t, j - 1);
        var i :| 0 <= i && i + ObjectIdLength + 1 <= |t| && t[i] == '@' && t[i + 1..i + ObjectIdLength + 1] == Mentions(t)[j - 1];
        var i' := i + ObjectIdLength + 1;
        assert s[i'] == '@';
        assert s[i' + 1..i' + ObjectIdLength + 1] == t[i + 1..i + ObjectIdLength + 1];
      }
    } else {
      var t := s[1..];
      MentionsOccur(t, j);
      var i :| 0 <= i && i + ObjectIdLength + 1 <= |t| && t[i] == '@' && t[i + 1..i + ObjectIdLength + 1] == Mentions(t)[j];
      assert s[i + 1] == '@';
      assert s[i + 2..i + 1 + ObjectIdLength + 1] == t[i + 1..i + ObjectIdLength + 1];
    }
  }

  /** Content that mentions the given ids, each as "@<id> ". */
  function Tagged(ids: seq<string>): string
  {
    if ids == [] then "" else "@" + ids[0] + " " + Tagged(ids[1..])
  }

  /** Mentioning well-formed ids and extracting the mentions gives the ids back, in order. */
  lemma {:induction false} MentionsOfTagged(ids: seq<string>)
    requires forall i :: 0 <= i < |ids| ==> |ids[i]| == ObjectIdLength && HexRun(ids[i])
    ensures Mentions(Tagged(ids)) == ids
  {
    if ids != [] {
      var rest := Tagged(ids[1..]);
      var s := Tagged(ids);
      assert s == "@" + ids[0] + " " + rest;
      assert s[1..ObjectIdLength + 1] == ids[0];
      assert s[ObjectIdLength + 1..] == " " + rest;
      MentionsOfTagged(ids[1..]);
      SpaceSkipped(rest);
    }
  }

  lemma SpaceSkipped(t: string)
    ensures Mentions(" " + t) == Mentions(t)
  {
    if |" " + t| >= ObjectIdLength + 1 {
      assert (" " + t)[1..] == t;
    }
  }

  /** Content without an '@' mentions nobody. */
  lemma {:induction false} NoAtNoMentions(s: string)
    requires forall i :: 0 <= i < |s| ==> s[i] != '@'
    ensures Mentions(s) == []
    decreases |s|
  {
    if |s| >= ObjectIdLength + 1 {
      NoAtNoMentions(s[1..]);
    }
  }

  // ---------------------------------------------------------------------
  // Media uploads

  /** The MIME types the upload filter accepts (the `application/` ones spelt with their prefix apart). */
  const AllowedFileTypes: set<string> := {
    "image/jpeg", "image/png", "image/gif",
    "application/" + "pdf",
    "application/" + "msword", "application/" + "vnd.openxmlformats-officedocument.wordprocessingml.document",
    "application/" + "vnd.ms-excel", "application/" + "vnd.openxmlformats-officedocument.spreadsheetml.sheet",
    "application/" + "vnd.ms-powerpoint", "application/" + "vnd.openxmlformats-officedocument.presentationml.presentation",
    "text/plain"}

  /** `fileFilter`: the upload is accepted exactly for the listed MIME types. */
  predicate AllowedMime(mime: string)
  {
    mime in AllowedFileTypes
  }

  /** The upload limit, 10 MB. */
  const MaxMediaSize: nat := 1024 * 1024 * 10

  /** `mimetype.startsWith('image/') ? 'image' : 'file'` */
  function MediaKind(mime: string): (k: string)
    ensures k == "image" <==> StartsWith(mime, "image/")
    ensures k == "image" || k == "file"
  {
    if StartsWith(mime, "image/") then "image" else "file"
  }

  /** Among the accepted uploads, exactly the JPEG, PNG and GIF ones become image messages. */
  lemma AcceptedImages(mime: string)
    ensures AllowedMime(mime) && MediaKind(mime) == "image" <==> mime in {"image/jpeg", "image/png", "image/gif"}
  {
    if mime in {"image/jpeg", "image/png", "image/gif"} {
      assert mime[..6] == "image/";
    } else if AllowedMime(mime) {
      assert mime[0] != 'i';
    }
  }

  // ---------------------------------------------------------------------
  // Who may send

  /** `canSendMessages === 'all' || (=== 'admins' && participant.isAdmin) || user.role === 'admin'` */
  predicate CanSend(c: ConversationDoc, p: Participant, role: string)
  {
    c.canSendMessages == "all" || (c.canSendMessages == "admins" && p.isAdmin) || role == "admin"
  }

  /** The guard sequence before a message is created: an active participant, not muted,
      with the conversation's send permission. */
  function SendPermission(c: ConversationDoc, user: Id, role: string): (a: Answer<Participant>)
    ensures ActiveEntry(c.participants, user) == -1 ==> a == Failure(403, "Not authorized to access this conversation")
    ensures var k := ActiveEntry(c.participants, user);
      k >= 0 ==>
        if c.participants[k].isMuted then a == Failure(403, "You are muted in this conversation")
        else if !CanSend(c, c.participants[k], role) then a == Failure(403, "Not authorized to send messages in this conversation")
        else a == Success(200, c.participants[k])
  {
    var k := ActiveEntry(c.participants, user);
    if k == -1 then Failure(403, "Not authorized to access this conversation")
    else if c.participants[k].isMuted then Failure(403, "You are muted in this conversation")
    else if !CanSend(c, c.participants[k], role) then Failure(403, "Not authorized to send messages in this conversation")
    else Success(200, c.participants[k])
  }

  /** The admin role lifts the send permission but neither the participation nor the mute
      check; under the 'specific' setting only the admin role may send. */
  lemma AdminRoleBypass(c: ConversationDoc, user: Id)
    ensures SendPermission(c, user, "admin").Success? <==>
      ActiveEntry(c.participants, user) >= 0 && !c.participants[ActiveEntry(c.participants, user)].isMuted
    ensures c.canSendMessages == "specific" ==>
      forall role :: role != "admin" ==> SendPermission(c, user, role).Failure?
  {
  }

  // ---------------------------------------------------------------------
  // Creating messages

  /** A new text message: the sender has read it, and it carries its mentions. */
  function TextMessage(id: Id, conversation: Id, sender: Id, content: string, now: int): (m: PortalMessage)
    ensures m.readBy == [sender] && m.kind == "text" && m.reactions == [] && !m.isEdited
    ensures m.mentions == Mentions(content)
  {
    PortalMessage(id, conversation, sender, content, "text", None, None, None, [], [sender], false, now, Mentions(content))
  }

  /** A new media message with its caption (`req.body.content || ''`). */
  function MediaMessage(id: Id, conversation: Id, sender: Id, caption: string, file: Upload, now: int): (m: PortalMessage)
    ensures m.readBy == [sender] && m.reactions == [] && !m.isEdited
    ensures m.kind == MediaKind(file.mimetype) && m.mediaUrl == Some("/uploads/message-media/" + file.filename)
  {
    PortalMessage(id, conversation, sender, caption, MediaKind(file.mimetype), Some("/uploads/message-media/" + file.filename),
      Some(file.originalname), Some(file.size), [], [sender], false, now, Mentions(caption))
  }

  /** The message schema's validators: a non-empty content and a type from the enumeration. */
  predicate SchemaValid(m: PortalMessage)
  {
    m.content != "" && m.kind in {"text", "image", "file", "system"}
  }

  /** The conversation after a new last message. */
  function WithLast(c: ConversationDoc, m: PortalMessage): (r: ConversationDoc)
    ensures r.lastMessage == Some(m.id) && r.lastMessageAt == Some(m.createdAt)
    ensures r.participants == c.participants && r.id == c.id
  {
    c.(lastMessage := Some(m.id), lastMessageAt := Some(m.createdAt))
  }

  /** `POST /:conversationId/messages` */
  method SendText(db: PortalDb, conv: Option<Id>, user: Id, role: string, content: string, now: int) returns (a: Answer<PortalMessage>)
    requires db.Valid()
    modifies db`nextId, db`messages, db`conversations
    ensures db.Valid()
    ensures a.Failure? ==> db.messages == old(db.messages) && db.conversations == old(db.conversations)
    ensures content == "" ==> a == Failure(400, "Message content is required")
    ensures content != "" && conv.None? ==> a == Failure(400, "Invalid conversation ID")
    ensures content != "" && conv.Some? && conv.value !in old(db.conversations) ==> a == Failure(404, "Conversation not found")
    ensures content != "" && conv.Some? && conv.value in old(db.conversations) ==>
      var c := old(db.conversations)[conv.value];
      var check := SendPermission(c, user, role);
      if check.Failure? then a == Failure(check.status, check.message)
      else
        var m := TextMessage(old(db.nextId), c.id, user, content, now);
        a == Success(200, m) && db.messages == old(db.messages) + [m]
        && db.conversations == old(db.conversations)[c.id := WithLast(c, m)]
  {
    if content == "" {
      return Failure(400, "Message content is required");
    }
    if conv.None? {
      return Failure(400, "Invalid conversation ID");
    }
    if conv.value !in db.conversations {
      return Failure(404, "Conversation not found");
    }
    var c := db.conversations[conv.value];
    var check := SendPermission(c, user, role);
    if check.Failure? {
      return Failure(check.status, check.message);
    }
    var id := db.FreshId();
    var m := TextMessage(id, c.id, user, content, now);
    db.InsertMessage(m);
    db.SaveConversation(WithLast(c, m));
    a := Success(200, m);
  }

  /** `POST /:conversationId/messages/media`. The upload middleware refuses a file type
      outside the list or a file over the limit before the handler runs; the error ends
      as a server error. */
  method SendMedia(db: PortalDb, conv: Option<Id>, user: Id, role: string, file: Option<Upload>, caption: string, now: int)
    returns (a: Answer<PortalMessage>)
    requires db.Valid()
    modifies db`nextId, db`messages, db`conversations
    ensures db.Valid()
    ensures a.Failure? ==> db.messages == old(db.messages) && db.conversations == old(db.conversations)
    ensures file.Some? && !AllowedMime(file.value.mimetype) ==> a == Failure(500, "Unsupported file type")
    ensures file.Some? && AllowedMime(file.value.mimetype) && file.value.size > MaxMediaSize ==> a == Failure(500, "File too large")
    ensures file.None? ==> a == Failure(400, "No file uploaded")
    ensures a.Success? ==>
      file.Some? && conv.Some? && conv.value in old(db.conversations)
      && SendPermission(old(db.conversations)[conv.value], user, role).Success?
      && var m := MediaMessage(old(db.nextId), conv.value, user, caption, file.value, now);
        SchemaValid(m) && a == Success(200, m) && db.messages == old(db.messages) + [m]
        && db.conversations == old(db.conversations)[conv.value := WithLast(old(db.conversations)[conv.value], m)]
    ensures (file.Some? && AllowedMime(file.value.mimetype) && file.value.size <= MaxMediaSize && conv.Some?
      && conv.value in old(db.conversations) && SendPermission(old(db.conversations)[conv.value], user, role).Success?) ==>
      (a.Success? <==> caption != "")
  {
    if file.Some? && !AllowedMime(file.value.mimetype) {
      return Failure(500, "Unsupported file type");
    }
    if file.Some? && file.value.size > MaxMediaSize {
      return Failure(500, "File too large");
    }
    if file.None? {
      return Failure(400, "No file uploaded");
    }
    if conv.None? {
      return Failure(400, "Invalid conversation ID");
    }
    if conv.value !in db.conversations {
      return Failure(404, "Conversation not found");
    }
    var c := db.conversations[conv.value];
    var check := SendPermission(c, user, role);
    if check.Failure? {
      return Failure(check.status, check.message);
    }
    var id := db.FreshId();
    var m := MediaMessage(id, c.id, user, caption, file.value, now);
    if !SchemaValid(m) {
      return Failure(500, "Server error");
    }
    db.InsertMessage(m);
    db.SaveConversation(WithLast(c, m));
    a := Success(200, m);
  }

  /** As written, a media message without a caption has empty content, which the message
      schema requires, so the upload ends in a server error. */
  lemma UncaptionedMediaRefused(id: Id, conversation: Id, sender: Id, file: Upload, now: int)
    ensures !SchemaValid(MediaMessage(id, conversation, sender, "", file, now))
  {
  }

  /** The evidently intended rule: content is required of text messages only, the caption
      of a media message being optional. */
  predicate CaptionOptionalValid(m: PortalMessage)
  {
    (m.kind != "text" || m.content != "") && m.kind in {"text", "image", "file", "system"}
  }

  /** Under that rule every media message the route builds is accepted, captioned or not,
      and text messages keep their requirement. */
  lemma MediaAcceptedWhenCaptionOptional(id: Id, conversation: Id, sender: Id, caption: string, file: Upload, now: int, content: string)
    ensures CaptionOptionalValid(MediaMessage(id, conversation, sender, caption, file, now))
    ensures CaptionOptionalValid(TextMessage(id, conversation, sender, content, now)) <==> content != ""
  {
  }

  // ---------------------------------------------------------------------
  // Editing and deleting

  /** `PUT /:conversationId/messages/:messageId` */
  method Edit(db: PortalDb, conv: Option<Id>, msg: Option<Id>, user: Id, content: string) returns (a: Answer<PortalMessage>)
    requires db.Valid()
    modifies db`messages
    ensures db.Valid()
    ensures a.Failure? ==> db.messages == old(db.messages)
    ensures content == "" ==> a == Failure(400, "Message content is required")
    ensures content != "" && (conv.None? || msg.None?) ==> a == Failure(400, "Invalid ID")
    ensures content != "" && conv.Some? && msg.Some? ==>
      var k := PortalMessageIndex(old(db.messages), msg.value);
      if k == -1 then a == Failure(404, "Message not found")
      else
        var m := old(db.messages)[k];
        if m.conversation != conv.value then a == Failure(400, "Message not found in this conversation")
        else if m.sender != user then a == Failure(403, "Not authorized to edit this message")
        else if m.kind != "text" then a == Failure(400, "Only text messages can be edited")
        else
          var e := m.(content := content, isEdited := true, mentions := Mentions(content));
          a == Success(200, e) && db.messages == old(db.messages)[k := e]
  {
    if content == "" {
      return Failure(400, "Message content is required");
    }
    if conv.None? || msg.None? {
      return Failure(400, "Invalid ID");
    }
    var k := PortalMessageIndex(db.messages, msg.value);
    if k == -1 {
      return Failure(404, "Message not found");
    }
    var m := db.messages[k];
    if m.conversation != conv.value {
      return Failure(400, "Message not found in this conversation");
    }
    if m.sender != user {
      return Failure(403, "Not authorized to edit this message");
    }
    if m.kind != "text" {
      return Failure(400, "Only text messages can be edited");
    }
    var e := m.(content := content, isEdited := true, mentions := Mentions(content));
    db.SaveMessage(k, e);
    a := Success(200, e);
  }

  /** The messages of one conversation, in store order. */
  function OfConversation(ms: seq<PortalMessage>, c: Id): (r: seq<PortalMessage>)
    ensures |r| <= |ms|
    ensures forall m :: m in r <==> m in ms && m.conversation == c
  {
    if ms == [] then []
    else
      var rest := OfConversation(ms[1..], c);
      assert forall m :: m in ms <==> m == ms[0] || m in ms[1..];
      if ms[0].conversation == c then [ms[0]] + rest else rest
  }

  /** `Message.find({conversation}).sort({createdAt: -1}).limit(1)`: the newest message of the conversation. */
  function Newest(ms: seq<PortalMessage>, c: Id): (r: Option<PortalMessage>)
    ensures r.None? <==> forall m :: m in ms ==> m.conversation != c
    ensures r.Some? ==> r.value in ms && r.value.conversation == c
  {
    var of := OfConversation(ms, c);
    if of == [] then None
    else
      assert of[|of| - 1] in of;
      Some(of[|of| - 1])
  }

  /** The `lastMessage` repair after deleting message `deleted`: only a conversation whose
      last message was the deleted one changes, and it then points at the newest remaining one. */
  function Repaired(c: ConversationDoc, remaining: seq<PortalMessage>, deleted: Id): (r: ConversationDoc)
    ensures c.lastMessage != Some(deleted) ==> r == c
    ensures r.participants == c.participants && r.id == c.id
  {
    if c.lastMessage != Some(deleted) then c
    else match Newest(remaining, c.id)
      case None => c.(lastMessage := None, lastMessageAt := None)
      case Some(m) => c.(lastMessage := Some(m.id), lastMessageAt := Some(m.createdAt))
  }

  /** `DELETE /:conversationId/messages/:messageId`. The message is removed before the
      conversation is read; a missing conversation then fails as a server error. */
  method Delete(db: PortalDb, conv: Option<Id>, msg: Option<Id>, user: Id, role: string) returns (a: Answer<()>)
    requires db.Valid()
    modifies db`messages, db`conversations
    ensures db.Valid()
    ensures conv.None? || msg.None? ==> a == Failure(400, "Invalid ID") && db.messages == old(db.messages)
    ensures conv.Some? && msg.Some? ==>
      var k := PortalMessageIndex(old(db.messages), msg.value);
      if k == -1 then a == Failure(404, "Message not found") && db.messages == old(db.messages)
      else
        var m := old(db.messages)[k];
        if m.conversation != conv.value then a == Failure(400, "Message not found in this conversation") && db.messages == old(db.messages)
        else if m.sender != user && role != "admin" then a == Failure(403, "Not authorized to delete this message") && db.messages == old(db.messages)
        else
          db.messages == old(db.messages)[..k] + old(db.messages)[k + 1..]
          && (if conv.value !in old(db.conversations) then a == Failure(500, "Server error") && db.conversations == old(db.conversations)
              else (a == Success(200, ())
                && db.conversations == old(db.conversations)[conv.value := Repaired(old(db.conversations)[conv.value], db.messages, msg.value)]))
    ensures a.Failure? ==> db.conversations == old(db.conversations)
  {
    if conv.None? || msg.None? {
      return Failure(400, "Invalid ID");
    }
    var k := PortalMessageIndex(db.messages, msg.value);
    if k == -1 {
      return Failure(404, "Message not found");
    }
    var m := db.messages[k];
    if m.conversation != conv.value {
      return Failure(400, "Message not found in this conversation");
    }
    if m.sender != user && role != "admin" {
      return Failure(403, "Not authorized to delete this message");
    }
    db.RemoveMessage(k);
    if conv.value !in db.conversations {
      return Failure(500, "Server error");
    }
    var c := db.conversations[conv.value];
    db.SaveConversation(Repaired(c, db.messages, msg.value));
    a := Success(200, ());
  }

  /** After the repair the conversation no longer points at the deleted message, and when it
      points anywhere it is at a remaining message of its own. */
  lemma RepairedPointsAtRemaining(c: ConversationDoc, remaining: seq<PortalMessage>, deleted: Id)
    requires c.lastMessage == Some(deleted)
    requires forall m :: m in remaining ==> m.id != deleted
    ensures var r := Repaired(c, remaining, deleted);
      r.lastMessage != Some(deleted)
      && (r.lastMessage.Some? ==> exists m :: m in remaining && m.id == r.lastMessage.value && m.conversation == c.id)
      && (r.lastMessage.None? <==> forall m :: m in remaining ==> m.conversation != c.id)
  {
    var r := Repaired(c, remaining, deleted);
    if Newest(remaining, c.id).Some? {
      assert Newest(remaining, c.id).value in remaining;
    }
  }

  // ---------------------------------------------------------------------
  // Reactions

  /** `reactions.findIndex(r => r.user == u && r.reaction == e)` */
  function FindReaction(rs: seq<Reaction>, u: Id, e: string): (k: int)
    ensures -1 <= k < |rs|
    ensures k >= 0 ==> rs[k].user == u && rs[k].reaction == e
    ensures k >= 0 ==> forall i :: 0 <= i < k ==> !(rs[i].user == u && rs[i].reaction == e)
    ensures k == -1 <==> forall i :: 0 <= i < |rs| ==> !(rs[i].user == u && rs[i].reaction == e)
  {
    if rs == [] then -1
    else if rs[0].user == u && rs[0].reaction == e then 0
    else
      var k := FindReaction(rs[1..], u, e);
      assert forall i :: 0 < i < |rs| ==> rs[i] == rs[1..][i - 1];
      if k == -1 then -1 else k + 1
  }

  /** `reactions.findIndex(r => r.user == u)` */
  function FindUserReaction(rs: seq<Reaction>, u: Id): (k: int)
    ensures -1 <= k < |rs|
    ensures k >= 0 ==> rs[k].user == u
    ensures k >= 0 ==> forall i :: 0 <= i < k ==> rs[i].user != u
    ensures k == -1 <==> forall i :: 0 <= i < |rs| ==> rs[i].user != u
  {
    if rs == [] then -1
    else if rs[0].user == u then 0
    else
      var k := FindUserReaction(rs[1..], u);
      assert forall i :: 0 < i < |rs| ==> rs[i] == rs[1..][i - 1];
      if k == -1 then -1 else k + 1
  }

  /** `reactions.splice(k, 1)` */
  function RemoveAt(rs: seq<Reaction>, k: nat): (r: seq<Reaction>)
    requires k < |rs|
    ensures |r| == |rs| - 1
    ensures forall i :: 0 <= i < k ==> r[i] == rs[i]
    ensures forall i :: k < i < |rs| ==> r[i - 1] == rs[i]
  {
    rs[..k] + rs[k + 1..]
  }

  /** The reaction list after `u` reacts with `e`: the same reaction again is withdrawn;
      otherwise the user's previous reaction is spliced out and the new one pushed. */
  function Toggle(rs: seq<Reaction>, u: Id, e: string, now: int): seq<Reaction>
  {
    var k := FindReaction(rs, u, e);
    if k != -1 then RemoveAt(rs, k)
    else
      var j := FindUserReaction(rs, u);
      (if j != -1 then RemoveAt(rs, j) else rs) + [Reaction(u, e, now)]
  }

  /** Each user has at most one reaction on the message. */
  predicate OnePerUser(rs: seq<Reaction>)
  {
    forall i, j :: 0 <= i < j < |rs| ==> rs[i].user != rs[j].user
  }

  predicate Reacted(rs: seq<Reaction>, u: Id, e: string)
  {
    exists i :: 0 <= i < |rs| && rs[i].user == u && rs[i].reaction == e
  }

  predicate NoEntryOf(rs: seq<Reaction>, u: Id)
  {
    forall i :: 0 <= i < |rs| ==> rs[i].user != u
  }

  /** A reaction survives a splice exactly when it was at another position. */
  lemma ReactedAfterRemove(rs: seq<Reaction>, k: nat, v: Id, f: string)
    requires k < |rs|
    ensures Reacted(RemoveAt(rs, k), v, f) <==> exists i :: 0 <= i < |rs| && i != k && rs[i].user == v && rs[i].reaction == f
  {
    var r := RemoveAt(rs, k);
    if Reacted(r, v, f) {
      var i :| 0 <= i < |r| && r[i].user == v && r[i].reaction == f;
      if i < k {
        assert rs[i] == r[i];
      } else {
        assert rs[i + 1] == r[i];
      }
    }
    if exists i :: 0 <= i < |rs| && i != k && rs[i].user == v && rs[i].reaction == f {
      var i :| 0 <= i < |rs| && i != k && rs[i].user == v && rs[i].reaction == f;
      if i < k {
        assert r[i] == rs[i];
      } else {
        assert r[i - 1] == rs[i];
      }
    }
  }

  /** Splicing out a user's only entry leaves one entry per user and none of theirs. */
  lemma RemoveOnlyEntry(rs: seq<Reaction>, k: nat)
    requires k < |rs| && OnePerUser(rs)
    ensures OnePerUser(RemoveAt(rs, k)) && NoEntryOf(RemoveAt(rs, k), rs[k].user)
  {
    var r := RemoveAt(rs, k);
    forall i | 0 <= i < |r|
      ensures r[i] == rs[if i < k then i else i + 1]
    {
    }
  }

  /** Pushing an entry of a user without one keeps one entry per user. */
  lemma PushNewUser(rs: seq<Reaction>, x: Reaction)
    requires OnePerUser(rs) && NoEntryOf(rs, x.user)
    ensures OnePerUser(rs + [x])
    ensures forall v, f :: Reacted(rs + [x], v, f) <==> Reacted(rs, v, f) || (x.user == v && x.reaction == f)
  {
    var t := rs + [x];
    forall v, f
      ensures Reacted(t, v, f) <==> Reacted(rs, v, f) || (x.user == v && x.reaction == f)
    {
      if Reacted(rs, v, f) {
        var i :| 0 <= i < |rs| && rs[i].user == v && rs[i].reaction == f;
        assert t[i] == rs[i];
      }
      if x.user == v && x.reaction == f {
        assert t[|rs|] == x;
      }
      if Reacted(t, v, f) {
        var i :| 0 <= i < |t| && t[i].user == v && t[i].reaction == f;
        if i < |rs| {
          assert rs[i] == t[i];
        }
      }
    }
  }

  /** The toggle keeps one reaction per user, and afterwards the user has reacted with `e`
      exactly when they had not before; any other reaction of theirs is gone. */
  lemma ToggleMeaning(rs: seq<Reaction>, u: Id, e: string, now: int)
    requires OnePerUser(rs)
    ensures OnePerUser(Toggle(rs, u, e, now))
    ensures Reacted(Toggle(rs, u, e, now), u, e) <==> !Reacted(rs, u, e)
    ensures forall f :: f != e ==> !Reacted(Toggle(rs, u, e, now), u, f)
  {
    var t := Toggle(rs, u, e, now);
    var k := FindReaction(rs, u, e);
    if k != -1 {
      RemoveOnlyEntry(rs, k);
      assert Reacted(rs, u, e);
    } else {
      var j := FindUserReaction(rs, u);
      var base := if j != -1 then RemoveAt(rs, j) else rs;
      if j != -1 {
        RemoveOnlyEntry(rs, j);
      }
      assert NoEntryOf(base, u);
      PushNewUser(base, Reaction(u, e, now));
      assert t == base + [Reaction(u, e, now)];
    }
  }

  /** Reactions of other users are untouched by a toggle. */
  lemma ToggleKeepsOthers(rs: seq<Reaction>, u: Id, e: string, now: int, v: Id, f: string)
    requires v != u
    ensures Reacted(Toggle(rs, u, e, now), v, f) <==> Reacted(rs, v, f)
  {
    var k := FindReaction(rs, u, e);
    if k != -1 {
      ReactedAfterRemove(rs, k, v, f);
    } else {
      var j := FindUserReaction(rs, u);
      var base := if j != -1 then RemoveAt(rs, j) else rs;
      if j != -1 {
        ReactedAfterRemove(rs, j, v, f);
      }
      assert Reacted(base, v, f) <==> Reacted(rs, v, f);
      var t := base + [Reaction(u, e, now)];
      if Reacted(base, v, f) {
        var i :| 0 <= i < |base| && base[i].user == v && base[i].reaction == f;
        assert t[i] == base[i];
      }
      if Reacted(t, v, f) {
        var i :| 0 <= i < |t| && t[i].user == v && t[i].reaction == f;
        assert i < |base| && t[i] == base[i];
      }
    }
  }

  /** Reacting and reacting again with the same emoji restores a list where the user had no reaction. */
  lemma ToggleTwice(rs: seq<Reaction>, u: Id, e: string, now: int, later: int)
    requires NoEntryOf(rs, u)
    ensures Toggle(Toggle(rs, u, e, now), u, e, later) == rs
  {
    var t := Toggle(rs, u, e, now);
    assert t == rs + [Reaction(u, e, now)];
    assert t[|rs|].user == u && t[|rs|].reaction == e;
    assert FindReaction(t, u, e) == |rs|;
    assert RemoveAt(t, |rs|) == t[..|rs|] == rs;
  }

  /** `POST /:conversationId/messages/:messageId/reaction` */
  method React(db: PortalDb, conv: Option<Id>, msg: Option<Id>, user: Id, reaction: string, now: int) returns (a: Answer<PortalMessage>)
    requires db.Valid()
    modifies db`messages
    ensures db.Valid()
    ensures a.Failure? ==> db.messages == old(db.messages)
    ensures reaction == "" ==> a == Failure(400, "Reaction is required")
    ensures reaction != "" && (conv.None? || msg.None?) ==> a == Failure(400, "Invalid ID")
    ensures reaction != "" && conv.Some? && msg.Some? ==>
      var k := PortalMessageIndex(old(db.messages), msg.value);
      if k == -1 then a == Failure(404, "Message not found")
      else if old(db.messages)[k].conversation != conv.value then a == Failure(400, "Message not found in this conversation")
      else if conv.value !in db.conversations then a == Failure(500, "Server error")
      else if ActiveEntry(db.conversations[conv.value].participants, user) == -1 then
        a == Failure(403, "Not authorized to access this conversation")
      else
        var m := old(db.messages)[k];
        var r := m.(reactions := Toggle(m.reactions, user, reaction, now));
        a == Success(200, r) && db.messages == old(db.messages)[k := r]
  {
    if reaction == "" {
      return Failure(400, "Reaction is required");
    }
    if conv.None? || msg.None? {
      return Failure(400, "Invalid ID");
    }
    var k := PortalMessageIndex(db.messages, msg.value);
    if k == -1 {
      return Failure(404, "Message not found");
    }
    var m := db.messages[k];
    if m.conversation != conv.value {
      return Failure(400, "Message not found in this conversation");
    }
    if conv.value !in db.conversations {
      return Failure(500, "Server error");
    }
    if ActiveEntry(db.conversations[conv.value].participants, user) == -1 {
      return Failure(403, "Not authorized to access this conversation");
    }
    var r := m.(reactions := Toggle(m.reactions, user, reaction, now));
    db.SaveMessage(k, r);
    a := Success(200, r);
  }

  // ---------------------------------------------------------------------
  // History

  /** `.sort({createdAt: -1}).skip(skip).limit(limit)` followed by `.reverse()`. */
  function HistoryWindow(of: seq<PortalMessage>, skip: nat, limit: int): seq<PortalMessage>
  {
    Reverse(Slice(Reverse(of), skip, limit))
  }

  /** The page is the run of the conversation's messages that ends `skip` messages before the
      newest one, oldest first, and it holds `limit` of them when that many are there. */
  lemma HistoryWindowShape(of: seq<PortalMessage>, skip: nat, limit: int)
    ensures var r := HistoryWindow(of, skip, limit);
      && (skip <= |of| ==> |r| <= |of| - skip && r == of[|of| - skip - |r|..|of| - skip])
      && (skip >= |of| ==> r == [])
      && (limit != 0 ==> |r| <= LimitOf(limit))
      && (limit != 0 && skip + LimitOf(limit) <= |of| ==> |r| == LimitOf(limit))
  {
    var rv := Reverse(of);
    var sl := Slice(rv, skip, limit);
    var r := Reverse(sl);
    if skip <= |of| {
      var n := |sl|;
      forall i | 0 <= i < n
        ensures r[i] == of[|of| - skip - n + i]
      {
        assert r[i] == sl[n - 1 - i] == rv[skip + n - 1 - i];
      }
    }
  }

  /** The caller as a reader of one returned message: added only when not already there. */
  function StampOne(m: PortalMessage, u: Id): (r: PortalMessage)
    ensures u in r.readBy
    ensures u in m.readBy ==> r == m
    ensures u !in m.readBy ==> r == m.(readBy := m.readBy + [u])
  {
    if u in m.readBy then m else m.(readBy := m.readBy + [u])
  }

  function IdsOf(page: seq<PortalMessage>): set<Id>
  {
    set m | m in page :: m.id
  }

  /** The store after the page is marked read by `u`. */
  function StampPage(ms: seq<PortalMessage>, ids: set<Id>, u: Id): (r: seq<PortalMessage>)
    ensures |r| == |ms|
    ensures forall i :: 0 <= i < |ms| ==> r[i].id == ms[i].id
    ensures forall i :: 0 <= i < |ms| ==> r[i] == if ms[i].id in ids then StampOne(ms[i], u) else ms[i]
  {
    seq(|ms|, i requires 0 <= i < |ms| => if ms[i].id in ids then StampOne(ms[i], u) else ms[i])
  }

  predicate NoRepeats(s: seq<Id>)
  {
    forall i, j :: 0 <= i < j < |s| ==> s[i] != s[j]
  }

  /** Read marking never lists a reader twice. */
  lemma StampOneNoRepeats(m: PortalMessage, u: Id)
    requires NoRepeats(m.readBy)
    ensures NoRepeats(StampOne(m, u).readBy)
  {
  }

  datatype HistoryPage = HistoryPage(messages: seq<PortalMessage>, page: int, limit: int, totalMessages: nat, totalPages: Option<int>)

  /** `GET /:conversationId/messages` with `page = 1` and `limit = 20`. */
  method History(db: PortalDb, conv: Option<Id>, user: Id, pageParam: Option<int>, limitParam: Option<int>) returns (a: Answer<HistoryPage>)
    requires db.Valid()
    modifies db`messages
    ensures db.Valid()
    ensures a.Failure? ==> db.messages == old(db.messages)
    ensures conv.None? ==> a == Failure(400, "Invalid conversation ID")
    ensures conv.Some? && conv.value !in db.conversations ==> a == Failure(404, "Conversation not found")
    ensures conv.Some? && conv.value in db.conversations ==>
      var page, limit := OrDefault(pageParam, 1), OrDefault(limitParam, 20);
      if ActiveEntry(db.conversations[conv.value].participants, user) == -1 then
        a == Failure(403, "Not authorized to access this conversation")
      else if PageStart(page, limit) < 0 then a == Failure(500, "Server error")
      else
        var of := OfConversation(old(db.messages), conv.value);
        var shown := HistoryWindow(of, PageStart(page, limit), limit);
        && db.messages == StampPage(old(db.messages), IdsOf(shown), user)
        && a.Success? && a.status == 200
        && a.value == HistoryPage(a.value.messages, page, limit, |of|, PageCount(|of|, limit))
        && |a.value.messages| == |shown|
        && (forall i :: 0 <= i < |shown| ==> a.value.messages[i] == StampOne(shown[i], user))
  {
    if conv.None? {
      return Failure(400, "Invalid conversation ID");
    }
    if conv.value !in db.conversations {
      return Failure(404, "Conversation not found");
    }
    if ActiveEntry(db.conversations[conv.value].participants, user) == -1 {
      return Failure(403, "Not authorized to access this conversation");
    }
    var page, limit := OrDefault(pageParam, 1), OrDefault(limitParam, 20);
    var skip := PageStart(page, limit);
    if skip < 0 {
      return Failure(500, "Server error");
    }
    var of := OfConversation(db.messages, conv.value);
    var shown := HistoryWindow(of, skip, limit);
    var stamped := StampPage(db.messages, IdsOf(shown), user);
    db.SaveMessages(stamped);
    var returned := seq(|shown|, i requires 0 <= i < |shown| => StampOne(shown[i], user));
    a := Success(200, HistoryPage(returned, page, limit, |of|, PageCount(|of|, limit)));
  }
}
