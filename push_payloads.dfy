/** The push-notification payload builders of the messaging server
    (packages/server/services/pushNotifications.js): the title, body and string data
    sent for a new message and for a member joining or leaving a group. */
module PushPayloads {
  import opened Common
  import opened MessageModel
  import opened NotificationModel
  import opened ServerStore

  /** A payload object: `title` and `body` are absent when the builder had none; `data`
      maps each key to its string value. */
  datatype Payload = Payload(title: Option<string>, body: Option<string>, data: map<string, string>)

  /** `createMessageNotification(sender, message)` */
  function MessagePush(sender: UserDoc, m: MessageDoc): (p: Payload)
    ensures p.title == Some("New message from " + sender.firstName + " " + sender.lastName)
    ensures p.body == Some(m.content)
  {
    Payload(Some("New message from " + sender.firstName + " " + sender.lastName), Some(m.content),
      map["type" := "message", "messageId" := IdText(m.id), "groupId" := IdText(m.group),
          "senderId" := IdText(sender.id)])
  }

  /** `createGroupNotification(type, group, user)`: the title and body come from a table
      keyed by the type; a type the table lacks contributes nothing. */
  function GroupPush(kind: string, groupId: Id, groupName: string, user: UserDoc): (p: Payload)
    ensures kind != "group_join" && kind != "group_leave" <==> p.title.None? && p.body.None?
  {
    var who := user.firstName + " " + user.lastName;
    var data := map["type" := kind, "groupId" := IdText(groupId), "userId" := IdText(user.id)];
    if kind == "group_join" then Payload(Some("New Group Member"), Some(who + " joined " + groupName), data)
    else if kind == "group_leave" then Payload(Some("Member Left Group"), Some(who + " left " + groupName), data)
    else Payload(None, None, data)
  }

  // ---------------------------------------------------------------------
  // Properties

  /** The data of a message push carries the type 'message' and the three ids as decimal
      text from which the ids are read back. */
  lemma MessagePushData(sender: UserDoc, m: MessageDoc)
    ensures var p := MessagePush(sender, m);
      && p.data.Keys == {"type", "messageId", "groupId", "senderId"}
      && p.data["type"] == "message"
      && DigitsValue(p.data["messageId"]) == m.id
      && DigitsValue(p.data["groupId"]) == m.group
      && DigitsValue(p.data["senderId"]) == sender.id
  {
    IdTextRoundTrip(m.id);
    IdTextRoundTrip(m.group);
    IdTextRoundTrip(sender.id);
  }

  /** Unlike the stored message notification, the push body is the whole content: for a
      content longer than the preview length plus the three dots the two differ (a content of
      exactly that length ending in "..." coincides with its own preview). */
  lemma MessagePushUntruncated(sender: UserDoc, m: MessageDoc)
    ensures |MessagePush(sender, m).body.value| == |m.content|
    ensures |m.content| > PreviewLength + 3 ==> MessagePush(sender, m).body.value != Preview(m.content)
  {
  }

  /** Every group push carries its type, group id and user id, whatever the type. */
  lemma GroupPushData(kind: string, groupId: Id, groupName: string, user: UserDoc)
    ensures var p := GroupPush(kind, groupId, groupName, user);
      && p.data.Keys == {"type", "groupId", "userId"}
      && p.data["type"] == kind
      && DigitsValue(p.data["groupId"]) == groupId
      && DigitsValue(p.data["userId"]) == user.id
  {
    IdTextRoundTrip(groupId);
    IdTextRoundTrip(user.id);
  }

  /** The join and leave payloads: fixed titles and "<first> <last> joined|left <group>". */
  lemma GroupPushTexts(groupId: Id, groupName: string, user: UserDoc)
    ensures GroupPush("group_join", groupId, groupName, user).title == Some("New Group Member")
    ensures GroupPush("group_join", groupId, groupName, user).body == Some(user.firstName + " " + user.lastName + " joined " + groupName)
    ensures GroupPush("group_leave", groupId, groupName, user).title == Some("Member Left Group")
    ensures GroupPush("group_leave", groupId, groupName, user).body == Some(user.firstName + " " + user.lastName + " left " + groupName)
  {
  }
}
