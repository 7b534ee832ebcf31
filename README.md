# Academy portal core in Dafny

This project models the rules underneath the academy portal: a chat and administration system for a sports academy, built from an Express/Mongoose server, a Socket.IO real-time layer, and web and mobile React clients. The document store is replaced by in-memory values and classes, the clock by a `now` parameter, and timers and sockets by explicit events. Every operation is proved against a specification.

The model covers five parts.

- **Server domain objects** (`group.dfy`, `message.dfy`, `notification.dfy`). The Group, Message and Notification documents are loaded into classes whose methods update them in place:
  - member add/remove/role update;
  - read receipts, edits with history, soft delete;
  - the notification read flag;
  - the unread-count predicates and the notification builders.
- **Real-time coordinator** (`socket.dfy`, over the shared store in `server_store.dfy`). One class holds the connection table, rooms, groups, messages and notifications, with one method per socket event, applied one at a time:
  - admission and initial room joins;
  - send, with its fan-out of notifications;
  - typing relay, read receipts, join and leave;
  - disconnect.
- **HTTP route rules.** Each handler is a guard sequence followed by a state update, with the HTTP status and message of every refusal.
  - Server package routes: `message_routes.dfy`, `group_routes.dfy`, `notification_routes.dfy`, `group_api.dfy`, `server_auth.dfy`, `push_payloads.dfy`.
  - Portal routes, over their own store (`portal_store.dfy`): `portal_messages.dfy`, `portal_conversations.dfy`, `portal_auth.dfy`, `portal_admin.dfy`, `portal_profile.dfy`.
  - The two authentication controllers: `auth_controller.dfy`, `root_auth_controller.dfy`.
  - The middleware: `rate_limiter.dfy`, `role_gate.dfy`.
- **Small stateful client services.**
  - The message retry queue (`message_queue.dfy`).
  - The WebSocket event-handler registry (`websocket.dfy`).
  - The typing-indicator state machines of the message inputs (`typing_input.dfy`, `composer.dfy`, `upload_input.dfy`).
- **Client state reducers and pure helpers.**
  - The home page and chat panel reducers: `home_page.dfy`, `chat_panel.dfy`.
  - The typing text: `chat_window.dfy`.
  - Message list grouping, style and paging: `message_list_view.dfy`.
  - Conversation filtering and previews: `conversation_filter.dfy`.
  - The reset-password and login/register form validation and password strength: `reset_form.dfy`, `auth_forms.dfy`.

`common.dfy` holds the shared vocabulary:
- the `Answer` (HTTP status plus value or message) and `Option` types;
- string helpers (trim, lower case, split on spaces);
- the schema casts shared by several documents: a trimmed required string, a lower-cased and trimmed email address;
- page arithmetic;
- decimal rendering of ids.

Server ids are natural numbers. Client-side ids, such as temporary message ids, are strings. Sorting by `createdAt` is modelled as store order, because documents are created in that order.

The web and mobile copies of `Chat.jsx` and `MessageInput.jsx` have identical handlers. Each is modelled once: rows for the web copy name the operations, and rows for the mobile copy name the lemmas that state the same handlers' properties.

## Model

| member | source | states |
|---|---|---|
| GroupModel.WithMember | packages/server/models/Group.js:69-76 | after adding, the user is listed and the list grew by at most one entry |
| GroupModel.Without | packages/server/models/Group.js:82-84 | exactly the entries of other users remain and the removed user is no longer listed |
| GroupModel.FindIndex | packages/server/models/Group.js:90-92 | the index of the first entry for the user, or -1 exactly when the user has none |
| GroupModel.Group.Load | packages/server/models/Group.js:1-63 | a loaded group gives back the stored document unchanged |
| GroupModel.Group.AddMember | packages/server/models/Group.js:69-77 | a listed user leaves the members unchanged; otherwise one entry with the given role and time is appended; afterwards the user is a member and nothing else in the document changed |
| GroupModel.Group.RemoveMember | packages/server/models/Group.js:81-86 | the members become the filtered list, the user is no longer a member, nothing else changes |
| GroupModel.Group.UpdateMemberRole | packages/server/models/Group.js:89-100 | reports an update exactly when the user is listed; then only the first entry for the user takes the new role, otherwise nothing changes |
| GroupModel.AddMemberIdempotent | packages/server/models/Group.js:70 | adding a member twice gives the same list as adding once |
| GroupModel.AddMemberKeepsOthers | packages/server/models/Group.js:69-105 | after adding `u` exactly the earlier users and `u` are members, and the earlier entries are the prefix of the new list |
| GroupModel.AddPlainMemberGrantsNoRights | packages/server/models/Group.js:69-118 | adding someone with the default role 'member' changes no user's admin-or-owner standing |
| GroupModel.WithoutConcat | packages/server/models/Group.js:82-84 | removal distributes over concatenation, so the kept entries stay in their original order |
| GroupModel.WithoutNonMember | packages/server/models/Group.js:82-84 | removing a user with no entry leaves the list unchanged |
| GroupModel.WithoutKeepsOthers | packages/server/models/Group.js:82-105 | removing one user leaves every other user's membership as it was |
| GroupModel.RemovedNonOwnerHasNoRights | packages/server/models/Group.js:81-118 | after removal a user who is not the owner fails the admin-or-owner test |
| GroupModel.PlainMemberIsNotAdmin | packages/server/models/Group.js:108-118 | a non-owner whose entries are all role 'member' is not admin-or-owner |
| GroupModel.OwnerIsAdminOrOwner | packages/server/models/Group.js:109-111 | the owner passes the admin-or-owner test with or without a member entry |
| MessageModel.WithReader | packages/server/models/Message.js:77-81 | after marking, the user is among the readers |
| MessageModel.UnreadCount | packages/server/models/Message.js:109-116 | the count is at most the number of messages, and zero exactly when no message of the group is unread for the user (not sent by them, not read by them, not deleted) |
| MessageModel.Message.Load | packages/server/models/Message.js:1-70 | a loaded message gives back the stored document unchanged |
| MessageModel.Message.MarkAsRead | packages/server/models/Message.js:76-85 | a reader already listed leaves `readBy` unchanged; otherwise one receipt with the time is appended; nothing else in the document changes |
| Common.TrimmedRequired | packages/server/models/Message.js:15-19 | a string path declared `trim` and `required` (the message content, the group name) refuses exactly the blank strings (made only of characters in JavaScript's `trim` white-space set, the empty one included); otherwise it stores the trimmed string, which is non-empty |
| MessageModel.Message.EditContent | packages/server/models/Message.js:88-99 | the previous content is pushed onto the edit history with the time, the content is replaced by its trimmed form and marked edited; sender, group and readers are unchanged |
| MessageModel.Message.SoftDelete | packages/server/models/Message.js:103-106 | only the deleted flag changes, to true, so a second call changes nothing |
| MessageModel.MarkAsReadIdempotent | packages/server/models/Message.js:77 | marking read twice gives the same reader list as marking once |
| MessageModel.MarkAsReadAppendOnly | packages/server/models/Message.js:76-85 | the reader list grows by at most one, keeps its old entries as a prefix, and every earlier reader stays a reader |
| MessageModel.MarkAsReadOtherReaders | packages/server/models/Message.js:76-85 | marking for one user changes no other user's read state |
| MessageModel.MarkedNotUnread | packages/server/models/Message.js:76-116 | a message the user has just marked read is not unread for them in any group |
| MessageModel.UnreadCountAfterMark | packages/server/models/Message.js:76-116 | marking one message read lowers the user's unread count by one when that message was unread, and leaves it otherwise |
| MessageModel.UnreadCountReplace | packages/server/models/Message.js:109-116 | replacing a message by one that is unread only if the original was never raises the count, and lowers it by exactly one when an unread message stops being unread |
| MessageModel.UnreadCountAppend | packages/server/models/Message.js:109-116 | a new message adds one to the count exactly when it is unread for the user |
| NotificationModel.Preview | packages/server/models/Notification.js:104 | content of at most 50 characters is kept as is; longer content becomes its first 50 characters followed by "..." |
| NotificationModel.SystemNotification | packages/server/models/Notification.js:84-95 | type 'system', unread, for the recipient, with priority 'normal' unless one is given, and the given link and expiry |
| NotificationModel.MessageNotification | packages/server/models/Notification.js:98-113 | type 'message', title 'New Message', the given recipient, sender, group and message, the shortened content, link `/groups/<g>?message=<m>` and both ids as text in the metadata |
| NotificationModel.GroupInvitationNotification | packages/server/models/Notification.js:116-131 | type 'group_invitation', title 'Group Invitation', priority 'high', the invitation text naming the group and link `/groups/<g>` |
| NotificationModel.UnreadNotifications | packages/server/models/Notification.js:134-139 | the count is zero exactly when none of the notifications is the user's and unread |
| NotificationModel.Notification.Load | packages/server/models/Notification.js:1-70 | a loaded notification gives back the stored document |
| NotificationModel.Notification.MarkAsRead | packages/server/models/Notification.js:77-81 | the notification is read with the given read time, nothing else changes |
| NotificationModel.MessageLinkInjective | packages/server/models/Notification.js:107 | different (group, message) pairs never share a link |
| NotificationModel.MarkReadAgain | packages/server/models/Notification.js:77-81 | marking read again keeps it read (only the read time moves); nothing sets it back to unread |
| NotificationModel.UnreadNotificationsAfterMark | packages/server/models/Notification.js:77-81 | marking one of the user's unread notifications read lowers their count by exactly one; marking any other changes nothing |
| NotificationModel.UnreadNotificationsAppend | packages/server/models/Notification.js:134-139 | a new notification adds one exactly when it is unread and addressed to the user |
| PushPayloads.MessagePush | packages/server/services/pushNotifications.js:70-81 | the title is "New message from <first> <last>" and the body is the full message content |
| PushPayloads.GroupPush | packages/server/services/pushNotifications.js:83-103 | a kind other than 'group_join' and 'group_leave' gives a payload with no title and no body |
| PushPayloads.MessagePushData | packages/server/services/pushNotifications.js:74-79 | the data carries exactly type 'message' and the message, group and sender ids as decimal text that reads back to those ids |
| PushPayloads.MessagePushUntruncated | packages/server/services/pushNotifications.js:73 | the push body is never shortened, unlike the stored notification's 50-character preview |
| PushPayloads.GroupPushData | packages/server/services/pushNotifications.js:97-101 | the data carries exactly the kind and the group and user ids as text that reads back to those ids |
| PushPayloads.GroupPushTexts | packages/server/services/pushNotifications.js:84-93 | join and leave payloads have the titles 'New Group Member' / 'Member Left Group' and bodies "<first> <last> joined/left <group>" |
| Coordinator.InitialRooms | packages/server/socket.js:41-83 | a connection's rooms are its own user room and the room of every group it owns or is listed in, and no other user's room |
| Coordinator.FoundMembers | packages/server/socket.js:140-145 | the users looked up are exactly the existing users listed in the group other than the sender |
| Coordinator.NotifyTargets | packages/server/socket.js:148-151 | the users notified are among those looked up and never include the sender |
| Coordinator.MembershipNotification | packages/server/socket.js:293-305 | the owner gets a 'group_join' / 'group_leave' notification from the user, reading "<first> <last> joined/left <group>", linking to `/groups/<g>` |
| Coordinator.CreateNotifications | packages/server/socket.js:148-164 | one message notification is created for each wanted member, with fresh ids, and each is pushed to that member's user room |
| Coordinator.Coordinator.Connect | packages/server/socket.js:10-96 | no token or an unverifiable one is refused with 'Authentication error', an unknown user with 'User not found'; an admitted connection joins its initial rooms and is told the groups, their count and its unread notification count |
| Coordinator.Coordinator.SendMessage | packages/server/socket.js:104-164 | a missing group or a non-member gets an error and nothing is stored; a blank content fails the schema and the sender gets 'Failed to send message' with nothing stored or notified; otherwise one message is stored with the trimmed content and readers exactly [sender], sent as 'message:received' to the group room except the sender and as 'message:sent' to the sender, and the members are notified as `NotifyTargets` says |
| Coordinator.Coordinator.Post | packages/server/socket.js:118-164 | one message with a fresh id, the stored content and readers exactly [sender] is appended; it is echoed to the room except the sender and to the sender, and the members are notified with the content as sent |
| Coordinator.Coordinator.NotifyMembers | packages/server/socket.js:140-164 | appends exactly one message notification per notify target and pushes each to its recipient's room; earlier notifications are kept |
| Coordinator.Coordinator.TypingStart | packages/server/socket.js:173-183 | relays 'typing:started' with the user's card and group to the group room except the sender; no state changes |
| Coordinator.Coordinator.TypingStop | packages/server/socket.js:186-196 | relays 'typing:stopped' likewise; no state changes |
| Coordinator.Coordinator.MessageRead | packages/server/socket.js:199-226 | a missing message gives 'Message not found'; otherwise the reader is added (idempotently) and the sender's user room gets the read receipt |
| Coordinator.Coordinator.NotificationRead | packages/server/socket.js:229-254 | a missing notification or one addressed to someone else gives an error and changes nothing; otherwise it is marked read and the caller gets their new unread count |
| Coordinator.Coordinator.JoinGroup | packages/server/socket.js:257-319 | a missing group gives an error; a member only joins the room and is acknowledged; a non-member is appended with role 'member', joins, is acknowledged, and the owner gets one 'group_join' notification |
| Coordinator.Coordinator.LeaveGroup | packages/server/socket.js:322-387 | refuses a missing group, a non-member and the owner, in that order, changing nothing; otherwise removes the membership, leaves the room, acknowledges with 'group:left', tells the room, and notifies the owner with 'group_leave' |
| Coordinator.Coordinator.Disconnect | packages/server/socket.js:62-64 | only the connection is dropped; no membership, message or event changes |
| Coordinator.FanOutExactlyOnce | packages/server/socket.js:148-164 | each notify target gets exactly one notification and no recipient gets two |
| Coordinator.NotifyTargetsExclude | packages/server/socket.js:140-151 | a user is notified exactly when they exist, are listed in the group, are not the sender, and have not turned email notifications off |
| Coordinator.DistinctRecipientsCount | packages/server/socket.js:148-164 | notifications with distinct recipients are as many as their recipients |
| Coordinator.AddStep | packages/server/socket.js:151-161 | creating a notification for a member who wants them extends the fan-out to that member |
| Coordinator.SkipStep | packages/server/socket.js:151 | a member with email notifications off is covered by the fan-out without a notification |
| Coordinator.PushedStep | packages/server/socket.js:161 | each created notification is pushed to its recipient's user room |
| MessageRoutes.Matching | packages/server/routes/messages.js:26-33 | exactly the messages of the group created before `before` (when given), in store order |
| MessageRoutes.NewestFirstReversed | packages/server/routes/messages.js:34-51 | the page is a suffix of the matches (the newest ones, oldest first), of at most `limit` messages, and shorter than the matches only when the limit cut it |
| MessageRoutes.StampRead | packages/server/routes/messages.js:42-48 | every returned message now has the caller as a reader; one they had already read and every message not returned is unchanged |
| MessageRoutes.MarkAllRead | packages/server/routes/messages.js:274-289 | only messages unread for the caller in the group change; ids and order are kept |
| MessageRoutes.History | packages/server/routes/messages.js:10-56 | a missing group is 404, a non-member 403, both changing nothing; otherwise the page is returned and the caller is added as a reader of its messages only |
| MessageRoutes.Send | packages/server/routes/messages.js:61-109 | 404 and 403 change nothing; a blank content fails the schema with 500 and stores nothing; otherwise 201 with a new message of fresh id, trimmed content and readers exactly [sender], appended to the store |
| MessageRoutes.Edit | packages/server/routes/messages.js:114-157 | a missing message is 404, a non-sender 403; a blank new content fails the save with 500 and the store is unchanged; otherwise the old content goes onto the history and the trimmed new content replaces it |
| MessageRoutes.Delete | packages/server/routes/messages.js:162-204 | 404 for a missing message; 403 unless the caller is the sender or an admin or owner of its group; otherwise only the deleted flag is set |
| MessageRoutes.UnreadCounts | packages/server/routes/messages.js:209-248 | one count per group the caller owns or is listed in, each equal to `UnreadCount` for that group |
| MessageRoutes.MarkGroupRead | packages/server/routes/messages.js:253-303 | 404 and 403 change nothing; otherwise every message unread for the caller in the group gets their receipt |
| MessageRoutes.HistoryPageShape | packages/server/routes/messages.js:13-35 | the page holds only matching messages, at most 50 by default or `limit` when given, and all matches for a limit of 0 |
| MessageRoutes.StampReadKeepsReadersUnique | packages/server/routes/messages.js:45 | the `$ne` guard gives nobody a second receipt |
| MessageRoutes.MarkAllReadClears | packages/server/routes/messages.js:274-289 | afterwards the caller's unread count for the group is 0 and their counts for other groups are unchanged |
| MessageRoutes.MarkAllReadOtherGroup | packages/server/routes/messages.js:276 | marking one group read leaves the unread count of every other group unchanged |
| GroupRoutes.WithoutKeys | packages/server/routes/groups.js:46-52 | exactly the query entries whose key is not removed remain |
| GroupRoutes.DropControlFields | packages/server/routes/groups.js:46-52 | the loop deleting `select`, `sort`, `page` and `limit` one at a time gives the query without those keys |
| GroupRoutes.WithoutKeysStep | packages/server/routes/groups.js:52 | deleting one more key is filtering by one more key |
| GroupRoutes.WithoutNoKeys | packages/server/routes/groups.js:46 | the copy of the query with nothing deleted is the query itself |
| GroupRoutes.StripDollar | packages/server/routes/groups.js:58 | the text with every `$` taken out holds no `$` |
| GroupRoutes.WordRun | packages/server/routes/groups.js:58 | the length of the leading run of `\b` word characters: all of them are word characters and the next one is not |
| GroupRoutes.Window | packages/server/routes/groups.js:84 | `skip(start).limit(n)`: a slice of the matches starting at `start`, of at most `n`, full whenever enough matches remain, empty past the end |
| GroupRoutes.ListPage | packages/server/routes/groups.js:78-114 | page and limit default to 1 and 10; a negative start index is a server error; otherwise `count` is the page length, `next` is present iff `page*limit < total`, `prev` iff the start index is positive, and the data is the window at the start index |
| GroupRoutes.ApplyUpdate | packages/server/routes/groups.js:183-191 | name, description, type and image change only when given and non-empty; `isPublic` whenever given, even false; `tags` whenever given; owner and members never |
| GroupRoutes.NewGroup | packages/server/routes/groups.js:14-22 | the caller is the owner and the only member, with role 'admin'; `isPublic` is false unless given true |
| GroupRoutes.Create | packages/server/routes/groups.js:10-36 | a name blank once trimmed or a type outside the enumeration is a 500 storing nothing; otherwise 201 with the new group under a fresh id and the trimmed name, stored, non-blank, with a schema type and schema roles |
| GroupRoutes.List | packages/server/routes/groups.js:41-123 | the filter handed to the database is the rewritten query text, and the answer is `ListPage` of the matches |
| GroupRoutes.Read | packages/server/routes/groups.js:128-159 | 404 exactly when the group is missing, otherwise the group |
| GroupRoutes.CastUpdate | packages/server/routes/groups.js:193-197 | the update as cast by the schema: a provided non-empty name is replaced by its trimmed form and every other field is kept |
| GroupRoutes.Update | packages/server/routes/groups.js:164-211 | 404 for a missing group, 403 unless admin, moderator or owner; a set name blank once trimmed or a type outside the enumeration is a 500 changing nothing; otherwise the group becomes `ApplyUpdate` of the cast update and keeps a schema type |
| GroupRoutes.Delete | packages/server/routes/groups.js:216-249 | 404 for a missing group, 403 for anyone but the owner; otherwise the group is removed |
| GroupRoutes.Join | packages/server/routes/groups.js:254-288 | 404 for a missing group, 400 for a listed member; otherwise one 'member' entry is appended |
| GroupRoutes.Leave | packages/server/routes/groups.js:293-335 | 404, then 400 for a non-member, then 400 for the owner; otherwise every entry of the caller is removed |
| GroupRoutes.AddMember | packages/server/routes/groups.js:340-385 | 404 for a missing group, 403 unless admin or owner, 404 for an unknown user; a new entry whose role is outside the enumeration (the default is 'member') is a 500 changing nothing; otherwise `addMember` with the role, and schema-valid roles stay valid |
| GroupRoutes.RemoveMember | packages/server/routes/groups.js:390-432 | 404, 403 unless admin or owner, 400 when the target is the owner; otherwise every entry of the target is removed |
| GroupRoutes.UpdateRole | packages/server/routes/groups.js:437-480 | 404, 403 for anyone but the owner, 404 when the target has no entry; a role outside the enumeration is a 500 changing nothing; otherwise only the target's first entry takes the role, and schema-valid roles stay valid |
| GroupRoutes.Mine | packages/server/routes/groups.js:485-508 | exactly the groups the caller owns or is listed in |
| GroupRoutes.CreatorIsAdminMember | packages/server/routes/groups.js:14-22 | the creator is listed, holds an admin entry and passes the admin-or-owner test |
| GroupRoutes.RewriteOnlyInsertsDollars | packages/server/routes/groups.js:58 | the operator rewrite only inserts `$` signs |
| GroupRoutes.RewriteLength | packages/server/routes/groups.js:58 | the rewrite adds exactly one character per whole-word `gt`, `gte`, `lt`, `lte` or `in` |
| GroupRoutes.RewriteWithoutOperators | packages/server/routes/groups.js:58 | text with no such whole word passes through unchanged |
| GroupRoutes.StripDollarConcat | packages/server/routes/groups.js:58 | taking out `$` distributes over concatenation |
| GroupRoutes.StripDollarNone | packages/server/routes/groups.js:58 | text without `$` is unchanged by taking them out |
| GroupRoutes.PageOfItem | packages/server/routes/groups.js:80-84 | with a positive limit the pages tile the matches: item `r` of page `p` is match `(p-1)*limit + r` |
| GroupRoutes.NextPrevMeaning | packages/server/routes/groups.js:95-107 | with a positive limit and page, `next` is present exactly when matches remain after the page, and `prev` exactly when the page is after the first |
| NotificationRoutes.NewestMatching | packages/server/routes/notifications.js:14-25 | exactly the caller's notifications, filtered by read state only when `read` is 'true' or 'false' |
| NotificationRoutes.List | packages/server/routes/notifications.js:9-69 | page and limit default to 1 and 20; a negative skip is a server error; otherwise the data are the page of the caller's matching notifications, newest first, starting after `(page - 1) * limit` of them and at most `limit` long, `count` is their number, `unreadCount` is the caller's unread count, and the pagination holds total, page, limit and `ceil(total/limit)` |
| NotificationRoutes.ReadAll | packages/server/routes/notifications.js:116-119 | exactly the caller's unread notifications become read at `now`; all others are unchanged |
| NotificationRoutes.DeleteRead | packages/server/routes/notifications.js:182-185 | exactly the caller's read notifications are removed |
| NotificationRoutes.ReadCount | packages/server/routes/notifications.js:189 | the deleted count is at most the number of notifications |
| NotificationRoutes.MarkRead | packages/server/routes/notifications.js:74-108 | 404 for a missing notification, 403 for one addressed to someone else, both changing nothing; otherwise it is marked read and returned |
| NotificationRoutes.MarkAllRead | packages/server/routes/notifications.js:113-134 | the answer reports how many were unread, and the store becomes `ReadAll` |
| NotificationRoutes.Delete | packages/server/routes/notifications.js:139-174 | 404 and 403 as for marking; otherwise exactly that notification is removed |
| NotificationRoutes.DeleteSegment | packages/server/routes/notifications.js:139-174 | a segment that is not an id is a 500 changing nothing; an id segment behaves as deleting that id: 404, 403, or exactly that notification removed |
| NotificationRoutes.DeleteReadRequest | packages/server/routes/notifications.js:139-179 | `DELETE /read` reaches the delete-one handler registered before it, answers 500 and deletes nothing |
| NotificationRoutes.DeleteAllRead | packages/server/routes/notifications.js:179-200 | the handler as written, once reachable: the answer reports how many were read, and the store becomes `DeleteRead` |
| NotificationRoutes.ReadAllClears | packages/server/routes/notifications.js:116-119 | afterwards the caller has no unread notification and every other user's count is unchanged |
| NotificationRoutes.ReadAllOthers | packages/server/routes/notifications.js:117 | read-all leaves every other user's unread count unchanged |
| NotificationRoutes.DeleteReadKeepsUnread | packages/server/routes/notifications.js:182-185 | no unread notification is removed, for any user, and the store shrinks by exactly the reported count |
| NotificationRoutes.DeleteReadRouteMissesReadNotifications | packages/server/routes/notifications.js:179-186 | whenever the caller has a read notification, the delete-read handler removes it, so the routed request that removes nothing falls short |
| NotificationRoutes.PageOfNotification | packages/server/routes/notifications.js:27-35 | with a positive limit the pages tile the matches: the match at position `(page - 1) * limit + r`, for `r < limit`, is item `r` of that page |
| NotificationRoutes.UnreadCountIgnoresFilter | packages/server/routes/notifications.js:41-44 | the unread count in the list does not depend on the page, the limit or the read filter |
| NotificationRoutes.FilterFalseCountsUnread | packages/server/routes/notifications.js:18-38 | with `read=false` the total is the caller's unread count |
| GroupApi.ApiMembers | packages/server/routes/api/groups.js:16-19 | the creator first with role 'owner', then every requested id in the given order with role 'member': one more entry than requested |
| GroupApi.GroupName | packages/server/routes/api/groups.js:14 | the given non-empty name, otherwise 'New Group'; never empty |
| GroupApi.ApiGroup | packages/server/routes/api/groups.js:13-20 | the caller owns the group, its name is `GroupName` trimmed by the schema, its members are `ApiMembers` |
| GroupApi.Create | packages/server/routes/api/groups.js:9-33 | a missing member list is a 500 that stores nothing; otherwise the group is stored and returned exactly when the schema accepts its trimmed name and its member roles, else a 500 that stores nothing |
| GroupApi.ApiMembersKeepRepeats | packages/server/routes/api/groups.js:16-19 | repeats are not merged: a creator who also requests themselves is listed at least twice |
| GroupApi.OwnerRoleRefused | packages/server/routes/api/groups.js:17 | as written, the schema's role list (packages/server/models/Group.js:36) refuses every group this route builds |
| GroupApi.IntendedApiMembers | packages/server/routes/api/groups.js:16-19 | the corrected list: the creator as 'admin', then the requested members as before |
| GroupApi.IntendedMembersAccepted | packages/server/routes/api/groups.js:14-22 | with the corrected creator entry the schema accepts the member roles of every request and the creator holds admin rights; the only request still refused is a name given as white space alone, which trims to '' |
| GroupApi.ListedGroupsOfCaller | packages/server/routes/api/groups.js:40-42 | the listing holds exactly the groups listing the caller, a subset of the groups the caller owns or is in; an owned group that does not list its owner is missing |
| GroupApi.CreatedGroupListed | packages/server/routes/api/groups.js:13-42 | a group this route creates appears in its creator's listing |
| ServerAuth.FindByEmail | packages/server/routes/auth.js:16 | finds a stored user exactly when one holds the address after lower-casing and trimming, and the id it returns is such a user's |
| ServerAuth.RoleOrDefault | packages/server/routes/auth.js:31 | a given role is kept as sent |
| ServerAuth.NewUser | packages/server/routes/auth.js:26-32 | the new account stores the lower-cased, trimmed email, the trimmed first and last names, the hashed password, the defaulted role and no reset token |
| ServerAuth.Register | packages/server/routes/auth.js:11-56 | an address some account holds after normalisation is a 400 that stores nothing; a blank trimmed name, a blank or non-matching email, a short password or a role outside the schema is a 500 that stores nothing; otherwise the normalised account is stored under a fresh id and answered 201 with the token and the public user, or 500 when no token is signed |
| ServerAuth.Login | packages/server/routes/auth.js:61-119 | a missing email or password is a 400; an address no account holds after normalisation, or a wrong password, is a 401; success only for a stored user with the normalised address and that password, answered 200 with the token and the public user; correct credentials with no signer are a 500 |
| ServerAuth.RegisterAsWritten | packages/server/routes/auth.js:35 | no registration succeeds; an admissible new one is a 500 that leaves its normalised account stored under the fresh id |
| ServerAuth.LoginAsWritten | packages/server/routes/auth.js:98 | no login succeeds; correct credentials are answered 500 |
| ServerAuth.Issued | packages/server/models/User.js:95-107 | issuing a reset token keeps the user's id, email and password |
| ServerAuth.Cleared | packages/server/routes/auth.js:196-197 | clearing the reset fields keeps the user's id, email and password |
| ServerAuth.ForgotPassword | packages/server/routes/auth.js:156-214 | an address no account holds after normalisation is a 404 that changes nothing; otherwise the account holding the normalised address gets a reset token and a 200 when the email goes out, and has the token cleared again with a 500 when it does not |
| ServerAuth.ResetPassword | packages/server/routes/auth.js:219-262 | a token no user holds unexpired is a 400 that changes nothing; a too-short password is a 500 that changes nothing; otherwise that user's password is replaced and the token cleared, answered 200 with the signed token when signing succeeds and 500 when it does not |
| ServerAuth.ResetPasswordAsWritten | packages/server/routes/auth.js:219-262 | no reset is answered 200; an unaccepted token is still the 400, and an accepted one with a long enough password stores the new password and clears the token before the 500 |
| ServerAuth.SelectFields | packages/server/routes/auth.js:271-276 | a name or phone field is selected exactly when it is sent non-empty, with the value sent; preferences are passed when present |
| ServerAuth.ApplyFields | packages/server/routes/auth.js:278-282 | the update stores the selected names trimmed and the preferences, drops the phone number the schema does not declare, and keeps id, email, password, role, profile image and reset fields |
| ServerAuth.ProfileOf | packages/server/routes/auth.js:291-302 | the answer carries the id, email, names, role, profile image and preferences of the updated user, and never a phone number |
| ServerAuth.UpdateProfile | packages/server/routes/auth.js:267-313 | a sent name that trims to nothing or a theme outside the schema's list is a 500 that changes nothing, even for a missing user; otherwise an unknown user is a 404; otherwise the selected fields are applied and the profile projection of the updated user answered 200 |
| ServerAuth.ChangePassword | packages/server/routes/auth.js:318-345 | a wrong current password is a 401 that changes nothing; a too-short new password is a 500 that changes nothing; otherwise only the password is replaced, answered 200 |
| ServerAuth.IssuedTokenLifetime | packages/server/models/User.js:95-107 | a freshly issued token is accepted exactly for ten minutes after issue, and no other token is accepted for that user |
| ServerAuth.ClearedAcceptsNothing | packages/server/routes/auth.js:241-242 | after the reset fields are cleared no token is accepted |
| ServerAuth.UpdateKeepsCredentials | packages/server/routes/auth.js:271-282 | a profile update never changes email, password, role or the reset token |
| ServerAuth.ProfileHidesCredentials | packages/server/routes/auth.js:291-302 | the profile answer does not depend on the password digest or the reset fields |
| ServerAuth.BlankNameRefused | packages/server/models/User.js:8-17 | a name sent as spaces only is refused by the update validators |
| ServerAuth.RegisteredAddressFound | packages/server/models/User.js:18-28 | a stored account is found by any spelling of its address that differs only in case or surrounding spaces |
| ServerAuth.EmptyBodyChangesNothing | packages/server/routes/auth.js:271-276 | an update with no fields leaves the user as it was |
| ServerAuth.DefaultRoleRefused | packages/server/routes/auth.js:31 | registering without a role always fails: the default 'player' is not among the schema's roles |
| ServerAuth.IntendedRoleOrDefault | packages/server/models/User.js:39-42 | a given role is kept, and a missing one defaults to a role the schema allows |
| ServerAuth.IntendedDefaultAdmitted | packages/server/models/User.js:39-42 | with the intended default, a registration with non-blank trimmed names, a non-blank normalised matching email and a long enough password passes the schema |
| PortalStore.View | routes/admin.js:14 | a user as listed without the password keeps its id, email and both statuses |
| PortalStore.ActiveEntry | routes/message.js:161-163 | the first participant entry of the user that is active, and -1 exactly when there is none |
| PortalStore.EmailIndex | routes/auth.js:40 | the first user whose stored email equals the lower-cased, trimmed address given, and -1 exactly when none does |
| PortalStore.EmailIndexAfterUpdate | routes/auth.js:90 | replacing a user by one with the same email changes no email lookup |
| PortalStore.EmailIndexAppend | routes/auth.js:40 | a user appended with the normalised form of an address no one holds is found by that address, at the end |
| PortalStore.UserIndex | routes/profile.js:48 | a user with that id, and -1 exactly when there is none |
| PortalMessages.Mentions | routes/message.js:55-60 | every mention taken from a message is a run of 24 hexadecimal digits |
| PortalMessages.MentionsOccur | routes/message.js:56-59 | each mention found is preceded by '@' at some position of the content |
| PortalMessages.MentionsOfTagged | routes/message.js:56-59 | content made of '@'-tagged ObjectIds separated by spaces yields exactly those ids, in order |
| PortalMessages.SpaceSkipped | routes/message.js:56-59 | a leading space adds no mention |
| PortalMessages.NoAtNoMentions | routes/message.js:56-59 | content without '@' has no mentions |
| PortalMessages.MediaKind | routes/message.js:269 | a media message is an image exactly when its MIME type starts with 'image/', otherwise a file |
| PortalMessages.AcceptedImages | routes/message.js:28-45 | the uploads that become images are exactly JPEG, PNG and GIF |
| PortalMessages.SendPermission | routes/message.js:160-182 | a non-participant, a muted participant and one the conversation's send permission excludes are each refused with their own 403; otherwise the participant's entry is returned |
| PortalMessages.AdminRoleBypass | routes/message.js:175-178 | a site admin may send exactly when an active, unmuted participant; under 'specific' nobody else may send |
| PortalMessages.TextMessage | routes/message.js:184-195 | a new text message is read by its sender only, has no reactions, is not edited and mentions what its content mentions |
| PortalMessages.MediaMessage | routes/message.js:268-290 | a new media message's kind follows its MIME type and its URL is the upload's file name under /uploads/message-media/ |
| PortalMessages.WithLast | routes/message.js:199-202 | sending points the conversation's last message and time at the new message and keeps its participants |
| PortalMessages.SendText | routes/message.js:136-218 | empty content, a malformed id, a missing conversation or a failed permission check is refused and stores nothing; otherwise the message is stored and becomes the conversation's last |
| PortalMessages.SendMedia | routes/message.js:223-311 | an unsupported type, a file over 10 MB or no file is refused; a stored media message needs a conversation, permission and a message the schema accepts |
| PortalMessages.UncaptionedMediaRefused | models/message.js:16-19 | a media message sent without a caption is always refused by the schema's required content |
| PortalMessages.MediaAcceptedWhenCaptionOptional | models/message.js:16-19 | with content optional for media, every media message passes while text messages still need content |
| PortalMessages.Edit | routes/message.js:316-378 | empty content, malformed ids, an unknown message, one of another conversation, of another sender or not a text message is refused and changes nothing; otherwise only that message's content, mentions and edited flag change |
| PortalMessages.OfConversation | routes/message.js:93 | the messages of one conversation, and only those |
| PortalMessages.Newest | routes/message.js:417-419 | a message of the conversation when there is one, and none exactly when it has no messages |
| PortalMessages.Repaired | routes/message.js:413-427 | a conversation whose last message was not the deleted one is left as it is |
| PortalMessages.Delete | routes/message.js:383-437 | malformed ids, an unknown message, one of another conversation, or a caller neither sender nor admin are refused; otherwise exactly that message is removed and the last-message reference repaired |
| PortalMessages.RepairedPointsAtRemaining | routes/message.js:415-427 | after deleting the last message the reference names a remaining message of the conversation, and is empty exactly when none remains |
| PortalMessages.FindReaction | routes/message.js:483-485 | the first reaction of the user with that emoji, and -1 exactly when there is none |
| PortalMessages.FindUserReaction | routes/message.js:492-494 | the first reaction of the user, and -1 exactly when there is none |
| PortalMessages.RemoveAt | routes/message.js:489 | removing one reaction keeps all others in order |
| PortalMessages.ReactedAfterRemove | routes/message.js:489 | after removing one entry, a reaction remains exactly when another entry records it |
| PortalMessages.RemoveOnlyEntry | routes/message.js:496-498 | with one reaction per user, removing a user's entry leaves none of theirs |
| PortalMessages.PushNewUser | routes/message.js:501-505 | pushing the reaction of a user without one keeps one reaction per user and adds just that reaction |
| PortalMessages.ToggleMeaning | routes/message.js:483-506 | the toggle keeps one reaction per user; the user has the emoji afterwards exactly when they did not before, and no other emoji |
| PortalMessages.ToggleKeepsOthers | routes/message.js:483-506 | other users' reactions are unchanged by a toggle |
| PortalMessages.ToggleTwice | routes/message.js:483-506 | for a user without a reaction, toggling the same emoji twice restores the list |
| PortalMessages.React | routes/message.js:442-523 | an empty reaction, malformed ids, an unknown message, one of another conversation or a non-participant are refused and change nothing; otherwise only that message's reactions are toggled |
| PortalMessages.HistoryWindowShape | routes/message.js:88-96 | the page is a run of consecutive messages ending `skip` from the newest, at most `limit` long (20 by default) and full when enough messages exist |
| PortalMessages.StampOne | routes/message.js:107-115 | the reader is in the read list afterwards; a message already read is unchanged, otherwise the reader is appended |
| PortalMessages.StampPage | routes/message.js:107-116 | exactly the page's messages are marked read, the others untouched |
| PortalMessages.StampOneNoRepeats | routes/message.js:107-113 | marking read never lists a reader twice |
| PortalMessages.History | routes/message.js:65-131 | a malformed id, a missing conversation or a non-participant is refused; otherwise the page (the window of `HistoryWindowShape`, in creation order) is returned with the page count, each message marked read by the caller, and only the page's messages are stored as read |
| PortalAuth.RegisterErrors | routes/auth.js:23-34 | no error exactly when the name is given, the email is well formed, the password has six characters or more and a phone number is given; a missing name is reported first |
| PortalAuth.NewPortalUser | User.js:11-54 | a new account is a parent, inactive and pending approval, with the hashed password and the lower-cased, trimmed email |
| PortalAuth.Register | routes/auth.js:23-71 | a validation error answers the first message; an address some user holds after lower-casing and trimming, or a shirt size outside the schema's list, stores nothing; otherwise the pending user is appended with the normalised email and answered 201 with the pending-approval message |
| PortalAuth.LoginData | routes/auth.js:129-138 | the login answer carries the user's id, email and role |
| PortalAuth.Login | routes/auth.js:76-149 | success only for the first user holding the lower-cased, trimmed address who is approved, active and gave the matching password, answered 200 with the token; every failure is a 400 or a 403 |
| PortalAuth.LoginGuardOrder | routes/auth.js:90-113 | the approval check, then the status check, come before the password: their 403s do not depend on the password given, and a wrong password reads as an unknown email |
| PortalAuth.RegisteredCannotLogin | routes/auth.js:96-101 | a newly registered account cannot log in until it is approved, under any spelling of its address that differs only in case or surrounding spaces |
| PortalAuth.CaseVariantTaken | User.js:11-17 | once an account is stored, every spelling of its address that differs only in case or surrounding spaces, and the stored address itself, is taken |
| PortalAuth.ResetTarget | routes/auth.js:226-229 | the filter on the undeclared token paths finds nobody; with undeclared filter paths stripped it finds the first user, and -1 only for an empty store |
| PortalAuth.Reset | routes/auth.js:238-244 | a reset sets the new hashed password and changes nothing else (the token fields it unsets are not in the schema) |
| PortalAuth.ForgotPassword | routes/auth.js:154-207 | a malformed email is a 400; otherwise the same 200 message whether or not the email is known, and the store is unchanged because the token paths are not in the schema |
| PortalAuth.ResetPassword | routes/auth.js:212-261 | a short password is a 400; when the filter finds nobody, a 400; otherwise the found user's password is reset, answered 200, and nothing else changes |
| PortalAuth.ResetIgnoresToken | routes/auth.js:176-229 | the token sent never selects its user: without stripping every reset is refused; with it the first user is reset whatever the token |
| PortalAuth.TokenLifecycle | routes/auth.js:176-244 | with the token fields stored, as the route evidently intends, an issued token works for exactly one hour, no other token works, and a cleared one never works |
| PortalAuth.ResetThenLogin | routes/auth.js:238-244 | after its password is reset, an approved, active user logs in with the new password and no longer with the old one |
| RoleGate.Check | middleware/role.js:4-15 | the request goes on exactly when the caller's role is listed; otherwise a 403 with the access-denied message |
| RoleGate.CheckMonotone | middleware/role.js:7 | an empty list admits nobody, and adding roles to the list never shuts out a caller it admitted |
| PortalAdmin.WithStatus | routes/admin.js:27 | the users listed are exactly those with that approval status, without passwords |
| PortalAdmin.AllUsers | routes/admin.js:12-20 | a non-admin is refused with a 403; an admin gets every user, in order, without passwords |
| PortalAdmin.PendingUsers | routes/admin.js:25-33 | a non-admin is refused with a 403; an admin gets exactly the pending users |
| PortalAdmin.Approved | routes/admin.js:47-48 | approval sets the user approved and active and changes nothing else |
| PortalAdmin.Rejected | routes/admin.js:78 | rejection sets the user rejected, keeps the account status and changes nothing else |
| PortalAdmin.Approve | routes/admin.js:38-64 | a non-admin is a 403 and an unknown or malformed id a 404, both changing nothing; otherwise exactly that user is approved, and the answer is the whole saved document, password hash included |
| PortalAdmin.Reject | routes/admin.js:69-80 | a non-admin is a 403 and an unknown or malformed id a 404, both changing nothing; otherwise exactly that user is rejected; the 200 answer with the rejected user is assumed, because the handler is cut off after the save at line 80 |
| PortalAdmin.DecisionLeavesPending | routes/admin.js:25-80 | after either decision the user no longer appears among the pending users |
| PortalAdmin.DecisionThenLogin | routes/admin.js:47-48 | an approved user can log in with their password; a rejected one is told the account is pending approval |
| PortalProfile.Profile | routes/profile.js:45-59 | an unknown caller is a 404; otherwise the caller's user without the password |
| PortalProfile.ProfileErrors | routes/profile.js:64-73 | no error exactly when both the name and the phone number are given |
| PortalProfile.WithProfile | routes/profile.js:76-96 | the update sets name, phone number, child's name, address and shirt size and changes nothing else |
| PortalProfile.UpdateProfile | routes/profile.js:64-106 | a validation error answers the first message; an unknown caller is a 404; a shirt size outside the schema is a 500; otherwise only the caller's profile fields are replaced, and the answer is the whole saved document, password hash included |
| PortalProfile.MergeSettings | routes/profile.js:123-127 | each setting takes the value sent, or keeps its old value when none is sent |
| PortalProfile.MergeSettingsLaws | routes/profile.js:123-127 | sending nothing changes nothing, sending the same values twice is the same as once, and sending all three ignores the old settings |
| PortalProfile.UpdateSettings | routes/profile.js:111-138 | an unknown caller is a 404; otherwise only the caller's settings become the merged ones, which are returned |
| PortalProfile.ChangePassword | routes/profile.js:143-183 | a missing current password or a short new one is a 400; an unknown caller a 404; a wrong current password a 400; otherwise only the password is replaced |
| PortalProfile.UploadImage | routes/profile.js:25-40 | a non-image or a file over 5 MB is refused and no file a 400; a stored image's path is the upload's name under the profile-image folder and becomes the caller's profile image, exactly when the caller exists |
| PortalProfile.ChangedPasswordLogsIn | routes/profile.js:165-177 | after the change the user logs in with the new password and not with the old one |
| PortalConversations.Distinct | routes/conversation.js:103 | the ids without repeats: the same members, each once |
| PortalConversations.DistinctAppend | routes/conversation.js:103 | adding the creator adds them once, at the end, unless already present |
| PortalConversations.CreateErrors | routes/conversation.js:93-98 | no error exactly when a name is given, the type is team, topic or direct, and at least one participant is listed |
| PortalConversations.Entries | routes/conversation.js:119-122 | one active, unmuted entry per id, in order, the creator alone an administrator |
| PortalConversations.SystemMessage | routes/conversation.js:128-135 | the system message names its creator, is read by them and belongs to the new conversation |
| PortalConversations.Create | routes/conversation.js:90-150 | a validation error, an ineligible participant or an unknown send setting stores nothing; otherwise the conversation, with the given name, type, description and team, and its system message are stored and the message becomes its last |
| PortalConversations.Open | routes/conversation.js:113-137 | stores the conversation and one system message under fresh ids, read by its creator, and records that message as the conversation's last; users and other conversations are unchanged |
| PortalConversations.CreatedParticipants | routes/conversation.js:103-122 | the participants are the requested ids and the creator, each exactly once, all active and unmuted, with the creator alone as administrator |
| PortalConversations.ListedWithoutActiveEntry | routes/conversation.js:37-40 | a conversation where the caller's own entry is inactive but another is active is listed, yet its messages are refused to the caller |
| PortalConversations.IntendedListingMatchesAccess | routes/conversation.js:37-40 | listing by an active entry of the caller shows exactly the conversations whose messages the caller may reach, all of which the written query also lists |
| PortalConversations.InsertByLast | routes/conversation.js:44 | inserting into a list sorted newest activity first keeps it sorted and adds just that conversation |
| PortalConversations.ListedOutsideStep | routes/conversation.js:37-40 | taking one conversation out of the rest moves it into the listing exactly when the caller is listed in it |
| PortalConversations.List | routes/conversation.js:35-51 | the caller's conversations, each once, sorted by last activity, newest first |
| RateLimiter.Merge | middleware/rateLimiter.js:6-15 | each option given replaces its default of 15 minutes, 100 requests and the standard message |
| RateLimiter.Hit | middleware/rateLimiter.js:26-43 | a new or expired address starts a fresh window with count 1 and passes; otherwise the count goes up by one and the request passes exactly when it stays within the maximum, else a 429 with the configured message |
| RateLimiter.Limiter.Handle | middleware/rateLimiter.js:21-46 | the answer is `Hit` on the address's entry, and only that address's entry changes |
| RateLimiter.Limiter.constructor | middleware/rateLimiter.js:15-18 | the limiter starts with the merged options and no counters |
| RateLimiter.Run | middleware/rateLimiter.js:21-46 | a run of requests admits at most as many as it holds and leaves an entry once any arrived |
| RateLimiter.OpenWindowRun | middleware/rateLimiter.js:34-43 | inside an open window every request counts, and at most the remaining allowance passes |
| RateLimiter.Chain | routes/conversation.js:35 | a middleware chain goes on to the handler exactly when every step calls `next`; otherwise its outcome is that of the first step that does not |
| RateLimiter.LimiterStep | middleware/rateLimiter.js:21-46 | the limiter's middleware calls `next` exactly when the request passes, and answers the 429 otherwise |
| RateLimiter.FactoryMountedStalls | routes/conversation.js:35 | with the factory itself mounted as middleware, every request stalls there: it is neither answered nor passed on, whatever comes before or after |
| RateLimiter.InstanceMountedAnswers | middleware/rateLimiter.js:21-46 | with a limiter instance mounted, a request never stalls at it: it reaches the later steps when within the limit, and is answered otherwise |
| RateLimiter.WindowAdmitsAtMostMax | middleware/rateLimiter.js:21-46 | within one window at most `max` requests pass (exactly one when `max` is not positive), and the first always does |
| MessageQueue.Pending | packages/server/node_modules/@academy-portal/common/services/messageQueue.js:21-27 | a queued message keeps its group, content and attachments, is pending, and its id is the decimal text of its timestamp |
| MessageQueue.Attempt | packages/server/node_modules/@academy-portal/common/services/messageQueue.js:49-55 | a delivered head leaves the queue; an undelivered attempt or an empty queue changes nothing |
| MessageQueue.Drain | packages/server/node_modules/@academy-portal/common/services/messageQueue.js:41-65 | the messages delivered followed by those still waiting make up the queue, and no more are delivered than attempts made |
| MessageQueue.AddedWaitsItsTurn | packages/server/node_modules/@academy-portal/common/services/messageQueue.js:21-31 | a message added is delivered only after every message queued before it, in queue order |
| MessageQueue.Queue.constructor | packages/server/node_modules/@academy-portal/common/services/messageQueue.js:4-8 | the queue starts empty and idle |
| MessageQueue.Queue.SendMessage | packages/server/node_modules/@academy-portal/common/services/messageQueue.js:67-90 | delivery succeeds exactly when the socket service is connected, and then emits one frame with the message's group, content and attachments (empty when absent) |
| MessageQueue.Queue.ProcessQueue | packages/server/node_modules/@academy-portal/common/services/messageQueue.js:41-65 | busy or empty, nothing happens; otherwise the head is tried once, removed exactly when delivered, processing ends, and a retry is due exactly when messages remain |
| MessageQueue.Queue.Add | packages/server/node_modules/@academy-portal/common/services/messageQueue.js:21-31 | the pending entry is appended and, unless the queue is busy, processed at once: the head of the queue is tried, and when connected exactly one frame with its group, content and attachments is sent |
| MessageQueue.Queue.ClearQueue | packages/server/node_modules/@academy-portal/common/services/messageQueue.js:96-99 | the queue becomes empty |
| WebSocketClient.AddHandler | packages/mobile/node_modules/@academy-portal/common/services/websocket.js:95-100 | the handler is registered afterwards, once: a registered handler leaves the set as it was, a new one is added at the end |
| WebSocketClient.RemoveHandler | packages/mobile/node_modules/@academy-portal/common/services/websocket.js:102-106 | the handler is gone afterwards and every other handler stays, in order; an absent handler changes nothing |
| WebSocketClient.RemoveUndoesAdd | packages/mobile/node_modules/@academy-portal/common/services/websocket.js:95-106 | removing a handler just added restores the handlers as they were |
| WebSocketClient.RemoveAbsentAppended | packages/mobile/node_modules/@academy-portal/common/services/websocket.js:102-106 | removing the last-added handler leaves the earlier ones in order |
| WebSocketClient.HandlerLifecycle | packages/mobile/node_modules/@academy-portal/common/services/websocket.js:95-106 | adding a handler twice registers it once, and removing it then leaves it unregistered |
| WebSocketClient.Service.constructor | packages/mobile/node_modules/@academy-portal/common/services/websocket.js:4-8 | no socket, not connected, no handlers |
| WebSocketClient.Service.On | packages/mobile/node_modules/@academy-portal/common/services/websocket.js:95-100 | only the event's handler set changes, by `AddHandler` |
| WebSocketClient.Service.Off | packages/mobile/node_modules/@academy-portal/common/services/websocket.js:102-106 | an event without handlers is left alone; otherwise only its set changes, by `RemoveHandler` |
| WebSocketClient.Service.Emit | packages/mobile/node_modules/@academy-portal/common/services/websocket.js:108-112 | exactly the event's registered handlers are called, each once |
| WebSocketClient.Service.Disconnect | packages/mobile/node_modules/@academy-portal/common/services/websocket.js:26-32 | afterwards there is no socket and the flag is down; an open socket is closed |
| WebSocketClient.Service.Connect | packages/mobile/node_modules/@academy-portal/common/services/websocket.js:10-24 | any previous socket is closed first; the new socket authenticates with the token and is not connected until its connect event |
| WebSocketClient.Service.SocketEvent | packages/mobile/node_modules/@academy-portal/common/services/websocket.js:34-92 | connect raises the flag and emits 'connection:established'; disconnect lowers it and emits 'connection:lost'; each relayed event calls its own handlers; other events call nothing |
| WebSocketClient.Service.SendMessage | packages/mobile/node_modules/@academy-portal/common/services/websocket.js:115-127 | with a socket, one 'message:send' frame with the group, content, attachments (empty by default) and temporary id; without one, nothing is sent |
| Common.NormalEmail | models/user.js:16-22 | the stored and queried form of an address has no upper-case ASCII or Latin-1 letter and no JavaScript white space at either end |
| Common.NormalEmailIdempotent | models/user.js:16-22 | normalising a normalised address changes nothing, so a stored address finds itself |
| AuthController.BearerToken | controllers/authcontroller.js:324-332 | a 'Bearer …' header gives its second space-separated word when there is a non-empty one; any other header falls back to a non-empty cookie; a token is never empty |
| AuthController.BearerRoundTrip | controllers/authcontroller.js:327-329 | a header made of 'Bearer ' and a token without spaces gives back that token; a bare 'Bearer' gives none |
| AuthController.CookieFallback | controllers/authcontroller.js:330-332 | without a Bearer header the cookie token is used, and with no cookie there is none |
| AuthController.AccountIndex | models/user.js:145-148 | a lookup by id finds an active account with that id, and none exactly when no active account has it |
| AuthController.Protect | controllers/authcontroller.js:321-363 | no token is a 401 'not logged in'; a token that does not verify is a 401; access is granted exactly when the token verifies to an active account, which is then the request's user |
| AuthController.RestrictTo | controllers/authcontroller.js:366-378 | the request goes on exactly when the caller's role is listed, as the role gate decides; otherwise a 403 with the no-permission message |
| AuthController.SchemaErrors | models/user.js:5-40 | no error exactly when the trimmed names and email are non-empty, the email matches the pattern, the password has eight characters or more and the role is allowed; a blank last name is reported |
| AuthController.EmailOwner | controllers/authcontroller.js:54 | the first active account holding the address lower-cased and trimmed, as the email path casts the filter, and -1 exactly when none holds it |
| AuthController.FirstOwner | controllers/authcontroller.js:54 | the first active account holding the normalised address is the one the lookup finds |
| AuthController.SignUpAddressFindsAccount | models/user.js:16-22 | an account stored under a free normalised address is found by the stored address and by every spelling of the typed one that differs only in case and surrounding white space |
| AuthController.Register | controllers/authcontroller.js:41-107 | mismatched passwords or an email in use are 400s that store nothing; success exactly when the schema accepts the account, the email is free and the verification mail goes out; a stored account holds the trimmed names, the address lower-cased and trimmed, the hashed password and the hashed verification token |
| AuthController.VerifyTarget | controllers/authcontroller.js:118-121 | the account holding the hashed token unexpired, and -1 exactly when there is none |
| AuthController.Verified | controllers/authcontroller.js:132-134 | verification sets the verified flag, clears the token fields and changes nothing else |
| AuthController.VerifyEmail | controllers/authcontroller.js:110-145 | an unknown or expired token is a 400 that changes nothing; otherwise exactly that account is verified and the answer redirects |
| AuthController.LoginVerdict | controllers/authcontroller.js:148-175 | a missing field is a 400; an email whose normalised form no active account holds, or a wrong password, is a 401; the right password on an unverified account a different 401; success exactly for a verified account with the right password |
| AuthController.Login | controllers/authcontroller.js:148-190 | a refused login changes nothing; a successful one answers the token and records the login time on that account alone |
| AuthController.VerificationLifecycle | controllers/authcontroller.js:110-175 | a valid token verifies its account, stops working afterwards, and the account can then log in |
| AuthController.MailFailureStrandsAccount | controllers/authcontroller.js:83-99 | an account whose verification mail failed has no token to verify with and is refused at login as unverified |
| AuthController.NameParts | controllers/authcontroller.js:403-405 | the first name is the profile name up to its first space, and the last name the text after its last space; a one-word name gives that word and an empty last name; neither part holds a space |
| AuthController.SplitPrefix | controllers/authcontroller.js:403 | the first word of a split is a prefix of the name, and a name with a space splits in two or more |
| AuthController.NamePartsOfFullName | controllers/authcontroller.js:403-405 | a name of first, middle and last words gives back the first and the last |
| AuthController.SplitJoinParts | controllers/authcontroller.js:403 | splitting words joined by single spaces gives back the words |
| AuthController.WithProfile | controllers/authcontroller.js:392-399 | linking a provider profile sets that provider's profile and keeps the other provider's, the id, email, password and verified flag |
| AuthController.ProfileOwner | controllers/authcontroller.js:386 | an active account linked to that provider id, and -1 exactly when there is none |
| AuthController.SocialAccount | controllers/authcontroller.js:403-415 | a new social account is verified, a parent, has the profile's email lower-cased and trimmed, the profile (with the email as given) linked and the trimmed name parts |
| AuthController.SocialLogin | controllers/authcontroller.js:381-437 | a linked account logs in; else the active account holding the normalised email gets the profile linked and logs in; else a new account is created when the schema accepts it, and otherwise a 400 that stores nothing |
| AuthController.SingleWordNameRefused | controllers/authcontroller.js:403-405 | a provider profile with a one-word name can never create an account: the empty last name fails the schema |
| AuthController.SocialSchemaErrors | models/user.js:5-31 | with the last name optional, the schema accepts exactly a non-empty first name and email, a matching email and a long enough password |
| AuthController.SingleWordNameAcceptedAsIntended | controllers/authcontroller.js:403-405 | under that schema a one-word name creates an account whose first name is the name and whose last name is empty |
| RootAuthController.EmailOwner | authController.js:112 | the first account holding the address lower-cased and trimmed, as the email path casts the filter, and -1 exactly when none holds it |
| RootAuthController.Protect | authController.js:144-192 | no token is a 401; a malformed or an expired token each get their own 401; other verification errors go on to the error handler; access is granted exactly when the token decodes to an existing account, which becomes the request's user, and a token whose id no account holds is the 401 'no longer exists' |
| RootAuthController.LoginVerdict | authController.js:99-131 | a missing field is a 400; an email whose normalised form no account holds, or a stored hash that does not match the password, is the 401 'Incorrect email or password'; an account without a stored password hands the comparison error to the error handler; success exactly when the stored hash matches the password |
| RootAuthController.Login | authController.js:99-131 | a refused or forwarded login changes nothing; a successful one answers the token and records the login time on that account alone |
| RootAuthController.IssueReset | authController.js:219-221 | issuing (the schema's createPasswordResetToken) stores the hashed token with an expiry ten minutes ahead and changes nothing else |
| RootAuthController.ForgotPasswordAsWritten | authController.js:208-222 | an address no account holds is the 404; for a known one the error of the missing `crypto` binding goes to the error handler; a 200 is never answered |
| RootAuthController.ForgotPassword | authController.js:208-252 | an email whose normalised form no account holds is a 404 that changes nothing; a mailed token is a 200 with the token stored; a failed mail is a 500 and clears the token fields |
| RootAuthController.ResetTarget | authController.js:258-266 | the account holding the hashed token unexpired, and -1 exactly when there is none |
| RootAuthController.PasswordError | authController.js:276-280 | the validating save accepts the password exactly when it has eight characters or more; an empty one is 'Password is required' without a provider id and the length error with one, since `minlength` still runs on '' |
| RootAuthController.WithNewPassword | authController.js:276-279 | the reset stores the new password's hash, clears the token fields and changes nothing else |
| RootAuthController.ResetPassword | authController.js:255-287 | an unknown or expired token is a 400 that changes nothing; a password shorter than eight characters, the empty one included, goes to the error handler as a validation error on the password path and changes nothing; otherwise the password's hash is stored, the token cleared and the user logged in |
| RootAuthController.ResetLifecycle | authController.js:208-287 | an issued token works for exactly ten minutes and the new password is acceptable; after the reset the token no longer works and the new password logs in |
| RootAuthController.Linked | authController.js:358-362 | a provider id already set is kept; otherwise the given id is linked; id, email, password and the other provider's id are unchanged |
| RootAuthController.LinkKeepsFirstId | authController.js:358-362 | linking twice keeps the first id: a later sign-in with another provider id does not replace it |
| RootAuthController.NewSocialErrors | authController.js:364-371 | a new social account passes the schema exactly when both trimmed names and the email are non-empty, the email matches and the provider id is given |
| RootAuthController.SocialAccount | authController.js:364-373 | a new social account is verified, has no password, is a parent and carries the provider id and the email lower-cased and trimmed |
| RootAuthController.SocialLogin | authController.js:350-384 | the account holding the normalised email has the provider id linked and logs in; otherwise a new account is created when the schema accepts it, else the validation error goes to the error handler and nothing is stored |
| RootAuthController.SocialAccountCannotUsePassword | authController.js:112-120 | an account created by social sign-in cannot log in with any password: the comparison error goes to the error handler |
| HomePage.IndexOf | packages/web/src/pages/Home.js:110 | the first conversation with that id, and -1 exactly when none has it |
| HomePage.Others | packages/web/src/pages/Home.js:129 | the conversations with other ids, and only those |
| HomePage.Bumped | packages/web/src/pages/Home.js:123-124 | the unread count goes up by one, a missing count counting as zero |
| HomePage.Refreshed | packages/web/src/pages/Home.js:109-131 | an unknown conversation leaves the list as it was; a known one moves to the top with the new last message and time, its unread count bumped when asked |
| HomePage.OthersRemovesIndex | packages/web/src/pages/Home.js:129 | with unique ids, removing a conversation by id removes exactly its one entry |
| HomePage.OthersAbsent | packages/web/src/pages/Home.js:129 | removing an id no conversation has changes nothing |
| HomePage.RefreshMovesToFront | packages/web/src/pages/Home.js:128-130 | the refreshed conversation comes first and the others follow in their former order; no entry is lost or added |
| HomePage.NewMessage | packages/web/src/pages/Home.js:100-132 | a message of the open conversation is appended to the messages, any other leaves them; the list is refreshed, bumping the unread count unless the conversation is open |
| HomePage.UnreadRisesUnlessOpen | packages/web/src/pages/Home.js:118-126 | the conversation comes to the top with the new content and time; its unread count rises by one unless it is open, when it is kept |
| HomePage.Confirmed | packages/web/src/pages/Home.js:137-143 | the message whose id is the confirmation's temporary id is replaced by the confirmed one marked sent; the others stay |
| HomePage.MessageSent | packages/web/src/pages/Home.js:135-156 | a confirmation replaces the optimistic message and refreshes the list without touching unread counts |
| HomePage.Without | packages/web/src/pages/Home.js:163 | the typers other than that user, and only those |
| HomePage.TypingStarted | packages/web/src/pages/Home.js:159-165 | the user goes to the end of the group's typers, without a second entry; other state is untouched |
| HomePage.TypingStopped | packages/web/src/pages/Home.js:168-181 | the user leaves the group's typers; a group left with none is removed |
| HomePage.TypingStartedOnce | packages/web/src/pages/Home.js:159-165 | after a start the user is listed once, last; other typers and other groups are kept |
| HomePage.TypingStoppedRemoves | packages/web/src/pages/Home.js:168-181 | after a stop the user is not listed, no group is left empty, and other groups are unchanged |
| HomePage.StartThenStop | packages/web/src/pages/Home.js:159-181 | when the user is the only typer, starting and then stopping leaves no entry for the group |
| HomePage.Cleared | packages/web/src/pages/Home.js:208-210 | the chosen conversation's unread count becomes 0 and the others are untouched |
| HomePage.SelectConversation | packages/web/src/pages/Home.js:74-214 | choosing the open conversation changes nothing; another one becomes open with its unread count cleared and the message list emptied for the fetch |
| HomePage.OpenConversationStaysRead | packages/web/src/pages/Home.js:74-214 | after opening another conversation, a message for it arriving before the fetch is the only one shown, and its unread count stays 0 |
| HomePage.SendMessage | packages/web/src/pages/Home.js:216-246 | with no open conversation or no user nothing happens; otherwise an optimistic message marked sending is appended and one send call with its temporary id is made |
| HomePage.ConfirmationNeverDelivered | packages/web/src/pages/Home.js:184 | the server never emits the event the page waits on for confirmations |
| HomePage.OptimisticMessageConfirmed | packages/web/src/pages/Home.js:216-246 | when a confirmation carrying the temporary id does arrive, the optimistic message is replaced in place by the confirmed one, marked sent |
| ChatPanel.IdOf | packages/web/src/components/Chat/Chat.jsx:46 | no selection has no id; a selection's id is its `_id` field |
| ChatPanel.Select | packages/web/src/components/Chat/Chat.jsx:120-124 | choosing in the group list changes the live selection only; the handlers keep the selection they captured |
| ChatPanel.Registered | packages/web/src/components/Chat/Chat.jsx:17-43 | the `[user]` effect running again registers handlers that read the current selection; nothing else changes |
| ChatPanel.MessageReceived | packages/web/src/components/Chat/Chat.jsx:45-50 | a message of the group the handler captured is appended; any other leaves the panel unchanged |
| ChatPanel.MessageSent | packages/web/src/components/Chat/Chat.jsx:52-55 | a sent message is always appended, and nothing else changes |
| ChatPanel.TypingStarted | packages/web/src/components/Chat/Chat.jsx:57-61 | a user typing in the captured group joins the typing set; elsewhere nothing changes |
| ChatPanel.TypingStopped | packages/web/src/components/Chat/Chat.jsx:63-71 | a user stopping in the captured group leaves the typing set; elsewhere nothing changes |
| ChatPanel.GroupJoined | packages/web/src/components/Chat/Chat.jsx:73-75 | the joined group is appended to the list |
| ChatPanel.Remaining | packages/web/src/components/Chat/Chat.jsx:78 | the groups whose `id` differs from the argument, and only those |
| ChatPanel.GroupLeft | packages/web/src/components/Chat/Chat.jsx:77-82 | the groups matching the argument are dropped; the live selection is cleared when the captured selection matches; messages, typers, counter and captured selection are kept |
| ChatPanel.NewNotification | packages/web/src/components/Chat/Chat.jsx:84-86 | the unread counter goes up by one |
| ChatPanel.UnreadCount | packages/web/src/components/Chat/Chat.jsx:88-90 | the unread counter takes the server's count |
| ChatPanel.OutgoingTarget | packages/web/src/components/Chat/Chat.jsx:96-112 | sending and typing calls go out exactly when a group is selected (live), addressed to its `_id` |
| ChatPanel.ReceivedIffCaptured | packages/mobile/src/components/Chat/Chat.jsx:51-56 | the message list grows by one exactly when the message is for the captured group, and earlier messages are kept |
| ChatPanel.ReceivedIffSelected | packages/mobile/src/components/Chat/Chat.jsx:23-56 | when the handlers read the live selection, the list grows by one exactly when the message is for the selected group |
| ChatPanel.TypingSetSemantics | packages/mobile/src/components/Chat/Chat.jsx:63-77 | starting twice is the same as once; in the captured group a start adds the user and a stop removes them; elsewhere both do nothing |
| ChatPanel.LeaveByIdRemoves | packages/web/src/components/Chat/Chat.jsx:77-82 | leaving by a plain id removes every group with that id and keeps all others; the selection is cleared exactly when the captured one matches, which is the selected one when the handlers read the live selection |
| ChatPanel.LeaveWithServerPayloadIgnored | packages/web/src/components/Chat/Chat.jsx:77-82 | the server's leave payload, an object, matches no group: the panel is left unchanged |
| ChatPanel.RemainingKeepsAll | packages/mobile/src/components/Chat/Chat.jsx:84 | filtering by an object argument keeps every group |
| ChatPanel.Notified | packages/web/src/components/Chat/Chat.jsx:84-86 | notifications change only the unread counter |
| ChatPanel.CounterAfterSync | packages/mobile/src/components/Chat/Chat.jsx:90-96 | after the server's count, each new notification adds one to it |
| ChatPanel.JoinedSelectionNeverMatches | packages/web/src/components/Chat/Chat.jsx:45-61 | a selected group taken from a join payload has no `_id`: its messages and typers are never shown and outgoing calls have no group id |
| ChatPanel.StaleHandlersIgnoreGroupEvents | packages/web/src/components/Chat/Chat.jsx:17-71 | with no selection captured, as after mounting, any run of choices and socket events lists only the sender's own messages, never changes the typing set, and leaves the selection at the last choice made |
| ChatPanel.ChosenGroupMessageNotShown | packages/mobile/src/components/Chat/Chat.jsx:23-56 | after mounting, choosing a group and receiving its message lists nothing |
| ChatPanel.ChosenGroupMessageShownWhenRegistered | packages/web/src/components/Chat/Chat.jsx:17-50 | had the handlers been registered again for the chosen group, its message would be listed |
| ChatWindow.NameOr | packages/web/src/components/Chat/ChatWindow.js:19 | a non-empty first name is used, otherwise the fallback |
| ChatWindow.TypingText | packages/web/src/components/Chat/ChatWindow.js:14-25 | nobody gives the empty text; one typer is named alone; two are named together with fallbacks 'User1' and 'User2'; three or more read 'Several people are typing...' |
| ChatWindow.IndicatorVisibleIffTyping | packages/web/src/components/Chat/ChatWindow.js:79 | the indicator line is visible exactly when someone is typing |
| ChatWindow.IndicatorAfterTypingStarted | packages/web/src/components/Chat/ChatWindow.js:14-25 | once a typing start arrives the indicator is visible, and names the user alone when nobody else was typing |
| TypingInput.Input.constructor | packages/web/src/components/Chat/MessageInput.js:15-18 | an empty field, not typing, no timer, nothing signalled or sent |
| TypingInput.Input.Change | packages/web/src/components/Chat/MessageInput.js:29-50 | the field takes the value; an input with a conversation that is not disabled signals a start only when not already typing and re-arms the stop timer; otherwise no signal |
| TypingInput.Input.TimerFired | packages/web/src/components/Chat/MessageInput.js:45-49 | an armed timer signals a stop and ends typing; a cleared one does nothing |
| TypingInput.Input.Send | packages/web/src/components/Chat/MessageInput.js:52-67 | blank text or a disabled input changes nothing; otherwise the text is handed over, the field cleared, the timer cleared and a stop signalled when typing |
| TypingInput.Input.KeyPress | packages/web/src/components/Chat/MessageInput.js:69-74 | Enter without Shift on an enabled input with non-blank text appends the text to the sent messages, empties the input, stops typing and disarms the timer, emitting a stop signal if typing was on; any other key, a disabled input or blank text changes nothing |
| TypingInput.InactiveInputIsSilent | packages/web/src/components/Chat/MessageInput.js:32 | an input without a conversation, or disabled, never signals whatever is typed |
| TypingInput.BurstThenPause | packages/web/src/components/Chat/MessageInput.js:29-50 | a burst of keystrokes followed by a pause signals exactly one start and one stop |
| Composer.Outgoing | packages/web/src/components/Chat/MessageInput.jsx:52-58 | something is sent exactly when the trimmed text is non-empty or there is an attachment, and then it is the trimmed text with the attachments |
| Composer.RemoveAt | packages/web/src/components/Chat/MessageInput.jsx:67-69 | an index inside the list removes exactly that attachment; any other index leaves the list as it was |
| Composer.Composer.constructor | packages/web/src/components/Chat/MessageInput.jsx:17-20 | an empty text, no attachments, no timer, no calls |
| Composer.Composer.Change | packages/web/src/components/Chat/MessageInput.jsx:37-50 | the text takes the value, a start call is made and the stop timer is re-armed |
| Composer.Composer.TimerFired | packages/web/src/components/Chat/MessageInput.jsx:47-49 | an armed timer makes one stop call and is disarmed; a disarmed one does nothing |
| Composer.Composer.Send | packages/web/src/components/Chat/MessageInput.jsx:52-58 | when `Outgoing` has something it is handed over and the text and attachments are cleared; otherwise nothing changes |
| Composer.Composer.KeyPress | packages/web/src/components/Chat/MessageInput.jsx:60-65 | Enter without Shift, with something to send, sends the trimmed text and attachments and empties both; any other key, or nothing to send, leaves text, attachments and sent messages unchanged |
| Composer.Composer.Dropped | packages/web/src/components/Chat/MessageInput.jsx:23-25 | dropped files are appended to the attachments in order |
| Composer.Composer.Picked | packages/mobile/src/components/Chat/MessageInput.jsx:43-72 | a picked document or image is appended; a cancelled pick changes nothing |
| Composer.Composer.RemoveAttachment | packages/mobile/src/components/Chat/MessageInput.jsx:74-76 | the attachments become `RemoveAt` of the index |
| Composer.TimerStepKeepsProtocol | packages/web/src/components/Chat/MessageInput.jsx:37-50 | every stop call follows a start call: the timer only fires after a keystroke |
| Composer.SendGate | packages/mobile/src/components/Chat/MessageInput.jsx:35-41 | sending happens exactly when the text has a non-space character or there is an attachment |
| Composer.RemoveKeepsOrder | packages/web/src/components/Chat/MessageInput.jsx:67-69 | removing one attachment keeps the others in order, and removing the last one added restores the list before it |
| UploadInput.SubmitCall | client/src/components/messages/MessageInput.js:17-34 | nothing is sent exactly when the trimmed text is empty and no file is chosen; a chosen file sends a media message with the trimmed caption, otherwise a text message |
| UploadInput.PreviewOf | client/src/components/messages/MessageInput.js:60-70 | an image is previewed as its data, any other file by its name |
| UploadInput.Input.constructor | client/src/components/messages/MessageInput.js:5-9 | an empty text, no file, no preview, no calls, no alerts |
| UploadInput.Input.Change | client/src/components/messages/MessageInput.js:12-14 | the text takes the value |
| UploadInput.Input.Submit | client/src/components/messages/MessageInput.js:17-34 | when `SubmitCall` has a message it is sent and the text, file and preview are cleared; otherwise nothing changes |
| UploadInput.Input.KeyPress | client/src/components/messages/MessageInput.js:37-43 | Enter without Shift, with something to submit, records the call and clears the text, the file and the preview; any other key, or nothing to submit, leaves the whole state unchanged |
| UploadInput.Input.FileSelect | client/src/components/messages/MessageInput.js:46-71 | no file does nothing; a file over 10 MB raises an alert and is not kept; otherwise it is chosen with its preview |
| UploadInput.Input.CancelUpload | client/src/components/messages/MessageInput.js:79-84 | the file and its preview are cleared |
| UploadInput.ChooseThenSubmit | client/src/components/messages/MessageInput.js:17-71 | choosing a file within the limit and submitting sends it as media with the trimmed caption; a file over the limit leaves a text message, or nothing when the text is blank |
| MessageListView.GroupIndex | client/src/components/messages/MessageList.js:290 | the badge for that emoji, and -1 exactly when there is none |
| MessageListView.TotalBump | client/src/components/messages/MessageList.js:297 | adding one to a badge's count adds one to the total |
| MessageListView.OccurrencesSnoc | client/src/components/messages/MessageList.js:287-301 | one more reaction adds one occurrence to its own emoji and none to any other |
| MessageListView.StepNew | client/src/components/messages/MessageList.js:290-298 | a reaction with a new emoji opens a badge of count one and the badges still summarize the reactions |
| MessageListView.StepKnown | client/src/components/messages/MessageList.js:297-298 | a reaction with a known emoji bumps that badge and the badges still summarize the reactions |
| MessageListView.KnownDistinct | client/src/components/messages/MessageList.js:290-298 | bumping a badge keeps one badge per emoji |
| MessageListView.KnownCounts | client/src/components/messages/MessageList.js:297-298 | after a bump every badge's count is its emoji's number of reactions and equals its list of users |
| MessageListView.KnownCovers | client/src/components/messages/MessageList.js:287-301 | after a bump every emoji without a badge has no reactions |
| MessageListView.GroupingCounts | client/src/components/messages/MessageList.js:287-301 | the badges hold one entry per emoji, each counting exactly that emoji's reactions with one user per reaction, and every reacted emoji has a badge |
| MessageListView.Badges | client/src/components/messages/MessageList.js:281-316 | a message without reactions shows no badges; otherwise the grouped reactions |
| MessageListView.Style | client/src/components/messages/MessageList.js:237-246 | system messages, the caller's own messages and others' messages each get their own style |
| MessageListView.AvatarOncePerRun | client/src/components/messages/MessageList.js:372-375 | in a run of consecutive messages from one sender the avatar is shown on the first only |
| MessageListView.Replaced | client/src/components/messages/MessageList.js:224-228 | the message with the id is replaced by the server's copy, the others kept |
| MessageListView.PrependOlder | client/src/components/messages/MessageList.js:101 | the older page goes in front, its order reversed, and the loaded messages follow unchanged |
| MessageListView.PrependOlderInOrder | client/src/components/messages/MessageList.js:101 | the older page goes in front in the order received, the loaded messages after it |
| MessageListView.OlderPageShownReversed | client/src/components/messages/MessageList.js:101 | with the server's oldest-first pages, the second page appears newest first above the first page |
| MessageListView.OlderPageShownInOrder | client/src/components/messages/MessageList.js:101 | without the reversal the two pages together are the last 40 messages in order |
| MessageListView.View.constructor | client/src/components/messages/MessageList.js:8-12 | no messages, page 1, more to load, no error |
| MessageListView.View.Opened | client/src/components/messages/MessageList.js:17-60 | opening resets to page 1; without a token or on a failed request an error is shown; otherwise the first page is shown and more are expected exactly when there is more than one page |
| MessageListView.View.Scroll | client/src/components/messages/MessageList.js:70-117 | away from the top or with nothing more to load nothing happens; a failed load shows an error; a loaded page is put in front, the page number advances and more are expected exactly while pages remain |
| MessageListView.View.Sent | client/src/components/messages/MessageList.js:144-197 | without a token the error is 'Not authenticated'; a failed request sets 'Failed to send message'; both keep the messages; a returned message is appended, and an empty answer changes nothing |
| MessageListView.View.Reacted | client/src/components/messages/MessageList.js:200-234 | without a token the error is 'Not authenticated'; a failed request sets 'Failed to add reaction'; both keep the messages; a returned message replaces the one with that id, and an empty answer changes nothing |
| ConversationFilter.Filtered | client/src/components/conversations/conversationlist.js:47-68 | the shown conversations are exactly those of the list that match the type filter and the search, never more than the list holds |
| ConversationFilter.FilteredIsSubsequence | client/src/components/conversations/conversationlist.js:47 | the shown list is the full list with some conversations removed, the rest in their order |
| ConversationFilter.FilteredSplits | client/src/components/conversations/conversationlist.js:47 | filtering a list in two parts gives the two filtered parts one after the other |
| ConversationFilter.EmptySearchIsTypeFilter | client/src/components/conversations/conversationlist.js:49-51 | with an empty search only the type filter applies: 'all' keeps everything, any other choice exactly its type |
| ConversationFilter.NoFilterShowsAll | client/src/components/conversations/conversationlist.js:47-68 | 'all' with an empty search shows the whole list unchanged |
| ConversationFilter.LowerIdempotent | client/src/components/conversations/conversationlist.js:55 | lower-casing twice is lower-casing once |
| ConversationFilter.SearchIgnoresCase | client/src/components/conversations/conversationlist.js:54-64 | a query typed in any case matches the same conversations as its lower-case form |
| ConversationFilter.NameHitShown | client/src/components/conversations/conversationlist.js:58 | a conversation of the chosen type whose name contains the query, ignoring case, is shown |
| ConversationFilter.ContentOr | client/src/components/conversations/conversationlist.js:115-122 | a present content is drawn as it is and a missing one as the fallback: the empty text where the code falls back to '', and 'undefined' where it puts the content in a template string |
| ConversationFilter.PreviewShape | client/src/components/conversations/conversationlist.js:105-123 | no last message reads 'No messages yet'; a system message shows its content; any other starts with the sender's name, then '[Image] ' or '[File] ' for those kinds, then the content |
| ResetForm.Opened | packages/web/src/pages/ResetPassword.js:62-67 | a link without a token shows the invalid-link message at once; a link with one shows nothing; the fields start empty and nothing is loading |
| ResetForm.Resolve | packages/web/src/pages/ResetPassword.js:88-102 | loading stops either way; success shows the redirect message; a refusal shows the server's message, or the default one when it sent none |
| ResetForm.SubmitOrder | packages/web/src/pages/ResetPassword.js:69-91 | a request goes out exactly when there is a token, the passwords agree and the password has six characters or more; otherwise the first failing check's message, in the order token, match, length |
| ResetForm.FlagsAgreeWithSubmit | packages/web/src/pages/ResetPassword.js:152-168 | with a token and a confirmation typed, the fields show no error flag exactly when submitting sends the request |
| ResetForm.EmptyFieldsRefusedWithoutFlags | packages/web/src/pages/ResetPassword.js:83-86 | with both fields empty no field is flagged, yet submitting is refused as too short |
| ResetForm.ButtonAfterReply | packages/web/src/pages/ResetPassword.js:175 | the button is disabled while loading and after a success, and enabled again after a refusal |
| ResetForm.NoTokenNoRequest | packages/web/src/pages/ResetPassword.js:64-77 | a link without a token shows the invalid-link message, keeps the button disabled and never sends a request |
| AuthForms.Criteria | auth.js:95-105 | the number of criteria met is at most four |
| AuthForms.StrengthTable | auth.js:95-107 | the strength is 0 for up to one criterion, then 1, 2 and 3 for two, three and four |
| AuthForms.StrengthMonotone | auth.js:95-107 | meeting more criteria never gives a lower strength |
| AuthForms.EveryStrengthLabelled | auth.js:70-93 | every strength computed has a label: the meter is never blank |
| AuthForms.ExtendingNeverWeakens | auth.js:95-107 | typing more characters at the end never removes a criterion or lowers the strength |
| AuthForms.LoginNeedsBoth | auth.js:144-147 | the login request goes out exactly when both fields are filled in; otherwise 'Please fill in all fields' |
| AuthForms.RegisterOrder | auth.js:217-230 | registration goes out exactly when all fields are filled, the passwords agree and the terms are accepted; otherwise the first failing check's message, in that order |
| AuthForms.WeakPasswordRegisters | auth.js:217-230 | the registration checks ignore strength: a one-character password of strength 0 is let through |

## Left out

- Persistence: Mongoose queries, populate, save and countDocuments are replaced by in-memory maps and sequences. `$ne`/`$in`/`$elemMatch` queries become the predicates they select. Sorting by `createdAt` is store order.
- Hashing and tokens:
  - bcrypt and sha256 are an injective `Digest`, so equal digests mean equal inputs;
  - JWT signing and verification are parameters: the signed token, or the user id a token verifies to;
  - random reset tokens are parameters.
- Transport: Socket.IO delivery, Express routing and middleware wiring, and concurrency between connections are left out. Socket events and HTTP requests are applied one at a time, and each emission is recorded with its receiving sockets.
- Email, push-notification sending (FCM) and fetch/axios calls are left out. Their payloads are modelled where the core builds them, as in `PushPayloads`.
- File storage (multer disk storage) is left out. An upload is a file name and a mimetype.
- Clocks and timers: `Date.now()` is a `now` parameter, and `Math.random()` is a parameter. Every `setTimeout` or `clearTimeout` is an explicit "timer fired" event or a recorded retry request. Specific timers:
  - the typing stop timers;
  - the message queue retry;
  - the 3-second redirect after a password reset.
- Date and locale formatting (formatMessageTime, formatTimestamp) and all rendering markup are left out.
- JavaScript string lengths count UTF-16 code units. The model counts characters.
- Mongoose validation is modelled path by path where a handler's outcome depends on it:
  - the message content (required, trimmed), the group name (required, trimmed), the group type and member-role enumerations;
  - the email paths of models/user.js, User (1).js, User.js and packages/server/models/User.js (lower-cased and trimmed), on save and in queries;
  - the packages/server user schema's trimmed, required first and last names and its role enumeration; its email pattern is an `emailMatches` parameter;
  - the user-schema checks of the controllers, the portal shirt size, and the password lengths.
  Other schema options are not checked. Where a schema reports several errors at once, the error text is approximated by the messages listed in order.
- Coordinator.SendMessage: the attachment `type` enumeration (image, file, video, audio) is not checked; an attachment of another type would also fail the save.
- MessageRoutes.Send: the attachment `type` enumeration is not checked either.
- MessageRoutes.Send: a request without `content` is modelled as the empty content; both fail the required check.
- GroupRoutes.Create: a request without `name` is modelled as the empty name; both fail the required check.
- GroupRoutes.UpdateRole: a request without `role` is not modelled; the role is always a string.
- ObjectId casting: a route id that is not a well-formed ObjectId is `None`. The CastError text is not modelled.
- packages/server/routes/auth.js:124-151 (GET /me) is not modelled. It reads one user without the password.
- packages/server/routes/groups.js: the rewritten query string is modelled as text. Mongo's evaluation of the rewritten filter, and the `select`/`sort` projection, are left out.
- ServerAuth: `getSignedJwtToken` is not defined on the packages/server user schema (see "## Findings"). Register and Login take its result as a `sign: Option<string>` parameter, where `None` means the call throws; ResetPassword takes it the same way; RegisterAsWritten, LoginAsWritten and ResetPasswordAsWritten fix it to `None`.
- ServerAuth: the packages/server user schema has no `lastLogin` or `phoneNumber` paths, and the strict schema drops those writes. Login therefore changes no stored state, updateprofile's `phoneNumber` is ignored, and its answer has no phone number.
- ServerAuth: the reset-token fields are modelled as fields of the store's user, as the route uses them.
- PortalConversations: the creator's display name (`req.user.name`) comes from authentication middleware that is not part of this model, so it is a parameter.
- RateLimiter: Express dispatch is modelled only as the outcome of a middleware chain (`Chain`). The route handlers behind the mounted factory are modelled as if the limiter passed, which is what `InstanceMountedAnswers` describes; see "## Findings" for what the routes do as written.
- PortalAuth.Register: the request validator answers `errors.array()`, every failed check; the model answers only the first failed check's message. The same holds for PortalAuth.Login and PortalAuth.ForgotPassword.
- PortalAuth: the validator's email check is an `emailWellFormed` parameter.
- PortalProfile.UpdateProfile: the validator answers `errors.array()`, every failed check (routes/profile.js:71); the model answers only the first failed check's message.
- PortalConversations.Create: the validator answers `errors.array()`, every failed check (routes/conversation.js:98); the model answers only the first failed check's message.
- PortalProfile: deleting the previous image file from disk is left out.
- RateLimiter: the client address is a parameter. An option passed explicitly as `undefined` is not modelled; the spread would store `undefined` rather than the default.
- RateLimiter: `max <= 0` still admits the first request of each window, as the code does.
- MessageQueue: AsyncStorage loading and saving are left out. Each asynchronous step runs atomically. The `setTimeout` retry is returned as a flag. `getQueuedMessages` only returns the queue.
- WebSocketClient: the socket.io transport is left out, and handlers are compared by identity.
- WebSocketClient: registering or removing handlers while an emit is running is left out.
- WebSocketClient: markMessageAsRead, startTyping, stopTyping, joinGroup, leaveGroup and markNotificationAsRead each send one event and are not modelled separately. The payload of the 'error' event is not modelled.
- AuthController: logout, forgotPassword, resetPassword and updatePassword are left out, because they are outside the controller operations modelled here.
- AuthController: facebookLogin repeats googleLogin with another provider field, so one social-login operation covers both.
- AuthController: a provider profile without a display name throws in the JavaScript code and is not modelled.
- RootAuthController: register, verifyEmail, updatePassword and logout are left out, because they are outside the controller operations modelled here.
- RootAuthController: facebookLogin is covered by the same social-login operation as googleLogin.
- RootAuthController: the user schema (User (1).js) uses `crypto` without requiring it (see "## Findings"). ForgotPasswordAsWritten states the forgot-password outcome as written; the other operations follow the intended hashing.
- RootAuthController: only the password path of the schema is validated.
- HomePage: the conversation-list fetch, the result of the message fetch, the loading and error flags, and logout are left out. Only the emptying of the message list when the selection changes is modelled.
- ChatPanel: scrolling and attachment rendering are left out.
- UploadInput: the FileReader callback is treated as completing at once. Resetting the DOM file input is left out, and an `alert` is counted in `alerts` without its text.
- MessageListView: the loading flag and time formatting are left out. Emoji groups are kept in first-appearance order. `Object.entries` gives that order only for keys that are not array indices; a reaction such as '1' would be listed first by JavaScript, and that ordering is not modelled.
- MessageListView.OlderPageShownReversed: the read-marking of the loaded page is left out of that lemma, which compares only the order of messages.
- TypingInput: `handleAttach` only raises an alert and is left out.
- Composer: the dropzone's file-type and size limits are left out, and so is the timer cleanup on unmount.
- ConversationFilter: a system message with no content returns `undefined`, which renders as nothing. The model gives the empty string. A plain message with no content reads `undefined`, as the template string produces.
- AuthForms: fetch and response handling, remember-me, the forgot-password form, simulated social login and tab switching are left out. The registration role is not validated by the form.
- Common.NormalEmail: lower-casing covers the ASCII and Latin-1 capitals (U+0041-U+005A and U+00C0-U+00DE except U+00D7); other letters JavaScript's `toLowerCase` changes are kept, so two addresses differing only in, say, Greek case are different in the model. Trimming uses JavaScript's full white-space set.
- Common.Lower: the same holds for the search and participant matching of ConversationFilter.Matches, which uses it.
- PortalProfile.ChangePassword: the validator answers `errors.array()`, every failed check (routes/profile.js:151); the model answers only the first failed check's message.
- ServerAuth.ChangePassword: a request without `currentPassword` makes `matchPassword` (packages/server/models/User.js:90-92) hand `undefined` to the bcrypt comparison, which throws, a 500; the model's current password is always a string, so it gives the 401 instead.
- RootAuthController.ResetPassword: a request without `password` assigns `undefined`; the model's password is always a string, so the save's failure on a missing password, and the pre-save `bcrypt.hash` error (User (1).js:91-99) it may reach for a provider account, are not modelled. The validation message is the schema's `path: message` form; the error handler's answer is not modelled.
- PortalProfile.ChangePassword: a `currentPassword` sent as JSON `null` passes the `exists()` check and makes the bcrypt comparison throw, a 500; the model has no `null`, so a present current password is always a string.

## Findings

| source | as written | input that shows it | evidently intended | confidence | as-written member | corrected member |
|---|---|---|---|---|---|---|
| packages/server/routes/api/groups.js:17 | the creator's member entry gets role 'owner', which the group schema's role enumeration (admin, moderator, member) at packages/server/models/Group.js:36 does not contain | any create request, e.g. name 'Team' with no members | the creator is entered with a role the schema accepts (admin) | not executed | GroupApi.OwnerRoleRefused | GroupApi.IntendedMembersAccepted |
| packages/server/routes/auth.js:31 | a registration without a role defaults to 'player', which the user schema's role enumeration (user, admin) at packages/server/models/User.js:39-42 refuses | a registration with every required field and no role | the default is the schema's own default 'user' | not executed | ServerAuth.DefaultRoleRefused | ServerAuth.IntendedDefaultAdmitted |
| models/message.js:16-19 | content is required for every message, but routes/message.js:268-290 creates media messages whose caption may be empty | a media upload with no caption | content is required only for text messages | not executed | PortalMessages.UncaptionedMediaRefused | PortalMessages.MediaAcceptedWhenCaptionOptional |
| routes/conversation.js:37-40 | the listing asks for the caller among the participants and, separately, for some active participant | a conversation where the caller's own entry is inactive and another participant's is active | list the conversations where the caller's own entry is active, which are the ones whose messages the caller may reach | not executed | PortalConversations.ListedWithoutActiveEntry | PortalConversations.IntendedListingMatchesAccess |
| controllers/authcontroller.js:403-405 | a one-word provider name gives lastName '', while models/user.js:11-14 requires a last name | a Google profile whose display name is 'Madonna' | a single-word name creates an account with an empty last name | not executed | AuthController.SingleWordNameRefused | AuthController.SingleWordNameAcceptedAsIntended |
| packages/web/src/pages/Home.js:184 | the page waits for 'message:sent_confirmation', but packages/server/socket.js:137 emits 'message:sent' and the server drops the tempId | any message sent from the home page | the confirmation arrives with the temporary id and replaces the optimistic message | not executed | HomePage.ConfirmationNeverDelivered | HomePage.OptimisticMessageConfirmed |
| packages/web/src/components/Chat/Chat.jsx:77-82 | 'group:left' compares each group's id with the payload, but packages/server/socket.js:348 sends an object carrying the id | leaving a group listed in the panel | the handler compares with the payload's id, so the group is removed and a matching selection cleared | not executed | ChatPanel.LeaveWithServerPayloadIgnored | ChatPanel.LeaveByIdRemoves |
| client/src/components/messages/MessageList.js:101 | each older page is reversed before being prepended, though routes/message.js:119 already returns it oldest first | a conversation of 40 messages, with pages of 20, after scrolling up once | prepend the page in the order received | not executed | MessageListView.OlderPageShownReversed | MessageListView.OlderPageShownInOrder |
| packages/web/src/components/Chat/Chat.jsx:17-43 | the socket handlers are registered by an effect that depends on `[user]` only, so they keep the selection of the first render, which is null | mount the panel, choose a group, then receive a message of that group | the handlers read the current selection (an effect that also depends on `selectedGroup`), so the message is listed | not executed | ChatPanel.StaleHandlersIgnoreGroupEvents | ChatPanel.ReceivedIffSelected |
| routes/auth.js:178-182 | the reset token and its expiry are written to paths the portal's user schema (User.js) does not declare, so the save drops them and the lookup at lines 226-229 cannot find the user who asked | a reset request for a registered email, then a reset with the mailed token | the token and its expiry are stored, and the reset finds the user holding them for one hour | not executed | PortalAuth.ResetIgnoresToken | PortalAuth.TokenLifecycle |
| packages/server/routes/notifications.js:139 | `DELETE /:id` is registered before `DELETE /read` (line 179), so a request for `/read` reaches the delete-one handler, whose `findById('read')` fails to cast and answers 500 | a caller with read notifications sends `DELETE /api/notifications/read` | the read notifications of the caller are deleted and their number answered | not executed | NotificationRoutes.DeleteReadRequest | NotificationRoutes.DeleteAllRead |
| authController.js:220 | `createPasswordResetToken` in User (1).js calls `crypto`, which that file never requires, so the call throws and the error goes to the error handler | a forgot-password request for a registered address | the token is hashed, stored and mailed, and the request answered 200 | not executed | RootAuthController.ForgotPasswordAsWritten | RootAuthController.ForgotPassword |
| routes/conversation.js:35 | the routes mount the `rateLimit` factory itself, which takes the request as its options and returns a middleware without calling `next` or answering | any GET / or POST / (line 92) on the conversation routes | mount a limiter built once by the factory, which passes requests within the limit on to the handler | not executed | RateLimiter.FactoryMountedStalls | RateLimiter.InstanceMountedAnswers |
| packages/server/routes/auth.js:35 | registration calls `getSignedJwtToken`, which the packages/server user schema does not define, after the account is created | a registration with valid fields and a new address | answer 201 with a signed token | not executed | ServerAuth.RegisterAsWritten | ServerAuth.Register |
| packages/server/routes/auth.js:98 | login calls the same undefined `getSignedJwtToken` | a login with the right email and password | answer 200 with a signed token | not executed | ServerAuth.LoginAsWritten | ServerAuth.Login |
| packages/server/routes/auth.js:247 | the password reset calls the same undefined `getSignedJwtToken`, after the new password is saved | a reset with an unexpired token and a password of eight characters | answer 200 with a signed token | not executed | ServerAuth.ResetPasswordAsWritten | ServerAuth.ResetPassword |
