# Chat-room state of the socketio chat server, in Dafny

The server keeps two-party chat rooms (a doctor and a client) in two tables
keyed by room id: a process-local cache (`get_chatroom_chats` /
`update_chatroom_chats`) and a durable document store (`MongoConfig`). Its HTTP
handlers create rooms and post messages with attachments. Its socket handlers
relay `send_message`, `join_room`, `leave_room` and `typing` events. Each
handler decides what to write to which table, what to broadcast to the room,
and which error notification to send back.

The project models those decisions:

- `rooms.dfy` (module `Rooms`) holds the data: event payloads, room documents,
  messages, check-in/check-out events, and the room id `doctorId + "_" + clientId`
  with its inverse.
- `uploads.dfy` (module `Uploads`) holds the loop of `update_chat` over the
  uploaded files. `ScanUploads` is its specification and `CollectFiles` is the
  loop itself.
- `engine.dfy` (module `Engine`) gives one pure function per handler from the
  state before to the state after:
  - the state is the cache, the store, the extra documents and three outboxes
    (broadcasts, error notifications, room subscriptions);
  - it also defines the invariants: every room sits under the id its
    participants determine, and nothing is ever removed.
- `properties.dfy` (module `Properties`) proves what the handlers promise about
  those functions, including sequences of calls.
- `server.dfy` (module `Server`) holds the class `ChatServer`. Its fields are the
  two maps and the outboxes, and it has one method per handler. Each method
  updates the fields step by step, in the order the handler does. Each is
  proved to reach exactly the state the `Engine` function gives, and to keep
  the invariants.
- `findings.dfy` (module `Findings`) holds one discrepancy in `update_chat`
  (see below).

How values from outside enter the model:

- The clock is a parameter: `createdAt` is a string and `now` an integer
  number of milliseconds.
- The message codec `translate_message_for_mongo` is a function value
  `encode(roomId, message)` fixed when the server is built. The model knows
  nothing about its contents. A result of `None` stands for the codec raising.
- Whether a file's extension is allowed, and the URL its upload returns, are
  fields of each upload.

Payload keys are three-valued: absent, JSON null, or a string. The socket
handlers index `data['username']`, `data['room']` and `data['message']` or
`data['accountType']` in their first log line, outside any `try`. A missing
key therefore ends the handler before it does anything.

In these places the code behaves in ways that are easy to misread; the model
follows the code:

- `create_chatroom` looks for an existing room in the cache only, not in the
  store. After the cache is rebuilt empty, creating an existing pair again
  inserts a second document (`CreateDuplicatesOnCacheMiss`).
- The room id is order-sensitive: (doc1, cli1) and (cli1, doc1) are two rooms
  (`CreateIsOrderSensitive`). The id determines the pair only when the doctor
  id has no `_` (`RoomIdInjective`, `RoomIdCollision`).
- Only a doctor's join or leave appends to `history`. A client's join or leave
  only broadcasts.
- `update_chat` checks the cache only, with no read-through from the store, and
  redirects when the request has no `file` part.
- `typing` checks only that the store holds the room.

## Model

| member | source | states |
|---|---|---|
| Rooms.FirstSeparator | main.py:79 | the index returned is the first `_` of the id, or its length when there is none |
| Rooms.RoomIdRoundTrip | main.py:79 | splitting `doctor_client` at its first `_` gives back (doctor, client) whenever the doctor id has no `_` |
| Rooms.RoomIdInjective | main.py:79 | over doctor ids without `_`, equal room ids mean equal doctor and equal client |
| Rooms.RoomIdOrderSensitive | main.py:79 | for two different ids without `_`, swapping doctor and client gives a different room id |
| Rooms.RoomIdCollision | main.py:79 | ("a_b", "c") and ("a", "b_c") are different pairs with the same room id |
| Rooms.RoomIdSwapCollision | main.py:79 | ("x", "x_x") and ("x_x", "x") give the same room id, so the id is not order-sensitive for every input |
| Uploads.ScanUploads | main.py:116-132 | when the loop accepts every file it yields one descriptor per upload |
| Uploads.ScanAcceptsIffAllGood | main.py:117-131 | the loop yields descriptors if and only if every file has a name and an allowed type |
| Uploads.ScanDescribesEach | main.py:128-129 | the i-th descriptor is the content type and URL of the i-th upload |
| Uploads.ScanStopsAtFirstBad | main.py:121-131 | the first refused file decides the outcome: an unnamed one redirects, a named one with a refused type is a 400 |
| Uploads.CollectFiles | main.py:116-132 | the while loop over the uploads, returning early at a refused file, computes exactly the outcome ScanUploads specifies |
| Properties.CreateRejectsMissingIds | main.py:71-78 | a non-object body, a missing doctorId or (checked next) a missing clientId gives 400 with that handler's text, and neither table nor outbox changes |
| Properties.CreateNamesRoomId | main.py:79-91 | with both ids given, the reply is 200 and names the room id doctorId + "_" + clientId, for a new or an existing room |
| Properties.CreateIdempotentOnCache | main.py:80-81 | a room id already cached gives 200 "room already exist" with that id and changes nothing |
| Properties.CreateWritesBothTables | main.py:82-91 | a room id in neither table puts the same new room, with empty messages, into the cache and into the store, and changes nothing else |
| Properties.CreateDuplicatesOnCacheMiss | main.py:80-89 | the existence check reads only the cache: an id in the store but not the cache gets a second document beside the first, the cache gets the new room, the reply is "Success" with that room, and nothing else changes |
| Properties.CreateTwice | main.py:80-91 | repeating a create is answered "room already exist" and changes nothing further |
| Properties.CreateIsOrderSensitive | main.py:79-89 | creating (doc1, cli1) and then (cli1, doc1) leaves two rooms in both tables |
| Properties.UpdateChatRejects | main.py:101-112 | a missing chatroomId or sender, or a room id missing from the cache whatever the store holds, gives 400 with that text and changes nothing |
| Properties.UpdateChatFileRejected | main.py:113-131 | no file part or an unnamed file redirects, a refused file gives 400 "file does not support"; nothing changes |
| Properties.UpdateChatAppends | main.py:132-143 | with every file accepted, the cache room gains the plaintext record with its descriptors and the store room the encoded one; nothing else changes. If the codec raises, the cache is written, the store is not, and the reply is 400 |
| Properties.SendIgnoresUnroutable | main.py:187-191 | a payload missing a logged key, or with a null room, changes nothing |
| Properties.SendToMissingRoom | main.py:201-205 | a room in neither table: no table changes and nothing is broadcast; only a missing-sender notice can be queued |
| Properties.SendWithoutSenderContinues | main.py:197-213 | a null sender queues "SENDER_ID MISMATCH" and the payload is still appended to the cache |
| Properties.SendReadsThrough | main.py:201-213 | the cache is consulted first and the store only on a miss; the cache then holds the room found plus the raw payload |
| Properties.SendSucceeds | main.py:205-217 | the cache room gains exactly the raw payload and the store room exactly {sender, Encode(roomId, message), time}; exactly one receive_message is broadcast for the room; no other room and no other outbox changes |
| Properties.SendCodecFailure | main.py:201-220 | when the codec raises, the cache already holds the read-through room plus the raw payload, the store is unchanged, nothing is broadcast and the exception is reported |
| Properties.SendNeverReportsRoomMismatch | main.py:189-196 | the "ROOM_ID MISMATCH" branch of send_message, modelled as written, never queues a notice, because the enclosing guard already demands a room |
| Properties.SendAllAppendsInOrder | main.py:205-217 | n accepted sends to a stored room grow its store messages by exactly their n encoded copies, in order, and append exactly one receive_message broadcast of each payload to that room, in the same order |
| Properties.SendAllCachesInOrder | main.py:201-213 | after n accepted sends the room is cached and its cached messages are the read-through room's followed by the n raw payloads, in order |
| Properties.DoctorAttends | main.py:228-236 | a doctor matching the stored room adds exactly one CheckIn on join (CheckOut on leave, lines 276-283) to that room's history and one announcement; the cache, the messages and all other rooms stay the same |
| Properties.AttendMismatch | main.py:237-249 | a doctor or client whose id does not match the stored room, a client with a null username included, queues "ROOM_ID MISMATCH" and changes nothing else |
| Properties.ClientAttends | main.py:241-249 | a client's join or leave never changes a table and broadcasts exactly when the stored clientId matches; a matching client gets exactly one subscription and one announcement, with no notice |
| Properties.OtherAccountRejected | main.py:250-253 | any other accountType queues "ACCOUNT TYPE MISMATCH" and changes nothing else |
| Properties.DoctorWithoutNameIgnored | main.py:228-230 | a doctor event with a null username does nothing at all, not even a notification |
| Properties.HistoryOnlyFromDoctors | main.py:228-253 | join and leave never touch the cache or any messages, and change the store only for accountType doctor |
| Properties.JoinThenLeave | main.py:228-236 | a doctor's join then leave appends CheckIn then CheckOut to the room's history and broadcasts the two announcements in that order |
| Properties.TypingChecksRoomOnly | main.py:259-267 | person_typing is broadcast if and only if the store holds the room, whatever the username and role; otherwise "ROOM_ID MISMATCH" is queued; exactly one of the two happens and nothing else changes |
| Properties.CreateKeepsInvariants | main.py:79-91 | create keeps every room under the id of its two participants and removes or shortens nothing |
| Properties.UpdateChatKeepsInvariants | main.py:133-139 | update_chat keeps the tables well keyed and only appends |
| Properties.SendKeepsInvariants | main.py:201-216 | send_message keeps the tables well keyed and only appends |
| Properties.AttendKeepsInvariants | main.py:227-249 | join and leave keep the tables well keyed and only append |
| Properties.DuplicateHasSameParticipants | main.py:79-91 | in a valid state a later document for an id names the same doctor and client as the first, whenever neither doctor id contains `_` |
| Properties.TypingKeepsInvariants | main.py:262-266 | typing keeps the tables well keyed and changes only the outboxes |
| Properties.FirstConsultation | main.py:67-302 | after sending before the room exists, creating doc1/cli1 twice, sending "hello" from cli1, and a doctor joining and leaving: one room, one cached message from cli1, one stored copy, history CheckIn then CheckOut |
| Server.ChatServer.constructor | main.py:12-15 | a started process has an empty cache over the persisted documents, the documents duplicated before it included, and empty outboxes |
| Server.ChatServer.CreateChatroom | main.py:67-94 | validate, build the id, check the cache, write the cache then insert into the store; the new state and reply are Engine.Create's |
| Server.ChatServer.UpdateMessage | main.py:97-145 | validate, look up the cache, run the file loop, append to the cache, then encode and push to the store; the new state and reply are Engine.UpdateChat's |
| Server.ChatServer.HandleSendMessage | main.py:185-220 | read the cache, fall back to the store, write the cache, then encode, push to the store and broadcast; the new state is Engine.Send's |
| Server.ChatServer.DeliverMessage | main.py:201-217 | the read-through lookup, the cache write of the raw payload, then encode, push to the store and broadcast, or queue the exception notice; the new state is Engine.Deliver's |
| Server.ChatServer.HandleJoinRoom | main.py:223-256 | the join_room handler; the new state is Engine.Join's |
| Server.ChatServer.HandleLeaveRoom | main.py:270-302 | the leave_room handler; the new state is Engine.Leave's |
| Server.ChatServer.Attend | main.py:226-253 | the role dispatch with the store lookup by room and role id; the new state is Engine.Attend's, and the invariants hold |
| Server.ChatServer.HandleTyping | main.py:259-267 | the typing handler; the new state is Engine.TypingEvent's |
| Findings.UpdateChatAsWritten | main.py:107-140 | update_chat with a cache that keeps the appended dict: replies and store as in the corrected model |
| Findings.CachedCopyIsEncoded | main.py:133-139 | a concrete upload where the written code leaves "aGk=" in the cache and the corrected model leaves the plaintext "hi" |
| Findings.AsWrittenCacheMirrorsStore | main.py:133-139 | as written, every successful update leaves the cache's new record equal to the store's, encoded body included |

## Left out

- Flask routing, templates and configuration (`home`, `chat`, `get_config`), and the MQTT start-up in `before_requests`: HTTP and networking plumbing outside the room state.
- `get_chat` and `get_chats`: read-only. They rely on `get_previous_chat`, on store projections and on `$slice`, none of which is part of this model.
- The file I/O of `update_chat`: saving to disk, `secure_filename`, the blob upload and `flash`. Each upload carries the answer of `allowed_file` and the returned URL instead.
- The inside of the codec and of `translateMessage`: not part of this model. The codec is an arbitrary function and no round trip is claimed.
- The inside of `send_response` and `error_message`, including the human-readable message text: a notification keeps only the code, source event, status, room and user.
- Logging, `print`, and the `_id` that the insert adds and the handler pops again.
- Concurrency, per-room locking and store timeouts: every handler runs to completion, one at a time.
- Failures of the store driver, of `emit` and of `join_room`: store operations always succeed. The only exception modelled is the codec raising, plus a create body that is not a JSON object. The `except` of `leave_room` (lines 301-302) is therefore unreachable, and its two-argument `send_response` call is not modelled.
- Timestamps: `time.time() * 1000` is a float in send_message and update_chat. The model uses integers throughout.
- Identifier values that are JSON numbers or other non-strings: the model takes every identifier to be a string or absent.
- The store keeps, for each id, the document that queries reach, and any later document for the same id in `duplicates`. This assumes `find` and `update` reach the earliest inserted document. A role-filtered lookup that would only match a later duplicate is not modelled; such a duplicate can name other participants only when a doctor id contains `_` (`DuplicateHasSameParticipants`).
- The room-id mismatch check of send_message (lines 194-196) is modelled as written (`Engine.CheckRoom`). It is dead code, because the guard on line 191 already excludes a null room, and `SendNeverReportsRoomMismatch` proves it never queues a notice.
- Engine.UpdateChat, Properties.UpdateChatAppends, Server.ChatServer.UpdateMessage: these follow the reading in which the cache stores a copy of the record it is given, so the cached record keeps the plaintext message. How `utils/cache` actually stores it is not part of this model; the code as written, under a cache that keeps references, is the subject of the row under "## Findings".

## Findings

| source | as written | input that shows it | evidently intended | confidence | as-written member | corrected member |
|---|---|---|---|---|---|---|
| main.py:133-139 | the dict `data` is appended to the cached room, then `data['message']` is overwritten with the codec output for the store push; if the cache keeps the dict it is handed, the cached record ends up holding the encoded body | an update to a cached room with message "hi", one accepted file and a codec giving "aGk=": the cache then holds "aGk=" | as in send_message, which builds a separate dict for the store copy: plaintext in the cache, encoded body in the store | low: depends on `utils/cache` keeping references, which is not part of this model; not executed | Findings.UpdateChatAsWritten, Findings.CachedCopyIsEncoded | Engine.UpdateChat, Properties.UpdateChatAppends |
