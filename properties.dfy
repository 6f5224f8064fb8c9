/** What the handlers promise, proved of the Engine functions. */
module Properties {
  import opened Rooms
  import opened Uploads
  import opened Engine

  // ---------------------------------------------------------------------
  // create_chatroom

  /** A body that is not a JSON object, a missing doctorId, or (checked next)
      a missing clientId is a 400 and changes nothing. */
  lemma CreateRejectsMissingIds(s: State, req: CreateRequest, createdAt: string)
    requires req.NotJson? || req.doctorId.None? || req.clientId.None?
    ensures Create(s, req, createdAt).state == s
    ensures Create(s, req, createdAt).reply.Json? && Create(s, req, createdAt).reply.status == 400
    ensures req.JsonBody? && req.doctorId.None? ==>
              Create(s, req, createdAt).reply.text == Said("doctor id is none")
    ensures req.JsonBody? && req.doctorId.Some? ==>
              Create(s, req, createdAt).reply.text == Said("client id is none")
  {
  }

  /** The reply names the room id doctorId + "_" + clientId, whether the room
      is new or already cached. */
  lemma CreateNamesRoomId(s: State, doctor: string, client: string, createdAt: string)
    ensures var r := Create(s, JsonBody(Some(doctor), Some(client)), createdAt).reply;
            r.Json? && r.status == 200
            && (r.body.ChatroomId? || r.body.CreatedRoom?)
            && r.body.id == doctor + "_" + client
  {
  }

  /** A room id already in the cache: "room already exist", nothing changes. */
  lemma CreateIdempotentOnCache(s: State, doctor: string, client: string, createdAt: string)
    requires RoomId(doctor, client) in s.cache
    ensures Create(s, JsonBody(Some(doctor), Some(client)), createdAt)
            == Handled(s, Json(200, Said("room already exist"), ChatroomId(RoomId(doctor, client))))
  {
  }

  /** A room id in neither table: the same new room, with no messages, goes
      into the cache and the store, and nothing else changes. */
  lemma CreateWritesBothTables(s: State, doctor: string, client: string, createdAt: string)
    requires RoomId(doctor, client) !in s.cache && RoomId(doctor, client) !in s.store
    ensures var id, t := RoomId(doctor, client), Create(s, JsonBody(Some(doctor), Some(client)), createdAt).state;
            && t.cache == s.cache[id := NewRoom(doctor, client, createdAt)]
            && t.store == s.store[id := NewRoom(doctor, client, createdAt)]
            && t.cache[id].messages == []
            && t == s.(cache := t.cache, store := t.store)
  {
  }

  /** The existence check reads the cache only: a room id the store holds but
      the cache does not (a cache rebuilt empty) gets a second document, the
      store keeps its first one, and the reply is a plain "Success". */
  lemma CreateDuplicatesOnCacheMiss(s: State, doctor: string, client: string, createdAt: string)
    requires RoomId(doctor, client) !in s.cache && RoomId(doctor, client) in s.store
    ensures var id, room := RoomId(doctor, client), NewRoom(doctor, client, createdAt);
            Create(s, JsonBody(Some(doctor), Some(client)), createdAt)
            == Handled(s.(cache := s.cache[id := room], duplicates := s.duplicates + [(id, room)]),
                       Json(200, Said("Success"), CreatedRoom(id, room)))
  {
  }

  /** Repeating a create that went through is answered "room already exist"
      and changes nothing more. */
  lemma CreateTwice(s: State, doctor: string, client: string, t1: string, t2: string)
    ensures var req := JsonBody(Some(doctor), Some(client));
            var once := Create(s, req, t1).state;
            Create(once, req, t2) == Handled(once, Json(200, Said("room already exist"), ChatroomId(RoomId(doctor, client))))
  {
  }

  /** Not idempotent over unordered pairs: creating (doc1, cli1) and then
      (cli1, doc1) makes two rooms. */
  lemma CreateIsOrderSensitive(s: State, t1: string, t2: string)
    requires s.cache == map[] && s.store == map[]
    ensures var once := Create(s, JsonBody(Some("doc1"), Some("cli1")), t1).state;
            var twice := Create(once, JsonBody(Some("cli1"), Some("doc1")), t2).state;
            twice.cache.Keys == {"doc1_cli1", "cli1_doc1"} && twice.store.Keys == {"doc1_cli1", "cli1_doc1"}
  {
    assert RoomId("doc1", "cli1") == "doc1_cli1" && RoomId("cli1", "doc1") == "cli1_doc1";
    assert "cli1_doc1" != "doc1_cli1" by { assert "cli1_doc1"[0] != "doc1_cli1"[0]; }
  }

  // ---------------------------------------------------------------------
  // update_chat

  /** Missing chatroomId, missing sender, or a room id the cache does not hold
      (whatever the store holds): a 400 and nothing changes. */
  lemma UpdateChatRejects(s: State, form: UpdateForm, now: int, encode: Codec)
    requires form.chatroomId.None? || form.sender.None? || form.chatroomId.value !in s.cache
    ensures UpdateChat(s, form, now, encode).state == s
    ensures UpdateChat(s, form, now, encode).reply == Json(400, Said(
              if form.chatroomId.None? then "room id is none"
              else if form.sender.None? then "senderId is none"
              else "room does not exist"), NoBody)
  {
  }

  /** No file part, an unnamed file or a refused file: nothing changes;
      a redirect, or a 400 for the refused file. */
  lemma UpdateChatFileRejected(s: State, form: UpdateForm, now: int, encode: Codec)
    requires form.chatroomId.Some? && form.sender.Some? && form.chatroomId.value in s.cache
    requires form.uploads.None? || !ScanUploads(form.uploads.value).Files?
    ensures UpdateChat(s, form, now, encode).state == s
    ensures form.uploads.None? ==> UpdateChat(s, form, now, encode).reply == Redirect("No file part")
    ensures form.uploads.Some? ==>
              UpdateChat(s, form, now, encode).reply ==
              if ScanUploads(form.uploads.value).NoSelectedFile? then Redirect("No selected file")
              else Json(400, Said("file does not support"), FileName("file"))
  {
  }

  /** Every file accepted: the cache gets the plaintext record with the file
      descriptors, the store document (if any) the encoded one; nothing else
      changes. A codec that raises leaves the cache written and the store not. */
  lemma UpdateChatAppends(s: State, form: UpdateForm, now: int, encode: Codec)
    requires form.chatroomId.Some? && form.sender.Some? && form.chatroomId.value in s.cache
    requires form.uploads.Some? && ScanUploads(form.uploads.value).Files?
    ensures var id, h := form.chatroomId.value, UpdateChat(s, form, now, encode);
            var files := ScanUploads(form.uploads.value).attachments;
            var record := Record(form.sender, form.message, now, if form.uploads.value == [] then None else Some(files));
            && |files| == |form.uploads.value|
            && h.state.cache == s.cache[id := s.cache[id].(messages := s.cache[id].messages + [record])]
            && h.state.store == (if encode(id, form.message).None? then s.store
                                 else PushMessage(s.store, id, record.(message := encode(id, form.message))))
            && h.state == s.(cache := h.state.cache, store := h.state.store)
            && h.reply == if encode(id, form.message).None? then Json(400, ExceptionText, ErrorDetail)
                          else Json(200, Said("message_updated"), NoBody)
  {
  }

  // ---------------------------------------------------------------------
  // handle_send_message_event

  /** A payload without one of the logged keys, or with a null room, changes nothing. */
  lemma SendIgnoresUnroutable(s: State, ev: Payload, now: int, encode: Codec)
    requires !Routable(ev)
    ensures Send(s, ev, now, encode) == s
  {
  }

  /** A room in neither table: no table changes and nothing is broadcast;
      at most the missing-sender notice is queued. */
  lemma SendToMissingRoom(s: State, ev: Payload, now: int, encode: Codec)
    requires Routable(ev) && ev.room.s !in s.cache && ev.room.s !in s.store
    ensures var t := Send(s, ev, now, encode);
            t == s.(notices := t.notices)
            && t.notices == s.notices + (if ev.username.Null?
                                        then [Notice(SenderIdMismatch, SendMessage, Some(400), Some(ev.room.s), None)]
                                        else [])
  {
  }

  /** A missing sender queues "SENDER_ID MISMATCH" and processing goes on:
      the cache still gets the payload. */
  lemma SendWithoutSenderContinues(s: State, ev: Payload, now: int, encode: Codec)
    requires Routable(ev) && ev.username.Null?
    requires ev.room.s in s.cache || ev.room.s in s.store
    ensures var t := Send(s, ev, now, encode);
            && |t.notices| > |s.notices|
            && t.notices[|s.notices|] == Notice(SenderIdMismatch, SendMessage, Some(400), Some(ev.room.s), None)
            && ev.room.s in t.cache
            && t.cache[ev.room.s].messages[|t.cache[ev.room.s].messages| - 1] == Raw(ev)
  {
  }

  /** The lookup reads the cache first and the store only on a miss, and the
      cache then holds what was found with the raw payload appended. */
  lemma SendReadsThrough(s: State, ev: Payload, now: int, encode: Codec)
    requires Routable(ev) && (ev.room.s in s.cache || ev.room.s in s.store)
    ensures var id, t := ev.room.s, Send(s, ev, now, encode);
            var found := if id in s.cache then s.cache[id] else s.store[id];
            t.cache == s.cache[id := found.(messages := found.messages + [Raw(ev)])]
  {
  }

  /** A successful send: the cache room grows by the raw payload, the store
      room by {sender, Encode(roomId, message), time}, one receive_message is
      broadcast for the room, and no other room or outbox changes. */
  lemma SendSucceeds(s: State, ev: Payload, now: int, encode: Codec)
    requires Routable(ev) && (ev.room.s in s.cache || ev.room.s in s.store)
    requires ev.username.Str?
    requires encode(ev.room.s, Get(ev.message)).Some?
    ensures var id, t := ev.room.s, Send(s, ev, now, encode);
            var stored := Record(Some(ev.username.s), encode(id, Get(ev.message)), now, None);
            && id in t.cache
            && t.cache[id].messages == (if id in s.cache then s.cache[id] else s.store[id]).messages + [Raw(ev)]
            && (id in s.store ==> id in t.store && t.store[id].messages == s.store[id].messages + [stored]
                                  && t.store[id].history == s.store[id].history)
            && t.store.Keys == s.store.Keys
            && (forall k :: k in s.cache && k != id ==> k in t.cache && t.cache[k] == s.cache[k])
            && (forall k :: k in s.store && k != id ==> t.store[k] == s.store[k])
            && t.broadcasts == s.broadcasts + [Broadcast(ReceiveMessage, ev, id)]
            && t.notices == s.notices && t.duplicates == s.duplicates && t.subscriptions == s.subscriptions
  {
  }

  /** A codec that raises: the cache was already written, the store is not,
      nothing is broadcast, and the exception is reported. */
  lemma SendCodecFailure(s: State, ev: Payload, now: int, encode: Codec)
    requires Routable(ev) && (ev.room.s in s.cache || ev.room.s in s.store)
    requires encode(ev.room.s, Get(ev.message)).None?
    ensures var id, t := ev.room.s, Send(s, ev, now, encode);
            && id in t.cache && t.store == s.store && t.broadcasts == s.broadcasts
            && t.cache[id].messages == (if id in s.cache then s.cache[id] else s.store[id]).messages + [Raw(ev)]
            && t.notices[|t.notices| - 1] == Notice(Raised, SendMessage, None, Some(id), Get(ev.username))
  {
  }

  /** The room-id mismatch branch of send_message is unreachable: the
      enclosing guard already demands a room, so CheckRoom never reports. */
  lemma SendNeverReportsRoomMismatch(s: State, ev: Payload, now: int, encode: Codec)
    ensures forall i :: |s.notices| <= i < |Send(s, ev, now, encode).notices| ==>
              Send(s, ev, now, encode).notices[i].code != RoomIdMismatch
  {
    if Routable(ev) {
      assert CheckRoom(s, ev) == s;
    }
  }

  /** A sequence of sends at times `times`, one after the other. */
  function SendAll(s: State, evs: seq<Payload>, times: seq<int>, encode: Codec): State
    requires |times| == |evs|
    decreases |evs|
  {
    if evs == [] then s
    else SendAll(Send(s, evs[0], times[0], encode), evs[1..], times[1..], encode)
  }

  /** A send to `id` that the handler accepts in full. */
  predicate Accepted(id: string, ev: Payload, encode: Codec)
  {
    ev.room == Str(id) && !ev.username.Absent? && !ev.message.Absent? && encode(id, Get(ev.message)).Some?
  }

  /** The store copies of a sequence of sends, in order. */
  function StoredCopies(id: string, evs: seq<Payload>, times: seq<int>, encode: Codec): (r: seq<Message>)
    requires |times| == |evs|
    ensures |r| == |evs|
  {
    if evs == [] then []
    else [Record(Get(evs[0].username), encode(id, Get(evs[0].message)), times[0], None)]
         + StoredCopies(id, evs[1..], times[1..], encode)
  }

  /** The receive_message broadcasts of a sequence of sends to `id`, in order. */
  function Received(id: string, evs: seq<Payload>): (r: seq<Broadcast>)
    ensures |r| == |evs|
  {
    if evs == [] then [] else [Broadcast(ReceiveMessage, evs[0], id)] + Received(id, evs[1..])
  }

  function RawCopies(evs: seq<Payload>): (r: seq<Message>)
    ensures |r| == |evs|
  {
    if evs == [] then [] else [Raw(evs[0])] + RawCopies(evs[1..])
  }

  /** One accepted send to a stored room, as the induction below uses it. */
  lemma SendStep(s: State, id: string, ev: Payload, now: int, encode: Codec)
    requires id in s.store && Accepted(id, ev, encode)
    ensures var t := Send(s, ev, now, encode);
            && id in t.store && id in t.cache
            && t.store[id].messages == s.store[id].messages
                 + [Record(Get(ev.username), encode(id, Get(ev.message)), now, None)]
            && t.cache[id].messages == ReadThrough(s, id).value.messages + [Raw(ev)]
            && t.broadcasts == s.broadcasts + [Broadcast(ReceiveMessage, ev, id)]
  {
    assert CheckRoom(s, ev) == s;
    var s1 := CheckSender(s, ev);
    assert s1.store == s.store && s1.cache == s.cache;
    assert ReadThrough(s1, id) == ReadThrough(s, id);
  }

  /** No lost updates: n accepted sends to a stored room grow its store
      messages by exactly their n copies, in acceptance order, and broadcast
      receive_message for each payload in that same order. */
  lemma {:induction false} SendAllAppendsInOrder(s: State, id: string, evs: seq<Payload>, times: seq<int>, encode: Codec)
    requires |times| == |evs|
    requires id in s.store
    requires forall i :: 0 <= i < |evs| ==> Accepted(id, evs[i], encode)
    decreases |evs|
    ensures var t := SendAll(s, evs, times, encode);
            && id in t.store
            && t.store[id].messages == s.store[id].messages + StoredCopies(id, evs, times, encode)
            && t.broadcasts == s.broadcasts + Received(id, evs)
  {
    if evs != [] {
      var s1 := Send(s, evs[0], times[0], encode);
      assert Accepted(id, evs[0], encode);
      SendStep(s, id, evs[0], times[0], encode);
      var rest, later := evs[1..], times[1..];
      assert forall i :: 0 <= i < |rest| ==> rest[i] == evs[i + 1];
      SendAllAppendsInOrder(s1, id, rest, later, encode);
      var first := Record(Get(evs[0].username), encode(id, Get(evs[0].message)), times[0], None);
      assert StoredCopies(id, evs, times, encode) == [first] + StoredCopies(id, rest, later, encode);
      assert s1.store[id].messages == s.store[id].messages + [first];
      assert Received(id, evs) == [Broadcast(ReceiveMessage, evs[0], id)] + Received(id, rest);
      assert s1.broadcasts == s.broadcasts + [Broadcast(ReceiveMessage, evs[0], id)];
    }
  }

  /** The same sends grow the cached room by the n raw payloads, in order,
      starting from what the read-through lookup found. */
  lemma {:induction false} SendAllCachesInOrder(s: State, id: string, evs: seq<Payload>, times: seq<int>, encode: Codec)
    requires |times| == |evs| && evs != []
    requires id in s.store
    requires forall i :: 0 <= i < |evs| ==> Accepted(id, evs[i], encode)
    decreases |evs|
    ensures var t := SendAll(s, evs, times, encode);
            id in t.cache && t.cache[id].messages == ReadThrough(s, id).value.messages + RawCopies(evs)
  {
    var s1 := Send(s, evs[0], times[0], encode);
    assert Accepted(id, evs[0], encode);
    SendStep(s, id, evs[0], times[0], encode);
    var rest, later := evs[1..], times[1..];
    assert RawCopies(evs) == [Raw(evs[0])] + RawCopies(rest);
    if rest != [] {
      assert forall i :: 0 <= i < |rest| ==> rest[i] == evs[i + 1];
      SendAllCachesInOrder(s1, id, rest, later, encode);
      var t := SendAll(s1, rest, later, encode);
      assert SendAll(s, evs, times, encode) == t;
      assert ReadThrough(s1, id) == Some(s1.cache[id]);
      assert t.cache[id].messages == s1.cache[id].messages + RawCopies(rest);
      assert s1.cache[id].messages == ReadThrough(s, id).value.messages + [Raw(evs[0])];
    } else {
      assert SendAll(s1, rest, later, encode) == s1;
      assert SendAll(s, evs, times, encode) == s1;
    }
  }

  // ---------------------------------------------------------------------
  // handle_join_room_event / handle_leave_room_event

  predicate Logged(ev: Payload)
  {
    !ev.username.Absent? && !ev.room.Absent? && !ev.accountType.Absent?
  }

  /** A doctor whose store room matches: exactly one CheckIn (join) or
      CheckOut (leave) on that room's history, one announcement broadcast,
      and no other room, no message and no cache entry changes. */
  lemma DoctorAttends(s: State, ev: Payload, now: int, dir: Direction)
    requires Logged(ev) && ev.accountType == Str("doctor") && DoctorMatches(s, ev)
    ensures var id, t := ev.room.s, Attend(s, ev, now, dir);
            && t.store == s.store[id := s.store[id].(history := s.store[id].history + [MembershipEvent(dir, now)])]
            && t.broadcasts == s.broadcasts + [Broadcast(Announcement(dir), ev, id)]
            && t.subscriptions == s.subscriptions + [Attendance(dir, id)]
            && t.cache == s.cache && t.notices == s.notices && t.duplicates == s.duplicates
  {
  }

  /** No store room matches the claimed doctor or client: "ROOM_ID MISMATCH"
      is queued and nothing else changes. */
  lemma AttendMismatch(s: State, ev: Payload, now: int, dir: Direction)
    requires Logged(ev) && (ev.username.Str? || ev.accountType == Str("client"))
    requires (ev.accountType == Str("doctor") && !DoctorMatches(s, ev))
          || (ev.accountType == Str("client") && !ClientMatches(s, ev))
    ensures Attend(s, ev, now, dir) == s.(notices := s.notices +
              [Notice(RoomIdMismatch, SourceOf(dir), Some(400), Get(ev.room), Get(ev.username))])
  {
  }

  /** A client: the announcement is broadcast exactly when the store room's
      clientId matches, and no table ever changes. A matching client gets one
      subscription and one announcement and nothing else. */
  lemma ClientAttends(s: State, ev: Payload, now: int, dir: Direction)
    requires Logged(ev) && ev.accountType == Str("client")
    ensures var t := Attend(s, ev, now, dir);
            && t.store == s.store && t.cache == s.cache
            && (t.broadcasts != s.broadcasts <==> ClientMatches(s, ev))
            && (ClientMatches(s, ev) ==>
                  t == s.(broadcasts := s.broadcasts + [Broadcast(Announcement(dir), ev, ev.room.s)],
                          subscriptions := s.subscriptions + [Attendance(dir, ev.room.s)]))
  {
  }

  /** Any other account type: "ACCOUNT TYPE MISMATCH" and nothing else. */
  lemma OtherAccountRejected(s: State, ev: Payload, now: int, dir: Direction)
    requires Logged(ev) && ev.accountType != Str("doctor") && ev.accountType != Str("client")
    ensures Attend(s, ev, now, dir) == s.(notices := s.notices +
              [Notice(AccountTypeMismatch, SourceOf(dir), Some(400), Get(ev.room), Get(ev.username))])
  {
  }

  /** A doctor event with a null username is dropped without any notice. */
  lemma DoctorWithoutNameIgnored(s: State, ev: Payload, now: int, dir: Direction)
    requires Logged(ev) && ev.accountType == Str("doctor") && ev.username.Null?
    ensures Attend(s, ev, now, dir) == s
  {
  }

  /** Only the doctor branch writes history, and no branch touches messages or the cache. */
  lemma HistoryOnlyFromDoctors(s: State, ev: Payload, now: int, dir: Direction)
    ensures var t := Attend(s, ev, now, dir);
            && t.cache == s.cache && t.store.Keys == s.store.Keys
            && (forall id :: id in s.store ==> t.store[id].messages == s.store[id].messages)
            && (t.store != s.store ==> ev.accountType == Str("doctor"))
  {
  }

  /** A doctor's join and then leave leave one CheckIn and one CheckOut, in that order. */
  lemma JoinThenLeave(s: State, ev: Payload, t1: int, t2: int)
    requires Logged(ev) && ev.accountType == Str("doctor") && DoctorMatches(s, ev)
    ensures var t := Leave(Join(s, ev, t1), ev, t2);
            t.store[ev.room.s].history == s.store[ev.room.s].history + [CheckIn(t1), CheckOut(t2)]
            && t.broadcasts == s.broadcasts + [Broadcast(JoinRoomAnnouncement, ev, ev.room.s),
                                               Broadcast(LeaveRoomAnnouncement, ev, ev.room.s)]
  {
    DoctorAttends(s, ev, t1, Joining);
    var s1 := Join(s, ev, t1);
    assert DoctorMatches(s1, ev);
    DoctorAttends(s1, ev, t2, Leaving);
  }

  // ---------------------------------------------------------------------
  // typing

  /** person_typing is broadcast exactly when the store holds the room; the
      username and account type play no part; no table changes. */
  lemma TypingChecksRoomOnly(s: State, ev: Payload)
    requires Logged(ev)
    ensures var t := TypingEvent(s, ev);
            && (t.broadcasts != s.broadcasts <==> ev.room.Str? && ev.room.s in s.store)
            && (ev.room.Str? && ev.room.s in s.store ==>
                  t == s.(broadcasts := s.broadcasts + [Broadcast(PersonTyping, ev, ev.room.s)]))
            && (!(ev.room.Str? && ev.room.s in s.store) ==>
                  t == s.(notices := s.notices + [Notice(RoomIdMismatch, Typing, Some(400), Get(ev.room), Get(ev.username))]))
  {
  }

  // ---------------------------------------------------------------------
  // Invariants every handler keeps

  /** Overwriting one entry with a well-keyed extension of it (or a new
      well-keyed entry) keeps a table well keyed and extends it. */
  lemma PutKeeps(m: map<string, Room>, id: string, r: Room)
    requires WellKeyed(m) && id == RoomId(r.doctorId, r.clientId)
    requires id in m ==> RoomExtends(m[id], r)
    ensures WellKeyed(m[id := r]) && TableExtends(m, m[id := r])
  {
    forall k | k in m ensures k in m[id := r] && RoomExtends(m[k], m[id := r][k]) {
      if k != id { assert m[id := r][k] == m[k]; }
    }
  }

  lemma PushMessageKeeps(m: map<string, Room>, id: string, x: Message)
    requires WellKeyed(m)
    ensures WellKeyed(PushMessage(m, id, x)) && TableExtends(m, PushMessage(m, id, x))
  {
    if id in m { PutKeeps(m, id, m[id].(messages := m[id].messages + [x])); }
    else { TableExtendsReflexive(m); }
  }

  lemma PushHistoryKeeps(m: map<string, Room>, id: string, e: Membership)
    requires WellKeyed(m)
    ensures WellKeyed(PushHistory(m, id, e)) && TableExtends(m, PushHistory(m, id, e))
  {
    if id in m { PutKeeps(m, id, m[id].(history := m[id].history + [e])); }
    else { TableExtendsReflexive(m); }
  }

  lemma TableExtendsReflexive(m: map<string, Room>)
    ensures TableExtends(m, m)
  {
  }

  /** A state that differs from `s` only in its outboxes, each of which grew. */
  lemma OutboxesOnlyKeep(s: State, t: State)
    requires Valid(s) && t.cache == s.cache && t.store == s.store && t.duplicates == s.duplicates
    requires s.broadcasts <= t.broadcasts && s.notices <= t.notices && s.subscriptions <= t.subscriptions
    ensures Valid(t) && Extends(s, t)
  {
    TableExtendsReflexive(s.cache);
    TableExtendsReflexive(s.store);
  }

  lemma CreateKeepsInvariants(s: State, req: CreateRequest, createdAt: string)
    requires Valid(s)
    ensures Valid(Create(s, req, createdAt).state) && Extends(s, Create(s, req, createdAt).state)
  {
    var t := Create(s, req, createdAt).state;
    if req.JsonBody? && req.doctorId.Some? && req.clientId.Some? {
      var id := RoomId(req.doctorId.value, req.clientId.value);
      if id !in s.cache {
        var room := NewRoom(req.doctorId.value, req.clientId.value, createdAt);
        PutKeeps(s.cache, id, room);
        if id !in s.store { PutKeeps(s.store, id, room); } else { TableExtendsReflexive(s.store); }
        return;
      }
    }
    OutboxesOnlyKeep(s, t);
  }

  lemma UpdateChatKeepsInvariants(s: State, form: UpdateForm, now: int, encode: Codec)
    requires Valid(s)
    ensures Valid(UpdateChat(s, form, now, encode).state) && Extends(s, UpdateChat(s, form, now, encode).state)
  {
    var t := UpdateChat(s, form, now, encode).state;
    if t != s {
      var id := form.chatroomId.value;
      var room := t.cache[id];
      PutKeeps(s.cache, id, room);
      var record := room.messages[|room.messages| - 1];
      PushMessageKeeps(s.store, id, record.(message := encode(id, form.message)));
      TableExtendsReflexive(s.store);
    } else {
      OutboxesOnlyKeep(s, t);
    }
  }

  /** In a valid state a later document for an id names the same doctor and
      client as the first one, unless a doctor id contains the separator; so
      a role-filtered query that misses the first document misses it too. */
  lemma DuplicateHasSameParticipants(s: State, i: int)
    requires Valid(s) && 0 <= i < |s.duplicates| && s.duplicates[i].0 in s.store
    requires SEPARATOR !in s.duplicates[i].1.doctorId
    requires SEPARATOR !in s.store[s.duplicates[i].0].doctorId
    ensures s.duplicates[i].1.doctorId == s.store[s.duplicates[i].0].doctorId
    ensures s.duplicates[i].1.clientId == s.store[s.duplicates[i].0].clientId
  {
    var id, later := s.duplicates[i].0, s.duplicates[i].1;
    var first := s.store[id];
    assert id == RoomId(first.doctorId, first.clientId);
    RoomIdInjective(later.doctorId, later.clientId, first.doctorId, first.clientId);
  }

  lemma ExtendsTransitive(a: State, b: State, c: State)
    requires Extends(a, b) && Extends(b, c)
    ensures Extends(a, c)
  {
  }

  lemma DeliverKeepsInvariants(s: State, ev: Payload, now: int, encode: Codec)
    requires Valid(s) && Routable(ev)
    ensures Valid(Deliver(s, ev, now, encode)) && Extends(s, Deliver(s, ev, now, encode))
  {
    var id, t := ev.room.s, Deliver(s, ev, now, encode);
    match ReadThrough(s, id)
    case None =>
      OutboxesOnlyKeep(s, s);
    case Some(room) =>
      var written := room.(messages := room.messages + [Raw(ev)]);
      var s1 := s.(cache := s.cache[id := written]);
      PutKeeps(s.cache, id, written);
      TableExtendsReflexive(s.store);
      assert Valid(s1) && Extends(s, s1);
      var encoded := encode(id, Get(ev.message));
      if encoded.None? {
        assert t == s1.(notices := t.notices);
        OutboxesOnlyKeep(s1, t);
      } else {
        var pushed := PushMessage(s1.store, id, Record(Get(ev.username), encoded, now, None));
        assert t == s1.(store := pushed, broadcasts := t.broadcasts);
        PushMessageKeeps(s1.store, id, Record(Get(ev.username), encoded, now, None));
        TableExtendsReflexive(s1.cache);
      }
      ExtendsTransitive(s, s1, t);
  }

  lemma SendKeepsInvariants(s: State, ev: Payload, now: int, encode: Codec)
    requires Valid(s)
    ensures Valid(Send(s, ev, now, encode)) && Extends(s, Send(s, ev, now, encode))
  {
    if Routable(ev) {
      assert CheckRoom(s, ev) == s;
      var s1 := CheckSender(s, ev);
      OutboxesOnlyKeep(s, s1);
      DeliverKeepsInvariants(s1, ev, now, encode);
      ExtendsTransitive(s, s1, Send(s, ev, now, encode));
    } else {
      OutboxesOnlyKeep(s, s);
    }
  }

  lemma AttendKeepsInvariants(s: State, ev: Payload, now: int, dir: Direction)
    requires Valid(s)
    ensures Valid(Attend(s, ev, now, dir)) && Extends(s, Attend(s, ev, now, dir))
  {
    var t := Attend(s, ev, now, dir);
    if !Logged(ev) {
      OutboxesOnlyKeep(s, s);
    } else if ev.accountType == Str("doctor") {
      if ev.username.Null? {
        DoctorWithoutNameIgnored(s, ev, now, dir);
        OutboxesOnlyKeep(s, s);
      } else if DoctorMatches(s, ev) {
        DoctorAttends(s, ev, now, dir);
        PushHistoryKeeps(s.store, ev.room.s, MembershipEvent(dir, now));
        TableExtendsReflexive(s.cache);
      } else {
        AttendMismatch(s, ev, now, dir);
        OutboxesOnlyKeep(s, t);
      }
    } else if ev.accountType == Str("client") {
      ClientAttends(s, ev, now, dir);
      HistoryOnlyFromDoctors(s, ev, now, dir);
      OutboxesOnlyKeep(s, t);
    } else {
      OtherAccountRejected(s, ev, now, dir);
      OutboxesOnlyKeep(s, t);
    }
  }

  lemma TypingKeepsInvariants(s: State, ev: Payload)
    requires Valid(s)
    ensures Valid(TypingEvent(s, ev)) && Extends(s, TypingEvent(s, ev))
  {
    OutboxesOnlyKeep(s, TypingEvent(s, ev));
  }

  // ---------------------------------------------------------------------
  // The scenario of a first consultation

  /** create doc1/cli1, create again, a message from cli1, the doctor joins
      and leaves: one room, one cached message from cli1, one stored copy,
      history CheckIn then CheckOut. A message sent before the create goes nowhere. */
  lemma FirstConsultation(s: State, createdAt: string, t0: int, t1: int, t2: int, t3: int, encode: Codec)
    requires s.cache == map[] && s.store == map[] && s.broadcasts == []
    requires encode("doc1_cli1", Some("hello")).Some?
    ensures var hello := Payload(Str("doc1_cli1"), Str("cli1"), Str("hello"), Absent);
            var doctor := Payload(Str("doc1_cli1"), Str("doc1"), Absent, Str("doctor"));
            var early := Send(s, hello, t0, encode);
            var created := Create(early, JsonBody(Some("doc1"), Some("cli1")), createdAt);
            var again := Create(created.state, JsonBody(Some("doc1"), Some("cli1")), createdAt);
            var sent := Send(again.state, hello, t1, encode);
            var done := Leave(Join(sent, doctor, t2), doctor, t3);
            && early == s
            && again.reply == Json(200, Said("room already exist"), ChatroomId("doc1_cli1"))
            && done.cache.Keys == {"doc1_cli1"} && done.store.Keys == {"doc1_cli1"}
            && done.cache["doc1_cli1"].messages == [Raw(hello)]
            && done.store["doc1_cli1"].messages == [Record(Some("cli1"), encode("doc1_cli1", Some("hello")), t1, None)]
            && done.store["doc1_cli1"].history == [CheckIn(t2), CheckOut(t3)]
            && |done.broadcasts| == 3
  {
    var hello := Payload(Str("doc1_cli1"), Str("cli1"), Str("hello"), Absent);
    var doctor := Payload(Str("doc1_cli1"), Str("doc1"), Absent, Str("doctor"));
    var created := Create(s, JsonBody(Some("doc1"), Some("cli1")), createdAt);
    assert RoomId("doc1", "cli1") == "doc1_cli1";
    SendSucceeds(created.state, hello, t1, encode);
    var sent := Send(created.state, hello, t1, encode);
    JoinThenLeave(sent, doctor, t2, t3);
  }
}
