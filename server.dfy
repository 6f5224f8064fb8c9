/** The handlers of main.py as methods of one object that owns the room cache,
    the room store and the two outboxes, updated step by step as the handlers
    do. Each method is proved to leave exactly the state the matching Engine
    function describes. */
module Server {
  import opened Rooms
  import opened Uploads
  import opened Engine
  import Properties

  class ChatServer {
    /** get_chatroom_chats / update_chatroom_chats */
    var cache: map<string, Room>
    /** the chat-room collection, by chatroomId */
    var store: map<string, Room>
    var duplicates: seq<(string, Room)>
    /** socketio.emit(event, data, room=...) */
    var broadcasts: seq<Broadcast>
    /** send_response(error_message(...), room, user) */
    var notices: seq<Notice>
    /** join_room / leave_room of the calling connection */
    var subscriptions: seq<Subscription>
    /** translate_message_for_mongo */
    const encode: Codec

    function Snapshot(): Engine.State
      reads this
    {
      Engine.State(cache, store, duplicates, broadcasts, notices, subscriptions)
    }

    ghost predicate Valid()
      reads this
    {
      Engine.Valid(Snapshot())
    }

    /** A freshly started process: an empty cache over the documents the store
        already holds, `earlier` being the further documents inserted for an id
        that already had one. */
    constructor (persisted: map<string, Room>, earlier: seq<(string, Room)>, codec: Codec)
      requires Engine.Valid(Engine.State(map[], persisted, earlier, [], [], []))
      ensures Valid()
      ensures cache == map[] && store == persisted && duplicates == earlier
      ensures broadcasts == [] && notices == [] && subscriptions == []
      ensures encode == codec
    {
      cache := map[];
      store := persisted;
      duplicates := earlier;
      broadcasts := [];
      notices := [];
      subscriptions := [];
      encode := codec;
    }

    /** POST /create_chatroom */
    method CreateChatroom(req: CreateRequest, createdAt: string) returns (reply: Reply)
      requires Valid()
      modifies this
      ensures Valid() && Extends(old(Snapshot()), Snapshot())
      ensures Handled(Snapshot(), reply) == Create(old(Snapshot()), req, createdAt)
    {
      Properties.CreateKeepsInvariants(Snapshot(), req, createdAt);
      match req {
        case NotJson =>
          return Json(400, ExceptionText, ErrorDetail);
        case JsonBody(doctor, client) =>
          if doctor.None? {
            return Json(400, Said("doctor id is none"), NoBody);
          }
          if client.None? {
            return Json(400, Said("client id is none"), NoBody);
          }
          var roomId := RoomId(doctor.value, client.value);
          if roomId in cache {
            return Json(200, Said("room already exist"), ChatroomId(roomId));
          }
          var toSave := NewRoom(doctor.value, client.value, createdAt);
          cache := cache[roomId := toSave];
          if roomId in store {
            duplicates := duplicates + [(roomId, toSave)];
          } else {
            store := store[roomId := toSave];
          }
          reply := Json(200, Said("Success"), CreatedRoom(roomId, toSave));
      }
    }

    /** POST /update_message */
    method UpdateMessage(form: UpdateForm, now: int) returns (reply: Reply)
      requires Valid()
      modifies this
      ensures Valid() && Extends(old(Snapshot()), Snapshot())
      ensures Handled(Snapshot(), reply) == UpdateChat(old(Snapshot()), form, now, encode)
    {
      Properties.UpdateChatKeepsInvariants(Snapshot(), form, now, encode);
      if form.chatroomId.None? {
        return Json(400, Said("room id is none"), NoBody);
      }
      if form.sender.None? {
        return Json(400, Said("senderId is none"), NoBody);
      }
      var roomId := form.chatroomId.value;
      var chat := if roomId in cache then Some(cache[roomId]) else None;
      if chat.None? {
        return Json(400, Said("room does not exist"), NoBody);
      }
      if form.uploads.None? {
        return Redirect("No file part");
      }
      var scan := CollectFiles(form.uploads.value);
      match scan {
        case NoSelectedFile =>
          return Redirect("No selected file");
        case Unsupported =>
          return Json(400, Said("file does not support"), FileName("file"));
        case Files(files) =>
          var data := Record(form.sender, form.message, now, FilesField(files));
          var room := chat.value;
          cache := cache[roomId := room.(messages := room.messages + [data])];
          var encoded := encode(roomId, form.message);
          if encoded.None? {
            return Json(400, ExceptionText, ErrorDetail);
          }
          store := PushMessage(store, roomId, data.(message := encoded));
          reply := Json(200, Said("message_updated"), NoBody);
      }
    }

    /** The `send_message` socket event. */
    method HandleSendMessage(ev: Payload, now: int)
      requires Valid()
      modifies this
      ensures Valid() && Extends(old(Snapshot()), Snapshot())
      ensures Snapshot() == Send(old(Snapshot()), ev, now, encode)
    {
      Properties.SendKeepsInvariants(Snapshot(), ev, now, encode);
      if ev.username.Absent? || ev.room.Absent? || ev.message.Absent? {
        return;
      }
      if !ev.room.Str? {
        return;
      }
      notices := notices + (if Get(ev.room).None? then [Notice(RoomIdMismatch, SendMessage, Some(400), Get(ev.room), Get(ev.username))] else []);
      assert Snapshot() == CheckRoom(old(Snapshot()), ev);
      if ev.username.Null? {
        notices := notices + [Notice(SenderIdMismatch, SendMessage, Some(400), Some(ev.room.s), None)];
      }
      assert Snapshot() == CheckSender(CheckRoom(old(Snapshot()), ev), ev);
      DeliverMessage(ev, now);
    }

    /** The read-through lookup and the dual write of send_message. */
    method DeliverMessage(ev: Payload, now: int)
      requires Routable(ev)
      modifies this
      ensures Snapshot() == Deliver(old(Snapshot()), ev, now, encode)
    {
      var roomId := ev.room.s;
      var sender := Get(ev.username);
      var chat := if roomId in cache then Some(cache[roomId]) else None;
      if chat.None? {
        chat := if roomId in store then Some(store[roomId]) else None;
      }
      if chat.Some? {
        var room := chat.value;
        cache := cache[roomId := room.(messages := room.messages + [Raw(ev)])];
        var encoded := encode(roomId, Get(ev.message));
        if encoded.None? {
          notices := notices + [Notice(Raised, SendMessage, None, Some(roomId), sender)];
          return;
        }
        store := PushMessage(store, roomId, Record(sender, encoded, now, None));
        broadcasts := broadcasts + [Broadcast(ReceiveMessage, ev, roomId)];
      }
    }

    /** The `join_room` socket event. */
    method HandleJoinRoom(ev: Payload, now: int)
      requires Valid()
      modifies this
      ensures Valid() && Extends(old(Snapshot()), Snapshot())
      ensures Snapshot() == Join(old(Snapshot()), ev, now)
    {
      Attend(ev, now, Joining);
    }

    /** The `leave_room` socket event. */
    method HandleLeaveRoom(ev: Payload, now: int)
      requires Valid()
      modifies this
      ensures Valid() && Extends(old(Snapshot()), Snapshot())
      ensures Snapshot() == Leave(old(Snapshot()), ev, now)
    {
      Attend(ev, now, Leaving);
    }

    /** The role dispatch shared by join_room and leave_room. */
    method Attend(ev: Payload, now: int, dir: Direction)
      requires Valid()
      modifies this
      ensures Valid() && Extends(old(Snapshot()), Snapshot())
      ensures Snapshot() == Engine.Attend(old(Snapshot()), ev, now, dir)
    {
      Properties.AttendKeepsInvariants(Snapshot(), ev, now, dir);
      if ev.username.Absent? || ev.room.Absent? || ev.accountType.Absent? {
        return;
      }
      var source := SourceOf(dir);
      var announcement := Announcement(dir);
      if ev.accountType == Str("doctor") {
        if ev.username.Null? {
          return;
        }
        if ev.room.Str? && ev.room.s in store && store[ev.room.s].doctorId == ev.username.s {
          var roomId := ev.room.s;
          store := PushHistory(store, roomId, MembershipEvent(dir, now));
          subscriptions := subscriptions + [Attendance(dir, roomId)];
          broadcasts := broadcasts + [Broadcast(announcement, ev, roomId)];
        } else {
          notices := notices + [Notice(RoomIdMismatch, source, Some(400), Get(ev.room), Get(ev.username))];
        }
      } else if ev.accountType == Str("client") {
        if ev.room.Str? && ev.username.Str? && ev.room.s in store && store[ev.room.s].clientId == ev.username.s {
          var roomId := ev.room.s;
          subscriptions := subscriptions + [Attendance(dir, roomId)];
          broadcasts := broadcasts + [Broadcast(announcement, ev, roomId)];
        } else {
          notices := notices + [Notice(RoomIdMismatch, source, Some(400), Get(ev.room), Get(ev.username))];
        }
      } else {
        notices := notices + [Notice(AccountTypeMismatch, source, Some(400), Get(ev.room), Get(ev.username))];
      }
    }

    /** The `typing` socket event (the second handler named handle_join_room_event). */
    method HandleTyping(ev: Payload)
      requires Valid()
      modifies this
      ensures Valid() && Extends(old(Snapshot()), Snapshot())
      ensures Snapshot() == TypingEvent(old(Snapshot()), ev)
    {
      Properties.TypingKeepsInvariants(Snapshot(), ev);
      if ev.username.Absent? || ev.room.Absent? || ev.accountType.Absent? {
        return;
      }
      if ev.room.Str? && ev.room.s in store {
        broadcasts := broadcasts + [Broadcast(PersonTyping, ev, ev.room.s)];
      } else {
        notices := notices + [Notice(RoomIdMismatch, Typing, Some(400), Get(ev.room), Get(ev.username))];
      }
    }
  }
}
