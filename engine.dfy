/** What each handler of main.py does to the two room tables and the two
    outboxes, as a function of the state before it. The class in Server
    performs the same steps in place and is proved equal to these. */
module Engine {
  import opened Rooms
  import opened Uploads

  /** translate_message_for_mongo(roomId, message): the stored form of a
      message body. None stands for the codec raising. */
  type Codec = (string, Option<string>) -> Option<string>

  /** The socket events the handlers emit to a room. */
  datatype Outbound = ReceiveMessage | JoinRoomAnnouncement | PersonTyping | LeaveRoomAnnouncement

  datatype Broadcast = Broadcast(event: Outbound, payload: Payload, room: string)

  /** The handler an error notification names as its source. */
  datatype Source = SendMessage | JoinRoom | Typing | LeaveRoom

  /** The error codes the handlers send; Raised is the text of a caught exception. */
  datatype ErrorCode = RoomIdMismatch | SenderIdMismatch | AccountTypeMismatch | Raised

  /** One `send_response(error_message(code, source, _, status), room, user)`. */
  datatype Notice = Notice(code: ErrorCode, source: Source, status: Option<int>,
                           room: Option<string>, user: Option<string>)

  /** flask_socketio's join_room / leave_room for the calling connection. */
  datatype Subscription = Enter(room: string) | Exit(room: string)

  /** The cache, the store and the outboxes. `store` maps a room id to the
      document a query on that id reaches; `duplicates` holds the further
      documents inserted for an id that already had one. */
  datatype State = State(cache: map<string, Room>, store: map<string, Room>,
                         duplicates: seq<(string, Room)>,
                         broadcasts: seq<Broadcast>, notices: seq<Notice>,
                         subscriptions: seq<Subscription>)

  datatype Text = Said(s: string) | ExceptionText

  datatype Body = NoBody | ChatroomId(id: string) | CreatedRoom(id: string, room: Room)
                | ErrorDetail | FileName(name: string)

  /** What an HTTP handler returns: `return_response(body, text, status)`, or a
      redirect after flashing a message. */
  datatype Reply = Json(status: int, text: Text, body: Body) | Redirect(flash: string)

  datatype Handled = Handled(state: State, reply: Reply)

  /** The JSON body of POST /create_chatroom; NotJson is a body whose `.get` raises. */
  datatype CreateRequest = NotJson | JsonBody(doctorId: Option<string>, clientId: Option<string>)

  /** The form of POST /update_message; `uploads` is None when there is no `file` part. */
  datatype UpdateForm = UpdateForm(chatroomId: Option<string>, sender: Option<string>,
                                   message: Option<string>, uploads: Option<seq<Upload>>)

  /** Whether a joining or a leaving handler runs. */
  datatype Direction = Joining | Leaving

  // ---------------------------------------------------------------------
  // Table operations

  /** `$push` of `m` onto `messages` of the document with this id; no document, no change. */
  function PushMessage(store: map<string, Room>, id: string, m: Message): map<string, Room>
  {
    if id in store then store[id := store[id].(messages := store[id].messages + [m])] else store
  }

  /** `$push` of `e` onto `history` of the document with this id. */
  function PushHistory(store: map<string, Room>, id: string, e: Membership): map<string, Room>
  {
    if id in store then store[id := store[id].(history := store[id].history + [e])] else store
  }

  /** insert of a new document: a second document for an id goes beside the first. */
  function Insert(s: State, id: string, room: Room): State
  {
    if id in s.store then s.(duplicates := s.duplicates + [(id, room)])
    else s.(store := s.store[id := room])
  }

  function Notify(s: State, n: Notice): State
  {
    s.(notices := s.notices + [n])
  }

  function Emit(s: State, b: Broadcast): State
  {
    s.(broadcasts := s.broadcasts + [b])
  }

  /** the get_chatroom_chats lookup, falling back to the store on a miss */
  function ReadThrough(s: State, id: string): Option<Room>
  {
    if id in s.cache then Some(s.cache[id])
    else if id in s.store then Some(s.store[id])
    else None
  }

  /** `isFile` is set inside the loop, so only when at least one file went through. */
  function FilesField(files: seq<Attachment>): Option<seq<Attachment>>
  {
    if files == [] then None else Some(files)
  }

  // ---------------------------------------------------------------------
  // Handlers

  /** POST /create_chatroom at creation time `createdAt`. */
  function Create(s: State, req: CreateRequest, createdAt: string): Handled
  {
    match req
    case NotJson => Handled(s, Json(400, ExceptionText, ErrorDetail))
    case JsonBody(doctor, client) =>
      if doctor.None? then Handled(s, Json(400, Said("doctor id is none"), NoBody))
      else if client.None? then Handled(s, Json(400, Said("client id is none"), NoBody))
      else
        var id := RoomId(doctor.value, client.value);
        if id in s.cache then Handled(s, Json(200, Said("room already exist"), ChatroomId(id)))
        else
          var room := NewRoom(doctor.value, client.value, createdAt);
          Handled(Insert(s.(cache := s.cache[id := room]), id, room),
                  Json(200, Said("Success"), CreatedRoom(id, room)))
  }

  /** POST /update_message at time `now`. */
  function UpdateChat(s: State, form: UpdateForm, now: int, encode: Codec): Handled
  {
    if form.chatroomId.None? then Handled(s, Json(400, Said("room id is none"), NoBody))
    else if form.sender.None? then Handled(s, Json(400, Said("senderId is none"), NoBody))
    else
      var id := form.chatroomId.value;
      if id !in s.cache then Handled(s, Json(400, Said("room does not exist"), NoBody))
      else if form.uploads.None? then Handled(s, Redirect("No file part"))
      else
        match ScanUploads(form.uploads.value)
        case NoSelectedFile => Handled(s, Redirect("No selected file"))
        case Unsupported => Handled(s, Json(400, Said("file does not support"), FileName("file")))
        case Files(files) =>
          var record := Record(form.sender, form.message, now, FilesField(files));
          var room := s.cache[id];
          var s1 := s.(cache := s.cache[id := room.(messages := room.messages + [record])]);
          var encoded := encode(id, form.message);
          if encoded.None? then Handled(s1, Json(400, ExceptionText, ErrorDetail))
          else Handled(s1.(store := PushMessage(s1.store, id, record.(message := encoded))),
                       Json(200, Said("message_updated"), NoBody))
  }

  /** A payload that gets past the log line, which reads data['username'],
      data['room'] and data['message'] outside the try, and past the room check. */
  predicate Routable(ev: Payload)
  {
    !ev.username.Absent? && !ev.message.Absent? && ev.room.Str?
  }

  /** The `send_message` socket event at time `now`. */
  function Send(s: State, ev: Payload, now: int, encode: Codec): State
  {
    if !Routable(ev) then s else Deliver(CheckSender(CheckRoom(s, ev), ev), ev, now, encode)
  }

  /** The room-id check inside the try: a null room is reported. */
  function CheckRoom(s: State, ev: Payload): State
  {
    if Get(ev.room).None? then Notify(s, Notice(RoomIdMismatch, SendMessage, Some(400), Get(ev.room), Get(ev.username)))
    else s
  }

  /** A null username is reported, and processing goes on. */
  function CheckSender(s: State, ev: Payload): State
    requires Routable(ev)
  {
    if ev.username.Null? then Notify(s, Notice(SenderIdMismatch, SendMessage, Some(400), Some(ev.room.s), None))
    else s
  }

  /** The read-through lookup and the dual write of send_message. */
  function Deliver(s: State, ev: Payload, now: int, encode: Codec): State
    requires Routable(ev)
  {
    var id := ev.room.s;
    var sender := Get(ev.username);
    match ReadThrough(s, id)
    case None => s
    case Some(room) =>
      var s1 := s.(cache := s.cache[id := room.(messages := room.messages + [Raw(ev)])]);
      var encoded := encode(id, Get(ev.message));
      if encoded.None? then Notify(s1, Notice(Raised, SendMessage, None, Some(id), sender))
      else Emit(s1.(store := PushMessage(s1.store, id, Record(sender, encoded, now, None))),
                Broadcast(ReceiveMessage, ev, id))
  }

  /** The store query of join_room / leave_room for a doctor: room and doctorId. */
  predicate DoctorMatches(s: State, ev: Payload)
  {
    ev.room.Str? && ev.username.Str? && ev.room.s in s.store
    && s.store[ev.room.s].doctorId == ev.username.s
  }

  /** The store query for a client: room and clientId (a null username matches no document). */
  predicate ClientMatches(s: State, ev: Payload)
  {
    ev.room.Str? && ev.username.Str? && ev.room.s in s.store
    && s.store[ev.room.s].clientId == ev.username.s
  }

  /** The handler name a join or leave notification carries. */
  function SourceOf(dir: Direction): Source
  {
    if dir == Joining then JoinRoom else LeaveRoom
  }

  /** The history entry a doctor's join or leave pushes. */
  function MembershipEvent(dir: Direction, now: int): Membership
  {
    if dir == Joining then CheckIn(now) else CheckOut(now)
  }

  /** The event announced to the room. */
  function Announcement(dir: Direction): Outbound
  {
    if dir == Joining then JoinRoomAnnouncement else LeaveRoomAnnouncement
  }

  /** join_room or leave_room of the calling connection. */
  function Attendance(dir: Direction, id: string): Subscription
  {
    if dir == Joining then Enter(id) else Exit(id)
  }

  /** The `join_room` (Joining) and `leave_room` (Leaving) socket events at time `now`. */
  function Attend(s: State, ev: Payload, now: int, dir: Direction): State
  {
    var source := SourceOf(dir);
    var mismatch := Notice(RoomIdMismatch, source, Some(400), Get(ev.room), Get(ev.username));
    if ev.username.Absent? || ev.room.Absent? || ev.accountType.Absent? then s
    else if ev.accountType == Str("doctor") then
      if ev.username.Null? then s
      else if DoctorMatches(s, ev) then
        var id := ev.room.s;
        s.(store := PushHistory(s.store, id, MembershipEvent(dir, now)),
           subscriptions := s.subscriptions + [Attendance(dir, id)],
           broadcasts := s.broadcasts + [Broadcast(Announcement(dir), ev, id)])
      else Notify(s, mismatch)
    else if ev.accountType == Str("client") then
      if ClientMatches(s, ev) then
        var id := ev.room.s;
        s.(subscriptions := s.subscriptions + [Attendance(dir, id)],
           broadcasts := s.broadcasts + [Broadcast(Announcement(dir), ev, id)])
      else Notify(s, mismatch)
    else Notify(s, Notice(AccountTypeMismatch, source, Some(400), Get(ev.room), Get(ev.username)))
  }

  function Join(s: State, ev: Payload, now: int): State
  {
    Attend(s, ev, now, Joining)
  }

  function Leave(s: State, ev: Payload, now: int): State
  {
    Attend(s, ev, now, Leaving)
  }

  /** The `typing` socket event. */
  function TypingEvent(s: State, ev: Payload): State
  {
    if ev.username.Absent? || ev.room.Absent? || ev.accountType.Absent? then s
    else if ev.room.Str? && ev.room.s in s.store then Emit(s, Broadcast(PersonTyping, ev, ev.room.s))
    else Notify(s, Notice(RoomIdMismatch, Typing, Some(400), Get(ev.room), Get(ev.username)))
  }

  // ---------------------------------------------------------------------
  // Invariants

  /** Every document sits under the id its two participants determine. */
  predicate WellKeyed(rooms: map<string, Room>)
  {
    forall id :: id in rooms ==> id == RoomId(rooms[id].doctorId, rooms[id].clientId)
  }

  predicate Valid(s: State)
  {
    && WellKeyed(s.cache)
    && WellKeyed(s.store)
    && forall i :: 0 <= i < |s.duplicates| ==>
         s.duplicates[i].0 == RoomId(s.duplicates[i].1.doctorId, s.duplicates[i].1.clientId)
  }

  /** `b` is `a` with messages and history entries only appended. */
  predicate RoomExtends(a: Room, b: Room)
  {
    && b.doctorId == a.doctorId && b.clientId == a.clientId && b.createdAt == a.createdAt
    && a.messages <= b.messages && a.history <= b.history
  }

  predicate TableExtends(a: map<string, Room>, b: map<string, Room>)
  {
    forall id :: id in a ==> id in b && RoomExtends(a[id], b[id])
  }

  /** Nothing is ever deleted: every room stays, only grows, and every outbox only grows. */
  predicate Extends(s: State, t: State)
  {
    && TableExtends(s.cache, t.cache)
    && TableExtends(s.store, t.store)
    && s.duplicates <= t.duplicates
    && s.broadcasts <= t.broadcasts
    && s.notices <= t.notices
    && s.subscriptions <= t.subscriptions
  }
}
