/** The data the chat-room handlers of main.py pass around: socket event
    payloads, room documents, messages and membership events, and the
    deterministic room id built from the two participants. */
module Rooms {

  datatype Option<+T> = None | Some(value: T)

  /** One key of a socket event dict: missing, present with JSON null, or a string.
      `data['k']` raises on Absent; `data.get('k')` gives None for Absent and Null. */
  datatype Field = Absent | Null | Str(s: string)

  /** `data.get(key)` */
  function Get(f: Field): Option<string>
  {
    if f.Str? then Some(f.s) else None
  }

  /** The dict a socket event carries; handlers broadcast it verbatim. */
  datatype Payload = Payload(room: Field, username: Field, message: Field, accountType: Field)

  /** An uploaded file as the room records it: content type and external URL. */
  datatype Attachment = Attachment(contentType: string, url: string)

  datatype Message =
      /** a socket payload appended as is (the cache side of send_message) */
    | Raw(payload: Payload)
      /** a {sender, message, time, isFile?} record; `files` is None when `isFile` is not set */
    | Record(sender: Option<string>, message: Option<string>, time: int, files: Option<seq<Attachment>>)

  /** One entry of a room's `history` array. */
  datatype Membership = CheckIn(time: int) | CheckOut(time: int)

  /** A room document. A room written by create_chatroom has no `history` key;
      an empty sequence stands for it, which a `$push` treats the same way. */
  datatype Room = Room(doctorId: string, clientId: string, createdAt: string,
                       messages: seq<Message>, history: seq<Membership>)

  const SEPARATOR: char := '_'

  /** The room id create_chatroom builds: f"{doctor}_{client}". */
  function RoomId(doctor: string, client: string): string
  {
    doctor + [SEPARATOR] + client
  }

  /** A fresh room document as create_chatroom saves it. */
  function NewRoom(doctor: string, client: string, createdAt: string): Room
  {
    Room(doctor, client, createdAt, [], [])
  }

  /** Index of the first separator in `id`, or |id| when there is none. */
  function FirstSeparator(id: string): (k: nat)
    ensures k <= |id|
    ensures forall i :: 0 <= i < k ==> id[i] != SEPARATOR
    ensures k < |id| ==> id[k] == SEPARATOR
  {
    if id == [] then 0
    else if id[0] == SEPARATOR then 0
    else 1 + FirstSeparator(id[1..])
  }

  /** Reads a room id back as (doctor, client), splitting at the first separator. */
  function SplitRoomId(id: string): Option<(string, string)>
  {
    var k := FirstSeparator(id);
    if k < |id| then Some((id[..k], id[k + 1..])) else None
  }

  /** SplitRoomId inverts RoomId for every doctor id without a separator. */
  lemma RoomIdRoundTrip(doctor: string, client: string)
    requires SEPARATOR !in doctor
    ensures SplitRoomId(RoomId(doctor, client)) == Some((doctor, client))
  {
    var id := RoomId(doctor, client);
    assert id[|doctor|] == SEPARATOR;
    assert forall i :: 0 <= i < |doctor| ==> id[i] == doctor[i];
    assert FirstSeparator(id) == |doctor|;
    assert id[..|doctor|] == doctor;
    assert id[|doctor| + 1..] == client;
  }

  /** Over doctor ids without a separator, the room id determines the pair. */
  lemma RoomIdInjective(d1: string, c1: string, d2: string, c2: string)
    requires SEPARATOR !in d1 && SEPARATOR !in d2
    requires RoomId(d1, c1) == RoomId(d2, c2)
    ensures d1 == d2 && c1 == c2
  {
    RoomIdRoundTrip(d1, c1);
    RoomIdRoundTrip(d2, c2);
  }

  /** Over ids without a separator the id is order-sensitive: swapping the
      two participants gives another room. */
  lemma RoomIdOrderSensitive(doctor: string, client: string)
    requires SEPARATOR !in doctor && SEPARATOR !in client
    requires doctor != client
    ensures RoomId(doctor, client) != RoomId(client, doctor)
  {
    if RoomId(doctor, client) == RoomId(client, doctor) {
      RoomIdInjective(doctor, client, client, doctor);
    }
  }

  /** With separators inside the ids, two different pairs share one room id. */
  lemma RoomIdCollision()
    ensures ("a_b", "c") != ("a", "b_c")
    ensures RoomId("a_b", "c") == RoomId("a", "b_c")
  {
  }

  /** With separators inside the ids, swapping two different participants can
      give the same room id. */
  lemma RoomIdSwapCollision()
    ensures "x" != "x_x"
    ensures RoomId("x", "x_x") == RoomId("x_x", "x")
  {
  }
}
