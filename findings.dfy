/** update_chat appends the `data` dict to the cached room and afterwards
    overwrites `data['message']` with the codec output for the store push
    (main.py:134-137). When the cache keeps the dict it is handed, rather
    than a copy, the cached record changes with it and the cache ends up
    holding the stored, encoded body. send_message keeps a separate dict for
    the store copy, which shows the intent: plaintext in the cache, the
    encoded body in the store. Engine.UpdateChat models that intent. */
module Findings {
  import opened Rooms
  import opened Uploads
  import opened Engine

  /** update_chat as written, with a cache that keeps the appended dict by reference. */
  function UpdateChatAsWritten(s: State, form: UpdateForm, now: int, encode: Codec): (h: Handled)
    ensures h.reply == UpdateChat(s, form, now, encode).reply
    ensures h.state.store == UpdateChat(s, form, now, encode).state.store
  {
    if form.chatroomId.None? then Handled(s, Json(400, Said("room id is none"), NoBody))
    else if form.sender.None? then Handled(s, Json(400, Said("senderId is none"), NoBody))
    else
      var id := form.chatroomId.value;
      if id !in s.cache then Handled(s, Json(400, Said("room does not exist"), NoBody))
      else if form.uploads.None? then Handled(s, Redirect("No file part"))
      else
        match ScanUploads(form.uploads.value)
        case NoSelectedFile => Handled(s, Redirect("No selected file"))
        case Unsupported => Handled(s, Json(400, Said("file does not support"), FileName("file")))
        case Files(files) =>
          var record := Record(form.sender, form.message, now, FilesField(files));
          var room := s.cache[id];
          var encoded := encode(id, form.message);
          if encoded.None? then
            Handled(s.(cache := s.cache[id := room.(messages := room.messages + [record])]),
                    Json(400, ExceptionText, ErrorDetail))
          else
            // the record in the cache is the dict whose message was just overwritten
            var shared := record.(message := encoded);
            Handled(s.(cache := s.cache[id := room.(messages := room.messages + [shared])],
                       store := PushMessage(s.store, id, shared)),
                    Json(200, Said("message_updated"), NoBody))
  }

  /** A message "hi" with one accepted file and a codec that encodes it as
      "aGk=": as written, the cache holds "aGk="; the corrected model keeps "hi". */
  lemma CachedCopyIsEncoded()
    ensures var room := NewRoom("d", "c", "2024-01-01");
            var s := State(map["d_c" := room], map["d_c" := room], [], [], [], []);
            var form := UpdateForm(Some("d_c"), Some("c"), Some("hi"),
                                   Some([Upload("scan.png", "image/png", true, "https://files/scan.png")]));
            var encode: Codec := (id: string, m: Option<string>) => Some("aGk=");
            && UpdateChatAsWritten(s, form, 0, encode).state.cache["d_c"].messages[0].message == Some("aGk=")
            && UpdateChat(s, form, 0, encode).state.cache["d_c"].messages[0].message == Some("hi")
  {
  }

  /** In general, as written, every successful update leaves the cache's new
      record equal to the store's, encoded body included. */
  lemma AsWrittenCacheMirrorsStore(s: State, form: UpdateForm, now: int, encode: Codec)
    requires form.chatroomId.Some? && form.sender.Some? && form.chatroomId.value in s.cache
    requires form.chatroomId.value in s.store
    requires form.uploads.Some? && ScanUploads(form.uploads.value).Files?
    requires encode(form.chatroomId.value, form.message).Some?
    ensures var id, t := form.chatroomId.value, UpdateChatAsWritten(s, form, now, encode).state;
            var cached, stored := t.cache[id].messages, t.store[id].messages;
            cached[|cached| - 1] == stored[|stored| - 1]
            && cached[|cached| - 1].message == encode(id, form.message)
  {
  }
}
