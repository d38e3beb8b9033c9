/** Values shared by every tool: optional and fallible results, bytes, the JSON values the
    tools put into their reports, and the messages they hand to the plugin host. */
module Values {

  datatype Option<+T> = None | Some(value: T)

  datatype Result<+T, +E> = Ok(value: T) | Err(error: E)

  newtype byte = x: int | 0 <= x < 256

  /** A JSON value as Python's json module would serialise it; an int and a float stay apart. */
  datatype JValue =
    | JNull
    | JBool(b: bool)
    | JInt(i: int)
    | JReal(r: real)
    | JStr(s: string)
    | JList(items: seq<JValue>)
    | JObject(fields: map<string, JValue>)

  type JsonObject = map<string, JValue>

  /** The host's message kinds: create_text_message, create_json_message,
      create_blob_message (with filename and mime_type in its meta) and create_file_message. */
  datatype Message =
    | Text(text: string)
    | Json(body: JsonObject)
    | Blob(data: seq<byte>, filename: string, mimeType: string)
    | File(filename: string, data: seq<byte>, mimeType: string)

  /** The pair every tool yields on an error: the message as text, then as a JSON status. */
  function ErrorMessages(message: string): seq<Message>
  {
    [Text(message), Json(map["status" := JStr("error"), "message" := JStr(message)])]
  }
}
