/** tools/love_remove_background.py: the same five iLoveImg steps inlined in the tool, with
    the token fetched once and handed explicitly to every later step, and each outcome
    reported as an ordered stream of messages. */
module LoveRemoveBackground {
  import opened Values
  import opened IloveImgApi
  import LoveHelpers

  const CompletedMessage := "Background removal completed successfully"

  /** _get_access_token: the credential lookup raises inside the try when the plugin has no
      public key configured, which gives None before anything is sent. */
  function GetAccessToken(script: seq<Reply>, w: Wire, credential: Option<string>): (s: Step<Option<string>>)
    ensures credential.None? ==> s == Step(None, w)
    ensures credential.Some? ==> s == Authenticate(script, w, credential.value)
  {
    if credential.None? then Step(None, w) else Authenticate(script, w, credential.value)
  }

  /** _poll_task_status: at most maxAttempts status requests, a pause after each pending one. */
  method PollTaskStatus(script: seq<Reply>, w: Wire, taskResult: Fields, token: string, maxAttempts: int)
    returns (result: Option<Fields>, wire: Wire)
    ensures Step(result, wire) == Poll(script, w, taskResult, token, maxAttempts)
  {
    wire := w;
    var taskId := Get(taskResult, "task");
    if !Truthy(taskId) {
      return None, wire;
    }
    var attempt := 0;
    while attempt < maxAttempts
      invariant 0 <= attempt
      invariant PollLoop(script, w, token, taskId.value, maxAttempts) ==
                PollLoop(script, wire, token, taskId.value, maxAttempts - attempt)
    {
      var reply := Answer(script, wire);
      wire := Send(wire, StatusRequest(token, taskId.value));
      if IsOk(reply) {
        var status := Get(reply.fields, "status");
        if status == Some("Success") {
          return Some(reply.fields), wire;
        } else if status == Some("Error") {
          return None, wire;
        }
        wire := wire.(pauses := wire.pauses + 1);
      } else {
        return None, wire;
      }
      attempt := attempt + 1;
    }
    return None, wire;
  }

  /** The messages _invoke yields for an outcome: a text and a JSON error, or the success
      text, the processed file (always typed image/png) and the success JSON. */
  function Report(outcome: LoveHelpers.Outcome): (messages: seq<Message>)
    ensures outcome.Failed? ==> messages == ErrorMessages(outcome.message)
    ensures outcome.Completed? ==>
      |messages| == 3 && messages[0] == Text(CompletedMessage) &&
      messages[1] == File(outcome.processedFilename, outcome.data, "image/png") &&
      messages[2].Json? && "status" in messages[2].body && "processed_filename" in messages[2].body &&
      messages[2].body["status"] == JStr("success") &&
      messages[2].body["processed_filename"] == JStr(outcome.processedFilename)
  {
    match outcome
    case Failed(message) => ErrorMessages(message)
    case Completed(data, original, processed) =>
      [Text(CompletedMessage),
       File(processed, data, "image/png"),
       Json(map["status" := JStr("success"), "message" := JStr(CompletedMessage),
                "original_filename" := JStr(original), "processed_filename" := JStr(processed)])]
  }

  /** _invoke. With an image and a configured key it reports exactly what the helper
      pipeline remove_background_from_image computes, on the same wire: the inlined copy
      and the helper client agree on every script of replies. */
  method Invoke(image: Option<ImageFile>, credential: Option<string>, script: seq<Reply>)
    returns (messages: seq<Message>, wire: Wire)
    ensures image.None? ==> messages == ErrorMessages("No image file provided") && wire == Wire([], 0)
    ensures image.Some? && credential.None? ==>
      messages == ErrorMessages("Failed to get access token") && wire == Wire([], 0)
    ensures image.Some? && credential.Some? ==>
      var (outcome, w) := LoveHelpers.RemoveBackground(credential.value, script, image.value);
      messages == Report(outcome) && wire == w
  {
    wire := Wire([], 0);
    if image.None? {
      messages := ErrorMessages("No image file provided");
      return;
    }
    var file := image.value;
    var auth := GetAccessToken(script, wire, credential);
    wire := auth.wire;
    if !Truthy(auth.out) {
      messages := ErrorMessages("Failed to get access token");
      return;
    }
    var token := auth.out.value;
    var upload := Upload(script, wire, file, token);
    wire := upload.wire;
    if !Present(upload.out) {
      messages := ErrorMessages("Failed to upload image");
      return;
    }
    var task := CreateTask(script, wire, upload.out.value, token);
    wire := task.wire;
    if !Present(task.out) {
      messages := ErrorMessages("Failed to create remove background task");
      return;
    }
    var processed;
    processed, wire := PollTaskStatus(script, wire, task.out.value, token, DefaultMaxAttempts);
    if !Present(processed) {
      messages := ErrorMessages("Task processing failed or timeout");
      return;
    }
    var download := Download(script, wire, processed.value, token);
    wire := download.wire;
    if download.out.None? || download.out.value == [] {
      messages := ErrorMessages("Failed to download result");
      return;
    }
    messages := Report(LoveHelpers.Completed(download.out.value, file.filename,
                                             LoveHelpers.ProcessedPrefix + file.filename));
  }
}
