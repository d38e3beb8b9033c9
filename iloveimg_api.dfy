/** The iLoveImg REST protocol as both clients in the repository speak it: the replies the
    service gives, the requests a client issues, and each step's single exchange with the
    bearer token passed in explicitly (the form tools/love_remove_background.py uses; the
    helper client in utils/love_helpers.py wraps the same steps in lazy authentication). */
module IloveImgApi {
  import opened Values

  /** A JSON object body, as the string-valued fields the clients read from it. */
  type Fields = map<string, string>

  datatype ImageFile = ImageFile(filename: string, blob: seq<byte>, mimeType: string)

  /** What one HTTP call yields. `Raised` stands for every way `requests` raises: no connection,
      a timeout, a 4xx or 5xx status through raise_for_status, or a body that is not JSON.
      Otherwise the status code, the body's JSON fields and its raw content. */
  datatype Reply = Raised | Reply(code: int, fields: Fields, content: seq<byte>)

  datatype Request =
    | AuthRequest(publicKey: string)
    | UploadRequest(token: string, file: ImageFile)
    | TaskRequest(token: string, serverFilename: Option<string>, tool: string)
    | StatusRequest(token: string, taskId: string)
    | DownloadRequest(token: string, url: string)

  /** What the service has seen of one client so far: its requests in order, and the pauses
      it took between polls (time.sleep(2) each). */
  datatype Wire = Wire(sent: seq<Request>, pauses: nat)

  /** A step's result together with the wire after it. */
  datatype Step<T> = Step(out: T, wire: Wire)

  const DefaultMaxAttempts := 30
  const RemoveBackgroundTool := "removebg"

  /** dict.get(key) on a body. */
  function Get(fields: Fields, key: string): Option<string>
  {
    if key in fields then Some(fields[key]) else None
  }

  /** Python truthiness of an optional string: present and non-empty. */
  predicate Truthy(v: Option<string>)
  {
    v.Some? && v.value != ""
  }

  /** Python truthiness of an optional dict: present and non-empty. */
  predicate Present(body: Option<Fields>)
  {
    body.Some? && body.value != map[]
  }

  predicate IsOk(reply: Reply)
  {
    reply.Reply? && reply.code == 200
  }

  /** The scripted service: its answer to a client's n-th request (counting from 0);
      once the script runs out, every call fails to connect. */
  function ReplyAt(script: seq<Reply>, n: nat): Reply
  {
    if n < |script| then script[n] else Raised
  }

  function Answer(script: seq<Reply>, w: Wire): Reply
  {
    ReplyAt(script, |w.sent|)
  }

  function Send(w: Wire, request: Request): Wire
  {
    w.(sent := w.sent + [request])
  }

  /** GET /v1/auth with the public key; the body's access_token on a 200 reply
      (None when the field is missing), None otherwise. */
  function Authenticate(script: seq<Reply>, w: Wire, publicKey: string): (s: Step<Option<string>>)
    ensures s.wire == Send(w, AuthRequest(publicKey))
    ensures IsOk(Answer(script, w)) ==> s.out == Get(Answer(script, w).fields, "access_token")
    ensures !IsOk(Answer(script, w)) ==> s.out == None
  {
    var reply := Answer(script, w);
    Step(if IsOk(reply) then Get(reply.fields, "access_token") else None, Send(w, AuthRequest(publicKey)))
  }

  /** POST /v1/upload: the whole body on a 200 reply. */
  function Upload(script: seq<Reply>, w: Wire, file: ImageFile, token: string): (s: Step<Option<Fields>>)
    ensures s.wire == Send(w, UploadRequest(token, file))
    ensures s.out.Some? <==> IsOk(Answer(script, w))
    ensures s.out.Some? ==> s.out.value == Answer(script, w).fields
  {
    var reply := Answer(script, w);
    Step(if IsOk(reply) then Some(reply.fields) else None, Send(w, UploadRequest(token, file)))
  }

  /** POST /v1/task with {server_filename: <from the upload body>, tool: "removebg"}. */
  function CreateTask(script: seq<Reply>, w: Wire, uploadResult: Fields, token: string): (s: Step<Option<Fields>>)
    ensures s.wire.pauses == w.pauses
    ensures s.wire.sent == w.sent + [TaskRequest(token, Get(uploadResult, "server_filename"), "removebg")]
    ensures s.out.Some? <==> IsOk(Answer(script, w))
    ensures s.out.Some? ==> s.out.value == Answer(script, w).fields
  {
    var reply := Answer(script, w);
    var request := TaskRequest(token, Get(uploadResult, "server_filename"), RemoveBackgroundTool);
    Step(if IsOk(reply) then Some(reply.fields) else None, Send(w, request))
  }

  /** A reply after which polling goes on: a 200 whose status is neither "Success" nor "Error". */
  predicate Pending(reply: Reply)
  {
    IsOk(reply) && Get(reply.fields, "status") != Some("Success") && Get(reply.fields, "status") != Some("Error")
  }

  /** The script's replies at positions from .. from + count - 1 all keep polling going. */
  predicate PendingRun(script: seq<Reply>, from: nat, count: nat)
  {
    forall i :: from <= i < from + count ==> Pending(ReplyAt(script, i))
  }

  predicate Succeeded(reply: Reply)
  {
    IsOk(reply) && Get(reply.fields, "status") == Some("Success")
  }

  /** The poll loop with `left` attempts to go: GET /v1/task/<id>; the body on "Success",
      None on "Error" or a non-200 reply, a pause and another attempt on any other status,
      None once the attempts are used up. */
  function PollLoop(script: seq<Reply>, w: Wire, token: string, taskId: string, left: int): (s: Step<Option<Fields>>)
    ensures s.out.Some? ==> "status" in s.out.value && s.out.value["status"] == "Success"
    ensures w.sent <= s.wire.sent && w.pauses <= s.wire.pauses
    decreases left
  {
    if left <= 0 then Step(None, w)
    else
      var reply := Answer(script, w);
      var w' := Send(w, StatusRequest(token, taskId));
      if !IsOk(reply) then Step(None, w')
      else if Get(reply.fields, "status") == Some("Success") then Step(Some(reply.fields), w')
      else if Get(reply.fields, "status") == Some("Error") then Step(None, w')
      else PollLoop(script, w'.(pauses := w'.pauses + 1), token, taskId, left - 1)
  }

  /** Polling a task: nothing is sent without a task id. */
  function Poll(script: seq<Reply>, w: Wire, taskResult: Fields, token: string, maxAttempts: int): (s: Step<Option<Fields>>)
    ensures !Truthy(Get(taskResult, "task")) ==> s == Step(None, w)
    ensures Truthy(Get(taskResult, "task")) ==> s == PollLoop(script, w, token, Get(taskResult, "task").value, maxAttempts)
  {
    var taskId := Get(taskResult, "task");
    if !Truthy(taskId) then Step(None, w) else PollLoop(script, w, token, taskId.value, maxAttempts)
  }

  /** GET on the body's download URL: the raw content of a 200 reply; nothing is sent
      when the body has no download URL. */
  function Download(script: seq<Reply>, w: Wire, processed: Fields, token: string): (s: Step<Option<seq<byte>>>)
    ensures !Truthy(Get(processed, "download")) ==> s == Step(None, w)
    ensures Truthy(Get(processed, "download")) ==>
      s.wire == Send(w, DownloadRequest(token, processed["download"])) &&
      (s.out.Some? <==> IsOk(Answer(script, w))) &&
      (s.out.Some? ==> s.out.value == Answer(script, w).content)
  {
    var url := Get(processed, "download");
    if !Truthy(url) then Step(None, w)
    else
      var reply := Answer(script, w);
      Step(if IsOk(reply) then Some(reply.content) else None, Send(w, DownloadRequest(token, url.value)))
  }

  /** k identical status requests. */
  function Statuses(token: string, taskId: string, k: nat): seq<Request>
  {
    seq(k, _ => StatusRequest(token, taskId))
  }

  /** Every poll sends only status requests for its task, at most one per attempt, and pauses
      at most once per request; a poll that yields a body paused after every request but the last. */
  lemma {:induction false} PollLoopBounded(script: seq<Reply>, w: Wire, token: string, taskId: string, left: int)
    returns (k: nat)
    ensures var s := PollLoop(script, w, token, taskId, left);
      k <= (if left < 0 then 0 else left) &&
      s.wire.sent == w.sent + Statuses(token, taskId, k) &&
      w.pauses + (if k == 0 then 0 else k - 1) <= s.wire.pauses <= w.pauses + k &&
      (s.out.Some? ==> k >= 1 && s.wire.pauses == w.pauses + k - 1)
    decreases left
  {
    var s := PollLoop(script, w, token, taskId, left);
    if left <= 0 {
      k := 0;
      assert w.sent + Statuses(token, taskId, 0) == w.sent;
    } else {
      var reply := Answer(script, w);
      var w' := Send(w, StatusRequest(token, taskId));
      if Pending(reply) {
        var w'' := w'.(pauses := w'.pauses + 1);
        assert s == PollLoop(script, w'', token, taskId, left - 1);
        var rest := PollLoopBounded(script, w'', token, taskId, left - 1);
        k := rest + 1;
        assert [StatusRequest(token, taskId)] + Statuses(token, taskId, rest) == Statuses(token, taskId, k);
        assert s.wire.sent == w.sent + Statuses(token, taskId, k);
      } else {
        k := 1;
        assert s.wire.sent == w.sent + Statuses(token, taskId, 1);
      }
    }
  }

  /** Success on attempt k + 1: k + 1 requests, k pauses, and the successful reply's body. */
  lemma {:induction false} PollLoopSucceedsAt(script: seq<Reply>, w: Wire, token: string, taskId: string, left: int, k: nat)
    requires k < left
    requires PendingRun(script, |w.sent|, k)
    requires Succeeded(ReplyAt(script, |w.sent| + k))
    ensures PollLoop(script, w, token, taskId, left) ==
      Step(Some(ReplyAt(script, |w.sent| + k).fields), Wire(w.sent + Statuses(token, taskId, k + 1), w.pauses + k))
    decreases k
  {
    var w' := Send(w, StatusRequest(token, taskId));
    if k == 0 {
      assert w'.sent == w.sent + Statuses(token, taskId, 1);
    } else {
      assert Pending(ReplyAt(script, |w.sent|));
      var w'' := w'.(pauses := w'.pauses + 1);
      PollLoopSucceedsAt(script, w'', token, taskId, left - 1, k - 1);
      assert [StatusRequest(token, taskId)] + Statuses(token, taskId, k) == Statuses(token, taskId, k + 1);
    }
  }

  /** A reply that ends polling without a result: a 200 with status "Error", or not a 200. */
  predicate Aborts(reply: Reply)
  {
    !IsOk(reply) || Get(reply.fields, "status") == Some("Error")
  }

  /** "Error" or a non-200 reply on attempt k + 1: None at once, after k + 1 requests and k pauses. */
  lemma {:induction false} PollLoopFailsAt(script: seq<Reply>, w: Wire, token: string, taskId: string, left: int, k: nat)
    requires k < left
    requires PendingRun(script, |w.sent|, k)
    requires Aborts(ReplyAt(script, |w.sent| + k))
    ensures PollLoop(script, w, token, taskId, left) ==
      Step(None, Wire(w.sent + Statuses(token, taskId, k + 1), w.pauses + k))
    decreases k
  {
    var w' := Send(w, StatusRequest(token, taskId));
    if k == 0 {
      assert w'.sent == w.sent + Statuses(token, taskId, 1);
    } else {
      assert Pending(ReplyAt(script, |w.sent|));
      var w'' := w'.(pauses := w'.pauses + 1);
      PollLoopFailsAt(script, w'', token, taskId, left - 1, k - 1);
      assert [StatusRequest(token, taskId)] + Statuses(token, taskId, k) == Statuses(token, taskId, k + 1);
    }
  }

  /** No terminal status within the budget: None after exactly `left` requests and `left` pauses. */
  lemma {:induction false} PollLoopTimesOut(script: seq<Reply>, w: Wire, token: string, taskId: string, left: nat)
    requires PendingRun(script, |w.sent|, left)
    ensures PollLoop(script, w, token, taskId, left) ==
      Step(None, Wire(w.sent + Statuses(token, taskId, left), w.pauses + left))
    decreases left
  {
    if left == 0 {
      assert w.sent + Statuses(token, taskId, 0) == w.sent;
    } else {
      assert Pending(ReplyAt(script, |w.sent|));
      var w'' := Send(w, StatusRequest(token, taskId)).(pauses := w.pauses + 1);
      PollLoopTimesOut(script, w'', token, taskId, left - 1);
      assert [StatusRequest(token, taskId)] + Statuses(token, taskId, left - 1) == Statuses(token, taskId, left);
    }
  }

  /** A result comes back only from a "Success" reply, which is the last request sent. */
  lemma {:induction false} PollLoopResultIsSuccess(script: seq<Reply>, w: Wire, token: string, taskId: string, left: int)
    ensures var s := PollLoop(script, w, token, taskId, left);
      s.out.Some? ==>
        |s.wire.sent| > |w.sent| && Succeeded(ReplyAt(script, |s.wire.sent| - 1)) &&
        s.out.value == ReplyAt(script, |s.wire.sent| - 1).fields
    decreases left
  {
    if left > 0 && Pending(Answer(script, w)) {
      var w' := Send(w, StatusRequest(token, taskId));
      PollLoopResultIsSuccess(script, w'.(pauses := w'.pauses + 1), token, taskId, left - 1);
    }
  }

  /** The converse of PollLoopSucceedsAt: a poll that yields a body got it on some attempt
      k, after k - 1 pending replies, from a "Success" reply, with k requests and k - 1 pauses. */
  lemma {:induction false} PollLoopSucceeded(script: seq<Reply>, w: Wire, token: string, taskId: string, left: int)
    returns (k: nat)
    requires PollLoop(script, w, token, taskId, left).out.Some?
    ensures 1 <= k <= left
    ensures PendingRun(script, |w.sent|, k - 1) && Succeeded(ReplyAt(script, |w.sent| + k - 1))
    ensures PollLoop(script, w, token, taskId, left) ==
      Step(Some(ReplyAt(script, |w.sent| + k - 1).fields), Wire(w.sent + Statuses(token, taskId, k), w.pauses + k - 1))
    decreases left
  {
    if Succeeded(Answer(script, w)) {
      k := 1;
      PollLoopSucceedsAt(script, w, token, taskId, left, 0);
    } else {
      var w'' := Send(w, StatusRequest(token, taskId)).(pauses := w.pauses + 1);
      var j := PollLoopSucceeded(script, w'', token, taskId, left - 1);
      k := j + 1;
      forall i | |w.sent| <= i < |w.sent| + j
        ensures Pending(ReplyAt(script, i))
      {
        if i > |w.sent| {
          assert |w.sent| + 1 <= i < |w''.sent| + j - 1 + 1;
        }
      }
      PollLoopSucceedsAt(script, w, token, taskId, left, j);
    }
  }
}
