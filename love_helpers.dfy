/** utils/love_helpers.py: ILoveImgClient caches its access token in a field and, before
    each step, authenticates only when no usable token is cached; remove_background_from_image
    drives a fresh client through the five steps and stops at the first one that fails. */
module LoveHelpers {
  import opened Values
  import opened IloveImgApi

  /** What a client holds between calls: its cached token and its wire so far. */
  datatype Session = Session(token: Option<string>, wire: Wire)

  /** A step's result together with the session after it. */
  datatype Done<T> = Done(out: T, session: Session)

  /** get_access_token: on a 200 reply the body's access_token (None when missing) is both
      cached and returned; otherwise None comes back and the cached token is left as it was. */
  function FetchToken(publicKey: string, script: seq<Reply>, s: Session): (d: Done<Option<string>>)
    ensures d.session.wire == Send(s.wire, AuthRequest(publicKey))
    ensures IsOk(Answer(script, s.wire)) ==>
      d.out == Get(Answer(script, s.wire).fields, "access_token") && d.session.token == d.out
    ensures !IsOk(Answer(script, s.wire)) ==> d.out == None && d.session.token == s.token
  {
    var a := Authenticate(script, s.wire, publicKey);
    if IsOk(Answer(script, s.wire)) then Done(a.out, Session(a.out, a.wire))
    else Done(None, Session(s.token, a.wire))
  }

  /** The guard that opens each of the four later steps: with a usable token cached nothing
      happens; otherwise one auth request goes out, and the step may go on only if it
      leaves a usable token cached. */
  function EnsureToken(publicKey: string, script: seq<Reply>, s: Session): (d: Done<bool>)
    ensures Truthy(s.token) ==> d == Done(true, s)
    ensures !Truthy(s.token) ==> d.session.wire == Send(s.wire, AuthRequest(publicKey))
    ensures d.out <==> Truthy(d.session.token)
  {
    if Truthy(s.token) then Done(true, s)
    else
      var f := FetchToken(publicKey, script, s);
      Done(Truthy(f.out), f.session)
  }

  /** upload_image */
  function UploadStep(publicKey: string, script: seq<Reply>, s: Session, file: ImageFile): (d: Done<Option<Fields>>)
    ensures Truthy(s.token) ==>
      var u := Upload(script, s.wire, file, s.token.value); d == Done(u.out, s.(wire := u.wire))
    ensures var e := EnsureToken(publicKey, script, s);
      e.out ==> var u := Upload(script, e.session.wire, file, e.session.token.value);
                d == Done(u.out, e.session.(wire := u.wire))
    ensures var e := EnsureToken(publicKey, script, s);
      (!e.out ==> d == Done(None, e.session)) &&
      (e.out ==> d.session.token == e.session.token &&
                 d.session.wire == Send(e.session.wire, UploadRequest(e.session.token.value, file)))
  {
    var e := EnsureToken(publicKey, script, s);
    if !e.out then Done(None, e.session)
    else
      var u := Upload(script, e.session.wire, file, e.session.token.value);
      Done(u.out, e.session.(wire := u.wire))
  }

  /** create_remove_background_task */
  function TaskStep(publicKey: string, script: seq<Reply>, s: Session, uploadResult: Fields): (d: Done<Option<Fields>>)
    ensures Truthy(s.token) ==>
      var t := CreateTask(script, s.wire, uploadResult, s.token.value); d == Done(t.out, s.(wire := t.wire))
    ensures var e := EnsureToken(publicKey, script, s);
      e.out ==> var t := CreateTask(script, e.session.wire, uploadResult, e.session.token.value);
                d == Done(t.out, e.session.(wire := t.wire))
    ensures var e := EnsureToken(publicKey, script, s);
      (!e.out ==> d == Done(None, e.session)) &&
      (e.out ==> d.session.token == e.session.token &&
                 d.session.wire == Send(e.session.wire,
                   TaskRequest(e.session.token.value, Get(uploadResult, "server_filename"), "removebg")))
  {
    var e := EnsureToken(publicKey, script, s);
    if !e.out then Done(None, e.session)
    else
      var t := CreateTask(script, e.session.wire, uploadResult, e.session.token.value);
      Done(t.out, e.session.(wire := t.wire))
  }

  /** poll_task_status */
  function PollStep(publicKey: string, script: seq<Reply>, s: Session, taskResult: Fields, maxAttempts: int): (d: Done<Option<Fields>>)
    ensures Truthy(s.token) ==>
      var p := Poll(script, s.wire, taskResult, s.token.value, maxAttempts); d == Done(p.out, s.(wire := p.wire))
    ensures var e := EnsureToken(publicKey, script, s);
      e.out ==> var p := Poll(script, e.session.wire, taskResult, e.session.token.value, maxAttempts);
                d == Done(p.out, e.session.(wire := p.wire))
    ensures var e := EnsureToken(publicKey, script, s);
      (!e.out ==> d == Done(None, e.session)) &&
      (e.out && !Truthy(Get(taskResult, "task")) ==> d == Done(None, e.session)) &&
      (e.out ==> d.session.token == e.session.token)
  {
    var e := EnsureToken(publicKey, script, s);
    if !e.out then Done(None, e.session)
    else
      var p := Poll(script, e.session.wire, taskResult, e.session.token.value, maxAttempts);
      Done(p.out, e.session.(wire := p.wire))
  }

  /** download_result */
  function DownloadStep(publicKey: string, script: seq<Reply>, s: Session, processed: Fields): (d: Done<Option<seq<byte>>>)
    ensures Truthy(s.token) ==>
      var dl := Download(script, s.wire, processed, s.token.value); d == Done(dl.out, s.(wire := dl.wire))
    ensures var e := EnsureToken(publicKey, script, s);
      e.out ==> var dl := Download(script, e.session.wire, processed, e.session.token.value);
                d == Done(dl.out, e.session.(wire := dl.wire))
    ensures var e := EnsureToken(publicKey, script, s);
      (!e.out ==> d == Done(None, e.session)) &&
      (e.out && !Truthy(Get(processed, "download")) ==> d == Done(None, e.session)) &&
      (e.out && Truthy(Get(processed, "download")) ==>
         d.session.token == e.session.token &&
         d.session.wire == Send(e.session.wire, DownloadRequest(e.session.token.value, processed["download"])))
  {
    var e := EnsureToken(publicKey, script, s);
    if !e.out then Done(None, e.session)
    else
      var dl := Download(script, e.session.wire, processed, e.session.token.value);
      Done(dl.out, e.session.(wire := dl.wire))
  }

  /** The dictionary remove_background_from_image returns: an error with its step's message,
      or the processed bytes with the original and the derived file name. */
  datatype Outcome =
    | Failed(message: string)
    | Completed(data: seq<byte>, originalFilename: string, processedFilename: string)

  const ProcessedPrefix := "removed_background_"

  /** remove_background_from_image on a fresh client: what it returns and what it sent. */
  function RemoveBackground(publicKey: string, script: seq<Reply>, file: ImageFile): (r: (Outcome, Wire))
    ensures r.0.Failed? ==>
      r.0.message in {"Failed to get access token", "Failed to upload image", "Failed to create remove background task",
                      "Task processing failed or timeout", "Failed to download result"}
    ensures r.0.Completed? ==>
      r.0.data != [] && r.0.originalFilename == file.filename && r.0.processedFilename == ProcessedPrefix + file.filename
  {
    var a := FetchToken(publicKey, script, Session(None, Wire([], 0)));
    if !Truthy(a.out) then (Failed("Failed to get access token"), a.session.wire)
    else
      var u := UploadStep(publicKey, script, a.session, file);
      if !Present(u.out) then (Failed("Failed to upload image"), u.session.wire)
      else
        var t := TaskStep(publicKey, script, u.session, u.out.value);
        if !Present(t.out) then (Failed("Failed to create remove background task"), t.session.wire)
        else
          var p := PollStep(publicKey, script, t.session, t.out.value, DefaultMaxAttempts);
          if !Present(p.out) then (Failed("Task processing failed or timeout"), p.session.wire)
          else
            var dl := DownloadStep(publicKey, script, p.session, p.out.value);
            if dl.out.None? || dl.out.value == [] then (Failed("Failed to download result"), dl.session.wire)
            else (Completed(dl.out.value, file.filename, ProcessedPrefix + file.filename), dl.session.wire)
  }

  /** The token the first auth request of a fresh client yields. */
  function IssuedToken(publicKey: string, script: seq<Reply>): Option<string>
  {
    Authenticate(script, Wire([], 0), publicKey).out
  }

  /** Requests that are not auth requests and all carry the given bearer token. */
  predicate Bearing(requests: seq<Request>, token: string)
  {
    forall i :: 0 <= i < |requests| ==> !requests[i].AuthRequest? && requests[i].token == token
  }

  lemma BearingConcat(a: seq<Request>, b: seq<Request>, token: string)
    requires Bearing(a, token) && Bearing(b, token)
    ensures Bearing(a + b, token)
  {
    forall i | 0 <= i < |a + b|
      ensures !(a + b)[i].AuthRequest? && (a + b)[i].token == token
    {
      if i >= |a| {
        assert (a + b)[i] == b[i - |a|];
      }
    }
  }

  /** The status polls only append requests bearing the session's token: at most
      DefaultMaxAttempts of them, with fewer pauses than that plus one. */
  lemma PollStepBearing(publicKey: string, script: seq<Reply>, s: Session, taskResult: Fields)
    requires Truthy(s.token) && |s.wire.sent| >= 1 && Bearing(s.wire.sent[1..], s.token.value)
    ensures var p := PollStep(publicKey, script, s, taskResult, DefaultMaxAttempts);
      p.session.token == s.token &&
      |s.wire.sent| <= |p.session.wire.sent| <= |s.wire.sent| + DefaultMaxAttempts &&
      p.session.wire.pauses <= s.wire.pauses + DefaultMaxAttempts &&
      p.session.wire.sent[0] == s.wire.sent[0] &&
      Bearing(p.session.wire.sent[1..], s.token.value)
  {
    var token := s.token.value;
    var p := PollStep(publicKey, script, s, taskResult, DefaultMaxAttempts);
    var taskId := Get(taskResult, "task");
    if !Truthy(taskId) {
      assert p.session == s;
    } else {
      var k := PollLoopBounded(script, s.wire, token, taskId.value, DefaultMaxAttempts);
      assert p.session.wire.sent[1..] == s.wire.sent[1..] + Statuses(token, taskId.value, k);
      BearingConcat(s.wire.sent[1..], Statuses(token, taskId.value, k), token);
    }
  }

  /** Every run authenticates exactly once, first: the token cached at that point is never
      cleared, so no later step authenticates again, and every later request bears that
      token. At most DefaultMaxAttempts status polls go out, so at most 34 requests in all. */
  lemma RemoveBackgroundTrace(publicKey: string, script: seq<Reply>, file: ImageFile)
    ensures var (o, w) := RemoveBackground(publicKey, script, file);
      |w.sent| >= 1 && w.sent[0] == AuthRequest(publicKey) &&
      |w.sent| <= 4 + DefaultMaxAttempts && w.pauses < DefaultMaxAttempts + 1 &&
      (|w.sent| > 1 ==> Truthy(IssuedToken(publicKey, script)) &&
                         Bearing(w.sent[1..], IssuedToken(publicKey, script).value))
  {
    var r := RemoveBackground(publicKey, script, file);
    var a := FetchToken(publicKey, script, Session(None, Wire([], 0)));
    if !Truthy(a.out) {
      assert r.1.sent == [AuthRequest(publicKey)];
      return;
    }
    var token := a.out.value;
    var u := UploadStep(publicKey, script, a.session, file);
    assert u.session == Session(Some(token), Wire([AuthRequest(publicKey), UploadRequest(token, file)], 0));
    assert Bearing(u.session.wire.sent[1..], token);
    if !Present(u.out) {
      return;
    }
    var t := TaskStep(publicKey, script, u.session, u.out.value);
    var task := TaskRequest(token, Get(u.out.value, "server_filename"), RemoveBackgroundTool);
    assert t.session == Session(Some(token), Wire(u.session.wire.sent + [task], 0));
    assert t.session.wire.sent[1..] == u.session.wire.sent[1..] + [task];
    BearingConcat(u.session.wire.sent[1..], [task], token);
    if !Present(t.out) {
      return;
    }
    var p := PollStep(publicKey, script, t.session, t.out.value, DefaultMaxAttempts);
    PollStepBearing(publicKey, script, t.session, t.out.value);
    if !Present(p.out) {
      return;
    }
    var d := DownloadStep(publicKey, script, p.session, p.out.value);
    var url := Get(p.out.value, "download");
    if Truthy(url) {
      assert d.session.wire.sent[1..] == p.session.wire.sent[1..] + [DownloadRequest(token, url.value)];
      BearingConcat(p.session.wire.sent[1..], [DownloadRequest(token, url.value)], token);
    }
  }

  /** The first falsy step ends the run with that step's message, and nothing after it is
      sent: a failed auth sends only the auth request, a failed upload only auth and upload,
      a failed task creation only those two and the task request, a failed poll no download
      request; a missing or empty download fails, and non-empty bytes complete the run. */
  lemma RemoveBackgroundStopsEarly(publicKey: string, script: seq<Reply>, file: ImageFile)
    ensures var r := RemoveBackground(publicKey, script, file);
      var auth := AuthRequest(publicKey);
      var token := IssuedToken(publicKey, script);
      (!Truthy(token) ==> r == (Failed("Failed to get access token"), Wire([auth], 0))) &&
      (Truthy(token) ==>
        var upload := Upload(script, Wire([auth], 0), file, token.value);
        (!Present(upload.out) ==>
           r == (Failed("Failed to upload image"), Wire([auth, UploadRequest(token.value, file)], 0))) &&
        (Present(upload.out) ==>
           var task := CreateTask(script, upload.wire, upload.out.value, token.value);
           (!Present(task.out) ==>
             r == (Failed("Failed to create remove background task"),
                   Wire([auth, UploadRequest(token.value, file),
                         TaskRequest(token.value, Get(upload.out.value, "server_filename"), RemoveBackgroundTool)], 0))) &&
           (Present(task.out) ==>
             var poll := Poll(script, task.wire, task.out.value, token.value, DefaultMaxAttempts);
             (!Present(poll.out) ==>
                r == (Failed("Task processing failed or timeout"), poll.wire) &&
                forall i :: 0 <= i < |r.1.sent| ==> !r.1.sent[i].DownloadRequest?) &&
             (Present(poll.out) ==>
                var download := Download(script, poll.wire, poll.out.value, token.value);
                (download.out.None? || download.out.value == [] ==>
                   r == (Failed("Failed to download result"), download.wire)) &&
                (download.out.Some? && download.out.value != [] ==>
                   r == (Completed(download.out.value, file.filename, ProcessedPrefix + file.filename), download.wire))))))
  {
    var a := FetchToken(publicKey, script, Session(None, Wire([], 0)));
    assert a.session.wire == Wire([AuthRequest(publicKey)], 0);
    if Truthy(a.out) {
      var token := a.out.value;
      var u := UploadStep(publicKey, script, a.session, file);
      var upload := Upload(script, Wire([AuthRequest(publicKey)], 0), file, token);
      assert u == Done(upload.out, Session(Some(token), upload.wire));
      assert upload.wire.sent == [AuthRequest(publicKey), UploadRequest(token, file)];
      if Present(u.out) {
        var t := TaskStep(publicKey, script, u.session, u.out.value);
        var task := CreateTask(script, upload.wire, upload.out.value, token);
        assert t == Done(task.out, Session(Some(token), task.wire));
        assert task.wire.sent == [AuthRequest(publicKey), UploadRequest(token, file),
          TaskRequest(token, Get(upload.out.value, "server_filename"), RemoveBackgroundTool)];
        if !Present(t.out) {
          assert RemoveBackground(publicKey, script, file) ==
            (Failed("Failed to create remove background task"), task.wire);
        } else {
          var p := PollStep(publicKey, script, t.session, t.out.value, DefaultMaxAttempts);
          var poll := Poll(script, task.wire, task.out.value, token, DefaultMaxAttempts);
          assert p == Done(poll.out, Session(Some(token), poll.wire));
          if !Present(p.out) {
            NoDownloadInPoll(script, task.wire, task.out.value, token);
          } else {
            var d := DownloadStep(publicKey, script, p.session, p.out.value);
            var download := Download(script, poll.wire, poll.out.value, token);
            assert d == Done(download.out, Session(Some(token), download.wire));
          }
        }
      }
    }
  }

  /** A poll sends status requests only, so after the task step no download request is on the wire. */
  lemma NoDownloadInPoll(script: seq<Reply>, w: Wire, taskResult: Fields, token: string)
    requires forall i :: 0 <= i < |w.sent| ==> !w.sent[i].DownloadRequest?
    ensures var sent := Poll(script, w, taskResult, token, DefaultMaxAttempts).wire.sent;
      forall i :: 0 <= i < |sent| ==> !sent[i].DownloadRequest?
  {
    var taskId := Get(taskResult, "task");
    if Truthy(taskId) {
      var k := PollLoopBounded(script, w, token, taskId.value, DefaultMaxAttempts);
      var sent := Poll(script, w, taskResult, token, DefaultMaxAttempts).wire.sent;
      forall i | 0 <= i < |sent|
        ensures !sent[i].DownloadRequest?
      {
        if i >= |w.sent| {
          assert sent[i] == Statuses(token, taskId.value, k)[i - |w.sent|];
        }
      }
    }
  }

  /** A completed run, read off the service's replies: the upload reply named the server
      file, the task reply the task id; k - 1 pending polls (1 <= k <= 30) were followed by a
      "Success" reply, whose download URL was fetched; the bytes are the reply to that fetch,
      non-empty, and the processed name is the original with the removed_background_ prefix. */
  lemma RemoveBackgroundCompleted(publicKey: string, script: seq<Reply>, file: ImageFile) returns (k: nat)
    requires RemoveBackground(publicKey, script, file).0.Completed?
    ensures var (o, w) := RemoveBackground(publicKey, script, file);
      var token := IssuedToken(publicKey, script);
      Truthy(token) && 1 <= k <= DefaultMaxAttempts && w.pauses == k - 1 &&
      PendingRun(script, 3, k - 1) && Succeeded(ReplyAt(script, k + 2)) &&
      "task" in ReplyAt(script, 2).fields && "download" in ReplyAt(script, k + 2).fields &&
      w.sent == [AuthRequest(publicKey), UploadRequest(token.value, file),
                 TaskRequest(token.value, Get(ReplyAt(script, 1).fields, "server_filename"), RemoveBackgroundTool)]
                + Statuses(token.value, ReplyAt(script, 2).fields["task"], k)
                + [DownloadRequest(token.value, ReplyAt(script, k + 2).fields["download"])] &&
      o.data == ReplyAt(script, k + 3).content && o.data != [] &&
      o.originalFilename == file.filename && o.processedFilename == ProcessedPrefix + file.filename
  {
    var r := RemoveBackground(publicKey, script, file);
    var a := FetchToken(publicKey, script, Session(None, Wire([], 0)));
    var token := a.out.value;
    var u := UploadStep(publicKey, script, a.session, file);
    assert u.out.value == ReplyAt(script, 1).fields;
    var t := TaskStep(publicKey, script, u.session, u.out.value);
    assert t.out.value == ReplyAt(script, 2).fields;
    assert |t.session.wire.sent| == 3 && t.session.wire.pauses == 0;
    var p := PollStep(publicKey, script, t.session, t.out.value, DefaultMaxAttempts);
    var taskId := Get(t.out.value, "task").value;
    k := PollLoopSucceeded(script, t.session.wire, token, taskId, DefaultMaxAttempts);
    assert p.out.value == ReplyAt(script, k + 2).fields;
    assert |p.session.wire.sent| == k + 3;
    var d := DownloadStep(publicKey, script, p.session, p.out.value);
    var url := p.out.value["download"];
    assert d.out.value == ReplyAt(script, k + 3).content;
    assert r.1.sent == [AuthRequest(publicKey), UploadRequest(token, file),
                        TaskRequest(token, Get(ReplyAt(script, 1).fields, "server_filename"), RemoveBackgroundTool)]
                       + Statuses(token, taskId, k) + [DownloadRequest(token, url)];
  }

  /** The bytes the service returns in the example run below: RESULTBYTES. */
  const HappyBytes: seq<byte> := [82, 69, 83, 85, 76, 84, 66, 89, 84, 69, 83]

  /** A service that answers every call at once: token T1, server file srv1, task tk1, a
      first poll reporting Success with a download URL, and HappyBytes. */
  function HappyScript(): seq<Reply>
  {
    [Reply(200, map["access_token" := "T1"], []),
     Reply(200, map["server_filename" := "srv1"], []),
     Reply(200, map["task" := "tk1"], []),
     Reply(200, map["status" := "Success", "download" := "https://dl/x"], []),
     Reply(200, map[], HappyBytes)]
  }

  /** The first three steps of the example run: auth, upload and task creation. */
  lemma HappyPathTask(file: ImageFile)
    ensures var script := HappyScript();
      var a := FetchToken("PK123", script, Session(None, Wire([], 0)));
      var u := UploadStep("PK123", script, a.session, file);
      a.out == Some("T1") && u.out == Some(map["server_filename" := "srv1"]) &&
      TaskStep("PK123", script, u.session, u.out.value) ==
        Done(Some(map["task" := "tk1"]),
             Session(Some("T1"), Wire([AuthRequest("PK123"), UploadRequest("T1", file),
                                       TaskRequest("T1", Some("srv1"), "removebg")], 0)))
  {
    var script := HappyScript();
    var w1 := Wire([AuthRequest("PK123")], 0);
    var w2 := Wire([AuthRequest("PK123"), UploadRequest("T1", file)], 0);
    var a := FetchToken("PK123", script, Session(None, Wire([], 0)));
    assert a == Done(Some("T1"), Session(Some("T1"), w1));
    var u := UploadStep("PK123", script, a.session, file);
    assert ReplyAt(script, 1) == script[1];
    assert u == Done(Some(map["server_filename" := "srv1"]), Session(Some("T1"), w2));
    assert ReplyAt(script, 2) == script[2];
  }

  /** The last two steps of the example run: one poll that succeeds, then the download. */
  lemma HappyPathDownload(file: ImageFile)
    ensures var script := HappyScript();
      var w3 := Wire([AuthRequest("PK123"), UploadRequest("T1", file), TaskRequest("T1", Some("srv1"), "removebg")], 0);
      var p := PollStep("PK123", script, Session(Some("T1"), w3), map["task" := "tk1"], DefaultMaxAttempts);
      p.out == Some(script[3].fields) &&
      DownloadStep("PK123", script, p.session, p.out.value) ==
        Done(Some(HappyBytes), Session(Some("T1"), Wire(w3.sent + [StatusRequest("T1", "tk1"),
                                                                   DownloadRequest("T1", "https://dl/x")], 0)))
  {
    var script := HappyScript();
    var w3 := Wire([AuthRequest("PK123"), UploadRequest("T1", file), TaskRequest("T1", Some("srv1"), "removebg")], 0);
    var w4 := Send(w3, StatusRequest("T1", "tk1"));
    assert ReplyAt(script, 3) == script[3];
    assert PendingRun(script, |w3.sent|, 0);
    PollLoopSucceedsAt(script, w3, "T1", "tk1", DefaultMaxAttempts, 0);
    assert w3.sent + Statuses("T1", "tk1", 1) == w4.sent;
    var p := PollStep("PK123", script, Session(Some("T1"), w3), map["task" := "tk1"], DefaultMaxAttempts);
    assert p == Done(Some(script[3].fields), Session(Some("T1"), w4));
    assert ReplyAt(script, 4) == script[4];
    assert w4.sent + [DownloadRequest("T1", "https://dl/x")] ==
      w3.sent + [StatusRequest("T1", "tk1"), DownloadRequest("T1", "https://dl/x")];
  }

  /** The run against HappyScript with public key PK123: five requests in order, no pause,
      and the downloaded bytes under the prefixed name. */
  lemma HappyPathExample(png: seq<byte>)
    ensures RemoveBackground("PK123", HappyScript(), ImageFile("cat.png", png, "image/png")) ==
      (Completed(HappyBytes, "cat.png", "removed_background_cat.png"),
       Wire([AuthRequest("PK123"), UploadRequest("T1", ImageFile("cat.png", png, "image/png")),
             TaskRequest("T1", Some("srv1"), "removebg"), StatusRequest("T1", "tk1"),
             DownloadRequest("T1", "https://dl/x")], 0))
  {
    var script := HappyScript();
    var file := ImageFile("cat.png", png, "image/png");
    HappyPathTask(file);
    HappyPathDownload(file);
    var a := FetchToken("PK123", script, Session(None, Wire([], 0)));
    var u := UploadStep("PK123", script, a.session, file);
    var t := TaskStep("PK123", script, u.session, u.out.value);
    var p := PollStep("PK123", script, t.session, t.out.value, DefaultMaxAttempts);
    var d := DownloadStep("PK123", script, p.session, p.out.value);
    assert "server_filename" in u.out.value && "task" in t.out.value && "status" in p.out.value;
    assert d.out == Some(HappyBytes) && HappyBytes[0] == 82;
    assert d.session.wire.sent == [AuthRequest("PK123"), UploadRequest("T1", file),
      TaskRequest("T1", Some("srv1"), "removebg"), StatusRequest("T1", "tk1"), DownloadRequest("T1", "https://dl/x")];
    assert RemoveBackground("PK123", script, file) ==
      (Completed(HappyBytes, "cat.png", ProcessedPrefix + "cat.png"), d.session.wire);
    assert ProcessedPrefix + "cat.png" == "removed_background_cat.png";
  }

  class ILoveImgClient {
    const publicKey: string
    /** The service this client talks to: its answer to the client's n-th request. */
    const script: seq<Reply>
    var accessToken: Option<string>
    var wire: Wire

    function State(): Session
      reads this
    {
      Session(accessToken, wire)
    }

    constructor (publicKey: string, script: seq<Reply>)
      ensures this.publicKey == publicKey && this.script == script
      ensures State() == Session(None, Wire([], 0))
    {
      this.publicKey := publicKey;
      this.script := script;
      accessToken := None;
      wire := Wire([], 0);
    }

    /** One call through `requests`: the request goes out and the scripted reply comes back. */
    method Exchange(request: Request) returns (reply: Reply)
      modifies this`wire
      ensures reply == Answer(script, old(wire)) && wire == Send(old(wire), request)
    {
      reply := Answer(script, wire);
      wire := Send(wire, request);
    }

    /** time.sleep(2), counted rather than slept. */
    method Pause()
      modifies this`wire
      ensures wire == old(wire).(pauses := old(wire).pauses + 1)
    {
      wire := wire.(pauses := wire.pauses + 1);
    }

    method GetAccessToken() returns (token: Option<string>)
      modifies this
      ensures Done(token, State()) == FetchToken(publicKey, script, old(State()))
    {
      var reply := Exchange(AuthRequest(publicKey));
      if IsOk(reply) {
        accessToken := Get(reply.fields, "access_token");
        return accessToken;
      }
      return None;
    }

    method UploadImage(file: ImageFile) returns (result: Option<Fields>)
      modifies this
      ensures Done(result, State()) == UploadStep(publicKey, script, old(State()), file)
    {
      if !Truthy(accessToken) {
        var token := GetAccessToken();
        if !Truthy(token) {
          return None;
        }
      }
      var reply := Exchange(UploadRequest(accessToken.value, file));
      result := if IsOk(reply) then Some(reply.fields) else None;
    }

    method CreateRemoveBackgroundTask(uploadResult: Fields) returns (result: Option<Fields>)
      modifies this
      ensures Done(result, State()) == TaskStep(publicKey, script, old(State()), uploadResult)
    {
      if !Truthy(accessToken) {
        var token := GetAccessToken();
        if !Truthy(token) {
          return None;
        }
      }
      var data := TaskRequest(accessToken.value, Get(uploadResult, "server_filename"), RemoveBackgroundTool);
      var reply := Exchange(data);
      result := if IsOk(reply) then Some(reply.fields) else None;
    }

    method PollTaskStatus(taskResult: Fields, maxAttempts: int) returns (result: Option<Fields>)
      modifies this
      ensures Done(result, State()) == PollStep(publicKey, script, old(State()), taskResult, maxAttempts)
    {
      if !Truthy(accessToken) {
        var token := GetAccessToken();
        if !Truthy(token) {
          return None;
        }
      }
      var taskId := Get(taskResult, "task");
      if !Truthy(taskId) {
        return None;
      }
      ghost var start := wire;
      var attempt := 0;
      while attempt < maxAttempts
        invariant 0 <= attempt && Truthy(accessToken) && accessToken == old(EnsureToken(publicKey, script, State())).session.token
        invariant PollLoop(script, start, accessToken.value, taskId.value, maxAttempts) ==
                  PollLoop(script, wire, accessToken.value, taskId.value, maxAttempts - attempt)
      {
        var reply := Exchange(StatusRequest(accessToken.value, taskId.value));
        if IsOk(reply) {
          var status := Get(reply.fields, "status");
          if status == Some("Success") {
            return Some(reply.fields);
          } else if status == Some("Error") {
            return None;
          }
          Pause();
        } else {
          return None;
        }
        attempt := attempt + 1;
      }
      return None;
    }

    method DownloadResult(processed: Fields) returns (result: Option<seq<byte>>)
      modifies this
      ensures Done(result, State()) == DownloadStep(publicKey, script, old(State()), processed)
    {
      if !Truthy(accessToken) {
        var token := GetAccessToken();
        if !Truthy(token) {
          return None;
        }
      }
      var url := Get(processed, "download");
      if !Truthy(url) {
        return None;
      }
      var reply := Exchange(DownloadRequest(accessToken.value, url.value));
      result := if IsOk(reply) then Some(reply.content) else None;
    }
  }

  /** remove_background_from_image: a fresh client per call, five steps, the first falsy
      result ends the run with that step's message. */
  method RemoveBackgroundFromImage(file: ImageFile, publicKey: string, script: seq<Reply>)
    returns (outcome: Outcome, wire: Wire)
    ensures (outcome, wire) == RemoveBackground(publicKey, script, file)
  {
    var client := new ILoveImgClient(publicKey, script);
    var token := client.GetAccessToken();
    if !Truthy(token) {
      return Failed("Failed to get access token"), client.wire;
    }
    var uploadResult := client.UploadImage(file);
    if !Present(uploadResult) {
      return Failed("Failed to upload image"), client.wire;
    }
    var taskResult := client.CreateRemoveBackgroundTask(uploadResult.value);
    if !Present(taskResult) {
      return Failed("Failed to create remove background task"), client.wire;
    }
    var processedResult := client.PollTaskStatus(taskResult.value, DefaultMaxAttempts);
    if !Present(processedResult) {
      return Failed("Task processing failed or timeout"), client.wire;
    }
    var resultData := client.DownloadResult(processedResult.value);
    if resultData.None? || resultData.value == [] {
      return Failed("Failed to download result"), client.wire;
    }
    return Completed(resultData.value, file.filename, ProcessedPrefix + file.filename), client.wire;
  }
}
