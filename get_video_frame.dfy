/** tools/get_video_frame.py: check the frame type and, for "time", the time parameter; pick
    the seek time (probing the duration only for "end"); extract one JPEG named after the
    upload. */
module GetVideoFrame {
  import opened Values
  import opened VideoTools
  import Text
  import Paths

  const ValidTypes := ["start", "end", "time"]

  /** What a valid request asks for. */
  datatype FrameRequest = AtStart | AtEnd | AtTime(seconds: real)

  /** The type parameter, defaulting to "start": missing or empty text is refused first,
      then anything but the three names. */
  function FrameType(typeParam: Param): (r: Result<string, string>)
    ensures r.Ok? <==> typeParam.Absent? || (typeParam.Given? && typeParam.text in ValidTypes)
    ensures r.Ok? ==> r.value in ValidTypes
    ensures typeParam.Absent? ==> r == Ok("start")
    ensures typeParam.Null? || typeParam == Given("") ==> r == Err("No frame type specified")
    ensures typeParam.Given? && typeParam.text != "" && typeParam.text !in ValidTypes ==>
      r == Err("Unsupported frame type: " + typeParam.text + ". Supported types are: start, end, time")
  {
    match typeParam
    case Absent => Ok("start")
    case Null => Err("No frame type specified")
    case Given(t) =>
      if t == "" then Err("No frame type specified")
      else if t !in ValidTypes then
        assert Text.Join(ValidTypes, ", ") == "start, end, time" by {
          assert ValidTypes[1..][1..] == ["time"];
          assert Text.Join(["time"], ", ") == "time";
          assert Text.Join(["end", "time"], ", ") == "end, time";
        }
        var message := "Unsupported frame type: " + t + ". Supported types are: " + Text.Join(ValidTypes, ", ");
        assert message == "Unsupported frame type: " + t + ". Supported types are: start, end, time" by {
          var prefix := "Unsupported frame type: " + t;
          assert ". Supported types are: " + "start, end, time" == ". Supported types are: start, end, time";
          assert (prefix + ". Supported types are: ") + "start, end, time" == prefix + (". Supported types are: " + "start, end, time");
        }
        Err(message)
      else Ok(t)
  }

  /** The checks of lines 18-61: video, type, then the time only when the type is "time". */
  function Validate(video: Option<VideoFile>, typeParam: Param, timeParam: Param,
                    parseReal: string -> Option<real>): (r: Result<FrameRequest, string>)
    ensures video.None? ==> r == Err("No video file provided")
    ensures video.Some? && FrameType(typeParam).Err? ==> r == Err(FrameType(typeParam).error)
    ensures r.Ok? ==> video.Some? && FrameType(typeParam).Ok?
    ensures r.Ok? && r.value.AtTime? ==> r.value.seconds >= 0.0
    ensures r.Ok? ==> (r.value.AtStart? <==> FrameType(typeParam) == Ok("start")) &&
                      (r.value.AtEnd? <==> FrameType(typeParam) == Ok("end")) &&
                      (r.value.AtTime? <==> FrameType(typeParam) == Ok("time"))
    ensures var t := Coerce(timeParam, 1.0, parseReal);
      (r.Ok? <==> video.Some? && FrameType(typeParam).Ok? &&
                  (FrameType(typeParam).value == "time" ==> t.Some? && t.value >= 0.0)) &&
      (r.Ok? && r.value.AtTime? ==> r.value.seconds == t.value) &&
      (video.Some? && FrameType(typeParam) == Ok("time") && t.None? ==>
         r == Err("Invalid time parameter. Must be a number")) &&
      (video.Some? && FrameType(typeParam) == Ok("time") && t.Some? && t.value < 0.0 ==>
         r == Err("Time parameter must be non-negative"))
  {
    if video.None? then Err("No video file provided")
    else
      var frameType := FrameType(typeParam);
      if frameType.Err? then Err(frameType.error)
      else if frameType.value == "start" then Ok(AtStart)
      else if frameType.value == "end" then Ok(AtEnd)
      else
        var t := Coerce(timeParam, 1.0, parseReal);
        if t.None? then Err("Invalid time parameter. Must be a number")
        else if t.value < 0.0 then Err("Time parameter must be non-negative")
        else Ok(AtTime(t.value))
  }

  /** A seek time and the JSON value the tool reports it as: the int 0 for "start" and for
      an "end" whose max(0, duration - 1) keeps its first argument, a float otherwise. */
  datatype Seek = Seek(seconds: real, json: JValue)

  /** Lines 79-105: 0 for "start", max(0, duration - 1) for "end", the time itself for "time". */
  function SeekFor(request: FrameRequest, probe: DurationProbe): (r: Result<Seek, string>)
    requires request.AtTime? ==> request.seconds >= 0.0
    ensures r.Ok? ==> r.value.seconds >= 0.0
    ensures r.Ok? ==> r.value.json == JInt(0) || r.value.json == JReal(r.value.seconds)
    ensures !request.AtEnd? ==> r.Ok?
    ensures request.AtEnd? ==> (r.Ok? <==> ProbedDuration(probe).Ok?)
    ensures request.AtStart? ==> r == Ok(Seek(0.0, JInt(0)))
    ensures request.AtTime? ==> r == Ok(Seek(request.seconds, JReal(request.seconds)))
    ensures request.AtEnd? && ProbedDuration(probe).Err? ==> r == Err(ProbedDuration(probe).error)
    ensures request.AtEnd? && r.Ok? ==>
      var d := ProbedDuration(probe).value;
      r.value.seconds >= 0.0 && r.value.seconds >= d - 1.0 &&
      (r.value.seconds == 0.0 || r.value.seconds == d - 1.0) &&
      (r.value.json == JInt(0) <==> d - 1.0 <= 0.0)
  {
    match request
    case AtStart => Ok(Seek(0.0, JInt(0)))
    case AtTime(t) => Ok(Seek(t, JReal(t)))
    case AtEnd =>
      var d := ProbedDuration(probe);
      if d.Err? then Err(d.error)
      else if d.value - 1.0 > 0.0 then Ok(Seek(d.value - 1.0, JReal(d.value - 1.0)))
      else Ok(Seek(0.0, JInt(0)))
  }

  /** f"{splitext(filename)[0]}_frame.jpg" */
  function OutputName(filename: string): (name: string)
    ensures |name| >= 10 && name[|name| - 10..] == "_frame.jpg"
    ensures name[..|name| - 10] <= filename
  {
    Paths.SplitExt(filename).0 + "_frame.jpg"
  }

  function FrameTypeName(request: FrameRequest): string
  {
    match request
    case AtStart => "start"
    case AtEnd => "end"
    case AtTime(_) => "time"
  }

  /** Lines 108-164: the announcement, then the ffmpeg outcome. */
  function Extraction(file: VideoFile, request: FrameRequest, seek: Seek, run: FrameRun): (messages: seq<Message>)
    ensures |messages| == 3 || |messages| == 4
    ensures messages[0] == Text("Extracting frame from video...")
    ensures run.returnCode != 0 ==> messages[1..] == ErrorMessages("Failed to extract video frame: " + run.stderr)
    ensures run.returnCode == 0 && run.output.None? ==>
      messages[1..] == ErrorMessages("Extracted frame file does not exist")
    ensures run.returnCode == 0 && run.output.Some? <==> |messages| == 4
    ensures |messages| == 4 ==>
      messages[1] == Blob(run.output.value, OutputName(file.filename), JpegMime) &&
      messages[2].Json? &&
      "frame_type" in messages[2].body && messages[2].body["frame_type"] == JStr(FrameTypeName(request)) &&
      "seek_time" in messages[2].body && messages[2].body["seek_time"] == seek.json &&
      "frame_size" in messages[2].body && messages[2].body["frame_size"] == JInt(|run.output.value|) &&
      messages[3] == Text("Successfully extracted frame from " + file.filename + " at " + Text.Fixed2(seek.seconds) + "s.")
  {
    var name := OutputName(file.filename);
    [Text("Extracting frame from video...")] +
    if run.returnCode != 0 then ErrorMessages("Failed to extract video frame: " + run.stderr)
    else if run.output.None? then ErrorMessages("Extracted frame file does not exist")
    else
      var data := run.output.value;
      [Blob(data, name, JpegMime),
       Json(map["status" := JStr("success"),
                "message" := JStr("Successfully extracted frame from video"),
                "original_filename" := JStr(file.filename),
                "frame_filename" := JStr(name),
                "frame_type" := JStr(FrameTypeName(request)),
                "seek_time" := seek.json,
                "frame_size" := JInt(|data|)]),
       Text("Successfully extracted frame from " + file.filename + " at " + Text.Fixed2(seek.seconds) + "s.")]
  }

  /** _invoke, as the sequence of messages it yields. */
  function Invoke(video: Option<VideoFile>, typeParam: Param, timeParam: Param, parseReal: string -> Option<real>,
                  probe: DurationProbe, run: FrameRun): (messages: seq<Message>)
    ensures var v := Validate(video, typeParam, timeParam, parseReal);
      (v.Err? ==> messages == ErrorMessages(v.error)) &&
      (v.Ok? && SeekFor(v.value, probe).Err? ==> messages == ErrorMessages(SeekFor(v.value, probe).error)) &&
      (v.Ok? && SeekFor(v.value, probe).Ok? ==>
         |messages| >= 3 && messages[0] == Text("Extracting frame from video..."))
  {
    var v := Validate(video, typeParam, timeParam, parseReal);
    if v.Err? then ErrorMessages(v.error)
    else
      var seek := SeekFor(v.value, probe);
      if seek.Err? then ErrorMessages(seek.error)
      else Extraction(video.value, v.value, seek.value, run)
  }

  /** Once a seek time is chosen: a failed ffmpeg run or a missing output file ends the tool
      after the announcement with its own error; a successful extraction yields the blob,
      then the JSON echoing type, seek time and the byte count, then the closing text. */
  lemma InvokeExtraction(video: Option<VideoFile>, typeParam: Param, timeParam: Param, parseReal: string -> Option<real>,
                       probe: DurationProbe, run: FrameRun)
    requires Validate(video, typeParam, timeParam, parseReal).Ok?
    requires SeekFor(Validate(video, typeParam, timeParam, parseReal).value, probe).Ok?
    ensures var messages := Invoke(video, typeParam, timeParam, parseReal, probe, run);
      var seek := SeekFor(Validate(video, typeParam, timeParam, parseReal).value, probe).value;
      var announced := [Text("Extracting frame from video...")];
      (run.returnCode != 0 ==>
         messages == announced + ErrorMessages("Failed to extract video frame: " + run.stderr)) &&
      (run.returnCode == 0 && run.output.None? ==>
         messages == announced + ErrorMessages("Extracted frame file does not exist")) &&
      (run.returnCode == 0 && run.output.Some? <==> |messages| == 4 && messages[1].Blob?) &&
      (run.returnCode == 0 && run.output.Some? ==>
         messages[1] == Blob(run.output.value, OutputName(video.value.filename), JpegMime) &&
         messages[2].Json? &&
         "frame_type" in messages[2].body && "seek_time" in messages[2].body && "frame_size" in messages[2].body &&
         messages[2].body["frame_type"] == JStr(FrameType(typeParam).value) &&
         messages[2].body["seek_time"] == seek.json && seek.seconds >= 0.0 &&
         messages[2].body["frame_size"] == JInt(|run.output.value|))
  {
  }

  /** The output is named after the upload's root: "clip.mp4" gives "clip_frame.jpg". */
  lemma OutputNameOf(root: string, ext: string)
    requires Paths.IsExtension(ext) && Paths.HasNamedStem(root, Paths.RFind(root, '/'))
    ensures OutputName(root + ext) == root + "_frame.jpg"
  {
    Paths.SplitExtComplete(root, ext);
  }

  /** What each valid type seeks to: "start" passes and seeks to the int 0; "time" with a
      parsed time t >= 0 passes and seeks to t; "end" passes and seeks to max(0, d - 1) of a
      probed duration d, failing exactly when the probe fails. */
  lemma SeekByType(video: VideoFile, typeParam: Param, timeParam: Param, parseReal: string -> Option<real>,
                   probe: DurationProbe)
    ensures var v := Validate(Some(video), typeParam, timeParam, parseReal);
      var t := Coerce(timeParam, 1.0, parseReal);
      (FrameType(typeParam) == Ok("start") ==> v == Ok(AtStart) && SeekFor(v.value, probe) == Ok(Seek(0.0, JInt(0)))) &&
      (FrameType(typeParam) == Ok("time") && t.Some? && t.value >= 0.0 ==>
         v == Ok(AtTime(t.value)) && SeekFor(v.value, probe) == Ok(Seek(t.value, JReal(t.value)))) &&
      (FrameType(typeParam) == Ok("end") ==>
         v == Ok(AtEnd) && (SeekFor(v.value, probe).Ok? <==> ProbedDuration(probe).Ok?) &&
         (SeekFor(v.value, probe).Ok? ==>
            var d := ProbedDuration(probe).value;
            SeekFor(v.value, probe).value.seconds == (if d - 1.0 > 0.0 then d - 1.0 else 0.0)))
  {
  }

  /** The time parameter matters only when the type is "time". */
  lemma TimeIgnoredUnlessTimeType(video: Option<VideoFile>, typeParam: Param, time1: Param, time2: Param,
                                  parseReal: string -> Option<real>, probe: DurationProbe, run: FrameRun)
    requires FrameType(typeParam) != Ok("time")
    ensures Invoke(video, typeParam, time1, parseReal, probe, run) == Invoke(video, typeParam, time2, parseReal, probe, run)
  {
  }

  /** The duration is probed only for "end": any other request ignores the probe's outcome. */
  lemma ProbeOnlyForEnd(video: Option<VideoFile>, typeParam: Param, timeParam: Param,
                        parseReal: string -> Option<real>, probe1: DurationProbe, probe2: DurationProbe, run: FrameRun)
    requires FrameType(typeParam) != Ok("end")
    ensures Invoke(video, typeParam, timeParam, parseReal, probe1, run) == Invoke(video, typeParam, timeParam, parseReal, probe2, run)
  {
  }
}
