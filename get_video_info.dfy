/** tools/get_video_info.py: run ffprobe over the upload, reshape its format and stream
    metadata into a response dict, write a human summary (which also widens the response's
    resolution in place to the first video stream's), and yield the summary and the dict. */
module GetVideoInfo {
  import opened Values
  import opened VideoTools
  import Text

  /** One entry of ffprobe's "streams" list; a field is None when the entry lacks it. */
  datatype StreamMeta = StreamMeta(
    index: Option<int>, codecType: Option<string>, codecName: Option<string>,
    width: Option<int>, height: Option<int>, frameRate: Option<string>, aspectRatio: Option<string>,
    sampleRate: Option<string>, channels: Option<int>, channelLayout: Option<string>)

  /** ffprobe's "format" object: the name (None when missing), and the duration, size and
      bit_rate fields as float()/int() turn them out: None when missing, an Err carrying the
      exception text when the conversion raises. */
  datatype FormatMeta = FormatMeta(
    formatName: Option<string>, duration: Option<Result<real, string>>,
    size: Option<Result<int, string>>, bitRate: Option<Result<int, string>>)

  datatype Metadata = Metadata(format: FormatMeta, streams: seq<StreamMeta>)

  /** The ffprobe run: exit code, stdout, stderr, and what json.loads makes of stdout
      (None when it raises). */
  datatype InfoProbe = InfoProbe(returnCode: int, stdout: string, stderr: string, parsed: Option<Metadata>)

  /** The per-type part of a stream record; video and audio records always carry all of
      their keys, with None where ffprobe had nothing. */
  datatype Extra =
    | VideoExtra(width: Option<int>, height: Option<int>, frameRate: Option<string>, aspectRatio: string)
    | AudioExtra(sampleRate: Option<string>, channels: Option<int>, channelLayout: string)
    | NoExtra

  /** The dict _extract_stream_info builds. */
  datatype StreamInfo = StreamInfo(index: Option<int>, codecType: Option<string>, codecName: Option<string>, extra: Extra)

  function OrElse<T>(o: Option<T>, default: T): T
  {
    if o.Some? then o.value else default
  }

  /** _extract_stream_info: the three common keys always; width, height, frame rate and
      aspect ratio (default "unknown") for video; sample rate, channels and layout (default
      "unknown") for audio; nothing more for any other type. */
  function ExtractStreamInfo(m: StreamMeta): (info: StreamInfo)
    ensures info.index == m.index && info.codecType == m.codecType && info.codecName == m.codecName
    ensures info.extra.VideoExtra? <==> m.codecType == Some("video")
    ensures info.extra.AudioExtra? <==> m.codecType == Some("audio")
    ensures info.extra.VideoExtra? ==>
      info.extra.width == m.width && info.extra.height == m.height && info.extra.frameRate == m.frameRate &&
      (m.aspectRatio.None? ==> info.extra.aspectRatio == "unknown") &&
      (m.aspectRatio.Some? ==> info.extra.aspectRatio == m.aspectRatio.value)
    ensures info.extra.AudioExtra? ==>
      info.extra.sampleRate == m.sampleRate && info.extra.channels == m.channels &&
      (m.channelLayout.None? ==> info.extra.channelLayout == "unknown") &&
      (m.channelLayout.Some? ==> info.extra.channelLayout == m.channelLayout.value)
  {
    var extra :=
      if m.codecType == Some("video") then VideoExtra(m.width, m.height, m.frameRate, OrElse(m.aspectRatio, "unknown"))
      else if m.codecType == Some("audio") then AudioExtra(m.sampleRate, m.channels, OrElse(m.channelLayout, "unknown"))
      else NoExtra;
    StreamInfo(m.index, m.codecType, m.codecName, extra)
  }

  function OptStr(o: Option<string>): JValue
  {
    if o.Some? then JStr(o.value) else JNull
  }

  function OptInt(o: Option<int>): JValue
  {
    if o.Some? then JInt(o.value) else JNull
  }

  /** The stream record as the response's JSON holds it. */
  function StreamJson(info: StreamInfo): JsonObject
  {
    var common := map["index" := OptInt(info.index), "codec_type" := OptStr(info.codecType),
                      "codec_name" := OptStr(info.codecName)];
    match info.extra
    case VideoExtra(w, h, rate, aspect) =>
      common + map["width" := OptInt(w), "height" := OptInt(h), "r_frame_rate" := OptStr(rate),
                   "display_aspect_ratio" := JStr(aspect)]
    case AudioExtra(rate, channels, layout) =>
      common + map["sample_rate" := OptStr(rate), "channels" := OptInt(channels), "channel_layout" := JStr(layout)]
    case NoExtra => common
  }

  /** Every record has the three common keys, plus exactly the keys of its type. */
  lemma StreamJsonKeys(m: StreamMeta)
    ensures var keys := StreamJson(ExtractStreamInfo(m)).Keys;
      var common := {"index", "codec_type", "codec_name"};
      (m.codecType == Some("video") ==> keys == common + {"width", "height", "r_frame_rate", "display_aspect_ratio"}) &&
      (m.codecType == Some("audio") ==> keys == common + {"sample_rate", "channels", "channel_layout"}) &&
      (m.codecType != Some("video") && m.codecType != Some("audio") ==> keys == common)
  {
  }

  /** [s for s in streams if s["codec_type"] == kind], in order. */
  function OfType(streams: seq<StreamInfo>, kind: string): (r: seq<StreamInfo>)
    ensures |r| <= |streams|
    ensures forall i :: 0 <= i < |r| ==> r[i].codecType == Some(kind) && r[i] in streams
    ensures r == [] <==> forall i :: 0 <= i < |streams| ==> streams[i].codecType != Some(kind)
    ensures r != [] ==> exists i :: 0 <= i < |streams| && streams[i] == r[0] &&
                                    forall j :: 0 <= j < i ==> streams[j].codecType != Some(kind)
    decreases |streams|
  {
    if streams == [] then []
    else
      var rest := OfType(streams[1..], kind);
      assert forall i :: 1 <= i < |streams| ==> streams[1..][i - 1] == streams[i];
      if streams[0].codecType == Some(kind) then [streams[0]] + rest
      else
        assert rest != [] ==> exists i :: 1 <= i < |streams| && streams[i] == rest[0] &&
                                         forall j :: 0 <= j < i ==> streams[j].codecType != Some(kind) by {
          if rest != [] {
            var i :| 0 <= i < |streams[1..]| && streams[1..][i] == rest[0] &&
                     forall j :: 0 <= j < i ==> streams[1..][j].codecType != Some(kind);
            assert streams[i + 1] == rest[0];
            assert forall j :: 1 <= j < i + 1 ==> streams[j] == streams[1..][j - 1];
          }
        }
        rest
  }

  /** int(d // 60) and int(d % 60) with Python's floored division on floats. */
  function SplitDuration(d: real): (r: (int, int))
    ensures r.0 as real <= d / 60.0 < r.0 as real + 1.0
    ensures d >= 0.0 ==> r.0 >= 0
  {
    var minutes := (d / 60.0).Floor;
    (minutes, (d - 60.0 * minutes as real).Floor)
  }

  /** Seconds lie in [0, 60) and minutes and seconds add back up to the whole seconds. */
  lemma SplitDurationExact(d: real)
    ensures var (minutes, seconds) := SplitDuration(d);
      0 <= seconds < 60 && 60 * minutes + seconds == d.Floor
  {
    var minutes := (d / 60.0).Floor;
    var rest := d - 60.0 * minutes as real;
    assert minutes as real <= d / 60.0 < minutes as real + 1.0;
    assert 0.0 <= rest < 60.0;
    var seconds := rest.Floor;
    assert (60 * minutes + seconds) as real <= d < (60 * minutes + seconds + 1) as real;
  }

  /** The "format" part of the response, after the conversions. */
  datatype Format = Format(name: string, duration: real, size: int, bitRate: int)

  /** Lines 141-144 in order: the first conversion that raises ends the tool. */
  function ReadFormat(f: FormatMeta): (r: Result<Format, string>)
    ensures r.Ok? <==> ((f.duration.None? || f.duration.value.Ok?) && (f.size.None? || f.size.value.Ok?) &&
                        (f.bitRate.None? || f.bitRate.value.Ok?))
    ensures r.Ok? ==>
      r.value.name == OrElse(f.formatName, "unknown") &&
      (f.duration.None? ==> r.value.duration == 0.0) && (f.size.None? ==> r.value.size == 0) &&
      (f.bitRate.None? ==> r.value.bitRate == 0) &&
      (f.duration.Some? ==> r.value.duration == f.duration.value.value) &&
      (f.size.Some? ==> r.value.size == f.size.value.value) &&
      (f.bitRate.Some? ==> r.value.bitRate == f.bitRate.value.value)
    ensures f.duration.Some? && f.duration.value.Err? ==> r == Err(f.duration.value.error)
    ensures (f.duration.None? || f.duration.value.Ok?) && f.size.Some? && f.size.value.Err? ==>
      r == Err(f.size.value.error)
    ensures ((f.duration.None? || f.duration.value.Ok?) && (f.size.None? || f.size.value.Ok?) &&
             f.bitRate.Some? && f.bitRate.value.Err?) ==> r == Err(f.bitRate.value.error)
  {
    var duration := OrElse(f.duration, Ok(0.0));
    var size := OrElse(f.size, Ok(0));
    var bitRate := OrElse(f.bitRate, Ok(0));
    if duration.Err? then Err(duration.error)
    else if size.Err? then Err(size.error)
    else if bitRate.Err? then Err(bitRate.error)
    else Ok(Format(OrElse(f.formatName, "unknown"), duration.value, size.value, bitRate.value))
  }

  /** Reading back a format whose fields are all present and convert gives that format. */
  lemma ReadFormatRoundTrip(format: Format)
    ensures ReadFormat(FormatMeta(Some(format.name), Some(Ok(format.duration)), Some(Ok(format.size)),
                                  Some(Ok(format.bitRate)))) == Ok(format)
  {
  }

  /** The response dict as a value. */
  datatype Response = Response(filename: string, format: Format, width: int, height: int, streams: seq<StreamInfo>)

  function ResponseJson(r: Response): JsonObject
  {
    map["status" := JStr("success"),
        "filename" := JStr(r.filename),
        "format" := JObject(map["format_name" := JStr(r.format.name), "duration" := JReal(r.format.duration),
                                "size" := JInt(r.format.size), "bit_rate" := JInt(r.format.bitRate)]),
        "resolution" := JObject(map["width" := JInt(r.width), "height" := JInt(r.height)]),
        "streams" := JList(seq(|r.streams|, i requires 0 <= i < |r.streams| => JObject(StreamJson(r.streams[i]))))]
  }

  /** What max(current, None) raises. */
  const MaxTypeError := "'>' not supported between instances of 'NoneType' and 'int'"

  /** str() of an optional value, "None" when absent. */
  function ShowInt(o: Option<int>): string
  {
    if o.Some? then Text.IntToString(o.value) else "None"
  }

  function ShowStr(o: Option<string>): string
  {
    if o.Some? then o.value else "None"
  }

  function Max(a: int, b: int): int
  {
    if b > a then b else a
  }

  /** What _generate_summary_text returns (the summary, or the text of the exception it
      raises) and the resolution it leaves in the response. */
  datatype Summary = Summary(text: Result<string, string>, width: int, height: int)

  function HeadLines(format: Format, filename: string): seq<string>
  {
    var (minutes, seconds) := SplitDuration(format.duration);
    ["Video Information for " + filename + ":", "",
     "Format: " + format.name,
     "Duration: " + Text.IntToString(minutes) + "m " + Text.IntToString(seconds) + "s",
     "Size: " + Text.Fixed2(format.size as real / 1048576.0) + " MB"]
  }

  function TailLines(format: Format, streams: seq<StreamInfo>, primary: StreamInfo): seq<string>
  {
    var audio := OfType(streams, "audio");
    ["Video Codec: " + ShowStr(primary.codecName)]
    + (if audio != [] then ["Audio Codec: " + ShowStr(audio[0].codecName)] else [])
    + ["Bitrate: " + Text.Fixed2(format.bitRate as real / 1000.0) + " kbps"]
  }

  /** With no video stream the summary says so and the resolution is left alone; otherwise
      the resolution becomes the max of the current one and the first video stream's, or the
      max raises when that stream lacks a width or a height. */
  function Summarize(r: Response, filename: string): (s: Summary)
    ensures var video := OfType(r.streams, "video");
      (video == [] ==> s == Summary(Ok("No video streams found in " + filename), r.width, r.height)) &&
      (video != [] && video[0].extra.VideoExtra? ==>
         var e := video[0].extra;
         (e.width.None? || e.height.None? <==> s.text.Err?) &&
         (s.text.Err? ==> s.text.error == MaxTypeError) &&
         (s.text.Ok? ==> s.width == Max(r.width, e.width.value) && s.height == Max(r.height, e.height.value) &&
                         s.width >= r.width && s.height >= r.height))
  {
    var video := OfType(r.streams, "video");
    if video == [] then Summary(Ok("No video streams found in " + filename), r.width, r.height)
    else
      var primary := video[0];
      match primary.extra
      case VideoExtra(w, h, _, _) =>
        var resolution := "Resolution: " + ShowInt(w) + "x" + ShowInt(h);
        if w.None? then Summary(Err(MaxTypeError), r.width, r.height)
        else if h.None? then Summary(Err(MaxTypeError), Max(r.width, w.value), r.height)
        else
          var lines := HeadLines(r.format, filename) + [resolution] + TailLines(r.format, r.streams, primary);
          Summary(Ok(Text.Join(lines, "\n")), Max(r.width, w.value), Max(r.height, h.value))
      case _ =>
        Summary(Ok(Text.Join(HeadLines(r.format, filename) + TailLines(r.format, r.streams, primary), "\n")), r.width, r.height)
  }

  /** The summary's lines: the header, the resolution, the video codec, an audio codec line
      exactly when some stream is audio (naming the first one's codec), and the bitrate. */
  lemma SummaryLines(r: Response, filename: string, primary: StreamInfo)
    ensures var audio := OfType(r.streams, "audio");
      var tail := TailLines(r.format, r.streams, primary);
      |HeadLines(r.format, filename)| == 5 &&
      |tail| == (if audio == [] then 2 else 3) &&
      tail[0] == "Video Codec: " + ShowStr(primary.codecName) &&
      (audio != [] ==> tail[1] == "Audio Codec: " + ShowStr(audio[0].codecName)) &&
      tail[|tail| - 1] == "Bitrate: " + Text.Fixed2(r.format.bitRate as real / 1000.0) + " kbps" &&
      (audio == [] <==> forall i :: 0 <= i < |r.streams| ==> r.streams[i].codecType != Some("audio"))
  {
    var audio := OfType(r.streams, "audio");
    var codec := ["Video Codec: " + ShowStr(primary.codecName)];
    var audioLine := if audio != [] then ["Audio Codec: " + ShowStr(audio[0].codecName)] else [];
    var bitrate := ["Bitrate: " + Text.Fixed2(r.format.bitRate as real / 1000.0) + " kbps"];
    assert TailLines(r.format, r.streams, primary) == codec + audioLine + bitrate;
  }

  /** The response dict that _invoke builds and _generate_summary_text updates in place. */
  class VideoInfoResponse {
    const filename: string
    const format: Format
    var width: int
    var height: int
    var streams: seq<StreamInfo>

    function Value(): Response
      reads this
    {
      Response(filename, format, width, height, streams)
    }

    /** Lines 137-151: no streams yet and a 0x0 resolution. */
    constructor (filename: string, format: Format)
      ensures Value() == Response(filename, format, 0, 0, [])
    {
      this.filename := filename;
      this.format := format;
      width := 0;
      height := 0;
      streams := [];
    }

    method AppendStream(info: StreamInfo)
      modifies this`streams
      ensures streams == old(streams) + [info]
    {
      streams := streams + [info];
    }

    function ToJson(): JsonObject
      reads this
    {
      ResponseJson(Value())
    }

    /** _generate_summary_text: returns the summary, or the exception text when max() raises;
      only the resolution changes. */
    method GenerateSummaryText(name: string) returns (text: Result<string, string>)
      modifies this`width, this`height
      ensures Summary(text, width, height) == Summarize(old(Value()), name)
    {
      var video := OfType(streams, "video");
      if video == [] {
        return Ok("No video streams found in " + name);
      }
      var primary := video[0];
      var lines := HeadLines(format, name);
      if primary.extra.VideoExtra? {
        lines := lines + ["Resolution: " + ShowInt(primary.extra.width) + "x" + ShowInt(primary.extra.height)];
        if primary.extra.width.None? {
          return Err(MaxTypeError);
        }
        width := Max(width, primary.extra.width.value);
        if primary.extra.height.None? {
          return Err(MaxTypeError);
        }
        height := Max(height, primary.extra.height.value);
      }
      lines := lines + TailLines(format, streams, primary);
      return Ok(Text.Join(lines, "\n"));
    }
  }

  /** str.isspace() on the characters ffprobe can print. */
  predicate IsSpace(c: char)
  {
    c as int == 32 || 9 <= c as int <= 13 || 28 <= c as int <= 31
  }

  /** not stdout.strip() */
  predicate Blank(s: string)
  {
    forall i :: 0 <= i < |s| ==> IsSpace(s[i])
  }

  /** Line 132 names debug_info, which is defined nowhere, so a JSON parse failure raises
      NameError and the outer handler reports that instead of the parse error. */
  const DebugInfoError := "name 'debug_info' is not defined"

  /** The records the stream loop of lines 154-156 builds, one per ffprobe stream. */
  function StreamInfos(streams: seq<StreamMeta>): seq<StreamInfo>
  {
    seq(|streams|, i requires 0 <= i < |streams| => ExtractStreamInfo(streams[i]))
  }

  /** The first video stream lacks a width or a height, so the summary's max() raises. */
  predicate MissingDimension(infos: seq<StreamInfo>)
  {
    var video := OfType(infos, "video");
    video != [] && video[0].extra.VideoExtra? && (video[0].extra.width.None? || video[0].extra.height.None?)
  }

  /** _invoke, as the messages it yields. */
  function Analyze(video: Option<VideoFile>, probe: InfoProbe): (messages: seq<Message>)
    ensures video.None? ==> messages == ErrorMessages("No video file provided")
    ensures video.Some? && probe.returnCode != 0 ==>
      messages == ErrorMessages("Error analyzing video file: " + probe.stderr)
    ensures video.Some? && probe.returnCode == 0 && Blank(probe.stdout) ==>
      messages == ErrorMessages("ffprobe returned empty output")
    ensures video.Some? && probe.returnCode == 0 && !Blank(probe.stdout) && probe.parsed.None? ==>
      messages == ErrorMessages(ProcessingError(DebugInfoError))
    ensures video.Some? && probe.returnCode == 0 && !Blank(probe.stdout) && probe.parsed.Some? &&
            ReadFormat(probe.parsed.value.format).Err? ==>
      messages == ErrorMessages(ProcessingError(ReadFormat(probe.parsed.value.format).error))
    ensures video.Some? && probe.returnCode == 0 && !Blank(probe.stdout) && probe.parsed.Some? &&
            ReadFormat(probe.parsed.value.format).Ok? && MissingDimension(StreamInfos(probe.parsed.value.streams)) ==>
      messages == ErrorMessages(ProcessingError(MaxTypeError))
    ensures |messages| == 2 && messages[0].Text?
    ensures (messages[1].Json? && "status" in messages[1].body && messages[1].body["status"] == JStr("success")) <==>
      (video.Some? && probe.returnCode == 0 && !Blank(probe.stdout) && probe.parsed.Some? &&
       ReadFormat(probe.parsed.value.format).Ok? && !MissingDimension(StreamInfos(probe.parsed.value.streams)))
  {
    if video.None? then ErrorMessages("No video file provided")
    else if probe.returnCode != 0 then ErrorMessages("Error analyzing video file: " + probe.stderr)
    else if Blank(probe.stdout) then ErrorMessages("ffprobe returned empty output")
    else if probe.parsed.None? then ErrorMessages(ProcessingError(DebugInfoError))
    else
      var meta := probe.parsed.value;
      var format := ReadFormat(meta.format);
      if format.Err? then ErrorMessages(ProcessingError(format.error))
      else
        var infos := StreamInfos(meta.streams);
        var response := Response(video.value.filename, format.value, 0, 0, infos);
        var summary := Summarize(response, video.value.filename);
        if summary.text.Err? then ErrorMessages(ProcessingError(summary.text.error))
        else [Text(summary.text.value), Json(ResponseJson(response.(width := summary.width, height := summary.height)))]
  }

  /** A successful run reports the summary text, the converted format, one record per input
      stream in input order, and a resolution that is 0x0 without a video stream and
      otherwise the first video stream's width and height, each raised to at least 0. */
  lemma AnalyzeSucceeds(video: Option<VideoFile>, probe: InfoProbe)
    requires Analyze(video, probe)[1].Json? && Analyze(video, probe)[1].body["status"] == JStr("success")
    ensures probe.parsed.Some?
    ensures var meta := probe.parsed.value;
      var body := Analyze(video, probe)[1].body;
      "streams" in body && body["streams"].JList? && |body["streams"].items| == |meta.streams| &&
      (forall i :: 0 <= i < |meta.streams| ==>
         body["streams"].items[i] == JObject(StreamJson(ExtractStreamInfo(meta.streams[i])))) &&
      "resolution" in body && body["resolution"].JObject? &&
      "width" in body["resolution"].fields && body["resolution"].fields["width"].JInt? &&
      body["resolution"].fields["width"].i >= 0
    ensures var meta := probe.parsed.value;
      var format := ReadFormat(meta.format);
      var infos := StreamInfos(meta.streams);
      var first := OfType(infos, "video");
      var messages := Analyze(video, probe);
      var body := messages[1].body;
      video.Some? && format.Ok? &&
      messages[0] == Text(Summarize(Response(video.value.filename, format.value, 0, 0, infos), video.value.filename).text.value) &&
      (first == [] ==> messages[0] == Text("No video streams found in " + video.value.filename)) &&
      "format" in body &&
      body["format"] == JObject(map["format_name" := JStr(format.value.name), "duration" := JReal(format.value.duration),
                                    "size" := JInt(format.value.size), "bit_rate" := JInt(format.value.bitRate)]) &&
      (first == [] ==> body["resolution"] == JObject(map["width" := JInt(0), "height" := JInt(0)])) &&
      (first != [] ==>
         first[0].extra.VideoExtra? && first[0].extra.width.Some? && first[0].extra.height.Some? &&
         body["resolution"] == JObject(map["width" := JInt(Max(0, first[0].extra.width.value)),
                                           "height" := JInt(Max(0, first[0].extra.height.value))]))
  {
    AnalyzeSuccessValue(video, probe);
    var meta := probe.parsed.value;
    var format := ReadFormat(meta.format).value;
    var infos := StreamInfos(meta.streams);
    var response := Response(video.value.filename, format, 0, 0, infos);
    var summary := Summarize(response, video.value.filename);
    SummaryResolution(video.value.filename, format, meta.streams);
    ResponseJsonFields(response.(width := summary.width, height := summary.height));
  }

  /** The success branch of Analyze: the summary text and the response with the summary's
      resolution. */
  lemma AnalyzeSuccessValue(video: Option<VideoFile>, probe: InfoProbe)
    requires Analyze(video, probe)[1].Json? && Analyze(video, probe)[1].body["status"] == JStr("success")
    ensures video.Some? && probe.parsed.Some? && ReadFormat(probe.parsed.value.format).Ok?
    ensures var response := Response(video.value.filename, ReadFormat(probe.parsed.value.format).value, 0, 0,
                                     StreamInfos(probe.parsed.value.streams));
      var summary := Summarize(response, video.value.filename);
      summary.text.Ok? &&
      Analyze(video, probe) ==
        [Text(summary.text.value), Json(ResponseJson(response.(width := summary.width, height := summary.height)))]
  {
    assert !Analyze(video, probe)[1].Json? || Analyze(video, probe)[1].body["status"] != JStr("error");
  }

  /** The keys of the response dict hold the format block, the resolution and the records. */
  lemma ResponseJsonFields(r: Response)
    ensures var body := ResponseJson(r);
      "format" in body && "resolution" in body && "streams" in body &&
      body["format"] == JObject(map["format_name" := JStr(r.format.name), "duration" := JReal(r.format.duration),
                                    "size" := JInt(r.format.size), "bit_rate" := JInt(r.format.bitRate)]) &&
      body["resolution"] == JObject(map["width" := JInt(r.width), "height" := JInt(r.height)]) &&
      body["resolution"].fields["width"] == JInt(r.width) &&
      body["streams"].JList? && |body["streams"].items| == |r.streams| &&
      forall i :: 0 <= i < |r.streams| ==> body["streams"].items[i] == JObject(StreamJson(r.streams[i]))
  {
  }

  /** Summarizing a fresh 0x0 response: no video stream leaves 0x0 with the no-video text;
      otherwise the first video stream carries a video record, and when the summary succeeds
      the resolution is its width and height raised to at least 0. */
  lemma SummaryResolution(filename: string, format: Format, streams: seq<StreamMeta>)
    ensures var infos := StreamInfos(streams);
      var first := OfType(infos, "video");
      var s := Summarize(Response(filename, format, 0, 0, infos), filename);
      (first == [] ==> s == Summary(Ok("No video streams found in " + filename), 0, 0)) &&
      (first != [] ==>
         first[0].extra.VideoExtra? &&
         (s.text.Ok? ==>
            first[0].extra.width.Some? && first[0].extra.height.Some? &&
            s.width == Max(0, first[0].extra.width.value) && s.height == Max(0, first[0].extra.height.value)))
  {
    var infos := StreamInfos(streams);
    var first := OfType(infos, "video");
    if first != [] {
      var k :| 0 <= k < |infos| && infos[k] == first[0];
      assert infos[k] == ExtractStreamInfo(streams[k]);
    }
  }

  /** _invoke: the stream loop appends one record per ffprobe stream, then the summary
      widens the resolution in place before the response is yielded. */
  method Invoke(video: Option<VideoFile>, probe: InfoProbe) returns (messages: seq<Message>)
    ensures messages == Analyze(video, probe)
  {
    if video.None? {
      return ErrorMessages("No video file provided");
    }
    if probe.returnCode != 0 {
      return ErrorMessages("Error analyzing video file: " + probe.stderr);
    }
    if Blank(probe.stdout) {
      return ErrorMessages("ffprobe returned empty output");
    }
    if probe.parsed.None? {
      return ErrorMessages(ProcessingError(DebugInfoError));
    }
    var meta := probe.parsed.value;
    var format := ReadFormat(meta.format);
    if format.Err? {
      return ErrorMessages(ProcessingError(format.error));
    }
    var response := new VideoInfoResponse(video.value.filename, format.value);
    for i := 0 to |meta.streams|
      invariant response.Value() == Response(video.value.filename, format.value, 0, 0, response.streams)
      invariant |response.streams| == i
      invariant forall j :: 0 <= j < i ==> response.streams[j] == ExtractStreamInfo(meta.streams[j])
    {
      var info := ExtractStreamInfo(meta.streams[i]);
      response.AppendStream(info);
    }
    assert response.streams == StreamInfos(meta.streams);
    var summary := response.GenerateSummaryText(video.value.filename);
    if summary.Err? {
      return ErrorMessages(ProcessingError(summary.error));
    }
    messages := [Text(summary.value), Json(response.ToJson())];
  }
}
